/** The processing executor: screen the script, create a fresh
    `processor_<id>` workspace, copy every top-level entry of the scraped
    folder into it, write the script as `processor.py` over whatever was
    copied under that name, run it there once, and report what it printed
    together with the workspace. */
module ExecutorProcessing {
  import opened Wrappers
  import opened Strings
  import opened FileTree
  import opened Denylist
  import opened Sandbox
  import Executor

  const ForbiddenKeywords: seq<string> :=
    ["subprocess", "os.remove(", "os.rmdir(", "rm -rf", "sudo ", "apt-get", "pip install"]

  const UnsafeMessage := "Unsafe processing script. Aborted."
  const TimeoutMessage := "Processing script timeout."
  const ScriptName := "processor.py"

  /** The exception `open(<workspace>/processor.py, "w")` raises when the
      copied data already holds a directory of that name. */
  const ScriptPathIsDirectory := "IsADirectoryError: processor.py"

  /** The exception `os.listdir` raises when the scraped folder does not
      exist. */
  const ScrapedFolderMissing := "FileNotFoundError: scraped folder"

  /** `script_safe`: no forbidden keyword occurs in the script. */
  predicate ScriptSafe(script: string) {
    !Flags(ForbiddenKeywords, script)
  }

  /** The two executors keep identical keyword lists, so they always agree
      on a script. */
  lemma SameVerdict(script: string)
    ensures ScriptSafe(script) == Executor.IsScriptSafe(script)
  {
  }

  /** The workspace of one run: `<tmp>/processor_<id>`. */
  function Workspace(tmp: Path, runId: string): (ws: Path)
    ensures |ws| == |tmp| + 1 && ws[..|tmp|] == tmp
  {
    tmp + ["processor_" + runId]
  }

  /** What the copy loop has put into the workspace (relative paths) once
      it has handled the names in `done`: a file name brings that file, a
      directory name the directory and the whole tree below it. */
  function Copied(m: Tree, src: Path, done: set<string>): (t: Tree)
    ensures forall r :: r in t <==>
      r != [] && src + r in m && r[0] in done && (|r| == 1 || IsDirEntry(m, src + [r[0]]))
    ensures forall r :: r in t ==> t[r] == m[src + r]
  {
    map r | r in Below(m, src) && r[0] in done && (|r| == 1 || IsDirEntry(m, src + [r[0]])) :: m[src + r]
  }

  /** The tree while the copy loop runs: the new workspace holding what
      has been copied for the names in `done`. */
  function LoopTree(m: Tree, src: Path, ws: Path, done: set<string>): Tree {
    Overlay(m[ws := Dir], ws, Copied(m, src, done))
  }

  /** The tree once the workspace is created and the copy loop is done. */
  function CopiedIn(m: Tree, src: Path, ws: Path): Tree {
    LoopTree(m, src, ws, Children(m, src))
  }

  /** The tree right before the child starts. */
  function Prepared(m: Tree, src: Path, ws: Path, script: string): Tree {
    CopiedIn(m, src, ws)[ws + [ScriptName] := File(script)]
  }

  /** What `run_processing_script` returns (`Success`) or raises
      (`Failure`). */
  function ProcessingResult(m: Tree, script: string, src: Path, ws: Path, outcome: Outcome)
    : Result<ExecResult, string>
  {
    if !ScriptSafe(script) then Success(ErrorResult(UnsafeMessage))
    else if !Resolves(m, src) then Failure(ScrapedFolderMissing)
    else if IsDirEntry(m, src + [ScriptName]) then Failure(ScriptPathIsDirectory)
    else match outcome
      case Timeout(_) => Success(ErrorResult(TimeoutMessage))
      case Completed(out, err, _, _) => Success(RanResult(out, err, ws))
  }

  /** The filesystem after `run_processing_script`. */
  function ProcessingState(m: Tree, script: string, src: Path, ws: Path, outcome: Outcome): Tree {
    if !ScriptSafe(script) then m
    else if !Resolves(m, src) then m[ws := Dir]
    else if IsDirEntry(m, src + [ScriptName]) then CopiedIn(m, src, ws)
    else Overlay(Prepared(m, src, ws, script), ws, outcome.produced)
  }

  /** A reported output folder means the child ran to completion in the
      prepared workspace. */
  lemma FolderMeansRan(m: Tree, script: string, src: Path, ws: Path, outcome: Outcome)
    requires ProcessingResult(m, script, src, ws, outcome).Success?
    requires ProcessingResult(m, script, src, ws, outcome).value.folder.Some?
    ensures outcome.Completed?
    ensures ProcessingState(m, script, src, ws, outcome) == Overlay(Prepared(m, src, ws, script), ws, outcome.produced)
  {
    assert ScriptSafe(script) && Resolves(m, src) && !IsDirEntry(m, src + [ScriptName]);
  }

  /** A timeout in the prepared workspace yields the timeout error with no
      folder; every file the child wrote before it was killed stays at
      its place below the workspace. */
  lemma ProcessingTimeout(m: Tree, script: string, src: Path, ws: Path, produced: Tree)
    requires ScriptSafe(script) && Resolves(m, src) && !IsDirEntry(m, src + [ScriptName])
    ensures ProcessingResult(m, script, src, ws, Timeout(produced)) == Success(ErrorResult(TimeoutMessage))
    ensures var s := ProcessingState(m, script, src, ws, Timeout(produced));
      forall r :: r in produced && r != [] ==> ws + r in s && s[ws + r] == produced[r]
  {
    var p := Prepared(m, src, ws, script);
    assert ProcessingState(m, script, src, ws, Timeout(produced)) == Overlay(p, ws, produced);
    forall r | r in produced && r != [] ensures ws + r in Overlay(p, ws, produced) && Overlay(p, ws, produced)[ws + r] == produced[r] {
      OverlayAt(p, ws, produced, r);
    }
  }

  /** The environment the executor relies on: the temp directory exists,
      the workspace name is fresh (so the scraped folder is not inside
      it), and the scraped folder is not the temp directory or one of its
      ancestors. */
  ghost predicate Environment(m: Tree, src: Path, tmp: Path, runId: string) {
    && Resolves(m, tmp)
    && Fresh(m, Workspace(tmp, runId))
    && !IsPrefix(Workspace(tmp, runId), src)
    && !IsPrefix(src, tmp)
  }

  method RunProcessingScript(fs: FileSystem, script: string, scrapedFolder: Path, tmp: Path,
                             runId: string, outcome: Outcome)
    returns (r: Result<ExecResult, string>)
    requires Environment(fs.entries, scrapedFolder, tmp, runId)
    modifies fs
    ensures r == ProcessingResult(old(fs.entries), script, scrapedFolder, Workspace(tmp, runId), outcome)
    ensures fs.entries == ProcessingState(old(fs.entries), script, scrapedFolder, Workspace(tmp, runId), outcome)
  {
    var safe := Screen(ForbiddenKeywords, script);
    if !safe {
      return Success(ErrorResult(UnsafeMessage));
    }
    ghost var m := fs.entries;
    var ws := Workspace(tmp, runId);
    EnvironmentApart(m, scrapedFolder, tmp, runId);
    MakeDirsOneLevel(m, tmp, "processor_" + runId);
    var made := fs.MakeDirs(ws);
    assert made;
    LoopStart(m, scrapedFolder, ws);
    var names, listed := fs.ListDir(scrapedFolder);
    if !listed {
      return Failure(ScrapedFolderMissing);
    }
    CopyScraped(fs, m, scrapedFolder, tmp, "processor_" + runId, names);
    ScriptSlot(m, scrapedFolder, tmp, "processor_" + runId);
    var written := fs.WriteFile(ws + [ScriptName], script);
    if !written {
      return Failure(ScriptPathIsDirectory);
    }
    fs.AbsorbChildWrites(ws, outcome.produced);
    match outcome
    case Timeout(_) =>
      return Success(ErrorResult(TimeoutMessage));
    case Completed(out, err, _, _) =>
      // the exit status is captured by the child but never inspected
      return Success(RanResult(out, err, ws));
  }

  /** `names` is what `os.listdir(src)` gave: each name of the folder once. */
  ghost predicate Lists(names: seq<string>, m: Tree, src: Path) {
    && (forall n :: n in names <==> n in Children(m, src))
    && (forall i, j :: 0 <= i < j < |names| ==> names[i] != names[j])
  }

  /** Where the copy loop runs: a fresh workspace in an existing parent,
      and an existing scraped folder apart from it. */
  ghost predicate CopySetting(m: Tree, src: Path, parent: Path, w: string) {
    && Fresh(m, parent + [w]) && Resolves(m, parent) && Resolves(m, src)
    && !IsPrefix(src, parent + [w]) && !IsPrefix(parent + [w], src)
  }

  /** The copy loop: every name `os.listdir` gave is copied into the
      workspace, a directory with `copytree`, anything else with `copy2`. */
  method CopyScraped(fs: FileSystem, ghost m: Tree, src: Path, parent: Path, w: string, names: seq<string>)
    requires CopySetting(m, src, parent, w) && Lists(names, m, src)
    requires fs.entries == LoopTree(m, src, parent + [w], {})
    modifies fs
    ensures fs.entries == CopiedIn(m, src, parent + [w])
  {
    var i := 0;
    assert names[..0] == [];
    while i < |names|
      invariant 0 <= i <= |names|
      invariant fs.entries == LoopTree(m, src, parent + [w], Elems(names[..i]))
    {
      CopyEntry(fs, m, src, parent, w, names, i);
      i := i + 1;
    }
    ElemsChildren(names, m, src);
    assert Elems(names[..i]) == Children(m, src);
  }

  /** One turn of the copy loop: the `i`-th name is handled. */
  method CopyEntry(fs: FileSystem, ghost m: Tree, src: Path, parent: Path, w: string,
                   names: seq<string>, i: nat)
    requires CopySetting(m, src, parent, w) && Lists(names, m, src)
    requires i < |names|
    requires fs.entries == LoopTree(m, src, parent + [w], Elems(names[..i]))
    modifies fs
    ensures fs.entries == LoopTree(m, src, parent + [w], Elems(names[..i + 1]))
  {
    ElemsSnoc(names, i);
    ListedOnce(names, m, src, i);
    ghost var done := Elems(names[..i]);
    var f := names[i];
    var ws := parent + [w];
    var s, d := src + [f], ws + [f];
    DirOrFile(m, src, ws, done, f);
    CopyStepApart(src, ws, f);
    if fs.IsDir(s) {
      DirStep(m, src, parent, w, done, f);
      var copied := fs.CopyTree(s, d);
    } else {
      FileStep(m, src, parent, w, done, f);
      var copied := fs.Copy2(s, d);
    }
  }

  /** After the loop every listed name has been handled. */
  lemma ElemsChildren(names: seq<string>, m: Tree, src: Path)
    requires forall n :: n in names <==> n in Children(m, src)
    ensures Elems(names[..|names|]) == Children(m, src)
  {
    assert names[..|names|] == names;
    forall n ensures n in Elems(names) <==> n in Children(m, src) {
      ElemsMember(names, n);
    }
  }

  /** The names of a list, as a set. */
  function Elems(s: seq<string>): set<string>
    decreases |s|
  {
    if s == [] then {} else Elems(s[..|s| - 1]) + {s[|s| - 1]}
  }

  lemma ElemsSnoc(s: seq<string>, i: nat)
    requires i < |s|
    ensures Elems(s[..i + 1]) == Elems(s[..i]) + {s[i]}
  {
    assert s[..i + 1][..i] == s[..i];
  }

  lemma {:induction false} ElemsMember(s: seq<string>, n: string)
    ensures n in Elems(s) <==> n in s
    decreases |s|
  {
    if s != [] {
      ElemsMember(s[..|s| - 1], n);
      assert s == s[..|s| - 1] + [s[|s| - 1]];
    }
  }

  /** The `i`-th listed name is a name of the folder not handled before. */
  lemma ListedOnce(names: seq<string>, m: Tree, src: Path, i: nat)
    requires Lists(names, m, src) && i < |names|
    ensures names[i] in Children(m, src) && names[i] !in Elems(names[..i])
  {
    assert names[i] in names;
    ElemsDistinct(names, i);
  }

  lemma ElemsDistinct(s: seq<string>, i: nat)
    requires i < |s|
    requires forall a, b :: 0 <= a < b < |s| ==> s[a] != s[b]
    ensures s[i] !in Elems(s[..i])
  {
    ElemsMember(s[..i], s[i]);
  }

  // ---------------------------------------------------------------------
  // What the processing executor promises.

  /** No entry hangs below a file or a missing directory. */
  ghost predicate WellFormed(m: Tree) {
    forall p :: p in m ==> p != [] && Resolves(m, p[..|p| - 1])
  }

  /** The screen of the processing executor accepts exactly the scripts
      without a forbidden keyword; an unsafe script yields the unsafe-script
      error and touches nothing. */
  lemma UnsafeProcessingTouchesNothing(m: Tree, script: string, src: Path, ws: Path, outcome: Outcome)
    requires !ScriptSafe(script)
    ensures ProcessingResult(m, script, src, ws, outcome) == Success(ErrorResult(UnsafeMessage))
    ensures ProcessingState(m, script, src, ws, outcome) == m
  {
  }

  /** Every result the executor returns has exactly one of `error` and
      `output_folder`, and it reports a folder exactly when the child ran
      to completion. */
  lemma ProcessingWellShaped(m: Tree, script: string, src: Path, ws: Path, outcome: Outcome)
    ensures var r := ProcessingResult(m, script, src, ws, outcome);
      r.Success? ==> WellShaped(r.value) && (r.value.folder.Some? <==> ScriptSafe(script) && outcome.Completed?)
  {
  }

  /** Everything below the scraped folder is copied, at the same relative
      place and with the same content... */
  lemma EverythingCopied(m: Tree, src: Path, ws: Path, r: Path)
    requires WellFormed(m) && Fresh(m, ws)
    requires r != [] && src + r in m
    ensures ws + r in CopiedIn(m, src, ws) && CopiedIn(m, src, ws)[ws + r] == m[src + r]
  {
    var q := ws + r;
    assert Under(ws, q) && q[|ws|..] == r;
    FreshAt(m, ws, q);
    LoopTreeAt(m, src, ws, Children(m, src), q);
    TopOfEntry(m, src, r);
  }

  /** An entry below the scraped folder hangs below one of its names, which
      is a directory unless the entry is that name itself. */
  lemma TopOfEntry(m: Tree, src: Path, r: Path)
    requires WellFormed(m)
    requires r != [] && src + r in m
    ensures r[0] in Children(m, src) && (|r| == 1 || IsDirEntry(m, src + [r[0]]))
  {
    var top := src + [r[0]];
    assert top[..|src|] == src && top[|src|] == r[0];
    if |r| == 1 {
      assert top == src + r;
    } else {
      var p := src + r;
      assert Resolves(m, p[..|p| - 1]);
      assert p[..|p| - 1][..|src| + 1] == top;
    }
  }

  /** ... and nothing else is in the workspace. */
  lemma OnlyCopied(m: Tree, src: Path, ws: Path, q: Path)
    requires Fresh(m, ws)
    requires Under(ws, q) && q in CopiedIn(m, src, ws)
    ensures src + q[|ws|..] in m && CopiedIn(m, src, ws)[q] == m[src + q[|ws|..]]
  {
    FreshAt(m, ws, q);
    LoopTreeAt(m, src, ws, Children(m, src), q);
  }

  /** When the child starts, its working directory lists exactly the names
      of the scraped folder plus `processor.py`, which holds the script
      (replacing a copied file of that name). */
  lemma WorkspaceListing(m: Tree, src: Path, parent: Path, w: string, script: string)
    requires Fresh(m, parent + [w]) && Resolves(m, parent)
    ensures var ws := parent + [w];
      var p := Prepared(m, src, ws, script);
      && Resolves(p, ws)
      && p[ws + [ScriptName]] == File(script)
      && Children(p, ws) == Children(m, src) + {ScriptName}
  {
    var ws := parent + [w];
    PreparedResolves(m, src, parent, w, script);
    PreparedChildren(m, src, ws, script);
  }

  lemma PreparedChildren(m: Tree, src: Path, ws: Path, script: string)
    requires Fresh(m, ws)
    ensures Children(Prepared(m, src, ws, script), ws) == Children(m, src) + {ScriptName}
  {
    var p := Prepared(m, src, ws, script);
    forall n ensures n in Children(p, ws) <==> n in Children(m, src) + {ScriptName} {
      ListingAt(m, src, ws, script, n);
    }
  }

  lemma PreparedResolves(m: Tree, src: Path, parent: Path, w: string, script: string)
    requires Resolves(m, parent)
    ensures Resolves(Prepared(m, src, parent + [w], script), parent + [w])
  {
    var ws := parent + [w];
    var c := CopiedIn(m, src, ws);
    WorkspaceResolves(m, src, parent, w, Children(m, src));
    assert (ws + [ScriptName])[..|ws|] == ws;
    WriteChangesOnly(c, ws + [ScriptName], script);
    ResolvesKept(c, Prepared(m, src, ws, script), ws + [ScriptName], ws);
  }

  lemma ListingAt(m: Tree, src: Path, ws: Path, script: string, n: string)
    requires Fresh(m, ws)
    ensures n in Children(Prepared(m, src, ws, script), ws) <==> n in Children(m, src) || n == ScriptName
  {
    var p := Prepared(m, src, ws, script);
    var q := ws + [n];
    assert q[..|ws|] == ws && q[|ws|] == n;
    assert Under(ws, q) && q[|ws|..] == [n];
    FreshAt(m, ws, q);
    LoopTreeAt(m, src, ws, Children(m, src), q);
    CopiedAt(m, src, Children(m, src), n, []);
    assert (src + [n]) + [] == src + [n];
    if n in Children(m, src) {
      assert q in p;
    }
    if n in Children(p, ws) && n != ScriptName {
      assert q in CopiedIn(m, src, ws);
    }
  }

  /** The executor changes nothing outside its workspace (and the
      directories on the way to it, which exist already). */
  lemma ProcessingFrame(m: Tree, script: string, src: Path, ws: Path, outcome: Outcome)
    ensures ChangedOnly(m, ProcessingState(m, script, src, ws, outcome), ws)
  {
    if ScriptSafe(script) && Resolves(m, src) {
      CopiedInFrame(m, src, ws);
      if !IsDirEntry(m, src + [ScriptName]) {
        PreparedStateFrame(m, script, src, ws, outcome);
      }
    } else if ScriptSafe(script) {
      CopiedInFrame(m, src, ws);
    }
  }

  lemma PreparedStateFrame(m: Tree, script: string, src: Path, ws: Path, outcome: Outcome)
    requires ChangedOnly(m, CopiedIn(m, src, ws), ws)
    ensures var p := Prepared(m, src, ws, script);
      ChangedOnly(m, Overlay(p, ws, outcome.produced), ws)
  {
    var c := CopiedIn(m, src, ws);
    var p := Prepared(m, src, ws, script);
    PreparedFrame(c, ws, script);
    ChangedOnlyTrans(m, c, p, ws);
    OverlayChangesOnly(p, ws, outcome.produced);
    ChangedOnlyTrans(m, p, Overlay(p, ws, outcome.produced), ws);
  }

  lemma CopiedInFrame(m: Tree, src: Path, ws: Path)
    ensures ChangedOnly(m, m[ws := Dir], ws)
    ensures ChangedOnly(m, CopiedIn(m, src, ws), ws)
  {
    var base := m[ws := Dir];
    assert ChangedOnly(m, base, ws);
    OverlayChangesOnly(base, ws, Copied(m, src, Children(m, src)));
    ChangedOnlyTrans(m, base, CopiedIn(m, src, ws), ws);
  }

  lemma PreparedFrame(c: Tree, ws: Path, script: string)
    ensures ChangedOnly(c, c[ws + [ScriptName] := File(script)], ws)
  {
    assert (ws + [ScriptName])[..|ws|] == ws;
  }

  /** In particular the scraped folder is exactly as it was: the copy only
      reads it. */
  lemma ScrapedFolderUntouched(m: Tree, script: string, src: Path, tmp: Path, runId: string,
                               outcome: Outcome, q: Path)
    requires Environment(m, src, tmp, runId)
    requires IsPrefix(src, q)
    ensures var n := ProcessingState(m, script, src, Workspace(tmp, runId), outcome);
      (q in n <==> q in m) && (q in m ==> n[q] == m[q])
  {
    var ws := Workspace(tmp, runId);
    EnvironmentApart(m, src, tmp, runId);
    ProcessingFrame(m, script, src, ws, outcome);
    if IsPrefix(ws, q) {
      PrefixesComparable(src, ws, q);
      assert false;
    }
  }

  // ---------------------------------------------------------------------
  // The proof of the copy loop.

  /** The environment, as the facts the loop needs: the workspace is fresh
      and neither it nor the scraped folder contains the other. */
  lemma EnvironmentApart(m: Tree, src: Path, tmp: Path, runId: string)
    requires Environment(m, src, tmp, runId)
    ensures !IsPrefix(src, Workspace(tmp, runId))
  {
    var ws := Workspace(tmp, runId);
    if IsPrefix(src, ws) {
      assert false;
    }
  }

  lemma PrefixOfExtended(a: Path, x: string, b: Path, y: string)
    requires IsPrefix(a + [x], b + [y])
    ensures IsPrefix(a, b)
  {
    assert b[..|a|] == (b + [y])[..|a|] == (a + [x])[..|a|];
  }

  /** The source and target of one copy step are apart as well. */
  lemma CopyStepApart(src: Path, ws: Path, f: string)
    requires !IsPrefix(src, ws) && !IsPrefix(ws, src)
    ensures !IsPrefix(src + [f], ws + [f]) && !IsPrefix(ws + [f], src + [f])
  {
    if IsPrefix(src + [f], ws + [f]) {
      PrefixOfExtended(src, f, ws, f);
    }
    if IsPrefix(ws + [f], src + [f]) {
      PrefixOfExtended(ws, f, src, f);
    }
  }

  /** Every original entry is still there, unchanged. */
  lemma KeptEntry(m: Tree, src: Path, ws: Path, done: set<string>, p: Path)
    requires Fresh(m, ws)
    requires p in m
    ensures var cur := LoopTree(m, src, ws, done);
      p in cur && cur[p] == m[p]
  {
    assert !IsPrefix(ws, p);
    assert !Under(ws, p) && p != ws;
  }

  lemma ResolvesSuperset(m: Tree, n: Tree, p: Path)
    requires forall q :: q in m ==> q in n && n[q] == m[q]
    requires Resolves(m, p)
    ensures Resolves(n, p)
  {
    forall k | 1 <= k <= |p| ensures IsDirEntry(n, p[..k]) {
      assert IsDirEntry(m, p[..k]);
    }
  }

  /** The workspace is a directory throughout the loop. */
  lemma WorkspaceResolves(m: Tree, src: Path, parent: Path, w: string, done: set<string>)
    requires Resolves(m, parent)
    ensures Resolves(LoopTree(m, src, parent + [w], done), parent + [w])
  {
    var ws := parent + [w];
    var cur := LoopTree(m, src, ws, done);
    forall k | 1 <= k <= |ws| ensures IsDirEntry(cur, ws[..k]) {
      assert !Under(ws, ws[..k]);
      if k < |ws| {
        assert ws[..k] == parent[..k];
      } else {
        assert ws[..k] == ws;
      }
    }
  }

  /** Nothing in the workspace stems from a name not yet handled. */
  lemma NothingYet(m: Tree, src: Path, ws: Path, done: set<string>, r: Path)
    requires Fresh(m, ws)
    requires r != [] && r[0] !in done
    ensures ws + r !in LoopTree(m, src, ws, done)
  {
    var q := ws + r;
    assert Under(ws, q) && q[|ws|..] == r;
    assert IsPrefix(ws, q);
  }

  /** At or below the scraped folder the loop's tree is the original one. */
  lemma SourceSide(m: Tree, src: Path, ws: Path, done: set<string>, p: Path)
    requires Fresh(m, ws)
    requires !IsPrefix(src, ws) && !IsPrefix(ws, src)
    requires IsPrefix(src, p)
    ensures var cur := LoopTree(m, src, ws, done);
      (p in cur <==> p in m) && (p in m ==> cur[p] == m[p])
  {
    if IsPrefix(ws, p) {
      PrefixesComparable(src, ws, p);
      assert false;
    }
    assert !Under(ws, p) && p != ws;
  }

  /** Before the loop: the workspace is empty and `os.listdir` sees the
      scraped folder as it was. */
  lemma LoopStart(m: Tree, src: Path, ws: Path)
    requires Fresh(m, ws)
    requires !IsPrefix(src, ws) && !IsPrefix(ws, src)
    ensures m[ws := Dir] == LoopTree(m, src, ws, {})
    ensures Resolves(m[ws := Dir], src) == Resolves(m, src)
    ensures Children(m[ws := Dir], src) == Children(m, src)
  {
    var base := m[ws := Dir];
    LoopTreeEmpty(m, src, ws);
    forall k | 1 <= k <= |src| ensures IsDirEntry(base, src[..k]) == IsDirEntry(m, src[..k]) {
      assert src[..k] != ws;
    }
    forall n | n in Children(base, src) ensures n in Children(m, src) {
      var q := src + [n];
      assert q in base;
      if q == ws {
        assert false;
      }
      assert q[..|src|] == src && q[|src|] == n;
    }
    forall n | n in Children(m, src) ensures n in Children(base, src) {
      var q := src + [n];
      assert q[..|src|] == src && q[|src|] == n;
    }
  }

  lemma LoopTreeEmpty(m: Tree, src: Path, ws: Path)
    ensures m[ws := Dir] == LoopTree(m, src, ws, {})
  {
    var base := m[ws := Dir];
    assert Copied(m, src, {}) == map[];
    SameEntries(base, Overlay(base, ws, map[]));
  }

  /** `os.path.isdir(src/f)` during the loop tells what `src/f` was. */
  lemma DirOrFile(m: Tree, src: Path, ws: Path, done: set<string>, f: string)
    requires Fresh(m, ws) && Resolves(m, src)
    requires src + [f] in m
    ensures Resolves(LoopTree(m, src, ws, done), src + [f]) <==> IsDirEntry(m, src + [f])
  {
    var s := src + [f];
    var cur := LoopTree(m, src, ws, done);
    KeptEntry(m, src, ws, done, s);
    assert s[..|s|] == s;
    if IsDirEntry(m, s) {
      forall k | 1 <= k <= |s| ensures IsDirEntry(cur, s[..k]) {
        if k <= |src| {
          assert s[..k] == src[..k];
          assert IsDirEntry(m, src[..k]);
        }
        KeptEntry(m, src, ws, done, s[..k]);
      }
    }
  }

  /** One turn of the loop on a directory name: `copytree(src/f, ws/f,
      dirs_exist_ok=True)` succeeds and leaves the tree the invariant
      predicts with `f` handled. */
  lemma DirStep(m: Tree, src: Path, parent: Path, w: string, done: set<string>, f: string)
    requires Fresh(m, parent + [w]) && Resolves(m, parent) && Resolves(m, src)
    requires !IsPrefix(src, parent + [w]) && !IsPrefix(parent + [w], src)
    requires f in Children(m, src) && f !in done
    requires IsDirEntry(m, src + [f])
    ensures var ws := parent + [w];
      var cur := LoopTree(m, src, ws, done);
      && CopyTreeOk(cur, src + [f], ws + [f])
      && Graft(cur, src + [f], ws + [f]) == LoopTree(m, src, ws, done + {f})
  {
    var ws := parent + [w];
    var cur := LoopTree(m, src, ws, done);
    var s := src + [f];
    var d := ws + [f];
    DirOrFile(m, src, ws, done, f);
    WorkspaceResolves(m, src, parent, w, done);
    NothingYet(m, src, ws, done, [f]);
    MakeDirsOneLevel(cur, ws, f);
    SourceSubtree(m, src, ws, done, f);
    NothingBelow(m, src, ws, done, f);
    DirStepResult(m, src, ws, done, f);
  }

  /** Nothing exists below `ws/f` before `f` is handled. */
  lemma NothingBelow(m: Tree, src: Path, ws: Path, done: set<string>, f: string)
    requires Fresh(m, ws) && f !in done
    ensures forall r :: r != [] ==> (ws + [f]) + r !in LoopTree(m, src, ws, done)
  {
    forall r | r != [] ensures (ws + [f]) + r !in LoopTree(m, src, ws, done) {
      assert (ws + [f]) + r == ws + ([f] + r);
      NothingYet(m, src, ws, done, [f] + r);
    }
  }

  /** During the loop the tree below `src/f` is the original one. */
  lemma SourceSubtree(m: Tree, src: Path, ws: Path, done: set<string>, f: string)
    requires Fresh(m, ws)
    requires !IsPrefix(src, ws) && !IsPrefix(ws, src)
    ensures Subtree(LoopTree(m, src, ws, done), src + [f]) == Subtree(m, src + [f])
  {
    var a, b := Subtree(LoopTree(m, src, ws, done), src + [f]), Subtree(m, src + [f]);
    forall r ensures (r in a <==> r in b) && (r in a ==> a[r] == b[r]) {
      SourceSideBelow(m, src, ws, done, f, r);
    }
    SameEntries(a, b);
  }

  lemma SourceSideBelow(m: Tree, src: Path, ws: Path, done: set<string>, f: string, r: Path)
    requires Fresh(m, ws)
    requires !IsPrefix(src, ws) && !IsPrefix(ws, src)
    ensures var cur := LoopTree(m, src, ws, done);
      var p := (src + [f]) + r;
      (p in cur <==> p in m) && (p in m ==> cur[p] == m[p])
  {
    var p := (src + [f]) + r;
    assert p[..|src|] == src;
    SourceSide(m, src, ws, done, p);
  }

  lemma FreshAt(m: Tree, ws: Path, q: Path)
    requires Fresh(m, ws) && Under(ws, q)
    ensures q !in m
  {
    assert IsPrefix(ws, q);
  }

  /** The tree a directory step leaves is the loop's tree with `f`
      handled. */
  lemma DirStepResult(m: Tree, src: Path, ws: Path, done: set<string>, f: string)
    requires Fresh(m, ws)
    requires f !in done && IsDirEntry(m, src + [f])
    ensures var cur := LoopTree(m, src, ws, done);
      Overlay(cur[ws + [f] := Dir], ws + [f], Subtree(m, src + [f])) == LoopTree(m, src, ws, done + {f})
  {
    var cur := LoopTree(m, src, ws, done);
    var g := Overlay(cur[ws + [f] := Dir], ws + [f], Subtree(m, src + [f]));
    var next := LoopTree(m, src, ws, done + {f});
    forall q ensures (q in g <==> q in next) && (q in g ==> g[q] == next[q]) {
      GraftAt(m, src, ws, done, f, q);
    }
    SameEntries(g, next);
  }

  /** The graft and the loop's tree with `f` handled agree at every path. */
  lemma GraftAt(m: Tree, src: Path, ws: Path, done: set<string>, f: string, q: Path)
    requires Fresh(m, ws)
    requires f !in done && IsDirEntry(m, src + [f])
    ensures var cur := LoopTree(m, src, ws, done);
      var g := Overlay(cur[ws + [f] := Dir], ws + [f], Subtree(m, src + [f]));
      var next := LoopTree(m, src, ws, done + {f});
      (q in g <==> q in next) && (q in g ==> g[q] == next[q])
  {
    if !Under(ws, q) {
      GraftOutside(m, src, ws, done, f, q);
    } else if q[|ws|] != f {
      GraftOtherName(m, src, ws, done, f, q);
    } else if |q| == |ws| + 1 {
      SameLength(ws, f, q);
      GraftTop(m, src, ws, done, f);
    } else {
      FreshAt(m, ws, q);
      GraftBelow(m, src, ws, done, f, q);
    }
  }

  /** The only path of the length of `ws/f` below `ws` starting with `f`. */
  lemma SameLength(ws: Path, f: string, q: Path)
    requires Under(ws, q) && q[|ws|] == f && |q| == |ws| + 1
    ensures q == ws + [f]
  {
    assert q == q[..|ws|] + [q[|ws|]];
  }

  /** A path outside `ws` is outside every child of `ws`. */
  lemma OutsideChild(ws: Path, f: string, q: Path)
    requires !Under(ws, q)
    ensures !Under(ws + [f], q) && q != ws + [f]
  {
    var d := ws + [f];
    assert Under(ws, d);
  }

  /** A path below `ws` by another name is outside `ws/f`. */
  lemma OtherChild(ws: Path, f: string, q: Path)
    requires Under(ws, q) && q[|ws|] != f
    ensures !Under(ws + [f], q) && q != ws + [f]
  {
    var d := ws + [f];
    assert d[|ws|] == f;
  }

  /** The graft agrees with the target tree outside the workspace... */
  lemma GraftOutside(m: Tree, src: Path, ws: Path, done: set<string>, f: string, q: Path)
    requires !Under(ws, q)
    ensures var cur := LoopTree(m, src, ws, done);
      var g := Overlay(cur[ws + [f] := Dir], ws + [f], Subtree(m, src + [f]));
      var next := LoopTree(m, src, ws, done + {f});
      (q in g <==> q in next) && (q in g ==> g[q] == next[q])
  {
    OutsideChild(ws, f, q);
  }

  /** ... on the entries stemming from other names ... */
  lemma GraftOtherName(m: Tree, src: Path, ws: Path, done: set<string>, f: string, q: Path)
    requires Under(ws, q) && q[|ws|] != f
    ensures var cur := LoopTree(m, src, ws, done);
      var g := Overlay(cur[ws + [f] := Dir], ws + [f], Subtree(m, src + [f]));
      var next := LoopTree(m, src, ws, done + {f});
      (q in g <==> q in next) && (q in g ==> g[q] == next[q])
  {
    OtherChild(ws, f, q);
    assert q[|ws|..][0] == q[|ws|];
  }

  /** ... at `ws/f` itself ... */
  lemma GraftTop(m: Tree, src: Path, ws: Path, done: set<string>, f: string)
    requires src + [f] in m && IsDirEntry(m, src + [f])
    ensures var cur := LoopTree(m, src, ws, done);
      var d := ws + [f];
      var g := Overlay(cur[d := Dir], d, Subtree(m, src + [f]));
      var next := LoopTree(m, src, ws, done + {f});
      d in g && d in next && g[d] == next[d]
  {
    var d := ws + [f];
    assert Under(ws, d) && d[|ws|..] == [f];
    assert [f] in Copied(m, src, done + {f});
  }

  /** ... and below `ws/f`. */
  lemma GraftBelow(m: Tree, src: Path, ws: Path, done: set<string>, f: string, q: Path)
    requires f !in done && IsDirEntry(m, src + [f])
    requires Under(ws, q) && q[|ws|] == f && |q| > |ws| + 1 && q !in m
    ensures var cur := LoopTree(m, src, ws, done);
      var g := Overlay(cur[ws + [f] := Dir], ws + [f], Subtree(m, src + [f]));
      var next := LoopTree(m, src, ws, done + {f});
      (q in g <==> q in next) && (q in g ==> g[q] == next[q])
  {
    var d := ws + [f];
    var r' := q[|d|..];
    BelowChild(ws, f, q);
    NewNameEntry(m, src, ws, done, f, q, r');
    var cur := LoopTree(m, src, ws, done);
    OverlayBelowNew(cur, d, Subtree(m, src + [f]), q);
  }

  /** Path arithmetic below `ws/f`. */
  lemma BelowChild(ws: Path, f: string, q: Path)
    requires Under(ws, q) && q[|ws|] == f && |q| > |ws| + 1
    ensures var d := ws + [f];
      Under(d, q) && q != ws && q[|ws|..] == [f] + q[|d|..] && q[|d|..] != []
  {
    var d := ws + [f];
    assert q[..|d|] == d;
  }

  /** Below `ws/f`, the loop's tree has nothing before `f` is handled and
      the scraped folder's tree after. */
  lemma NewNameEntry(m: Tree, src: Path, ws: Path, done: set<string>, f: string, q: Path, r': Path)
    requires f !in done
    requires Under(ws, q) && q !in m && q[|ws|..] == [f] + r' && r' != []
    ensures q !in LoopTree(m, src, ws, done)
    ensures var next := LoopTree(m, src, ws, done + {f});
      && (q in next <==> (src + [f]) + r' in m && IsDirEntry(m, src + [f]))
      && (q in next ==> next[q] == m[(src + [f]) + r'])
  {
    LoopTreeAt(m, src, ws, done, q);
    LoopTreeAt(m, src, ws, done + {f}, q);
    CopiedAt(m, src, done, f, r');
    CopiedAt(m, src, done + {f}, f, r');
  }

  /** Inside the workspace the loop's tree is what has been copied. */
  lemma LoopTreeAt(m: Tree, src: Path, ws: Path, done: set<string>, q: Path)
    requires Under(ws, q) && q !in m
    ensures var t := LoopTree(m, src, ws, done);
      && (q in t <==> q[|ws|..] in Copied(m, src, done))
      && (q in t ==> t[q] == m[src + q[|ws|..]])
  {
  }

  /** What has been copied for the name `a`. */
  lemma CopiedAt(m: Tree, src: Path, done: set<string>, a: string, r': Path)
    ensures var c := Copied(m, src, done);
      && ([a] + r' in c <==> a in done && (src + [a]) + r' in m && (r' == [] || IsDirEntry(m, src + [a])))
      && ([a] + r' in c ==> src + ([a] + r') == (src + [a]) + r')
  {
    var r := [a] + r';
    assert r[0] == a && |r| == 1 + |r'|;
    assert src + r == (src + [a]) + r';
  }

  /** Overlaying a tree below `d` over a tree that lacks `q`. */
  lemma OverlayBelowNew(c: Tree, d: Path, sub: Tree, q: Path)
    requires Under(d, q) && q !in c
    ensures var g := Overlay(c[d := Dir], d, sub);
      (q in g <==> q[|d|..] in sub) && (q in g ==> g[q] == sub[q[|d|..]])
  {
  }

  /** One turn of the loop on a file name: `copy2(src/f, ws/f)` succeeds,
      writes `ws/f`, and leaves the tree the invariant predicts with `f`
      handled. */
  lemma FileStep(m: Tree, src: Path, parent: Path, w: string, done: set<string>, f: string)
    requires Fresh(m, parent + [w]) && Resolves(m, parent) && Resolves(m, src)
    requires f in Children(m, src) && f !in done
    requires !IsDirEntry(m, src + [f])
    ensures var ws := parent + [w];
      var cur := LoopTree(m, src, ws, done);
      && Copy2Ok(cur, src + [f], ws + [f])
      && Copy2Target(cur, src + [f], ws + [f]) == ws + [f]
      && cur[ws + [f] := cur[src + [f]]] == LoopTree(m, src, ws, done + {f})
  {
    var ws := parent + [w];
    var cur := LoopTree(m, src, ws, done);
    var s := src + [f];
    var d := ws + [f];
    KeptEntry(m, src, ws, done, s);
    WorkspaceResolves(m, src, parent, w, done);
    NothingYet(m, src, ws, done, [f]);
    assert !Resolves(cur, d) by {
      assert d[..|d|] == d;
    }
    assert d[..|d| - 1] == ws;
    FileStepResult(m, src, ws, done, f);
  }

  /** The tree a file step leaves is the loop's tree with `f` handled. */
  lemma FileStepResult(m: Tree, src: Path, ws: Path, done: set<string>, f: string)
    requires Fresh(m, ws)
    requires f !in done && src + [f] in m && !IsDirEntry(m, src + [f])
    ensures LoopTree(m, src, ws, done)[ws + [f] := m[src + [f]]] == LoopTree(m, src, ws, done + {f})
  {
    var g := LoopTree(m, src, ws, done)[ws + [f] := m[src + [f]]];
    var next := LoopTree(m, src, ws, done + {f});
    forall q ensures (q in g <==> q in next) && (q in g ==> g[q] == next[q]) {
      FileAt(m, src, ws, done, f, q);
    }
    SameEntries(g, next);
  }

  /** The copied file and the loop's tree with `f` handled agree at every
      path. */
  lemma FileAt(m: Tree, src: Path, ws: Path, done: set<string>, f: string, q: Path)
    requires Fresh(m, ws)
    requires f !in done && src + [f] in m && !IsDirEntry(m, src + [f])
    ensures var g := LoopTree(m, src, ws, done)[ws + [f] := m[src + [f]]];
      var next := LoopTree(m, src, ws, done + {f});
      (q in g <==> q in next) && (q in g ==> g[q] == next[q])
  {
    var d := ws + [f];
    if !Under(ws, q) {
      OutsideChild(ws, f, q);
      LoopTreeOutside(m, src, ws, done, done + {f}, q);
    } else if q[|ws|] != f {
      OtherChild(ws, f, q);
      LoopTreeOtherName(m, src, ws, done, f, q);
    } else if |q| == |d| {
      SameLength(ws, f, q);
      FileTop(m, src, ws, done, f);
    } else {
      FreshAt(m, ws, q);
      BelowChild(ws, f, q);
      NewNameEntry(m, src, ws, done, f, q, q[|d|..]);
    }
  }

  /** Outside the workspace the loop's tree never changes. */
  lemma LoopTreeOutside(m: Tree, src: Path, ws: Path, done1: set<string>, done2: set<string>, q: Path)
    requires !Under(ws, q)
    ensures var t1, t2 := LoopTree(m, src, ws, done1), LoopTree(m, src, ws, done2);
      (q in t1 <==> q in t2) && (q in t1 ==> t1[q] == t2[q])
  {
  }

  /** Handling `f` leaves what was copied for other names alone. */
  lemma LoopTreeOtherName(m: Tree, src: Path, ws: Path, done: set<string>, f: string, q: Path)
    requires Under(ws, q) && q[|ws|] != f
    ensures var t1, t2 := LoopTree(m, src, ws, done), LoopTree(m, src, ws, done + {f});
      (q in t1 <==> q in t2) && (q in t1 ==> t1[q] == t2[q])
  {
    assert q[|ws|..][0] == q[|ws|];
  }

  /** A file step puts the file at `ws/f`. */
  lemma FileTop(m: Tree, src: Path, ws: Path, done: set<string>, f: string)
    requires Fresh(m, ws)
    requires src + [f] in m && !IsDirEntry(m, src + [f])
    ensures var next := LoopTree(m, src, ws, done + {f});
      ws + [f] in next && next[ws + [f]] == m[src + [f]]
  {
    var d := ws + [f];
    assert Under(ws, d) && d[|ws|..] == [f] + [];
    FreshAt(m, ws, d);
    LoopTreeAt(m, src, ws, done + {f}, d);
    CopiedAt(m, src, done + {f}, f, []);
    assert (src + [f]) + [] == src + [f];
  }

  /** `processor.py` can be written unless the scraped folder holds a
      directory of that name. */
  lemma ScriptSlot(m: Tree, src: Path, parent: Path, w: string)
    requires Fresh(m, parent + [w]) && Resolves(m, parent)
    ensures var ws := parent + [w];
      var c := CopiedIn(m, src, ws);
      && Resolves(c, ws)
      && (IsDirEntry(c, ws + [ScriptName]) <==> IsDirEntry(m, src + [ScriptName]))
  {
    var ws := parent + [w];
    WorkspaceResolves(m, src, parent, w, Children(m, src));
    var d := ws + [ScriptName];
    assert Under(ws, d) && d[|ws|..] == [ScriptName];
    assert d !in m by { assert IsPrefix(ws, d); }
    if src + [ScriptName] in m {
      assert (src + [ScriptName])[..|src|] == src && (src + [ScriptName])[|src|] == ScriptName;
      assert ScriptName in Children(m, src);
      assert [ScriptName] in Copied(m, src, Children(m, src));
    }
  }
}
