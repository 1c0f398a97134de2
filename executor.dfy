/** The data-collection executor: screen the script, create a fresh
    `collector_<id>` workspace in the temp directory, write the script as
    `collector.py`, run it there once, and report what it printed together
    with the workspace. */
module Executor {
  import opened Wrappers
  import opened Strings
  import opened FileTree
  import opened Denylist
  import opened Sandbox

  const ForbiddenKeywords: seq<string> :=
    ["subprocess", "os.remove(", "os.rmdir(", "rm -rf", "sudo ", "apt-get", "pip install"]

  const UnsafeMessage := "Unsafe script detected. Aborting."
  const TimeoutMessage := "Script timed out."
  const ScriptName := "collector.py"

  /** `is_script_safe`: no forbidden keyword occurs in the script. */
  predicate IsScriptSafe(script: string) {
    !Flags(ForbiddenKeywords, script)
  }

  /** The workspace of one run: `<tmp>/collector_<id>`. */
  function Workspace(tmp: Path, runId: string): (ws: Path)
    ensures |ws| == |tmp| + 1 && ws[..|tmp|] == tmp
  {
    tmp + ["collector_" + runId]
  }

  /** The tree right before the child starts: the workspace exists and
      holds the script. */
  function Seeded(m: Tree, ws: Path, script: string): Tree {
    m[ws := Dir][ws + [ScriptName] := File(script)]
  }

  /** The result dictionary `run_data_collection_script` returns. */
  function CollectionResult(script: string, ws: Path, outcome: Outcome): ExecResult {
    if !IsScriptSafe(script) then ErrorResult(UnsafeMessage)
    else match outcome
      case Timeout(_) => ErrorResult(TimeoutMessage)
      case Completed(out, err, _, _) => RanResult(out, err, ws)
  }

  /** The filesystem after `run_data_collection_script`: the seeded
      workspace with what the child wrote, whether it finished or was
      killed. Nothing is ever deleted: a timed-out workspace stays behind. */
  function CollectionState(m: Tree, script: string, ws: Path, outcome: Outcome): Tree {
    if !IsScriptSafe(script) then m
    else Overlay(Seeded(m, ws, script), ws, outcome.produced)
  }

  method RunDataCollectionScript(fs: FileSystem, script: string, tmp: Path, runId: string, outcome: Outcome)
    returns (r: ExecResult)
    requires Resolves(fs.entries, tmp)
    requires Fresh(fs.entries, Workspace(tmp, runId))
    modifies fs
    ensures r == CollectionResult(script, Workspace(tmp, runId), outcome)
    ensures fs.entries == CollectionState(old(fs.entries), script, Workspace(tmp, runId), outcome)
  {
    var safe := Screen(ForbiddenKeywords, script);
    if !safe {
      return ErrorResult(UnsafeMessage);
    }
    var ws := Workspace(tmp, runId);
    MakeDirsOneLevel(fs.entries, tmp, "collector_" + runId);
    ScriptWritable(fs.entries, tmp, runId);
    var made := fs.MakeDirs(ws);
    assert made;
    var written := fs.WriteFile(ws + [ScriptName], script);
    assert written;
    fs.AbsorbChildWrites(ws, outcome.produced);
    match outcome
    case Timeout(_) =>
      return ErrorResult(TimeoutMessage);
    case Completed(out, err, _, _) =>
      // the exit status is captured by the child but never inspected
      return RanResult(out, err, ws);
  }

  /** Once the fresh workspace is made, `collector.py` can be written in it. */
  lemma ScriptWritable(m: Tree, tmp: Path, runId: string)
    requires Resolves(m, tmp)
    requires Fresh(m, Workspace(tmp, runId))
    ensures var ws := Workspace(tmp, runId);
      && (ws + [ScriptName])[..|ws + [ScriptName]| - 1] == ws
      && Resolves(m[ws := Dir], ws)
      && !IsDirEntry(m[ws := Dir], ws + [ScriptName])
  {
    var ws := Workspace(tmp, runId);
    MakeDirsOneLevel(m, tmp, "collector_" + runId);
    MakeDirsResolves(m, ws);
    assert IsPrefix(ws, ws + [ScriptName]);
  }

  // ---------------------------------------------------------------------
  // The screen.

  /** A script is unsafe as soon as it has a forbidden keyword as a
      substring... */
  lemma {:induction false} KeywordMakesUnsafe(p: string, k: nat, q: string)
    requires k < |ForbiddenKeywords|
    ensures !IsScriptSafe(p + ForbiddenKeywords[k] + q)
  {
    ContainsIntro(p, ForbiddenKeywords[k], q);
  }

  /** ... and only then. */
  lemma UnsafeHasKeyword(script: string) returns (p: string, k: nat, q: string)
    requires !IsScriptSafe(script)
    ensures k < |ForbiddenKeywords| && script == p + ForbiddenKeywords[k] + q
  {
    var j :| 0 <= j < |ForbiddenKeywords| && Contains(script, ForbiddenKeywords[j]);
    k := j;
    p, q := ContainsElim(script, ForbiddenKeywords[k]);
  }

  /** Text added before or after an unsafe script never makes it safe. */
  lemma UnsafeWiden(script: string, p: string, q: string)
    requires !IsScriptSafe(script)
    ensures !IsScriptSafe(p + script + q)
  {
    FlagsWiden(ForbiddenKeywords, script, p, q);
  }

  // ---------------------------------------------------------------------
  // The executor.

  /** Every result has exactly one of `error` and `data_folder`; text is
      reported only with the folder. */
  lemma CollectionResultWellShaped(script: string, ws: Path, outcome: Outcome)
    ensures WellShaped(CollectionResult(script, ws, outcome))
  {
  }

  /** An unsafe script yields exactly the unsafe-script error and touches
      nothing: no directory, no file, no process. */
  lemma UnsafeCreatesNothing(m: Tree, script: string, ws: Path, outcome: Outcome)
    requires !IsScriptSafe(script)
    ensures CollectionResult(script, ws, outcome) == ErrorResult(UnsafeMessage)
    ensures CollectionState(m, script, ws, outcome) == m
  {
  }

  /** Before the child runs, the fresh workspace exists, lists exactly
      `collector.py`, and that file holds exactly the script; every other
      entry is untouched. */
  lemma WorkspaceSeeded(m: Tree, tmp: Path, runId: string, script: string)
    requires Resolves(m, tmp)
    requires Fresh(m, Workspace(tmp, runId))
    ensures var ws := Workspace(tmp, runId);
      var s := Seeded(m, ws, script);
      && Resolves(s, ws)
      && s[ws + [ScriptName]] == File(script)
      && Children(s, ws) == {ScriptName}
      && (forall q :: q in m ==> q in s && s[q] == m[q])
      && s.Keys == m.Keys + {ws, ws + [ScriptName]}
  {
    var ws := Workspace(tmp, runId);
    var s := Seeded(m, ws, script);
    ScriptWritable(m, tmp, runId);
    forall k | 1 <= k <= |ws| ensures IsDirEntry(s, ws[..k]) {
      assert IsDirEntry(m[ws := Dir], ws[..k]) && |ws[..k]| < |ws + [ScriptName]|;
    }
    assert ws + [ScriptName] !in m;
    SeededChildren(m, ws, script);
  }

  /** The seeded workspace lists `collector.py` and nothing else. */
  lemma SeededChildren(m: Tree, ws: Path, script: string)
    requires Fresh(m, ws)
    ensures Children(Seeded(m, ws, script), ws) == {ScriptName}
  {
    var s := Seeded(m, ws, script);
    assert (ws + [ScriptName])[..|ws|] == ws;
    assert ScriptName in Children(s, ws);
    forall n | n in Children(s, ws) ensures n == ScriptName {
      assert ws + [n] in s;
      assert IsPrefix(ws, ws + [n]) && ws + [n] !in m;
    }
  }

  /** A timeout yields exactly the timeout error, with no text and no
      folder; the workspace is left behind, still holding the script
      unless the child overwrote it, and with every file the child wrote
      before it was killed. */
  lemma TimeoutResult(m: Tree, script: string, ws: Path, produced: Tree)
    requires IsScriptSafe(script)
    ensures CollectionResult(script, ws, Timeout(produced)) == ErrorResult(TimeoutMessage)
    ensures var s := CollectionState(m, script, ws, Timeout(produced));
      && IsDirEntry(s, ws)
      && ws + [ScriptName] in s
      && ([ScriptName] !in produced ==> s[ws + [ScriptName]] == File(script))
      && (forall r :: r in produced && r != [] ==> ws + r in s && s[ws + r] == produced[r])
  {
    var s := CollectionState(m, script, ws, Timeout(produced));
    assert !Under(ws, ws);
    assert Under(ws, ws + [ScriptName]) && (ws + [ScriptName])[|ws|..] == [ScriptName];
    forall r | r in produced && r != [] ensures ws + r in s && s[ws + r] == produced[r] {
      assert Under(ws, ws + r) && (ws + r)[|ws|..] == r;
    }
  }

  /** Below the workspace, every name other than `collector.py` holds
      exactly what the child wrote there, and nothing when it wrote none. */
  lemma OtherNamesFromChild(m: Tree, script: string, ws: Path, outcome: Outcome, n: string)
    requires IsScriptSafe(script) && Fresh(m, ws) && n != ScriptName
    ensures var s := CollectionState(m, script, ws, outcome);
      && (ws + [n] in s <==> [n] in outcome.produced)
      && (ws + [n] in s ==> s[ws + [n]] == outcome.produced[[n]])
  {
  }

  /** Any other completion reports the child's text and the workspace, and
      the files the child wrote are in that folder. */
  lemma CompletedResult(m: Tree, script: string, ws: Path, out: string, err: string, code: int,
                        produced: Tree, r: Path)
    requires IsScriptSafe(script)
    requires r in produced && r != []
    ensures CollectionResult(script, ws, Completed(out, err, code, produced)) == RanResult(out, err, ws)
    ensures var s := CollectionState(m, script, ws, Completed(out, err, code, produced));
      ws + r in s && s[ws + r] == produced[r]
  {
    assert Under(ws, ws + r) && (ws + r)[|ws|..] == r;
  }

  /** The exit status of the child never matters. */
  lemma ExitStatusIgnored(m: Tree, script: string, ws: Path, out: string, err: string,
                          code1: int, code2: int, produced: Tree)
    ensures CollectionResult(script, ws, Completed(out, err, code1, produced))
         == CollectionResult(script, ws, Completed(out, err, code2, produced))
    ensures CollectionState(m, script, ws, Completed(out, err, code1, produced))
         == CollectionState(m, script, ws, Completed(out, err, code2, produced))
  {
  }

  /** The executor changes nothing outside its workspace, and when it
      reports a folder, that folder exists and still holds `collector.py`
      (the child may have rewritten it, never removed it). */
  lemma CollectionFrame(m: Tree, script: string, tmp: Path, runId: string, outcome: Outcome)
    requires Resolves(m, tmp)
    requires Fresh(m, Workspace(tmp, runId))
    ensures var ws := Workspace(tmp, runId);
      var s := CollectionState(m, script, ws, outcome);
      && ChangedOnly(m, s, ws)
      && (CollectionResult(script, ws, outcome).folder.Some? ==>
            Resolves(s, ws) && ScriptName in Children(s, ws))
  {
    var ws := Workspace(tmp, runId);
    var seeded := Seeded(m, ws, script);
    if IsScriptSafe(script) {
      WorkspaceSeeded(m, tmp, runId, script);
      MakeDirsOneLevel(m, tmp, "collector_" + runId);
      MakeDirsChangesOnlyPath(m, ws);
      WriteChangesOnly(m[ws := Dir], ws + [ScriptName], script);
      ChangedOnlyTrans(m, m[ws := Dir], seeded, ws);
      var s := Overlay(seeded, ws, outcome.produced);
      OverlayChangesOnly(seeded, ws, outcome.produced);
      ChangedOnlyTrans(m, seeded, s, ws);
      assert !Under(ws, ws);
      forall k | 1 <= k <= |ws| ensures IsDirEntry(s, ws[..k]) {
        assert IsDirEntry(seeded, ws[..k]);
        assert !Under(ws, ws[..k]);
      }
      assert ws + [ScriptName] in s;
    }
  }
}
