/** An abstract filesystem: a finite map from paths (lists of components) to
    nodes. The root `[]` is always a directory and is never an entry. The
    class `FileSystem` holds the one mutable tree the whole program works
    on, and its methods are the library operations the core calls:
    `os.makedirs(..., exist_ok=True)`, `open(..., "w").write`,
    `shutil.copy2`, `shutil.copytree(..., dirs_exist_ok=True)`,
    `os.listdir` and `os.path.isdir`. */
module FileTree {

  type Path = seq<string>

  datatype Node = File(content: string) | Dir

  type Tree = map<Path, Node>

  predicate IsPrefix(p: Path, q: Path) {
    |p| <= |q| && q[..|p|] == p
  }

  /** `q` lies strictly below `root`. */
  predicate Under(root: Path, q: Path) {
    |root| < |q| && q[..|root|] == root
  }

  predicate IsDirEntry(m: Tree, p: Path) {
    p in m && m[p].Dir?
  }

  predicate IsFileEntry(m: Tree, p: Path) {
    p in m && m[p].File?
  }

  /** `p` names an existing directory: every non-empty prefix of it is a
      directory entry (so the root always resolves). `os.path.isdir`. */
  predicate Resolves(m: Tree, p: Path) {
    forall k :: 1 <= k <= |p| ==> IsDirEntry(m, p[..k])
  }

  /** No prefix of `p` (including `p`) is a regular file; exactly when
      `os.makedirs(p, exist_ok=True)` succeeds. */
  predicate NoFileOnPath(m: Tree, p: Path) {
    forall k :: 1 <= k <= |p| ==> !IsFileEntry(m, p[..k])
  }

  /** Nothing exists at `p` or below it: a name built from a fresh random
      token. */
  ghost predicate Fresh(m: Tree, p: Path) {
    forall q :: q in m ==> !IsPrefix(p, q)
  }

  /** What `os.listdir(p)` lists. */
  function Children(m: Tree, p: Path): (names: set<string>)
    ensures forall q :: q in m && |q| == |p| + 1 && q[..|p|] == p ==> q[|p|] in names
    ensures forall n :: n in names ==> p + [n] in m
  {
    var names := set q | q in m && |q| == |p| + 1 && q[..|p|] == p :: q[|p|];
    assert forall n :: n in names ==> p + [n] in m by {
      forall n | n in names ensures p + [n] in m {
        var q :| q in m && |q| == |p| + 1 && q[..|p|] == p && q[|p|] == n;
        assert q == p + [n];
      }
    }
    names
  }

  /** The non-empty prefixes of `p`: the directories `os.makedirs(p)` ensures. */
  function Ancestry(p: Path): (a: set<Path>)
    ensures forall q :: q in a <==> 1 <= |q| <= |p| && p[..|q|] == q
  {
    var a := set k | 1 <= k <= |p| :: p[..k];
    assert forall q :: 1 <= |q| <= |p| && p[..|q|] == q ==> q in a by {
      forall q | 1 <= |q| <= |p| && p[..|q|] == q ensures q in a {
        var k := |q|;
        assert p[..k] in a;
      }
    }
    a
  }

  /** The tree after `os.makedirs(p, exist_ok=True)`. */
  function MakeDirsMap(m: Tree, p: Path): (r: Tree)
    ensures forall q :: q in r <==> q in m || q in Ancestry(p)
    ensures forall q :: q in Ancestry(p) ==> r[q] == Dir
    ensures forall q :: q in m && q !in Ancestry(p) ==> r[q] == m[q]
  {
    map q | q in m.Keys + Ancestry(p) :: if q in Ancestry(p) then Dir else m[q]
  }

  /** The paths that a relative tree `t` occupies once placed under `root`. */
  function Lift(root: Path, t: Tree): (s: set<Path>)
    ensures forall q :: q in s <==> Under(root, q) && q[|root|..] in t
  {
    var s := set r | r in t && r != [] :: root + r;
    assert forall q :: Under(root, q) && q[|root|..] in t ==> q in s by {
      forall q | Under(root, q) && q[|root|..] in t ensures q in s {
        assert q == root + q[|root|..];
      }
    }
    s
  }

  /** `t` (relative paths) written over `m` below `root`: what a child
      process leaves behind in its working directory, and the core of
      `copytree`. Entries of `m` that `t` does not name are kept. */
  function Overlay(m: Tree, root: Path, t: Tree): (r: Tree)
    ensures forall q :: q in r <==> q in m || (Under(root, q) && q[|root|..] in t)
    ensures forall q :: Under(root, q) && q[|root|..] in t ==> r[q] == t[q[|root|..]]
    ensures forall q :: q in m && !(Under(root, q) && q[|root|..] in t) ==> r[q] == m[q]
  {
    map q | q in m.Keys + Lift(root, t) ::
      if Under(root, q) && q[|root|..] in t then t[q[|root|..]] else m[q]
  }

  /** The relative paths strictly below `src`. */
  function Below(m: Tree, src: Path): (s: set<Path>)
    ensures forall r :: r in s <==> r != [] && src + r in m
  {
    var s := set q | q in m && Under(src, q) :: q[|src|..];
    assert forall r :: r in s ==> r != [] && src + r in m by {
      forall r | r in s ensures r != [] && src + r in m {
        var q :| q in m && Under(src, q) && q[|src|..] == r;
        assert src + r == q;
      }
    }
    assert forall r :: r != [] && src + r in m ==> r in s by {
      forall r | r != [] && src + r in m ensures r in s {
        var q := src + r;
        assert Under(src, q) && q[|src|..] == r;
      }
    }
    s
  }

  /** The tree strictly below `src`, as relative paths. */
  function Subtree(m: Tree, src: Path): (t: Tree)
    ensures forall r :: r in t <==> r != [] && src + r in m
    ensures forall r :: r in t ==> t[r] == m[src + r]
  {
    map r | r in Below(m, src) :: m[src + r]
  }

  /** Copying `t` below `root` meets no entry of the other kind (a file
      where a directory is copied, or the reverse). */
  ghost predicate NoClash(m: Tree, root: Path, t: Tree) {
    forall r :: r in t && root + r in m ==> m[root + r].Dir? == t[r].Dir?
  }

  /** `shutil.copytree(src, dst, dirs_exist_ok=True)` succeeds. */
  ghost predicate CopyTreeOk(m: Tree, src: Path, dst: Path) {
    Resolves(m, src) && NoFileOnPath(m, dst) && NoClash(m, dst, Subtree(m, src))
  }

  /** The tree after `shutil.copytree(src, dst, dirs_exist_ok=True)`:
      `dst` and its ancestors become directories, every entry below `src`
      is copied to the same relative place below `dst`, directories merge,
      files are overwritten, and entries already below `dst` that `src`
      does not have are kept. */
  function Graft(m: Tree, src: Path, dst: Path): Tree {
    Overlay(MakeDirsMap(m, dst), dst, Subtree(m, src))
  }

  /** Where `shutil.copy2(src, dst)` writes: into `dst` under the source's
      base name when `dst` is an existing directory, else `dst` itself. */
  function Copy2Target(m: Tree, src: Path, dst: Path): Path
    requires |src| > 0
  {
    if Resolves(m, dst) then dst + [src[|src| - 1]] else dst
  }

  /** `shutil.copy2(src, dst)` succeeds: `src` is a regular file, the
      target's directory exists and the target is not a directory. */
  ghost predicate Copy2Ok(m: Tree, src: Path, dst: Path)
    requires |src| > 0
  {
    var target := Copy2Target(m, src, dst);
    IsFileEntry(m, src) && |target| > 0 && Resolves(m, target[..|target| - 1]) && !IsDirEntry(m, target)
  }

  /** `n` differs from `m` only at `area`, below it, or by directories
      created on the way to `area`. */
  ghost predicate ChangedOnly(m: Tree, n: Tree, area: Path) {
    forall q :: !IsPrefix(area, q) ==>
      (q in m ==> q in n && n[q] == m[q]) &&
      (q in n ==> q in m || (IsPrefix(q, area) && n[q] == Dir))
  }

  // ---------------------------------------------------------------------
  // Facts about the tree operations.

  /** Two trees with the same entries are the same tree. */
  lemma SameEntries(a: Tree, b: Tree)
    requires forall q :: (q in a <==> q in b) && (q in a ==> a[q] == b[q])
    ensures a == b
  {
    assert a.Keys == b.Keys;
  }

  /** After `os.makedirs(p)` the directory `p` exists. */
  lemma MakeDirsResolves(m: Tree, p: Path)
    ensures Resolves(MakeDirsMap(m, p), p)
  {
    var r := MakeDirsMap(m, p);
    forall k | 1 <= k <= |p| ensures IsDirEntry(r, p[..k]) {
      assert p[..k] in Ancestry(p);
    }
  }

  /** `os.makedirs(p, exist_ok=True)` only adds the missing directories on
      the way to `p`; existing entries keep their content. */
  lemma MakeDirsChangesOnlyPath(m: Tree, p: Path)
    requires NoFileOnPath(m, p)
    ensures ChangedOnly(m, MakeDirsMap(m, p), p)
    ensures forall q :: q in m ==> MakeDirsMap(m, p)[q] == m[q]
  {
    var r := MakeDirsMap(m, p);
    forall q | q in m ensures r[q] == m[q] {
      if q in Ancestry(p) {
        assert p[..|q|] == q;
        assert !IsFileEntry(m, p[..|q|]);
      }
    }
  }

  /** Calling `os.makedirs(p, exist_ok=True)` on an existing directory
      changes nothing. */
  lemma MakeDirsExisting(m: Tree, p: Path)
    requires Resolves(m, p)
    ensures NoFileOnPath(m, p)
    ensures MakeDirsMap(m, p) == m
  {
    var r := MakeDirsMap(m, p);
    forall q | q in Ancestry(p) ensures q in m && m[q] == Dir {
      assert p[..|q|] == q;
      assert IsDirEntry(m, p[..|q|]);
    }
    assert r.Keys == m.Keys;
  }

  /** Creating a directory whose parent exists adds just that directory. */
  lemma MakeDirsOneLevel(m: Tree, parent: Path, name: string)
    requires Resolves(m, parent)
    requires !IsFileEntry(m, parent + [name])
    ensures NoFileOnPath(m, parent + [name])
    ensures MakeDirsMap(m, parent + [name]) == m[parent + [name] := Dir]
  {
    var p := parent + [name];
    forall k | 1 <= k <= |p| ensures !IsFileEntry(m, p[..k]) {
      if k <= |parent| {
        assert p[..k] == parent[..k];
      } else {
        assert p[..k] == p;
      }
    }
    forall q | q in Ancestry(p) && q != p ensures q in m && m[q] == Dir {
      assert p[..|q|] == q;
      assert q == parent[..|q|];
    }
    assert MakeDirsMap(m, p).Keys == m[p := Dir].Keys;
  }

  /** Two prefixes of one path are prefixes of each other. */
  lemma PrefixesComparable(a: Path, b: Path, q: Path)
    requires IsPrefix(a, q) && IsPrefix(b, q)
    ensures IsPrefix(a, b) || IsPrefix(b, a)
  {
    if |a| <= |b| {
      assert b[..|a|] == q[..|a|];
    } else {
      assert a[..|b|] == q[..|b|];
    }
  }

  /** Frames: a change confined to `area` keeps every directory that is not
      at or below `area`. */
  lemma ResolvesKept(m: Tree, n: Tree, area: Path, p: Path)
    requires ChangedOnly(m, n, area)
    requires Resolves(m, p)
    requires !IsPrefix(area, p)
    ensures Resolves(n, p)
  {
    forall k | 1 <= k <= |p| ensures IsDirEntry(n, p[..k]) {
      assert IsDirEntry(m, p[..k]);
      assert !IsPrefix(area, p[..k]);
    }
  }

  /** ... and keeps every fresh name that neither contains nor lies in
      `area`. */
  lemma FreshKept(m: Tree, n: Tree, area: Path, p: Path)
    requires ChangedOnly(m, n, area)
    requires Fresh(m, p)
    requires !IsPrefix(area, p) && !IsPrefix(p, area)
    ensures Fresh(n, p)
  {
    forall q | q in n ensures !IsPrefix(p, q) {
    }
  }

  /** ... and keeps every entry not at or below `area`. */
  lemma EntryKept(m: Tree, n: Tree, area: Path, p: Path)
    requires ChangedOnly(m, n, area)
    requires p in m && !IsPrefix(area, p)
    ensures p in n && n[p] == m[p]
  {
  }

  /** Changes confined to one area and then another are confined to any
      area containing both. */
  lemma ChangedOnlyTrans(m: Tree, n: Tree, o: Tree, area: Path)
    requires ChangedOnly(m, n, area) && ChangedOnly(n, o, area)
    ensures ChangedOnly(m, o, area)
  {
  }

  /** Below a fresh name that has just been created, everything is fresh. */
  lemma FreshBelowNewDir(m: Tree, p: Path, name: string)
    requires Fresh(m, p)
    ensures Fresh(MakeDirsMap(m, p), p + [name])
  {
    forall q | q in MakeDirsMap(m, p) ensures !IsPrefix(p + [name], q) {
    }
  }

  /** Writing one file changes nothing else. */
  lemma WriteChangesOnly(m: Tree, p: Path, c: string)
    ensures ChangedOnly(m, m[p := File(c)], p)
  {
  }

  /** An overlaid entry lands at its place below the root. */
  lemma OverlayAt(m: Tree, root: Path, t: Tree, r: Path)
    requires r in t && r != []
    ensures root + r in Overlay(m, root, t) && Overlay(m, root, t)[root + r] == t[r]
  {
    assert Under(root, root + r) && (root + r)[|root|..] == r;
  }

  /** An overlay below `root` is confined to `root`. */
  lemma OverlayChangesOnly(m: Tree, root: Path, t: Tree)
    ensures ChangedOnly(m, Overlay(m, root, t), root)
  {
  }

  /** A graft onto `dst` is confined to `dst`. */
  lemma GraftChangesOnly(m: Tree, src: Path, dst: Path)
    requires NoFileOnPath(m, dst)
    ensures ChangedOnly(m, Graft(m, src, dst), dst)
  {
    MakeDirsChangesOnlyPath(m, dst);
    OverlayChangesOnly(MakeDirsMap(m, dst), dst, Subtree(m, src));
    ChangedOnlyTrans(m, MakeDirsMap(m, dst), Graft(m, src, dst), dst);
  }

  /** What a graft does below `dst`: every entry below `src` appears at the
      same relative place with the same node, `dst` itself is a directory,
      and every entry that was already below `dst` but has no counterpart
      below `src` is kept. */
  lemma GraftContents(m: Tree, src: Path, dst: Path, r: Path)
    requires dst != [] && r != []
    ensures var g := Graft(m, src, dst);
      && IsDirEntry(g, dst)
      && (src + r in m ==> dst + r in g && g[dst + r] == m[src + r])
      && (src + r !in m && dst + r in m ==> dst + r in g && g[dst + r] == m[dst + r])
      && (dst + r in g ==> src + r in m || dst + r in m)
  {
    var q := dst + r;
    assert Under(dst, q) && q[|dst|..] == r;
    assert dst in Ancestry(dst);
    assert !Under(dst, dst);
    assert q !in Ancestry(dst);
  }

  /** A graft reads `src` and never writes it, when the two trees are
      disjoint. */
  lemma GraftKeepsSource(m: Tree, src: Path, dst: Path, q: Path)
    requires NoFileOnPath(m, dst)
    requires !IsPrefix(src, dst) && !IsPrefix(dst, src)
    requires IsPrefix(src, q) && q in m
    ensures q in Graft(m, src, dst) && Graft(m, src, dst)[q] == m[q]
  {
    GraftChangesOnly(m, src, dst);
    if IsPrefix(dst, q) {
      PrefixesComparable(src, dst, q);
      assert false;
    }
    EntryKept(m, Graft(m, src, dst), dst, q);
  }

  // ---------------------------------------------------------------------
  // The mutable filesystem.

  class FileSystem {
    var entries: Tree

    constructor (initial: Tree)
      ensures entries == initial
    {
      entries := initial;
    }

    /** `os.path.isdir(p)`. */
    predicate IsDir(p: Path)
      reads this
    {
      Resolves(entries, p)
    }

    /** `os.makedirs(p, exist_ok=True)`; `ok` is false where it raises. */
    method MakeDirs(p: Path) returns (ok: bool)
      modifies this
      ensures ok == NoFileOnPath(old(entries), p)
      ensures entries == if ok then MakeDirsMap(old(entries), p) else old(entries)
    {
      ok := NoFileOnPath(entries, p);
      if ok {
        entries := MakeDirsMap(entries, p);
      }
    }

    /** `open(p, "w").write(content)`: creates or truncates the file. `ok`
        is false where `open` raises (missing directory, or `p` is a
        directory). */
    method WriteFile(p: Path, content: string) returns (ok: bool)
      requires |p| > 0
      modifies this
      ensures ok == (Resolves(old(entries), p[..|p| - 1]) && !IsDirEntry(old(entries), p))
      ensures entries == if ok then old(entries)[p := File(content)] else old(entries)
    {
      ok := Resolves(entries, p[..|p| - 1]) && !IsDirEntry(entries, p);
      if ok {
        entries := entries[p := File(content)];
      }
    }

    /** `shutil.copy2(src, dst)` on the file contents. */
    method Copy2(src: Path, dst: Path) returns (ok: bool)
      requires |src| > 0
      modifies this
      ensures ok == Copy2Ok(old(entries), src, dst)
      ensures entries == if ok then old(entries)[Copy2Target(old(entries), src, dst) := old(entries)[src]] else old(entries)
    {
      var target := Copy2Target(entries, src, dst);
      ok := IsFileEntry(entries, src) && |target| > 0 && Resolves(entries, target[..|target| - 1])
        && !IsDirEntry(entries, target);
      if ok {
        entries := entries[target := entries[src]];
      }
    }

    /** `shutil.copytree(src, dst, dirs_exist_ok=True)`. Where the library
        would copy what it can and raise `shutil.Error` on a file/directory
        clash, this model refuses before copying anything. */
    method CopyTree(src: Path, dst: Path) returns (ok: bool)
      requires !IsPrefix(src, dst) && !IsPrefix(dst, src)
      modifies this
      ensures ok == CopyTreeOk(old(entries), src, dst)
      ensures entries == if ok then Graft(old(entries), src, dst) else old(entries)
    {
      var t := Subtree(entries, src);
      var clash := exists r :: r in t && dst + r in entries && entries[dst + r].Dir? != t[r].Dir?;
      ok := Resolves(entries, src) && NoFileOnPath(entries, dst) && !clash;
      if ok {
        entries := Graft(entries, src, dst);
      }
    }

    /** `os.listdir(p)`: the names of the entries directly in `p`, each
        once, in no particular order; `ok` is false where it raises. */
    method ListDir(p: Path) returns (names: seq<string>, ok: bool)
      ensures ok == Resolves(entries, p)
      ensures ok ==> forall n :: n in names <==> n in Children(entries, p)
      ensures forall i, j :: 0 <= i < j < |names| ==> names[i] != names[j]
      ensures !ok ==> names == []
    {
      names := [];
      ok := Resolves(entries, p);
      if !ok {
        return;
      }
      var rest := Children(entries, p);
      while rest != {}
        invariant forall n :: n in names || n in rest <==> n in Children(entries, p)
        invariant forall n :: n in names ==> n !in rest
        invariant forall i, j :: 0 <= i < j < |names| ==> names[i] != names[j]
        decreases rest
      {
        var n :| n in rest;
        names := names + [n];
        rest := rest - {n};
      }
    }

    /** The effect of a finished child process: the files it wrote in its
        working directory `cwd`. */
    method AbsorbChildWrites(cwd: Path, produced: Tree)
      modifies this
      ensures entries == Overlay(old(entries), cwd, produced)
    {
      entries := Overlay(entries, cwd, produced);
    }
  }
}
