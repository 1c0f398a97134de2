/** Run bookkeeping: every pipeline run gets its own folder
    `runs/<YYYYMMDD-HHMMSS>-<uuid>`, text artifacts are written into it by
    name, and the scraped workspace is copied below it into `scraped`. */
module RunSaver {
  import opened Wrappers
  import opened Strings
  import opened FileTree

  const RunsDir := "runs"
  const ScrapedName := "scraped"

  // ---------------------------------------------------------------------
  // The timestamp `strftime("%Y%m%d-%H%M%S")`.

  /** The wall-clock reading `datetime.now()` returns, to the second. */
  datatype DateTime = DateTime(year: nat, month: nat, day: nat, hour: nat, minute: nat, second: nat) {
    /** The ranges `datetime` guarantees for its fields (four-digit years
        only, see README). */
    predicate Valid() {
      && 1000 <= year <= 9999 && 1 <= month <= 12 && 1 <= day <= 31
      && hour <= 23 && minute <= 59 && second <= 59
    }
  }

  function Pow10(k: nat): (r: nat)
    ensures r >= 1
  {
    if k == 0 then 1 else 10 * Pow10(k - 1)
  }

  /** `n` as exactly `width` decimal digits, zero padded on the left (the
      low `width` digits when `n` is wider). */
  function Pad(n: nat, width: nat): (s: string)
    ensures |s| == width && AllDigits(s)
  {
    if width == 0 then "" else Pad(n / 10, width - 1) + [DigitChar(n % 10)]
  }

  /** Padding loses nothing for a number that fits in the width. */
  lemma {:induction false} PadRoundTrip(n: nat, width: nat)
    requires n < Pow10(width)
    ensures ParseNat(Pad(n, width)) == n
  {
    if width > 0 {
      assert n / 10 < Pow10(width - 1);
      PadRoundTrip(n / 10, width - 1);
      var s := Pad(n, width);
      assert s[..|s| - 1] == Pad(n / 10, width - 1);
    }
  }

  /** Reading a digit string and padding it back to its length gives it back. */
  lemma {:induction false} ParsePadRoundTrip(s: string)
    requires AllDigits(s)
    ensures Pad(ParseNat(s), |s|) == s
    decreases |s|
  {
    if s != [] {
      var init := s[..|s| - 1];
      var d := DigitValue(s[|s| - 1]);
      var n := ParseNat(s);
      assert n == 10 * ParseNat(init) + d;
      assert n / 10 == ParseNat(init) && n % 10 == d;
      ParsePadRoundTrip(init);
      assert s == init + [s[|s| - 1]];
    }
  }

  /** `now.strftime("%Y%m%d-%H%M%S")`. */
  function FormatStamp(t: DateTime): (s: string)
    ensures |s| == 15 && s[8] == '-'
  {
    Pad(t.year, 4) + Pad(t.month, 2) + Pad(t.day, 2) + "-" + Pad(t.hour, 2) + Pad(t.minute, 2) + Pad(t.second, 2)
  }

  /** A text of the stamp's shape: eight digits, a dash, six digits. */
  predicate StampShape(s: string) {
    |s| == 15 && s[8] == '-' && AllDigits(s[..8]) && AllDigits(s[9..])
  }

  /** The fields a stamp-shaped text spells. */
  function StampFieldsOf(s: string): DateTime
    requires StampShape(s)
  {
    assert AllDigits(s[0..4]) && AllDigits(s[4..6]) && AllDigits(s[6..8]);
    assert AllDigits(s[9..11]) && AllDigits(s[11..13]) && AllDigits(s[13..15]);
    DateTime(ParseNat(s[0..4]), ParseNat(s[4..6]), ParseNat(s[6..8]),
             ParseNat(s[9..11]), ParseNat(s[11..13]), ParseNat(s[13..15]))
  }

  /** The reading back of a stamp: `datetime.strptime(s, "%Y%m%d-%H%M%S")`
      on the four-digit years the model covers. */
  function ParseStamp(s: string): (r: Option<DateTime>)
    ensures r.Some? ==> r.value.Valid() && StampShape(s)
  {
    if StampShape(s) && StampFieldsOf(s).Valid() then Some(StampFieldsOf(s)) else None
  }

  /** Where each field sits in a stamp. */
  lemma StampFields(t: DateTime)
    ensures var s := FormatStamp(t);
      && s[0..4] == Pad(t.year, 4) && s[4..6] == Pad(t.month, 2) && s[6..8] == Pad(t.day, 2)
      && s[9..11] == Pad(t.hour, 2) && s[11..13] == Pad(t.minute, 2) && s[13..15] == Pad(t.second, 2)
      && s[..8] == Pad(t.year, 4) + Pad(t.month, 2) + Pad(t.day, 2)
      && s[9..] == Pad(t.hour, 2) + Pad(t.minute, 2) + Pad(t.second, 2)
  {
  }

  /** Every valid time formats to a stamp that reads back as that time. */
  lemma StampRoundTrip(t: DateTime)
    requires t.Valid()
    ensures ParseStamp(FormatStamp(t)) == Some(t)
  {
    var s := FormatStamp(t);
    StampFields(t);
    DigitsJoin(Pad(t.year, 4), Pad(t.month, 2), Pad(t.day, 2));
    DigitsJoin(Pad(t.hour, 2), Pad(t.minute, 2), Pad(t.second, 2));
    assert StampShape(s);
    assert Pow10(2) == 100 && Pow10(4) == 10000;
    PadRoundTrip(t.year, 4);
    PadRoundTrip(t.month, 2);
    PadRoundTrip(t.day, 2);
    PadRoundTrip(t.hour, 2);
    PadRoundTrip(t.minute, 2);
    PadRoundTrip(t.second, 2);
    assert StampFieldsOf(s) == t;
  }

  lemma DigitsJoin(a: string, b: string, c: string)
    requires AllDigits(a) && AllDigits(b) && AllDigits(c)
    ensures AllDigits(a + b + c)
  {
  }

  /** ... and every text that reads back as a time is that time's stamp. */
  lemma StampParseRoundTrip(s: string)
    requires ParseStamp(s).Some?
    ensures FormatStamp(ParseStamp(s).value) == s
  {
    var t := ParseStamp(s).value;
    assert AllDigits(s[0..4]) && AllDigits(s[4..6]) && AllDigits(s[6..8]);
    assert AllDigits(s[9..11]) && AllDigits(s[11..13]) && AllDigits(s[13..15]);
    ParsePadRoundTrip(s[0..4]);
    ParsePadRoundTrip(s[4..6]);
    ParsePadRoundTrip(s[6..8]);
    ParsePadRoundTrip(s[9..11]);
    ParsePadRoundTrip(s[11..13]);
    ParsePadRoundTrip(s[13..15]);
    StampSlices(s);
  }

  lemma StampSlices(s: string)
    requires |s| == 15 && s[8] == '-'
    ensures s == s[0..4] + s[4..6] + s[6..8] + "-" + s[9..11] + s[11..13] + s[13..15]
  {
  }

  // ---------------------------------------------------------------------
  // `create_run_folder`.

  /** The run id: the stamp, a dash, and the text of a fresh `uuid4`. */
  function RunName(now: DateTime, uuid: string): (name: string)
    ensures |name| == 16 + |uuid| && name[..15] == FormatStamp(now) && name[15] == '-' && name[16..] == uuid
  {
    FormatStamp(now) + "-" + uuid
  }

  /** `os.path.join(RUNS_DIR, run_id)`. */
  function RunFolder(now: DateTime, uuid: string): (folder: Path)
    ensures |folder| == 2 && folder[0] == RunsDir && folder[1] == RunName(now, uuid)
  {
    [RunsDir, RunName(now, uuid)]
  }

  /** A run folder's name reads back as the clock reading it was made
      from, followed by a dash and the uuid. */
  lemma RunNameReadsBack(now: DateTime, uuid: string)
    requires now.Valid()
    ensures ParseStamp(RunName(now, uuid)[..15]) == Some(now)
    ensures RunName(now, uuid)[15] == '-' && RunName(now, uuid)[16..] == uuid
  {
    StampRoundTrip(now);
  }

  /** Two runs share a folder only when they started in the same second
      and drew the same uuid. */
  lemma RunFolderInjective(t1: DateTime, u1: string, t2: DateTime, u2: string)
    requires t1.Valid() && t2.Valid()
    requires RunFolder(t1, u1) == RunFolder(t2, u2)
    ensures t1 == t2 && u1 == u2
  {
    var name := RunName(t1, u1);
    assert name == RunName(t2, u2);
    StampRoundTrip(t1);
    StampRoundTrip(t2);
    assert FormatStamp(t1) == name[..15] == FormatStamp(t2);
  }

  /** `create_run_folder()`, with the clock reading and the uuid passed in. */
  method CreateRunFolder(fs: FileSystem, now: DateTime, uuid: string) returns (folder: Path, ok: bool)
    modifies fs
    ensures folder == RunFolder(now, uuid)
    ensures ok == NoFileOnPath(old(fs.entries), folder)
    ensures fs.entries == if ok then MakeDirsMap(old(fs.entries), folder) else old(fs.entries)
  {
    folder := [RunsDir, RunName(now, uuid)];
    ok := fs.MakeDirs(folder);
  }

  /** After a successful `create_run_folder` the run folder exists, and
      nothing that existed before changed. */
  lemma RunFolderCreated(m: Tree, now: DateTime, uuid: string)
    requires NoFileOnPath(m, RunFolder(now, uuid))
    ensures var n := MakeDirsMap(m, RunFolder(now, uuid));
      && Resolves(n, RunFolder(now, uuid))
      && ChangedOnly(m, n, RunFolder(now, uuid))
      && n.Keys == m.Keys + {[RunsDir], RunFolder(now, uuid)}
  {
    var folder := RunFolder(now, uuid);
    MakeDirsResolves(m, folder);
    MakeDirsChangesOnlyPath(m, folder);
    forall q | q in Ancestry(folder) ensures q == [RunsDir] || q == folder {
      assert |q| == 1 || |q| == 2;
    }
    assert [RunsDir] == folder[..1];
    assert folder == folder[..2];
  }

  /** `exist_ok=True`: creating a folder that already exists does not fail
      and changes nothing. */
  lemma RunFolderExisting(m: Tree, now: DateTime, uuid: string)
    requires Resolves(m, RunFolder(now, uuid))
    ensures NoFileOnPath(m, RunFolder(now, uuid))
    ensures MakeDirsMap(m, RunFolder(now, uuid)) == m
  {
    MakeDirsExisting(m, RunFolder(now, uuid));
  }

  // ---------------------------------------------------------------------
  // `save_text`.

  /** The tree after `save_text(folder, filename, content)` succeeded. */
  function SavedText(m: Tree, folder: Path, filename: string, content: string): Tree {
    m[folder + [filename] := File(content)]
  }

  /** `save_text` succeeds when the folder exists and `filename` in it is
      not a directory. */
  predicate SaveTextOk(m: Tree, folder: Path, filename: string) {
    Resolves(m, folder) && !IsDirEntry(m, folder + [filename])
  }

  /** `save_text(folder, filename, content)`: open the file for writing,
      truncating it, and write the whole content. */
  method SaveText(fs: FileSystem, folder: Path, filename: string, content: string) returns (ok: bool)
    modifies fs
    ensures ok == SaveTextOk(old(fs.entries), folder, filename)
    ensures fs.entries == if ok then SavedText(old(fs.entries), folder, filename, content) else old(fs.entries)
  {
    var p := folder + [filename];
    assert p[..|p| - 1] == folder;
    ok := fs.WriteFile(p, content);
  }

  /** After `save_text` the file holds exactly the content, whatever it held
      before, and the folder still exists. */
  lemma SavedTextContents(m: Tree, folder: Path, filename: string, content: string)
    requires SaveTextOk(m, folder, filename)
    ensures var n := SavedText(m, folder, filename, content);
      && folder + [filename] in n && n[folder + [filename]] == File(content)
      && Resolves(n, folder)
      && Children(n, folder) == Children(m, folder) + {filename}
  {
    var n := SavedText(m, folder, filename, content);
    var p := folder + [filename];
    assert p[..|folder|] == folder;
    forall k | 1 <= k <= |folder| ensures IsDirEntry(n, folder[..k]) {
      assert folder[..k] != p;
    }
  }

  /** Saving under one name never touches another entry. */
  lemma SavedTextFrame(m: Tree, folder: Path, filename: string, content: string, q: Path)
    requires q != folder + [filename]
    ensures var n := SavedText(m, folder, filename, content);
      (q in n <==> q in m) && (q in m ==> n[q] == m[q])
  {
  }

  /** Saving the same file twice keeps only the second content. */
  lemma SavedTextTwice(m: Tree, folder: Path, filename: string, c1: string, c2: string)
    ensures SavedText(SavedText(m, folder, filename, c1), folder, filename, c2)
         == SavedText(m, folder, filename, c2)
  {
  }

  // ---------------------------------------------------------------------
  // `save_scraped_data`.

  /** `os.path.join(dest_folder, "scraped")`. */
  function ScrapedDest(destFolder: Path): (dest: Path)
    ensures |dest| == |destFolder| + 1 && dest[..|destFolder|] == destFolder && dest[|destFolder|] == ScrapedName
  {
    destFolder + [ScrapedName]
  }

  /** `save_scraped_data(temp_folder, dest_folder)`: merge the whole of
      `temp_folder` into `dest_folder/scraped`. */
  method SaveScrapedData(fs: FileSystem, tempFolder: Path, destFolder: Path) returns (ok: bool)
    requires !IsPrefix(tempFolder, ScrapedDest(destFolder)) && !IsPrefix(ScrapedDest(destFolder), tempFolder)
    modifies fs
    ensures ok == CopyTreeOk(old(fs.entries), tempFolder, ScrapedDest(destFolder))
    ensures fs.entries == if ok then Graft(old(fs.entries), tempFolder, ScrapedDest(destFolder)) else old(fs.entries)
  {
    var dest := destFolder + [ScrapedName];
    ok := fs.CopyTree(tempFolder, dest);
  }

  /** Every entry below the temporary folder lands at the same relative
      place below `dest_folder/scraped`, with the same node. */
  lemma ScrapedCopied(m: Tree, tempFolder: Path, destFolder: Path, r: Path)
    requires r != [] && tempFolder + r in m
    ensures var g := Graft(m, tempFolder, ScrapedDest(destFolder));
      ScrapedDest(destFolder) + r in g && g[ScrapedDest(destFolder) + r] == m[tempFolder + r]
  {
    GraftContents(m, tempFolder, ScrapedDest(destFolder), r);
  }

  /** The copy goes into `dest_folder/scraped`, never directly into
      `dest_folder`: the only name it can add there is `scraped`, and it
      always adds it. */
  lemma ScrapedNotIntoDest(m: Tree, tempFolder: Path, destFolder: Path)
    ensures Children(Graft(m, tempFolder, ScrapedDest(destFolder)), destFolder)
         == Children(m, destFolder) + {ScrapedName}
  {
    var dest := ScrapedDest(destFolder);
    var g := Graft(m, tempFolder, dest);
    assert dest in Ancestry(dest);
    forall n | n in Children(g, destFolder) ensures n in Children(m, destFolder) || n == ScrapedName {
      var q := destFolder + [n];
      assert q in g;
      assert !Under(dest, q);
      if q !in m {
        assert q in Ancestry(dest);
        assert q == dest[..|q|];
      }
    }
    forall n | n in Children(m, destFolder) ensures n in Children(g, destFolder) {
      var q := destFolder + [n];
      assert q in m;
    }
  }

  /** The copy reads the temporary folder and never changes it. */
  lemma ScrapedSourceKept(m: Tree, tempFolder: Path, destFolder: Path, q: Path)
    requires CopyTreeOk(m, tempFolder, ScrapedDest(destFolder))
    requires !IsPrefix(tempFolder, ScrapedDest(destFolder)) && !IsPrefix(ScrapedDest(destFolder), tempFolder)
    requires IsPrefix(tempFolder, q) && q in m
    ensures var g := Graft(m, tempFolder, ScrapedDest(destFolder));
      q in g && g[q] == m[q]
  {
    GraftKeepsSource(m, tempFolder, ScrapedDest(destFolder), q);
  }

  /** Entries already below `dest_folder/scraped` that the temporary folder
      does not have survive the merge. */
  lemma ScrapedMergeKeeps(m: Tree, tempFolder: Path, destFolder: Path, r: Path)
    requires r != [] && tempFolder + r !in m && ScrapedDest(destFolder) + r in m
    ensures var g := Graft(m, tempFolder, ScrapedDest(destFolder));
      ScrapedDest(destFolder) + r in g && g[ScrapedDest(destFolder) + r] == m[ScrapedDest(destFolder) + r]
  {
    GraftContents(m, tempFolder, ScrapedDest(destFolder), r);
  }
}
