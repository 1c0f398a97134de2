/** The JSON values the chat replies carry, as the Python objects
    `json.loads` makes of them, with the lookups the generators apply, the
    `str()` the pipeline uses to save them and the `json.dumps(..., indent=2)`
    it uses to list file names in a prompt. */
module Json {
  import opened Wrappers
  import opened Strings

  /** A decoded JSON document. An object is a Python `dict` in insertion
      order; `json.loads` never leaves two members with the same key. */
  datatype Value =
    | Null
    | Bool(b: bool)
    | Number(n: int)
    | Text(s: string)
    | List(items: seq<Value>)
    | Object(members: seq<(string, Value)>)

  /** The position of `key` among `members`, if any. */
  function KeyIndex(members: seq<(string, Value)>, key: string): (i: Option<nat>)
    ensures i.Some? ==> i.value < |members| && members[i.value].0 == key
    ensures i.Some? ==> forall j :: 0 <= j < i.value ==> members[j].0 != key
    ensures i.None? ==> forall j :: 0 <= j < |members| ==> members[j].0 != key
  {
    if members == [] then None
    else if members[0].0 == key then Some(0)
    else match KeyIndex(members[1..], key)
      case None => None
      case Some(k) => Some(k + 1)
  }

  /** `v[key]` with a string key: defined on objects that have the key; on
      anything else Python raises (`KeyError` or `TypeError`). */
  function Get(v: Value, key: string): (r: Option<Value>)
    ensures r.Some? <==> v.Object? && exists j :: 0 <= j < |v.members| && v.members[j].0 == key
    ensures r.Some? ==> exists j :: 0 <= j < |v.members| && v.members[j] == (key, r.value)
  {
    if !v.Object? then None
    else match KeyIndex(v.members, key)
      case None => None
      case Some(i) => Some(v.members[i].1)
  }

  /** `v[0]`: the first item of a non-empty list, the first character of a
      non-empty string; on anything else Python raises. */
  function First(v: Value): (r: Option<Value>)
    ensures r.Some? <==> (v.List? && |v.items| > 0) || (v.Text? && |v.s| > 0)
    ensures v.List? && |v.items| > 0 ==> r == Some(v.items[0])
    ensures v.Text? && |v.s| > 0 ==> r == Some(Text(v.s[..1]))
  {
    match v
    case List(items) => if |items| > 0 then Some(items[0]) else None
    case Text(s) => if |s| > 0 then Some(Text(s[..1])) else None
    case _ => None
  }

  /** A lookup finds the member the object holds under that key. */
  lemma GetMember(ms: seq<(string, Value)>, i: nat)
    requires i < |ms|
    requires forall j :: 0 <= j < |ms| && j != i ==> ms[j].0 != ms[i].0
    ensures Get(Object(ms), ms[i].0) == Some(ms[i].1)
  {
    var k := KeyIndex(ms, ms[i].0);
    assert k.Some?;
  }

  // ---------------------------------------------------------------------
  // `str()` and `repr()` of the decoded objects.

  function JoinWith(sep: string, parts: seq<string>): string {
    if parts == [] then "" else if |parts| == 1 then parts[0] else parts[0] + sep + JoinWith(sep, parts[1..])
  }

  /** `repr()` of a Python object made by `json.loads` (ints only; strings
      are quoted without escaping). */
  function Repr(v: Value): (r: string)
    ensures |r| > 0
  {
    match v
    case Null => "None"
    case Bool(b) => if b then "True" else "False"
    case Number(n) => IntToString(n)
    case Text(s) => "'" + s + "'"
    case List(items) => "[" + JoinWith(", ", ReprItems(v, 0)) + "]"
    case Object(ms) => "{" + JoinWith(", ", ReprMembers(v, 0)) + "}"
  }

  /** The reprs of the items of a list from the `i`-th on. */
  function ReprItems(v: Value, i: nat): (r: seq<string>)
    requires v.List? && i <= |v.items|
    ensures |r| == |v.items| - i
    decreases v, |v.items| - i
  {
    if i == |v.items| then [] else [Repr(v.items[i])] + ReprItems(v, i + 1)
  }

  /** `'key': repr(value)` for the members of an object from the `i`-th on. */
  function ReprMembers(v: Value, i: nat): (r: seq<string>)
    requires v.Object? && i <= |v.members|
    ensures |r| == |v.members| - i
    decreases v, |v.members| - i
  {
    if i == |v.members| then [] else ["'" + v.members[i].0 + "': " + Repr(v.members[i].1)] + ReprMembers(v, i + 1)
  }

  /** `str(v)`: a string is itself, every other object is its `repr()`. */
  function Str(v: Value): (r: string)
    ensures v.Text? ==> r == v.s
    ensures !v.Text? ==> r == Repr(v)
  {
    if v.Text? then v.s else Repr(v)
  }

  /** `str()` tells the kinds of scalar apart: a boolean, `None` and a
      number never print alike. */
  lemma ScalarReprsDiffer(b: bool, n: int)
    ensures Repr(Bool(b)) != Repr(Number(n)) && Repr(Null) != Repr(Number(n)) && Repr(Null) != Repr(Bool(b))
  {
    var s := IntToString(n);
    if n >= 0 {
      assert s == NatToString(n);
      assert AllDigits(s);
      assert IsDigit(s[0]);
    } else {
      assert s[0] == '-';
    }
  }

  // ---------------------------------------------------------------------
  // `json.dumps` of a list of strings, as a prompt shows the scraped files.

  const HexDigits := "0123456789abcdef"

  /** `\uXXXX` for a UTF-16 code unit. */
  function UnicodeEscape(u: nat): (r: string)
    requires u < 0x1_0000
    ensures |r| == 6 && r[..2] == "\\u"
  {
    "\\u" + [HexDigits[u / 0x1000], HexDigits[(u / 0x100) % 16], HexDigits[(u / 0x10) % 16], HexDigits[u % 16]]
  }

  /** A character `json.dumps` writes as itself: printable ASCII other than
      the quote and the backslash. */
  predicate Plain(c: char) {
    ' ' <= c <= '~' && c != '"' && c != '\\'
  }

  /** How `json.dumps` (with `ensure_ascii`) spells one character: plain
      ones as themselves, every other one by an escape sequence. */
  function EscapeChar(c: char): (r: string)
    ensures Plain(c) ==> r == [c]
    ensures !Plain(c) ==> |r| >= 2 && r[0] == '\\'
  {
    if Plain(c) then [c]
    else if c == '"' then "\\\""
    else if c == '\\' then "\\\\"
    else if c == '\n' then "\\n"
    else if c == '\r' then "\\r"
    else if c == '\t' then "\\t"
    else if c == '\U{8}' then "\\b"
    else if c == '\U{C}' then "\\f"
    else if c as int < 0x1_0000 then UnicodeEscape(c as int)
    else
      var v := c as int - 0x1_0000;
      assert v < 0x10_0000;
      UnicodeEscape(0xD800 + v / 0x400) + UnicodeEscape(0xDC00 + v % 0x400)
  }

  function Escape(s: string): (r: string)
    ensures |r| >= |s|
  {
    if s == [] then "" else EscapeChar(s[0]) + Escape(s[1..])
  }

  /** A text of plain characters is written unchanged... */
  lemma {:induction false} EscapePlain(s: string)
    requires forall k :: 0 <= k < |s| ==> Plain(s[k])
    ensures Escape(s) == s
  {
    if s != [] {
      EscapePlain(s[1..]);
    }
  }

  /** ... and a text with any other character is not. */
  lemma {:induction false} EscapeChanges(s: string, k: nat)
    requires k < |s| && !Plain(s[k])
    ensures Escape(s) != s
  {
    if k == 0 {
      assert Escape(s)[0] == '\\' || |Escape(s)| > |s|;
    } else {
      EscapeChanges(s[1..], k - 1);
    }
  }

  /** `json.dumps(s)` for a string. */
  function Quote(s: string): (r: string)
    ensures |r| >= 2 && r[0] == '"' && r[|r| - 1] == '"'
  {
    "\"" + Escape(s) + "\""
  }

  function IndentedItems(names: seq<string>): string
    requires |names| > 0
  {
    if |names| == 1 then "  " + Quote(names[0])
    else "  " + Quote(names[0]) + (",\n" + IndentedItems(names[1..]))
  }

  /** `json.dumps(names, indent=2)` for a list of strings. */
  function DumpsList(names: seq<string>): (r: string)
    ensures names == [] <==> r == "[]"
  {
    if names == [] then "[]" else "[\n" + IndentedItems(names) + "\n]"
  }

  lemma IndentedItemsCons(names: seq<string>)
    requires |names| > 1
    ensures IndentedItems(names) == "  " + Quote(names[0]) + (",\n" + IndentedItems(names[1..]))
  {
  }

  /** Every name of the list appears quoted in what `json.dumps` writes. */
  lemma {:induction false} IndentedItemsContains(names: seq<string>, i: nat)
    requires i < |names|
    ensures Contains(IndentedItems(names), Quote(names[i]))
    decreases |names|
  {
    if |names| == 1 {
      ContainsIntro("  ", Quote(names[0]), "");
      assert "  " + Quote(names[0]) + "" == IndentedItems(names);
    } else if i == 0 {
      FirstItemContained(names);
    } else {
      LaterItemContained(names, i);
    }
  }

  lemma FirstItemContained(names: seq<string>)
    requires |names| > 1
    ensures Contains(IndentedItems(names), Quote(names[0]))
  {
    var rest := IndentedItems(names[1..]);
    IndentedItemsCons(names);
    ContainsIntro("  ", Quote(names[0]), ",\n" + rest);
  }

  lemma {:induction false} LaterItemContained(names: seq<string>, i: nat)
    requires 0 < i < |names|
    ensures Contains(IndentedItems(names), Quote(names[i]))
    decreases |names|, 0
  {
    var rest := IndentedItems(names[1..]);
    IndentedItemsContains(names[1..], i - 1);
    assert names[1..][i - 1] == names[i];
    ContainsAfter(",\n", rest, Quote(names[i]));
    ContainsAfter("  " + Quote(names[0]), ",\n" + rest, Quote(names[i]));
    IndentedItemsCons(names);
  }

  lemma DumpsListContains(names: seq<string>, i: nat)
    requires i < |names|
    ensures Contains(DumpsList(names), Quote(names[i]))
  {
    IndentedItemsContains(names, i);
    ContainsWiden(IndentedItems(names), Quote(names[i]), "[\n", "\n]");
  }
}
