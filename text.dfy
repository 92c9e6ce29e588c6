/** Text primitives of the Python runtime that the core relies on:
    `str(int)`, `int(str)` in base 10, `str.strip()`, `str.split(sep)` and an
    ASCII `str.lower()`. */
module Text {
  import opened Values

  predicate IsDigit(c: char) {
    '0' <= c <= '9'
  }

  predicate AllDigits(s: string) {
    forall i :: 0 <= i < |s| ==> IsDigit(s[i])
  }

  function DigitValue(c: char): nat
    requires IsDigit(c)
  {
    c as int - '0' as int
  }

  function DigitChar(d: nat): (c: char)
    requires d < 10
    ensures IsDigit(c) && DigitValue(c) == d
  {
    ('0' as int + d) as char
  }

  /** The number a string of decimal digits denotes, most significant first. */
  function DigitsValue(s: string): nat
    requires AllDigits(s)
  {
    if s == [] then 0 else DigitsValue(s[..|s| - 1]) * 10 + DigitValue(s[|s| - 1])
  }

  /** The shortest decimal digits of `n`. */
  function NatToDigits(n: nat): (s: string)
    ensures 0 < |s| && AllDigits(s)
  {
    if n < 10 then [DigitChar(n)] else NatToDigits(n / 10) + [DigitChar(n % 10)]
  }

  lemma {:induction false} NatToDigitsValue(n: nat)
    ensures DigitsValue(NatToDigits(n)) == n
  {
    if n >= 10 {
      var s := NatToDigits(n);
      assert s[..|s| - 1] == NatToDigits(n / 10);
      NatToDigitsValue(n / 10);
    }
  }

  /** Python's `str(i)` for an integer. */
  function IntToString(i: int): (s: string)
    ensures 0 < |s|
  {
    if i < 0 then "-" + NatToDigits(-i) else NatToDigits(i)
  }

  /** The characters `str.isspace()` accepts, which `str.strip()` removes. */
  predicate IsSpace(c: char) {
    var k := c as int;
    (9 <= k <= 13) || (28 <= k <= 32) || k == 0x85 || k == 0xA0 || k == 0x1680
    || (0x2000 <= k <= 0x200A) || k == 0x2028 || k == 0x2029 || k == 0x202F
    || k == 0x205F || k == 0x3000
  }

  /** The characters `int()` skips around a number: the same as `isspace()`
      except the ASCII separators `\x1c` to `\x1f`, which CPython only
      treats as blanks outside the ASCII range. */
  predicate IsIntSpace(c: char) {
    IsSpace(c) && !(28 <= c as int <= 31)
  }

  /** Which characters a strip removes: `str.strip()`'s or `int()`'s. */
  datatype Blanks = StrBlanks | IntBlanks

  predicate Blank(kind: Blanks, c: char) {
    if kind == StrBlanks then IsSpace(c) else IsIntSpace(c)
  }

  function StripLeft(s: string, kind: Blanks): (r: string)
    ensures |r| <= |s| && r == s[|s| - |r|..]
    ensures r == [] || !Blank(kind, r[0])
    ensures s == [] || !Blank(kind, s[0]) ==> r == s
  {
    if s != [] && Blank(kind, s[0]) then StripLeft(s[1..], kind) else s
  }

  function StripRight(s: string, kind: Blanks): (r: string)
    ensures |r| <= |s| && r == s[..|r|]
    ensures r == [] || !Blank(kind, r[|r| - 1])
    ensures s == [] || !Blank(kind, s[|s| - 1]) ==> r == s
  {
    if s != [] && Blank(kind, s[|s| - 1]) then StripRight(s[..|s| - 1], kind) else s
  }

  /** Removing `kind`'s blanks at both ends: none is left at either end, and
      a string without one at its ends is returned unchanged. */
  function StripBlanks(s: string, kind: Blanks): (r: string)
    ensures r == [] || (!Blank(kind, r[0]) && !Blank(kind, r[|r| - 1]))
    ensures (s == [] || (!Blank(kind, s[0]) && !Blank(kind, s[|s| - 1]))) ==> r == s
  {
    var l := StripLeft(s, kind);
    var r := StripRight(l, kind);
    assert r != [] ==> r[0] == l[0];
    r
  }

  /** Python's `s.strip()`. */
  function Strip(s: string): string {
    StripBlanks(s, StrBlanks)
  }

  /** A Python integer literal body: digits, with single underscores allowed
      between two digits. */
  predicate IsDigitGroup(t: string) {
    && 0 < |t| && IsDigit(t[0]) && IsDigit(t[|t| - 1])
    && (forall i :: 0 <= i < |t| ==> IsDigit(t[i]) || t[i] == '_')
    && (forall i :: 0 <= i < |t| - 1 ==> t[i] == '_' ==> t[i + 1] != '_')
  }

  function DropUnderscores(t: string): (r: string)
    requires forall i :: 0 <= i < |t| ==> IsDigit(t[i]) || t[i] == '_'
    ensures AllDigits(r)
    ensures AllDigits(t) ==> r == t
  {
    if t == [] then [] else (if t[0] == '_' then [] else [t[0]]) + DropUnderscores(t[1..])
  }

  /** Python's `int(s)` (base 10): surrounding blanks (`IsIntSpace`) and
      one sign are accepted; `None` stands for the ValueError Python raises. */
  function ParseInt(s: string): Option<int> {
    ParseStripped(StripBlanks(s, IntBlanks))
  }

  /** `int()` on a text without surrounding whitespace. */
  function ParseStripped(t: string): Option<int> {
    if 0 < |t| && (t[0] == '-' || t[0] == '+') then
      if IsDigitGroup(t[1..]) then
        var n: int := DigitsValue(DropUnderscores(t[1..]));
        Some(if t[0] == '-' then -n else n)
      else None
    else if IsDigitGroup(t) then Some(DigitsValue(DropUnderscores(t)))
    else None
  }

  /** `int(str(i)) == i`. */
  lemma ParseIntRoundTrip(i: int)
    ensures ParseInt(IntToString(i)) == Some(i)
  {
    IntTextIsStripped(i);
    StrippedTextParse(IntToString(i));
    IntTextParses(i);
  }

  lemma StrippedTextParse(t: string)
    requires StripBlanks(t, IntBlanks) == t
    ensures ParseInt(t) == ParseStripped(t)
  {
  }

  lemma IntTextParses(i: int)
    ensures ParseStripped(IntToString(i)) == Some(i)
  {
    var t := IntToString(i);
    var n: nat := if i < 0 then -i else i;
    var d := NatToDigits(n);
    NatToDigitsValue(n);
    DigitsAreGroup(d);
    if i < 0 {
      assert t[1..] == d;
      SignedDigitsParse(d, t);
    } else {
      DigitsParse(d);
    }
  }

  lemma DigitsAreGroup(d: string)
    requires 0 < |d| && AllDigits(d)
    ensures IsDigitGroup(d) && DropUnderscores(d) == d
  {
    assert IsDigit(d[0]) && IsDigit(d[|d| - 1]);
    assert forall i :: 0 <= i < |d| ==> IsDigit(d[i]) || d[i] == '_';
    assert forall i :: 0 <= i < |d| - 1 ==> d[i] == '_' ==> d[i + 1] != '_';
  }

  lemma DigitsParse(d: string)
    requires 0 < |d| && AllDigits(d) && IsDigitGroup(d) && DropUnderscores(d) == d
    ensures ParseStripped(d) == Some(DigitsValue(d))
  {
    assert IsDigit(d[0]);
  }

  lemma SignedDigitsParse(d: string, t: string)
    requires 0 < |d| && AllDigits(d) && IsDigitGroup(d) && DropUnderscores(d) == d
    requires 0 < |t| && t[0] == '-' && t[1..] == d
    ensures ParseStripped(t) == Some(-(DigitsValue(d) as int))
  {
    assert IsDigitGroup(t[1..]);
    assert DropUnderscores(t[1..]) == d;
  }

  /** The text of an integer has no blank of either kind to strip. */
  lemma IntTextIsStripped(i: int)
    ensures Strip(IntToString(i)) == IntToString(i)
    ensures StripBlanks(IntToString(i), IntBlanks) == IntToString(i)
  {
    var s := IntToString(i);
    IntTextEnds(i);
    NoBlankEnds(s, StrBlanks);
    NoBlankEnds(s, IntBlanks);
  }

  lemma IntTextEnds(i: int)
    ensures var s := IntToString(i); (s[0] == '-' || IsDigit(s[0])) && IsDigit(s[|s| - 1])
  {
    var s := IntToString(i);
    var d := NatToDigits(if i < 0 then -i else i);
    assert IsDigit(d[0]) && IsDigit(d[|d| - 1]);
    assert s[|s| - 1] == d[|d| - 1];
    assert s[0] == '-' || s[0] == d[0];
  }

  /** `int()` refuses a leading information separator that `strip()`
      removes: `int("\x1c5")` raises, `int("\x1c5".strip())` is 5. */
  lemma SeparatorIsNotIntBlank(d: char)
    requires IsDigit(d)
    ensures ParseInt([28 as char, d]) == None
    ensures ParseInt(Strip([28 as char, d])) == Some(DigitValue(d))
  {
    var s := [28 as char, d];
    SeparatorKept(s);
    StrippedTextParse(s);
    SeparatorStripped(d);
    OneDigitParses(d);
  }

  lemma SeparatorKept(s: string)
    requires |s| == 2 && s[0] == 28 as char && IsDigit(s[1])
    ensures StripBlanks(s, IntBlanks) == s && ParseStripped(s) == None
  {
    NoBlankEnds(s, IntBlanks);
    SeparatorRefused(s);
  }

  lemma SeparatorRefused(s: string)
    requires |s| == 2 && s[0] == 28 as char
    ensures ParseStripped(s) == None
  {
    assert !IsDigit(s[0]);
  }

  lemma NoBlankEnds(s: string, kind: Blanks)
    requires s != [] && !Blank(kind, s[0]) && !Blank(kind, s[|s| - 1])
    ensures StripBlanks(s, kind) == s
  {
  }

  lemma SeparatorStripped(d: char)
    requires IsDigit(d)
    ensures Strip([28 as char, d]) == [d]
  {
    var s := [28 as char, d];
    assert s[1..] == [d];
    assert StripLeft(s, StrBlanks) == [d];
  }

  lemma OneDigitParses(d: char)
    requires IsDigit(d)
    ensures ParseInt([d]) == Some(DigitValue(d))
  {
    NoBlankEnds([d], IntBlanks);
    StrippedTextParse([d]);
    DigitsAreGroup([d]);
    DigitsParse([d]);
    assert [d][..0] == [];
  }

  /** Python's `s.split(sep)`: the pieces between separators, always at least one. */
  function Split(s: string, sep: char): (r: seq<string>)
    ensures 0 < |r|
  {
    if s == [] then [[]]
    else
      var rest := Split(s[1..], sep);
      if s[0] == sep then [[]] + rest else [[s[0]] + rest[0]] + rest[1..]
  }

  /** Python's `sep.join(parts)` for a non-empty list. */
  function Join(parts: seq<string>, sep: char): string
    requires 0 < |parts|
  {
    if |parts| == 1 then parts[0] else parts[0] + [sep] + Join(parts[1..], sep)
  }

  lemma {:induction false} SplitWithoutSeparator(a: string, sep: char)
    requires sep !in a
    ensures Split(a, sep) == [a]
  {
    if a != [] {
      SplitWithoutSeparator(a[1..], sep);
      assert [a[0]] + a[1..] == a;
    }
  }

  lemma {:induction false} SplitAtFirstSeparator(a: string, b: string, sep: char)
    requires sep !in a
    ensures Split(a + [sep] + b, sep) == [a] + Split(b, sep)
  {
    var s := a + [sep] + b;
    if a == [] {
      assert s[1..] == b;
    } else {
      assert s[1..] == a[1..] + [sep] + b;
      SplitAtFirstSeparator(a[1..], b, sep);
      assert [a[0]] + a[1..] == a;
    }
  }

  /** Splitting a join gives the parts back when no part holds the separator. */
  lemma {:induction false} SplitJoin(parts: seq<string>, sep: char)
    requires 0 < |parts|
    requires forall i :: 0 <= i < |parts| ==> sep !in parts[i]
    ensures Split(Join(parts, sep), sep) == parts
  {
    if |parts| == 1 {
      SplitWithoutSeparator(parts[0], sep);
    } else {
      SplitJoin(parts[1..], sep);
      SplitAtFirstSeparator(parts[0], Join(parts[1..], sep), sep);
      assert [parts[0]] + parts[1..] == parts;
    }
  }

  /** `int(p.strip())` for one piece of a comma-separated list. */
  function PieceInt(p: string): Option<int> {
    ParseInt(Strip(p))
  }

  /** `[parse(p) for p in pieces]`: `None` when some piece raises. */
  function ParseEach(pieces: seq<string>, parse: string -> Option<int>): (r: Option<seq<int>>)
    ensures r.Some? ==> |r.value| == |pieces|
  {
    if pieces == [] then Some([])
    else
      match parse(pieces[0])
      case None => None
      case Some(x) =>
        match ParseEach(pieces[1..], parse)
        case None => None
        case Some(xs) => Some([x] + xs)
  }

  /** The list fails exactly when one of its pieces does not parse, and
      otherwise holds each piece's value in order. */
  lemma {:induction false} ParseEachPieces(pieces: seq<string>, parse: string -> Option<int>)
    ensures ParseEach(pieces, parse).None? <==> exists i :: 0 <= i < |pieces| && parse(pieces[i]).None?
    ensures ParseEach(pieces, parse).Some? ==>
      forall i :: 0 <= i < |pieces| ==> parse(pieces[i]) == Some(ParseEach(pieces, parse).value[i])
  {
    if pieces != [] {
      ParseEachPieces(pieces[1..], parse);
      assert forall i :: 1 <= i < |pieces| ==> pieces[i] == pieces[1..][i - 1];
      if parse(pieces[0]).Some? && ParseEach(pieces[1..], parse).None? {
        var i :| 0 <= i < |pieces[1..]| && parse(pieces[1..][i]).None?;
        assert parse(pieces[i + 1]).None?;
      }
    }
  }

  /** A comma-separated list of integers, as the command-line scripts read it:
      `[int(p.strip()) for p in s.split(',')]`. */
  function ParseIntList(s: string): Option<seq<int>> {
    ParseEach(Split(s, ','), PieceInt)
  }

  /** The decimal texts of a list of integers. */
  function IntTexts(xs: seq<int>): (r: seq<string>)
    ensures |r| == |xs|
  {
    if xs == [] then [] else [IntToString(xs[0])] + IntTexts(xs[1..])
  }

  /** The comma-separated text of a list of integers. */
  function JoinInts(xs: seq<int>): string
    requires 0 < |xs|
  {
    Join(IntTexts(xs), ',')
  }

  lemma NoCommaInIntText(i: int)
    ensures ',' !in IntToString(i)
  {
    var s := IntToString(i);
    var n: nat := if i < 0 then -i else i;
    assert forall k :: 0 <= k < |NatToDigits(n)| ==> IsDigit(NatToDigits(n)[k]);
    if i < 0 {
      assert forall k :: 1 <= k < |s| ==> s[k] == NatToDigits(n)[k - 1];
    }
  }

  lemma {:induction false} IntTextsProperties(xs: seq<int>)
    ensures forall i :: 0 <= i < |xs| ==> IntTexts(xs)[i] == IntToString(xs[i])
  {
    if xs != [] {
      IntTextsProperties(xs[1..]);
      assert IntTexts(xs)[1..] == IntTexts(xs[1..]);
    }
  }

  /** When every piece parses, the list holds exactly the pieces' values. */
  lemma {:induction false} ParseEachAll(pieces: seq<string>, parse: string -> Option<int>, xs: seq<int>)
    requires |pieces| == |xs|
    requires forall i :: 0 <= i < |pieces| ==> parse(pieces[i]) == Some(xs[i])
    ensures ParseEach(pieces, parse) == Some(xs)
  {
    if pieces != [] {
      assert forall i :: 0 <= i < |pieces| - 1 ==> pieces[1..][i] == pieces[i + 1];
      ParseEachAll(pieces[1..], parse, xs[1..]);
      assert [xs[0]] + xs[1..] == xs;
    }
  }

  lemma PieceIntRoundTrip(i: int)
    ensures PieceInt(IntToString(i)) == Some(i)
  {
    ParseIntRoundTrip(i);
    IntTextIsStripped(i);
  }

  /** Reading back the comma-separated text of a non-empty list gives the list. */
  lemma ParseIntListRoundTrip(xs: seq<int>)
    requires 0 < |xs|
    ensures ParseIntList(JoinInts(xs)) == Some(xs)
  {
    var parts := IntTexts(xs);
    IntTextsProperties(xs);
    forall i | 0 <= i < |xs| ensures ',' !in parts[i] && PieceInt(parts[i]) == Some(xs[i]) {
      NoCommaInIntText(xs[i]);
      PieceIntRoundTrip(xs[i]);
    }
    SplitJoin(parts, ',');
    ParseEachAll(parts, PieceInt, xs);
  }

  /** A comma-separated list never reads as the empty list, and the empty
      string is not a list at all. */
  lemma ParseIntListNonEmpty(s: string)
    ensures ParseIntList(s).Some? ==> 0 < |ParseIntList(s).value|
    ensures ParseIntList("") == None
  {
    assert Split("", ',') == [""];
    assert PieceInt("") == None;
  }

  function LowerChar(c: char): char {
    if 'A' <= c <= 'Z' then (c as int + 32) as char else c
  }

  /** `s.lower()` on the ASCII letters. */
  function LowerAscii(s: string): (r: string)
    ensures |r| == |s|
    ensures forall i :: 0 <= i < |s| ==> r[i] == LowerChar(s[i])
  {
    seq(|s|, i requires 0 <= i < |s| => LowerChar(s[i]))
  }
}
