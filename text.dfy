/**
 * The fragments of Python's `str` behaviour the model needs: `lower()`,
 * `strip()`, `endswith`, `in` on substrings, `split('=')` and `int(...)` on a
 * decimal string, together with the rendering `str(n)` of an integer.
 * Only ASCII is modelled: `lower()` folds `A`..`Z`, `strip()` removes the
 * ASCII part of `str.isspace`, and `int()` skips the narrower set of
 * whitespace that CPython's integer parser accepts.
 */
module Text {
  import opened Wrappers

  // ---------------------------------------------------------------------------
  // Characters

  /** The ASCII characters for which Python's `str.isspace()` holds: what `strip()` removes. */
  predicate IsSpace(c: char) {
    '\t' <= c <= '\r' || '\U{1C}' <= c <= ' '
  }

  /**
   * The ASCII characters `int()` skips around its digits: tab, line feed,
   * vertical tab, form feed, carriage return and space. The separators
   * 0x1C..0x1F, which `str.isspace()` accepts, are not among them.
   */
  predicate IsIntSpace(c: char) {
    '\t' <= c <= '\r' || c == ' '
  }

  /** Which of the two whitespace sets a strip removes. */
  datatype Whitespace = StrWhitespace | IntWhitespace

  predicate IsWhite(w: Whitespace, c: char) {
    if w == StrWhitespace then IsSpace(c) else IsIntSpace(c)
  }

  predicate IsDigit(c: char) {
    '0' <= c <= '9'
  }

  function DigitValue(c: char): (d: nat)
    requires IsDigit(c)
    ensures d < 10
  {
    (c as int) - ('0' as int)
  }

  function DigitChar(d: nat): (c: char)
    requires d < 10
    ensures IsDigit(c) && DigitValue(c) == d
  {
    (('0' as int) + d) as char
  }

  function LowerChar(c: char): char {
    if 'A' <= c <= 'Z' then ((c as int) + 32) as char else c
  }

  /** `s.lower()` restricted to ASCII letters. */
  function Lower(s: string): (r: string)
    ensures |r| == |s|
    ensures forall i :: 0 <= i < |s| ==> r[i] == LowerChar(s[i])
  {
    if s == [] then [] else [LowerChar(s[0])] + Lower(s[1..])
  }

  // ---------------------------------------------------------------------------
  // Searching

  /** `s.endswith(suffix)`. */
  predicate EndsWith(s: string, suffix: string) {
    |suffix| <= |s| && s[|s| - |suffix|..] == suffix
  }

  /** `s.endswith(tuple(suffixes))`: some member of the tuple is a suffix. */
  predicate EndsWithAny(s: string, suffixes: seq<string>) {
    exists k :: 0 <= k < |suffixes| && EndsWith(s, suffixes[k])
  }

  /** `pattern in s` for strings: `pattern` occurs at some position of `s`. */
  predicate Contains(s: string, pattern: string) {
    exists i | 0 <= i <= |s| - |pattern| :: OccursAt(s, pattern, i)
  }

  predicate OccursAt(s: string, pattern: string, i: int) {
    0 <= i && i + |pattern| <= |s| && s[i..i + |pattern|] == pattern
  }

  // ---------------------------------------------------------------------------
  // strip() and split()

  /** The characters of `s` after its leading run of `w` whitespace. */
  function StripLeft(s: string, w: Whitespace): (r: string)
    ensures |r| <= |s| && r == s[|s| - |r|..]
    ensures r == [] || !IsWhite(w, r[0])
    ensures forall i :: 0 <= i < |s| - |r| ==> IsWhite(w, s[i])
  {
    if s != [] && IsWhite(w, s[0]) then StripLeft(s[1..], w) else s
  }

  /** The characters of `s` before its trailing run of `w` whitespace. */
  function StripRight(s: string, w: Whitespace): (r: string)
    ensures |r| <= |s| && r == s[..|r|]
    ensures r == [] || !IsWhite(w, r[|r| - 1])
    ensures forall i :: |r| <= i < |s| ==> IsWhite(w, s[i])
  {
    if s != [] && IsWhite(w, s[|s| - 1]) then StripRight(s[..|s| - 1], w) else s
  }

  /** `s.strip()`: the whitespace at both ends removed, the middle untouched. */
  function Strip(s: string): (r: string)
    ensures |r| <= |s|
    ensures r == [] || (!IsSpace(r[0]) && !IsSpace(r[|r| - 1]))
  {
    StripRight(StripLeft(s, StrWhitespace), StrWhitespace)
  }

  /** The text `int()` parses: its argument without the whitespace `int()` skips at either end. */
  function IntBody(s: string): (r: string)
    ensures |r| <= |s|
    ensures r == [] || (!IsIntSpace(r[0]) && !IsIntSpace(r[|r| - 1]))
  {
    StripRight(StripLeft(s, IntWhitespace), IntWhitespace)
  }

  /** A string with no `w` whitespace at either end loses nothing to stripping. */
  lemma StripNoSpaceEnds(s: string, w: Whitespace)
    requires s != [] && !IsWhite(w, s[0]) && !IsWhite(w, s[|s| - 1])
    ensures StripRight(StripLeft(s, w), w) == s
  {
    assert StripLeft(s, w) == s;
  }

  /** Stripping a line whose text has no whitespace at either end removes exactly its newline. */
  lemma StripLineEnd(body: string)
    requires body != [] && !IsSpace(body[0]) && !IsSpace(body[|body| - 1])
    ensures Strip(body + "\n") == body
  {
    var line := body + "\n";
    assert StripLeft(line, StrWhitespace) == line;
    assert line[..|line| - 1] == body;
    assert StripRight(line, StrWhitespace) == StripRight(body, StrWhitespace);
    StripNoSpaceEnds(body, StrWhitespace);
  }

  /** Stripping keeps every character that is not whitespace. */
  lemma {:induction false} StripKeeps(s: string, i: nat)
    requires i < |s| && !IsSpace(s[i])
    ensures s[i] in Strip(s)
  {
    var l := StripLeft(s, StrWhitespace);
    var a := |s| - |l|;
    assert i >= a;
    assert l[i - a] == s[i];
    var r := StripRight(l, StrWhitespace);
    assert i - a < |r|;
    assert r[i - a] == s[i];
  }

  /** `s.split(sep)` for a one-character separator: the pieces between separators. */
  function Split(s: string, sep: char): (pieces: seq<string>)
    ensures |pieces| >= 1
    ensures sep in s ==> |pieces| >= 2
    ensures forall k :: 0 <= k < |pieces| ==> sep !in pieces[k]
  {
    if sep !in s then [s]
    else
      var i := IndexOf(s, sep);
      [s[..i]] + Split(s[i + 1..], sep)
  }

  /** The position of the first occurrence of `c` in `s`. */
  function IndexOf(s: string, c: char): (i: nat)
    requires c in s
    ensures i < |s| && s[i] == c && c !in s[..i]
  {
    if s[0] == c then 0 else 1 + IndexOf(s[1..], c)
  }

  /** The first occurrence is the position before which `c` does not occur. */
  lemma IndexOfFirst(s: string, c: char, i: nat)
    requires i < |s| && s[i] == c && c !in s[..i]
    ensures c in s && IndexOf(s, c) == i
  {
    assert s[i] in s;
  }

  /** A string with exactly one separator splits into the text before it and the text after it. */
  lemma SplitOnce(s: string, c: char, head: string, tail: string)
    requires s == head + [c] + tail && c !in head && c !in tail
    ensures Split(s, c) == [head, tail]
  {
    assert s[..|head|] == head && s[|head|] == c;
    IndexOfFirst(s, c, |head|);
    assert s[|head| + 1..] == tail;
  }

  // ---------------------------------------------------------------------------
  // int(text) and str(n)

  /**
   * A base-10 digit string as `int()` accepts it once signs and surrounding
   * whitespace are gone: digits, where single underscores may separate two
   * digits.
   */
  predicate WellFormedDigits(s: string) {
    |s| > 0 && IsDigit(s[0]) && IsDigit(s[|s| - 1]) &&
    (forall i :: 0 <= i < |s| ==> IsDigit(s[i]) || s[i] == '_') &&
    (forall i :: 0 <= i < |s| - 1 && s[i] == '_' ==> s[i + 1] != '_')
  }

  /** The number a digit string denotes, underscores ignored. */
  function DigitsValue(s: string): nat
    requires forall i :: 0 <= i < |s| ==> IsDigit(s[i]) || s[i] == '_'
  {
    if s == [] then 0
    else
      var init := s[..|s| - 1];
      var last := s[|s| - 1];
      if last == '_' then DigitsValue(init) else 10 * DigitsValue(init) + DigitValue(last)
  }

  /** `int(body)` for an unsigned body, `None` where Python raises `ValueError`. */
  function ParseDigits(body: string): (r: Option<nat>)
    ensures r.Some? <==> WellFormedDigits(body)
  {
    if WellFormedDigits(body) then Some(DigitsValue(body)) else None
  }

  /**
   * `int(text)` in base 10: the `IsIntSpace` whitespace around the number is
   * ignored, then one optional sign and a well-formed digit string; anything
   * else raises `ValueError`, which is `None` here.
   */
  function ParseInt(text: string): (r: Option<int>)
  {
    var t := IntBody(text);
    if t != [] && (t[0] == '+' || t[0] == '-') then
      match ParseDigits(t[1..])
      case None => None
      case Some(n) =>
        var v: int := if t[0] == '-' then -(n as int) else n;
        Some(v)
    else
      match ParseDigits(t)
      case None => None
      case Some(n) => Some(n)
  }

  /** `str(n)` for a natural number: its decimal digits, most significant first. */
  function NatToString(n: nat): (s: string)
    ensures |s| > 0
    ensures forall i :: 0 <= i < |s| ==> IsDigit(s[i])
  {
    if n < 10 then [DigitChar(n)] else NatToString(n / 10) + [DigitChar(n % 10)]
  }

  /** `str(n)` for any integer. */
  function IntToString(n: int): (s: string)
    ensures |s| > 0 && IsDigit(s[|s| - 1])
  {
    if n < 0 then "-" + NatToString(-n) else NatToString(n)
  }

  /** Reading back the digits of `str(n)` gives `n`. */
  lemma {:induction false} NatToStringValue(n: nat)
    ensures DigitsValue(NatToString(n)) == n
  {
    var s := NatToString(n);
    if n >= 10 {
      NatToStringValue(n / 10);
      assert s[..|s| - 1] == NatToString(n / 10);
    }
  }

  lemma ParseDigitsOfNatToString(m: nat)
    ensures ParseDigits(NatToString(m)) == Some(m)
  {
    NatToStringValue(m);
  }

  /** `int(str(n)) == n`: the integer rendering and the integer parser are inverse. */
  lemma ParseIntOfIntToString(n: int)
    ensures ParseInt(IntToString(n)) == Some(n)
  {
    var s := IntToString(n);
    if n < 0 {
      var digits := NatToString(-n);
      ParseDigitsOfNatToString(-n);
      assert s == "-" + digits;
      assert s[|s| - 1] == digits[|digits| - 1];
      StripNoSpaceEnds(s, IntWhitespace);
      assert s[1..] == digits;
    } else {
      ParseDigitsOfNatToString(n);
      StripNoSpaceEnds(s, IntWhitespace);
    }
  }

  /** `int()` refuses a number prefixed by the separator 0x1C, which is not its whitespace. */
  lemma IntRejectsSeparator()
    ensures ParseInt("\U{1C}5") == None
  {
    var t := "\U{1C}5";
    assert !IsIntSpace(t[0]) && !IsIntSpace(t[1]);
    assert StripLeft(t, IntWhitespace) == t;
    assert StripRight(t, IntWhitespace) == t;
    assert !IsDigit(t[0]) && t[0] != '+' && t[0] != '-';
    assert ParseDigits(t) == None;
  }

  /** `int()` skips a space and a tab around the number. */
  lemma IntSkipsWhitespace()
    ensures ParseInt(" 5\t") == Some(5)
  {
    assert StripLeft(" 5\t", IntWhitespace) == "5\t";
    assert StripRight("5\t", IntWhitespace) == "5";
    assert WellFormedDigits("5") && DigitsValue("5") == 5;
  }

  /** `strip()`, unlike `int()`, removes the separator 0x1C from both ends. */
  lemma StripRemovesSeparator()
    ensures Strip("\U{1C}5\U{1C}") == "5"
  {
    var t := "\U{1C}5\U{1C}";
    var l := StripLeft(t, StrWhitespace);
    assert l == "5\U{1C}" by {
      assert IsSpace(t[0]) && t[1..] == "5\U{1C}";
      assert StripLeft("5\U{1C}", StrWhitespace) == "5\U{1C}";
    }
    assert StripRight(l, StrWhitespace) == "5" by {
      assert IsSpace(l[1]) && l[..1] == "5";
      assert StripRight("5", StrWhitespace) == "5";
    }
  }
}
