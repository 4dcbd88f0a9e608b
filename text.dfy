/**
 * The string operations of the Kotlin standard library that the core relies on:
 * blank checks and trimming, digit filtering, `split` and `joinToString`.
 * Strings are sequences of characters.
 */
module Text {

  /** The whitespace characters `trim` and `isBlank` skip (ASCII subset of Kotlin's `isWhitespace`). */
  predicate IsWhitespace(c: char) {
    c == ' ' || c == '\t' || c == '\n' || c == '\r'
  }

  /** Kotlin `isBlank`: empty or only whitespace. */
  predicate IsBlank(s: string) {
    forall i :: 0 <= i < |s| ==> IsWhitespace(s[i])
  }

  /**
   * Kotlin's `length`: the number of UTF-16 code units, two for a character
   * beyond the Basic Multilingual Plane and one for any other.
   */
  function Utf16Length(s: string): (n: nat)
    ensures |s| <= n <= 2 * |s|
    ensures (forall i :: 0 <= i < |s| ==> s[i] as int < 0x10000) ==> n == |s|
  {
    if s == [] then 0
    else
      assert forall i :: 1 <= i < |s| ==> s[1..][i - 1] == s[i];
      (if s[0] as int >= 0x10000 then 2 else 1) + Utf16Length(s[1..])
  }

  function TrimStart(s: string): (r: string)
    ensures |r| <= |s| && r == s[|s| - |r|..]
    ensures r == [] || !IsWhitespace(r[0])
    ensures IsBlank(s) <==> r == []
  {
    if |s| > 0 && IsWhitespace(s[0]) then TrimStart(s[1..]) else s
  }

  function TrimEnd(s: string): (r: string)
    ensures |r| <= |s| && r == s[..|r|]
    ensures r == [] || !IsWhitespace(r[|r| - 1])
    ensures IsBlank(s) <==> r == []
  {
    if |s| > 0 && IsWhitespace(s[|s| - 1]) then TrimEnd(s[..|s| - 1]) else s
  }

  /** Kotlin `trim`: drops leading and trailing whitespace. */
  function Trim(s: string): (r: string)
    ensures |r| <= |s|
    ensures r == [] || (!IsWhitespace(r[0]) && !IsWhitespace(r[|r| - 1]))
    ensures IsBlank(s) <==> r == []
    ensures IsBlank(r) <==> r == []
  {
    TrimEnd(TrimStart(s))
  }

  /** A text that neither starts nor ends with whitespace is its own trim. */
  lemma TrimUntouched(s: string)
    requires s == [] || (!IsWhitespace(s[0]) && !IsWhitespace(s[|s| - 1]))
    ensures Trim(s) == s
  {
    assert TrimStart(s) == s;
  }

  /** Kotlin `isDigit`, restricted to the ASCII digits. */
  predicate IsDigit(c: char) {
    '0' <= c <= '9'
  }

  predicate AllDigits(s: string) {
    forall i :: 0 <= i < |s| ==> IsDigit(s[i])
  }

  /** `filter { it.isDigit() }`: the digits of `s`, in order. */
  function DigitsOnly(s: string): (r: string)
    ensures AllDigits(r)
    ensures |r| <= |s|
    ensures forall c :: c in r <==> c in s && IsDigit(c)
  {
    if s == [] then []
    else if IsDigit(s[0]) then [s[0]] + DigitsOnly(s[1..])
    else DigitsOnly(s[1..])
  }

  /** A string of digits is left alone by the digit filter. */
  lemma {:induction false} DigitsOnlyOfDigits(s: string)
    requires AllDigits(s)
    ensures DigitsOnly(s) == s
  {
    if s != [] {
      DigitsOnlyOfDigits(s[1..]);
    }
  }

  /** The decimal value of a string of digits. */
  function DigitsValue(s: string): (n: nat)
    requires AllDigits(s)
  {
    if s == [] then 0 else DigitsValue(s[..|s| - 1]) * 10 + (s[|s| - 1] as int - '0' as int)
  }

  /** The digit character of a number below ten. */
  function DigitChar(d: nat): (c: char)
    requires d < 10
    ensures IsDigit(c) && c as int - '0' as int == d
  {
    ('0' as int + d) as char
  }

  /** Kotlin `joinToString(sep)`: "" for no parts, the parts separated by `sep` otherwise. */
  function Join(parts: seq<string>, sep: string): (r: string)
    ensures |parts| == 1 ==> r == parts[0]
  {
    if |parts| == 0 then ""
    else if |parts| == 1 then parts[0]
    else parts[0] + sep + Join(parts[1..], sep)
  }

  /**
   * Kotlin `split(sep)`: cuts `s` at every occurrence of `sep`, scanning
   * left to right without overlap; there is always at least one part.
   */
  function Split(s: string, sep: string): (r: seq<string>)
    requires |sep| > 0
    ensures |r| >= 1
    decreases |s|
  {
    if |s| < |sep| then [s]
    else if s[..|sep|] == sep then [""] + Split(s[|sep|..], sep)
    else
      var rest := Split(s[1..], sep);
      [[s[0]] + rest[0]] + rest[1..]
  }

  /** A string without the separator's first character is one part of the split. */
  lemma {:induction false} SplitNoSeparator(s: string, sep: string)
    requires |sep| > 0 && sep[0] !in s
    ensures Split(s, sep) == [s]
  {
    SplitGlue(s, "", sep);
    assert s + "" == s;
  }

  /** A prefix without the separator's first character sticks to the first part. */
  lemma {:induction false} SplitGlue(p: string, rest: string, sep: string)
    requires |sep| > 0 && sep[0] !in p
    ensures Split(p + rest, sep) == [p + Split(rest, sep)[0]] + Split(rest, sep)[1..]
    decreases |p|
  {
    if p != [] {
      var s := p + rest;
      assert s[0] == p[0];
      assert s[1..] == p[1..] + rest;
      SplitGlue(p[1..], rest, sep);
      if |s| < |sep| {
        assert |rest| < |sep|;
        assert [p[0]] + (p[1..] + rest) == s;
      } else {
        assert s[..|sep|][0] == p[0];
        assert [p[0]] + (p[1..] + Split(rest, sep)[0]) == p + Split(rest, sep)[0];
      }
    } else {
      var r := Split(rest, sep);
      assert p + rest == rest;
      assert p + r[0] == r[0];
      assert [r[0]] + r[1..] == r;
    }
  }

  /** Splitting what was joined gives back the parts when no part can start a separator. */
  lemma {:induction false} SplitJoin(parts: seq<string>, sep: string)
    requires |sep| > 0 && |parts| >= 1
    requires forall i :: 0 <= i < |parts| ==> sep[0] !in parts[i]
    ensures Split(Join(parts, sep), sep) == parts
  {
    if |parts| == 1 {
      SplitNoSeparator(parts[0], sep);
    } else {
      var tail := Join(parts[1..], sep);
      SplitJoin(parts[1..], sep);
      var x := sep + tail;
      assert x[..|sep|] == sep;
      assert x[|sep|..] == tail;
      assert Split(x, sep) == [""] + parts[1..];
      assert Join(parts, sep) == parts[0] + x;
      SplitGlue(parts[0], x, sep);
      assert parts[0] + "" == parts[0];
      assert [parts[0]] + parts[1..] == parts;
    }
  }

  /** A character occurs in a join only if it occurs in a part or in the separator. */
  lemma {:induction false} JoinChars(parts: seq<string>, sep: string, c: char)
    requires c !in sep
    requires forall i :: 0 <= i < |parts| ==> c !in parts[i]
    ensures c !in Join(parts, sep)
  {
    if |parts| > 1 {
      JoinChars(parts[1..], sep, c);
    }
  }

  /**
   * Splitting on a one-character separator leaves that character in no part,
   * and a character absent from the text is absent from every part.
   */
  lemma {:induction false} SplitPartsChars(s: string, c: char, d: char)
    ensures forall i :: 0 <= i < |Split(s, [c])| ==> c !in Split(s, [c])[i]
    ensures d !in s ==> forall i :: 0 <= i < |Split(s, [c])| ==> d !in Split(s, [c])[i]
    decreases |s|
  {
    if |s| >= 1 {
      SplitPartsChars(s[1..], c, d);
      if s[..1] != [c] {
        assert s[0] != c;
        var rest := Split(s[1..], [c]);
        assert Split(s, [c]) == [[s[0]] + rest[0]] + rest[1..];
        assert d !in s ==> d !in s[1..] && s[0] != d;
      } else {
        assert d !in s ==> d !in s[1..];
      }
    }
  }
}
