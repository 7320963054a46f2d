// Text helpers shared by the models: trimming, substring search and decimal numerals.
module Text {

  datatype Option<+T> = None | Some(value: T)

  /** The Unicode White_Space property, which is what Rust's `char::is_whitespace` tests. */
  predicate IsWhitespace(c: char) {
    var n := c as int;
    9 <= n <= 13 || n == 32 || n == 0x85 || n == 0xA0 || n == 0x1680 || 0x2000 <= n <= 0x200A ||
    n == 0x2028 || n == 0x2029 || n == 0x202F || n == 0x205F || n == 0x3000
  }

  /** There are twenty-five such characters. */
  lemma WhitespaceIs(c: char)
    ensures IsWhitespace(c) <==>
              c as int in {0x9, 0xA, 0xB, 0xC, 0xD, 0x20, 0x85, 0xA0, 0x1680, 0x2000, 0x2001, 0x2002, 0x2003, 0x2004, 0x2005,
                           0x2006, 0x2007, 0x2008, 0x2009, 0x200A, 0x2028, 0x2029, 0x202F, 0x205F, 0x3000}
  {
  }

  /** How many bytes a character takes in UTF-8, and a text. */
  function Utf8Width(c: char): (n: nat)
    ensures n == 1 <==> c as int < 0x80
  {
    if c as int < 0x80 then 1 else if c as int < 0x800 then 2 else if c as int < 0x10000 then 3 else 4
  }

  function Utf8Length(s: string): (n: nat)
    ensures n >= |s|
    ensures n == |s| <==> forall i :: 0 <= i < |s| ==> s[i] as int < 0x80
  {
    if s == [] then 0 else Utf8Length(s[..|s| - 1]) + Utf8Width(s[|s| - 1])
  }

  /** How many characters have a code point of at least `bound`. */
  function From(s: string, bound: nat): nat {
    if s == [] then 0 else (if s[0] as int >= bound then 1 else 0) + From(s[1..], bound)
  }

  lemma {:induction false} FromLast(s: string, c: char, bound: nat)
    ensures From(s + [c], bound) == From(s, bound) + (if c as int >= bound then 1 else 0)
  {
    if s == [] {
      assert s + [c] == [c];
    } else {
      assert (s + [c])[1..] == s[1..] + [c];
      FromLast(s[1..], c, bound);
    }
  }

  /** One byte for each character, one more from U+0080 on, from U+0800 on and from U+10000 on. */
  lemma {:induction false} Utf8LengthIs(s: string)
    ensures Utf8Length(s) == |s| + From(s, 0x80) + From(s, 0x800) + From(s, 0x10000)
  {
    if s != [] {
      var front, c := s[..|s| - 1], s[|s| - 1];
      assert s == front + [c];
      Utf8LengthIs(front);
      FromLast(front, c, 0x80);
      FromLast(front, c, 0x800);
      FromLast(front, c, 0x10000);
    }
  }

  predicate IsDigit(c: char) { '0' <= c <= '9' }

  /** First position from `i` on that is not whitespace. */
  function SkipWhitespace(s: string, i: nat): (j: nat)
    requires i <= |s|
    ensures i <= j <= |s| && (j < |s| ==> !IsWhitespace(s[j]))
    ensures i < |s| && !IsWhitespace(s[i]) ==> j == i
    decreases |s| - i
  {
    if i < |s| && IsWhitespace(s[i]) then SkipWhitespace(s, i + 1) else i
  }

  /** Last position down from `j`, but not below `i`, that follows a non-whitespace character. */
  function DropWhitespace(s: string, i: nat, j: nat): (k: nat)
    requires i <= j <= |s|
    ensures i <= k <= j && (i < k ==> !IsWhitespace(s[k - 1]))
    ensures i < j && !IsWhitespace(s[j - 1]) ==> k == j
    decreases j
  {
    if i < j && IsWhitespace(s[j - 1]) then DropWhitespace(s, i, j - 1) else j
  }

  /** Nothing but whitespace. */
  predicate AllBlank(s: string) { forall i :: 0 <= i < |s| ==> IsWhitespace(s[i]) }

  lemma {:induction false} SkipsBlanksOnly(s: string, i: nat)
    requires i <= |s|
    ensures AllBlank(s[i..SkipWhitespace(s, i)])
    decreases |s| - i
  {
    if i < |s| && IsWhitespace(s[i]) {
      SkipsBlanksOnly(s, i + 1);
      assert s[i..SkipWhitespace(s, i)] == [s[i]] + s[i + 1..SkipWhitespace(s, i)];
    }
  }

  lemma {:induction false} DropsBlanksOnly(s: string, i: nat, j: nat)
    requires i <= j <= |s|
    ensures AllBlank(s[DropWhitespace(s, i, j)..j])
    decreases j
  {
    if i < j && IsWhitespace(s[j - 1]) {
      DropsBlanksOnly(s, i, j - 1);
      var k := DropWhitespace(s, i, j);
      assert s[k..j] == s[k..j - 1] + [s[j - 1]];
    }
  }

  function TrimStart(s: string): (r: string)
    ensures r == [] || !IsWhitespace(r[0])
  {
    s[SkipWhitespace(s, 0)..]
  }

  lemma BlanksEndAt(a: string, r: string, b: string, t: string)
    requires a + r == b + t && AllBlank(a) && (t == [] || !IsWhitespace(t[0]))
    ensures |a| <= |b|
  {
    if t != [] {
      assert (b + t)[|b|] == t[0];
      assert forall k :: 0 <= k < |a| ==> IsWhitespace((a + r)[k]);
    } else {
      assert |a + r| == |b|;
    }
  }

  /** `r` is what is left of `s` when exactly its leading whitespace is taken away. */
  ghost predicate LeadingTrimmed(s: string, r: string) {
    (r == [] || !IsWhitespace(r[0])) && exists blanks :: AllBlank(blanks) && s == blanks + r
  }

  lemma TrimStartIs(s: string, r: string)
    ensures LeadingTrimmed(s, r) <==> r == TrimStart(s)
  {
    var t := TrimStart(s);
    SkipsBlanksOnly(s, 0);
    var front := s[..SkipWhitespace(s, 0)];
    assert s == front + t;
    if LeadingTrimmed(s, r) {
      var blanks :| AllBlank(blanks) && s == blanks + r;
      BlanksEndAt(blanks, r, front, t);
      BlanksEndAt(front, t, blanks, r);
      assert s[|blanks|..] == r;
    }
  }

  function Trim(s: string): (r: string)
    ensures Trimmed(r)
    ensures Trimmed(s) ==> r == s
  {
    var i := SkipWhitespace(s, 0);
    s[i..DropWhitespace(s, i, |s|)]
  }

  /** The text without the whitespace at both ends. */
  lemma TrimIs(s: string) returns (before: string, after: string)
    ensures AllBlank(before) && AllBlank(after) && s == before + Trim(s) + after && Trimmed(Trim(s))
  {
    var i := SkipWhitespace(s, 0);
    var j := DropWhitespace(s, i, |s|);
    SkipsBlanksOnly(s, 0);
    DropsBlanksOnly(s, i, |s|);
    before, after := s[..i], s[j..];
  }

  /** No whitespace at either end. */
  predicate Trimmed(s: string) {
    s == [] || (!IsWhitespace(s[0]) && !IsWhitespace(s[|s| - 1]))
  }

  predicate OccursAt(hay: string, needle: string, i: int) {
    0 <= i <= |hay| - |needle| && hay[i..i + |needle|] == needle
  }

  predicate Contains(hay: string, needle: string) {
    exists i | 0 <= i <= |hay| :: OccursAt(hay, needle, i)
  }

  /** `needle` stands somewhere in `hay`. */
  ghost predicate Inside(needle: string, hay: string) { exists a, b :: hay == a + needle + b }

  lemma ContainsMeansInside(hay: string, needle: string)
    ensures Contains(hay, needle) <==> Inside(needle, hay)
  {
    if Contains(hay, needle) {
      var i :| 0 <= i <= |hay| && OccursAt(hay, needle, i);
      assert hay == hay[..i] + needle + hay[i + |needle|..];
    }
    if a, b :| hay == a + needle + b {
      assert OccursAt(hay, needle, |a|);
    }
  }

  predicate StartsWith(s: string, p: string) {
    |p| <= |s| && s[..|p|] == p
  }

  lemma Parts(s: string, i: nat, a: string, b: string)
    requires OccursAt(s, a + b, i)
    ensures OccursAt(s, a, i) && OccursAt(s, b, i + |a|)
  {
    assert s[i..i + |a + b|] == a + b;
    assert s[i..i + |a|] == (a + b)[..|a|];
    assert s[i + |a|..i + |a| + |b|] == (a + b)[|a|..];
  }

  lemma Joins(s: string, i: nat, a: string, b: string)
    requires OccursAt(s, a, i) && OccursAt(s, b, i + |a|)
    ensures OccursAt(s, a + b, i) && |a + b| == |a| + |b|
  {
    assert s[i..i + |a| + |b|] == s[i..i + |a|] + s[i + |a|..i + |a| + |b|];
  }

  lemma CharAt(s: string, i: nat, c: char)
    requires OccursAt(s, [c], i)
    ensures i < |s| && s[i] == c
  {
    assert s[i..i + 1][0] == c;
  }

  function DigitChar(d: nat): (c: char)
    requires d < 10
    ensures IsDigit(c) && DigitValue(c) == d
  {
    ('0' as int + d) as char
  }

  function DigitValue(c: char): nat
    requires IsDigit(c)
  {
    c as int - '0' as int
  }

  lemma DigitsAre(c: char)
    ensures IsDigit(c) <==> c in "0123456789"
    ensures IsDigit(c) ==> DigitValue(c) < 10 && "0123456789"[DigitValue(c)] == c
  {
    assert "0123456789"[0] == '0' && "0123456789"[9] == '9';
    if IsDigit(c) {
      var n := DigitValue(c);
      assert "0123456789"[n] == c;
    }
  }

  predicate AllDigits(s: string) { forall i :: 0 <= i < |s| ==> IsDigit(s[i]) }

  /** The number a digit string denotes. */
  function DigitsValue(s: string): nat
    requires AllDigits(s)
  {
    if s == [] then 0 else 10 * DigitsValue(s[..|s| - 1]) + DigitValue(s[|s| - 1])
  }

  /** Decimal numeral without leading zeros, as Rust's integer formatting writes it. */
  function Numeral(n: nat): (s: string)
    ensures s != [] && AllDigits(s) && (|s| > 1 ==> s[0] != '0')
    ensures DigitsValue(s) == n
  {
    if n < 10 then [DigitChar(n)]
    else
      var s := Numeral(n / 10) + [DigitChar(n % 10)];
      assert s[..|s| - 1] == Numeral(n / 10);
      s
  }
}
