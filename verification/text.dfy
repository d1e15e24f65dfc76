/** Decimal digits, zero-padded rendering (as `%0Nd` does) and the small
    string predicates the program relies on (`in` on strings, `endswith`). */
module Text {
  import opened Optional

  predicate IsDigit(c: char) {
    '0' <= c <= '9'
  }

  predicate AllDigits(s: string) {
    forall i :: 0 <= i < |s| ==> IsDigit(s[i])
  }

  function DigitValue(c: char): (v: nat)
    requires IsDigit(c)
    ensures v < 10
  {
    (c as int) - ('0' as int)
  }

  function DigitChar(v: nat): (c: char)
    requires v < 10
    ensures IsDigit(c) && DigitValue(c) == v
  {
    (('0' as int) + v) as char
  }

  function Pow10(n: nat): (p: nat)
    ensures p >= 1
  {
    if n == 0 then 1 else 10 * Pow10(n - 1)
  }

  lemma {:induction false} Pow10Add(a: nat, b: nat)
    ensures Pow10(a + b) == Pow10(a) * Pow10(b)
  {
    if b > 0 {
      Pow10Add(a, b - 1);
      assert Pow10(a + b) == 10 * Pow10(a + b - 1);
    }
  }

  /** The number a string of decimal digits denotes, most significant first. */
  function DigitsValue(s: string): (n: nat)
    requires AllDigits(s)
    ensures n < Pow10(|s|)
    decreases |s|
  {
    if |s| == 0 then 0 else DigitsValue(s[..|s| - 1]) * 10 + DigitValue(s[|s| - 1])
  }

  /** Decimal rendering of `n`, left-padded with zeros to at least `width`
      characters; with `width` 1 it is the plain rendering of `str(n)`. */
  function PaddedDigits(n: nat, width: nat): (s: string)
    ensures AllDigits(s)
    ensures DigitsValue(s) == n
    ensures |s| >= width && |s| >= 1
    ensures n < Pow10(width) ==> |s| == width || (width == 0 && |s| == 1)
    decreases n + width
  {
    if n < 10 && width <= 1 then [DigitChar(n)]
    else PaddedDigits(n / 10, if width == 0 then 0 else width - 1) + [DigitChar(n % 10)]
  }

  /** With width at most one there is no padding: the rendering of a
      positive number, and any rendering longer than one digit, does not
      start with `0`. */
  lemma {:induction false} PlainDigitsUnpadded(n: nat, width: nat)
    requires width <= 1
    ensures n >= 1 ==> PaddedDigits(n, width)[0] != '0'
    ensures |PaddedDigits(n, width)| > 1 ==> PaddedDigits(n, width)[0] != '0'
    decreases n
  {
    if n >= 10 {
      PlainDigitsUnpadded(n / 10, 0);
      assert PaddedDigits(n, width) == PaddedDigits(n / 10, 0) + [DigitChar(n % 10)];
    }
  }

  /** Rendering a digit string's value at the string's own width gives the
      string back: zero-padded rendering loses nothing. */
  lemma {:induction false} PaddedDigitsOfValue(s: string)
    requires AllDigits(s) && |s| >= 1
    ensures PaddedDigits(DigitsValue(s), |s|) == s
    decreases |s|
  {
    var init := s[..|s| - 1];
    var n := DigitsValue(s);
    assert n == DigitsValue(init) * 10 + DigitValue(s[|s| - 1]);
    if |s| == 1 {
      assert init == [];
      assert [DigitChar(n)] == s;
    } else {
      assert n / 10 == DigitsValue(init);
      assert n % 10 == DigitValue(s[|s| - 1]);
      PaddedDigitsOfValue(init);
      assert init + [s[|s| - 1]] == s;
    }
  }

  lemma AllDigitsAppend(a: string, b: string)
    requires AllDigits(a) && AllDigits(b)
    ensures AllDigits(a + b)
  {
    forall i | 0 <= i < |a + b| ensures IsDigit((a + b)[i]) {
      if i >= |a| { assert (a + b)[i] == b[i - |a|]; }
    }
  }

  /** The value of a concatenation of digit strings. */
  lemma {:induction false} DigitsValueAppend(a: string, b: string)
    requires AllDigits(a) && AllDigits(b)
    ensures AllDigits(a + b)
    ensures DigitsValue(a + b) == DigitsValue(a) * Pow10(|b|) + DigitsValue(b)
    decreases |b|
  {
    AllDigitsAppend(a, b);
    if |b| == 0 {
      assert a + b == a;
    } else {
      var b' := b[..|b| - 1];
      var last := b[|b| - 1];
      assert (a + b)[..|a + b| - 1] == a + b';
      assert (a + b)[|a + b| - 1] == last;
      AllDigitsAppend(a, b');
      DigitsValueAppend(a, b');
      assert DigitsValue(a + b) == DigitsValue(a + b') * 10 + DigitValue(last);
      assert DigitsValue(b) == DigitsValue(b') * 10 + DigitValue(last);
      ShiftDigit(DigitsValue(a), Pow10(|b'|), DigitsValue(b'), DigitValue(last));
    }
  }

  lemma ShiftDigit(x: nat, p: nat, y: nat, d: nat)
    ensures (x * p + y) * 10 + d == x * (10 * p) + (y * 10 + d)
  {
  }

  /** The first position of `c` in `s`, as `str.find` reports it. */
  function IndexOf(s: string, c: char): (r: Option<nat>)
    ensures r.None? ==> forall j :: 0 <= j < |s| ==> s[j] != c
    ensures r.Some? ==> r.value < |s| && s[r.value] == c
                        && forall j :: 0 <= j < r.value ==> s[j] != c
  {
    if |s| == 0 then None
    else if s[0] == c then Some(0)
    else
      match IndexOf(s[1..], c)
      case None => None
      case Some(k) => Some(k + 1)
  }

  /** `needle` occurs in `hay` starting at position `i`. */
  predicate OccursAt(hay: string, needle: string, i: nat)
    requires i <= |hay|
  {
    needle <= hay[i..]
  }

  /** Python's `needle in hay` for strings, by a left-to-right scan; its
      contract is the substring definition. */
  function Contains(hay: string, needle: string): (r: bool)
    ensures r <==> exists i: nat :: i <= |hay| && OccursAt(hay, needle, i)
    decreases |hay|
  {
    if needle <= hay then
      assert OccursAt(hay, needle, 0);
      true
    else if |hay| == 0 then
      false
    else
      var r := Contains(hay[1..], needle);
      assert r ==> exists i: nat :: i <= |hay| && OccursAt(hay, needle, i) by {
        if r {
          var k: nat :| k <= |hay[1..]| && OccursAt(hay[1..], needle, k);
          assert hay[1..][k..] == hay[k + 1..];
          assert OccursAt(hay, needle, k + 1);
        }
      }
      assert (exists i: nat :: i <= |hay| && OccursAt(hay, needle, i)) ==> r by {
        if exists i: nat :: i <= |hay| && OccursAt(hay, needle, i) {
          var i: nat :| i <= |hay| && OccursAt(hay, needle, i);
          assert i != 0;
          assert hay[1..][i - 1..] == hay[i..];
          assert OccursAt(hay[1..], needle, i - 1);
        }
      }
      r
  }

  /** Python's `s.endswith(suffix)`. */
  predicate EndsWith(s: string, suffix: string) {
    |suffix| <= |s| && s[|s| - |suffix|..] == suffix
  }
}
