/**
 * String helpers standing in for the few java.lang.String operations the
 * logging engine uses: contains, indexOf of a character, replace of one
 * character by another, isBlank, and the decimal rendering behind the
 * timer's "%.3f sec".
 */
module Text {

  datatype Option<T> = None | Some(value: T)

  /** Java's String.contains: `t` occurs somewhere in `s`. */
  predicate HasInfix(s: string, t: string)
    decreases |s|
  {
    |t| <= |s| && (s[..|t|] == t || (|s| > 0 && HasInfix(s[1..], t)))
  }

  /** An occurrence of `t` at position `i` of `s`. */
  ghost predicate OccursAt(s: string, t: string, i: int)
  {
    0 <= i && i + |t| <= |s| && s[i..i + |t|] == t
  }

  lemma {:induction false} HasInfixMeansOccurs(s: string, t: string)
    ensures HasInfix(s, t) <==> exists i :: OccursAt(s, t, i)
    decreases |s|
  {
    if HasInfix(s, t) {
      if s[..|t|] == t {
        assert OccursAt(s, t, 0);
      } else {
        HasInfixMeansOccurs(s[1..], t);
        var i :| OccursAt(s[1..], t, i);
        assert s[1..][i..i + |t|] == s[i + 1..i + 1 + |t|];
        assert OccursAt(s, t, i + 1);
      }
    } else {
      if i :| OccursAt(s, t, i) {
        if i > 0 {
          assert s[1..][i - 1..i - 1 + |t|] == s[i..i + |t|];
          assert OccursAt(s[1..], t, i - 1);
          HasInfixMeansOccurs(s[1..], t);
        }
      }
    }
  }

  /** Java's String.indexOf(c): the first position of `c`, or -1. */
  function IndexOf(s: string, c: char): (r: int)
    ensures -1 <= r < |s|
    ensures r == -1 <==> c !in s
    ensures r >= 0 ==> s[r] == c && c !in s[..r]
    decreases |s|
  {
    if |s| == 0 then -1
    else if s[0] == c then 0
    else
      var k := IndexOf(s[1..], c);
      if k < 0 then -1 else k + 1
  }

  /** Java's String.replace(from, to) for one-character strings. */
  function ReplaceChar(s: string, from: char, to: char): (r: string)
    ensures |r| == |s|
    ensures forall i :: 0 <= i < |s| ==> r[i] == (if s[i] == from then to else s[i])
    ensures from != to ==> from !in r
    decreases |s|
  {
    if |s| == 0 then ""
    else [if s[0] == from then to else s[0]] + ReplaceChar(s[1..], from, to)
  }

  /**
   * The characters Character.isWhitespace accepts in the Latin-1 range;
   * the Unicode space separators beyond it are not part of this model.
   */
  predicate IsJavaWhitespace(c: char)
  {
    c == ' ' || c == '\t' || c == '\n' || c == '\U{000B}' || c == '\U{000C}' || c == '\r'
    || c == '\U{001C}' || c == '\U{001D}' || c == '\U{001E}' || c == '\U{001F}'
  }

  /** Java's String.isBlank: empty or whitespace only. */
  predicate IsBlank(s: string)
  {
    forall i :: 0 <= i < |s| ==> IsJavaWhitespace(s[i])
  }

  /** The decimal digits of a natural number. */
  function NatText(n: nat): (r: string)
    ensures |r| >= 1
    ensures forall i :: 0 <= i < |r| ==> '0' <= r[i] <= '9'
    decreases n
  {
    if n < 10 then [Digit(n)] else NatText(n / 10) + [Digit(n % 10)]
  }

  function Digit(d: nat): (c: char)
    requires d < 10
    ensures '0' <= c <= '9' && c as int - '0' as int == d
  {
    ('0' as int + d) as char
  }

  /** Reading back the digits that NatText writes. */
  function DigitsValue(s: string): int
    decreases |s|
  {
    if |s| == 0 then 0 else DigitsValue(s[..|s| - 1]) * 10 + (s[|s| - 1] as int - '0' as int)
  }

  lemma {:induction false} NatTextRoundTrip(n: nat)
    ensures DigitsValue(NatText(n)) == n
    decreases n
  {
    if n >= 10 {
      DigitsValueSnoc(NatText(n / 10), Digit(n % 10));
      NatTextRoundTrip(n / 10);
    }
  }

  lemma DigitsValueSnoc(p: string, c: char)
    ensures DigitsValue(p + [c]) == DigitsValue(p) * 10 + (c as int - '0' as int)
  {
    assert (p + [c])[..|p|] == p;
  }

  /**
   * A whole number of milliseconds shown as seconds with three decimals,
   * as "%.3f" renders `(float) ms / 1000`: sign, whole seconds, a dot and
   * exactly three digits of milliseconds.
   */
  function MillisAsSeconds(ms: int): (r: string)
    ensures |r| >= 5 && r[|r| - 4] == '.'
    ensures forall i :: |r| - 3 <= i < |r| ==> '0' <= r[i] <= '9'
    ensures ms < 0 <==> r[0] == '-'
  {
    if ms < 0 then "-" + Unsigned(-ms) else Unsigned(ms)
  }

  function Unsigned(ms: nat): (r: string)
    ensures |r| >= 5 && r[|r| - 4] == '.' && '0' <= r[0] <= '9'
    ensures forall i :: |r| - 3 <= i < |r| ==> '0' <= r[i] <= '9'
  {
    var f := ms % 1000;
    NatText(ms / 1000) + "." + [Digit(f / 100), Digit(f / 10 % 10), Digit(f % 10)]
  }

  /**
   * Reading the rendering back: the digits before the dot are the whole
   * seconds and the three after it the remaining milliseconds.
   */
  lemma MillisReadBack(ms: nat)
    ensures var r := Unsigned(ms);
      DigitsValue(r[..|r| - 4]) == ms / 1000 && DigitsValue(r[|r| - 3..]) == ms % 1000
  {
    var f := ms % 1000;
    var r := Unsigned(ms);
    assert r[..|r| - 4] == NatText(ms / 1000);
    NatTextRoundTrip(ms / 1000);
    assert r[|r| - 3..] == [Digit(f / 100), Digit(f / 10 % 10), Digit(f % 10)];
    ThreeDigits(f);
  }

  lemma ThreeDigits(f: nat)
    requires f < 1000
    ensures DigitsValue([Digit(f / 100), Digit(f / 10 % 10), Digit(f % 10)]) == f
  {
    var a, b, c := Digit(f / 100), Digit(f / 10 % 10), Digit(f % 10);
    DigitsValueSnoc([], a);
    assert [a] == [] + [a];
    DigitsValueSnoc([a], b);
    assert [a, b] == [a] + [b];
    DigitsValueSnoc([a, b], c);
    assert [a, b, c] == [a, b] + [c];
    assert f / 10 == (f / 10 / 10) * 10 + f / 10 % 10;
    assert f / 10 / 10 == f / 100;
  }
}
