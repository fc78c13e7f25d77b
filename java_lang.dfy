/**
 * The parts of java.lang (and of Apache Commons Lang) that the modelled classes
 * rely on: 32-bit two's-complement `int` arithmetic, `String.hashCode`,
 * `Character.isWhitespace` and `StringUtils.isNotBlank`.
 */
module JavaLang {
  import opened Wrappers

  const TWO_31: int := 0x8000_0000
  const TWO_32: int := 0x1_0000_0000

  /** The values of Java's `int`. */
  type Int32 = x: int | -0x8000_0000 <= x < 0x8000_0000

  /**
   * Truncation of a mathematical integer to a Java `int`: the one `int` that
   * is congruent to `x` modulo 2^32. Every `+` and `*` on `int` in Java is
   * followed by this truncation.
   */
  function Wrap(x: int): (r: Int32)
    ensures (r - x) % TWO_32 == 0
    ensures -TWO_31 <= x < TWO_31 ==> r == x
  {
    var m := x % TWO_32;
    if m < TWO_31 then m else m - TWO_32
  }

  /** Two integers congruent modulo 2^32 truncate to the same `int`. */
  lemma WrapCongruent(x: int, y: int)
    requires (x - y) % TWO_32 == 0
    ensures Wrap(x) == Wrap(y)
  {
    var q := (x - y) / TWO_32;
    assert x == y + q * TWO_32;
    ModShift(y, q);
  }

  /** Adding a multiple of 2^32 does not change the remainder modulo 2^32. */
  lemma ModShift(y: int, q: int)
    ensures (y + q * TWO_32) % TWO_32 == y % TWO_32
  {
    assert y + q * TWO_32 == y % TWO_32 + (y / TWO_32 + q) * TWO_32;
  }

  /**
   * Truncating an intermediate result does not change the truncated outcome of
   * `k * _ + b`: Java's step-by-step wrap-around agrees with wrapping once at
   * the end.
   */
  lemma WrapMulAdd(k: int, a: int, b: int)
    ensures Wrap(k * Wrap(a) + b) == Wrap(k * a + b)
  {
    var q := (Wrap(a) - a) / TWO_32;
    assert (k * Wrap(a) + b) - (k * a + b) == (k * q) * TWO_32;
    WrapCongruent(k * Wrap(a) + b, k * a + b);
  }

  /** `31` raised to the power `n`. */
  function Pow31(n: nat): int
  {
    if n == 0 then 1 else 31 * Pow31(n - 1)
  }

  /**
   * The documented value of `String.hashCode` before truncation:
   * `s[0]*31^(n-1) + s[1]*31^(n-2) + ... + s[n-1]`.
   */
  function Sum(s: string): int
  {
    if s == [] then 0 else s[0] as int * Pow31(|s| - 1) + Sum(s[1..])
  }

  /** Appending a character to the string multiplies the sum by 31 and adds the character: the step of Java's loop. */
  lemma {:induction false} SumSnoc(s: string, c: char)
    ensures Sum(s + [c]) == 31 * Sum(s) + c as int
  {
    if s == [] {
      assert Sum([c]) == c as int * Pow31(0) + Sum([]);
    } else {
      var t := s + [c];
      assert t[1..] == s[1..] + [c];
      SumSnoc(s[1..], c);
      calc {
        Sum(t);
        s[0] as int * Pow31(|s|) + Sum(s[1..] + [c]);
        s[0] as int * (31 * Pow31(|s| - 1)) + 31 * Sum(s[1..]) + c as int;
        { assert s[0] as int * (31 * Pow31(|s| - 1)) == 31 * (s[0] as int * Pow31(|s| - 1)); }
        31 * Sum(s) + c as int;
      }
    }
  }

  /**
   * Java's `String.hashCode`, computed as its loop does: `h = 31 * h + c` in
   * `int` arithmetic. The result is the documented sum truncated to `int`.
   */
  function StringHash(s: string): (h: Int32)
    ensures h == Wrap(Sum(s))
  {
    if s == [] then 0
    else
      var init, last := s[..|s| - 1], s[|s| - 1];
      assert s == init + [last];
      SumSnoc(init, last);
      WrapMulAdd(31, Sum(init), last as int);
      Wrap(31 * StringHash(init) + last as int)
  }

  /**
   * Java's `Character.isWhitespace`, with the Unicode tables of Java 5 to 8:
   * the ASCII controls tab to carriage return and U+001C to U+001F, and the
   * space, line and paragraph separators other than the non-breaking ones.
   */
  predicate IsWhitespace(c: char)
    ensures c < '\U{0080}' ==> (IsWhitespace(c) <==> c == ' ' || '\t' <= c <= '\r' || '\U{001C}' <= c <= '\U{001F}')
    ensures c == '\U{00A0}' || c == '\U{2007}' || c == '\U{202F}' ==> !IsWhitespace(c)
  {
    || c == ' ' || c == '\t' || c == '\n' || c == '\U{000B}' || c == '\U{000C}' || c == '\r'
    || ('\U{001C}' <= c <= '\U{001F}')
    || c == '\U{1680}' || c == '\U{180E}'
    || ('\U{2000}' <= c <= '\U{2006}') || ('\U{2008}' <= c <= '\U{200A}')
    || c == '\U{2028}' || c == '\U{2029}' || c == '\U{205F}' || c == '\U{3000}'
  }

  /**
   * `StringUtils.isNotBlank`: the string is not null and has a character that
   * is not whitespace.
   */
  function IsNotBlank(s: Option<string>): (b: bool)
    ensures b ==> s.Some? && s.value != []
    ensures s.Some? && (forall i :: 0 <= i < |s.value| ==> IsWhitespace(s.value[i])) ==> !b
    ensures s.Some? && (exists i :: 0 <= i < |s.value| && !IsWhitespace(s.value[i])) ==> b
  {
    s.Some? && exists i :: 0 <= i < |s.value| && !IsWhitespace(s.value[i])
  }
}
