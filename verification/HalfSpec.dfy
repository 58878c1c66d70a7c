/** What half-precision results should be: values of bit patterns and rounding to the nearest of them,
    ties to even (IEEE 754-2008, section 4.3.1).  Values are counted in units of 2^-24, the smallest
    positive half. */
module HalfSpec {

  const INF: nat := 0x7C00

  /** `q` times 2^e. */
  function Scale(q: nat, e: nat): nat {
    if e == 0 then q else 2 * Scale(q, e - 1)
  }

  lemma {:induction false} ScaleDouble(q: nat, e: nat)
    ensures Scale(2 * q, e) == 2 * Scale(q, e)
  {
    if e > 0 { ScaleDouble(q, e - 1); }
  }

  lemma {:induction false} ScaleGrows(q: nat, e: nat)
    ensures Scale(q, e) < Scale(q + 1, e)
  {
    if e > 0 { ScaleGrows(q, e - 1); }
  }

  lemma {:induction false} ScaleAdd(q: nat, a: nat, b: nat)
    ensures Scale(Scale(q, a), b) == Scale(q, a + b)
  {
    if b > 0 { ScaleAdd(q, a, b - 1); }
  }

  lemma PowersOfTwo()
    ensures Scale(1, 10) == 0x400 && Scale(1, 11) == 0x800 && Scale(1, 12) == 0x1000
    ensures Scale(1, 20) == 0x10_0000 && Scale(1, 21) == 0x20_0000
  {
    ScaleAdd(1, 10, 10);
    assert Scale(0x400, 10) == 0x10_0000;
  }

  /** `x` times 2^k, for `k` of either sign. */
  function Ldexp(x: real, k: int): real
    decreases if k < 0 then -k else k
  {
    if k == 0 then x else if k > 0 then 2.0 * Ldexp(x, k - 1) else Ldexp(x, k + 1) / 2.0
  }

  lemma {:induction false} ScaleReal(q: nat, e: nat)
    ensures Scale(q, e) as real == Ldexp(q as real, e)
  {
    if e > 0 { ScaleReal(q, e - 1); }
  }

  lemma LdexpNext(x: real, k: int)
    ensures Ldexp(x, k + 1) == 2.0 * Ldexp(x, k)
  {
  }

  lemma {:induction false} LdexpAdd(x: real, a: int, b: int)
    ensures Ldexp(Ldexp(x, a), b) == Ldexp(x, a + b)
    decreases if b < 0 then -b else b
  {
    if b > 0 {
      LdexpAdd(x, a, b - 1);
      LdexpNext(x, a + b - 1);
    } else if b < 0 {
      LdexpAdd(x, a, b + 1);
      LdexpNext(x, a + b);
    }
  }

  lemma {:induction false} LdexpLinear(x: real, y: real, k: int)
    ensures Ldexp(x + y, k) == Ldexp(x, k) + Ldexp(y, k)
    decreases if k < 0 then -k else k
  {
    if k > 0 { LdexpLinear(x, y, k - 1); } else if k < 0 { LdexpLinear(x, y, k + 1); }
  }

  lemma {:induction false} LdexpOrder(x: real, y: real, k: int)
    ensures x < y <==> Ldexp(x, k) < Ldexp(y, k)
    ensures x == y <==> Ldexp(x, k) == Ldexp(y, k)
    decreases if k < 0 then -k else k
  {
    if k > 0 { LdexpOrder(x, y, k - 1); } else if k < 0 { LdexpOrder(x, y, k + 1); }
  }

  lemma {:induction false} LdexpTimes(a: real, b: real, j: int, ab: real)
    requires ab == a * b
    ensures a * Ldexp(b, j) == Ldexp(ab, j)
    decreases if j < 0 then -j else j
  {
    if j > 0 {
      LdexpTimes(a, b, j - 1, ab);
      Twice(a, Ldexp(b, j - 1));
    } else if j < 0 {
      LdexpTimes(a, b, j + 1, ab);
      Twice(a, Ldexp(b, j));
    }
  }

  lemma Twice(a: real, b: real)
    ensures a * (2.0 * b) == 2.0 * (a * b)
  {
  }

  lemma LdexpProduct(a: real, i: int, b: real, j: int, ab: real)
    requires ab == a * b
    ensures Ldexp(a, i) * Ldexp(b, j) == Ldexp(ab, i + j)
  {
    hide Ldexp;
    Commutes(a, b);
    LdexpTimes(b, a, i, ab);
    Commutes(b, Ldexp(a, i));
    LdexpTimes(Ldexp(a, i), b, j, Ldexp(ab, i));
    LdexpAdd(ab, i, j);
  }

  lemma Commutes(a: real, b: real)
    ensures a * b == b * a
  {
  }

  lemma {:induction false} LdexpMore(x: real, j: int, k: int)
    requires x >= 0.0 && j <= k
    ensures 0.0 <= Ldexp(x, j) <= Ldexp(x, k)
    decreases k - j
  {
    if j < k {
      LdexpMore(x, j, k - 1);
      LdexpNext(x, k - 1);
    } else {
      LdexpZero(j);
      LdexpOrder(0.0, x, j);
    }
  }

  lemma {:induction false} LdexpZero(k: int)
    ensures Ldexp(0.0, k) == 0.0
    decreases if k < 0 then -k else k
  {
    if k > 0 { LdexpZero(k - 1); } else if k < 0 { LdexpZero(k + 1); }
  }

  /** The value of a finite pattern without its sign; the pattern of infinity counts as the next power of two,
      where the overflow threshold of section 4.3.1 puts it. */
  function Value(h: nat): nat
    requires h <= INF
  {
    if h < 1024 then h else Scale(1024 + h % 1024, h / 1024 - 1)
  }

  ghost function Dist(y: real, h: nat): real
    requires h <= INF
  {
    if y < Value(h) as real then Value(h) as real - y else y - Value(h) as real
  }

  ghost predicate Beats(y: real, h: nat, g: nat)
    requires h <= INF && g <= INF
  {
    Dist(y, h) < Dist(y, g) || (Dist(y, h) == Dist(y, g) && h % 2 == 0)
  }

  /** `h` is the correctly rounded result for the exact magnitude `y`. */
  ghost predicate IsNearest(y: real, h: nat) {
    h <= INF && forall g :: 0 <= g <= INF && g != h ==> Beats(y, h, g)
  }

  lemma ValueFields(h: nat, e: nat, q: nat)
    requires h == e * 1024 + q && 1024 <= q < 2048 && h <= INF
    ensures Value(h) == Scale(q, e)
  {
    assert h / 1024 == e + 1;
    assert 1024 + h % 1024 == q;
  }

  /** A mantissa of eleven bits, or a subnormal one, at exponent `e`. */
  lemma ValueAt(e: nat, q: nat)
    requires 1024 <= q <= 2048 || (e == 0 && q <= 2048)
    requires e * 1024 + q <= INF
    ensures Value(e * 1024 + q) == Scale(q, e)
  {
    if q == 2048 {
      ScaleDouble(1024, e);
      ValueFields((e + 1) * 1024 + 1024, e + 1, 1024);
    } else if q >= 1024 {
      ValueFields(e * 1024 + q, e, q);
    }
  }

  lemma ValueStep(h: nat)
    requires h < INF
    ensures Value(h) < Value(h + 1)
  {
    if h >= 1024 {
      var e, q := h / 1024 - 1, 1024 + h % 1024;
      ValueAt(e, q);
      ValueAt(e, q + 1);
      ScaleGrows(q, e);
    } else {
      ValueAt(0, h + 1);
    }
  }

  lemma {:induction false} ValueGrows(g: nat, h: nat)
    requires g < h <= INF
    ensures Value(g) < Value(h)
    decreases h
  {
    ValueStep(h - 1);
    if g < h - 1 { ValueGrows(g, h - 1); }
  }

  /** Rounding looks only at the two neighbours of the exact value. */
  lemma NearestOfTwo(y: real, h: nat, r: nat)
    requires h < INF && Value(h) as real <= y < Value(h + 1) as real
    requires 2.0 * y < (Value(h) + Value(h + 1)) as real ==> r == h
    requires 2.0 * y > (Value(h) + Value(h + 1)) as real ==> r == h + 1
    requires 2.0 * y == (Value(h) + Value(h + 1)) as real ==> r == h + h % 2
    ensures IsNearest(y, r)
  {
    forall g | 0 <= g <= INF && g != r ensures Beats(y, r, g) {
      if g < h { ValueGrows(g, h); }
      if h + 1 < g { ValueGrows(h + 1, g); }
    }
  }

  /** There is never a choice. */
  lemma NearestUnique(y: real, g: nat, h: nat)
    requires IsNearest(y, g) && IsNearest(y, h)
    ensures g == h
  {
    if g < h {
      NotBoth(y, g, h);
    } else if h < g {
      NotBoth(y, h, g);
    }
  }

  lemma NotBoth(y: real, g: nat, h: nat)
    requires g < h <= INF && Beats(y, h, g)
    ensures !Beats(y, g, h) || (g + 1 < h && !Beats(y, g, g + 1))
  {
    ValueGrows(g, g + 1);
    if g + 1 < h { ValueGrows(g + 1, h); }
  }

  lemma Exact(h: nat)
    requires h < INF
    ensures IsNearest(Value(h) as real, h)
  {
    ValueStep(h);
    NearestOfTwo(Value(h) as real, h, h);
  }

  lemma Overflows(y: real)
    requires y >= Value(INF) as real
    ensures IsNearest(y, INF)
  {
    forall g | 0 <= g <= INF && g != INF ensures Beats(y, INF, g) { ValueGrows(g, INF); }
  }

  lemma Underflows(y: real)
    requires 0.0 <= 2.0 * y < 1.0
    ensures IsNearest(y, 0)
  {
    NearestOfTwo(y, 0, 0);
  }
}
