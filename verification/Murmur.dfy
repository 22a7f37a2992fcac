/** The hash functions of src/murmur2.cc over little-endian reads. */
module Murmur {
  import opened Basics
  import opened Words

  // ---------------------------------------------------------------- MurmurHash64A

  const W64: nat := 0x1_0000_0000_0000_0000
  const M64: nat := 0xc6a4a7935bd1e995

  function Times(x: nat): (r: nat)
    ensures r < W64
  {
    (x * M64) % W64
  }

  function Fold47(x: nat): nat { Xor(x, Shr(x, 47)) }

  function Mix(h: nat, k: nat): (r: nat)
    ensures r < W64
  {
    Times(Xor(h, Times(Fold47(Times(k)))))
  }

  function Final(h: nat): nat { Fold47(Times(Fold47(h))) }

  function Tail(h: nat, b: Bytes): nat { if b == [] then h else Times(XorDown(h, b)) }

  function Body(h: nat, b: Bytes): nat
    decreases |b|
  {
    if |b| >= 8 then Body(Mix(h, LE(b[..8])), b[8..]) else Final(Tail(h, b))
  }

  function Seeded(n: nat, seed: nat): nat { Xor(seed, Times(n)) }

  function Hash64A(key: Bytes, seed: nat): nat { Body(Seeded(|key|, seed), key) }

  lemma TwoSixtyFour()
    ensures Two(64) == W64
  {
    var eight := 8;
    assert Two(eight) == 256;
    TwoAdd(eight, eight);
    var sixteen := eight + eight;
    TwoAdd(sixteen, sixteen);
    var half := sixteen + sixteen;
    assert Two(half) == 0x1_0000_0000;
    TwoAdd(half, half);
  }

  lemma Fits(x: nat)
    requires x < W64
    ensures x < Two(2 * 47)
  {
    TwoSixtyFour();
    TwoAdd(64, 30);
    assert Two(64) * Two(30) >= Two(64) * 1;
  }

  lemma Multiples(x: nat, k: int)
    requires x < W64
    ensures (x + W64 * k) % W64 == x
  {
  }

  /** The product of the multiplier and its inverse is one more than a multiple of 2^64. */
  lemma Cancels(x: int, a: int, q: int)
    requires x * 0xc6a4a7935bd1e995 == a + q * 0x1_0000_0000_0000_0000
    ensures a * 0x5f7a0ea7e59b19bd ==
            x + 0x1_0000_0000_0000_0000 * (x * 0x4a15d006d409ab6f - q * 0x5f7a0ea7e59b19bd)
  {
  }

  /** The multiplier is odd, so multiplying by it modulo 2^64 can be undone. */
  lemma TimesUndone(x: nat)
    requires x < W64
    ensures (Times(x) * 0x5f7a0ea7e59b19bd) % W64 == x
  {
    var q := x * M64 / W64;
    Cancels(x, Times(x), q);
    Multiples(x, x * 0x4a15d006d409ab6f - q * 0x5f7a0ea7e59b19bd);
  }

  lemma TimesInjective(x: nat, y: nat)
    requires x < W64 && y < W64 && Times(x) == Times(y)
    ensures x == y
  {
    TimesUndone(x);
    TimesUndone(y);
  }

  lemma FoldBound(x: nat)
    requires x < W64
    ensures Fold47(x) < W64
  {
    TwoSixtyFour();
    ShrBound(x, 47);
    XorBound(x, Shr(x, 47), 64);
  }

  lemma FoldInjective(x: nat, y: nat)
    requires x < W64 && y < W64 && Fold47(x) == Fold47(y)
    ensures x == y
  {
    Fits(x);
    Fits(y);
    XorShiftInjective(x, y, 47);
  }

  lemma MixInjective(h: nat, k: nat, l: nat)
    requires h < W64 && k < W64 && l < W64 && Mix(h, k) == Mix(h, l)
    ensures k == l
  {
    var a, b := Fold47(Times(k)), Fold47(Times(l));
    XorBoundW(h, Times(a));
    XorBoundW(h, Times(b));
    TimesInjective(Xor(h, Times(a)), Xor(h, Times(b)));
    XorCancelLeft(h, Times(a), Times(b));
    FoldBound(Times(k));
    FoldBound(Times(l));
    TimesInjective(a, b);
    FoldInjective(Times(k), Times(l));
    TimesInjective(k, l);
  }

  lemma MixKeepsApart(g: nat, h: nat, k: nat)
    requires g < W64 && h < W64 && Mix(g, k) == Mix(h, k)
    ensures g == h
  {
    var a := Times(Fold47(Times(k)));
    XorBoundW(g, a);
    XorBoundW(h, a);
    TimesInjective(Xor(g, a), Xor(h, a));
    XorCancel(g, h, a);
  }

  lemma XorBoundW(a: nat, b: nat)
    requires a < W64 && b < W64
    ensures Xor(a, b) < W64
  {
    TwoSixtyFour();
    XorBound(a, b, 64);
  }

  lemma FinalInjective(g: nat, h: nat)
    requires g < W64 && h < W64 && Final(g) == Final(h)
    ensures g == h
  {
    FoldBound(g);
    FoldBound(h);
    FoldInjective(Times(Fold47(g)), Times(Fold47(h)));
    TimesInjective(Fold47(g), Fold47(h));
    FoldInjective(g, h);
  }

  lemma WordBound(b: Bytes)
    requires |b| <= 8
    ensures LE(b) < W64
  {
    LEBound(b);
    TwoSixtyFour();
    TwoAdd(8 * |b|, 64 - 8 * |b|);
    assert Two(8 * |b|) * Two(64 - 8 * |b|) >= Two(8 * |b|) * 1;
  }

  lemma TailBound(h: nat, b: Bytes)
    requires h < W64 && |b| <= 8
    ensures Tail(h, b) < W64 && XorDown(h, b) < W64
  {
    XorDownIs(h, b);
    WordBound(b);
    XorBoundW(h, LE(b));
  }

  lemma TailInjective(h: nat, a: Bytes, b: Bytes)
    requires h < W64 && |a| == |b| <= 8 && Tail(h, a) == Tail(h, b)
    ensures a == b
  {
    if a != [] {
      TailBound(h, a);
      TailBound(h, b);
      TimesInjective(XorDown(h, a), XorDown(h, b));
      XorDownIs(h, a);
      XorDownIs(h, b);
      XorCancelLeft(h, LE(a), LE(b));
      LEInjective(a, b);
    }
  }

  lemma TailKeepsApart(g: nat, h: nat, b: Bytes)
    requires g < W64 && h < W64 && |b| <= 8 && Tail(g, b) == Tail(h, b)
    ensures g == h
  {
    if b != [] {
      TailBound(g, b);
      TailBound(h, b);
      TimesInjective(XorDown(g, b), XorDown(h, b));
      XorDownIs(g, b);
      XorDownIs(h, b);
      XorCancel(g, h, LE(b));
    }
  }

  /** Different states never meet again over the same bytes. */
  lemma {:induction false} BodyKeepsApart(g: nat, h: nat, b: Bytes)
    requires g < W64 && h < W64 && Body(g, b) == Body(h, b)
    ensures g == h
    decreases |b|
  {
    if |b| >= 8 {
      BodyKeepsApart(Mix(g, LE(b[..8])), Mix(h, LE(b[..8])), b[8..]);
      MixKeepsApart(g, h, LE(b[..8]));
    } else {
      TailBound(g, b);
      TailBound(h, b);
      FinalInjective(Tail(g, b), Tail(h, b));
      TailKeepsApart(g, h, b);
    }
  }

  /** `a` and `b` differ at most in block `i`: bytes `8 i` to `8 i + 7`, or the tail if fewer remain. */
  ghost predicate OneBlockApart(a: Bytes, b: Bytes, i: nat) {
    |a| == |b| && forall k | 0 <= k < |a| && k / 8 != i :: a[k] == b[k]
  }

  lemma FirstBlock(a: Bytes, b: Bytes, i: nat)
    requires OneBlockApart(a, b, i) && |a| >= 8
    ensures i == 0 ==> a[8..] == b[8..]
    ensures i > 0 ==> a[..8] == b[..8] && OneBlockApart(a[8..], b[8..], i - 1)
  {
    if i > 0 {
      forall k | 0 <= k < |a[8..]| && k / 8 != i - 1 ensures a[8..][k] == b[8..][k] {
        assert (k + 8) / 8 != i;
        assert a[8..][k] == a[k + 8] && b[8..][k] == b[k + 8];
      }
    } else {
      forall k | 0 <= k < |a[8..]| ensures a[8..][k] == b[8..][k] {
        assert (k + 8) / 8 != 0;
        assert a[8..][k] == a[k + 8] && b[8..][k] == b[k + 8];
      }
    }
  }

  lemma {:induction false} BodyInjective(h: nat, a: Bytes, b: Bytes, i: nat)
    requires h < W64 && OneBlockApart(a, b, i) && Body(h, a) == Body(h, b)
    ensures a == b
    decreases |a|
  {
    if |a| < 8 {
      TailBound(h, a);
      TailBound(h, b);
      FinalInjective(Tail(h, a), Tail(h, b));
      TailInjective(h, a, b);
    } else {
      FirstBlock(a, b, i);
      assert a == a[..8] + a[8..] && b == b[..8] + b[8..];
      if i == 0 {
        BodyKeepsApart(Mix(h, LE(a[..8])), Mix(h, LE(b[..8])), a[8..]);
        WordBound(a[..8]);
        WordBound(b[..8]);
        MixInjective(h, LE(a[..8]), LE(b[..8]));
        LEInjective(a[..8], b[..8]);
      } else {
        BodyInjective(Mix(h, LE(a[..8])), a[8..], b[8..], i - 1);
      }
    }
  }

  /** For a fixed seed and length, two keys that differ in one 8-byte block only, or in the tail only,
      hash differently. */
  lemma NoCollisionInOneBlock(a: Bytes, b: Bytes, i: nat, seed: nat)
    requires seed < W64 && OneBlockApart(a, b, i)
    ensures Hash64A(a, seed) == Hash64A(b, seed) <==> a == b
  {
    XorBoundW(seed, Times(|a|));
    if Hash64A(a, seed) == Hash64A(b, seed) { BodyInjective(Seeded(|a|, seed), a, b, i); }
  }

  method MixBlock(h: nat, k: nat) returns (r: nat)
    ensures r == Mix(h, k)
  {
    var w := Times(k);
    w := Xor(w, Shr(w, 47));
    w := Times(w);
    r := Xor(h, w);
    r := Times(r);
  }

  /** The fall-through switch over the bytes left, from the last to the first. */
  method XorBytes(h: nat, t: Bytes) returns (r: nat)
    ensures r == XorDown(h, t)
  {
    r := h;
    var n := |t|;
    assert t[..n] == t;
    while n > 0
      invariant 0 <= n <= |t|
      invariant XorDown(r, t[..n]) == XorDown(h, t)
    {
      assert t[..n][..n - 1] == t[..n - 1];
      r := Xor(r, Shl(t[n - 1], 8 * (n - 1)));
      n := n - 1;
    }
  }

  lemma BodyStep(h: nat, key: Bytes, p: nat)
    requires p + 8 <= |key|
    ensures Body(h, key[p..]) == Body(Mix(h, LE(key[p..p + 8])), key[p + 8..])
  {
    assert key[p..][..8] == key[p..p + 8] && key[p..][8..] == key[p + 8..];
  }

  lemma BodyEnd(h: nat, b: Bytes)
    requires |b| < 8
    ensures Body(h, b) == Final(Tail(h, b))
  {
  }

  method Finish(h: nat, t: Bytes) returns (r: nat)
    ensures r == Final(Tail(h, t))
  {
    r := h;
    if t != [] {
      r := XorBytes(h, t);
      r := Times(r);
    }
    r := Xor(r, Shr(r, 47));
    r := Times(r);
    r := Xor(r, Shr(r, 47));
  }

  /** The loop of MurmurHash64A. */
  method MurmurHash64A(key: Bytes, seed: nat) returns (h: nat)
    ensures h == Hash64A(key, seed)
  {
    h := Seeded(|key|, seed);
    var p, j, blocks := 0, 0, |key| / 8;
    assert key[0..] == key;
    while j != blocks
      invariant 0 <= j <= blocks && p == 8 * j
      invariant Body(h, key[p..]) == Hash64A(key, seed)
      decreases blocks - j
    {
      BodyStep(h, key, p);
      h := MixBlock(h, LE(key[p..p + 8]));
      p, j := p + 8, j + 1;
    }
    BodyEnd(h, key[p..]);
    h := Finish(h, key[p..]);
  }
}
