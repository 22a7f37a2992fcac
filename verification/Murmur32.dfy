/** MurmurHash2, its byte-by-byte form and its aligned-read form (src/murmur2.cc). */
module Murmur32 {
  import opened Basics
  import opened Words

  const W32: nat := 0x1_0000_0000
  const M32: nat := 0x5bd1e995

  function Times(x: nat): (r: nat)
    ensures r < W32
  {
    (x * M32) % W32
  }

  /** A left shift of a 32-bit word. */
  function Shl32(x: nat, n: nat): (r: nat)
    ensures r < W32
  {
    Shl(x, n) % W32
  }

  function Mix(h: nat, k: nat): nat {
    var w := Times(k);
    Xor(Times(h), Times(Xor(w, Shr(w, 24))))
  }

  function Final(h: nat): nat {
    var g := Times(Xor(h, Shr(h, 13)));
    Xor(g, Shr(g, 15))
  }

  function Tail(h: nat, b: Bytes): nat { if b == [] then h else Times(XorDown(h, b)) }

  function Body(h: nat, b: Bytes): nat
    decreases |b|
  {
    if |b| >= 4 then Body(Mix(h, LE(b[..4])), b[4..]) else Final(Tail(h, b))
  }

  function Seeded(n: nat, seed: nat): nat { Xor(seed, n % W32) }

  /** The reference: words read in little-endian order. */
  function Hash2(key: Bytes, seed: nat): nat { Body(Seeded(|key|, seed), key) }

  lemma BodyStep(h: nat, key: Bytes, p: nat)
    requires p + 4 <= |key|
    ensures Body(h, key[p..]) == Body(Mix(h, LE(key[p..p + 4])), key[p + 4..])
  {
    assert key[p..][..4] == key[p..p + 4] && key[p..][4..] == key[p + 4..];
  }

  lemma BodyEnd(h: nat, b: Bytes)
    requires |b| < 4
    ensures Body(h, b) == Final(Tail(h, b))
  {
  }

  // ---------------------------------------------------------------- shared pieces of code

  method MixIn(h: nat, k: nat) returns (r: nat)
    ensures r == Mix(h, k)
  {
    var w := Times(k);
    w := Xor(w, Shr(w, 24));
    w := Times(w);
    r := Times(h);
    r := Xor(r, w);
  }

  lemma XorDownUpTo3(h: nat, b: Bytes)
    requires |b| <= 3
    ensures |b| == 1 ==> XorDown(h, b) == Xor(h, b[0])
    ensures |b| == 2 ==> XorDown(h, b) == Xor(Xor(h, Shl(b[1], 8)), b[0])
    ensures |b| == 3 ==> XorDown(h, b) == Xor(Xor(Xor(h, Shl(b[2], 16)), Shl(b[1], 8)), b[0])
    decreases |b|
  {
    if |b| > 1 { XorDownUpTo3(Xor(h, Shl(b[|b| - 1], 8 * (|b| - 1))), b[..|b| - 1]); }
  }

  /** The switch over the last bytes, falling through from case to case, and the final mixes. */
  method Finish(h: nat, t: Bytes) returns (r: nat)
    requires |t| < 4
    ensures r == Final(Tail(h, t))
  {
    XorDownUpTo3(h, t);
    r := h;
    if |t| >= 3 { r := Xor(r, Shl(t[2], 16)); }
    if |t| >= 2 { r := Xor(r, Shl(t[1], 8)); }
    if |t| >= 1 {
      r := Xor(r, t[0]);
      r := Times(r);
    }
    r := FinalMixes(r);
  }

  method FinalMixes(h: nat) returns (r: nat)
    ensures r == Final(h)
  {
    r := Xor(h, Shr(h, 13));
    r := Times(r);
    r := Xor(r, Shr(r, 15));
  }

  // ---------------------------------------------------------------- the plain form

  method MurmurHash2(key: Bytes, seed: nat) returns (h: nat)
    ensures h == Hash2(key, seed)
  {
    h := Seeded(|key|, seed);
    h := MixAll(h, key, 0);
  }

  /** The plain loop from byte `from` on. */
  method MixAll(h0: nat, key: Bytes, from: nat) returns (h: nat)
    requires from <= |key|
    ensures h == Body(h0, key[from..])
  {
    h := h0;
    ghost var hash := Body(h0, key[from..]);
    var p, len := from, |key| - from;
    while len >= 4
      invariant from <= p && len >= 0 && p + len == |key|
      invariant Body(h, key[p..]) == hash
    {
      BodyStep(h, key, p);
      h := MixIn(h, LE(key[p..p + 4]));
      p, len := p + 4, len - 4;
    }
    BodyEnd(h, key[p..]);
    h := Finish(h, key[p..]);
  }

  // ---------------------------------------------------------------- the byte-by-byte form

  lemma OrByte(front: Bytes, b: Byte)
    ensures Or(LE(front), Shl(b, 8 * |front|)) == LE(front + [b])
  {
    LEBound(front);
    Disjoint(LE(front), b, 8 * |front|);
    LEJoin(front, [b]);
    assert LE([b]) == b;
  }

  lemma OrWord(b: Bytes)
    requires |b| == 4
    ensures Or(Or(Or(b[0], Shl(b[1], 8)), Shl(b[2], 16)), Shl(b[3], 24)) == LE(b)
  {
    assert LE([b[0]]) == b[0];
    OrByte([b[0]], b[1]);
    OrByte([b[0]] + [b[1]], b[2]);
    OrByte([b[0]] + [b[1]] + [b[2]], b[3]);
    assert b == [b[0]] + [b[1]] + [b[2]] + [b[3]];
  }

  method MurmurHashNeutral2(key: Bytes, seed: nat) returns (h: nat)
    ensures h == Hash2(key, seed)
  {
    h := Seeded(|key|, seed);
    var p, len := 0, |key|;
    assert key[0..] == key;
    while len >= 4
      invariant 0 <= p && len >= 0 && p + len == |key|
      invariant Body(h, key[p..]) == Hash2(key, seed)
    {
      var k: nat := key[p];
      k := Or(k, Shl(key[p + 1], 8));
      k := Or(k, Shl(key[p + 2], 16));
      k := Or(k, Shl(key[p + 3], 24));
      OrWord(key[p..p + 4]);
      BodyStep(h, key, p);
      h := MixIn(h, k);
      p, len := p + 4, len - 4;
    }
    BodyEnd(h, key[p..]);
    h := Finish(h, key[p..]);
  }

  // ---------------------------------------------------------------- the aligned form

  lemma {:induction false} OrCommutes(a: nat, b: nat)
    ensures Or(a, b) == Or(b, a)
    decreases a + b
  {
    if a != 0 || b != 0 { OrCommutes(a / 2, b / 2); }
  }

  /** The switch that gathers up to three bytes, from the last to the first. */
  method Gather(b: Bytes) returns (t: nat)
    requires 1 <= |b| <= 3
    ensures t == LE(b)
  {
    GatherIs(b);
    t := 0;
    if |b| >= 3 { t := Or(t, Shl(b[2], 16)); }
    if |b| >= 2 { t := Or(t, Shl(b[1], 8)); }
    t := Or(t, b[0]);
  }

  lemma GatherIs(b: Bytes)
    requires 1 <= |b| <= 3
    ensures var high := if |b| == 1 then 0
                        else if |b| == 2 then Or(0, Shl(b[1], 8))
                        else Or(Or(0, Shl(b[2], 16)), Shl(b[1], 8));
            LE(b) == Or(high, b[0])
  {
    OrUnder(b[0], if |b| == 1 then 0 else LE(b[1..]));
    if |b| >= 2 { GatherTwo(b); }
    if |b| == 1 {
      OrZero(b[0]);
      assert LE(b) == b[0];
    }
  }

  /** A byte below higher bytes. */
  lemma OrUnder(b: Byte, hi: nat)
    ensures Or(Shl(hi, 8), b) == b + 256 * hi
  {
    assert Two(8) == 256;
    Disjoint(b, hi, 8);
    OrCommutes(b, Shl(hi, 8));
    ShlIs(hi, 8);
  }

  lemma GatherTwo(b: Bytes)
    requires 2 <= |b| <= 3
    ensures Shl(LE(b[1..]), 8) == if |b| == 2 then Or(0, Shl(b[1], 8)) else Or(Or(0, Shl(b[2], 16)), Shl(b[1], 8))
  {
    if |b| == 2 {
      OrZero(Shl(b[1], 8));
      assert LE(b[1..]) == b[1];
    } else {
      OrZero(Shl(b[2], 16));
      assert b[1..][1..] == [b[2]] && LE([b[2]]) == b[2];
      HighTwo(b[1], b[2]);
    }
  }

  lemma HighTwo(b1: nat, b2: nat)
    requires b1 < 256
    ensures Shl(b1 + 256 * b2, 8) == Or(Shl(b2, 16), Shl(b1, 8))
  {
    assert Two(8) == 256;
    ShlIs(b2, 8);
    ShlAdd(b1, Shl(b2, 8), 8);
    ShlShl(b2, 8, 8);
    ShlBound(b1, 8, 8);
    Disjoint(Shl(b1, 8), b2, 16);
    OrCommutes(Shl(b1, 8), Shl(b2, 16));
  }

  lemma TwoThirtyTwo()
    ensures Two(32) == W32
  {
    var eight := 8;
    assert Two(eight) == 256;
    TwoAdd(eight, eight);
    var sixteen := eight + eight;
    TwoAdd(sixteen, sixteen);
  }

  /** Shifting bytes up by a whole number of bytes keeps those that fit. */
  lemma ShiftBytes(b: Bytes, n: nat)
    requires 8 * |b| + n <= 32
    ensures Shl32(LE(b), n) == Shl(LE(b), n) < W32
  {
    LEBound(b);
    TwoThirtyTwo();
    ShlBound(LE(b), 8 * |b|, n);
    TwoGrows(8 * |b| + n, 32);
  }

  lemma DropsWords(u: nat, hi: nat)
    requires u < W32
    ensures (u + hi * W32) % W32 == u
  {
  }

  lemma ShiftSplit(lo: nat, hi: nat, m: nat, n: nat)
    requires m + n == 32
    ensures Shl(lo + Shl(hi, m), n) == Shl(lo, n) + hi * W32
  {
    ShlAdd(lo, Shl(hi, m), n);
    ShlShl(hi, m, n);
    ShlWord(hi, m + n);
  }

  lemma Truncated(x: nat, n: nat, u: nat, hi: nat)
    requires Shl(x, n) == u + hi * W32 && u < W32
    ensures Shl32(x, n) == u
  {
    DropsWords(u, hi);
  }

  lemma ShlWord(x: nat, n: nat)
    requires n == 32
    ensures Shl(x, n) == x * W32
  {
    ShlIs(x, n);
    TwoThirtyTwo();
  }

  /** Shifting a word up drops its high bytes. */
  lemma ShiftWord(x: Bytes, y: Bytes, n: nat)
    requires 8 * |x| + n == 32
    ensures Shl32(LE(x + y), n) == Shl(LE(x), n)
  {
    LEJoin(x, y);
    ShiftBytes(x, n);
    ShiftSplit(LE(x), LE(y), 8 * |x|, n);
    Truncated(LE(x + y), n, Shl(LE(x), n), LE(y));
  }

  /** Shifting a word down drops its low bytes. */
  lemma Pending(x: Bytes, y: Bytes)
    ensures Shr(LE(x + y), 8 * |x|) == LE(y)
  {
    LEJoin(x, y);
    LEBound(x);
    ShrSum(LE(x), LE(y), 8 * |x|);
  }

  lemma Preload(b: Bytes, n: nat)
    requires 8 * |b| + n <= 32
    ensures Shr(Shl32(LE(b), n), n) == LE(b)
  {
    ShiftBytes(b, n);
    ShrSum(0, LE(b), n);
  }

  /** The bytes pending, with more bytes above them, form the word read across the two. */
  lemma Joined(lo: Bytes, hi: Bytes, d: nat)
    requires d == Shl(LE(hi), 8 * |lo|)
    ensures Or(LE(lo), d) == LE(lo + hi)
  {
    LEBound(lo);
    Disjoint(LE(lo), LE(hi), 8 * |lo|);
    LEJoin(lo, hi);
  }

  /** One aligned read at `p` completes the word at `q` and leaves the start of the next. */
  lemma Across(key: Bytes, t: nat, q: nat, p: nat, a: nat)
    requires 1 <= a <= 3 && p == q + 4 - a && p + 4 <= |key| && Shr(t, 8 * a) == LE(key[q..p])
    ensures Or(Shr(t, 8 * a), Shl32(LE(key[p..p + 4]), 8 * (4 - a))) == LE(key[q..q + 4])
    ensures Shr(LE(key[p..p + 4]), 8 * a) == LE(key[q + 4..p + 4])
  {
    var lo, x, y := key[q..p], key[p..q + 4], key[q + 4..p + 4];
    assert key[p..p + 4] == x + y && key[q..q + 4] == lo + x;
    ShiftWord(x, y, 8 * (4 - a));
    Joined(lo, x, Shl32(LE(x + y), 8 * (4 - a)));
    Pending(x, y);
  }

  /** The main loop at alignment `a`: `q` bytes have been mixed, `t` holds the next `4 - a` bytes, and reads
      are made at multiples of four. */
  method MixAligned(h0: nat, key: Bytes, t0: nat, a: nat) returns (h: nat, t: nat, q: nat)
    requires 1 <= a <= 3 && |key| >= 4 && Shr(t0, 8 * a) == LE(key[..4 - a])
    ensures q + 4 - a <= |key| < q + 8 - a
    ensures Shr(t, 8 * a) == LE(key[q..q + 4 - a])
    ensures Body(h, key[q..]) == Body(h0, key)
  {
    h, t, q := h0, t0, 0;
    ghost var hash := Body(h0, key);
    var p, len := 4 - a, |key| - (4 - a);
    assert key[0..] == key;
    while len >= 4
      invariant len >= 0 && p + len == |key| && p == q + 4 - a
      invariant Shr(t, 8 * a) == LE(key[q..p])
      invariant Body(h, key[q..]) == hash
    {
      var d := LE(key[p..p + 4]);
      Across(key, t, q, p, a);
      BodyStep(h, key, q);
      h := MixIn(h, Or(Shr(t, 8 * a), Shl32(d, 8 * (4 - a))));
      t := d;
      p, len, q := p + 4, len - 4, q + 4;
    }
  }

  /** What is left in the temporaries after the aligned loop. */
  method FinishAligned(h0: nat, t: nat, rest: Bytes, a: nat) returns (h: nat)
    requires 1 <= a <= 3 && 4 - a <= |rest| < 8 - a && Shr(t, 8 * a) == LE(rest[..4 - a])
    ensures h == Body(h0, rest)
  {
    var len := |rest| - (4 - a);
    var lo := rest[..4 - a];
    if len >= a {
      var b := rest[4 - a..4];
      var d := Gather(b);
      ShiftBytes(b, 8 * (4 - a));
      Joined(lo, b, Shl32(d, 8 * (4 - a)));
      assert lo + b == rest[..4];
      h := MixIn(h0, Or(Shr(t, 8 * a), Shl32(d, 8 * (4 - a))));
      BodyEnd(h, rest[4..]);
      h := Finish(h, rest[4..]);
    } else {
      var b := rest[4 - a..];
      var d := 0;
      if len > 0 { d := Gather(b); }
      ShiftBytes(b, 8 * (4 - a));
      Joined(lo, b, Shl32(d, 8 * (4 - a)));
      assert lo + b == rest;
      XorDownIs(h0, rest);
      BodyEnd(h0, rest);
      h := Xor(h0, Or(Shr(t, 8 * a), Shl32(d, 8 * (4 - a))));
      h := Times(h);
      h := FinalMixes(h);
    }
  }

  /** `align` is the key's address modulo 4. Whatever it is, the hash is the plain one. */
  method MurmurHashAligned2(key: Bytes, align: nat, seed: nat) returns (h: nat)
    requires align < 4
    ensures h == Hash2(key, seed)
  {
    h := Seeded(|key|, seed);
    if align != 0 && |key| >= 4 {
      var t := Gather(key[..4 - align]);
      Preload(key[..4 - align], 8 * align);
      t := Shl32(t, 8 * align);
      var q;
      h, t, q := MixAligned(h, key, t, align);
      assert key[q..][..4 - align] == key[q..q + 4 - align];
      h := FinishAligned(h, t, key[q..], align);
    } else {
      assert key[0..] == key;
      h := MixAll(h, key, 0);
    }
  }
}
