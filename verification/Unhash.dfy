/** The hash functions of src/murmur2.cc undone: with their constants and shifts written out, the seed is got back
from any hash and its key, and a key of at most one block from its hash and the seed. */
module Unhash {
  import opened Basics
  import opened Words
  import A = Murmur
  import N = Murmur32

  // ---------------------------------------------------------------- xor-shifts undone

  lemma XorThere(a: nat, b: nat)
    ensures Xor(Xor(a, b), b) == a && Xor(b, Xor(b, a)) == a
  {
    XorAssociates(a, b, b);
    XorAssociates(b, b, a);
    XorSelf(b);
    XorZero(a);
    XorCommutes(0, a);
  }

  /** A shift of at least half the width is undone by the same xor-shift. */
  lemma UndoHalf(x: nat, n: nat)
    requires x < Two(2 * n)
    ensures var y := Xor(x, Shr(x, n)); Xor(y, Shr(y, n)) == x
  {
    HighBits(x, n);
    XorThere(x, Shr(x, n));
  }

  /** A shift of at least a third of the width takes two. */
  lemma UndoThird(x: nat, n: nat)
    requires x < Two(3 * n)
    ensures var y := Xor(x, Shr(x, n)); Xor(Xor(y, Shr(y, n)), Shr(y, 2 * n)) == x
  {
    var a, b := Shr(x, n), Shr(x, 2 * n);
    var y := Xor(x, a);
    ShrXor(x, a, n);
    ShrShr(x, n, n);
    ShrXor(x, a, 2 * n);
    ShrShr(x, n, 2 * n);
    ShrZero(x, 3 * n);
    XorZero(b);
    assert Shr(y, n) == Xor(a, b) && Shr(y, 2 * n) == b;
    XorAssociates(y, a, b);
    XorThere(x, a);
    XorThere(x, b);
    XorAssociates(Xor(y, a), b, b);
  }

  // ---------------------------------------------------------------- MurmurHash64A

  function Untimes64(x: nat): nat { (x * 0x5f7a0ea7e59b19bd) % 0x1_0000_0000_0000_0000 }

  function Unfold(y: nat): nat { Xor(y, Shr(y, 47)) }

  function Unfinal64(r: nat): nat { Unfold(Untimes64(Unfold(r))) }

  /** The block that takes state `h` to `r`. */
  function BlockOf64(h: nat, r: nat): nat { Untimes64(Unfold(Untimes64(Xor(h, Untimes64(r))))) }

  /** What a block adds to the state. */
  function Scrambled64(k: nat): nat {
    var w := (k * 0xc6a4a7935bd1e995) % 0x1_0000_0000_0000_0000;
    (Xor(w, Shr(w, 47)) * 0xc6a4a7935bd1e995) % 0x1_0000_0000_0000_0000
  }

  /** The state from which the bytes `b` lead to the hash `r`. */
  function Unwind64(b: Bytes, r: nat): nat
    decreases |b|
  {
    if b == [] then Unfinal64(r)
    else if |b| < 8 then Xor(Untimes64(Unfinal64(r)), LE(b))
    else Xor(Untimes64(Unwind64(b[8..], r)), Scrambled64(LE(b[..8])))
  }

  function Start64(n: nat, seed: nat): nat { Xor(seed, (n * 0xc6a4a7935bd1e995) % 0x1_0000_0000_0000_0000) }

  lemma FoldUndone(x: nat)
    requires x < A.W64
    ensures Unfold(A.Fold47(x)) == x && A.Fold47(x) < A.W64
  {
    A.Fits(x);
    A.FoldBound(x);
    UndoHalf(x, 47);
  }

  lemma Final64Undone(h: nat)
    requires h < A.W64
    ensures Unfinal64(A.Final(h)) == h
  {
    FoldUndone(h);
    A.TimesUndone(A.Fold47(h));
    FoldUndone(A.Times(A.Fold47(h)));
  }

  lemma Mix64Undone(h: nat, k: nat)
    requires h < A.W64 && k < A.W64
    ensures BlockOf64(h, A.Mix(h, k)) == k && Xor(Untimes64(A.Mix(h, k)), Scrambled64(k)) == h
  {
    var w := A.Times(k);
    var x := A.Times(A.Fold47(w));
    FoldUndone(w);
    A.TimesUndone(k);
    A.TimesUndone(A.Fold47(w));
    A.XorBoundW(h, x);
    A.TimesUndone(Xor(h, x));
    XorThere(h, x);
    XorThere(x, h);
  }

  lemma Tail64Undone(h: nat, b: Bytes)
    requires h < A.W64 && 0 < |b| < 8
    ensures Xor(Untimes64(A.Tail(h, b)), LE(b)) == h && Xor(h, Untimes64(A.Tail(h, b))) == LE(b)
    ensures A.Tail(h, b) < A.W64
  {
    A.TailBound(h, b);
    XorDownIs(h, b);
    A.TimesUndone(Xor(h, LE(b)));
    XorThere(h, LE(b));
    XorThere(LE(b), h);
  }

  lemma {:induction false} Body64Undone(h: nat, b: Bytes)
    requires h < A.W64
    ensures Unwind64(b, A.Body(h, b)) == h
    decreases |b|
  {
    if |b| >= 8 {
      A.WordBound(b[..8]);
      Body64Undone(A.Mix(h, LE(b[..8])), b[8..]);
      Mix64Undone(h, LE(b[..8]));
    } else if b == [] {
      Final64Undone(h);
    } else {
      Tail64Undone(h, b);
      Final64Undone(A.Tail(h, b));
    }
  }

  lemma Seeded64(n: nat, seed: nat)
    requires seed < A.W64
    ensures A.Seeded(n, seed) == Start64(n, seed) < A.W64 && Start64(n, Start64(n, seed)) == seed
  {
    A.XorBoundW(seed, A.Times(n));
    XorThere(seed, A.Times(n));
  }

  /** From a hash and its key, of any length, the seed. */
  lemma SeedFromHash64(key: Bytes, seed: nat)
    requires seed < A.W64
    ensures Start64(|key|, Unwind64(key, A.Hash64A(key, seed))) == seed
  {
    Seeded64(|key|, seed);
    Body64Undone(A.Seeded(|key|, seed), key);
  }

  /** From a hash and the seed, a key of at most one block. */
  lemma KeyFromHash64(key: Bytes, seed: nat)
    requires seed < A.W64 && 0 < |key| <= 8
    ensures var h, r := Start64(|key|, seed), Unfinal64(A.Hash64A(key, seed));
            LE(key) == if |key| == 8 then BlockOf64(h, r) else Xor(h, Untimes64(r))
  {
    var h := A.Seeded(|key|, seed);
    Seeded64(|key|, seed);
    if |key| == 8 {
      OneBlock64(h, key);
    } else {
      Tail64Undone(h, key);
      Final64Undone(A.Tail(h, key));
    }
  }

  lemma OneBlock64(h: nat, b: Bytes)
    requires h < A.W64 && |b| == 8
    ensures BlockOf64(h, Unfinal64(A.Body(h, b))) == LE(b)
  {
    assert b[..8] == b && b[8..] == [];
    A.WordBound(b);
    Mix64Undone(h, LE(b));
    assert A.Body(h, b) == A.Body(A.Mix(h, LE(b)), []);
    Final64Undone(A.Mix(h, LE(b)));
  }

  // ---------------------------------------------------------------- MurmurHash2

  function Untimes32(x: nat): nat { (x * 0xe59b19bd) % 0x1_0000_0000 }

  function Times32(x: nat): nat { (x * 0x5bd1e995) % 0x1_0000_0000 }

  function Unfinal32(r: nat): nat {
    var y := Untimes32(Xor(Xor(r, Shr(r, 15)), Shr(r, 30)));
    Xor(Xor(y, Shr(y, 13)), Shr(y, 26))
  }

  /** The word that takes state `h` to `r`. */
  function WordOf32(h: nat, r: nat): nat {
    var w := Untimes32(Xor(Times32(h), r));
    Untimes32(Xor(w, Shr(w, 24)))
  }

  /** What a word adds to the state. */
  function Scrambled32(k: nat): nat {
    var w := Times32(k);
    Times32(Xor(w, Shr(w, 24)))
  }

  /** The state from which the bytes `b` lead to the hash `r`. */
  function Unwind32(b: Bytes, r: nat): nat
    decreases |b|
  {
    if b == [] then Unfinal32(r)
    else if |b| < 4 then Xor(Untimes32(Unfinal32(r)), LE(b))
    else Untimes32(Xor(Unwind32(b[4..], r), Scrambled32(LE(b[..4]))))
  }

  function Start32(n: nat, seed: nat): nat { Xor(seed, n % 0x1_0000_0000) }

  /** The product of the multiplier and its inverse is one more than a multiple of 2^32. */
  lemma Cancels32(x: int, a: int, q: int)
    requires x * 0x5bd1e995 == a + q * 0x1_0000_0000
    ensures a * 0xe59b19bd == x + 0x1_0000_0000 * (x * 0x525a6746 - q * 0xe59b19bd)
  {
  }

  lemma Multiples32(x: nat, k: int)
    requires x < N.W32
    ensures (x + N.W32 * k) % N.W32 == x
  {
  }

  lemma Times32Undone(x: nat)
    requires x < N.W32
    ensures Untimes32(N.Times(x)) == x
  {
    var q := x * N.M32 / N.W32;
    Cancels32(x, N.Times(x), q);
    Multiples32(x, x * 0x525a6746 - q * 0xe59b19bd);
  }

  lemma XorBound32(a: nat, b: nat)
    requires a < N.W32 && b < N.W32
    ensures Xor(a, b) < N.W32
  {
    N.TwoThirtyTwo();
    XorBound(a, b, 32);
  }

  lemma ShiftBound32(x: nat, n: nat)
    requires x < N.W32
    ensures Xor(x, Shr(x, n)) < N.W32
  {
    ShrBound(x, n);
    XorBound32(x, Shr(x, n));
  }

  lemma Fits32(x: nat, n: nat)
    requires x < N.W32 && 32 <= n
    ensures x < Two(n)
  {
    N.TwoThirtyTwo();
    TwoGrows(32, n);
  }

  lemma Final32Undone(h: nat)
    requires h < N.W32
    ensures Unfinal32(N.Final(h)) == h
  {
    var y := Xor(h, Shr(h, 13));
    ShiftBound32(h, 13);
    Fits32(h, 39);
    UndoThird(h, 13);
    Times32Undone(y);
    Fits32(N.Times(y), 45);
    UndoThird(N.Times(y), 15);
  }

  lemma Mix32Undone(h: nat, k: nat)
    requires h < N.W32 && k < N.W32
    ensures N.Mix(h, k) < N.W32
    ensures WordOf32(h, N.Mix(h, k)) == k && Untimes32(Xor(N.Mix(h, k), Scrambled32(k))) == h
  {
    var w := N.Times(k);
    var x := N.Times(Xor(w, Shr(w, 24)));
    ShiftBound32(w, 24);
    Times32Undone(Xor(w, Shr(w, 24)));
    Fits32(w, 48);
    UndoHalf(w, 24);
    Times32Undone(k);
    XorBound32(N.Times(h), x);
    XorThere(N.Times(h), x);
    XorThere(x, N.Times(h));
    Times32Undone(h);
  }

  lemma WordBound32(b: Bytes)
    requires |b| <= 4
    ensures LE(b) < N.W32
  {
    LEBound(b);
    N.TwoThirtyTwo();
    TwoGrows(8 * |b|, 32);
  }

  lemma Tail32Undone(h: nat, b: Bytes)
    requires h < N.W32 && 0 < |b| < 4
    ensures Xor(Untimes32(N.Tail(h, b)), LE(b)) == h && Xor(h, Untimes32(N.Tail(h, b))) == LE(b)
    ensures N.Tail(h, b) < N.W32
  {
    WordBound32(b);
    XorBound32(h, LE(b));
    XorDownIs(h, b);
    Times32Undone(Xor(h, LE(b)));
    XorThere(h, LE(b));
    XorThere(LE(b), h);
  }

  lemma {:induction false} Body32Undone(h: nat, b: Bytes)
    requires h < N.W32
    ensures Unwind32(b, N.Body(h, b)) == h
    decreases |b|
  {
    if |b| >= 4 {
      WordBound32(b[..4]);
      Mix32Undone(h, LE(b[..4]));
      Body32Undone(N.Mix(h, LE(b[..4])), b[4..]);
    } else if b == [] {
      Final32Undone(h);
    } else {
      Tail32Undone(h, b);
      Final32Undone(N.Tail(h, b));
    }
  }

  lemma Seeded32(n: nat, seed: nat)
    requires seed < N.W32
    ensures N.Seeded(n, seed) == Start32(n, seed) < N.W32 && Start32(n, Start32(n, seed)) == seed
  {
    XorBound32(seed, n % N.W32);
    XorThere(seed, n % N.W32);
  }

  /** From a hash and its key, of any length, the seed. */
  lemma SeedFromHash32(key: Bytes, seed: nat)
    requires seed < N.W32
    ensures Start32(|key|, Unwind32(key, N.Hash2(key, seed))) == seed
  {
    Seeded32(|key|, seed);
    Body32Undone(N.Seeded(|key|, seed), key);
  }

  /** From a hash and the seed, a key of at most one word. */
  lemma KeyFromHash32(key: Bytes, seed: nat)
    requires seed < N.W32 && 0 < |key| <= 4
    ensures var h, r := Start32(|key|, seed), Unfinal32(N.Hash2(key, seed));
            LE(key) == if |key| == 4 then WordOf32(h, r) else Xor(h, Untimes32(r))
  {
    var h := N.Seeded(|key|, seed);
    Seeded32(|key|, seed);
    if |key| == 4 {
      OneWord32(h, key);
    } else {
      Tail32Undone(h, key);
      Final32Undone(N.Tail(h, key));
    }
  }

  lemma OneWord32(h: nat, b: Bytes)
    requires h < N.W32 && |b| == 4
    ensures WordOf32(h, Unfinal32(N.Body(h, b))) == LE(b)
  {
    assert b[..4] == b && b[4..] == [];
    WordBound32(b);
    Mix32Undone(h, LE(b));
    assert N.Body(h, b) == N.Body(N.Mix(h, LE(b)), []);
    Final32Undone(N.Mix(h, LE(b)));
  }
}
