/** Machine words as natural numbers: exclusive or, inclusive or, shifts, and little-endian reads. */
module Words {
  import opened Basics

  function Bit(p: bool): nat { if p then 1 else 0 }

  function Xor(a: nat, b: nat): nat
    decreases a + b
  {
    if a == 0 && b == 0 then 0 else Bit(a % 2 != b % 2) + 2 * Xor(a / 2, b / 2)
  }

  function Or(a: nat, b: nat): nat
    decreases a + b
  {
    if a == 0 && b == 0 then 0 else Bit(a % 2 == 1 || b % 2 == 1) + 2 * Or(a / 2, b / 2)
  }

  function Shr(a: nat, n: nat): nat
    decreases n
  {
    if n == 0 then a else Shr(a / 2, n - 1)
  }

  /** A left shift before truncation. */
  function Shl(a: nat, n: nat): nat
    decreases n
  {
    if n == 0 then a else 2 * Shl(a, n - 1)
  }

  // ---------------------------------------------------------------- laws

  lemma {:induction false} XorBound(a: nat, b: nat, n: nat)
    requires a < Two(n) && b < Two(n)
    ensures Xor(a, b) < Two(n)
    decreases n
  {
    if n > 0 { XorBound(a / 2, b / 2, n - 1); }
  }

  lemma {:induction false} XorCommutes(a: nat, b: nat)
    ensures Xor(a, b) == Xor(b, a)
    decreases a + b
  {
    if a != 0 || b != 0 { XorCommutes(a / 2, b / 2); }
  }

  lemma {:induction false} XorZero(a: nat)
    ensures Xor(a, 0) == a
  {
    if a != 0 { XorZero(a / 2); }
  }

  lemma XorStep(a: nat, b: nat)
    ensures Xor(a, b) == Bit(a % 2 != b % 2) + 2 * Xor(a / 2, b / 2)
    ensures Xor(a, b) / 2 == Xor(a / 2, b / 2) && Xor(a, b) % 2 == Bit(a % 2 != b % 2)
  {
  }

  lemma {:induction false} XorAssociates(a: nat, b: nat, c: nat)
    ensures Xor(Xor(a, b), c) == Xor(a, Xor(b, c))
    decreases a + b + c
  {
    if a != 0 || b != 0 || c != 0 {
      XorAssociates(a / 2, b / 2, c / 2);
      XorStep(a, b);
      XorStep(b, c);
      XorStep(Xor(a, b), c);
      XorStep(a, Xor(b, c));
    }
  }

  lemma {:induction false} XorSelf(a: nat)
    ensures Xor(a, a) == 0
  {
    if a != 0 { XorSelf(a / 2); }
  }

  lemma XorCancel(a: nat, b: nat, s: nat)
    requires Xor(a, s) == Xor(b, s)
    ensures a == b
  {
    XorAssociates(a, s, s);
    XorAssociates(b, s, s);
    XorSelf(s);
    XorZero(a);
    XorZero(b);
  }

  lemma XorCancelLeft(s: nat, a: nat, b: nat)
    requires Xor(s, a) == Xor(s, b)
    ensures a == b
  {
    XorCommutes(s, a);
    XorCommutes(s, b);
    XorCancel(a, b, s);
  }

  lemma {:induction false} ShrXor(a: nat, b: nat, n: nat)
    ensures Shr(Xor(a, b), n) == Xor(Shr(a, n), Shr(b, n))
    decreases n
  {
    if n > 0 {
      XorStep(a, b);
      ShrXor(a / 2, b / 2, n - 1);
    }
  }

  lemma {:induction false} ShrZero(a: nat, n: nat)
    requires a < Two(n)
    ensures Shr(a, n) == 0
    decreases n
  {
    if n > 0 { ShrZero(a / 2, n - 1); }
  }

  lemma {:induction false} ShrShr(a: nat, m: nat, n: nat)
    ensures Shr(Shr(a, m), n) == Shr(a, m + n)
    decreases m
  {
    if m > 0 { ShrShr(a / 2, m - 1, n); }
  }

  lemma {:induction false} ShrBound(a: nat, n: nat)
    ensures Shr(a, n) <= a
    decreases n
  {
    if n > 0 { ShrBound(a / 2, n - 1); }
  }

  lemma {:induction false} TwoAdd(m: nat, n: nat)
    ensures Two(m + n) == Two(m) * Two(n)
    decreases m
  {
    if m > 0 {
      TwoAdd(m - 1, n);
      assert m + n - 1 == (m - 1) + n;
    }
  }

  lemma {:induction false} ShlIs(a: nat, n: nat)
    ensures Shl(a, n) == a * Two(n)
    decreases n
  {
    if n > 0 { ShlIs(a, n - 1); }
  }

  lemma {:induction false} ShlBound(x: nat, m: nat, n: nat)
    requires x < Two(m)
    ensures Shl(x, n) < Two(m + n)
    decreases n
  {
    if n > 0 { ShlBound(x, m, n - 1); }
  }

  lemma {:induction false} TwoGrows(m: nat, n: nat)
    requires m <= n
    ensures Two(m) <= Two(n)
    decreases n
  {
    if m < n { TwoGrows(m, n - 1); }
  }

  lemma {:induction false} ShlAdd(x: nat, y: nat, n: nat)
    ensures Shl(x + y, n) == Shl(x, n) + Shl(y, n)
    decreases n
  {
    if n > 0 { ShlAdd(x, y, n - 1); }
  }

  lemma {:induction false} ShlShl(x: nat, m: nat, n: nat)
    ensures Shl(Shl(x, m), n) == Shl(x, m + n)
    decreases n
  {
    if n > 0 { ShlShl(x, m, n - 1); }
  }

  /** Shifting back down drops what was below. */
  lemma {:induction false} ShrSum(lo: nat, hi: nat, n: nat)
    requires lo < Two(n)
    ensures Shr(lo + Shl(hi, n), n) == hi
    decreases n
  {
    if n > 0 {
      ShrSum(lo / 2, hi, n - 1);
      assert (lo + Shl(hi, n)) / 2 == lo / 2 + Shl(hi, n - 1);
    }
  }

  /** Where no bit is set twice, both ors are sums. */
  lemma {:induction false} Disjoint(lo: nat, hi: nat, n: nat)
    requires lo < Two(n)
    ensures Xor(lo, Shl(hi, n)) == Or(lo, Shl(hi, n)) == lo + Shl(hi, n)
    decreases n
  {
    if n == 0 {
      XorZero(hi);
      XorCommutes(hi, 0);
      OrZero(hi);
    } else if lo + Shl(hi, n) > 0 {
      Disjoint(lo / 2, hi, n - 1);
      assert Shl(hi, n) / 2 == Shl(hi, n - 1) && Shl(hi, n) % 2 == 0;
    }
  }

  lemma {:induction false} OrZero(a: nat)
    ensures Or(0, a) == a
  {
    if a != 0 { OrZero(a / 2); }
  }

  /** An xor with one's own high half: no two words of at most twice the shift agree. */
  lemma XorShiftInjective(x: nat, y: nat, r: nat)
    requires x < Two(2 * r) && y < Two(2 * r) && Xor(x, Shr(x, r)) == Xor(y, Shr(y, r))
    ensures x == y
  {
    HighBits(x, r);
    HighBits(y, r);
    XorCancel(x, y, Shr(x, r));
  }

  lemma HighBits(x: nat, r: nat)
    requires x < Two(2 * r)
    ensures Shr(Xor(x, Shr(x, r)), r) == Shr(x, r)
  {
    ShrXor(x, Shr(x, r), r);
    ShrShr(x, r, r);
    ShrZero(x, r + r);
    XorZero(Shr(x, r));
  }

  // ---------------------------------------------------------------- little-endian reads

  function LE(b: Bytes): nat {
    if b == [] then 0 else b[0] + 256 * LE(b[1..])
  }

  lemma {:induction false} LEBound(b: Bytes)
    ensures LE(b) < Two(8 * |b|)
  {
    if b != [] {
      LEBound(b[1..]);
      TwoAdd(8, 8 * |b[1..]|);
      assert Two(8) == 256;
    }
  }

  lemma {:induction false} LEInjective(a: Bytes, b: Bytes)
    requires |a| == |b| && LE(a) == LE(b)
    ensures a == b
  {
    if a != [] {
      assert a[0] == LE(a) % 256 && b[0] == LE(b) % 256;
      LEInjective(a[1..], b[1..]);
      assert a == [a[0]] + a[1..] && b == [b[0]] + b[1..];
    }
  }

  lemma {:induction false} LEJoin(a: Bytes, b: Bytes)
    ensures LE(a + b) == LE(a) + Shl(LE(b), 8 * |a|)
  {
    if a == [] {
      assert a + b == b;
    } else {
      LEJoin(a[1..], b);
      assert (a + b)[1..] == a[1..] + b;
      var m := 8 * |a[1..]|;
      ShlShl(LE(b), m, 8);
      assert m + 8 == 8 * |a|;
      ShlByte(Shl(LE(b), m));
    }
  }

  lemma ShlByte(x: nat)
    ensures Shl(x, 8) == 256 * x
  {
    ShlIs(x, 8);
    assert Two(8) == 256;
  }

  /** `h ^= b[n-1] << 8(n-1)`, and so on down to `h ^= b[0]`. */
  function XorDown(h: nat, b: Bytes): nat
    decreases |b|
  {
    if b == [] then h else XorDown(Xor(h, Shl(b[|b| - 1], 8 * (|b| - 1))), b[..|b| - 1])
  }

  /** Mixing in the bytes one by one is mixing in the word they form. */
  lemma {:induction false} XorDownIs(h: nat, b: Bytes)
    ensures XorDown(h, b) == Xor(h, LE(b))
    decreases |b|
  {
    if b == [] {
      XorZero(h);
    } else {
      var front, top := b[..|b| - 1], Shl(b[|b| - 1], 8 * (|b| - 1));
      XorDownIs(Xor(h, top), front);
      XorAssociates(h, top, LE(front));
      LEBound(front);
      Disjoint(LE(front), b[|b| - 1], 8 * |front|);
      XorCommutes(LE(front), top);
      LEJoin(front, [b[|b| - 1]]);
      assert b == front + [b[|b| - 1]];
      assert LE([b[|b| - 1]]) == b[|b| - 1];
    }
  }
}
