/** What the probe loop of the table computes (src/table.h, `iterate_buckets`): each probe is the sum, modulo the
number of buckets, of the digits so far of the key's hashes, written in base the number of buckets. */
module ProbeSum {
  import opened Basics
  import opened Probing

  /** Whole digits in one hash. */
  function PerHash(c: Config): (r: nat)
    requires 1 <= c.lg2size <= HASH_BITS
    ensures r >= 1
  {
    HASH_BITS / c.lg2size
  }

  /** `h` without its lowest `p` digits in base `s`. */
  function Without(h: nat, s: nat, p: nat): nat
    requires s >= 1
  {
    if p == 0 then h else Quotient(Without(h, s, p - 1), s)
  }

  function Digit(h: nat, s: nat, p: nat): nat
    requires s >= 1
  {
    Without(h, s, p) % s
  }

  /** Digit number `m` of the hashes of `key` with seeds 0, 1, 2 and so on, one after the other. A hash too short
      for one digit is passed over, and the next one taken whole. */
  function DigitAt(c: Config, key: Key, m: nat): nat {
    if c.lg2size == 0 then 0
    else if c.lg2size > HASH_BITS then Digit(c.hash(key, m + 1), Size(c), 0)
    else Digit(c.hash(key, m / PerHash(c)), Size(c), m % PerHash(c))
  }

  function Sum(c: Config, key: Key, j: nat): nat {
    DigitAt(c, key, j) + if j == 0 then 0 else Sum(c, key, j - 1)
  }

  lemma WholeDigits(c: Config)
    requires 1 <= c.lg2size <= HASH_BITS
    ensures PerHash(c) * c.lg2size <= HASH_BITS < PerHash(c) * c.lg2size + c.lg2size
  {
    var n := c.lg2size;
    assert HASH_BITS == n * PerHash(c) + HASH_BITS % n;
  }

  lemma {:induction false} AddMultiple(x: nat, s: nat, q: nat)
    requires s >= 1
    ensures (x + s * q) % s == x % s
    decreases q
  {
    if q > 0 {
      AddMultiple(x, s, q - 1);
      DropOne(x + s * (q - 1), s);
      assert x + s * q == x + s * (q - 1) + s;
    }
  }

  lemma DropOne(x: nat, s: nat)
    requires s >= 1
    ensures (x + s) % s == x % s
  {
    Unique(x + s, s, x / s + 1, x % s);
  }

  lemma OnlyZero(s: nat, d: int)
    requires s * d + s > 0 && s * d < s
    ensures d == 0
  {
  }

  lemma Unique(x: nat, s: nat, q: nat, r: nat)
    requires s >= 1 && r < s && x == s * q + r
    ensures x % s == r && x / s == q
  {
    var d := x / s - q;
    assert x == s * (x / s) + x % s;
    assert s * d == s * (x / s) - s * q;
    OnlyZero(s, d);
  }

  /** Parts may be reduced before they are added. */
  lemma AddParts(a: nat, b: nat, s: nat)
    requires s >= 1
    ensures (a % s + b) % s == (a + b % s) % s
  {
    AddMultiple(a % s + b, s, a / s);
    AddMultiple(a + b % s, s, b / s);
    assert a % s + b + s * (a / s) == a + b;
    assert a + b % s + s * (b / s) == a + b;
  }

  lemma NextPlace(j: nat, k: nat)
    requires k >= 1
    ensures j % k + 1 < k ==> (j + 1) / k == j / k && (j + 1) % k == j % k + 1
    ensures j % k + 1 == k ==> (j + 1) / k == j / k + 1 && (j + 1) % k == 0
  {
    assert j == k * (j / k) + j % k;
    if j % k + 1 < k {
      Unique(j + 1, k, j / k, j % k + 1);
    } else {
      assert k * (j / k + 1) == k * (j / k) + k;
      Unique(j + 1, k, j / k + 1, 0);
    }
  }

  /** Where the loop stands at probe `j`. */
  ghost predicate At(c: Config, key: Key, j: nat)
    requires 1 <= c.lg2size <= HASH_BITS
  {
    var k, cur := PerHash(c), CursorAt(c, key, j);
    && cur.seed == j / k + 1 && cur.bits == HASH_BITS - (j % k) * c.lg2size
    && cur.h == Without(c.hash(key, j / k), Size(c), j % k)
    && cur.i == Sum(c, key, j) % Size(c)
  }

  lemma PartsSum(a: nat, h: nat, s: nat, d: nat)
    requires s >= 1 && h % s == d
    ensures (a % s + h) % s == (a + d) % s && d % s == d
  {
    AddParts(a, h, s);
    Unique(d, s, 0, d);
  }

  /** The new bucket, once the right hash is in the cursor. */
  lemma SumNext(c: Config, key: Key, j: nat, i: nat, h: nat, s: nat)
    requires s == Size(c) && h % s == DigitAt(c, key, j) && i == if j == 0 then 0 else Sum(c, key, j - 1) % s
    ensures (i + h) % s == Sum(c, key, j) % s
  {
    PartsSum(if j == 0 then 0 else Sum(c, key, j - 1), h, s, DigitAt(c, key, j));
  }

  lemma Enough(p: nat, k: nat, n: nat)
    requires n >= 1 && k * n <= HASH_BITS < k * n + n && p <= k
    ensures p < k ==> HASH_BITS - p * n >= n
    ensures p == k ==> HASH_BITS - p * n < n
  {
    if p < k { assert (p + 1) * n <= k * n; }
  }

  lemma LoopStarts(c: Config, key: Key)
    requires 1 <= c.lg2size <= HASH_BITS
    ensures At(c, key, 0)
  {
    WholeDigits(c);
    Unique(0, PerHash(c), 0, 0);
    SumNext(c, key, 0, 0, c.hash(key, 0), Size(c));
  }

  /** What the bits left say: the next digit of the hash in use, or the first of the next hash. */
  lemma BitsLeft(c: Config, key: Key, j: nat)
    requires 1 <= c.lg2size <= HASH_BITS && At(c, key, j)
    ensures var k, left := PerHash(c), Shift(c, CursorAt(c, key, j));
            && left.bits == HASH_BITS - (j % k + 1) * c.lg2size
            && left.h == Without(c.hash(key, j / k), Size(c), j % k + 1)
            && (left.bits < c.lg2size <==> j % k + 1 == k)
  {
    WholeDigits(c);
    Enough(j % PerHash(c) + 1, PerHash(c), c.lg2size);
    assert (j % PerHash(c) + 1) * c.lg2size == (j % PerHash(c)) * c.lg2size + c.lg2size;
  }

  lemma NextCursor(c: Config, key: Key, j: nat)
    requires 1 <= c.lg2size <= HASH_BITS && At(c, key, j)
    ensures var k, next := PerHash(c), CursorAt(c, key, j + 1);
            && next.seed == (j + 1) / k + 1 && next.bits == HASH_BITS - ((j + 1) % k) * c.lg2size
            && next.h == Without(c.hash(key, (j + 1) / k), Size(c), (j + 1) % k)
            && next.i == (CursorAt(c, key, j).i + next.h) % Size(c)
  {
    WholeDigits(c);
    BitsLeft(c, key, j);
    NextPlace(j, PerHash(c));
  }

  lemma LoopGoesOn(c: Config, key: Key, j: nat)
    requires 1 <= c.lg2size <= HASH_BITS && At(c, key, j)
    ensures At(c, key, j + 1)
  {
    NextCursor(c, key, j);
    SumNext(c, key, j + 1, CursorAt(c, key, j).i, CursorAt(c, key, j + 1).h, Size(c));
  }

  lemma {:induction false} LoopStands(c: Config, key: Key, j: nat)
    requires 1 <= c.lg2size <= HASH_BITS
    ensures At(c, key, j)
  {
    if j == 0 {
      LoopStarts(c, key);
    } else {
      LoopStands(c, key, j - 1);
      LoopGoesOn(c, key, j - 1);
    }
  }

  lemma {:induction false} LargeStands(c: Config, key: Key, j: nat)
    requires c.lg2size > HASH_BITS
    ensures var cur := CursorAt(c, key, j);
            cur.seed == j + 2 && cur.bits == HASH_BITS && cur.i == Sum(c, key, j) % Size(c)
  {
    if j == 0 {
      SumNext(c, key, 0, 0, c.hash(key, 1), Size(c));
    } else {
      LargeStands(c, key, j - 1);
      SumNext(c, key, j, CursorAt(c, key, j - 1).i, c.hash(key, j + 1), Size(c));
    }
  }

  /** Probe `j` of a key, for tables of every size. */
  lemma ProbeIsSum(c: Config, key: Key, j: nat)
    ensures Probe(c, key, j) == Sum(c, key, j) % Size(c)
  {
    if c.lg2size == 0 {
      assert Size(c) == 1;
    } else if c.lg2size > HASH_BITS {
      LargeStands(c, key, j);
    } else {
      LoopStands(c, key, j);
    }
  }
}
