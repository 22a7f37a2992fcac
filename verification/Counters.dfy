/** Counters kept as decimal text in a rope (src/entry.cc): parsing across buffers, printing, and the
arithmetic of incr and decr on 64-bit values. */
module Counters {
  import opened Basics

  const W64: nat := 0x1_0000_0000_0000_0000

  type U64 = x: nat | x < W64

  datatype Result<T> = Ok(value: T) | NotANumber

  predicate IsSpace(b: Byte) { b == 32 || b == 9 || b == 13 || b == 10 }

  predicate IsDigit(b: Byte) { 48 <= b <= 57 }

  // ---------------------------------------------------------------- parsing flat bytes

  function SkipSpace(b: Bytes): (r: Bytes)
    ensures |r| <= |b|
  {
    if b != [] && IsSpace(b[0]) then SkipSpace(b[1..]) else b
  }

  function Shift(a: U64, d: Byte): U64
    requires IsDigit(d)
  {
    (a * 10 + d - 48) % W64
  }

  function ParseDigits(b: Bytes, a: U64): Result<U64>
    decreases |b|
  {
    if b == [] then Ok(a)
    else if IsDigit(b[0]) then ParseDigits(b[1..], Shift(a, b[0]))
    else if SkipSpace(b) == [] then Ok(a)
    else NotANumber
  }

  function Parse(b: Bytes): Result<U64> { ParseDigits(SkipSpace(b), 0) }

  // ---------------------------------------------------------------- parsing a rope

  /** What lies from byte `i` of buffer `c` on. */
  function Rest(chunks: seq<Bytes>, c: nat, i: nat): Bytes
    requires c < |chunks| && i <= |chunks[c]|
  {
    chunks[c][i..] + Flat(chunks[c + 1..])
  }

  lemma RestStep(chunks: seq<Bytes>, c: nat, i: nat)
    requires c < |chunks| && i < |chunks[c]|
    ensures Rest(chunks, c, i) != [] && Rest(chunks, c, i)[0] == chunks[c][i]
    ensures Rest(chunks, c, i)[1..] == Rest(chunks, c, i + 1)
  {
    assert chunks[c][i..] == [chunks[c][i]] + chunks[c][i + 1..];
  }

  lemma RestNext(chunks: seq<Bytes>, c: nat)
    requires c < |chunks|
    ensures c + 1 < |chunks| ==> Rest(chunks, c, |chunks[c]|) == Rest(chunks, c + 1, 0)
    ensures c + 1 == |chunks| ==> Rest(chunks, c, |chunks[c]|) == []
  {
    if c + 1 < |chunks| {
      assert chunks[c + 1..][1..] == chunks[c + 2..];
      assert chunks[c + 1][0..] == chunks[c + 1];
    }
  }

  /** The place of the first byte that is not white space, or the end of the last buffer. */
  method ConsumeWhitespace(chunks: seq<Bytes>, c: nat, i: nat) returns (c': nat, i': nat)
    requires c < |chunks| && i <= |chunks[c]|
    ensures c' < |chunks| && i' <= |chunks[c']|
    ensures Rest(chunks, c', i') == SkipSpace(Rest(chunks, c, i))
    ensures Rest(chunks, c', i') == [] <==> c' == |chunks| - 1 && i' == |chunks[c']|
    decreases |chunks| - c
  {
    i' := i;
    while i' < |chunks[c]|
      invariant i <= i' <= |chunks[c]|
      invariant SkipSpace(Rest(chunks, c, i')) == SkipSpace(Rest(chunks, c, i))
    {
      RestStep(chunks, c, i');
      if !IsSpace(chunks[c][i']) { return c, i'; }
      i' := i' + 1;
    }
    RestNext(chunks, c);
    if c == |chunks| - 1 { return c, i'; }
    c', i' := ConsumeWhitespace(chunks, c + 1, 0);
  }

  method AtoiFrom(chunks: seq<Bytes>, c: nat, a0: U64, i0: nat) returns (r: Result<U64>)
    requires c < |chunks| && i0 <= |chunks[c]|
    ensures r == ParseDigits(Rest(chunks, c, i0), a0)
    decreases |chunks| - c
  {
    var a, i := a0, i0;
    while i < |chunks[c]|
      invariant i0 <= i <= |chunks[c]|
      invariant ParseDigits(Rest(chunks, c, i), a) == ParseDigits(Rest(chunks, c, i0), a0)
    {
      RestStep(chunks, c, i);
      if !IsDigit(chunks[c][i]) {
        var c', i' := ConsumeWhitespace(chunks, c, i);
        return if c' != |chunks| - 1 || i' != |chunks[c']| then NotANumber else Ok(a);
      }
      a := Shift(a, chunks[c][i]);
      i := i + 1;
    }
    RestNext(chunks, c);
    if c == |chunks| - 1 { return Ok(a); }
    r := AtoiFrom(chunks, c + 1, a, 0);
  }

  /** Parsing a rope is parsing its bytes, however they are cut into buffers. */
  method Atoi(chunks: seq<Bytes>) returns (r: Result<U64>)
    requires chunks != []
    ensures r == Parse(Flat(chunks))
  {
    assert Rest(chunks, 0, 0) == Flat(chunks) by { assert chunks[0][0..] == chunks[0]; }
    var c, i := ConsumeWhitespace(chunks, 0, 0);
    r := AtoiFrom(chunks, c, 0, i);
  }

  // ---------------------------------------------------------------- what is accepted

  predicate AllSpaces(b: Bytes) { forall i | 0 <= i < |b| :: IsSpace(b[i]) }

  predicate AllDigits(b: Bytes) { forall i | 0 <= i < |b| :: IsDigit(b[i]) }

  /** The number a string of digits denotes. */
  function Value(b: Bytes): nat
    requires AllDigits(b)
  {
    if b == [] then 0 else Value(b[..|b| - 1]) * 10 + (b[|b| - 1] - 48)
  }

  lemma {:induction false} SkipSpaceSplits(b: Bytes)
    ensures var r := SkipSpace(b);
            && r == b[|b| - |r|..] && AllSpaces(b[..|b| - |r|]) && (r != [] ==> !IsSpace(r[0]))
  {
    if b != [] && IsSpace(b[0]) {
      SkipSpaceSplits(b[1..]);
      var r := SkipSpace(b);
      assert b[1..][|b| - 1 - |r|..] == b[|b| - |r|..];
      assert b[..|b| - |r|] == [b[0]] + b[1..][..|b| - 1 - |r|];
    } else {
      assert b[0..] == b && b[..0] == [];
    }
  }

  lemma {:induction false} SkipSpaces(s: Bytes, b: Bytes)
    requires AllSpaces(s) && (b != [] ==> !IsSpace(b[0]))
    ensures SkipSpace(s + b) == b
  {
    if s == [] {
      assert s + b == b;
    } else {
      assert (s + b)[1..] == s[1..] + b && (s + b)[0] == s[0];
      SkipSpaces(s[1..], b);
    }
  }

  /** The accumulator, modulo 2^64, is the number read so far. */
  lemma ShiftValue(a: U64, n: nat, d: Byte)
    requires IsDigit(d) && a == n % W64
    ensures Shift(a, d) == (n * 10 + (d - 48)) % W64
  {
    var q := n / W64;
    assert n * 10 + (d - 48) == (a * 10 + d - 48) + W64 * (10 * q);
    ModDrop(a * 10 + d - 48, 10 * q);
  }

  lemma ModDrop(x: nat, k: nat)
    ensures (x + W64 * k) % W64 == x % W64
  {
  }

  /** After the digits `ds`, the digits `rest` are read next. */
  lemma {:induction false} ParseMore(ds: Bytes, rest: Bytes, tail: Bytes)
    requires AllDigits(ds) && AllDigits(rest) && AllSpaces(tail)
    ensures AllDigits(ds + rest) && ParseDigits(rest + tail, Value(ds) % W64) == Ok(Value(ds + rest) % W64)
    decreases |rest|
  {
    if rest == [] {
      assert rest + tail == tail && ds + rest == ds;
      if tail != [] { SkipSpaces(tail, []); assert tail + [] == tail; }
    } else {
      var ds' := ds + [rest[0]];
      assert (rest + tail)[1..] == rest[1..] + tail && ds' + rest[1..] == ds + rest;
      assert ds'[..|ds|] == ds;
      ShiftValue(Value(ds) % W64, Value(ds), rest[0]);
      ParseMore(ds', rest[1..], tail);
    }
  }

  lemma {:induction false} ParseRejects(b: Bytes, a: U64) returns (ds: Bytes, tail: Bytes)
    ensures ParseDigits(b, a).Ok? ==> b == ds + tail && AllDigits(ds) && AllSpaces(tail)
    decreases |b|
  {
    ds, tail := [], b;
    if b != [] && IsDigit(b[0]) {
      ds, tail := ParseRejects(b[1..], Shift(a, b[0]));
      ds := [b[0]] + ds;
      assert b == [b[0]] + b[1..];
    } else {
      SkipSpaceSplits(b);
      assert ds + tail == b;
      if b != [] && SkipSpace(b) == [] { assert b[..|b|] == b; }
    }
  }

  ghost predicate IsNumber(b: Bytes, before: Bytes, ds: Bytes, after: Bytes) {
    b == before + ds + after && AllSpaces(before) && AllDigits(ds) && AllSpaces(after)
  }

  /** White space, digits, white space: the value is the number the digits denote, modulo 2^64. */
  lemma ParseNumber(b: Bytes, before: Bytes, ds: Bytes, after: Bytes)
    requires IsNumber(b, before, ds, after)
    ensures Parse(b) == Ok(Value(ds) % W64)
  {
    assert [] + ds == ds;
    if ds == [] {
      SkipSpaces(before + after, []);
      assert b == (before + after) + [];
    } else {
      SkipSpaces(before, ds + after);
      assert b == before + (ds + after);
      ParseMore([], ds, after);
    }
  }

  /** Exactly such texts are accepted. */
  lemma ParsesExactly(b: Bytes)
    ensures Parse(b).Ok? <==> exists before, ds, after :: IsNumber(b, before, ds, after)
  {
    if Parse(b).Ok? {
      SkipSpaceSplits(b);
      var r := SkipSpace(b);
      var before := b[..|b| - |r|];
      var ds, after := ParseRejects(r, 0);
      assert b == before + r;
      assert IsNumber(b, before, ds, after);
    }
    if exists before, ds, after :: IsNumber(b, before, ds, after) {
      var before, ds, after :| IsNumber(b, before, ds, after);
      ParseNumber(b, before, ds, after);
    }
  }

  // ---------------------------------------------------------------- printing

  function Decimal(n: nat): Bytes {
    if n < 10 then [48 + n] else Decimal(n / 10) + [48 + n % 10]
  }

  function Ten(n: nat): nat { if n == 0 then 1 else 10 * Ten(n - 1) }

  lemma {:induction false} DecimalIs(n: nat)
    ensures Decimal(n) != [] && AllDigits(Decimal(n)) && Value(Decimal(n)) == n
  {
    if n < 10 {
      assert Decimal(n)[..0] == [];
    } else {
      DecimalIs(n / 10);
      assert Decimal(n)[..|Decimal(n)| - 1] == Decimal(n / 10);
    }
  }

  lemma {:induction false} DecimalLength(n: nat, k: nat)
    requires n < Ten(k) && k >= 1
    ensures |Decimal(n)| <= k
    decreases k
  {
    if n >= 10 {
      assert k > 1;
      DecimalLength(n / 10, k - 1);
    }
  }

  /** No leading zero: the text of a number is canonical. */
  lemma {:induction false} DecimalCanonical(n: nat)
    ensures Decimal(n) != [] && (n > 0 ==> Decimal(n)[0] != 48)
  {
    if n >= 10 { DecimalCanonical(n / 10); }
  }

  lemma TwentyDigits()
    ensures W64 <= Ten(20)
  {
    var five := 5;
    assert Ten(five) == 100000;
    TenAdd(five, five);
    TenAdd(five + five, five + five);
  }

  lemma {:induction false} TenAdd(m: nat, n: nat)
    ensures Ten(m + n) == Ten(m) * Ten(n)
    decreases m
  {
    if m > 0 { TenAdd(m - 1, n); }
  }

  lemma DecimalFits(n: U64)
    ensures |Decimal(n)| <= 20
  {
    var twenty := 20;
    TwentyDigits();
    DecimalLength(n, twenty);
  }

  lemma DecimalParses(n: U64)
    ensures Parse(Decimal(n)) == Ok(n)
  {
    var b := Decimal(n);
    DecimalIs(n);
    DigitsParse(b);
  }

  lemma DigitsParse(b: Bytes)
    requires AllDigits(b)
    ensures Parse(b) == Ok(Value(b) % W64)
  {
    assert b == [] + b + [];
    ParseNumber(b, [], b, []);
  }

  /** The text of a 64-bit value fits the buffer and reads back as that value. */
  lemma PrintParse(n: U64)
    ensures |Decimal(n)| <= 20 && Parse(Decimal(n)) == Ok(n)
  {
    DecimalFits(n);
    DecimalParses(n);
  }

  // ---------------------------------------------------------------- incr and decr

  datatype Op = Incr(v: U64) | Decr(v: U64)

  /** Addition wraps; subtraction saturates. */
  function Compute(op: Op, a: U64): (r: U64)
    ensures r < W64
    ensures op.Incr? ==> (a + op.v - r) % W64 == 0
    ensures op.Decr? ==> if op.v <= a then r + op.v == a else r == 0
  {
    match op
    case Incr(v) => (a + v) % W64
    case Decr(v) => if a > v then a - v else 0
  }

  const MAX_INCR_SIZE: nat := 32

  class Entry {
    var data: seq<Bytes>

    constructor (data: seq<Bytes>)
      requires data != []
      ensures this.data == data
    {
      this.data := data;
    }

    /** Replace the text by that of the new value; text that is no number is left alone. */
    method IncrDecr(op: Op) returns (r: Result<U64>)
      requires data != []
      modifies this
      ensures r == match Parse(Flat(old(data))) case Ok(a) => Ok(Compute(op, a)) case NotANumber => NotANumber
      ensures data == if r.Ok? then [Decimal(r.value)] else old(data)
    {
      var p := Atoi(data);
      if p.NotANumber? { return p; }
      var a := Compute(op, p.value);
      var b := Decimal(a);
      PrintParse(a);
      assert |b| < MAX_INCR_SIZE;
      data := [b];
      r := Ok(a);
    }

    /** A sequence of operations, stopping at the first that fails. */
    method Apply(ops: seq<Op>) returns (ok: bool)
      requires data != []
      modifies this
      ensures ok <==> ops == [] || Parse(Flat(old(data))).Ok?
      ensures !ok || ops == [] ==> data == old(data)
      ensures ok && ops != [] ==> data == [Decimal(FoldOps(Parse(Flat(old(data))).value, ops))]
    {
      var i := 0;
      ok := true;
      ghost var start := Parse(Flat(data));
      while i < |ops|
        invariant 0 <= i <= |ops| && data != []
        invariant i == 0 ==> data == old(data)
        invariant i > 0 ==> start.Ok? && data == [Decimal(FoldOps(start.value, ops[..i]))]
      {
        if i > 0 { PrintParse(FoldOps(start.value, ops[..i])); }
        assert i > 0 ==> Flat(data) == Decimal(FoldOps(start.value, ops[..i]));
        var r := IncrDecr(ops[i]);
        if r.NotANumber? { return false; }
        assert ops[..i + 1][..i] == ops[..i];
        i := i + 1;
      }
      assert ops[..i] == ops;
    }
  }

  /** What a counter holding `a` holds after `ops`. */
  function FoldOps(a: U64, ops: seq<Op>): U64 {
    if ops == [] then a else Compute(ops[|ops| - 1], FoldOps(a, ops[..|ops| - 1]))
  }

  predicate AllIncr(ops: seq<Op>) { forall i | 0 <= i < |ops| :: ops[i].Incr? }

  predicate AllDecr(ops: seq<Op>) { forall i | 0 <= i < |ops| :: ops[i].Decr? }

  function Total(ops: seq<Op>): nat { if ops == [] then 0 else Total(ops[..|ops| - 1]) + ops[|ops| - 1].v }

  /** Any number of increments add up modulo 2^64, whatever their order. */
  lemma {:induction false} IncrementsAddUp(a: U64, ops: seq<Op>)
    requires AllIncr(ops)
    ensures FoldOps(a, ops) == (a + Total(ops)) % W64
    decreases |ops|
  {
    if ops != [] {
      IncrementsAddUp(a, ops[..|ops| - 1]);
      AddMod(a + Total(ops[..|ops| - 1]), ops[|ops| - 1].v);
    }
  }

  lemma AddMod(x: nat, v: nat)
    ensures (x % W64 + v) % W64 == (x + v) % W64
  {
    assert x + v == x % W64 + v + W64 * (x / W64);
    AddMultiple(x % W64 + v, x / W64);
  }

  lemma {:induction false} AddMultiple(x: nat, q: nat)
    ensures (x + W64 * q) % W64 == x % W64
    decreases q
  {
    if q > 0 { AddMultiple(x, q - 1); }
  }

  /** Any number of decrements take their total off, and stop at 0. */
  lemma {:induction false} DecrementsSaturate(a: U64, ops: seq<Op>)
    requires AllDecr(ops)
    ensures FoldOps(a, ops) == if Total(ops) <= a then a - Total(ops) else 0
    decreases |ops|
  {
    if ops != [] { DecrementsSaturate(a, ops[..|ops| - 1]); }
  }
}
