/** The open hash table used by one thread (src/table.h): an object over an array of buckets that
refines the same map as the concurrent table does. */
module OpenTable {
  import opened Basics
  import opened Probing
  import opened TableMachine
  import opened TableAlone
  import Proofs = TableProofs

  /** Every key slot is known to the abstract table. */
  ghost predicate RepsExact(bs: seq<Bucket>, reps: map<Key, KeyRef>) {
    forall b | 0 <= b < |bs| && bs[b].k.Some? :: bs[b].k.value.text in reps && reps[bs[b].k.value.text] == bs[b].k.value
  }

  /** The buckets are placed, hold exactly the abstract table, and are counted. */
  ghost predicate Holds(c: Config, bs: seq<Bucket>, a: Abs, usage: int, values: int) {
    && AllPlaced(c, bs) && Proofs.Represents(bs, a) && RepsExact(bs, a.reps)
    && usage == Proofs.CountIf(Proofs.HasKey, bs) && values == Proofs.CountIf(Proofs.HasValue, bs)
  }

  lemma EmptyHolds(c: Config, bs: seq<Bucket>)
    requires |bs| == Size(c) && forall b | 0 <= b < |bs| :: bs[b] == Bucket(None, Null)
    ensures Holds(c, bs, EMPTY, 0, 0)
  {
    Proofs.EmptyCounts(bs);
  }

  lemma ClaimReps(c: Config, bs: seq<Bucket>, reps: map<Key, KeyRef>, kr: KeyRef, j: nat)
    requires AllPlaced(c, bs) && RepsExact(bs, reps) && j < Size(c) && Passed(c, bs, kr.text, j)
    requires bs[Probe(c, kr.text, j)].k.None?
    ensures var b := Probe(c, kr.text, j); RepsExact(bs[b := bs[b].(k := Some(kr))], reps[kr.text := kr])
  {
    var b := Probe(c, kr.text, j);
    var bs' := bs[b := bs[b].(k := Some(kr))];
    forall x | 0 <= x < |bs'| && bs'[x].k.Some? && x != b ensures bs'[x].k.value.text != kr.text {
      NullProvesAbsence(c, bs, kr.text, j, x);
    }
  }

  lemma ClaimPlaced(c: Config, bs: seq<Bucket>, kr: KeyRef, j: nat)
    requires AllPlaced(c, bs) && j < Size(c) && Passed(c, bs, kr.text, j)
    requires bs[Probe(c, kr.text, j)].k.None?
    ensures var b := Probe(c, kr.text, j); AllPlaced(c, bs[b := bs[b].(k := Some(kr))])
  {
    var b := Probe(c, kr.text, j);
    PlacementKept(c, bs, bs[b := bs[b].(k := Some(kr))], b, kr.text, j);
  }

  lemma ClaimRepresents(bs: seq<Bucket>, a: Abs, b: nat, kr: KeyRef)
    requires Proofs.Represents(bs, a) && b < |bs| && bs[b].k.None?
    ensures Proofs.Represents(bs[b := bs[b].(k := Some(kr))], Abs(a.m, a.reps[kr.text := kr]))
  {
    Proofs.Claimed(bs, a, b, kr);
    Proofs.Noted(bs[b := bs[b].(k := Some(kr))], a, b, kr.text);
  }

  lemma Counts(bs: seq<Bucket>, b: nat, x: Bucket)
    requires b < |bs|
    ensures Proofs.CountIf(Proofs.HasKey, bs[b := x]) ==
            Proofs.CountIf(Proofs.HasKey, bs) + (if x.k.Some? then 1 else 0) - (if bs[b].k.Some? then 1 else 0)
    ensures Proofs.CountIf(Proofs.HasValue, bs[b := x]) ==
            Proofs.CountIf(Proofs.HasValue, bs) + (if x.v.Ref? then 1 else 0) - (if bs[b].v.Ref? then 1 else 0)
  {
    Proofs.CountUpdate(Proofs.HasKey, bs, b, x);
    Proofs.CountUpdate(Proofs.HasValue, bs, b, x);
  }

  /** Claiming a free bucket behind other keys adds the key and no value. */
  lemma ClaimHolds(c: Config, bs: seq<Bucket>, a: Abs, usage: int, values: int, kr: KeyRef, j: nat)
    requires Holds(c, bs, a, usage, values) && j < Size(c) && Passed(c, bs, kr.text, j)
    requires bs[Probe(c, kr.text, j)].k.None?
    ensures var b := Probe(c, kr.text, j);
            Holds(c, bs[b := bs[b].(k := Some(kr))], Abs(a.m, a.reps[kr.text := kr]), usage + 1, values)
  {
    var b := Probe(c, kr.text, j);
    ClaimReps(c, bs, a.reps, kr, j);
    ClaimPlaced(c, bs, kr, j);
    ClaimRepresents(bs, a, b, kr);
    Counts(bs, b, bs[b].(k := Some(kr)));
  }

  lemma WritePlaced(c: Config, bs: seq<Bucket>, b: nat, v: ValueRef)
    requires AllPlaced(c, bs) && b < |bs| && bs[b].k.Some?
    ensures AllPlaced(c, PutValue(bs, b, v))
  {
    PlacementKept(c, bs, PutValue(bs, b, v), b, bs[b].k.value.text, 0);
  }

  lemma WriteReps(bs: seq<Bucket>, reps: map<Key, KeyRef>, b: nat, v: ValueRef)
    requires RepsExact(bs, reps) && b < |bs|
    ensures RepsExact(PutValue(bs, b, v), reps)
  {
  }

  /** Storing to the bucket of a key writes that key and no other. */
  lemma WriteHolds(c: Config, bs: seq<Bucket>, a: Abs, usage: int, values: int, b: nat, v: ValueRef)
    requires Holds(c, bs, a, usage, values) && b < |bs| && bs[b].k.Some?
    ensures var key := bs[b].k.value.text;
            Holds(c, PutValue(bs, b, v), Abs(Proofs.WrittenMap(a.m, key, v), a.reps), usage,
                  values + (if v.Ref? then 1 else 0) - (if bs[b].v.Ref? then 1 else 0))
  {
    var key := bs[b].k.value.text;
    Proofs.Written(c, bs, a, b, key, v, Abs(Proofs.WrittenMap(a.m, key, v), a.reps));
    WritePlaced(c, bs, b, v);
    WriteReps(bs, a.reps, b, v);
    Counts(bs, b, bs[b].(v := v));
  }

  lemma LookupHolds(c: Config, bs: seq<Bucket>, a: Abs, usage: int, values: int, b: nat)
    requires Holds(c, bs, a, usage, values) && b < |bs| && bs[b].k.Some?
    ensures var key := bs[b].k.value.text;
            (key in a.m <==> bs[b].v.Ref?) && (key in a.m ==> a.m[key] == bs[b].v.ptr)
  {
    Proofs.Lookup(c, bs, a, b, bs[b].k.value.text);
  }

  /** Taking ownership of a shared value changes nothing in the map. */
  lemma ClaimShared(c: Config, bs: seq<Bucket>, a: Abs, usage: int, values: int, b: nat)
    requires Holds(c, bs, a, usage, values) && b < |bs| && bs[b].k.Some? && bs[b].v.Ref?
    ensures Holds(c, PutValue(bs, b, Ref(bs[b].v.ptr, false)), a, usage, values)
  {
    var key, v := bs[b].k.value.text, Ref(bs[b].v.ptr, false);
    LookupHolds(c, bs, a, usage, values, b);
    SameWrite(a, key, v);
    WriteHolds(c, bs, a, usage, values, b, v);
  }

  lemma SameWrite(a: Abs, key: Key, v: ValueRef)
    requires key in a.m && v.Ref? && a.m[key] == v.ptr
    ensures Abs(Proofs.WrittenMap(a.m, key, v), a.reps) == a
  {
    assert a.m[key := v.ptr] == a.m;
  }

  lemma SetAllowed(a: Abs, mid: Abs, a': Abs, kr: KeyRef, v: nat, shared: bool, r: Res)
    requires mid.m == a.m && mid.reps == if kr.text in a.reps then a.reps else a.reps[kr.text := kr]
    requires mid.reps[kr.text].text == kr.text && a' == Abs(a.m[kr.text := v], mid.reps)
    requires r == Stored(mid.reps[kr.text])
    ensures Allowed(a, Op.Set(kr, v, shared), r) && a' == Apply(a, Op.Set(kr, v, shared), r)
  {
    assert mid.reps == a.reps[kr.text := mid.reps[kr.text]];
  }

  lemma AddAllowed(a: Abs, mid: Abs, a': Abs, kr: KeyRef, v: nat, shared: bool, r: Res)
    requires mid.m == a.m && mid.reps == if kr.text in a.reps then a.reps else a.reps[kr.text := kr]
    requires mid.reps[kr.text].text == kr.text && a'.reps == mid.reps
    requires r == if kr.text in a.m then Existing(mid.reps[kr.text], a.m[kr.text]) else Stored(mid.reps[kr.text])
    requires a'.m == if kr.text in a.m then a.m else a.m[kr.text := v]
    ensures Allowed(a, Op.Add(kr, v, shared), r) && a' == Apply(a, Op.Add(kr, v, shared), r)
  {
    assert mid.reps == a.reps[kr.text := mid.reps[kr.text]];
  }

  lemma FreeHolds(c: Config, bs: seq<Bucket>, a: Abs, usage: int, values: int)
    requires Holds(c, bs, a, usage, values)
    ensures FreeIsEmpty(bs)
  {
  }

  lemma SetMeans(c: Config, bs: seq<Bucket>, a: Abs, usage: int, values: int, op: Op)
    requires Holds(c, bs, a, usage, values)
    ensures FreeIsEmpty(bs)
    ensures var (bs', r) := Alone(c, bs, op);
            && (r.Stored? ==> OnlyBucket(bs, bs', op.Text(), Ref(op.v, op.shared)))
            && (r.Done? && op.Replace? ==> OnlyBucket(bs, bs', op.Text(), Ref(op.v, false)))
            && (r.Done? && op.Remove? ==> OnlyBucket(bs, bs', op.Text(), Null))
  {
    if op.Allocates() { AllocatingMeans(c, bs, op); } else { FindingMeans(c, bs, op); }
  }

  lemma Misses(c: Config, bs: seq<Bucket>, a: Abs, usage: int, values: int, key: Key, j: nat)
    requires Holds(c, bs, a, usage, values) && Passed(c, bs, key, j)
    requires j >= Size(c) || bs[Probe(c, key, j)].k.None?
    ensures key !in a.m && key !in a.reps
  {
    Proofs.Absent(c, bs, a, key, j);
  }

  class Table {
    const c: Config
    const table: array<Bucket>
    var usage: int
    var values: int
    var released: seq<nat>
    var releasedKeys: seq<KeyRef>
    ghost var contents: Abs

    ghost predicate Valid()
      reads this, table
    {
      Holds(c, table[..], contents, usage, values)
    }

    constructor (c: Config)
      ensures Valid() && contents == EMPTY && this.c == c && fresh(table) && released == [] && releasedKeys == []
      ensures forall b | 0 <= b < table.Length :: table[b] == Bucket(None, Null)
    {
      this.c := c;
      table := new Bucket[Size(c)](_ => Bucket(None, Null));
      usage, values, released, releasedKeys, contents := 0, 0, [], [], EMPTY;
      new;
      EmptyHolds(c, table[..]);
    }

    /** The probe loop: the first bucket on the probe sequence that is free or holds `key`. */
    method IterateBuckets(key: Key) returns (b: Option<nat>, j: nat)
      requires table.Length == Size(c)
      ensures Passed(c, table[..], key, j)
      ensures b.Some? ==> j < Size(c) && b.value == Probe(c, key, j) && !OtherAt(table[..], b.value, key)
      ensures b.None? ==> j == Size(c)
      ensures b == FirstStop(c, table[..], key, 0)
    {
      var h, seed, bits, i := c.hash(key, 0), 1, HASH_BITS, 0;
      j := 0;
      while j < Size(c)
        invariant h >= 0 && j <= Size(c) && Passed(c, table[..], key, j)
        invariant CursorAt(c, key, j) == Locate(c, key, Cursor(h, bits, seed, i))
      {
        if bits < c.lg2size { h, bits, seed := c.hash(key, seed), HASH_BITS, seed + 1; }
        i := (i + h) % Size(c);
        assert CursorAt(c, key, j) == Cursor(h, bits, seed, i) && Probe(c, key, j) == i;
        if table[i].k.None? || table[i].k.value.text == key {
          StopsAt(c, table[..], key, 0, j);
          return Some(i), j;
        }
        PassedMore(c, table[..], key, j);
        h, bits, j := Quotient(h, Size(c)), bits - c.lg2size, j + 1;
      }
      StopsAt(c, table[..], key, 0, j);
      b := None;
    }

    /** The bucket of `key`, or a proof of its absence. */
    method FindBucket(key: Key) returns (r: Option<nat>)
      requires Valid()
      ensures r.Some? ==> KeyAt(table[..], r.value, key) && FirstStop(c, table[..], key, 0) == r
      ensures r.None? ==> key !in contents.m && key !in contents.reps
      ensures r.None? ==> var at := FirstStop(c, table[..], key, 0); at.Some? ==> table[at.value].v.Null?
    {
      var b, j := IterateBuckets(key);
      if b.None? || table[b.value].k.None? {
        FreeHolds(c, table[..], contents, usage, values);
        Misses(c, table[..], contents, usage, values, key, j);
        return None;
      }
      r := b;
    }

    /** Find or claim the bucket of the key; this fails exactly when every bucket on the probe sequence
        holds another key. */
    method AllocateBucket(kr: KeyRef) returns (r: Option<nat>)
      requires Valid()
      modifies table, this`usage, this`contents
      ensures Valid() && contents.m == old(contents.m) && values == old(values)
      ensures r.Some? ==> KeyAt(table[..], r.value, kr.text)
      ensures r.Some? ==> kr.text in contents.reps && table[r.value].k.value == contents.reps[kr.text]
      ensures r.Some? && kr.text in old(contents.reps) ==> contents.reps == old(contents.reps)
      ensures r.Some? && kr.text !in old(contents.reps) ==> contents.reps == old(contents.reps)[kr.text := kr]
      ensures r.Some? ==> usage == old(usage) + if kr.text in old(contents.reps) then 0 else 1
      ensures r.None? ==> contents == old(contents) && usage == old(usage) && table[..] == old(table[..])
      ensures KeysKept(old(table[..]), table[..]) && r == FirstStop(c, old(table[..]), kr.text, 0)
      ensures r.Some? ==> table[..] == WithKey(old(table[..]), r.value, kr)
      ensures kr.text in old(contents.reps) ==> table[..] == old(table[..])
      ensures r.Some? && kr.text !in old(contents.reps) ==> table[r.value].v.Null?
      ensures r.None? ==> kr.text !in contents.m && kr.text !in contents.reps
      ensures r.None? <==> Passed(c, old(table[..]), kr.text, Size(c))
    {
      var b, j := IterateBuckets(kr.text);
      if b.None? {
        Misses(c, table[..], contents, usage, values, kr.text, j);
        return None;
      }
      NotPassed(c, table[..], kr.text, j);
      if table[b.value].k.None? { ClaimBucket(b.value, kr, j); }
      r := b;
    }

    method ClaimBucket(b: nat, kr: KeyRef, ghost j: nat)
      requires Valid() && j < Size(c) && Passed(c, table[..], kr.text, j) && b == Probe(c, kr.text, j)
      requires table[b].k.None?
      modifies table, this`usage, this`contents
      ensures Valid() && kr.text !in old(contents.reps)
      ensures contents == Abs(old(contents.m), old(contents.reps)[kr.text := kr])
      ensures usage == old(usage) + 1 && KeyAt(table[..], b, kr.text)
      ensures table[..] == old(table[..])[b := Bucket(Some(kr), Null)]
      ensures KeysKept(old(table[..]), table[..])
    {
      Misses(c, table[..], contents, usage, values, kr.text, j);
      ClaimHolds(c, table[..], contents, usage, values, kr, j);
      table[b] := table[b].(k := Some(kr));
      usage := usage + 1;
      contents := Abs(contents.m, contents.reps[kr.text := kr]);
      assert table[..] == old(table[..])[b := old(table[b]).(k := Some(kr))];
    }

    /** Write `v` to bucket `b` and count it. */
    method WriteValue(b: nat, v: ValueRef)
      requires Valid() && b < table.Length && table[b].k.Some?
      modifies table, this`values, this`contents
      ensures Valid() && table[..] == PutValue(old(table[..]), b, v)
      ensures contents == Abs(Proofs.WrittenMap(old(contents.m), old(table[b].k.value.text), v), old(contents.reps))
    {
      WriteHolds(c, table[..], contents, usage, values, b, v);
      values := values + (if v.Ref? then 1 else 0) - (if table[b].v.Ref? then 1 else 0);
      contents := Abs(Proofs.WrittenMap(contents.m, table[b].k.value.text, v), contents.reps);
      table[b] := table[b].(v := v);
      assert table[..] == PutValue(old(table[..]), b, v);
    }

    /** Store `v` in bucket `b`; a new value is counted, and an unshared old one released. */
    method SetValue(b: nat, v: ValueRef)
      requires Valid() && b < table.Length && table[b].k.Some?
      modifies table, this`values, this`contents, this`released
      ensures Valid()
      ensures contents == Abs(Proofs.WrittenMap(old(contents.m), old(table[b].k.value.text), v), old(contents.reps))
      ensures table[..] == PutValue(old(table[..]), b, v)
      ensures released == old(released) + Dropped(old(table[b].v))
    {
      var was := table[b].v;
      WriteValue(b, v);
      if was.Ref? && !was.shared { released := released + [was.ptr]; }
    }

    /** Store `v` in bucket `b` unless it has a value. */
    method AddValue(b: nat, v: ValueRef) returns (r: Res)
      requires Valid() && b < table.Length && table[b].k.Some? && v.Ref?
      modifies table, this`values, this`contents, this`released
      ensures Valid() && released == old(released) && KeysKept(old(table[..]), table[..])
      ensures var x := old(table[b]);
              (table[..], r) == if x.v.Null? then (PutValue(old(table[..]), b, v), Stored(x.k.value))
                                else (old(table[..]), Existing(x.k.value, x.v.ptr))
      ensures var kr := old(table[b].k.value); var m := old(contents.m);
              && r == (if kr.text in m then Existing(kr, m[kr.text]) else Stored(kr))
              && contents == Abs(if kr.text in m then m else m[kr.text := v.ptr], old(contents.reps))
    {
      var cur := table[b];
      LookupHolds(c, table[..], contents, usage, values, b);
      if cur.v.Ref? { return Existing(cur.k.value, cur.v.ptr); }
      SetValue(b, v);
      r := Stored(cur.k.value);
    }

    method Find(key: Key) returns (r: Res)
      requires Valid()
      ensures Allowed(contents, Op.Find(key), r) && r == Alone(c, table[..], Op.Find(key)).1
    {
      var b := FindBucket(key);
      if b.None? {
        FreeHolds(c, table[..], contents, usage, values);
        return Miss;
      }
      LookupHolds(c, table[..], contents, usage, values, b.value);
      r := if table[b.value].v.Ref? then Hit(table[b.value].v.ptr) else Miss;
    }

    /** `set` and `set_shared`. */
    method Set(kr: KeyRef, v: nat, shared: bool) returns (r: Res)
      requires Valid()
      modifies table, this`usage, this`values, this`contents, this`released
      ensures Valid() && Allowed(old(contents), Op.Set(kr, v, shared), r)
      ensures contents == Apply(old(contents), Op.Set(kr, v, shared), r)
      ensures r.Full? <==> Passed(c, old(table[..]), kr.text, Size(c))
      ensures ReleasedFor(old(table[..]), old(contents.reps), kr.text, old(released), released)
      ensures (table[..], r) == Alone(c, old(table[..]), Op.Set(kr, v, shared))
      ensures r.Stored? ==> OnlyBucket(old(table[..]), table[..], kr.text, Ref(v, shared))
    {
      ghost var before := table[..];
      SetMeans(c, before, contents, usage, values, Op.Set(kr, v, shared));
      var b := AllocateBucket(kr);
      if b.None? { return Full; }
      SetAlone(c, before, kr, v, shared, b.value);
      ghost var mid := contents;
      r := Stored(table[b.value].k.value);
      if kr.text in old(contents.reps) { OneBucket(c, before, kr.text, b.value); }
      SetValue(b.value, Ref(v, shared));
      SetAllowed(old(contents), mid, contents, kr, v, shared, r);
    }

    /** `add` and `add_shared`. A refused `add` may still have claimed a bucket for its key. */
    method Add(kr: KeyRef, v: nat, shared: bool) returns (r: Res)
      requires Valid()
      modifies table, this`usage, this`values, this`contents, this`released
      ensures Valid() && Allowed(old(contents), Op.Add(kr, v, shared), r)
      ensures contents == Apply(old(contents), Op.Add(kr, v, shared), r)
      ensures r.Full? <==> Passed(c, old(table[..]), kr.text, Size(c))
      ensures released == old(released) && KeysKept(old(table[..]), table[..])
      ensures table[..] == Added(c, old(table[..]), kr, Ref(v, shared))
    {
      ghost var before := table[..];
      FreeHolds(c, before, contents, usage, values);
      var b := AllocateBucket(kr);
      if b.None? { return Full; }
      AddAlone(c, before, kr, v, shared, b.value);
      ghost var mid := contents;
      r := AddValue(b.value, Ref(v, shared));
      AddAllowed(old(contents), mid, contents, kr, v, shared, r);
    }

    method Replace(key: Key, v: nat) returns (r: Res)
      requires Valid()
      modifies table, this`values, this`contents, this`released
      ensures Valid() && Allowed(old(contents), Op.Replace(key, v), r)
      ensures contents == Apply(old(contents), Op.Replace(key, v), r)
      ensures ReleasedFor(old(table[..]), contents.reps, key, old(released), released)
      ensures (table[..], r) == Alone(c, old(table[..]), Op.Replace(key, v))
      ensures r.Done? ==> OnlyBucket(old(table[..]), table[..], key, Ref(v, false))
    {
      SetMeans(c, table[..], contents, usage, values, Op.Replace(key, v));
      var b := FindBucket(key);
      if b.None? { return Miss; }
      OneBucket(c, table[..], key, b.value);
      LookupHolds(c, table[..], contents, usage, values, b.value);
      if table[b.value].v.Null? { return Miss; }
      SetValue(b.value, Ref(v, false));
      r := Done;
    }

    method Remove(key: Key) returns (r: Res)
      requires Valid()
      modifies table, this`values, this`contents, this`released
      ensures Valid() && Allowed(old(contents), Op.Remove(key), r)
      ensures contents == Apply(old(contents), Op.Remove(key), r)
      ensures ReleasedFor(old(table[..]), contents.reps, key, old(released), released)
      ensures (table[..], r) == Alone(c, old(table[..]), Op.Remove(key))
      ensures r.Done? ==> OnlyBucket(old(table[..]), table[..], key, Null)
    {
      SetMeans(c, table[..], contents, usage, values, Op.Remove(key));
      var b := FindBucket(key);
      if b.None? { return Miss; }
      OneBucket(c, table[..], key, b.value);
      LookupHolds(c, table[..], contents, usage, values, b.value);
      if table[b.value].v.Null? { return Miss; }
      SetValue(b.value, Null);
      r := Done;
    }

    /** The swap in `exclusive`: a shared `v` becomes owned; otherwise `v` is released. */
    method Claim(b: nat, v: nat)
      requires Valid() && b < table.Length && table[b].k.Some?
      modifies table, this`released
      ensures Valid()
      ensures var claimed := old(table[b].v) == Ref(v, true);
              && table[..] == (if claimed then PutValue(old(table[..]), b, Ref(v, false)) else old(table[..]))
              && released == old(released) + if claimed then [] else [v]
    {
      if table[b].v != Ref(v, true) {
        released := released + [v];
        return;
      }
      ClaimShared(c, table[..], contents, usage, values, b);
      table[b] := table[b].(v := Ref(v, false));
      assert table[..] == PutValue(old(table[..]), b, Ref(v, false));
    }

    /** Take ownership of a key and value that may be in the table as shared; what is not there is
        released. The map does not change. */
    method Exclusive(kr: KeyRef, v: Option<nat>) returns (at: Option<nat>)
      requires Valid()
      modifies table, this`released, this`releasedKeys
      ensures Valid() && contents == old(contents)
      ensures at.Some? <==> kr.text in contents.reps
      ensures at.Some? ==> KeyAt(old(table[..]), at.value, kr.text)
      ensures releasedKeys == old(releasedKeys) +
                              if kr.text in contents.reps && contents.reps[kr.text] == kr then [] else [kr]
      ensures var claimed := at.Some? && v.Some? && old(table[..])[at.value].v == Ref(v.value, true);
              && table[..] == (if claimed
                               then PutValue(old(table[..]), at.value, Ref(v.value, false)) else old(table[..]))
              && released == old(released) + if claimed || v.None? then [] else [v.value]
    {
      at := FindBucket(kr.text);
      if at.None? {
        releasedKeys := releasedKeys + [kr];
        if v.Some? { released := released + [v.value]; }
        return;
      }
      assert RepsExact(table[..], contents.reps);
      if table[at.value].k.value != kr { releasedKeys := releasedKeys + [kr]; }
      if v.Some? { Claim(at.value, v.value); }
    }
  }

  /** What overwriting or removing `was` releases. */
  function Dropped(was: ValueRef): seq<nat> {
    if was.Ref? && !was.shared then [was.ptr] else []
  }

  /** An operation on `key` releases what the bucket of `key` held, unless that was shared, and nothing if
      there was no such bucket. */
  ghost predicate ReleasedFor(bs: seq<Bucket>, reps: map<Key, KeyRef>, key: Key, before: seq<nat>, after: seq<nat>) {
    && (forall b: nat | KeyAt(bs, b, key) :: after == before + Dropped(bs[b].v))
    && (key !in reps ==> after == before)
  }

  lemma OneBucket(c: Config, bs: seq<Bucket>, key: Key, b: nat)
    requires AllPlaced(c, bs) && KeyAt(bs, b, key)
    ensures forall x: nat | KeyAt(bs, x, key) :: x == b
  {
    forall x: nat | KeyAt(bs, x, key) ensures x == b { KeysUnique(c, bs, x, b, key); }
  }
}
