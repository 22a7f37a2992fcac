/** The copying loop of a collection over buckets (src/cache.cc, `collect`; src/table.h, `add_shared`): which live
entries find a bucket in the new table.

A probe sequence need not visit every bucket, so an entry can be refused by a table that is no smaller than
the one it comes from and is not full. The collector ignores the refusal. */
module Rehash {
  import opened Basics
  import opened Probing
  import opened TableMachine
  import Proofs = TableProofs
  import opened TableAlone
  import opened OpenTable
  import M = CacheModel
  import O = CacheObject

  /** Whether the loop shares the entry of a bucket. */
  predicate Wanted(x: Bucket, live: Key -> bool) { x.k.Some? && x.v.Ref? && live(x.k.value.text) }

  /** The buckets of the new table after the first `n` buckets of the old one. */
  ghost function Refilled(c: Config, old1: seq<Bucket>, n: nat, live: Key -> bool, new1: seq<Bucket>): (r: seq<Bucket>)
    requires n <= |old1| && |new1| == Size(c)
    ensures |r| == Size(c)
  {
    if n == 0 then new1
    else
      var r := Refilled(c, old1, n - 1, live, new1);
      var x := old1[n - 1];
      if Wanted(x, live) then Added(c, r, x.k.value, Ref(x.v.ptr, true)) else r
  }

  /** What has been copied from the first `n` buckets, and what was refused. */
  ghost predicate Copied(c: Config, bs: seq<Bucket>, n: nat, live: Key -> bool, to: seq<Bucket>, a: Abs) {
    && n <= |bs| && a.reps.Keys == a.m.Keys
    && (forall k | k in a.m :: exists b: nat :: b < n && CopiedFrom(bs, b, k, live, a.m[k]))
    && (forall b: nat | b < n && Wanted(bs[b], live) ::
          bs[b].k.value.text in a.m || Passed(c, to, bs[b].k.value.text, Size(c)))
  }

  ghost predicate CopiedFrom(bs: seq<Bucket>, b: nat, k: Key, live: Key -> bool, v: nat) {
    KeyAt(bs, b, k) && Wanted(bs[b], live) && bs[b].v.ptr == v
  }

  /** A stored key's probe sequence is not all taken by other keys. */
  lemma StoredNotPassed(c: Config, bs: seq<Bucket>, a: Abs, k: Key)
    requires AllPlaced(c, bs) && Proofs.Represents(bs, a) && k in a.m
    ensures !Passed(c, bs, k, Size(c))
  {
    var b: nat :| KeyAt(bs, b, k) && bs[b].v.Ref?;
    var j: nat :| PlacedAt(c, bs, b, j);
    NotPassed(c, bs, k, j);
  }

  lemma SkipCopied(c: Config, bs: seq<Bucket>, n: nat, live: Key -> bool, to: seq<Bucket>, a: Abs)
    requires Copied(c, bs, n, live, to, a) && n < |bs| && !Wanted(bs[n], live)
    ensures Copied(c, bs, n + 1, live, to, a)
  {
    forall k | k in a.m ensures exists b: nat :: b < n + 1 && CopiedFrom(bs, b, k, live, a.m[k]) {
      var b: nat :| b < n && CopiedFrom(bs, b, k, live, a.m[k]);
    }
  }

  /** The key of a bucket not yet reached has not been copied. */
  lemma NotYet(c: Config, from: Config, bs: seq<Bucket>, n: nat, live: Key -> bool, to: seq<Bucket>, a: Abs)
    requires AllPlaced(from, bs) && Copied(c, bs, n, live, to, a) && n < |bs| && bs[n].k.Some?
    ensures bs[n].k.value.text !in a.m && bs[n].k.value.text !in a.reps
  {
    var key := bs[n].k.value.text;
    if key in a.m {
      var b: nat :| b < n && CopiedFrom(bs, b, key, live, a.m[key]);
      KeysUnique(from, bs, b, n, key);
    }
  }

  lemma CopyOne(c: Config, bs: seq<Bucket>, n: nat, live: Key -> bool,
                to: seq<Bucket>, to': seq<Bucket>, a: Abs, a': Abs)
    requires Copied(c, bs, n, live, to, a) && n < |bs| && Wanted(bs[n], live) && KeysKept(to, to')
    requires var key := bs[n].k.value.text;
             && key !in a.m
             && if Passed(c, to, key, Size(c)) then a' == a
                else a'.m == a.m[key := bs[n].v.ptr] && a'.reps.Keys == a.reps.Keys + {key}
    ensures Copied(c, bs, n + 1, live, to', a')
  {
    var key := bs[n].k.value.text;
    assert CopiedFrom(bs, n, key, live, bs[n].v.ptr);
    forall k | k in a'.m ensures exists b: nat :: b < n + 1 && CopiedFrom(bs, b, k, live, a'.m[k]) {
      if k in a.m {
        var b: nat :| b < n && CopiedFrom(bs, b, k, live, a.m[k]);
        assert k != key;
      }
    }
    forall b: nat | b < n + 1 && Wanted(bs[b], live)
      ensures bs[b].k.value.text in a'.m || Passed(c, to', bs[b].k.value.text, Size(c))
    {
      if Passed(c, to, bs[b].k.value.text, Size(c)) { PassedKept(c, to, to', bs[b].k.value.text, Size(c)); }
    }
  }

  /** What the new table then holds: the live entries whose probe sequence is not all taken by other keys. */
  ghost predicate Survives(c: Config, to: seq<Bucket>, a: Abs, live: Key -> bool, k: Key) {
    k in a.m && live(k) && !Passed(c, to, k, Size(c))
  }

  lemma CopyEnd(c: Config, from: Config, bs: seq<Bucket>, a: Abs, live: Key -> bool, to: seq<Bucket>, b: Abs, k: Key)
    requires AllPlaced(from, bs) && Proofs.Represents(bs, a)
    requires AllPlaced(c, to) && Proofs.Represents(to, b) && Copied(c, bs, |bs|, live, to, b)
    ensures k in b.m <==> Survives(c, to, a, live, k)
    ensures k in b.m ==> k in a.m && b.m[k] == a.m[k]
  {
    if k in b.m {
      var x: nat :| x < |bs| && CopiedFrom(bs, x, k, live, b.m[k]);
      Proofs.Lookup(from, bs, a, x, k);
      StoredNotPassed(c, to, b, k);
    } else if k in a.m && live(k) {
      var x: nat :| KeyAt(bs, x, k) && bs[x].v.Ref?;
      assert Wanted(bs[x], live);
    }
  }

  /** One turn of the loop. */
  method ShareOne(src: Table, dst: Table, live: Key -> bool, i: nat, ghost start: seq<Bucket>)
    requires src.Valid() && dst.Valid() && src != dst && src.table != dst.table && i < src.table.Length
    requires |start| == Size(dst.c)
    requires Copied(dst.c, src.table[..], i, live, dst.table[..], dst.contents)
    requires dst.table[..] == Refilled(dst.c, src.table[..], i, live, start)
    modifies dst, dst.table
    ensures dst.Valid() && dst.released == old(dst.released)
    ensures Copied(dst.c, src.table[..], i + 1, live, dst.table[..], dst.contents)
    ensures dst.table[..] == Refilled(dst.c, src.table[..], i + 1, live, start)
  {
    ghost var bs, to, a := src.table[..], dst.table[..], dst.contents;
    var x := src.table[i];
    if x.k.Some? && x.v.Ref? && live(x.k.value.text) {
      NotYet(dst.c, src.c, bs, i, live, to, a);
      var r := dst.Add(x.k.value, x.v.ptr, true);
      assert r.Full? <==> Passed(dst.c, to, x.k.value.text, Size(dst.c));
      CopyOne(dst.c, bs, i, live, to, dst.table[..], a, dst.contents);
    } else {
      SkipCopied(dst.c, bs, i, live, to, a);
    }
  }

  /** The copying loop, bucket by bucket, into a new table of any size. */
  method ShareAll(src: Table, dst: Table, live: Key -> bool)
    requires src.Valid() && dst.Valid() && dst.contents == EMPTY && src != dst && src.table != dst.table
    modifies dst, dst.table
    ensures src.Valid() && dst.Valid() && dst.released == old(dst.released)
    ensures forall k :: k in dst.contents.m <==> Survives(dst.c, dst.table[..], src.contents, live, k)
    ensures forall k | k in dst.contents.m :: k in src.contents.m && dst.contents.m[k] == src.contents.m[k]
    ensures dst.table[..] == Refilled(dst.c, src.table[..], src.table.Length, live, old(dst.table[..]))
  {
    ghost var bs, start := src.table[..], dst.table[..];
    var i := 0;
    while i < src.table.Length
      invariant i <= src.table.Length && src.table[..] == bs && src.contents == old(src.contents)
      invariant src.Valid() && dst.Valid() && dst.released == old(dst.released)
      invariant Copied(dst.c, bs, i, live, dst.table[..], dst.contents)
      invariant dst.table[..] == Refilled(dst.c, bs, i, live, start)
    {
      ShareOne(src, dst, live, i, start);
      i := i + 1;
    }
    forall k ensures (k in dst.contents.m <==> Survives(dst.c, dst.table[..], src.contents, live, k))
      && (k in dst.contents.m ==> k in src.contents.m && dst.contents.m[k] == src.contents.m[k])
    {
      CopyEnd(dst.c, src.c, bs, src.contents, live, dst.table[..], dst.contents, k);
    }
  }

  ghost predicate Visits(c: Config, key: Key, b: nat) { exists j: nat :: j < Size(c) && Probe(c, key, j) == b }

  /** A key whose probe sequence visits every bucket is refused only by a full table. */
  lemma RefusedOnlyWhenFull(c: Config, bs: seq<Bucket>, key: Key, b: nat)
    requires b < |bs| == Size(c) && bs[b].k.None?
    requires forall x: nat | x < Size(c) :: Visits(c, key, x)
    ensures !Passed(c, bs, key, Size(c))
  {
    assert Visits(c, key, b);
    var j: nat :| j < Size(c) && Probe(c, key, j) == b;
    NotPassed(c, bs, key, j);
  }

  /** The loop over buckets and the loop over the cache's map agree, when a key has room exactly if its probe
      sequence in the new table is not all taken by other keys. `a` and `b` are the old and the new table. */
  lemma LoopsAgree(s: M.State, c: Config, to: seq<Bucket>, a: Abs, b: Abs,
                   live: Key -> bool, wanted: Key -> bool, k: Key)
    requires M.Find(s.entries, k) == if k in a.m then Some(a.m[k]) else None
    requires wanted(k) <==> live(k) && M.Visible(s, k).Some?
    requires (k in b.m <==> Survives(c, to, a, wanted, k)) && (k in b.m ==> k in a.m && b.m[k] == a.m[k])
    ensures O.Kept(s, k, live(k) && !Passed(c, to, k, Size(c))) == if k in b.m then Some(b.m[k]) else None
  {
  }

  // ---------------------------------------------------------------- a live entry that is dropped

  const X: KeyRef := KeyRef(1, [1])
  const Y: KeyRef := KeyRef(2, [2])

  /** Two buckets. The key of `X` probes bucket 1 and then 0; that of `Y` probes bucket 1 twice. */
  predicate AllLive(k: Key) { true }

  const TWO: Config := Config(1, (k, seed) => if k == [1] then 3 else 1)

  lemma Probes()
    ensures Size(TWO) == 2
    ensures Probe(TWO, X.text, 0) == 1 && Probe(TWO, X.text, 1) == 0 && Probe(TWO, Y.text, 0) == 1
    ensures Probe(TWO, Y.text, 1) == 1
  {
    assert Two(1) == 2;
    assert CursorAt(TWO, X.text, 0) == Cursor(3, 128, 1, 1);
    assert Shift(TWO, CursorAt(TWO, X.text, 0)) == Cursor(1, 127, 1, 1);
    assert CursorAt(TWO, Y.text, 0) == Cursor(1, 128, 1, 1);
    assert Shift(TWO, CursorAt(TWO, Y.text, 0)) == Cursor(0, 127, 1, 1);
  }

  /** The old table, filled with `Y` and then `X`, has `X` first; in the order of its buckets `X` takes bucket 1,
      and nothing is left for `Y`. */
  lemma OrderMatters()
    ensures Size(TWO) == 2
    ensures var free := Bucket(None, Null); var y := Added(TWO, [free, free], Y, Ref(8, false));
            var full := Added(TWO, y, X, Ref(7, false));
            && full == [Bucket(Some(X), Ref(7, false)), Bucket(Some(Y), Ref(8, false))]
            && Refilled(TWO, full, 2, AllLive, [free, free]) == [free, Bucket(Some(X), Ref(7, true))]
            && Passed(TWO, [free, Bucket(Some(X), Ref(7, true))], Y.text, 2)
  {
    Probes();
    var free := Bucket(None, Null);
    var y := Added(TWO, [free, free], Y, Ref(8, false));
    assert y == [free, Bucket(Some(Y), Ref(8, false))];
    assert FirstStop(TWO, y, X.text, 0) == FirstStop(TWO, y, X.text, 1) == Some(0);
    var full := Added(TWO, y, X, Ref(7, false));
    var x := Added(TWO, [free, free], X, Ref(7, true));
    assert x == [free, Bucket(Some(X), Ref(7, true))];
    Untaken(x);
    assert Added(TWO, x, Y, Ref(8, true)) == x;
    assert full == [Bucket(Some(X), Ref(7, false)), Bucket(Some(Y), Ref(8, false))];
    assert Wanted(full[0], AllLive) && Wanted(full[1], AllLive);
    assert Refilled(TWO, full, 0, AllLive, [free, free]) == [free, free];
    assert Refilled(TWO, full, 1, AllLive, [free, free]) == x;
  }

  lemma Untaken(x: seq<Bucket>)
    requires |x| == 2 && x[1].k == Some(X)
    ensures Size(TWO) == 2 && Passed(TWO, x, Y.text, 2) && FirstStop(TWO, x, Y.text, 0) == None
  {
    Probes();
    StopsAt(TWO, x, Y.text, 0, 2);
  }

  ghost predicate OldBuckets(bs: seq<Bucket>) {
    bs == [Bucket(Some(X), Ref(7, false)), Bucket(Some(Y), Ref(8, false))]
  }

  method NewTwo() returns (t: Table)
    ensures t.Valid() && fresh(t) && fresh(t.table) && t.c == TWO && t.contents == EMPTY
    ensures t.table[..] == [Bucket(None, Null), Bucket(None, Null)]
  {
    Probes();
    t := new Table(TWO);
  }

  method FillOld() returns (t: Table)
    ensures t.Valid() && fresh(t) && fresh(t.table) && t.c == TWO && t.contents.m == map[Y.text := 8, X.text := 7]
    ensures OldBuckets(t.table[..])
  {
    OrderMatters();
    t := NewTwo();
    AddNew(t, Y, 8);
    assert t.contents.m == map[Y.text := 8];
    AddNew(t, X, 7);
  }

  method AddNew(t: Table, kr: KeyRef, v: nat)
    requires t.Valid() && kr.text !in t.contents.m && !Passed(t.c, t.table[..], kr.text, Size(t.c))
    modifies t, t.table
    ensures t.Valid() && t.contents.m == old(t.contents.m)[kr.text := v]
    ensures t.table[..] == Added(t.c, old(t.table[..]), kr, Ref(v, false))
  {
    var r := t.Add(kr, v, false);
  }

  method ShareIntoNew(src: Table) returns (dst: Table)
    requires src.Valid() && src.c == TWO && OldBuckets(src.table[..])
    ensures dst.Valid() && fresh(dst) && fresh(dst.table) && dst.c == TWO && Y.text !in dst.contents.m
  {
    OrderMatters();
    dst := NewTwo();
    ShareAll(src, dst, AllLive);
    assert !Survives(TWO, dst.table[..], src.contents, AllLive, Y.text);
  }

  /** Two tables of one size: a live entry of the first is not in the second after the copying loop. */
  method LiveEntryDropped() returns (was: Res, now: Res)
    ensures was == Hit(8) && now == Miss
  {
    var src := FillOld();
    was := src.Find(Y.text);
    var dst := ShareIntoNew(src);
    now := dst.Find(Y.text);
  }
}
