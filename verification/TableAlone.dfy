/** What each operation of the table does to the buckets, and what it returns, when it runs alone
(src/table.h). The operations of one thread and the atomic steps of a thread that nothing interrupts are both
proved to do this. */
module TableAlone {
  import opened Basics
  import opened Probing
  import opened TableMachine

  /** The first bucket on the probe sequence, from probe `j` on, that does not hold another key. */
  ghost function FirstStop(c: Config, bs: seq<Bucket>, key: Key, j: nat): (b: Option<nat>)
    ensures b.Some? ==> b.value < Size(c)
    decreases Size(c) - j
  {
    if j >= Size(c) then None
    else if OtherAt(bs, Probe(c, key, j), key) then FirstStop(c, bs, key, j + 1)
    else Some(Probe(c, key, j))
  }

  lemma {:induction false} StopsAt(c: Config, bs: seq<Bucket>, key: Key, i: nat, j: nat)
    requires i <= j <= Size(c) && Passed(c, bs, key, j)
    requires j < Size(c) ==> !OtherAt(bs, Probe(c, key, j), key)
    ensures FirstStop(c, bs, key, i) == if j == Size(c) then None else Some(Probe(c, key, j))
    decreases j - i
  {
    if i < j {
      assert OtherAt(bs, Probe(c, key, i), key);
      StopsAt(c, bs, key, i + 1, j);
    }
  }

  /** Probes behind which only other keys lie may be skipped. */
  lemma {:induction false} StopsLater(c: Config, bs: seq<Bucket>, key: Key, i: nat, j: nat)
    requires i <= j && Passed(c, bs, key, j)
    ensures FirstStop(c, bs, key, i) == FirstStop(c, bs, key, j)
    decreases j - i
  {
    if i < j {
      if i < Size(c) { assert OtherAt(bs, Probe(c, key, i), key); }
      StopsLater(c, bs, key, i + 1, j);
    }
  }

  /** The bucket of a stored key is where the probing stops. */
  lemma StopsAtKey(c: Config, bs: seq<Bucket>, key: Key, b: nat)
    requires AllPlaced(c, bs) && KeyAt(bs, b, key)
    ensures FirstStop(c, bs, key, 0) == Some(b)
  {
    var j: nat :| PlacedAt(c, bs, b, j);
    StopsAt(c, bs, key, 0, j);
  }

  /** The probing stops nowhere exactly when every probe ends at another key. */
  lemma {:induction false} NoStop(c: Config, bs: seq<Bucket>, key: Key, j: nat)
    requires j <= Size(c) && Passed(c, bs, key, j)
    ensures FirstStop(c, bs, key, j).None? <==> Passed(c, bs, key, Size(c))
    decreases Size(c) - j
  {
    if j < Size(c) && OtherAt(bs, Probe(c, key, j), key) {
      PassedMore(c, bs, key, j);
      NoStop(c, bs, key, j + 1);
    }
  }

  function KeyObject(x: Bucket, kr: KeyRef): KeyRef { if x.k.Some? then x.k.value else kr }

  ghost function Alone(c: Config, bs: seq<Bucket>, op: Op): (seq<Bucket>, Res)
    requires |bs| == Size(c)
  {
    var at := FirstStop(c, bs, op.Text(), 0);
    if op.Allocates() then
      if at.None? then (bs, Full)
      else
        var x := bs[at.value];
        var cur := KeyObject(x, op.kr);
        if op.Add? && x.v.Ref? then (bs, Existing(cur, x.v.ptr))
        else (bs[at.value := Bucket(Some(cur), Ref(op.v, op.shared))], Stored(cur))
    else if at.None? || bs[at.value].v.Null? then (bs, Miss)
    else
      match op
      case Find(_) => (bs, Hit(bs[at.value].v.ptr))
      case Replace(_, v) => (PutValue(bs, at.value, Ref(v, false)), Done)
      case Remove(_) => (PutValue(bs, at.value, Null), Done)
  }

  /** The buckets once the key has claimed its bucket `b`. */
  function WithKey(bs: seq<Bucket>, b: nat, kr: KeyRef): seq<Bucket>
    requires b < |bs|
  {
    if bs[b].k.Some? then bs else bs[b := Bucket(Some(kr), Null)]
  }

  lemma SetAlone(c: Config, bs: seq<Bucket>, kr: KeyRef, v: nat, shared: bool, b: nat)
    requires |bs| == Size(c) && FirstStop(c, bs, kr.text, 0) == Some(b)
    ensures var mid := WithKey(bs, b, kr);
            Alone(c, bs, Op.Set(kr, v, shared)) == (PutValue(mid, b, Ref(v, shared)), Stored(mid[b].k.value))
  {
    var cur, x := KeyObject(bs[b], kr), Ref(v, shared);
    assert PutValue(WithKey(bs, b, kr), b, x) == bs[b := Bucket(Some(cur), x)];
  }

  /** The buckets after an add. */
  ghost function Added(c: Config, bs: seq<Bucket>, kr: KeyRef, v: ValueRef): seq<Bucket>
    requires |bs| == Size(c)
  {
    match FirstStop(c, bs, kr.text, 0)
    case None => bs
    case Some(b) =>
      if bs[b].k.None? then bs[b := Bucket(Some(kr), v)] else if bs[b].v.Null? then PutValue(bs, b, v) else bs
  }

  lemma AddedIsAlone(c: Config, bs: seq<Bucket>, kr: KeyRef, v: nat, shared: bool)
    requires |bs| == Size(c) && FreeIsEmpty(bs)
    ensures Added(c, bs, kr, Ref(v, shared)) == Alone(c, bs, Op.Add(kr, v, shared)).0
  {
  }

  lemma AddAlone(c: Config, bs: seq<Bucket>, kr: KeyRef, v: nat, shared: bool, b: nat)
    requires |bs| == Size(c) && FreeIsEmpty(bs) && FirstStop(c, bs, kr.text, 0) == Some(b)
    ensures var mid := WithKey(bs, b, kr);
            Added(c, bs, kr, Ref(v, shared)) == if mid[b].v.Null? then PutValue(mid, b, Ref(v, shared)) else mid
  {
  }

  /** Buckets without a key have no value. */
  ghost predicate FreeIsEmpty(bs: seq<Bucket>) { forall b | 0 <= b < |bs| && bs[b].k.None? :: bs[b].v.Null? }

  /** The bucket of `key` holds `v`, and no other bucket has changed. */
  ghost predicate OnlyBucket(bs: seq<Bucket>, bs': seq<Bucket>, key: Key, v: ValueRef) {
    && |bs'| == |bs|
    && exists b: nat :: KeyAt(bs', b, key) && bs'[b].v == v && forall x | 0 <= x < |bs| && x != b :: bs'[x] == bs[x]
  }

  /** What is stored, and where: the value with its flag, in the bucket of the key, and nowhere else. An operation that
      allocates is refused for want of a bucket exactly when every probe ends at another key. */
  lemma AllocatingMeans(c: Config, bs: seq<Bucket>, op: Op)
    requires AllPlaced(c, bs) && FreeIsEmpty(bs) && op.Allocates()
    ensures var (bs', r) := Alone(c, bs, op);
            && (r.Full? <==> Passed(c, bs, op.Text(), Size(c)))
            && if r.Stored? then OnlyBucket(bs, bs', op.Text(), Ref(op.v, op.shared)) else bs' == bs
  {
    NoStop(c, bs, op.Text(), 0);
    StopIsOurs(c, bs, op.Text(), 0);
    var at := FirstStop(c, bs, op.Text(), 0);
    var (bs', r) := Alone(c, bs, op);
    if r.Stored? { assert KeyAt(bs', at.value, op.Text()) && bs'[at.value].v == Ref(op.v, op.shared); }
  }

  lemma FindingMeans(c: Config, bs: seq<Bucket>, op: Op)
    requires AllPlaced(c, bs) && FreeIsEmpty(bs) && !op.Allocates()
    ensures var (bs', r) := Alone(c, bs, op);
            && (r.Done? && op.Replace? ==> OnlyBucket(bs, bs', op.Text(), Ref(op.v, false)))
            && (r.Done? && op.Remove? ==> OnlyBucket(bs, bs', op.Text(), Null))
            && (!r.Done? ==> bs' == bs)
  {
    StopIsOurs(c, bs, op.Text(), 0);
    var at := FirstStop(c, bs, op.Text(), 0);
    var (bs', r) := Alone(c, bs, op);
    if r.Done? { assert KeyAt(bs', at.value, op.Text()); }
  }

  lemma {:induction false} StopIsOurs(c: Config, bs: seq<Bucket>, key: Key, j: nat)
    requires |bs| == Size(c)
    ensures var at := FirstStop(c, bs, key, j); at.Some? ==> bs[at.value].k.None? || KeyAt(bs, at.value, key)
    decreases Size(c) - j
  {
    if j < Size(c) && OtherAt(bs, Probe(c, key, j), key) { StopIsOurs(c, bs, key, j + 1); }
  }

  lemma NotPassed(c: Config, bs: seq<Bucket>, key: Key, j: nat)
    requires j < Size(c) && |bs| == Size(c) && !OtherAt(bs, Probe(c, key, j), key)
    ensures !Passed(c, bs, key, Size(c))
  {
  }
}
