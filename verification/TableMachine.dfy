/** The open hash table under concurrency (src/table.h).

Any number of threads run find, set, add, replace and remove. Every load, compare-and-swap,
exchange and counter update is one step; a thread's program counter records where in the
code it stands. The machine also appends the events of module `Linearization`. */
module TableMachine {
  import opened Basics
  import opened Probing
  import opened Linearization

  /** A key object: where it lives, and its immutable contents. */
  datatype KeyRef = KeyRef(addr: nat, text: Key)

  /** A flagged value pointer. */
  datatype ValueRef = Null | Ref(ptr: nat, shared: bool)

  datatype Bucket = Bucket(k: Option<KeyRef>, v: ValueRef)

  datatype Op =
    | Find(key: Key)
    | Set(kr: KeyRef, v: nat, shared: bool)
    | Add(kr: KeyRef, v: nat, shared: bool)
    | Replace(key: Key, v: nat)
    | Remove(key: Key)
  {
    function Text(): Key {
      match this
      case Find(k) => k
      case Set(kr, _, _) => kr.text
      case Add(kr, _, _) => kr.text
      case Replace(k, _) => k
      case Remove(k) => k
    }

    /** Operations that go through `allocate_bucket` rather than `find_bucket`. */
    predicate Allocates() { Set? || Add? }
  }

  datatype Res =
    | Hit(v: nat)
    | Miss
    | Stored(cur: KeyRef)
    | Existing(cur: KeyRef, v: nat)
    | Full
    | Done

  datatype Pc =
    | AtProbe(j: nat)                                  // load of k in iterate_buckets
    | AtAction(j: nat)                                 // load of k in the action
    | Claiming(j: nat)                                 // compare-and-swap of k from null
    | Counting(b: nat)                                 // usage_count.incr()
    | AtBucket(b: nat)                                 // first access to v
    | Swapping(b: nat, prev: ValueRef)                 // compare-and-swap of v in replace_value
    | Tallying(res: Res, delta: int, was: ValueRef)    // value_count.incr() or decr()
    | Releasing(res: Res, ptr: nat)                    // val_release
    | Finishing(res: Res)                              // return to the caller

  datatype Call = Call(id: nat, op: Op, pc: Pc)

  datatype State = State(buckets: seq<Bucket>, usage: int, values: int,
                         running: map<nat, Call>, nextId: nat, hist: seq<Event<Op, Res>>)

  datatype Action = Begin(op: Op) | Go(spurious: bool)

  // ---------------------------------------------------------------- the map it implements

  /** The abstract table: values by key, and the key object that stands for each key seen. */
  datatype Abs = Abs(m: map<Key, nat>, reps: map<Key, KeyRef>)

  ghost predicate Stands(a: Abs, kr: KeyRef, cur: KeyRef) {
    cur.text == kr.text && (kr.text in a.reps ==> a.reps[kr.text] == cur)
  }

  ghost predicate Allowed(a: Abs, op: Op, res: Res) {
    match op
    case Find(k) => res == if k in a.m then Hit(a.m[k]) else Miss
    case Set(kr, _, _) =>
      || (res.Full? && kr.text !in a.m && kr.text !in a.reps)
      || (res.Stored? && Stands(a, kr, res.cur))
    case Add(kr, _, _) =>
      || (res.Full? && kr.text !in a.m && kr.text !in a.reps)
      || (res.Stored? && kr.text !in a.m && Stands(a, kr, res.cur))
      || (res.Existing? && kr.text in a.m && res.v == a.m[kr.text] && Stands(a, kr, res.cur))
    case Replace(k, _) => res == if k in a.m then Done else Miss
    case Remove(k) => res == if k in a.m then Done else Miss
  }

  ghost function Apply(a: Abs, op: Op, res: Res): Abs {
    match op
    case Find(_) => a
    case Set(kr, v, _) => if res.Stored? then Abs(a.m[kr.text := v], a.reps[kr.text := res.cur]) else a
    case Add(kr, v, _) =>
      if res.Stored? then Abs(a.m[kr.text := v], a.reps[kr.text := res.cur])
      else if res.Existing? then Abs(a.m, a.reps[kr.text := res.cur])
      else a
    case Replace(k, v) => if res.Done? then Abs(a.m[k := v], a.reps) else a
    case Remove(k) => if res.Done? then Abs(a.m - {k}, a.reps) else a
  }

  ghost function MapSpec(): Spec<Abs, Op, Res> {
    Spec((a, op, res) => Allowed(a, op, res), (a, op, res) => Apply(a, op, res))
  }

  const EMPTY: Abs := Abs(map[], map[])

  // ---------------------------------------------------------------- the steps

  ghost predicate Enabled(s: State, t: nat, a: Action) {
    match a
    case Begin(_) => t !in s.running
    case Go(_) => t in s.running
  }

  ghost function Goto(s: State, t: nat, call: Call, pc: Pc): State {
    s.(running := s.running[t := call.(pc := pc)])
  }

  /** The step at which the operation takes effect with result `res`. */
  ghost function Effective(s: State, t: nat, call: Call, bs: seq<Bucket>, res: Res, pc: Pc): State {
    s.(buckets := bs, running := s.running[t := call.(pc := pc)], hist := s.hist + [Commit(call.id, call.op, res)])
  }

  /** Probe `j` holds another key: go on to the next, or give up when all have been tried. */
  ghost function Pass(c: Config, s: State, t: nat, call: Call, j: nat): State {
    if j + 1 < Size(c) then Goto(s, t, call, AtProbe(j + 1))
    else
      var res := if call.op.Allocates() then Full else Miss;
      Effective(s, t, call, s.buckets, res, Finishing(res))
  }

  ghost function Where(c: Config, call: Call, j: nat): nat { Probe(c, call.op.Text(), j) }

  ghost function StepProbe(c: Config, s: State, t: nat, call: Call, j: nat): State
    requires |s.buckets| == Size(c)
  {
    var k := s.buckets[Where(c, call, j)].k;
    if k.None? || k.value.text == call.op.Text() then Goto(s, t, call, AtAction(j)) else Pass(c, s, t, call, j)
  }

  ghost function StepAction(c: Config, s: State, t: nat, call: Call, j: nat): State
    requires |s.buckets| == Size(c)
  {
    var b := Where(c, call, j);
    match s.buckets[b].k
    case None =>
      if call.op.Allocates() then Goto(s, t, call, Claiming(j))
      else Effective(s, t, call, s.buckets, Miss, Finishing(Miss))
    case Some(k) =>
      if k.text == call.op.Text() then Goto(s, t, call, AtBucket(b)) else Pass(c, s, t, call, j)
  }

  /** A weak compare-and-swap may fail without reason and is then retried. */
  ghost function StepClaim(c: Config, s: State, t: nat, call: Call, j: nat, spurious: bool): State
    requires |s.buckets| == Size(c) && call.op.Allocates()
  {
    var b := Where(c, call, j);
    match s.buckets[b].k
    case None =>
      if spurious then s
      else Goto(s, t, call, Counting(b)).(buckets := s.buckets[b := s.buckets[b].(k := Some(call.op.kr))])
    case Some(k) =>
      if k.text == call.op.Text() then Goto(s, t, call, AtBucket(b)) else Pass(c, s, t, call, j)
  }

  ghost function PutValue(bs: seq<Bucket>, b: nat, v: ValueRef): seq<Bucket>
    requires b < |bs|
  {
    bs[b := bs[b].(v := v)]
  }

  /** `changed_value`: count a new value, or release an unshared old one. */
  ghost function AfterChange(res: Res, was: ValueRef): Pc {
    if was.Null? then Tallying(res, 1, Null) else if was.shared then Finishing(res) else Releasing(res, was.ptr)
  }

  ghost function StepBucket(s: State, t: nat, call: Call, b: nat): State
    requires b < |s.buckets| && s.buckets[b].k.Some?
  {
    var cur := s.buckets[b].k.value;
    var was := s.buckets[b].v;
    match call.op
    case Find(_) =>
      var res := if was.Ref? then Hit(was.ptr) else Miss;
      Effective(s, t, call, s.buckets, res, Finishing(res))
    case Set(_, v, shared) =>
      Effective(s, t, call, PutValue(s.buckets, b, Ref(v, shared)), Stored(cur), AfterChange(Stored(cur), was))
    case Add(_, v, shared) =>
      if was.Null? then
        Effective(s, t, call, PutValue(s.buckets, b, Ref(v, shared)), Stored(cur), AfterChange(Stored(cur), was))
      else Effective(s, t, call, s.buckets, Existing(cur, was.ptr), Finishing(Existing(cur, was.ptr)))
    case Replace(_, _) =>
      if was.Null? then Effective(s, t, call, s.buckets, Miss, Finishing(Miss)) else Goto(s, t, call, Swapping(b, was))
    case Remove(_) =>
      if was.Null? then Effective(s, t, call, s.buckets, Miss, Finishing(Miss))
      else Effective(s, t, call, PutValue(s.buckets, b, Null), Done, Tallying(Done, -1, was))
  }

  ghost function StepSwap(s: State, t: nat, call: Call, b: nat, prev: ValueRef, spurious: bool): State
    requires b < |s.buckets| && call.op.Replace?
  {
    var cur := s.buckets[b].v;
    if cur == prev && !spurious then
      Effective(s, t, call, PutValue(s.buckets, b, Ref(call.op.v, false)), Done, AfterChange(Done, prev))
    else if cur.Null? then Effective(s, t, call, s.buckets, Miss, Finishing(Miss))
    else Goto(s, t, call, Swapping(b, cur))
  }

  ghost function Step(c: Config, s: State, t: nat, a: Action): State
    requires Struct(c, s) && Enabled(s, t, a)
  {
    match a
    case Begin(op) =>
      s.(running := s.running[t := Call(s.nextId, op, AtProbe(0))], nextId := s.nextId + 1,
         hist := s.hist + [Invoke(s.nextId, op)])
    case Go(spurious) =>
      var call := s.running[t];
      assert CallOk(c, s.buckets, call);
      match call.pc
      case AtProbe(j) => StepProbe(c, s, t, call, j)
      case AtAction(j) => StepAction(c, s, t, call, j)
      case Claiming(j) => StepClaim(c, s, t, call, j, spurious)
      case Counting(b) => Goto(s, t, call, AtBucket(b)).(usage := s.usage + 1)
      case AtBucket(b) => StepBucket(s, t, call, b)
      case Swapping(b, prev) => StepSwap(s, t, call, b, prev, spurious)
      case Tallying(res, delta, was) =>
        Goto(s, t, call, if was.Ref? && !was.shared then Releasing(res, was.ptr) else Finishing(res))
        .(values := s.values + delta)
      case Releasing(res, _) => Goto(s, t, call, Finishing(res))
      case Finishing(res) => s.(running := s.running - {t}, hist := s.hist + [Return(call.id, res)])
  }

  // ---------------------------------------------------------------- placement of keys

  ghost predicate KeyAt(bs: seq<Bucket>, b: nat, key: Key) {
    b < |bs| && bs[b].k.Some? && bs[b].k.value.text == key
  }

  ghost predicate OtherAt(bs: seq<Bucket>, b: nat, key: Key) {
    b < |bs| && bs[b].k.Some? && bs[b].k.value.text != key
  }

  /** The first `j` probes for `key` are occupied by other keys. */
  ghost predicate Passed(c: Config, bs: seq<Bucket>, key: Key, j: nat) {
    forall i: nat | i < j :: OtherAt(bs, Probe(c, key, i), key)
  }

  ghost predicate PlacedAt(c: Config, bs: seq<Bucket>, b: nat, j: nat)
    requires b < |bs| && bs[b].k.Some?
  {
    j < Size(c) && Probe(c, bs[b].k.value.text, j) == b && Passed(c, bs, bs[b].k.value.text, j)
  }

  /** Each stored key sits on its own probe sequence, behind other keys only. */
  ghost predicate AllPlaced(c: Config, bs: seq<Bucket>) {
    |bs| == Size(c) && forall b: nat | b < |bs| && bs[b].k.Some? :: exists j: nat :: PlacedAt(c, bs, b, j)
  }

  ghost predicate CallOk(c: Config, bs: seq<Bucket>, call: Call) {
    var key := call.op.Text();
    match call.pc
    case AtProbe(j) => j < Size(c) && Passed(c, bs, key, j)
    case AtAction(j) => j < Size(c) && Passed(c, bs, key, j)
    case Claiming(j) => j < Size(c) && Passed(c, bs, key, j) && call.op.Allocates()
    case Counting(b) => KeyAt(bs, b, key) && call.op.Allocates() && bs[b].k.value == call.op.kr
    case AtBucket(b) => KeyAt(bs, b, key)
    case Swapping(b, prev) => KeyAt(bs, b, key) && call.op.Replace? && prev.Ref?
    case _ => true
  }

  ghost predicate Struct(c: Config, s: State) {
    AllPlaced(c, s.buckets) && forall t | t in s.running :: CallOk(c, s.buckets, s.running[t])
  }

  /** No two buckets hold equal keys. */
  lemma KeysUnique(c: Config, bs: seq<Bucket>, a: nat, b: nat, key: Key)
    requires AllPlaced(c, bs) && KeyAt(bs, a, key) && KeyAt(bs, b, key)
    ensures a == b
  {
    var i: nat :| PlacedAt(c, bs, a, i);
    var j: nat :| PlacedAt(c, bs, b, j);
    assert i < j ==> OtherAt(bs, Probe(c, key, i), key);
    assert j < i ==> OtherAt(bs, Probe(c, key, j), key);
  }

  /** A null seen while probing proves that the key is nowhere in the table. */
  lemma NullProvesAbsence(c: Config, bs: seq<Bucket>, key: Key, j: nat, b: nat)
    requires AllPlaced(c, bs) && Passed(c, bs, key, j)
    requires j >= Size(c) || bs[Probe(c, key, j)].k.None?
    ensures !KeyAt(bs, b, key)
  {
    if KeyAt(bs, b, key) {
      var i: nat :| PlacedAt(c, bs, b, i);
      var clash := OtherAt(bs, Probe(c, key, i), key) && OtherAt(bs, Probe(c, key, j), key);
      assert false;
    }
  }

  /** Key slots are only ever filled. */
  ghost predicate KeysKept(bs: seq<Bucket>, bs': seq<Bucket>) {
    |bs| == |bs'| && forall b: nat | b < |bs| && bs[b].k.Some? :: bs'[b].k == bs[b].k
  }

  lemma PassedKept(c: Config, bs: seq<Bucket>, bs': seq<Bucket>, key: Key, j: nat)
    requires KeysKept(bs, bs') && Passed(c, bs, key, j)
    ensures Passed(c, bs', key, j)
  {
    forall i: nat | i < j ensures OtherAt(bs', Probe(c, key, i), key) {
      assert OtherAt(bs, Probe(c, key, i), key);
    }
  }

  lemma CallKept(c: Config, bs: seq<Bucket>, bs': seq<Bucket>, call: Call)
    requires KeysKept(bs, bs') && CallOk(c, bs, call)
    ensures CallOk(c, bs', call)
  {
    match call.pc
    case AtProbe(j) => PassedKept(c, bs, bs', call.op.Text(), j);
    case AtAction(j) => PassedKept(c, bs, bs', call.op.Text(), j);
    case Claiming(j) => PassedKept(c, bs, bs', call.op.Text(), j);
    case _ =>
  }

  /** Filling slot `b` with a key that has passed the probes before it keeps the placement. */
  lemma PlacementKept(c: Config, bs: seq<Bucket>, bs': seq<Bucket>, b: nat, key: Key, j: nat)
    requires AllPlaced(c, bs) && KeysKept(bs, bs') && b < |bs|
    requires forall x: nat | x < |bs| && x != b :: bs'[x].k == bs[x].k
    requires || bs'[b].k == bs[b].k
             || (KeyAt(bs', b, key) && j < Size(c) && Probe(c, key, j) == b && Passed(c, bs, key, j))
    ensures AllPlaced(c, bs')
  {
    forall x: nat | x < |bs'| && bs'[x].k.Some? ensures exists i: nat :: PlacedAt(c, bs', x, i) {
      if bs[x].k == bs'[x].k {
        var i: nat :| PlacedAt(c, bs, x, i);
        PassedKept(c, bs, bs', bs[x].k.value.text, i);
        assert PlacedAt(c, bs', x, i);
      } else {
        PassedKept(c, bs, bs', key, j);
        assert PlacedAt(c, bs', x, j);
      }
    }
  }

  lemma PassedMore(c: Config, bs: seq<Bucket>, key: Key, j: nat)
    requires Passed(c, bs, key, j) && OtherAt(bs, Probe(c, key, j), key)
    ensures Passed(c, bs, key, j + 1)
  {
    forall i: nat | i < j + 1 ensures OtherAt(bs, Probe(c, key, i), key) {}
  }

  lemma StructAfter(c: Config, s: State, s': State, t: nat)
    requires Struct(c, s) && AllPlaced(c, s'.buckets) && KeysKept(s.buckets, s'.buckets)
    requires s'.running.Keys <= s.running.Keys + {t}
    requires forall u | u in s'.running && u != t :: u in s.running && s'.running[u] == s.running[u]
    requires t in s'.running ==> CallOk(c, s'.buckets, s'.running[t])
    ensures Struct(c, s')
  {
    forall u | u in s'.running ensures CallOk(c, s'.buckets, s'.running[u]) {
      if u != t { CallKept(c, s.buckets, s'.buckets, s.running[u]); }
    }
  }

  lemma ProbeKeepsStruct(c: Config, s: State, t: nat, spurious: bool)
    requires Struct(c, s) && t in s.running
    requires s.running[t].pc.AtProbe? || s.running[t].pc.AtAction? || s.running[t].pc.Claiming?
    ensures var s' := Step(c, s, t, Go(spurious)); Struct(c, s') && KeysKept(s.buckets, s'.buckets)
  {
    var s' := Step(c, s, t, Go(spurious));
    var call := s.running[t];
    assert CallOk(c, s.buckets, call);
    var key, j := call.op.Text(), call.pc.j;
    var b := Probe(c, key, j);
    if OtherAt(s.buckets, b, key) { PassedMore(c, s.buckets, key, j); }
    PlacementKept(c, s.buckets, s'.buckets, b, key, j);
    StructAfter(c, s, s', t);
  }

  /** Operations on a found bucket change at most its value. */
  ghost predicate ValueStep(s: State, s': State, t: nat, b: nat) {
    && |s'.buckets| == |s.buckets|
    && (forall x: nat | x < |s.buckets| :: s'.buckets[x].k == s.buckets[x].k)
    && (forall x: nat | x < |s.buckets| && x != b :: s'.buckets[x] == s.buckets[x])
    && t in s.running && t in s'.running
    && s'.running == s.running[t := s.running[t].(pc := s'.running[t].pc)]
    && (s'.running[t].pc.Swapping? ==> s'.running[t].pc.b == b && s'.running[t].pc.prev.Ref?)
    && var pc := s'.running[t].pc; pc.Swapping? || pc.Tallying? || pc.Releasing? || pc.Finishing?
  }

  lemma ValueKeepsStruct(c: Config, s: State, s': State, t: nat, b: nat)
    requires Struct(c, s) && ValueStep(s, s', t, b) && KeyAt(s.buckets, b, s.running[t].op.Text())
    requires s'.running[t].pc.Swapping? ==> s.running[t].op.Replace?
    ensures Struct(c, s') && KeysKept(s.buckets, s'.buckets)
  {
    PlacementKept(c, s.buckets, s'.buckets, b, s.running[t].op.Text(), 0);
    StructAfter(c, s, s', t);
  }

  lemma BeginKeepsStruct(c: Config, s: State, t: nat, op: Op)
    requires Struct(c, s) && t !in s.running
    ensures Struct(c, Step(c, s, t, Begin(op)))
  {
    var s' := Step(c, s, t, Begin(op));
    assert Passed(c, s'.buckets, op.Text(), 0);
    StructAfter(c, s, s', t);
  }

  lemma TailKeepsStruct(c: Config, s: State, t: nat, spurious: bool)
    requires Struct(c, s) && t in s.running
    requires var pc := s.running[t].pc; pc.Counting? || pc.Tallying? || pc.Releasing? || pc.Finishing?
    ensures var s' := Step(c, s, t, Go(spurious)); Struct(c, s') && s'.buckets == s.buckets
  {
    assert CallOk(c, s.buckets, s.running[t]);
    StructAfter(c, s, Step(c, s, t, Go(spurious)), t);
  }

  /** Every step keeps the placement of keys, and key slots are only ever filled. */
  lemma StepKeepsStruct(c: Config, s: State, t: nat, a: Action)
    requires Struct(c, s) && Enabled(s, t, a)
    ensures Struct(c, Step(c, s, t, a)) && KeysKept(s.buckets, Step(c, s, t, a).buckets)
  {
    match a
    case Begin(op) => BeginKeepsStruct(c, s, t, op);
    case Go(spurious) =>
      var pc := s.running[t].pc;
      if pc.AtProbe? || pc.AtAction? || pc.Claiming? { ProbeKeepsStruct(c, s, t, spurious); }
      else if pc.AtBucket? || pc.Swapping? {
        assert CallOk(c, s.buckets, s.running[t]);
        ValueKeepsStruct(c, s, Step(c, s, t, a), t, pc.b);
      }
      else { TailKeepsStruct(c, s, t, spurious); }
  }
}
