/** The concurrent table is linearizable to a map, and its counters count. */
module TableProofs {
  import opened Basics
  import opened Probing
  import opened Linearization
  import opened TableMachine

  ghost function AbsOf(s: State): Abs {
    Replay(MapSpec(), EMPTY, Effects(s.hist))
  }

  ghost predicate ValuesMapped(bs: seq<Bucket>, m: map<Key, nat>) {
    && (forall b: nat | b < |bs| && bs[b].k.None? :: bs[b].v.Null?)
    && (forall b: nat | b < |bs| && bs[b].k.Some? && bs[b].v.Ref? ::
          bs[b].k.value.text in m && m[bs[b].k.value.text] == bs[b].v.ptr)
  }

  ghost predicate MapBacked(bs: seq<Bucket>, m: map<Key, nat>) {
    forall k | k in m :: exists b: nat :: KeyAt(bs, b, k) && bs[b].v.Ref?
  }

  ghost predicate RepsBacked(bs: seq<Bucket>, reps: map<Key, KeyRef>) {
    forall k | k in reps :: exists b: nat :: KeyAt(bs, b, k) && bs[b].k.value == reps[k]
  }

  /** The buckets hold exactly the abstract table. */
  ghost predicate Represents(bs: seq<Bucket>, a: Abs) {
    ValuesMapped(bs, a.m) && MapBacked(bs, a.m) && RepsBacked(bs, a.reps)
  }

  /** What the bucket of a key says about the abstract table. */
  lemma Lookup(c: Config, bs: seq<Bucket>, a: Abs, b: nat, key: Key)
    requires AllPlaced(c, bs) && Represents(bs, a) && KeyAt(bs, b, key)
    ensures key in a.m <==> bs[b].v.Ref?
    ensures key in a.m ==> a.m[key] == bs[b].v.ptr
    ensures key in a.reps ==> a.reps[key] == bs[b].k.value
  {
    if key in a.m {
      var x: nat :| KeyAt(bs, x, key) && bs[x].v.Ref?;
      KeysUnique(c, bs, x, b, key);
    }
    if key in a.reps {
      var x: nat :| KeyAt(bs, x, key) && bs[x].k.value == a.reps[key];
      KeysUnique(c, bs, x, b, key);
    }
  }

  /** A key in no bucket is unknown to the abstract table. */
  lemma Absent(c: Config, bs: seq<Bucket>, a: Abs, key: Key, j: nat)
    requires AllPlaced(c, bs) && Represents(bs, a) && Passed(c, bs, key, j)
    requires j >= Size(c) || bs[Probe(c, key, j)].k.None?
    ensures key !in a.m && key !in a.reps
  {
    forall b: nat ensures !KeyAt(bs, b, key) { NullProvesAbsence(c, bs, key, j, b); }
  }

  ghost function WrittenMap(m: map<Key, nat>, key: Key, v: ValueRef): map<Key, nat> {
    if v.Ref? then m[key := v.ptr] else m - {key}
  }

  lemma WrittenValues(c: Config, bs: seq<Bucket>, m: map<Key, nat>, b: nat, key: Key, v: ValueRef)
    requires AllPlaced(c, bs) && ValuesMapped(bs, m) && KeyAt(bs, b, key)
    ensures ValuesMapped(PutValue(bs, b, v), WrittenMap(m, key, v))
  {
    var bs', m' := PutValue(bs, b, v), WrittenMap(m, key, v);
    forall x: nat | x < |bs'| && bs'[x].k.Some? && bs'[x].v.Ref?
      ensures bs'[x].k.value.text in m' && m'[bs'[x].k.value.text] == bs'[x].v.ptr
    {
      if bs[x].k.value.text == key {
        assert KeyAt(bs, x, key);
        KeysUnique(c, bs, x, b, key);
      }
    }
  }

  lemma WrittenBacked(bs: seq<Bucket>, m: map<Key, nat>, b: nat, key: Key, v: ValueRef)
    requires MapBacked(bs, m) && KeyAt(bs, b, key)
    ensures MapBacked(PutValue(bs, b, v), WrittenMap(m, key, v))
  {
    var bs', m' := PutValue(bs, b, v), WrittenMap(m, key, v);
    forall k | k in m' ensures exists x: nat :: KeyAt(bs', x, k) && bs'[x].v.Ref? {
      if k == key {
        assert KeyAt(bs', b, k);
      } else {
        var x: nat :| KeyAt(bs, x, k) && bs[x].v.Ref?;
        assert KeyAt(bs', x, k);
      }
    }
  }

  lemma WrittenReps(bs: seq<Bucket>, reps: map<Key, KeyRef>, b: nat, v: ValueRef)
    requires RepsBacked(bs, reps) && b < |bs|
    ensures RepsBacked(PutValue(bs, b, v), reps)
  {
    var bs' := PutValue(bs, b, v);
    forall k | k in reps ensures exists x: nat :: KeyAt(bs', x, k) && bs'[x].k.value == reps[k] {
      var x: nat :| KeyAt(bs, x, k) && bs[x].k.value == reps[k];
      assert KeyAt(bs', x, k);
    }
  }

  /** Storing to the bucket of a key writes that key in the map, and no other. */
  lemma Written(c: Config, bs: seq<Bucket>, a: Abs, b: nat, key: Key, v: ValueRef, a': Abs)
    requires AllPlaced(c, bs) && Represents(bs, a) && KeyAt(bs, b, key)
    requires a'.m == WrittenMap(a.m, key, v)
    requires a'.reps == a.reps || a'.reps == a.reps[key := bs[b].k.value]
    ensures Represents(PutValue(bs, b, v), a')
  {
    WrittenValues(c, bs, a.m, b, key, v);
    WrittenBacked(bs, a.m, b, key, v);
    WrittenReps(bs, a.reps, b, v);
    assert KeyAt(PutValue(bs, b, v), b, key);
  }

  lemma Claimed(bs: seq<Bucket>, a: Abs, b: nat, kr: KeyRef)
    requires Represents(bs, a) && b < |bs| && bs[b].k.None?
    ensures Represents(bs[b := bs[b].(k := Some(kr))], a)
  {
    var bs' := bs[b := bs[b].(k := Some(kr))];
    forall k | k in a.m ensures exists x: nat :: KeyAt(bs', x, k) && bs'[x].v.Ref? {
      var x: nat :| KeyAt(bs, x, k) && bs[x].v.Ref?;
      assert KeyAt(bs', x, k);
    }
    forall k | k in a.reps ensures exists x: nat :: KeyAt(bs', x, k) && bs'[x].k.value == a.reps[k] {
      var x: nat :| KeyAt(bs, x, k) && bs[x].k.value == a.reps[k];
      assert KeyAt(bs', x, k);
    }
  }

  /** Learning which key object stands for a key changes no value. */
  lemma Noted(bs: seq<Bucket>, a: Abs, b: nat, key: Key)
    requires Represents(bs, a) && KeyAt(bs, b, key)
    ensures Represents(bs, Abs(a.m, a.reps[key := bs[b].k.value]))
  {
    assert KeyAt(bs, b, key);
  }

  // ---------------------------------------------------------------- the history

  ghost function PhaseFor(call: Call): Phase<Op, Res> {
    match call.pc
    case Tallying(res, _, _) => Committed(call.op, res)
    case Releasing(res, _) => Committed(call.op, res)
    case Finishing(res) => Committed(call.op, res)
    case _ => Pending(call.op)
  }

  ghost predicate PhasesOk(s: State) {
    && (forall t | t in s.running ::
          s.running[t].id < s.nextId && PhaseOf(s.hist, s.running[t].id) == PhaseFor(s.running[t]))
    && (forall t, u | t in s.running && u in s.running && t != u :: s.running[t].id != s.running[u].id)
    && (forall id: nat | id >= s.nextId :: PhaseOf(s.hist, id).Unborn?)
  }

  ghost predicate HistOk(s: State) {
    && WellFormed(s.hist)
    && PhasesOk(s)
    && Legal(MapSpec(), EMPTY, Effects(s.hist))
    && Represents(s.buckets, AbsOf(s))
  }

  /** A step of `t` that appends no event. */
  lemma SilentKeeps(s: State, s': State, t: nat, pc: Pc)
    requires HistOk(s) && t in s.running && s'.hist == s.hist && s'.nextId == s.nextId
    requires s'.running == s.running[t := s.running[t].(pc := pc)]
    requires PhaseFor(s.running[t].(pc := pc)) == PhaseFor(s.running[t])
    requires Represents(s'.buckets, AbsOf(s))
    ensures HistOk(s')
  {
    assert AbsOf(s') == AbsOf(s);
  }

  /** The step at which an operation takes effect. */
  lemma EffectKeeps(s: State, t: nat, bs: seq<Bucket>, res: Res, pc: Pc)
    requires HistOk(s) && t in s.running
    requires PhaseFor(s.running[t]).Pending? && PhaseFor(s.running[t].(pc := pc)) == Committed(s.running[t].op, res)
    requires Allowed(AbsOf(s), s.running[t].op, res)
    requires Represents(bs, Apply(AbsOf(s), s.running[t].op, res))
    ensures HistOk(Effective(s, t, s.running[t], bs, res, pc))
    ensures AbsOf(Effective(s, t, s.running[t], bs, res, pc)) == Apply(AbsOf(s), s.running[t].op, res)
  {
    var call := s.running[t];
    Appended(s.hist, Commit(call.id, call.op, res));
    AppendedEffect(MapSpec(), EMPTY, Effects(s.hist), Effect(call.id, call.op, res));
  }

  lemma BeginKeeps(c: Config, s: State, t: nat, op: Op)
    requires Struct(c, s) && HistOk(s) && t !in s.running
    ensures HistOk(Step(c, s, t, Begin(op)))
  {
    Appended(s.hist, Invoke(s.nextId, op));
    assert AbsOf(Step(c, s, t, Begin(op))) == AbsOf(s);
  }

  lemma FinishKeeps(c: Config, s: State, t: nat, spurious: bool)
    requires Struct(c, s) && HistOk(s) && t in s.running && s.running[t].pc.Finishing?
    ensures HistOk(Step(c, s, t, Go(spurious)))
  {
    var call := s.running[t];
    Appended(s.hist, Return(call.id, call.pc.res));
    assert AbsOf(Step(c, s, t, Go(spurious))) == AbsOf(s);
  }

  lemma PassKeeps(c: Config, s: State, t: nat, j: nat)
    requires Struct(c, s) && HistOk(s) && t in s.running && PhaseFor(s.running[t]).Pending?
    requires j < Size(c) && Passed(c, s.buckets, s.running[t].op.Text(), j)
    requires OtherAt(s.buckets, Where(c, s.running[t], j), s.running[t].op.Text())
    ensures HistOk(Pass(c, s, t, s.running[t], j))
  {
    var call := s.running[t];
    if j + 1 < Size(c) {
      SilentKeeps(s, Pass(c, s, t, call, j), t, AtProbe(j + 1));
    } else {
      PassedMore(c, s.buckets, call.op.Text(), j);
      Absent(c, s.buckets, AbsOf(s), call.op.Text(), j + 1);
      var res := if call.op.Allocates() then Full else Miss;
      EffectKeeps(s, t, s.buckets, res, Finishing(res));
    }
  }

  lemma ProbeKeeps(c: Config, s: State, t: nat)
    requires Struct(c, s) && HistOk(s) && t in s.running && s.running[t].pc.AtProbe?
    ensures HistOk(StepProbe(c, s, t, s.running[t], s.running[t].pc.j))
  {
    var call := s.running[t];
    assert CallOk(c, s.buckets, call);
    if OtherAt(s.buckets, Where(c, call, call.pc.j), call.op.Text()) {
      PassKeeps(c, s, t, call.pc.j);
    } else {
      SilentKeeps(s, StepProbe(c, s, t, call, call.pc.j), t, AtAction(call.pc.j));
    }
  }

  lemma ActionKeeps(c: Config, s: State, t: nat)
    requires Struct(c, s) && HistOk(s) && t in s.running && s.running[t].pc.AtAction?
    ensures HistOk(StepAction(c, s, t, s.running[t], s.running[t].pc.j))
  {
    var call := s.running[t];
    var j, key := call.pc.j, call.op.Text();
    assert CallOk(c, s.buckets, call);
    var b := Where(c, call, j);
    if OtherAt(s.buckets, b, key) {
      PassKeeps(c, s, t, j);
    } else if s.buckets[b].k.Some? {
      SilentKeeps(s, StepAction(c, s, t, call, j), t, AtBucket(b));
    } else if call.op.Allocates() {
      SilentKeeps(s, StepAction(c, s, t, call, j), t, Claiming(j));
    } else {
      Absent(c, s.buckets, AbsOf(s), key, j);
      EffectKeeps(s, t, s.buckets, Miss, Finishing(Miss));
    }
  }

  lemma ClaimKeeps(c: Config, s: State, t: nat, spurious: bool)
    requires Struct(c, s) && HistOk(s) && t in s.running && s.running[t].pc.Claiming? && s.running[t].op.Allocates()
    ensures HistOk(StepClaim(c, s, t, s.running[t], s.running[t].pc.j, spurious))
  {
    var call := s.running[t];
    var j, key := call.pc.j, call.op.Text();
    assert CallOk(c, s.buckets, call);
    var b := Where(c, call, j);
    var s' := StepClaim(c, s, t, call, j, spurious);
    if OtherAt(s.buckets, b, key) {
      PassKeeps(c, s, t, j);
    } else if s.buckets[b].k.Some? {
      SilentKeeps(s, s', t, AtBucket(b));
    } else if !spurious {
      Claimed(s.buckets, AbsOf(s), b, call.op.kr);
      SilentKeeps(s, s', t, Counting(b));
    }
  }

  lemma BucketReads(c: Config, s: State, t: nat, b: nat)
    requires Struct(c, s) && HistOk(s) && t in s.running && s.running[t].pc == AtBucket(b)
    requires KeyAt(s.buckets, b, s.running[t].op.Text()) && (s.running[t].op.Find? || s.running[t].op.Replace?)
    ensures HistOk(StepBucket(s, t, s.running[t], b))
  {
    var call := s.running[t];
    var was := s.buckets[b].v;
    Lookup(c, s.buckets, AbsOf(s), b, call.op.Text());
    if call.op.Find? {
      var res := if was.Ref? then Hit(was.ptr) else Miss;
      EffectKeeps(s, t, s.buckets, res, Finishing(res));
    } else if was.Null? {
      EffectKeeps(s, t, s.buckets, Miss, Finishing(Miss));
    } else {
      SilentKeeps(s, StepBucket(s, t, call, b), t, Swapping(b, was));
    }
  }

  /** Storing `v` for an operation that allocates. */
  lemma BucketStores(c: Config, s: State, t: nat, b: nat, v: ValueRef)
    requires Struct(c, s) && HistOk(s) && t in s.running && s.running[t].pc == AtBucket(b)
    requires KeyAt(s.buckets, b, s.running[t].op.Text()) && s.running[t].op.Allocates()
    requires v == Ref(s.running[t].op.v, s.running[t].op.shared) && (s.running[t].op.Add? ==> s.buckets[b].v.Null?)
    ensures HistOk(StepBucket(s, t, s.running[t], b))
  {
    var call := s.running[t];
    var a, res := AbsOf(s), Stored(s.buckets[b].k.value);
    Lookup(c, s.buckets, a, b, call.op.Text());
    Written(c, s.buckets, a, b, call.op.Text(), v, Apply(a, call.op, res));
    EffectKeeps(s, t, PutValue(s.buckets, b, v), res, AfterChange(res, s.buckets[b].v));
  }

  lemma BucketRefuses(c: Config, s: State, t: nat, b: nat)
    requires Struct(c, s) && HistOk(s) && t in s.running && s.running[t].pc == AtBucket(b)
    requires KeyAt(s.buckets, b, s.running[t].op.Text()) && s.running[t].op.Add? && s.buckets[b].v.Ref?
    ensures HistOk(StepBucket(s, t, s.running[t], b))
  {
    var res := Existing(s.buckets[b].k.value, s.buckets[b].v.ptr);
    Lookup(c, s.buckets, AbsOf(s), b, s.running[t].op.Text());
    Noted(s.buckets, AbsOf(s), b, s.running[t].op.Text());
    EffectKeeps(s, t, s.buckets, res, Finishing(res));
  }

  lemma BucketRemoves(c: Config, s: State, t: nat, b: nat)
    requires Struct(c, s) && HistOk(s) && t in s.running && s.running[t].pc == AtBucket(b)
    requires KeyAt(s.buckets, b, s.running[t].op.Text()) && s.running[t].op.Remove?
    ensures HistOk(StepBucket(s, t, s.running[t], b))
  {
    var a, was := AbsOf(s), s.buckets[b].v;
    Lookup(c, s.buckets, a, b, s.running[t].op.Text());
    if was.Null? {
      EffectKeeps(s, t, s.buckets, Miss, Finishing(Miss));
    } else {
      Written(c, s.buckets, a, b, s.running[t].op.Text(), Null, Apply(a, s.running[t].op, Done));
      EffectKeeps(s, t, PutValue(s.buckets, b, Null), Done, Tallying(Done, -1, was));
    }
  }

  lemma BucketKeeps(c: Config, s: State, t: nat, b: nat)
    requires Struct(c, s) && HistOk(s) && t in s.running && s.running[t].pc == AtBucket(b)
    requires KeyAt(s.buckets, b, s.running[t].op.Text())
    ensures HistOk(StepBucket(s, t, s.running[t], b))
  {
    match s.running[t].op
    case Set(_, v, shared) => BucketStores(c, s, t, b, Ref(v, shared));
    case Add(_, v, shared) =>
      if s.buckets[b].v.Null? { BucketStores(c, s, t, b, Ref(v, shared)); } else { BucketRefuses(c, s, t, b); }
    case Remove(_) => BucketRemoves(c, s, t, b);
    case _ => BucketReads(c, s, t, b);
  }

  lemma SwapKeeps(c: Config, s: State, t: nat, b: nat, prev: ValueRef, spurious: bool)
    requires Struct(c, s) && HistOk(s) && t in s.running && s.running[t].pc == Swapping(b, prev)
    requires s.running[t].op.Replace? && KeyAt(s.buckets, b, s.running[t].op.key) && prev.Ref?
    ensures HistOk(StepSwap(s, t, s.running[t], b, prev, spurious))
  {
    var call := s.running[t];
    var a := AbsOf(s);
    Lookup(c, s.buckets, a, b, call.op.key);
    var cur := s.buckets[b].v;
    if cur == prev && !spurious {
      Written(c, s.buckets, a, b, call.op.key, Ref(call.op.v, false), Apply(a, call.op, Done));
      EffectKeeps(s, t, PutValue(s.buckets, b, Ref(call.op.v, false)), Done, AfterChange(Done, prev));
    } else if cur.Null? {
      EffectKeeps(s, t, s.buckets, Miss, Finishing(Miss));
    } else {
      SilentKeeps(s, StepSwap(s, t, call, b, prev, spurious), t, Swapping(b, cur));
    }
  }

  /** Every step keeps the history legal and the buckets equal to the map it replays to. */
  lemma StepKeepsHistory(c: Config, s: State, t: nat, a: Action)
    requires Struct(c, s) && HistOk(s) && Enabled(s, t, a)
    ensures HistOk(Step(c, s, t, a))
  {
    match a
    case Begin(op) => BeginKeeps(c, s, t, op);
    case Go(spurious) =>
      var call := s.running[t];
      assert CallOk(c, s.buckets, call);
      match call.pc
      case AtProbe(_) => ProbeKeeps(c, s, t);
      case AtAction(_) => ActionKeeps(c, s, t);
      case Claiming(_) => ClaimKeeps(c, s, t, spurious);
      case AtBucket(b) => BucketKeeps(c, s, t, b);
      case Swapping(b, prev) => SwapKeeps(c, s, t, b, prev, spurious);
      case Finishing(_) => FinishKeeps(c, s, t, spurious);
      case _ => SilentKeeps(s, Step(c, s, t, a), t, Step(c, s, t, a).running[t].pc);
  }

  // ---------------------------------------------------------------- the counters

  ghost function CountIf(f: Bucket -> bool, bs: seq<Bucket>): int {
    if bs == [] then 0 else CountIf(f, bs[..|bs| - 1]) + if f(bs[|bs| - 1]) then 1 else 0
  }

  ghost function Tagged(f: Call -> bool, running: map<nat, Call>): set<nat> {
    set t | t in running && f(running[t])
  }

  ghost predicate HasKey(b: Bucket) { b.k.Some? }
  ghost predicate HasValue(b: Bucket) { b.v.Ref? }
  ghost predicate IsCounting(call: Call) { call.pc.Counting? }
  ghost predicate IsAdding(call: Call) { call.pc.Tallying? && call.pc.delta == 1 }
  ghost predicate IsSubtracting(call: Call) { call.pc.Tallying? && call.pc.delta == -1 }

  ghost predicate UsageOk(s: State) {
    s.usage + |Tagged(IsCounting, s.running)| == CountIf(HasKey, s.buckets)
  }

  ghost predicate ValuesOk(s: State) {
    && s.values + |Tagged(IsAdding, s.running)| - |Tagged(IsSubtracting, s.running)| == CountIf(HasValue, s.buckets)
    && forall t | t in s.running && s.running[t].pc.Tallying? :: s.running[t].pc.delta in {1, -1}
  }

  lemma {:induction false} CountUpdate(f: Bucket -> bool, bs: seq<Bucket>, b: nat, x: Bucket)
    requires b < |bs|
    ensures CountIf(f, bs[b := x]) == CountIf(f, bs) + (if f(x) then 1 else 0) - (if f(bs[b]) then 1 else 0)
  {
    var n := |bs| - 1;
    if b < n {
      CountUpdate(f, bs[..n], b, x);
      assert bs[b := x][..n] == bs[..n][b := x];
    } else {
      assert bs[b := x][..n] == bs[..n];
    }
  }

  lemma Retagged(f: Call -> bool, running: map<nat, Call>, t: nat, call: Call)
    requires t in running
    ensures |Tagged(f, running[t := call])| ==
            |Tagged(f, running)| + (if f(call) then 1 else 0) - (if f(running[t]) then 1 else 0)
  {
    var before, after := Tagged(f, running), Tagged(f, running[t := call]);
    assert after == if f(call) then before + {t} else before - {t};
  }

  lemma Untagged(f: Call -> bool, running: map<nat, Call>, t: nat, op: Op, id: nat)
    requires !f(Call(id, op, AtProbe(0)))
    ensures t !in running ==> Tagged(f, running[t := Call(id, op, AtProbe(0))]) == Tagged(f, running)
    ensures t in running && !f(running[t]) ==> Tagged(f, running - {t}) == Tagged(f, running)
  {
  }

  /** Any step but a claim leaves the number of keys alone. */
  lemma {:induction false} SameKeyCount(bs: seq<Bucket>, bs': seq<Bucket>)
    requires |bs| == |bs'| && forall b: nat | b < |bs| :: bs[b].k == bs'[b].k
    ensures CountIf(HasKey, bs) == CountIf(HasKey, bs')
  {
    if bs != [] { SameKeyCount(bs[..|bs| - 1], bs'[..|bs'| - 1]); }
  }

  /** A step that claims no bucket moves the count only with the thread that owes it. */
  lemma NoClaimKeepsUsage(s: State, s': State, t: nat, pc: Pc)
    requires UsageOk(s) && t in s.running && !pc.Counting?
    requires |s'.buckets| == |s.buckets| && forall b: nat | b < |s.buckets| :: s.buckets[b].k == s'.buckets[b].k
    requires s'.running == s.running[t := s.running[t].(pc := pc)]
    requires s'.usage == s.usage + if s.running[t].pc.Counting? then 1 else 0
    ensures UsageOk(s')
  {
    Retagged(IsCounting, s.running, t, s.running[t].(pc := pc));
    SameKeyCount(s.buckets, s'.buckets);
  }

  lemma ClaimKeepsUsage(c: Config, s: State, t: nat, spurious: bool)
    requires Struct(c, s) && UsageOk(s) && t in s.running && s.running[t].pc.Claiming? && s.running[t].op.Allocates()
    ensures UsageOk(StepClaim(c, s, t, s.running[t], s.running[t].pc.j, spurious))
  {
    var call := s.running[t];
    var s' := StepClaim(c, s, t, call, call.pc.j, spurious);
    var b := Where(c, call, call.pc.j);
    Retagged(IsCounting, s.running, t, s'.running[t]);
    CountUpdate(HasKey, s.buckets, b, s'.buckets[b]);
    assert s'.buckets == s.buckets[b := s'.buckets[b]];
  }

  lemma BucketKeepsUsage(s: State, t: nat, b: nat)
    requires UsageOk(s) && t in s.running && s.running[t].pc == AtBucket(b) && b < |s.buckets| && s.buckets[b].k.Some?
    ensures UsageOk(StepBucket(s, t, s.running[t], b))
  {
    var s' := StepBucket(s, t, s.running[t], b);
    NoClaimKeepsUsage(s, s', t, s'.running[t].pc);
  }

  predicate IsOther(pc: Pc) { !pc.Finishing? && !pc.Claiming? && !pc.AtBucket? }

  lemma OtherKeepsUsage(c: Config, s: State, t: nat, spurious: bool)
    requires Struct(c, s) && UsageOk(s) && t in s.running && IsOther(s.running[t].pc)
    ensures UsageOk(Step(c, s, t, Go(spurious)))
  {
    assert CallOk(c, s.buckets, s.running[t]);
    var s' := Step(c, s, t, Go(spurious));
    NoClaimKeepsUsage(s, s', t, s'.running[t].pc);
  }

  lemma StepKeepsUsage(c: Config, s: State, t: nat, a: Action)
    requires Struct(c, s) && UsageOk(s) && Enabled(s, t, a)
    ensures UsageOk(Step(c, s, t, a))
  {
    var s' := Step(c, s, t, a);
    match a
    case Begin(op) => Untagged(IsCounting, s.running, t, op, s.nextId);
    case Go(spurious) =>
      var call := s.running[t];
      assert CallOk(c, s.buckets, call);
      match call.pc
      case Finishing(_) => Untagged(IsCounting, s.running, t, call.op, 0);
      case Claiming(_) => ClaimKeepsUsage(c, s, t, spurious);
      case AtBucket(b) => BucketKeepsUsage(s, t, b);
      case _ => OtherKeepsUsage(c, s, t, spurious);
  }

  lemma RetaggedValues(s: State, s': State, t: nat, pc: Pc)
    requires ValuesOk(s) && t in s.running && s'.running == s.running[t := s.running[t].(pc := pc)]
    ensures |Tagged(IsAdding, s'.running)| - |Tagged(IsSubtracting, s'.running)| ==
            |Tagged(IsAdding, s.running)| - |Tagged(IsSubtracting, s.running)|
            + Owed(pc) - Owed(s.running[t].pc)
  {
    Retagged(IsAdding, s.running, t, s.running[t].(pc := pc));
    Retagged(IsSubtracting, s.running, t, s.running[t].(pc := pc));
  }

  /** The change to `value_count` a thread still has to make. */
  ghost function Owed(pc: Pc): int {
    if pc.Tallying? && pc.delta == 1 then 1 else if pc.Tallying? && pc.delta == -1 then -1 else 0
  }

  lemma ValueWrite(s: State, s': State, t: nat, b: nat, v: ValueRef, pc: Pc)
    requires ValuesOk(s) && t in s.running && !s.running[t].pc.Tallying? && b < |s.buckets|
    requires s'.buckets == PutValue(s.buckets, b, v) && s'.values == s.values
    requires s'.running == s.running[t := s.running[t].(pc := pc)]
    requires Owed(pc) == (if v.Ref? then 1 else 0) - (if s.buckets[b].v.Ref? then 1 else 0)
    requires pc.Tallying? ==> pc.delta in {1, -1}
    ensures ValuesOk(s')
  {
    RetaggedValues(s, s', t, pc);
    CountUpdate(HasValue, s.buckets, b, s.buckets[b].(v := v));
  }

  lemma {:induction false} SameValueCount(bs: seq<Bucket>, bs': seq<Bucket>)
    requires |bs| == |bs'| && forall b: nat | b < |bs| :: bs[b].v == bs'[b].v
    ensures CountIf(HasValue, bs) == CountIf(HasValue, bs')
  {
    if bs != [] { SameValueCount(bs[..|bs| - 1], bs'[..|bs'| - 1]); }
  }

  lemma BucketKeepsValues(s: State, t: nat, b: nat)
    requires ValuesOk(s) && t in s.running && s.running[t].pc == AtBucket(b) && b < |s.buckets| && s.buckets[b].k.Some?
    ensures ValuesOk(StepBucket(s, t, s.running[t], b))
  {
    var s' := StepBucket(s, t, s.running[t], b);
    assert PutValue(s.buckets, b, s.buckets[b].v) == s.buckets;
    ValueWrite(s, s', t, b, s'.buckets[b].v, s'.running[t].pc);
  }

  lemma SwapKeepsValues(s: State, t: nat, b: nat, prev: ValueRef, spurious: bool)
    requires ValuesOk(s) && t in s.running && s.running[t].pc == Swapping(b, prev) && b < |s.buckets|
    requires s.running[t].op.Replace? && prev.Ref?
    ensures ValuesOk(StepSwap(s, t, s.running[t], b, prev, spurious))
  {
    var s' := StepSwap(s, t, s.running[t], b, prev, spurious);
    assert PutValue(s.buckets, b, s.buckets[b].v) == s.buckets;
    ValueWrite(s, s', t, b, s'.buckets[b].v, s'.running[t].pc);
  }

  /** A step that stores no value moves the count only with the thread that owes it. */
  lemma NoWriteKeepsValues(s: State, s': State, t: nat, pc: Pc)
    requires ValuesOk(s) && t in s.running && !pc.Tallying?
    requires |s'.buckets| == |s.buckets| && forall b: nat | b < |s.buckets| :: s.buckets[b].v == s'.buckets[b].v
    requires s'.running == s.running[t := s.running[t].(pc := pc)]
    requires s'.values == s.values + Owed(s.running[t].pc)
    ensures ValuesOk(s')
  {
    RetaggedValues(s, s', t, pc);
    SameValueCount(s.buckets, s'.buckets);
  }

  lemma ClaimKeepsValues(c: Config, s: State, t: nat, spurious: bool)
    requires Struct(c, s) && ValuesOk(s) && t in s.running && s.running[t].pc.Claiming? && s.running[t].op.Allocates()
    ensures ValuesOk(StepClaim(c, s, t, s.running[t], s.running[t].pc.j, spurious))
  {
    var s' := StepClaim(c, s, t, s.running[t], s.running[t].pc.j, spurious);
    NoWriteKeepsValues(s, s', t, s'.running[t].pc);
  }

  lemma OtherKeepsValues(c: Config, s: State, t: nat, spurious: bool)
    requires Struct(c, s) && ValuesOk(s) && t in s.running && IsOther(s.running[t].pc) && !s.running[t].pc.Swapping?
    ensures ValuesOk(Step(c, s, t, Go(spurious)))
  {
    assert CallOk(c, s.buckets, s.running[t]);
    var s' := Step(c, s, t, Go(spurious));
    NoWriteKeepsValues(s, s', t, s'.running[t].pc);
  }

  lemma StepKeepsValues(c: Config, s: State, t: nat, a: Action)
    requires Struct(c, s) && ValuesOk(s) && Enabled(s, t, a)
    ensures ValuesOk(Step(c, s, t, a))
  {
    var s' := Step(c, s, t, a);
    match a
    case Begin(op) =>
      Untagged(IsAdding, s.running, t, op, s.nextId);
      Untagged(IsSubtracting, s.running, t, op, s.nextId);
    case Go(spurious) =>
      var call := s.running[t];
      assert CallOk(c, s.buckets, call);
      match call.pc
      case AtBucket(b) => BucketKeepsValues(s, t, b);
      case Swapping(b, prev) => SwapKeepsValues(s, t, b, prev, spurious);
      case Finishing(_) =>
        Untagged(IsAdding, s.running, t, call.op, 0);
        Untagged(IsSubtracting, s.running, t, call.op, 0);
      case Claiming(_) => ClaimKeepsValues(c, s, t, spurious);
      case _ => OtherKeepsValues(c, s, t, spurious);
  }

  // ---------------------------------------------------------------- whole runs

  ghost function Init(c: Config): State {
    State(seq(Size(c), _ => Bucket(None, Null)), 0, 0, map[], 0, [])
  }

  ghost predicate Inv(c: Config, s: State) {
    Struct(c, s) && HistOk(s) && UsageOk(s) && ValuesOk(s)
  }

  /** A run of the table: states joined by steps of any threads in any order. */
  ghost predicate IsRun(c: Config, run: seq<State>) {
    && run != [] && run[0] == Init(c)
    && forall i: nat | i + 1 < |run| :: Moves(c, run[i], run[i + 1])
  }

  ghost predicate Moves(c: Config, s: State, s': State) {
    Struct(c, s) && exists t: nat, a: Action :: Enabled(s, t, a) && Step(c, s, t, a) == s'
  }

  lemma {:induction false} EmptyCounts(bs: seq<Bucket>)
    requires forall b: nat | b < |bs| :: bs[b] == Bucket(None, Null)
    ensures CountIf(HasKey, bs) == 0 && CountIf(HasValue, bs) == 0
  {
    if bs != [] { EmptyCounts(bs[..|bs| - 1]); }
  }

  lemma InitInv(c: Config)
    ensures Inv(c, Init(c))
  {
    var s := Init(c);
    EmptyCounts(s.buckets);
    assert Tagged(IsCounting, s.running) == {} && Tagged(IsAdding, s.running) == {}
        && Tagged(IsSubtracting, s.running) == {};
  }

  lemma StepKeepsInv(c: Config, s: State, t: nat, a: Action)
    requires Inv(c, s) && Enabled(s, t, a)
    ensures Inv(c, Step(c, s, t, a))
  {
    StepKeepsStruct(c, s, t, a);
    StepKeepsHistory(c, s, t, a);
    StepKeepsUsage(c, s, t, a);
    StepKeepsValues(c, s, t, a);
  }

  lemma {:induction false} RunInv(c: Config, run: seq<State>)
    requires IsRun(c, run)
    ensures Inv(c, run[|run| - 1])
    decreases |run|
  {
    var n := |run| - 1;
    if n == 0 {
      InitInv(c);
    } else {
      RunInv(c, run[..n]);
      assert Moves(c, run[n - 1], run[n]);
      var t: nat, a: Action :| Enabled(run[n - 1], t, a) && Step(c, run[n - 1], t, a) == run[n];
      StepKeepsInv(c, run[n - 1], t, a);
    }
  }

  /** The machine never blocks: any enabled action extends any run, so runs range over all interleavings. */
  lemma RunExtends(c: Config, run: seq<State>, t: nat, a: Action)
    requires IsRun(c, run) && Enabled(run[|run| - 1], t, a)
    ensures Struct(c, run[|run| - 1]) && IsRun(c, run + [Step(c, run[|run| - 1], t, a)])
  {
    RunInv(c, run);
    var s := run[|run| - 1];
    var more := run + [Step(c, s, t, a)];
    forall i: nat | i + 1 < |more| ensures Moves(c, more[i], more[i + 1]) {
      if i + 1 < |run| { assert Moves(c, run[i], run[i + 1]); }
    }
  }

  /** Every run of the table is linearizable to a map. */
  lemma TableLinearizable(c: Config, run: seq<State>)
    requires IsRun(c, run)
    ensures Linearizable(MapSpec(), EMPTY, run[|run| - 1].hist)
  {
    RunInv(c, run);
    LinearizationPoints(MapSpec(), EMPTY, run[|run| - 1].hist);
  }

  /** In every reachable state: equal keys share a bucket; a null on a probe path whose earlier
      probes hold other keys proves absence; and the two counters, corrected by the threads that
      have yet to update them, are exact. */
  lemma ReachableTable(c: Config, run: seq<State>)
    requires IsRun(c, run)
    ensures var s := run[|run| - 1];
            && (forall a: nat, b: nat, k | KeyAt(s.buckets, a, k) && KeyAt(s.buckets, b, k) :: a == b)
            && (forall b: nat | b < |s.buckets| && s.buckets[b].k.Some? ::
                  exists j: nat :: PlacedAt(c, s.buckets, b, j))
            && s.usage + |Tagged(IsCounting, s.running)| == CountIf(HasKey, s.buckets)
            && s.values + |Tagged(IsAdding, s.running)| - |Tagged(IsSubtracting, s.running)| ==
               CountIf(HasValue, s.buckets)
    ensures var s := run[|run| - 1];
            forall k: Key, j: nat, b: nat | Passed(c, s.buckets, k, j) && j < Size(c) && KeyAt(s.buckets, b, k) ::
              s.buckets[Probe(c, k, j)].k.Some?
  {
    RunInv(c, run);
    var s := run[|run| - 1];
    forall a: nat, b: nat, k | KeyAt(s.buckets, a, k) && KeyAt(s.buckets, b, k) ensures a == b {
      KeysUnique(c, s.buckets, a, b, k);
    }
    forall k: Key, j: nat, b: nat | Passed(c, s.buckets, k, j) && j < Size(c) && KeyAt(s.buckets, b, k)
      ensures s.buckets[Probe(c, k, j)].k.Some?
    {
      if s.buckets[Probe(c, k, j)].k.None? { NullProvesAbsence(c, s.buckets, k, j, b); }
    }
  }
}
