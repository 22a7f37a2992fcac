/** What a thread of the concurrent table achieves: it is refused only when every probe of its key is taken, and
from any moment on at which nothing interrupts it, its call ends, having done what the operation does alone. */
module TableSolo {
  import opened Basics
  import opened Probing
  import opened Linearization
  import opened TableMachine
  import opened TableAlone
  import Proofs = TableProofs

  // ---------------------------------------------------------------- being refused

  lemma StepFull(c: Config, s: State, t: nat, a: Action, id: nat, op: Op)
    requires Struct(c, s) && Enabled(s, t, a) && Step(c, s, t, a).hist == s.hist + [Commit(id, op, Full)]
    ensures op.Allocates() && Passed(c, s.buckets, op.Text(), Size(c))
  {
    assert Step(c, s, t, a).hist[|s.hist|] == Commit(id, op, Full);
    if a.Go? { StepFullPassed(c, s, t, a.spurious, id, op); }
  }

  lemma StepFullPassed(c: Config, s: State, t: nat, spurious: bool, id: nat, op: Op)
    requires Struct(c, s) && t in s.running
    requires var h := Step(c, s, t, Go(spurious)).hist; |h| == |s.hist| + 1 && h[|s.hist|] == Commit(id, op, Full)
    ensures op.Allocates() && Passed(c, s.buckets, op.Text(), Size(c))
  {
    var call := s.running[t];
    assert CallOk(c, s.buckets, call);
    if call.pc.AtProbe? || call.pc.AtAction? || call.pc.Claiming? {
      PassedMore(c, s.buckets, call.op.Text(), call.pc.j);
    }
  }

  /** Over every run, a set or add is refused only at a step at which every probe of its key ends at a bucket with
      another key. */
  lemma FullMeansTaken(c: Config, run: seq<State>, i: nat, id: nat, op: Op)
    requires Proofs.IsRun(c, run) && i + 1 < |run| && run[i + 1].hist == run[i].hist + [Commit(id, op, Full)]
    ensures op.Allocates() && Passed(c, run[i].buckets, op.Text(), Size(c))
  {
    Proofs.RunInv(c, run[..i + 1]);
    assert Proofs.Moves(c, run[i], run[i + 1]);
    var t: nat, a: Action :| Enabled(run[i], t, a) && Step(c, run[i], t, a) == run[i + 1];
    StepFull(c, run[i], t, a, id, op);
  }

  // ---------------------------------------------------------------- running alone

  ghost predicate Steps(c: Config, s: State, s': State, t: nat) {
    Struct(c, s) && t in s.running && Step(c, s, t, Go(false)) == s'
  }

  ghost predicate IsTrace(c: Config, tr: seq<State>, t: nat) {
    tr != [] && forall i: nat | i + 1 < |tr| :: Steps(c, tr[i], tr[i + 1], t)
  }

  /** Steps of `t` alone, none of which fails without reason, lead from `s` to `s'`. */
  ghost predicate Leads(c: Config, s: State, s': State, t: nat) {
    exists tr :: IsTrace(c, tr, t) && tr[0] == s && tr[|tr| - 1] == s'
  }

  lemma LeadsOne(c: Config, s: State, t: nat)
    requires Struct(c, s) && t in s.running
    ensures var s' := Step(c, s, t, Go(false)); Leads(c, s, s', t) && Struct(c, s')
  {
    var s' := Step(c, s, t, Go(false));
    var tr := [s, s'];
    assert IsTrace(c, tr, t) && tr[0] == s && tr[|tr| - 1] == s';
    StepKeepsStruct(c, s, t, Go(false));
  }

  lemma LeadsOn(c: Config, s: State, m: State, s': State, t: nat)
    requires Leads(c, s, m, t) && Leads(c, m, s', t)
    ensures Leads(c, s, s', t)
  {
    var a :| IsTrace(c, a, t) && a[0] == s && a[|a| - 1] == m;
    var b :| IsTrace(c, b, t) && b[0] == m && b[|b| - 1] == s';
    var tr := a + b[1..];
    forall i: nat | i + 1 < |tr| ensures Steps(c, tr[i], tr[i + 1], t) {
      if i + 1 < |a| { assert Steps(c, a[i], a[i + 1], t); }
      else { assert Steps(c, b[i + 1 - |a|], b[i + 2 - |a|], t); }
    }
    assert IsTrace(c, tr, t) && tr[0] == s && tr[|tr| - 1] == s';
  }

  /** `t` stands at `pc` in `s'` and nothing else has happened to its call since `s`. */
  ghost predicate At(s: State, s': State, t: nat, pc: Pc)
    requires t in s.running
  {
    t in s'.running && s'.running[t] == s.running[t].(pc := pc)
  }

  ghost predicate Reaches(c: Config, s: State, s': State, t: nat, pc: Pc, bs: seq<Bucket>)
    requires t in s.running
  {
    Struct(c, s') && Leads(c, s, s', t) && At(s, s', t, pc) && s'.buckets == bs
  }

  /** Where the probing of a pending call ends: at the bucket of its key, claimed if it was free; or, if the key has
      no bucket and can get none, with the result. */
  ghost function AfterProbing(c: Config, bs: seq<Bucket>, op: Op): (Pc, seq<Bucket>)
    requires |bs| == Size(c)
  {
    var at := FirstStop(c, bs, op.Text(), 0);
    if at.Some? && bs[at.value].k.Some? then (AtBucket(at.value), bs)
    else if at.None? then (Finishing(if op.Allocates() then Full else Miss), bs)
    else if op.Allocates() then (AtBucket(at.value), bs[at.value := bs[at.value].(k := Some(op.kr))])
    else (Finishing(Miss), bs)
  }

  /** From the load of a key slot in the action. */
  lemma ActionAlone(c: Config, s: State, t: nat) returns (s': State)
    requires Struct(c, s) && t in s.running && s.running[t].pc.AtAction?
    requires var op := s.running[t].op; !OtherAt(s.buckets, Probe(c, op.Text(), s.running[t].pc.j), op.Text())
    ensures var (pc, bs) := AfterProbing(c, s.buckets, s.running[t].op); Reaches(c, s, s', t, pc, bs)
  {
    var call := s.running[t];
    var key, j := call.op.Text(), call.pc.j;
    assert CallOk(c, s.buckets, call);
    StopsAt(c, s.buckets, key, 0, j);
    s' := Step(c, s, t, Go(false));
    LeadsOne(c, s, t);
    if s'.running[t].pc.Claiming? {
      var m := s';
      s' := ClaimAlone(c, m, t);
      LeadsOn(c, s, m, s', t);
    }
  }

  /** The claim of a free bucket, and the counting. */
  lemma ClaimAlone(c: Config, s: State, t: nat) returns (s': State)
    requires Struct(c, s) && t in s.running && s.running[t].pc.Claiming?
    requires var op := s.running[t].op; !OtherAt(s.buckets, Probe(c, op.Text(), s.running[t].pc.j), op.Text())
    ensures var (pc, bs) := AfterProbing(c, s.buckets, s.running[t].op); Reaches(c, s, s', t, pc, bs)
  {
    var call := s.running[t];
    assert CallOk(c, s.buckets, call);
    StopsAt(c, s.buckets, call.op.Text(), 0, call.pc.j);
    s' := Step(c, s, t, Go(false));
    LeadsOne(c, s, t);
    if s'.running[t].pc.Counting? {
      var m := s';
      s' := Step(c, m, t, Go(false));
      LeadsOne(c, m, t);
      LeadsOn(c, s, m, s', t);
    }
  }

  lemma {:induction false} ProbingAlone(c: Config, s: State, t: nat) returns (s': State)
    requires Struct(c, s) && t in s.running
    requires s.running[t].pc.AtProbe? || s.running[t].pc.AtAction? || s.running[t].pc.Claiming?
    ensures var (pc, bs) := AfterProbing(c, s.buckets, s.running[t].op); Reaches(c, s, s', t, pc, bs)
    decreases Size(c) - s.running[t].pc.j, if s.running[t].pc.AtProbe? then 1 else 0
  {
    var call := s.running[t];
    var key, j := call.op.Text(), call.pc.j;
    assert CallOk(c, s.buckets, call);
    if OtherAt(s.buckets, Probe(c, key, j), key) {
      PassedMore(c, s.buckets, key, j);
      if j + 1 == Size(c) { StopsAt(c, s.buckets, key, 0, Size(c)); }
      s' := Step(c, s, t, Go(false));
      LeadsOne(c, s, t);
      if s'.running[t].pc.AtProbe? {
        var m := s';
        s' := ProbingAlone(c, m, t);
        LeadsOn(c, s, m, s', t);
      }
    } else if call.pc.AtProbe? {
      var m := Step(c, s, t, Go(false));
      LeadsOne(c, s, t);
      s' := ActionAlone(c, m, t);
      LeadsOn(c, s, m, s', t);
    } else if call.pc.AtAction? {
      s' := ActionAlone(c, s, t);
    } else {
      s' := ClaimAlone(c, s, t);
    }
  }

  // ---------------------------------------------------------------- to the end

  /** `t`'s call is over, and returned `res`. */
  ghost predicate Ends(c: Config, s: State, s': State, t: nat, bs: seq<Bucket>, res: Res)
    requires t in s.running
  {
    && Struct(c, s') && Leads(c, s, s', t) && t !in s'.running && s'.buckets == bs
    && s'.hist != [] && s'.hist[|s'.hist| - 1] == Return(s.running[t].id, res)
  }

  lemma EndsOn(c: Config, s: State, m: State, s': State, t: nat, pc: Pc, mid: seq<Bucket>, bs: seq<Bucket>, res: Res)
    requires t in s.running && Reaches(c, s, m, t, pc, mid) && Ends(c, m, s', t, bs, res)
    ensures Ends(c, s, s', t, bs, res)
  {
    LeadsOn(c, s, m, s', t);
  }

  predicate IsCommitted(pc: Pc) { pc.Tallying? || pc.Releasing? || pc.Finishing? }

  /** What is left once the operation has taken effect changes no bucket. */
  lemma {:induction false} FinishAlone(c: Config, s: State, t: nat) returns (s': State)
    requires Struct(c, s) && t in s.running && IsCommitted(s.running[t].pc)
    ensures Ends(c, s, s', t, s.buckets, s.running[t].pc.res)
    decreases if s.running[t].pc.Tallying? then 2 else if s.running[t].pc.Releasing? then 1 else 0
  {
    s' := Step(c, s, t, Go(false));
    LeadsOne(c, s, t);
    if t in s'.running {
      var m := s';
      s' := FinishAlone(c, m, t);
      LeadsOn(c, s, m, s', t);
    }
  }

  /** What an operation makes of a bucket with its key, and what it returns. */
  function Outcome(x: Bucket, op: Op): (ValueRef, Res)
    requires x.k.Some?
  {
    match op
    case Find(_) => (x.v, if x.v.Ref? then Hit(x.v.ptr) else Miss)
    case Set(_, v, shared) => (Ref(v, shared), Stored(x.k.value))
    case Add(_, v, shared) =>
      if x.v.Null? then (Ref(v, shared), Stored(x.k.value)) else (x.v, Existing(x.k.value, x.v.ptr))
    case Replace(_, v) => if x.v.Null? then (x.v, Miss) else (Ref(v, false), Done)
    case Remove(_) => if x.v.Null? then (x.v, Miss) else (Null, Done)
  }

  lemma SwapAlone(c: Config, s: State, t: nat) returns (s': State)
    requires Struct(c, s) && t in s.running && s.running[t].pc.Swapping?
    ensures var b := s.running[t].pc.b;
            && b < |s.buckets| && s.buckets[b].k.Some?
            && var (v, res) := Outcome(s.buckets[b], s.running[t].op);
               Ends(c, s, s', t, PutValue(s.buckets, b, v), res)
    decreases if s.running[t].pc.prev == s.buckets[s.running[t].pc.b].v then 0 else 1
  {
    assert CallOk(c, s.buckets, s.running[t]);
    var m := Step(c, s, t, Go(false));
    LeadsOne(c, s, t);
    if m.running[t].pc.Swapping? { s' := SwapAlone(c, m, t); } else { s' := FinishAlone(c, m, t); }
    LeadsOn(c, s, m, s', t);
  }

  lemma BucketAlone(c: Config, s: State, t: nat) returns (s': State)
    requires Struct(c, s) && t in s.running && s.running[t].pc.AtBucket?
    ensures var b := s.running[t].pc.b;
            && b < |s.buckets| && s.buckets[b].k.Some?
            && var (v, res) := Outcome(s.buckets[b], s.running[t].op);
               Ends(c, s, s', t, PutValue(s.buckets, b, v), res)
  {
    assert CallOk(c, s.buckets, s.running[t]);
    var m := Step(c, s, t, Go(false));
    LeadsOne(c, s, t);
    if m.running[t].pc.Swapping? { s' := SwapAlone(c, m, t); } else { s' := FinishAlone(c, m, t); }
    LeadsOn(c, s, m, s', t);
    assert PutValue(s.buckets, s.running[t].pc.b, s.buckets[s.running[t].pc.b].v) == s.buckets;
  }

  lemma CountAlone(c: Config, s: State, t: nat) returns (s': State)
    requires Struct(c, s) && t in s.running && s.running[t].pc.Counting?
    ensures Reaches(c, s, s', t, AtBucket(s.running[t].pc.b), s.buckets)
  {
    s' := Step(c, s, t, Go(false));
    LeadsOne(c, s, t);
  }

  /** The outcome at the bucket of the key is that of the operation alone. */
  lemma OutcomeAlone(c: Config, bs: seq<Bucket>, op: Op, b: nat)
    requires AllPlaced(c, bs) && KeyAt(bs, b, op.Text())
    ensures var (v, res) := Outcome(bs[b], op); Alone(c, bs, op) == (PutValue(bs, b, v), res)
  {
    StopsAtKey(c, bs, op.Text(), b);
    assert PutValue(bs, b, bs[b].v) == bs;
  }

  /** What is left to do at `pc` gives the result. */
  ghost predicate Gives(bs: seq<Bucket>, pc: Pc, op: Op, result: (seq<Bucket>, Res)) {
    if pc.Finishing? then result == (bs, pc.res)
    else
      && pc.AtBucket? && pc.b < |bs| && bs[pc.b].k.Some?
      && var (v, res) := Outcome(bs[pc.b], op); result == (PutValue(bs, pc.b, v), res)
  }

  lemma NewKeyAlone(c: Config, bs: seq<Bucket>, op: Op, b: nat)
    requires |bs| == Size(c) && FirstStop(c, bs, op.Text(), 0) == Some(b) && op.Allocates()
    requires bs[b].k.None? && bs[b].v.Null?
    ensures Gives(bs[b := bs[b].(k := Some(op.kr))], AtBucket(b), op, Alone(c, bs, op))
  {
    var mid := bs[b := bs[b].(k := Some(op.kr))];
    assert PutValue(mid, b, Ref(op.v, op.shared)) == bs[b := Bucket(Some(op.kr), Ref(op.v, op.shared))];
  }

  lemma ProbedGives(c: Config, bs: seq<Bucket>, op: Op)
    requires AllPlaced(c, bs) && FreeIsEmpty(bs)
    ensures var (pc, mid) := AfterProbing(c, bs, op); Gives(mid, pc, op, Alone(c, bs, op))
  {
    var at := FirstStop(c, bs, op.Text(), 0);
    if at.Some? {
      StopIsOurs(c, bs, op.Text(), 0);
      if bs[at.value].k.Some? { OutcomeAlone(c, bs, op, at.value); }
      else if op.Allocates() { NewKeyAlone(c, bs, op, at.value); }
    }
  }

  /** From any reachable state, a call that has not taken effect yet and is not interrupted from then on ends, with
      the buckets and the result of the operation alone. */
  lemma PendingAlone(c: Config, s: State, t: nat) returns (s': State)
    requires Struct(c, s) && FreeIsEmpty(s.buckets) && t in s.running && !IsCommitted(s.running[t].pc)
    ensures var (bs, res) := Alone(c, s.buckets, s.running[t].op); Ends(c, s, s', t, bs, res)
  {
    var call := s.running[t];
    assert CallOk(c, s.buckets, call);
    if call.pc.AtBucket? {
      s' := BucketAlone(c, s, t);
      OutcomeAlone(c, s.buckets, call.op, call.pc.b);
    } else if call.pc.Swapping? {
      s' := SwapAlone(c, s, t);
      OutcomeAlone(c, s.buckets, call.op, call.pc.b);
    } else if call.pc.Counting? {
      var m := CountAlone(c, s, t);
      s' := BucketAlone(c, m, t);
      LeadsOn(c, s, m, s', t);
      OutcomeAlone(c, s.buckets, call.op, call.pc.b);
    } else {
      s' := ProbedAlone(c, s, t);
    }
  }

  lemma ProbedAlone(c: Config, s: State, t: nat) returns (s': State)
    requires Struct(c, s) && FreeIsEmpty(s.buckets) && t in s.running
    requires s.running[t].pc.AtProbe? || s.running[t].pc.AtAction? || s.running[t].pc.Claiming?
    ensures var (bs, res) := Alone(c, s.buckets, s.running[t].op); Ends(c, s, s', t, bs, res)
  {
    var m := ProbingAlone(c, s, t);
    ProbedGives(c, s.buckets, s.running[t].op);
    if m.running[t].pc.Finishing? { s' := FinishAlone(c, m, t); } else { s' := BucketAlone(c, m, t); }
    LeadsOn(c, s, m, s', t);
  }

  /** Over every run, a call that is not interrupted from the end of the run on ends. If it has not taken effect, it
      does what the operation does alone: in particular a set stores its value unless every probe is taken. */
  lemma EndsAlone(c: Config, run: seq<State>, t: nat) returns (s': State)
    requires Proofs.IsRun(c, run) && t in run[|run| - 1].running
    ensures var s := run[|run| - 1]; var call := s.running[t];
            && |s.buckets| == Size(c)
            && if IsCommitted(call.pc) then Ends(c, s, s', t, s.buckets, call.pc.res)
               else Ends(c, s, s', t, Alone(c, s.buckets, call.op).0, Alone(c, s.buckets, call.op).1)
  {
    Proofs.RunInv(c, run);
    var s := run[|run| - 1];
    if IsCommitted(s.running[t].pc) { s' := FinishAlone(c, s, t); } else { s' := PendingAlone(c, s, t); }
  }

  // ---------------------------------------------------------------- histories and actions

  /** The states of a run and the actions between them. */
  ghost predicate IsActed(c: Config, run: seq<State>, acts: seq<(nat, Action)>) {
    && run != [] && |acts| == |run| - 1 && run[0] == Proofs.Init(c)
    && forall i: nat | i < |acts| :: ActsAt(c, run, acts, i)
  }

  ghost predicate ActsAt(c: Config, run: seq<State>, acts: seq<(nat, Action)>, i: nat) {
    && i + 1 < |run| && i < |acts| && Struct(c, run[i]) && Enabled(run[i], acts[i].0, acts[i].1)
    && Step(c, run[i], acts[i].0, acts[i].1) == run[i + 1]
  }

  /** The operations begun, in order. */
  ghost function Begun(acts: seq<(nat, Action)>): seq<Op> {
    if acts == [] then []
    else Begun(acts[..|acts| - 1]) + if acts[|acts| - 1].1.Begin? then [acts[|acts| - 1].1.op] else []
  }

  /** A step records the invocation of what it begins, for the thread that begins it, and no other. */
  lemma StepInvokes(c: Config, s: State, t: nat, a: Action)
    requires Struct(c, s) && Enabled(s, t, a)
    ensures var s' := Step(c, s, t, a);
            && Invoked(s'.hist) == Invoked(s.hist) + (if a.Begin? then [a.op] else [])
            && (a.Begin? ==> t in s'.running && s'.running[t].op == a.op && s'.running[t].id == s.nextId)
            && forall u | u != t && u in s.running :: u in s'.running && s'.running[u] == s.running[u]
  {
    var s' := Step(c, s, t, a);
    if a.Go? { assert CallOk(c, s.buckets, s.running[t]); }
    if s'.hist != s.hist {
      assert s'.hist == s.hist + [s'.hist[|s.hist|]];
      InvokedMore(s.hist, s'.hist[|s.hist|]);
    }
  }

  /** The history speaks of the operations that threads began: its invocations are exactly these, in order. */
  lemma {:induction false} HistoryIsActions(c: Config, run: seq<State>, acts: seq<(nat, Action)>)
    requires IsActed(c, run, acts)
    ensures Invoked(run[|run| - 1].hist) == Begun(acts)
    decreases |acts|
  {
    if acts != [] {
      var n := |acts| - 1;
      assert ActsAt(c, run, acts, n);
      var run1, acts1 := run[..n + 1], acts[..n];
      forall i: nat | i < n ensures ActsAt(c, run1, acts1, i) { assert ActsAt(c, run, acts, i); }
      HistoryIsActions(c, run1, acts1);
      StepInvokes(c, run[n], acts[n].0, acts[n].1);
    }
  }
}
