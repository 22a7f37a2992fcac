/** The collector's methods and the machine of atomic steps agree: a checkpoint that no other CPU
interrupts takes the machine where the method takes the collector, and the states the machine can
reach, when objects are not allocated twice, are states from which `Finish` empties the lists. */
module GcRefinement {
  import opened Basics
  import opened GcMachine
  import GcSafety
  import opened GcCollector

  ghost function CoreOf(s: State): Core { Core(s.mask, |s.pc|, s.pending, s.seen, s.last, s.deleted) }

  // ---------------------------------------------------------------- one CPU alone

  ghost predicate Steps(r: Rules, s: State, s': State, c: nat) {
    Shape(s) && Enabled(r, s, Advance(c)) && Do(s, Advance(c), r) == s'
  }

  ghost predicate IsTrace(r: Rules, tr: seq<State>, c: nat) {
    tr != [] && forall i: nat | i + 1 < |tr| :: Steps(r, tr[i], tr[i + 1], c)
  }

  /** Steps of `c` alone lead from `s` to `s'`. */
  ghost predicate Leads(r: Rules, s: State, s': State, c: nat) {
    exists tr :: IsTrace(r, tr, c) && tr[0] == s && tr[|tr| - 1] == s'
  }

  lemma OneStep(r: Rules, s: State, s': State, c: nat)
    requires Steps(r, s, s', c)
    ensures Leads(r, s, s', c)
  {
    var tr := [s, s'];
    assert IsTrace(r, tr, c) && tr[0] == s && tr[|tr| - 1] == s';
  }

  lemma LeadsOn(r: Rules, s: State, t: State, u: State, c: nat)
    requires Leads(r, s, t, c) && Leads(r, t, u, c)
    ensures Leads(r, s, u, c)
  {
    var a :| IsTrace(r, a, c) && a[0] == s && a[|a| - 1] == t;
    var b :| IsTrace(r, b, c) && b[0] == t && b[|b| - 1] == u;
    var tr := a + b[1..];
    forall i: nat | i + 1 < |tr| ensures Steps(r, tr[i], tr[i + 1], c) {
      if i + 1 < |a| { assert Steps(r, a[i], a[i + 1], c); }
      else { assert Steps(r, b[i + 1 - |a|], b[i + 2 - |a|], c); }
    }
    assert IsTrace(r, tr, c) && tr[0] == s && tr[|tr| - 1] == u;
  }

  lemma MarkOne(r: Rules, s: State, c: nat, i: nat, h: nat) returns (s': State)
    requires Shape(s) && c < |s.pc| && s.pc[c] == Marking(i, h) && i < SLOTS
    ensures Shape(s') && Leads(r, s, s', c) && c < |s'.pc| && s'.pc[c] == Observing(i + 1)
    ensures CoreOf(s') == CoreOf(s).(last := s.last[(c, i) := h], seen := s.seen[h := SeenBy(CoreOf(s), h) + {c}])
  {
    s' := StepMark(s, c, i, h);
    GcSafety.SameShape(s, s', c);
    OneStep(r, s, s', c);
  }

  lemma PassOne(r: Rules, s: State, c: nat, i: nat)
    requires Shape(s) && c < |s.pc| && s.pc[c] == Observing(i) && i < SLOTS
    ensures var t := StepObserve(s, c, i);
            && Shape(t) && Leads(r, s, t, c) && c < |t.pc|
            && (if t.pc[c].Marking? then
                  && t.pc[c].i == i && CoreOf(t) == CoreOf(s) && s.pending[i] != [] && t.pc[c].head == s.pending[i][0]
                  && !((c, i) in s.last && s.last[(c, i)] == s.pending[i][0])
                else t.pc[c] == Observing(i + 1) && CoreOf(t) == Observed(CoreOf(s), c, i))
  {
    var t := StepObserve(s, c, i);
    GcSafety.SameShape(s, t, c);
    OneStep(r, s, t, c);
    if s.pending[i] != [] && (c, i) in s.last && s.last[(c, i)] == s.pending[i][0] {
      assert s.last[(c, i) := s.pending[i][0]] == s.last;
    }
  }

  /** Observing one list takes one step, or two when the head is to be marked. */
  lemma ObserveOne(r: Rules, s: State, c: nat, i: nat) returns (s': State)
    requires Shape(s) && c < |s.pc| && s.pc[c] == Observing(i) && i < SLOTS
    ensures Shape(s') && Leads(r, s, s', c) && c < |s'.pc| && s'.pc[c] == Observing(i + 1)
    ensures CoreOf(s') == Observed(CoreOf(s), c, i)
  {
    var t := StepObserve(s, c, i);
    PassOne(r, s, c, i);
    s' := t;
    if t.pc[c].Marking? {
      s' := MarkOne(r, t, c, i, t.pc[c].head);
      LeadsOn(r, s, t, s', c);
    }
  }

  lemma {:induction false} ObservePhase(r: Rules, s: State, c: nat, i: nat) returns (s': State)
    requires Shape(s) && c < |s.pc| && s.pc[c] == Observing(i) && i <= SLOTS
    ensures Shape(s') && Leads(r, s, s', c) && c < |s'.pc| && s'.pc[c] == Walking(0, {})
    ensures CoreOf(s') == ObservedFrom(CoreOf(s), c, i)
    decreases SLOTS - i
  {
    if i == SLOTS {
      s' := Goto(s, c, Walking(0, {}));
      GcSafety.SameShape(s, s', c);
      OneStep(r, s, s', c);
    } else {
      var t := ObserveOne(r, s, c, i);
      s' := ObservePhase(r, t, c, i + 1);
      LeadsOn(r, s, t, s', c);
    }
  }

  lemma DeleteOne(r: Rules, s: State, c: nat, ready: seq<nat>) returns (s': State)
    requires Shape(s) && c < |s.pc| && s.pc[c] == Deleting(ready)
    ensures Shape(s') && Leads(r, s, s', c) && c < |s'.pc|
    ensures ready == [] ==> s'.pc[c] == Working && CoreOf(s') == CoreOf(s)
    ensures ready != [] ==> s'.pc[c] == Deleting(ready[1..])
    ensures ready != [] ==> CoreOf(s') == CoreOf(s).(deleted := s.deleted + [ready[0]])
  {
    s' := StepDelete(s, c, ready);
    GcSafety.SameShape(s, s', c);
    OneStep(r, s, s', c);
  }

  lemma {:induction false} DeletePhase(r: Rules, s: State, c: nat, ready: seq<nat>) returns (s': State)
    requires Shape(s) && c < |s.pc| && s.pc[c] == Deleting(ready)
    ensures Shape(s') && Leads(r, s, s', c) && c < |s'.pc| && s'.pc[c] == Working
    ensures CoreOf(s') == CoreOf(s).(deleted := s.deleted + ready)
    decreases |ready|
  {
    s' := DeleteOne(r, s, c, ready);
    if ready == [] {
      assert s.deleted + ready == s.deleted;
    } else {
      var t := s';
      s' := DeletePhase(r, t, c, ready[1..]);
      LeadsOn(r, s, t, s', c);
      assert s.deleted + [ready[0]] + ready[1..] == s.deleted + ready;
    }
  }

  ghost function CutCore(k: Core, c: nat, cut: nat): Core
    requires WellSized(k) && c < SLOTS && cut <= |k.pending[c]|
  {
    k.(pending := k.pending[c := k.pending[c][..cut]], deleted := k.deleted + k.pending[c][cut..])
  }

  lemma CutPhase(r: Rules, s: State, c: nat, pos: nat) returns (s': State)
    requires Shape(s) && c < |s.pc| && s.pc[c] == Detaching(pos) && pos < |s.pending[c]|
    ensures Shape(s') && Leads(r, s, s', c) && c < |s'.pc| && s'.pc[c] == Working
    ensures CoreOf(s') == CutCore(CoreOf(s), c, pos)
  {
    var t := StepDetach(s, c, pos);
    forall x | 0 <= x < |t.pc| ensures PcShape(t, x) { assert PcShape(s, x); }
    OneStep(r, s, t, c);
    s' := DeletePhase(r, t, c, s.pending[c][pos..]);
    LeadsOn(r, s, t, s', c);
  }

  lemma TestOne(r: Rules, s: State, c: nat, pos: nat, acc: set<nat>) returns (s': State)
    requires Shape(s) && c < |s.pc| && s.pc[c] == Testing(pos, acc) && pos < |s.pending[c]|
    ensures Shape(s') && Leads(r, s, s', c) && c < |s'.pc| && CoreOf(s') == CoreOf(s)
    ensures s'.pc[c] == if s.mask <= acc then Detaching(pos) else Walking(pos + 1, acc)
  {
    s' := Goto(s, c, if s.mask <= acc then Detaching(pos) else Walking(pos + 1, acc));
    GcSafety.SameShape(s, s', c);
    OneStep(r, s, s', c);
  }

  /** Looking at one object of the list: loading its marks, then testing the mask. */
  lemma LookOne(r: Rules, s: State, c: nat, pos: nat, acc: set<nat>) returns (s': State)
    requires Shape(s) && c < |s.pc| && s.pc[c] == Walking(pos, acc) && pos < |s.pending[c]|
    ensures Shape(s') && Leads(r, s, s', c) && c < |s'.pc| && CoreOf(s') == CoreOf(s)
    ensures var more := acc + SeenBy(CoreOf(s), s.pending[c][pos]);
            s'.pc[c] == if s.mask <= more then Detaching(pos) else Walking(pos + 1, more)
  {
    var t := StepWalk(s, c, pos, acc);
    GcSafety.SameShape(s, t, c);
    OneStep(r, s, t, c);
    s' := TestOne(r, t, c, pos, t.pc[c].acc);
    LeadsOn(r, s, t, s', c);
  }

  lemma {:induction false} WalkPhase(r: Rules, s: State, c: nat, pos: nat, acc: set<nat>) returns (s': State)
    requires Shape(s) && c < |s.pc| && s.pc[c] == Walking(pos, acc) && pos <= |s.pending[c]|
    ensures Shape(s') && Leads(r, s, s', c) && c < |s'.pc| && s'.pc[c] == Working
    ensures CoreOf(s') == CutCore(CoreOf(s), c, CutAt(CoreOf(s), s.pending[c], pos, acc))
    decreases |s.pending[c]| - pos
  {
    if pos == |s.pending[c]| {
      s' := StepWalk(s, c, pos, acc);
      GcSafety.SameShape(s, s', c);
      OneStep(r, s, s', c);
      assert s.pending[c][..pos] == s.pending[c] && s.pending[c := s.pending[c]] == s.pending
          && s.deleted + [] == s.deleted;
    } else {
      var t := LookOne(r, s, c, pos, acc);
      if t.pc[c].Detaching? {
        s' := CutPhase(r, t, c, pos);
      } else {
        s' := WalkPhase(r, t, c, pos + 1, t.pc[c].acc);
      }
      LeadsOn(r, s, t, s', c);
    }
  }

  /** An uninterrupted checkpoint of the machine computes what the method `Checkpoint` computes. */
  lemma CheckpointAlone(r: Rules, s: State, c: nat) returns (s': State)
    requires Shape(s) && c < |s.pc| && s.pc[c].Working? && (r.late || c in s.mask)
    ensures Enabled(r, s, Begin(c)) && Leads(r, Do(s, Begin(c), r), s', c) && c < |s'.pc| && s'.pc[c].Working?
    ensures CoreOf(s') == Checkpointed(CoreOf(s), c)
  {
    var t := Do(s, Begin(c), r);
    GcSafety.SameShape(s, t, c);
    var u := ObservePhase(r, t, c, 0);
    s' := WalkPhase(r, u, c, 0, {});
    LeadsOn(r, t, u, s', c);
  }

  /** Registration in its two steps, exits and frees take the machine where the methods `CpuInit`, `CpuExit` and
      `Free` take the collector; clients' other steps leave the collector alone, but for a new object's marks. */
  lemma ClientsAgree(r: Rules, s: State, a: Action)
    requires Shape(s) && Enabled(r, s, a)
    ensures var k, k' := CoreOf(s), CoreOf(Do(s, a, r));
            && (a.Reserve? ==> k' == k.(count := k.count + 1))
            && (a.Join? ==> k' == k.(mask := k.mask + {a.c}) && a.c < k.count)
            && (a.Leave? ==> k' == k.(mask := k.mask - {a.c}) && a.c in k.mask)
            && (a.Free? ==> k' == k.(pending := k.pending[a.c := [a.o] + k.pending[a.c]]) && a.c in k.mask)
            && (a.Alloc? ==> k' == k.(seen := k'.seen) && SeenBy(k', a.o) == {}
                             && forall o | o != a.o :: SeenBy(k', o) == SeenBy(k, o))
            && (a.Acquire? || a.Begin? ==> k' == k)
  {
  }

  /** What clients hold grows only by what they acquire, and is dropped only when a checkpoint begins. */
  lemma HeldMeans(r: Rules, s: State, a: Action, c: nat)
    requires Shape(s) && Enabled(r, s, a) && c < SLOTS
    ensures var s' := Do(s, a, r);
            |s'.held| == SLOTS && s'.held[c] == if a == Begin(c) then {}
                                                else s.held[c] + if a.Acquire? && a.c == c then {a.o} else {}
  {
    if a.Advance? { assert PcShape(s, a.c); }
  }

  /** A CPU is noted as quiet only by its own step inside a checkpoint, and not for objects freed later. */
  lemma QuietMeans(r: Rules, s: State, a: Action, c: nat, o: nat)
    requires Shape(s) && Enabled(r, s, a) && Quieted(Do(s, a, r), c, o)
    ensures !(a.Free? && a.o == o)
    ensures Quieted(s, c, o) || (a == Advance(c) && c < |s.pc| && InCheckpoint(s.pc[c]))
  {
    if a.Advance? { assert PcShape(s, a.c); }
  }

  // ---------------------------------------------------------------- what drains

  ghost predicate Spent(s: State, o: nat) { o in s.place && !s.place[o].Live? }

  /** What was last observed has been freed, and if it is still on that list it carries the observer's mark. */
  ghost predicate Memo(s: State) {
    && (forall c, i | (c, i) in s.last :: Spent(s, s.last[(c, i)]))
    && (forall c, i | (c, i) in s.last && At(s, s.last[(c, i)], Pending(i)) :: Marked(s, c, s.last[(c, i)]))
    && (forall c | 0 <= c < |s.pc| && s.pc[c].Marking? :: Spent(s, s.pc[c].head))
  }

  lemma StepKeepsMemo(r: Rules, s: State, a: Action)
    requires Shape(s) && GcSafety.Lists(s) && GcSafety.Walks(r, s) && Memo(s) && Enabled(r, s, a) && !r.reuse
    ensures Memo(Do(s, a, r))
  {
    if !a.Advance? {
      ClientKeepsMemo(r, s, a);
    } else {
      assert PcShape(s, a.c);
      match s.pc[a.c]
      case Observing(i) => if i < SLOTS { ObserveKeepsMemo(r, s, a.c); }
      case Marking(i, h) => MarkKeepsMemo(s, a.c);
      case Detaching(_) => CutKeepsMemo(r, s, a.c);
      case Deleting(_) => DeleteKeepsMemo(r, s, a.c);
      case _ =>
    }
  }

  lemma ClientKeepsMemo(r: Rules, s: State, a: Action)
    requires Shape(s) && Memo(s) && Enabled(r, s, a) && !r.reuse && !a.Advance?
    ensures Memo(Do(s, a, r))
  {
    assert forall x | 0 <= x < |Do(s, a, r).pc| && Do(s, a, r).pc[x].Marking? ::
        x < |s.pc| && s.pc[x] == Do(s, a, r).pc[x];
  }

  lemma MarkKeepsMemo(s: State, c: nat)
    requires Shape(s) && Memo(s) && c < |s.pc| && s.pc[c].Marking? && s.pc[c].i < SLOTS
    ensures Memo(StepMark(s, c, s.pc[c].i, s.pc[c].head))
  {
    assert forall x, o | Marked(s, x, o) :: Marked(StepMark(s, c, s.pc[c].i, s.pc[c].head), x, o);
  }

  lemma ObserveKeepsMemo(r: Rules, s: State, c: nat)
    requires Shape(s) && GcSafety.Lists(s) && Memo(s) && c < |s.pc| && s.pc[c].Observing? && s.pc[c].i < SLOTS
    ensures Memo(StepObserve(s, c, s.pc[c].i))
  {
    var i := s.pc[c].i;
    if s.pending[i] != [] { assert At(s, s.pending[i][0], Pending(i)); }
  }

  lemma CutKeepsMemo(r: Rules, s: State, c: nat)
    requires Shape(s) && GcSafety.Lists(s) && GcSafety.Walks(r, s) && Memo(s)
    requires c < |s.pc| && s.pc[c].Detaching? && s.pc[c].pos < |s.pending[c]|
    ensures Memo(StepDetach(s, c, s.pc[c].pos))
  {
    assert GcSafety.WalkOk(r, s, c);
    GcSafety.CutShape(r, s, StepDetach(s, c, s.pc[c].pos), c);
  }

  lemma DeleteKeepsMemo(r: Rules, s: State, c: nat)
    requires Shape(s) && GcSafety.Lists(s) && Memo(s) && c < |s.pc| && s.pc[c].Deleting?
    ensures Memo(StepDelete(s, c, s.pc[c].ready))
  {
  }

  lemma {:induction false} RunMemo(r: Rules, run: seq<State>)
    requires IsRun(r, run) && !r.reuse
    ensures Memo(run[|run| - 1])
    decreases |run|
  {
    var n := |run| - 1;
    if n > 0 {
      RunMemo(r, run[..n]);
      assert IsRun(r, run[..n]);
      GcSafety.RunInv(r, run[..n]);
      assert Moves(r, run[n - 1], run[n]);
      var a: Action :| Enabled(r, run[n - 1], a) && Do(run[n - 1], a, r) == run[n];
      StepKeepsMemo(r, run[n - 1], a);
    }
  }

  /** Every state the machine reaches, when no object is allocated twice, is one from which the two
      rounds of `Finish` empty every list. */
  lemma ReachableSettled(r: Rules, run: seq<State>)
    requires IsRun(r, run) && !r.reuse
    ensures var s := run[|run| - 1]; Shape(s) && Settled(CoreOf(s))
  {
    RunMemo(r, run);
    GcSafety.RunInv(r, run);
    var s := run[|run| - 1];
    var k := CoreOf(s);
    forall c, i, p | 0 <= i < SLOTS && 0 <= p < |k.pending[i]| && (c, i) in k.last && k.last[(c, i)] == k.pending[i][p]
      ensures c in SeenBy(k, k.pending[i][p])
    {
      assert At(s, s.pending[i][p], Pending(i));
      assert Marked(s, c, s.last[(c, i)]);
    }
  }

  // ---------------------------------------------------------------- each object once

  /** What has been deleted was deleted once and has not come back. */
  ghost predicate DeletedOnce(s: State) { NoDup(s.deleted) && forall o | o in s.deleted :: At(s, o, Gone) }

  lemma ClientKeepsDeleted(r: Rules, s: State, a: Action)
    requires Shape(s) && DeletedOnce(s) && Enabled(r, s, a) && !r.reuse && !a.Advance?
    ensures DeletedOnce(Do(s, a, r))
  {
  }

  lemma CutKeepsDeleted(r: Rules, s: State, c: nat, pos: nat)
    requires Shape(s) && c < |s.pc| && s.pc[c] == Detaching(pos) && pos < |s.pending[c]| && DeletedOnce(s)
    requires GcSafety.AtCut(r, s, StepDetach(s, c, pos), c)
    ensures DeletedOnce(StepDetach(s, c, pos))
  {
    GcSafety.CutShape(r, s, StepDetach(s, c, pos), c);
  }

  lemma DeleteKeepsDeleted(s: State, c: nat, ready: seq<nat>)
    requires Shape(s) && DeletedOnce(s) && c < |s.pc| && ready != [] && At(s, ready[0], Ready(c))
    ensures DeletedOnce(StepDelete(s, c, ready))
  {
    NoDupConcat(s.deleted, [ready[0]]);
  }

  lemma StepKeepsDeleted(r: Rules, s: State, a: Action)
    requires Shape(s) && GcSafety.Lists(s) && GcSafety.Walks(r, s) && DeletedOnce(s) && Enabled(r, s, a) && !r.reuse
    ensures DeletedOnce(Do(s, a, r))
  {
    if !a.Advance? {
      ClientKeepsDeleted(r, s, a);
    } else {
      var c := a.c;
      assert PcShape(s, c);
      if s.pc[c].Detaching? {
        assert GcSafety.WalkOk(r, s, c);
        CutKeepsDeleted(r, s, c, s.pc[c].pos);
      } else if s.pc[c].Deleting? && s.pc[c].ready != [] {
        assert GcSafety.ReadyOk(s, c);
        DeleteKeepsDeleted(s, c, s.pc[c].ready);
      }
    }
  }

  lemma {:induction false} RunDeletedOnce(r: Rules, run: seq<State>)
    requires IsRun(r, run) && !r.reuse
    ensures DeletedOnce(run[|run| - 1])
    decreases |run|
  {
    var n := |run| - 1;
    if n > 0 {
      RunDeletedOnce(r, run[..n]);
      assert IsRun(r, run[..n]);
      GcSafety.RunInv(r, run[..n]);
      assert Moves(r, run[n - 1], run[n]);
      var a: Action :| Enabled(r, run[n - 1], a) && Do(run[n - 1], a, r) == run[n];
      StepKeepsDeleted(r, run[n - 1], a);
    }
  }

  lemma NoDupOnce(l: seq<nat>, o: nat)
    requires NoDup(l)
    ensures multiset(l)[o] <= 1
    decreases |l|
  {
    if l != [] {
      var front := l[..|l| - 1];
      NoDupOnce(front, o);
      assert l == front + [l[|l| - 1]];
    }
  }

  lemma {:induction false} AllAbsent(lists: seq<seq<nat>>, o: nat)
    requires forall i | 0 <= i < |lists| :: o !in lists[i]
    ensures AllOf(lists)[o] == 0
  {
    if lists != [] { AllAbsent(lists[..|lists| - 1], o); }
  }

  /** An object on no other list is counted as often as on its own. */
  lemma {:induction false} AllCounts(lists: seq<seq<nat>>, o: nat, i: nat)
    requires i < |lists| && forall j | 0 <= j < |lists| && j != i :: o !in lists[j]
    ensures AllOf(lists)[o] == multiset(lists[i])[o]
  {
    var n := |lists| - 1;
    if i < n { AllCounts(lists[..n], o, i); } else { AllAbsent(lists[..n], o); }
  }

  /** In every reachable state without re-allocation, no object is on the lists twice, deleted twice, or both
      deleted and on a list: what `Finish` deletes, it deletes exactly once. */
  lemma ReachableOnce(r: Rules, run: seq<State>, o: nat)
    requires IsRun(r, run) && !r.reuse
    ensures var s := run[|run| - 1]; (multiset(s.deleted) + AllOf(s.pending))[o] <= 1
  {
    RunDeletedOnce(r, run);
    GcSafety.RunInv(r, run);
    var s := run[|run| - 1];
    NoDupOnce(s.deleted, o);
    if o in s.place && s.place[o].Pending? && s.place[o].cpu < SLOTS {
      var i := s.place[o].cpu;
      OnlyOn(s, o);
      assert o !in s.deleted;
      AllCounts(s.pending, o, i);
      NoDupOnce(s.pending[i], o);
    } else {
      OnlyOn(s, o);
      AllAbsent(s.pending, o);
    }
  }

  lemma OnlyOn(s: State, o: nat)
    requires Shape(s) && GcSafety.Lists(s)
    ensures forall i | 0 <= i < SLOTS && o in s.pending[i] :: At(s, o, Pending(i))
  {
    forall i | 0 <= i < SLOTS && o in s.pending[i] ensures At(s, o, Pending(i)) {
      var p :| 0 <= p < |s.pending[i]| && s.pending[i][p] == o;
    }
  }
}
