/** The reclamation code as it is written (src/gc.cc): lists, marks and observed heads updated in
place by loops. Each method is proved against a function on the collector's value, and the two
rounds of `gc_finish` are proved to empty every list. */
module GcCollector {
  import opened Basics
  import opened GcMachine

  /** The collector's state, without clients. */
  datatype Core = Core(mask: set<nat>, count: nat, pending: seq<seq<nat>>, seen: map<nat, set<nat>>,
                       last: map<(nat, nat), nat>, deleted: seq<nat>)

  function SeenBy(k: Core, o: nat): set<nat> { if o in k.seen then k.seen[o] else {} }

  predicate WellSized(k: Core) { |k.pending| == SLOTS && k.count <= SLOTS }

  function Observed(k: Core, c: nat, i: nat): (r: Core)
    requires WellSized(k) && i < SLOTS
    ensures WellSized(r) && r.pending == k.pending && r.mask == k.mask && r.count == k.count && r.deleted == k.deleted
  {
    if k.pending[i] == [] then k.(last := k.last - {(c, i)})
    else
      var h := k.pending[i][0];
      if (c, i) in k.last && k.last[(c, i)] == h then k
      else k.(last := k.last[(c, i) := h], seen := k.seen[h := SeenBy(k, h) + {c}])
  }

  function ObservedFrom(k: Core, c: nat, i: nat): (r: Core)
    requires WellSized(k) && i <= SLOTS
    ensures WellSized(r) && r.pending == k.pending && r.mask == k.mask && r.count == k.count && r.deleted == k.deleted
    decreases SLOTS - i
  {
    if i == SLOTS then k else ObservedFrom(Observed(k, c, i), c, i + 1)
  }

  /** CPU `c` is due to mark `x`: it heads a list and is not the head `c` saw there last. */
  predicate HeadUnseen(k: Core, c: nat, i: nat, x: nat) {
    i < |k.pending| && k.pending[i] != [] && k.pending[i][0] == x && !((c, i) in k.last && k.last[(c, i)] == x)
  }

  /** The head of list `i`, if any, is what `c` has observed last there. */
  predicate HeadKnown(k: Core, c: nat, i: nat) {
    i < |k.pending|
    && if k.pending[i] == [] then (c, i) !in k.last else (c, i) in k.last && k.last[(c, i)] == k.pending[i][0]
  }

  ghost predicate UnseenFrom(k: Core, c: nat, i: nat, x: nat) { exists j :: i <= j < SLOTS && HeadUnseen(k, c, j, x) }

  /** Apart from what `c` has seen last at lists `i` and above, nothing has been seen last in `m` but not in `k`,
      nor the other way round. */
  ghost predicate SameBelow(k: Core, m: Core, c: nat, i: nat) {
    forall u: nat, j: nat | u != c || j < i ::
      ((u, j) in m.last <==> (u, j) in k.last) && ((u, j) in k.last ==> m.last[(u, j)] == k.last[(u, j)])
  }

  lemma ObserveExactly(k: Core, c: nat, i: nat)
    requires WellSized(k) && i < SLOTS
    ensures var m := Observed(k, c, i);
            forall x: nat, u: nat :: u in SeenBy(m, x) <==> u in SeenBy(k, x) || (u == c && HeadUnseen(k, c, i, x))
    ensures var m := Observed(k, c, i);
            && HeadKnown(m, c, i) && SameBelow(k, m, c, i)
            && forall j: nat, x: nat | i < j :: HeadUnseen(m, c, j, x) <==> HeadUnseen(k, c, j, x)
  {
  }

  lemma UnseenNext(k: Core, m: Core, c: nat, i: nat, x: nat)
    requires i < SLOTS && forall j: nat | i < j :: HeadUnseen(m, c, j, x) <==> HeadUnseen(k, c, j, x)
    ensures UnseenFrom(k, c, i, x) <==> HeadUnseen(k, c, i, x) || UnseenFrom(m, c, i + 1, x)
  {
    if UnseenFrom(m, c, i + 1, x) {
      var j :| i + 1 <= j < SLOTS && HeadUnseen(m, c, j, x);
      assert HeadUnseen(k, c, j, x);
    }
    if j :| i < j < SLOTS && HeadUnseen(k, c, j, x) { assert HeadUnseen(m, c, j, x); }
  }

  /** Observing from list `i` on marks exactly the heads there that the CPU had not seen last, for that CPU only. */
  lemma {:induction false} MarksExactly(k: Core, c: nat, i: nat, x: nat, u: nat)
    requires WellSized(k) && i <= SLOTS
    ensures u in SeenBy(ObservedFrom(k, c, i), x) <==> u in SeenBy(k, x) || (u == c && UnseenFrom(k, c, i, x))
    decreases SLOTS - i
  {
    if i < SLOTS {
      var m := Observed(k, c, i);
      ObservedNext(k, c, i);
      ObserveExactly(k, c, i);
      MarksExactly(m, c, i + 1, x, u);
      UnseenNext(k, m, c, i, x);
    }
  }

  /** Afterwards the CPU has seen each of those heads last, and nothing else about what was seen last changes. */
  lemma {:induction false} KnownAfterwards(k: Core, c: nat, i: nat)
    requires WellSized(k) && i <= SLOTS
    ensures forall j: nat | i <= j < SLOTS :: HeadKnown(ObservedFrom(k, c, i), c, j)
    ensures SameBelow(k, ObservedFrom(k, c, i), c, i)
    decreases SLOTS - i
  {
    if i < SLOTS {
      ObservedNext(k, c, i);
      ObserveExactly(k, c, i);
      KnownAfterwards(Observed(k, c, i), c, i + 1);
    }
  }

  lemma ObservedNext(k: Core, c: nat, i: nat)
    requires WellSized(k) && i < SLOTS
    ensures ObservedFrom(k, c, i) == ObservedFrom(Observed(k, c, i), c, i + 1)
  {
  }

  /** The first position at or after `pos` at which the marks gathered cover the mask. */
  function CutAt(k: Core, list: seq<nat>, pos: nat, acc: set<nat>): (r: nat)
    requires pos <= |list|
    ensures pos <= r <= |list|
    decreases |list| - pos
  {
    if pos == |list| then pos
    else if k.mask <= acc + SeenBy(k, list[pos]) then pos
    else CutAt(k, list, pos + 1, acc + SeenBy(k, list[pos]))
  }

  function Serviced(k: Core, c: nat): (r: Core)
    requires WellSized(k) && c < SLOTS
    ensures WellSized(r)
  {
    var list := k.pending[c];
    var cut := CutAt(k, list, 0, {});
    k.(pending := k.pending[c := list[..cut]], deleted := k.deleted + list[cut..])
  }

  function Checkpointed(k: Core, c: nat): (r: Core)
    requires WellSized(k) && c < SLOTS
    ensures WellSized(r)
  {
    Serviced(ObservedFrom(k, c, 0), c)
  }

  /** Every active CPU has marked one of the first `n` objects. */
  ghost predicate Covered(k: Core, list: seq<nat>, n: nat) {
    n <= |list| && forall x | x in k.mask :: exists p :: 0 <= p < n && x in SeenBy(k, list[p])
  }

  ghost predicate Gathered(k: Core, list: seq<nat>, n: nat, acc: set<nat>) {
    n <= |list| && forall x :: x in acc <==> exists p :: 0 <= p < n && x in SeenBy(k, list[p])
  }

  /** `pop_ready` cuts at the first object by which every active CPU has marked something, and nowhere
      if there is none. */
  lemma {:induction false} CutIsFirst(k: Core, list: seq<nat>, pos: nat, acc: set<nat>)
    requires pos <= |list| && Gathered(k, list, pos, acc)
    ensures var cut := CutAt(k, list, pos, acc);
            && (cut < |list| ==> Covered(k, list, cut + 1))
            && (forall n | pos < n <= cut :: !Covered(k, list, n))
    decreases |list| - pos
  {
    if pos < |list| {
      var more := acc + SeenBy(k, list[pos]);
      assert Gathered(k, list, pos + 1, more) by {
        forall x | x in more ensures exists p :: 0 <= p < pos + 1 && x in SeenBy(k, list[p]) {
          if x in acc {
            var p :| 0 <= p < pos && x in SeenBy(k, list[p]);
          }
        }
      }
      if !(k.mask <= more) {
        assert !Covered(k, list, pos + 1);
        CutIsFirst(k, list, pos + 1, more);
      }
    }
  }

  class Collector {
    var mask: set<nat>
    var count: nat
    var pending: seq<seq<nat>>
    var seen: map<nat, set<nat>>
    var last: map<(nat, nat), nat>
    var deleted: seq<nat>

    function Value(): Core
      reads this
    {
      Core(mask, count, pending, seen, last, deleted)
    }

    /** `cpu_init`: the next identity, entered in the mask. */
    method CpuInit() returns (id: nat)
      requires WellSized(Value()) && count < SLOTS
      modifies this`count, this`mask
      ensures id == old(count) && Value() == old(Value()).(count := id + 1, mask := old(mask) + {id})
      ensures Settled(old(Value())) ==> Settled(Value())
    {
      id := count;
      count := count + 1;
      mask := mask + {id};
    }

    /** `cpu_exit`. */
    method CpuExit(c: nat)
      modifies this`mask
      ensures Value() == old(Value()).(mask := old(mask) - {c})
      ensures Settled(old(Value())) ==> Settled(Value())
    {
      mask := mask - {c};
    }

    /** `gc_object::gc_free`: onto the front of the caller's list. An object not observed before keeps the
        collector settled. */
    method Free(c: nat, o: nat)
      requires WellSized(Value()) && c < count
      modifies this`pending
      ensures Value() == old(Value()).(pending := old(pending)[c := [o] + old(pending)[c]])
      ensures Settled(old(Value())) && (forall x | x in last :: last[x] != o) ==> Settled(Value())
    {
      pending := pending[c := [o] + pending[c]];
    }

    /** `gc_cpu::observe`, with the assignment to `last_observed` that follows it. */
    method Observe(c: nat, i: nat)
      requires WellSized(Value()) && i < SLOTS
      modifies this`seen, this`last
      ensures Value() == Observed(old(Value()), c, i)
    {
      if pending[i] == [] {
        last := last - {(c, i)};
      } else {
        var head := pending[i][0];
        if !((c, i) in last && last[(c, i)] == head) {
          seen := seen[head := SeenBy(Value(), head) + {c}];
          last := last[(c, i) := head];
        }
      }
    }

    /** `gc_cpu::pop_ready`. */
    method PopReady(c: nat) returns (ready: seq<nat>)
      requires WellSized(Value()) && c < SLOTS
      modifies this`pending
      ensures var k := old(Value()); var cut := CutAt(k, k.pending[c], 0, {});
              ready == k.pending[c][cut..] && Value() == k.(pending := k.pending[c := k.pending[c][..cut]])
    {
      var acc: set<nat> := {};
      var at := 0;
      while at < |pending[c]|
        invariant at <= |pending[c]| && Value() == old(Value())
        invariant CutAt(Value(), pending[c], at, acc) == CutAt(Value(), pending[c], 0, {})
      {
        acc := acc + SeenBy(Value(), pending[c][at]);
        if mask <= acc {
          ready := pending[c][at..];
          pending := pending[c := pending[c][..at]];
          return;
        }
        at := at + 1;
      }
      ready := [];
      assert pending[c][..|pending[c]|] == pending[c] && pending[c := pending[c]] == pending;
    }

    /** `gc_cpu::service`. */
    method Service(c: nat)
      requires WellSized(Value()) && c < SLOTS
      modifies this`pending, this`deleted
      ensures Value() == Serviced(old(Value()), c)
    {
      var ready := PopReady(c);
      ghost var popped := Value();
      var i := 0;
      while i < |ready|
        invariant i <= |ready| && Value() == popped.(deleted := popped.deleted + ready[..i])
      {
        deleted := deleted + [ready[i]];
        i := i + 1;
      }
      assert ready[..|ready|] == ready;
    }

    /** `gc_cpu::checkpoint`. */
    method Checkpoint(c: nat)
      requires WellSized(Value()) && c < SLOTS
      modifies this`seen, this`last, this`pending, this`deleted
      ensures Value() == Checkpointed(old(Value()), c)
    {
      var i := 0;
      ghost var observed := ObservedFrom(Value(), c, 0);
      while i < SLOTS
        invariant i <= SLOTS && WellSized(Value())
        invariant ObservedFrom(Value(), c, i) == observed
      {
        ObservedNext(Value(), c, i);
        Observe(c, i);
        i := i + 1;
      }
      Service(c);
    }

    /** `gc_finish`: two rounds of checkpoints empty every list and delete each pending object once. */
    method Finish()
      requires Settled(Value())
      modifies this`seen, this`last, this`pending, this`deleted
      ensures forall i | 0 <= i < SLOTS :: |pending| == SLOTS && pending[i] == []
      ensures multiset(deleted) == old(multiset(deleted) + AllOf(pending))
    {
      ghost var start := Value();
      var i := 0;
      while i < count
        invariant FirstRound(start, Value(), i)
      {
        FirstRoundStep(start, Value(), i);
        Checkpoint(i);
        i := i + 1;
      }
      i := 0;
      while i < count
        invariant SecondRound(start, Value(), i)
      {
        SecondRoundStep(start, Value(), i);
        Checkpoint(i);
        i := i + 1;
      }
      AllEmpty(pending);
    }
  }

  /** The objects on all the lists. */
  ghost function AllOf(lists: seq<seq<nat>>): multiset<nat> {
    if lists == [] then multiset{} else AllOf(lists[..|lists| - 1]) + multiset(lists[|lists| - 1])
  }

  /** A state in which what was last observed, if still pending, has been marked by its observer. */
  ghost predicate Settled(k: Core) {
    && WellSized(k)
    && (forall x | x in k.mask :: x < k.count)
    && (forall i | k.count <= i < SLOTS :: k.pending[i] == [])
    && (forall c, i, p | 0 <= i < SLOTS && 0 <= p < |k.pending[i]| && (c, i) in k.last
          && k.last[(c, i)] == k.pending[i][p] ::
          c in SeenBy(k, k.pending[i][p]))
  }

  ghost predicate HeadsMarkedBy(k: Core, c: nat)
    requires WellSized(k)
  {
    forall i | 0 <= i < SLOTS && k.pending[i] != [] :: c in SeenBy(k, k.pending[i][0])
  }

  /** CPUs below `n` have marked the head of every list. */
  ghost predicate HeadsMarked(k: Core, n: nat)
    requires WellSized(k)
  {
    forall c | 0 <= c < n :: HeadsMarkedBy(k, c)
  }

  lemma Rearrange(a: multiset<nat>, b: multiset<nat>, x: multiset<nat>, y: multiset<nat>, z: multiset<nat>)
    requires a + x == b + y
    ensures (a + z) + x == (b + z) + y
  {
    assert (a + z) + x == (a + x) + z && (b + z) + y == (b + y) + z;
  }

  lemma {:induction false} AllUpdate(lists: seq<seq<nat>>, i: nat, l: seq<nat>)
    requires i < |lists|
    ensures AllOf(lists[i := l]) + multiset(lists[i]) == AllOf(lists) + multiset(l)
  {
    var n := |lists| - 1;
    if i < n {
      AllUpdate(lists[..n], i, l);
      Rearrange(AllOf(lists[..n][i := l]), AllOf(lists[..n]), multiset(lists[i]), multiset(l), multiset(lists[n]));
      assert lists[i := l][..n] == lists[..n][i := l] && lists[i := l][n] == lists[n];
    } else {
      assert lists[i := l][..n] == lists[..n];
      var a, x, y := AllOf(lists[..n]), multiset(lists[i]), multiset(l);
      assert (a + y) + x == (a + x) + y;
    }
  }

  lemma {:induction false} AllEmpty(lists: seq<seq<nat>>)
    requires forall i | 0 <= i < |lists| :: lists[i] == []
    ensures AllOf(lists) == multiset{}
  {
    if lists != [] { AllEmpty(lists[..|lists| - 1]); }
  }

  ghost predicate MarksGrow(k: Core, k': Core) { forall o, x | x in SeenBy(k, o) :: x in SeenBy(k', o) }

  ghost predicate HeadsMarkedFrom(k: Core, c: nat, i: nat)
    requires WellSized(k)
  {
    forall j | i <= j < SLOTS && k.pending[j] != [] :: c in SeenBy(k, k.pending[j][0])
  }

  lemma ObserveMarks(k: Core, c: nat, i: nat)
    requires Settled(k) && i < SLOTS
    ensures var m := Observed(k, c, i);
            Settled(m) && MarksGrow(k, m) && (k.pending[i] != [] ==> c in SeenBy(m, k.pending[i][0]))
  {
    var m := Observed(k, c, i);
    assert forall o, x | x in SeenBy(k, o) :: x in SeenBy(m, o);
  }

  /** Observing marks every head and unmarks nothing. */
  lemma {:induction false} ObservingMarks(k: Core, c: nat, i: nat)
    requires Settled(k) && i <= SLOTS
    ensures var k' := ObservedFrom(k, c, i);
            Settled(k') && MarksGrow(k, k') && HeadsMarkedFrom(k', c, i)
    decreases SLOTS - i
  {
    if i < SLOTS {
      ObservedNext(k, c, i);
      ObserveMarks(k, c, i);
      ObservingMarks(Observed(k, c, i), c, i + 1);
    }
  }

  /** Cutting a list changes no mark and, unless the list is emptied, no head. */
  lemma CutKeeps(m: Core, c: nat, x: nat)
    requires Settled(m) && c < SLOTS
    ensures Settled(Serviced(m, c)) && (HeadsMarkedBy(m, x) ==> HeadsMarkedBy(Serviced(m, c), x))
    ensures forall i | 0 <= i < SLOTS && m.pending[i] == [] :: Serviced(m, c).pending[i] == []
  {
    var k' := Serviced(m, c);
    assert forall o :: SeenBy(k', o) == SeenBy(m, o);
    assert forall i, p | 0 <= i < SLOTS && 0 <= p < |k'.pending[i]| ::
        p < |m.pending[i]| && k'.pending[i][p] == m.pending[i][p];
  }

  /** A checkpoint of `c` keeps settledness and earlier marks on heads, and marks every remaining head. */
  lemma CheckpointMarks(k: Core, c: nat, n: nat)
    requires Settled(k) && c < SLOTS && HeadsMarked(k, n)
    ensures var k' := Checkpointed(k, c);
            && Settled(k') && HeadsMarked(k', n) && HeadsMarkedBy(k', c) && k'.mask == k.mask && k'.count == k.count
            && (forall i | 0 <= i < SLOTS && k.pending[i] == [] :: k'.pending[i] == [])
  {
    ObservingMarks(k, c, 0);
    var m := ObservedFrom(k, c, 0);
    CutKeeps(m, c, c);
    forall x | 0 <= x < n ensures HeadsMarkedBy(Checkpointed(k, c), x) {
      assert HeadsMarkedBy(k, x);
      CutKeeps(m, c, x);
    }
  }

  lemma CutConserves(m: Core, c: nat)
    requires WellSized(m) && c < SLOTS
    ensures multiset(Serviced(m, c).deleted) + AllOf(Serviced(m, c).pending) == multiset(m.deleted) + AllOf(m.pending)
  {
    var list := m.pending[c];
    var cut := CutAt(m, list, 0, {});
    AllUpdate(m.pending, c, list[..cut]);
    assert list == list[..cut] + list[cut..];
    CutSum(AllOf(m.pending[c := list[..cut]]), AllOf(m.pending), list[..cut], list[cut..], m.deleted);
  }

  /** A checkpoint loses no object: each is still pending or has been deleted. */
  lemma CheckpointConserves(k: Core, c: nat)
    requires WellSized(k) && c < SLOTS
    ensures var k' := Checkpointed(k, c);
            multiset(k'.deleted) + AllOf(k'.pending) == multiset(k.deleted) + AllOf(k.pending)
  {
    CutConserves(ObservedFrom(k, c, 0), c);
  }

  lemma CutSum(after: multiset<nat>, before: multiset<nat>, keep: seq<nat>, cut: seq<nat>, deleted: seq<nat>)
    requires after + multiset(keep + cut) == before + multiset(keep)
    ensures multiset(deleted + cut) + after == multiset(deleted) + before
  {
    forall o ensures (multiset(deleted + cut) + after)[o] == (multiset(deleted) + before)[o] {
      assert (after + multiset(keep + cut))[o] == (before + multiset(keep))[o];
    }
  }

  ghost predicate Conserved(start: Core, k: Core) {
    && Settled(k) && k.mask == start.mask && k.count == start.count
    && multiset(k.deleted) + AllOf(k.pending) == multiset(start.deleted) + AllOf(start.pending)
  }

  ghost predicate FirstRound(start: Core, k: Core, i: nat) {
    Conserved(start, k) && i <= k.count && HeadsMarked(k, i)
  }

  ghost predicate SecondRound(start: Core, k: Core, i: nat) {
    Conserved(start, k) && i <= k.count && HeadsMarked(k, k.count) && forall j | 0 <= j < i :: k.pending[j] == []
  }

  lemma FirstRoundStep(start: Core, k: Core, i: nat)
    requires FirstRound(start, k, i) && i < k.count
    ensures FirstRound(start, Checkpointed(k, i), i + 1)
  {
    CheckpointMarks(k, i, i);
    CheckpointConserves(k, i);
  }

  lemma SecondRoundStep(start: Core, k: Core, i: nat)
    requires SecondRound(start, k, i) && i < k.count
    ensures SecondRound(start, Checkpointed(k, i), i + 1)
  {
    CheckpointMarks(k, i, k.count);
    CheckpointConserves(k, i);
    CheckpointEmpties(k, i);
  }

  /** When all CPUs have marked the heads, a checkpoint empties its CPU's own list. */
  lemma CheckpointEmpties(k: Core, c: nat)
    requires Settled(k) && c < k.count && HeadsMarked(k, k.count)
    ensures Checkpointed(k, c).pending[c] == []
  {
    ObservingMarks(k, c, 0);
    var m := ObservedFrom(k, c, 0);
    if m.pending[c] != [] {
      forall x | x in m.mask ensures x in SeenBy(m, m.pending[c][0]) { assert HeadsMarkedBy(k, x); }
    }
  }
}
