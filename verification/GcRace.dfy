/** Why reclamation needs its side conditions. A CPU that registers between another's test of the mask and
its cut can mark an object that has by then been deleted; if the object has been allocated again as well,
the mark vouches for it before it has been freed. And a CPU in its last checkpoint, after leaving the mask,
can mark an object that has by then been deleted. */
module GcRace {
  import opened Basics
  import opened GcMachine
  import GcSafety

  ghost predicate Reached(r: Rules, s: State) {
    exists run :: GcMachine.IsRun(r, run) && run[|run| - 1] == s
  }

  lemma Extend(r: Rules, s: State, a: Action)
    requires Reached(r, s) && Shape(s) && Enabled(r, s, a)
    ensures Reached(r, Do(s, a, r))
  {
    var run :| GcMachine.IsRun(r, run) && run[|run| - 1] == s;
    GcSafety.RunExtends(r, run, a);
    var more := run + [Do(s, a, r)];
    assert more[|more| - 1] == Do(s, a, r);
  }

  /** States in which only list 0 and CPUs 0 and 1 matter. */
  datatype Scene = Scene(mask: set<nat>, pc: seq<Pc>, list: seq<nat>, last: map<(nat, nat), nat>,
                         place: map<nat, Place>, seen: map<nat, set<nat>>, quiet: map<nat, set<nat>>,
                         held1: set<nat>, deleted: seq<nat>)

  ghost function Build(z: Scene): State {
    State(z.mask, z.pc, seq(SLOTS, i => if i == 0 then z.list else []), z.last, z.place, z.seen, z.quiet,
          seq(SLOTS, i => if i == 1 then z.held1 else {}), z.deleted)
  }

  predicate Fits(pc: Pc, len: nat) {
    match pc
    case Joining => len == 0
    case Observing(i) => i <= SLOTS
    case Marking(i, _) => i < SLOTS
    case Walking(pos, _) => pos <= len
    case Testing(pos, _) => pos < len
    case Detaching(pos) => pos < len
    case _ => true
  }

  predicate Good(z: Scene) {
    && 1 <= |z.pc| <= 2 && (|z.pc| == 1 ==> z.held1 == {}) && z.mask <= {0, 1}
    && Fits(z.pc[0], |z.list|) && (0 in z.mask ==> !z.pc[0].Joining?)
    && (|z.pc| == 2 ==> Fits(z.pc[1], 0)) && (1 in z.mask ==> |z.pc| == 2 && !z.pc[1].Joining?)
  }

  lemma GoodShape(z: Scene)
    requires Good(z)
    ensures Shape(Build(z))
  {
    forall c | 0 <= c < |z.pc| ensures PcShape(Build(z), c) {}
  }

  ghost predicate On(r: Rules, z: Scene) { Good(z) && Reached(r, Build(z)) }

  /** If an action turns one scene into another, the second is reached too. */
  lemma To(r: Rules, z: Scene, a: Action, z': Scene)
    requires On(r, z) && Good(z') && Shape(Build(z)) && Enabled(r, Build(z), a)
    requires var s := Do(Build(z), a, r);
             && s.mask == z'.mask && s.pc == z'.pc && s.pending == Build(z').pending && s.last == z'.last
             && s.place == z'.place && s.seen == z'.seen && s.quiet == z'.quiet && s.held == Build(z').held
             && s.deleted == z'.deleted
    ensures On(r, z')
  {
    Extend(r, Build(z), a);
    assert Do(Build(z), a, r) == Build(z');
  }

  /** The lists after the first are empty and observing them changes nothing. */
  lemma {:induction false} SkipRest(r: Rules, s: State, c: nat, i: nat)
    requires Reached(r, s) && Shape(s) && c < |s.pc| && 1 <= i <= SLOTS && s.pc[c] == Observing(i)
    requires forall k | 1 <= k < SLOTS :: s.pending[k] == [] && (c, k) !in s.last
    requires forall o | o in s.quiet :: c in s.quiet[o]
    ensures Reached(r, Goto(s, c, Walking(0, {})))
    decreases SLOTS - i
  {
    Extend(r, s, Advance(c));
    var s' := Do(s, Advance(c), r);
    if i < SLOTS {
      assert s'.last == s.last;
      assert s'.quiet == s.quiet by { assert forall o | o in s.quiet :: s.quiet[o] + {c} == s.quiet[o]; }
      assert s' == Goto(s, c, Observing(i + 1));
      GcSafety.SameShape(s, s', c);
      SkipRest(r, s', c, i + 1);
      assert Goto(s', c, Walking(0, {})) == Goto(s, c, Walking(0, {}));
    }
  }

  ghost function Pcs(z: Scene, c: nat, pc: Pc): Scene
    requires c < |z.pc|
  {
    z.(pc := z.pc[c := pc])
  }

  ghost function Noted(z: Scene, c: nat): Scene { z.(quiet := map o | o in z.quiet :: z.quiet[o] + {c}) }

  lemma ToBegin(r: Rules, z: Scene, c: nat)
    requires On(r, z) && c < |z.pc| && z.pc[c].Working? && (c == 1 ==> z.held1 == {}) && (r.late || c in z.mask)
    ensures On(r, Pcs(z, c, Observing(0)))
  {
    GoodShape(z);
    To(r, z, Begin(c), Pcs(z, c, Observing(0)));
  }

  /** Observing list 0 when it shows a new head, then marking that head. */
  lemma ToMarking(r: Rules, z: Scene, c: nat)
    requires On(r, z) && c < |z.pc| && z.pc[c] == Observing(0) && z.list != []
    requires (c, 0) in z.last ==> z.last[(c, 0)] != z.list[0]
    ensures On(r, Noted(Pcs(z, c, Marking(0, z.list[0])), c))
  {
    GoodShape(z);
    To(r, z, Advance(c), Noted(Pcs(z, c, Marking(0, z.list[0])), c));
  }

  lemma ToMarked(r: Rules, z: Scene, c: nat, h: nat)
    requires On(r, z) && c < |z.pc| && z.pc[c] == Marking(0, h) && h in z.seen
    ensures On(r, Pcs(z, c, Observing(1)).(last := z.last[(c, 0) := h], seen := z.seen[h := z.seen[h] + {c}]))
  {
    GoodShape(z);
    var z' := Pcs(z, c, Observing(1)).(last := z.last[(c, 0) := h], seen := z.seen[h := z.seen[h] + {c}]);
    To(r, z, Advance(c), z');
  }

  /** Observing list 0 when it is empty. */
  lemma ToPassed(r: Rules, z: Scene, c: nat)
    requires On(r, z) && c < |z.pc| && z.pc[c] == Observing(0) && z.list == []
    ensures On(r, Noted(Pcs(z, c, Observing(1)).(last := z.last - {(c, 0)}), c))
  {
    GoodShape(z);
    var z' := Noted(Pcs(z, c, Observing(1)).(last := z.last - {(c, 0)}), c);
    To(r, z, Advance(c), z');
  }

  lemma ToWalking(r: Rules, z: Scene, c: nat)
    requires On(r, z) && c < |z.pc| && z.pc[c] == Observing(1) && forall o | o in z.quiet :: c in z.quiet[o]
    requires forall k | 1 <= k < SLOTS :: (c, k) !in z.last
    ensures On(r, Pcs(z, c, Walking(0, {})))
  {
    GoodShape(z);
    SkipRest(r, Build(z), c, 1);
    assert Goto(Build(z), c, Walking(0, {})) == Build(Pcs(z, c, Walking(0, {})));
  }

  /** A walk down an empty list ends the checkpoint. */
  lemma ToWorking(r: Rules, z: Scene, c: nat)
    requires On(r, z) && c < |z.pc| && z.pc[c] == Walking(0, {}) && (c == 0 ==> z.list == [])
    ensures On(r, Pcs(z, c, Working))
  {
    GoodShape(z);
    To(r, z, Advance(c), Pcs(z, c, Working));
  }

  /** A walk that finds the mask covered by the marks on the head. */
  lemma ToDetaching(r: Rules, z: Scene)
    requires On(r, z) && z.pc[0] == Walking(0, {}) && z.list != [] && z.list[0] in z.seen && z.mask <= z.seen[z.list[0]]
    ensures On(r, Pcs(z, 0, Detaching(0)))
  {
    GoodShape(z);
    var y := Pcs(z, 0, Testing(0, z.seen[z.list[0]]));
    GoodShape(y);
    assert {} + z.seen[z.list[0]] == z.seen[z.list[0]];
    To(r, z, Advance(0), y);
    To(r, y, Advance(0), Pcs(y, 0, Detaching(0)));
    assert Pcs(y, 0, Detaching(0)) == Pcs(z, 0, Detaching(0));
  }

  lemma ToDeleting(r: Rules, z: Scene, o: nat)
    requires On(r, z) && z.pc[0] == Detaching(0) && z.list == [o] && z.place.Keys == {o}
    ensures On(r, Pcs(z, 0, Deleting([o])).(list := [], place := map[o := Ready(0)]))
  {
    GoodShape(z);
    var z' := Pcs(z, 0, Deleting([o])).(list := [], place := map[o := Ready(0)]);
    To(r, z, Advance(0), z');
  }

  lemma ToDeleted(r: Rules, z: Scene, o: nat)
    requires On(r, z) && z.pc[0] == Deleting([o]) && z.place.Keys == {o}
    ensures On(r, Pcs(z, 0, Deleting([])).(place := map[o := Gone], deleted := z.deleted + [o]))
  {
    GoodShape(z);
    assert [o][1..] == [];
    To(r, z, Advance(0), Pcs(z, 0, Deleting([])).(place := map[o := Gone], deleted := z.deleted + [o]));
  }

  lemma ToServiced(r: Rules, z: Scene)
    requires On(r, z) && z.pc[0] == Deleting([])
    ensures On(r, Pcs(z, 0, Working))
  {
    GoodShape(z);
    To(r, z, Advance(0), Pcs(z, 0, Working));
  }

  lemma ToFreed(r: Rules, z: Scene, o: nat)
    requires On(r, z) && z.pc[0].Working? && 0 in z.mask && o in z.place && z.place[o] == Live
    ensures On(r, z.(list := [o] + z.list, place := z.place[o := Pending(0)], quiet := z.quiet[o := {}]))
  {
    GoodShape(z);
    var z' := z.(list := [o] + z.list, place := z.place[o := Pending(0)], quiet := z.quiet[o := {}]);
    To(r, z, Free(0, o), z');
  }

  // CPU 0 frees object 7, marks it and finds the mask covered.
  const A0: Scene := Scene({0}, [Working], [], map[], map[7 := Live], map[7 := {}], map[], {}, [])
  const A1: Scene := A0.(list := [7], place := map[7 := Pending(0)], quiet := map[7 := {}])
  const A2: Scene := A1.(pc := [Marking(0, 7)], quiet := map[7 := {0}])
  const A3: Scene := A2.(pc := [Observing(1)], last := map[(0, 0) := 7], seen := map[7 := {0}])
  const A4: Scene := A3.(pc := [Detaching(0)])
  // CPU 1 registers and loads the head; CPU 0 deletes it; it is allocated again; CPU 1 marks it.
  const B0: Scene := A4.(pc := [Detaching(0), Joining])
  const B1: Scene := A4.(pc := [Detaching(0), Working], mask := {0, 1})
  const B2: Scene := B1.(pc := [Detaching(0), Marking(0, 7)], quiet := map[7 := {0, 1}])
  const B3: Scene := B2.(pc := [Deleting([7]), Marking(0, 7)], list := [], place := map[7 := Ready(0)])
  const B4: Scene := B3.(pc := [Working, Marking(0, 7)], place := map[7 := Gone], deleted := [7])
  const B5: Scene := B4.(place := map[7 := Live], seen := map[7 := {}])
  const B6: Scene := B5.(pc := [Working, Observing(1)], last := map[(0, 0) := 7, (1, 0) := 7], seen := map[7 := {1}])
  // CPU 1 takes a reference to the new object; CPU 0 checkpoints once and frees it.
  const C0: Scene := B6.(pc := [Working, Working])
  const C1: Scene := C0.(held1 := {7})
  const C2: Scene := C1.(pc := [Observing(1), Working], last := map[(1, 0) := 7])
  const C3: Scene := C2.(pc := [Working, Working])
  const C4: Scene := C3.(list := [7], place := map[7 := Pending(0)], quiet := map[7 := {}])
  // CPU 0 checkpoints again: CPU 1's early mark completes the mask, and the object is cut while held.
  const D0: Scene := C4.(pc := [Marking(0, 7), Working], quiet := map[7 := {0}])
  const D1: Scene := D0.(pc := [Observing(1), Working], last := map[(0, 0) := 7, (1, 0) := 7], seen := map[7 := {0, 1}])
  const D2: Scene := D1.(pc := [Detaching(0), Working])
  const D3: Scene := D2.(pc := [Deleting([7]), Working], list := [], place := map[7 := Ready(0)])

  lemma Opening(r: Rules)
    ensures On(r, A0)
  {
    var s0 := Init();
    assert GcMachine.IsRun(r, [s0]) && [s0][0] == s0;
    Extend(r, s0, Reserve);
    var z1 := Scene({}, [Joining], [], map[], map[], map[], map[], {}, []);
    assert Do(s0, Reserve, r) == Build(z1);
    var z2 := z1.(mask := {0}, pc := [Working]);
    GoodShape(z1);
    To(r, z1, Join(0), z2);
    GoodShape(z2);
    To(r, z2, Alloc(7), A0);
  }

  lemma ReachA1(r: Rules)
    ensures On(r, A1)
  {
    Opening(r);
    ToFreed(r, A0, 7);
    assert A0.(list := [7] + A0.list, place := A0.place[7 := Pending(0)], quiet := A0.quiet[7 := {}]) == A1;
  }

  lemma ReachA2(r: Rules)
    ensures On(r, A2)
  {
    ReachA1(r);
    ToBegin(r, A1, 0);
    ToMarking(r, Pcs(A1, 0, Observing(0)), 0);
    assert A1.quiet[7] + {0} == {0};
    assert Noted(Pcs(Pcs(A1, 0, Observing(0)), 0, Marking(0, 7)), 0) == A2;
  }

  lemma ReachA3(r: Rules)
    ensures On(r, A3)
  {
    ReachA2(r);
    ToMarked(r, A2, 0, 7);
    assert A2.seen[7] + {0} == {0};
    assert Pcs(A2, 0, Observing(1)).(last := A2.last[(0, 0) := 7], seen := A2.seen[7 := A2.seen[7] + {0}]) == A3;
  }

  lemma ReachA4(r: Rules)
    ensures On(r, A4)
  {
    ReachA3(r);
    ToWalking(r, A3, 0);
    ToDetaching(r, Pcs(A3, 0, Walking(0, {})));
    assert Pcs(Pcs(A3, 0, Walking(0, {})), 0, Detaching(0)) == A4;
  }

  lemma ReachB1(r: Rules)
    requires !r.orderly
    ensures On(r, B1)
  {
    ReachA4(r);
    GoodShape(A4);
    To(r, A4, Reserve, B0);
    GoodShape(B0);
    To(r, B0, Join(1), B1);
  }

  lemma ReachB2(r: Rules)
    requires !r.orderly
    ensures On(r, B2)
  {
    ReachB1(r);
    ToBegin(r, B1, 1);
    ToMarking(r, Pcs(B1, 1, Observing(0)), 1);
    assert B1.quiet[7] + {1} == {0, 1};
    assert Noted(Pcs(Pcs(B1, 1, Observing(0)), 1, Marking(0, 7)), 1) == B2;
  }

  lemma ReachB3(r: Rules)
    requires !r.orderly
    ensures On(r, B3)
  {
    ReachB2(r);
    ToDeleting(r, B2, 7);
    assert Pcs(B2, 0, Deleting([7])).(list := [], place := map[7 := Ready(0)]) == B3;
  }

  lemma ReachB4(r: Rules)
    requires !r.orderly
    ensures On(r, B4)
  {
    ReachB3(r);
    ToDeleted(r, B3, 7);
    var z := Pcs(B3, 0, Deleting([])).(place := map[7 := Gone], deleted := [] + [7]);
    ToServiced(r, z);
    assert Pcs(z, 0, Working) == B4;
  }

  lemma ReachB6(r: Rules)
    requires !r.orderly && r.reuse
    ensures On(r, B6)
  {
    ReachB4(r);
    GoodShape(B4);
    To(r, B4, Alloc(7), B5);
    ToMarked(r, B5, 1, 7);
    assert B5.seen[7] + {1} == {1};
    assert Pcs(B5, 1, Observing(1)).(last := B5.last[(1, 0) := 7], seen := B5.seen[7 := B5.seen[7] + {1}]) == B6;
  }

  lemma ReachC0(r: Rules)
    requires !r.orderly && r.reuse
    ensures On(r, C0)
  {
    ReachB6(r);
    ToWalking(r, B6, 1);
    ToWorking(r, Pcs(B6, 1, Walking(0, {})), 1);
    assert Pcs(Pcs(B6, 1, Walking(0, {})), 1, Working) == C0;
  }

  lemma ReachC1(r: Rules)
    requires !r.orderly && r.reuse
    ensures On(r, C1)
  {
    ReachC0(r);
    assert C0.held1 + {7} == {7};
    GoodShape(C0);
    To(r, C0, Acquire(1, 7), C1);
  }

  lemma ReachC2(r: Rules)
    requires !r.orderly && r.reuse
    ensures On(r, C2)
  {
    ReachC1(r);
    assert C1.quiet[7] + {0} == C1.quiet[7];
    ToBegin(r, C1, 0);
    ToPassed(r, Pcs(C1, 0, Observing(0)), 0);
    assert Noted(Pcs(Pcs(C1, 0, Observing(0)), 0, Observing(1)).(last := C1.last - {(0, 0)}), 0) == C2;
  }

  lemma ReachC3(r: Rules)
    requires !r.orderly && r.reuse
    ensures On(r, C3)
  {
    ReachC2(r);
    ToWalking(r, C2, 0);
    ToWorking(r, Pcs(C2, 0, Walking(0, {})), 0);
    assert Pcs(Pcs(C2, 0, Walking(0, {})), 0, Working) == C3;
  }

  lemma ReachC4(r: Rules)
    requires !r.orderly && r.reuse
    ensures On(r, C4)
  {
    ReachC3(r);
    ToFreed(r, C3, 7);
    assert C3.(list := [7] + C3.list, place := C3.place[7 := Pending(0)], quiet := C3.quiet[7 := {}]) == C4;
  }

  lemma ReachD0(r: Rules)
    requires !r.orderly && r.reuse
    ensures On(r, D0)
  {
    ReachC4(r);
    ToBegin(r, C4, 0);
    ToMarking(r, Pcs(C4, 0, Observing(0)), 0);
    assert C4.quiet[7] + {0} == {0};
    assert Noted(Pcs(Pcs(C4, 0, Observing(0)), 0, Marking(0, 7)), 0) == D0;
  }

  lemma ReachD1(r: Rules)
    requires !r.orderly && r.reuse
    ensures On(r, D1)
  {
    ReachD0(r);
    ToMarked(r, D0, 0, 7);
    assert D0.seen[7] + {0} == {0, 1};
    assert Pcs(D0, 0, Observing(1)).(last := D0.last[(0, 0) := 7], seen := D0.seen[7 := D0.seen[7] + {0}]) == D1;
  }

  lemma ReachD2(r: Rules)
    requires !r.orderly && r.reuse
    ensures On(r, D2)
  {
    ReachD1(r);
    ToWalking(r, D1, 0);
    ToDetaching(r, Pcs(D1, 0, Walking(0, {})));
    assert Pcs(Pcs(D1, 0, Walking(0, {})), 0, Detaching(0)) == D2;
  }

  lemma ReachD3(r: Rules)
    requires !r.orderly && r.reuse
    ensures On(r, D3)
  {
    ReachD2(r);
    ToDeleting(r, D2, 7);
    assert Pcs(D2, 0, Deleting([7])).(list := [], place := map[7 := Ready(0)]) == D3;
  }

  /** In the last scene CPU 1 holds an object that has been cut for deletion. */
  lemma HeldWhileCut(r: Rules)
    requires !r.orderly && r.reuse
    ensures Reached(r, Build(D3)) && !GcSafety.HoldsOnlyIntact(Build(D3))
  {
    ReachD3(r);
    var s := Build(D3);
    assert 7 in s.held[1] && s.place[7] == Ready(0);
  }

  /** Every run under `r` keeps what clients on active CPUs hold intact, if and only if registrations are
      orderly or deleted objects are not allocated again. */
  lemma SafeExactlyWhen(r: Rules)
    ensures (forall run | GcMachine.IsRun(r, run) :: GcSafety.HoldsOnlyIntact(run[|run| - 1]))
        <==> (r.orderly || !r.reuse)
  {
    if r.orderly || !r.reuse {
      forall run | GcMachine.IsRun(r, run) ensures GcSafety.HoldsOnlyIntact(run[|run| - 1]) {
        GcSafety.SafeRuns(r, run);
      }
    } else {
      HeldWhileCut(r);
      var run :| GcMachine.IsRun(r, run) && run[|run| - 1] == Build(D3);
    }
  }

  // ---------------------------------------------------------------- what observing writes to

  /** The object that CPU `c` is about to mark, if any, is on the list it was loaded from. */
  ghost predicate MarksIntact(s: State, c: nat) {
    c < |s.pc| && s.pc[c].Marking? ==> At(s, s.pc[c].head, Pending(s.pc[c].i))
  }

  ghost predicate ActiveMarksIntact(s: State) { forall c: nat | c in s.mask :: MarksIntact(s, c) }

  ghost predicate AllMarksIntact(s: State) { forall c: nat :: MarksIntact(s, c) }

  /** A CPU that registered between the test and the cut is about to mark a deleted object. */
  lemma ActiveMarksDeleted(r: Rules)
    requires !r.orderly
    ensures Reached(r, Build(B4)) && 1 in B4.mask && B4.pc[1] == Marking(0, 7) && B4.place[7] == Gone
  {
    ReachB4(r);
  }

  /** Every run under `r` has active CPUs mark only objects still on their lists, if and only if
      registrations are orderly. */
  lemma ActiveMarksExactlyWhen(r: Rules)
    ensures (forall run | GcMachine.IsRun(r, run) :: ActiveMarksIntact(run[|run| - 1])) <==> r.orderly
  {
    if r.orderly {
      forall run | GcMachine.IsRun(r, run) ensures ActiveMarksIntact(run[|run| - 1]) { OrderlyMarks(r, run); }
    } else {
      ActiveMarksDeleted(r);
      var run :| GcMachine.IsRun(r, run) && run[|run| - 1] == Build(B4);
      assert !MarksIntact(Build(B4), 1);
    }
  }

  lemma OrderlyMarks(r: Rules, run: seq<State>)
    requires GcMachine.IsRun(r, run) && r.orderly
    ensures ActiveMarksIntact(run[|run| - 1])
  {
    var s := run[|run| - 1];
    GcSafety.RunInv(r, run);
    forall c: nat | c in s.mask ensures MarksIntact(s, c) {
      if s.pc[c].Marking? { GcSafety.MarksIntactObject(r, run, c); }
    }
  }

  // CPU 1 has left the mask; CPU 0 frees object 7, and CPU 1, in its last checkpoint, loads it.
  const E0: Scene := Scene({0}, [Working, Working], [], map[], map[7 := Live], map[7 := {}], map[], {}, [])
  const E1: Scene := E0.(list := [7], place := map[7 := Pending(0)], quiet := map[7 := {}])
  const E2: Scene := E1.(pc := [Working, Marking(0, 7)], quiet := map[7 := {1}])
  // CPU 0, alone in the mask, marks the object, cuts it and deletes it before CPU 1 marks it.
  const E3: Scene := E2.(pc := [Marking(0, 7), Marking(0, 7)], quiet := map[7 := {0, 1}])
  const E4: Scene := E3.(pc := [Observing(1), Marking(0, 7)], last := map[(0, 0) := 7], seen := map[7 := {0}])
  const E5: Scene := E4.(pc := [Detaching(0), Marking(0, 7)])
  const E6: Scene := E5.(pc := [Working, Marking(0, 7)], list := [], place := map[7 := Gone], deleted := [7])

  lemma ReachE0(r: Rules)
    ensures On(r, E0)
  {
    Opening(r);
    var z1 := A0.(pc := [Working, Joining]);
    GoodShape(A0);
    To(r, A0, Reserve, z1);
    var z2 := A0.(pc := [Working, Working], mask := {0, 1});
    GoodShape(z1);
    To(r, z1, Join(1), z2);
    GoodShape(z2);
    assert {0, 1} - {1} == {0};
    To(r, z2, Leave(1), E0);
  }

  lemma ReachE2(r: Rules)
    requires r.late
    ensures On(r, E2)
  {
    ReachE0(r);
    ToFreed(r, E0, 7);
    assert E0.(list := [7] + E0.list, place := E0.place[7 := Pending(0)], quiet := E0.quiet[7 := {}]) == E1;
    ToBegin(r, E1, 1);
    ToMarking(r, Pcs(E1, 1, Observing(0)), 1);
    assert E1.quiet[7] + {1} == {1};
    assert Noted(Pcs(Pcs(E1, 1, Observing(0)), 1, Marking(0, 7)), 1) == E2;
  }

  lemma ReachE4(r: Rules)
    requires r.late
    ensures On(r, E4)
  {
    ReachE2(r);
    ToBegin(r, E2, 0);
    ToMarking(r, Pcs(E2, 0, Observing(0)), 0);
    assert E2.quiet[7] + {0} == {0, 1};
    assert Noted(Pcs(Pcs(E2, 0, Observing(0)), 0, Marking(0, 7)), 0) == E3;
    ToMarked(r, E3, 0, 7);
    assert E3.seen[7] + {0} == {0};
    assert Pcs(E3, 0, Observing(1)).(last := E3.last[(0, 0) := 7], seen := E3.seen[7 := E3.seen[7] + {0}]) == E4;
  }

  lemma ReachE5(r: Rules)
    requires r.late
    ensures On(r, E5)
  {
    ReachE4(r);
    ToWalking(r, E4, 0);
    ToDetaching(r, Pcs(E4, 0, Walking(0, {})));
    assert Pcs(Pcs(E4, 0, Walking(0, {})), 0, Detaching(0)) == E5;
  }

  /** A CPU in the checkpoint that `gc_exit` runs after `cpu_exit` is about to mark a deleted object, even
      with orderly registration and no re-allocation. */
  lemma ExitMarksDeleted(r: Rules)
    requires r.late
    ensures Reached(r, Build(E6)) && 1 !in E6.mask && E6.pc[1] == Marking(0, 7) && E6.place[7] == Gone
  {
    ReachE5(r);
    ToDeleting(r, E5, 7);
    var z := Pcs(E5, 0, Deleting([7])).(list := [], place := map[7 := Ready(0)]);
    ToDeleted(r, z, 7);
    var y := Pcs(z, 0, Deleting([])).(place := map[7 := Gone], deleted := [] + [7]);
    ToServiced(r, y);
    assert Pcs(y, 0, Working) == E6;
  }

  /** Without late checkpoints, only CPUs in the mask are inside one. */
  ghost predicate CheckpointsActive(s: State) { forall c | 0 <= c < |s.pc| && InCheckpoint(s.pc[c]) :: c in s.mask }

  lemma StepKeepsActive(r: Rules, s: State, a: Action)
    requires Shape(s) && CheckpointsActive(s) && Enabled(r, s, a) && !r.late
    ensures CheckpointsActive(Do(s, a, r))
  {
    if a.Advance? { assert PcShape(s, a.c); }
  }

  lemma {:induction false} RunActive(r: Rules, run: seq<State>)
    requires GcMachine.IsRun(r, run) && !r.late
    ensures CheckpointsActive(run[|run| - 1])
    decreases |run|
  {
    var n := |run| - 1;
    if n > 0 {
      RunActive(r, run[..n]);
      assert Moves(r, run[n - 1], run[n]);
      var a: Action :| Enabled(r, run[n - 1], a) && Do(run[n - 1], a, r) == run[n];
      StepKeepsActive(r, run[n - 1], a);
    }
  }

  lemma PromptMarks(r: Rules, run: seq<State>)
    requires GcMachine.IsRun(r, run) && r.orderly && !r.late
    ensures AllMarksIntact(run[|run| - 1])
  {
    OrderlyMarks(r, run);
    RunActive(r, run);
    var s := run[|run| - 1];
    forall c: nat ensures MarksIntact(s, c) {
      if c < |s.pc| && s.pc[c].Marking? { assert c in s.mask; }
    }
  }

  /** Every run under `r` has every CPU mark only objects still on their lists, if and only if registrations
      are orderly and no CPU runs a checkpoint after leaving the mask. */
  lemma AllMarksExactlyWhen(r: Rules)
    ensures (forall run | GcMachine.IsRun(r, run) :: AllMarksIntact(run[|run| - 1])) <==> (r.orderly && !r.late)
  {
    if r.late {
      ExitMarksDeleted(r);
      var run :| GcMachine.IsRun(r, run) && run[|run| - 1] == Build(E6);
      assert !MarksIntact(Build(E6), 1);
    } else if !r.orderly {
      ActiveMarksDeleted(r);
      var run :| GcMachine.IsRun(r, run) && run[|run| - 1] == Build(B4);
      assert !MarksIntact(Build(B4), 1);
    } else {
      forall run | GcMachine.IsRun(r, run) ensures AllMarksIntact(run[|run| - 1]) { PromptMarks(r, run); }
    }
  }
}
