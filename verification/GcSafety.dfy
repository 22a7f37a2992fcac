/** Reclamation safety: no registered CPU ever holds a deleted object. */
module GcSafety {
  import opened Basics
  import opened GcMachine

  /** Every list holds distinct objects, each recorded as being there. */
  ghost predicate Lists(s: State)
    requires Shape(s)
  {
    && (forall i | 0 <= i < SLOTS :: NoDup(s.pending[i]))
    && (forall i, p | 0 <= i < SLOTS && 0 <= p < |s.pending[i]| ::
          At(s, s.pending[i][p], Pending(i)) && s.pending[i][p] in s.quiet)
    && (forall c | 0 <= c < |s.pc| && s.pc[c].Deleting? :: ReadyOk(s, c))
  }

  /** What has been cut is distinct and recorded as cut. */
  ghost predicate ReadyOk(s: State, c: nat)
    requires c < |s.pc| && s.pc[c].Deleting?
  {
    NoDup(s.pc[c].ready) && forall p | 0 <= p < |s.pc[c].ready| :: At(s, s.pc[c].ready[p], Ready(c))
  }

  /** Clients hold only what is neither cut nor deleted, and nothing during checkpoints. */
  ghost predicate Holds(s: State)
    requires Shape(s)
  {
    && (forall c, o | 0 <= c < SLOTS && o in s.held[c] :: o in s.place && (s.place[o].Live? || s.place[o].Pending?))
    && (forall c | 0 <= c < |s.pc| && (c !in s.mask || !s.pc[c].Working?) :: s.held[c] == {})
  }

  /** Whoever has been quiet since an object was freed does not hold it. */
  ghost predicate QuietFree(s: State)
    requires Shape(s)
  {
    forall c, o | 0 <= c < SLOTS && o in s.held[c] && o in s.place && s.place[o].Pending? :: !Quieted(s, c, o)
  }

  /** A mark speaks for every older object: the marker has been quiet since each was freed. */
  ghost predicate MarkSpeaks(s: State, c: nat, i: nat)
    requires Shape(s) && i < SLOTS
  {
    forall p, q | 0 <= p <= q < |s.pending[i]| && Marked(s, c, s.pending[i][p]) :: Quieted(s, c, s.pending[i][q])
  }

  /** The head last observed is at least as young as anything marked. */
  ghost predicate LastYoungest(s: State, c: nat, i: nat)
    requires Shape(s) && i < SLOTS && c < SLOTS
  {
    forall p | 0 <= p < |s.pending[i]| && Marked(s, c, s.pending[i][p]) ::
      exists q :: 0 <= q <= p && LastOf(s, c, i) == Some(s.pending[i][q])
  }

  ghost predicate Marks(s: State)
    requires Shape(s)
  {
    forall c, i | c in s.mask && 0 <= i < SLOTS :: MarkSpeaks(s, c, i) && LastYoungest(s, c, i)
  }

  /** Objects not yet freed carry no mark of an active CPU, and CPUs not yet active have marked nothing. */
  ghost predicate Unmarked(s: State)
    requires Shape(s)
  {
    && (forall o, c | At(s, o, Live) && c in s.mask :: !Marked(s, c, o))
    && (forall c, o | Young(s, c) :: !Marked(s, c, o))
    && (forall c, x | 0 <= c < |s.pc| && Young(s, x) && (s.pc[c].Walking? || s.pc[c].Testing?) :: x !in s.pc[c].acc)
  }

  predicate Young(s: State, c: nat) { c >= |s.pc| || s.pc[c].Joining? }

  /** The object a CPU is about to mark is still on its list, with nothing at or above it marked by that CPU. */
  ghost predicate OnTarget(s: State, c: nat, i: nat, h: nat, q: int)
    requires Shape(s) && i < SLOTS
  {
    && 0 <= q < |s.pending[i]| && s.pending[i][q] == h
    && (forall p | 0 <= p <= q :: !Marked(s, c, s.pending[i][p]))
    && (forall p | q <= p < |s.pending[i]| :: Quieted(s, c, s.pending[i][p]))
  }

  /** Or it has been cut away, possible only when registrations are not orderly. */
  ghost predicate OffTarget(r: Rules, s: State, c: nat, i: nat, h: nat)
    requires Shape(s) && i < SLOTS
  {
    && !r.orderly
    && h in s.place && (s.place[h].Ready? || s.place[h].Gone?)
    && (forall p | 0 <= p < |s.pending[i]| :: !Marked(s, c, s.pending[i][p]))
  }

  ghost predicate TargetOk(r: Rules, s: State, c: nat)
    requires Shape(s) && c < |s.pc|
  {
    assert PcShape(s, c);
    s.pc[c].Marking? ==>
      OffTarget(r, s, c, s.pc[c].i, s.pc[c].head) || exists q :: OnTarget(s, c, s.pc[c].i, s.pc[c].head, q)
  }

  ghost predicate Targets(r: Rules, s: State)
    requires Shape(s)
  {
    forall c | c in s.mask :: TargetOk(r, s, c)
  }

  /** CPU `x` has marked something among the first `n` objects of list `c`. */
  ghost predicate MarkedAbove(s: State, x: nat, c: nat, n: nat)
    requires Shape(s) && c < SLOTS
  {
    exists p :: 0 <= p < n && p < |s.pending[c]| && Marked(s, x, s.pending[c][p])
  }

  ghost predicate WalkOk(r: Rules, s: State, c: nat)
    requires Shape(s) && c < |s.pc|
  {
    match s.pc[c]
    case Walking(pos, acc) => forall x | x in acc && x in s.mask :: MarkedAbove(s, x, c, pos)
    case Testing(pos, acc) => forall x | x in acc && x in s.mask :: MarkedAbove(s, x, c, pos + 1)
    case Detaching(pos) =>
      && (forall x, p | x in s.mask && pos <= p < |s.pending[c]| :: s.pending[c][p] !in s.held[x])
      && (r.orderly ==> forall x | x in s.mask :: MarkedAbove(s, x, c, pos + 1))
    case _ => true
  }

  ghost predicate Walks(r: Rules, s: State)
    requires Shape(s)
  {
    forall c | 0 <= c < |s.pc| :: WalkOk(r, s, c)
  }

  ghost predicate Inv(r: Rules, s: State) {
    Shape(s) && Lists(s) && Holds(s) && QuietFree(s) && Marks(s) && Unmarked(s) && Targets(r, s) && Walks(r, s)
  }

  ghost predicate Safe(r: Rules) { r.orderly || !r.reuse }

  // ---------------------------------------------------------------- what a step can leave alone

  /** The lists are unchanged; so are observed heads and active CPUs' marks on listed objects, except
      that `e` may have marked more; and a CPU that has just become active has marked nothing. */
  ghost predicate Still(s: State, s': State, e: nat)
    requires Shape(s) && Shape(s')
  {
    && s'.pending == s.pending
    && (forall c, i | 0 <= c < SLOTS && c != e && 0 <= i < SLOTS && s.pending[i] != [] ::
          LastOf(s', c, i) == LastOf(s, c, i))
    && (forall c | c in s'.mask && c in s.mask && c != e :: StillFor(s, s', c))
    && (forall c, i, p | c in s'.mask && c in s.mask && 0 <= i < SLOTS && 0 <= p < |s.pending[i]|
          && Marked(s, c, s.pending[i][p]) ::
          Marked(s', c, s.pending[i][p]))
    && (forall c, o | c in s'.mask && c !in s.mask :: !Marked(s', c, o))
  }

  ghost predicate StillFor(s: State, s': State, c: nat)
    requires Shape(s)
  {
    && (forall i, p | 0 <= i < SLOTS && 0 <= p < |s.pending[i]| ::
          Marked(s', c, s.pending[i][p]) == Marked(s, c, s.pending[i][p]))
    && (forall i, p | 0 <= i < SLOTS && 0 <= p < |s.pending[i]| && Quieted(s, c, s.pending[i][p]) ::
          Quieted(s', c, s.pending[i][p]))
  }

  lemma StillMarks(s: State, s': State, e: nat)
    requires Shape(s) && Shape(s') && Still(s, s', e) && Marks(s)
    requires e in s'.mask ==> forall i | 0 <= i < SLOTS :: MarkSpeaks(s', e, i) && LastYoungest(s', e, i)
    ensures Marks(s')
  {
    forall c, i | c in s'.mask && 0 <= i < SLOTS ensures MarkSpeaks(s', c, i) && LastYoungest(s', c, i) {
      if c in s.mask && c != e { assert MarkSpeaks(s, c, i) && LastYoungest(s, c, i) && StillFor(s, s', c); }
    }
  }

  lemma StillWalk(r: Rules, s: State, s': State, e: nat, c: nat)
    requires Shape(s) && Shape(s') && Still(s, s', e)
    requires c < |s.pc| && c < |s'.pc| && s'.pc[c] == s.pc[c] && WalkOk(r, s, c)
    requires forall x, p | x in s'.mask && 0 <= p < |s.pending[c]| && s.pending[c][p] in s'.held[x] ::
               x in s.mask && s.pending[c][p] in s.held[x]
    requires forall x | x in s'.mask && x !in s.mask ::
               && (s.pc[c].Walking? || s.pc[c].Testing? ==> x !in s.pc[c].acc)
               && (r.orderly ==> !s.pc[c].Detaching?)
    ensures WalkOk(r, s', c)
  {
    forall x: nat, n: nat | x in s'.mask && x in s.mask && MarkedAbove(s, x, c, n) ensures MarkedAbove(s', x, c, n) {
      var p :| 0 <= p < n && p < |s.pending[c]| && Marked(s, x, s.pending[c][p]);
      assert Marked(s', x, s'.pending[c][p]);
    }
  }

  lemma StillTarget(r: Rules, s: State, s': State, e: nat, c: nat)
    requires Shape(s) && Shape(s') && Still(s, s', e)
    requires c in s'.mask && c in s.mask && c != e && s'.pc[c] == s.pc[c] && TargetOk(r, s, c)
    requires !r.orderly ==> forall o | o in s.place && (s.place[o].Ready? || s.place[o].Gone?) ::
               o in s'.place && (s'.place[o].Ready? || s'.place[o].Gone?)
    ensures TargetOk(r, s', c)
  {
    assert StillFor(s, s', c);
    if s.pc[c].Marking? {
      assert PcShape(s, c);
      var i, h := s.pc[c].i, s.pc[c].head;
      if !OffTarget(r, s, c, i, h) {
        var q :| OnTarget(s, c, i, h, q);
        assert OnTarget(s', c, i, h, q);
      }
    }
  }

  lemma StillUnmarked(s: State, s': State)
    requires Shape(s) && Shape(s') && Unmarked(s) && |s.pc| <= |s'.pc|
    requires forall c, o | c in s'.mask && c !in s.mask :: !Marked(s', c, o)
    requires forall c, o | Marked(s', c, o) :: Marked(s, c, o)
    requires forall o | At(s', o, Live) :: At(s, o, Live) || (o in s'.seen && s'.seen[o] == {})
    requires forall c: nat | Young(s', c) :: Young(s, c)
    requires forall c | 0 <= c < |s'.pc| && (s'.pc[c].Walking? || s'.pc[c].Testing?) ::
               c < |s.pc| && (s.pc[c].Walking? || s.pc[c].Testing?) && s'.pc[c].acc <= s.pc[c].acc
    ensures Unmarked(s')
  {
    forall o, c | At(s', o, Live) && c in s'.mask ensures !Marked(s', c, o) {
      if At(s, o, Live) && c in s.mask { assert !Marked(s, c, o); }
    }
  }

  lemma SameShape(s: State, s': State, c: nat)
    requires Shape(s) && s'.pending == s.pending && |s'.pc| == |s.pc| && |s'.held| == SLOTS
    requires forall x | x in s'.mask :: 0 <= x < |s'.pc| && !s'.pc[x].Joining?
    requires forall x | |s'.pc| <= x < SLOTS :: s'.held[x] == {}
    requires forall x | 0 <= x < |s'.pc| && x != c :: s'.pc[x] == s.pc[x]
    requires c < |s'.pc| ==> PcShape(s', c)
    ensures Shape(s')
  {
    forall x | 0 <= x < |s'.pc| ensures PcShape(s', x) { assert PcShape(s, x); }
  }

  /** What clients hold shrinks, or grows by objects not yet freed; what is held stays intact. */
  ghost predicate HeldKept(s: State, s': State)
    requires Shape(s) && Shape(s')
  {
    && (forall x, o | 0 <= x < SLOTS && o in s'.held[x] :: o in s.held[x] || At(s, o, Live))
    && (forall o | o in s.place && (s.place[o].Live? || s.place[o].Pending?) ::
          o in s'.place && s'.place[o] == s.place[o])
    && (forall x | 0 <= x < |s'.pc| && (x !in s'.mask || !s'.pc[x].Working?) :: s'.held[x] == {})
  }

  lemma KeepHolds(s: State, s': State)
    requires Shape(s) && Shape(s') && Holds(s) && HeldKept(s, s')
    ensures Holds(s')
  {
    forall x, o | 0 <= x < SLOTS && o in s'.held[x]
      ensures o in s'.place && (s'.place[o].Live? || s'.place[o].Pending?)
    {
      assert o in s.held[x] || At(s, o, Live);
    }
  }

  lemma KeepQuietFree(s: State, s': State)
    requires Shape(s) && Shape(s') && Holds(s) && QuietFree(s) && HeldKept(s, s')
    requires forall x, o | 0 <= x < SLOTS && o in s'.held[x] && Quieted(s', x, o) :: Quieted(s, x, o) || At(s, o, Live)
    ensures QuietFree(s')
  {
    forall x, o | 0 <= x < SLOTS && o in s'.held[x] && o in s'.place && s'.place[o].Pending?
      ensures !Quieted(s', x, o)
    {
      assert o in s.held[x] || At(s, o, Live);
    }
  }

  lemma KeepLists(s: State, s': State, c: nat)
    requires Shape(s) && Shape(s') && Lists(s) && s'.pending == s.pending && |s'.pc| == |s.pc|
    requires s.quiet.Keys <= s'.quiet.Keys
    requires forall o | o in s.place && s.place[o].Pending? :: o in s'.place && s'.place[o] == s.place[o]
    requires forall x | 0 <= x < |s.pc| && x != c :: s'.pc[x] == s.pc[x]
    requires forall o | o in s.place && s.place[o].Ready? && s.place[o].cpu != c ::
        o in s'.place && s'.place[o] == s.place[o]
    requires c < |s.pc| && s'.pc[c].Deleting? ==> ReadyOk(s', c)
    ensures Lists(s')
  {
    forall i, p | 0 <= i < SLOTS && 0 <= p < |s'.pending[i]|
      ensures At(s', s'.pending[i][p], Pending(i)) && s'.pending[i][p] in s'.quiet
    {
      assert At(s, s.pending[i][p], Pending(i)) && s.pending[i][p] in s.quiet;
    }
    forall x | 0 <= x < |s'.pc| && s'.pc[x].Deleting? ensures ReadyOk(s', x) {
      if x != c {
        forall p | 0 <= p < |s'.pc[x].ready| ensures At(s', s'.pc[x].ready[p], Ready(x)) {
          assert ReadyOk(s, x) && At(s, s.pc[x].ready[p], Ready(x));
        }
      }
    }
  }

  /** A step of CPU `c` that keeps lists, and lets clients hold more only of what has not been freed. */
  ghost predicate Gentle(s: State, s': State, c: nat)
    requires Shape(s) && Shape(s')
  {
    && s'.pending == s.pending && |s'.pc| == |s.pc| && s.quiet.Keys <= s'.quiet.Keys
    && (forall o | o in s.place && s.place[o].Pending? :: o in s'.place && s'.place[o] == s.place[o])
    && (forall x | 0 <= x < |s.pc| && x != c :: s'.pc[x] == s.pc[x])
    && (forall o | o in s.place && s.place[o].Ready? && s.place[o].cpu != c ::
          o in s'.place && s'.place[o] == s.place[o])
    && HeldKept(s, s')
    && (forall x, o | 0 <= x < SLOTS && o in s'.held[x] && Quieted(s', x, o) :: Quieted(s, x, o) || At(s, o, Live))
  }

  lemma KeepParts(s: State, s': State, c: nat)
    requires Shape(s) && Shape(s') && Lists(s) && Holds(s) && QuietFree(s) && Gentle(s, s', c)
    requires c < |s.pc| && s'.pc[c].Deleting? ==> ReadyOk(s', c)
    ensures Lists(s') && Holds(s') && QuietFree(s')
  {
    KeepLists(s, s', c);
    KeepHolds(s, s');
    KeepQuietFree(s, s');
  }

  lemma InitInv(r: Rules)
    ensures Inv(r, Init())
  {
  }

  lemma ReserveShape(r: Rules, s: State)
    requires Shape(s) && Holds(s) && Enabled(r, s, Reserve)
    ensures var s' := Do(s, Reserve, r); Shape(s') && Still(s, s', SLOTS) && Holds(s')
  {
    var s' := Do(s, Reserve, r);
    forall c | 0 <= c < |s'.pc| ensures PcShape(s', c) { if c < |s.pc| { assert PcShape(s, c); } }
  }

  lemma ReserveLists(r: Rules, s: State)
    requires Shape(s) && Lists(s) && Enabled(r, s, Reserve) && Shape(Do(s, Reserve, r))
    ensures Lists(Do(s, Reserve, r))
  {
    var s' := Do(s, Reserve, r);
    forall c | 0 <= c < |s'.pc| && s'.pc[c].Deleting? ensures ReadyOk(s', c) {
      assert ReadyOk(s, c);
      forall p | 0 <= p < |s'.pc[c].ready| ensures At(s', s'.pc[c].ready[p], Ready(c)) {
        assert At(s, s.pc[c].ready[p], Ready(c));
      }
    }
    forall i, p | 0 <= i < SLOTS && 0 <= p < |s'.pending[i]| ensures At(s', s'.pending[i][p], Pending(i)) {
      assert At(s, s.pending[i][p], Pending(i));
    }
  }

  lemma ReserveQuiet(r: Rules, s: State)
    requires Shape(s) && QuietFree(s) && Enabled(r, s, Reserve) && Shape(Do(s, Reserve, r))
    ensures QuietFree(Do(s, Reserve, r))
  {
    var s' := Do(s, Reserve, r);
    assert forall x, o :: Quieted(s', x, o) == Quieted(s, x, o);
  }

  lemma ReserveInv(r: Rules, s: State)
    requires Inv(r, s) && Enabled(r, s, Reserve)
    ensures Inv(r, Do(s, Reserve, r))
  {
    var s' := Do(s, Reserve, r);
    ReserveShape(r, s);
    ReserveLists(r, s);
    ReserveQuiet(r, s);
    StillMarks(s, s', SLOTS);
    StillUnmarked(s, s');
    forall c | 0 <= c < |s'.pc| ensures WalkOk(r, s', c) { if c < |s.pc| { StillWalk(r, s, s', SLOTS, c); } }
    forall c | c in s'.mask ensures TargetOk(r, s', c) { StillTarget(r, s, s', SLOTS, c); }
  }

  /** What a step of CPU `c` that leaves the lists alone does to the rest. */
  ghost predicate StepFrame(r: Rules, s: State, s': State, e: nat, c: nat)
    requires Shape(s) && Shape(s')
  {
    && Still(s, s', e) && |s'.pc| == |s.pc| && (e == c || e == SLOTS)
    && (forall x | 0 <= x < |s.pc| && x != c :: s'.pc[x] == s.pc[x])
    && (forall x | x in s'.mask && x !in s.mask :: Young(s, x) && s'.held[x] == {})
    && (forall x, o | x in s'.mask && o in s'.held[x] :: o in s.held[x] || At(s, o, Live))
    && (r.orderly && !(s'.mask <= s.mask) ==> forall x | 0 <= x < |s.pc| :: !s.pc[x].Detaching?)
    && (!r.orderly ==> forall o | o in s.place && (s.place[o].Ready? || s.place[o].Gone?) ::
          o in s'.place && (s'.place[o].Ready? || s'.place[o].Gone?))
  }

  lemma FrameWalk(r: Rules, s: State, s': State, e: nat, c: nat, x: nat)
    requires Shape(s) && Lists(s) && Unmarked(s) && Shape(s') && StepFrame(r, s, s', e, c)
    requires x < |s.pc| && x != c && WalkOk(r, s, x)
    ensures WalkOk(r, s', x)
  {
    forall y, p | y in s'.mask && 0 <= p < |s.pending[x]| && s.pending[x][p] in s'.held[y]
      ensures y in s.mask && s.pending[x][p] in s.held[y]
    {
      var o := s.pending[x][p];
      assert At(s, o, Pending(x));
      assert o in s.held[y] || At(s, o, Live);
    }
    StillWalk(r, s, s', e, x);
  }

  lemma FrameTarget(r: Rules, s: State, s': State, e: nat, c: nat, x: nat)
    requires Shape(s) && Shape(s') && StepFrame(r, s, s', e, c)
    requires x in s'.mask && x != c && (x in s.mask ==> TargetOk(r, s, x))
    ensures TargetOk(r, s', x)
  {
    if x in s.mask { StillTarget(r, s, s', e, x); }
  }

  /** What such a step has to show for the invariant to follow. */
  lemma StillStep(r: Rules, s: State, s': State, e: nat, c: nat)
    requires Inv(r, s) && Shape(s') && StepFrame(r, s, s', e, c)
    requires Lists(s') && Holds(s') && QuietFree(s') && Unmarked(s')
    requires c < |s'.pc| ==> WalkOk(r, s', c)
    requires c in s'.mask ==> TargetOk(r, s', c)
    requires e in s'.mask ==> forall i | 0 <= i < SLOTS :: MarkSpeaks(s', e, i) && LastYoungest(s', e, i)
    ensures Inv(r, s')
  {
    StillMarks(s, s', e);
    forall x | 0 <= x < |s'.pc| ensures WalkOk(r, s', x) { if x != c { FrameWalk(r, s, s', e, c, x); } }
    forall x | x in s'.mask ensures TargetOk(r, s', x) { if x != c { FrameTarget(r, s, s', e, c, x); } }
  }

  /** A step that moves no CPU into the code where marks are gathered or made. */
  lemma PlainStep(r: Rules, s: State, s': State, c: nat)
    requires Inv(r, s) && Shape(s') && StepFrame(r, s, s', SLOTS, c) && Gentle(s, s', c) && Unmarked(s')
    requires c < |s'.pc| ==> !s'.pc[c].Deleting? && !s'.pc[c].Marking? && WalkOk(r, s', c)
    ensures Inv(r, s')
  {
    KeepParts(s, s', c);
    StillStep(r, s, s', SLOTS, c);
  }

  /** Marks, quiet CPUs and observed heads are as they were. */
  ghost predicate SameRecords(s: State, s': State) {
    s'.pending == s.pending && s'.seen == s.seen && s'.quiet == s.quiet && s'.last == s.last
  }

  lemma RecordsStill(s: State, s': State)
    requires Shape(s) && Shape(s') && SameRecords(s, s')
    requires forall c, o | c in s'.mask && c !in s.mask :: !Marked(s', c, o)
    ensures Still(s, s', SLOTS)
  {
    assert forall c, o :: Marked(s', c, o) == Marked(s, c, o);
    assert forall c, o :: Quieted(s', c, o) == Quieted(s, c, o);
    assert forall c, i :: LastOf(s', c, i) == LastOf(s, c, i);
    forall c | c in s'.mask && c in s.mask ensures StillFor(s, s', c) {}
  }

  lemma RecordsUnmarked(s: State, s': State)
    requires Shape(s) && Shape(s') && Unmarked(s) && |s.pc| <= |s'.pc| && s'.seen == s.seen
    requires forall c, o | c in s'.mask && c !in s.mask :: !Marked(s', c, o)
    requires forall o | At(s', o, Live) :: At(s, o, Live)
    requires forall c: nat | Young(s', c) :: Young(s, c)
    requires forall c | 0 <= c < |s'.pc| && (s'.pc[c].Walking? || s'.pc[c].Testing?) ::
        c < |s.pc| && s'.pc[c] == s.pc[c]
    ensures Unmarked(s')
  {
    assert forall c, o :: Marked(s', c, o) == Marked(s, c, o);
    StillUnmarked(s, s');
  }

  /** A step of `c` that changes no list, mark or place. */
  ghost predicate Calm(r: Rules, s: State, s': State, c: nat)
    requires Shape(s) && Shape(s')
  {
    && SameRecords(s, s') && s'.place == s.place && |s'.pc| == |s.pc|
    && (forall x | 0 <= x < |s.pc| && x != c :: s'.pc[x] == s.pc[x])
    && (forall x | x in s'.mask && x !in s.mask :: Young(s, x) && s'.held[x] == {})
    && (forall x, o | 0 <= x < SLOTS && o in s'.held[x] :: o in s.held[x] || At(s, o, Live))
    && (forall x | 0 <= x < |s'.pc| && (x !in s'.mask || !s'.pc[x].Working?) :: s'.held[x] == {})
    && (r.orderly && !(s'.mask <= s.mask) ==> forall x | 0 <= x < |s.pc| :: !s.pc[x].Detaching?)
  }

  lemma CalmFrame(r: Rules, s: State, s': State, c: nat)
    requires Shape(s) && Shape(s') && Unmarked(s) && Calm(r, s, s', c)
    ensures StepFrame(r, s, s', SLOTS, c) && Gentle(s, s', c)
  {
    forall x, o | x in s'.mask && x !in s.mask ensures !Marked(s', x, o) { assert Young(s, x) && !Marked(s, x, o); }
    RecordsStill(s, s');
  }

  /** A calm step that gathers no marks keeps the invariant. */
  lemma CalmStep(r: Rules, s: State, s': State, c: nat)
    requires Inv(r, s) && Shape(s') && Calm(r, s, s', c)
    requires forall x: nat | Young(s', x) :: Young(s, x)
    requires c < |s'.pc| ==> s'.pc[c].Working? || s'.pc[c].Observing?
    ensures Inv(r, s')
  {
    CalmFrame(r, s, s', c);
    CalmUnmarked(r, s, s', c);
    PlainStep(r, s, s', c);
  }

  lemma CalmUnmarked(r: Rules, s: State, s': State, c: nat)
    requires Shape(s) && Shape(s') && Unmarked(s) && Calm(r, s, s', c)
    requires forall x: nat | Young(s', x) :: Young(s, x)
    requires c < |s'.pc| ==> s'.pc[c].Working? || s'.pc[c].Observing?
    ensures Unmarked(s')
  {
    forall x, o | x in s'.mask && x !in s.mask ensures !Marked(s', x, o) { assert Young(s, x) && !Marked(s, x, o); }
    RecordsUnmarked(s, s');
  }

  lemma JoinCalm(r: Rules, s: State, c: nat)
    requires Shape(s) && Holds(s) && Enabled(r, s, Join(c))
    ensures var s' := Do(s, Join(c), r); Shape(s') && Calm(r, s, s', c)
  {
    SameShape(s, Do(s, Join(c), r), c);
  }

  /** A CPU that enters the mask has marked nothing and holds nothing. */
  lemma JoinInv(r: Rules, s: State, c: nat)
    requires Inv(r, s) && Enabled(r, s, Join(c))
    ensures Inv(r, Do(s, Join(c), r))
  {
    JoinCalm(r, s, c);
    CalmStep(r, s, Do(s, Join(c), r), c);
  }

  lemma LeaveCalm(r: Rules, s: State, c: nat)
    requires Shape(s) && Holds(s) && Enabled(r, s, Leave(c))
    ensures var s' := Do(s, Leave(c), r); Shape(s') && Calm(r, s, s', c)
  {
    assert PcShape(s, c);
    SameShape(s, Do(s, Leave(c), r), c);
  }

  lemma LeaveInv(r: Rules, s: State, c: nat)
    requires Inv(r, s) && Enabled(r, s, Leave(c))
    ensures Inv(r, Do(s, Leave(c), r))
  {
    LeaveCalm(r, s, c);
    CalmStep(r, s, Do(s, Leave(c), r), c);
  }

  lemma AllocGentle(r: Rules, s: State, o: nat)
    requires Shape(s) && Unmarked(s) && Holds(s) && Enabled(r, s, Alloc(o))
    ensures var s' := Do(s, Alloc(o), r); Shape(s') && Gentle(s, s', |s.pc|) && Unmarked(s')
  {
    var s' := Do(s, Alloc(o), r);
    SameShape(s, s', |s.pc|);
    StillUnmarked(s, s');
  }

  lemma AllocFrame(r: Rules, s: State, o: nat)
    requires Shape(s) && Lists(s) && Safe(r) && Enabled(r, s, Alloc(o)) && Shape(Do(s, Alloc(o), r))
    ensures StepFrame(r, s, Do(s, Alloc(o), r), SLOTS, |s.pc|)
  {
    forall i, p | 0 <= i < SLOTS && 0 <= p < |s.pending[i]| ensures s.pending[i][p] != o {
      assert At(s, s.pending[i][p], Pending(i));
    }
  }

  lemma AllocInv(r: Rules, s: State, o: nat)
    requires Inv(r, s) && Enabled(r, s, Alloc(o)) && Safe(r)
    ensures Inv(r, Do(s, Alloc(o), r))
  {
    AllocGentle(r, s, o);
    AllocFrame(r, s, o);
    PlainStep(r, s, Do(s, Alloc(o), r), |s.pc|);
  }

  lemma AcquireCalm(r: Rules, s: State, c: nat, o: nat)
    requires Shape(s) && Holds(s) && Enabled(r, s, Acquire(c, o))
    ensures var s' := Do(s, Acquire(c, o), r); Shape(s') && Calm(r, s, s', c)
  {
    assert PcShape(s, c);
    SameShape(s, Do(s, Acquire(c, o), r), c);
  }

  lemma AcquireInv(r: Rules, s: State, c: nat, o: nat)
    requires Inv(r, s) && Enabled(r, s, Acquire(c, o))
    ensures Inv(r, Do(s, Acquire(c, o), r))
  {
    AcquireCalm(r, s, c, o);
    CalmStep(r, s, Do(s, Acquire(c, o), r), c);
  }

  lemma BeginCalm(r: Rules, s: State, c: nat)
    requires Shape(s) && Holds(s) && Enabled(r, s, Begin(c))
    ensures var s' := Do(s, Begin(c), r); Shape(s') && Calm(r, s, s', c)
  {
    SameShape(s, Do(s, Begin(c), r), c);
  }

  /** Starting a checkpoint drops every reference. */
  lemma BeginInv(r: Rules, s: State, c: nat)
    requires Inv(r, s) && Enabled(r, s, Begin(c))
    ensures Inv(r, Do(s, Begin(c), r))
  {
    BeginCalm(r, s, c);
    CalmStep(r, s, Do(s, Begin(c), r), c);
  }

  // ---------------------------------------------------------------- freeing

  /** Pushing an unmarked object onto a list keeps what marks say about it. */
  lemma FreeMarks(s: State, s': State, r: Rules, c: nat, o: nat)
    requires Shape(s) && Lists(s) && Marks(s) && Unmarked(s)
    requires Enabled(r, s, Free(c, o)) && s' == Do(s, Free(c, o), r) && Shape(s')
    ensures Marks(s')
  {
    forall x, i | x in s'.mask && 0 <= i < SLOTS ensures MarkSpeaks(s', x, i) && LastYoungest(s', x, i) {
      assert MarkSpeaks(s, x, i) && LastYoungest(s, x, i);
      assert !Marked(s, x, o);
      if i == c {
        assert forall p | 0 < p < |s'.pending[i]| :: s'.pending[i][p] == s.pending[i][p - 1];
        forall p, q | 0 <= p <= q < |s'.pending[i]| && Marked(s', x, s'.pending[i][p])
          ensures Quieted(s', x, s'.pending[i][q])
        {
          assert Marked(s, x, s.pending[i][p - 1]);
          assert Quieted(s, x, s.pending[i][q - 1]) && At(s, s.pending[i][q - 1], Pending(i));
        }
        forall p | 0 <= p < |s'.pending[i]| && Marked(s', x, s'.pending[i][p])
          ensures exists q :: 0 <= q <= p && LastOf(s', x, i) == Some(s'.pending[i][q])
        {
          assert Marked(s, x, s.pending[i][p - 1]);
          var q :| 0 <= q <= p - 1 && LastOf(s, x, i) == Some(s.pending[i][q]);
          assert s'.pending[i][q + 1] == s.pending[i][q];
        }
      } else {
        forall p, q | 0 <= p <= q < |s'.pending[i]| && Marked(s', x, s'.pending[i][p])
          ensures Quieted(s', x, s'.pending[i][q])
        {
          assert Marked(s, x, s.pending[i][p]);
          assert At(s, s.pending[i][q], Pending(i));
        }
      }
    }
  }

  lemma FreeTarget(s: State, s': State, r: Rules, c: nat, o: nat, x: nat)
    requires Shape(s) && Lists(s) && Unmarked(s) && Enabled(r, s, Free(c, o)) && s' == Do(s, Free(c, o), r) && Shape(s')
    requires x in s.mask && TargetOk(r, s, x)
    ensures TargetOk(r, s', x)
  {
    assert TargetOk(r, s, x);
    assert !Marked(s, x, o);
    if s.pc[x].Marking? {
      assert PcShape(s, x);
      var i, h := s.pc[x].i, s.pc[x].head;
      assert forall p | 0 <= p < |s.pending[i]| :: At(s, s.pending[i][p], Pending(i));
      if OffTarget(r, s, x, i, h) {
        assert OffTarget(r, s', x, i, h);
      } else {
        var q :| OnTarget(s, x, i, h, q);
        assert OnTarget(s', x, i, h, if i == c then q + 1 else q);
      }
    }
  }

  lemma FreeWalk(s: State, s': State, r: Rules, c: nat, o: nat, x: nat)
    requires Shape(s) && Enabled(r, s, Free(c, o)) && s' == Do(s, Free(c, o), r) && Shape(s')
    requires x < |s.pc| && WalkOk(r, s, x)
    ensures WalkOk(r, s', x)
  {
    assert WalkOk(r, s, x);
    if x != c {
      forall y: nat, n: nat | y in s.mask && MarkedAbove(s, y, x, n) ensures MarkedAbove(s', y, x, n) {
        var p :| 0 <= p < n && p < |s.pending[x]| && Marked(s, y, s.pending[x][p]);
        assert Marked(s', y, s'.pending[x][p]);
      }
    }
  }

  lemma FreeShape(s: State, r: Rules, c: nat, o: nat)
    requires Shape(s) && Unmarked(s) && Enabled(r, s, Free(c, o))
    ensures var s' := Do(s, Free(c, o), r); Shape(s') && Unmarked(s')
  {
    var s' := Do(s, Free(c, o), r);
    forall x | 0 <= x < |s'.pc| ensures PcShape(s', x) { assert PcShape(s, x); }
    StillUnmarked(s, s');
  }

  lemma FreeInv(r: Rules, s: State, c: nat, o: nat)
    requires Inv(r, s) && Enabled(r, s, Free(c, o))
    ensures Inv(r, Do(s, Free(c, o), r))
  {
    var s' := Do(s, Free(c, o), r);
    FreeShape(s, r, c, o);
    FreeMarks(s, s', r, c, o);
    forall x | 0 <= x < |s'.pc| ensures WalkOk(r, s', x) { FreeWalk(s, s', r, c, o, x); }
    forall x | x in s'.mask ensures TargetOk(r, s', x) { FreeTarget(s, s', r, c, o, x); }
    FreeLists(s, s', r, c, o);
    FreeHolds(s, s', r, c, o);
  }

  lemma FreeLists(s: State, s': State, r: Rules, c: nat, o: nat)
    requires Shape(s) && Lists(s) && Enabled(r, s, Free(c, o)) && s' == Do(s, Free(c, o), r) && Shape(s')
    ensures Lists(s')
  {
    forall i, p | 0 <= i < SLOTS && 0 <= p < |s'.pending[i]| ensures At(s', s'.pending[i][p], Pending(i)) {
      if i == c && p > 0 { assert At(s, s.pending[i][p - 1], Pending(i)); }
      else if i != c { assert At(s, s.pending[i][p], Pending(i)); }
    }
    assert NoDup(s.pending[c]);
    assert forall p | 0 <= p < |s.pending[c]| :: At(s, s.pending[c][p], Pending(c));
    assert NoDup(s'.pending[c]);
    forall x | 0 <= x < |s'.pc| && s'.pc[x].Deleting? ensures ReadyOk(s', x) {
      assert ReadyOk(s, x);
      forall p | 0 <= p < |s'.pc[x].ready| ensures At(s', s'.pc[x].ready[p], Ready(x)) {
        assert At(s, s.pc[x].ready[p], Ready(x));
      }
    }
  }

  lemma FreeHolds(s: State, s': State, r: Rules, c: nat, o: nat)
    requires Shape(s) && Holds(s) && QuietFree(s) && Enabled(r, s, Free(c, o)) && s' == Do(s, Free(c, o), r)
    requires Shape(s')
    ensures Holds(s') && QuietFree(s')
  {
    assert forall x, p | p != o :: Quieted(s', x, p) == Quieted(s, x, p);
    assert forall x :: !Quieted(s', x, o);
  }

  // ---------------------------------------------------------------- the checkpoint

  /** Observing a head: the observer has no references now, and if the head is not the one last
      observed it carries no mark of the observer. */
  lemma ObserveInv(r: Rules, s: State, c: nat)
    requires Inv(r, s) && c < |s.pc| && s.pc[c].Observing? && s.pc[c].i < SLOTS
    ensures Inv(r, StepObserve(s, c, s.pc[c].i))
  {
    var s' := StepObserve(s, c, s.pc[c].i);
    ObserveShape(s, c);
    ObserveSame(s, c);
    ObserveGentle(s, c);
    ObserveFrame(r, s, c);
    KeepParts(s, s', c);
    ObserveTarget(r, s, c);
    StillStep(r, s, s', SLOTS, c);
  }

  lemma ObserveShape(s: State, c: nat)
    requires Shape(s) && c < |s.pc| && s.pc[c].Observing? && s.pc[c].i < SLOTS
    ensures Shape(StepObserve(s, c, s.pc[c].i))
  {
    SameShape(s, StepObserve(s, c, s.pc[c].i), c);
  }

  lemma ObserveSame(s: State, c: nat)
    requires Shape(s) && c < |s.pc| && s.pc[c].Observing? && s.pc[c].i < SLOTS && Shape(StepObserve(s, c, s.pc[c].i))
    ensures Still(s, StepObserve(s, c, s.pc[c].i), SLOTS)
  {
    var s' := StepObserve(s, c, s.pc[c].i);
    assert forall x, o :: Marked(s', x, o) == Marked(s, x, o);
    assert forall x, o | Quieted(s, x, o) :: Quieted(s', x, o);
    forall x | x in s'.mask && x in s.mask ensures StillFor(s, s', x) {}
  }

  lemma ObserveGentle(s: State, c: nat)
    requires Shape(s) && Holds(s) && c < |s.pc| && s.pc[c].Observing? && s.pc[c].i < SLOTS
    requires Shape(StepObserve(s, c, s.pc[c].i))
    ensures Gentle(s, StepObserve(s, c, s.pc[c].i), c)
  {
    var s' := StepObserve(s, c, s.pc[c].i);
    assert forall x, o | x != c :: Quieted(s', x, o) == Quieted(s, x, o);
  }

  lemma ObserveFrame(r: Rules, s: State, c: nat)
    requires Shape(s) && Unmarked(s) && c < |s.pc| && s.pc[c].Observing? && s.pc[c].i < SLOTS
    requires var s' := StepObserve(s, c, s.pc[c].i); Shape(s') && Still(s, s', SLOTS)
    ensures var s' := StepObserve(s, c, s.pc[c].i); StepFrame(r, s, s', SLOTS, c) && Unmarked(s') && WalkOk(r, s', c)
  {
    StillUnmarked(s, StepObserve(s, c, s.pc[c].i));
  }

  lemma ObserveTarget(r: Rules, s: State, c: nat)
    requires Shape(s) && Marks(s) && c < |s.pc| && s.pc[c].Observing? && s.pc[c].i < SLOTS
    requires Shape(StepObserve(s, c, s.pc[c].i)) && Lists(s)
    ensures c in s.mask ==> TargetOk(r, StepObserve(s, c, s.pc[c].i), c)
  {
    var i := s.pc[c].i;
    var s' := StepObserve(s, c, i);
    if c in s.mask && s'.pc[c].Marking? {
      assert LastYoungest(s, c, i);
      forall p | 0 <= p < |s.pending[i]| ensures Quieted(s', c, s'.pending[i][p]) { assert s.pending[i][p] in s.quiet; }
      assert OnTarget(s', c, i, s.pending[i][0], 0);
    }
  }

  lemma EndObserveInv(r: Rules, s: State, c: nat)
    requires Inv(r, s) && c < |s.pc| && s.pc[c].Observing?
    ensures Inv(r, Goto(s, c, Walking(0, {})))
  {
    SameShape(s, Goto(s, c, Walking(0, {})), c);
    MoveInv(r, s, c, Walking(0, {}));
  }

  /** Unmarkedness when only the position of `c` in the code changes. */
  lemma UnmarkedAcc(s: State, s': State, c: nat)
    requires Shape(s) && Shape(s') && Unmarked(s) && c < |s.pc| == |s'.pc| && !s.pc[c].Joining? && !s'.pc[c].Joining?
    requires s' == Goto(s, c, s'.pc[c])
    requires s'.pc[c].Walking? || s'.pc[c].Testing? ==> forall x: nat | Young(s, x) :: x !in s'.pc[c].acc
    ensures Unmarked(s')
  {
    assert forall x: nat :: Young(s', x) == Young(s, x);
    assert forall x: nat, o: nat :: Marked(s', x, o) == Marked(s, x, o);
  }

  /** A step that changes only where `c` stands in the code. */
  lemma MoveInv(r: Rules, s: State, c: nat, pc: Pc)
    requires Inv(r, s) && c < |s.pc| && InCheckpoint(s.pc[c]) && !pc.Joining? && !pc.Marking? && !pc.Deleting?
    requires PcShape(Goto(s, c, pc), c) && Shape(Goto(s, c, pc))
    requires pc.Walking? || pc.Testing? ==> forall x: nat | Young(s, x) :: x !in pc.acc
    requires WalkOk(r, Goto(s, c, pc), c)
    ensures Inv(r, Goto(s, c, pc))
  {
    var s' := Goto(s, c, pc);
    UnmarkedAcc(s, s', c);
    MoveFrame(r, s, s', c);
    PlainStep(r, s, s', c);
  }

  lemma MoveFrame(r: Rules, s: State, s': State, c: nat)
    requires Shape(s) && Holds(s) && Unmarked(s) && c < |s.pc| == |s'.pc| && InCheckpoint(s.pc[c])
    requires Shape(s') && s' == Goto(s, c, s'.pc[c])
    ensures StepFrame(r, s, s', SLOTS, c) && Gentle(s, s', c)
  {
    CalmFrame(r, s, s', c);
  }

  lemma WalkInv(r: Rules, s: State, c: nat)
    requires Inv(r, s) && c < |s.pc| && s.pc[c].Walking? && s.pc[c].pos <= |s.pending[c]|
    ensures Inv(r, StepWalk(s, c, s.pc[c].pos, s.pc[c].acc))
  {
    var pos, acc := s.pc[c].pos, s.pc[c].acc;
    var s' := StepWalk(s, c, pos, acc);
    assert WalkOk(r, s, c);
    SameShape(s, s', c);
    if pos < |s.pending[c]| {
      var o := s.pending[c][pos];
      forall x: nat | Young(s, x) ensures x !in s'.pc[c].acc { assert !Marked(s, x, o); }
      forall x | x in s'.pc[c].acc && x in s'.mask ensures MarkedAbove(s', x, c, pos + 1) {
        if x in acc {
          assert MarkedAbove(s, x, c, pos);
          var p :| 0 <= p < pos && p < |s.pending[c]| && Marked(s, x, s.pending[c][p]);
          assert Marked(s', x, s'.pending[c][p]);
        } else {
          assert Marked(s', x, s'.pending[c][pos]);
        }
      }
    }
    MoveInv(r, s, c, s'.pc[c]);
  }

  /** When the marks gathered cover the mask, every active CPU has been quiet since each object from
      here on was freed. */
  lemma CoveredMeansQuiet(r: Rules, s: State, c: nat, x: nat, p: nat)
    requires Inv(r, s) && c < |s.pc| && s.pc[c].Testing? && s.mask <= s.pc[c].acc
    requires x in s.mask && s.pc[c].pos <= p < |s.pending[c]|
    ensures Quieted(s, x, s.pending[c][p]) && s.pending[c][p] !in s.held[x]
  {
    assert WalkOk(r, s, c);
    assert MarkedAbove(s, x, c, s.pc[c].pos + 1);
    var q :| 0 <= q < s.pc[c].pos + 1 && q < |s.pending[c]| && Marked(s, x, s.pending[c][q]);
    assert MarkSpeaks(s, x, c);
    assert At(s, s.pending[c][p], Pending(c));
  }

  lemma TestInv(r: Rules, s: State, c: nat)
    requires Inv(r, s) && c < |s.pc| && s.pc[c].Testing?
    ensures var pos, acc := s.pc[c].pos, s.pc[c].acc;
            Inv(r, if s.mask <= acc then Goto(s, c, Detaching(pos)) else Goto(s, c, Walking(pos + 1, acc)))
  {
    var pos, acc := s.pc[c].pos, s.pc[c].acc;
    assert PcShape(s, c) && WalkOk(r, s, c);
    var pc := if s.mask <= acc then Detaching(pos) else Walking(pos + 1, acc);
    var s' := Goto(s, c, pc);
    SameShape(s, s', c);
    forall x, n: nat | x in s.mask && MarkedAbove(s, x, c, n) ensures MarkedAbove(s', x, c, n) {
      var p :| 0 <= p < n && p < |s.pending[c]| && Marked(s, x, s.pending[c][p]);
      assert Marked(s', x, s'.pending[c][p]);
    }
    if s.mask <= acc {
      forall x, p | x in s.mask && pos <= p < |s.pending[c]| ensures s.pending[c][p] !in s.held[x] {
        CoveredMeansQuiet(r, s, c, x, p);
      }
    }
    MoveInv(r, s, c, pc);
  }

  // ---------------------------------------------------------------- marking

  lemma MarkFrame(r: Rules, s: State, c: nat)
    requires Shape(s) && c < |s.pc| && s.pc[c].Marking? && s.pc[c].i < SLOTS
    requires Shape(StepMark(s, c, s.pc[c].i, s.pc[c].head))
    ensures StepFrame(r, s, StepMark(s, c, s.pc[c].i, s.pc[c].head), c, c)
  {
    var s' := StepMark(s, c, s.pc[c].i, s.pc[c].head);
    assert forall x, o | x != c :: Marked(s', x, o) == Marked(s, x, o);
    assert forall x, o | Marked(s, x, o) :: Marked(s', x, o);
    assert forall x, o :: Quieted(s', x, o) == Quieted(s, x, o);
    forall x | x in s'.mask && x in s.mask && x != c ensures StillFor(s, s', x) {}
  }

  lemma MarkGentle(s: State, c: nat)
    requires Shape(s) && Holds(s) && c < |s.pc| && s.pc[c].Marking? && s.pc[c].i < SLOTS
    ensures var s' := StepMark(s, c, s.pc[c].i, s.pc[c].head); Shape(s') && Gentle(s, s', c)
  {
    SameShape(s, StepMark(s, c, s.pc[c].i, s.pc[c].head), c);
  }

  lemma MarkUnmarked(r: Rules, s: State, c: nat)
    requires Inv(r, s) && c < |s.pc| && s.pc[c].Marking? && s.pc[c].i < SLOTS
    requires Shape(StepMark(s, c, s.pc[c].i, s.pc[c].head))
    ensures Unmarked(StepMark(s, c, s.pc[c].i, s.pc[c].head))
  {
    var i, h := s.pc[c].i, s.pc[c].head;
    var s' := StepMark(s, c, i, h);
    assert forall x, o | Marked(s', x, o) :: Marked(s, x, o) || (x == c && o == h);
    assert forall x: nat :: Young(s', x) == Young(s, x);
    if c in s.mask {
      assert TargetOk(r, s, c);
      if !OffTarget(r, s, c, i, h) {
        var q :| OnTarget(s, c, i, h, q);
        assert At(s, h, Pending(i));
      }
      assert !At(s, h, Live);
    }
    forall o, x | At(s', o, Live) && x in s'.mask ensures !Marked(s', x, o) {
      assert At(s, o, Live) && !Marked(s, x, o);
    }
  }

  /** The new mark speaks for everything below it, and is the youngest of its maker. */
  lemma MarkSpeaksAfter(r: Rules, s: State, c: nat, k: nat)
    requires Inv(r, s) && c in s.mask && s.pc[c].Marking? && s.pc[c].i < SLOTS && k < SLOTS
    requires Shape(StepMark(s, c, s.pc[c].i, s.pc[c].head))
    ensures var s' := StepMark(s, c, s.pc[c].i, s.pc[c].head); MarkSpeaks(s', c, k) && LastYoungest(s', c, k)
  {
    var i, h := s.pc[c].i, s.pc[c].head;
    var s' := StepMark(s, c, i, h);
    assert MarkSpeaks(s, c, k) && LastYoungest(s, c, k) && TargetOk(r, s, c);
    assert forall o | o != h :: Marked(s', c, o) == Marked(s, c, o);
    assert forall o :: Quieted(s', c, o) == Quieted(s, c, o);
    if OffTarget(r, s, c, i, h) || k != i {
      forall p | 0 <= p < |s.pending[k]| ensures s.pending[k][p] != h {
        assert At(s, s.pending[k][p], Pending(k));
        if k != i && !OffTarget(r, s, c, i, h) {
          var q :| OnTarget(s, c, i, h, q);
          assert At(s, s.pending[i][q], Pending(i));
        }
      }
    } else {
      var q :| OnTarget(s, c, i, h, q);
      assert NoDup(s.pending[i]);
      assert forall p | 0 <= p < q :: !Marked(s', c, s.pending[i][p]);
      assert LastOf(s', c, i) == Some(s'.pending[i][q]);
    }
  }

  lemma MarkInv(r: Rules, s: State, c: nat)
    requires Inv(r, s) && c < |s.pc| && s.pc[c].Marking? && s.pc[c].i < SLOTS
    ensures Inv(r, StepMark(s, c, s.pc[c].i, s.pc[c].head))
  {
    var s' := StepMark(s, c, s.pc[c].i, s.pc[c].head);
    MarkGentle(s, c);
    MarkFrame(r, s, c);
    KeepParts(s, s', c);
    MarkUnmarked(r, s, c);
    if c in s'.mask {
      forall k | 0 <= k < SLOTS ensures MarkSpeaks(s', c, k) && LastYoungest(s', c, k) { MarkSpeaksAfter(r, s, c, k); }
    }
    StillStep(r, s, s', c, c);
  }

  // ---------------------------------------------------------------- cutting and deleting

  ghost predicate AtCut(r: Rules, s: State, s': State, c: nat)
    requires Shape(s) && c < |s.pc|
  {
    && Lists(s) && WalkOk(r, s, c)
    && s.pc[c].Detaching? && s.pc[c].pos < |s.pending[c]|
    && s' == StepDetach(s, c, s.pc[c].pos)
  }

  lemma CutShape(r: Rules, s: State, s': State, c: nat)
    requires Shape(s) && c < |s.pc| && AtCut(r, s, s', c)
    ensures Shape(s')
    ensures forall o :: o in s.pending[c][s.pc[c].pos..] ==> At(s, o, Pending(c)) && At(s', o, Ready(c))
    ensures forall o :: o !in s.pending[c][s.pc[c].pos..] && o in s.place ==> o in s'.place && s'.place[o] == s.place[o]
  {
    forall x | 0 <= x < |s'.pc| ensures PcShape(s', x) { assert PcShape(s, x); }
  }

  lemma CutLists(r: Rules, s: State, s': State, c: nat)
    requires Shape(s) && c < |s.pc| && AtCut(r, s, s', c) && Shape(s')
    ensures Lists(s')
  {
    CutShape(r, s, s', c);
    var pos := s.pc[c].pos;
    var ready := s.pending[c][pos..];
    assert NoDup(s.pending[c]);
    forall i, p | 0 <= i < SLOTS && 0 <= p < |s'.pending[i]|
      ensures At(s', s'.pending[i][p], Pending(i)) && s'.pending[i][p] in s'.quiet
    {
      var o := s'.pending[i][p];
      assert o == s.pending[i][p] && At(s, o, Pending(i));
    }
    assert forall p | 0 <= p < |ready| :: At(s', ready[p], Ready(c));
    forall x | 0 <= x < |s'.pc| && s'.pc[x].Deleting? && x != c ensures ReadyOk(s', x) {
      assert ReadyOk(s, x);
      forall p | 0 <= p < |s'.pc[x].ready| ensures At(s', s'.pc[x].ready[p], Ready(x)) {
        assert At(s, s.pc[x].ready[p], Ready(x));
      }
    }
  }

  lemma CutHolds(r: Rules, s: State, s': State, c: nat)
    requires Shape(s) && c < |s.pc| && AtCut(r, s, s', c) && Shape(s') && Holds(s) && QuietFree(s) && Unmarked(s)
    ensures Holds(s') && QuietFree(s') && Unmarked(s')
  {
    CutShape(r, s, s', c);
    var pos := s.pc[c].pos;
    assert WalkOk(r, s, c);
    forall x, o | 0 <= x < SLOTS && o in s'.held[x]
      ensures o in s'.place && (s'.place[o].Live? || s'.place[o].Pending?)
    {
      assert x in s.mask;
    }
    forall o | At(s', o, Live) ensures At(s, o, Live) {}
    StillUnmarked(s, s');
  }

  lemma CutMarks(r: Rules, s: State, s': State, c: nat)
    requires Shape(s) && c < |s.pc| && AtCut(r, s, s', c) && Shape(s') && Marks(s)
    ensures Marks(s')
  {
    forall x, i | x in s'.mask && 0 <= i < SLOTS ensures MarkSpeaks(s', x, i) && LastYoungest(s', x, i) {
      assert MarkSpeaks(s, x, i) && LastYoungest(s, x, i);
      assert forall p | 0 <= p < |s'.pending[i]| :: s'.pending[i][p] == s.pending[i][p] && p < |s.pending[i]|;
      forall p, q | 0 <= p <= q < |s'.pending[i]| && Marked(s', x, s'.pending[i][p])
        ensures Quieted(s', x, s'.pending[i][q])
      {
        assert Marked(s, x, s.pending[i][p]);
        assert Quieted(s, x, s.pending[i][q]);
      }
      forall p | 0 <= p < |s'.pending[i]| && Marked(s', x, s'.pending[i][p])
        ensures exists q :: 0 <= q <= p && LastOf(s', x, i) == Some(s'.pending[i][q])
      {
        assert Marked(s, x, s.pending[i][p]);
        var q :| 0 <= q <= p && LastOf(s, x, i) == Some(s.pending[i][q]);
        assert LastOf(s', x, i) == Some(s'.pending[i][q]);
      }
    }
  }

  lemma CutKeepsTarget(r: Rules, s: State, s': State, c: nat, x: nat, i: nat, h: nat, q: int)
    requires Shape(s) && c < |s.pc| && AtCut(r, s, s', c) && Shape(s') && i < SLOTS && OnTarget(s, x, i, h, q)
    requires i == c ==> q < s.pc[c].pos
    ensures OnTarget(s', x, i, h, q)
  {
    assert forall p | 0 <= p < |s'.pending[i]| :: s'.pending[i][p] == s.pending[i][p];
    assert forall o :: Marked(s', x, o) == Marked(s, x, o);
    assert forall o :: Quieted(s', x, o) == Quieted(s, x, o);
  }

  lemma CutLosesTarget(r: Rules, s: State, s': State, c: nat, x: nat, h: nat, q: int)
    requires Shape(s) && c < |s.pc| && AtCut(r, s, s', c) && Shape(s') && OnTarget(s, x, c, h, q) && x in s.mask
    requires s.pc[c].pos <= q
    ensures OffTarget(r, s', x, c, h)
  {
    CutShape(r, s, s', c);
    var pos := s.pc[c].pos;
    if r.orderly { assert false; }
    assert h == s.pending[c][pos..][q - pos];
    assert forall p | 0 <= p < |s'.pending[c]| :: s'.pending[c][p] == s.pending[c][p] && p < q;
    assert forall o :: Marked(s', x, o) == Marked(s, x, o);
  }

  lemma CutStaysOff(r: Rules, s: State, s': State, c: nat, x: nat, i: nat, h: nat)
    requires Shape(s) && c < |s.pc| && AtCut(r, s, s', c) && Shape(s') && i < SLOTS && OffTarget(r, s, x, i, h)
    ensures OffTarget(r, s', x, i, h)
  {
    CutShape(r, s, s', c);
    assert forall p | 0 <= p < |s'.pending[i]| :: s'.pending[i][p] == s.pending[i][p];
    assert forall o :: Marked(s', x, o) == Marked(s, x, o);
  }

  /** A CPU about to mark an object keeps it from being cut, because it has marked nothing at or above it. */
  lemma CutTarget(r: Rules, s: State, s': State, c: nat, x: nat)
    requires Shape(s) && c < |s.pc| && AtCut(r, s, s', c) && Shape(s') && x in s.mask && TargetOk(r, s, x)
    ensures TargetOk(r, s', x)
  {
    if x != c && s.pc[x].Marking? {
      assert PcShape(s, x);
      var i, h := s.pc[x].i, s.pc[x].head;
      if OffTarget(r, s, x, i, h) {
        CutStaysOff(r, s, s', c, x, i, h);
      } else {
        var q :| OnTarget(s, x, i, h, q);
        if i == c && q >= s.pc[c].pos {
          CutLosesTarget(r, s, s', c, x, h, q);
        } else {
          CutKeepsTarget(r, s, s', c, x, i, h, q);
        }
      }
    }
  }

  lemma CutWalk(r: Rules, s: State, s': State, c: nat, x: nat)
    requires Shape(s) && c < |s.pc| && AtCut(r, s, s', c) && Shape(s') && x < |s.pc| && WalkOk(r, s, x)
    ensures WalkOk(r, s', x)
  {
    assert WalkOk(r, s, x);
    if x != c {
      forall y: nat, n: nat | y in s.mask && MarkedAbove(s, y, x, n) ensures MarkedAbove(s', y, x, n) {
        var p :| 0 <= p < n && p < |s.pending[x]| && Marked(s, y, s.pending[x][p]);
        assert Marked(s', y, s'.pending[x][p]);
      }
    }
  }

  lemma CutInv(r: Rules, s: State, c: nat)
    requires Inv(r, s) && c < |s.pc| && s.pc[c].Detaching? && s.pc[c].pos < |s.pending[c]|
    ensures Inv(r, StepDetach(s, c, s.pc[c].pos))
  {
    var s' := StepDetach(s, c, s.pc[c].pos);
    assert WalkOk(r, s, c);
    CutShape(r, s, s', c);
    CutLists(r, s, s', c);
    CutHolds(r, s, s', c);
    CutMarks(r, s, s', c);
    forall x | 0 <= x < |s'.pc| ensures WalkOk(r, s', x) { CutWalk(r, s, s', c, x); }
    forall x | x in s'.mask ensures TargetOk(r, s', x) { CutTarget(r, s, s', c, x); }
  }

  lemma DeleteReady(s: State, c: nat)
    requires Shape(s) && Lists(s) && c < |s.pc| && s.pc[c].Deleting?
    ensures var s' := StepDelete(s, c, s.pc[c].ready);
            && (s'.pc[c].Deleting? ==> ReadyOk(s', c))
            && (s.pc[c].ready != [] ==> At(s, s.pc[c].ready[0], Ready(c)))
  {
    var ready := s.pc[c].ready;
    assert ReadyOk(s, c);
    if ready != [] {
      forall p | 0 <= p < |ready[1..]| ensures At(StepDelete(s, c, ready), ready[1..][p], Ready(c)) {
        assert At(s, ready[p + 1], Ready(c)) && ready[p + 1] != ready[0];
      }
    }
  }

  lemma DeleteFrame(r: Rules, s: State, c: nat)
    requires Shape(s) && c < |s.pc| && s.pc[c].Deleting? && Shape(StepDelete(s, c, s.pc[c].ready))
    ensures StepFrame(r, s, StepDelete(s, c, s.pc[c].ready), SLOTS, c)
  {
    RecordsStill(s, StepDelete(s, c, s.pc[c].ready));
  }

  lemma DeleteGentle(s: State, c: nat)
    requires Shape(s) && Holds(s) && Unmarked(s) && c < |s.pc| && s.pc[c].Deleting?
    requires s.pc[c].ready != [] ==> At(s, s.pc[c].ready[0], Ready(c))
    ensures var s' := StepDelete(s, c, s.pc[c].ready); Shape(s') && Gentle(s, s', c) && Unmarked(s')
  {
    var s' := StepDelete(s, c, s.pc[c].ready);
    SameShape(s, s', c);
    RecordsUnmarked(s, s');
  }

  lemma DeleteInv(r: Rules, s: State, c: nat)
    requires Inv(r, s) && c < |s.pc| && s.pc[c].Deleting?
    ensures Inv(r, StepDelete(s, c, s.pc[c].ready))
  {
    var s' := StepDelete(s, c, s.pc[c].ready);
    DeleteReady(s, c);
    DeleteGentle(s, c);
    DeleteFrame(r, s, c);
    KeepParts(s, s', c);
    StillStep(r, s, s', SLOTS, c);
  }

  // ---------------------------------------------------------------- whole runs

  lemma LookInv(r: Rules, s: State, c: nat)
    requires Inv(r, s) && Enabled(r, s, Advance(c)) && (s.pc[c].Observing? || s.pc[c].Marking?)
    ensures Inv(r, Do(s, Advance(c), r))
  {
    assert PcShape(s, c);
    if s.pc[c].Marking? { MarkInv(r, s, c); }
    else if s.pc[c].i < SLOTS { ObserveInv(r, s, c); }
    else { EndObserveInv(r, s, c); }
  }

  lemma ServiceInv(r: Rules, s: State, c: nat)
    requires Inv(r, s) && Enabled(r, s, Advance(c)) && !s.pc[c].Observing? && !s.pc[c].Marking?
    ensures Inv(r, Do(s, Advance(c), r))
  {
    assert PcShape(s, c);
    if s.pc[c].Walking? { WalkInv(r, s, c); }
    else if s.pc[c].Testing? { TestInv(r, s, c); }
    else if s.pc[c].Detaching? { CutInv(r, s, c); }
    else { DeleteInv(r, s, c); }
  }

  lemma StepInv(r: Rules, s: State, a: Action)
    requires Inv(r, s) && Enabled(r, s, a) && Safe(r)
    ensures Inv(r, Do(s, a, r))
  {
    match a
    case Reserve => ReserveInv(r, s);
    case Join(c) => JoinInv(r, s, c);
    case Leave(c) => LeaveInv(r, s, c);
    case Alloc(o) => AllocInv(r, s, o);
    case Acquire(c, o) => AcquireInv(r, s, c, o);
    case Free(c, o) => FreeInv(r, s, c, o);
    case Begin(c) => BeginInv(r, s, c);
    case Advance(c) =>
      if s.pc[c].Observing? || s.pc[c].Marking? { LookInv(r, s, c); } else { ServiceInv(r, s, c); }
  }

  lemma {:induction false} RunInv(r: Rules, run: seq<State>)
    requires IsRun(r, run) && Safe(r)
    ensures Inv(r, run[|run| - 1])
    decreases |run|
  {
    var n := |run| - 1;
    if n == 0 {
      InitInv(r);
    } else {
      RunInv(r, run[..n]);
      assert Moves(r, run[n - 1], run[n]);
      var a: Action :| Enabled(r, run[n - 1], a) && Do(run[n - 1], a, r) == run[n];
      StepInv(r, run[n - 1], a);
    }
  }

  /** The machine never blocks: any enabled action extends any run. */
  lemma RunExtends(r: Rules, run: seq<State>, a: Action)
    requires IsRun(r, run) && Shape(run[|run| - 1]) && Enabled(r, run[|run| - 1], a)
    ensures IsRun(r, run + [Do(run[|run| - 1], a, r)])
  {
    var s := run[|run| - 1];
    var more := run + [Do(s, a, r)];
    forall i: nat | i + 1 < |more| ensures Moves(r, more[i], more[i + 1]) {
      if i + 1 < |run| { assert Moves(r, run[i], run[i + 1]); }
    }
  }

  /** What an active CPU holds is neither deleted nor about to be. */
  ghost predicate HoldsOnlyIntact(s: State) {
    |s.held| == SLOTS &&
    forall c: nat, o | c in s.mask && c < SLOTS && o in s.held[c] ::
        o in s.place && !s.place[o].Ready? && !s.place[o].Gone?
  }

  lemma SafeRuns(r: Rules, run: seq<State>)
    requires IsRun(r, run) && Safe(r)
    ensures HoldsOnlyIntact(run[|run| - 1])
  {
    RunInv(r, run);
  }

  /** An object is cut for deletion only after every CPU active at that moment has been inside a
      checkpoint since the object was freed. */
  lemma CutOnlyAfterAllQuiet(r: Rules, run: seq<State>, c: nat, p: nat)
    requires IsRun(r, run) && Safe(r)
    requires var s := run[|run| - 1];
             Shape(s) && c < |s.pc| && s.pc[c].Testing? && s.mask <= s.pc[c].acc && s.pc[c].pos <= p < |s.pending[c]|
    ensures var s := run[|run| - 1]; forall x | x in s.mask :: Quieted(s, x, s.pending[c][p])
  {
    RunInv(r, run);
    var s := run[|run| - 1];
    forall x | x in s.mask ensures Quieted(s, x, s.pending[c][p]) { CoveredMeansQuiet(r, s, c, x, p); }
  }

  /** When registrations are orderly, the object an active CPU is about to mark has not been deleted. */
  lemma MarksIntactObject(r: Rules, run: seq<State>, c: nat)
    requires IsRun(r, run) && r.orderly
    requires var s := run[|run| - 1]; Shape(s) && c in s.mask && s.pc[c].Marking?
    ensures var s := run[|run| - 1]; At(s, s.pc[c].head, Pending(s.pc[c].i))
  {
    RunInv(r, run);
    var s := run[|run| - 1];
    assert TargetOk(r, s, c) && PcShape(s, c);
    var q :| OnTarget(s, c, s.pc[c].i, s.pc[c].head, q);
  }
}
