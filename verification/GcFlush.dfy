/** The flush barrier (src/gc.cc, `gc_flush_control`; src/cpu.cc).

A flusher enqueues a waiter under the mutex and sleeps until the CPUs that have checkpointed since cover the
mask. Loading `flushes`, acquiring and releasing the mutex, marking the waiter, testing the mask,
registrations and exits are separate steps. One flush is in progress at a time, as the code requires. Client
operations carry the time at which they began. */
module GcFlush {
  import opened Basics

  /** Why a CPU wants the mutex: an ordinary checkpoint, the checkpoint after `cpu_exit`, or `force_checkpoint`. */
  datatype Reason = Normal | Late | Force

  datatype Pc =
    | Idle
    | Operating(since: nat)
    | Wanting(why: Reason)       // about to acquire the mutex
    | Holding(why: Reason)       // checkpoint_locked: about to mark the waiter
    | Checking(why: Reason)      // checkpoint_locked: about to test the mask and notify
    | Unlocking(why: Reason)     // about to release the mutex
    | Exited                     // has left the mask, about to load flushes
    | Out
    | FlushWanting               // flush: about to acquire the mutex
    | FlushHolding               // flush: about to enqueue
    | FlushSelf                  // flush: about to run checkpoint_locked itself
    | FlushTesting               // flush: about to test the mask
    | FlushSleeping              // flush: asleep, mutex released
    | FlushLeaving               // flush: about to dequeue and return

  /** History: when the flush was enqueued and when its last test of the mask was made; when each CPU last
      marked the waiter and when it registered. */
  datatype Past = Past(enqueuedAt: nat, testedAt: nat, markedAt: map<nat, nat>, joinedAt: map<nat, nat>)

  datatype State = State(mask: set<nat>, pc: map<nat, Pc>, lock: Option<nat>, flushes: Option<set<nat>>,
                         flusher: Option<nat>, notified: bool, now: nat, past: Past)

  datatype Action =
    | Join(c: nat)
    | BeginOp(c: nat)
    | EndOp(c: nat)
    | Exit(c: nat)
    | StartFlush(c: nat)
    | Advance(c: nat)

  predicate IsFlusher(pc: Pc) {
    pc.FlushWanting? || pc.FlushHolding? || pc.FlushSelf? || pc.FlushTesting? || pc.FlushSleeping? || pc.FlushLeaving?
  }

  predicate HasLock(pc: Pc) {
    || pc.Holding? || pc.Checking? || pc.Unlocking?
    || pc.FlushHolding? || pc.FlushSelf? || pc.FlushTesting? || pc.FlushLeaving?
  }

  predicate IsLeaving(pc: Pc) { pc.FlushLeaving? }

  predicate IsSleeping(pc: Pc) { pc.FlushSleeping? }

  predicate Waiting(pc: Pc) { pc.FlushSelf? || pc.FlushTesting? || pc.FlushSleeping? || pc.FlushLeaving? }

  predicate Leaving(pc: Pc) {
    pc.Exited? || ((pc.Wanting? || pc.Holding? || pc.Checking? || pc.Unlocking?) && !pc.why.Normal?)
  }

  /** Will still test the mask: inside `checkpoint_locked`, or on the way out before the end of
      `force_checkpoint`. */
  predicate WillTest(pc: Pc) { pc.Checking? || (Leaving(pc) && pc != Unlocking(Force)) }

  predicate Enabled(s: State, a: Action) {
    match a
    case Join(c) => c !in s.pc
    case BeginOp(c) => c in s.pc && s.pc[c].Idle?
    case EndOp(c) => c in s.pc && s.pc[c].Operating?
    case Exit(c) => c in s.pc && s.pc[c].Idle?
    case StartFlush(c) => c in s.pc && s.pc[c].Idle? && s.flusher.None?
    case Advance(c) =>
      && c in s.pc && !s.pc[c].Out? && !s.pc[c].Operating?
      && (s.pc[c].Wanting? || s.pc[c].FlushWanting? || s.pc[c].FlushSleeping? ==> s.lock.None?)
  }

  function Goto(s: State, c: nat, pc: Pc): State { s.(pc := s.pc[c := pc]) }

  function AfterUnlock(why: Reason): Pc {
    match why case Normal => Idle case Late => Wanting(Force) case Force => Out
  }

  /** The mark that `checkpoint_locked` makes. */
  function Mark(s: State, c: nat): State {
    if s.flushes.None? then s
    else s.(flushes := Some(s.flushes.value + {c}), past := s.past.(markedAt := s.past.markedAt[c := s.now]))
  }

  function Move(s: State, c: nat): State
    requires c in s.pc
  {
    match s.pc[c]
    case Idle => if s.flushes.None? then s else Goto(s, c, Wanting(Normal))
    case Wanting(why) => Goto(s, c, Holding(why)).(lock := Some(c))
    case Holding(why) => Goto(Mark(s, c), c, Checking(why))
    case Checking(why) =>
      Goto(s, c, Unlocking(why)).(notified := s.notified || (s.flushes.Some? && s.mask <= s.flushes.value))
    case Unlocking(why) => Goto(s, c, AfterUnlock(why)).(lock := None)
    case Exited => Goto(s, c, Wanting(if s.flushes.None? then Force else Late))
    case FlushWanting => Goto(s, c, FlushHolding).(lock := Some(c))
    case FlushHolding =>
      Goto(s, c, FlushSelf).(flushes := Some({}), past := s.past.(enqueuedAt := s.now), notified := false)
    case FlushSelf => Goto(Mark(s, c), c, FlushTesting)
    case FlushTesting =>
      var tested := s.(past := s.past.(testedAt := s.now));
      if s.flushes.Some? && s.mask <= s.flushes.value then Goto(tested, c, FlushLeaving)
      else Goto(tested, c, FlushSleeping).(lock := None, notified := false)
    case FlushSleeping => Goto(s, c, FlushTesting).(lock := Some(c))
    case FlushLeaving => Goto(s, c, Idle).(lock := None, flushes := None, flusher := None)
    case _ => s
  }

  /** Time passes with every step. */
  function Do(s: State, a: Action): State
    requires Enabled(s, a)
  {
    var t :=
      match a
      case Join(c) =>
        Goto(s, c, Idle).(mask := s.mask + {c}, past := s.past.(joinedAt := s.past.joinedAt[c := s.now]))
      case BeginOp(c) => Goto(s, c, Operating(s.now))
      case EndOp(c) => Goto(s, c, Idle)
      case Exit(c) => Goto(s, c, Exited).(mask := s.mask - {c})
      case StartFlush(c) => Goto(s, c, FlushWanting).(flusher := Some(c))
      case Advance(c) => Move(s, c);
    t.(now := s.now + 1)
  }

  const INIT: State := State({}, map[], None, None, None, false, 1, Past(0, 0, map[], map[]))

  ghost predicate IsRun(run: seq<State>) {
    && run != [] && run[0] == INIT
    && forall i: nat | i + 1 < |run| :: Moves(run[i], run[i + 1])
  }

  ghost predicate Moves(s: State, s': State) { exists a: Action :: Enabled(s, a) && Do(s, a) == s' }

  // ---------------------------------------------------------------- invariants

  ghost predicate CpuOk(s: State, c: nat)
    requires c in s.pc
  {
    && (HasLock(s.pc[c]) <==> s.lock == Some(c))
    && (IsFlusher(s.pc[c]) <==> s.flusher == Some(c))
    && (c in s.mask <==> !Leaving(s.pc[c]) && !s.pc[c].Out?)
  }

  predicate FlusherAt(s: State, p: Pc -> bool) {
    s.flusher.Some? && s.flusher.value in s.pc && p(s.pc[s.flusher.value])
  }

  ghost predicate Known(s: State) {
    && s.mask <= s.pc.Keys
    && (s.lock.Some? ==> s.lock.value in s.pc) && (s.flusher.Some? ==> s.flusher.value in s.pc)
  }

  ghost predicate FlushesOk(s: State) {
    (s.flushes.Some? <==> FlusherAt(s, Waiting)) && (s.flushes.Some? ==> s.flushes.value <= s.pc.Keys)
  }

  ghost predicate Locks(s: State) { (forall c | c in s.pc :: CpuOk(s, c)) && Known(s) && FlushesOk(s) }

  ghost predicate BegunBefore(s: State, c: nat) {
    c in s.pc && s.pc[c].Operating? && s.pc[c].since <= s.past.enqueuedAt
  }

  ghost predicate AllFresh(s: State, cs: set<nat>) { forall c | c in cs && c in s.mask :: !BegunBefore(s, c) }

  /** No CPU that has checkpointed since the flush was enqueued is still in an operation begun before. */
  ghost predicate Fresh(s: State) {
    && s.past.enqueuedAt < s.now
    && (forall c | c in s.pc && s.pc[c].Operating? :: s.pc[c].since < s.now)
    && (s.flushes.Some? ==> AllFresh(s, s.flushes.value))
    && (FlusherAt(s, IsLeaving) ==> AllFresh(s, s.mask))
  }

  ghost predicate CouldGoOn(s: State) {
    FlusherAt(s, IsSleeping) && s.flushes.Some? && s.mask <= s.flushes.value
  }

  /** If the sleeping flusher could go on, it has been woken or will be by a CPU on its way out. */
  ghost predicate WakeDue(s: State) {
    CouldGoOn(s) && !s.notified ==> exists c :: c in s.pc && WillTest(s.pc[c])
  }

  ghost predicate MarkedSince(s: State, x: nat) { x in s.past.markedAt && s.past.markedAt[x] > s.past.enqueuedAt }

  ghost predicate JoinedSince(s: State, x: nat) { x in s.past.joinedAt && s.past.joinedAt[x] > s.past.testedAt }

  /** Whoever the waiter has seen has marked it since it was enqueued. */
  ghost predicate Since(s: State) {
    && s.past.enqueuedAt < s.now && s.past.testedAt < s.now
    && (s.flushes.Some? ==> forall x | x in s.flushes.value :: MarkedSince(s, x))
    && (FlusherAt(s, IsLeaving) ==> forall x | x in s.mask :: MarkedSince(s, x) || JoinedSince(s, x))
  }

  ghost predicate Inv(s: State) { Locks(s) && Fresh(s) && Since(s) && WakeDue(s) }

  /** The lock and the place of the flusher are taken and given up by the CPU that moves. */
  ghost predicate OwnStep(s: State, s': State, c: nat) {
    && s'.pc.Keys == s.pc.Keys + {c} && (forall x | x in s.pc && x != c :: s'.pc[x] == s.pc[x])
    && (s'.lock == s.lock || (s.lock.None? && s'.lock == Some(c)) || (s.lock == Some(c) && s'.lock.None?))
    && (s'.flusher == s.flusher || (s.flusher.None? && s'.flusher == Some(c))
          || (s.flusher == Some(c) && s'.flusher.None?))
    && forall x | x != c :: x in s'.mask <==> x in s.mask
  }

  lemma OtherLocks(s: State, s': State, c: nat)
    requires (forall x | x in s.pc :: CpuOk(s, x)) && Known(s) && OwnStep(s, s', c) && CpuOk(s', c)
    ensures (forall x | x in s'.pc :: CpuOk(s', x)) && Known(s')
  {
    forall x | x in s'.pc ensures CpuOk(s', x) { if x != c { assert CpuOk(s, x); } }
  }

  lemma SelfClient(s: State, a: Action)
    requires Known(s) && Enabled(s, a) && !a.Advance? && (a.c in s.pc ==> CpuOk(s, a.c))
    ensures OwnStep(s, Do(s, a), a.c) && CpuOk(Do(s, a), a.c)
  {
  }

  lemma MoveOwn(s: State, c: nat)
    requires Known(s) && Enabled(s, Advance(c)) && CpuOk(s, c)
    ensures OwnStep(s, Do(s, Advance(c)), c)
  {
  }

  lemma MoveCpu(s: State, c: nat)
    requires Enabled(s, Advance(c)) && CpuOk(s, c) && !IsFlusher(s.pc[c])
    ensures CpuOk(Do(s, Advance(c)), c)
  {
  }

  lemma MoveFlusher(s: State, c: nat)
    requires Enabled(s, Advance(c)) && CpuOk(s, c) && IsFlusher(s.pc[c])
    ensures CpuOk(Do(s, Advance(c)), c)
  {
  }

  lemma ClientFlushes(s: State, a: Action)
    requires Known(s) && FlushesOk(s) && Enabled(s, a) && !a.Advance? && (a.c in s.pc ==> CpuOk(s, a.c))
    ensures FlushesOk(Do(s, a))
  {
  }

  lemma CpuFlushes(s: State, c: nat)
    requires Known(s) && FlushesOk(s) && Enabled(s, Advance(c)) && CpuOk(s, c)
    ensures FlushesOk(Do(s, Advance(c)))
  {
  }

  lemma StepLocks(s: State, a: Action)
    requires Locks(s) && Enabled(s, a)
    ensures Locks(Do(s, a))
  {
    if a.c in s.pc { assert CpuOk(s, a.c); }
    if !a.Advance? {
      SelfClient(s, a);
      ClientFlushes(s, a);
    } else {
      MoveOwn(s, a.c);
      if IsFlusher(s.pc[a.c]) { MoveFlusher(s, a.c); } else { MoveCpu(s, a.c); }
      CpuFlushes(s, a.c);
    }
    OtherLocks(s, Do(s, a), a.c);
  }

  /** Operations in progress, other than that of `c`, begin no earlier than they did. */
  lemma FreshKept(s: State, s': State, c: nat, cs: set<nat>, cs': set<nat>)
    requires AllFresh(s, cs) && s'.past.enqueuedAt == s.past.enqueuedAt
    requires forall x | x in s'.pc && x != c :: x in s.pc && s'.pc[x] == s.pc[x]
    requires forall x | x in cs' && x in s'.mask && x != c :: x in cs && x in s.mask
    requires !BegunBefore(s', c)
    ensures AllFresh(s', cs')
  {
    forall x | x in cs' && x in s'.mask ensures !BegunBefore(s', x) {
      if x != c { assert !BegunBefore(s, x); }
    }
  }

  lemma ClientFresh(s: State, a: Action)
    requires Locks(s) && Fresh(s) && Enabled(s, a) && !a.Advance?
    ensures Fresh(Do(s, a))
  {
    var s' := Do(s, a);
    if s.flusher.Some? { assert CpuOk(s, s.flusher.value); }
    if s'.flushes.Some? { FreshKept(s, s', a.c, s.flushes.value, s'.flushes.value); }
    if FlusherAt(s', IsLeaving) { FreshKept(s, s', a.c, s.mask, s'.mask); }
  }

  lemma CpuFresh(s: State, c: nat)
    requires Locks(s) && Fresh(s) && Enabled(s, Advance(c)) && !IsFlusher(s.pc[c])
    ensures Fresh(Do(s, Advance(c)))
  {
    var s' := Do(s, Advance(c));
    assert CpuOk(s, c);
    if s'.flushes.Some? { FreshKept(s, s', c, s.flushes.value, s'.flushes.value); }
    if FlusherAt(s', IsLeaving) { FreshKept(s, s', c, s.mask, s'.mask); }
  }

  lemma FlusherFresh(s: State, c: nat)
    requires Locks(s) && Fresh(s) && Enabled(s, Advance(c)) && IsFlusher(s.pc[c])
    ensures Fresh(Do(s, Advance(c)))
  {
    var s' := Do(s, Advance(c));
    assert CpuOk(s, c);
    if s'.flushes.Some? && s.flushes.Some? { FreshKept(s, s', c, s.flushes.value, s'.flushes.value); }
    if FlusherAt(s', IsLeaving) { FreshKept(s, s', c, s.flushes.value, s'.mask); }
  }

  lemma StepFresh(s: State, a: Action)
    requires Locks(s) && Fresh(s) && Enabled(s, a)
    ensures Fresh(Do(s, a))
  {
    if !a.Advance? { ClientFresh(s, a); }
    else if IsFlusher(s.pc[a.c]) { FlusherFresh(s, a.c); }
    else { CpuFresh(s, a.c); }
  }

  lemma StepWake(s: State, a: Action)
    requires Locks(s) && WakeDue(s) && Enabled(s, a)
    ensures WakeDue(Do(s, a))
  {
    var s' := Do(s, a);
    if a.c in s.pc { assert CpuOk(s, a.c); }
    if s.flusher.Some? { assert CpuOk(s, s.flusher.value); }
    if CouldGoOn(s') && !s'.notified {
      if a.Exit? {
        assert WillTest(s'.pc[a.c]);
      } else if CouldGoOn(s) {
        var c :| c in s.pc && WillTest(s.pc[c]);
        assert WillTest(s'.pc[c]);
      } else if a.c in s.pc && s.pc[a.c].Holding? {
        assert WillTest(s'.pc[a.c]);
      }
    }
  }

  lemma CpuSince(s: State, c: nat)
    requires Known(s) && FlushesOk(s) && Since(s) && Enabled(s, Advance(c)) && CpuOk(s, c) && !IsFlusher(s.pc[c])
    ensures Since(Do(s, Advance(c)))
  {
    var s' := Do(s, Advance(c));
    assert forall x | MarkedSince(s, x) :: MarkedSince(s', x);
    assert forall x | JoinedSince(s, x) :: JoinedSince(s', x);
  }

  lemma FlusherSince(s: State, c: nat)
    requires Known(s) && FlushesOk(s) && Since(s) && Enabled(s, Advance(c)) && CpuOk(s, c) && IsFlusher(s.pc[c])
    ensures Since(Do(s, Advance(c)))
  {
    var s' := Do(s, Advance(c));
    if !s.pc[c].FlushHolding? { assert forall x | MarkedSince(s, x) :: MarkedSince(s', x); }
  }

  lemma StepSince(s: State, a: Action)
    requires Locks(s) && Since(s) && Enabled(s, a)
    ensures Since(Do(s, a))
  {
    if !a.Advance? {
      ClientSince(s, a);
    } else {
      assert CpuOk(s, a.c);
      if IsFlusher(s.pc[a.c]) { FlusherSince(s, a.c); } else { CpuSince(s, a.c); }
    }
  }

  lemma ClientSince(s: State, a: Action)
    requires Locks(s) && Since(s) && Enabled(s, a) && !a.Advance?
    ensures Since(Do(s, a))
  {
    var s' := Do(s, a);
    if s.flusher.Some? { assert CpuOk(s, s.flusher.value); }
    assert forall x | MarkedSince(s, x) :: MarkedSince(s', x);
    assert forall x | JoinedSince(s, x) :: JoinedSince(s', x);
    if a.Join? { assert JoinedSince(s', a.c); }
  }

  lemma {:induction false} RunInv(run: seq<State>)
    requires IsRun(run)
    ensures Inv(run[|run| - 1])
    decreases |run|
  {
    var n := |run| - 1;
    if n > 0 {
      RunInv(run[..n]);
      assert Moves(run[n - 1], run[n]);
      var a: Action :| Enabled(run[n - 1], a) && Do(run[n - 1], a) == run[n];
      StepLocks(run[n - 1], a);
      StepFresh(run[n - 1], a);
      StepSince(run[n - 1], a);
      StepWake(run[n - 1], a);
    }
  }

  /** The barrier: when a flush returns, every active CPU has run a checkpoint since the flush was enqueued, or
      has registered since its last test of the mask; and no active CPU is still inside an operation that
      began before the flush was enqueued. */
  lemma FlushIsBarrier(run: seq<State>, c: nat)
    requires IsRun(run)
    requires var s := run[|run| - 1]; c in s.pc && s.pc[c].FlushLeaving?
    ensures var s := run[|run| - 1]; forall x | x in s.mask :: MarkedSince(s, x) || JoinedSince(s, x)
    ensures var s := run[|run| - 1];
            forall x | x in s.mask && x in s.pc && s.pc[x].Operating? :: s.pc[x].since > s.past.enqueuedAt
  {
    RunInv(run);
    var s := run[|run| - 1];
    assert CpuOk(s, c);
    forall x | x in s.mask && x in s.pc && s.pc[x].Operating? ensures s.pc[x].since > s.past.enqueuedAt {
      assert !BegunBefore(s, x);
    }
  }

  /** No wake-up is lost: a flusher asleep although every active CPU has checkpointed has been notified, or some
      CPU inside a checkpoint or on its way out has yet to test the mask, and then notifies. */
  lemma NoLostWakeUp(run: seq<State>)
    requires IsRun(run)
    ensures var s := run[|run| - 1];
            CouldGoOn(s) ==> s.notified || exists c :: c in s.pc && WillTest(s.pc[c])
  {
    RunInv(run);
  }

  // ---------------------------------------------------------------- what the clocks and the test mean

  /** The times of marks are those at which CPUs enter the waiter's marks. */
  lemma MarksMean(s: State, a: Action)
    requires Locks(s) && Enabled(s, a)
    ensures var s' := Do(s, a);
            s'.flushes.Some? ==>
              forall x | x in s'.flushes.value && (s.flushes.None? || x !in s.flushes.value) ::
                x == a.c && MarkedAt(s', x, s.now)
    ensures var s' := Do(s, a);
            forall x, n | MarkedAt(s', x, n) && !MarkedAt(s, x, n) ::
              x == a.c && n == s.now && s'.flushes.Some? && x in s'.flushes.value
  {
    if a.c in s.pc { assert CpuOk(s, a.c); }
  }

  /** The other clocks too are set by the events they are named after, and by nothing else: a waiter appears, a
      CPU enters the mask, an operation begins. */
  lemma ClocksMean(s: State, a: Action)
    requires Locks(s) && Enabled(s, a)
    ensures var s' := Do(s, a);
            s'.now == s.now + 1 && s'.past.enqueuedAt == if s.flushes.None? && s'.flushes.Some? then s.now
                                                         else s.past.enqueuedAt
    ensures var s' := Do(s, a);
            && (forall x | x in s'.mask && x !in s.mask :: JoinedAt(s', x, s.now))
            && (forall x, n | JoinedAt(s', x, n) && !JoinedAt(s, x, n) :: x in s'.mask && x !in s.mask && n == s.now)
    ensures var s' := Do(s, a);
            forall x, n | InOperation(s', x, n) && !InOperation(s, x, n) ::
              x == a.c && n == s.now && x in s.pc && s.pc[x].Idle?
  {
    if a.c in s.pc { assert CpuOk(s, a.c); }
  }

  predicate MarkedAt(s: State, x: nat, n: nat) { x in s.past.markedAt && s.past.markedAt[x] == n }

  predicate JoinedAt(s: State, x: nat, n: nat) { x in s.past.joinedAt && s.past.joinedAt[x] == n }

  predicate InOperation(s: State, x: nat, n: nat) { x in s.pc && s.pc[x] == Operating(n) }

  // ---------------------------------------------------------------- a flush can always return

  ghost function Last(run: seq<State>): State
    requires run != []
  {
    run[|run| - 1]
  }

  lemma RunExtends(run: seq<State>, a: Action) returns (more: seq<State>)
    requires IsRun(run) && Enabled(Last(run), a)
    ensures IsRun(more) && run <= more && Last(more) == Do(Last(run), a)
  {
    more := run + [Do(Last(run), a)];
    forall i: nat | i + 1 < |more| ensures Moves(more[i], more[i + 1]) {
      if i + 1 < |run| { assert Moves(run[i], run[i + 1]); }
    }
  }

  predicate HasTested(pc: Pc) { pc.FlushTesting? || pc.FlushSleeping? || pc.FlushLeaving? }

  /** A flusher has marked its own waiter before it tests. */
  ghost predicate SelfMarked(s: State) {
    FlusherAt(s, HasTested) && s.flushes.Some? ==> s.flusher.value in s.flushes.value
  }

  lemma StepSelf(s: State, a: Action)
    requires Locks(s) && SelfMarked(s) && Enabled(s, a)
    ensures SelfMarked(Do(s, a))
  {
    if a.c in s.pc { assert CpuOk(s, a.c); }
    if s.flusher.Some? { assert CpuOk(s, s.flusher.value); }
  }

  lemma LastStep(run: seq<State>) returns (front: seq<State>, a: Action)
    requires IsRun(run) && |run| > 1
    ensures IsRun(front) && |front| == |run| - 1 && Locks(Last(front))
    ensures Enabled(Last(front), a) && Do(Last(front), a) == Last(run)
  {
    var n := |run| - 1;
    front := run[..n];
    RunInv(front);
    assert Moves(run[n - 1], run[n]);
    a :| Enabled(run[n - 1], a) && Do(run[n - 1], a) == run[n];
  }

  lemma {:induction false} SelfHolds(run: seq<State>)
    requires IsRun(run)
    ensures SelfMarked(Last(run))
    decreases |run|
  {
    if |run| > 1 {
      var front, a := LastStep(run);
      SelfHolds(front);
      StepSelf(Last(front), a);
    }
  }

  lemma RunSelf(run: seq<State>)
    requires IsRun(run)
    ensures Locks(Last(run)) && SelfMarked(Last(run))
  {
    RunInv(run);
    SelfHolds(run);
  }

  /** The mask is the same, and the waiter keeps its marks until it leaves. */
  predicate Onward(s: State, s': State) {
    && s'.mask == s.mask && (s'.flusher.None? || s'.flusher == s.flusher)
    && (s'.flusher.Some? && s.flushes.Some? ==> s'.flushes.Some? && s.flushes.value <= s'.flushes.value)
  }

  /** Steps that the holder of the mutex has left before it releases it. */
  function StepsHeld(pc: Pc): nat {
    match pc
    case Holding(_) => 3
    case Checking(_) => 2
    case Unlocking(_) => 1
    case FlushHolding => 4
    case FlushSelf => 3
    case FlushTesting => 2
    case FlushLeaving => 1
    case _ => 0
  }

  predicate Rests(s: State, c: nat) { c in s.pc && (s.pc[c].FlushWanting? || s.pc[c].FlushSleeping?) }

  predicate Returned(s: State, c: nat) {
    s.lock.None? && s.flushes.None? && s.flusher.None? && c in s.pc && s.pc[c].Idle?
  }

  lemma HolderMoves(s: State, x: nat)
    requires Locks(s) && s.lock == Some(x)
    ensures Enabled(s, Advance(x)) && Onward(s, Do(s, Advance(x)))
    ensures var s' := Do(s, Advance(x));
            s'.lock.None? || (s'.lock == s.lock && StepsHeld(s'.pc[x]) < StepsHeld(s.pc[x]))
    ensures var s' := Do(s, Advance(x));
            forall c | s.flusher == Some(c) && s'.flusher.None? :: Returned(s', c)
  {
    assert CpuOk(s, x);
  }

  /** The holder of the mutex goes on until it releases it. */
  lemma {:induction false} MutexFreed(run: seq<State>, c: nat) returns (more: seq<State>)
    requires IsRun(run) && Last(run).flusher == Some(c)
    ensures IsRun(more) && run <= more && Last(more).lock.None? && Onward(Last(run), Last(more))
    ensures Returned(Last(more), c) || (Last(more).flusher == Some(c) && Rests(Last(more), c))
    ensures FlusherAt(Last(run), IsSleeping) ==> FlusherAt(Last(more), IsSleeping)
    ensures FlusherAt(Last(run), Waiting) || FlusherAt(Last(run), HasLock) ==>
              Returned(Last(more), c) || FlusherAt(Last(more), IsSleeping)
    decreases var s := Last(run); if s.lock.Some? && s.lock.value in s.pc then StepsHeld(s.pc[s.lock.value]) else 0
  {
    var s := Last(run);
    RunSelf(run);
    assert CpuOk(s, c);
    if s.lock.None? { return run; }
    HolderMoves(s, s.lock.value);
    assert CpuOk(s, s.lock.value);
    more := RunExtends(run, Advance(s.lock.value));
    if Last(more).flusher.Some? && Last(more).lock.Some? { more := MutexFreed(more, c); }
  }

  /** An active CPU comes to its checkpoint and marks the waiter. */
  lemma CpuMarks(run: seq<State>, x: nat) returns (more: seq<State>)
    requires IsRun(run) && Last(run).lock.None? && FlusherAt(Last(run), IsSleeping)
    requires x in Last(run).mask && Last(run).flushes.Some? && x !in Last(run).flushes.value
    ensures IsRun(more) && run <= more && Onward(Last(run), Last(more)) && FlusherAt(Last(more), IsSleeping)
    ensures Last(more).flushes == Some(Last(run).flushes.value + {x})
  {
    var s := Last(run);
    RunSelf(run);
    assert CpuOk(s, x) && s.flusher != Some(x);
    more := run;
    if Last(more).pc[x].Operating? { more := RunExtends(more, EndOp(x)); }
    if Last(more).pc[x].Idle? { more := RunExtends(more, Advance(x)); }
    assert Last(more).pc[x] == Wanting(Normal);
    more := RunExtends(more, Advance(x));
    more := RunExtends(more, Advance(x));
  }

  /** A sleeping flusher returns once the CPUs still missing have marked its waiter. */
  lemma {:induction false} SleeperReturns(run: seq<State>, c: nat) returns (more: seq<State>)
    requires IsRun(run) && Last(run).lock.None? && Last(run).flusher == Some(c) && FlusherAt(Last(run), IsSleeping)
    ensures IsRun(more) && run <= more && Returned(Last(more), c)
    decreases var s := Last(run); if s.flushes.Some? then |s.mask - s.flushes.value| else 0
  {
    var s := Last(run);
    RunSelf(run);
    assert s.flushes.Some?;
    if s.mask <= s.flushes.value {
      more := RunExtends(run, Advance(c));
      more := CoveredReturns(more, c);
    } else {
      var x :| x in s.mask && x !in s.flushes.value;
      more := CpuMarks(run, x);
      more := MutexFreed(more, c);
      Fewer(s.mask, s.flushes.value, Last(more).flushes.value, x);
      more := SleeperReturns(more, c);
    }
  }

  lemma Fewer(mask: set<nat>, marks: set<nat>, marks': set<nat>, x: nat)
    requires x in mask && x !in marks && marks <= marks' && x in marks'
    ensures |mask - marks'| < |mask - marks|
  {
    assert mask - marks' <= mask - marks - {x};
    SubsetSize(mask - marks', mask - marks - {x});
  }

  lemma {:induction false} SubsetSize(a: set<nat>, b: set<nat>)
    requires a <= b
    ensures |a| <= |b|
    decreases a
  {
    if x :| x in a { SubsetSize(a - {x}, b - {x}); }
  }

  /** A flush whose active CPUs have all marked its waiter returns and gives up the mutex by its own steps. */
  lemma CoveredReturns(run: seq<State>, c: nat) returns (more: seq<State>)
    requires IsRun(run) && c in Last(run).pc && Last(run).pc[c].FlushTesting?
    requires Last(run).flushes.Some? && Last(run).mask <= Last(run).flushes.value
    ensures IsRun(more) && run <= more && Returned(Last(more), c)
    ensures Last(more) == Do(Do(Last(run), Advance(c)), Advance(c))
  {
    RunSelf(run);
    assert CpuOk(Last(run), c);
    more := RunExtends(run, Advance(c));
    more := RunExtends(more, Advance(c));
  }

  /** From every reachable state with a flush in progress it can return: no deadlock, and nothing but the
      checkpoints of active CPUs is needed. */
  lemma FlushCanReturn(run: seq<State>, c: nat) returns (more: seq<State>)
    requires IsRun(run) && Last(run).flusher == Some(c)
    ensures IsRun(more) && run <= more && Returned(Last(more), c)
  {
    more := MutexFreed(run, c);
    if !Returned(Last(more), c) {
      if Last(more).pc[c].FlushWanting? {
        more := RunExtends(more, Advance(c));
        more := MutexFreed(more, c);
      }
      if !Returned(Last(more), c) { more := SleeperReturns(more, c); }
    }
  }
}
