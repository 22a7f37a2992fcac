/** Deferred reclamation (src/gc.cc, src/cpu.cc) as a machine of atomic steps.

Each CPU keeps a newest-first list of objects it has freed. In a checkpoint a CPU marks the
head of every list, then looks down its own list for the first point at which the marks seen
so far cover the mask of active CPUs, and deletes everything from there on. Loading a list
head, marking it, loading a mark, testing the mask, cutting the list and deleting one object
are separate steps; frees, registrations, exits and uses by clients happen between any two.

Clients obey the rules the code demands of them: a registered CPU gains references only to
objects not yet freed, and drops them all when it starts a checkpoint. */
module GcMachine {
  import opened Basics

  /** `MAX_CPUS`. */
  const SLOTS: nat := 32

  /** Where an object is. `Ready` objects have been cut from a list and are about to be deleted. */
  datatype Place = Live | Pending(cpu: nat) | Ready(cpu: nat) | Gone

  datatype Pc =
    | Joining                              // has an identity, not yet in the mask
    | Working                              // outside checkpoints
    | Observing(i: nat)                    // about to load the head of list i
    | Marking(i: nat, head: nat)           // about to mark the loaded head
    | Walking(pos: nat, acc: set<nat>)     // pop_ready: about to load the node at pos
    | Testing(pos: nat, acc: set<nat>)     // pop_ready: about to load the mask
    | Detaching(pos: nat)                  // pop_ready: about to cut the list at pos
    | Deleting(ready: seq<nat>)            // service: deleting what was cut

  /** `seen` and `pending` and `last` are the code's; `quiet[o]` records which CPUs have been
      inside a checkpoint since `o` was freed, `held[c]` what the client on `c` may be using. */
  datatype State = State(mask: set<nat>, pc: seq<Pc>, pending: seq<seq<nat>>, last: map<(nat, nat), nat>,
                         place: map<nat, Place>, seen: map<nat, set<nat>>, quiet: map<nat, set<nat>>,
                         held: seq<set<nat>>, deleted: seq<nat>)

  datatype Action =
    | Reserve
    | Join(c: nat)
    | Leave(c: nat)
    | Alloc(o: nat)
    | Acquire(c: nat, o: nat)
    | Free(c: nat, o: nat)
    | Begin(c: nat)
    | Advance(c: nat)

  /** Three facts about the environment. `orderly`: no CPU enters the mask while another stands between
      its test of the mask and its cut. `reuse`: deleted objects may be allocated again. `late`: CPUs run
      checkpoints after leaving the mask, as `gc_exit` does. */
  datatype Rules = Rules(orderly: bool, reuse: bool, late: bool)

  predicate Marked(s: State, c: nat, o: nat) { o in s.seen && c in s.seen[o] }

  /** `last_observed[i]` of CPU `c`. */
  function LastOf(s: State, c: nat, i: nat): Option<nat> {
    if (c, i) in s.last then Some(s.last[(c, i)]) else None
  }

  predicate Quieted(s: State, c: nat, o: nat) { o in s.quiet && c in s.quiet[o] }

  predicate At(s: State, o: nat, p: Place) { o in s.place && s.place[o] == p }

  predicate InCheckpoint(pc: Pc) { !pc.Joining? && !pc.Working? }

  ghost predicate Shape(s: State) {
    && |s.pc| <= SLOTS && |s.pending| == SLOTS && |s.held| == SLOTS
    && (forall c | c in s.mask :: 0 <= c < |s.pc| && !s.pc[c].Joining?)
    && (forall c | |s.pc| <= c < SLOTS :: s.pending[c] == [] && s.held[c] == {})
    && (forall c | 0 <= c < |s.pc| :: PcShape(s, c))
  }

  ghost predicate PcShape(s: State, c: nat)
    requires c < |s.pc| <= SLOTS == |s.pending|
  {
    match s.pc[c]
    case Joining => s.pending[c] == []
    case Working => true
    case Observing(i) => i <= SLOTS
    case Marking(i, _) => i < SLOTS
    case Walking(pos, _) => pos <= |s.pending[c]|
    case Testing(pos, _) => pos < |s.pending[c]|
    case Detaching(pos) => pos < |s.pending[c]|
    case Deleting(ready) => true
  }

  ghost predicate Enabled(r: Rules, s: State, a: Action)
    requires Shape(s)
  {
    match a
    case Reserve => |s.pc| < SLOTS
    case Join(c) =>
      && c < |s.pc| && s.pc[c].Joining?
      && (r.orderly ==> forall x | 0 <= x < |s.pc| :: !s.pc[x].Detaching?)
    case Leave(c) => c in s.mask && s.pc[c].Working? && s.held[c] == {}
    case Alloc(o) => o !in s.place || (r.reuse && s.place[o] == Gone)
    case Acquire(c, o) => c in s.mask && s.pc[c].Working? && At(s, o, Live)
    case Free(c, o) => c in s.mask && s.pc[c].Working? && At(s, o, Live)
    case Begin(c) => c < |s.pc| && s.pc[c].Working? && (r.late || c in s.mask)
    case Advance(c) => c < |s.pc| && InCheckpoint(s.pc[c])
  }

  ghost function Goto(s: State, c: nat, pc: Pc): State
    requires c < |s.pc|
  {
    s.(pc := s.pc[c := pc])
  }

  /** A CPU inside a checkpoint has, at this moment, no references at all. */
  ghost function NoteQuiet(s: State, c: nat): State {
    s.(quiet := map o | o in s.quiet :: s.quiet[o] + {c})
  }

  ghost function SetLast(s: State, c: nat, i: nat, x: Option<nat>): State {
    s.(last := if x.Some? then s.last[(c, i) := x.value] else s.last - {(c, i)})
  }

  ghost function Head(l: seq<nat>): Option<nat> {
    if l == [] then None else Some(l[0])
  }

  ghost function StepObserve(s: State, c: nat, i: nat): State
    requires Shape(s) && c < |s.pc| && i < SLOTS
  {
    var head := Head(s.pending[i]);
    if head.Some? && head != LastOf(s, c, i) then NoteQuiet(Goto(s, c, Marking(i, head.value)), c)
    else NoteQuiet(Goto(SetLast(s, c, i, head), c, Observing(i + 1)), c)
  }

  ghost function StepMark(s: State, c: nat, i: nat, head: nat): State
    requires Shape(s) && c < |s.pc| && i < SLOTS
  {
    Goto(SetLast(s, c, i, Some(head)), c, Observing(i + 1))
    .(seen := s.seen[head := (if head in s.seen then s.seen[head] else {}) + {c}])
  }

  ghost function StepWalk(s: State, c: nat, pos: nat, acc: set<nat>): State
    requires Shape(s) && c < |s.pc| && pos <= |s.pending[c]|
  {
    if pos == |s.pending[c]| then Goto(s, c, Working)
    else
      var o := s.pending[c][pos];
      Goto(s, c, Testing(pos, acc + if o in s.seen then s.seen[o] else {}))
  }

  ghost function StepDetach(s: State, c: nat, pos: nat): State
    requires Shape(s) && c < |s.pc| && pos < |s.pending[c]|
  {
    var ready := s.pending[c][pos..];
    Goto(s, c, Deleting(ready))
    .(pending := s.pending[c := s.pending[c][..pos]],
      place := map o | o in s.place :: if o in ready then Ready(c) else s.place[o])
  }

  ghost function StepDelete(s: State, c: nat, ready: seq<nat>): State
    requires Shape(s) && c < |s.pc|
  {
    if ready == [] then Goto(s, c, Working)
    else Goto(s, c, Deleting(ready[1..])).(place := s.place[ready[0] := Gone], deleted := s.deleted + [ready[0]])
  }

  ghost function Do(s: State, a: Action, r: Rules): State
    requires Shape(s) && Enabled(r, s, a)
  {
    match a
    case Reserve => s.(pc := s.pc + [Joining])
    case Join(c) => Goto(s, c, Working).(mask := s.mask + {c})
    case Leave(c) => s.(mask := s.mask - {c})
    case Alloc(o) => s.(place := s.place[o := Live], seen := s.seen[o := {}])
    case Acquire(c, o) => s.(held := s.held[c := s.held[c] + {o}])
    case Free(c, o) =>
      s.(pending := s.pending[c := [o] + s.pending[c]], place := s.place[o := Pending(c)], quiet := s.quiet[o := {}])
    case Begin(c) => Goto(s, c, Observing(0)).(held := s.held[c := {}])
    case Advance(c) =>
      assert PcShape(s, c);
      match s.pc[c]
      case Observing(i) => if i < SLOTS then StepObserve(s, c, i) else Goto(s, c, Walking(0, {}))
      case Marking(i, head) => StepMark(s, c, i, head)
      case Walking(pos, acc) => StepWalk(s, c, pos, acc)
      case Testing(pos, acc) => if s.mask <= acc then Goto(s, c, Detaching(pos)) else Goto(s, c, Walking(pos + 1, acc))
      case Detaching(pos) => StepDetach(s, c, pos)
      case Deleting(ready) => StepDelete(s, c, ready)
  }

  ghost function Init(): State {
    State({}, [], seq(SLOTS, _ => []), map[], map[], map[], map[],
          seq(SLOTS, _ => {}), [])
  }

  ghost predicate IsRun(r: Rules, run: seq<State>) {
    && run != [] && run[0] == Init()
    && forall i: nat | i + 1 < |run| :: Moves(r, run[i], run[i + 1])
  }

  ghost predicate Moves(r: Rules, s: State, s': State) {
    Shape(s) && exists a: Action :: Enabled(r, s, a) && Do(s, a, r) == s'
  }
}
