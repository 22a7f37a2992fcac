/** An entry's contents under concurrent append, prepend and read (src/entry.cc, src/mem.cc).

Memory is a list of buffers, each with a `next` pointer. Every load, store, exchange and
compare-and-swap is one step. The machine also records, as history, the order in which ropes were
published; no step reads it. */
module Rope {
  import opened Basics

  datatype Heap = Heap(next: seq<Option<nat>>, data: seq<Bytes>)

  datatype Pc =
    | AppExchange(r: seq<nat>)               // tail.exchange
    | AppCheck(was: nat, first: nat)         // assert(old->next == nullptr)
    | AppLink(was: nat, first: nat)          // old->next = a.head()
    | PreLoad(r: seq<nat>)                   // load of head
    | PreLink(r: seq<nat>, was: nat)         // p.tail()->next = old
    | PreSwap(r: seq<nat>, was: nat)         // compare-and-swap of head
    | ReadHead                               // load of head in read
    | Walking(seen: seq<nat>)                // mem_tail: the buffers walked so far
    | Snapshot(seen: seq<nat>)               // read returned the rope from the first to the last of these

  datatype Event = Prepended(r: seq<nat>) | Appended(r: seq<nat>)

  /** `orig`, `log` and `line` are history: the first rope, the ropes published since, and the rope they
      make up together. `failed` records a failed assertion. */
  datatype State = State(heap: Heap, head: nat, tail: nat, running: map<nat, Pc>,
                         orig: seq<nat>, log: seq<Event>, line: seq<nat>, failed: bool)

  datatype Action =
    | BeginAppend(chunks: seq<Bytes>)
    | BeginPrepend(chunks: seq<Bytes>)
    | BeginRead
    | Go(spurious: bool)
    | Forget

  // ---------------------------------------------------------------- the steps

  function Fresh(h: Heap, n: nat): seq<nat> { seq(n, i => |h.next| + i) }

  /** Allocate a rope: its buffers linked in order, the last one ending it. */
  function Alloc(h: Heap, chunks: seq<Bytes>): Heap {
    Heap(h.next + seq(|chunks|, i => if i + 1 < |chunks| then Some(|h.next| + i + 1) else None), h.data + chunks)
  }

  function SetNext(h: Heap, x: nat, y: nat): Heap
    requires x < |h.next|
  {
    h.(next := h.next[x := Some(y)])
  }

  function Last(r: seq<nat>): nat
    requires r != []
  {
    r[|r| - 1]
  }

  function Goto(s: State, t: nat, pc: Pc): State { s.(running := s.running[t := pc]) }

  predicate Enabled(s: State, t: nat, a: Action) {
    match a
    case BeginAppend(chunks) => t !in s.running && chunks != []
    case BeginPrepend(chunks) => t !in s.running && chunks != []
    case BeginRead => t !in s.running
    case Go(_) => t in s.running && !s.running[t].Snapshot?
    case Forget => t in s.running && s.running[t].Snapshot?
  }

  /** Every node a program counter mentions is allocated. */
  predicate Allocated(s: State, t: nat)
    requires t in s.running
  {
    var n := |s.heap.next|;
    match s.running[t]
    case AppExchange(r) => r != [] && Last(r) < n
    case AppCheck(was, _) => was < n
    case AppLink(was, _) => was < n
    case PreLoad(r) => r != [] && Last(r) < n
    case PreLink(r, _) => r != [] && Last(r) < n
    case PreSwap(r, _) => r != [] && Last(r) < n
    case ReadHead => true
    case Walking(seen) => seen != [] && Last(seen) < n
    case Snapshot(_) => true
  }

  function StepGo(s: State, t: nat, spurious: bool): State
    requires t in s.running && Allocated(s, t)
  {
    match s.running[t]
    case AppExchange(r) =>
      Goto(s, t, AppCheck(s.tail, r[0])).(tail := Last(r), log := s.log + [Appended(r)], line := s.line + r)
    case AppCheck(was, first) =>
      Goto(s, t, AppLink(was, first)).(failed := s.failed || s.heap.next[was].Some?)
    case AppLink(was, first) => s.(running := s.running - {t}, heap := SetNext(s.heap, was, first))
    case PreLoad(r) => Goto(s, t, PreLink(r, s.head))
    case PreLink(r, was) => Goto(s, t, PreSwap(r, was)).(heap := SetNext(s.heap, Last(r), was))
    case PreSwap(r, was) =>
      if s.head == was && !spurious then
        s.(running := s.running - {t}, head := r[0], log := s.log + [Prepended(r)], line := r + s.line)
      else Goto(s, t, PreLink(r, s.head))
    case ReadHead => Goto(s, t, Walking([s.head]))
    case Walking(seen) =>
      (match s.heap.next[Last(seen)]
       case Some(n) => Goto(s, t, Walking(seen + [n]))
       case None => Goto(s, t, Snapshot(seen)))
    case Snapshot(_) => s
  }

  function Step(s: State, t: nat, a: Action): State
    requires Enabled(s, t, a) && (a.Go? ==> Allocated(s, t))
  {
    match a
    case BeginAppend(chunks) => Goto(s, t, AppExchange(Fresh(s.heap, |chunks|))).(heap := Alloc(s.heap, chunks))
    case BeginPrepend(chunks) => Goto(s, t, PreLoad(Fresh(s.heap, |chunks|))).(heap := Alloc(s.heap, chunks))
    case BeginRead => Goto(s, t, ReadHead)
    case Go(spurious) => StepGo(s, t, spurious)
    case Forget => s.(running := s.running - {t})
  }

  function Start(chunks: seq<Bytes>): State
    requires chunks != []
  {
    var h := Heap([], []);
    var r := Fresh(h, |chunks|);
    State(Alloc(h, chunks), r[0], Last(r), map[], r, [], r, false)
  }

  // ---------------------------------------------------------------- invariants

  ghost predicate Apart(a: seq<nat>, b: seq<nat>) { forall x | x in a :: x !in b }

  ghost predicate Within(h: Heap, r: seq<nat>) { forall i | 0 <= i < |r| :: r[i] < |h.next| }

  function NextOf(h: Heap, x: nat): Option<nat> { if x < |h.next| then h.next[x] else None }

  /** The buffers of `r` are linked in order. */
  ghost predicate Linked(h: Heap, r: seq<nat>) {
    Within(h, r) && forall i | 0 <= i < |r| - 1 :: NextOf(h, r[i]) == Some(r[i + 1])
  }

  ghost predicate Adjacent(line: seq<nat>, x: nat, y: nat) {
    exists i :: 0 <= i < |line| - 1 && line[i] == x && line[i + 1] == y
  }

  ghost predicate Contiguous(line: seq<nat>, seen: seq<nat>) {
    exists i: nat :: FoundAt(line, seen, i)
  }

  ghost predicate FoundAt(line: seq<nat>, seen: seq<nat>, i: nat) {
    i + |seen| <= |line| && line[i..i + |seen|] == seen
  }

  function Own(pc: Pc): seq<nat> {
    match pc
    case AppExchange(r) => r
    case PreLoad(r) => r
    case PreLink(r, _) => r
    case PreSwap(r, _) => r
    case _ => []
  }

  predicate InFlight(pc: Pc) { pc.AppCheck? || pc.AppLink? }

  /** Thread `t` is about to link `x` to `y`. */
  ghost predicate WillLink(s: State, t: nat, x: nat, y: nat) {
    t in s.running && InFlight(s.running[t]) && s.running[t].was == x && s.running[t].first == y
  }

  ghost predicate Pending(s: State, x: nat, y: nat) { exists t :: WillLink(s, t, x, y) }

  ghost predicate LineOk(s: State) {
    && s.line != [] && NoDup(s.line) && Within(s.heap, s.line) && |s.heap.data| == |s.heap.next|
    && s.head == s.line[0] && s.tail == Last(s.line) && NextOf(s.heap, s.tail) == None
  }

  /** Each buffer of the rope is linked to the one after it, or a thread is about to link it. */
  ghost predicate LinkAt(s: State, i: nat)
    requires i + 1 < |s.line|
  {
    || NextOf(s.heap, s.line[i]) == Some(s.line[i + 1])
    || (NextOf(s.heap, s.line[i]) == None && Pending(s, s.line[i], s.line[i + 1]))
  }

  ghost predicate LinksOk(s: State) { forall i: nat | i + 1 < |s.line| :: LinkAt(s, i) }

  ghost predicate OwnOk(h: Heap, line: seq<nat>, r: seq<nat>) {
    r != [] && NoDup(r) && Linked(h, r) && Apart(r, line)
  }

  ghost predicate ThreadOk(h: Heap, line: seq<nat>, pc: Pc) {
    match pc
    case AppExchange(r) => OwnOk(h, line, r) && NextOf(h, Last(r)) == None
    case AppCheck(was, first) => Adjacent(line, was, first) && was < |h.next| && NextOf(h, was) == None
    case AppLink(was, first) => Adjacent(line, was, first) && was < |h.next| && NextOf(h, was) == None
    case PreLoad(r) => OwnOk(h, line, r)
    case PreLink(r, was) => OwnOk(h, line, r) && was in line
    case PreSwap(r, was) => OwnOk(h, line, r) && was in line && NextOf(h, Last(r)) == Some(was)
    case ReadHead => true
    case Walking(seen) => seen != [] && Linked(h, seen) && Contiguous(line, seen)
    case Snapshot(seen) => seen != [] && Linked(h, seen) && Contiguous(line, seen)
  }

  ghost predicate ThreadsOk(s: State) { forall t | t in s.running :: ThreadOk(s.heap, s.line, s.running[t]) }

  /** No two threads own a common buffer, or are about to write the same link. */
  ghost predicate Separate(s: State) {
    && (forall t, u | t in s.running && u in s.running && t != u :: Apart(Own(s.running[t]), Own(s.running[u])))
    && (forall t, u | t in s.running && u in s.running && t != u && InFlight(s.running[t]) && InFlight(s.running[u]) ::
          s.running[t].was != s.running[u].was)
  }

  ghost predicate Inv(s: State) {
    LineOk(s) && LinksOk(s) && ThreadsOk(s) && Separate(s) && !s.failed && s.line == Logical(s.orig, s.log)
  }

  // ---------------------------------------------------------------- the logical rope

  /** The rope that a sequence of publications makes out of `orig`. */
  function Logical(orig: seq<nat>, log: seq<Event>): seq<nat> {
    if log == [] then orig
    else
      var rest := Logical(orig, log[..|log| - 1]);
      match log[|log| - 1]
      case Prepended(r) => r + rest
      case Appended(r) => rest + r
  }

  function NewestFirst(log: seq<Event>): seq<nat> {
    if log == [] then []
    else
      var rest := NewestFirst(log[..|log| - 1]);
      match log[|log| - 1]
      case Prepended(r) => r + rest
      case Appended(_) => rest
  }

  function AppendedBy(e: Event): seq<nat> { if e.Appended? then e.r else [] }

  function InOrder(log: seq<Event>): seq<nat> {
    if log == [] then [] else AppendedBy(log[0]) + InOrder(log[1..])
  }

  lemma JoinAssociates(a: seq<nat>, b: seq<nat>, c: seq<nat>)
    ensures a + (b + c) == (a + b) + c
  {
  }

  lemma {:induction false} InOrderLast(log: seq<Event>, e: Event)
    ensures InOrder(log + [e]) == InOrder(log) + AppendedBy(e)
  {
    if log == [] {
      assert [e][1..] == [];
    } else {
      InOrderLast(log[1..], e);
      assert (log + [e])[1..] == log[1..] + [e];
      JoinAssociates(AppendedBy(log[0]), InOrder(log[1..]), AppendedBy(e));
    }
  }

  /** Prepends newest first, then the original, then appends in the order of their exchanges. */
  lemma {:induction false} LogicalShape(orig: seq<nat>, log: seq<Event>)
    ensures Logical(orig, log) == NewestFirst(log) + orig + InOrder(log)
  {
    if log != [] {
      var front, e := log[..|log| - 1], log[|log| - 1];
      assert log == front + [e];
      LogicalShape(orig, front);
      InOrderLast(front, e);
      if e.Prepended? {
        JoinAssociates(e.r, NewestFirst(front) + orig, InOrder(front));
        JoinAssociates(e.r, NewestFirst(front), orig);
      } else {
        JoinAssociates(NewestFirst(front) + orig, InOrder(front), e.r);
      }
    }
  }
}
