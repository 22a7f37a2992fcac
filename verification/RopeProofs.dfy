/** What holds of an entry's rope over every interleaving of appends, prepends and reads. */
module RopeProofs {
  import opened Basics
  import opened Rope

  // ---------------------------------------------------------------- growth of the rope

  lemma AdjacentGrows(a: seq<nat>, line: seq<nat>, b: seq<nat>, x: nat, y: nat)
    requires Adjacent(line, x, y)
    ensures Adjacent(a + line + b, x, y)
  {
    var i :| 0 <= i < |line| - 1 && line[i] == x && line[i + 1] == y;
    var j := |a| + i;
    assert (a + line + b)[j] == x && (a + line + b)[j + 1] == y;
  }

  lemma ContiguousGrows(a: seq<nat>, line: seq<nat>, b: seq<nat>, seen: seq<nat>)
    requires Contiguous(line, seen)
    ensures Contiguous(a + line + b, seen)
  {
    var i: nat :| FoundAt(line, seen, i);
    var all := a + line + b;
    assert all[|a|..|a| + |line|] == line;
    assert all[|a| + i..|a| + i + |seen|] == line[i..i + |seen|];
    assert FoundAt(all, seen, |a| + i);
  }

  lemma ContiguousIn(line: seq<nat>, seen: seq<nat>, k: nat)
    requires Contiguous(line, seen) && k < |seen|
    ensures seen[k] in line
  {
    var i: nat :| FoundAt(line, seen, i);
    assert line[i..i + |seen|][k] == line[i + k];
  }

  lemma AdjacentIn(line: seq<nat>, x: nat, y: nat)
    requires Adjacent(line, x, y)
    ensures x in line && y in line
  {
  }

  /** Links written once are kept. */
  ghost predicate KeepsLinks(h: Heap, h': Heap, line: seq<nat>) {
    |h'.next| >= |h.next| && forall x | x in line && NextOf(h, x).Some? :: NextOf(h', x) == NextOf(h, x)
  }

  lemma SeenKept(h: Heap, h': Heap, line: seq<nat>, seen: seq<nat>)
    requires KeepsLinks(h, h', line) && Linked(h, seen) && Contiguous(line, seen)
    ensures Linked(h', seen)
  {
    forall i | 0 <= i < |seen| - 1 ensures NextOf(h', seen[i]) == Some(seen[i + 1]) { ContiguousIn(line, seen, i); }
  }

  ghost predicate KeepsOwn(h: Heap, h': Heap, line': seq<nat>, r: seq<nat>) {
    forall i | 0 <= i < |r| :: NextOf(h', r[i]) == NextOf(h, r[i]) && r[i] !in line'
  }

  lemma OwnKept(h: Heap, h': Heap, line: seq<nat>, line': seq<nat>, r: seq<nat>)
    requires OwnOk(h, line, r) && |h'.next| >= |h.next| && KeepsOwn(h, h', line', r)
    ensures OwnOk(h', line', r) && NextOf(h', Last(r)) == NextOf(h, Last(r))
  {
  }

  /** What one thread does leaves the others' assertions standing. */
  lemma OtherKept(h: Heap, h': Heap, line: seq<nat>, a: seq<nat>, b: seq<nat>, pc: Pc)
    requires ThreadOk(h, line, pc) && KeepsLinks(h, h', line) && KeepsOwn(h, h', a + line + b, Own(pc))
    requires InFlight(pc) ==> NextOf(h', pc.was) == None
    ensures ThreadOk(h', a + line + b, pc)
  {
    match pc
    case AppExchange(r) => OwnKept(h, h', line, a + line + b, r);
    case AppCheck(was, first) => AdjacentGrows(a, line, b, was, first);
    case AppLink(was, first) => AdjacentGrows(a, line, b, was, first);
    case PreLoad(r) => OwnKept(h, h', line, a + line + b, r);
    case PreLink(r, was) => OwnKept(h, h', line, a + line + b, r);
    case PreSwap(r, was) => OwnKept(h, h', line, a + line + b, r);
    case ReadHead =>
    case Walking(seen) =>
      ContiguousGrows(a, line, b, seen);
      SeenKept(h, h', line, seen);
    case Snapshot(seen) =>
      ContiguousGrows(a, line, b, seen);
      SeenKept(h, h', line, seen);
  }

  // ---------------------------------------------------------------- frames

  ghost predicate OthersSame(s: State, s': State, t: nat) {
    forall u | u != t :: (u in s'.running <==> u in s.running) && (u in s.running ==> s'.running[u] == s.running[u])
  }

  ghost predicate OthersApart(s: State, s': State, t: nat) {
    && (forall u | u in s.running && u != t :: KeepsOwn(s.heap, s'.heap, s'.line, Own(s.running[u])))
    && (forall u | u in s.running && u != t && InFlight(s.running[u]) :: NextOf(s'.heap, s.running[u].was) == None)
  }

  lemma ThreadsKept(s: State, s': State, t: nat, a: seq<nat>, b: seq<nat>)
    requires ThreadsOk(s) && OthersSame(s, s', t) && OthersApart(s, s', t)
    requires s'.line == a + s.line + b && KeepsLinks(s.heap, s'.heap, s.line)
    requires t in s'.running ==> ThreadOk(s'.heap, s'.line, s'.running[t])
    ensures ThreadsOk(s')
  {
    forall u | u in s'.running ensures ThreadOk(s'.heap, s'.line, s'.running[u]) {
      if u != t { OtherKept(s.heap, s'.heap, s.line, a, b, s.running[u]); }
    }
  }

  /** The buffers owned by the other threads are allocated, unpublished, and not those of `t`. */
  lemma OwnFacts(s: State, t: nat, u: nat, i: nat)
    requires ThreadsOk(s) && Separate(s) && u in s.running && u != t && i < |Own(s.running[u])|
    ensures var x := Own(s.running[u])[i];
            x < |s.heap.next| && x !in s.line && (t in s.running ==> x !in Own(s.running[t]))
  {
    assert ThreadOk(s.heap, s.line, s.running[u]);
    var x := Own(s.running[u])[i];
    assert x in Own(s.running[u]);
    if t in s.running { assert Apart(Own(s.running[u]), Own(s.running[t])); }
  }

  lemma SeparateKept(s: State, s': State, t: nat)
    requires Separate(s) && OthersSame(s, s', t) && t in s.running
    requires t in s'.running ==> Own(s'.running[t]) == Own(s.running[t]) || Own(s'.running[t]) == []
    requires t in s'.running && InFlight(s'.running[t])
        ==> InFlight(s.running[t]) && s'.running[t].was == s.running[t].was
    ensures Separate(s')
  {
    forall x, y | x in s'.running && y in s'.running && x != y ensures Apart(Own(s'.running[x]), Own(s'.running[y])) {
      assert Apart(Own(s.running[x]), Own(s.running[y]));
    }
  }

  /** Thread `t` keeps its pending link, or has none. */
  ghost predicate KeepsPending(s: State, s': State, t: nat) {
    t in s.running && InFlight(s.running[t]) ==>
      && t in s'.running && InFlight(s'.running[t]) && s'.running[t].was == s.running[t].was
      && s'.running[t].first == s.running[t].first
  }

  lemma PendingKept(s: State, s': State, t: nat, x: nat, y: nat)
    requires OthersSame(s, s', t) && KeepsPending(s, s', t) && Pending(s, x, y)
    ensures Pending(s', x, y)
  {
    var u :| WillLink(s, u, x, y);
    assert WillLink(s', u, x, y);
  }

  /** Links of the rope survive a step that leaves the rope and its links alone. */
  lemma LinksKept(s: State, s': State, t: nat)
    requires LinksOk(s) && OthersSame(s, s', t) && KeepsPending(s, s', t) && s'.line == s.line
    requires forall i | 0 <= i < |s.line| :: NextOf(s'.heap, s.line[i]) == NextOf(s.heap, s.line[i])
    ensures LinksOk(s')
  {
    forall i: nat | i + 1 < |s'.line| ensures LinkAt(s', i) {
      assert LinkAt(s, i);
      if Pending(s, s.line[i], s.line[i + 1]) { PendingKept(s, s', t, s.line[i], s.line[i + 1]); }
    }
  }

  // ---------------------------------------------------------------- beginning

  lemma AllocOk(h: Heap, line: seq<nat>, chunks: seq<Bytes>)
    requires chunks != [] && Within(h, line)
    ensures var r, h' := Fresh(h, |chunks|), Alloc(h, chunks);
            && OwnOk(h', line, r) && NextOf(h', Last(r)) == None
            && (forall x: nat | x < |h.next| :: NextOf(h', x) == NextOf(h, x))
            && (forall i | 0 <= i < |r| :: r[i] >= |h.next|)
  {
  }

  lemma BeginThreads(s: State, s': State, t: nat, chunks: seq<Bytes>, pc: Pc)
    requires ThreadsOk(s) && Separate(s) && t !in s.running && chunks != [] && Within(s.heap, s.line)
    requires pc == AppExchange(Fresh(s.heap, |chunks|)) || pc == PreLoad(Fresh(s.heap, |chunks|))
    requires s' == Goto(s, t, pc).(heap := Alloc(s.heap, chunks))
    ensures ThreadsOk(s') && Separate(s')
  {
    AllocOk(s.heap, s.line, chunks);
    AllocKeeps(s.heap, s.line, chunks);
    BeginApart(s, s', t);
    BeginSeparate(s, s', t, |chunks|);
    assert s'.line == [] + s.line + [];
    ThreadsKept(s, s', t, [], []);
  }

  lemma AllocKeeps(h: Heap, line: seq<nat>, chunks: seq<Bytes>)
    requires Within(h, line)
    ensures KeepsLinks(h, Alloc(h, chunks), line)
    ensures forall i | 0 <= i < |line| :: NextOf(Alloc(h, chunks), line[i]) == NextOf(h, line[i])
  {
  }

  lemma BeginLine(s: State, t: nat, chunks: seq<Bytes>, pc: Pc)
    requires LineOk(s) && LinksOk(s) && t !in s.running
    ensures var s' := Goto(s, t, pc).(heap := Alloc(s.heap, chunks)); LineOk(s') && LinksOk(s')
  {
    AllocKeeps(s.heap, s.line, chunks);
    LinksKept(s, Goto(s, t, pc).(heap := Alloc(s.heap, chunks)), t);
  }

  lemma BeginKeeps(s: State, t: nat, chunks: seq<Bytes>, pc: Pc)
    requires Inv(s) && t !in s.running && chunks != []
    requires pc == AppExchange(Fresh(s.heap, |chunks|)) || pc == PreLoad(Fresh(s.heap, |chunks|))
    ensures Inv(Goto(s, t, pc).(heap := Alloc(s.heap, chunks)))
  {
    BeginThreads(s, Goto(s, t, pc).(heap := Alloc(s.heap, chunks)), t, chunks, pc);
    BeginLine(s, t, chunks, pc);
  }

  lemma BeginApart(s: State, s': State, t: nat)
    requires ThreadsOk(s) && Separate(s) && t !in s.running && s'.line == s.line
    requires forall x: nat | x < |s.heap.next| :: NextOf(s'.heap, x) == NextOf(s.heap, x)
    ensures OthersApart(s, s', t)
  {
    forall u | u in s.running && u != t ensures KeepsOwn(s.heap, s'.heap, s'.line, Own(s.running[u])) {
      forall i | 0 <= i < |Own(s.running[u])|
        ensures Own(s.running[u])[i] < |s.heap.next| && Own(s.running[u])[i] !in s.line
      {
        OwnFacts(s, t, u, i);
      }
    }
    forall u | u in s.running && InFlight(s.running[u]) ensures NextOf(s'.heap, s.running[u].was) == None {
      assert ThreadOk(s.heap, s.line, s.running[u]);
    }
  }

  lemma BeginSeparate(s: State, s': State, t: nat, n: nat)
    requires ThreadsOk(s) && Separate(s) && t !in s.running && s'.running.Keys == s.running.Keys + {t}
    requires OthersSame(s, s', t) && Own(s'.running[t]) == Fresh(s.heap, n) && !InFlight(s'.running[t])
    ensures Separate(s')
  {
    forall x, y | x in s'.running && y in s'.running && x != y ensures Apart(Own(s'.running[x]), Own(s'.running[y])) {
      if x != t && y != t {
        assert Apart(Own(s.running[x]), Own(s.running[y]));
      } else {
        var u := if x == t then y else x;
        forall i | 0 <= i < |Own(s.running[u])| ensures Own(s.running[u])[i] < |s.heap.next| { OwnFacts(s, t, u, i); }
      }
    }
  }

  // ---------------------------------------------------------------- storing a link

  /** No other thread owns buffer `x` or is about to link it. */
  ghost predicate Writable(s: State, t: nat, x: nat) {
    forall u | u in s.running && u != t :: x !in Own(s.running[u]) && (InFlight(s.running[u]) ==> s.running[u].was != x)
  }

  lemma WriteApart(s: State, s': State, t: nat, x: nat, y: nat)
    requires ThreadsOk(s) && Separate(s) && Writable(s, t, x) && x < |s.heap.next|
    requires s'.heap == SetNext(s.heap, x, y) && s'.line == s.line
    ensures OthersApart(s, s', t)
  {
    forall u | u in s.running && u != t ensures KeepsOwn(s.heap, s'.heap, s'.line, Own(s.running[u])) {
      forall k | 0 <= k < |Own(s.running[u])| ensures Own(s.running[u])[k] != x && Own(s.running[u])[k] !in s.line {
        OwnFacts(s, t, u, k);
      }
    }
    forall u | u in s.running && u != t && InFlight(s.running[u]) ensures NextOf(s'.heap, s.running[u].was) == None {
      assert ThreadOk(s.heap, s.line, s.running[u]);
    }
  }

  lemma WritableInLine(s: State, t: nat, x: nat)
    requires ThreadsOk(s) && Separate(s) && t in s.running && x in s.line && InFlight(s.running[t])
    requires s.running[t].was == x
    ensures Writable(s, t, x)
  {
    forall u | u in s.running && u != t ensures x !in Own(s.running[u]) {
      forall k | 0 <= k < |Own(s.running[u])| ensures Own(s.running[u])[k] != x { OwnFacts(s, t, u, k); }
    }
  }

  lemma WritableOwn(s: State, t: nat, x: nat)
    requires ThreadsOk(s) && Separate(s) && t in s.running && x in Own(s.running[t])
    ensures Writable(s, t, x)
  {
    assert ThreadOk(s.heap, s.line, s.running[t]);
    forall u | u in s.running && u != t
      ensures x !in Own(s.running[u]) && (InFlight(s.running[u]) ==> s.running[u].was != x)
    {
      assert Apart(Own(s.running[t]), Own(s.running[u]));
      assert ThreadOk(s.heap, s.line, s.running[u]);
      if InFlight(s.running[u]) { AdjacentIn(s.line, s.running[u].was, s.running[u].first); }
    }
  }

  // ---------------------------------------------------------------- appending

  lemma ExchangeThreads(s: State, t: nat)
    requires Inv(s) && t in s.running && s.running[t].AppExchange? && Allocated(s, t)
    ensures ThreadsOk(StepGo(s, t, false)) && Separate(StepGo(s, t, false))
  {
    var s' := StepGo(s, t, false);
    var r := s.running[t].r;
    assert ThreadOk(s.heap, s.line, s.running[t]);
    var i := |s.line| - 1;
    assert s'.line[i] == s.tail && s'.line[i + 1] == r[0];
    assert Adjacent(s'.line, s.tail, r[0]);
    forall u | u in s.running && u != t ensures KeepsOwn(s.heap, s'.heap, s'.line, Own(s.running[u])) {
      forall k | 0 <= k < |Own(s.running[u])| ensures Own(s.running[u])[k] !in s'.line { OwnFacts(s, t, u, k); }
    }
    forall u | u in s.running && u != t && InFlight(s.running[u])
      ensures NextOf(s'.heap, s.running[u].was) == None && s.running[u].was != s.tail
    {
      assert ThreadOk(s.heap, s.line, s.running[u]);
    }
    ThreadsKept(s, s', t, [], r);
    ExchangeSeparate(s, s', t);
  }

  lemma ExchangeSeparate(s: State, s': State, t: nat)
    requires Separate(s) && OthersSame(s, s', t) && t in s.running && t in s'.running && Own(s'.running[t]) == []
    requires InFlight(s'.running[t])
    requires forall u | u in s.running && u != t && InFlight(s.running[u]) :: s.running[u].was != s'.running[t].was
    ensures Separate(s')
  {
    forall x, y | x in s'.running && y in s'.running && x != y ensures Apart(Own(s'.running[x]), Own(s'.running[y])) {
      if x != t && y != t { assert Apart(Own(s.running[x]), Own(s.running[y])); }
    }
  }

  lemma ExchangeLine(s: State, t: nat)
    requires Inv(s) && t in s.running && s.running[t].AppExchange? && Allocated(s, t)
    ensures var s' := StepGo(s, t, false); LineOk(s') && LinksOk(s') && s'.line == Logical(s'.orig, s'.log)
  {
    var s' := StepGo(s, t, false);
    var r := s.running[t].r;
    assert ThreadOk(s.heap, s.line, s.running[t]);
    assert Apart(s.line, r);
    NoDupConcat(s.line, r);
    assert WillLink(s', t, s.tail, r[0]);
    forall i: nat | i + 1 < |s'.line| ensures LinkAt(s', i) {
      if i + 1 < |s.line| {
        assert LinkAt(s, i);
        if Pending(s, s.line[i], s.line[i + 1]) { PendingKept(s, s', t, s.line[i], s.line[i + 1]); }
      } else if i + 1 > |s.line| {
        assert NextOf(s.heap, r[i - |s.line|]) == Some(r[i - |s.line| + 1]);
      }
    }
    assert s'.log[..|s.log|] == s.log;
  }

  /** A store to a buffer that no other thread works on keeps the other threads' assertions. */
  lemma WriteThreads(s: State, s': State, t: nat, x: nat, y: nat)
    requires ThreadsOk(s) && Separate(s) && Writable(s, t, x) && x < |s.heap.next| && OthersSame(s, s', t)
    requires s'.heap == SetNext(s.heap, x, y) && s'.line == s.line && (x in s.line ==> NextOf(s.heap, x) == None)
    requires t in s'.running ==> ThreadOk(s'.heap, s'.line, s'.running[t])
    ensures ThreadsOk(s')
  {
    WriteApart(s, s', t, x, y);
    assert s'.line == [] + s.line + [];
    ThreadsKept(s, s', t, [], []);
  }

  lemma LinkThreads(s: State, t: nat)
    requires ThreadsOk(s) && Separate(s) && t in s.running && s.running[t].AppLink? && Allocated(s, t)
    ensures ThreadsOk(StepGo(s, t, false)) && Separate(StepGo(s, t, false))
  {
    var s', was, first := StepGo(s, t, false), s.running[t].was, s.running[t].first;
    assert ThreadOk(s.heap, s.line, s.running[t]);
    AdjacentIn(s.line, was, first);
    WritableInLine(s, t, was);
    WriteThreads(s, s', t, was, first);
    SeparateKept(s, s', t);
  }

  lemma LinkLine(s: State, t: nat)
    requires Inv(s) && t in s.running && s.running[t].AppLink? && Allocated(s, t)
    ensures var s' := StepGo(s, t, false); LineOk(s') && LinksOk(s')
  {
    var s' := StepGo(s, t, false);
    var was, first := s.running[t].was, s.running[t].first;
    assert ThreadOk(s.heap, s.line, s.running[t]);
    var k :| 0 <= k < |s.line| - 1 && s.line[k] == was && s.line[k + 1] == first;
    forall i: nat | i + 1 < |s'.line| ensures LinkAt(s', i) {
      assert LinkAt(s, i);
      if i != k && Pending(s, s.line[i], s.line[i + 1]) {
        var u :| WillLink(s, u, s.line[i], s.line[i + 1]);
        assert WillLink(s', u, s.line[i], s.line[i + 1]);
      }
    }
  }

  // ---------------------------------------------------------------- prepending

  lemma PreLinkThreads(s: State, t: nat)
    requires ThreadsOk(s) && Separate(s) && t in s.running && s.running[t].PreLink? && Allocated(s, t)
    ensures var s' := StepGo(s, t, false); ThreadsOk(s') && Separate(s')
  {
    var s' := StepGo(s, t, false);
    var r := s.running[t].r;
    assert ThreadOk(s.heap, s.line, s.running[t]);
    assert Last(r) in r;
    PreLinkOwn(s.heap, s.line, r, s.running[t].was);
    WritableOwn(s, t, Last(r));
    WriteThreads(s, s', t, Last(r), s.running[t].was);
    SeparateKept(s, s', t);
  }

  lemma PreLinkKeeps(s: State, t: nat)
    requires Inv(s) && t in s.running && s.running[t].PreLink? && Allocated(s, t)
    ensures Inv(StepGo(s, t, false))
  {
    PreLinkThreads(s, t);
    PreLinkLine(s, t);
  }

  lemma PreLinkLine(s: State, t: nat)
    requires LineOk(s) && LinksOk(s) && ThreadsOk(s) && t in s.running && s.running[t].PreLink? && Allocated(s, t)
    ensures var s' := StepGo(s, t, false); LineOk(s') && LinksOk(s')
  {
    assert ThreadOk(s.heap, s.line, s.running[t]);
    assert Last(s.running[t].r) in s.running[t].r;
    LinksKept(s, StepGo(s, t, false), t);
  }

  lemma PreLinkOwn(h: Heap, line: seq<nat>, r: seq<nat>, was: nat)
    requires OwnOk(h, line, r) && Last(r) < |h.next|
    ensures OwnOk(SetNext(h, Last(r), was), line, r)
  {
  }

  lemma SwapThreads(s: State, t: nat)
    requires Inv(s) && t in s.running && s.running[t].PreSwap? && Allocated(s, t) && s.head == s.running[t].was
    ensures ThreadsOk(StepGo(s, t, false)) && Separate(StepGo(s, t, false))
  {
    var s' := StepGo(s, t, false);
    var r := s.running[t].r;
    forall u | u in s.running && u != t ensures KeepsOwn(s.heap, s'.heap, s'.line, Own(s.running[u])) {
      forall k | 0 <= k < |Own(s.running[u])| ensures Own(s.running[u])[k] !in s'.line { OwnFacts(s, t, u, k); }
    }
    forall u | u in s.running && InFlight(s.running[u]) ensures NextOf(s'.heap, s.running[u].was) == None {
      assert ThreadOk(s.heap, s.line, s.running[u]);
    }
    assert s'.line == r + s.line + [];
    ThreadsKept(s, s', t, r, []);
    SeparateKept(s, s', t);
  }

  /** A rope linked to the head it precedes. */
  ghost predicate ReadyToPrepend(s: State, t: nat) {
    && t in s.running && s.running[t].PreSwap? && OwnOk(s.heap, s.line, s.running[t].r)
    && s.line != [] && NextOf(s.heap, Last(s.running[t].r)) == Some(s.line[0])
  }

  lemma SwapLinks(s: State, s': State, t: nat)
    requires LinksOk(s) && ReadyToPrepend(s, t) && OthersSame(s, s', t)
    requires s'.heap == s.heap && s'.line == s.running[t].r + s.line
    ensures LinksOk(s')
  {
    var r := s.running[t].r;
    forall i: nat | i + 1 < |s'.line| ensures LinkAt(s', i) {
      if i >= |r| {
        var k: nat := i - |r|;
        assert LinkAt(s, k);
        if Pending(s, s.line[k], s.line[k + 1]) { PendingKept(s, s', t, s.line[k], s.line[k + 1]); }
      } else if i + 1 < |r| {
        assert NextOf(s.heap, r[i]) == Some(r[i + 1]);
      }
    }
  }

  lemma SwapLine(s: State, t: nat)
    requires Inv(s) && t in s.running && s.running[t].PreSwap? && Allocated(s, t) && s.head == s.running[t].was
    ensures var s' := StepGo(s, t, false); LineOk(s') && LinksOk(s') && s'.line == Logical(s'.orig, s'.log)
  {
    var s' := StepGo(s, t, false);
    assert ThreadOk(s.heap, s.line, s.running[t]);
    assert ReadyToPrepend(s, t);
    SwapLinks(s, s', t);
    SwapEnds(s, s', s.running[t].r);
    assert s'.log[..|s.log|] == s.log;
  }

  lemma SwapEnds(s: State, s': State, r: seq<nat>)
    requires LineOk(s) && OwnOk(s.heap, s.line, r) && s'.heap == s.heap && s'.line == r + s.line
    requires s'.head == r[0] && s'.tail == s.tail
    ensures LineOk(s')
  {
    NoDupConcat(r, s.line);
  }

  // ---------------------------------------------------------------- steps that change no memory

  lemma QuietKeeps(s: State, s': State, t: nat)
    requires Inv(s) && t in s.running && OthersSame(s, s', t)
    requires s' == s.(running := s'.running)
    requires t in s'.running ==> ThreadOk(s.heap, s.line, s'.running[t])
    requires t in s'.running ==> Own(s'.running[t]) == Own(s.running[t])
    requires t in s'.running && InFlight(s'.running[t])
        ==> InFlight(s.running[t]) && s'.running[t].was == s.running[t].was
    requires KeepsPending(s, s', t)
    ensures Inv(s')
  {
    forall u | u in s'.running ensures ThreadOk(s'.heap, s'.line, s'.running[u]) {
      if u != t { assert ThreadOk(s.heap, s.line, s.running[u]); }
    }
    SeparateKept(s, s', t);
    LinksKept(s, s', t);
  }

  lemma WalkOk(s: State, seen: seq<nat>, n: nat)
    requires LineOk(s) && LinksOk(s) && ThreadOk(s.heap, s.line, Walking(seen)) && NextOf(s.heap, Last(seen)) == Some(n)
    ensures ThreadOk(s.heap, s.line, Walking(seen + [n]))
  {
    var i: nat :| FoundAt(s.line, seen, i);
    var k: nat := i + |seen| - 1;
    assert s.line[i..i + |seen|][|seen| - 1] == s.line[k];
    assert k + 1 < |s.line| && LinkAt(s, k);
    assert s.line[i..i + |seen| + 1] == s.line[i..i + |seen|] + [s.line[k + 1]];
    assert FoundAt(s.line, seen + [n], i);
  }

  lemma ReadKeeps(s: State, t: nat)
    requires Inv(s) && t in s.running && (s.running[t].ReadHead? || s.running[t].Walking?) && Allocated(s, t)
    ensures Inv(StepGo(s, t, false))
  {
    var s' := StepGo(s, t, false);
    if s.running[t].ReadHead? {
      assert FoundAt(s.line, [s.head], 0);
    } else {
      var seen := s.running[t].seen;
      assert ThreadOk(s.heap, s.line, Walking(seen));
      if NextOf(s.heap, Last(seen)).Some? { WalkOk(s, seen, NextOf(s.heap, Last(seen)).value); }
    }
    QuietKeeps(s, s', t);
  }

  lemma ThreadAllocated(s: State, t: nat)
    requires LineOk(s) && ThreadsOk(s) && t in s.running
    ensures Allocated(s, t)
  {
    assert ThreadOk(s.heap, s.line, s.running[t]);
  }

  lemma GoKeeps(s: State, t: nat, spurious: bool)
    requires Inv(s) && t in s.running && Allocated(s, t) && !s.running[t].Snapshot?
    ensures Inv(StepGo(s, t, spurious))
  {
    var s' := StepGo(s, t, spurious);
    match s.running[t]
    case AppExchange(_) => ExchangeThreads(s, t); ExchangeLine(s, t);
    case AppCheck(_, _) => assert ThreadOk(s.heap, s.line, s.running[t]); QuietKeeps(s, s', t);
    case AppLink(_, _) => LinkThreads(s, t); LinkLine(s, t);
    case PreLoad(_) => assert ThreadOk(s.heap, s.line, s.running[t]); QuietKeeps(s, s', t);
    case PreLink(_, _) => PreLinkKeeps(s, t);
    case PreSwap(_, was) =>
      if s.head == was && !spurious {
        SwapThreads(s, t);
        SwapLine(s, t);
      } else {
        assert ThreadOk(s.heap, s.line, s.running[t]);
        QuietKeeps(s, s', t);
      }
    case ReadHead => ReadKeeps(s, t);
    case Walking(_) => ReadKeeps(s, t);
  }

  lemma StepKeeps(s: State, t: nat, a: Action)
    requires Inv(s) && Enabled(s, t, a)
    ensures (a.Go? ==> Allocated(s, t)) && Inv(Step(s, t, a))
  {
    match a
    case BeginAppend(chunks) => BeginKeeps(s, t, chunks, AppExchange(Fresh(s.heap, |chunks|)));
    case BeginPrepend(chunks) => BeginKeeps(s, t, chunks, PreLoad(Fresh(s.heap, |chunks|)));
    case BeginRead => BeginReadKeeps(s, t);
    case Go(spurious) =>
      ThreadAllocated(s, t);
      GoKeeps(s, t, spurious);
    case Forget => QuietKeeps(s, Step(s, t, a), t);
  }

  lemma BeginReadKeeps(s: State, t: nat)
    requires Inv(s) && t !in s.running
    ensures Inv(Goto(s, t, ReadHead))
  {
    var s' := Goto(s, t, ReadHead);
    BeginApart(s, s', t);
    BeginSeparate(s, s', t, 0);
    ThreadsKept(s, s', t, [], []);
    LinksKept(s, s', t);
  }

  lemma StartOk(chunks: seq<Bytes>)
    requires chunks != []
    ensures Inv(Start(chunks))
  {
    AllocOk(Heap([], []), [], chunks);
  }

  // ---------------------------------------------------------------- whole runs

  ghost predicate Moves(s: State, s': State) {
    exists t: nat, a: Action :: Enabled(s, t, a) && (a.Go? ==> Allocated(s, t)) && Step(s, t, a) == s'
  }

  ghost predicate MovesAt(run: seq<State>, i: nat) { i + 1 < |run| && Moves(run[i], run[i + 1]) }

  ghost predicate IsRun(chunks: seq<Bytes>, run: seq<State>) {
    chunks != [] && run != [] && run[0] == Start(chunks) && forall i: nat | i + 1 < |run| :: MovesAt(run, i)
  }

  lemma RunPrefix(chunks: seq<Bytes>, run: seq<State>, n: nat)
    requires IsRun(chunks, run) && 0 < n <= |run|
    ensures IsRun(chunks, run[..n])
  {
    forall i: nat | i + 1 < n ensures MovesAt(run[..n], i) { assert MovesAt(run, i); }
  }

  lemma {:induction false} RunInv(chunks: seq<Bytes>, run: seq<State>)
    requires IsRun(chunks, run)
    ensures Inv(run[|run| - 1])
    decreases |run|
  {
    var n := |run| - 1;
    if n == 0 {
      StartOk(chunks);
    } else {
      RunPrefix(chunks, run, n);
      RunInv(chunks, run[..n]);
      assert MovesAt(run, n - 1);
      var t: nat, a: Action :| Enabled(run[n - 1], t, a) && (a.Go? ==> Allocated(run[n - 1], t))
          && Step(run[n - 1], t, a) == run[n];
      StepKeeps(run[n - 1], t, a);
    }
  }

  /** Every enabled step of a reachable state has its memory accesses within allocated buffers. */
  lemma RunExtends(chunks: seq<Bytes>, run: seq<State>, t: nat, a: Action)
    requires IsRun(chunks, run) && Enabled(run[|run| - 1], t, a)
    ensures a.Go? ==> Allocated(run[|run| - 1], t)
    ensures IsRun(chunks, run + [Step(run[|run| - 1], t, a)])
  {
    RunInv(chunks, run);
    var s := run[|run| - 1];
    StepKeeps(s, t, a);
    var run' := run + [Step(s, t, a)];
    forall i: nat | i + 1 < |run'| ensures MovesAt(run', i) {
      if i + 1 < |run| { assert MovesAt(run, i); } else { assert Moves(s, Step(s, t, a)); }
    }
  }

  ghost predicate NoAppendInFlight(s: State) { forall t | t in s.running :: !InFlight(s.running[t]) }

  lemma SettledExactly(s: State)
    requires Inv(s)
    ensures Linked(s.heap, s.line) <==> NoAppendInFlight(s)
  {
    if Linked(s.heap, s.line) {
      forall t | t in s.running ensures !InFlight(s.running[t]) { assert ThreadOk(s.heap, s.line, s.running[t]); }
    }
    if NoAppendInFlight(s) {
      forall i | 0 <= i < |s.line| - 1 ensures NextOf(s.heap, s.line[i]) == Some(s.line[i + 1]) { assert LinkAt(s, i); }
    }
  }

  /** Concurrent appends and prepends lose nothing. In every reachable state the published buffers are
      the prepends newest first, then the original, then the appends in the order of their exchanges,
      each once, from `head` to `tail`; each is linked to the next by its `next` pointer or by the store
      that a running append is about to make; no assertion has failed; and all links are made exactly
      when no append is in flight. */
  lemma NothingLost(chunks: seq<Bytes>, run: seq<State>)
    requires IsRun(chunks, run)
    ensures var s := run[|run| - 1];
            && s.line == NewestFirst(s.log) + s.orig + InOrder(s.log)
            && s.line != [] && NoDup(s.line) && s.head == s.line[0] && s.tail == Last(s.line)
            && (forall i: nat | i + 1 < |s.line| :: LinkAt(s, i)) && NextOf(s.heap, s.tail) == None
            && !s.failed
            && (Linked(s.heap, s.line) <==> NoAppendInFlight(s))
  {
    RunInv(chunks, run);
    var s := run[|run| - 1];
    SettledExactly(s);
    LogicalShape(s.orig, s.log);
  }

  /** The assertion in `append` cannot fail in the next step either. */
  lemma AssertionHolds(chunks: seq<Bytes>, run: seq<State>, t: nat)
    requires IsRun(chunks, run) && t in run[|run| - 1].running && run[|run| - 1].running[t].AppCheck?
    ensures NextOf(run[|run| - 1].heap, run[|run| - 1].running[t].was) == None
  {
    RunInv(chunks, run);
    assert ThreadOk(run[|run| - 1].heap, run[|run| - 1].line, run[|run| - 1].running[t]);
  }

  // ---------------------------------------------------------------- snapshots

  /** The rope has grown at its ends only, its links are kept and its bytes are unchanged. */
  ghost predicate Extends(s: State, s': State) {
    && KeepsLinks(s.heap, s'.heap, s.line) && s.heap.data <= s'.heap.data
    && Contiguous(s'.line, s.line)
  }

  lemma ContiguousTrans(a: seq<nat>, b: seq<nat>, c: seq<nat>)
    requires Contiguous(b, a) && Contiguous(c, b)
    ensures Contiguous(c, a)
  {
    var i: nat :| FoundAt(b, a, i);
    var j: nat :| FoundAt(c, b, j);
    forall k | 0 <= k < |a| ensures c[j + i..j + i + |a|][k] == a[k] {
      assert c[j..j + |b|][i + k] == c[j + (i + k)];
      assert b[i..i + |a|][k] == b[i + k];
    }
    assert FoundAt(c, a, j + i);
  }

  lemma ExtendsTrans(a: State, b: State, c: State)
    requires Extends(a, b) && Extends(b, c)
    ensures Extends(a, c)
  {
    ContiguousTrans(a.line, b.line, c.line);
    forall x | x in a.line && NextOf(a.heap, x).Some? ensures NextOf(c.heap, x) == NextOf(a.heap, x) {
      var k :| 0 <= k < |a.line| && a.line[k] == x;
      ContiguousIn(b.line, a.line, k);
    }
  }

  lemma GrownEnds(a: seq<nat>, line: seq<nat>, b: seq<nat>)
    ensures Contiguous(a + line + b, line)
  {
    var all := a + line + b;
    assert all[|a|..|a| + |line|] == line;
    assert FoundAt(all, line, |a|);
  }

  lemma StepGrows(s: State, t: nat, a: Action)
    requires Enabled(s, t, a) && (a.Go? ==> Allocated(s, t))
    ensures Contiguous(Step(s, t, a).line, s.line) && s.heap.data <= Step(s, t, a).heap.data
  {
    var s' := Step(s, t, a);
    assert s.line == [] + s.line + [];
    GrownEnds([], s.line, []);
    if a.Go? && s.running[t].AppExchange? {
      assert s'.line == [] + s.line + s.running[t].r;
      GrownEnds([], s.line, s.running[t].r);
    } else if a.Go? && s.running[t].PreSwap? && s'.line != s.line {
      assert s'.line == s.running[t].r + s.line + [];
      GrownEnds(s.running[t].r, s.line, []);
    }
  }

  lemma StepKeepsLinks(s: State, t: nat, a: Action)
    requires ThreadsOk(s) && Enabled(s, t, a) && (a.Go? ==> Allocated(s, t))
    ensures KeepsLinks(s.heap, Step(s, t, a).heap, s.line)
  {
    if a.Go? {
      assert ThreadOk(s.heap, s.line, s.running[t]);
      if s.running[t].PreLink? { assert Last(s.running[t].r) in s.running[t].r; }
    }
  }

  lemma MoveExtends(s: State, s': State)
    requires ThreadsOk(s) && Moves(s, s')
    ensures Extends(s, s')
  {
    var t: nat, a: Action :| Enabled(s, t, a) && (a.Go? ==> Allocated(s, t)) && Step(s, t, a) == s';
    StepGrows(s, t, a);
    StepKeepsLinks(s, t, a);
  }

  lemma RunInvAt(chunks: seq<Bytes>, run: seq<State>, i: nat)
    requires IsRun(chunks, run) && i < |run|
    ensures Inv(run[i])
  {
    assert run[..i + 1][i] == run[i];
    RunPrefix(chunks, run, i + 1);
    RunInv(chunks, run[..i + 1]);
  }

  lemma ExtendsAt(chunks: seq<Bytes>, run: seq<State>, i: nat)
    requires IsRun(chunks, run) && i + 1 < |run|
    ensures Extends(run[i], run[i + 1])
  {
    RunInvAt(chunks, run, i);
    assert MovesAt(run, i);
    MoveExtends(run[i], run[i + 1]);
  }

  lemma ExtendsItself(s: State)
    ensures Extends(s, s)
  {
    assert s.line == [] + s.line + [];
    GrownEnds([], s.line, []);
  }

  lemma {:induction false} RunGrows(chunks: seq<Bytes>, run: seq<State>, i: nat, j: nat)
    requires IsRun(chunks, run) && i <= j < |run|
    ensures Extends(run[i], run[j])
    decreases j - i
  {
    if i == j {
      ExtendsItself(run[i]);
    } else {
      RunGrows(chunks, run, i, j - 1);
      ExtendsAt(chunks, run, j - 1);
      ExtendsTrans(run[i], run[j - 1], run[j]);
    }
  }

  /** The buffer contents of `nodes`. */
  ghost predicate HoldsRope(h: Heap, nodes: seq<nat>, chunks: seq<Bytes>) {
    && Linked(h, nodes) && |nodes| == |chunks| && |h.data| == |h.next|
    && forall i | 0 <= i < |nodes| :: h.data[nodes[i]] == chunks[i]
  }

  function ChunksOf(h: Heap, nodes: seq<nat>): (r: seq<Bytes>)
  {
    seq(|nodes|, i requires 0 <= i < |nodes| => if nodes[i] < |h.data| then h.data[nodes[i]] else [])
  }

  lemma {:induction false} ContiguousNoDup(line: seq<nat>, seen: seq<nat>)
    requires NoDup(line) && Contiguous(line, seen)
    ensures NoDup(seen)
  {
    var i: nat :| FoundAt(line, seen, i);
    forall k | 0 <= k < |seen| ensures seen[k] == line[i + k] { assert line[i..i + |seen|][k] == line[i + k]; }
  }

  function SeenAt(s: State, t: nat): seq<nat> {
    if t in s.running && (s.running[t].Walking? || s.running[t].Snapshot?) then s.running[t].seen else []
  }

  ghost predicate Reading(s: State, t: nat) { t in s.running && (s.running[t].Walking? || s.running[t].Snapshot?) }

  /** The walk of `t` that is under way or done at step `i` began with the head that `t` loaded at step `m`. */
  ghost predicate LoadedAt(run: seq<State>, m: nat, i: nat, t: nat) {
    && m < i < |run| && t in run[m].running && run[m].running[t].ReadHead?
    && forall k | m < k <= i :: Reading(run[k], t) && [run[m].head] <= SeenAt(run[k], t)
  }

  lemma OtherUnmoved(s: State, u: nat, a: Action, t: nat)
    requires Enabled(s, u, a) && (a.Go? ==> Allocated(s, u)) && u != t
    ensures var s' := Step(s, u, a);
            (t in s'.running <==> t in s.running) && (t in s.running ==> s'.running[t] == s.running[t])
  {
  }

  /** What a step of the reader itself does. */
  ghost predicate ReadsOn(s: State, s': State, t: nat) {
    && t in s.running && t in s'.running
    && (if s.running[t].ReadHead? then SeenAt(s', t) == [s.head] && !s'.running[t].Snapshot?
        else
          && s.running[t].Walking? && s.running[t].seen != []
          && match NextOf(s.heap, Last(s.running[t].seen))
             case Some(n) => s'.running[t] == Walking(s.running[t].seen + [n])
             case None => s'.running[t] == Snapshot(s.running[t].seen))
  }

  lemma ReaderMoves(s: State, t: nat, a: Action)
    requires Enabled(s, t, a) && (a.Go? ==> Allocated(s, t)) && Reading(Step(s, t, a), t)
    ensures ReadsOn(s, Step(s, t, a), t)
  {
  }

  lemma ReadStep(s: State, s': State, t: nat)
    requires Moves(s, s') && Reading(s', t)
    ensures (t in s.running && s.running[t] == s'.running[t]) || ReadsOn(s, s', t)
  {
    var u: nat, a: Action :| Enabled(s, u, a) && (a.Go? ==> Allocated(s, u)) && Step(s, u, a) == s';
    if u == t { ReaderMoves(s, t, a); } else { OtherUnmoved(s, u, a, t); }
  }

  lemma {:induction false} LoadPoint(chunks: seq<Bytes>, run: seq<State>, i: nat, t: nat) returns (m: nat)
    requires IsRun(chunks, run) && i < |run| && Reading(run[i], t)
    ensures LoadedAt(run, m, i, t)
    decreases i
  {
    assert i > 0;
    assert MovesAt(run, i - 1);
    ReadStep(run[i - 1], run[i], t);
    if run[i - 1].running[t].ReadHead? {
      m := i - 1;
    } else {
      m := LoadPoint(chunks, run, i - 1, t);
      assert Reading(run[i - 1], t) && [run[m].head] <= SeenAt(run[i - 1], t);
    }
  }

  /** Snapshot reads: what a read returned is a contiguous piece of the logical rope that starts with the head the
      read loaded, and at every later moment, whatever has been appended or prepended, it denotes the same
      buffers with the same bytes. */
  lemma SnapshotStable(chunks: seq<Bytes>, run: seq<State>, i: nat, j: nat, t: nat)
    requires IsRun(chunks, run) && i <= j < |run| && t in run[i].running && run[i].running[t].Snapshot?
    ensures var seen := run[i].running[t].seen;
            && seen != [] && NoDup(seen) && Contiguous(run[i].line, seen) && Contiguous(run[j].line, seen)
            && HoldsRope(run[j].heap, seen, ChunksOf(run[i].heap, seen))
    ensures exists m: nat :: LoadedAt(run, m, i, t)
  {
    var seen := run[i].running[t].seen;
    var m := LoadPoint(chunks, run, i, t);
    RunInvAt(chunks, run, i);
    RunInvAt(chunks, run, j);
    assert ThreadOk(run[i].heap, run[i].line, run[i].running[t]);
    RunGrows(chunks, run, i, j);
    ContiguousTrans(seen, run[i].line, run[j].line);
    ContiguousNoDup(run[i].line, seen);
    SeenKept(run[i].heap, run[j].heap, run[i].line, seen);
  }

  ghost predicate Comparable(a: seq<nat>, b: seq<nat>) { a <= b || b <= a }

  /** Thread `t` loads the head at step `m` and is still walking at step `i`. */
  ghost predicate ReadsFrom(run: seq<State>, m: nat, i: nat, t: nat) {
    && m < i < |run| && t in run[m + 1].running && run[m + 1].running[t] == Walking([run[m].head])
    && run[m + 1].line == run[m].line
    && forall k | m < k < i :: t in run[k].running && run[k].running[t].Walking?
  }

  /** Within `line`, all of whose links are made, a reader follows `line`, and stops only beyond it. */
  ghost predicate Follows(s: State, t: nat, line: seq<nat>) {
    && line != [] && Comparable(SeenAt(s, t), line) && SeenAt(s, t) != [] && SeenAt(s, t)[0] == line[0]
    && (t in s.running && s.running[t].Snapshot? ==> line <= SeenAt(s, t))
  }

  lemma FollowStep(s0: State, s: State, s': State, t: nat)
    requires s0.line != [] && Linked(s0.heap, s0.line) && KeepsLinks(s0.heap, s.heap, s0.line)
    requires Moves(s, s') && t in s.running && s.running[t].Walking? && Follows(s, t, s0.line)
    requires t in s'.running && (s'.running[t].Walking? || s'.running[t].Snapshot?)
    ensures Follows(s', t, s0.line)
  {
    ReadStep(s, s', t);
    NextInLine(s0, s, SeenAt(s, t));
  }

  lemma SettledAt(chunks: seq<Bytes>, run: seq<State>, m: nat, i: nat)
    requires IsRun(chunks, run) && m <= i < |run| && NoAppendInFlight(run[m])
    ensures run[m].line != [] && run[m].line[0] == run[m].head
    ensures Linked(run[m].heap, run[m].line) && KeepsLinks(run[m].heap, run[i].heap, run[m].line)
  {
    RunInvAt(chunks, run, m);
    SettledExactly(run[m]);
    RunGrows(chunks, run, m, i);
  }

  lemma {:induction false} ReaderFollows(chunks: seq<Bytes>, run: seq<State>, m: nat, i: nat, t: nat)
    requires IsRun(chunks, run) && ReadsFrom(run, m, i, t) && NoAppendInFlight(run[m])
    requires t in run[i].running && (run[i].running[t].Walking? || run[i].running[t].Snapshot?)
    ensures run[m].line != [] && Follows(run[i], t, run[m].line) && run[m].line[0] == run[m].head
    decreases i
  {
    SettledAt(chunks, run, m, i - 1);
    if i > m + 1 {
      ReaderFollows(chunks, run, m, i - 1, t);
      assert MovesAt(run, i - 1);
      FollowStep(run[m], run[i - 1], run[i], t);
    }
  }

  lemma NextInLine(s: State, s': State, seen: seq<nat>)
    requires Linked(s.heap, s.line) && KeepsLinks(s.heap, s'.heap, s.line) && seen != []
    ensures seen <= s.line && |seen| < |s.line| ==> NextOf(s'.heap, Last(seen)) == Some(s.line[|seen|])
  {
    if seen <= s.line && |seen| < |s.line| {
      assert s.line[|seen| - 1] in s.line;
      assert NextOf(s.heap, s.line[|seen| - 1]) == Some(s.line[|seen| - 1 + 1]);
    }
  }

  /** A read that loads the head while no append is in flight returns at least the whole rope as it was
      at that moment, starting with its head. */
  lemma SnapshotCovers(chunks: seq<Bytes>, run: seq<State>, m: nat, i: nat, t: nat)
    requires IsRun(chunks, run) && ReadsFrom(run, m, i, t) && NoAppendInFlight(run[m])
    requires t in run[i].running && run[i].running[t].Snapshot?
    ensures run[m].line != [] && run[m].line[0] == run[m].head && run[m].line <= run[i].running[t].seen
  {
    ReaderFollows(chunks, run, m, i, t);
  }
}
