/** What each call on a rope contributes: the contents of an entry in terms of the calls made and their arguments
(src/entry.cc). */
module RopeCalls {
  import opened Basics
  import opened Rope
  import opened RopeProofs

  // ---------------------------------------------------------------- runs with their actions

  ghost predicate ActsAt(run: seq<State>, acts: seq<(nat, Action)>, i: nat) {
    && i + 1 < |run| && i < |acts| && Enabled(run[i], acts[i].0, acts[i].1)
    && (acts[i].1.Go? ==> Allocated(run[i], acts[i].0)) && Step(run[i], acts[i].0, acts[i].1) == run[i + 1]
  }

  /** The states of a run and the actions between them. */
  ghost predicate IsActed(chunks: seq<Bytes>, run: seq<State>, acts: seq<(nat, Action)>) {
    && chunks != [] && run != [] && |acts| == |run| - 1 && run[0] == Start(chunks)
    && forall i: nat | i < |acts| :: ActsAt(run, acts, i)
  }

  lemma ActedPrefix(chunks: seq<Bytes>, run: seq<State>, acts: seq<(nat, Action)>, n: nat)
    requires IsActed(chunks, run, acts) && n <= |acts|
    ensures IsActed(chunks, run[..n + 1], acts[..n])
  {
    var run', acts' := run[..n + 1], acts[..n];
    forall i: nat | i < |acts'| ensures ActsAt(run', acts', i) { assert ActsAt(run, acts, i); }
  }

  lemma ActedIsRun(chunks: seq<Bytes>, run: seq<State>, acts: seq<(nat, Action)>)
    requires IsActed(chunks, run, acts)
    ensures IsRun(chunks, run)
  {
    forall i: nat | i + 1 < |run| ensures MovesAt(run, i) { assert ActsAt(run, acts, i); }
  }

  predicate Begins(a: Action) { a.BeginAppend? || a.BeginPrepend? || a.BeginRead? }

  predicate Writes(a: Action) { a.BeginAppend? || a.BeginPrepend? }

  /** Where the last call of `t` began, or -1. */
  function Begun(acts: seq<(nat, Action)>, t: nat): (i: int)
    ensures -1 <= i < |acts|
  {
    if acts == [] then -1
    else
      var n := |acts| - 1;
      if acts[n].0 == t && Begins(acts[n].1) then n else Begun(acts[..n], t)
  }

  /** The calls that have published their ropes, in order of publication. */
  ghost function Publishers(run: seq<State>, acts: seq<(nat, Action)>): seq<int>
    requires |run| == |acts| + 1
    decreases |acts|
  {
    if acts == [] then []
    else
      var n := |acts| - 1;
      Publishers(run[..n + 1], acts[..n]) +
      if run[n + 1].log != run[n].log then [Begun(acts[..n], acts[n].0)] else []
  }

  // ---------------------------------------------------------------- the ledger

  /** The buffers of `r` hold the argument of a call. */
  ghost predicate Holding(h: Heap, r: seq<nat>, chunks: seq<Bytes>) {
    |r| == |chunks| && forall i | 0 <= i < |r| :: r[i] < |h.data| && h.data[r[i]] == chunks[i]
  }

  /** A publication is what the call asked for. */
  ghost predicate Published(h: Heap, a: Action, e: Event) {
    match a
    case BeginAppend(chunks) => e.Appended? && Holding(h, e.r, chunks)
    case BeginPrepend(chunks) => e.Prepended? && Holding(h, e.r, chunks)
    case _ => false
  }

  /** A thread stands in the code of the call it began, with a rope that holds the argument. */
  ghost predicate InCall(h: Heap, a: Action, pc: Pc) {
    match a
    case BeginAppend(chunks) => InFlight(pc) || (pc.AppExchange? && Holding(h, pc.r, chunks))
    case BeginPrepend(chunks) => (pc.PreLoad? || pc.PreLink? || pc.PreSwap?) && Holding(h, pc.r, chunks)
    case BeginRead => pc.ReadHead? || pc.Walking? || pc.Snapshot?
    case _ => false
  }

  predicate Unpublished(pc: Pc) { pc.AppExchange? || pc.PreLoad? || pc.PreLink? || pc.PreSwap? }

  /** `who[k]` is the call that made the `k`-th publication. */
  ghost predicate Matched(s: State, acts: seq<(nat, Action)>, who: seq<int>) {
    && |who| == |s.log|
    && forall k | 0 <= k < |who| :: 0 <= who[k] < |acts| && Published(s.heap, acts[who[k]].1, s.log[k])
  }

  ghost predicate Once(who: seq<int>) { forall k, l | 0 <= k < l < |who| :: who[k] != who[l] }

  ghost predicate ThreadsInCalls(s: State, acts: seq<(nat, Action)>, who: seq<int>) {
    forall t | t in s.running :: ThreadInCall(s, acts, who, t)
  }

  ghost predicate ThreadInCall(s: State, acts: seq<(nat, Action)>, who: seq<int>, t: nat)
    requires t in s.running
  {
    var i := Begun(acts, t);
    i >= 0 && InCall(s.heap, acts[i].1, s.running[t]) && (Unpublished(s.running[t]) ==> i !in who)
  }

  /** Every call that writes has published, or its thread is still to do so. */
  ghost predicate AllCalled(s: State, acts: seq<(nat, Action)>, who: seq<int>) {
    forall i | 0 <= i < |acts| && Writes(acts[i].1) :: i in who || StillIn(s, acts, i)
  }

  ghost predicate StillIn(s: State, acts: seq<(nat, Action)>, i: int)
    requires 0 <= i < |acts|
  {
    var t := acts[i].0; t in s.running && Begun(acts, t) == i && Unpublished(s.running[t])
  }

  ghost predicate Ledger(chunks: seq<Bytes>, s: State, acts: seq<(nat, Action)>, who: seq<int>) {
    && Holding(s.heap, s.orig, chunks)
    && Matched(s, acts, who) && Once(who) && ThreadsInCalls(s, acts, who) && AllCalled(s, acts, who)
  }

  lemma {:induction false} BegunOwner(acts: seq<(nat, Action)>, t: nat)
    ensures var i := Begun(acts, t); i >= 0 ==> acts[i].0 == t && Begins(acts[i].1)
    decreases |acts|
  {
    if acts != [] { BegunOwner(acts[..|acts| - 1], t); }
  }

  lemma BegunMore(acts: seq<(nat, Action)>, x: (nat, Action), u: nat)
    ensures Begun(acts + [x], u) == if x.0 == u && Begins(x.1) then |acts| else Begun(acts, u)
  {
    assert (acts + [x])[..|acts|] == acts;
  }

  lemma HoldingKept(h: Heap, h': Heap, r: seq<nat>, chunks: seq<Bytes>)
    requires Holding(h, r, chunks) && h.data <= h'.data
    ensures Holding(h', r, chunks)
  {
  }

  lemma InCallKept(h: Heap, h': Heap, a: Action, pc: Pc)
    requires InCall(h, a, pc) && h.data <= h'.data
    ensures InCall(h', a, pc)
  {
    if pc.AppExchange? && a.BeginAppend? { HoldingKept(h, h', pc.r, a.chunks); }
    if a.BeginPrepend? { HoldingKept(h, h', pc.r, a.chunks); }
  }

  lemma PublishedKept(h: Heap, h': Heap, a: Action, e: Event)
    requires Published(h, a, e) && h.data <= h'.data
    ensures Published(h', a, e)
  {
    HoldingKept(h, h', e.r, a.chunks);
  }

  lemma MatchedKept(s: State, s': State, acts: seq<(nat, Action)>, who: seq<int>, x: (nat, Action))
    requires Matched(s, acts, who) && s'.log == s.log && s.heap.data <= s'.heap.data
    ensures Matched(s', acts + [x], who)
  {
    forall k | 0 <= k < |who| ensures Published(s'.heap, (acts + [x])[who[k]].1, s'.log[k]) {
      PublishedKept(s.heap, s'.heap, acts[who[k]].1, s.log[k]);
    }
  }

  /** The other threads stand where they stood, in the calls they began. */
  lemma OtherInCall(s: State, s': State, acts: seq<(nat, Action)>, who: seq<int>, who': seq<int>, x: (nat, Action),
                    u: nat)
    requires u in s.running && u in s'.running && s'.running[u] == s.running[u] && u != x.0
    requires ThreadInCall(s, acts, who, u) && s.heap.data <= s'.heap.data
    requires who' == who || (who' == who + [Begun(acts, x.0)] && Begun(acts, x.0) >= 0)
    ensures ThreadInCall(s', acts + [x], who', u)
  {
    BegunMore(acts, x, u);
    BegunOwner(acts, u);
    BegunOwner(acts, x.0);
    InCallKept(s.heap, s'.heap, acts[Begun(acts, u)].1, s.running[u]);
  }

  /** What a step other than a beginning does to the call of its thread. */
  ghost predicate Moves1(s: State, s': State, t: nat, a: Action) {
    && t in s.running && !Begins(a) && s'.heap.data == s.heap.data && OthersSame(s, s', t) && s'.orig == s.orig
    && (if s'.log == s.log then
          t in s'.running ==>
            (Unpublished(s'.running[t]) <==> Unpublished(s.running[t])) &&
            forall b: Action | InCall(s.heap, b, s.running[t]) :: InCall(s.heap, b, s'.running[t])
        else Unpublished(s.running[t]) && Publishes(s, s', t))
    && (t !in s'.running && s'.log == s.log ==> !Unpublished(s.running[t]))
  }

  /** The step at which a rope is published. */
  ghost predicate Publishes(s: State, s': State, t: nat)
    requires t in s.running
  {
    var pc := s.running[t];
    if pc.AppExchange? then
      s'.log == s.log + [Appended(pc.r)] && t in s'.running && InFlight(s'.running[t])
    else pc.PreSwap? && s'.log == s.log + [Prepended(pc.r)] && t !in s'.running
  }

  lemma StepMoves1(s: State, t: nat, a: Action)
    requires Enabled(s, t, a) && (a.Go? ==> Allocated(s, t)) && !Begins(a)
    ensures Moves1(s, Step(s, t, a), t, a)
  {
  }

  lemma MoveLedger(chunks: seq<Bytes>, s: State, s': State, acts: seq<(nat, Action)>, who: seq<int>, t: nat, a: Action)
    requires Ledger(chunks, s, acts, who) && Moves1(s, s', t, a) && s'.log == s.log
    ensures Ledger(chunks, s', acts + [(t, a)], who)
  {
    var x := (t, a);
    MatchedKept(s, s', acts, who, x);
    forall u | u in s'.running ensures ThreadInCall(s', acts + [x], who, u) {
      assert ThreadInCall(s, acts, who, u);
      if u != t { OtherInCall(s, s', acts, who, who, x, u); } else { BegunMore(acts, x, t); }
    }
    forall i | 0 <= i < |acts + [x]| && Writes((acts + [x])[i].1) ensures i in who || StillIn(s', acts + [x], i) {
      assert i in who || StillIn(s, acts, i);
      BegunMore(acts, x, acts[i].0);
    }
  }

  lemma PublishMatched(s: State, s': State, acts: seq<(nat, Action)>, who: seq<int>, t: nat, a: Action)
    requires Matched(s, acts, who) && t in s.running && ThreadInCall(s, acts, who, t) && Publishes(s, s', t)
    requires s'.heap.data == s.heap.data
    ensures Matched(s', acts + [(t, a)], who + [Begun(acts, t)])
  {
    var who' := who + [Begun(acts, t)];
    forall k | 0 <= k < |who'| ensures Published(s'.heap, (acts + [(t, a)])[who'[k]].1, s'.log[k]) {
      if k < |who| { PublishedKept(s.heap, s'.heap, acts[who[k]].1, s.log[k]); }
    }
  }

  lemma PublishLedger(chunks: seq<Bytes>, s: State, s': State, acts: seq<(nat, Action)>, who: seq<int>, t: nat,
                      a: Action)
    requires Ledger(chunks, s, acts, who) && Moves1(s, s', t, a) && s'.log != s.log
    ensures Ledger(chunks, s', acts + [(t, a)], who + [Begun(acts, t)])
  {
    var x, b := (t, a), Begun(acts, t);
    var who' := who + [b];
    assert ThreadInCall(s, acts, who, t);
    PublishMatched(s, s', acts, who, t, a);
    forall u | u in s'.running ensures ThreadInCall(s', acts + [x], who', u) {
      assert ThreadInCall(s, acts, who, u);
      if u != t { OtherInCall(s, s', acts, who, who', x, u); } else { BegunMore(acts, x, t); }
    }
    forall i | 0 <= i < |acts + [x]| && Writes((acts + [x])[i].1) ensures i in who' || StillIn(s', acts + [x], i) {
      assert i in who || StillIn(s, acts, i);
      BegunMore(acts, x, acts[i].0);
      assert b in who';
    }
  }

  lemma BeginLedger(chunks: seq<Bytes>, s: State, acts: seq<(nat, Action)>, who: seq<int>, t: nat, a: Action)
    requires Ledger(chunks, s, acts, who) && |s.heap.data| == |s.heap.next| && Enabled(s, t, a) && Begins(a)
    ensures Ledger(chunks, Step(s, t, a), acts + [(t, a)], who)
  {
    var x, s' := (t, a), Step(s, t, a);
    assert s.heap.data <= s'.heap.data;
    HoldingKept(s.heap, s'.heap, s.orig, chunks);
    MatchedKept(s, s', acts, who, x);
    forall u | u in s'.running ensures ThreadInCall(s', acts + [x], who, u) {
      if u != t {
        assert ThreadInCall(s, acts, who, u);
        OtherInCall(s, s', acts, who, who, x, u);
      } else {
        BegunMore(acts, x, t);
      }
    }
    forall i | 0 <= i < |acts + [x]| && Writes((acts + [x])[i].1) ensures i in who || StillIn(s', acts + [x], i) {
      BegunMore(acts, x, (acts + [x])[i].0);
      if i < |acts| { assert i in who || StillIn(s, acts, i); }
    }
  }

  lemma StartLedger(chunks: seq<Bytes>)
    requires chunks != []
    ensures Ledger(chunks, Start(chunks), [], [])
  {
  }

  lemma LineAt(chunks: seq<Bytes>, run: seq<State>, acts: seq<(nat, Action)>, n: nat)
    requires IsActed(chunks, run, acts) && n <= |acts|
    ensures LineOk(run[n])
  {
    ActedIsRun(chunks, run, acts);
    RunInvAt(chunks, run, n);
  }

  /** Every call that writes publishes its argument, as an append or a prepend as asked, and once. */
  lemma {:induction false} CallsPublished(chunks: seq<Bytes>, run: seq<State>, acts: seq<(nat, Action)>)
    requires IsActed(chunks, run, acts)
    ensures Ledger(chunks, run[|run| - 1], acts, Publishers(run, acts))
    decreases |acts|
  {
    if acts == [] {
      StartLedger(chunks);
    } else {
      var n := |acts| - 1;
      ActedPrefix(chunks, run, acts, n);
      CallsPublished(chunks, run[..n + 1], acts[..n]);
      LineAt(chunks, run, acts, n);
      assert ActsAt(run, acts, n);
      assert acts == acts[..n] + [acts[n]];
      StepLedger(chunks, run[n], acts[..n], Publishers(run[..n + 1], acts[..n]), acts[n].0, acts[n].1);
    }
  }

  lemma StepLedger(chunks: seq<Bytes>, s: State, acts: seq<(nat, Action)>, who: seq<int>, t: nat, a: Action)
    requires Ledger(chunks, s, acts, who) && LineOk(s) && Enabled(s, t, a) && (a.Go? ==> Allocated(s, t))
    ensures var s' := Step(s, t, a);
            Ledger(chunks, s', acts + [(t, a)], who + if s'.log != s.log then [Begun(acts, t)] else [])
  {
    var s' := Step(s, t, a);
    assert who + [] == who;
    if Begins(a) {
      BeginLedger(chunks, s, acts, who, t, a);
    } else {
      StepMoves1(s, t, a);
      if s'.log == s.log { MoveLedger(chunks, s, s', acts, who, t, a); }
      else { PublishLedger(chunks, s, s', acts, who, t, a); }
    }
  }

  /** The call that began at `i` is over. */
  ghost predicate Over(s: State, acts: seq<(nat, Action)>, i: int)
    requires 0 <= i < |acts|
  {
    !(acts[i].0 in s.running && Begun(acts, acts[i].0) == i)
  }

  /** A call that writes and is over has made exactly one publication, of its argument and of its kind. */
  lemma OverMeansPublished(chunks: seq<Bytes>, run: seq<State>, acts: seq<(nat, Action)>, i: nat) returns (k: nat)
    requires IsActed(chunks, run, acts) && i < |acts| && Writes(acts[i].1) && Over(run[|run| - 1], acts, i)
    ensures var s, who := run[|run| - 1], Publishers(run, acts);
            && |who| == |s.log| && k < |who| && who[k] == i && Published(s.heap, acts[i].1, s.log[k])
            && forall l | 0 <= l < |who| && who[l] == i :: l == k
  {
    CallsPublished(chunks, run, acts);
    var s, who := run[|run| - 1], Publishers(run, acts);
    assert i in who || StillIn(s, acts, i);
    k :| 0 <= k < |who| && who[k] == i;
  }

  /** Publications are never taken back or reordered, so calls that follow one another publish in their order. */
  lemma {:induction false} PublishersGrow(chunks: seq<Bytes>, run: seq<State>, acts: seq<(nat, Action)>, n: nat)
    requires IsActed(chunks, run, acts) && n <= |acts|
    ensures Publishers(run[..n + 1], acts[..n]) <= Publishers(run, acts)
    decreases |acts|
  {
    var m := |acts| - 1;
    if n == |acts| {
      assert run[..n + 1] == run && acts[..n] == acts;
    } else {
      ActedPrefix(chunks, run, acts, m);
      PublishersGrow(chunks, run[..m + 1], acts[..m], n);
      assert run[..m + 1][..n + 1] == run[..n + 1] && acts[..m][..n] == acts[..n];
    }
  }

  // ---------------------------------------------------------------- the contents

  /** The arguments of the prepends among the calls, newest first. */
  ghost function PrependArgs(acts: seq<(nat, Action)>, who: seq<int>): seq<Bytes>
    requires forall k | 0 <= k < |who| :: 0 <= who[k] < |acts|
  {
    if who == [] then []
    else
      var a := acts[who[|who| - 1]].1;
      (if a.BeginPrepend? then a.chunks else []) + PrependArgs(acts, who[..|who| - 1])
  }

  /** The arguments of the appends among the calls, in order. */
  ghost function AppendArgs(acts: seq<(nat, Action)>, who: seq<int>): seq<Bytes>
    requires forall k | 0 <= k < |who| :: 0 <= who[k] < |acts|
  {
    if who == [] then []
    else
      var a := acts[who[|who| - 1]].1;
      AppendArgs(acts, who[..|who| - 1]) + if a.BeginAppend? then a.chunks else []
  }

  lemma HoldingChunks(h: Heap, r: seq<nat>, chunks: seq<Bytes>)
    requires Holding(h, r, chunks)
    ensures ChunksOf(h, r) == chunks
  {
  }

  lemma ChunksJoin(h: Heap, a: seq<nat>, b: seq<nat>)
    ensures ChunksOf(h, a + b) == ChunksOf(h, a) + ChunksOf(h, b)
  {
  }

  lemma {:induction false} LogChunks(h: Heap, orig: seq<nat>, log: seq<Event>, chunks: seq<Bytes>,
                                     acts: seq<(nat, Action)>, who: seq<int>)
    requires Holding(h, orig, chunks) && |who| == |log|
    requires forall k | 0 <= k < |who| :: 0 <= who[k] < |acts| && Published(h, acts[who[k]].1, log[k])
    ensures ChunksOf(h, Logical(orig, log)) == PrependArgs(acts, who) + chunks + AppendArgs(acts, who)
    decreases |log|
  {
    if log == [] {
      assert [] + chunks + [] == chunks;
      HoldingChunks(h, orig, chunks);
    } else {
      var n := |log| - 1;
      LogChunks(h, orig, log[..n], chunks, acts, who[..n]);
      assert Published(h, acts[who[n]].1, log[n]);
      HoldingChunks(h, log[n].r, acts[who[n]].1.chunks);
      var x, p, q := acts[who[n]].1.chunks, PrependArgs(acts, who[..n]), AppendArgs(acts, who[..n]);
      if log[n].Prepended? {
        ChunksJoin(h, log[n].r, Logical(orig, log[..n]));
        AtFront(x, p, chunks, q);
      } else {
        ChunksJoin(h, Logical(orig, log[..n]), log[n].r);
        AtEnd(x, p, chunks, q);
      }
    }
  }

  lemma AtFront(x: seq<Bytes>, p: seq<Bytes>, m: seq<Bytes>, q: seq<Bytes>)
    ensures x + (p + m + q) == (x + p) + m + ([] + q) && q + [] == q
  {
  }

  lemma AtEnd(x: seq<Bytes>, p: seq<Bytes>, m: seq<Bytes>, q: seq<Bytes>)
    ensures (p + m + q) + x == ([] + p) + m + (q + x)
  {
  }

  /** The published buffers hold the arguments of the prepends newest first, the initial contents, and the arguments
      of the appends in order of publication; with no append in flight, they are what a reader finds. */
  lemma ContentsAreCalls(chunks: seq<Bytes>, run: seq<State>, acts: seq<(nat, Action)>)
    requires IsActed(chunks, run, acts)
    ensures var s, who := run[|run| - 1], Publishers(run, acts);
            && (forall k | 0 <= k < |who| :: 0 <= who[k] < |acts|)
            && s.line != [] && s.head == s.line[0] && s.tail == Last(s.line)
            && ChunksOf(s.heap, s.line) == PrependArgs(acts, who) + chunks + AppendArgs(acts, who)
            && (NoAppendInFlight(s) ==> Linked(s.heap, s.line) && NextOf(s.heap, s.tail) == None)
  {
    CallsPublished(chunks, run, acts);
    ActedIsRun(chunks, run, acts);
    RunInv(chunks, run);
    NothingLost(chunks, run);
    var s := run[|run| - 1];
    LogChunks(s.heap, s.orig, s.log, chunks, acts, Publishers(run, acts));
  }

  // ---------------------------------------------------------------- calls that nothing interrupts

  /** Three steps of `t` alone. */
  ghost predicate Thrice(s: State, s': State, t: nat) {
    exists m, n :: Goes(s, m, t) && Goes(m, n, t) && Goes(n, s', t)
  }

  /** The exchange, the check and the link. */
  lemma AppendSteps(s: State, m: State, n: State, s': State, t: nat)
    requires t in s.running && s.running[t].AppExchange? && Goes(s, m, t) && Goes(m, n, t) && Goes(n, s', t)
    ensures s'.line == s.line + s.running[t].r && s'.running == s.running - {t} && s'.heap.data == s.heap.data
  {
  }

  /** The load, the link and the swap. */
  lemma PrependSteps(s: State, m: State, n: State, s': State, t: nat)
    requires t in s.running && s.running[t].PreLoad? && Goes(s, m, t) && Goes(m, n, t) && Goes(n, s', t)
    ensures s'.line == s.running[t].r + s.line && s'.running == s.running - {t} && s'.heap.data == s.heap.data
  {
  }

  lemma StillGoing(s: State, s': State, t: nat)
    requires Goes(s, s', t) && (s.running[t].AppExchange? || s.running[t].AppCheck? || s.running[t].PreLoad?
                                || s.running[t].PreLink?)
    ensures Enabled(s', t, Go(false))
    ensures s.running[t].AppExchange? ==> s'.running[t].AppCheck?
    ensures s.running[t].PreLoad? ==> s'.running[t].PreLink?
  {
  }

  lemma WriteSteps(s: State, t: nat) returns (s': State)
    requires Inv(s) && t in s.running && (s.running[t].AppExchange? || s.running[t].PreLoad?)
    ensures Inv(s') && Thrice(s, s', t) && s'.running == s.running - {t} && s'.heap.data == s.heap.data
    ensures var r := s.running[t].r; s'.line == if s.running[t].AppExchange? then s.line + r else r + s.line
  {
    var m := GoOn(s, t);
    StillGoing(s, m, t);
    var n := GoOn(m, t);
    StillGoing(m, n, t);
    s' := GoOn(n, t);
    if s.running[t].AppExchange? { AppendSteps(s, m, n, s', t); } else { PrependSteps(s, m, n, s', t); }
  }

  /** An append or a prepend that nothing interrupts ends, with its argument at the end or in front of what the entry
      held. */
  lemma WriteAlone(s: State, t: nat, a: Action) returns (s': State)
    requires Inv(s) && Enabled(s, t, a) && Writes(a)
    ensures Inv(s') && s'.running == s.running && Thrice(Step(s, t, a), s', t)
    ensures var was := ChunksOf(s.heap, s.line);
            ChunksOf(s'.heap, s'.line) == if a.BeginAppend? then was + a.chunks else a.chunks + was
  {
    var s1 := Step(s, t, a);
    StepKeeps(s, t, a);
    s' := WriteSteps(s1, t);
    Beginning(s, t, a);
    ChunksJoin(s'.heap, s.line, s1.running[t].r);
    ChunksJoin(s'.heap, s1.running[t].r, s.line);
  }

  lemma Beginning(s: State, t: nat, a: Action)
    requires Within(s.heap, s.line) && |s.heap.data| == |s.heap.next| && Enabled(s, t, a) && Writes(a)
    ensures var s1 := Step(s, t, a);
            && s1.line == s.line && s1.running - {t} == s.running
            && (if a.BeginAppend? then s1.running[t].AppExchange? else s1.running[t].PreLoad?)
            && forall h: Heap | h.data == s1.heap.data ::
                 ChunksOf(h, s.line) == ChunksOf(s.heap, s.line) && ChunksOf(h, s1.running[t].r) == a.chunks
  {
    var s1 := Step(s, t, a);
    NewChunks(s.heap, s.line, a.chunks);
    forall h: Heap | h.data == s1.heap.data
      ensures ChunksOf(h, s.line) == ChunksOf(s1.heap, s.line)
      ensures ChunksOf(h, s1.running[t].r) == ChunksOf(s1.heap, s1.running[t].r)
    {
    }
  }

  ghost predicate Goes(s: State, s': State, t: nat) {
    Enabled(s, t, Go(false)) && Allocated(s, t) && Step(s, t, Go(false)) == s'
  }

  lemma GoOn(s: State, t: nat) returns (s': State)
    requires Inv(s) && Enabled(s, t, Go(false))
    ensures Goes(s, s', t) && Inv(s')
  {
    StepKeeps(s, t, Go(false));
    s' := Step(s, t, Go(false));
  }

  /** New buffers hold the argument, and old ones what they held. */
  lemma NewChunks(h: Heap, line: seq<nat>, chunks: seq<Bytes>)
    requires Within(h, line) && |h.data| == |h.next|
    ensures ChunksOf(Alloc(h, chunks), line) == ChunksOf(h, line)
    ensures ChunksOf(Alloc(h, chunks), Fresh(h, |chunks|)) == chunks
  {
  }

  ghost predicate IsWalk(tr: seq<State>, t: nat) {
    tr != [] && forall i: nat | i + 1 < |tr| :: Goes(tr[i], tr[i + 1], t)
  }

  lemma WalkMore(s: State, rest: seq<State>, t: nat)
    requires rest != [] && Goes(s, rest[0], t) && IsWalk(rest, t)
    ensures IsWalk([s] + rest, t)
  {
    var tr := [s] + rest;
    forall i: nat | i + 1 < |tr| ensures Goes(tr[i], tr[i + 1], t) {
      if i > 0 { assert Goes(rest[i - 1], rest[i], t); }
    }
  }

  /** A read that nothing interrupts, with no append in flight, returns the whole rope. */
  lemma {:induction false} WalkAlone(s: State, t: nat) returns (tr: seq<State>)
    requires Inv(s) && NoAppendInFlight(s) && t in s.running && s.running[t].Walking? && s.running[t].seen <= s.line
    ensures IsWalk(tr, t) && tr[0] == s && tr[|tr| - 1] == Goto(s, t, Snapshot(s.line))
    decreases |s.line| - |s.running[t].seen|
  {
    var s1 := GoOn(s, t);
    SettledExactly(s);
    var seen := s.running[t].seen;
    NextInLine(s, s, seen);
    assert ThreadOk(s.heap, s.line, s.running[t]);
    if |seen| < |s.line| {
      assert s1 == Goto(s, t, Walking(seen + [s.line[|seen|]]));
      var rest := WalkAlone(s1, t);
      WalkMore(s, rest, t);
      tr := [s] + rest;
      assert Goto(s1, t, Snapshot(s.line)) == Goto(s, t, Snapshot(s.line));
    } else {
      tr := [s, s1];
      assert seen == s.line;
    }
  }

  lemma ReadBegins(s: State, s1: State, s2: State, t: nat)
    requires LineOk(s) && NoAppendInFlight(s) && t !in s.running && s1 == Step(s, t, BeginRead) && Goes(s1, s2, t)
    ensures s2.running == s.running[t := Walking([s.head])] && [s.head] <= s.line && NoAppendInFlight(s2)
    ensures s2.line == s.line && Goto(s2, t, Snapshot(s.line)) == s.(running := s.running[t := Snapshot(s.line)])
  {
  }

  lemma ReadStarts(s: State, t: nat) returns (s1: State, s2: State)
    requires Inv(s) && t !in s.running
    ensures s1 == Step(s, t, BeginRead) && Goes(s1, s2, t) && Inv(s2)
  {
    StepKeeps(s, t, BeginRead);
    s1 := Step(s, t, BeginRead);
    s2 := GoOn(s1, t);
  }

  lemma ReadAlone(s: State, t: nat) returns (tr: seq<State>)
    requires Inv(s) && NoAppendInFlight(s) && t !in s.running
    ensures IsWalk(tr, t) && tr[0] == Step(s, t, BeginRead)
    ensures tr[|tr| - 1] == s.(running := s.running[t := Snapshot(s.line)])
  {
    var s1, s2 := ReadStarts(s, t);
    ReadBegins(s, s1, s2, t);
    var rest := WalkAlone(s2, t);
    WalkMore(s1, rest, t);
    tr := [s1] + rest;
  }
}
