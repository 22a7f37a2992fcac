/** What a thread achieves on a version chain when nothing interrupts it, comparing pointers as intended
(src/history.h); and that histories speak of the operations begun. */
module ChainSolo {
  import opened Basics
  import opened Linearization
  import opened VersionChain

  ghost predicate Goes(s: State, s': State, t: nat) {
    Enabled(s, t, Go(false)) && Step(ByPointer, s, t, Go(false)) == s'
  }

  ghost predicate GoesAt(tr: seq<State>, t: nat, i: nat) { i + 1 < |tr| && Goes(tr[i], tr[i + 1], t) }

  ghost predicate IsTrace(tr: seq<State>, t: nat) { tr != [] && forall i: nat | i + 1 < |tr| :: GoesAt(tr, t, i) }

  lemma TraceMore(s: State, rest: seq<State>, t: nat)
    requires rest != [] && Goes(s, rest[0], t) && IsTrace(rest, t)
    ensures IsTrace([s] + rest, t)
  {
    var tr := [s] + rest;
    forall i: nat | i + 1 < |tr| ensures GoesAt(tr, t, i) {
      if i > 0 { assert GoesAt(rest, t, i - 1); }
    }
  }

  /** `t`'s operation has taken effect with a result the chain allowed. */
  ghost predicate Done(k: Chain, s': State, t: nat, op: Op) {
    && t in s'.running && s'.running[t].op == op && s'.running[t].pc.Finishing?
    && Allowed(k, op, s'.running[t].pc.res) && ChainOf(s') == Apply(k, op, s'.running[t].pc.res)
  }

  /** At the last version: the swap succeeds, is refused, or after one look at the word succeeds. */
  lemma SwapAtLast(s: State, t: nat)
    requires Inv(s) && t in s.running && s.running[t].pc.At?
    requires var k := ChainOf(s); s.running[t].pc.node == k.nodes[|k.nodes| - 1]
    ensures Enabled(s, t, Go(false))
    ensures var k, call, s' := ChainOf(s), s.running[t], Step(ByPointer, s, t, Go(false));
            if call.pc.expected != s.newer[call.pc.node] && call.op.Set?
            then s' == Goto(s, t, At(call.pc.node, s.newer[call.pc.node])) else Done(k, s', t, call.op)
  {
    var k, call := ChainOf(s), s.running[t];
    assert HasWord(s.newer, k, |k.nodes| - 1);
    assert Expects(call.op, call.pc.expected);
    var cur := s.newer[call.pc.node];
    if cur == call.pc.expected {
      EffectHistory(s, t, Yes);
      SwapHistory(s, t, s.newer[call.pc.node := NewWord(call.op)]);
    } else if !call.op.Set? {
      EffectHistory(s, t, No);
    }
  }

  lemma LoadAtLast(s: State, t: nat)
    requires Inv(s) && t in s.running && s.running[t].pc.Loading?
    requires var k := ChainOf(s); s.running[t].pc.node == k.nodes[|k.nodes| - 1]
    ensures Enabled(s, t, Go(false)) && Done(ChainOf(s), Step(ByPointer, s, t, Go(false)), t, s.running[t].op)
  {
    var k := ChainOf(s);
    assert HasWord(s.newer, k, |k.nodes| - 1);
    EffectHistory(s, t, Version(if k.deleted then None else Some(k.nodes[|k.nodes| - 1])));
  }

  /** Before the last version: on to the next. */
  lemma StepsDown(s: State, t: nat, i: nat)
    requires Inv(s) && t in s.running && (s.running[t].pc.At? || s.running[t].pc.Loading?)
    requires i + 1 < |ChainOf(s).nodes| && s.running[t].pc.node == ChainOf(s).nodes[i]
    ensures Enabled(s, t, Go(false))
    ensures Step(ByPointer, s, t, Go(false)) == Goto(s, t, Arrive(s.running[t].op, ChainOf(s).nodes[i + 1]))
  {
    assert HasWord(s.newer, ChainOf(s), i);
    if s.running[t].pc.At? { assert Expects(s.running[t].op, s.running[t].pc.expected); }
  }

  predicate Standing1(call: Call, node: nat) {
    (call.pc.At? && call.pc.node == node) || (call.pc.Loading? && call.pc.node == node && call.op.Newest?)
  }

  /** About to compare with a word that is no longer there. */
  predicate Outdated(s: State, pc: Pc) { pc.At? && pc.node in s.newer && pc.expected != s.newer[pc.node] }

  lemma SameChain(s: State, t: nat, pc: Pc)
    requires t in s.running
    ensures ChainOf(Goto(s, t, pc)) == ChainOf(s)
  {
  }

  function After(k: Chain, i: nat): nat { if i + 1 < |k.nodes| then i + 1 else i }

  /** `t` has come no further than version `i`, and knows its word if that is the last. */
  ghost predicate Nearer(k: Chain, s: State, s': State, t: nat, i: nat)
    requires t in s.running
  {
    && t in s'.running && s'.running[t].op == s.running[t].op && ChainOf(s') == k && After(k, i) < |k.nodes|
    && Standing1(s'.running[t], k.nodes[After(k, i)])
    && (After(k, i) == i ==> Outdated(s, s.running[t].pc) && !Outdated(s', s'.running[t].pc))
  }

  lemma OneStep(s: State, t: nat, i: nat)
    requires Inv(s) && t in s.running && i < |ChainOf(s).nodes| && Standing1(s.running[t], ChainOf(s).nodes[i])
    ensures Enabled(s, t, Go(false))
    ensures var k, s' := ChainOf(s), Step(ByPointer, s, t, Go(false));
            Done(k, s', t, s.running[t].op) || Nearer(k, s, s', t, i)
  {
    var k, call := ChainOf(s), s.running[t];
    if i + 1 < |k.nodes| {
      StepsDown(s, t, i);
      SameChain(s, t, Arrive(call.op, k.nodes[i + 1]));
    } else if call.pc.At? {
      assert HasWord(s.newer, k, i);
      SwapAtLast(s, t);
      SameChain(s, t, At(call.pc.node, s.newer[call.pc.node]));
    } else {
      LoadAtLast(s, t);
    }
  }

  lemma {:induction false} EndsFrom(s: State, t: nat, i: nat) returns (tr: seq<State>)
    requires Inv(s) && t in s.running && i < |ChainOf(s).nodes| && Standing1(s.running[t], ChainOf(s).nodes[i])
    ensures IsTrace(tr, t) && tr[0] == s && Done(ChainOf(s), tr[|tr| - 1], t, s.running[t].op)
    decreases |ChainOf(s).nodes| - i, if Outdated(s, s.running[t].pc) then 1 else 0
  {
    OneStep(s, t, i);
    StepKeeps(ByPointer, s, t, Go(false));
    var s' := Step(ByPointer, s, t, Go(false));
    tr := [s'];
    if !Done(ChainOf(s), s', t, s.running[t].op) { tr := EndsFrom(s', t, After(ChainOf(s), i)); }
    TraceMore(s, tr, t);
    tr := [s] + tr;
  }

  /** Over every run, an operation that nothing interrupts from the end of the run on takes effect, with the result
      the chain then allows. */
  lemma EndsAlone(run: seq<State>, t: nat) returns (tr: seq<State>)
    requires IsRun(ByPointer, run) && t in run[|run| - 1].running && !run[|run| - 1].running[t].pc.Finishing?
    ensures IsTrace(tr, t) && tr[0] == run[|run| - 1]
    ensures Done(ChainOf(run[|run| - 1]), tr[|tr| - 1], t, run[|run| - 1].running[t].op)
  {
    RunInv(ByPointer, run);
    IntentNeverCrashes(run);
    var s := run[|run| - 1];
    var k := ChainOf(s);
    var i :| 0 <= i < |k.nodes| && k.nodes[i] == s.running[t].pc.node;
    tr := EndsFrom(s, t, i);
  }

  // ---------------------------------------------------------------- histories and actions

  ghost predicate ActsAt(mode: Compare, run: seq<State>, acts: seq<(nat, Action)>, i: nat) {
    && i + 1 < |run| && i < |acts| && Enabled(run[i], acts[i].0, acts[i].1)
    && Step(mode, run[i], acts[i].0, acts[i].1) == run[i + 1]
  }

  /** The states of a run and the actions between them. */
  ghost predicate IsActed(mode: Compare, run: seq<State>, acts: seq<(nat, Action)>) {
    && run != [] && |acts| == |run| - 1 && run[0] == INIT
    && forall i: nat | i < |acts| :: ActsAt(mode, run, acts, i)
  }

  /** The operations begun, in order. */
  ghost function Begun(acts: seq<(nat, Action)>): seq<Op> {
    if acts == [] then []
    else Begun(acts[..|acts| - 1]) + if acts[|acts| - 1].1.Begin? then [acts[|acts| - 1].1.op] else []
  }

  lemma StepInvokes(mode: Compare, s: State, t: nat, a: Action)
    requires Enabled(s, t, a)
    ensures var s' := Step(mode, s, t, a);
            && Invoked(s'.hist) == Invoked(s.hist) + (if a.Begin? then [a.op] else [])
            && (a.Begin? ==> t in s'.running && s'.running[t].op == a.op && s'.running[t].id == s.nextId)
  {
    var s' := Step(mode, s, t, a);
    if s'.hist != s.hist {
      assert s'.hist == s.hist + [s'.hist[|s.hist|]];
      InvokedMore(s.hist, s'.hist[|s.hist|]);
    }
  }

  /** The history speaks of the operations that threads began: its invocations are exactly these, in order. */
  lemma {:induction false} HistoryIsActions(mode: Compare, run: seq<State>, acts: seq<(nat, Action)>)
    requires IsActed(mode, run, acts)
    ensures Invoked(run[|run| - 1].hist) == Begun(acts)
    decreases |acts|
  {
    if acts != [] {
      var n := |acts| - 1;
      assert ActsAt(mode, run, acts, n);
      var run1, acts1 := run[..n + 1], acts[..n];
      forall i: nat | i < n ensures ActsAt(mode, run1, acts1, i) { assert ActsAt(mode, run, acts, i); }
      HistoryIsActions(mode, run1, acts1);
      StepInvokes(mode, run[n], acts[n].0, acts[n].1);
    }
  }
}
