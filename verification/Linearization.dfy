/** Histories of concurrent operations and what it means for one to be linearizable.

A concurrent object is modelled elsewhere as a machine that appends an event when an
operation is invoked, when it takes effect (one atomic step), and when it returns.
This module states linearizability in the usual way, without mentioning the middle
kind of event: some sequential order of operations explains every returned result and
respects real time. It then proves, once for all machines, that a history whose
operations each take effect exactly once between invocation and return has that
property. */
module Linearization {

  datatype Event<Op, Res> =
    | Invoke(id: nat, op: Op)
    | Commit(id: nat, op: Op, res: Res)
    | Return(id: nat, res: Res)

  /** How far the operation `id` has got. */
  datatype Phase<Op, Res> =
    | Unborn
    | Pending(op: Op)
    | Committed(op: Op, res: Res)
    | Finished(op: Op, res: Res)

  /** A sequential specification: which results a state allows, and what they do to it. */
  datatype Spec<!S, !Op, !Res> = Spec(allowed: (S, Op, Res) -> bool, apply: (S, Op, Res) -> S)

  datatype Effect<Op, Res> = Effect(id: nat, op: Op, res: Res)

  ghost function Advance<Op, Res>(p: Phase<Op, Res>, e: Event<Op, Res>): Phase<Op, Res> {
    match e
    case Invoke(_, op) => Pending(op)
    case Commit(_, op, res) => Committed(op, res)
    case Return(_, res) => if p.Committed? then Finished(p.op, res) else p
  }

  ghost predicate InOrder<Op, Res>(p: Phase<Op, Res>, e: Event<Op, Res>) {
    match e
    case Invoke(_, _) => p == Unborn
    case Commit(_, op, _) => p == Pending(op)
    case Return(_, res) => p.Committed? && p.res == res
  }

  ghost function PhaseOf<Op, Res>(h: seq<Event<Op, Res>>, id: nat): Phase<Op, Res> {
    if h == [] then Unborn else
    var n := |h| - 1;
    var before := PhaseOf(h[..n], id);
    if h[n].id == id then Advance(before, h[n]) else before
  }

  /** Every operation is invoked, then takes effect, then returns what it took effect with. */
  ghost predicate WellFormed<Op(!new), Res(!new)>(h: seq<Event<Op, Res>>) {
    h == [] ||
    (var n := |h| - 1; WellFormed(h[..n]) && InOrder(PhaseOf(h[..n], h[n].id), h[n]))
  }

  /** The operations in the order in which they took effect. */
  ghost function Effects<Op, Res>(h: seq<Event<Op, Res>>): seq<Effect<Op, Res>> {
    if h == [] then [] else
    var n := |h| - 1;
    var before := Effects(h[..n]);
    match h[n]
    case Commit(id, op, res) => before + [Effect(id, op, res)]
    case _ => before
  }

  ghost function Replay<S, Op, Res>(spec: Spec<S, Op, Res>, init: S, order: seq<Effect<Op, Res>>): S {
    if order == [] then init else
    var n := |order| - 1;
    spec.apply(Replay(spec, init, order[..n]), order[n].op, order[n].res)
  }

  ghost predicate Legal<S(!new), Op, Res>(spec: Spec<S, Op, Res>, init: S, order: seq<Effect<Op, Res>>) {
    order == [] ||
    (var n := |order| - 1;
     Legal(spec, init, order[..n]) &&
     spec.allowed(Replay(spec, init, order[..n]), order[n].op, order[n].res))
  }

  /** `order` is a sequential explanation of the invocations and returns in `h`. */
  ghost predicate Explains<S(!new), Op(!new), Res(!new)>(spec: Spec<S, Op, Res>, init: S, h: seq<Event<Op, Res>>,
                                       order: seq<Effect<Op, Res>>)
  {
    && Legal(spec, init, order)
    && (forall p, q | 0 <= p < q < |order| :: order[p].id != order[q].id)
    && (forall p | 0 <= p < |order| :: Invoke(order[p].id, order[p].op) in h)
    && (forall r | 0 <= r < |h| && h[r].Return? :: HasResult(order, h[r].id, h[r].res))
    && (forall p, q | 0 <= p < |order| && 0 <= q < |order| && Precedes(h, order[p].id, order[q].id) :: p < q)
  }

  /** What appending one event does to everything derived from a history. */
  lemma Appended<Op(!new), Res(!new)>(h: seq<Event<Op, Res>>, e: Event<Op, Res>)
    ensures WellFormed(h + [e]) == (WellFormed(h) && InOrder(PhaseOf(h, e.id), e))
    ensures PhaseOf(h + [e], e.id) == Advance(PhaseOf(h, e.id), e)
    ensures forall id: nat | id != e.id :: PhaseOf(h + [e], id) == PhaseOf(h, id)
    ensures Effects(h + [e]) == if e.Commit? then Effects(h) + [Effect(e.id, e.op, e.res)] else Effects(h)
  {
    assert (h + [e])[..|h|] == h;
  }

  /** What one more effect does to a replay. */
  lemma AppendedEffect<S(!new), Op(!new), Res(!new)>(spec: Spec<S, Op, Res>, init: S, order: seq<Effect<Op, Res>>,
                                           e: Effect<Op, Res>)
    ensures Replay(spec, init, order + [e]) == spec.apply(Replay(spec, init, order), e.op, e.res)
    ensures Legal(spec, init, order + [e]) ==
            (Legal(spec, init, order) && spec.allowed(Replay(spec, init, order), e.op, e.res))
  {
    assert (order + [e])[..|order|] == order;
  }

  ghost predicate HasResult<Op, Res>(order: seq<Effect<Op, Res>>, id: nat, res: Res) {
    exists p :: 0 <= p < |order| && order[p].id == id && order[p].res == res
  }

  /** `a` returned before `b` was invoked. */
  ghost predicate Precedes<Op, Res>(h: seq<Event<Op, Res>>, a: nat, b: nat) {
    exists r, i :: 0 <= r < i < |h| && h[r].Return? && h[r].id == a && h[i].Invoke? && h[i].id == b
  }

  ghost predicate Linearizable<S(!new), Op(!new), Res(!new)>(spec: Spec<S, Op, Res>, init: S, h: seq<Event<Op, Res>>) {
    exists order :: Explains(spec, init, h, order)
  }

  /** Where in the order the commit at `c` lands. */
  lemma {:induction false} EffectAt<Op(!new), Res(!new)>(h: seq<Event<Op, Res>>, c: nat)
    requires c < |h| && h[c].Commit?
    ensures |Effects(h[..c])| < |Effects(h)|
    ensures Effects(h)[|Effects(h[..c])|] == Effect(h[c].id, h[c].op, h[c].res)
  {
    var n := |h| - 1;
    if c < n {
      EffectAt(h[..n], c);
      assert h[..n][..c] == h[..c];
    }
  }

  /** Every effect comes from a commit event. */
  lemma {:induction false} EffectFrom<Op(!new), Res(!new)>(h: seq<Event<Op, Res>>, p: nat) returns (c: nat)
    requires p < |Effects(h)|
    ensures c < |h| && h[c].Commit? && |Effects(h[..c])| == p
    ensures Effects(h)[p] == Effect(h[c].id, h[c].op, h[c].res)
  {
    var n := |h| - 1;
    if p < |Effects(h[..n])| {
      c := EffectFrom(h[..n], p);
      assert h[..n][..c] == h[..c];
    } else {
      c := n;
    }
  }

  lemma {:induction false} EffectsGrow<Op(!new), Res(!new)>(h: seq<Event<Op, Res>>, i: nat, j: nat)
    requires i <= j <= |h|
    ensures |Effects(h[..i])| <= |Effects(h[..j])|
    decreases j - i
  {
    if i < j {
      EffectsGrow(h, i, j - 1);
      assert h[..j][..j - 1] == h[..j - 1];
    }
  }

  /** What the phase of an operation says about the events that led to it. */
  lemma {:induction false} PhaseWitness<Op(!new), Res(!new)>(h: seq<Event<Op, Res>>, id: nat)
    requires WellFormed(h)
    ensures PhaseOf(h, id).Unborn? ==> forall i | 0 <= i < |h| :: h[i].id != id
    ensures PhaseOf(h, id).Pending? ==>
              Invoke(id, PhaseOf(h, id).op) in h && forall i | 0 <= i < |h| && h[i].id == id :: h[i].Invoke?
    ensures PhaseOf(h, id).Committed? ==>
              && Invoke(id, PhaseOf(h, id).op) in h
              && Commit(id, PhaseOf(h, id).op, PhaseOf(h, id).res) in h
              && forall i | 0 <= i < |h| && h[i].id == id :: !h[i].Return?
    ensures PhaseOf(h, id).Finished? ==>
              && Invoke(id, PhaseOf(h, id).op) in h
              && Commit(id, PhaseOf(h, id).op, PhaseOf(h, id).res) in h
  {
    if h != [] {
      var n := |h| - 1;
      PhaseWitness(h[..n], id);
      assert h == h[..n] + [h[n]];
    }
  }

  lemma {:induction false} PrefixWellFormed<Op(!new), Res(!new)>(h: seq<Event<Op, Res>>, n: nat)
    requires WellFormed(h) && n <= |h|
    ensures WellFormed(h[..n])
    ensures n < |h| ==> InOrder(PhaseOf(h[..n], h[n].id), h[n])
    decreases |h| - n
  {
    if n < |h| {
      PrefixWellFormed(h, n + 1);
      assert h[..n + 1][..n] == h[..n];
    } else {
      assert h[..n] == h;
    }
  }

  /** The three kinds of event of one operation occur in order, each at most once. */
  lemma EventOrder<Op(!new), Res(!new)>(h: seq<Event<Op, Res>>, i: nat, j: nat)
    requires WellFormed(h) && i < j < |h| && h[i].id == h[j].id
    ensures !h[j].Invoke?
    ensures h[j].Commit? ==> h[i].Invoke?
    ensures h[j].Return? ==> !h[i].Return?
  {
    PrefixWellFormed(h, j);
    PhaseWitness(h[..j], h[j].id);
    assert h[..j][i] == h[i];
  }

  lemma ReturnAfterCommit<Op(!new), Res(!new)>(h: seq<Event<Op, Res>>, r: nat) returns (c: nat)
    requires WellFormed(h) && r < |h| && h[r].Return?
    ensures c < r && h[c].Commit? && h[c].id == h[r].id && h[c].res == h[r].res
  {
    PrefixWellFormed(h, r);
    PhaseWitness(h[..r], h[r].id);
    var ph := PhaseOf(h[..r], h[r].id);
    c :| 0 <= c < r && h[..r][c] == Commit(h[r].id, ph.op, ph.res);
  }

  lemma CommitAfterInvoke<Op(!new), Res(!new)>(h: seq<Event<Op, Res>>, c: nat) returns (i: nat)
    requires WellFormed(h) && c < |h| && h[c].Commit?
    ensures i < c && h[i] == Invoke(h[c].id, h[c].op)
  {
    PrefixWellFormed(h, c);
    PhaseWitness(h[..c], h[c].id);
    i :| 0 <= i < c && h[..c][i] == Invoke(h[c].id, h[c].op);
  }

  /** One commit per operation, so commits of equal identity are one commit. */
  lemma CommitUnique<Op(!new), Res(!new)>(h: seq<Event<Op, Res>>, c: nat, d: nat)
    requires WellFormed(h) && c < |h| && d < |h|
    requires h[c].Commit? && h[d].Commit? && h[c].id == h[d].id
    ensures c == d
  {
    if c < d { EventOrder(h, c, d); }
    if d < c { EventOrder(h, d, c); }
  }

  /** If `a` returned before `b` was invoked, `a` took effect before `b` did. */
  lemma RealTime<Op(!new), Res(!new)>(h: seq<Event<Op, Res>>, p: nat, q: nat)
    requires WellFormed(h) && p < |Effects(h)| && q < |Effects(h)|
    requires Precedes(h, Effects(h)[p].id, Effects(h)[q].id)
    ensures p < q
  {
    var a := EffectFrom(h, p);
    var b := EffectFrom(h, q);
    var r, i :| 0 <= r < i < |h| && h[r].Return? && h[r].id == h[a].id && h[i].Invoke? && h[i].id == h[b].id;
    var c := ReturnAfterCommit(h, r);
    CommitUnique(h, a, c);
    if b < i { EventOrder(h, b, i); }
    assert a < b;
    EffectsGrow(h, a + 1, b);
    assert h[..a + 1][..a] == h[..a];
  }

  /** The soundness of linearization points: a well-formed history whose effects are
      legal, taken in the order in which they happened, is linearizable. */
  lemma LinearizationPoints<S(!new), Op(!new), Res(!new)>(spec: Spec<S, Op, Res>, init: S, h: seq<Event<Op, Res>>)
    requires WellFormed(h)
    requires Legal(spec, init, Effects(h))
    ensures Linearizable(spec, init, h)
  {
    var order := Effects(h);
    forall p, q | 0 <= p < q < |order| ensures order[p].id != order[q].id {
      var a := EffectFrom(h, p);
      var b := EffectFrom(h, q);
      if order[p].id == order[q].id { CommitUnique(h, a, b); }
    }
    forall p | 0 <= p < |order| ensures Invoke(order[p].id, order[p].op) in h {
      var a := EffectFrom(h, p);
      var i := CommitAfterInvoke(h, a);
    }
    forall r | 0 <= r < |h| && h[r].Return? ensures HasResult(order, h[r].id, h[r].res) {
      var c := ReturnAfterCommit(h, r);
      EffectAt(h, c);
    }
    forall p, q | 0 <= p < |order| && 0 <= q < |order| && Precedes(h, order[p].id, order[q].id) ensures p < q {
      RealTime(h, p, q);
    }
    assert Explains(spec, init, h, order);
  }

  /** The operations invoked, in order. */
  ghost function Invoked<Op, Res>(h: seq<Event<Op, Res>>): seq<Op> {
    if h == [] then []
    else Invoked(h[..|h| - 1]) + if h[|h| - 1].Invoke? then [h[|h| - 1].op] else []
  }

  lemma InvokedMore<Op, Res>(h: seq<Event<Op, Res>>, e: Event<Op, Res>)
    ensures Invoked(h + [e]) == Invoked(h) + if e.Invoke? then [e.op] else []
  {
    assert (h + [e])[..|h|] == h;
  }
}
