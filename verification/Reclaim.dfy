/** The table and deferred reclamation together (src/table.h, src/gc.cc).

Threads are CPUs. A value is allocated when the operation that inserts it begins, is handed to `gc_free` by
the step that releases it, and a CPU starts a checkpoint only between operations. Values may also be inserted
as shared; the table does not own those. Every step is one step of the table machine, one of the reclamation
machine, or one of each, under any rules for which reclamation is safe. */
module Reclaim {
  import opened Basics
  import opened Probing
  import opened Linearization
  import T = TableMachine
  import P = TableProofs
  import G = GcMachine
  import S = GcSafety

  /** `inserted`: unshared values that have been stored and not allocated again since. `got[t]`: the unshared
      values whose pointers `find` and `add` have loaded for `t` since its last checkpoint began. */
  datatype World = World(table: T.State, gc: G.State, inserted: set<nat>, got: map<nat, set<nat>>)

  datatype Action = Call(t: nat, op: T.Op) | Step(t: nat, spurious: bool) | Collect(g: G.Action)

  /** The value that an operation brings for the table to own. */
  function ValueOf(op: T.Op): Option<nat> {
    match op
    case Set(_, v, shared) => if shared then None else Some(v)
    case Add(_, v, shared) => if shared then None else Some(v)
    case Replace(_, v) => Some(v)
    case _ => None
  }

  predicate Succeeded(call: T.Call) {
    (call.pc.Tallying? || call.pc.Releasing? || call.pc.Finishing?) && (call.pc.res.Stored? || call.pc.res.Done?)
  }

  /** A value its thread has not stored. */
  function Private(call: T.Call): Option<nat> { if Succeeded(call) then None else ValueOf(call.op) }

  /** A value its thread has taken out of a bucket and has yet to release. */
  function Owes(call: T.Call): Option<nat> {
    match call.pc
    case Tallying(_, _, was) => if was.Ref? && !was.shared then Some(was.ptr) else None
    case Releasing(_, ptr) => Some(ptr)
    case _ => None
  }

  // ---------------------------------------------------------------- ownership

  ghost predicate InBucket(s: T.State, b: nat, p: nat) {
    b < |s.buckets| && s.buckets[b].v == T.Ref(p, false)
  }

  ghost predicate OwedBy(s: T.State, t: nat, p: nat) { t in s.running && Owes(s.running[t]) == Some(p) }

  ghost predicate PrivateTo(s: T.State, t: nat, p: nat) { t in s.running && Private(s.running[t]) == Some(p) }

  /** Stored values are intact while a bucket or a releasing thread has them. */
  ghost predicate Stored(w: World) {
    && (forall b: nat, p: nat | InBucket(w.table, b, p) :: G.At(w.gc, p, G.Live) && p in w.inserted)
    && (forall t: nat, p: nat | OwedBy(w.table, t, p) :: G.At(w.gc, p, G.Live) && p in w.inserted)
    && (forall t: nat, p: nat | PrivateTo(w.table, t, p) :: G.At(w.gc, p, G.Live) && p !in w.inserted)
  }

  /** Nothing is in two hands. */
  ghost predicate Apart(s: T.State) {
    && (forall a: nat, b: nat, p: nat | InBucket(s, a, p) && InBucket(s, b, p) :: a == b)
    && (forall b: nat, t: nat, p: nat | InBucket(s, b, p) :: !OwedBy(s, t, p))
    && (forall t: nat, u: nat, p: nat | OwedBy(s, t, p) && OwedBy(s, u, p) :: t == u)
    && (forall t: nat, u: nat, p: nat | PrivateTo(s, t, p) && PrivateTo(s, u, p) :: t == u)
  }

  ghost predicate Kept(s: T.State, p: nat) {
    (exists b: nat :: InBucket(s, b, p)) || (exists t: nat :: OwedBy(s, t, p))
  }

  /** Nothing stored is lost. */
  ghost predicate Covered(w: World) {
    && (forall p | p in w.inserted :: p in w.gc.place)
    && (forall p | p in w.inserted && G.At(w.gc, p, G.Live) :: Kept(w.table, p))
  }

  /** Threads inside an operation are registered and not in a checkpoint. */
  ghost predicate Placed(w: World) {
    forall t | t in w.table.running :: t in w.gc.mask && t < |w.gc.pc| && w.gc.pc[t].Working?
  }

  ghost predicate Own(w: World) { Stored(w) && Apart(w.table) && Covered(w) && Placed(w) }

  ghost predicate Ready(c: Config, w: World) { T.Struct(c, w.table) && G.Shape(w.gc) && Own(w) }

  // ---------------------------------------------------------------- steps

  ghost predicate Enabled(r: G.Rules, w: World, a: Action)
    requires G.Shape(w.gc)
  {
    match a
    case Call(t, op) =>
      && t !in w.table.running && t in w.gc.mask && w.gc.pc[t].Working?
      && (ValueOf(op).Some? ==> G.Enabled(r, w.gc, G.Alloc(ValueOf(op).value)))
    case Step(t, _) => t in w.table.running && t in w.gc.mask && w.gc.pc[t].Working?
    case Collect(g) =>
      && (g.Reserve? || g.Join? || g.Leave? || g.Begin? || g.Advance?)
      && G.Enabled(r, w.gc, g)
      && (g.Leave? || g.Begin? ==> g.c !in w.table.running)
  }

  function Got(w: World, t: nat): set<nat> { if t in w.got then w.got[t] else {} }

  /** The pointer a call hands to its caller, if any. */
  function Handed(call: T.Call): Option<nat> {
    if call.pc.Finishing? && (call.pc.res.Hit? || call.pc.res.Existing?) then Some(call.pc.res.v) else None
  }

  /** The pointer to an unshared value that the access to a found bucket loads for the caller, if any. */
  function Lent(s: T.State, call: T.Call, after: T.Call): Option<nat> {
    if && call.pc.AtBucket? && call.pc.b < |s.buckets| && s.buckets[call.pc.b].v.Ref?
       && !s.buckets[call.pc.b].v.shared && Handed(after) == Some(s.buckets[call.pc.b].v.ptr)
    then Handed(after) else None
  }

  ghost function Take(w: World, t: nat, p: nat): World
    requires t < |w.gc.held|
  {
    w.(gc := w.gc.(held := w.gc.held[t := w.gc.held[t] + {p}]), got := w.got[t := Got(w, t) + {p}])
  }

  ghost function DoCall(r: G.Rules, c: Config, w: World, t: nat, op: T.Op): World
    requires Ready(c, w) && Enabled(r, w, Call(t, op))
  {
    var table := T.Step(c, w.table, t, T.Begin(op));
    if ValueOf(op).None? then w.(table := table)
    else
      var v := ValueOf(op).value;
      var g := G.Do(w.gc, G.Alloc(v), r);
      w.(table := table, gc := g.(held := g.held[t := g.held[t] + {v}]), inserted := w.inserted - {v})
  }

  /** A step of the table other than a release. */
  ghost function DoMove(w: World, t: nat, table: T.State): World
    requires t in w.table.running && t < |w.gc.held|
  {
    if t !in table.running then w.(table := table)
    else
      var call, after := w.table.running[t], table.running[t];
      var w1 := if Lent(w.table, call, after).Some? then Take(w, t, Lent(w.table, call, after).value) else w;
      var stored := Private(call).Some? && Private(after).None?;
      w1.(table := table, inserted := if stored then w.inserted + {Private(call).value} else w.inserted)
  }

  ghost function DoStep(r: G.Rules, c: Config, w: World, t: nat, spurious: bool): World
    requires Ready(c, w) && Enabled(r, w, Step(t, spurious))
  {
    var call := w.table.running[t];
    var table := T.Step(c, w.table, t, T.Go(spurious));
    if call.pc.Releasing? then
      assert OwedBy(w.table, t, call.pc.ptr);
      w.(table := table, gc := G.Do(w.gc, G.Free(t, call.pc.ptr), r))
    else DoMove(w, t, table)
  }

  ghost function Do(r: G.Rules, c: Config, w: World, a: Action): World
    requires Ready(c, w) && Enabled(r, w, a)
  {
    match a
    case Call(t, op) => DoCall(r, c, w, t, op)
    case Step(t, spurious) => DoStep(r, c, w, t, spurious)
    case Collect(g) => w.(gc := G.Do(w.gc, g, r), got := if g.Begin? then w.got[g.c := {}] else w.got)
  }

  // ---------------------------------------------------------------- what a step of the table does

  /** Everyone but `t` has what they had. */
  ghost predicate OthersSame(s: T.State, s': T.State, t: nat) {
    && (forall u | u in s.running && u != t :: u in s'.running && s'.running[u] == s.running[u])
    && (forall u | u in s'.running && u != t :: u in s.running)
  }

  ghost predicate ValuesSame(s: T.State, s': T.State) {
    |s'.buckets| == |s.buckets| && forall b | 0 <= b < |s.buckets| :: s'.buckets[b].v == s.buckets[b].v
  }

  /** `t` moves no value. */
  ghost predicate Mild(s: T.State, s': T.State, t: nat) {
    && t in s.running && t in s'.running && ValuesSame(s, s')
    && Owes(s'.running[t]) == Owes(s.running[t]) && Private(s'.running[t]) == Private(s.running[t])
  }

  /** Bucket `b` changes hands: `t` puts its private value there, if any, and owes what was there, if any. */
  ghost predicate Exchanged(s: T.State, s': T.State, t: nat, b: nat) {
    && t in s.running && t in s'.running && b < |s.buckets| == |s'.buckets|
    && (forall x | 0 <= x < |s.buckets| && x != b :: s'.buckets[x].v == s.buckets[x].v)
    && Owes(s.running[t]).None? && Private(s'.running[t]).None?
    && (forall p: nat :: InBucket(s', b, p) <==> Private(s.running[t]) == Some(p))
    && (forall p: nat :: Owes(s'.running[t]) == Some(p) <==> InBucket(s, b, p))
  }

  lemma StepOthers(c: Config, s: T.State, t: nat, spurious: bool)
    requires T.Struct(c, s) && t in s.running
    ensures OthersSame(s, T.Step(c, s, t, T.Go(spurious)), t)
  {
    assert T.CallOk(c, s.buckets, s.running[t]);
  }

  lemma ClaimIsMild(c: Config, s: T.State, t: nat, spurious: bool)
    requires T.Struct(c, s) && t in s.running && s.running[t].pc.Claiming?
    ensures Mild(s, T.Step(c, s, t, T.Go(spurious)), t)
  {
    assert T.CallOk(c, s.buckets, s.running[t]);
  }

  lemma ProbeIsMild(c: Config, s: T.State, t: nat, spurious: bool)
    requires T.Struct(c, s) && t in s.running && (s.running[t].pc.AtProbe? || s.running[t].pc.AtAction?)
    ensures Mild(s, T.Step(c, s, t, T.Go(spurious)), t)
  {
    assert T.CallOk(c, s.buckets, s.running[t]);
  }

  lemma CountIsMild(c: Config, s: T.State, t: nat, spurious: bool)
    requires T.Struct(c, s) && t in s.running && (s.running[t].pc.Counting? || s.running[t].pc.Tallying?)
    ensures Mild(s, T.Step(c, s, t, T.Go(spurious)), t)
  {
    assert T.CallOk(c, s.buckets, s.running[t]);
  }

  /** The access to a found bucket moves a value, or nothing. */
  lemma BucketMoves(c: Config, s: T.State, t: nat, spurious: bool)
    requires T.Struct(c, s) && t in s.running && s.running[t].pc.AtBucket?
    ensures var s' := T.Step(c, s, t, T.Go(spurious)); Mild(s, s', t) || Exchanged(s, s', t, s.running[t].pc.b)
  {
    assert T.CallOk(c, s.buckets, s.running[t]);
  }

  lemma SwapMoves(c: Config, s: T.State, t: nat, spurious: bool)
    requires T.Struct(c, s) && t in s.running && s.running[t].pc.Swapping?
    ensures var s' := T.Step(c, s, t, T.Go(spurious)); Mild(s, s', t) || Exchanged(s, s', t, s.running[t].pc.b)
  {
    assert T.CallOk(c, s.buckets, s.running[t]);
  }

  ghost predicate Moved(s: T.State, s': T.State, t: nat) { Mild(s, s', t) || exists b: nat :: Exchanged(s, s', t, b) }

  lemma StepMoves(c: Config, s: T.State, t: nat, spurious: bool)
    requires T.Struct(c, s) && t in s.running && !s.running[t].pc.Releasing? && !s.running[t].pc.Finishing?
    ensures Moved(s, T.Step(c, s, t, T.Go(spurious)), t)
  {
    var pc := s.running[t].pc;
    if pc.AtBucket? { BucketMoves(c, s, t, spurious); }
    else if pc.Swapping? { SwapMoves(c, s, t, spurious); }
    else if pc.Claiming? { ClaimIsMild(c, s, t, spurious); }
    else if pc.AtProbe? || pc.AtAction? { ProbeIsMild(c, s, t, spurious); }
    else { CountIsMild(c, s, t, spurious); }
  }

  // ---------------------------------------------------------------- ownership is kept

  /** A step that moves no value: only `t`'s unstored value may have been dropped. */
  lemma OwnSilent(w: World, w': World, t: nat)
    requires Stored(w) && Apart(w.table) && Covered(w) && OthersSame(w.table, w'.table, t)
    requires ValuesSame(w.table, w'.table)
    requires w'.inserted == w.inserted
    requires forall p: nat :: OwedBy(w'.table, t, p) <==> OwedBy(w.table, t, p)
    requires forall p: nat | PrivateTo(w'.table, t, p) :: PrivateTo(w.table, t, p)
    requires forall p: nat | G.At(w.gc, p, G.Live) :: G.At(w'.gc, p, G.Live)
    requires w.gc.place.Keys <= w'.gc.place.Keys
    requires forall p: nat | p in w.inserted && G.At(w'.gc, p, G.Live) :: G.At(w.gc, p, G.Live)
    ensures Stored(w') && Apart(w'.table) && Covered(w')
  {
    assert forall b: nat, p: nat :: InBucket(w'.table, b, p) <==> InBucket(w.table, b, p);
    assert forall u: nat, p: nat :: OwedBy(w'.table, u, p) <==> OwedBy(w.table, u, p);
    assert forall u: nat, p: nat | PrivateTo(w'.table, u, p) :: PrivateTo(w.table, u, p);
    assert forall p: nat | Kept(w.table, p) :: Kept(w'.table, p);
  }

  lemma ExchangeSpots(s: T.State, s': T.State, t: nat, b: nat)
    requires Exchanged(s, s', t, b) && OthersSame(s, s', t)
    ensures forall x: nat, p: nat | x != b :: InBucket(s', x, p) <==> InBucket(s, x, p)
    ensures forall u: nat, p: nat | u != t :: OwedBy(s', u, p) <==> OwedBy(s, u, p)
    ensures forall u: nat, p: nat | u != t :: PrivateTo(s', u, p) <==> PrivateTo(s, u, p)
    ensures forall p: nat :: InBucket(s', b, p) <==> PrivateTo(s, t, p)
    ensures forall p: nat :: OwedBy(s', t, p) <==> InBucket(s, b, p)
    ensures forall p: nat :: !OwedBy(s, t, p) && !PrivateTo(s', t, p)
  {
  }

  /** The world after an exchange at bucket `b`. */
  ghost predicate WorldExchanged(w: World, w': World, t: nat, b: nat) {
    && Exchanged(w.table, w'.table, t, b) && OthersSame(w.table, w'.table, t) && w'.gc == w.gc
    && (forall p: nat :: p in w'.inserted <==> p in w.inserted || PrivateTo(w.table, t, p))
  }

  lemma ExchangeStored(w: World, w': World, t: nat, b: nat)
    requires Stored(w) && Apart(w.table) && WorldExchanged(w, w', t, b)
    ensures Stored(w')
  {
    ExchangeSpots(w.table, w'.table, t, b);
    forall u: nat, p: nat | PrivateTo(w'.table, u, p) ensures p !in w'.inserted {
      assert u != t && PrivateTo(w.table, u, p);
    }
  }

  lemma ExchangeApart(w: World, w': World, t: nat, b: nat)
    requires Stored(w) && Apart(w.table) && WorldExchanged(w, w', t, b)
    ensures Apart(w'.table)
  {
    var s, s' := w.table, w'.table;
    ExchangeSpots(s, s', t, b);
    forall x: nat, u: nat, p: nat | InBucket(s', x, p) ensures !OwedBy(s', u, p) {
      if x == b { assert PrivateTo(s, t, p) && p !in w.inserted; } else { assert InBucket(s, x, p); }
    }
    forall x: nat, y: nat, p: nat | InBucket(s', x, p) && InBucket(s', y, p) ensures x == y {
      if x != b { assert InBucket(s, x, p) && p in w.inserted; }
      if y != b { assert InBucket(s, y, p) && p in w.inserted; }
    }
    forall u: nat, v: nat, p: nat | OwedBy(s', u, p) && OwedBy(s', v, p) ensures u == v {
      if u != t { assert OwedBy(s, u, p); }
      if v != t { assert OwedBy(s, v, p); }
    }
  }

  lemma ExchangeCovered(w: World, w': World, t: nat, b: nat)
    requires Stored(w) && Covered(w) && WorldExchanged(w, w', t, b)
    ensures Covered(w')
  {
    var s, s' := w.table, w'.table;
    ExchangeSpots(s, s', t, b);
    forall p | p in w'.inserted && G.At(w'.gc, p, G.Live) ensures Kept(s', p) {
      if p in w.inserted {
        assert Kept(s, p);
        if x: nat :| InBucket(s, x, p) {
          if x == b { assert OwedBy(s', t, p); } else { assert InBucket(s', x, p); }
        } else {
          var u: nat :| OwedBy(s, u, p);
          assert OwedBy(s', u, p);
        }
      } else {
        assert InBucket(s', b, p);
      }
    }
    forall p | p in w'.inserted ensures p in w'.gc.place {
      if p !in w.inserted { assert PrivateTo(s, t, p); }
    }
  }

  /** Handing a value to `gc_free` moves it from the thread to a list. */
  lemma OwnRelease(w: World, w': World, t: nat, p: nat)
    requires Stored(w) && Apart(w.table) && Covered(w) && OthersSame(w.table, w'.table, t)
    requires w'.table.buckets == w.table.buckets && OwedBy(w.table, t, p)
    requires forall q: nat :: !OwedBy(w'.table, t, q)
    requires forall q: nat | PrivateTo(w'.table, t, q) :: PrivateTo(w.table, t, q)
    requires w'.inserted == w.inserted && w'.gc.place == w.gc.place[p := G.Pending(t)]
    ensures Stored(w') && Apart(w'.table) && Covered(w')
  {
    var s, s' := w.table, w'.table;
    assert forall b: nat, q: nat :: InBucket(s', b, q) <==> InBucket(s, b, q);
    assert forall u: nat, q: nat | u != t :: OwedBy(s', u, q) <==> OwedBy(s, u, q);
    assert forall u: nat, q: nat | PrivateTo(s', u, q) :: PrivateTo(s, u, q) && q != p;
    forall q: nat | q in w'.inserted && G.At(w'.gc, q, G.Live) ensures Kept(s', q) {
      assert Kept(s, q);
      if b: nat :| InBucket(s, b, q) {
        assert InBucket(s', b, q);
      } else {
        var u: nat :| OwedBy(s, u, q);
        assert OwedBy(s', u, q);
      }
    }
  }

  /** A call that allocates `v`, which is not in use. */
  lemma OwnCall(w: World, w': World, t: nat, v: nat)
    requires Stored(w) && Apart(w.table) && Covered(w) && OthersSame(w.table, w'.table, t)
    requires w'.table.buckets == w.table.buckets && t !in w.table.running && w'.inserted == w.inserted - {v}
    requires forall p: nat :: !OwedBy(w'.table, t, p)
    requires forall p: nat | PrivateTo(w'.table, t, p) :: p == v
    requires !G.At(w.gc, v, G.Live) && w'.gc.place == w.gc.place[v := G.Live]
    ensures Stored(w') && Apart(w'.table) && Covered(w')
  {
    var s, s' := w.table, w'.table;
    assert forall b: nat, q: nat :: InBucket(s', b, q) <==> InBucket(s, b, q);
    assert forall u: nat, q: nat :: OwedBy(s', u, q) <==> OwedBy(s, u, q);
    assert forall u: nat, q: nat | u != t :: PrivateTo(s', u, q) <==> PrivateTo(s, u, q);
    assert forall p: nat | Kept(s, p) :: Kept(s', p);
  }

  lemma CallKeepsOwn(r: G.Rules, c: Config, w: World, t: nat, op: T.Op)
    requires Ready(c, w) && Enabled(r, w, Call(t, op))
    ensures Own(DoCall(r, c, w, t, op))
  {
    var w' := DoCall(r, c, w, t, op);
    assert w'.table.running[t].pc == T.AtProbe(0) && w'.table.running[t].op == op;
    if ValueOf(op).Some? { OwnCall(w, w', t, ValueOf(op).value); } else { OwnSilent(w, w', t); }
  }

  lemma ReleaseStep(c: Config, s: T.State, t: nat, spurious: bool)
    requires T.Struct(c, s) && t in s.running && s.running[t].pc.Releasing?
    ensures var s' := T.Step(c, s, t, T.Go(spurious));
            && OthersSame(s, s', t) && s'.buckets == s.buckets && t in s'.running
            && Owes(s'.running[t]).None? && Private(s'.running[t]) == Private(s.running[t])
  {
  }

  lemma FinishStep(c: Config, s: T.State, t: nat, spurious: bool)
    requires T.Struct(c, s) && t in s.running && s.running[t].pc.Finishing?
    ensures var s' := T.Step(c, s, t, T.Go(spurious));
            OthersSame(s, s', t) && s'.buckets == s.buckets && t !in s'.running
  {
  }

  lemma MoveKeepsOwn(w: World, t: nat, table: T.State)
    requires Own(w) && t in w.table.running && t < |w.gc.held| && OthersSame(w.table, table, t)
    requires Moved(w.table, table, t)
    ensures Own(DoMove(w, t, table))
  {
    var w' := DoMove(w, t, table);
    var call, after := w.table.running[t], table.running[t];
    if Mild(w.table, table, t) {
      OwnSilent(w, w', t);
    } else {
      var b: nat :| Exchanged(w.table, table, t, b);
      var w1 := w'.(gc := w.gc);
      ExchangeInserts(w, w1, t, b);
      ExchangeStored(w, w1, t, b);
      ExchangeApart(w, w1, t, b);
      ExchangeCovered(w, w1, t, b);
      SamePlaces(w1, w');
    }
  }

  lemma ExchangeInserts(w: World, w': World, t: nat, b: nat)
    requires Exchanged(w.table, w'.table, t, b) && OthersSame(w.table, w'.table, t) && w'.gc == w.gc
    requires w'.inserted == if Private(w.table.running[t]).Some? && Private(w'.table.running[t]).None?
                            then w.inserted + {Private(w.table.running[t]).value} else w.inserted
    ensures WorldExchanged(w, w', t, b)
  {
  }

  lemma SamePlaces(w: World, w': World)
    requires Stored(w) && Covered(w) && w'.table == w.table && w'.inserted == w.inserted && w'.gc.place == w.gc.place
    ensures Stored(w') && Covered(w')
  {
    assert forall p: nat, x: G.Place :: G.At(w'.gc, p, x) <==> G.At(w.gc, p, x);
  }

  lemma StepKeepsOwn(r: G.Rules, c: Config, w: World, t: nat, spurious: bool)
    requires Ready(c, w) && Enabled(r, w, Step(t, spurious))
    ensures Own(DoStep(r, c, w, t, spurious))
  {
    var w' := DoStep(r, c, w, t, spurious);
    var pc := w.table.running[t].pc;
    if pc.Releasing? {
      ReleaseStep(c, w.table, t, spurious);
      OwnRelease(w, w', t, pc.ptr);
    } else if pc.Finishing? {
      FinishStep(c, w.table, t, spurious);
      OwnSilent(w, w', t);
    } else {
      StepOthers(c, w.table, t, spurious);
      StepMoves(c, w.table, t, spurious);
      MoveKeepsOwn(w, t, T.Step(c, w.table, t, T.Go(spurious)));
    }
  }

  /** Collecting touches only what has been freed. */
  ghost predicate FreedOnly(g: G.State, g': G.State) {
    g'.place.Keys == g.place.Keys && forall p: nat :: G.At(g', p, G.Live) <==> G.At(g, p, G.Live)
  }

  lemma DetachFreedOnly(r: G.Rules, g: G.State, c: nat)
    requires S.Inv(r, g) && G.Enabled(r, g, G.Advance(c)) && g.pc[c].Detaching?
    ensures FreedOnly(g, G.Do(g, G.Advance(c), r))
  {
    assert G.PcShape(g, c) && S.WalkOk(r, g, c);
    S.CutShape(r, g, G.StepDetach(g, c, g.pc[c].pos), c);
  }

  lemma AdvanceFreedOnly(r: G.Rules, g: G.State, c: nat)
    requires S.Inv(r, g) && G.Enabled(r, g, G.Advance(c))
    ensures FreedOnly(g, G.Do(g, G.Advance(c), r))
  {
    assert G.PcShape(g, c);
    if g.pc[c].Detaching? {
      DetachFreedOnly(r, g, c);
    } else if g.pc[c].Deleting? && g.pc[c].ready != [] {
      assert G.At(g, g.pc[c].ready[0], G.Ready(c));
    }
  }

  /** A step of the collector by `c` leaves the other CPUs as they are. */
  lemma CollectOthers(r: G.Rules, g: G.State, a: G.Action, u: nat)
    requires G.Shape(g) && G.Enabled(r, g, a) && (a.Reserve? || a.Join? || a.Leave? || a.Begin? || a.Advance?)
    requires u in g.mask && g.pc[u].Working? && !((a.Leave? || a.Begin?) && a.c == u)
    ensures var g' := G.Do(g, a, r); u in g'.mask && u < |g'.pc| && g'.pc[u].Working?
  {
    if a.Advance? { assert G.PcShape(g, a.c); }
  }

  lemma CollectKeepsOwn(r: G.Rules, c: Config, w: World, g: G.Action)
    requires Ready(c, w) && S.Inv(r, w.gc) && Enabled(r, w, Collect(g))
    ensures Own(Do(r, c, w, Collect(g)))
  {
    var w' := Do(r, c, w, Collect(g));
    if g.Advance? { AdvanceFreedOnly(r, w.gc, g.c); }
    assert FreedOnly(w.gc, w'.gc);
    OwnSilent(w, w', 0);
    forall u | u in w.table.running ensures u in w'.gc.mask && u < |w'.gc.pc| && w'.gc.pc[u].Working? {
      CollectOthers(r, w.gc, g, u);
    }
  }

  // ---------------------------------------------------------------- every step is allowed by reclamation

  lemma CallKeepsGc(r: G.Rules, c: Config, w: World, t: nat, op: T.Op)
    requires Ready(c, w) && S.Inv(r, w.gc) && S.Safe(r) && Enabled(r, w, Call(t, op))
    ensures S.Inv(r, DoCall(r, c, w, t, op).gc)
  {
    if ValueOf(op).Some? {
      var v := ValueOf(op).value;
      S.StepInv(r, w.gc, G.Alloc(v));
      var g := G.Do(w.gc, G.Alloc(v), r);
      S.StepInv(r, g, G.Acquire(t, v));
    }
  }

  /** A pointer to an unshared value is loaded only from a bucket, so before the value has been freed. */
  lemma LentIsLive(w: World, call: T.Call, after: T.Call)
    requires Stored(w) && Lent(w.table, call, after).Some?
    ensures G.At(w.gc, Lent(w.table, call, after).value, G.Live)
  {
    assert InBucket(w.table, call.pc.b, w.table.buckets[call.pc.b].v.ptr);
  }

  lemma StepKeepsGc(r: G.Rules, c: Config, w: World, t: nat, spurious: bool)
    requires Ready(c, w) && S.Inv(r, w.gc) && S.Safe(r) && Enabled(r, w, Step(t, spurious))
    ensures S.Inv(r, DoStep(r, c, w, t, spurious).gc)
  {
    var call := w.table.running[t];
    var table := T.Step(c, w.table, t, T.Go(spurious));
    if call.pc.Releasing? {
      assert OwedBy(w.table, t, call.pc.ptr);
      S.StepInv(r, w.gc, G.Free(t, call.pc.ptr));
    } else if t in table.running && Lent(w.table, call, table.running[t]).Some? {
      LentIsLive(w, call, table.running[t]);
      S.StepInv(r, w.gc, G.Acquire(t, Lent(w.table, call, table.running[t]).value));
    }
  }

  // ---------------------------------------------------------------- what reclamation knows

  /** What has been loaded for a thread is what reclamation knows it may hold. */
  ghost predicate Known(w: World) {
    |w.gc.held| == G.SLOTS &&
    forall t, p | t in w.got && p in w.got[t] :: t < G.SLOTS && t in w.gc.mask && p in w.gc.held[t]
  }

  /** Others hold what they held, and `t` holds at least what it held. */
  ghost predicate HoldsMore(g: G.State, g': G.State) {
    && |g'.held| == |g.held| && g'.mask == g.mask
    && forall u | 0 <= u < |g.held| :: g.held[u] <= g'.held[u]
  }

  lemma CallKeepsKnown(r: G.Rules, c: Config, w: World, t: nat, op: T.Op)
    requires Ready(c, w) && Known(w) && Enabled(r, w, Call(t, op))
    ensures Known(DoCall(r, c, w, t, op))
  {
    assert HoldsMore(w.gc, DoCall(r, c, w, t, op).gc);
  }

  lemma StepKeepsKnown(r: G.Rules, c: Config, w: World, t: nat, spurious: bool)
    requires Ready(c, w) && Known(w) && Enabled(r, w, Step(t, spurious))
    ensures Known(DoStep(r, c, w, t, spurious))
  {
    assert HoldsMore(w.gc, DoStep(r, c, w, t, spurious).gc);
  }

  lemma CollectHolds(r: G.Rules, g: G.State, a: G.Action, u: nat)
    requires G.Shape(g) && G.Enabled(r, g, a) && (a.Reserve? || a.Join? || a.Leave? || a.Begin? || a.Advance?)
    requires u < G.SLOTS && !(a.Begin? && a.c == u)
    ensures var g' := G.Do(g, a, r);
            && |g'.held| == G.SLOTS && g'.held[u] == g.held[u]
            && (u in g.mask && !(a.Leave? && a.c == u) ==> u in g'.mask)
  {
    if a.Advance? { assert G.PcShape(g, a.c); }
  }

  lemma CollectKeepsKnown(r: G.Rules, c: Config, w: World, g: G.Action)
    requires Ready(c, w) && Known(w) && Enabled(r, w, Collect(g))
    ensures Known(Do(r, c, w, Collect(g)))
  {
    var w' := Do(r, c, w, Collect(g));
    CollectHolds(r, w.gc, g, if g.Begin? && g.c == 0 then 1 else 0);
    forall t, p | t in w'.got && p in w'.got[t] ensures t < G.SLOTS && t in w'.gc.mask && p in w'.gc.held[t] {
      CollectHolds(r, w.gc, g, t);
    }
  }

  // ---------------------------------------------------------------- whole runs

  ghost predicate Inv(r: G.Rules, c: Config, w: World) { Ready(c, w) && S.Inv(r, w.gc) && Known(w) }

  ghost function Init(c: Config): World { World(P.Init(c), G.Init(), {}, map[]) }

  ghost predicate Moves(r: G.Rules, c: Config, w: World, w': World) {
    Ready(c, w) && exists a: Action :: Enabled(r, w, a) && Do(r, c, w, a) == w'
  }

  ghost predicate IsRun(r: G.Rules, c: Config, run: seq<World>) {
    && run != [] && run[0] == Init(c)
    && forall i: nat | i + 1 < |run| :: MovesAt(r, c, run, i)
  }

  ghost predicate MovesAt(r: G.Rules, c: Config, run: seq<World>, i: nat)
    requires i + 1 < |run|
  {
    Moves(r, c, run[i], run[i + 1])
  }

  lemma FrontIsRun(r: G.Rules, c: Config, run: seq<World>, n: nat)
    requires IsRun(r, c, run) && 0 < n <= |run|
    ensures IsRun(r, c, run[..n])
  {
    var front := run[..n];
    forall i: nat | i + 1 < |front| ensures MovesAt(r, c, front, i) { assert MovesAt(r, c, run, i); }
  }

  lemma KeepsInv(r: G.Rules, c: Config, w: World, a: Action)
    requires Inv(r, c, w) && S.Safe(r) && Enabled(r, w, a)
    ensures Inv(r, c, Do(r, c, w, a))
  {
    match a
    case Call(t, op) =>
      T.StepKeepsStruct(c, w.table, t, T.Begin(op));
      CallKeepsOwn(r, c, w, t, op);
      CallKeepsGc(r, c, w, t, op);
      CallKeepsKnown(r, c, w, t, op);
    case Step(t, spurious) =>
      T.StepKeepsStruct(c, w.table, t, T.Go(spurious));
      StepKeepsOwn(r, c, w, t, spurious);
      StepKeepsGc(r, c, w, t, spurious);
      StepKeepsKnown(r, c, w, t, spurious);
    case Collect(g) =>
      S.StepInv(r, w.gc, g);
      CollectKeepsOwn(r, c, w, g);
      CollectKeepsKnown(r, c, w, g);
  }

  lemma MoveKeepsInv(r: G.Rules, c: Config, w: World, w': World)
    requires Inv(r, c, w) && S.Safe(r) && Moves(r, c, w, w')
    ensures Inv(r, c, w')
  {
    var a: Action :| Enabled(r, w, a) && Do(r, c, w, a) == w';
    KeepsInv(r, c, w, a);
  }

  lemma {:induction false} RunInv(r: G.Rules, c: Config, run: seq<World>)
    requires IsRun(r, c, run) && S.Safe(r)
    ensures Inv(r, c, run[|run| - 1])
    decreases |run|
  {
    var n := |run| - 1;
    if n == 0 {
      P.InitInv(c);
      S.InitInv(r);
    } else {
      FrontIsRun(r, c, run, n);
      RunInv(r, c, run[..n]);
      assert MovesAt(r, c, run, n - 1);
      MoveKeepsInv(r, c, run[n - 1], run[n]);
    }
  }

  /** The machine never blocks: any enabled action extends any run. */
  lemma RunExtends(r: G.Rules, c: Config, run: seq<World>, a: Action)
    requires IsRun(r, c, run) && S.Safe(r) && G.Shape(run[|run| - 1].gc) && Enabled(r, run[|run| - 1], a)
    ensures Ready(c, run[|run| - 1]) && IsRun(r, c, run + [Do(r, c, run[|run| - 1], a)])
  {
    RunInv(r, c, run);
    var more := run + [Do(r, c, run[|run| - 1], a)];
    forall i: nat | i + 1 < |more| ensures MovesAt(r, c, more, i) {
      if i + 1 < |run| { assert MovesAt(r, c, run, i); }
    }
  }

  /** A pointer to an unshared value, once loaded for a thread, is not deleted, nor about to be, before that
      thread's next checkpoint. */
  lemma ReturnedStaysIntact(r: G.Rules, c: Config, run: seq<World>, t: nat, p: nat)
    requires IsRun(r, c, run) && S.Safe(r)
    requires var w := run[|run| - 1]; t in w.got && p in w.got[t]
    ensures var w := run[|run| - 1]; p in w.gc.place && !w.gc.place[p].Ready? && !w.gc.place[p].Gone?
  {
    RunInv(r, c, run);
  }

  predicate ExactlyOne(a: bool, b: bool, c: bool, d: bool) {
    (a && !b && !c && !d) || (!a && b && !c && !d) || (!a && !b && c && !d) || (!a && !b && !c && d)
  }

  /** Every unshared value stored so far, until it is allocated again, is in exactly one bucket, or held by
      exactly one thread that is about to release it, or on a reclamation list, or deleted; never in two of
      these and never in none. */
  lemma StoredInOnePlace(r: G.Rules, c: Config, run: seq<World>, p: nat)
    requires IsRun(r, c, run) && S.Safe(r) && p in run[|run| - 1].inserted
    ensures var w := run[|run| - 1];
            && p in w.gc.place
            && ExactlyOne(exists b: nat :: InBucket(w.table, b, p), exists t: nat :: OwedBy(w.table, t, p),
                          w.gc.place[p].Pending? || w.gc.place[p].Ready?, w.gc.place[p].Gone?)
            && (forall a: nat, b: nat | InBucket(w.table, a, p) && InBucket(w.table, b, p) :: a == b)
            && (forall t: nat, u: nat | OwedBy(w.table, t, p) && OwedBy(w.table, u, p) :: t == u)
  {
    RunInv(r, c, run);
    var w := run[|run| - 1];
    if G.At(w.gc, p, G.Live) { assert Kept(w.table, p); }
  }

  // ---------------------------------------------------------------- what callers were handed

  /** Step `i` of the run has `t` load pointer `p` to an unshared value from the bucket it found, and hand it
      to its caller. */
  ghost predicate Loads(run: seq<World>, i: nat, t: nat, p: nat) {
    && i + 1 < |run| && t in run[i].table.running && t in run[i + 1].table.running
    && Handed(run[i].table.running[t]).None? && Handed(run[i + 1].table.running[t]) == Some(p)
    && run[i].table.running[t].pc.AtBucket? && InBucket(run[i].table, run[i].table.running[t].pc.b, p)
  }

  /** `t` is between checkpoints. */
  ghost predicate Between(w: World, t: nat) { t < |w.gc.pc| && w.gc.pc[t].Working? }

  lemma LoadIsKnown(r: G.Rules, c: Config, w: World, a: Action, t: nat, p: nat)
    requires Ready(c, w) && Enabled(r, w, a) && t in w.table.running && Handed(w.table.running[t]).None?
    requires w.table.running[t].pc.AtBucket? && InBucket(w.table, w.table.running[t].pc.b, p)
    requires var w' := Do(r, c, w, a); t in w'.table.running && Handed(w'.table.running[t]) == Some(p)
    ensures p in Got(Do(r, c, w, a), t)
  {
    if a.Step? && a.t != t { StepOthers(c, w.table, a.t, a.spurious); }
  }

  /** What has been loaded for a thread is forgotten only when it enters a checkpoint. */
  lemma GotStays(r: G.Rules, c: Config, w: World, a: Action, t: nat)
    requires Ready(c, w) && Enabled(r, w, a) && Between(Do(r, c, w, a), t)
    ensures Got(w, t) <= Got(Do(r, c, w, a), t)
  {
  }

  /** Step `n - 1` of a run, seen as a step by itself. */
  ghost predicate GotGrows(run: seq<World>, n: nat, t: nat) {
    0 < n < |run| && (Between(run[n], t) ==> Got(run[n - 1], t) <= Got(run[n], t))
  }

  lemma StepGrows(r: G.Rules, c: Config, run: seq<World>, n: nat, t: nat)
    requires IsRun(r, c, run) && 0 < n < |run|
    ensures GotGrows(run, n, t)
  {
    assert MovesAt(r, c, run, n - 1);
    var a: Action :| Enabled(r, run[n - 1], a) && Do(r, c, run[n - 1], a) == run[n];
    if Between(run[n], t) { GotStays(r, c, run[n - 1], a, t); }
  }

  lemma StepLoads(r: G.Rules, c: Config, run: seq<World>, i: nat, t: nat, p: nat)
    requires IsRun(r, c, run) && Loads(run, i, t, p)
    ensures p in Got(run[i + 1], t)
  {
    assert MovesAt(r, c, run, i);
    var a: Action :| Enabled(r, run[i], a) && Do(r, c, run[i], a) == run[i + 1];
    LoadIsKnown(r, c, run[i], a, t, p);
  }

  /** `t` enters no checkpoint after step `i`. */
  ghost predicate NoCheckpoint(run: seq<World>, i: nat, t: nat) { forall k | i < k < |run| :: Between(run[k], t) }

  lemma {:induction false} LoadedIsKnown(r: G.Rules, c: Config, run: seq<World>, i: nat, n: nat, t: nat, p: nat)
    requires IsRun(r, c, run) && Loads(run, i, t, p) && NoCheckpoint(run, i, t) && i < n < |run|
    ensures p in Got(run[n], t)
  {
    if i + 1 == n {
      StepLoads(r, c, run, i, t, p);
    } else {
      LoadedIsKnown(r, c, run, i, n - 1, t, p);
      StepGrows(r, c, run, n, t);
    }
  }

  /** A pointer to an unshared value that `find` or `add` loaded and handed to its caller stays intact for as
      long as that thread enters no checkpoint, whatever all others do meanwhile. */
  lemma HandedStaysIntact(r: G.Rules, c: Config, run: seq<World>, i: nat, t: nat, p: nat)
    requires IsRun(r, c, run) && S.Safe(r) && Loads(run, i, t, p) && NoCheckpoint(run, i, t)
    ensures var w := run[|run| - 1]; p in w.gc.place && !w.gc.place[p].Ready? && !w.gc.place[p].Gone?
  {
    LoadedIsKnown(r, c, run, i, |run| - 1, t, p);
    ReturnedStaysIntact(r, c, run, t, p);
  }

  predicate Hands(res: T.Res, p: nat) { (res.Hit? || res.Existing?) && res.v == p }

  /** The result of a call names a pointer only if its access to the bucket of its key found it there. */
  lemma HandedFromBucket(c: Config, s: T.State, t: nat, spurious: bool, p: nat)
    requires T.Struct(c, s) && t in s.running
    requires var s' := T.Step(c, s, t, T.Go(spurious));
             exists id, op, res :: s'.hist == s.hist + [Commit(id, op, res)] && Hands(res, p)
    ensures s.running[t].pc.AtBucket? && T.KeyAt(s.buckets, s.running[t].pc.b, s.running[t].op.Text())
    ensures var v := s.buckets[s.running[t].pc.b].v; v.Ref? && v.ptr == p
  {
    assert T.CallOk(c, s.buckets, s.running[t]);
    var h := T.Step(c, s, t, T.Go(spurious)).hist;
    assert |h| == |s.hist| + 1 && h[|s.hist|].Commit? && Hands(h[|s.hist|].res, p);
  }

  // ---------------------------------------------------------------- the two machines within

  /** A step of the two together is a step of the table or of reclamation; a call allocates its value. */
  lemma StepProjects(r: G.Rules, c: Config, w: World, a: Action)
    requires Ready(c, w) && Enabled(r, w, a)
    ensures var w' := Do(r, c, w, a);
            && (a.Call? ==> w'.table == T.Step(c, w.table, a.t, T.Begin(a.op)))
            && (a.Step? ==> w'.table == T.Step(c, w.table, a.t, T.Go(a.spurious)))
            && (a.Collect? ==> w'.table == w.table && w'.gc == G.Do(w.gc, a.g, r))
    ensures var w' := Do(r, c, w, a);
            && (a.Call? && ValueOf(a.op).None? ==> w'.gc == w.gc)
            && (a.Call? && ValueOf(a.op).Some? ==> w'.gc.pending == w.gc.pending
                                                   && G.At(w'.gc, ValueOf(a.op).value, G.Live))
  {
  }

  /** What a call releases is freed by that step. */
  lemma ReleaseFrees(r: G.Rules, c: Config, w: World, t: nat, spurious: bool)
    requires Ready(c, w) && Enabled(r, w, Step(t, spurious)) && w.table.running[t].pc.Releasing?
    ensures var free := G.Free(t, w.table.running[t].pc.ptr);
            G.Enabled(r, w.gc, free) && Do(r, c, w, Step(t, spurious)).gc == G.Do(w.gc, free, r)
  {
    assert OwedBy(w.table, t, w.table.running[t].pc.ptr);
  }

  lemma TableMoves(r: G.Rules, c: Config, w: World, a: Action)
    requires Ready(c, w) && Enabled(r, w, a)
    ensures P.Moves(c, w.table, Do(r, c, w, a).table) || Do(r, c, w, a).table == w.table
  {
    StepProjects(r, c, w, a);
    if a.Call? { assert T.Enabled(w.table, a.t, T.Begin(a.op)); }
    if a.Step? { assert T.Enabled(w.table, a.t, T.Go(a.spurious)); }
  }

  lemma MovesProject(r: G.Rules, c: Config, run: seq<World>, i: nat)
    requires IsRun(r, c, run) && i + 1 < |run|
    ensures P.Moves(c, run[i].table, run[i + 1].table) || run[i + 1].table == run[i].table
  {
    assert MovesAt(r, c, run, i);
    var a: Action :| Enabled(r, run[i], a) && Do(r, c, run[i], a) == run[i + 1];
    TableMoves(r, c, run[i], a);
  }

  lemma OneMore(c: Config, tr: seq<T.State>, s: T.State)
    requires P.IsRun(c, tr) && P.Moves(c, tr[|tr| - 1], s)
    ensures P.IsRun(c, tr + [s])
  {
    var more := tr + [s];
    forall i: nat | i + 1 < |more| ensures P.Moves(c, more[i], more[i + 1]) {
      if i + 1 < |tr| { assert P.Moves(c, tr[i], tr[i + 1]); }
    }
  }

  /** Seen at its table, a run of the two together is a run of the table. */
  lemma {:induction false} TableRun(r: G.Rules, c: Config, run: seq<World>) returns (tr: seq<T.State>)
    requires IsRun(r, c, run)
    ensures P.IsRun(c, tr) && tr[|tr| - 1] == run[|run| - 1].table
    decreases |run|
  {
    var n := |run| - 1;
    if n == 0 {
      tr := [P.Init(c)];
    } else {
      FrontIsRun(r, c, run, n);
      tr := TableRun(r, c, run[..n]);
      MovesProject(r, c, run, n - 1);
      if run[n].table != run[n - 1].table {
        OneMore(c, tr, run[n].table);
        tr := tr + [run[n].table];
      }
    }
  }

  /** So the table stays linearizable while values are freed and collected. */
  lemma LinearizableTogether(r: G.Rules, c: Config, run: seq<World>)
    requires IsRun(r, c, run)
    ensures Linearizable(T.MapSpec(), T.EMPTY, run[|run| - 1].table.hist)
  {
    var tr := TableRun(r, c, run);
    P.TableLinearizable(c, tr);
  }
}
