/** Version chains (src/history.h): entries linked from old to new, the last of which may be deleted.

Threads run mv_set, mv_add, mv_replace, mv_del and newest; each compare-and-swap and each load is
one step, and a weak compare-and-swap may fail without reason. After a failed compare-and-swap the
code tests the observed word against `nullptr`. `ByWord` is the code as written, where a null
pointer carrying the deleted flag is not equal to `nullptr` and is then dereferenced; `ByPointer`
is the evident intent, where the flag is ignored. */
module VersionChain {
  import opened Basics
  import opened Linearization

  datatype Compare = ByWord | ByPointer

  /** The word `newer_`: a pointer and the deleted flag. */
  datatype Newer = Newer(ptr: Option<nat>, del: bool)

  const NULL: Newer := Newer(None, false)
  const DELETED: Newer := Newer(None, true)

  datatype Op = Set(e: nat) | Add(e: nat) | Replace(e: nat) | Del | Newest

  datatype Res = Yes | No | Version(v: Option<nat>)

  datatype Pc =
    | At(node: nat, expected: Newer)    // about to compare-and-swap newer_ of node
    | Loading(node: nat)                // about to load newer_ of node
    | Finishing(res: Res)
    | Crashed                           // dereferenced a null pointer

  datatype Call = Call(id: nat, op: Op, pc: Pc)

  datatype State = State(newer: map<nat, Newer>, running: map<nat, Call>, nextId: nat, hist: seq<Event<Op, Res>>)

  datatype Action = Begin(op: Op) | Go(spurious: bool)

  const BASE: nat := 0

  predicate Writes(op: Op) { op.Set? || op.Add? || op.Replace? }

  /** What each operation expects to find at a node it has just reached. */
  function FirstExpected(op: Op): Newer { if op.Add? then DELETED else NULL }

  function NewWord(op: Op): Newer { if Writes(op) then Newer(Some(op.e), false) else DELETED }

  predicate IsNull(mode: Compare, x: Newer) { if mode.ByWord? then x == NULL else x.ptr.None? }

  datatype Outcome = Retry(expected: Newer) | Descend | GiveUp

  /** The branches taken after a failed compare-and-swap that observed `x`. */
  function Failed(mode: Compare, op: Op, x: Newer): Outcome {
    match op
    case Set(_) => if !IsNull(mode, x) then Descend else Retry(Newer(None, x.del))
    case Add(_) => if !IsNull(mode, x) then Descend else if !x.del then GiveUp else Retry(x)
    case Replace(_) => if IsNull(mode, x) && x.del then GiveUp else if !IsNull(mode, x) then Descend else Retry(x)
    case _ => if IsNull(mode, x) && x.del then GiveUp else if !IsNull(mode, x) then Descend else Retry(NULL)
  }

  predicate Enabled(s: State, t: nat, a: Action) {
    match a
    case Begin(op) => t !in s.running && (Writes(op) ==> op.e !in s.newer)
    case Go(_) => t in s.running && !s.running[t].pc.Crashed? &&
                  (s.running[t].pc.At? || s.running[t].pc.Loading? ==> s.running[t].pc.node in s.newer)
  }

  function Goto(s: State, t: nat, pc: Pc): State
    requires t in s.running
  {
    s.(running := s.running[t := s.running[t].(pc := pc)])
  }

  function Effective(s: State, t: nat, res: Res): State
    requires t in s.running
  {
    Goto(s, t, Finishing(res)).(hist := s.hist + [Commit(s.running[t].id, s.running[t].op, res)])
  }

  function Arrive(op: Op, node: nat): Pc {
    if op.Newest? then Loading(node) else At(node, FirstExpected(op))
  }

  function StepSwap(mode: Compare, s: State, t: nat, node: nat, expected: Newer, spurious: bool): State
    requires t in s.running && node in s.newer
  {
    var op := s.running[t].op;
    var cur := s.newer[node];
    if cur == expected && !spurious then Effective(s, t, Yes).(newer := s.newer[node := NewWord(op)])
    else
      match Failed(mode, op, cur)
      case Retry(x) => Goto(s, t, At(node, x))
      case GiveUp => Effective(s, t, No)
      case Descend => if cur.ptr.Some? then Goto(s, t, Arrive(op, cur.ptr.value)) else Goto(s, t, Crashed)
  }

  function StepLoad(s: State, t: nat, node: nat): State
    requires t in s.running && node in s.newer
  {
    var cur := s.newer[node];
    if cur.ptr.Some? then Goto(s, t, Loading(cur.ptr.value))
    else Effective(s, t, Version(if cur.del then None else Some(node)))
  }

  function Step(mode: Compare, s: State, t: nat, a: Action): State
    requires Enabled(s, t, a)
  {
    match a
    case Begin(op) =>
      State(if Writes(op) then s.newer[op.e := NULL] else s.newer,
            s.running[t := Call(s.nextId, op, Arrive(op, BASE))], s.nextId + 1, s.hist + [Invoke(s.nextId, op)])
    case Go(spurious) =>
      match s.running[t].pc
      case At(node, expected) => StepSwap(mode, s, t, node, expected, spurious)
      case Loading(node) => StepLoad(s, t, node)
      case Finishing(res) => s.(running := s.running - {t}, hist := s.hist + [Return(s.running[t].id, res)])
      case Crashed => s
  }

  const INIT: State := State(map[BASE := NULL], map[], 0, [])

  // ---------------------------------------------------------------- what a chain is

  /** The versions in order, and whether the last has been deleted. */
  datatype Chain = Chain(nodes: seq<nat>, deleted: bool)

  ghost predicate Allowed(k: Chain, op: Op, res: Res) {
    match op
    case Set(_) => res == Yes
    case Add(_) => res == if k.deleted then Yes else No
    case Replace(_) => res == if k.deleted then No else Yes
    case Del => res == if k.deleted then No else Yes
    case Newest => k.nodes != [] && res == Version(if k.deleted then None else Some(k.nodes[|k.nodes| - 1]))
  }

  ghost function Apply(k: Chain, op: Op, res: Res): Chain {
    if res != Yes then k else if Writes(op) then Chain(k.nodes + [op.e], false) else Chain(k.nodes, true)
  }

  ghost function ChainSpec(): Spec<Chain, Op, Res> {
    Spec((k, op, res) => Allowed(k, op, res), (k, op, res) => Apply(k, op, res))
  }

  const START: Chain := Chain([BASE], false)

  ghost function ChainOf(s: State): Chain { Replay(ChainSpec(), START, Effects(s.hist)) }

  /** Real links run through exactly the versions, in order, and end at the last. */
  ghost predicate Linked(newer: map<nat, Newer>, k: Chain) {
    && k.nodes != [] && k.nodes[0] == BASE && NoDup(k.nodes)
    && (forall i | 0 <= i < |k.nodes| :: HasWord(newer, k, i))
    && RestNull(newer, k.nodes)
  }

  ghost predicate HasWord(newer: map<nat, Newer>, k: Chain, i: nat)
    requires i < |k.nodes|
  {
    k.nodes[i] in newer && newer[k.nodes[i]] == WordAt(k, i)
  }

  ghost predicate RestNull(newer: map<nat, Newer>, nodes: seq<nat>) {
    forall n | n in newer && n !in nodes :: newer[n] == NULL
  }

  ghost function WordAt(k: Chain, i: nat): Newer
    requires i < |k.nodes|
  {
    if i + 1 < |k.nodes| then Newer(Some(k.nodes[i + 1]), false) else Newer(None, k.deleted)
  }

  ghost predicate Unlinked(s: State, k: Chain, call: Call) {
    Writes(call.op) ==> call.op.e in s.newer && (PhaseFor(call).Pending? ==> call.op.e !in k.nodes)
  }

  /** The words an operation may be trying to replace. */
  predicate Expects(op: Op, x: Newer) {
    match op
    case Set(_) => x.ptr.None?
    case Add(_) => x == DELETED
    case Newest => false
    case _ => x == NULL
  }

  ghost predicate Standing(s: State, k: Chain) {
    && (forall t | t in s.running && (s.running[t].pc.At? || s.running[t].pc.Loading?) ::
          s.running[t].pc.node in k.nodes)
    && (forall t | t in s.running && s.running[t].pc.At? :: Expects(s.running[t].op, s.running[t].pc.expected))
    && (forall t | t in s.running && s.running[t].pc.Loading? :: s.running[t].op.Newest?)
    && (forall t | t in s.running :: Unlinked(s, k, s.running[t]))
    && (forall t, u | t in s.running && u in s.running && t != u && Writes(s.running[t].op)
          && Writes(s.running[u].op) ::
          s.running[t].op.e != s.running[u].op.e)
  }

  ghost function PhaseFor(call: Call): Phase<Op, Res> {
    if call.pc.Finishing? then Committed(call.op, call.pc.res) else Pending(call.op)
  }

  ghost predicate PhasesOk(s: State) {
    && (forall t | t in s.running ::
          s.running[t].id < s.nextId && PhaseOf(s.hist, s.running[t].id) == PhaseFor(s.running[t]))
    && (forall t, u | t in s.running && u in s.running && t != u :: s.running[t].id != s.running[u].id)
    && (forall id: nat | id >= s.nextId :: PhaseOf(s.hist, id).Unborn?)
  }

  ghost predicate HistoryOk(s: State) {
    WellFormed(s.hist) && PhasesOk(s) && Legal(ChainSpec(), START, Effects(s.hist))
  }

  ghost predicate Inv(s: State) { HistoryOk(s) && Linked(s.newer, ChainOf(s)) && Standing(s, ChainOf(s)) }

  lemma SilentHistory(s: State, t: nat, pc: Pc)
    requires HistoryOk(s) && t in s.running && PhaseFor(s.running[t]).Pending? && !pc.Finishing?
    ensures HistoryOk(Goto(s, t, pc)) && ChainOf(Goto(s, t, pc)) == ChainOf(s)
  {
  }

  lemma SilentStands(s: State, k: Chain, t: nat, pc: Pc)
    requires Standing(s, k) && t in s.running && PhaseFor(s.running[t]).Pending? && !pc.Finishing?
    requires pc.At? || pc.Loading? ==> pc.node in k.nodes
    requires pc.At? ==> Expects(s.running[t].op, pc.expected)
    requires pc.Loading? ==> s.running[t].op.Newest?
    ensures Standing(Goto(s, t, pc), k)
  {
    var s' := Goto(s, t, pc);
    forall u | u in s'.running ensures Unlinked(s', k, s'.running[u]) { assert Unlinked(s, k, s.running[u]); }
  }

  lemma SilentKeeps(s: State, t: nat, pc: Pc)
    requires Inv(s) && t in s.running && PhaseFor(s.running[t]).Pending? && !pc.Finishing?
    requires pc.At? || pc.Loading? ==> pc.node in ChainOf(s).nodes
    requires pc.At? ==> Expects(s.running[t].op, pc.expected)
    requires pc.Loading? ==> s.running[t].op.Newest?
    ensures Inv(Goto(s, t, pc)) && ChainOf(Goto(s, t, pc)) == ChainOf(s)
  {
    SilentHistory(s, t, pc);
    SilentStands(s, ChainOf(s), t, pc);
  }

  lemma EffectHistory(s: State, t: nat, res: Res)
    requires HistoryOk(s) && t in s.running && PhaseFor(s.running[t]).Pending?
    requires Allowed(ChainOf(s), s.running[t].op, res)
    ensures var s' := Effective(s, t, res); HistoryOk(s') && ChainOf(s') == Apply(ChainOf(s), s.running[t].op, res)
  {
    var call := s.running[t];
    Appended(s.hist, Commit(call.id, call.op, res));
    AppendedEffect(ChainSpec(), START, Effects(s.hist), Effect(call.id, call.op, res));
  }

  lemma RefusalStands(s: State, k: Chain, t: nat, res: Res)
    requires Standing(s, k) && t in s.running
    ensures Standing(Effective(s, t, res), k)
  {
    var s' := Effective(s, t, res);
    forall u | u in s'.running ensures Unlinked(s', k, s'.running[u]) { assert Unlinked(s, k, s.running[u]); }
  }

  lemma RefusalKeeps(s: State, t: nat, res: Res)
    requires Inv(s) && t in s.running && PhaseFor(s.running[t]).Pending?
    requires Allowed(ChainOf(s), s.running[t].op, res) && res != Yes
    ensures Inv(Effective(s, t, res)) && ChainOf(Effective(s, t, res)) == ChainOf(s)
  {
    EffectHistory(s, t, res);
    RefusalStands(s, ChainOf(s), t, res);
  }

  lemma SwapStands(s: State, s': State, k: Chain, t: nat)
    requires Standing(s, k) && t in s.running && s.running[t].pc.At? && s.newer.Keys <= s'.newer.Keys
    requires s'.running == s.running[t := s.running[t].(pc := Finishing(Yes))]
    ensures Standing(s', Apply(k, s.running[t].op, Yes))
  {
    var k' := Apply(k, s.running[t].op, Yes);
    forall u | u in s'.running ensures Unlinked(s', k', s'.running[u]) {
      assert Unlinked(s, k, s.running[u]);
    }
  }

  /** A successful swap is at the last version, and appends to the chain or deletes its last version. */
  lemma SwapKeeps(s: State, t: nat, node: nat, i: nat)
    requires Inv(s) && t in s.running && s.running[t].pc.At? && s.running[t].pc.node == node
    requires i == |ChainOf(s).nodes| - 1 && ChainOf(s).nodes[i] == node
    requires Allowed(ChainOf(s), s.running[t].op, Yes)
    ensures var s' := Effective(s, t, Yes).(newer := s.newer[node := NewWord(s.running[t].op)]);
            Inv(s') && ChainOf(s') == Apply(ChainOf(s), s.running[t].op, Yes)
  {
    var op, k := s.running[t].op, ChainOf(s);
    SwapHistory(s, t, s.newer[node := NewWord(op)]);
    SwapReady(s, k, t);
    SwapLinks(s.newer, k, node, op);
    SwapStands(s, Effective(s, t, Yes).(newer := s.newer[node := NewWord(op)]), k, t);
  }

  lemma SwapHistory(s: State, t: nat, newer: map<nat, Newer>)
    requires HistoryOk(s) && t in s.running && PhaseFor(s.running[t]).Pending?
    requires Allowed(ChainOf(s), s.running[t].op, Yes)
    ensures var s' := Effective(s, t, Yes).(newer := newer);
            HistoryOk(s') && ChainOf(s') == Apply(ChainOf(s), s.running[t].op, Yes)
  {
    EffectHistory(s, t, Yes);
    SameHistory(Effective(s, t, Yes), newer);
  }

  /** The history does not depend on the links. */
  lemma SameHistory(s: State, newer: map<nat, Newer>)
    requires HistoryOk(s)
    ensures HistoryOk(s.(newer := newer)) && ChainOf(s.(newer := newer)) == ChainOf(s)
  {
  }

  lemma SwapReady(s: State, k: Chain, t: nat)
    requires Standing(s, k) && t in s.running && s.running[t].pc.At?
    ensures !s.running[t].op.Newest?
    ensures (Writes(s.running[t].op) ==> s.running[t].op.e in s.newer && s.running[t].op.e !in k.nodes)
  {
    assert Unlinked(s, k, s.running[t]) && Expects(s.running[t].op, s.running[t].pc.expected);
  }

  lemma SwapLinks(newer: map<nat, Newer>, k: Chain, node: nat, op: Op)
    requires Linked(newer, k) && node == k.nodes[|k.nodes| - 1] && !op.Newest?
    requires Writes(op) ==> op.e in newer && op.e !in k.nodes
    ensures Linked(newer[node := NewWord(op)], Apply(k, op, Yes))
  {
    if Writes(op) { AppendLinks(newer, k, op.e); } else { DeleteLinks(newer, k); }
  }

  lemma DeleteLinks(newer: map<nat, Newer>, k: Chain)
    requires Linked(newer, k)
    ensures Linked(newer[k.nodes[|k.nodes| - 1] := DELETED], Chain(k.nodes, true))
  {
    var last := k.nodes[|k.nodes| - 1];
    var newer', k' := newer[last := DELETED], Chain(k.nodes, true);
    forall i | 0 <= i < |k'.nodes| ensures HasWord(newer', k', i) { assert HasWord(newer, k, i); }
  }

  lemma AppendWord(newer: map<nat, Newer>, k: Chain, e: nat, i: nat)
    requires Linked(newer, k) && e in newer && e !in k.nodes && i <= |k.nodes|
    ensures HasWord(newer[k.nodes[|k.nodes| - 1] := Newer(Some(e), false)], Chain(k.nodes + [e], false), i)
  {
    if i < |k.nodes| { assert HasWord(newer, k, i); }
    assert k.nodes[|k.nodes| - 1] in k.nodes;
  }

  lemma AppendRest(newer: map<nat, Newer>, nodes: seq<nat>, last: nat, x: Newer, e: nat)
    requires RestNull(newer, nodes) && last in nodes
    ensures RestNull(newer[last := x], nodes + [e])
  {
  }

  lemma AppendLinks(newer: map<nat, Newer>, k: Chain, e: nat)
    requires Linked(newer, k) && e in newer && e !in k.nodes
    ensures Linked(newer[k.nodes[|k.nodes| - 1] := Newer(Some(e), false)], Chain(k.nodes + [e], false))
  {
    var last, x := k.nodes[|k.nodes| - 1], Newer(Some(e), false);
    NoDupConcat(k.nodes, [e]);
    AppendRest(newer, k.nodes, last, x, e);
    var newer', k' := newer[last := x], Chain(k.nodes + [e], false);
    forall i | 0 <= i < |k'.nodes| ensures HasWord(newer', k', i) { AppendWord(newer, k, e, i); }
  }

  lemma SuccessKeeps(s: State, t: nat, i: nat)
    requires Inv(s) && t in s.running && s.running[t].pc.At?
    requires i < |ChainOf(s).nodes| && ChainOf(s).nodes[i] == s.running[t].pc.node
    requires s.running[t].pc.expected == WordAt(ChainOf(s), i)
    ensures var s' := Effective(s, t, Yes).(newer := s.newer[s.running[t].pc.node := NewWord(s.running[t].op)]);
            Inv(s') && ChainOf(s).nodes <= ChainOf(s').nodes
  {
    assert Expects(s.running[t].op, s.running[t].pc.expected);
    SwapKeeps(s, t, s.running[t].pc.node, i);
  }

  lemma FailureKeeps(mode: Compare, s: State, t: nat, i: nat, cur: Newer)
    requires Inv(s) && t in s.running && s.running[t].pc.At?
    requires i < |ChainOf(s).nodes| && ChainOf(s).nodes[i] == s.running[t].pc.node && cur == WordAt(ChainOf(s), i)
    ensures match Failed(mode, s.running[t].op, cur)
            case Retry(x) => Inv(Goto(s, t, At(s.running[t].pc.node, x)))
            case GiveUp => Inv(Effective(s, t, No)) && ChainOf(Effective(s, t, No)) == ChainOf(s)
            case Descend =>
              Inv(Goto(s, t, if cur.ptr.Some? then Arrive(s.running[t].op, cur.ptr.value) else Crashed))
  {
    var call, k := s.running[t], ChainOf(s);
    assert Expects(call.op, call.pc.expected);
    match Failed(mode, call.op, cur)
    case Retry(x) => SilentKeeps(s, t, At(call.pc.node, x));
    case GiveUp => RefusalKeeps(s, t, No);
    case Descend =>
      if cur.ptr.Some? {
        assert cur.ptr.value == k.nodes[i + 1];
        SilentKeeps(s, t, Arrive(call.op, cur.ptr.value));
      } else {
        SilentKeeps(s, t, Crashed);
      }
  }

  lemma StepSwapKeeps(mode: Compare, s: State, t: nat, spurious: bool)
    requires Inv(s) && Enabled(s, t, Go(spurious)) && s.running[t].pc.At?
    ensures Inv(Step(mode, s, t, Go(spurious)))
    ensures ChainOf(s).nodes <= ChainOf(Step(mode, s, t, Go(spurious))).nodes
  {
    var k, node := ChainOf(s), s.running[t].pc.node;
    var i :| 0 <= i < |k.nodes| && k.nodes[i] == node;
    var cur := s.newer[node];
    assert HasWord(s.newer, k, i);
    if cur == s.running[t].pc.expected && !spurious {
      SuccessKeeps(s, t, i);
    } else {
      FailureKeeps(mode, s, t, i, cur);
      if !Failed(mode, s.running[t].op, cur).GiveUp? { assert Step(mode, s, t, Go(spurious)).hist == s.hist; }
    }
  }

  lemma StepLoadKeeps(mode: Compare, s: State, t: nat, spurious: bool)
    requires Inv(s) && Enabled(s, t, Go(spurious)) && s.running[t].pc.Loading?
    ensures Inv(Step(mode, s, t, Go(spurious))) && ChainOf(Step(mode, s, t, Go(spurious))) == ChainOf(s)
  {
    var k, node := ChainOf(s), s.running[t].pc.node;
    var i :| 0 <= i < |k.nodes| && k.nodes[i] == node;
    var cur := s.newer[node];
    assert HasWord(s.newer, k, i);
    if cur.ptr.Some? {
      assert cur.ptr.value == k.nodes[i + 1];
      SilentKeeps(s, t, Loading(cur.ptr.value));
    } else {
      RefusalKeeps(s, t, Version(if cur.del then None else Some(node)));
    }
  }

  lemma BeginKeeps(mode: Compare, s: State, t: nat, op: Op)
    requires Inv(s) && Enabled(s, t, Begin(op))
    ensures Inv(Step(mode, s, t, Begin(op))) && ChainOf(Step(mode, s, t, Begin(op))) == ChainOf(s)
  {
    var s', k := Step(mode, s, t, Begin(op)), ChainOf(s);
    Appended(s.hist, Invoke(s.nextId, op));
    assert ChainOf(s') == k;
    forall u | u in s.running && Writes(s.running[u].op) ensures s.running[u].op.e in s.newer {
      assert Unlinked(s, k, s.running[u]);
    }
    BeginStands(mode, s, t, op);
  }

  lemma NodesKnown(newer: map<nat, Newer>, k: Chain, n: nat)
    requires Linked(newer, k) && n in k.nodes
    ensures n in newer
  {
    var i :| 0 <= i < |k.nodes| && k.nodes[i] == n;
    assert HasWord(newer, k, i);
  }

  /** A new version that nothing refers to leaves the chain linked. */
  lemma NewLinks(newer: map<nat, Newer>, k: Chain, e: nat)
    requires Linked(newer, k) && e !in newer
    ensures Linked(newer[e := NULL], k) && e !in k.nodes
  {
    if e in k.nodes { NodesKnown(newer, k, e); }
    var newer' := newer[e := NULL];
    forall i | 0 <= i < |k.nodes| ensures HasWord(newer', k, i) { assert HasWord(newer, k, i); }
  }

  lemma BeginStands(mode: Compare, s: State, t: nat, op: Op)
    requires Linked(s.newer, ChainOf(s)) && Standing(s, ChainOf(s)) && Enabled(s, t, Begin(op))
    requires forall u | u in s.running && Writes(s.running[u].op) :: s.running[u].op.e in s.newer
    ensures Linked(Step(mode, s, t, Begin(op)).newer, ChainOf(s)) && Standing(Step(mode, s, t, Begin(op)), ChainOf(s))
  {
    var s', k := Step(mode, s, t, Begin(op)), ChainOf(s);
    if Writes(op) { NewLinks(s.newer, k, op.e); }
    forall u | u in s'.running ensures Unlinked(s', k, s'.running[u]) {
      if u != t { assert Unlinked(s, k, s.running[u]); }
    }
  }

  lemma FinishKeeps(mode: Compare, s: State, t: nat, spurious: bool)
    requires Inv(s) && Enabled(s, t, Go(spurious)) && s.running[t].pc.Finishing?
    ensures Inv(Step(mode, s, t, Go(spurious))) && ChainOf(Step(mode, s, t, Go(spurious))) == ChainOf(s)
  {
    var call := s.running[t];
    Appended(s.hist, Return(call.id, call.pc.res));
    assert ChainOf(Step(mode, s, t, Go(spurious))) == ChainOf(s);
    forall u | u in s.running && u != t ensures Unlinked(Step(mode, s, t, Go(spurious)), ChainOf(s), s.running[u]) {
      assert Unlinked(s, ChainOf(s), s.running[u]);
    }
  }

  /** Every step keeps the chain linked and its history legal, and only ever appends versions. */
  lemma StepKeeps(mode: Compare, s: State, t: nat, a: Action)
    requires Inv(s) && Enabled(s, t, a)
    ensures Inv(Step(mode, s, t, a)) && ChainOf(s).nodes <= ChainOf(Step(mode, s, t, a)).nodes
  {
    match a
    case Begin(op) => BeginKeeps(mode, s, t, op);
    case Go(spurious) =>
      match s.running[t].pc
      case At(_, _) => StepSwapKeeps(mode, s, t, spurious);
      case Loading(_) => StepLoadKeeps(mode, s, t, spurious);
      case Finishing(_) => FinishKeeps(mode, s, t, spurious);
      case Crashed =>
  }

  ghost predicate Moves(mode: Compare, s: State, s': State) {
    exists t: nat, a: Action :: Enabled(s, t, a) && Step(mode, s, t, a) == s'
  }

  ghost predicate IsRun(mode: Compare, run: seq<State>) {
    && run != [] && run[0] == INIT
    && forall i: nat | i + 1 < |run| :: MovesAt(mode, run, i)
  }

  ghost predicate MovesAt(mode: Compare, run: seq<State>, i: nat) { i + 1 < |run| && Moves(mode, run[i], run[i + 1]) }

  lemma RunPrefix(mode: Compare, run: seq<State>, n: nat)
    requires IsRun(mode, run) && 0 < n <= |run|
    ensures IsRun(mode, run[..n])
  {
    forall i: nat | i + 1 < n ensures MovesAt(mode, run[..n], i) { assert MovesAt(mode, run, i); }
  }

  lemma {:induction false} RunInv(mode: Compare, run: seq<State>)
    requires IsRun(mode, run)
    ensures Inv(run[|run| - 1])
    decreases |run|
  {
    var n := |run| - 1;
    if n > 0 {
      RunPrefix(mode, run, n);
      RunInv(mode, run[..n]);
      assert MovesAt(mode, run, n - 1);
      var t: nat, a: Action :| Enabled(run[n - 1], t, a) && Step(mode, run[n - 1], t, a) == run[n];
      StepKeeps(mode, run[n - 1], t, a);
    }
  }

  /** The machine never blocks: a thread that has not crashed can always go on. */
  lemma RunExtends(mode: Compare, run: seq<State>, t: nat, a: Action)
    requires IsRun(mode, run)
    requires var s := run[|run| - 1];
             match a
             case Begin(op) => t !in s.running && (Writes(op) ==> op.e !in s.newer)
             case Go(_) => t in s.running && !s.running[t].pc.Crashed?
    ensures Enabled(run[|run| - 1], t, a) && IsRun(mode, run + [Step(mode, run[|run| - 1], t, a)])
  {
    var s := run[|run| - 1];
    RunInv(mode, run);
    StandsOnChain(s, ChainOf(s), t);
    var more := run + [Step(mode, s, t, a)];
    forall i: nat | i + 1 < |more| ensures MovesAt(mode, more, i) {
      if i + 1 < |run| { assert MovesAt(mode, run, i); } else { assert Enabled(s, t, a); }
    }
  }

  lemma StandsOnChain(s: State, k: Chain, t: nat)
    requires Linked(s.newer, k) && Standing(s, k)
    ensures t in s.running && (s.running[t].pc.At? || s.running[t].pc.Loading?) ==> s.running[t].pc.node in s.newer
  {
    if t in s.running && (s.running[t].pc.At? || s.running[t].pc.Loading?) {
      var i :| 0 <= i < |k.nodes| && k.nodes[i] == s.running[t].pc.node;
      assert HasWord(s.newer, k, i);
    }
  }

  /** Under either comparison, every run is linearizable to a chain: add succeeds exactly when the last
      version is deleted, replace and del exactly when it is live, and newest returns the last write. */
  lemma ChainLinearizable(mode: Compare, run: seq<State>)
    requires IsRun(mode, run)
    ensures Linearizable(ChainSpec(), START, run[|run| - 1].hist)
    ensures Linked(run[|run| - 1].newer, ChainOf(run[|run| - 1]))
  {
    RunInv(mode, run);
    LinearizationPoints(ChainSpec(), START, run[|run| - 1].hist);
  }

  /** The branches taken as written and as intended differ on exactly one observed word. */
  lemma ComparisonsDiffer(op: Op, x: Newer)
    requires !op.Newest?
    ensures Failed(ByWord, op, x) == Failed(ByPointer, op, x) <==> x != DELETED
    ensures Failed(ByWord, op, DELETED) == Descend
  {
  }

  /** A step dereferences a null pointer exactly when the comparison is by word and it observes a
      deleted last version that it was not able to replace. */
  lemma CrashesExactlyWhen(mode: Compare, s: State, t: nat, spurious: bool)
    requires Inv(s) && Enabled(s, t, Go(spurious)) && s.running[t].pc.At?
    ensures Step(mode, s, t, Go(spurious)).running[t].pc.Crashed? <==>
            mode.ByWord? && s.newer[s.running[t].pc.node] == DELETED
                && (spurious || s.running[t].pc.expected != DELETED)
  {
    ComparisonsDiffer(s.running[t].op, s.newer[s.running[t].pc.node]);
  }

  ghost predicate NoneCrashed(s: State) { forall t | t in s.running :: !s.running[t].pc.Crashed? }

  lemma OthersNotCrashed(s: State, t: nat, a: Action)
    requires NoneCrashed(s) && Enabled(s, t, a)
    requires t in Step(ByPointer, s, t, a).running ==> !Step(ByPointer, s, t, a).running[t].pc.Crashed?
    ensures NoneCrashed(Step(ByPointer, s, t, a))
  {
  }

  lemma IntentStep(s: State, t: nat, a: Action)
    requires Inv(s) && NoneCrashed(s) && Enabled(s, t, a)
    ensures NoneCrashed(Step(ByPointer, s, t, a))
  {
    if a.Go? && s.running[t].pc.At? { CrashesExactlyWhen(ByPointer, s, t, a.spurious); }
    OthersNotCrashed(s, t, a);
  }

  lemma IntentMove(s: State, s': State)
    requires Inv(s) && NoneCrashed(s) && Moves(ByPointer, s, s')
    ensures NoneCrashed(s')
  {
    var t: nat, a: Action :| Enabled(s, t, a) && Step(ByPointer, s, t, a) == s';
    IntentStep(s, t, a);
  }

  /** As intended, nothing is ever dereferenced but a version. */
  lemma {:induction false} IntentNeverCrashes(run: seq<State>)
    requires IsRun(ByPointer, run)
    ensures NoneCrashed(run[|run| - 1])
    decreases |run|
  {
    var n := |run| - 1;
    if n > 0 {
      RunPrefix(ByPointer, run, n);
      IntentNeverCrashes(run[..n]);
      RunInv(ByPointer, run[..n]);
      assert MovesAt(ByPointer, run, n - 1);
      IntentMove(run[n - 1], run[n]);
    }
  }

  /** As written, setting a version after a delete crashes: a run of four steps shows it. */
  lemma WrittenCrashes() returns (run: seq<State>)
    ensures IsRun(ByWord, run) && 1 in run[|run| - 1].running && run[|run| - 1].running[1].pc.Crashed?
  {
    var s1 := Step(ByWord, INIT, 0, Begin(Del));
    var s2 := Step(ByWord, s1, 0, Go(false));
    var s3 := Step(ByWord, s2, 1, Begin(Set(7)));
    var s4 := Step(ByWord, s3, 1, Go(false));
    run := [INIT, s1, s2, s3, s4];
    assert s2.newer[BASE] == DELETED && s3.newer[BASE] == DELETED;
    assert Moves(ByWord, INIT, s1) && Moves(ByWord, s1, s2) && Moves(ByWord, s2, s3) && Moves(ByWord, s3, s4);
  }
}
