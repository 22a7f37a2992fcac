/** The cache and its migrating collector (src/cache.cc), as steps on values.

A client operation is one step; the collector is a sequence of steps with client operations between
any two of them. A table maps keys to slots; a slot keeps its key object for good, and its value may
be shared with the table being built. Which bucket a key takes is left open: a new key finds room or
does not. Entries are numbered in the order in which operations create them; an entry stored in a
table is the base of a chain of versions that hang off it. */
module CacheModel {
  import opened Basics
  import opened Probing

  datatype Ref = Ref(base: nat, shared: bool)

  datatype Slot = Slot(obj: nat, val: Option<Ref>)

  type Table = map<Key, Slot>

  /** An entry: the size of its rope; whether it has been stored; whether it is stored and not yet
      released; the base of the chain it belongs to; and its key. */
  datatype Entry = Entry(size: nat, stored: bool, held: bool, base: nat, key: Key)

  /** The versions, from the base on, and whether the newest has been deleted. */
  datatype Chain = Chain(nodes: seq<nat>, deleted: bool)

  /** A key object: whether a slot was given it, whether it has not been released since, and its contents. */
  datatype KeyObj = KeyObj(kept: bool, held: bool, text: Key)

  datatype Phase =
    | Quiet                        // no collection
    | Building(shadow: Table)      // _building is set; entries are being shared into it
    | Switched(was: Table)         // _entries is the new table, _building not yet cleared
    | HandingOff(was: Table)       // taking exclusive ownership of what is left of the old table

  /** What clients have been told. */
  datatype Event = WasStored(k: Key, e: nat) | WasDeleted(k: Key)

  /** `freed` and `freedKeys` list what has been released, in order. `lost` holds the keys that the last
      switches of tables left behind. */
  datatype State = State(entries: Table, phase: Phase, ents: seq<Entry>, chains: map<nat, Chain>, objs: seq<KeyObj>,
                         bytes: int, told: seq<Event>, freed: seq<nat>, freedKeys: seq<nat>, lost: set<Key>)

  datatype Reply = Stored | SetError | Deleted | NotFound | Silent

  // ---------------------------------------------------------------- reading

  function Versions(s: State, b: nat): seq<nat> {
    if b in s.chains then s.chains[b].nodes else [b]
  }

  function Newest(s: State, b: nat): Option<nat> {
    var es := Versions(s, b);
    if es == [] || (b in s.chains && s.chains[b].deleted) then None else Some(es[|es| - 1])
  }

  function Find(t: Table, k: Key): Option<nat> {
    if k in t && t[k].val.Some? then Some(t[k].val.value.base) else None
  }

  /** `get`. */
  function Visible(s: State, k: Key): Option<nat> {
    if Find(s.entries, k).Some? then Newest(s, Find(s.entries, k).value) else None
  }

  // ---------------------------------------------------------------- releasing

  function SumOf(ents: seq<Entry>, es: seq<nat>): nat {
    if es == [] then 0
    else (if es[0] < |ents| then ents[es[0]].size else 0) + SumOf(ents, es[1..])
  }

  function Unheld(ents: seq<Entry>, es: seq<nat>): seq<Entry> {
    seq(|ents|, i requires 0 <= i < |ents| => if i in es then ents[i].(held := false) else ents[i])
  }

  /** `entry_release`: an entry and every version hanging off it. */
  function Release(s: State, b: nat): State {
    var es := Versions(s, b);
    s.(ents := Unheld(s.ents, es), bytes := s.bytes - SumOf(s.ents, es), freed := s.freed + es)
  }

  function ReleaseKey(s: State, o: nat): State {
    s.(objs := if o < |s.objs| then s.objs[o := s.objs[o].(held := false)] else s.objs, freedKeys := s.freedKeys + [o])
  }

  /** `changed_value` and the end of `remove_value`: release what was there unless it is shared. */
  function Displaced(s: State, was: Option<Ref>): State {
    if was.Some? && !was.value.shared then Release(s, was.value.base) else s
  }

  // ---------------------------------------------------------------- storing

  /** Create the entry of an operation on `k`; it is not yet stored. */
  function NewEntry(s: State, k: Key, size: nat): State {
    s.(ents := s.ents + [Entry(size, false, false, |s.ents|, k)])
  }

  /** The entry just created becomes a stored base. */
  function Hold(s: State, e: nat, b: nat): State
    requires e < |s.ents|
  {
    s.(ents := s.ents[e := s.ents[e].(stored := true, held := true, base := b)], bytes := s.bytes + s.ents[e].size)
  }

  function NewBase(s: State, e: nat): State
    requires e < |s.ents|
  {
    Hold(s, e, e).(chains := s.chains[e := Chain([e], false)])
  }

  function AppendVersion(s: State, b: nat, e: nat): State
    requires e < |s.ents|
  {
    Hold(s, e, b).(chains := s.chains[b := Chain(Versions(s, b) + [e], false)])
  }

  function Told(s: State, ev: Event): State {
    s.(told := s.told + [ev], lost := s.lost - {ev.k})
  }

  /** Put `r` in the slot of `k`, which exists or is given the key object `o`. */
  function Put(t: Table, k: Key, o: nat, r: Ref): Table {
    t[k := Slot(if k in t then t[k].obj else o, Some(r))]
  }

  /** The key object an operation brought is kept if its slot is new. */
  function KeepKey(s: State, k: Key, isNew: bool): State {
    s.(objs := s.objs + [KeyObj(isNew, isNew, k)])
  }

  predicate HasRoom(t: Table, k: Key, room: bool) { k in t || room }

  /** `set_shared` into the table being built. */
  function ShareSet(t: Table, k: Key, o: nat, b: nat, room: bool): Table {
    if HasRoom(t, k, room) then Put(t, k, o, Ref(b, true)) else t
  }

  /** `add_shared` into the table being built. */
  function ShareAdd(t: Table, k: Key, o: nat, b: nat, room: bool): Table {
    if HasRoom(t, k, room) && Find(t, k).None? then Put(t, k, o, Ref(b, true)) else t
  }

  /** `entries->set`, outside a build. */
  function SetPlain(s: State, k: Key, e: nat): State
    requires e < |s.ents|
  {
    var o := |s.objs|;
    var was := if k in s.entries then s.entries[k].val else None;
    var s1 := NewBase(KeepKey(s, k, k !in s.entries), e);
    Displaced(s1.(entries := Put(s.entries, k, o, Ref(e, false))), was)
  }

  /** `entries->add` on a slot without a value, during a build; `share` says how the shadow learns of it. */
  function SetShadowed(s: State, k: Key, e: nat, shadow: Table): State
    requires e < |s.ents|
  {
    var o := |s.objs|;
    NewBase(KeepKey(s, k, k !in s.entries), e)
    .(entries := Put(s.entries, k, o, Ref(e, false)), phase := Building(shadow))
  }

  function ObjFor(s: State, k: Key): nat { if k in s.entries then s.entries[k].obj else |s.objs| }

  function DoSet(s: State, k: Key, size: nat, room: bool, room2: bool): (State, Reply) {
    var e := |s.ents|;
    var s0 := NewEntry(s, k, size);
    if !HasRoom(s.entries, k, room) then (KeepKey(s0, k, false), SetError)
    else if s.phase.Building? then
      var cur := Find(s.entries, k);
      if cur.Some? then (Told(AppendVersion(KeepKey(s0, k, false), cur.value, e), WasStored(k, e)), Stored)
      else (Told(SetShadowed(s0, k, e, ShareSet(s.phase.shadow, k, ObjFor(s, k), e, room2)), WasStored(k, e)), Stored)
    else (Told(SetPlain(s0, k, e), WasStored(k, e)), Stored)
  }

  function DoAdd(s: State, k: Key, size: nat, room: bool, room2: bool): (State, Reply) {
    var e := |s.ents|;
    var s0 := NewEntry(s, k, size);
    var cur := Find(s.entries, k);
    if !HasRoom(s.entries, k, room) then (KeepKey(s0, k, false), SetError)
    else if cur.Some? then
      if s.phase.Building? && Newest(s, cur.value).None? then
        (Told(AppendVersion(KeepKey(s0, k, false), cur.value, e), WasStored(k, e)), Stored)
      else (KeepKey(s0, k, false), SetError)
    else if s.phase.Building? then
      (Told(SetShadowed(s0, k, e, ShareAdd(s.phase.shadow, k, ObjFor(s, k), e, room2)), WasStored(k, e)), Stored)
    else (Told(SetPlain(s0, k, e), WasStored(k, e)), Stored)
  }

  function DoReplace(s: State, k: Key, size: nat): (State, Reply) {
    var e := |s.ents|;
    var s0 := NewEntry(s, k, size);
    var cur := Find(s.entries, k);
    if cur.None? then (s0, SetError)
    else if s.phase.Building? then
      if Newest(s, cur.value).None? then (s0, SetError)
      else (Told(AppendVersion(s0, cur.value, e), WasStored(k, e)), Stored)
    else
      var s1 := NewBase(s0, e).(entries := s.entries[k := s.entries[k].(val := Some(Ref(e, false)))]);
      (Told(Displaced(s1, s.entries[k].val), WasStored(k, e)), Stored)
  }

  function DoDel(s: State, k: Key): (State, Reply) {
    var cur := Find(s.entries, k);
    if cur.None? then (s, NotFound)
    else if s.phase.Building? then
      if Newest(s, cur.value).None? then (s, NotFound)
      else
        var ch := Chain(Versions(s, cur.value), true);
        (Told(s.(chains := s.chains[cur.value := ch]), WasDeleted(k)), Deleted)
    else
      var s1 := s.(entries := s.entries[k := s.entries[k].(val := None)]);
      (Told(Displaced(s1, s.entries[k].val), WasDeleted(k)), Deleted)
  }

  function Grow(s: State, e: nat, n: nat): State {
    if e < |s.ents| then s.(ents := s.ents[e := s.ents[e].(size := s.ents[e].size + n)], bytes := s.bytes + n) else s
  }

  /** `append` finds the base; `prepend` goes through `get` and finds the newest version. */
  function DoAppend(s: State, k: Key, n: nat): (State, Reply) {
    var cur := Find(s.entries, k);
    if cur.None? then (s, SetError) else (Grow(s, cur.value, n), Stored)
  }

  function DoPrepend(s: State, k: Key, n: nat): (State, Reply) {
    var cur := Visible(s, k);
    if cur.None? then (s, SetError) else (Grow(s, cur.value, n), Stored)
  }

  // ---------------------------------------------------------------- collecting

  /** One turn of the copying loop: share the entry of `k` if it is live. A chain whose newest version
      is deleted is not live; otherwise liveness is left open. */
  function CopyOne(s: State, k: Key, live: bool, room2: bool): State
    requires s.phase.Building?
  {
    var cur := Find(s.entries, k);
    if cur.Some? && live && Newest(s, cur.value).Some? then
      s.(phase := Building(ShareAdd(s.phase.shadow, k, s.entries[k].obj, cur.value, room2)))
    else s
  }

  function SwitchTables(s: State): State
    requires s.phase.Building?
  {
    var s' := s.(entries := s.phase.shadow, phase := Switched(s.entries));
    s'.(lost := s.lost + set k | k in s.entries && Visible(s, k).Some? && Visible(s', k).None?)
  }

  /** `exclusive`, then the reset of the old bucket. */
  function HandOne(s: State, k: Key): State
    requires s.phase.HandingOff? && k in s.phase.was
  {
    var slot := s.phase.was[k];
    var s0 := s.(phase := HandingOff(s.phase.was - {k}));
    if k !in s.entries then Displaced(ReleaseKey(s0, slot.obj), slot.val)
    else
      var s1 := if s.entries[k].obj != slot.obj then ReleaseKey(s0, slot.obj) else s0;
      if slot.val.None? then s1
      else if s.entries[k].val == Some(Ref(slot.val.value.base, true)) then
        s1.(entries := s.entries[k := s.entries[k].(val := Some(Ref(slot.val.value.base, false)))])
      else Release(s1, slot.val.value.base)
  }

  datatype Action =
    | Set(k: Key, size: nat, room: bool, room2: bool)
    | Add(k: Key, size: nat, room: bool, room2: bool)
    | Replace(k: Key, size: nat)
    | Get(k: Key)
    | Del(k: Key)
    | Append(k: Key, n: nat)
    | Prepend(k: Key, n: nat)
    | StartCollect
    | Copy(k: Key, live: bool, room2: bool)
    | Switch
    | ClearBuilding
    | Hand(k: Key)
    | EndCollect

  predicate Enabled(s: State, a: Action) {
    match a
    case StartCollect => s.phase.Quiet?
    case Copy(_, _, _) => s.phase.Building?
    case Switch => s.phase.Building?
    case ClearBuilding => s.phase.Switched?
    case Hand(k) => s.phase.HandingOff? && k in s.phase.was
    case EndCollect => s.phase.HandingOff? && s.phase.was == map[]
    case _ => true
  }

  function Do(s: State, a: Action): (State, Reply)
    requires Enabled(s, a)
  {
    match a
    case Set(k, size, room, room2) => DoSet(s, k, size, room, room2)
    case Add(k, size, room, room2) => DoAdd(s, k, size, room, room2)
    case Replace(k, size) => DoReplace(s, k, size)
    case Get(_) => (s, Silent)
    case Del(k) => DoDel(s, k)
    case Append(k, n) => DoAppend(s, k, n)
    case Prepend(k, n) => DoPrepend(s, k, n)
    case StartCollect => (s.(phase := Building(map[])), Silent)
    case Copy(k, live, room2) => (CopyOne(s, k, live, room2), Silent)
    case Switch => (SwitchTables(s), Silent)
    case ClearBuilding => (s.(phase := HandingOff(s.phase.was)), Silent)
    case Hand(k) => (HandOne(s, k), Silent)
    case EndCollect => (s.(phase := Quiet), Silent)
  }

  const INIT: State := State(map[], Quiet, [], map[], [], 0, [], [], [], {})

  ghost predicate Moves(s: State, s': State) { exists a: Action :: Enabled(s, a) && Do(s, a).0 == s' }

  ghost predicate IsRun(run: seq<State>) {
    && run != [] && run[0] == INIT
    && forall i: nat | i + 1 < |run| :: Moves(run[i], run[i + 1])
  }
}
