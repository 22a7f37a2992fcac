/** The cache object: its methods update the tables, the chains and the byte counter in place, and are
specified by the steps of the model. */
module CacheObject {
  import opened Basics
  import opened Probing
  import opened CacheModel
  import Proofs = CacheProofs

  class Cache {
    var entries: Table
    var phase: Phase
    var ents: seq<Entry>
    var chains: map<nat, Chain>
    var objs: seq<KeyObj>
    var bytes: int
    ghost var told: seq<Event>
    var freed: seq<nat>
    var freedKeys: seq<nat>
    ghost var lost: set<Key>

    ghost function Value(): State
      reads this
    {
      State(entries, phase, ents, chains, objs, bytes, told, freed, freedKeys, lost)
    }

    ghost predicate Valid()
      reads this
    {
      Proofs.Inv(Value())
    }

    constructor ()
      ensures Value() == INIT && Valid()
    {
      entries, phase, ents, chains, objs, bytes := map[], Quiet, [], map[], [], 0;
      told, freed, freedKeys, lost := [], [], [], {};
      new;
      Proofs.InitInv();
    }

    method ChainSize(es: seq<nat>) returns (size: nat)
      ensures size == SumOf(ents, es)
    {
      size := 0;
      var i := 0;
      while i < |es|
        invariant i <= |es|
        invariant size + SumOf(ents, es[i..]) == SumOf(ents, es)
      {
        size := size + if es[i] < |ents| then ents[es[i]].size else 0;
        i := i + 1;
      }
    }

    method LetGo(es: seq<nat>)
      modifies this`ents
      ensures ents == Unheld(old(ents), es)
    {
      ghost var was := ents;
      var i := 0;
      while i < |ents|
        invariant i <= |ents| == |was|
        invariant forall j | 0 <= j < |ents| :: ents[j] == if j < i && j in es then was[j].(held := false) else was[j]
      {
        if i in es { ents := ents[i := ents[i].(held := false)]; }
        i := i + 1;
      }
    }

    /** Walk the chain to add up its sizes, then give the whole of it to the reclaimer. */
    method EntryRelease(b: nat)
      modifies this
      ensures Value() == Release(old(Value()), b)
    {
      var es := if b in chains then chains[b].nodes else [b];
      var size := ChainSize(es);
      bytes := bytes - size;
      freed := freed + es;
      LetGo(es);
    }

    method ChangedValue(was: Option<Ref>)
      modifies this
      ensures Value() == Displaced(old(Value()), was)
    {
      if was.Some? && !was.value.shared { EntryRelease(was.value.base); }
    }

    method CreateEntry(k: Key, size: nat) returns (e: nat)
      modifies this
      ensures e == old(|ents|) && Value() == NewEntry(old(Value()), k, size)
    {
      e := |ents|;
      ents := ents + [Entry(size, false, false, e, k)];
    }

    method StoreBase(k: Key, e: nat, obj: nat)
      requires e < |ents|
      modifies this
      ensures Value() == NewBase(old(Value()), e).(entries := Put(old(entries), k, obj, Ref(e, false)))
    {
      entries := entries[k := Slot(if k in entries then entries[k].obj else obj, Some(Ref(e, false)))];
      chains := chains[e := Chain([e], false)];
      ents := ents[e := ents[e].(stored := true, held := true, base := e)];
      bytes := bytes + ents[e].size;
    }

    method AddVersion(b: nat, e: nat)
      requires e < |ents|
      modifies this
      ensures Value() == AppendVersion(old(Value()), b, e)
    {
      chains := chains[b := Chain((if b in chains then chains[b].nodes else [b]) + [e], false)];
      ents := ents[e := ents[e].(stored := true, held := true, base := b)];
      bytes := bytes + ents[e].size;
    }

    method MarkDeleted(b: nat)
      modifies this
      ensures Value() == old(Value()).(chains := old(chains)[b := Chain(Versions(old(Value()), b), true)])
    {
      chains := chains[b := Chain(if b in chains then chains[b].nodes else [b], true)];
    }

    ghost method Report(ev: Event)
      modifies this
      ensures Value() == Told(old(Value()), ev)
    {
      told, lost := told + [ev], lost - {ev.k};
    }

    method Set(k: Key, size: nat, room: bool, room2: bool) returns (r: Reply)
      requires Valid()
      modifies this
      ensures Valid() && (Value(), r) == DoSet(old(Value()), k, size, room, room2)
    {
      ghost var s := Value();
      r := SetStep(k, size, room, room2);
      Proofs.SetKeeps(s, k, size, room, room2);
    }

    method SetStep(k: Key, size: nat, room: bool, room2: bool) returns (r: Reply)
      modifies this
      ensures (Value(), r) == DoSet(old(Value()), k, size, room, room2)
    {
      var obj, kept := |objs|, k !in entries;
      var e := CreateEntry(k, size);
      if kept && !room {
        objs := objs + [KeyObj(false, false, k)];
        return SetError;
      }
      objs := objs + [KeyObj(kept, kept, k)];
      var was := if kept then None else entries[k].val;
      if phase.Building? {
        if was.Some? {
          AddVersion(was.value.base, e);
        } else {
          StoreBase(k, e, obj);
          if k in phase.shadow || room2 { phase := Building(Put(phase.shadow, k, entries[k].obj, Ref(e, true))); }
        }
      } else {
        StoreBase(k, e, obj);
        ChangedValue(was);
      }
      Report(WasStored(k, e));
      r := Stored;
    }

    method Add(k: Key, size: nat, room: bool, room2: bool) returns (r: Reply)
      requires Valid()
      modifies this
      ensures Valid() && (Value(), r) == DoAdd(old(Value()), k, size, room, room2)
    {
      ghost var s := Value();
      r := AddStep(k, size, room, room2);
      Proofs.AddKeeps(s, k, size, room, room2);
    }

    method AddStep(k: Key, size: nat, room: bool, room2: bool) returns (r: Reply)
      modifies this
      ensures (Value(), r) == DoAdd(old(Value()), k, size, room, room2)
    {
      var obj, kept := |objs|, k !in entries;
      var e := CreateEntry(k, size);
      if kept && !room {
        objs := objs + [KeyObj(false, false, k)];
        return SetError;
      }
      objs := objs + [KeyObj(kept, kept, k)];
      var was := if kept then None else entries[k].val;
      if was.Some? {
        var live := NewestOf(was.value.base);
        if !phase.Building? || live.Some? { return SetError; }
        AddVersion(was.value.base, e);
      } else {
        StoreBase(k, e, obj);
        if phase.Building? {
          if k in phase.shadow && phase.shadow[k].val.Some? {
          } else if k in phase.shadow || room2 {
            phase := Building(Put(phase.shadow, k, entries[k].obj, Ref(e, true)));
          }
        }
      }
      Report(WasStored(k, e));
      r := Stored;
    }

    method Replace(k: Key, size: nat) returns (r: Reply)
      requires Valid()
      modifies this
      ensures Valid() && (Value(), r) == DoReplace(old(Value()), k, size)
    {
      ghost var s := Value();
      r := ReplaceStep(k, size);
      Proofs.ReplaceKeeps(s, k, size);
    }

    method ReplaceStep(k: Key, size: nat) returns (r: Reply)
      modifies this
      ensures (Value(), r) == DoReplace(old(Value()), k, size)
    {
      var e := CreateEntry(k, size);
      if k !in entries || entries[k].val.None? { return SetError; }
      var was := entries[k].val;
      if phase.Building? {
        var live := NewestOf(was.value.base);
        if live.None? { return SetError; }
        AddVersion(was.value.base, e);
      } else {
        StoreBase(k, e, 0);
        ChangedValue(was);
      }
      Report(WasStored(k, e));
      r := Stored;
    }

    method NewestOf(b: nat) returns (r: Option<nat>)
      ensures r == Newest(Value(), b)
    {
      var es := if b in chains then chains[b].nodes else [b];
      r := if es == [] || (b in chains && chains[b].deleted) then None else Some(es[|es| - 1]);
    }

    /** A get returns the latest write that clients were told was stored, or nothing. */
    method Get(k: Key) returns (r: Option<nat>)
      requires Valid()
      ensures r == if k in lost then None else Proofs.Latest(told, k)
    {
      assert Visible(Value(), k) == if k in lost then None else Proofs.Latest(told, k);
      if k in entries && entries[k].val.Some? { r := NewestOf(entries[k].val.value.base); } else { r := None; }
    }

    method Del(k: Key) returns (r: Reply)
      requires Valid()
      modifies this
      ensures Valid() && (Value(), r) == DoDel(old(Value()), k)
    {
      ghost var s := Value();
      r := DelStep(k);
      Proofs.DelKeeps(s, k);
    }

    method DelStep(k: Key) returns (r: Reply)
      modifies this
      ensures (Value(), r) == DoDel(old(Value()), k)
    {
      if k !in entries || entries[k].val.None? { return NotFound; }
      var was := entries[k].val;
      if phase.Building? {
        var live := NewestOf(was.value.base);
        if live.None? { return NotFound; }
        MarkDeleted(was.value.base);
      } else {
        entries := entries[k := entries[k].(val := None)];
        ChangedValue(was);
      }
      Report(WasDeleted(k));
      r := Deleted;
    }
  
    /** Bytes go to the base entry of `k`, even when it has newer versions. */
    method Append(k: Key, n: nat) returns (r: Reply)
      requires Valid()
      modifies this
      ensures Valid() && (Value(), r) == DoAppend(old(Value()), k, n)
    {
      ghost var s := Value();
      r := AppendStep(k, n);
      Proofs.AppendPrependKeep(s, k, n);
    }

    method AppendStep(k: Key, n: nat) returns (r: Reply)
      modifies this
      ensures (Value(), r) == DoAppend(old(Value()), k, n)
    {
      if k !in entries || entries[k].val.None? { return SetError; }
      var e := entries[k].val.value.base;
      if e < |ents| {
        bytes := bytes + n;
        ents := ents[e := ents[e].(size := ents[e].size + n)];
      }
      r := Stored;
    }

    /** Bytes go to the newest version of `k`. */
    method Prepend(k: Key, n: nat) returns (r: Reply)
      requires Valid()
      modifies this
      ensures Valid() && (Value(), r) == DoPrepend(old(Value()), k, n)
    {
      ghost var s := Value();
      r := PrependStep(k, n);
      Proofs.AppendPrependKeep(s, k, n);
    }

    method PrependStep(k: Key, n: nat) returns (r: Reply)
      modifies this
      ensures (Value(), r) == DoPrepend(old(Value()), k, n)
    {
      if k !in entries || entries[k].val.None? { return SetError; }
      var e := NewestOf(entries[k].val.value.base);
      if e.None? { return SetError; }
      if e.value < |ents| {
        bytes := bytes + n;
        ents := ents[e.value := ents[e.value].(size := ents[e.value].size + n)];
      }
      r := Stored;
    }

    // -------------------------------------------------------------- collecting

    /** `add_shared` of one live entry into the table being built, which may have no bucket for it. */
    method CopyEntry(k: Key, live: bool, room: bool)
      requires phase.Building?
      modifies this`phase
      ensures Value() == CopyOne(old(Value()), k, live, room)
    {
      if k !in entries || entries[k].val.None? || !live { return; }
      var b := entries[k].val.value.base;
      var e := NewestOf(b);
      if e.Some? && if k in phase.shadow then phase.shadow[k].val.None? else room {
        phase := Building(Put(phase.shadow, k, entries[k].obj, Ref(b, true)));
      }
    }

    method DropKey(o: nat)
      modifies this
      ensures Value() == ReleaseKey(old(Value()), o)
    {
      if o < |objs| { objs := objs[o := objs[o].(held := false)]; }
      freedKeys := freedKeys + [o];
    }

    /** `exclusive` and the reset of the old bucket. */
    method HandOver(k: Key)
      requires phase.HandingOff? && k in phase.was
      modifies this
      ensures Value() == HandOne(old(Value()), k)
    {
      var slot := phase.was[k];
      phase := HandingOff(phase.was - {k});
      if k !in entries || entries[k].obj != slot.obj { DropKey(slot.obj); }
      if slot.val.Some? {
        var b := slot.val.value.base;
        if k !in entries {
          ChangedValue(slot.val);
        } else if entries[k].val == Some(Ref(b, true)) {
          entries := entries[k := entries[k].(val := Some(Ref(b, false)))];
        } else {
          EntryRelease(b);
        }
      }
    }

    /** The copying loop: every live entry of the old table for which the new one has a bucket is shared. */
    method CopyAll(live: Key -> bool, room: Key -> bool)
      requires phase == Building(map[])
      modifies this`phase
      ensures phase.Building? && Proofs.ShadowIsSubmap(Value())
      ensures forall x :: Find(phase.shadow, x) == Kept(old(Value()), x, live(x) && room(x))
      ensures Collects(old(Value()), Value())
    {
      CollectsNothing(Value());
      var todo := entries.Keys;
      while todo != {}
        invariant todo <= entries.Keys && CopiedAlready(old(Value()), Value(), todo, live, room)
        invariant Collects(old(Value()), Value())
        decreases |todo|
      {
        var k :| k in todo;
        CollectsMore(old(Value()), Value(), Copy(k, live(k), room(k)));
        CopyTurn(old(Value()), Value(), todo, k, live, room);
        CopyEntry(k, live(k), room(k));
        todo := todo - {k};
      }
    }

    /** `_entries` becomes the new table. */
    method SwitchOver()
      requires phase.Building?
      modifies this
      ensures Value() == SwitchTables(old(Value()))
    {
      ghost var s := Value();
      lost := SwitchTables(s).lost;
      entries, phase := phase.shadow, Switched(entries);
    }

    /** The hand-off loop: every bucket of the old table is handed over or released. */
    method HandOverAll()
      requires Valid() && phase.HandingOff?
      modifies this
      ensures Valid() && phase == HandingOff(map[])
      ensures told == old(told) && lost == old(lost)
      ensures forall x :: Visible(Value(), x) == Visible(old(Value()), x)
      ensures Collects(old(Value()), Value())
    {
      CollectsNothing(Value());
      var todo := phase.was.Keys;
      while todo != {}
        invariant Valid() && phase.HandingOff? && phase.was.Keys == todo
        invariant told == old(told) && lost == old(lost)
        invariant forall x :: Visible(Value(), x) == Visible(old(Value()), x)
        invariant Collects(old(Value()), Value())
        decreases |todo|
      {
        var k :| k in todo;
        CollectsMore(old(Value()), Value(), Hand(k));
        Proofs.HandKeeps(Value(), k);
        HandVisible(Value(), k);
        HandOver(k);
        todo := todo - {k};
      }
      assert phase.was == map[];
    }

    /** The first half: build the new table and switch to it. */
    method Migrate(live: Key -> bool, room: Key -> bool)
      requires Valid() && phase.Quiet?
      modifies this
      ensures Valid() && phase.Switched? && told == old(told)
      ensures forall x :: Visible(Value(), x) == if live(x) && room(x) then Visible(old(Value()), x) else None
      ensures Collects(old(Value()), Value())
    {
      ghost var s := Value();
      phase := Building(map[]);
      ghost var s1 := Value();
      CopyAll(live, room);
      MigrateKeeps(s, Value(), x => live(x) && room(x));
      Migrates(s, s1, Value());
      SwitchOver();
    }

    /** The second half: clear `_building` and take exclusive ownership. */
    method TakeOver()
      requires Valid() && phase.Switched?
      modifies this
      ensures Valid() && phase.Quiet? && told == old(told)
      ensures forall x :: Visible(Value(), x) == Visible(old(Value()), x)
      ensures Collects(old(Value()), Value())
    {
      ghost var s := Value();
      Proofs.PhaseKeeps(s, HandingOff(phase.was));
      PhaseVisible(s, HandingOff(phase.was));
      phase := HandingOff(phase.was);
      ghost var s1 := Value();
      HandOverAll();
      TakesOver(s, s1, Value());
      Proofs.PhaseKeeps(Value(), Quiet);
      PhaseVisible(Value(), Quiet);
      phase := Quiet;
    }

    /** A collection with no client in between runs through the steps of the collector, and keeps exactly the live
        entries for which the new table has a bucket, each under its newest version; everything is then owned by
        the new table or released. */
    method Collect(live: Key -> bool, room: Key -> bool)
      requires Valid() && phase.Quiet?
      modifies this
      ensures Valid() && phase.Quiet? && told == old(told)
      ensures forall x :: Visible(Value(), x) == if live(x) && room(x) then Visible(old(Value()), x) else None
      ensures Collects(old(Value()), Value())
    {
      ghost var s := Value();
      Migrate(live, room);
      ghost var m := Value();
      TakeOver();
      CollectsOn(s, m, Value());
    }
  }

  predicate Collector(a: Action) {
    a.StartCollect? || a.Copy? || a.Switch? || a.ClearBuilding? || a.Hand? || a.EndCollect?
  }

  ghost predicate Turn(s: State, s': State) {
    exists a: Action :: Collector(a) && Enabled(s, a) && Do(s, a).0 == s'
  }

  ghost predicate Turns(run: seq<State>) { forall i: nat | i + 1 < |run| :: TurnAt(run, i) }

  ghost predicate TurnAt(run: seq<State>, i: nat) { i + 1 < |run| && Turn(run[i], run[i + 1]) }

  /** Steps of the collector alone lead from `s` to `s'`. */
  ghost predicate Collects(s: State, s': State) {
    exists run: seq<State> :: run != [] && run[0] == s && run[|run| - 1] == s' && Turns(run)
  }

  lemma CollectsNothing(s: State)
    ensures Collects(s, s)
  {
    var run := [s];
    assert run[0] == s && run[|run| - 1] == s && Turns(run);
  }

  lemma CollectsOn(s: State, m: State, s': State)
    requires Collects(s, m) && Collects(m, s')
    ensures Collects(s, s')
  {
    var a: seq<State> :| a != [] && a[0] == s && a[|a| - 1] == m && Turns(a);
    var b: seq<State> :| b != [] && b[0] == m && b[|b| - 1] == s' && Turns(b);
    var run := a + b[1..];
    forall i: nat | i + 1 < |run| ensures TurnAt(run, i) {
      if i + 1 < |a| { assert TurnAt(a, i); } else { assert TurnAt(b, i + 1 - |a|); }
    }
    assert run[0] == s && run[|run| - 1] == s';
  }

  lemma CollectsMore(s: State, m: State, a: Action)
    requires Collects(s, m) && Collector(a) && Enabled(m, a)
    ensures Collects(s, Do(m, a).0)
  {
    var s' := Do(m, a).0;
    var run := [m, s'];
    assert Turn(m, s') && TurnAt(run, 0);
    assert run[0] == m && run[|run| - 1] == s' && Turns(run);
    CollectsOn(s, m, s');
  }

  lemma Migrates(s: State, s1: State, s2: State)
    requires s.phase.Quiet? && s1 == s.(phase := Building(map[])) && Collects(s1, s2) && s2.phase.Building?
    ensures Collects(s, SwitchTables(s2))
  {
    CollectsNothing(s);
    CollectsMore(s, s, StartCollect);
    CollectsOn(s, s1, s2);
    CollectsMore(s, s2, Switch);
  }

  lemma TakesOver(s: State, s1: State, s2: State)
    requires s.phase.Switched? && s1 == s.(phase := HandingOff(s.phase.was)) && Collects(s1, s2)
    requires s2.phase == HandingOff(map[])
    ensures Collects(s, s2.(phase := Quiet))
  {
    CollectsNothing(s);
    CollectsMore(s, s, ClearBuilding);
    CollectsOn(s, s1, s2);
    CollectsMore(s, s2, EndCollect);
  }

  /** The shadow after the keys outside `todo` have been looked at. */
  ghost predicate CopiedAlready(s0: State, s: State, todo: set<Key>, live: Key -> bool, room: Key -> bool) {
    && s.phase.Building? && s == s0.(phase := s.phase) && Proofs.ShadowIsSubmap(s) && s.phase.shadow.Keys !! todo
    && forall x :: Find(s.phase.shadow, x) == Kept(s0, x, x !in todo && live(x) && room(x))
  }

  lemma CopyTurn(s0: State, s: State, todo: set<Key>, k: Key, live: Key -> bool, room: Key -> bool)
    requires CopiedAlready(s0, s, todo, live, room) && k in todo
    ensures CopiedAlready(s0, CopyOne(s, k, live(k), room(k)), todo - {k}, live, room)
  {
    Proofs.CopyKeepsSubmap(s, k, live(k), room(k));
    CopyFinds(s, k, live(k), room(k));
    assert Kept(s0, k, live(k) && room(k)) == Kept(s, k, live(k) && room(k));
  }

  lemma MigrateKeeps(s: State, s': State, live: Key -> bool)
    requires Proofs.Inv(s) && s.phase.Quiet? && s'.phase.Building? && s' == s.(phase := s'.phase)
    requires Proofs.ShadowIsSubmap(s')
    requires forall x :: Find(s'.phase.shadow, x) == Kept(s, x, live(x))
    ensures Proofs.Inv(SwitchTables(s'))
    ensures forall x :: Visible(SwitchTables(s'), x) == if live(x) then Visible(s, x) else None
  {
    Proofs.ShadowKeeps(s, s'.phase.shadow);
    Proofs.SwitchKeeps(s');
    SwitchShows(s, s', live);
  }

  lemma PhaseVisible(s: State, ph: Phase)
    ensures forall x :: Visible(s.(phase := ph), x) == Visible(s, x)
  {
  }

  /** What the copying loop leaves in the new table. */
  function Kept(s: State, k: Key, live: bool): Option<nat> {
    if live && Visible(s, k).Some? then Find(s.entries, k) else None
  }

  lemma CopyFinds(s: State, k: Key, live: bool, room: bool)
    requires s.phase.Building? && k !in s.phase.shadow
    ensures var s' := CopyOne(s, k, live, room);
            && s'.phase.Building? && s'.phase.shadow.Keys <= s.phase.shadow.Keys + {k}
            && forall x :: Find(s'.phase.shadow, x) ==
                           if x == k then Kept(s, k, live && room) else Find(s.phase.shadow, x)
  {
  }

  lemma HandVisible(s: State, k: Key)
    requires Proofs.Inv(s) && s.phase.HandingOff? && k in s.phase.was
    ensures var s' := HandOne(s, k); s'.phase == HandingOff(s.phase.was - {k}) && s'.told == s.told && s'.lost == s.lost
    ensures forall x :: Visible(HandOne(s, k), x) == Visible(s, x)
  {
    Proofs.AfterKeyVisible(s, k);
    Proofs.HandInSteps(s, k);
    if Proofs.ToRelease(s, k).Some? { Proofs.ReleaseVisible(Proofs.AfterKey(s, k), Proofs.ToRelease(s, k).value.base); }
  }

  lemma SwitchShows(s: State, s': State, live: Key -> bool)
    requires s'.phase.Building? && s' == s.(phase := s'.phase)
    requires forall x :: Find(s'.phase.shadow, x) == Kept(s, x, live(x))
    ensures forall x :: Visible(SwitchTables(s'), x) == if live(x) then Visible(s, x) else None
  {
    forall x ensures Visible(SwitchTables(s'), x) == if live(x) then Visible(s, x) else None {
      assert Find(s'.phase.shadow, x) == Kept(s, x, live(x));
    }
  }
}
