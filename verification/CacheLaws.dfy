/** What each operation of the cache and each step of its collector does, in terms of replies and of what gets
find before and after (src/cache.cc). */
module CacheLaws {
  import opened Basics
  import opened Probing
  import opened CacheModel
  import Proofs = CacheProofs

  // ---------------------------------------------------------------- client operations

  /** Gets of other keys find what they found. */
  ghost predicate OthersFind(s: State, s': State, k: Key) { forall x | x != k :: Visible(s', x) == Visible(s, x) }

  ghost predicate AllFind(s: State, s': State) { forall x :: Visible(s', x) == Visible(s, x) }

  /** Entries made before keep their sizes. */
  ghost predicate SizesKept(s: State, s': State) {
    |s'.ents| >= |s.ents| && forall e | 0 <= e < |s.ents| :: s'.ents[e].size == s.ents[e].size
  }

  /** A client leaves the collection where it is, and in the table being built touches at most the slot of `k`. */
  ghost predicate CollectionKept(s: State, s': State, k: Key) {
    if s.phase.Building? then
      s'.phase.Building? && forall x | x != k :: Find(s'.phase.shadow, x) == Find(s.phase.shadow, x)
    else s'.phase == s.phase
  }

  /** The operation was reported stored: its entry, of the size given, is what gets of `k` now find. */
  ghost predicate StoresNew(s: State, s': State, k: Key, size: nat) {
    var e := |s.ents|;
    && s'.told == s.told + [WasStored(k, e)] && Visible(s', k) == Some(e)
    && |s'.ents| == e + 1 && s'.ents[e].size == size && s'.ents[e].key == k
  }

  /** The operation was refused: nothing was reported, and gets find what they found. */
  ghost predicate Refuses(s: State, s': State) { s'.told == s.told && AllFind(s, s') }

  /** What a get or a collection may rely on after any client operation on `k`. */
  ghost predicate Around(s: State, s': State, k: Key) {
    OthersFind(s, s', k) && SizesKept(s, s') && CollectionKept(s, s', k)
  }

  /** The table being built learns of a new base that was stored in a slot without a value, if it has a bucket for
      it. */
  ghost predicate SharesNew(s: State, s': State, k: Key, room2: bool) {
    s.phase.Building? && s'.phase.Building? ==>
      Find(s'.phase.shadow, k) ==
        if Find(s.entries, k).None? && (k in s.phase.shadow || room2) then Find(s'.entries, k)
        else Find(s.phase.shadow, k)
  }

  // ---------------------------------------------------------------- the building blocks

  /** The same gets, reports, phase and sizes. */
  ghost predicate Alike(s: State, s': State) {
    && AllFind(s, s') && s'.told == s.told && s'.phase == s.phase && s'.entries == s.entries && SizesKept(s, s')
    && forall e | 0 <= e < |s.ents| :: s'.ents[e].key == s.ents[e].key
  }

  lemma ReleasedAlike(s: State, was: Option<Ref>)
    ensures Alike(s, Displaced(s, was)) && |Displaced(s, was).ents| == |s.ents|
  {
    if was.Some? && !was.value.shared { Proofs.ReleaseVisible(s, was.value.base); }
  }

  /** A state in which an operation on `k` has made its entry, the last one, and not stored it. */
  ghost predicate Made(t: State, k: Key, size: nat) {
    && t.ents != [] && Proofs.Loose(t, |t.ents| - 1, k) && t.ents[|t.ents| - 1].size == size
    && Proofs.RefsIn(t, t.entries) && Proofs.Chains(t)
  }

  lemma MakingOne(s: State, k: Key, size: nat)
    requires Proofs.RefsIn(s, s.entries) && Proofs.Chains(s)
    ensures var t := NewEntry(s, k, size); Made(t, k, size) && Alike(s, t)
  {
    var t := NewEntry(s, k, size);
    forall b | b in t.chains ensures Proofs.ChainOk(t, b) { assert Proofs.ChainOk(s, b); }
    forall x | x in t.entries && t.entries[x].val.Some? ensures Proofs.Based(t, t.entries[x].val.value.base, x) {
      assert Proofs.Based(s, s.entries[x].val.value.base, x);
    }
  }

  lemma WithKeyMade(t: State, k: Key, size: nat, kept: bool)
    requires Made(t, k, size)
    ensures Made(KeepKey(t, k, kept), k, size) && Alike(t, KeepKey(t, k, kept))
  {
    var u := KeepKey(t, k, kept);
    forall b | b in u.chains ensures Proofs.ChainOk(u, b) { assert Proofs.ChainOk(t, b); }
    forall x | x in u.entries && u.entries[x].val.Some? ensures Proofs.Based(u, u.entries[x].val.value.base, x) {
      assert Proofs.Based(t, t.entries[x].val.value.base, x);
    }
  }

  lemma Making(s: State, k: Key, size: nat, kept: bool)
    requires Proofs.RefsIn(s, s.entries) && Proofs.Chains(s)
    ensures var t := NewEntry(s, k, size); Made(t, k, size) && Alike(s, t)
    ensures var t := KeepKey(NewEntry(s, k, size), k, kept); Made(t, k, size) && Alike(s, t)
  {
    MakingOne(s, k, size);
    WithKeyMade(NewEntry(s, k, size), k, size, kept);
  }

  /** What storing the entry made does. */
  ghost predicate StoresMade(t: State, s': State, k: Key, size: nat) {
    && t.ents != []
    && var e := |t.ents| - 1;
       && OthersFind(t, s', k) && SizesKept(t, s') && |s'.ents| == |t.ents|
       && s'.told == t.told + [WasStored(k, e)] && Visible(s', k) == Some(e)
       && s'.ents[e].size == size && s'.ents[e].key == k
  }

  lemma AppendOthers(t: State, k: Key, b: nat, e: nat)
    requires Proofs.RefsIn(t, t.entries) && e < |t.ents| && Find(t.entries, k) == Some(b)
    ensures OthersFind(t, AppendVersion(t, b, e), k) && Visible(AppendVersion(t, b, e), k) == Some(e)
  {
    assert Proofs.Based(t, b, k);
    Proofs.OtherVisible(t, AppendVersion(t, b, e), k);
  }

  lemma AppendStores(t: State, k: Key, size: nat, b: nat)
    requires Made(t, k, size) && Find(t.entries, k) == Some(b)
    ensures var e := |t.ents| - 1; var s' := Told(AppendVersion(t, b, e), WasStored(k, e));
            StoresMade(t, s', k, size) && s'.phase == t.phase && s'.entries == t.entries
  {
    var e := |t.ents| - 1;
    AppendOthers(t, k, b, e);
    ToldAlike(AppendVersion(t, b, e), WasStored(k, e));
  }

  lemma BaseStores(t: State, s2: State, k: Key, size: nat, o: nat, was: Option<Ref>)
    requires Made(t, k, size)
    requires var e := |t.ents| - 1;
             s2 == NewBase(t, e).(entries := Put(t.entries, k, o, Ref(e, false)), phase := s2.phase)
    ensures var e := |t.ents| - 1; var s' := Told(Displaced(s2, was), WasStored(k, e));
            StoresMade(t, s', k, size) && s'.phase == s2.phase && s'.entries == s2.entries
  {
    var e := |t.ents| - 1;
    Proofs.LooseApart(t, e, k);
    Proofs.OtherVisible(t, s2, k);
    ReleasedAlike(s2, was);
    ToldAlike(Displaced(s2, was), WasStored(k, e));
  }

  lemma ToldAlike(s: State, ev: Event)
    ensures AllFind(s, Told(s, ev))
  {
  }

  lemma ThroughMade(s: State, t: State, s': State, k: Key, size: nat)
    requires Alike(s, t) && |t.ents| == |s.ents| + 1 && StoresMade(t, s', k, size)
    ensures OthersFind(s, s', k) && SizesKept(s, s') && StoresNew(s, s', k, size)
  {
  }

  // ---------------------------------------------------------------- set and add

  /** Storing in a slot without a value during a build. */
  lemma ShadowedStores(s: State, k: Key, size: nat, shadow: Table)
    requires Proofs.Inv(s) && s.phase.Building? && Find(s.entries, k).None?
    requires forall x | x != k :: Find(shadow, x) == Find(s.phase.shadow, x)
    ensures var e := |s.ents|; var s' := Told(SetShadowed(NewEntry(s, k, size), k, e, shadow), WasStored(k, e));
            && Around(s, s', k) && StoresNew(s, s', k, size)
            && s'.phase == Building(shadow) && Find(s'.entries, k) == Some(e)
  {
    var e, t := |s.ents|, KeepKey(NewEntry(s, k, size), k, k !in s.entries);
    Making(s, k, size, k !in s.entries);
    var s2 := SetShadowed(NewEntry(s, k, size), k, e, shadow);
    BaseStores(t, s2, k, size, |s.objs|, None);
    ThroughMade(s, t, Told(s2, WasStored(k, e)), k, size);
  }

  lemma VersionStores(s: State, t: State, k: Key, size: nat)
    requires Proofs.Inv(s) && Find(s.entries, k).Some?
    requires t == NewEntry(s, k, size) || t == KeepKey(NewEntry(s, k, size), k, false)
    ensures var e := |s.ents|; var s' := Told(AppendVersion(t, Find(s.entries, k).value, e), WasStored(k, e));
            Around(s, s', k) && StoresNew(s, s', k, size) && s'.phase == s.phase
  {
    var e := |s.ents|;
    Making(s, k, size, false);
    AppendStores(t, k, size, Find(s.entries, k).value);
    ThroughMade(s, t, Told(AppendVersion(t, Find(s.entries, k).value, e), WasStored(k, e)), k, size);
  }

  lemma PlainStores(s: State, k: Key, size: nat)
    requires Proofs.Inv(s) && !s.phase.Building?
    ensures var e := |s.ents|; var s' := Told(SetPlain(NewEntry(s, k, size), k, e), WasStored(k, e));
            Around(s, s', k) && StoresNew(s, s', k, size)
  {
    var e, t := |s.ents|, KeepKey(NewEntry(s, k, size), k, k !in s.entries);
    Making(s, k, size, k !in s.entries);
    var was := if k in s.entries then s.entries[k].val else None;
    var s2 := NewBase(t, e).(entries := Put(t.entries, k, |s.objs|, Ref(e, false)));
    BaseStores(t, s2, k, size, |s.objs|, was);
    ThroughMade(s, t, Told(Displaced(s2, was), WasStored(k, e)), k, size);
  }

  lemma RefusedAround(s: State, k: Key, size: nat)
    requires Proofs.Inv(s)
    ensures var s' := KeepKey(NewEntry(s, k, size), k, false); Around(s, s', k) && Refuses(s, s') && s'.phase == s.phase
    ensures var s' := NewEntry(s, k, size); Around(s, s', k) && Refuses(s, s') && s'.phase == s.phase
  {
    Making(s, k, size, false);
  }

  /** What set and add promise when they store. */
  ghost predicate Stores(s: State, s': State, r: Reply, k: Key, size: nat, room2: bool) {
    r == Stored && Around(s, s', k) && StoresNew(s, s', k, size) && SharesNew(s, s', k, room2)
  }

  ghost predicate Declines(s: State, s': State, r: Reply, k: Key) {
    r == SetError && Around(s, s', k) && Refuses(s, s') && s'.phase == s.phase
  }

  lemma SetBuilding(s: State, k: Key, size: nat, room: bool, room2: bool)
    requires Proofs.Inv(s) && s.phase.Building? && HasRoom(s.entries, k, room)
    ensures var (s', r) := DoSet(s, k, size, room, room2); Stores(s, s', r, k, size, room2)
  {
    if Find(s.entries, k).Some? {
      VersionStores(s, KeepKey(NewEntry(s, k, size), k, false), k, size);
    } else {
      NoneInShadow(s, k);
      ShadowedStores(s, k, size, ShareSet(s.phase.shadow, k, ObjFor(s, k), |s.ents|, room2));
    }
  }

  /** `set` is stored exactly when its key has a bucket or finds one. */
  lemma SetLaw(s: State, k: Key, size: nat, room: bool, room2: bool)
    requires Proofs.Inv(s)
    ensures var (s', r) := DoSet(s, k, size, room, room2);
            if k in s.entries || room then Stores(s, s', r, k, size, room2) else Declines(s, s', r, k)
  {
    if !HasRoom(s.entries, k, room) { RefusedAround(s, k, size); }
    else if s.phase.Building? { SetBuilding(s, k, size, room, room2); }
    else { PlainStores(s, k, size); }
  }

  lemma AddBuilding(s: State, k: Key, size: nat, room: bool, room2: bool)
    requires Proofs.Inv(s) && s.phase.Building? && HasRoom(s.entries, k, room) && Visible(s, k).None?
    ensures var (s', r) := DoAdd(s, k, size, room, room2); Stores(s, s', r, k, size, room2)
  {
    if Find(s.entries, k).Some? {
      VersionStores(s, KeepKey(NewEntry(s, k, size), k, false), k, size);
    } else {
      NoneInShadow(s, k);
      ShadowedStores(s, k, size, ShareAdd(s.phase.shadow, k, ObjFor(s, k), |s.ents|, room2));
    }
  }

  /** `add` is stored exactly when its key has a bucket or finds one, and has no value; during a build, a value whose
      newest version is deleted counts as none. */
  lemma AddLaw(s: State, k: Key, size: nat, room: bool, room2: bool)
    requires Proofs.Inv(s)
    ensures var (s', r) := DoAdd(s, k, size, room, room2);
            var free := if s.phase.Building? then Visible(s, k).None? else Find(s.entries, k).None?;
            if (k in s.entries || room) && free then Stores(s, s', r, k, size, room2) else Declines(s, s', r, k)
  {
    if !HasRoom(s.entries, k, room) { RefusedAround(s, k, size); }
    else if s.phase.Building? && Visible(s, k).None? { AddBuilding(s, k, size, room, room2); }
    else if Find(s.entries, k).Some? { RefusedAround(s, k, size); }
    else { PlainStores(s, k, size); }
  }

  /** The table being built has no value that the one in use has not. */
  lemma NoneInShadow(s: State, k: Key)
    requires Proofs.ShadowIsSubmap(s) && s.phase.Building?
    ensures Find(s.phase.shadow, k).Some? ==> Find(s.phase.shadow, k) == Find(s.entries, k)
  {
    if k in s.phase.shadow { assert k in Proofs.Shadow(s); }
  }

  // ---------------------------------------------------------------- replace and delete

  /** `replace` is stored exactly when its key has a value; during a build, one that is not deleted. */
  lemma ReplaceLaw(s: State, k: Key, size: nat)
    requires Proofs.Inv(s)
    ensures var (s', r) := DoReplace(s, k, size);
            && Around(s, s', k) && s'.phase == s.phase
            && (r == Stored <==> if s.phase.Building? then Visible(s, k).Some? else Find(s.entries, k).Some?)
            && if r == Stored then StoresNew(s, s', k, size) else r == SetError && Refuses(s, s')
  {
    RefusedAround(s, k, size);
    if Find(s.entries, k).Some? {
      if s.phase.Building? { VersionStores(s, NewEntry(s, k, size), k, size); } else { PlainReplaces(s, k, size); }
    }
  }

  lemma PlainReplaces(s: State, k: Key, size: nat)
    requires Proofs.Inv(s) && !s.phase.Building? && Find(s.entries, k).Some?
    ensures var s' := DoReplace(s, k, size).0; Around(s, s', k) && StoresNew(s, s', k, size) && s'.phase == s.phase
  {
    var e, t := |s.ents|, NewEntry(s, k, size);
    Making(s, k, size, false);
    var s2 := NewBase(t, e).(entries := s.entries[k := s.entries[k].(val := Some(Ref(e, false)))]);
    assert s2.entries == Put(t.entries, k, 0, Ref(e, false));
    BaseStores(t, s2, k, size, 0, s.entries[k].val);
    ThroughMade(s, t, Told(Displaced(s2, s.entries[k].val), WasStored(k, e)), k, size);
  }

  /** The operation was reported deleted: gets of `k` now find nothing. */
  ghost predicate DeletesIt(s: State, s': State, k: Key) {
    s'.told == s.told + [WasDeleted(k)] && Visible(s', k).None?
  }

  /** `del` is reported deleted exactly when its key has a value; during a build, one that is not deleted. Otherwise
      nothing changes at all. */
  lemma DelLaw(s: State, k: Key)
    requires Proofs.Inv(s)
    ensures var (s', r) := DoDel(s, k);
            && Around(s, s', k) && s'.phase == s.phase
            && (r == Deleted <==> if s.phase.Building? then Visible(s, k).Some? else Find(s.entries, k).Some?)
            && if r == Deleted then DeletesIt(s, s', k) else r == NotFound && s' == s
  {
    if Find(s.entries, k).Some? {
      var b := Find(s.entries, k).value;
      assert Proofs.Based(s, b, k);
      if !s.phase.Building? {
        PlainDeletes(s, k);
      } else {
        Proofs.OtherVisible(s, DoDel(s, k).0, k);
      }
    }
  }

  lemma PlainDeletes(s: State, k: Key)
    requires Proofs.RefsIn(s, s.entries) && !s.phase.Building? && Find(s.entries, k).Some?
    ensures var s' := DoDel(s, k).0; Around(s, s', k) && DeletesIt(s, s', k) && s'.phase == s.phase
  {
    var s2 := s.(entries := s.entries[k := s.entries[k].(val := None)]);
    Proofs.OtherVisible(s, s2, k);
    ReleasedAlike(s2, s.entries[k].val);
    ToldAlike(Displaced(s2, s.entries[k].val), WasDeleted(k));
  }

  // ---------------------------------------------------------------- append, prepend and get

  /** Entry `e` grows by `n` bytes, and nothing else about the entries changes. */
  ghost predicate OnlyGrows(s: State, s': State, e: nat, n: nat) {
    e < |s.ents| && s' == s.(ents := s.ents[e := s.ents[e].(size := s.ents[e].size + n)], bytes := s.bytes + n)
  }

  /** `append` grows the base entry of its key, and `prepend` the newest version, by what it is given. */
  lemma GrowLaw(s: State, k: Key, n: nat)
    requires Proofs.Inv(s)
    ensures var (s', r) := DoAppend(s, k, n);
            if Find(s.entries, k).Some? then r == Stored && OnlyGrows(s, s', Find(s.entries, k).value, n)
            else r == SetError && s' == s
    ensures var (s', r) := DoPrepend(s, k, n);
            if Visible(s, k).Some? then r == Stored && OnlyGrows(s, s', Visible(s, k).value, n)
            else r == SetError && s' == s
  {
    if Find(s.entries, k).Some? {
      var b := Find(s.entries, k).value;
      assert Proofs.Based(s, b, k) && Proofs.ChainOk(s, b);
      if Newest(s, b).Some? { assert Newest(s, b).value in s.chains[b].nodes; }
    }
  }

  /** A get changes nothing. */
  lemma GetLaw(s: State, k: Key)
    ensures Enabled(s, Get(k)) && Do(s, Get(k)).0 == s
  {
  }

  // ---------------------------------------------------------------- the collector

  /** A collector step other than the switch changes no get, no report and no entry's size. */
  ghost predicate Quietly(s: State, s': State) {
    AllFind(s, s') && s'.told == s.told && SizesKept(s, s') && |s'.ents| == |s.ents|
  }

  /** A collection starts with an empty new table. */
  lemma StartLaw(s: State)
    requires s.phase.Quiet?
    ensures var s' := Do(s, StartCollect).0; Quietly(s, s') && s'.phase == Building(map[]) && s'.entries == s.entries
  {
  }

  /** A copying turn shares the entry of its key when it is live and the new table has a bucket for it. */
  lemma CopyLaw(s: State, k: Key, live: bool, room2: bool)
    requires Proofs.ShadowIsSubmap(s) && s.phase.Building?
    ensures var s' := Do(s, Copy(k, live, room2)).0;
            && Quietly(s, s') && s'.entries == s.entries && s'.phase.Building?
            && (forall x | x != k :: Find(s'.phase.shadow, x) == Find(s.phase.shadow, x))
            && Find(s'.phase.shadow, k) ==
               if live && Visible(s, k).Some? && (k in s.phase.shadow || room2)
               then Find(s.entries, k) else Find(s.phase.shadow, k)
  {
    NoneInShadow(s, k);
  }

  /** After the switch, gets find what has been shared, and nothing else. */
  lemma SwitchLaw(s: State, k: Key)
    requires Proofs.ShadowIsSubmap(s) && s.phase.Building?
    ensures var s' := Do(s, Switch).0;
            && s'.phase == Switched(s.entries) && s'.told == s.told && s'.ents == s.ents
            && Visible(s', k) == if Find(s.phase.shadow, k).Some? then Visible(s, k) else None
  {
    NoneInShadow(s, k);
  }

  lemma ClearLaw(s: State)
    requires s.phase.Switched?
    ensures var s' := Do(s, ClearBuilding).0;
            Quietly(s, s') && s'.phase == HandingOff(s.phase.was) && s'.entries == s.entries
  {
  }

  /** A hand-off turn takes one slot out of the old table. */
  lemma HandLaw(s: State, k: Key)
    requires Proofs.Inv(s) && s.phase.HandingOff? && k in s.phase.was
    ensures var s' := Do(s, Hand(k)).0; Quietly(s, s') && s'.phase == HandingOff(s.phase.was - {k})
  {
    Proofs.AfterKeyVisible(s, k);
    Proofs.HandInSteps(s, k);
    ReleasedAlike(Proofs.AfterKey(s, k), Proofs.ToRelease(s, k));
  }

  lemma EndLaw(s: State)
    requires Enabled(s, EndCollect)
    ensures var s' := Do(s, EndCollect).0; Quietly(s, s') && s'.phase == Quiet && s'.entries == s.entries
  {
  }

  // ---------------------------------------------------------------- what a switch loses

  /** The states of a run and the actions between them. */
  ghost predicate IsActed(run: seq<State>, acts: seq<Action>) {
    && run != [] && |acts| == |run| - 1 && run[0] == INIT
    && forall i: nat | i < |acts| :: ActsAt(run, acts, i)
  }

  ghost predicate ActsAt(run: seq<State>, acts: seq<Action>, i: nat) {
    i + 1 < |run| && i < |acts| && Enabled(run[i], acts[i]) && Do(run[i], acts[i]).0 == run[i + 1]
  }

  lemma {:induction false} ActedInv(run: seq<State>, acts: seq<Action>, i: nat)
    requires IsActed(run, acts) && i < |run|
    ensures Proofs.Inv(run[i])
    decreases i
  {
    if i == 0 {
      Proofs.InitInv();
    } else {
      ActedInv(run, acts, i - 1);
      assert ActsAt(run, acts, i - 1);
      Proofs.StepKeeps(run[i - 1], acts[i - 1]);
    }
  }

  /** `a` is an attempt to share `k` with the table being built: a set or add that stores it in a slot without a
      value, or a copying turn that finds it live. */
  predicate Attempts(s: State, a: Action, k: Key) {
    match a
    case Set(x, _, room, _) => x == k && Find(s.entries, k).None? && (k in s.entries || room)
    case Add(x, _, room, _) => x == k && Find(s.entries, k).None? && (k in s.entries || room)
    case Copy(x, live, _) => x == k && live && Visible(s, k).Some?
    case _ => false
  }

  /** The new table has a bucket for `k`, or finds one. */
  predicate HasBucket(s: State, a: Action, k: Key) {
    s.phase.Building? && (k in s.phase.shadow || ((a.Set? || a.Add? || a.Copy?) && a.room2))
  }

  /** Steps `i` to `j` of the run build a table, begun at step `i`. */
  ghost predicate Builds(run: seq<State>, acts: seq<Action>, i: nat, j: nat) {
    i < j < |run| && |acts| == |run| - 1 && acts[i] == StartCollect && forall m | i < m <= j :: run[m].phase.Building?
  }

  ghost predicate SharedAt(run: seq<State>, acts: seq<Action>, m: nat, k: Key) {
    m < |run| && m < |acts| && Attempts(run[m], acts[m], k) && HasBucket(run[m], acts[m], k)
  }

  /** During a build no value leaves the table in use, or is exchanged for another base. */
  lemma ValueStays(s: State, a: Action, k: Key)
    requires Proofs.Inv(s) && s.phase.Building? && Enabled(s, a) && Do(s, a).0.phase.Building?
    ensures Find(s.entries, k).Some? ==> Find(Do(s, a).0.entries, k) == Find(s.entries, k)
  {
  }

  ghost predicate Builds1(s: State, a: Action, s': State, k: Key) {
    s.phase.Building? && s'.phase.Building? &&
    (Find(s'.phase.shadow, k).Some? <==> Find(s.phase.shadow, k).Some? || (Attempts(s, a, k) && HasBucket(s, a, k)))
  }

  /** What the laws of set and add say about the table being built. */
  ghost predicate WriteBuilds(s: State, s': State, a: Action, stored: bool)
    requires a.Set? || a.Add?
  {
    && CollectionKept(s, s', a.k)
    && if stored then SharesNew(s, s', a.k, a.room2) else s'.phase == s.phase
  }

  lemma BuildWrite(s: State, s': State, a: Action, k: Key, stored: bool)
    requires s.phase.Building? && (a.Set? || a.Add?) && WriteBuilds(s, s', a, stored)
    requires Find(s.phase.shadow, k).Some? ==> Find(s.entries, k).Some?
    requires Attempts(s, a, k) ==> stored && Find(s'.entries, k).Some?
    requires stored && a.k == k ==> k in s.entries || a.room
    ensures Builds1(s, a, s', k)
  {
  }

  lemma BuildSet(s: State, a: Action, k: Key)
    requires Proofs.Inv(s) && s.phase.Building? && a.Set?
    ensures Builds1(s, a, Do(s, a).0, k)
  {
    NoneInShadow(s, k);
    if Attempts(s, a, k) { StoredFound(s, a, k); }
    var stored := a.k in s.entries || a.room;
    assert WriteBuilds(s, Do(s, a).0, a, stored) by { SetLaw(s, a.k, a.size, a.room, a.room2); }
    BuildWrite(s, Do(s, a).0, a, k, stored);
  }

  lemma BuildAdd(s: State, a: Action, k: Key)
    requires Proofs.Inv(s) && s.phase.Building? && a.Add?
    ensures Builds1(s, a, Do(s, a).0, k)
  {
    NoneInShadow(s, k);
    if Attempts(s, a, k) { StoredFound(s, a, k); }
    var stored := (a.k in s.entries || a.room) && Visible(s, a.k).None?;
    assert WriteBuilds(s, Do(s, a).0, a, stored) by { AddLaw(s, a.k, a.size, a.room, a.room2); }
    BuildWrite(s, Do(s, a).0, a, k, stored);
  }

  lemma BuildWrites(s: State, a: Action, k: Key)
    requires Proofs.Inv(s) && s.phase.Building? && (a.Replace? || a.Del?)
    ensures Builds1(s, a, Do(s, a).0, k)
  {
    if a.Replace? { ReplaceLaw(s, a.k, a.size); } else { DelLaw(s, a.k); }
  }

  lemma BuildOther(s: State, a: Action, k: Key)
    requires Proofs.Inv(s) && s.phase.Building? && (a.Append? || a.Prepend? || a.Get? || a.Copy?)
    ensures Builds1(s, a, Do(s, a).0, k)
  {
    if a.Copy? { CopyLaw(s, a.k, a.live, a.room2); } else if !a.Get? { GrowLaw(s, a.k, a.n); }
  }

  /** One step of a build: the new table has a value for `k` if it had, or if this step is an attempt with a bucket. */
  lemma BuildStep(s: State, a: Action, k: Key)
    requires Proofs.Inv(s) && s.phase.Building? && Enabled(s, a) && Do(s, a).0.phase.Building?
    ensures Builds1(s, a, Do(s, a).0, k)
  {
    if a.Set? { BuildSet(s, a, k); }
    else if a.Add? { BuildAdd(s, a, k); }
    else if a.Replace? || a.Del? { BuildWrites(s, a, k); }
    else { BuildOther(s, a, k); }
  }

  lemma StoredFound(s: State, a: Action, k: Key)
    requires Proofs.Inv(s) && s.phase.Building? && (a.Set? || a.Add?) && a.k == k
    requires Find(s.entries, k).None? && (k in s.entries || a.room)
    ensures Find(Do(s, a).0.entries, k).Some?
  {
  }

  /** At any moment of a build, the new table has a value for `k` exactly if some step since the start was an attempt
      to share it that found a bucket. */
  lemma {:induction false} SharedExactly(run: seq<State>, acts: seq<Action>, i: nat, j: nat, k: Key)
    requires IsActed(run, acts) && Builds(run, acts, i, j)
    ensures Find(run[j].phase.shadow, k).Some? <==> exists m :: i < m < j && SharedAt(run, acts, m, k)
    decreases j
  {
    if j == i + 1 {
      assert ActsAt(run, acts, i);
    } else {
      SharedExactly(run, acts, i, j - 1, k);
      ActedInv(run, acts, j - 1);
      assert ActsAt(run, acts, j - 1);
      BuildStep(run[j - 1], acts[j - 1], k);
      if SharedAt(run, acts, j - 1, k) { assert Find(run[j].phase.shadow, k).Some?; }
    }
  }

  /** A switch loses a key exactly if gets found it and, since the collection started, every attempt to share it, by a
      set, an add or a copying turn that found it live, was refused for want of a bucket. */
  lemma SwitchLoses(run: seq<State>, acts: seq<Action>, i: nat, j: nat, k: Key)
    requires IsActed(run, acts) && Builds(run, acts, i, j)
    ensures var s, s' := run[j], Do(run[j], Switch).0;
            Visible(s, k).Some? && Visible(s', k).None? <==>
              && Visible(s, k).Some?
              && forall m | i < m < j && Attempts(run[m], acts[m], k) :: !HasBucket(run[m], acts[m], k)
  {
    ActedInv(run, acts, j);
    SharedExactly(run, acts, i, j, k);
    SwitchLaw(run[j], k);
    forall m | i < m < j && Attempts(run[m], acts[m], k) && HasBucket(run[m], acts[m], k)
      ensures exists n :: i < n < j && SharedAt(run, acts, n, k)
    {
      assert SharedAt(run, acts, m, k);
    }
  }
}
