/** What holds of the cache over every interleaving of client operations and collector steps. */
module CacheProofs {
  import opened Basics
  import opened Probing
  import opened CacheModel

  function Was(s: State): Table { if s.phase.Switched? || s.phase.HandingOff? then s.phase.was else map[] }

  function Shadow(s: State): Table { if s.phase.Building? then s.phase.shadow else map[] }

  // ---------------------------------------------------------------- references and chains

  /** `b` is a base stored under `k`. */
  ghost predicate Based(s: State, b: nat, k: Key) {
    b < |s.ents| && b in s.chains && s.ents[b].base == b && s.ents[b].key == k
  }

  ghost predicate RefsIn(s: State, t: Table) {
    forall k | k in t && t[k].val.Some? :: Based(s, t[k].val.value.base, k)
  }

  /** The table being built is a submap of the one in use, sharing its key objects and values. */
  ghost predicate ShadowIsSubmap(s: State) {
    forall k | k in Shadow(s) :: k in s.entries && Shares(Shadow(s)[k], s.entries[k])
  }

  /** A slot of the new table has the key object of the old one, and no value or the same value shared. */
  ghost predicate Shares(slot: Slot, was: Slot) {
    && slot.obj == was.obj
    && (slot.val.Some? ==> was.val.Some? && slot.val.value == Ref(was.val.value.base, true))
  }

  /** A shared value is one the old table still has; an unshared one is not. */
  ghost predicate Flags(s: State) {
    && (forall k | k in s.entries && s.entries[k].val.Some? && s.entries[k].val.value.shared ::
          k in Was(s) && Was(s)[k].val == Some(Ref(s.entries[k].val.value.base, false)))
    && (forall k | k in s.entries && s.entries[k].val.Some? && !s.entries[k].val.value.shared && k in Was(s) ::
          Was(s)[k].val != s.entries[k].val)
    && (forall k | k in Was(s) && Was(s)[k].val.Some? :: !Was(s)[k].val.value.shared)
  }

  ghost predicate ChainOk(s: State, b: nat)
    requires b in s.chains
  {
    var es := s.chains[b].nodes;
    && es != [] && es[0] == b && b < |s.ents| && NoDup(es)
    && (forall e | e in es :: e < |s.ents| && s.ents[e].stored && s.ents[e].base == b && s.ents[e].key == s.ents[b].key)
  }

  /** The stored entries are exactly the members of chains. */
  ghost predicate Chains(s: State) {
    && (forall b | b in s.chains :: ChainOk(s, b))
    && (forall e | 0 <= e < |s.ents| && s.ents[e].stored ::
          s.ents[e].base in s.chains && e in s.chains[s.ents[e].base].nodes)
  }

  ghost predicate Sound(s: State) {
    RefsIn(s, s.entries) && RefsIn(s, Was(s)) && ShadowIsSubmap(s) && Flags(s) && Chains(s)
  }

  // ---------------------------------------------------------------- ownership

  ghost predicate OwnedBy(t: Table, k: Key, b: nat) { k in t && t[k].val == Some(Ref(b, false)) }

  /** `b` is a base that a table owns. */
  ghost predicate Owned(s: State, b: nat) {
    b < |s.ents| && (OwnedBy(s.entries, s.ents[b].key, b) || OwnedBy(Was(s), s.ents[b].key, b))
  }

  /** Held entries are exactly the stored ones whose base a table owns. */
  ghost predicate HeldOk(s: State) {
    forall e | 0 <= e < |s.ents| :: s.ents[e].held <==> s.ents[e].stored && Owned(s, s.ents[e].base)
  }

  /** The same, except that base `b` has just lost its owner. */
  ghost predicate HeldBut(s: State, b: nat) {
    && !Owned(s, b)
    && forall e | 0 <= e < |s.ents| ::
         s.ents[e].held <==> s.ents[e].stored && (Owned(s, s.ents[e].base) || s.ents[e].base == b)
  }

  /** Every stored entry is held or has been released, and released once. */
  ghost predicate FreedOk(s: State) {
    && NoDup(s.freed)
    && (forall e | e in s.freed :: e < |s.ents|)
    && (forall e | 0 <= e < |s.ents| :: e in s.freed <==> s.ents[e].stored && !s.ents[e].held)
  }

  ghost predicate ToldOk(s: State) {
    forall i | 0 <= i < |s.told| && s.told[i].WasStored? :: s.told[i].e < |s.ents| && s.ents[s.told[i].e].stored
  }

  // ---------------------------------------------------------------- bytes

  function HeldBytes(ents: seq<Entry>): nat {
    if ents == [] then 0
    else HeldBytes(ents[..|ents| - 1]) + if ents[|ents| - 1].held then ents[|ents| - 1].size else 0
  }

  lemma {:induction false} HeldBytesUpdate(ents: seq<Entry>, i: nat, x: Entry)
    requires i < |ents|
    ensures HeldBytes(ents[i := x]) + (if ents[i].held then ents[i].size else 0) ==
            HeldBytes(ents) + (if x.held then x.size else 0)
  {
    var n := |ents| - 1;
    if i < n {
      HeldBytesUpdate(ents[..n], i, x);
      assert ents[i := x][..n] == ents[..n][i := x];
    } else {
      assert ents[i := x][..n] == ents[..n];
    }
  }

  /** Releasing distinct held entries takes exactly their sizes off the total. */
  lemma {:induction false} ReleaseBytes(ents: seq<Entry>, es: seq<nat>)
    requires NoDup(es) && forall e | e in es :: e < |ents| && ents[e].held
    ensures HeldBytes(Unheld(ents, es)) + SumOf(ents, es) == HeldBytes(ents)
    decreases |es|
  {
    if es == [] {
      assert Unheld(ents, es) == ents;
    } else {
      var e, rest := es[0], es[1..];
      assert e in es;
      var ents' := ents[e := ents[e].(held := false)];
      HeldBytesUpdate(ents, e, ents[e].(held := false));
      assert forall x | x in rest :: x in es && x != e;
      ReleaseBytes(ents', rest);
      SumSame(ents, ents', rest);
      UnheldStep(ents, es);
    }
  }

  lemma UnheldStep(ents: seq<Entry>, es: seq<nat>)
    requires es != [] && es[0] < |ents|
    ensures Unheld(ents[es[0] := ents[es[0]].(held := false)], es[1..]) == Unheld(ents, es)
  {
    assert es == [es[0]] + es[1..];
    assert forall i: nat :: i in es <==> i == es[0] || i in es[1..];
  }

  lemma {:induction false} SumSame(a: seq<Entry>, b: seq<Entry>, es: seq<nat>)
    requires |a| == |b| && forall i | 0 <= i < |a| :: a[i].size == b[i].size
    ensures SumOf(a, es) == SumOf(b, es)
  {
    if es != [] { SumSame(a, b, es[1..]); }
  }

  // ---------------------------------------------------------------- freshness

  /** The most recent write reported stored for `k` with no later reported delete. */
  function Latest(told: seq<Event>, k: Key): Option<nat> {
    if told == [] then None
    else
      var ev := told[|told| - 1];
      if ev.k != k then Latest(told[..|told| - 1], k)
      else if ev.WasStored? then Some(ev.e) else None
  }

  ghost predicate Fresh(s: State) {
    forall k :: Visible(s, k) == if k in s.lost then None else Latest(s.told, k)
  }

  // ---------------------------------------------------------------- key objects

  ghost predicate KeyOf(t: Table, k: Key, o: nat) { k in t && t[k].obj == o }

  ghost predicate KeysIn(s: State, t: Table) {
    forall k | k in t :: t[k].obj < |s.objs| && s.objs[t[k].obj] == KeyObj(true, true, k)
  }

  /** Every key object ever kept is held or has been released, and released once. */
  ghost predicate KeysFreed(s: State) {
    && NoDup(s.freedKeys) && (forall o | o in s.freedKeys :: o < |s.objs|)
    && (forall o | 0 <= o < |s.objs| :: o in s.freedKeys <==> s.objs[o].kept && !s.objs[o].held)
  }

  ghost predicate KeysOk(s: State) {
    && KeysIn(s, s.entries) && KeysIn(s, Was(s))
    && (forall o | 0 <= o < |s.objs| && s.objs[o].held ::
          KeyOf(s.entries, s.objs[o].text, o) || KeyOf(Was(s), s.objs[o].text, o))
    && KeysFreed(s)
  }

  ghost predicate Inv(s: State) {
    Sound(s) && HeldOk(s) && FreedOk(s) && ToldOk(s) && s.bytes == HeldBytes(s.ents) && Fresh(s) && KeysOk(s)
  }

  lemma InitInv()
    ensures Inv(INIT)
  {
  }

  /** A state in which gets and reports are as they were. */
  lemma SameFresh(s: State, s': State)
    requires Fresh(s) && s'.told == s.told && s'.lost == s.lost && s'.entries == s.entries && s'.chains == s.chains
    ensures Fresh(s')
  {
    assert forall k :: Visible(s', k) == Visible(s, k);
  }

  // ---------------------------------------------------------------- creating an entry

  lemma NewEntrySound(s: State, k: Key, size: nat)
    requires Sound(s)
    ensures Sound(NewEntry(s, k, size))
  {
    var s' := NewEntry(s, k, size);
    forall b | b in s'.chains ensures ChainOk(s', b) { assert ChainOk(s, b); }
  }

  lemma NewEntryHeld(s: State, k: Key, size: nat)
    requires HeldOk(s) && FreedOk(s) && ToldOk(s) && Chains(s)
    ensures var s' := NewEntry(s, k, size); HeldOk(s') && FreedOk(s') && ToldOk(s')
    ensures HeldBytes(NewEntry(s, k, size).ents) == HeldBytes(s.ents)
  {
    var s' := NewEntry(s, k, size);
    assert s'.ents[..|s.ents|] == s.ents;
    forall e | 0 <= e < |s'.ents| ensures s'.ents[e].held <==> s'.ents[e].stored && Owned(s', s'.ents[e].base) {
      if e < |s.ents| && s.ents[e].stored { assert ChainOk(s, s.ents[e].base); }
    }
  }

  /** An entry just created for `k`: not stored, and not the base of a chain. */
  ghost predicate Loose(s: State, e: nat, k: Key) {
    e < |s.ents| && !s.ents[e].stored && !s.ents[e].held && s.ents[e].base == e && s.ents[e].key == k
  }

  /** An operation's new entry, not yet stored, changes nothing. */
  lemma NewEntryKeeps(s: State, k: Key, size: nat)
    requires Inv(s)
    ensures Inv(NewEntry(s, k, size)) && Loose(NewEntry(s, k, size), |s.ents|, k)
  {
    var s' := NewEntry(s, k, size);
    NewEntrySound(s, k, size);
    NewEntryHeld(s, k, size);
    SameFresh(s, s');
    SameObjs(s, s');
  }

  lemma SpareKeySound(s: State, k: Key)
    requires Sound(s)
    ensures Sound(KeepKey(s, k, false))
  {
    var s' := KeepKey(s, k, false);
    SameRefs(s, s');
    forall b | b in s'.chains ensures ChainOk(s', b) { assert ChainOk(s, b); }
  }

  lemma SpareKeyKeys(s: State, k: Key)
    requires KeysOk(s)
    ensures KeysOk(KeepKey(s, k, false))
  {
    var s' := KeepKey(s, k, false);
    forall o | 0 <= o < |s'.objs| && s'.objs[o].held
      ensures KeyOf(s'.entries, s'.objs[o].text, o) || KeyOf(Was(s'), s'.objs[o].text, o)
    {
      assert KeyOf(s.entries, s.objs[o].text, o) || KeyOf(Was(s), s.objs[o].text, o);
    }
  }

  lemma SpareKeyKeeps(s: State, k: Key)
    requires Inv(s)
    ensures Inv(KeepKey(s, k, false))
  {
    var s' := KeepKey(s, k, false);
    SpareKeySound(s, k);
    SpareKeyKeys(s, k);
    SameHeld(s, s');
    SameFresh(s, s');
  }

  lemma LooseApart(s: State, e: nat, k: Key)
    requires Chains(s) && Loose(s, e, k)
    ensures e !in s.chains && forall b | b in s.chains :: e !in s.chains[b].nodes
  {
    forall b | b in s.chains ensures e !in s.chains[b].nodes && e != b { assert ChainOk(s, b); }
  }

  // ---------------------------------------------------------------- appending a version

  lemma AppendChains(s: State, b: nat, e: nat, k: Key)
    requires Chains(s) && Loose(s, e, k) && Based(s, b, k)
    ensures Chains(AppendVersion(s, b, e))
  {
    var s' := AppendVersion(s, b, e);
    LooseApart(s, e, k);
    forall x | x in s'.chains ensures ChainOk(s', x) { assert ChainOk(s, x); }
    forall x | 0 <= x < |s'.ents| && s'.ents[x].stored
      ensures s'.ents[x].base in s'.chains && x in s'.chains[s'.ents[x].base].nodes
    {
      if x != e { assert x in s.chains[s.ents[x].base].nodes; }
    }
  }

  lemma AppendSound(s: State, b: nat, e: nat, k: Key)
    requires Sound(s) && Loose(s, e, k) && Based(s, b, k)
    ensures Sound(AppendVersion(s, b, e))
  {
    AppendChains(s, b, e, k);
    LooseApart(s, e, k);
  }

  lemma AppendHeld(s: State, b: nat, e: nat, k: Key)
    requires Sound(s) && HeldOk(s) && FreedOk(s) && ToldOk(s) && Loose(s, e, k) && Based(s, b, k) && Owned(s, b)
    ensures var s' := AppendVersion(s, b, e); HeldOk(s') && FreedOk(s') && ToldOk(s')
  {
    var s' := AppendVersion(s, b, e);
    LooseApart(s, e, k);
    assert forall x: nat :: Owned(s', x) <==> Owned(s, x);
    assert ChainOk(s, b);
  }

  /** Reporting an event is what makes a key's newest version its latest. */
  lemma ToldFresh(s: State, s': State, ev: Event)
    requires Fresh(s) && s'.told == s.told + [ev] && s'.lost == s.lost - {ev.k}
    requires forall k | k != ev.k :: Visible(s', k) == Visible(s, k)
    requires Visible(s', ev.k) == if ev.WasStored? then Some(ev.e) else None
    ensures Fresh(s')
  {
    assert s'.told[..|s.told|] == s.told;
    forall k ensures Visible(s', k) == if k in s'.lost then None else Latest(s'.told, k) {
      if k != ev.k { assert Visible(s, k) == if k in s.lost then None else Latest(s.told, k); }
    }
  }

  lemma ToldKeeps(s: State, ev: Event)
    requires Sound(s) && HeldOk(s) && FreedOk(s) && ToldOk(s) && KeysOk(s)
    requires ev.WasStored? ==> ev.e < |s.ents| && s.ents[ev.e].stored
    ensures var s' := Told(s, ev); Sound(s') && HeldOk(s') && FreedOk(s') && ToldOk(s') && KeysOk(s')
  {
    var s' := Told(s, ev);
    assert forall b: nat :: Owned(s', b) == Owned(s, b);
    forall b | b in s'.chains ensures ChainOk(s', b) { assert ChainOk(s, b); }
  }

  /** Only the slot of `k` refers to bases of `k`. */
  lemma OtherVisible(s: State, s': State, k: Key)
    requires RefsIn(s, s.entries)
    requires forall x | x != k :: Find(s'.entries, x) == Find(s.entries, x)
    requires forall b | b in s.chains && b < |s.ents| && s.ents[b].key != k ::
        b in s'.chains && s'.chains[b] == s.chains[b]
    ensures forall x | x != k :: Visible(s', x) == Visible(s, x)
  {
    forall x | x != k ensures Visible(s', x) == Visible(s, x) {
      if Find(s.entries, x).Some? { assert Based(s, Find(s.entries, x).value, x); }
    }
  }

  /** Storing a new version of `k` at the end of the chain its slot refers to. */
  lemma AppendKeeps(s: State, b: nat, e: nat, k: Key)
    requires Inv(s) && Loose(s, e, k) && Find(s.entries, k) == Some(b) && Owned(s, b)
    ensures Inv(Told(AppendVersion(s, b, e), WasStored(k, e)))
  {
    assert Based(s, b, k);
    var s1 := AppendVersion(s, b, e);
    var s' := Told(s1, WasStored(k, e));
    AppendSound(s, b, e, k);
    AppendHeld(s, b, e, k);
    HeldBytesUpdate(s.ents, e, s1.ents[e]);
    assert KeysOk(s1);
    ToldKeeps(s1, WasStored(k, e));
    OtherVisible(s, s', k);
    ToldFresh(s, s', WasStored(k, e));
  }

  // ---------------------------------------------------------------- storing a base

  lemma BaseChains(s: State, e: nat, k: Key)
    requires Chains(s) && Loose(s, e, k)
    ensures Chains(NewBase(s, e)) && Based(NewBase(s, e), e, k)
    ensures forall b, x | Based(s, b, x) :: Based(NewBase(s, e), b, x) && b != e
  {
    var s' := NewBase(s, e);
    LooseApart(s, e, k);
    forall x | x in s'.chains ensures ChainOk(s', x) { if x != e { assert ChainOk(s, x); } }
    forall x | 0 <= x < |s'.ents| && s'.ents[x].stored
      ensures s'.ents[x].base in s'.chains && x in s'.chains[s'.ents[x].base].nodes
    {
      if x != e { assert x in s.chains[s.ents[x].base].nodes; }
    }
  }

  /** `s2` is `s` with the loose entry `e` stored as a base in the slot of `k`. */
  ghost predicate StoredBase(s: State, s2: State, e: nat, k: Key, o: nat) {
    && Loose(s, e, k)
    && s2 == NewBase(s, e).(entries := Put(s.entries, k, o, Ref(e, false)), phase := s2.phase, objs := s2.objs)
    && Was(s2) == Was(s)
  }

  function OldVal(s: State, k: Key): Option<Ref> { if k in s.entries then s.entries[k].val else None }

  lemma StoreSound(s: State, s2: State, e: nat, k: Key, o: nat)
    requires Sound(s) && StoredBase(s, s2, e, k, o) && ShadowIsSubmap(s2)
    ensures Sound(s2)
  {
    BaseChains(s, e, k);
    var s1 := NewBase(s, e);
    assert s2.chains == s1.chains && s2.ents == s1.ents;
    forall x | x in s2.chains ensures ChainOk(s2, x) { assert ChainOk(s1, x); }
    forall x | x in s2.entries && s2.entries[x].val.Some? ensures Based(s2, s2.entries[x].val.value.base, x) {
      if x != k { assert Based(s, s.entries[x].val.value.base, x); }
    }
    forall x | x in Was(s) && Was(s)[x].val.Some?
      ensures Based(s2, Was(s)[x].val.value.base, x) && Was(s)[x].val.value.base != e
    {
      assert Based(s, Was(s)[x].val.value.base, x);
    }
  }

  lemma StoreHeld(s: State, s2: State, e: nat, k: Key, o: nat)
    requires Sound(s) && HeldOk(s) && StoredBase(s, s2, e, k, o)
    ensures var was := OldVal(s, k); if was.Some? && !was.value.shared then HeldBut(s2, was.value.base) else HeldOk(s2)
  {
    LooseApart(s, e, k);
    var was := OldVal(s, k);
    if was.Some? { assert Based(s, was.value.base, k); }
    assert Owned(s2, e);
    forall x | 0 <= x < |s.ents| && s.ents[x].stored
      ensures Owned(s, s.ents[x].base) <==>
              Owned(s2, s.ents[x].base) || (was.Some? && !was.value.shared && s.ents[x].base == was.value.base)
    {
      assert ChainOk(s, s.ents[x].base);
    }
  }

  lemma StoreFreed(s: State, s2: State, e: nat, k: Key, o: nat)
    requires FreedOk(s) && ToldOk(s) && StoredBase(s, s2, e, k, o)
    ensures FreedOk(s2) && ToldOk(s2) && s2.bytes - s.bytes == HeldBytes(s2.ents) - HeldBytes(s.ents)
  {
    HeldBytesUpdate(s.ents, e, s2.ents[e]);
  }

  /** The versions of a base are exactly the stored entries that belong to it. */
  lemma MembersOf(s: State, b: nat)
    requires Chains(s) && b in s.chains
    ensures NoDup(s.chains[b].nodes) && forall e | e in s.chains[b].nodes :: e < |s.ents|
    ensures forall x | 0 <= x < |s.ents| :: x in s.chains[b].nodes <==> s.ents[x].stored && s.ents[x].base == b
  {
    assert ChainOk(s, b);
    forall x | 0 <= x < |s.ents| ensures x in s.chains[b].nodes <==> s.ents[x].stored && s.ents[x].base == b {
      if s.ents[x].stored && s.ents[x].base == b { assert x in s.chains[s.ents[x].base].nodes; }
    }
  }

  lemma ReleaseHeld(s: State, b: nat)
    requires Chains(s) && HeldBut(s, b) && b in s.chains
    ensures HeldOk(Release(s, b))
  {
    var s', es := Release(s, b), s.chains[b].nodes;
    MembersOf(s, b);
    forall x | 0 <= x < |s'.ents| ensures s'.ents[x].held <==> s'.ents[x].stored && Owned(s', s'.ents[x].base) {
      assert s.ents[x].held <==> s.ents[x].stored && (Owned(s, s.ents[x].base) || s.ents[x].base == b);
      assert s'.ents[x] == if x in es then s.ents[x].(held := false) else s.ents[x];
      assert Owned(s', s.ents[x].base) <==> Owned(s, s.ents[x].base);
    }
  }

  lemma ReleasedHeld(s: State, b: nat)
    requires Chains(s) && HeldBut(s, b) && b in s.chains
    ensures forall e | e in s.chains[b].nodes :: e < |s.ents| && s.ents[e].held
  {
    MembersOf(s, b);
  }

  lemma ReleaseFreed(s: State, b: nat)
    requires Chains(s) && HeldBut(s, b) && FreedOk(s) && ToldOk(s) && b in s.chains
    ensures FreedOk(Release(s, b)) && ToldOk(Release(s, b))
  {
    var s', es := Release(s, b), s.chains[b].nodes;
    MembersOf(s, b);
    ReleasedHeld(s, b);
    NoDupConcat(s.freed, es);
    forall x | 0 <= x < |s'.ents| ensures x in s'.freed <==> s'.ents[x].stored && !s'.ents[x].held {
      assert x in s.freed <==> s.ents[x].stored && !s.ents[x].held;
      assert s'.ents[x] == if x in es then s.ents[x].(held := false) else s.ents[x];
    }
  }

  lemma ReleaseAccounts(s: State, b: nat)
    requires Chains(s) && HeldBut(s, b) && b in s.chains
    ensures var s' := Release(s, b); s'.bytes - s.bytes == HeldBytes(s'.ents) - HeldBytes(s.ents)
  {
    MembersOf(s, b);
    ReleasedHeld(s, b);
    ReleaseBytes(s.ents, s.chains[b].nodes);
  }

  lemma ReleaseSound(s: State, b: nat)
    requires Sound(s)
    ensures Sound(Release(s, b))
  {
    SameRefs(s, Release(s, b));
    ReleaseChains(s, b);
  }

  lemma ReleaseVisible(s: State, b: nat)
    ensures forall k :: Visible(Release(s, b), k) == Visible(s, k)
  {
  }

  lemma ReleaseChains(s: State, b: nat)
    requires Chains(s)
    ensures Chains(Release(s, b))
  {
    var s' := Release(s, b);
    forall x | x in s'.chains ensures ChainOk(s', x) { assert ChainOk(s, x); }
  }

  /** Everything but freshness, which speaks of what clients have been told. */
  ghost predicate Settled(s: State) {
    Sound(s) && HeldOk(s) && FreedOk(s) && ToldOk(s) && s.bytes == HeldBytes(s.ents) && KeysOk(s)
  }

  /** Releasing what a store or a removal displaced, unless it is shared. */
  lemma DisplacedKeeps(s: State, was: Option<Ref>)
    requires Sound(s) && FreedOk(s) && ToldOk(s) && s.bytes == HeldBytes(s.ents) && KeysOk(s)
    requires if was.Some? && !was.value.shared
             then HeldBut(s, was.value.base) && was.value.base in s.chains else HeldOk(s)
    ensures var s' := Displaced(s, was);
            && Settled(s') && s'.told == s.told && s'.lost == s.lost && |s'.ents| == |s.ents|
            && (forall k :: Visible(s', k) == Visible(s, k))
            && (forall e | 0 <= e < |s.ents| :: s'.ents[e].stored == s.ents[e].stored)
  {
    if was.Some? && !was.value.shared {
      ReleaseHeld(s, was.value.base);
      ReleaseFreed(s, was.value.base);
      ReleaseAccounts(s, was.value.base);
      ReleaseSound(s, was.value.base);
      ReleaseVisible(s, was.value.base);
    }
  }

  /** Storing a base, releasing what it displaced and reporting it stored. */
  lemma StoreKeeps(s: State, s2: State, e: nat, k: Key, o: nat)
    requires Inv(s) && StoredBase(s, s2, e, k, o) && ShadowIsSubmap(s2) && KeysOk(s2)
    ensures Inv(Told(Displaced(s2, OldVal(s, k)), WasStored(k, e)))
  {
    var was := OldVal(s, k);
    StoreSound(s, s2, e, k, o);
    StoreHeld(s, s2, e, k, o);
    StoreFreed(s, s2, e, k, o);
    StoreVisible(s, s2, e, k, o);
    if was.Some? {
      assert Based(s, was.value.base, k);
      BaseChains(s, e, k);
    }
    DisplacedKeeps(s2, was);
    ReportKeeps(s, Displaced(s2, was), WasStored(k, e));
  }

  lemma ReportKeeps(s: State, s3: State, ev: Event)
    requires Fresh(s) && Settled(s3) && s3.told == s.told && s3.lost == s.lost
    requires ev.WasStored? ==> ev.e < |s3.ents| && s3.ents[ev.e].stored
    requires Visible(s3, ev.k) == if ev.WasStored? then Some(ev.e) else None
    requires forall k | k != ev.k :: Visible(s3, k) == Visible(s, k)
    ensures Inv(Told(s3, ev))
  {
    var s' := Told(s3, ev);
    ToldKeeps(s3, ev);
    assert forall k :: Visible(s', k) == Visible(s3, k);
    ToldFresh(s, s', ev);
  }

  lemma StoreVisible(s: State, s2: State, e: nat, k: Key, o: nat)
    requires RefsIn(s, s.entries) && Chains(s) && StoredBase(s, s2, e, k, o)
    ensures Visible(s2, k) == Some(e) && forall x | x != k :: Visible(s2, x) == Visible(s, x)
  {
    LooseApart(s, e, k);
    OtherVisible(s, s2, k);
  }

  // ---------------------------------------------------------------- client operations

  /** The key object of a new slot is kept, and that of an existing slot is not needed. */
  lemma PutKeys(s: State, s2: State, k: Key, r: Ref)
    requires KeysOk(s) && s2.objs == s.objs + [KeyObj(k !in s.entries, k !in s.entries, k)]
    requires s2.freedKeys == s.freedKeys
    requires s2.entries == Put(s.entries, k, |s.objs|, r) && Was(s2) == Was(s)
    ensures KeysOk(s2)
  {
    forall o | 0 <= o < |s2.objs| && s2.objs[o].held
      ensures KeyOf(s2.entries, s2.objs[o].text, o) || KeyOf(Was(s2), s2.objs[o].text, o)
    {
      if o < |s.objs| { assert KeyOf(s.entries, s.objs[o].text, o) || KeyOf(Was(s), s.objs[o].text, o); }
    }
  }

  lemma SetPlainKeeps(s: State, k: Key, e: nat)
    requires Inv(s) && Loose(s, e, k) && !s.phase.Building?
    ensures Inv(Told(SetPlain(s, k, e), WasStored(k, e)))
  {
    var o := |s.objs|;
    var s2 := NewBase(KeepKey(s, k, k !in s.entries), e).(entries := Put(s.entries, k, o, Ref(e, false)));
    PutKeys(s, s2, k, Ref(e, false));
    StoreKeeps(s, s2, e, k, o);
  }

  /** The shadow learns of a new base only with the slot it was stored in. */
  lemma ShadowStillSubmap(s: State, s2: State, k: Key, e: nat)
    requires s.phase.Building? && s2.phase.Building? && ShadowIsSubmap(s) && Find(s.entries, k).None?
    requires s2.entries == Put(s.entries, k, ObjFor(s, k), Ref(e, false))
    requires s2.phase.shadow == s.phase.shadow || s2.phase.shadow == Put(s.phase.shadow, k, ObjFor(s, k), Ref(e, true))
    ensures ShadowIsSubmap(s2)
  {
    forall x | x in Shadow(s2) ensures x in s2.entries && Shares(Shadow(s2)[x], s2.entries[x]) {
      if x in s.phase.shadow { assert x in Shadow(s) && x in s.entries; }
    }
  }

  lemma SetShadowedReady(s: State, k: Key, e: nat, shadow: Table)
    requires KeysOk(s) && ShadowIsSubmap(s) && Loose(s, e, k) && s.phase.Building? && Find(s.entries, k).None?
    requires shadow == s.phase.shadow || shadow == Put(s.phase.shadow, k, ObjFor(s, k), Ref(e, true))
    ensures var s2 := SetShadowed(s, k, e, shadow);
            StoredBase(s, s2, e, k, |s.objs|) && ShadowIsSubmap(s2) && KeysOk(s2)
  {
    var o := |s.objs|;
    var s2 := SetShadowed(s, k, e, shadow);
    assert s2.entries == Put(s.entries, k, o, Ref(e, false)) == Put(s.entries, k, ObjFor(s, k), Ref(e, false));
    PutKeys(s, s2, k, Ref(e, false));
    ShadowStillSubmap(s, s2, k, e);
  }

  lemma SetShadowedKeeps(s: State, k: Key, e: nat, shadow: Table)
    requires Inv(s) && Loose(s, e, k) && s.phase.Building? && Find(s.entries, k).None?
    requires shadow == s.phase.shadow || shadow == Put(s.phase.shadow, k, ObjFor(s, k), Ref(e, true))
    ensures Inv(Told(SetShadowed(s, k, e, shadow), WasStored(k, e)))
  {
    SetShadowedReady(s, k, e, shadow);
    var s2 := SetShadowed(s, k, e, shadow);
    StoreKeeps(s, s2, e, k, |s.objs|);
    NothingDisplaced(s, s2, k);
  }

  lemma NothingDisplaced(s: State, s2: State, k: Key)
    requires Find(s.entries, k).None?
    ensures Displaced(s2, OldVal(s, k)) == s2
  {
  }

  lemma SetKeeps(s: State, k: Key, size: nat, room: bool, room2: bool)
    requires Inv(s)
    ensures Inv(DoSet(s, k, size, room, room2).0)
  {
    var e, s0 := |s.ents|, NewEntry(s, k, size);
    NewEntryKeeps(s, k, size);
    if !HasRoom(s.entries, k, room) {
      SpareKeyKeeps(s0, k);
    } else if !s.phase.Building? {
      SetPlainKeeps(s0, k, e);
    } else if Find(s.entries, k).None? {
      SetShadowedKeeps(s0, k, e, ShareSet(s.phase.shadow, k, ObjFor(s, k), e, room2));
    } else {
      SpareKeyKeeps(s0, k);
      AppendHere(KeepKey(s0, k, false), e, k);
    }
  }

  lemma AppendHere(s: State, e: nat, k: Key)
    requires Inv(s) && Loose(s, e, k) && s.phase.Building? && Find(s.entries, k).Some?
    ensures Inv(Told(AppendVersion(s, Find(s.entries, k).value, e), WasStored(k, e)))
  {
    assert Based(s, Find(s.entries, k).value, k);
    AppendKeeps(s, Find(s.entries, k).value, e, k);
  }

  lemma AddFoundIs(s: State, k: Key, size: nat, room: bool, room2: bool)
    requires Find(s.entries, k).Some?
    ensures var s0 := KeepKey(NewEntry(s, k, size), k, false);
            var e, b, s' := |s.ents|, Find(s.entries, k).value, DoAdd(s, k, size, room, room2).0;
            s' == s0 || (s.phase.Building? && s' == Told(AppendVersion(s0, b, e), WasStored(k, e)))
  {
  }

  lemma AddFoundKeeps(s: State, k: Key, size: nat, room: bool, room2: bool)
    requires Inv(s) && Find(s.entries, k).Some?
    ensures Inv(DoAdd(s, k, size, room, room2).0)
  {
    var s0 := KeepKey(NewEntry(s, k, size), k, false);
    NewEntryKeeps(s, k, size);
    SpareKeyKeeps(NewEntry(s, k, size), k);
    AddFoundIs(s, k, size, room, room2);
    var s' := DoAdd(s, k, size, room, room2).0;
    if s' != s0 { AppendHere(s0, |s.ents|, k); }
  }

  lemma AddKeeps(s: State, k: Key, size: nat, room: bool, room2: bool)
    requires Inv(s)
    ensures Inv(DoAdd(s, k, size, room, room2).0)
  {
    var e, s0 := |s.ents|, NewEntry(s, k, size);
    if Find(s.entries, k).Some? {
      AddFoundKeeps(s, k, size, room, room2);
    } else {
      NewEntryKeeps(s, k, size);
      if !HasRoom(s.entries, k, room) {
        SpareKeyKeeps(s0, k);
      } else if s.phase.Building? {
        SetShadowedKeeps(s0, k, e, ShareAdd(s.phase.shadow, k, ObjFor(s, k), e, room2));
      } else {
        SetPlainKeeps(s0, k, e);
      }
    }
  }

  lemma ReplacePlainKeeps(s: State, k: Key, e: nat)
    requires Inv(s) && Loose(s, e, k) && !s.phase.Building? && k in s.entries
    ensures var s2 := NewBase(s, e).(entries := s.entries[k := s.entries[k].(val := Some(Ref(e, false)))]);
            Inv(Told(Displaced(s2, s.entries[k].val), WasStored(k, e)))
  {
    var s2 := NewBase(s, e).(entries := s.entries[k := s.entries[k].(val := Some(Ref(e, false)))]);
    assert s2.entries == Put(s.entries, k, 0, Ref(e, false));
    SameObjs(s, s2);
    StoreKeeps(s, s2, e, k, 0);
  }

  lemma SameObjs(s: State, s2: State)
    requires KeysOk(s) && s2.objs == s.objs && s2.freedKeys == s.freedKeys && Was(s2) == Was(s)
    requires s2.entries.Keys == s.entries.Keys && forall k | k in s.entries :: s2.entries[k].obj == s.entries[k].obj
    ensures KeysOk(s2)
  {
    forall o | 0 <= o < |s2.objs| && s2.objs[o].held
      ensures KeyOf(s2.entries, s2.objs[o].text, o) || KeyOf(Was(s2), s2.objs[o].text, o)
    {
      assert KeyOf(s.entries, s.objs[o].text, o) || KeyOf(Was(s), s.objs[o].text, o);
    }
  }

  lemma ReplaceKeeps(s: State, k: Key, size: nat)
    requires Inv(s)
    ensures Inv(DoReplace(s, k, size).0)
  {
    var e, s0 := |s.ents|, NewEntry(s, k, size);
    NewEntryKeeps(s, k, size);
    if Find(s.entries, k).None? || (s.phase.Building? && Newest(s, Find(s.entries, k).value).None?) {
      assert DoReplace(s, k, size).0 == s0;
    } else if s.phase.Building? {
      AppendHere(s0, e, k);
    } else {
      ReplacePlainKeeps(s0, k, e);
    }
  }

  // ---------------------------------------------------------------- deleting and growing

  /** Taking the value out of the slot of `k`. */
  lemma RemoveKeeps(s: State, k: Key)
    requires Inv(s) && !s.phase.Building? && Find(s.entries, k).Some?
    ensures var s2 := s.(entries := s.entries[k := s.entries[k].(val := None)]);
            Inv(Told(Displaced(s2, s.entries[k].val), WasDeleted(k)))
  {
    var s2 := s.(entries := s.entries[k := s.entries[k].(val := None)]);
    var was := s.entries[k].val;
    assert Based(s, was.value.base, k);
    SameObjs(s, s2);
    RemoveSound(s, s2, k);
    RemoveHeld(s, s2, k);
    OtherVisible(s, s2, k);
    DisplacedKeeps(s2, was);
    ReportKeeps(s, Displaced(s2, was), WasDeleted(k));
  }

  lemma RemoveSound(s: State, s2: State, k: Key)
    requires Sound(s) && !s.phase.Building? && k in s.entries
    requires s2 == s.(entries := s.entries[k := s.entries[k].(val := None)])
    ensures Sound(s2) && (FreedOk(s) ==> FreedOk(s2)) && (ToldOk(s) ==> ToldOk(s2))
  {
    forall b | b in s2.chains ensures ChainOk(s2, b) { assert ChainOk(s, b); }
    forall x | x in s2.entries && s2.entries[x].val.Some? ensures Based(s2, s2.entries[x].val.value.base, x) {
      assert Based(s, s.entries[x].val.value.base, x);
    }
    forall x | x in Was(s2) && Was(s2)[x].val.Some? ensures Based(s2, Was(s2)[x].val.value.base, x) {
      assert Based(s, Was(s)[x].val.value.base, x);
    }
  }

  lemma RemoveHeld(s: State, s2: State, k: Key)
    requires Sound(s) && HeldOk(s) && Find(s.entries, k).Some?
    requires s2 == s.(entries := s.entries[k := s.entries[k].(val := None)])
    ensures var r := s.entries[k].val.value; if !r.shared then HeldBut(s2, r.base) else HeldOk(s2)
  {
    var r := s.entries[k].val.value;
    assert Based(s, r.base, k);
    forall x | 0 <= x < |s.ents| && s.ents[x].stored
      ensures Owned(s, s.ents[x].base) <==> Owned(s2, s.ents[x].base) || (!r.shared && s.ents[x].base == r.base)
    {
      assert ChainOk(s, s.ents[x].base);
    }
  }

  /** Marking the newest version of `k` deleted. */
  lemma MarkDeletedKeeps(s: State, k: Key, b: nat)
    requires Inv(s) && Find(s.entries, k) == Some(b)
    ensures Inv(Told(s.(chains := s.chains[b := Chain(Versions(s, b), true)]), WasDeleted(k)))
  {
    assert Based(s, b, k);
    var s2 := s.(chains := s.chains[b := Chain(Versions(s, b), true)]);
    MarkDeletedSettled(s, s2, b);
    OtherVisible(s, s2, k);
    ReportKeeps(s, s2, WasDeleted(k));
  }

  lemma MarkDeletedSettled(s: State, s2: State, b: nat)
    requires Settled(s) && b in s.chains && s2 == s.(chains := s.chains[b := Chain(Versions(s, b), true)])
    ensures Settled(s2)
  {
    assert forall x: nat :: Owned(s2, x) <==> Owned(s, x);
    forall x | x in s2.chains ensures ChainOk(s2, x) { assert ChainOk(s, x); }
    SameRefs(s, s2);
  }

  lemma SameRefs(s: State, s2: State)
    requires Sound(s) && s2.entries == s.entries && s2.phase == s.phase && s2.chains.Keys == s.chains.Keys
    requires |s2.ents| == |s.ents| && forall e | 0 <= e < |s.ents| ::
        s2.ents[e].base == s.ents[e].base && s2.ents[e].key == s.ents[e].key
    ensures RefsIn(s2, s2.entries) && RefsIn(s2, Was(s2)) && ShadowIsSubmap(s2) && Flags(s2)
  {
    forall x | x in s2.entries && s2.entries[x].val.Some? ensures Based(s2, s2.entries[x].val.value.base, x) {
      assert Based(s, s.entries[x].val.value.base, x);
    }
    forall x | x in Was(s2) && Was(s2)[x].val.Some? ensures Based(s2, Was(s2)[x].val.value.base, x) {
      assert Based(s, Was(s)[x].val.value.base, x);
    }
  }

  lemma DelKeeps(s: State, k: Key)
    requires Inv(s)
    ensures Inv(DoDel(s, k).0)
  {
    if Find(s.entries, k).Some? {
      if !s.phase.Building? { RemoveKeeps(s, k); }
      else if Newest(s, Find(s.entries, k).value).Some? { MarkDeletedKeeps(s, k, Find(s.entries, k).value); }
    }
  }

  lemma GrowHeld(s: State, e: nat, n: nat)
    requires HeldOk(s) && FreedOk(s) && ToldOk(s) && e < |s.ents|
    ensures var s' := Grow(s, e, n); HeldOk(s') && FreedOk(s') && ToldOk(s')
  {
    assert forall x: nat :: Owned(Grow(s, e, n), x) <==> Owned(s, x);
  }

  /** Bytes added to a held entry are counted. */
  lemma GrowKeeps(s: State, e: nat, n: nat)
    requires Inv(s) && e < |s.ents| && s.ents[e].held
    ensures Inv(Grow(s, e, n))
  {
    var s' := Grow(s, e, n);
    HeldBytesUpdate(s.ents, e, s'.ents[e]);
    SameRefs(s, s');
    GrowHeld(s, e, n);
    GrowChains(s, e, n);
    SameObjs(s, s');
    SameFresh(s, s');
  }

  lemma GrowChains(s: State, e: nat, n: nat)
    requires Chains(s) && e < |s.ents|
    ensures Chains(Grow(s, e, n))
  {
    var s' := Grow(s, e, n);
    forall x | x in s'.chains ensures ChainOk(s', x) { assert ChainOk(s, x); }
  }

  /** Everything reachable through a slot is held. */
  lemma ReachableHeld(s: State, k: Key, e: nat)
    requires Inv(s) && Find(s.entries, k).Some? && e in s.chains[Find(s.entries, k).value].nodes
    ensures e < |s.ents| && s.ents[e].held
  {
    var b := Find(s.entries, k).value;
    assert Based(s, b, k) && ChainOk(s, b);
    if s.entries[k].val.value.shared { assert OwnedBy(Was(s), k, b); } else { assert OwnedBy(s.entries, k, b); }
  }

  lemma AppendPrependKeep(s: State, k: Key, n: nat)
    requires Inv(s)
    ensures Inv(DoAppend(s, k, n).0) && Inv(DoPrepend(s, k, n).0)
  {
    if Find(s.entries, k).Some? {
      var b := Find(s.entries, k).value;
      assert Based(s, b, k) && ChainOk(s, b);
      ReachableHeld(s, k, b);
      GrowKeeps(s, b, n);
      if Newest(s, b).Some? {
        ReachableHeld(s, k, Newest(s, b).value);
        GrowKeeps(s, Newest(s, b).value, n);
      }
    }
  }

  // ---------------------------------------------------------------- the collector

  lemma ShadowSound(s: State, shadow: Table)
    requires Sound(s) && (s.phase.Building? || s.phase.Quiet?) && ShadowIsSubmap(s.(phase := Building(shadow)))
    ensures Sound(s.(phase := Building(shadow)))
  {
    var s' := s.(phase := Building(shadow));
    forall x | x in s'.chains ensures ChainOk(s', x) { assert ChainOk(s, x); }
    forall x | x in s'.entries && s'.entries[x].val.Some? ensures Based(s', s'.entries[x].val.value.base, x) {
      assert Based(s, s.entries[x].val.value.base, x);
    }
  }

  lemma SameHeld(s: State, s': State)
    requires HeldOk(s) && FreedOk(s) && ToldOk(s)
    requires s'.entries == s.entries && Was(s') == Was(s) && s'.ents == s.ents && s'.freed == s.freed
    requires s'.told == s.told
    ensures HeldOk(s') && FreedOk(s') && ToldOk(s')
  {
    assert forall x: nat :: Owned(s', x) <==> Owned(s, x);
  }

  /** Only the shadow changes. */
  lemma ShadowKeeps(s: State, shadow: Table)
    requires Inv(s) && (s.phase.Building? || s.phase.Quiet?)
    requires ShadowIsSubmap(s.(phase := Building(shadow)))
    ensures Inv(s.(phase := Building(shadow)))
  {
    var s' := s.(phase := Building(shadow));
    ShadowSound(s, shadow);
    SameHeld(s, s');
    SameObjs(s, s');
    SameFresh(s, s');
  }

  lemma CopyKeepsSubmap(s: State, k: Key, live: bool, room2: bool)
    requires ShadowIsSubmap(s) && s.phase.Building?
    ensures ShadowIsSubmap(CopyOne(s, k, live, room2))
  {
    var s' := CopyOne(s, k, live, room2);
    forall x | x in Shadow(s') ensures x in s'.entries && Shares(Shadow(s')[x], s'.entries[x]) {
      if x in s.phase.shadow { assert x in Shadow(s); }
    }
  }

  lemma CopyKeeps(s: State, k: Key, live: bool, room2: bool)
    requires Inv(s) && s.phase.Building?
    ensures Inv(CopyOne(s, k, live, room2))
  {
    var s' := CopyOne(s, k, live, room2);
    CopyKeepsSubmap(s, k, live, room2);
    assert s' == s.(phase := Building(s'.phase.shadow));
    ShadowKeeps(s, s'.phase.shadow);
  }

  /** Switching tables: what the new one has is what the old one had; the rest is lost. */
  lemma SwitchFresh(s: State)
    requires s.phase.Building? && Fresh(s) && ShadowIsSubmap(s)
    ensures Fresh(SwitchTables(s))
  {
    var s' := SwitchTables(s);
    forall k ensures Visible(s', k) == if k in s'.lost then None else Latest(s'.told, k) {
      assert Visible(s, k) == if k in s.lost then None else Latest(s.told, k);
      if k in s.phase.shadow { assert k in Shadow(s); }
      assert Visible(s', k).Some? ==> Visible(s', k) == Visible(s, k);
    }
  }

  lemma SwitchSound(s: State)
    requires s.phase.Building? && Sound(s)
    ensures Sound(SwitchTables(s))
  {
    var s' := SwitchTables(s);
    forall x | x in s'.chains ensures ChainOk(s', x) { assert ChainOk(s, x); }
    forall x | x in s.phase.shadow
      ensures x in s.entries && Shares(s.phase.shadow[x], s.entries[x])
    {
      assert x in Shadow(s);
    }
    forall x | x in s.entries && s.entries[x].val.Some?
      ensures Based(s', s.entries[x].val.value.base, x) && !s.entries[x].val.value.shared
    {
      assert Based(s, s.entries[x].val.value.base, x);
    }
  }

  lemma SwitchHeld(s: State)
    requires s.phase.Building? && Sound(s) && HeldOk(s) && FreedOk(s) && ToldOk(s) && KeysOk(s)
    ensures var s' := SwitchTables(s); HeldOk(s') && FreedOk(s') && ToldOk(s') && KeysOk(s')
  {
    var s' := SwitchTables(s);
    forall b: nat ensures Owned(s', b) <==> Owned(s, b) {
      if b < |s.ents| && s.ents[b].key in s.phase.shadow { assert s.ents[b].key in Shadow(s); }
    }
    forall x | x in s.phase.shadow ensures x in s.entries && Shares(s.phase.shadow[x], s.entries[x]) {
      assert x in Shadow(s);
    }
    forall o | 0 <= o < |s.objs| && s.objs[o].held ensures KeyOf(Was(s'), s.objs[o].text, o) {
      assert KeyOf(s.entries, s.objs[o].text, o);
    }
  }

  lemma SwitchKeeps(s: State)
    requires Inv(s) && s.phase.Building?
    ensures Inv(SwitchTables(s))
  {
    SwitchFresh(s);
    SwitchSound(s);
    SwitchHeld(s);
  }

  lemma PhaseSound(s: State, ph: Phase)
    requires Sound(s) && !s.phase.Building? && !ph.Building? && Was(s.(phase := ph)) == Was(s)
    ensures Sound(s.(phase := ph))
  {
    var s' := s.(phase := ph);
    forall x | x in s'.chains ensures ChainOk(s', x) { assert ChainOk(s, x); }
    forall x | x in s'.entries && s'.entries[x].val.Some? ensures Based(s', s'.entries[x].val.value.base, x) {
      assert Based(s, s.entries[x].val.value.base, x);
    }
    forall x | x in Was(s') && Was(s')[x].val.Some? ensures Based(s', Was(s')[x].val.value.base, x) {
      assert Based(s, Was(s)[x].val.value.base, x);
    }
  }

  /** Clearing `_building`, and ending the collection, change nothing else. */
  lemma PhaseKeeps(s: State, ph: Phase)
    requires Inv(s) && !s.phase.Building? && !ph.Building? && Was(s.(phase := ph)) == Was(s)
    ensures Inv(s.(phase := ph))
  {
    var s' := s.(phase := ph);
    PhaseSound(s, ph);
    SameHeld(s, s');
    SameObjs(s, s');
    SameFresh(s, s');
  }

  // ---------------------------------------------------------------- the hand-off

  /** The swap in `exclusive` succeeds: the new table still has the shared value. */
  predicate Claims(s: State, k: Key)
    requires s.phase.HandingOff? && k in s.phase.was
  {
    var v := s.phase.was[k].val;
    v.Some? && k in s.entries && s.entries[k].val == Some(Ref(v.value.base, true))
  }

  /** The state after the swap and the reset of the old bucket, before anything is released. */
  function Mid(s: State, k: Key): State
    requires s.phase.HandingOff? && k in s.phase.was
  {
    s.(phase := HandingOff(s.phase.was - {k}),
       entries := if Claims(s, k) then s.entries[k := s.entries[k].(val := s.phase.was[k].val)] else s.entries)
  }

  function ToRelease(s: State, k: Key): Option<Ref>
    requires s.phase.HandingOff? && k in s.phase.was
  {
    if Claims(s, k) then None else s.phase.was[k].val
  }

  predicate DropsKey(s: State, k: Key)
    requires s.phase.HandingOff? && k in s.phase.was
  {
    k !in s.entries || s.entries[k].obj != s.phase.was[k].obj
  }

  lemma HandInSteps(s: State, k: Key)
    requires Inv(s) && s.phase.HandingOff? && k in s.phase.was
    ensures var m := Mid(s, k);
            HandOne(s, k) == Displaced(if DropsKey(s, k) then ReleaseKey(m, s.phase.was[k].obj) else m, ToRelease(s, k))
  {
    assert k in Was(s);
  }

  lemma MidSound(s: State, k: Key)
    requires Sound(s) && s.phase.HandingOff? && k in s.phase.was
    ensures Sound(Mid(s, k))
  {
    var m := Mid(s, k);
    assert k in Was(s);
    forall x | x in m.chains ensures ChainOk(m, x) { assert ChainOk(s, x); }
    forall x | x in m.entries && m.entries[x].val.Some? ensures Based(m, m.entries[x].val.value.base, x) {
      assert Based(s, s.entries[x].val.value.base, x);
    }
    forall x | x in Was(m) && Was(m)[x].val.Some? ensures Based(m, Was(m)[x].val.value.base, x) {
      assert Based(s, Was(s)[x].val.value.base, x);
    }
  }

  lemma MidHeld(s: State, k: Key)
    requires Sound(s) && HeldOk(s) && s.phase.HandingOff? && k in s.phase.was
    ensures var v := ToRelease(s, k);
            if v.Some? then !v.value.shared && HeldBut(Mid(s, k), v.value.base) else HeldOk(Mid(s, k))
  {
    var m, v, was := Mid(s, k), ToRelease(s, k), s.phase.was[k].val;
    assert k in Was(s);
    if was.Some? { assert Based(s, was.value.base, k); }
    forall x | 0 <= x < |s.ents| && s.ents[x].stored
      ensures Owned(s, s.ents[x].base) <==> Owned(m, s.ents[x].base) || (v.Some? && s.ents[x].base == v.value.base)
    {
      assert ChainOk(s, s.ents[x].base);
    }
  }

  /** After the reset the old table no longer needs the key object; the new one does, or it is dropped. */
  lemma MidKeysKept(s: State, k: Key)
    requires KeysOk(s) && s.phase.HandingOff? && k in s.phase.was && !DropsKey(s, k)
    ensures KeysOk(Mid(s, k))
  {
    var m := Mid(s, k);
    assert k in Was(s);
    forall o | 0 <= o < |m.objs| && m.objs[o].held
      ensures KeyOf(m.entries, m.objs[o].text, o) || KeyOf(Was(m), m.objs[o].text, o)
    {
      assert KeyOf(s.entries, s.objs[o].text, o) || KeyOf(Was(s), s.objs[o].text, o);
    }
  }

  lemma MidKeysDropped(s: State, m: State, k: Key)
    requires KeysOk(s) && s.phase.HandingOff? && k in s.phase.was && DropsKey(s, k)
    requires m.objs == s.objs && m.freedKeys == s.freedKeys && Was(m) == Was(s) - {k}
    requires m.entries.Keys == s.entries.Keys && forall x | x in s.entries :: m.entries[x].obj == s.entries[x].obj
    ensures KeysOk(ReleaseKey(m, s.phase.was[k].obj))
  {
    var o := s.phase.was[k].obj;
    var s' := ReleaseKey(m, o);
    assert k in Was(s) && s.objs[o] == KeyObj(true, true, k);
    forall x | x in s'.entries
      ensures s'.entries[x].obj < |s'.objs| && s'.objs[s'.entries[x].obj] == KeyObj(true, true, x)
    {
      assert s.objs[s.entries[x].obj] == KeyObj(true, true, x);
    }
    forall p | 0 <= p < |s'.objs| && s'.objs[p].held
      ensures KeyOf(s'.entries, s'.objs[p].text, p) || KeyOf(Was(s'), s'.objs[p].text, p)
    {
      assert KeyOf(s.entries, s.objs[p].text, p) || KeyOf(Was(s), s.objs[p].text, p);
    }
  }

  function AfterKey(s: State, k: Key): State
    requires s.phase.HandingOff? && k in s.phase.was
  {
    if DropsKey(s, k) then ReleaseKey(Mid(s, k), s.phase.was[k].obj) else Mid(s, k)
  }

  lemma AfterKeySound(s: State, k: Key)
    requires Sound(s) && FreedOk(s) && ToldOk(s) && KeysOk(s) && s.phase.HandingOff? && k in s.phase.was
    ensures var m := AfterKey(s, k); Sound(m) && FreedOk(m) && ToldOk(m) && KeysOk(m)
  {
    var m, m' := Mid(s, k), AfterKey(s, k);
    MidSound(s, k);
    if DropsKey(s, k) { MidKeysDropped(s, m, k); } else { MidKeysKept(s, k); }
    forall x | x in m'.chains ensures ChainOk(m', x) { assert ChainOk(m, x); }
    SameRefs(m, m');
  }

  lemma AfterKeyHeld(s: State, k: Key)
    requires Sound(s) && HeldOk(s) && s.phase.HandingOff? && k in s.phase.was
    ensures var v, m := ToRelease(s, k), AfterKey(s, k);
            if v.Some? then !v.value.shared && HeldBut(m, v.value.base) && v.value.base in m.chains else HeldOk(m)
  {
    MidHeld(s, k);
    assert forall x: nat :: Owned(AfterKey(s, k), x) <==> Owned(Mid(s, k), x);
    if ToRelease(s, k).Some? { assert k in Was(s) && Based(s, ToRelease(s, k).value.base, k); }
  }

  lemma AfterKeyVisible(s: State, k: Key)
    requires s.phase.HandingOff? && k in s.phase.was
    ensures forall x :: Visible(AfterKey(s, k), x) == Visible(s, x)
  {
  }

  /** One turn of the hand-off loop. */
  lemma HandKeeps(s: State, k: Key)
    requires Inv(s) && s.phase.HandingOff? && k in s.phase.was
    ensures Inv(HandOne(s, k))
  {
    AfterKeySound(s, k);
    AfterKeyHeld(s, k);
    AfterKeyVisible(s, k);
    DisplacedKeeps(AfterKey(s, k), ToRelease(s, k));
    HandInSteps(s, k);
  }

  // ---------------------------------------------------------------- whole runs

  lemma StepKeeps(s: State, a: Action)
    requires Inv(s) && Enabled(s, a)
    ensures Inv(Do(s, a).0)
  {
    match a
    case Set(k, size, room, room2) => SetKeeps(s, k, size, room, room2);
    case Add(k, size, room, room2) => AddKeeps(s, k, size, room, room2);
    case Replace(k, size) => ReplaceKeeps(s, k, size);
    case Get(_) =>
    case Del(k) => DelKeeps(s, k);
    case Append(k, n) => AppendPrependKeep(s, k, n);
    case Prepend(k, n) => AppendPrependKeep(s, k, n);
    case StartCollect => ShadowKeeps(s, map[]);
    case Copy(k, live, room2) => CopyKeeps(s, k, live, room2);
    case Switch => SwitchKeeps(s);
    case ClearBuilding => PhaseKeeps(s, HandingOff(s.phase.was));
    case Hand(k) => HandKeeps(s, k);
    case EndCollect => PhaseKeeps(s, Quiet);
  }

  lemma {:induction false} RunInv(run: seq<State>)
    requires IsRun(run)
    ensures Inv(run[|run| - 1])
    decreases |run|
  {
    var n := |run| - 1;
    if n == 0 {
      InitInv();
    } else {
      RunInv(run[..n]);
      assert Moves(run[n - 1], run[n]);
      var a: Action :| Enabled(run[n - 1], a) && Do(run[n - 1], a).0 == run[n];
      StepKeeps(run[n - 1], a);
    }
  }

  /** Freshness: at any moment a get returns the most recent write reported stored with no later
      reported delete, or misses; and it misses such a write only for keys that a switch of tables left
      behind and that have not been written since. */
  lemma GetIsFresh(run: seq<State>, k: Key)
    requires IsRun(run)
    ensures var s := run[|run| - 1]; Visible(s, k) == if k in s.lost then None else Latest(s.told, k)
  {
    RunInv(run);
  }

  /** While building, the new table is a submap of the old one in keys, key objects and values. */
  lemma BuildingIsSubmap(run: seq<State>, k: Key)
    requires IsRun(run) && run[|run| - 1].phase.Building? && k in run[|run| - 1].phase.shadow
    ensures var s := run[|run| - 1];
            && k in s.entries && s.phase.shadow[k].obj == s.entries[k].obj
            && (Find(s.phase.shadow, k).Some? ==> Find(s.phase.shadow, k) == Find(s.entries, k))
  {
    RunInv(run);
    assert k in Shadow(run[|run| - 1]);
  }

  /** Conservation: every entry ever reported stored is either held, and then its base is owned by a
      table in use, or has been released, and released exactly once. */
  lemma StoredHeldOrReleased(run: seq<State>, i: nat)
    requires IsRun(run) && i < |run[|run| - 1].told| && run[|run| - 1].told[i].WasStored?
    ensures var s := run[|run| - 1]; var e := s.told[i].e;
            && e < |s.ents| && s.ents[e].stored
            && (s.ents[e].held <==> Owned(s, s.ents[e].base))
            && (e in s.freed <==> !s.ents[e].held) && NoDup(s.freed)
  {
    RunInv(run);
  }

  /** Between collections every value in the table is solely owned by it, and what is held is exactly
      what the table reaches: the collector has handed over or released everything. */
  lemma HandOffComplete(run: seq<State>)
    requires IsRun(run) && run[|run| - 1].phase.Quiet?
    ensures var s := run[|run| - 1];
            && (forall k | k in s.entries && s.entries[k].val.Some? :: !s.entries[k].val.value.shared)
            && (forall e | 0 <= e < |s.ents| :: s.ents[e].held <==>
                  && s.ents[e].stored && s.ents[e].base < |s.ents|
                  && OwnedBy(s.entries, s.ents[s.ents[e].base].key, s.ents[e].base))
            && (forall o | 0 <= o < |s.objs| :: s.objs[o].held <==> KeyOf(s.entries, s.objs[o].text, o))
            && (forall o | 0 <= o < |s.objs| :: o in s.freedKeys <==> s.objs[o].kept && !s.objs[o].held)
            && NoDup(s.freed) && NoDup(s.freedKeys)
  {
    RunInv(run);
  }

  /** Byte accounting: the counter is the total size of the entries stored and not yet released,
      including every version that hangs off a chain. */
  lemma BytesAccounted(run: seq<State>)
    requires IsRun(run)
    ensures run[|run| - 1].bytes == HeldBytes(run[|run| - 1].ents)
  {
    RunInv(run);
  }

  /** What a switch of tables leaves behind: the visible keys that were not shared into the new table. */
  lemma LostExactly(run: seq<State>, k: Key)
    requires IsRun(run) && run[|run| - 1].phase.Building?
    ensures var s := run[|run| - 1];
            k in SwitchTables(s).lost <==> k in s.lost || (Visible(s, k).Some? && Find(s.phase.shadow, k).None?)
  {
    RunInv(run);
    var s := run[|run| - 1];
    if k in s.phase.shadow { assert k in Shadow(s); }
  }

  // ---------------------------------------------------------------- replies

  /** The slot of `k` refers to a chain whose newest version was deleted during an earlier collection. */
  predicate Stale(s: State, k: Key) {
    !s.phase.Building? && Find(s.entries, k).Some? && Newest(s, Find(s.entries, k).value).None?
  }

  /** The replies of add, replace and delete agree with what a get would have found. */
  predicate RepliesAgree(s: State, k: Key, size: nat, room2: bool) {
    && (DoAdd(s, k, size, true, room2).1 == Stored <==> Visible(s, k).None?)
    && (DoReplace(s, k, size).1 == Stored <==> Visible(s, k).Some?)
    && (DoDel(s, k).1 == Deleted <==> Visible(s, k).Some?)
  }

  /** They agree exactly when the slot is not stale. */
  lemma RepliesAgreeExactly(s: State, k: Key, size: nat, room2: bool)
    ensures RepliesAgree(s, k, size, room2) <==> !Stale(s, k)
  {
  }

  lemma RunExtends(run: seq<State>, a: Action)
    requires IsRun(run) && Enabled(run[|run| - 1], a)
    ensures IsRun(run + [Do(run[|run| - 1], a).0])
  {
    var run' := run + [Do(run[|run| - 1], a).0];
    forall i: nat | i + 1 < |run'| ensures Moves(run'[i], run'[i + 1]) {
      if i + 1 < |run| { assert Moves(run[i], run[i + 1]); }
    }
  }

  /** `k` is set, then shared into the table being built, then deleted. */
  lemma StaleHead(k: Key) returns (run: seq<State>)
    ensures IsRun(run)
    ensures var s := run[|run| - 1];
            && s.entries == map[k := Slot(0, Some(Ref(0, false)))]
            && s.phase == Building(map[k := Slot(0, Some(Ref(0, true)))])
            && 0 in s.chains && s.chains[0] == Chain([0], true)
  {
    assert IsRun([INIT]);
    var run1 := StepOnce([INIT], Set(k, 1, true, true));
    var s1 := run1[|run1| - 1];
    assert s1.entries == map[k := Slot(0, Some(Ref(0, false)))] && s1.chains == map[0 := Chain([0], false)];
    var run2 := StepOnce(run1, StartCollect);
    var run3 := StepOnce(run2, Copy(k, true, true));
    run := StepOnce(run3, Del(k));
  }

  /** The switch and the clearing of `_building`. */
  lemma StaleSwitch(k: Key, s: State)
    requires s.entries == map[k := Slot(0, Some(Ref(0, false)))]
    requires s.phase == Building(map[k := Slot(0, Some(Ref(0, true)))])
    ensures var s2 := Do(Do(s, Switch).0, ClearBuilding).0;
            && s2.phase == HandingOff(s.entries) && s2.entries == map[k := Slot(0, Some(Ref(0, true)))]
            && s2.chains == s.chains
  {
  }

  /** The hand-off and the end of the collection. */
  lemma StaleHand(k: Key, s: State)
    requires s.phase == HandingOff(map[k := Slot(0, Some(Ref(0, false)))])
    requires s.entries == map[k := Slot(0, Some(Ref(0, true)))]
    requires 0 in s.chains && s.chains[0] == Chain([0], true)
    ensures Do(s, Hand(k)).0.phase == HandingOff(map[]) && Stale(Do(Do(s, Hand(k)).0, EndCollect).0, k)
  {
    assert s.phase.was - {k} == map[];
  }

  /** A stale slot is reachable: by `RepliesAgreeExactly` a get then misses, and yet add is refused and
      replace and delete succeed. */
  lemma StaleReachable(k: Key)
    ensures exists run :: IsRun(run) && Stale(run[|run| - 1], k)
  {
    var run := StaleHead(k);
    StaleSwitch(k, run[|run| - 1]);
    var run1 := StepOnce(run, Switch);
    var run2 := StepOnce(run1, ClearBuilding);
    StaleHand(k, run2[|run2| - 1]);
    var run3 := StepOnce(run2, Hand(k));
    var run4 := StepOnce(run3, EndCollect);
    assert Stale(run4[|run4| - 1], k);
  }

  lemma StepOnce(run: seq<State>, a: Action) returns (run': seq<State>)
    requires IsRun(run) && Enabled(run[|run| - 1], a)
    ensures IsRun(run') && run'[|run'| - 1] == Do(run[|run| - 1], a).0
  {
    RunExtends(run, a);
    run' := run + [Do(run[|run| - 1], a).0];
  }
}
