/** What every event of the startd core keeps, whatever arrives and in whatever order. */
module CoreInvariant {
  import opened Basics
  import opened Slots
  import opened CoreModel

  // --------------------------------------------------------------- invariant

  /** byName is exactly the configured slots plus the live dynamic ones, by unique name. */
  ghost predicate Registry(fixed: seq<SlotName>, dyn: seq<SlotName>, slots: map<SlotName, Slot>, dslotSeq: int) {
    && NoDup(fixed)
    && NoDup(dyn)
    && (forall n :: n in slots <==> n in fixed || n in dyn)
    && (forall n :: n in fixed ==> n.Configured? && !slots[n].IsDynamic())
    && (forall n :: n in dyn ==> DynamicEntry(fixed, slots, n) && n.subId <= dslotSeq)
  }

  ghost predicate DynamicEntry(fixed: seq<SlotName>, slots: map<SlotName, Slot>, n: SlotName) {
    n in slots && slots[n].kind.CarvedFrom? &&
    var k := slots[n].kind;
    n == DynamicName(k.parent, k.subId) && k.parent in fixed && k.parent in slots && slots[k.parent].kind.Partitionable?
  }

  /** The current claim id of a slot. */
  function Key(s: Slot): Option<ClaimId> { if s.claim.Some? then Some(s.claim.value.id) else None }

  /** Every current claim id was issued to the slot holding it; issued serials never run ahead. */
  ghost predicate Ids(slots: map<SlotName, Slot>, issued: map<ClaimId, SlotName>, birthdate: int, serial: nat) {
    && (forall n :: n in slots && slots[n].claim.Some? ==>
          slots[n].claim.value.id in issued && issued[slots[n].claim.value.id] == n)
    && (forall id :: id in issued && id.Minted? && id.birthdate == birthdate ==> id.serial <= serial)
  }

  /** Each p-slot's child list is the one recomputed from its live dynamic slots. */
  ghost predicate Children(slots: map<SlotName, Slot>, dyn: seq<SlotName>) {
    forall n :: n in slots ==> slots[n].children == ExpectedChildren(slots, dyn, n)
  }

  ghost function ExpectedChildren(slots: map<SlotName, Slot>, dyn: seq<SlotName>, n: SlotName): seq<ClaimId>
    requires n in slots
  {
    if slots[n].kind.Partitionable? then ChildIds(slots, dyn, n) else []
  }

  /** Everything the core knows under one slot name. */
  datatype Entry = Entry(slot: Option<Slot>, act: Option<Activation>, alive: Option<Alive>, timer: Option<ClaimId>)

  function Get<K, V>(m: map<K, V>, k: K): Option<V> { if k in m then Some(m[k]) else None }

  function At(c: Core, n: SlotName): Entry {
    Entry(Get(c.slots, n), Get(c.acts, n), Get(c.alive, n), Get(c.timers, n))
  }

  /**
   * The parts recorded under one name agree: State/Activity with the claim, a starter only on a
   * Claimed/Busy slot, a keepalive loop (with the current claim's identity) on exactly the claimed
   * slots, a match timer only for the id the slot is still Matched under. A p-slot is
   * never claimed, a dynamic slot never merely matched.
   */
  predicate Coherent(e: Entry) {
    match e.slot
    case None => e.act.None? && e.alive.None? && e.timer.None?
    case Some(s) =>
      && (e.timer.Some? ==> s.state == Matched && s.Holds(e.timer.value))
      && match s.claim
         case None => s.state == Unclaimed && s.activity == Idle && e.act.None? && e.alive.None?
         case Some(cl) =>
           match cl.state
           case NotClaimed =>
             s.state != Claimed && s.activity == Idle && !s.IsDynamic() && e.act.None? && e.alive.None?
           case ClaimedIdle =>
             && s.state == Claimed && s.activity == Idle && !s.kind.Partitionable?
             && e.act.None? && e.alive == Some(AliveFor(cl))
           case ClaimedBusy =>
             s.state == Claimed && s.activity == Busy && !s.kind.Partitionable? && e.alive == Some(AliveFor(cl))
  }

  ghost predicate AllCoherent(c: Core) { forall n :: Coherent(At(c, n)) }

  /**
   * The part of coherence that survives even a release whose mint fails: a Matched slot is configured,
   * unclaimed and idle, a dynamic slot with a claim is Claimed, a p-slot never is, a starter runs only
   * under a Busy claim.
   */
  predicate Sane(e: Entry) {
    match e.slot
    case None => e.act.None?
    case Some(s) =>
      && (s.state == Matched ==> s.claim.Some? && s.claim.value.state == NotClaimed && !s.IsDynamic())
      && (s.IsDynamic() && s.claim.Some? ==> s.HasClaimed() && s.state == Claimed)
      && (s.kind.Partitionable? ==> !s.HasClaimed())
      && (e.act.Some? ==> s.claim.Some? && s.claim.value.state == ClaimedBusy)
  }

  ghost predicate AllSane(c: Core) { forall n :: Sane(At(c, n)) }

  lemma CoherentIsSane(c: Core)
    requires AllCoherent(c)
    ensures AllSane(c)
  {
    forall n ensures Sane(At(c, n)) {
      assert Coherent(At(c, n));
    }
  }

  /** Generations identify running activations. */
  ghost predicate Generations(acts: map<SlotName, Activation>, gen: nat) {
    && (forall n :: n in acts ==> acts[n].gen <= gen)
    && (forall m, n :: m in acts && n in acts && acts[m].gen == acts[n].gen ==> m == n)
  }

  /** No wait channel of a stashed reply is shared or closed twice. */
  ghost predicate Waiting(deferred: map<SlotName, nat>, waits: nat, closed: set<nat>) {
    && (forall n :: n in deferred ==> deferred[n] < waits && deferred[n] !in closed)
    && (forall m, n :: m in deferred && n in deferred && deferred[m] == deferred[n] ==> m == n)
    && (forall w :: w in closed ==> w < waits)
  }

  ghost predicate Structure(c: Core) {
    && Registry(c.fixed, c.dyn, c.slots, c.dslotSeq)
    && Ids(c.slots, c.issued, c.birthdate, c.mintSerial)
    && Children(c.slots, c.dyn)
  }

  ghost predicate Inv(c: Core) {
    Structure(c) && AllCoherent(c) && Generations(c.acts, c.gen) && Waiting(c.deferred, c.waits, c.closedWaits)
  }

  // --------------------------------------------------- consequences, read out

  predicate IsBusy(c: Core, n: SlotName) {
    n in c.slots && c.slots[n].claim.Some? && c.slots[n].claim.value.state == ClaimedBusy
  }

  /** The joint state property, spelled out for one name. */
  lemma JointState(c: Core, n: SlotName)
    requires Inv(c)
    ensures n in c.slots ==> (c.slots[n].state == Claimed <==> c.Claimed(n))
    ensures n in c.slots ==> (c.slots[n].activity == Busy <==> IsBusy(c, n))
    ensures n in c.acts ==> IsBusy(c, n)
    ensures n in c.alive <==> c.Claimed(n)
    ensures n in c.alive ==> c.alive[n] == AliveFor(c.slots[n].claim.value)
    ensures n in c.timers ==> n in c.slots && c.slots[n].state == Matched && c.slots[n].Holds(c.timers[n])
  {
    assert Coherent(At(c, n));
  }

  /** Claim ids of live slots are pairwise distinct, so a lookup has one possible answer. */
  lemma FindIsUnique(c: Core, id: ClaimId, n: SlotName)
    requires Structure(c)
    ensures Find(c, id) == Some(n) <==> n in c.slots && c.slots[n].Holds(id)
  {
    FindInFinds(c.slots, c.Live(), id);
  }

  lemma FreshIsNew(c: Core)
    requires Ids(c.slots, c.issued, c.birthdate, c.mintSerial)
    ensures c.FreshId() !in c.issued
    ensures forall n :: n in c.slots ==> !c.slots[n].Holds(c.FreshId())
  {
  }

  // ----------------------------------------------- the child index under edits

  lemma {:induction false} ChildIdsFrame(a: map<SlotName, Slot>, b: map<SlotName, Slot>, dyn: seq<SlotName>, p: SlotName)
    requires forall n :: n in dyn ==> n in a && n in b && a[n].kind == b[n].kind && Key(a[n]) == Key(b[n])
    ensures ChildIds(a, dyn, p) == ChildIds(b, dyn, p)
  {
    if dyn != [] { ChildIdsFrame(a, b, dyn[1..], p); }
  }

  lemma {:induction false} ChildIdsAppend(slots: map<SlotName, Slot>, dyn: seq<SlotName>, d: SlotName, p: SlotName)
    ensures ChildIds(slots, dyn + [d], p) == ChildIds(slots, dyn, p) + ChildIds(slots, [d], p)
  {
    if dyn == [] {
      assert dyn + [d] == [d];
    } else {
      assert (dyn + [d])[1..] == dyn[1..] + [d];
      ChildIdsAppend(slots, dyn[1..], d, p);
    }
  }

  lemma {:induction false} ChildIdsRemoveOther(slots: map<SlotName, Slot>, dyn: seq<SlotName>, d: SlotName, p: SlotName)
    requires !IsChild(slots, d, p)
    ensures ChildIds(slots, Remove(dyn, d), p) == ChildIds(slots, dyn, p)
  {
    if dyn != [] && dyn[0] != d {
      ChildIdsRemoveOther(slots, dyn[1..], d, p);
      var r := Remove(dyn, d);
      assert r[0] == dyn[0] && r[1..] == Remove(dyn[1..], d);
    }
  }

  // ------------------------------------------ Structure under the slot edits

  predicate SamePlace(s: Slot, t: Slot) { t.kind == s.kind && t.children == s.children }

  lemma RegistryEdit(c: Core, n: SlotName, t: Slot)
    requires Registry(c.fixed, c.dyn, c.slots, c.dslotSeq) && n in c.slots && t.kind == c.slots[n].kind
    ensures Registry(c.fixed, c.dyn, c.slots[n := t], c.dslotSeq)
  {
  }

  /** A new claim on n may only carry an id issued to n. */
  lemma IdsEdit(c: Core, n: SlotName, t: Slot)
    requires Ids(c.slots, c.issued, c.birthdate, c.mintSerial) && n in c.slots
    requires Key(t) == Key(c.slots[n])
    ensures Ids(c.slots[n := t], c.issued, c.birthdate, c.mintSerial)
  {
  }

  lemma ChildrenEdit(c: Core, n: SlotName, t: Slot)
    requires Registry(c.fixed, c.dyn, c.slots, c.dslotSeq) && Children(c.slots, c.dyn)
    requires n in c.slots && SamePlace(c.slots[n], t)
    requires n in c.dyn ==> Key(t) == Key(c.slots[n])
    ensures Children(c.slots[n := t], c.dyn)
  {
    var slots := c.slots[n := t];
    forall p | p in slots ensures ChildIds(slots, c.dyn, p) == ChildIds(c.slots, c.dyn, p) {
      ChildIdsFrame(c.slots, slots, c.dyn, p);
    }
  }

  /** An edit of one slot that leaves its place and its claim id alone. */
  lemma EditKeepsStructure(c: Core, n: SlotName, t: Slot)
    requires Structure(c) && n in c.slots
    requires SamePlace(c.slots[n], t) && Key(t) == Key(c.slots[n])
    ensures Structure(c.Put(n, t))
  {
    RegistryEdit(c, n, t);
    IdsEdit(c, n, t);
    ChildrenEdit(c, n, t);
  }

  lemma UnclaimKeepsIds(c: Core, n: SlotName, now: int, mint: bool)
    requires Ids(c.slots, c.issued, c.birthdate, c.mintSerial) && n in c.slots
    ensures var c1 := Unclaim(c, n, now, mint); Ids(c1.slots, c1.issued, c1.birthdate, c1.mintSerial)
  {
    FreshIsNew(c);
    if mint {
      assert Key(Unclaim(c, n, now, mint).slots[n]) == Some(c.FreshId());
    } else {
      IdsEdit(c, n, Unclaim(c, n, now, mint).slots[n]);
    }
  }

  /** A configured slot goes back to Unclaimed, with a freshly minted claim if there is one. */
  lemma UnclaimKeepsStructure(c: Core, n: SlotName, now: int, mint: bool)
    requires Structure(c) && n in c.slots && !c.slots[n].IsDynamic()
    ensures Structure(Unclaim(c, n, now, mint))
  {
    var t := Unclaim(c, n, now, mint).slots[n];
    ConfiguredIsUnlisted(c, n);
    hide Registry, Ids, Children;
    UnclaimKeepsIds(c, n, now, mint);
    RegistryEdit(c, n, t);
    ChildrenEdit(c, n, t);
  }

  lemma ConfiguredIsUnlisted(c: Core, n: SlotName)
    requires Registry(c.fixed, c.dyn, c.slots, c.dslotSeq) && n in c.slots && !c.slots[n].IsDynamic()
    ensures n !in c.dyn
  {
  }

  /** The name a carve will use is not taken. */
  lemma NextNameIsNew(c: Core, p: SlotName)
    requires Registry(c.fixed, c.dyn, c.slots, c.dslotSeq)
    ensures DynamicName(p, c.dslotSeq + 1) !in c.slots
    ensures DynamicName(p, c.dslotSeq + 1) !in c.fixed + c.dyn
  {
  }

  lemma CarveKeepsRegistry(c: Core, p: SlotName, req: Resources, schedd: Schedd, now: int)
    requires Registry(c.fixed, c.dyn, c.slots, c.dslotSeq) && p in c.fixed && c.slots[p].kind.Partitionable?
    ensures var c1 := Carved(c, p, req, schedd, now); Registry(c1.fixed, c1.dyn, c1.slots, c1.dslotSeq)
  {
    NextNameIsNew(c, p);
    var d := DynamicName(p, c.dslotSeq + 1);
    AppendNoDup(c.dyn, d);
    var c1 := Carved(c, p, req, schedd, now);
    assert c1.slots[d].kind == CarvedFrom(p, c.dslotSeq + 1);
    assert forall n :: n in c.slots ==> c1.slots[n].kind == c.slots[n].kind;
  }

  lemma CarveKeepsIds(c: Core, p: SlotName, req: Resources, schedd: Schedd, now: int)
    requires Structure(c) && p in c.slots
    ensures var c1 := Carved(c, p, req, schedd, now); Ids(c1.slots, c1.issued, c1.birthdate, c1.mintSerial)
  {
    hide Registry, Children;
    NextNameIsNew(c, p);
    FreshIsNew(c);
    var c1 := Carved(c, p, req, schedd, now);
    var d := DynamicName(p, c.dslotSeq + 1);
    assert c1.slots[d].claim.value.id == c.FreshId();
    assert forall n :: n in c.slots ==> Key(c1.slots[n]) == Key(c.slots[n]);
  }

  /** The child list of a slot other than the carved one does not see the new slot. */
  lemma CarveLeavesOthers(c: Core, p: SlotName, req: Resources, schedd: Schedd, now: int, q: SlotName)
    requires Registry(c.fixed, c.dyn, c.slots, c.dslotSeq) && p in c.slots && q != p
    ensures var c1 := Carved(c, p, req, schedd, now); ChildIds(c1.slots, c1.dyn, q) == ChildIds(c.slots, c.dyn, q)
  {
    NextNameIsNew(c, p);
    var c1 := Carved(c, p, req, schedd, now);
    ChildIdsAppend(c1.slots, c.dyn, DynamicName(p, c.dslotSeq + 1), q);
    ChildIdsFrame(c.slots, c1.slots, c.dyn, q);
  }

  /** Writing a slot's child list changes nobody's child list. */
  lemma RefreshLeavesChildIds(c: Core, p: SlotName, q: SlotName)
    requires p in c.slots && forall n :: n in c.dyn ==> n in c.slots
    ensures ChildIds(RefreshChildren(c, p).slots, c.dyn, q) == ChildIds(c.slots, c.dyn, q)
  {
    ChildIdsFrame(c.slots, RefreshChildren(c, p).slots, c.dyn, q);
  }

  lemma CarveChildrenAt(c: Core, p: SlotName, req: Resources, schedd: Schedd, now: int, q: SlotName)
    requires Registry(c.fixed, c.dyn, c.slots, c.dslotSeq) && p in c.fixed && c.slots[p].kind.Partitionable?
    requires q in c.slots ==> c.slots[q].children == ExpectedChildren(c.slots, c.dyn, q)
    requires q in RefreshChildren(Carved(c, p, req, schedd, now), p).slots
    ensures var c2 := RefreshChildren(Carved(c, p, req, schedd, now), p);
            c2.slots[q].children == ExpectedChildren(c2.slots, c2.dyn, q)
  {
    NextNameIsNew(c, p);
    CarveKeepsRegistry(c, p, req, schedd, now);
    var c1 := Carved(c, p, req, schedd, now);
    RegistryLists(c1);
    hide Registry, ChildIds;
    RefreshLeavesChildIds(c1, p, q);
    if q != p && q != DynamicName(p, c.dslotSeq + 1) {
      CarveLeavesOthers(c, p, req, schedd, now, q);
    }
  }

  lemma CarveKeepsChildren(c: Core, p: SlotName, req: Resources, schedd: Schedd, now: int)
    requires Registry(c.fixed, c.dyn, c.slots, c.dslotSeq) && Children(c.slots, c.dyn)
    requires p in c.fixed && p in c.slots && c.slots[p].kind.Partitionable?
    ensures var c2 := RefreshChildren(Carved(c, p, req, schedd, now), p); Children(c2.slots, c2.dyn)
  {
    hide Registry, ChildIds, ExpectedChildren, RefreshChildren;
    var c2 := RefreshChildren(Carved(c, p, req, schedd, now), p);
    forall q | q in c2.slots ensures c2.slots[q].children == ExpectedChildren(c2.slots, c2.dyn, q) {
      CarveChildrenAt(c, p, req, schedd, now, q);
    }
  }

  lemma RegistryLists(c: Core)
    requires Registry(c.fixed, c.dyn, c.slots, c.dslotSeq)
    ensures forall n :: n in c.dyn ==> n in c.slots
  {
  }

  lemma CarveKeepsStructure(c: Core, p: SlotName, req: Resources, schedd: Schedd, now: int)
    requires Structure(c) && p in c.fixed && c.slots[p].kind.Partitionable?
    ensures Structure(RefreshChildren(Carved(c, p, req, schedd, now), p))
  {
    var c1 := Carved(c, p, req, schedd, now);
    var c2 := RefreshChildren(c1, p);
    CarveKeepsRegistry(c, p, req, schedd, now);
    CarveKeepsIds(c, p, req, schedd, now);
    CarveKeepsChildren(c, p, req, schedd, now);
    RegistryEdit(c1, p, c2.slots[p]);
    IdsEdit(c1, p, c2.slots[p]);
  }

  lemma UnregisterKeepsRegistry(c: Core, d: SlotName)
    requires Registry(c.fixed, c.dyn, c.slots, c.dslotSeq) && d in c.dyn
    ensures var c1 := Unregistered(c, d); Registry(c1.fixed, c1.dyn, c1.slots, c1.dslotSeq)
    ensures c.slots[d].kind.parent in Unregistered(c, d).slots
  {
    RemoveIsDeletion(c.dyn, d);
  }

  lemma DestroyChildrenAt(c: Core, d: SlotName, q: SlotName)
    requires Registry(c.fixed, c.dyn, c.slots, c.dslotSeq) && d in c.dyn
    requires q in c.slots ==> c.slots[q].children == ExpectedChildren(c.slots, c.dyn, q)
    requires q in Destroy(c, d).core.slots
    ensures var c2 := Destroy(c, d).core; c2.slots[q].children == ExpectedChildren(c2.slots, c2.dyn, q)
  {
    hide Persist;
    RemoveIsDeletion(c.dyn, d);
    UnregisterKeepsRegistry(c, d);
    var p := c.slots[d].kind.parent;
    var c1 := Unregistered(c, d);
    var c1r := c1.Put(p, c1.slots[p].Restore(c.slots[d].res));
    var c2 := Destroy(c, d).core;
    if q == p {
      RefreshLeavesChildIds(c1r, p, p);
    } else {
      ChildIdsFrame(c.slots, c2.slots, c2.dyn, q);
      ChildIdsRemoveOther(c.slots, c.dyn, d, q);
    }
  }

  lemma DestroyKeepsChildren(c: Core, d: SlotName)
    requires Registry(c.fixed, c.dyn, c.slots, c.dslotSeq) && Children(c.slots, c.dyn)
    requires d in c.dyn && d in c.slots && c.slots[d].IsDynamic()
    ensures var c2 := Destroy(c, d).core; Children(c2.slots, c2.dyn)
  {
    hide Registry, ExpectedChildren, Destroy;
    var c2 := Destroy(c, d).core;
    forall q | q in c2.slots ensures c2.slots[q].children == ExpectedChildren(c2.slots, c2.dyn, q) {
      DestroyChildrenAt(c, d, q);
    }
  }

  lemma UnregisterKeepsIds(c: Core, d: SlotName)
    requires Ids(c.slots, c.issued, c.birthdate, c.mintSerial)
    ensures Ids(Unregistered(c, d).slots, c.issued, c.birthdate, c.mintSerial)
  {
  }

  lemma DestroyKeepsStructure(c: Core, d: SlotName)
    requires Structure(c) && d in c.dyn && d in c.slots && c.slots[d].IsDynamic()
    ensures Structure(Destroy(c, d).core)
  {
    hide Registry, Ids, Children, Persist, ChildIds, Remove;
    UnregisterKeepsRegistry(c, d);
    UnregisterKeepsIds(c, d);
    DestroyKeepsChildren(c, d);
    var p := c.slots[d].kind.parent;
    var c1 := Unregistered(c, d);
    var c2 := Destroy(c, d).core;
    assert c2.slots == c1.slots[p := c2.slots[p]];
    RegistryEdit(c1, p, c2.slots[p]);
    IdsEdit(c1, p, c2.slots[p]);
  }

  // ----------------------------------------------------------- every handler

  /** Nothing but the entry of n differs. */
  ghost predicate OnlyAt(c: Core, c1: Core, n: SlotName) { forall m :: m != n ==> At(c1, m) == At(c, m) }

  lemma LocalStep(c: Core, c1: Core, n: SlotName)
    requires AllCoherent(c) && OnlyAt(c, c1, n) && Coherent(At(c1, n))
    ensures AllCoherent(c1)
  {
    forall m ensures Coherent(At(c1, m)) {
      assert Coherent(At(c, m));
    }
  }

  lemma MatchSlotKeeps(c: Core, n: SlotName, id: ClaimId, now: int)
    requires Inv(c) && n in c.slots && c.slots[n].Holds(id)
    requires c.slots[n].claim.value.state == NotClaimed
    ensures Inv(MatchSlot(c, n, id, now).core)
  {
    hide Registry, Ids, Children, Generations, Waiting, Persist;
    var c1 := MatchSlot(c, n, id, now).core;
    assert Coherent(At(c, n));
    EditKeepsStructure(c, n, c1.slots[n]);
    LocalStep(c, c1, n);
  }

  lemma DropTimerKeeps(c: Core, n: SlotName)
    requires Inv(c)
    ensures Inv(DropTimer(c, n))
  {
    hide Registry, Ids, Children, Generations, Waiting;
    assert Coherent(At(c, n));
    LocalStep(c, DropTimer(c, n), n);
  }

  lemma UnclaimLocally(c: Core, n: SlotName, now: int, mint: bool)
    requires n in c.slots && !c.slots[n].IsDynamic() && n !in c.timers && n !in c.alive && n !in c.acts
    ensures OnlyAt(c, Unclaim(c, n, now, mint), n)
    ensures mint ==> Coherent(At(Unclaim(c, n, now, mint), n))
    ensures !mint && c.Claimed(n) ==> !Coherent(At(Unclaim(c, n, now, mint), n))
    ensures !mint && !c.Claimed(n) ==> Coherent(At(Unclaim(c, n, now, mint), n))
  {
  }

  lemma OnlyAtTwice(a: Core, b: Core, c: Core, n: SlotName)
    requires OnlyAt(a, b, n) && OnlyAt(b, c, n)
    ensures OnlyAt(a, c, n)
  {
    hide At;
  }

  /** Unclaiming restores coherence exactly when no claimed claim is left behind. */
  lemma UnclaimKeeps(c: Core, c0: Core, n: SlotName, now: int, mint: bool)
    requires Structure(c) && Generations(c.acts, c.gen) && Waiting(c.deferred, c.waits, c.closedWaits)
    requires AllCoherent(c0) && OnlyAt(c0, c, n)
    requires n in c.slots && !c.slots[n].IsDynamic() && n !in c.timers && n !in c.alive && n !in c.acts
    ensures Inv(UnclaimAndSave(c, n, now, mint).core) <==> mint || !c.Claimed(n)
  {
    hide Registry, Ids, Children, Generations, Waiting, Persist, OnlyAt, At, Coherent;
    var c1 := Unclaim(c, n, now, mint);
    UnclaimKeepsStructure(c, n, now, mint);
    UnclaimLocally(c, n, now, mint);
    OnlyAtTwice(c0, c, c1, n);
    if mint || !c.Claimed(n) {
      LocalStep(c0, c1, n);
    } else {
      assert !Coherent(At(c1, n));
    }
  }

  lemma MatchTimeoutKeeps(c: Core, n: SlotName, id: ClaimId, now: int, mint: bool)
    requires Inv(c)
    ensures Inv(DoMatchTimeout(c, n, id, now, mint).core)
  {
    hide Registry, Ids, Children, Generations, Waiting, UnclaimAndSave;
    DropTimerKeeps(c, n);
    assert Coherent(At(c, n));
    if n in c.slots && c.slots[n].state == Matched && c.slots[n].Holds(id) {
      UnclaimKeeps(DropTimer(c, n), c, n, now, mint);
    }
  }

  lemma AcceptSlotKeeps(c: Core, n: SlotName, ask: ClaimRequest, now: int)
    requires Inv(c) && n in c.slots && c.slots[n].claim.Some? && n !in c.timers
    requires c.slots[n].claim.value.state == NotClaimed && !c.slots[n].kind.Partitionable?
    ensures Inv(AcceptSlot(c, n, ask, now).core)
  {
    hide Registry, Ids, Children, Generations, Waiting, Persist;
    var c1 := AcceptSlot(c, n, ask, now).core;
    assert Coherent(At(c, n));
    EditKeepsStructure(c, n, c1.slots[n]);
    LocalStep(c, c1, n);
  }

  lemma PartitionableIsFixed(c: Core, p: SlotName)
    requires Registry(c.fixed, c.dyn, c.slots, c.dslotSeq) && p in c.slots && c.slots[p].kind.Partitionable?
    ensures p in c.fixed
  {
  }

  /** A sequence number may be skipped. */
  lemma SkipSerial(c: Core)
    requires Inv(c)
    ensures Inv(c.(mintSerial := c.mintSerial + 1))
  {
    hide Registry, Children, Generations, Waiting;
    var c1 := c.(mintSerial := c.mintSerial + 1);
    forall m ensures Coherent(At(c1, m)) {
      assert Coherent(At(c, m)) && At(c1, m) == At(c, m);
    }
  }

  lemma CarvedCoherent(c: Core, p: SlotName, req: Resources, schedd: Schedd, now: int)
    requires AllCoherent(c) && p in c.slots && c.slots[p].kind.Partitionable?
    requires DynamicName(p, c.dslotSeq + 1) !in c.slots
    ensures var d := DynamicName(p, c.dslotSeq + 1);
            AllCoherent(StartAlive(RefreshChildren(Carved(c, p, req, schedd, now), p), d))
  {
    hide ChildIds;
    var d := DynamicName(p, c.dslotSeq + 1);
    var c2 := RefreshChildren(Carved(c, p, req, schedd, now), p);
    var c3 := StartAlive(c2, d);
    forall m ensures Coherent(At(c3, m)) {
      assert Coherent(At(c, m));
      assert Coherent(At(c, p));
    }
  }

  lemma CarveSlotKeeps(c: Core, p: SlotName, ask: ClaimRequest, now: int)
    requires Inv(c) && p in c.slots && c.slots[p].claim.Some? && c.slots[p].kind.Partitionable?
    ensures Inv(CarveSlot(c, p, ask, now).core)
  {
    hide Registry, Ids, Children, AllCoherent, Generations, Waiting, Persist, ChildIds;
    PartitionableIsFixed(c, p);
    NextNameIsNew(c, p);
    CarveKeepsStructure(c, p, Requested(ask.want), ask.schedd, now);
    CarvedCoherent(c, p, Requested(ask.want), ask.schedd, now);
  }

  lemma DynamicIsListed(c: Core, n: SlotName)
    requires Registry(c.fixed, c.dyn, c.slots, c.dslotSeq) && n in c.slots && c.slots[n].IsDynamic()
    ensures n in c.dyn && c.slots[n].kind.parent in c.slots && c.slots[n].kind.parent != n
  {
  }

  /** Coherence does not look at resources and children. */
  lemma CoherentIgnoresShares(e: Entry, f: Entry)
    requires Coherent(e) && e.slot.Some?
    requires exists res, children :: f == e.(slot := Some(e.slot.value.(res := res, children := children)))
    ensures Coherent(f)
  {
  }

  lemma DestroyedCoherent(c: Core, c0: Core, d: SlotName)
    requires AllCoherent(c0) && OnlyAt(c0, c, d)
    requires d in c.slots && c.slots[d].IsDynamic() && d !in c.timers && d !in c.alive && d !in c.acts
    requires c.slots[d].kind.parent in c.slots && c.slots[d].kind.parent != d
    ensures AllCoherent(Destroy(c, d).core)
  {
    hide Persist, ChildIds, Remove, Coherent;
    var p := c.slots[d].kind.parent;
    var c2 := Destroy(c, d).core;
    forall m ensures Coherent(At(c2, m)) {
      assert Coherent(At(c0, m));
      if m == d {
        NothingIsCoherent();
      } else if m == p {
        assert At(c2, p) == At(c, p).(slot := Some(c.slots[p].(res := c2.slots[p].res, children := c2.slots[p].children)));
        CoherentIgnoresShares(At(c0, p), At(c2, p));
      } else {
        assert At(c2, m) == At(c0, m);
      }
    }
  }

  lemma NothingIsCoherent()
    ensures Coherent(Entry(None, None, None, None))
  {
  }

  lemma DestroyKeeps(c: Core, c0: Core, d: SlotName)
    requires Structure(c) && Generations(c.acts, c.gen) && Waiting(c.deferred, c.waits, c.closedWaits)
    requires AllCoherent(c0) && OnlyAt(c0, c, d)
    requires d in c.slots && c.slots[d].IsDynamic() && d !in c.timers && d !in c.alive && d !in c.acts
    ensures Inv(Destroy(c, d).core)
  {
    hide Registry, Ids, Children, Generations, Waiting, Persist, ChildIds, Remove, OnlyAt, AllCoherent;
    DynamicIsListed(c, d);
    DestroyKeepsStructure(c, d);
    DestroyedCoherent(c, c0, d);
  }

  /** Releasing a claimed configured slot whose new claim cannot be minted. */
  predicate Strands(c: Core, n: SlotName, mint: bool) {
    !mint && c.Claimed(n) && !c.slots[n].IsDynamic()
  }

  lemma FewerGenerations(acts: map<SlotName, Activation>, gen: nat, n: SlotName)
    requires Generations(acts, gen)
    ensures Generations(acts - {n}, gen)
  {
  }

  lemma ReleaseKeeps(c: Core, n: SlotName, now: int, mint: bool)
    requires Inv(c) && n in c.slots
    ensures Inv(Release(c, n, now, mint).core) <==> !Strands(c, n, mint)
  {
    hide Registry, Ids, Children, AllCoherent, Generations, Waiting, Destroy, UnclaimAndSave;
    FewerGenerations(c.acts, c.gen, n);
    var c1 := Detach(c, n);
    if c.slots[n].IsDynamic() {
      DestroyKeeps(c1, c, n);
    } else {
      UnclaimKeeps(c1, c, n, now, mint);
    }
  }

  lemma NextGeneration(acts: map<SlotName, Activation>, gen: nat, n: SlotName, a: Activation)
    requires Generations(acts, gen) && a.gen == gen + 1
    ensures Generations(acts[n := a], gen + 1)
    ensures Generations(acts, gen + 1)
  {
  }

  lemma ActivateLocally(c: Core, n: SlotName, job: JobRequest, now: int)
    requires n in c.slots && c.slots[n].claim.Some? && c.slots[n].claim.value.state == ClaimedIdle && Coherent(At(c, n))
    ensures OnlyAt(c, ActivateSlot(c, n, job, now).core, n) && Coherent(At(ActivateSlot(c, n, job, now).core, n))
  {
    hide Persist, FreshActivation;
  }

  lemma ActivateSlotKeeps(c: Core, n: SlotName, job: JobRequest, now: int)
    requires Inv(c) && n in c.slots && c.slots[n].claim.Some? && c.slots[n].claim.value.state == ClaimedIdle
    ensures Inv(ActivateSlot(c, n, job, now).core)
  {
    hide Registry, Ids, Children, Generations, Waiting, Persist, Coherent, OnlyAt, At;
    var c1 := ActivateSlot(c, n, job, now).core;
    NextGeneration(c.acts, c.gen, n, FreshActivation(c, n, job));
    assert Coherent(At(c, n));
    ActivateLocally(c, n, job, now);
    EditKeepsStructure(c, n, c1.slots[n]);
    LocalStep(c, c1, n);
  }

  lemma ReleaseDeferredKeeps(c: Core, n: SlotName)
    requires Waiting(c.deferred, c.waits, c.closedWaits)
    ensures var c1 := ReleaseDeferred(c, n); Waiting(c1.deferred, c1.waits, c1.closedWaits)
  {
  }

  lemma IdleLocally(c: Core, c0: Core, n: SlotName, final: Option<FinalReport>, now: int)
    requires Coherent(At(c0, n)) && n in c0.acts && At(c, n) == At(c0, n).(act := None)
    ensures OnlyAt(c, IdleSlot(c, n, final, now).core, n) && Coherent(At(IdleSlot(c, n, final, now).core, n))
  {
    hide Persist;
  }

  lemma IdleSlotKeeps(c: Core, c0: Core, n: SlotName, final: Option<FinalReport>, now: int)
    requires Structure(c) && Generations(c.acts, c.gen) && Waiting(c.deferred, c.waits, c.closedWaits)
    requires AllCoherent(c0) && OnlyAt(c0, c, n) && n in c0.acts && At(c, n) == At(c0, n).(act := None)
    ensures Inv(IdleSlot(c, n, final, now).core)
  {
    hide Registry, Ids, Children, Generations, Waiting, Persist, Coherent, OnlyAt, At;
    var c1 := IdleSlot(c, n, final, now).core;
    assert Coherent(At(c0, n));
    IdleLocally(c, c0, n, final, now);
    OnlyAtTwice(c0, c, c1, n);
    if n in c.slots { EditKeepsStructure(c, n, c1.slots[n]); }
    LocalStep(c0, c1, n);
  }

  lemma StarterExitedKeeps(c: Core, n: SlotName, now: int)
    requires Inv(c)
    ensures Inv(DoStarterExited(c, n, now).core)
  {
    hide Registry, Ids, Children, Generations, Waiting, IdleSlot;
    if n in c.acts {
      FewerGenerations(c.acts, c.gen, n);
      ReleaseDeferredKeeps(DropAct(c, n), n);
      IdleSlotKeeps(ReleaseDeferred(DropAct(c, n), n), c, n, ClaimAt(c, n).final, now);
    } else {
      ReleaseDeferredKeeps(c, n);
      assert Coherent(At(c, n));
      LocalStep(c, ReleaseDeferred(c, n), n);
    }
  }

  lemma AdoptFailedKeeps(c: Core, n: SlotName, marker: Option<FinalReport>, now: int, mint: bool)
    requires Inv(c)
    ensures Inv(DoAdoptFailed(c, n, marker, now, mint).core)
            <==> !(n in c.acts && marker.None? && Strands(c, n, mint))
  {
    hide Registry, Ids, Children, Generations, Waiting, IdleSlot, Release;
    assert Coherent(At(c, n));
    if n in c.acts {
      if marker.None? {
        ReleaseKeeps(c, n, now, mint);
      } else {
        FewerGenerations(c.acts, c.gen, n);
        IdleSlotKeeps(DropAct(c, n), c, n, marker, now);
      }
    }
  }

  lemma OnClaimedKeeps(c: Core, n: SlotName, cl: Claim)
    requires Inv(c)
    requires c.Claimed(n) ==>
               var k := c.slots[n].claim.value; cl.id == k.id && cl.state == k.state && cl.schedd == k.schedd
    ensures Inv(OnClaimed(c, n, cl))
  {
    hide Registry, Ids, Children, Generations, Waiting;
    assert Coherent(At(c, n));
    if c.Claimed(n) {
      EditKeepsStructure(c, n, OnClaimed(c, n, cl).slots[n]);
      LocalStep(c, OnClaimed(c, n, cl), n);
    }
  }

  lemma SameGeneration(acts: map<SlotName, Activation>, gen: nat, n: SlotName, a: Activation)
    requires Generations(acts, gen) && n in acts && a.gen == acts[n].gen
    ensures Generations(acts[n := a], gen)
  {
  }

  /** Edits of a running activation that keep its generation. */
  lemma ActEditKeeps(c: Core, c1: Core, n: SlotName, a: Activation)
    requires Inv(c) && n in c.acts && a.gen == c.acts[n].gen && c1 == c.(acts := c.acts[n := a])
    ensures Inv(c1)
  {
    hide Registry, Ids, Children, Generations, Waiting;
    SameGeneration(c.acts, c.gen, n, a);
    assert Coherent(At(c, n));
    LocalStep(c, c1, n);
  }

  lemma DeactivateKeeps(c: Core, id: ClaimId, jobDone: bool)
    requires Inv(c)
    ensures Inv(DoDeactivate(c, id, jobDone).core)
  {
    hide Registry, Ids, Children, Generations, FindIn, Coherent;
    var c1 := DoDeactivate(c, id, jobDone).core;
    forall m ensures Coherent(At(c1, m)) {
      assert Coherent(At(c, m)) && At(c1, m) == At(c, m);
    }
  }

  /** Exactly the events that leave a released slot with a claim still marked claimed. */
  predicate StrandsClaim(c: Core, ev: Event) {
    match ev
    case ReleaseClaim(id, _, mint) => Find(c, id).Some? && Strands(c, Find(c, id).value, mint)
    case ReleaseSlot(n, _, mint) => Strands(c, n, mint)
    case AdoptFailed(n, marker, _, mint) => n in c.acts && marker.None? && Strands(c, n, mint)
    case _ => false
  }

  lemma MatchInfoKeeps(c: Core, id: ClaimId, now: int)
    requires Inv(c)
    ensures Inv(DoMatchInfo(c, id, now).core)
  {
    hide Inv, MatchSlot, FindIn;
    FindInFinds(c.slots, c.Live(), id);
    if Find(c, id).Some? && c.slots[Find(c, id).value].claim.value.state == NotClaimed {
      MatchSlotKeeps(c, Find(c, id).value, id, now);
    }
  }

  lemma RequestClaimKeeps(c: Core, id: ClaimId, ask: ClaimRequest, now: int, mint: bool)
    requires Inv(c)
    ensures Inv(DoRequestClaim(c, id, ask, now, mint).core)
  {
    hide Inv, CarveSlot, AcceptSlot, FindIn;
    FindInFinds(c.slots, c.Live(), id);
    if Find(c, id).Some? && c.slots[Find(c, id).value].claim.value.state == NotClaimed {
      var n := Find(c, id).value;
      var c1 := DropTimer(c, n);
      DropTimerKeeps(c, n);
      if c.slots[n].kind.Partitionable? {
        SkipSerial(c1);
        CarveSlotKeeps(c1, n, ask, now);
      } else {
        AcceptSlotKeeps(c1, n, ask, now);
      }
    }
  }

  /** The sandbox counter is nobody's business. */
  lemma SandboxCounterKeeps(c: Core)
    requires Inv(c)
    ensures Inv(c.(sandboxSeq := c.sandboxSeq + 1))
  {
    hide Registry, Ids, Children, Generations, Waiting, Coherent;
    var c1 := c.(sandboxSeq := c.sandboxSeq + 1);
    forall m ensures Coherent(At(c1, m)) {
      assert Coherent(At(c, m)) && At(c1, m) == At(c, m);
    }
  }

  lemma ActivateKeeps(c: Core, id: ClaimId, job: JobRequest, now: int)
    requires Inv(c)
    ensures Inv(DoActivateClaim(c, id, job, now).core)
  {
    hide Inv, ActivateSlot, FindIn;
    FindInFinds(c.slots, c.Live(), id);
    SandboxCounterKeeps(c);
    if Find(c, id).Some? && c.slots[Find(c, id).value].claim.value.state == ClaimedIdle {
      ActivateSlotKeeps(c.(sandboxSeq := c.sandboxSeq + 1), Find(c, id).value, job, now);
    }
  }

  /**
   * One step, any event whatever: the joint invariant survives exactly when the event does not
   * release a claimed configured slot while minting its replacement claim fails.
   */
  lemma StepKeepsInv(c: Core, ev: Event)
    requires Inv(c)
    ensures Inv(Step(c, ev).core) <==> !StrandsClaim(c, ev)
  {
    hide Inv, FindIn, Persist, DoMatchInfo, DoMatchTimeout, DoRequestClaim, Release, DoActivateClaim, DoStarterExited,
      DoAdoptFailed, DoDeactivate, OnClaimed;
    match ev
    case MatchInfo(id, now) => MatchInfoKeeps(c, id, now);
    case MatchTimeout(n, id, now, mint) => MatchTimeoutKeeps(c, n, id, now, mint);
    case RequestClaim(id, ask, now, mint) => RequestClaimKeeps(c, id, ask, now, mint);
    case ReleaseClaim(id, now, mint) =>
      FindInFinds(c.slots, c.Live(), id);
      if Find(c, id).Some? { ReleaseKeeps(c, Find(c, id).value, now, mint); }
    case ReleaseSlot(n, now, mint) => if n in c.slots { ReleaseKeeps(c, n, now, mint); }
    case AliveOk(n, now) => OnClaimedKeeps(c, n, Extended(ClaimAt(c, n), c.config.alivesMissed, now));
    case ActivateClaim(id, job, now) => ActivateKeeps(c, id, job, now);
    case StarterUpdate(n, ad) => OnClaimedKeeps(c, n, ClaimAt(c, n).(update := ad));
    case StarterFinal(n, report) => OnClaimedKeeps(c, n, ClaimAt(c, n).(final := Some(report)));
    case StarterExited(n, now) => StarterExitedKeeps(c, n, now);
    case StarterHello(n, addr, pid) => HelloKeeps(c, n, addr, pid);
    case AdoptFailed(n, marker, now, mint) => AdoptFailedKeeps(c, n, marker, now, mint);
    case Deactivate(id, jobDone) => DeactivateKeeps(c, id, jobDone);
    case Vacate(n, hard) => if n in c.acts { ActEditKeeps(c, DoVacate(c, n, hard), n, DoVacate(c, n, hard).acts[n]); }
    case VacateEscalate(n, gen) =>
      if n in c.acts { ActEditKeeps(c, c.(acts := c.acts[n := Offer(c.acts[n], VacateHard)]), n, Offer(c.acts[n], VacateHard)); }
    case VacateTaken(n) => if n in c.acts { ActEditKeeps(c, DoVacateTaken(c, n), n, DoVacateTaken(c, n).acts[n]); }
  }

  lemma HelloKeeps(c: Core, n: SlotName, addr: string, pid: int)
    requires Inv(c)
    ensures Inv(DoStarterHello(c, n, addr, pid).core)
  {
    hide Inv, Persist;
    if n in c.acts && DoStarterHello(c, n, addr, pid).core != c {
      ActEditKeeps(c, DoStarterHello(c, n, addr, pid).core, n, DoStarterHello(c, n, addr, pid).core.acts[n]);
    }
  }
}
