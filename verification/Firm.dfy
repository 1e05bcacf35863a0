/** What every event of every run keeps, a release whose mint fails included. */
module Firmness {
  import opened Basics
  import opened Slots
  import opened CoreModel
  import opened CoreInvariant
  import opened StepShapes

  /** Registry, ids and child index exact; slots sane; generations identify starters. */
  ghost predicate Firm(c: Core) { Structure(c) && AllSane(c) && Generations(c.acts, c.gen) }

  lemma InvIsFirm(c: Core)
    requires Inv(c)
    ensures Firm(c)
  {
    hide Structure, Generations, Waiting;
    CoherentIsSane(c);
  }

  // ------------------------------------------------------------ structure, by shape

  lemma SkippedIds(slots: map<SlotName, Slot>, issued: map<ClaimId, SlotName>, birthdate: int, serial: nat, serial1: nat)
    requires Ids(slots, issued, birthdate, serial) && serial <= serial1
    ensures Ids(slots, issued, birthdate, serial1)
  {
  }

  /** One entry of the table changed, or none at all. */
  lemma EditedSlots(c: Core, c1: Core, n: SlotName)
    requires OnlyAt(c, c1, n) && (n in c.slots <==> n in c1.slots)
    ensures n in c.slots ==> c1.slots == c.slots[n := c1.slots[n]]
    ensures n !in c.slots ==> c1.slots == c.slots
  {
    forall m ensures m in c.slots <==> m in c1.slots
      ensures m in c.slots && m != n ==> c1.slots[m] == c.slots[m]
    {
      assert m != n ==> At(c1, m).slot == At(c, m).slot;
    }
  }

  lemma EditedStructure(c: Core, c1: Core, n: SlotName)
    requires Structure(c) && Edited(c, c1, n)
    ensures Structure(c1)
  {
    EditedSlots(c, c1, n);
    hide Registry, Ids, Children, OnlyAt, ActEdit;
    if n in c.slots { EditKeepsStructure(c, n, c1.slots[n]); }
    SkippedIds(c1.slots, c.issued, c.birthdate, c.mintSerial, c1.mintSerial);
  }

  lemma FreshKeyIds(c: Core, n: SlotName, t: Slot)
    requires Ids(c.slots, c.issued, c.birthdate, c.mintSerial) && Key(t) == Some(c.FreshId())
    ensures Ids(c.slots[n := t], c.issued[c.FreshId() := n], c.birthdate, c.mintSerial + 1)
  {
    FreshIsNew(c);
  }

  lemma ReissuedStructure(c: Core, c1: Core, n: SlotName)
    requires Structure(c) && Reissued(c, c1, n)
    ensures Structure(c1)
  {
    EditedSlots(c, c1, n);
    ConfiguredIsUnlisted(c, n);
    hide Registry, Ids, Children, OnlyAt;
    RegistryEdit(c, n, c1.slots[n]);
    ChildrenEdit(c, n, c1.slots[n]);
    FreshKeyIds(c, n, c1.slots[n]);
  }

  lemma StepKeepsStructure(c: Core, ev: Event)
    requires Structure(c) && AllSane(c)
    ensures Structure(Step(c, ev).core)
  {
    hide Registry, Ids, Children, Sane, ShapeOf, Step, Edited, Reissued, CarveSlot, Destroy;
    StepHasShape(c, ev);
    var c1 := Step(c, ev).core;
    match ShapeOf(c, ev)
    case Edits(n) => EditedStructure(c, c1, n);
    case Resets(n) => EditedStructure(c, c1, n);
    case Reissues(n) => ReissuedStructure(c, c1, n);
    case Carves(p) =>
      PartitionableIsFixed(c, p);
      CarvedStructure(DropTimer(c, p), p, ev.ask, ev.now);
    case Destroys(d) =>
      DynamicIsListed(c, d);
      DestroyKeepsStructure(Detach(c, d), d);
  }

  lemma CarvedStructure(c: Core, p: SlotName, ask: ClaimRequest, now: int)
    requires Structure(c) && p in c.fixed && p in c.slots && c.slots[p].kind.Partitionable? && c.slots[p].claim.Some?
    ensures Structure(CarveSlot(c, p, ask, now).core)
  {
    hide Registry, Ids, Children, Persist, ChildIds;
    CarveKeepsStructure(c, p, Requested(ask.want), ask.schedd, now);
  }

  // -------------------------------------------------------------- generations, by shape

  lemma EditedGenerations(c: Core, c1: Core, n: SlotName)
    requires Generations(c.acts, c.gen) && Edited(c, c1, n)
    ensures Generations(c1.acts, c1.gen)
  {
    forall m ensures m in c1.acts && m != n ==> m in c.acts && c1.acts[m] == c.acts[m] {
      assert m != n ==> At(c1, m).act == At(c, m).act;
    }
    hide OnlyAt, SlotEdit, At;
  }

  lemma StepKeepsGenerations(c: Core, ev: Event)
    requires Structure(c) && AllSane(c) && Generations(c.acts, c.gen)
    ensures Generations(Step(c, ev).core.acts, Step(c, ev).core.gen)
  {
    hide Registry, Ids, Children, Sane, Generations, ShapeOf, Step, Edited, CarveSlot, Destroy;
    StepHasShape(c, ev);
    var c1 := Step(c, ev).core;
    match ShapeOf(c, ev)
    case Edits(n) => EditedGenerations(c, c1, n);
    case Resets(n) => EditedGenerations(c, c1, n);
    case Reissues(n) => ReissuedGenerations(c, c1, n);
    case Carves(p) => CarvedActs(DropTimer(c, p), p, ev.ask, ev.now);
    case Destroys(d) =>
      DestroyedActs(Detach(c, d), d);
      FewerGenerations(c.acts, c.gen, d);
  }

  lemma ReissuedGenerations(c: Core, c1: Core, n: SlotName)
    requires Generations(c.acts, c.gen) && Reissued(c, c1, n)
    ensures Generations(c1.acts, c1.gen)
  {
    forall m ensures m in c1.acts ==> m in c.acts && c1.acts[m] == c.acts[m] {
      assert m != n ==> At(c1, m).act == At(c, m).act;
    }
    hide OnlyAt, At;
  }

  lemma CarvedActs(c: Core, p: SlotName, ask: ClaimRequest, now: int)
    requires p in c.slots && c.slots[p].claim.Some?
    ensures CarveSlot(c, p, ask, now).core.acts == c.acts && CarveSlot(c, p, ask, now).core.gen == c.gen
  {
    hide Persist, ChildIds;
  }

  lemma DestroyedActs(c: Core, d: SlotName)
    requires d in c.slots && c.slots[d].IsDynamic()
    ensures Destroy(c, d).core.acts == c.acts && Destroy(c, d).core.gen == c.gen
  {
    hide Persist, ChildIds, Remove, Slot.Restore;
  }

  // --------------------------------------------------------------- sanity, handler by handler

  lemma MatchInfoSane(c: Core, id: ClaimId, now: int)
    requires Sane(At(c, Found(c, id)))
    ensures Sane(At(DoMatchInfo(c, id, now).core, Found(c, id)))
  {
    hide FindIn, Persist;
    FindInFinds(c.slots, c.Live(), id);
  }

  lemma TimeoutSane(c: Core, n: SlotName, id: ClaimId, now: int, mint: bool)
    requires Sane(At(c, n))
    ensures Sane(At(DoMatchTimeout(c, n, id, now, mint).core, n))
  {
    hide UnclaimAndSave;
    if n in c.slots && c.slots[n].state == Matched { UnclaimedSane(DropTimer(c, n), n, now, mint); }
  }

  lemma UnclaimedSane(c: Core, n: SlotName, now: int, mint: bool)
    requires n in c.slots && n !in c.acts && c.slots[n].claim.Some? && !c.slots[n].IsDynamic()
    requires c.slots[n].kind.Partitionable? ==> !c.slots[n].HasClaimed()
    ensures Sane(At(UnclaimAndSave(c, n, now, mint).core, n))
  {
    hide Persist;
  }

  lemma RequestSane(c: Core, id: ClaimId, ask: ClaimRequest, now: int, mint: bool)
    requires Sane(At(c, Found(c, id))) && !ShapeOf(c, RequestClaim(id, ask, now, mint)).Carves?
    ensures Sane(At(DoRequestClaim(c, id, ask, now, mint).core, Found(c, id)))
  {
    hide FindIn, CarveSlot, AcceptSlot, Sane;
    FindInFinds(c.slots, c.Live(), id);
    var n := Found(c, id);
    TimerlessSane(c, n, c.mintSerial);
    TimerlessSane(c, n, c.mintSerial + 1);
    if Find(c, id).Some? && c.slots[n].claim.value.state == NotClaimed && !c.slots[n].kind.Partitionable? {
      AcceptSane(DropTimer(c, n), n, ask, now);
    }
  }

  lemma TimerlessSane(c: Core, n: SlotName, serial: nat)
    requires Sane(At(c, n))
    ensures Sane(At(DropTimer(c, n).(mintSerial := serial), n)) && Sane(At(DropTimer(c, n), n))
  {
  }

  lemma AcceptSane(c: Core, n: SlotName, ask: ClaimRequest, now: int)
    requires Sane(At(c, n)) && n in c.slots && c.slots[n].claim.Some? && c.slots[n].claim.value.state == NotClaimed
    requires !c.slots[n].kind.Partitionable?
    ensures Sane(At(AcceptSlot(c, n, ask, now).core, n))
  {
    hide Persist;
  }

  lemma ReleaseSane(c: Core, n: SlotName, now: int, mint: bool)
    requires Sane(At(c, n)) && n in c.slots && !c.slots[n].IsDynamic()
    ensures Sane(At(Release(c, n, now, mint).core, n))
  {
    hide Persist;
  }

  lemma ActivateSane(c: Core, id: ClaimId, job: JobRequest, now: int)
    requires Sane(At(c, Found(c, id)))
    ensures Sane(At(DoActivateClaim(c, id, job, now).core, Found(c, id)))
  {
    hide FindIn, Persist, FreshActivation;
    FindInFinds(c.slots, c.Live(), id);
  }

  lemma IdleSane(c: Core, c0: Core, n: SlotName, final: Option<FinalReport>, now: int)
    requires Sane(At(c, n)) && At(c0, n) == At(c, n).(act := None)
    ensures Sane(At(IdleSlot(c0, n, final, now).core, n))
  {
    hide Persist;
  }

  lemma OnClaimedSane(c: Core, n: SlotName, cl: Claim)
    requires Sane(At(c, n)) && (c.Claimed(n) ==> cl.state == c.slots[n].claim.value.state)
    ensures Sane(At(OnClaimed(c, n, cl), n))
  {
  }

  lemma AdoptFailedSane(c: Core, n: SlotName, marker: Option<FinalReport>, now: int, mint: bool)
    requires Sane(At(c, n)) && !ShapeOf(c, AdoptFailed(n, marker, now, mint)).Destroys?
    ensures Sane(At(DoAdoptFailed(c, n, marker, now, mint).core, n))
  {
    hide Release, IdleSlot;
    if n in c.acts {
      if marker.None? { ReleaseSane(c, n, now, mint); } else { IdleSane(c, DropAct(c, n), n, marker, now); }
    }
  }

  lemma ActSane(c: Core, n: SlotName, a: Activation)
    requires Sane(At(c, n)) && n in c.acts
    ensures Sane(At(c.(acts := c.acts[n := a]), n))
  {
  }

  lemma ExitedSane(c: Core, n: SlotName, now: int)
    requires Sane(At(c, n))
    ensures Sane(At(DoStarterExited(c, n, now).core, n))
  {
    hide IdleSlot, Sane;
    if n in c.acts { IdleSane(c, ReleaseDeferred(DropAct(c, n), n), n, ClaimAt(c, n).final, now); }
  }

  lemma HelloSane(c: Core, n: SlotName, addr: string, pid: int)
    requires Sane(At(c, n))
    ensures Sane(At(DoStarterHello(c, n, addr, pid).core, n))
  {
    hide Persist, Sane;
    var c1 := DoStarterHello(c, n, addr, pid).core;
    if c1 != c { ActSane(c, n, c1.acts[n]); }
  }

  lemma StarterEventSane(c: Core, ev: Event)
    requires ev.StarterExited? || ev.StarterHello? || ev.Vacate? || ev.VacateEscalate? || ev.VacateTaken?
    requires Sane(At(c, ev.name))
    ensures Sane(At(Step(c, ev).core, ev.name))
  {
    hide DoStarterExited, DoStarterHello, Sane, At, FindIn;
    var n := ev.name;
    match ev
    case StarterExited(_, now) => ExitedSane(c, n, now);
    case StarterHello(_, addr, pid) => HelloSane(c, n, addr, pid);
    case Vacate(_, hard) => if n in c.acts { ActSane(c, n, DoVacate(c, n, hard).acts[n]); }
    case VacateEscalate(_, _) => if n in c.acts { ActSane(c, n, Offer(c.acts[n], VacateHard)); }
    case VacateTaken(_) => if n in c.acts { ActSane(c, n, c.acts[n].(box := None)); }
  }

  lemma ReleaseEventSane(c: Core, ev: Event)
    requires (ev.ReleaseClaim? || ev.ReleaseSlot?) && !ShapeOf(c, ev).Destroys? && Sane(At(c, ShapeOf(c, ev).n))
    ensures Sane(At(Step(c, ev).core, ShapeOf(c, ev).n))
  {
    hide FindIn, Release, Persist, Sane;
    if ev.ReleaseClaim? {
      FindInFinds(c.slots, c.Live(), ev.id);
      if Find(c, ev.id).Some? { ReleaseSane(c, Find(c, ev.id).value, ev.now, ev.mint); }
    } else if ev.name in c.slots {
      ReleaseSane(c, ev.name, ev.now, ev.mint);
    }
  }

  lemma LocalSane(c: Core, ev: Event)
    requires AllSane(c) && !ShapeOf(c, ev).Carves? && !ShapeOf(c, ev).Destroys?
    ensures Sane(At(Step(c, ev).core, ShapeOf(c, ev).n))
  {
    assert Sane(At(c, ShapeOf(c, ev).n));
    hide FindIn, Sane, At, DoMatchInfo, DoMatchTimeout, DoRequestClaim, DoActivateClaim, Release, DoStarterExited, DoStarterHello,
      DoAdoptFailed, DoDeactivate, OnClaimed, DoVacate, DoVacateEscalate, DoVacateTaken, ShapeOfRelease;
    match ev
    case MatchInfo(id, now) => MatchInfoSane(c, id, now);
    case MatchTimeout(n, id, now, mint) => TimeoutSane(c, n, id, now, mint);
    case RequestClaim(id, ask, now, mint) => RequestSane(c, id, ask, now, mint);
    case ReleaseClaim(_, _, _) => ReleaseEventSane(c, ev);
    case ReleaseSlot(_, _, _) => ReleaseEventSane(c, ev);
    case AliveOk(n, now) => OnClaimedSane(c, n, Extended(ClaimAt(c, n), c.config.alivesMissed, now));
    case ActivateClaim(id, job, now) => ActivateSane(c, id, job, now);
    case StarterUpdate(n, ad) => OnClaimedSane(c, n, ClaimAt(c, n).(update := ad));
    case StarterFinal(n, report) => OnClaimedSane(c, n, ClaimAt(c, n).(final := Some(report)));
    case AdoptFailed(n, marker, now, mint) => AdoptFailedSane(c, n, marker, now, mint);
    case Deactivate(id, jobDone) => DeactivateSane(c, id, jobDone);
    case _ => StarterEventSane(c, ev);
  }

  lemma DeactivateSane(c: Core, id: ClaimId, jobDone: bool)
    ensures At(DoDeactivate(c, id, jobDone).core, Found(c, id)) == At(c, Found(c, id))
  {
    hide FindIn;
  }

  lemma CarvedSane(c: Core, p: SlotName, ask: ClaimRequest, now: int)
    requires AllSane(c) && p in c.slots && c.slots[p].claim.Some? && DynamicName(p, c.dslotSeq + 1) !in c.slots
    requires DynamicName(p, c.dslotSeq + 1) !in c.acts
    ensures AllSane(CarveSlot(c, p, ask, now).core)
  {
    hide Persist, ChildIds;
    var c1 := CarveSlot(c, p, ask, now).core;
    forall m ensures Sane(At(c1, m)) {
      assert Sane(At(c, m)) && Sane(At(c, p));
    }
  }

  /** The table loses d, and the parent's amounts and child list change. */
  lemma DestroyedTable(c: Core, d: SlotName)
    requires d in c.slots && c.slots[d].IsDynamic() && c.slots[d].kind.parent != d
    ensures var c1 := Destroy(c, d).core;
            var p := c.slots[d].kind.parent;
            && c1.slots.Keys == c.slots.Keys - {d}
            && (forall m :: m in c1.slots && m != p ==> c1.slots[m] == c.slots[m])
            && (p in c1.slots ==> c1.slots[p] == c.slots[p].(res := c1.slots[p].res, children := c1.slots[p].children))
  {
    hide Persist, ChildIds, Remove, Resources.Plus, Resources.Min;
  }

  lemma DestroyedSane(c: Core, d: SlotName)
    requires (forall m :: m != d ==> Sane(At(c, m))) && d in c.slots && c.slots[d].IsDynamic() && d !in c.acts
    requires c.slots[d].kind.parent != d
    ensures AllSane(Destroy(c, d).core)
  {
    hide Destroy;
    DestroyedTable(c, d);
    DestroyedActs(c, d);
    var c1 := Destroy(c, d).core;
    forall m ensures Sane(At(c1, m)) {
      if m != d {
        assert Sane(At(c, m));
        if m in c.slots { SaneIgnoresShares(At(c, m), At(c1, m)); }
      }
    }
  }

  /** Sanity does not look at resources, children, keepalives and timers. */
  lemma SaneIgnoresShares(e: Entry, f: Entry)
    requires Sane(e) && e.slot.Some? && f.slot.Some? && f.act == e.act
    requires f.slot.value == e.slot.value.(res := f.slot.value.res, children := f.slot.value.children)
    ensures Sane(f)
  {
  }

  lemma StepKeepsSane(c: Core, ev: Event)
    requires Structure(c) && AllSane(c)
    ensures AllSane(Step(c, ev).core)
  {
    hide Registry, Ids, Children, Sane, ShapeOf, Step, SlotEdit, ActEdit, Advances, CarveSlot, Destroy;
    StepHasShape(c, ev);
    var c1 := Step(c, ev).core;
    match ShapeOf(c, ev)
    case Edits(n) => LocalSane(c, ev); OnlyAtSane(c, c1, n);
    case Resets(n) => LocalSane(c, ev); OnlyAtSane(c, c1, n);
    case Reissues(n) => LocalSane(c, ev); OnlyAtSane(c, c1, n);
    case Carves(p) =>
      var c0 := DropTimer(c, p);
      NextNameIsNew(c0, p);
      SameButTimers(c, p);
      NoSlotNoStarter(c, DynamicName(p, c.dslotSeq + 1));
      CarvedSane(c0, p, ev.ask, ev.now);
    case Destroys(d) =>
      DynamicIsListed(c, d);
      SameButDetached(c, d);
      DestroyedSane(Detach(c, d), d);
  }

  lemma OnlyAtSane(c: Core, c1: Core, n: SlotName)
    requires AllSane(c) && OnlyAt(c, c1, n) && Sane(At(c1, n))
    ensures AllSane(c1)
  {
    hide Sane, At;
    forall m ensures Sane(At(c1, m)) {
      assert Sane(At(c, m));
    }
  }

  lemma NoSlotNoStarter(c: Core, n: SlotName)
    requires AllSane(c) && n !in c.slots
    ensures n !in c.acts
  {
    assert Sane(At(c, n));
  }

  lemma SameButTimers(c: Core, p: SlotName)
    requires AllSane(c)
    ensures AllSane(DropTimer(c, p))
  {
    forall m ensures Sane(At(DropTimer(c, p), m)) {
      assert Sane(At(c, m));
    }
  }

  lemma SameButDetached(c: Core, d: SlotName)
    requires AllSane(c)
    ensures forall m :: m != d ==> Sane(At(Detach(c, d), m))
  {
    forall m | m != d ensures Sane(At(Detach(c, d), m)) {
      assert Sane(At(c, m));
    }
  }

  /** Every event whatever: registry, ids, child index, sanity and generations survive. */
  lemma StepKeepsFirm(c: Core, ev: Event)
    requires Firm(c)
    ensures Firm(Step(c, ev).core)
  {
    hide Structure, AllSane, Generations, Step;
    StepKeepsStructure(c, ev);
    StepKeepsSane(c, ev);
    StepKeepsGenerations(c, ev);
  }
}
