/** What the loop asks to be stored always describes the claimed slots it has. */
module Images {
  import opened Basics
  import opened Slots
  import opened CoreModel
  import opened CoreInvariant
  import opened StepShapes
  import opened Firmness
  import opened Allocator
  import opened Persister
  import opened Runs

  /**
   * The part of a record a restart depends on: not the lease deadline, which keepalives extend
   * without saving it, and a starter's linkage only when there is a socket to redial.
   */
  function Norm(rec: Record): Record {
    rec.(lease := 0, link := if rec.link.socket == "" then NO_LINK else rec.link)
  }

  /**
   * The table describes the core: up-to-date records of the claimed slots and of what is carved out.
   * lost are the ids whose session could not be imported when the core was started; a record may still
   * name one of them although its slot is not claimed.
   */
  ghost predicate Image(c: Core, t: Table, lost: set<ClaimId>) {
    OwnIds(c, t) && (forall n :: ImageAt(c, t, lost, n)) && Carvings(c, t)
  }

  ghost predicate OwnIds(c: Core, t: Table) { forall n :: n in t ==> t[n].name == n && OwnId(c, t[n]) }

  /** A stored claim id was issued to the slot it is stored under. */
  predicate OwnId(c: Core, rec: Record) { rec.id in c.issued && c.issued[rec.id] == rec.name }

  ghost predicate ImageAt(c: Core, t: Table, lost: set<ClaimId>, n: SlotName) {
    && (c.Claimed(n) ==> n in t && Norm(t[n]) == Norm(RecordOf(c, n)))
    && (n in t && t[n].state == Claimed && t[n].id !in lost ==> c.Claimed(n))
  }

  /** Records of dynamic slots are there for exactly the dynamic slots, with their kinds and shares. */
  predicate CarvedAt(c: Core, t: Table, n: SlotName) {
    if n in c.slots && c.slots[n].kind.CarvedFrom? then n in t && t[n].kind == c.slots[n].kind && t[n].res == c.slots[n].res
    else n in t ==> !t[n].kind.CarvedFrom?
  }

  ghost predicate Carvings(c: Core, t: Table) { forall n :: CarvedAt(c, t, n) }

  // ------------------------------------------------------------ what each step saves

  ghost predicate SameRecord(c: Core, c1: Core, n: SlotName) {
    && (c.Claimed(n) <==> c1.Claimed(n))
    && (c.Claimed(n) ==> Norm(RecordOf(c, n)) == Norm(RecordOf(c1, n)))
  }

  /** A step that changes what would be recorded about n saves n. */
  ghost predicate Recorded(c: Core, out: Outcome, n: SlotName) {
    || (out.ops == [] && SameRecord(c, out.core, n))
    || (n in out.core.slots && out.ops == Persist(out.core, n))
  }

  lemma MatchInfoRecorded(c: Core, id: ClaimId, now: int)
    ensures Recorded(c, DoMatchInfo(c, id, now), Found(c, id))
  {
    hide FindIn;
    FindInFinds(c.slots, c.Live(), id);
  }

  lemma TimeoutRecorded(c: Core, n: SlotName, id: ClaimId, now: int, mint: bool)
    ensures Recorded(c, DoMatchTimeout(c, n, id, now, mint), n)
  {
    hide Persist;
  }

  lemma AcceptRecorded(c: Core, n: SlotName, ask: ClaimRequest, now: int)
    requires n in c.slots && c.slots[n].claim.Some?
    ensures var out := AcceptSlot(c, n, ask, now); n in out.core.slots && out.ops == Persist(out.core, n)
  {
  }

  /** Records do not mention match timers or serial numbers. */
  lemma CountersUnrecorded(c: Core, m: SlotName, n: SlotName)
    ensures SameRecord(c, DropTimer(c, m), n)
    ensures SameRecord(c, DropTimer(c, m).(mintSerial := c.mintSerial + 1), n)
  {
  }

  lemma RequestRecorded(c: Core, id: ClaimId, ask: ClaimRequest, now: int, mint: bool)
    requires !ShapeOf(c, RequestClaim(id, ask, now, mint)).Carves?
    ensures Recorded(c, DoRequestClaim(c, id, ask, now, mint), Found(c, id))
  {
    hide FindIn, CarveSlot, AcceptSlot, SameRecord, Persist;
    FindInFinds(c.slots, c.Live(), id);
    var n := Found(c, id);
    SameCoreSameRecord(c);
    CountersUnrecorded(c, n, n);
    if Find(c, id).Some? { AcceptRecorded(DropTimer(c, n), n, ask, now); }
  }

  lemma ReleaseRecorded(c: Core, n: SlotName, now: int, mint: bool)
    requires n in c.slots && !c.slots[n].IsDynamic()
    ensures Recorded(c, Release(c, n, now, mint), n)
  {
    hide Persist;
  }

  lemma ActivateRecorded(c: Core, id: ClaimId, job: JobRequest, now: int)
    ensures Recorded(c, DoActivateClaim(c, id, job, now), Found(c, id))
  {
    hide FindIn, FreshActivation;
    FindInFinds(c.slots, c.Live(), id);
  }

  lemma IdleRecorded(c: Core, c0: Core, n: SlotName, final: Option<FinalReport>, now: int)
    requires IsBusy(c0, n)
    ensures Recorded(c, IdleSlot(c0, n, final, now), n)
  {
  }

  lemma OnClaimedRecorded(c: Core, n: SlotName, cl: Claim)
    requires c.Claimed(n) ==>
               var k := c.slots[n].claim.value;
               cl.id == k.id && cl.state == k.state && cl.schedd == k.schedd && cl.entered == k.entered
    ensures SameRecord(c, OnClaimed(c, n, cl), n)
  {
  }

  lemma HelloRecorded(c: Core, n: SlotName, addr: string, pid: int)
    requires n in c.acts ==> n in c.slots
    ensures Recorded(c, DoStarterHello(c, n, addr, pid), n)
  {
    hide Persist;
  }

  lemma VacateRecorded(c: Core, n: SlotName, a: Activation)
    requires n in c.acts && a.link == c.acts[n].link
    ensures SameRecord(c, c.(acts := c.acts[n := a]), n)
  {
  }

  lemma DeactivateRecorded(c: Core, id: ClaimId, jobDone: bool)
    ensures Recorded(c, DoDeactivate(c, id, jobDone), Found(c, id))
  {
    hide FindIn, Persist;
  }

  lemma ExitedRecorded(c: Core, n: SlotName, now: int)
    requires Sane(At(c, n))
    ensures Recorded(c, DoStarterExited(c, n, now), n)
  {
    if n in c.acts {
      IdleRecorded(c, ReleaseDeferred(DropAct(c, n), n), n, ClaimAt(c, n).final, now);
      hide IdleSlot;
    }
  }

  lemma AdoptFailedRecorded(c: Core, n: SlotName, marker: Option<FinalReport>, now: int, mint: bool)
    requires Sane(At(c, n)) && !ShapeOf(c, AdoptFailed(n, marker, now, mint)).Destroys?
    ensures Recorded(c, DoAdoptFailed(c, n, marker, now, mint), n)
  {
    hide Release, IdleSlot;
    if n in c.acts {
      if marker.None? { ReleaseRecorded(c, n, now, mint); } else { IdleRecorded(c, DropAct(c, n), n, marker, now); }
    }
  }

  lemma ReleaseEventRecorded(c: Core, ev: Event)
    requires (ev.ReleaseClaim? || ev.ReleaseSlot?) && !ShapeOf(c, ev).Destroys?
    ensures Recorded(c, Step(c, ev), ShapeOf(c, ev).n)
  {
    hide FindIn, Release, Persist;
    if ev.ReleaseClaim? {
      FindInFinds(c.slots, c.Live(), ev.id);
      if Find(c, ev.id).Some? { ReleaseRecorded(c, Find(c, ev.id).value, ev.now, ev.mint); }
    } else if ev.name in c.slots {
      ReleaseRecorded(c, ev.name, ev.now, ev.mint);
    }
  }

  lemma StepRecorded(c: Core, ev: Event)
    requires AllSane(c) && !ShapeOf(c, ev).Carves? && !ShapeOf(c, ev).Destroys?
    ensures Recorded(c, Step(c, ev), ShapeOf(c, ev).n)
  {
    hide FindIn, Persist, SameRecord, Sane, DoMatchInfo, DoMatchTimeout, DoRequestClaim, DoActivateClaim, Release,
      DoStarterExited, DoStarterHello, DoAdoptFailed, DoDeactivate, OnClaimed;
    assert forall n :: SameRecord(c, c, n) by { SameCoreSameRecord(c); }
    match ev
    case MatchInfo(id, now) => MatchInfoRecorded(c, id, now);
    case MatchTimeout(n, id, now, mint) => TimeoutRecorded(c, n, id, now, mint);
    case RequestClaim(id, ask, now, mint) => RequestRecorded(c, id, ask, now, mint);
    case ReleaseClaim(_, _, _) => ReleaseEventRecorded(c, ev);
    case ReleaseSlot(_, _, _) => ReleaseEventRecorded(c, ev);
    case AliveOk(n, now) => OnClaimedRecorded(c, n, Extended(ClaimAt(c, n), c.config.alivesMissed, now));
    case ActivateClaim(id, job, now) => ActivateRecorded(c, id, job, now);
    case StarterUpdate(n, ad) => OnClaimedRecorded(c, n, ClaimAt(c, n).(update := ad));
    case StarterFinal(n, report) => OnClaimedRecorded(c, n, ClaimAt(c, n).(final := Some(report)));
    case StarterExited(n, now) => assert Sane(At(c, n)); ExitedRecorded(c, n, now);
    case StarterHello(n, addr, pid) => ActHasSlot(c, n); HelloRecorded(c, n, addr, pid);
    case AdoptFailed(n, marker, now, mint) => assert Sane(At(c, n)); AdoptFailedRecorded(c, n, marker, now, mint);
    case Deactivate(id, jobDone) => DeactivateRecorded(c, id, jobDone);
    case Vacate(n, hard) => if n in c.acts { VacateRecorded(c, n, DoVacate(c, n, hard).acts[n]); }
    case VacateEscalate(n, gen) => if n in c.acts { VacateRecorded(c, n, Offer(c.acts[n], VacateHard)); }
    case VacateTaken(n) => if n in c.acts { VacateRecorded(c, n, c.acts[n].(box := None)); }
  }

  lemma SameCoreSameRecord(c: Core)
    ensures forall n :: SameRecord(c, c, n)
  {
  }

  lemma ActHasSlot(c: Core, n: SlotName)
    requires AllSane(c)
    ensures n in c.acts ==> n in c.slots
  {
    assert Sane(At(c, n));
  }

  // ---------------------------------------------------------- the image is kept up

  /** Away from n nothing the image depends on has changed. */
  lemma ElsewhereKept(c: Core, c1: Core, t: Table, t1: Table, lost: set<ClaimId>, n: SlotName, m: SlotName)
    requires ImageAt(c, t, lost, m) && At(c1, m).slot == At(c, m).slot && At(c1, m).act == At(c, m).act
    requires m != n && (m in t1 <==> m in t) && (m in t ==> t1[m] == t[m])
    ensures ImageAt(c1, t1, lost, m)
  {
  }

  /** A slot just saved is described by its own record. */
  lemma SavedIsImage(c1: Core, t: Table, lost: set<ClaimId>, n: SlotName)
    requires Coherent(At(c1, n)) && n in c1.slots && c1.slots[n].claim.Some?
    ensures ImageAt(c1, t[n := RecordOf(c1, n)], lost, n)
  {
  }

  lemma UnchangedIsImage(c: Core, c1: Core, t: Table, lost: set<ClaimId>, n: SlotName)
    requires ImageAt(c, t, lost, n) && SameRecord(c, c1, n)
    ensures ImageAt(c1, t, lost, n)
  {
  }

  /** A step of one of the local shapes. */
  lemma LocalStepImage(c: Core, out: Outcome, t: Table, lost: set<ClaimId>, n: SlotName, m: SlotName)
    requires ImageAt(c, t, lost, m) && OnlyAt(c, out.core, n) && Coherent(At(out.core, n)) && Recorded(c, out, n)
    requires n in out.core.slots && out.core.slots[n].claim.None? ==> SameRecord(c, out.core, n)
    ensures ImageAt(out.core, Apply(t, out.ops), lost, m)
  {
    var c1 := out.core;
    if out.ops == [] {
      assert Apply(t, out.ops) == t;
      if m == n { UnchangedIsImage(c, c1, t, lost, n); } else { assert At(c1, m) == At(c, m); ElsewhereKept(c, c1, t, t, lost, n, m); }
    } else {
      assert out.ops == [Save(RecordOf(c1, n))];
      var t1 := t[n := RecordOf(c1, n)];
      assert Apply(t, out.ops) == t1 by { ApplySnoc(t, [], out.ops[0]); assert [] + [out.ops[0]] == out.ops; }
      if m == n { SavedIsImage(c1, t, lost, n); } else { assert At(c1, m) == At(c, m); ElsewhereKept(c, c1, t, t1, lost, n, m); }
    }
  }

  lemma ApplyTwo(t: Table, a: StoreOp, b: StoreOp)
    ensures Apply(t, [a, b]) == ApplyOne(ApplyOne(t, a), b)
    ensures Apply(t, [a]) == ApplyOne(t, a)
  {
    ApplySnoc(t, [], a);
    ApplySnoc(t, [a], b);
    assert [] + [a] == [a] && [a] + [b] == [a, b];
  }

  /** What a carve saves: the new slot, then the p-slot. */
  lemma CarveSaves(c: Core, p: SlotName, ask: ClaimRequest, now: int)
    requires p in c.slots && c.slots[p].claim.Some? && DynamicName(p, c.dslotSeq + 1) != p
    ensures var out := CarveSlot(c, p, ask, now);
            var d := DynamicName(p, c.dslotSeq + 1);
            && d in out.core.slots && out.core.slots[d].claim.Some?
            && p in out.core.slots && out.core.slots[p].claim.Some?
            && out.ops == [Save(RecordOf(out.core, d)), Save(RecordOf(out.core, p))]
  {
    hide ChildIds;
  }

  lemma CarveImage(c: Core, p: SlotName, ask: ClaimRequest, now: int, t: Table, lost: set<ClaimId>, m: SlotName)
    requires p in c.slots && c.slots[p].claim.Some? && DynamicName(p, c.dslotSeq + 1) !in c.slots && p.Configured?
    requires ImageAt(c, t, lost, m) && AllCoherent(CarveSlot(c, p, ask, now).core)
    ensures var out := CarveSlot(c, p, ask, now); ImageAt(out.core, Apply(t, out.ops), lost, m)
  {
    var d := DynamicName(p, c.dslotSeq + 1);
    CarveSaves(c, p, ask, now);
    CarveEntry(c, p, ask, now, m);
    hide CarveSlot;
    var out := CarveSlot(c, p, ask, now);
    ApplyTwo(t, out.ops[0], out.ops[1]);
    var rd, rp := RecordOf(out.core, d), RecordOf(out.core, p);
    assert Apply(t, out.ops) == t[d := rd][p := rp];
    assert Coherent(At(out.core, d)) && Coherent(At(out.core, p));
    if m == p {
      SavedIsImage(out.core, t[d := rd], lost, p);
    } else if m == d {
      SavedIsImage(out.core, t[p := rp], lost, d);
      assert t[d := rd][p := rp] == t[p := rp][d := rd];
    } else {
      ElsewhereKept(c, out.core, t, t[d := rd][p := rp], lost, p, m);
    }
  }

  lemma DestroyOps(c: Core, d: SlotName)
    requires d in c.slots && c.slots[d].IsDynamic() && c.slots[d].kind.parent in c.slots && c.slots[d].kind.parent != d
    ensures var out := Destroy(c, d);
            c.slots[d].kind.parent in out.core.slots && out.ops == [Delete(d)] + Persist(out.core, c.slots[d].kind.parent)
  {
    hide ChildIds, Remove, Persist;
  }

  /** What a destroy asks for: the slot's record is deleted, the p-slot saved. */
  lemma DestroyImage(c: Core, d: SlotName, t: Table, lost: set<ClaimId>, m: SlotName)
    requires d in c.slots && c.slots[d].IsDynamic() && d !in c.acts
    requires c.slots[d].kind.parent in c.slots && c.slots[d].kind.parent != d
    requires (m != d ==> ImageAt(c, t, lost, m)) && AllCoherent(Destroy(c, d).core)
    ensures var out := Destroy(c, d); ImageAt(out.core, Apply(t, out.ops), lost, m)
  {
    hide Destroy, ImageAt, Coherent;
    var p := c.slots[d].kind.parent;
    var out := Destroy(c, d);
    DestroyEntry(c, d, m);
    DestroyEntry(c, d, d);
    DestroyOps(c, d);
    assert Coherent(At(out.core, p));
    if out.core.slots[p].claim.Some? {
      SavedParentImage(c, d, t, lost, out, m);
    } else {
      OrphanImage(c, d, t, lost, out, m);
    }
  }

  lemma SavedParentImage(c: Core, d: SlotName, t: Table, lost: set<ClaimId>, out: Outcome, m: SlotName)
    requires d in c.slots && c.slots[d].IsDynamic() && c.slots[d].kind.parent != d && At(out.core, d).slot.None?
    requires c.slots[d].kind.parent in out.core.slots && out.core.slots[c.slots[d].kind.parent].claim.Some?
    requires out.ops == [Delete(d)] + Persist(out.core, c.slots[d].kind.parent) && Coherent(At(out.core, c.slots[d].kind.parent))
    requires m != d ==> ImageAt(c, t, lost, m) && At(out.core, m).act == At(c, m).act && (At(out.core, m).slot.Some? <==> At(c, m).slot.Some?)
    requires m != d && m != c.slots[d].kind.parent ==> At(out.core, m).slot == At(c, m).slot
    ensures ImageAt(out.core, Apply(t, out.ops), lost, m)
  {
    hide Coherent;
    var p := c.slots[d].kind.parent;
    var rp := RecordOf(out.core, p);
    assert out.ops == [Delete(d), Save(rp)];
    ApplyTwo(t, Delete(d), Save(rp));
    assert Apply(t, out.ops) == (t - {d})[p := rp];
    if m == p {
      SavedIsImage(out.core, t - {d}, lost, p);
    } else if m != d {
      ElsewhereKept(c, out.core, t, (t - {d})[p := rp], lost, d, m);
    }
  }

  lemma OrphanImage(c: Core, d: SlotName, t: Table, lost: set<ClaimId>, out: Outcome, m: SlotName)
    requires d in c.slots && c.slots[d].IsDynamic() && c.slots[d].kind.parent != d && At(out.core, d).slot.None?
    requires c.slots[d].kind.parent in out.core.slots && out.core.slots[c.slots[d].kind.parent].claim.None?
    requires out.ops == [Delete(d)] + Persist(out.core, c.slots[d].kind.parent)
    requires m != d ==> ImageAt(c, t, lost, m) && At(out.core, m).act == At(c, m).act && (At(out.core, m).slot.Some? <==> At(c, m).slot.Some?)
    requires m != d && At(c, m).slot.Some? ==> At(out.core, m).slot.value.claim == At(c, m).slot.value.claim
    requires m != d && m != c.slots[d].kind.parent ==> At(out.core, m).slot == At(c, m).slot
    ensures ImageAt(out.core, Apply(t, out.ops), lost, m)
  {
    assert out.ops == [Delete(d)];
    ApplyTwo(t, Delete(d), Delete(d));
    if m != d {
      OrphanParentImage(c, out.core, t, t - {d}, lost, m);
    }
  }

  lemma OrphanParentImage(c: Core, c1: Core, t: Table, t1: Table, lost: set<ClaimId>, m: SlotName)
    requires ImageAt(c, t, lost, m) && At(c1, m).act == At(c, m).act
    requires m in c.slots <==> m in c1.slots
    requires m in c.slots ==> SameRecord(c, c1, m)
    requires (m in t1 <==> m in t) && (m in t ==> t1[m] == t[m])
    ensures ImageAt(c1, t1, lost, m)
  {
  }

  // ------------------------------------------------------------- carvings are kept up

  /** Whatever is saved is saved with its kind and share. */
  lemma SavedIsCarved(c: Core, t: Table, n: SlotName)
    requires n in c.slots && c.slots[n].claim.Some?
    ensures CarvedAt(c, t[n := RecordOf(c, n)], n)
  {
  }

  lemma LocalCarvings(c: Core, out: Outcome, t: Table, n: SlotName)
    requires Carvings(c, t) && SameShares(c, out.core) && Recorded(c, out, n)
    ensures Carvings(out.core, Apply(t, out.ops))
  {
    hide SameRecord, Apply;
    var c1 := out.core;
    var t1 := Apply(t, out.ops);
    if out.ops == [] {
      ApplyNothing(t);
    } else {
      assert out.ops == [Save(RecordOf(c1, n))];
      ApplyTwo(t, out.ops[0], out.ops[0]);
    }
    forall m ensures CarvedAt(c1, t1, m) {
      assert CarvedAt(c, t, m);
      assert m in c.slots ==> SameAmounts(c.slots[m], c1.slots[m]);
      if out.ops != [] && m == n { SavedIsCarved(c1, t, n); }
    }
  }

  lemma ApplyNothing(t: Table)
    ensures Apply(t, []) == t
  {
  }

  lemma CarveCarvings(c: Core, p: SlotName, ask: ClaimRequest, now: int, t: Table)
    requires p in c.slots && c.slots[p].claim.Some? && DynamicName(p, c.dslotSeq + 1) !in c.slots && Carvings(c, t)
    ensures Carvings(CarveSlot(c, p, ask, now).core, Apply(t, CarveSlot(c, p, ask, now).ops))
  {
    var d := DynamicName(p, c.dslotSeq + 1);
    var out := CarveSlot(c, p, ask, now);
    CarveSaves(c, p, ask, now);
    hide CarveSlot, RecordOf, Apply;
    ApplyTwo(t, out.ops[0], out.ops[1]);
    var rd, rp := RecordOf(out.core, d), RecordOf(out.core, p);
    forall m ensures CarvedAt(out.core, Apply(t, out.ops), m) {
      assert CarvedAt(c, t, m);
      CarveEntry(c, p, ask, now, m);
      SavedIsCarved(out.core, t[d := rd], p);
      SavedIsCarved(out.core, t, d);
    }
  }

  lemma DestroyCarvings(c: Core, d: SlotName, t: Table)
    requires d in c.slots && c.slots[d].IsDynamic() && d !in c.acts && Carvings(c, t)
    requires c.slots[d].kind.parent in c.slots && c.slots[d].kind.parent != d && c.slots[c.slots[d].kind.parent].kind.Partitionable?
    ensures Carvings(Destroy(c, d).core, Apply(t, Destroy(c, d).ops))
  {
    var p := c.slots[d].kind.parent;
    var out := Destroy(c, d);
    DestroyOps(c, d);
    DestroyedTable(c, d);
    hide Destroy, RecordOf, Apply;
    ApplyTwo(t, Delete(d), out.ops[|out.ops| - 1]);
    forall m ensures CarvedAt(out.core, Apply(t, out.ops), m) {
      assert CarvedAt(c, t, m);
      DestroyEntry(c, d, m);
      if out.core.slots[p].claim.Some? { SavedIsCarved(out.core, t - {d}, p); }
    }
  }

  lemma StepKeepsCarvings(c: Core, ev: Event, t: Table)
    requires Firm(c) && Carvings(c, t)
    ensures Carvings(Step(c, ev).core, Apply(t, Step(c, ev).ops))
  {
    hide Registry, Ids, Children, Sane, Generations, Step, ShapeOf, Edited, Reissued, Recorded, CarveSlot, Destroy, CarvedAt, Advances;
    StepHasShape(c, ev);
    match ShapeOf(c, ev)
    case Edits(n) => LocalStepCarvings(c, ev, t, n);
    case Resets(n) => LocalStepCarvings(c, ev, t, n);
    case Reissues(n) => LocalStepCarvings(c, ev, t, n);
    case Carves(p) =>
      StepIsCarve(c, ev);
      NextNameIsNew(c, p);
      assert Carvings(DropTimer(c, p), t) by { SameSlotsCarvings(c, DropTimer(c, p), t); }
      CarveCarvings(DropTimer(c, p), p, ev.ask, ev.now, t);
    case Destroys(d) =>
      StepIsDestroy(c, ev);
      ParentOf(c, d);
      assert Carvings(Detach(c, d), t) by { SameSlotsCarvings(c, Detach(c, d), t); }
      DestroyCarvings(Detach(c, d), d, t);
  }

  lemma LocalStepCarvings(c: Core, ev: Event, t: Table, n: SlotName)
    requires AllSane(c) && Carvings(c, t) && (Edited(c, Step(c, ev).core, n) || Reissued(c, Step(c, ev).core, n))
    requires ShapeOf(c, ev) in {Edits(n), Resets(n), Reissues(n)}
    ensures Carvings(Step(c, ev).core, Apply(t, Step(c, ev).ops))
  {
    hide Sane, Step, ShapeOf, Edited, Reissued, Recorded, CarvedAt, Apply, SameShares;
    StepRecorded(c, ev);
    PlainStepMovesNothing(c, Step(c, ev).core, n);
    LocalCarvings(c, Step(c, ev), t, n);
  }

  lemma SameSlotsCarvings(c: Core, c1: Core, t: Table)
    requires Carvings(c, t) && c1.slots == c.slots
    ensures Carvings(c1, t)
  {
    forall n ensures CarvedAt(c1, t, n) {
      assert CarvedAt(c, t, n);
    }
  }

  lemma ParentOf(c: Core, d: SlotName)
    requires Registry(c.fixed, c.dyn, c.slots, c.dslotSeq) && d in c.slots && c.slots[d].IsDynamic()
    ensures var p := c.slots[d].kind.parent; p in c.slots && p != d && c.slots[p].kind.Partitionable?
  {
    DynamicIsListed(c, d);
  }

  // --------------------------------------------------------------- claim ids on disk

  lemma {:induction false} ApplyKeepsOwnIds(c: Core, t: Table, ops: seq<StoreOp>)
    requires OwnIds(c, t) && forall i :: 0 <= i < |ops| && ops[i].Save? ==> OwnId(c, ops[i].rec)
    ensures OwnIds(c, Apply(t, ops))
  {
    if ops != [] { ApplyKeepsOwnIds(c, t, ops[..|ops| - 1]); }
  }

  lemma RememberedOwnIds(c: Core, c1: Core, t: Table)
    requires OwnIds(c, t) && Remembers(c, c1)
    ensures OwnIds(c1, t)
  {
  }

  lemma RecordOwnsItsId(c: Core, n: SlotName)
    requires Structure(c) && n in c.slots && c.slots[n].claim.Some?
    ensures OwnId(c, RecordOf(c, n))
  {
  }

  /** Everything a step saves is the record of a slot of the core it leads to. */
  ghost predicate SavesOnlySlots(out: Outcome) {
    forall i :: 0 <= i < |out.ops| && out.ops[i].Save? ==>
      exists n :: n in out.core.slots && out.core.slots[n].claim.Some? && out.ops[i].rec == RecordOf(out.core, n)
  }

  lemma StepKeepsOwnIds(c: Core, out: Outcome, t: Table)
    requires OwnIds(c, t) && Remembers(c, out.core) && Structure(out.core) && SavesOnlySlots(out)
    ensures OwnIds(out.core, Apply(t, out.ops))
  {
    hide Structure, Remembers, OwnId, RecordOf;
    RememberedOwnIds(c, out.core, t);
    forall i | 0 <= i < |out.ops| && out.ops[i].Save? ensures OwnId(out.core, out.ops[i].rec) {
      var n :| n in out.core.slots && out.core.slots[n].claim.Some? && out.ops[i].rec == RecordOf(out.core, n);
      RecordOwnsItsId(out.core, n);
    }
    ApplyKeepsOwnIds(out.core, t, out.ops);
  }

  lemma DestroySaves(c: Core, d: SlotName)
    requires d in c.slots && c.slots[d].IsDynamic()
    ensures SavesOnlySlots(Destroy(c, d))
  {
    hide ChildIds, Remove;
  }

  lemma LocalSaves(c: Core, out: Outcome, n: SlotName)
    requires Recorded(c, out, n)
    ensures SavesOnlySlots(out)
  {
    hide RecordOf;
  }

  lemma NoClaimNoRecord(c: Core, c1: Core, n: SlotName)
    requires Edited(c, c1, n) || Reissued(c, c1, n)
    ensures n in c1.slots && c1.slots[n].claim.None? ==> SameRecord(c, c1, n)
  {
  }

  lemma LocalImage(c: Core, ev: Event, t: Table, lost: set<ClaimId>, n: SlotName)
    requires Inv(c) && Inv(Step(c, ev).core) && Image(c, t, lost)
    requires Edited(c, Step(c, ev).core, n) || Reissued(c, Step(c, ev).core, n)
    requires ShapeOf(c, ev) in {Edits(n), Resets(n), Reissues(n)}
    ensures SavesOnlySlots(Step(c, ev))
    ensures forall m :: ImageAt(Step(c, ev).core, Apply(t, Step(c, ev).ops), lost, m)
  {
    hide Structure, Generations, Waiting, Coherent, Step, ShapeOf, Recorded, SameRecord, ImageAt, Apply,
      SavesOnlySlots, OwnIds, At, SlotEdit, ActEdit, Carvings;
    CoherentIsSane(c);
    StepRecorded(c, ev);
    LocalSaves(c, Step(c, ev), n);
    NoClaimNoRecord(c, Step(c, ev).core, n);
    assert Coherent(At(Step(c, ev).core, n));
    forall m ensures ImageAt(Step(c, ev).core, Apply(t, Step(c, ev).ops), lost, m) {
      LocalStepImage(c, Step(c, ev), t, lost, n, m);
    }
  }

  lemma PSlotFacts(c: Core, p: SlotName)
    requires Structure(c) && p in c.slots && c.slots[p].kind.Partitionable?
    ensures p.Configured? && DynamicName(p, c.dslotSeq + 1) !in c.slots
  {
    PartitionableIsFixed(c, p);
    NextNameIsNew(c, p);
  }

  lemma CarveStepImage(c: Core, p: SlotName, ask: ClaimRequest, now: int, t: Table, lost: set<ClaimId>)
    requires Inv(c) && Image(c, t, lost) && p in c.slots && c.slots[p].claim.Some? && c.slots[p].kind.Partitionable?
    requires Inv(CarveSlot(DropTimer(c, p), p, ask, now).core)
    ensures var out := CarveSlot(DropTimer(c, p), p, ask, now);
            SavesOnlySlots(out) && forall m :: ImageAt(out.core, Apply(t, out.ops), lost, m)
  {
    hide Structure, Generations, Waiting, Coherent, CarveSlot, ImageAt, Apply, RecordOf, OwnIds, Carvings;
    PSlotFacts(c, p);
    var c0 := DropTimer(c, p);
    CarveSaves(c0, p, ask, now);
    forall m ensures ImageAt(CarveSlot(c0, p, ask, now).core, Apply(t, CarveSlot(c0, p, ask, now).ops), lost, m) {
      CountersUnrecorded(c, p, m);
      UnchangedIsImage(c, c0, t, lost, m);
      CarveImage(c0, p, ask, now, t, lost, m);
    }
  }

  lemma DestroyStepImage(c: Core, d: SlotName, t: Table, lost: set<ClaimId>)
    requires Inv(c) && Image(c, t, lost) && d in c.slots && c.slots[d].IsDynamic()
    requires Inv(Destroy(Detach(c, d), d).core)
    ensures var out := Destroy(Detach(c, d), d);
            SavesOnlySlots(out) && forall m :: ImageAt(out.core, Apply(t, out.ops), lost, m)
  {
    DynamicIsListed(c, d);
    hide Structure, Generations, Waiting, Coherent, Destroy, ImageAt, Apply, OwnIds, SavesOnlySlots, Carvings;
    var c0 := Detach(c, d);
    DestroySaves(c0, d);
    forall m ensures ImageAt(Destroy(c0, d).core, Apply(t, Destroy(c0, d).ops), lost, m) {
      if m != d {
        DetachedElsewhere(c, d, m);
        UnchangedIsImage(c, c0, t, lost, m);
      }
      DestroyImage(c0, d, t, lost, m);
    }
  }

  lemma DetachedElsewhere(c: Core, d: SlotName, m: SlotName)
    requires m != d
    ensures SameRecord(c, Detach(c, d), m)
  {
  }

  /** What one step saves and deletes keeps the table the image of the core. */
  lemma StepKeepsImage(c: Core, ev: Event, t: Table, lost: set<ClaimId>)
    requires Inv(c) && Inv(Step(c, ev).core) && Image(c, t, lost)
    ensures Image(Step(c, ev).core, Apply(t, Step(c, ev).ops), lost)
  {
    hide Registry, Ids, Children, Generations, Waiting, Coherent, Step, ShapeOf, Edited, Reissued, Advances, ImageAt, OwnIds, Apply, SavesOnlySlots,
      CarveSlot, Destroy, Sane, Carvings;
    InvIsFirm(c);
    StepHasShape(c, ev);
    match ShapeOf(c, ev) {
      case Edits(n) => LocalImage(c, ev, t, lost, n);
      case Resets(n) => LocalImage(c, ev, t, lost, n);
      case Reissues(n) => LocalImage(c, ev, t, lost, n);
      case Carves(p) => StepIsCarve(c, ev); CarveStepImage(c, p, ev.ask, ev.now, t, lost);
      case Destroys(d) => StepIsDestroy(c, ev); DestroyStepImage(c, d, t, lost);
    }
    StepKeepsCarvings(c, ev, t);
    StepRemembers(c, ev);
    StepKeepsOwnIds(c, Step(c, ev), t);
  }

  lemma StepIsCarve(c: Core, ev: Event)
    requires ShapeOf(c, ev).Carves?
    ensures var p := ShapeOf(c, ev).p;
            ev.RequestClaim? && p in c.slots && c.slots[p].claim.Some?
            && Step(c, ev) == CarveSlot(DropTimer(c, p), p, ev.ask, ev.now)
  {
    hide FindIn, CarveSlot;
    FindInFinds(c.slots, c.Live(), ev.id);
  }

  lemma StepIsDestroy(c: Core, ev: Event)
    requires ShapeOf(c, ev).Destroys?
    ensures var d := ShapeOf(c, ev).d;
            d in c.slots && c.slots[d].IsDynamic() && Step(c, ev) == Destroy(Detach(c, d), d)
  {
    hide FindIn, Destroy;
    if ev.ReleaseClaim? { FindInFinds(c.slots, c.Live(), ev.id); }
  }
}
