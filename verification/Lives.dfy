/**
 * The startd over any number of lives: event loop, persister, stop, boot and re-adoption together.
 * When a restart reproduces the claimed state, and what holds when it does not.
 */
module Lives {
  import opened Basics
  import opened Slots
  import opened CoreModel
  import opened CoreInvariant
  import opened StepShapes
  import opened Firmness
  import opened Allocator
  import opened Runs
  import opened Persister
  import opened Images
  import opened Stored
  import opened Adoption
  import opened Restart

  /** The core is one with the slots of specs, whatever has been carved or claimed since. */
  ghost predicate Follows(c: Core, specs: seq<SlotSpec>) {
    c.fixed == Names(specs) && forall i :: 0 <= i < |specs| ==> FollowsAt(c, specs[i])
  }

  predicate FollowsAt(c: Core, spec: SlotSpec) { spec.name in c.slots && c.slots[spec.name].kind == spec.kind }

  /** A sound core with the slots of specs, over a store of records it may have written, up to date or not. */
  ghost predicate Stands(c: Core, t: Table, specs: seq<SlotSpec>) { SoundCore(c) && AllFit(true, c, t) && Follows(c, specs) }

  /** What holds at any moment between the core and the table its loop means to have stored. */
  ghost predicate SysInv(c: Core, t: Table, lost: set<ClaimId>, specs: seq<SlotSpec>) { Stands(c, t, specs) && Image(c, t, lost) }

  // ------------------------------------------------------------------------- one step

  lemma {:induction false} ApplyFits(strict: bool, c: Core, t: Table, ops: seq<StoreOp>)
    requires AllFit(strict, c, t) && OpsFit(strict, c, ops)
    ensures AllFit(strict, c, Apply(t, ops))
  {
    hide Fits;
    if ops != [] { ApplyFits(strict, c, t, ops[..|ops| - 1]); }
  }

  lemma FollowsOn(c: Core, c1: Core, specs: seq<SlotSpec>)
    requires Follows(c, specs) && c1.fixed == c.fixed && CarriesOver(c, c1)
    requires forall n :: n in c.fixed ==> n.Configured?
    ensures Follows(c1, specs)
  {
    forall i | 0 <= i < |specs| ensures FollowsAt(c1, specs[i]) {
      assert FollowsAt(c, specs[i]);
      assert Names(specs)[i] == specs[i].name;
    }
  }

  lemma FixedIsConfigured(c: Core)
    requires Inv(c)
    ensures forall n :: n in c.fixed ==> n.Configured?
  {
  }

  lemma StepKeepsFollowing(c: Core, ev: Event, specs: seq<SlotSpec>)
    requires Inv(c) && Follows(c, specs)
    ensures Follows(Step(c, ev).core, specs)
  {
    hide Inv, Step, Follows, CarriesOver, Firm;
    InvIsFirm(c);
    StepKeepsFixed(c, ev);
    StepSamePlaces(c, ev);
    FixedIsConfigured(c);
    FollowsOn(c, Step(c, ev).core, specs);
  }

  lemma StepKeepsFixed(c: Core, ev: Event)
    requires Firm(c)
    ensures Step(c, ev).core.fixed == c.fixed
  {
    hide Registry, Ids, Children, Sane, Generations, ShapeOf, Step, CarveSlot, Destroy, OnlyAt, SlotEdit, ActEdit, SameShare;
    StepHasShape(c, ev);
    match ShapeOf(c, ev)
    case Edits(_) =>
    case Resets(_) =>
    case Reissues(_) =>
    case Carves(p) => CarveKeepsFixed(DropTimer(c, p), p, ev.ask, ev.now);
    case Destroys(d) => DestroyIssues(Detach(c, d), d);
  }

  lemma CarveKeepsFixed(c: Core, p: SlotName, ask: ClaimRequest, now: int)
    requires p in c.slots && c.slots[p].claim.Some?
    ensures CarveSlot(c, p, ask, now).core.fixed == c.fixed
  {
    hide Persist, ChildIds;
  }

  /** Any fair event keeps the whole system invariant. */
  lemma StepKeepsSys(c: Core, ev: Event, t: Table, lost: set<ClaimId>, specs: seq<SlotSpec>)
    requires SysInv(c, t, lost, specs) && Fair(c, ev)
    ensures SysInv(Step(c, ev).core, Apply(t, Step(c, ev).ops), lost, specs)
  {
    hide Inv, Conserved, SharesNonNegative, Image, Follows, Step, Fair, AllFit, CarriesOver, Structure, AllSane, Generations;
    StepKeepsSound(c, ev);
    StepKeepsImage(c, ev, t, lost);
    StepKeepsFollowing(c, ev, specs);
    InvIsFirm(c);
    StepSamePlaces(c, ev);
    AllFitKept(true, c, Step(c, ev).core, t);
    StepOpsFit(true, c, ev);
    ApplyFits(true, Step(c, ev).core, t, Step(c, ev).ops);
  }

  lemma {:induction false} RunKeepsImage(cs: seq<Core>, evs: seq<Event>, k: nat, t: Table, lost: set<ClaimId>)
    requires Trace(cs, evs) && FairEvents(cs, evs) && k <= |evs| && SoundCore(cs[0]) && Image(cs[0], t, lost)
    ensures Image(cs[k], Apply(t, OpsOf(cs, evs, k)), lost)
  {
    hide SoundCore, Step, Fair, Image;
    if k > 0 {
      RunKeepsImage(cs, evs, k - 1, t, lost);
      RunKeepsSound(cs, evs, k - 1);
      RunKeepsSound(cs, evs, k);
      SoundHasInv(cs[k - 1]);
      SoundHasInv(cs[k]);
      StepKeepsImage(cs[k - 1], evs[k - 1], Apply(t, OpsOf(cs, evs, k - 1)), lost);
      ApplyTwice(t, OpsOf(cs, evs, k - 1), Step(cs[k - 1], evs[k - 1]).ops);
    }
  }

  lemma SoundHasInv(c: Core)
    requires SoundCore(c)
    ensures Inv(c) && NO_CLAIM_ID !in c.issued
  {
    hide Inv, Conserved, SharesNonNegative;
  }

  lemma {:induction false} RunKeepsFollowing(cs: seq<Core>, evs: seq<Event>, k: nat, specs: seq<SlotSpec>)
    requires Trace(cs, evs) && FairEvents(cs, evs) && k <= |evs| && SoundCore(cs[0]) && Follows(cs[0], specs)
    ensures Follows(cs[k], specs)
  {
    hide SoundCore, Step, Fair, Follows;
    if k > 0 {
      RunKeepsFollowing(cs, evs, k - 1, specs);
      RunKeepsSound(cs, evs, k - 1);
      SoundHasInv(cs[k - 1]);
      StepKeepsFollowing(cs[k - 1], evs[k - 1], specs);
    }
  }

  // ----------------------------------------------------------------- adopting a store

  /** recs lists the whole table, once, in any order. */
  ghost predicate Lists(recs: seq<Record>, t: Table) {
    && Distinct(recs)
    && (forall i :: 0 <= i < |recs| ==> recs[i].name in t && t[recs[i].name] == recs[i])
    && (forall n :: n in t ==> t[n] in recs)
  }

  /** A core as it is booted: nothing claimed, carved, timed or running. */
  ghost predicate Fresh(f0: Core) {
    && Inv(f0) && Quiet(f0) && Conserved(f0) && NO_CLAIM_ID !in f0.issued
    && (forall n :: n in f0.slots ==> !f0.Claimed(n) && f0.slots[n].children == [])
  }

  lemma FreshIsSteady(f0: Core)
    requires Fresh(f0)
    ensures Steady(f0, f0)
  {
    RegistryHasFixed(f0);
    hide Registry, Ids, AllCoherent, Generations, Waiting, Conserved;
  }

  lemma RegistryHasFixed(c: Core)
    requires Registry(c.fixed, c.dyn, c.slots, c.dslotSeq)
    ensures forall n :: n in c.fixed ==> n in c.slots
  {
  }

  lemma FreshIsRebuilding(f0: Core, bad: set<ClaimId>)
    requires Fresh(f0)
    ensures Rebuilding(f0, Adopting(f0, [], {}), [], bad)
  {
    FreshIsSteady(f0);
    hide Inv, Steady, Conserved;
    forall n ensures !f0.Claimed(n) {
      assert n in f0.slots ==> !f0.Claimed(n);
    }
  }

  lemma ListedFit(f0: Core, t: Table, recs: seq<Record>)
    requires AllFit(false, f0, t) && Lists(recs, t)
    ensures ListWritten(f0, recs)
  {
    hide Written;
    forall i | 0 <= i < |recs| ensures Written(f0, recs[i]) {
      assert Fits(false, f0, t[recs[i].name]);
    }
  }

  /** No slot adoption would act on has changed its kind since it was recorded. */
  ghost predicate KindsKept(f0: Core, t: Table, bad: set<ClaimId>) { forall n :: n in t ==> Safe(f0, t[n], bad) }

  lemma ListedSafe(f0: Core, t: Table, recs: seq<Record>, bad: set<ClaimId>)
    requires AllFit(false, f0, t) && Lists(recs, t)
    ensures ListSafe(f0, recs, bad) <==> KindsKept(f0, t, bad)
  {
    hide Safe, Fits;
    forall i | 0 <= i < |recs| ensures KindsKept(f0, t, bad) ==> Safe(f0, recs[i], bad) {
      assert recs[i] == t[recs[i].name];
    }
    forall n | n in t ensures ListSafe(f0, recs, bad) ==> Safe(f0, t[n], bad) {
      var i :| 0 <= i < |recs| && recs[i] == t[n];
    }
  }

  lemma StrictIsSafe(f0: Core, t: Table, bad: set<ClaimId>)
    requires AllFit(true, f0, t)
    ensures KindsKept(f0, t, bad)
  {
    hide Acts, KeepsKind, Written;
    forall n | n in t ensures Safe(f0, t[n], bad) {
      assert Fits(true, f0, t[n]);
    }
  }

  /**
   * Re-adoption in full: any configuration that has not changed the kind of what adoption acts on, any
   * shares, any sessions that cannot be imported, any List order. Dynamic slots are rebuilt exactly as recorded, claims exactly
   * where the session can be imported, records of slots that are gone are dropped, and the invariant
   * and conservation hold for what comes out.
   */
  lemma AdoptRebuilds(f0: Core, t: Table, recs: seq<Record>, bad: set<ClaimId>)
    requires Fresh(f0) && AllFit(false, f0, t) && KindsKept(f0, t, bad) && Lists(recs, t)
    ensures var out := Adopt(f0, recs, bad); Rebuilt(f0, out.core, recs, bad) && out.ops == Drops(f0, recs)
  {
    FreshFacts(f0);
    hide Fresh, Registry, Rebuilding, Rebuilt, Lists, AllFit, Refreshed, ListWritten, ListSafe, KindsKept, Drops;
    ListedFit(f0, t, recs);
    ListedSafe(f0, t, recs, bad);
    ListsDistinct(recs, t);
    FreshIsRebuilding(f0, bad);
    AdoptAllKeeps(f0, recs, bad);
    RefreshedIsRebuilt(f0, AdoptAll(f0, recs, bad), recs, bad);
    RebuildingDrops(f0, AdoptAll(f0, recs, bad), recs, bad);
  }

  lemma FreshFacts(f0: Core)
    requires Fresh(f0)
    ensures Registry(f0.fixed, f0.dyn, f0.slots, f0.dslotSeq) && f0.dyn == [] && Waiting(f0.deferred, f0.waits, f0.closedWaits)
  {
  }

  lemma ListsDistinct(recs: seq<Record>, t: Table)
    requires Lists(recs, t)
    ensures Distinct(recs)
  {
  }

  lemma RebuildingDrops(f0: Core, a: Adopting, recs: seq<Record>, bad: set<ClaimId>)
    requires Rebuilding(f0, a, recs, bad)
    ensures a.dropped == Drops(f0, recs)
  {
  }

  /** The adopted core and what is left of the store are sound again, so every run theorem applies to the next life. */
  lemma AdoptIsSound(strict: bool, f0: Core, t: Table, recs: seq<Record>, bad: set<ClaimId>)
    requires Fresh(f0) && AllFit(strict, f0, t) && KindsKept(f0, t, bad) && Lists(recs, t)
    ensures var out := Adopt(f0, recs, bad); SoundCore(out.core) && AllFit(strict, out.core, Apply(t, out.ops))
  {
    hide Lists, Adopt, Fits, Drops, KindsKept;
    LooserFits(strict, f0, t);
    AdoptRebuilds(f0, t, recs, bad);
    FreshFacts(f0);
    RebuiltCarriesOver(f0, Adopt(f0, recs, bad).core, recs, bad);
    hide Fresh, Registry, AllDone, AllRebuilt, Inv, Conserved, SharesNonNegative, CarriesOver, Redialing, SameSpecs, AllFit;
    AllFitKept(strict, f0, Adopt(f0, recs, bad).core, t);
    DropsSaveNothing(strict, f0, Adopt(f0, recs, bad).core, recs);
    ApplyFits(strict, Adopt(f0, recs, bad).core, t, Adopt(f0, recs, bad).ops);
    FreshHasNoEmptyId(f0);
  }

  /** And exactly then is it sound: a claim on a p-slot or a slot carved from a static one breaks the invariant. */
  lemma AdoptIsSoundIff(f0: Core, t: Table, recs: seq<Record>, bad: set<ClaimId>)
    requires Fresh(f0) && AllFit(false, f0, t) && Lists(recs, t)
    ensures SoundCore(Adopt(f0, recs, bad).core) <==> KindsKept(f0, t, bad)
  {
    hide Fresh, Registry, Lists, Adopt, AllFit, KindsKept, Inv, Conserved, SharesNonNegative;
    if KindsKept(f0, t, bad) { AdoptIsSound(false, f0, t, recs, bad); }
    if SoundCore(Adopt(f0, recs, bad).core) {
      FreshFacts(f0);
      ListedFit(f0, t, recs);
      assert ListSafe(f0, recs, bad) by {
        forall i | 0 <= i < |recs| ensures Safe(f0, recs[i], bad) {
          InvMeansSafe(f0, recs, bad, i);
        }
      }
      ListedSafe(f0, t, recs, bad);
    }
  }

  lemma FreshHasNoEmptyId(f0: Core)
    requires Fresh(f0)
    ensures NO_CLAIM_ID !in f0.issued
  {
  }

  lemma LooserFits(strict: bool, c: Core, t: Table)
    requires AllFit(strict, c, t)
    ensures AllFit(false, c, t)
  {
  }

  lemma {:induction false} DropsSaveNothing(strict: bool, f0: Core, c: Core, recs: seq<Record>)
    ensures OpsFit(strict, c, Drops(f0, recs))
  {
    hide Fits, Placeable;
    if recs != [] { DropsSaveNothing(strict, f0, c, recs[..|recs| - 1]); }
  }

  lemma RebuiltCarriesOver(f0: Core, f: Core, recs: seq<Record>, bad: set<ClaimId>)
    requires Registry(f0.fixed, f0.dyn, f0.slots, f0.dslotSeq) && f0.dyn == [] && Rebuilt(f0, f, recs, bad)
    ensures CarriesOver(f0, f)
  {
    hide Ids, Children, AllCoherent, Generations, Waiting, Conserved, SharesNonNegative, AllDone, Redialing, AllRebuilt;
    forall n: SlotName | n.Configured?
      ensures n in f.slots <==> n in f0.slots
      ensures n in f.slots ==> n in f0.slots && f0.slots[n].kind == f.slots[n].kind
    {
      assert n in f0.fixed ==> SameSpecAt(f0, f, n);
    }
  }

  // ------------------------------------------------------- Busy slots without a starter

  /** After re-adoption a slot is Busy without a starter exactly if its record was Busy and named no socket to redial. */
  lemma AdoptedStrays(f0: Core, t: Table, recs: seq<Record>, bad: set<ClaimId>, n: SlotName)
    requires Fresh(f0) && AllFit(false, f0, t) && KindsKept(f0, t, bad) && Lists(recs, t)
    ensures var f := Adopt(f0, recs, bad).core;
            && (Stray(At(f, n)) <==> n in t && Claims(f0, t[n], bad) && t[n].activity == Busy && t[n].link.socket == "")
            && (Stray(At(f, n)) ==> StrayId(f, n) == Some(t[n].id))
  {
    hide Fresh, Adopt, AllFit, Drops, KindsKept;
    AdoptRebuilds(f0, t, recs, bad);
    FittingOwnIds(false, f0, t);
    var f := Adopt(f0, recs, bad).core;
    hide Structure, Generations, Waiting, Conserved, SharesNonNegative, SameStart, SameSpecs, AllRebuilt, Norm, RecordOf, Coherent, Claims;
    assert Coherent(At(f, n));
    if n in t {
      var i :| 0 <= i < |recs| && recs[i] == t[n];
      assert recs[i].name == n;
      if Claims(f0, t[n], bad) {
        assert Done(f, recs[i]);
        DoneStray(f, t[n]);
      }
    }
    if f.Claimed(n) { assert ClaimsIn(f0, recs, bad, n); }
    StrayIsClaimed(f, n);
  }

  lemma StrayIsClaimed(f: Core, n: SlotName)
    ensures Stray(At(f, n)) ==> f.Claimed(n)
  {
  }

  lemma DoneStray(f: Core, rec: Record)
    requires Coherent(At(f, rec.name)) && Redialing(f.acts) && Done(f, rec)
    ensures Stray(At(f, rec.name)) <==> rec.activity == Busy && rec.link.socket == ""
    ensures Key(f.slots[rec.name]) == Some(rec.id)
  {
  }

  /** So, at any moment of the run that follows, is every such slot, and it still holds the recorded claim. */
  lemma StraysAreOnRecord(f0: Core, t: Table, recs: seq<Record>, bad: set<ClaimId>, cs: seq<Core>, evs: seq<Event>, j: nat, n: SlotName)
    requires Fresh(f0) && AllFit(false, f0, t) && KindsKept(f0, t, bad) && Lists(recs, t)
    requires Trace(cs, evs) && cs[0] == Adopt(f0, recs, bad).core
    requires (forall i :: 0 <= i < |evs| ==> !StrandsClaim(cs[i], evs[i])) && j <= |evs| && Stray(At(cs[j], n))
    ensures n in t && Claims(f0, t[n], bad) && t[n].activity == Busy && t[n].link.socket == "" && cs[j].slots[n].Holds(t[n].id)
  {
    hide Fresh, Adopt, AllFit, Lists, Step, StrandsClaim, Inv, Drops, KindsKept;
    AdoptRebuilds(f0, t, recs, bad);
    RunKeepsInv(cs, evs);
    StraysOnlyComeFromAdoption(cs, evs, j, n);
    AdoptedStrays(f0, t, recs, bad, n);
  }

  // ------------------------------------------------------------------ when it reproduces

  /** f0 was booted with the slots of c, in whatever shares, and knows the ids c has issued. */
  ghost predicate FreshStart(c: Core, f0: Core) { Fresh(f0) && SameKinds(c, f0) && Knows(f0, c.issued) }

  /**
   * The store, as far as adoption will act on it, describes the core: every claimed slot has its
   * up-to-date record, with a session that can be imported; a Claimed record whose session can be
   * imported belongs to a claimed slot; and the records of dynamic slots are those of the carved slots,
   * claimed or not, with their kinds and shares.
   */
  predicate RestoresAt(c: Core, t: Table, bad: set<ClaimId>, n: SlotName) {
    && (c.Claimed(n) ==> n in t && Norm(t[n]) == Norm(RecordOf(c, n)) && t[n].id !in bad)
    && (n in t && t[n].state == Claimed && t[n].id !in bad ==> c.Claimed(n))
    && CarvedAt(c, t, n)
  }

  ghost predicate Restores(c: Core, t: Table, bad: set<ClaimId>) { forall n :: RestoresAt(c, t, bad, n) }

  lemma StartCarriesOver(c: Core, f0: Core)
    requires Inv(c) && FreshStart(c, f0)
    ensures CarriesOver(c, f0)
  {
    hide Ids, Children, AllCoherent, Generations, Waiting, Conserved;
    forall n: SlotName | n.Configured?
      ensures n in f0.slots <==> n in c.slots
      ensures n in f0.slots ==> n in c.slots && c.slots[n].kind == f0.slots[n].kind
    {
      assert n in c.fixed ==> SameKindAt(c, f0, n);
    }
  }

  /** What adoption makes of a store is described by it. */
  lemma RebuiltRestores(f0: Core, f: Core, t: Table, recs: seq<Record>, bad: set<ClaimId>, n: SlotName)
    requires Rebuilt(f0, f, recs, bad) && Lists(recs, t) && AllFit(true, f0, t) && NO_CLAIM_ID !in f0.issued
    ensures RestoresAt(f, t, bad, n)
  {
    DynamicsAreCarved(f);
    hide Inv, Conserved, SharesNonNegative, SameSpecs, Redialing, Norm, RecordOf;
    if n in t {
      assert Fits(true, f0, t[n]);
      var i :| 0 <= i < |recs| && recs[i] == t[n];
      assert Claims(f0, recs[i], bad) ==> Done(f, recs[i]);
      assert Rebuilds(f0, recs[i]) ==> AsRecorded(f, recs[i]);
    }
    assert f.Claimed(n) ==> ClaimsIn(f0, recs, bad, n);
    assert n in f.dyn ==> RebuiltIn(f0, recs, n);
  }

  /** The record of a claimed slot says Claimed. */
  lemma RecordedClaimed(c: Core, t: Table, bad: set<ClaimId>, n: SlotName)
    requires Coherent(At(c, n)) && RestoresAt(c, t, bad, n)
    ensures ImageAt(c, t, bad, n) && CarvedAt(c, t, n)
    ensures c.Claimed(n) <==> n in t && t[n].state == Claimed && t[n].id !in bad
  {
  }

  /** Two sound cores with the same slots that the same store describes agree. */
  lemma RestoresReproduces(c: Core, f: Core, t: Table, bad: set<ClaimId>)
    requires Inv(c) && Inv(f) && Conserved(c) && Conserved(f) && SameKinds(c, f)
    requires OwnIds(c, t) && OwnIds(f, t) && Restores(c, t, bad) && Restores(f, t, bad)
    ensures SameClaims(c, f)
  {
    hide Structure, Generations, Waiting, Conserved, SameKinds, OwnIds, Coherent, ImageAt, CarvedAt, SameClaims, RestoresAt, Core.Claimed;
    forall n
      ensures ImageAt(c, t, bad, n) && ImageAt(f, t, bad, n) && CarvedAt(c, t, n) && CarvedAt(f, t, n) && (c.Claimed(n) <==> f.Claimed(n))
    {
      assert Coherent(At(c, n)) && Coherent(At(f, n)) && RestoresAt(c, t, bad, n) && RestoresAt(f, t, bad, n);
      RecordedClaimed(c, t, bad, n);
      RecordedClaimed(f, t, bad, n);
    }
    ImagesDetermine(c, f, t, bad);
  }

  /** What a schedd can tell about a claimed slot is what its record says. */
  lemma SameAtSameRecord(c: Core, f: Core, n: SlotName)
    requires Coherent(At(c, n)) && Coherent(At(f, n)) && SameAt(c, f, n) && c.Claimed(n)
    ensures Norm(RecordOf(c, n)) == Norm(RecordOf(f, n))
  {
  }

  lemma ReproducedRestores(c: Core, f: Core, t: Table, bad: set<ClaimId>, n: SlotName)
    requires Coherent(At(c, n)) && Coherent(At(f, n)) && SameAt(c, f, n) && RestoresAt(f, t, bad, n)
    requires (IsCarved(c, n) <==> IsCarved(f, n)) && (IsCarved(c, n) ==> SameCarving(c, f, n))
    ensures RestoresAt(c, t, bad, n)
  {
    if c.Claimed(n) { SameAtSameRecord(c, f, n); }
    hide Coherent, Norm, RecordOf;
  }

  lemma ReproducesRestores(c: Core, f: Core, t: Table, bad: set<ClaimId>)
    requires Inv(c) && Inv(f) && Restores(f, t, bad) && SameClaims(c, f)
    ensures Restores(c, t, bad)
  {
    DynamicsAreCarved(c);
    DynamicsAreCarved(f);
    hide Structure, Generations, Waiting, Coherent, RestoresAt, SameAt, SameRemainder, SameCarving;
    forall n ensures RestoresAt(c, t, bad, n) {
      assert Coherent(At(c, n)) && Coherent(At(f, n)) && SameAt(c, f, n) && RestoresAt(f, t, bad, n);
      assert (n in c.dyn <==> n in f.dyn) && (n in c.dyn ==> SameCarving(c, f, n));
      ReproducedRestores(c, f, t, bad, n);
    }
  }

  /**
   * Restart refinement, exactly. For any sound core, whatever it lost in earlier restarts, and any store
   * of records it may have written, up to date or not: boot with the same slots, adopt the store in any
   * List order with any sessions failing to import, and the claimed state is reproduced if and only if
   * the store, as far as adoption acts on it, describes the core. Either way the new core is sound, the
   * store describes it, and every starter redialled has a socket.
   */
  lemma RestartReproducesIff(c: Core, t: Table, f0: Core, recs: seq<Record>, bad: set<ClaimId>)
    requires SoundCore(c) && AllFit(true, c, t) && FreshStart(c, f0) && Lists(recs, t)
    ensures var out := Adopt(f0, recs, bad);
            && (SameClaims(c, out.core) <==> Restores(c, t, bad))
            && SoundCore(out.core) && AllFit(true, out.core, t) && Restores(out.core, t, bad)
            && out.ops == [] && Redialing(out.core.acts)
  {
    StartFits(c, t, f0);
    var f := Adopt(f0, recs, bad).core;
    AdoptedFacts(f0, t, recs, bad);
    StartKinds(c, f0, f);
    hide Inv, Conserved, SharesNonNegative, SameKinds, SameClaims, Restores, AllFit, Fresh, Knows, Lists, Adopt, Redialing;
    FittingOwnIds(true, c, t);
    FittingOwnIds(true, f, t);
    if Restores(c, t, bad) { RestoresReproduces(c, f, t, bad); }
    if SameClaims(c, f) { ReproducesRestores(c, f, t, bad); }
  }

  lemma StartFits(c: Core, t: Table, f0: Core)
    requires SoundCore(c) && AllFit(true, c, t) && FreshStart(c, f0)
    ensures AllFit(true, f0, t)
  {
    hide Conserved, SharesNonNegative, AllFit, CarriesOver;
    StartCarriesOver(c, f0);
    AllFitKept(true, c, f0, t);
  }

  lemma StartKinds(c: Core, f0: Core, f: Core)
    requires SameKinds(c, f0) && SameSpecs(f0, f)
    ensures SameKinds(c, f)
  {
    forall n | n in c.fixed ensures SameKindAt(c, f, n) {
      assert SameKindAt(c, f0, n) && SameSpecAt(f0, f, n);
    }
  }

  lemma AdoptedFacts(f0: Core, t: Table, recs: seq<Record>, bad: set<ClaimId>)
    requires Fresh(f0) && AllFit(true, f0, t) && Lists(recs, t)
    ensures var out := Adopt(f0, recs, bad);
            && SoundCore(out.core) && AllFit(true, out.core, t) && out.ops == [] && Redialing(out.core.acts) && SameSpecs(f0, out.core)
            && Restores(out.core, t, bad)
  {
    hide Inv, Conserved, SharesNonNegative, AllFit, RestoresAt, SameSpecs, Redialing, AllDone, AllRebuilt, Adopt, Lists, Drops, KindsKept;
    StrictIsSafe(f0, t, bad);
    AdoptIsSound(true, f0, t, recs, bad);
    LooserFits(true, f0, t);
    AdoptRebuilds(f0, t, recs, bad);
    NothingDropped(f0, t, recs, |recs|);
    assert recs[..|recs|] == recs;
    var f := Adopt(f0, recs, bad).core;
    forall n ensures RestoresAt(f, t, bad, n) {
      RebuiltRestores(f0, f, t, recs, bad, n);
    }
  }

  /** With every record's place still configured nothing is dropped. */
  lemma {:induction false} NothingDropped(f0: Core, t: Table, recs: seq<Record>, k: nat)
    requires AllFit(true, f0, t) && Lists(recs, t) && k <= |recs|
    ensures Drops(f0, recs[..k]) == []
  {
    if k > 0 {
      NothingDropped(f0, t, recs, k - 1);
      assert recs[..k][..k - 1] == recs[..k - 1];
      assert Fits(true, f0, t[recs[k - 1].name]);
    }
  }

  // --------------------------------------------------- with a store the loop means to have

  /** Exactly the recorded sessions of the claimed slots can be imported. */
  ghost predicate Reimports(c: Core, t: Table, bad: set<ClaimId>) {
    forall n :: n in t && t[n].state == Claimed ==> (t[n].id !in bad <==> c.Claimed(n))
  }

  /** An up-to-date store restores exactly when the sessions that can be imported are those of the claimed slots. */
  lemma ImageRestores(c: Core, t: Table, lost: set<ClaimId>, bad: set<ClaimId>)
    requires Inv(c) && Image(c, t, lost)
    ensures Restores(c, t, bad) <==> Reimports(c, t, bad)
  {
    hide Inv, OwnIds, ImageAt, CarvedAt, RestoresAt;
    forall n ensures RestoresAt(c, t, bad, n) <==> (n in t && t[n].state == Claimed ==> (t[n].id !in bad <==> c.Claimed(n))) {
      assert ImageAt(c, t, lost, n) && CarvedAt(c, t, n);
      ImageRestoresAt(c, t, lost, bad, n);
    }
  }

  lemma ImageRestoresAt(c: Core, t: Table, lost: set<ClaimId>, bad: set<ClaimId>, n: SlotName)
    requires Inv(c) && ImageAt(c, t, lost, n) && CarvedAt(c, t, n)
    ensures RestoresAt(c, t, bad, n) <==> (n in t && t[n].state == Claimed ==> (t[n].id !in bad <==> c.Claimed(n)))
  {
    assert Coherent(At(c, n));
    hide Inv;
  }

  ghost predicate AllImport(t: Table, bad: set<ClaimId>) { forall n :: n in t && t[n].state == Claimed ==> t[n].id !in bad }

  /** Where no claim has been lost that is: every recorded session can be imported. */
  lemma NothingLost(c: Core, t: Table, bad: set<ClaimId>)
    requires Image(c, t, {})
    ensures Reimports(c, t, bad) <==> AllImport(t, bad)
  {
    hide OwnIds, Carvings, Norm, RecordOf;
    forall n | n in t && t[n].state == Claimed ensures c.Claimed(n) {
      assert ImageAt(c, t, {}, n);
    }
  }

  /**
   * The restart theorem for a store the loop means to have: the claimed state comes back if and only if
   * the sessions that can be imported are those of the claimed slots. In every case the whole system
   * invariant holds again, the claims now missing being those that could not be imported.
   */
  lemma RestartReproduces(c: Core, t: Table, lost: set<ClaimId>, specs: seq<SlotSpec>, f0: Core, recs: seq<Record>, bad: set<ClaimId>)
    requires SysInv(c, t, lost, specs) && FreshStart(c, f0) && Lists(recs, t)
    ensures var out := Adopt(f0, recs, bad);
            && (SameClaims(c, out.core) <==> Reimports(c, t, bad))
            && SysInv(out.core, t, bad, specs) && out.ops == [] && Redialing(out.core.acts)
  {
    hide Inv, Conserved, SharesNonNegative, Image, AllFit, Follows, FreshStart, Lists, Adopt, SameClaims, Restores, Redialing, Reimports;
    RestartReproducesIff(c, t, f0, recs, bad);
    ImageRestores(c, t, lost, bad);
    AdoptKeepsSys(c, t, specs, f0, recs, bad);
  }

  lemma RestoredImage(f: Core, t: Table, bad: set<ClaimId>)
    requires AllCoherent(f) && OwnIds(f, t) && Restores(f, t, bad)
    ensures Image(f, t, bad)
  {
    hide OwnIds, Coherent, ImageAt, CarvedAt, RestoresAt;
    forall n ensures ImageAt(f, t, bad, n) && CarvedAt(f, t, n) {
      assert Coherent(At(f, n)) && RestoresAt(f, t, bad, n);
      RecordedClaimed(f, t, bad, n);
    }
  }

  /** Whatever the store was, it describes what has been adopted from it. */
  lemma AdoptKeepsSys(c: Core, t: Table, specs: seq<SlotSpec>, f0: Core, recs: seq<Record>, bad: set<ClaimId>)
    requires Stands(c, t, specs) && FreshStart(c, f0) && Lists(recs, t)
    ensures SysInv(Adopt(f0, recs, bad).core, t, bad, specs)
  {
    StartFits(c, t, f0);
    AdoptedFacts(f0, t, recs, bad);
    var f := Adopt(f0, recs, bad).core;
    StartKinds(c, f0, f);
    KindsFollow(c, f, specs);
    hide Structure, AllCoherent, Generations, Waiting, Conserved, SharesNonNegative, SameKinds, AllFit, Restores, Fresh,
      Knows, Lists, Adopt, Redialing, Follows, SameSpecs, Image;
    FittingOwnIds(true, f, t);
    RestoredImage(f, t, bad);
  }

  lemma KindsFollow(c: Core, f: Core, specs: seq<SlotSpec>)
    requires SameKinds(c, f) && Follows(c, specs)
    ensures Follows(f, specs)
  {
    forall i | 0 <= i < |specs| ensures FollowsAt(f, specs[i]) {
      assert FollowsAt(c, specs[i]);
      assert Names(specs)[i] == specs[i].name;
      assert SameKindAt(c, f, specs[i].name);
    }
  }

  // -------------------------------------------------------------------- life after life

  /** How the startd comes back: its configuration, what the store lists and what cannot be imported. */
  datatype Reboot = Reboot(config: Config, birthdate: int, specs: seq<SlotSpec>, now: int, unminted: set<SlotName>,
                           recs: seq<Record>, bad: set<ClaimId>)

  function Booting(c: Core, r: Reboot): Core {
    Boot(r.config, r.birthdate, r.specs, r.now, r.unminted, c.issued)
  }

  lemma BootedAsSpecified(c: Core, specs: seq<SlotSpec>, issued: map<ClaimId, SlotName>, n: SlotName)
    requires Registry(c.fixed, c.dyn, c.slots, c.dslotSeq) && c.dyn == [] && Booted(c, specs, issued) && n in c.slots
    ensures exists i :: 0 <= i < |specs| && specs[i].name == n && Configures(specs[i], c)
  {
    var i :| 0 <= i < |c.fixed| && c.fixed[i] == n;
    assert Names(specs)[i] == specs[i].name;
    assert Configures(specs[i], c);
  }

  lemma BootIsFresh(c: Core, r: Reboot)
    requires WellConfigured(r.specs) && NewBirthdate(r.birthdate, c.issued) && NO_CLAIM_ID !in c.issued
    ensures Fresh(Booting(c, r)) && Booted(Booting(c, r), r.specs, c.issued)
  {
    var f0 := Booting(c, r);
    BootKeeps(r.config, r.birthdate, r.specs, r.now, r.unminted, c.issued);
    hide Ids, Children, AllCoherent, Generations, Waiting, Conserved, Boot;
    forall n | n in f0.slots ensures !f0.Claimed(n) && f0.slots[n].children == [] {
      BootedAsSpecified(f0, r.specs, c.issued, n);
    }
  }

  /** The same slots in the same order, in whatever shares. */
  predicate Alike(a: seq<SlotSpec>, b: seq<SlotSpec>) {
    |a| == |b| && forall i :: 0 <= i < |a| ==> a[i].name == b[i].name && a[i].kind == b[i].kind
  }

  lemma BootIsFreshStart(c: Core, specs: seq<SlotSpec>, r: Reboot)
    requires WellConfigured(r.specs) && Alike(specs, r.specs) && Follows(c, specs)
    requires NewBirthdate(r.birthdate, c.issued) && NO_CLAIM_ID !in c.issued
    ensures FreshStart(c, Booting(c, r))
  {
    var f0 := Booting(c, r);
    BootIsFresh(c, r);
    hide Fresh, Booting, Knows;
    assert Names(specs) == Names(r.specs);
    forall n | n in c.fixed ensures SameKindAt(c, f0, n) {
      var i :| 0 <= i < |c.fixed| && c.fixed[i] == n;
      assert Names(specs)[i] == specs[i].name;
      assert FollowsAt(c, specs[i]) && Configures(r.specs[i], f0);
    }
  }

  /** The very first boot, with an empty store. */
  lemma {:induction false} FirstBoot(r: Reboot)
    requires WellConfigured(r.specs)
    ensures SysInv(Boot(r.config, r.birthdate, r.specs, r.now, r.unminted, map[]), map[], {}, r.specs)
  {
    var before := Core(r.config, 0, 0, [], [], map[], 0, map[], map[], map[], 0, 0, map[], 0, {}, map[]);
    var f0 := Booting(before, r);
    BootIsFresh(before, r);
    FreshIsSound(f0);
    FreshImage(f0);
    hide SoundCore, Fresh, Image, Boot, Knows;
    forall i | 0 <= i < |r.specs| ensures FollowsAt(f0, r.specs[i]) {
      assert Configures(r.specs[i], f0);
    }
  }

  lemma FreshImage(f0: Core)
    requires Fresh(f0)
    ensures Image(f0, map[], {})
  {
    DynamicsAreCarved(f0);
    hide Inv, Conserved;
    forall n ensures !f0.Claimed(n) && CarvedAt(f0, map[], n) {
      assert n in f0.slots ==> !f0.Claimed(n);
    }
  }

  lemma FreshIsSound(f0: Core)
    requires Fresh(f0)
    ensures SoundCore(f0)
  {
    hide Inv, Conserved;
  }

  /** One life: the event loop's run, and the persister writing what it asks for until the last drain. */
  datatype Life = Life(cs: seq<Core>, evs: seq<Event>, ss: seq<State>, acts: seq<Action>)

  /** Fair events, any interleaving with the writer, commits that may fail, and the last drain. */
  ghost predicate Lived(life: Life, first: Table) {
    && Trace(life.cs, life.evs) && FairEvents(life.cs, life.evs)
    && Schedule(life.ss, life.acts, OpsOf(life.cs, life.evs, |life.evs|), first)
    && life.ss[|life.acts|].writer.Exited?
  }

  function End(life: Life): Core
    requires |life.cs| == |life.evs| + 1
  {
    life.cs[|life.evs|]
  }

  function Last(life: Life): State
    requires |life.ss| == |life.acts| + 1
  {
    life.ss[|life.acts|]
  }

  function Left(life: Life): Table
    requires |life.ss| == |life.acts| + 1
  {
    Last(life).store
  }

  lemma LivedShape(life: Life, first: Table)
    requires Lived(life, first)
    ensures |life.cs| == |life.evs| + 1 && |life.ss| == |life.acts| + 1
  {
  }

  /** What a life leaves in the store fits the core it ends with. */
  lemma LifeFits(strict: bool, life: Life, first: Table)
    requires Lived(life, first) && SoundCore(life.cs[0]) && AllFit(strict, life.cs[0], first)
    ensures SoundCore(End(life)) && AllFit(strict, End(life), Left(life)) && DeletesDynamic(OpsOf(life.cs, life.evs, |life.evs|))
  {
    var n := |life.evs|;
    hide SoundCore, Fair, Fits, CarriesOver, Step, Firm, DeletesDynamic;
    RunKeepsSound(life.cs, life.evs, n);
    SoundIsFirm(life.cs[0]);
    RunKeepsPlaces(life.cs, life.evs, 0, n);
    RunOpsFit(strict, life.cs, life.evs, n);
    AllFitKept(strict, life.cs[0], End(life), first);
    LastDone(life, first);
    ScheduleFits(strict, End(life), life.ss, life.acts, OpsOf(life.cs, life.evs, n), first, |life.acts|, |life.acts|);
  }

  lemma LastDone(life: Life, first: Table)
    requires Lived(life, first)
    ensures Last(life).done == OpsOf(life.cs, life.evs, |life.evs|)
  {
    var program := OpsOf(life.cs, life.evs, |life.evs|);
    EveryInterleaving(life.ss, life.acts, program, first, |life.acts|);
    var s := Last(life);
    assert s.done + s.todo == s.done;
    hide Step, Fair, OpsOf;
  }

  /** The table the loop of a life means to leave. */
  function Intended(life: Life, first: Table): Table
    requires |life.evs| <= |life.cs|
  {
    Apply(first, OpsOf(life.cs, life.evs, |life.evs|))
  }

  /** The next life starts from what re-adoption makes of the store. */
  ghost predicate Succeeds(life: Life, r: Reboot, next: Life)
    requires |life.cs| == |life.evs| + 1 && |life.ss| == |life.acts| + 1 && |next.cs| > 0
  {
    && WellConfigured(r.specs) && NewBirthdate(r.birthdate, End(life).issued) && Lists(r.recs, Left(life))
    && next.cs[0] == Adopt(Booting(End(life), r), r.recs, r.bad).core
  }

  /** A life that starts sound over a fitting store ends so. */
  lemma LifeStands(life: Life, first: Table, specs: seq<SlotSpec>)
    requires Lived(life, first) && Stands(life.cs[0], first, specs)
    ensures Stands(End(life), Left(life), specs)
  {
    hide Fair, SoundCore, AllFit, Step, Follows, DeletesDynamic;
    LifeFits(true, life, first);
    RunKeepsFollowing(life.cs, life.evs, |life.evs|, specs);
  }

  lemma LifeKeepsImage(life: Life, first: Table, lost: set<ClaimId>)
    requires Lived(life, first) && SoundCore(life.cs[0]) && Image(life.cs[0], first, lost)
    ensures Image(End(life), Intended(life, first), lost)
  {
    hide Fair, SoundCore, Image, Step;
    RunKeepsImage(life.cs, life.evs, |life.evs|, first, lost);
  }

  lemma StandsFacts(c: Core, t: Table, specs: seq<SlotSpec>)
    requires Stands(c, t, specs)
    ensures SoundCore(c) && AllFit(true, c, t) && Follows(c, specs) && NO_CLAIM_ID !in c.issued && Inv(c)
  {
    hide Inv, Conserved, SharesNonNegative, AllFit, Follows;
  }

  // ------------------------------------------------------------------------ failures

  /** The last record put for each slot was committed, or the slot was deleted since. */
  ghost predicate AllCommitted(life: Life)
    requires |life.ss| == |life.acts| + 1
  {
    forall n :: !CommitLost(life.ss, life.acts, |life.acts|, n)
  }

  /** The last deletion of n overtook a record of n that was still on its way. */
  ghost predicate Raised(life: Life, n: SlotName)
    requires |life.ss| == |life.acts| + 1
  {
    DeletionOvertook(life.ss, life.acts, |life.acts|, n)
  }

  ghost predicate NoneRaised(life: Life)
    requires |life.ss| == |life.acts| + 1
  {
    forall n :: !Raised(life, n)
  }

  /** A drained store differs from the intended one in lost commits and raised records only. */
  lemma DrainedTable(life: Life, first: Table, n: SlotName)
    requires Lived(life, first) && !CommitLost(life.ss, life.acts, |life.acts|, n)
    ensures Raised(life, n) ==> n in Left(life) && n !in Intended(life, first)
    ensures !Raised(life, n) ==> Meant(Left(life), n) == Meant(Intended(life, first), n)
  {
    hide DeletionOvertook, CommitLost;
    DrainedStore(life.ss, life.acts, OpsOf(life.cs, life.evs, |life.evs|), first, n);
  }

  lemma CleanDrain(life: Life, first: Table)
    requires Lived(life, first) && AllCommitted(life) && NoneRaised(life)
    ensures Left(life) == Intended(life, first)
  {
    hide Lived, CommitLost, Raised;
    LivedShape(life, first);
    var a, b := Left(life), Intended(life, first);
    forall n ensures n in a <==> n in b
      ensures n in a ==> a[n] == b[n]
    {
      DrainedTable(life, first, n);
    }
    hide Intended, Apply;
    assert a.Keys == b.Keys;
  }

  lemma RaisedRecord(life: Life, first: Table, n: SlotName)
    requires Lived(life, first) && !CommitLost(life.ss, life.acts, |life.acts|, n) && Raised(life, n)
    requires DeletesDynamic(OpsOf(life.cs, life.evs, |life.evs|))
    ensures n.Dynamic? && n in Left(life) && n !in Intended(life, first)
  {
    DrainedTable(life, first, n);
    OvertakenAreDynamic(life.ss, life.acts, OpsOf(life.cs, life.evs, |life.evs|), first, n);
  }

  /** A slot that is not on record is not there, if it is a dynamic one. */
  lemma UnrecordedIsAbsent(c: Core, t: Table, lost: set<ClaimId>, n: SlotName)
    requires Inv(c) && Image(c, t, lost) && n !in t && n.Dynamic?
    ensures n !in c.slots
  {
    assert CarvedAt(c, t, n);
    if n in c.slots { SlotPlaces(c, n); }
    hide Inv, ImageAt, OwnIds;
  }

  /** A raised record is one adoption acts on, of a slot the core no longer has. */
  lemma RaisedIsForeign(life: Life, first: Table, lost: set<ClaimId>, specs: seq<SlotSpec>, n: SlotName)
    requires Lived(life, first) && SysInv(life.cs[0], first, lost, specs) && !CommitLost(life.ss, life.acts, |life.acts|, n) && Raised(life, n)
    ensures n in Left(life) && Left(life)[n].kind.CarvedFrom? && Left(life)[n].state == Claimed && n !in End(life).slots
    ensures !CarvedAt(End(life), Left(life), n)
  {
    hide Lived, SoundCore, Image, Follows, Inv, CommitLost, Raised, DeletesDynamic, Intended;
    LivedShape(life, first);
    LifeFits(true, life, first);
    LifeKeepsImage(life, first, lost);
    RaisedRecord(life, first, n);
    SoundHasInv(End(life));
    UnrecordedIsAbsent(End(life), Intended(life, first), lost, n);
    assert Fits(true, End(life), Left(life)[n]);
  }

  /** What the next life has under one name, read off the store. */
  lemma RebirthAdopts(life: Life, first: Table, r: Reboot, next: Life, specs: seq<SlotSpec>)
    requires Lived(life, first) && Stands(life.cs[0], first, specs)
    requires |next.cs| > 0 && Succeeds(life, r, next) && Alike(specs, r.specs)
    ensures SysInv(next.cs[0], Left(life), r.bad, specs) && Restores(next.cs[0], Left(life), r.bad)
    ensures SameClaims(End(life), next.cs[0]) <==> Restores(End(life), Left(life), r.bad)
    ensures Adopt(Booting(End(life), r), r.recs, r.bad).ops == []
  {
    LivedShape(life, first);
    LifeStands(life, first, specs);
    StandsFacts(End(life), Left(life), specs);
    hide Stands, SysInv, Lived, SoundCore, AllFit, Restores, Follows, Inv, SameClaims, FreshStart, Booting, Adopt, Lists, WellConfigured, Alike,
      Redialing;
    BootIsFreshStart(End(life), specs, r);
    RestartReproducesIff(End(life), Left(life), Booting(End(life), r), r.recs, r.bad);
    AdoptKeepsSys(End(life), Left(life), specs, Booting(End(life), r), r.recs, r.bad);
  }

  /** A raised record brings its slot back, and its old claim with it unless the session is gone. */
  lemma RaisedIsClaimed(life: Life, first: Table, lost: set<ClaimId>, r: Reboot, next: Life, specs: seq<SlotSpec>, n: SlotName)
    requires Lived(life, first) && SysInv(life.cs[0], first, lost, specs) && !CommitLost(life.ss, life.acts, |life.acts|, n) && Raised(life, n)
    requires |next.cs| > 0 && Succeeds(life, r, next) && Alike(specs, r.specs)
    ensures n in Left(life) && n !in End(life).slots && n in next.cs[0].slots
    ensures next.cs[0].Claimed(n) <==> Left(life)[n].id !in r.bad
  {
    hide Lived, Stands, Image, Succeeds, Alike, Adopt, Booting, SameClaims, RestoresAt, CommitLost, Raised;
    LivedShape(life, first);
    RaisedIsForeign(life, first, lost, specs, n);
    RebirthAdopts(life, first, r, next, specs);
    assert RestoresAt(next.cs[0], Left(life), r.bad, n);
    RestoredSlot(next.cs[0], Left(life), r.bad, n);
  }

  lemma RestoredSlot(f: Core, t: Table, bad: set<ClaimId>, n: SlotName)
    requires RestoresAt(f, t, bad, n) && n in t && t[n].kind.CarvedFrom? && t[n].state == Claimed
    ensures n in f.slots && f.slots[n].kind == t[n].kind && f.slots[n].res == t[n].res && (f.Claimed(n) <==> t[n].id !in bad)
  {
    hide Norm, RecordOf;
  }

  /**
   * With every commit a success, a life's store restores exactly when no record was raised and the
   * sessions that can be imported are those of the claimed slots.
   */
  lemma DrainRestores(life: Life, first: Table, lost: set<ClaimId>, specs: seq<SlotSpec>, bad: set<ClaimId>)
    requires Lived(life, first) && SysInv(life.cs[0], first, lost, specs) && AllCommitted(life)
    ensures Restores(End(life), Left(life), bad) <==> NoneRaised(life) && Reimports(End(life), Left(life), bad)
  {
    StandsFacts(life.cs[0], first, specs);
    hide Lived, SoundCore, AllFit, Reimports, Image, Follows, Inv, CommitLost, Raised, CarvedAt, Norm, RecordOf;
    LivedShape(life, first);
    LifeFits(true, life, first);
    SoundHasInv(End(life));
    if NoneRaised(life) {
      hide Restores;
      CleanDrain(life, first);
      LifeKeepsImage(life, first, lost);
      ImageRestores(End(life), Left(life), lost, bad);
    } else {
      var n :| Raised(life, n);
      RaisedIsForeign(life, first, lost, specs, n);
      assert !RestoresAt(End(life), Left(life), bad, n);
    }
  }

  /**
   * Run, stop, drain, boot, re-adopt. From any sound core over any store it may have written, the next
   * life starts from the last one's claimed state if and only if the store it left describes that state
   * as far as adoption acts on it; if the life started with an up-to-date store and no commit was lost,
   * that is: no deletion overtook a record of its slot, and the sessions that can be imported are those
   * of the claimed slots. In every case the next life starts with the system invariant.
   */
  lemma RebirthReproduces(life: Life, first: Table, lost: set<ClaimId>, r: Reboot, next: Life, specs: seq<SlotSpec>)
    requires Lived(life, first) && Stands(life.cs[0], first, specs)
    requires |next.cs| > 0 && Succeeds(life, r, next) && Alike(specs, r.specs)
    ensures SameClaims(End(life), next.cs[0]) <==> Restores(End(life), Left(life), r.bad)
    ensures AllCommitted(life) && Image(life.cs[0], first, lost) ==>
              (SameClaims(End(life), next.cs[0]) <==> NoneRaised(life) && Reimports(End(life), Left(life), r.bad))
    ensures SysInv(next.cs[0], Left(life), r.bad, specs)
  {
    hide Lived, Stands, Image, Succeeds, Alike, Adopt, Booting, SameClaims, Restores, AllCommitted, NoneRaised, Reimports;
    LivedShape(life, first);
    RebirthAdopts(life, first, r, next, specs);
    if AllCommitted(life) && Image(life.cs[0], first, lost) { DrainRestores(life, first, lost, specs, r.bad); }
  }

  /** The table a life starts from: what its predecessor left, without the records re-adoption dropped. */
  function Inherited(lives: seq<Life>, reboots: seq<Reboot>, first: Table, i: nat): Table
    requires i <= |lives| && i <= |reboots|
  {
    if i == 0 then first
    else
      var life := lives[i - 1];
      if |life.ss| != |life.acts| + 1 || |life.cs| != |life.evs| + 1 then first
      else Apply(Left(life), Adopt(Booting(End(life), reboots[i - 1]), reboots[i - 1].recs, reboots[i - 1].bad).ops)
  }

  /** The ids whose session could not be imported when life i was started. */
  function LostBefore(reboots: seq<Reboot>, lost: set<ClaimId>, i: nat): set<ClaimId>
    requires i <= |reboots|
  {
    if i == 0 then lost else reboots[i - 1].bad
  }

  ghost predicate Dynasty(lives: seq<Life>, reboots: seq<Reboot>, first: Table) {
    && |lives| == |reboots| + 1
    && (forall i :: 0 <= i < |lives| ==> Lived(lives[i], Inherited(lives, reboots, first, i)))
    && (forall i :: 0 <= i < |reboots| ==> Succeeds(lives[i], reboots[i], lives[i + 1]))
  }

  /**
   * Over any number of restarts with the same slots, whatever sessions could not be imported in any of
   * them, whatever commits were lost and records raised: every life after the first starts with the
   * system invariant, and each passes its claims on exactly when its store describes them; if no commit
   * was lost, exactly when no record was raised and the sessions that can be imported are those of the
   * claimed slots (the first life must have started with an up-to-date store for that).
   */
  lemma {:induction false} EveryRestartReproduces(lives: seq<Life>, reboots: seq<Reboot>, first: Table, lost: set<ClaimId>, specs: seq<SlotSpec>, i: nat)
    requires Dynasty(lives, reboots, first) && i <= |reboots| && Stands(lives[0].cs[0], first, specs)
    requires forall k :: 0 <= k < |reboots| ==> Alike(specs, reboots[k].specs)
    ensures Stands(lives[i].cs[0], Inherited(lives, reboots, first, i), specs)
    ensures i > 0 || Image(lives[0].cs[0], first, lost) ==>
              SysInv(lives[i].cs[0], Inherited(lives, reboots, first, i), LostBefore(reboots, lost, i), specs)
    ensures i > 0 ==>
              (SameClaims(End(lives[i - 1]), lives[i].cs[0]) <==> Restores(End(lives[i - 1]), Left(lives[i - 1]), reboots[i - 1].bad))
    ensures i > 0 && AllCommitted(lives[i - 1]) && (i > 1 || Image(lives[0].cs[0], first, lost)) ==>
              (SameClaims(End(lives[i - 1]), lives[i].cs[0])
               <==> NoneRaised(lives[i - 1]) && Reimports(End(lives[i - 1]), Left(lives[i - 1]), reboots[i - 1].bad))
  {
    hide Stands, Image, SameClaims, Lived, Succeeds, Alike, Restores, Adopt, Booting, AllCommitted, NoneRaised, Reimports;
    if i > 0 {
      var life, r := lives[i - 1], reboots[i - 1];
      var table := Inherited(lives, reboots, first, i - 1);
      assert Lived(life, table) && Lived(lives[i], Inherited(lives, reboots, first, i));
      LivedShape(life, table);
      LivedShape(lives[i], Inherited(lives, reboots, first, i));
      EveryRestartReproduces(lives, reboots, first, lost, specs, i - 1);
      assert Succeeds(life, r, lives[i]);
      RebirthReproduces(life, table, LostBefore(reboots, lost, i - 1), r, lives[i], specs);
      RebirthAdopts(life, table, r, lives[i], specs);
      ApplyNothing(Left(life));
    }
  }

  // ----------------------------------------------------------------- reconfiguration

  /** What the startd has written in one configuration it has written in the next one, too. */
  lemma WrittenStays(c: Core, f0: Core, t: Table)
    requires AllFit(false, c, t) && Knows(f0, c.issued)
    ensures AllFit(false, f0, t)
  {
    forall n | n in t ensures t[n].name == n && Fits(false, f0, t[n]) {
      assert Fits(false, c, t[n]);
    }
  }

  /** The reboot has not changed the kind of anything adoption acts on. */
  ghost predicate KeepsKinds(life: Life, r: Reboot)
    requires |life.cs| == |life.evs| + 1 && |life.ss| == |life.acts| + 1
  {
    KindsKept(Booting(End(life), r), Left(life), r.bad)
  }

  /**
   * Over any number of restarts, with slots added, removed, resized or changed in kind in between,
   * sessions that cannot be imported, lost commits and raised records: every life starts sound, if and
   * only if no reboot changed the kind of a slot adoption then acted on. In a life that starts sound the
   * invariant holds and resources are conserved in every state.
   */
  lemma {:induction false} EveryLifeIsSound(lives: seq<Life>, reboots: seq<Reboot>, first: Table, i: nat)
    requires Dynasty(lives, reboots, first) && i <= |reboots| && Sound(lives[0].cs[0], first)
    ensures (forall k :: 0 <= k <= i ==> SoundCore(lives[k].cs[0])) <==> forall k :: 0 <= k < i ==> KeepsKinds(lives[k], reboots[k])
    ensures (forall k :: 0 <= k < i ==> KeepsKinds(lives[k], reboots[k])) ==>
              && Sound(lives[i].cs[0], Inherited(lives, reboots, first, i))
              && forall k :: 0 <= k < |lives[i].cs| ==> SoundCore(lives[i].cs[k])
  {
    hide SoundCore, AllFit, Lived, Succeeds, Adopt, Booting, KeepsKinds, Left;
    var mine := Inherited(lives, reboots, first, i);
    assert Lived(lives[i], mine);
    LivedShape(lives[i], mine);
    if i > 0 {
      var life, r := lives[i - 1], reboots[i - 1];
      var table := Inherited(lives, reboots, first, i - 1);
      EveryLifeIsSound(lives, reboots, first, i - 1);
      assert Lived(life, table);
      LivedShape(life, table);
      assert Succeeds(life, r, lives[i]);
      if Sound(life.cs[0], table) { RebirthIsSound(life, table, r, lives[i]); }
    }
    if SoundCore(lives[i].cs[0]) {
      forall k | 0 <= k < |lives[i].cs| ensures SoundCore(lives[i].cs[k]) {
        LivedIsSound(lives[i], mine, k);
      }
    }
  }

  lemma LivedIsSound(life: Life, first: Table, k: nat)
    requires Lived(life, first) && SoundCore(life.cs[0]) && k < |life.cs|
    ensures SoundCore(life.cs[k])
  {
    hide SoundCore, Schedule, Step, OpsOf;
    RunKeepsSound(life.cs, life.evs, k);
  }

  lemma RebirthIsSound(life: Life, first: Table, r: Reboot, next: Life)
    requires Lived(life, first) && Sound(life.cs[0], first) && |next.cs| > 0 && Succeeds(life, r, next)
    ensures SoundCore(next.cs[0]) <==> KeepsKinds(life, r)
    ensures KeepsKinds(life, r) ==> Sound(next.cs[0], Apply(Left(life), Adopt(Booting(End(life), r), r.recs, r.bad).ops))
  {
    hide Lived, Inv, Conserved, SharesNonNegative, AllFit, Lists, Adopt, Booting, Fresh, WellConfigured, NewBirthdate, Apply, Knows, KindsKept,
      Configures, DeletesDynamic;
    LivedShape(life, first);
    LifeFits(false, life, first);
    BootIsFresh(End(life), r);
    WrittenStays(End(life), Booting(End(life), r), Left(life));
    AdoptIsSoundIff(Booting(End(life), r), Left(life), r.recs, r.bad);
    if KeepsKinds(life, r) { AdoptIsSound(false, Booting(End(life), r), Left(life), r.recs, r.bad); }
  }
}
