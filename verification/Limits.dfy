/** Concrete runs that show why the hypotheses of the main results cannot be dropped. */
module Limits {
  import opened Basics
  import opened Slots
  import opened CoreModel
  import opened CoreInvariant
  import opened StepShapes
  import opened Firmness
  import opened Allocator
  import opened Runs
  import opened Persister
  import opened Schedules
  import opened Images
  import opened Stored
  import opened Adoption
  import opened Restart
  import opened Lives

  const CONFIG := Config(false, true, 6, 1)
  const SCHEDD := Schedd("addr", "schedd", "user", "machine", 300)
  const SLOT1 := Configured(1)
  const SHARE := Resources(4, 10, 10)

  function Ask(memory: int): ClaimRequest {
    ClaimRequest(SCHEDD, true, true, Resources(1, memory, 1), false, false, false)
  }

  function OneSlot(kind: SlotKind): Core { Boot(CONFIG, 0, [SlotSpec(SLOT1, kind, SHARE)], 0, {}, map[]) }

  /** A core with one configured slot, freshly booted. */
  lemma OneSlotCore(kind: SlotKind)
    requires !kind.CarvedFrom?
    ensures var c := OneSlot(kind);
            && Inv(c) && Conserved(c) && c.fixed == [SLOT1] && c.dyn == [] && c.dslotSeq == 0 && c.mintSerial == 1
            && c.slots == map[SLOT1 := ConfiguredSlot(kind, SHARE, 0).(claim := Some(MintClaim(Minted(0, 1))))]
            && c.config == CONFIG && c.acts == map[]
  {
    var specs := [SlotSpec(SLOT1, kind, SHARE)];
    BootKeeps(CONFIG, 0, specs, 0, {}, map[]);
    hide Inv, Conserved, Booted;
    assert specs[..0] == [];
  }

  lemma ClaimStatic()
    ensures var c := OneSlot(Static);
            var c1 := Step(c, RequestClaim(Minted(0, 1), Ask(1), 1, true)).core;
            Inv(c) && Inv(c1) && c1.Claimed(SLOT1) && c1.slots[SLOT1].kind == Static
  {
    var c := OneSlot(Static);
    hide Inv, OneSlot, Step, AcceptSlot;
    FreshStatic();
    InvFinds(c, Minted(0, 1));
    StepKeepsInv(c, RequestClaim(Minted(0, 1), Ask(1), 1, true));
    StepAccepts(c, RequestClaim(Minted(0, 1), Ask(1), 1, true));
    AcceptClaims(DropTimer(c, SLOT1), Ask(1), 1);
  }

  lemma StepAccepts(c: Core, ev: Event)
    requires ev.RequestClaim? && Find(c, ev.id) == Some(SLOT1) && SLOT1 in c.slots && c.slots[SLOT1].claim.Some? && ev.ask.willing
    requires c.slots[SLOT1].claim.value.state == NotClaimed && c.slots[SLOT1].kind == Static
    ensures Step(c, ev) == AcceptSlot(DropTimer(c, SLOT1), SLOT1, ev.ask, ev.now)
  {
    hide FindIn, AcceptSlot;
  }

  lemma AcceptClaims(c: Core, ask: ClaimRequest, now: int)
    requires SLOT1 in c.slots && c.slots[SLOT1].claim.Some? && c.slots[SLOT1].kind == Static
    ensures AcceptSlot(c, SLOT1, ask, now).core.Claimed(SLOT1) && AcceptSlot(c, SLOT1, ask, now).core.slots[SLOT1].kind == Static
  {
    hide Persist;
  }

  lemma FailedReset(c: Core, now: int)
    requires c.Claimed(SLOT1) && !c.slots[SLOT1].IsDynamic()
    ensures var c1 := Step(c, ReleaseSlot(SLOT1, now, false)).core; c1.Claimed(SLOT1) && c1.slots[SLOT1].state == Unclaimed
  {
    hide Persist;
  }

  /** Releasing a claimed static slot while minting fails leaves it Unclaimed with a claimed claim. */
  lemma MintFailureStrandsAClaim()
    ensures exists cs: seq<Core> ::
              && Trace(cs, [RequestClaim(Minted(0, 1), Ask(1), 1, true), ReleaseSlot(SLOT1, 2, false)])
              && cs[0] == OneSlot(Static) && Inv(cs[0]) && Inv(cs[1]) && cs[1].Claimed(SLOT1)
              && !Inv(cs[2]) && cs[2].Claimed(SLOT1) && cs[2].slots[SLOT1].state == Unclaimed
  {
    hide Inv, Step, OneSlot;
    ClaimStatic();
    var c0 := OneSlot(Static);
    var e0, e1 := RequestClaim(Minted(0, 1), Ask(1), 1, true), ReleaseSlot(SLOT1, 2, false);
    var c1 := Step(c0, e0).core;
    StepKeepsInv(c1, e1);
    FailedReset(c1, 2);
    assert Trace([c0, c1, Step(c1, e1).core], [e0, e1]);
  }

  /** What a carve leaves behind, in amounts. */
  ghost predicate CarvedFromSlot1(c: Core, c1: Core, req: Resources) {
    var d := DynamicName(SLOT1, c.dslotSeq + 1);
    && c1.dslotSeq == c.dslotSeq + 1
    && d in c1.slots && c1.slots[d].kind == CarvedFrom(SLOT1, c.dslotSeq + 1) && c1.slots[d].res == req
    && SLOT1 in c.slots && SLOT1 in c1.slots
    && c1.slots[SLOT1] == c.slots[SLOT1].(res := c.slots[SLOT1].res.Minus(req), children := c1.slots[SLOT1].children)
  }

  lemma CarvedTable(c: Core, ask: ClaimRequest, now: int)
    requires SLOT1 in c.slots && c.slots[SLOT1].claim.Some?
    ensures CarvedFromSlot1(c, CarveSlot(c, SLOT1, ask, now).core, Requested(ask.want))
  {
    hide Persist, ChildIds, Slot.AcceptClaim;
    assert DynamicName(SLOT1, c.dslotSeq + 1) != SLOT1;
    var blank := NewDynamicSlot(SLOT1, c.dslotSeq + 1, Requested(ask.want), now).(claim := Some(MintClaim(c.FreshId())));
    AcceptKeepsShare(blank, ask.schedd, c.config.alivesMissed, now);
  }

  lemma AcceptKeepsShare(s: Slot, schedd: Schedd, alivesMissed: int, now: int)
    requires s.claim.Some?
    ensures var t := s.AcceptClaim(schedd, alivesMissed, now); t.kind == s.kind && t.res == s.res && t.claim.Some?
  {
  }

  lemma CarveAmounts(c: Core, id: ClaimId, ask: ClaimRequest, now: int)
    requires Inv(c) && Conserved(c) && SLOT1 in c.slots && c.slots[SLOT1].Holds(id) && CarvesAt(c, SLOT1, ask, true)
    ensures var c1 := Step(c, RequestClaim(id, ask, now, true)).core;
            Inv(c1) && Conserved(c1) && CarvedFromSlot1(c, c1, Requested(ask.want))
  {
    hide Inv, Conserved, Step, CarveSlot, CarvedFromSlot1, ShapeOf, ClampFires;
    var ev := RequestClaim(id, ask, now, true);
    InvFinds(c, id);
    StepIs(c, ev);
    StepKeepsInv(c, ev);
    InvIsFirm(c);
    StepConserves(c, ev);
    CarvedTable(DropTimer(c, SLOT1), ask, now);
    SameBeforeTimers(c, Step(c, ev).core, Requested(ask.want));
  }

  lemma SameBeforeTimers(c: Core, c1: Core, req: Resources)
    requires CarvedFromSlot1(DropTimer(c, SLOT1), c1, req)
    ensures CarvedFromSlot1(c, c1, req)
  {
  }

  lemma InvFinds(c: Core, id: ClaimId)
    requires Inv(c) && SLOT1 in c.slots && c.slots[SLOT1].Holds(id)
    ensures Find(c, id) == Some(SLOT1)
  {
    FindIsUnique(c, id, SLOT1);
  }

  lemma StepIs(c: Core, ev: Event)
    requires ev.RequestClaim? && ev.mint && Find(c, ev.id) == Some(SLOT1) && CarvesAt(c, SLOT1, ev.ask, true)
    ensures Step(c, ev) == CarveSlot(DropTimer(c, SLOT1), SLOT1, ev.ask, ev.now) && ShapeOf(c, ev) == Carves(SLOT1)
  {
    hide FindIn, CarveSlot;
  }

  /** The one slot, under its first claim, with this much left. */
  predicate HasLeft(c: Core, res: Resources) {
    && SLOT1 in c.slots && c.slots[SLOT1].claim == Some(MintClaim(Minted(0, 1)))
    && c.slots[SLOT1].kind == Partitionable && c.slots[SLOT1].full == SHARE && c.slots[SLOT1].res == res
  }

  lemma FreshPSlot()
    ensures var c := OneSlot(Partitionable); Inv(c) && Conserved(c) && c.dslotSeq == 0 && HasLeft(c, SHARE)
  {
    OneSlotCore(Partitionable);
    hide Inv, Conserved, OneSlot;
  }

  lemma NegativeCarve(c0: Core)
    requires Inv(c0) && Conserved(c0) && c0.dslotSeq == 0 && HasLeft(c0, SHARE)
    ensures var c1 := Step(c0, RequestClaim(Minted(0, 1), Ask(-5), 1, true)).core;
            Inv(c1) && Conserved(c1) && c1.dslotSeq == 1 && HasLeft(c1, Resources(3, 15, 9))
  {
    hide Inv, Conserved, Step;
    CarveAmounts(c0, Minted(0, 1), Ask(-5), 1);
  }

  lemma SecondCarve(c1: Core)
    requires Inv(c1) && Conserved(c1) && c1.dslotSeq == 1 && HasLeft(c1, Resources(3, 15, 9))
    ensures var c2 := Step(c1, RequestClaim(Minted(0, 1), Ask(5), 2, true)).core;
            Inv(c2) && Conserved(c2) && ClampFires(c2, Dynamic(1, 2)) && c2.slots[Dynamic(1, 2)].IsDynamic()
  {
    hide Inv, Conserved, Step;
    CarveAmounts(c1, Minted(0, 1), Ask(5), 2);
  }

  /** One request for a negative amount of memory and the p-slot's books no longer balance. */
  lemma NegativeRequestBreaksConservation()
    ensures exists cs: seq<Core> ::
              && Trace(cs, [RequestClaim(Minted(0, 1), Ask(-5), 1, true), RequestClaim(Minted(0, 1), Ask(5), 2, true),
                            ReleaseSlot(Dynamic(1, 2), 3, true)])
              && cs[0] == OneSlot(Partitionable) && Invariably(cs)
              && Conserved(cs[0]) && Conserved(cs[1]) && Conserved(cs[2]) && !Conserved(cs[3])
  {
    hide Inv, Conserved, Step, OneSlot, ClampFires, Ask, HasLeft, Firm;
    var e0, e1 := RequestClaim(Minted(0, 1), Ask(-5), 1, true), RequestClaim(Minted(0, 1), Ask(5), 2, true);
    var e2 := ReleaseSlot(Dynamic(1, 2), 3, true);
    var c0 := OneSlot(Partitionable);
    var c1 := Step(c0, e0).core;
    var c2 := Step(c1, e1).core;
    FreshPSlot();
    NegativeCarve(c0);
    SecondCarve(c1);
    assert Dynamic(1, 2) in c2.slots by { ClampedExists(c2, Dynamic(1, 2)); }
    InvIsFirm(c2);
    StepConserves(c2, e2);
    StepKeepsInv(c2, e2);
    var cs := [c0, c1, c2, Step(c2, e2).core];
    assert Trace(cs, [e0, e1, e2]) && Invariably(cs);
  }

  lemma ClampedExists(c: Core, d: SlotName)
    requires ClampFires(c, d)
    ensures d in c.slots
  {
  }

  /** MATCH_INFO on the one static slot, Unclaimed under its first claim. */
  lemma MatchIt(c: Core, now: int)
    requires Inv(c) && SLOT1 in c.slots && c.slots[SLOT1].claim == Some(MintClaim(Minted(0, 1))) && c.slots[SLOT1].state == Unclaimed
    ensures var c1 := Step(c, MatchInfo(Minted(0, 1), now)).core;
            && Inv(c1) && MatchedUnder(c1, SLOT1, Minted(0, 1)) && c1.slots[SLOT1].claim == c.slots[SLOT1].claim
            && c1.slots[SLOT1].kind == c.slots[SLOT1].kind
  {
    FindIsUnique(c, Minted(0, 1), SLOT1);
    hide Inv, FindIn, Persist;
    StepKeepsInv(c, MatchInfo(Minted(0, 1), now));
  }

  /** A stale release whose mint fails: Unclaimed again, under the very same id. */
  lemma ResetIt(c: Core, now: int)
    requires Inv(c) && SLOT1 in c.slots && c.slots[SLOT1].claim == Some(MintClaim(Minted(0, 1))) && c.slots[SLOT1].kind == Static
    ensures var c1 := Step(c, ReleaseSlot(SLOT1, now, false)).core;
            Inv(c1) && SLOT1 in c1.slots && c1.slots[SLOT1].claim == c.slots[SLOT1].claim && c1.slots[SLOT1].state == Unclaimed
  {
    hide Inv, Persist, FindIn;
    StepKeepsInv(c, ReleaseSlot(SLOT1, now, false));
  }

  lemma FreshStatic()
    ensures var c := OneSlot(Static);
            && Inv(c) && SLOT1 in c.slots && c.slots[SLOT1].claim == Some(MintClaim(Minted(0, 1))) && c.slots[SLOT1].state == Unclaimed
            && c.slots[SLOT1].kind == Static
  {
    OneSlotCore(Static);
    hide Inv, Conserved, OneSlot;
  }

  /** The timeout of a match that is over, while the slot is Matched under the same id again. */
  lemma TimeoutIt(c: Core, now: int)
    requires Inv(c) && MatchedUnder(c, SLOT1, Minted(0, 1))
    ensures var c1 := Step(c, MatchTimeout(SLOT1, Minted(0, 1), now, true)).core;
            Inv(c1) && SLOT1 in c1.slots && c1.slots[SLOT1].state == Unclaimed
  {
    hide Inv, Persist;
    StepKeepsInv(c, MatchTimeout(SLOT1, Minted(0, 1), now, true));
  }

  /** A timeout armed for one match can end a later one, if the slot was reset in between without a fresh id. */
  lemma TimeoutMeetsALaterMatch()
    ensures exists cs: seq<Core> ::
              && Trace(cs, [MatchInfo(Minted(0, 1), 1), ReleaseSlot(SLOT1, 2, false), MatchInfo(Minted(0, 1), 3),
                            MatchTimeout(SLOT1, Minted(0, 1), 4, true)])
              && cs[0] == OneSlot(Static) && Invariably(cs)
              && MatchedUnder(cs[1], SLOT1, Minted(0, 1)) && !MatchedUnder(cs[2], SLOT1, Minted(0, 1))
              && MatchedUnder(cs[3], SLOT1, Minted(0, 1)) && SLOT1 in cs[4].slots && cs[4].slots[SLOT1].state == Unclaimed
  {
    hide Inv, Step, OneSlot;
    FreshStatic();
    var c0 := OneSlot(Static);
    var e0, e1, e2 := MatchInfo(Minted(0, 1), 1), ReleaseSlot(SLOT1, 2, false), MatchInfo(Minted(0, 1), 3);
    var e3 := MatchTimeout(SLOT1, Minted(0, 1), 4, true);
    var c1 := Step(c0, e0).core;
    MatchIt(c0, 1);
    var c2 := Step(c1, e1).core;
    ResetIt(c1, 2);
    var c3 := Step(c2, e2).core;
    MatchIt(c2, 3);
    TimeoutIt(c3, 4);
    var cs := [c0, c1, c2, c3, Step(c3, e3).core];
    assert Trace(cs, [e0, e1, e2, e3]) && Invariably(cs);
  }

  // ------------------------------------------------------------------- lives that exist

  /** A core some boot and some run led to, with what its loop means to have stored. */
  lemma OneSlotSys(kind: SlotKind)
    requires !kind.CarvedFrom?
    ensures SysInv(OneSlot(kind), map[], {}, [SlotSpec(SLOT1, kind, SHARE)])
  {
    FirstBoot(Reboot(CONFIG, 0, [SlotSpec(SLOT1, kind, SHARE)], 0, {}, [], {}));
    hide SysInv, Boot;
  }

  /** A life drained with every commit a success, in which exactly the records of raised were brought back. */
  ghost predicate Drained(life: Life, first: Table, raised: set<SlotName>) {
    Lived(life, first) && AllCommitted(life) && forall n :: Raised(life, n) <==> n in raised
  }

  /** Any fair run can be such a life. */
  lemma LifeExists(cs: seq<Core>, evs: seq<Event>, first: Table)
    requires Trace(cs, evs) && FairEvents(cs, evs)
    ensures exists life: Life :: life.cs == cs && life.evs == evs && Drained(life, first, Overtaken(OpsOf(cs, evs, |evs|)))
  {
    hide DeletionOvertook, CommitLost;
    LazyDrain(OpsOf(cs, evs, |evs|), first);
    var ss: seq<State>, acts: seq<Action> :|
      && Schedule(ss, acts, OpsOf(cs, evs, |evs|), first) && ss[|acts|].writer.Exited?
      && (forall n :: !CommitLost(ss, acts, |acts|, n))
      && (forall n :: DeletionOvertook(ss, acts, |acts|, n) <==> n in Overtaken(OpsOf(cs, evs, |evs|)));
    hide Overtaken, OpsOf, Step, Fair;
    assert Drained(Life(cs, evs, ss, acts), first, Overtaken(OpsOf(cs, evs, |evs|)));
  }

  /** Every table can be listed. */
  lemma {:induction false} ListExists(t: Table)
    requires forall n :: n in t ==> t[n].name == n
    ensures exists recs :: Lists(recs, t)
    decreases |t|
  {
    if t == map[] {
      assert Lists([], t);
    } else {
      assert t.Keys != {};
      var n :| n in t.Keys;
      var rest := t - {n};
      assert |rest| < |t|;
      ListExists(rest);
      var recs :| Lists(recs, rest);
      ListedWith(recs, t, n);
    }
  }

  lemma ListedWith(recs: seq<Record>, t: Table, n: SlotName)
    requires n in t && t[n].name == n && Lists(recs, t - {n})
    ensures Lists(recs + [t[n]], t)
  {
    var more := recs + [t[n]];
    assert forall i :: 0 <= i < |recs| ==> more[i] == recs[i];
    forall m | m in t ensures t[m] in more {
      if m == n { assert more[|recs|] == t[n]; } else { assert (t - {n})[m] in recs; }
    }
  }

  ghost predicate AllBefore(issued: map<ClaimId, SlotName>, b: int) { forall id :: id in issued && id.Minted? ==> id.birthdate < b }

  /** There is always a birthdate no earlier life has used. */
  lemma {:induction false} BirthdateExists(issued: map<ClaimId, SlotName>)
    ensures exists b: int :: AllBefore(issued, b)
    decreases |issued|
  {
    if issued == map[] {
      assert AllBefore(issued, 0);
    } else {
      assert issued.Keys != {};
      var x :| x in issued.Keys;
      var rest := issued - {x};
      assert |rest| < |issued|;
      BirthdateExists(rest);
      var b: int :| AllBefore(rest, b);
      var b1 := if x.Minted? && x.birthdate >= b then x.birthdate + 1 else b;
      forall id | id in issued && id.Minted? ensures id.birthdate < b1 { assert id == x || id in rest; }
      assert AllBefore(issued, b1);
    }
  }

  /** Every life can be followed by another one, with any slots, whatever cannot be imported then. */
  lemma RebirthExists(life: Life, first: Table, specs: seq<SlotSpec>, bad: set<ClaimId>)
    requires Lived(life, first) && Sound(life.cs[0], first) && WellConfigured(specs)
    ensures exists r: Reboot, next: Life :: |next.cs| > 0 && Succeeds(life, r, next) && r.specs == specs && r.bad == bad
  {
    hide Lived, SoundCore, AllFit, Adopt, Booting, WellConfigured, Lists, DeletesDynamic;
    LivedShape(life, first);
    LifeFits(false, life, first);
    StoredUnderOwnName(End(life), Left(life));
    ListExists(Left(life));
    var recs :| Lists(recs, Left(life));
    BirthdateExists(End(life).issued);
    var b: int :| AllBefore(End(life).issued, b);
    var r := Reboot(CONFIG, b, specs, 0, {}, recs, bad);
    var next := Life([Adopt(Booting(End(life), r), recs, bad).core], [], [], []);
    assert Succeeds(life, r, next);
  }

  lemma StoredUnderOwnName(c: Core, t: Table)
    requires AllFit(false, c, t)
    ensures forall n :: n in t ==> t[n].name == n
  {
  }

  lemma SysIsSound(c: Core, t: Table, lost: set<ClaimId>, specs: seq<SlotSpec>)
    requires SysInv(c, t, lost, specs)
    ensures Stands(c, t, specs) && Sound(c, t) && Inv(c) && Image(c, t, lost)
  {
    hide Inv, Conserved, SharesNonNegative, AllFit, Follows, Image;
    LooserFits(true, c, t);
  }

  // ------------------------------------------------------------------ a carved claim

  const SPECS := [SlotSpec(SLOT1, Partitionable, SHARE)]
  const D := Dynamic(1, 1)

  /** One dynamic slot carved and claimed. */
  function CarveIt(): Event { RequestClaim(Minted(0, 1), Ask(1), 1, true) }

  predicate SavesTwo(ops: seq<StoreOp>) {
    |ops| == 2 && ops[0].Save? && ops[0].rec.name == D && ops[1].Save? && ops[1].rec.name == SLOT1
  }

  predicate Erases(ops: seq<StoreOp>) {
    1 <= |ops| <= 2 && ops[0] == Delete(D) && (|ops| == 2 ==> ops[1].Save? && ops[1].rec.name == SLOT1)
  }

  lemma CarvedOnce()
    ensures var c0 := OneSlot(Partitionable);
            var c1 := Step(c0, CarveIt()).core;
            && Fair(c0, CarveIt()) && SysInv(c0, map[], {}, SPECS) && c1.Claimed(D) && SavesTwo(Step(c0, CarveIt()).ops)
            && D in c1.slots && c1.slots[D].kind == CarvedFrom(SLOT1, 1) && SLOT1 in c1.slots
  {
    var c0 := OneSlot(Partitionable);
    hide SysInv, Inv, Conserved, Step, OneSlot, Fair, CarveIt;
    OneSlotSys(Partitionable);
    FreshPSlot();
    CarveFacts(c0);
  }

  lemma CarveFacts(c: Core)
    requires Inv(c) && Conserved(c) && c.dslotSeq == 0 && HasLeft(c, SHARE)
    ensures var out := Step(c, CarveIt());
            && D in out.core.slots && out.core.slots[D].kind == CarvedFrom(SLOT1, 1) && SLOT1 in out.core.slots
            && Fair(c, CarveIt()) && SavesTwo(out.ops) && out.core.Claimed(D)
  {
    hide Inv, Conserved, Step, CarveSlot;
    CarveAmounts(c, Minted(0, 1), Ask(1), 1);
    InvFinds(c, Minted(0, 1));
    StepIs(c, CarveIt());
    CarveSaves(DropTimer(c, SLOT1), SLOT1, Ask(1), 1);
    DynamicWithClaim(Step(c, CarveIt()).core, D);
  }

  lemma DynamicWithClaim(c: Core, d: SlotName)
    requires Inv(c) && d in c.slots && c.slots[d].IsDynamic() && c.slots[d].claim.Some?
    ensures c.Claimed(d)
  {
    assert Coherent(At(c, d));
  }

  /**
   * A life, drained without a hitch, whose restart loses a claim: the session of the one claim it left
   * cannot be imported, so the slot is carved again and left unclaimed.
   */
  lemma FailedImportLosesAClaim()
    ensures exists life: Life, r: Reboot, next: Life ::
              && Lived(life, map[]) && life.cs[0] == OneSlot(Partitionable) && life.evs == [CarveIt()] && AllCommitted(life) && NoneRaised(life)
              && |next.cs| > 0 && Succeeds(life, r, next) && Alike(SPECS, r.specs)
              && !SameClaims(End(life), next.cs[0]) && End(life).Claimed(D) && !next.cs[0].Claimed(D) && D in next.cs[0].slots
  {
    hide SysInv, Step, OneSlot, Fair, CarveIt, SameClaims, Lived, Succeeds, Overtaken, OpsOf, AllCommitted, Raised;
    CarvedOnce();
    var c0 := OneSlot(Partitionable);
    var c1 := Step(c0, CarveIt()).core;
    var cs, evs := [c0, c1], [CarveIt()];
    assert Trace(cs, evs) && FairEvents(cs, evs);
    LifeExists(cs, evs, map[]);
    var life: Life :| life.cs == cs && life.evs == evs && Drained(life, map[], Overtaken(OpsOf(cs, evs, |evs|)));
    LivedShape(life, map[]);
    SavesOvertakeNothing(c0, CarveIt(), c1);
    LosesIt(life);
  }

  lemma SavesOvertakeNothing(c0: Core, ev: Event, c1: Core)
    requires SavesTwo(Step(c0, ev).ops)
    ensures Overtaken(OpsOf([c0, c1], [ev], 1)) == {}
  {
    hide Step, Overtaken, Saved;
    var ops := Step(c0, ev).ops;
    assert OpsOf([c0, c1], [ev], 0) == [];
    assert OpsOf([c0, c1], [ev], 1) == ops;
    NothingAhead(ops);
    AheadSets(ops, 0);
    AheadSets(ops, 1);
    assert ops[..2] == ops;
  }

  lemma NothingAhead(ops: seq<StoreOp>)
    ensures Overtaken(ops[..0]) == {} && Saved(ops[..0]) == {}
  {
  }

  lemma LosesIt(life: Life)
    requires Lived(life, map[]) && SysInv(life.cs[0], map[], {}, SPECS) && AllCommitted(life) && NoneRaised(life)
    requires End(life).Claimed(D)
    ensures exists r: Reboot, next: Life ::
              && |next.cs| > 0 && Succeeds(life, r, next) && Alike(SPECS, r.specs)
              && !SameClaims(End(life), next.cs[0]) && !next.cs[0].Claimed(D) && D in next.cs[0].slots
  {
    hide SysInv, Stands, Sound, SameClaims, Lived, Succeeds, Image, Inv, AllCommitted, Raised, RestoresAt, Adopt, Booting;
    LivedShape(life, map[]);
    SysIsSound(life.cs[0], map[], {}, SPECS);
    ClaimIsLeft(life, SPECS, D);
    var bad := {Left(life)[D].id};
    RebirthExists(life, map[], SPECS, bad);
    var r: Reboot, next: Life :| |next.cs| > 0 && Succeeds(life, r, next) && r.specs == SPECS && r.bad == bad;
    RebirthAdopts(life, map[], r, next, SPECS);
    assert RestoresAt(next.cs[0], Left(life), bad, D);
    RestoredSlot(next.cs[0], Left(life), bad, D);
    ClaimLost(End(life), next.cs[0], D);
  }

  /** A claimed slot's record is in the store a life leaves, if no commit was lost and the slot's record was not raised. */
  lemma ClaimIsLeft(life: Life, specs: seq<SlotSpec>, n: SlotName)
    requires Lived(life, map[]) && SysInv(life.cs[0], map[], {}, specs) && AllCommitted(life) && !Raised(life, n) && End(life).Claimed(n)
    ensures n in Left(life) && Left(life)[n].state == Claimed && Left(life)[n].kind == End(life).slots[n].kind
    ensures n.Dynamic? ==> Left(life)[n].kind.CarvedFrom?
  {
    hide SysInv, Stands, Lived, Image, AllFit, SoundCore, Inv, Raised, CommitLost, DeletesDynamic, Intended;
    LivedShape(life, map[]);
    SysIsSound(life.cs[0], map[], {}, specs);
    LifeFits(false, life, map[]);
    SoundHasInv(End(life));
    LifeKeepsImage(life, map[], {});
    DrainedTable(life, map[], n);
    ClaimedIsStored(End(life), Intended(life, map[]), n);
  }

  lemma ClaimLost(c: Core, f: Core, n: SlotName)
    requires c.Claimed(n) && !f.Claimed(n)
    ensures !SameClaims(c, f)
  {
    assert !SameAt(c, f, n);
  }

  lemma ClaimedIsStored(c: Core, t: Table, n: SlotName)
    requires Inv(c) && Image(c, t, {}) && c.Claimed(n)
    ensures n in t && t[n].state == Claimed && t[n].kind == c.slots[n].kind && (n.Dynamic? ==> t[n].kind.CarvedFrom?)
  {
    assert ImageAt(c, t, {}, n) && Coherent(At(c, n));
    SlotPlaces(c, n);
    hide Inv, Image;
  }

  // -------------------------------------------------------------- a record come back

  function ReleaseIt(): Event { ReleaseSlot(D, 2, true) }

  lemma ReleasedOnce()
    ensures var c0 := OneSlot(Partitionable);
            var c1 := Step(c0, CarveIt()).core;
            && Fair(c1, ReleaseIt())
            && Erases(Step(c1, ReleaseIt()).ops)
  {
    hide SysInv, Step, OneSlot, CarveIt, ReleaseIt, Fair;
    CarvedOnce();
    ReleaseOps(Step(OneSlot(Partitionable), CarveIt()).core);
  }

  lemma ReleaseOps(c: Core)
    requires D in c.slots && c.slots[D].kind == CarvedFrom(SLOT1, 1) && SLOT1 in c.slots
    ensures Fair(c, ReleaseIt())
    ensures Erases(Step(c, ReleaseIt()).ops)
  {
    DestroyOps(Detach(c, D), D);
    hide Destroy;
    var out := Destroy(Detach(c, D), D);
    assert Step(c, ReleaseIt()).ops == [Delete(D)] + Persist(out.core, SLOT1);
  }

  /** A life whose loop destroyed a slot while its record was pending, and whose restart claims the slot again. */
  lemma DeletedRecordComesBack()
    ensures exists life: Life, r: Reboot, next: Life ::
              && Lived(life, map[]) && life.cs[0] == OneSlot(Partitionable) && life.evs == [CarveIt(), ReleaseIt()]
              && AllCommitted(life) && Raised(life, D)
              && |next.cs| > 0 && Succeeds(life, r, next) && Alike(SPECS, r.specs) && r.bad == {}
              && !SameClaims(End(life), next.cs[0]) && D !in End(life).slots && next.cs[0].Claimed(D)
  {
    hide SysInv, Step, OneSlot, Fair, CarveIt, ReleaseIt, SameClaims, Lived, Succeeds, Overtaken, OpsOf, AllCommitted, Raised;
    CarvedOnce();
    ReleasedOnce();
    var c0 := OneSlot(Partitionable);
    var c1 := Step(c0, CarveIt()).core;
    var c2 := Step(c1, ReleaseIt()).core;
    var cs, evs := [c0, c1, c2], [CarveIt(), ReleaseIt()];
    assert Trace(cs, evs) && FairEvents(cs, evs);
    LifeExists(cs, evs, map[]);
    var life: Life :| life.cs == cs && life.evs == evs && Drained(life, map[], Overtaken(OpsOf(cs, evs, |evs|)));
    LivedShape(life, map[]);
    DeleteOvertakes(c0, CarveIt(), c1, ReleaseIt(), c2);
    ComesBack(life);
  }

  lemma DeleteOvertakes(c0: Core, e0: Event, c1: Core, e1: Event, c2: Core)
    requires SavesTwo(Step(c0, e0).ops) && Erases(Step(c1, e1).ops)
    ensures Overtaken(OpsOf([c0, c1, c2], [e0, e1], 2)) == {D}
  {
    hide Step, Overtaken, Saved;
    var cs, evs := [c0, c1, c2], [e0, e1];
    assert OpsOf(cs, evs, 0) == [];
    assert OpsOf(cs, evs, 1) == Step(c0, e0).ops;
    assert OpsOf(cs, evs, 2) == Step(c0, e0).ops + Step(c1, e1).ops;
    FourOps(Step(c0, e0).ops + Step(c1, e1).ops);
  }

  lemma FourOps(all: seq<StoreOp>)
    requires 3 <= |all| <= 4 && all[0].Save? && all[0].rec.name == D && all[1].Save? && all[1].rec.name == SLOT1 && all[2] == Delete(D)
    requires |all| == 4 ==> all[3].Save? && all[3].rec.name == SLOT1
    ensures Overtaken(all) == {D}
  {
    hide Overtaken, Saved;
    NothingAhead(all);
    AheadSets(all, 0);
    AheadSets(all, 1);
    AheadSets(all, 2);
    if |all| == 4 { AheadSets(all, 3); }
    assert all[..|all|] == all;
  }

  lemma ComesBack(life: Life)
    requires Lived(life, map[]) && SysInv(life.cs[0], map[], {}, SPECS) && AllCommitted(life) && Raised(life, D)
    ensures exists r: Reboot, next: Life ::
              && |next.cs| > 0 && Succeeds(life, r, next) && Alike(SPECS, r.specs) && r.bad == {}
              && !SameClaims(End(life), next.cs[0]) && D !in End(life).slots && next.cs[0].Claimed(D)
  {
    hide SysInv, SameClaims, Lived, Succeeds, Sound, Stands, Inv, Image, Raised, CommitLost;
    LivedShape(life, map[]);
    SysIsSound(life.cs[0], map[], {}, SPECS);
    RebirthExists(life, map[], SPECS, {});
    var r: Reboot, next: Life :| |next.cs| > 0 && Succeeds(life, r, next) && r.specs == SPECS && r.bad == {};
    RaisedIsClaimed(life, map[], {}, r, next, SPECS, D);
    ClaimGained(End(life), next.cs[0], D);
  }

  lemma ClaimGained(c: Core, f: Core, n: SlotName)
    requires !c.Claimed(n) && f.Claimed(n)
    ensures !SameClaims(c, f)
  {
    assert !SameAt(c, f, n);
  }

  // ------------------------------------------------------------------- a changed kind

  const CLAIM_IT := RequestClaim(Minted(0, 1), Ask(1), 1, true)

  /** A claimed static slot, reconfigured as a p-slot: re-adoption claims the p-slot, and the invariant is gone. */
  lemma ChangedKindBreaksInv()
    ensures exists life: Life, r: Reboot, next: Life ::
              && Lived(life, map[]) && life.cs[0] == OneSlot(Static) && life.evs == [CLAIM_IT] && SoundCore(End(life))
              && |next.cs| > 0 && Succeeds(life, r, next) && r.specs == SPECS && r.bad == {} && !SoundCore(next.cs[0])
  {
    hide SysInv, Step, OneSlot, Lived, Succeeds, Overtaken, OpsOf, AllCommitted, Raised, Sound, SoundCore, Inv, Stands, Image;
    ClaimStatic();
    OneSlotSys(Static);
    var c0 := OneSlot(Static);
    var cs, evs := [c0, Step(c0, CLAIM_IT).core], [CLAIM_IT];
    assert Trace(cs, evs) && FairEvents(cs, evs);
    LifeExists(cs, evs, map[]);
    var life: Life :| life.cs == cs && life.evs == evs && Drained(life, map[], Overtaken(OpsOf(cs, evs, |evs|)));
    LivedShape(life, map[]);
    Reconfigured(life);
  }

  const STATIC_SPECS := [SlotSpec(SLOT1, Static, SHARE)]

  lemma Reconfigured(life: Life)
    requires Lived(life, map[]) && SysInv(life.cs[0], map[], {}, STATIC_SPECS) && AllCommitted(life)
    requires End(life).Claimed(SLOT1) && End(life).slots[SLOT1].kind == Static
    ensures SoundCore(End(life))
    ensures exists r: Reboot, next: Life ::
              |next.cs| > 0 && Succeeds(life, r, next) && r.specs == SPECS && r.bad == {} && !SoundCore(next.cs[0])
  {
    hide SysInv, Stands, Lived, Succeeds, Image, AllFit, SoundCore, Inv, Raised, CommitLost, DeletesDynamic, KeepsKinds, Adopt, Booting, Intended;
    LivedShape(life, map[]);
    SysIsSound(life.cs[0], map[], {}, STATIC_SPECS);
    LifeFits(false, life, map[]);
    SoundHasInv(End(life));
    if Raised(life, SLOT1) { RaisedRecord(life, map[], SLOT1); }
    ClaimIsLeft(life, STATIC_SPECS, SLOT1);
    RebirthExists(life, map[], SPECS, {});
    var r: Reboot, next: Life :| |next.cs| > 0 && Succeeds(life, r, next) && r.specs == SPECS && r.bad == {};
    RebirthIsSound(life, map[], r, next);
    KindHasChanged(life, r, next);
  }

  lemma KindHasChanged(life: Life, r: Reboot, next: Life)
    requires |life.cs| == |life.evs| + 1 && |life.ss| == |life.acts| + 1 && |next.cs| > 0
    requires Succeeds(life, r, next) && r.specs == SPECS && r.bad == {} && AllFit(false, End(life), Left(life)) && NO_CLAIM_ID !in End(life).issued
    requires SLOT1 in Left(life) && Left(life)[SLOT1].state == Claimed && Left(life)[SLOT1].kind == Static
    ensures !KeepsKinds(life, r)
  {
    hide Succeeds, AllFit, Safe, Booting;
    PSlotNow(life, r, next);
    ClaimedOnAPSlot(End(life), Booting(End(life), r), Left(life));
  }

  lemma PSlotNow(life: Life, r: Reboot, next: Life)
    requires |life.cs| == |life.evs| + 1 && |life.ss| == |life.acts| + 1 && |next.cs| > 0
    requires Succeeds(life, r, next) && r.specs == SPECS && NO_CLAIM_ID !in End(life).issued
    ensures var f0 := Booting(End(life), r); SLOT1 in f0.slots && f0.slots[SLOT1].kind == Partitionable
  {
    hide Booting, Adopt, Fresh, Lists;
    BootIsFresh(End(life), r);
    assert Configures(SPECS[0], Booting(End(life), r));
  }

  lemma ClaimedOnAPSlot(c: Core, f0: Core, t: Table)
    requires AllFit(false, c, t) && NO_CLAIM_ID !in c.issued && SLOT1 in t && t[SLOT1].state == Claimed && t[SLOT1].kind == Static
    requires SLOT1 in f0.slots && f0.slots[SLOT1].kind == Partitionable
    ensures !Safe(f0, t[SLOT1], {})
  {
    assert Fits(false, c, t[SLOT1]);
  }
}
