/** What can be in the claim store: records the startd itself wrote, under any interleaving and any failure. */
module Stored {
  import opened Basics
  import opened Slots
  import opened CoreModel
  import opened CoreInvariant
  import opened StepShapes
  import opened Firmness
  import opened Allocator
  import opened Runs
  import opened Persister
  import opened Images

  // ----------------------------------------------------------------- what a step saves

  /** Everything a step saves is the record of one of its slots. */
  lemma StepSavesOnlySlots(c: Core, ev: Event)
    requires Structure(c) && AllSane(c)
    ensures SavesOnlySlots(Step(c, ev))
  {
    hide Registry, Ids, Children, Sane, Step, ShapeOf, Recorded, SavesOnlySlots, CarveSlot, Destroy, Edited, Reissued;
    StepHasShape(c, ev);
    match ShapeOf(c, ev)
    case Edits(n) => StepRecorded(c, ev); LocalSaves(c, Step(c, ev), n);
    case Resets(n) => StepRecorded(c, ev); LocalSaves(c, Step(c, ev), n);
    case Reissues(n) => StepRecorded(c, ev); LocalSaves(c, Step(c, ev), n);
    case Carves(p) => StepIsCarve(c, ev); CarvedSaves(c, p, ev.ask, ev.now);
    case Destroys(d) => StepIsDestroy(c, ev); DestroySaves(Detach(c, d), d);
  }

  lemma CarvedSaves(c: Core, p: SlotName, ask: ClaimRequest, now: int)
    requires Structure(c) && p in c.slots && c.slots[p].claim.Some?
    ensures SavesOnlySlots(CarveSlot(DropTimer(c, p), p, ask, now))
  {
    hide Registry, Ids, Children, CarveSlot, RecordOf;
    NextNameIsNew(c, p);
    CarveSaves(DropTimer(c, p), p, ask, now);
  }

  // ------------------------------------------------------------------- fitting records

  /** A dynamic slot's record carries the name its parent and number give. */
  predicate WellNamed(rec: Record) { rec.kind.CarvedFrom? ==> rec.name == DynamicName(rec.kind.parent, rec.kind.subId) }

  /**
   * A record this startd may have written in this or an earlier life: its id was issued to its slot,
   * dynamic slots are recorded Claimed with a non-negative share, a starter is linked only to a Busy
   * slot, and no p-slot is Claimed.
   */
  predicate Written(c: Core, rec: Record) {
    && OwnId(c, rec) && WellNamed(rec) && (rec.kind.CarvedFrom? <==> rec.name.Dynamic?)
    && (rec.activity == Idle ==> rec.link.socket == "") && (rec.state == Claimed ==> !rec.kind.Partitionable?)
    && if rec.kind.CarvedFrom? then rec.state == Claimed && NOTHING.AtMost(rec.res) && rec.kind.parent.Configured?
       else rec.res == NOTHING
  }

  /** If the record is Claimed, its slot, or the p-slot it was carved from, has not changed its kind. */
  predicate KeepsKind(c: Core, rec: Record) {
    rec.state == Claimed ==>
      if rec.kind.CarvedFrom? then rec.kind.parent in c.slots ==> c.slots[rec.kind.parent].kind.Partitionable?
      else rec.name in c.slots ==> c.slots[rec.name].kind == rec.kind
  }

  predicate Fitting(c: Core, rec: Record) { Written(c, rec) && KeepsKind(c, rec) }

  /** The configured slot of the record, or the p-slot it was carved from, is there. */
  predicate Placeable(c: Core, rec: Record) { if rec.kind.CarvedFrom? then rec.kind.parent in c.slots else rec.name in c.slots }

  /** strict: the record's place must still be configured, and of the same kind. */
  predicate Fits(strict: bool, c: Core, rec: Record) { Written(c, rec) && (strict ==> KeepsKind(c, rec) && Placeable(c, rec)) }

  ghost predicate AllFit(strict: bool, c: Core, t: Table) { forall n :: n in t ==> t[n].name == n && Fits(strict, c, t[n]) }

  lemma FittingOwnIds(strict: bool, c: Core, t: Table)
    requires AllFit(strict, c, t)
    ensures OwnIds(c, t)
  {
  }

  lemma RecordFits(strict: bool, c: Core, n: SlotName)
    requires Inv(c) && SharesNonNegative(c) && n in c.slots && c.slots[n].claim.Some?
    ensures Fits(strict, c, RecordOf(c, n))
  {
    assert Coherent(At(c, n));
    RecordOwnsItsId(c, n);
    SlotPlaces(c, n);
    hide Registry, Ids, Children, AllCoherent, Generations, Waiting;
  }

  lemma SlotPlaces(c: Core, n: SlotName)
    requires Registry(c.fixed, c.dyn, c.slots, c.dslotSeq) && n in c.slots
    ensures if c.slots[n].kind.CarvedFrom? then
              && n in c.dyn && n.Dynamic? && DynamicEntry(c.fixed, c.slots, n) && c.slots[n].kind.parent.Configured?
            else n in c.fixed && n.Configured?
  {
  }

  /** Ids are remembered, and the kinds of configured slots agree. */
  ghost predicate CarriesOver(c: Core, c1: Core) {
    && (forall id :: id in c.issued ==> id in c1.issued && c1.issued[id] == c.issued[id])
    && (forall n: SlotName :: n.Configured? ==> (n in c1.slots <==> n in c.slots))
    && (forall n: SlotName :: n.Configured? && n in c1.slots ==> n in c.slots && c.slots[n].kind == c1.slots[n].kind)
  }

  /** And new ids are minted ones. */
  ghost predicate SamePlaces(c: Core, c1: Core) {
    CarriesOver(c, c1) && forall id :: id in c1.issued ==> id in c.issued || id.Minted?
  }

  lemma FittingKept(strict: bool, c: Core, c1: Core, rec: Record)
    requires Fits(strict, c, rec) && CarriesOver(c, c1)
    ensures Fits(strict, c1, rec)
  {
  }

  lemma AllFitKept(strict: bool, c: Core, c1: Core, t: Table)
    requires AllFit(strict, c, t) && CarriesOver(c, c1)
    ensures AllFit(strict, c1, t)
  {
    hide CarriesOver, Fits;
    forall n | n in t ensures t[n].name == n && Fits(strict, c1, t[n]) {
      FittingKept(strict, c, c1, t[n]);
    }
  }

  // --------------------------------------------------------------------- places, by shape

  lemma LocalPlaces(c: Core, c1: Core, n: SlotName)
    requires Edited(c, c1, n) || Reissued(c, c1, n)
    ensures forall m :: m in c1.slots <==> m in c.slots
    ensures forall m :: m in c1.slots ==> m in c.slots && c.slots[m].kind == c1.slots[m].kind
  {
    PlainStepMovesNothing(c, c1, n);
    hide Edited, Reissued;
    forall m | m in c1.slots ensures m in c.slots && c.slots[m].kind == c1.slots[m].kind {
      assert c1.slots.Keys == c.slots.Keys;
      assert SameAmounts(c.slots[m], c1.slots[m]);
    }
  }

  lemma CarvePlaces(c: Core, p: SlotName, ask: ClaimRequest, now: int)
    requires p in c.slots && c.slots[p].claim.Some?
    ensures forall m: SlotName :: m.Configured? ==> (m in CarveSlot(c, p, ask, now).core.slots <==> m in c.slots)
    ensures forall m: SlotName :: m.Configured? && m in CarveSlot(c, p, ask, now).core.slots ==>
                          m in c.slots && c.slots[m].kind == CarveSlot(c, p, ask, now).core.slots[m].kind
  {
    hide Persist, ChildIds;
  }

  lemma CarveIssues(c: Core, p: SlotName, ask: ClaimRequest, now: int)
    requires p in c.slots && c.slots[p].claim.Some?
    ensures CarveSlot(c, p, ask, now).core.issued == c.issued[c.FreshId() := DynamicName(p, c.dslotSeq + 1)]
  {
    hide Persist, ChildIds;
  }

  lemma DestroyIssues(c: Core, d: SlotName)
    requires d in c.slots && c.slots[d].IsDynamic()
    ensures Destroy(c, d).core.issued == c.issued && Destroy(c, d).core.fixed == c.fixed
  {
    hide Persist, ChildIds, Remove, Slot.Restore;
  }

  ghost predicate SameConfigured(c: Core, c1: Core) {
    && (forall n: SlotName :: n.Configured? ==> (n in c1.slots <==> n in c.slots))
    && (forall n: SlotName :: n.Configured? && n in c1.slots ==> n in c.slots && c.slots[n].kind == c1.slots[n].kind)
  }

  lemma StepSameConfigured(c: Core, ev: Event)
    requires Structure(c) && AllSane(c)
    ensures SameConfigured(c, Step(c, ev).core)
  {
    hide Registry, Ids, Children, Sane, ShapeOf, Step, Edited, Reissued, CarveSlot, Destroy;
    StepHasShape(c, ev);
    var c1 := Step(c, ev).core;
    match ShapeOf(c, ev)
    case Edits(n) => LocalPlaces(c, c1, n);
    case Resets(n) => LocalPlaces(c, c1, n);
    case Reissues(n) => LocalPlaces(c, c1, n);
    case Carves(p) => CarvePlaces(DropTimer(c, p), p, ev.ask, ev.now);
    case Destroys(d) =>
      DynamicIsListed(c, d);
      SlotPlaces(c, d);
      DestroyedTable(Detach(c, d), d);
  }

  lemma StepIssuesMinted(c: Core, ev: Event)
    requires AllSane(c)
    ensures forall id :: id in Step(c, ev).core.issued ==> id in c.issued || id.Minted?
  {
    hide Sane, ShapeOf, Step, OnlyAt, SlotEdit, ActEdit, CarveSlot, Destroy, Advances;
    StepHasShape(c, ev);
    match ShapeOf(c, ev)
    case Edits(_) =>
    case Resets(_) =>
    case Reissues(_) =>
    case Carves(p) => CarveIssues(DropTimer(c, p), p, ev.ask, ev.now);
    case Destroys(d) => DestroyIssues(Detach(c, d), d);
  }

  lemma StepSamePlaces(c: Core, ev: Event)
    requires Firm(c)
    ensures SamePlaces(c, Step(c, ev).core)
  {
    hide Structure, AllSane, Generations, Step;
    StepRemembers(c, ev);
    StepSameConfigured(c, ev);
    StepIssuesMinted(c, ev);
  }

  lemma SamePlacesTwice(a: Core, b: Core, c: Core)
    requires SamePlaces(a, b) && SamePlaces(b, c)
    ensures SamePlaces(a, c)
  {
  }

  lemma {:induction false} RunKeepsPlaces(cs: seq<Core>, evs: seq<Event>, i: nat, j: nat)
    requires Trace(cs, evs) && Firm(cs[0]) && i <= j <= |evs|
    ensures SamePlaces(cs[i], cs[j])
  {
    hide Firm, Step;
    if i < j {
      hide SamePlaces;
      RunKeepsPlaces(cs, evs, i, j - 1);
      RunKeepsFirm(cs, evs, j - 1);
      StepSamePlaces(cs[j - 1], evs[j - 1]);
      SamePlacesTwice(cs[i], cs[j - 1], cs[j]);
    }
  }

  // ----------------------------------------------------------------- what a run asks for

  ghost predicate OpsFit(strict: bool, c: Core, ops: seq<StoreOp>) { forall i :: 0 <= i < |ops| && ops[i].Save? ==> Fits(strict, c, ops[i].rec) }

  /** Only dynamic slots are ever deleted from the store. */
  ghost predicate DeletesDynamic(ops: seq<StoreOp>) { forall i :: 0 <= i < |ops| && ops[i].Delete? ==> ops[i].name.Dynamic? }

  lemma StepOpsFit(strict: bool, c: Core, ev: Event)
    requires Structure(c) && AllSane(c) && Inv(Step(c, ev).core) && SharesNonNegative(Step(c, ev).core)
    ensures OpsFit(strict, Step(c, ev).core, Step(c, ev).ops)
  {
    hide Structure, AllSane, Inv, Step, Fits, RecordOf, SharesNonNegative;
    StepSavesOnlySlots(c, ev);
    var out := Step(c, ev);
    forall i | 0 <= i < |out.ops| && out.ops[i].Save? ensures Fits(strict, out.core, out.ops[i].rec) {
      var n :| n in out.core.slots && out.core.slots[n].claim.Some? && out.ops[i].rec == RecordOf(out.core, n);
      RecordFits(strict, out.core, n);
    }
  }

  lemma OpsFitKept(strict: bool, c: Core, c1: Core, ops: seq<StoreOp>)
    requires OpsFit(strict, c, ops) && CarriesOver(c, c1)
    ensures OpsFit(strict, c1, ops)
  {
    hide Fits, CarriesOver;
    forall i | 0 <= i < |ops| && ops[i].Save? ensures Fits(strict, c1, ops[i].rec) {
      FittingKept(strict, c, c1, ops[i].rec);
    }
  }

  lemma OpsFitTogether(strict: bool, c: Core, a: seq<StoreOp>, b: seq<StoreOp>)
    requires OpsFit(strict, c, a) && OpsFit(strict, c, b)
    ensures OpsFit(strict, c, a + b)
  {
    hide Fits;
  }

  lemma StepDeletesDynamic(c: Core, ev: Event)
    requires Firm(c)
    ensures DeletesDynamic(Step(c, ev).ops)
  {
    hide Registry, Ids, Children, Sane, Generations, Step, ShapeOf, Recorded, CarveSlot, Edited, Reissued, Destroy;
    StepHasShape(c, ev);
    match ShapeOf(c, ev)
    case Edits(n) => StepRecorded(c, ev); SavesDeleteNothing(c, Step(c, ev), n);
    case Resets(n) => StepRecorded(c, ev); SavesDeleteNothing(c, Step(c, ev), n);
    case Reissues(n) => StepRecorded(c, ev); SavesDeleteNothing(c, Step(c, ev), n);
    case Carves(p) =>
      StepIsCarve(c, ev);
      NextNameIsNew(c, p);
      CarveSaves(DropTimer(c, p), p, ev.ask, ev.now);
    case Destroys(d) =>
      StepIsDestroy(c, ev);
      SlotPlaces(c, d);
      DynamicIsListed(c, d);
      DestroyOps(Detach(c, d), d);
  }

  lemma SavesDeleteNothing(c: Core, out: Outcome, n: SlotName)
    requires Recorded(c, out, n)
    ensures DeletesDynamic(out.ops)
  {
  }

  // ---------------------------------------------------------------------- sound cores

  /** The event asks for nothing negative and strands no claim. */
  predicate Fair(c: Core, ev: Event) { AsksNonNegative(ev) && !StrandsClaim(c, ev) }

  ghost predicate FairEvents(cs: seq<Core>, evs: seq<Event>)
    requires |evs| <= |cs|
  {
    forall i :: 0 <= i < |evs| ==> Fair(cs[i], evs[i])
  }

  ghost predicate SoundCore(c: Core) { Inv(c) && Conserved(c) && SharesNonNegative(c) && NO_CLAIM_ID !in c.issued }

  /** A core and whatever store it has: everything in the store was written by this startd. */
  ghost predicate Sound(c: Core, t: Table) { SoundCore(c) && AllFit(false, c, t) }

  lemma StepKeepsSound(c: Core, ev: Event)
    requires SoundCore(c) && Fair(c, ev)
    ensures SoundCore(Step(c, ev).core)
  {
    hide Inv, Conserved, SharesNonNegative, Step, StrandsClaim, AsksNonNegative, CarriesOver, Firm;
    InvIsFirm(c);
    StepKeepsInv(c, ev);
    StepKeepsShares(c, ev);
    StepSamePlaces(c, ev);
  }

  lemma {:induction false} RunKeepsSound(cs: seq<Core>, evs: seq<Event>, k: nat)
    requires Trace(cs, evs) && FairEvents(cs, evs) && SoundCore(cs[0]) && k <= |evs|
    ensures SoundCore(cs[k])
  {
    hide SoundCore, Step, Fair;
    if k > 0 {
      RunKeepsSound(cs, evs, k - 1);
      StepKeepsSound(cs[k - 1], evs[k - 1]);
    }
  }

  lemma SoundIsFirm(c: Core)
    requires SoundCore(c)
    ensures Firm(c)
  {
    hide Inv, Conserved, SharesNonNegative;
    InvIsFirm(c);
  }

  /** Everything a fair run asks to store fits the core it has come to; only dynamic slots are deleted. */
  lemma {:induction false} RunOpsFit(strict: bool, cs: seq<Core>, evs: seq<Event>, k: nat)
    requires Trace(cs, evs) && FairEvents(cs, evs) && SoundCore(cs[0]) && k <= |evs|
    ensures OpsFit(strict, cs[k], OpsOf(cs, evs, k)) && DeletesDynamic(OpsOf(cs, evs, k))
  {
    hide SoundCore, Step, Fair, Fits;
    if k > 0 {
      hide OpsFit, DeletesDynamic;
      RunOpsFit(strict, cs, evs, k - 1);
      RunKeepsSound(cs, evs, k - 1);
      RunKeepsSound(cs, evs, k);
      LastOpsFit(strict, cs[k - 1], evs[k - 1], OpsOf(cs, evs, k - 1));
    }
  }

  lemma LastOpsFit(strict: bool, c: Core, ev: Event, ops: seq<StoreOp>)
    requires SoundCore(c) && SoundCore(Step(c, ev).core) && OpsFit(strict, c, ops) && DeletesDynamic(ops)
    ensures OpsFit(strict, Step(c, ev).core, ops + Step(c, ev).ops) && DeletesDynamic(ops + Step(c, ev).ops)
  {
    SoundIsFirm(c);
    hide Inv, Conserved, SharesNonNegative, Structure, AllSane, Generations, Step, OpsFit, CarriesOver;
    StepSamePlaces(c, ev);
    OpsFitKept(strict, c, Step(c, ev).core, ops);
    StepOpsFit(strict, c, ev);
    StepDeletesDynamic(c, ev);
    OpsFitTogether(strict, Step(c, ev).core, ops, Step(c, ev).ops);
  }

  // -------------------------------------------------------------- under every interleaving

  ghost predicate QueueFits(strict: bool, c: Core, q: map<SlotName, Stamped>) { forall n :: n in q ==> q[n].rec.name == n && Fits(strict, c, q[n].rec) }

  ghost predicate StateFits(strict: bool, c: Core, s: State) { QueueFits(strict, c, s.pending) && QueueFits(strict, c, s.batch) && AllFit(strict, c, s.store) }

  lemma LoopFits(strict: bool, c: Core, s: State, a: Action)
    requires StateFits(strict, c, s) && Enabled(s, a) && (a.Put? || a.Erase?) && (s.todo[0].Save? ==> Fits(strict, c, s.todo[0].rec))
    ensures StateFits(strict, c, Next(s, a))
  {
    hide Fits;
  }

  lemma CommitFits(strict: bool, c: Core, s: State, a: Action)
    requires StateFits(strict, c, s) && Enabled(s, a) && a.Commit?
    ensures StateFits(strict, c, Next(s, a))
  {
    hide Fits;
  }

  lemma NextFits(strict: bool, c: Core, s: State, a: Action)
    requires StateFits(strict, c, s) && Enabled(s, a)
    requires a.Put? || a.Erase? ==> (s.todo[0].Save? ==> Fits(strict, c, s.todo[0].rec))
    ensures StateFits(strict, c, Next(s, a))
  {
    NothingQueued(strict, c);
    if a.Put? || a.Erase? {
      LoopFits(strict, c, s, a);
    } else if a.Commit? {
      CommitFits(strict, c, s, a);
    } else {
      hide QueueFits, AllFit;
    }
  }

  lemma NothingQueued(strict: bool, c: Core)
    ensures QueueFits(strict, c, map[])
  {
  }

  lemma ScheduleStep(ss: seq<State>, acts: seq<Action>, program: seq<StoreOp>, first: Table, i: nat)
    requires Schedule(ss, acts, program, first) && i + 1 < |ss|
    ensures i < |acts| && Enabled(ss[i], acts[i]) && ss[i + 1] == Next(ss[i], acts[i])
  {
  }

  lemma PrefixOfPrefix<T>(a: seq<T>, b: seq<T>, c: seq<T>)
    requires |a| <= |b| <= |c| && b[..|a|] == a && c[..|b|] == b
    ensures c[..|a|] == a
  {
    assert c[..|b|][..|a|] == c[..|a|];
  }

  lemma DoneStep(s: State, a: Action)
    requires Enabled(s, a)
    ensures |s.done| <= |Next(s, a).done| && Next(s, a).done[..|s.done|] == s.done
  {
  }

  /** The operations carried out so far only grow. */
  lemma {:induction false} DoneGrows(ss: seq<State>, acts: seq<Action>, program: seq<StoreOp>, first: Table, j: nat, i: nat)
    requires Schedule(ss, acts, program, first) && j <= i < |ss|
    ensures |ss[j].done| <= |ss[i].done| && ss[i].done[..|ss[j].done|] == ss[j].done
  {
    hide Enabled, Schedule, Next;
    if j < i {
      DoneGrows(ss, acts, program, first, j, i - 1);
      ScheduleStep(ss, acts, program, first, i - 1);
      DoneStep(ss[i - 1], acts[i - 1]);
      PrefixOfPrefix(ss[j].done, ss[i - 1].done, ss[i].done);
    }
  }

  /** Whatever has been written, is waiting or is on its way, under any interleaving, is a fitting record. */
  lemma {:induction false} ScheduleFits(strict: bool, c: Core, ss: seq<State>, acts: seq<Action>, program: seq<StoreOp>, first: Table, j: nat, i: nat)
    requires Schedule(ss, acts, program, first) && j <= i < |ss| && AllFit(strict, c, first) && OpsFit(strict, c, ss[i].done)
    ensures StateFits(strict, c, ss[j])
  {
    if j == 0 {
      NothingQueued(strict, c);
    } else {
      ScheduleFits(strict, c, ss, acts, program, first, j - 1, i);
      var s, a := ss[j - 1], acts[j - 1];
      DoneGrows(ss, acts, program, first, j, i);
      assert Enabled(s, a) && ss[j] == Next(s, a);
      if a.Put? || a.Erase? {
        assert ss[j].done == s.done + [s.todo[0]];
        assert ss[i].done[|s.done|] == ss[j].done[|s.done|];
      }
      hide Schedule, StateFits, Next, Fits;
      NextFits(strict, c, s, a);
    }
  }

  /** A record that outlives its deletion belongs to a dynamic slot. */
  lemma OvertakenAreDynamic(ss: seq<State>, acts: seq<Action>, program: seq<StoreOp>, first: Table, n: SlotName)
    requires Schedule(ss, acts, program, first) && DeletesDynamic(program) && DeletionOvertook(ss, acts, |acts|, n)
    ensures n.Dynamic?
  {
    var k :| 0 <= k < |acts| && acts[k].Erase? && Asks(ss[k], acts[k], n) && InFlight(ss[k], n) && Untouched(ss, acts, k + 1, |acts|, n);
    EveryInterleaving(ss, acts, program, first, k);
    assert program[|ss[k].done|] == (ss[k].done + ss[k].todo)[|ss[k].done|];
  }
}
