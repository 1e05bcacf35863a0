/**
 * The partitionable-slot allocator inside the core: carve and destroy move resources between a
 * p-slot's remainder and its dynamic slots, and nothing else moves any.
 */
module Allocator {
  import opened Basics
  import opened Slots
  import opened CoreModel
  import opened CoreInvariant
  import opened StepShapes
  import opened Firmness

  // ------------------------------------------------------------ what is shared out

  /** What p's live dynamic slots own together. */
  function SumOf(slots: map<SlotName, Slot>, dyn: seq<SlotName>, p: SlotName): Resources {
    if dyn == [] then NOTHING
    else ShareFor(slots, dyn[0], p).Plus(SumOf(slots, dyn[1..], p))
  }

  function ShareFor(slots: map<SlotName, Slot>, d: SlotName, p: SlotName): Resources {
    if IsChild(slots, d, p) then slots[d].res else NOTHING
  }

  /** The remainder plus everything carved out is the full allocation. */
  ghost predicate Balanced(slots: map<SlotName, Slot>, dyn: seq<SlotName>, p: SlotName)
    requires p in slots
  {
    slots[p].res.Plus(SumOf(slots, dyn, p)) == slots[p].full
  }

  ghost predicate Conserved(c: Core) {
    forall p :: p in c.slots && c.slots[p].kind.Partitionable? ==> Balanced(c.slots, c.dyn, p)
  }

  /** No live dynamic slot owns a negative amount. */
  ghost predicate SharesNonNegative(c: Core) {
    forall d :: d in c.dyn && d in c.slots ==> NOTHING.AtMost(c.slots[d].res)
  }

  /** No p-slot has given away more than it has, as it may have after its configured share shrank. */
  ghost predicate RemaindersNonNegative(c: Core) {
    forall p :: p in c.slots && c.slots[p].kind.Partitionable? ==> NOTHING.AtMost(c.slots[p].res)
  }

  // -------------------------------------------------------------- sums under edits

  predicate SameAmounts(s: Slot, t: Slot) { s.kind == t.kind && s.res == t.res && s.full == t.full }

  ghost predicate SameShares(c: Core, c1: Core) {
    && c1.fixed == c.fixed && c1.dyn == c.dyn && c1.slots.Keys == c.slots.Keys
    && forall n :: n in c.slots ==> SameAmounts(c.slots[n], c1.slots[n])
  }

  lemma {:induction false} SumFrame(a: map<SlotName, Slot>, b: map<SlotName, Slot>, dyn: seq<SlotName>, p: SlotName)
    requires forall n :: n in dyn ==> n in a && n in b && a[n].kind == b[n].kind && a[n].res == b[n].res
    ensures SumOf(a, dyn, p) == SumOf(b, dyn, p)
  {
    if dyn != [] { SumFrame(a, b, dyn[1..], p); }
  }

  lemma {:induction false} SumAppend(slots: map<SlotName, Slot>, dyn: seq<SlotName>, d: SlotName, p: SlotName)
    ensures SumOf(slots, dyn + [d], p) == SumOf(slots, dyn, p).Plus(ShareFor(slots, d, p))
  {
    if dyn == [] {
      assert dyn + [d] == [d];
      assert SumOf(slots, [d][1..], p) == NOTHING;
    } else {
      assert (dyn + [d])[1..] == dyn[1..] + [d];
      SumAppend(slots, dyn[1..], d, p);
    }
  }

  lemma {:induction false} SumRemove(slots: map<SlotName, Slot>, dyn: seq<SlotName>, d: SlotName, p: SlotName)
    requires d in dyn
    ensures SumOf(slots, dyn, p) == SumOf(slots, Remove(dyn, d), p).Plus(ShareFor(slots, d, p))
  {
    if dyn[0] != d {
      assert d in dyn[1..];
      SumRemove(slots, dyn[1..], d, p);
      var r := Remove(dyn, d);
      assert r[0] == dyn[0] && r[1..] == Remove(dyn[1..], d);
    }
  }

  lemma {:induction false} SumNonNegative(slots: map<SlotName, Slot>, dyn: seq<SlotName>, p: SlotName)
    requires forall d :: d in dyn && d in slots ==> NOTHING.AtMost(slots[d].res)
    ensures NOTHING.AtMost(SumOf(slots, dyn, p))
  {
    if dyn != [] { SumNonNegative(slots, dyn[1..], p); }
  }

  lemma SameSharesKeep(c: Core, c1: Core)
    requires SameShares(c, c1) && forall n :: n in c.dyn ==> n in c.slots
    ensures Conserved(c) <==> Conserved(c1)
    ensures SharesNonNegative(c) <==> SharesNonNegative(c1)
    ensures RemaindersNonNegative(c) <==> RemaindersNonNegative(c1)
  {
    forall p | p in c.slots ensures Balanced(c.slots, c.dyn, p) <==> Balanced(c1.slots, c1.dyn, p) {
      SumFrame(c.slots, c1.slots, c.dyn, p);
    }
  }

  // ------------------------------------------------------------------------ carving

  /** What carving does to the slot table. */
  lemma CarvedSlots(c: Core, p: SlotName, req: Resources, schedd: Schedd, now: int)
    requires Registry(c.fixed, c.dyn, c.slots, c.dslotSeq) && p in c.fixed
    ensures var c1 := Carved(c, p, req, schedd, now);
            var d := DynamicName(p, c.dslotSeq + 1);
            && d !in c.slots && c1.dyn == c.dyn + [d] && d in c1.slots && d != p
            && c1.slots[d].kind == CarvedFrom(p, c.dslotSeq + 1) && c1.slots[d].res == req
            && p in c1.slots && c1.slots[p] == c.slots[p].Carve(req)
            && c1.slots.Keys == c.slots.Keys + {d}
            && (forall n :: n in c.slots && n != p ==> c1.slots[n] == c.slots[n])
            && (forall n :: n in c.dyn ==> n in c.slots && n != p)
  {
    NextNameIsNew(c, p);
  }

  lemma CarvedBalance(c: Core, p: SlotName, req: Resources, schedd: Schedd, now: int, q: SlotName)
    requires Registry(c.fixed, c.dyn, c.slots, c.dslotSeq) && p in c.fixed && q in c.slots
    ensures var c1 := Carved(c, p, req, schedd, now);
            q in c1.slots && (Balanced(c.slots, c.dyn, q) <==> Balanced(c1.slots, c1.dyn, q))
  {
    hide Registry, Carved, SumOf;
    CarvedSlots(c, p, req, schedd, now);
    var c1 := Carved(c, p, req, schedd, now);
    SumAppend(c1.slots, c.dyn, DynamicName(p, c.dslotSeq + 1), q);
    SumFrame(c.slots, c1.slots, c.dyn, q);
  }

  /** Carving conserves, whatever is asked for. */
  lemma CarveConserves(c: Core, p: SlotName, ask: ClaimRequest, now: int)
    requires Registry(c.fixed, c.dyn, c.slots, c.dslotSeq) && Conserved(c)
    requires p in c.fixed && p in c.slots && c.slots[p].claim.Some?
    ensures Conserved(CarveSlot(c, p, ask, now).core)
  {
    hide Registry, Persist, ChildIds, Carved, Balanced;
    var req := Requested(ask.want);
    var c1 := Carved(c, p, req, ask.schedd, now);
    var c2 := CarveSlot(c, p, ask, now).core;
    CarvedSlots(c, p, req, ask.schedd, now);
    assert SameShares(c1, c2);
    SameSharesKeep(c1, c2);
    forall q | q in c1.slots && c1.slots[q].kind.Partitionable? ensures Balanced(c1.slots, c1.dyn, q) {
      assert q in c.slots && c.slots[q].kind.Partitionable?;
      CarvedBalance(c, p, req, ask.schedd, now, q);
    }
  }

  lemma CarveKeepsShares(c: Core, p: SlotName, ask: ClaimRequest, now: int)
    requires Registry(c.fixed, c.dyn, c.slots, c.dslotSeq) && SharesNonNegative(c)
    requires p in c.fixed && p in c.slots && c.slots[p].claim.Some? && 0 <= ask.want.memory && 0 <= ask.want.disk
    ensures SharesNonNegative(CarveSlot(c, p, ask, now).core)
  {
    hide Registry, Persist, ChildIds, Carved;
    CarvedSlots(c, p, Requested(ask.want), ask.schedd, now);
  }

  lemma CarveKeepsRemainders(c: Core, p: SlotName, ask: ClaimRequest, now: int)
    requires Registry(c.fixed, c.dyn, c.slots, c.dslotSeq) && RemaindersNonNegative(c)
    requires p in c.fixed && p in c.slots && c.slots[p].claim.Some? && c.slots[p].CanCarve(Requested(ask.want))
    ensures RemaindersNonNegative(CarveSlot(c, p, ask, now).core)
  {
    hide Registry, Persist, ChildIds, Carved;
    CarvedSlots(c, p, Requested(ask.want), ask.schedd, now);
  }

  // --------------------------------------------------------------------- destroying

  /** The guard of Restore's clamp when d is given back to its parent. */
  predicate ClampFires(c: Core, d: SlotName) {
    d in c.slots && c.slots[d].IsDynamic() && c.slots[d].kind.parent in c.slots
    && !c.slots[c.slots[d].kind.parent].res.Plus(c.slots[d].res).AtMost(c.slots[c.slots[d].kind.parent].full)
  }

  /** What destroying does to the slot table. */
  lemma DestroyedSlots(c: Core, d: SlotName)
    requires Registry(c.fixed, c.dyn, c.slots, c.dslotSeq) && d in c.dyn
    ensures d in c.slots && c.slots[d].IsDynamic()
    ensures var c2 := Destroy(c, d).core;
            var p := c.slots[d].kind.parent;
            && p in c.slots && p != d && p !in c.dyn
            && c2.dyn == Remove(c.dyn, d)
            && c2.slots.Keys == c.slots.Keys - {d}
            && c2.slots[p].kind == c.slots[p].kind && c2.slots[p].full == c.slots[p].full
            && c2.slots[p].res == c.slots[p].Restore(c.slots[d].res).res
            && (forall q :: q in c2.slots && q != p ==> c2.slots[q] == c.slots[q])
    ensures forall n :: n in c.dyn ==> n in c.slots && c.slots[n].IsDynamic()
  {
    hide Persist, ChildIds, Remove;
  }

  lemma PlusNothing(r: Resources)
    ensures r.Plus(NOTHING) == r
  {
  }

  lemma RestoreBalance(res: Resources, full: Resources, back: Resources, others: Resources)
    requires res.Plus(others.Plus(back)) == full
    ensures res.Plus(back).Min(full).Plus(others) == full <==> res.Plus(back).AtMost(full)
  {
  }

  /** How the children's sum changes when d goes. */
  lemma DestroyedSum(c: Core, d: SlotName, q: SlotName)
    requires Registry(c.fixed, c.dyn, c.slots, c.dslotSeq) && d in c.dyn && d in c.slots && c.slots[d].IsDynamic()
    ensures var c2 := Destroy(c, d).core;
            SumOf(c.slots, c.dyn, q) == SumOf(c2.slots, c2.dyn, q).Plus(ShareFor(c.slots, d, q))
  {
    RemoveIsDeletion(c.dyn, d);
    DestroyedSlots(c, d);
    hide Registry, Destroy, SumOf, Remove;
    var c2 := Destroy(c, d).core;
    SumRemove(c.slots, c.dyn, d, q);
    SumFrame(c.slots, c2.slots, c2.dyn, q);
  }

  lemma ParentBalance(c: Core, d: SlotName)
    requires Registry(c.fixed, c.dyn, c.slots, c.dslotSeq) && d in c.dyn && d in c.slots && c.slots[d].IsDynamic()
    requires c.slots[d].kind.parent in c.slots && Balanced(c.slots, c.dyn, c.slots[d].kind.parent)
    ensures c.slots[d].kind.parent in Destroy(c, d).core.slots
    ensures var c2 := Destroy(c, d).core; Balanced(c2.slots, c2.dyn, c.slots[d].kind.parent) <==> !ClampFires(c, d)
  {
    hide Registry, Destroy, SumOf, Remove, Resources.Plus, Resources.Min, Resources.AtMost;
    var p := c.slots[d].kind.parent;
    var c2 := Destroy(c, d).core;
    DestroyedSlots(c, d);
    DestroyedSum(c, d, p);
    RestoreBalance(c.slots[p].res, c.slots[p].full, c.slots[d].res, SumOf(c2.slots, c2.dyn, p));
  }

  lemma OtherBalance(c: Core, d: SlotName, q: SlotName)
    requires Registry(c.fixed, c.dyn, c.slots, c.dslotSeq) && d in c.dyn && d in c.slots && c.slots[d].IsDynamic()
    requires q in c.slots && q != d && q != c.slots[d].kind.parent && Balanced(c.slots, c.dyn, q)
    ensures q in Destroy(c, d).core.slots
    ensures var c2 := Destroy(c, d).core; Balanced(c2.slots, c2.dyn, q)
  {
    hide Registry, Destroy, SumOf, Remove, Resources.Plus;
    var c2 := Destroy(c, d).core;
    DestroyedSlots(c, d);
    DestroyedSum(c, d, q);
    PlusNothing(SumOf(c2.slots, c2.dyn, q));
  }

  /** Destroying a dynamic slot conserves exactly when Restore's clamp does not fire. */
  lemma DestroyConserves(c: Core, d: SlotName)
    requires Registry(c.fixed, c.dyn, c.slots, c.dslotSeq) && d in c.dyn && d in c.slots && c.slots[d].IsDynamic()
    requires c.slots[d].kind.parent in c.slots && c.slots[c.slots[d].kind.parent].kind.Partitionable?
    requires Conserved(c)
    ensures Conserved(Destroy(c, d).core) <==> !ClampFires(c, d)
  {
    hide Registry, Destroy, Balanced, ClampFires, Remove;
    var c2 := Destroy(c, d).core;
    DestroyedSlots(c, d);
    forall q | q in c.slots && c.slots[q].kind.Partitionable?
      ensures q in c2.slots && c2.slots[q].kind.Partitionable?
      ensures Balanced(c2.slots, c2.dyn, q) <==> !(q == c.slots[d].kind.parent && ClampFires(c, d))
    {
      if q == c.slots[d].kind.parent { ParentBalance(c, d); } else { OtherBalance(c, d, q); }
    }
  }

  /** What makes the clamp fire: the siblings of d own a negative amount of something. */
  lemma ClampMeansNegativeSiblings(c: Core, d: SlotName)
    requires Registry(c.fixed, c.dyn, c.slots, c.dslotSeq) && d in c.dyn && Conserved(c)
    ensures ClampFires(c, d) <==> !NOTHING.AtMost(SumOf(c.slots, Remove(c.dyn, d), c.slots[d].kind.parent))
  {
    var p := c.slots[d].kind.parent;
    assert Balanced(c.slots, c.dyn, p);
    SumRemove(c.slots, c.dyn, d, p);
  }

  lemma NoClampWhenNonNegative(c: Core, d: SlotName)
    requires Registry(c.fixed, c.dyn, c.slots, c.dslotSeq) && d in c.dyn && Conserved(c) && SharesNonNegative(c)
    ensures !ClampFires(c, d)
  {
    RemoveIsDeletion(c.dyn, d);
    SumNonNegative(c.slots, Remove(c.dyn, d), c.slots[d].kind.parent);
    ClampMeansNegativeSiblings(c, d);
  }

  lemma DestroyKeepsShares(c: Core, d: SlotName)
    requires Registry(c.fixed, c.dyn, c.slots, c.dslotSeq) && d in c.dyn && d in c.slots && c.slots[d].IsDynamic()
    requires SharesNonNegative(c)
    ensures SharesNonNegative(Destroy(c, d).core)
  {
    RemoveIsDeletion(c.dyn, d);
    DestroyedSlots(c, d);
    hide Registry, Destroy, Remove;
  }

  lemma DestroyKeepsRemainders(c: Core, d: SlotName)
    requires Registry(c.fixed, c.dyn, c.slots, c.dslotSeq) && d in c.dyn && d in c.slots && c.slots[d].IsDynamic()
    requires SharesNonNegative(c) && RemaindersNonNegative(c) && !ClampFires(c, d)
    requires c.slots[d].kind.parent in c.slots && c.slots[c.slots[d].kind.parent].kind.Partitionable?
    ensures RemaindersNonNegative(Destroy(c, d).core)
  {
    DestroyedSlots(c, d);
    hide Registry, Destroy, Remove;
  }

  // ---------------------------------------------------------------------- every step

  /** An edit or a reissue moves no resources at all. */
  lemma PlainStepMovesNothing(c: Core, c1: Core, n: SlotName)
    requires Edited(c, c1, n) || Reissued(c, c1, n)
    ensures SameShares(c, c1)
  {
    hide Key, Rank, ActEdit;
    forall m ensures m in c.slots <==> m in c1.slots
             ensures m in c.slots ==> SameAmounts(c.slots[m], c1.slots[m])
    {
      assert m != n ==> At(c1, m) == At(c, m);
      assert m != n ==> At(c1, m).slot == At(c, m).slot;
    }
  }

  /** The step destroys a dynamic slot into Restore's clamp. */
  predicate StepClamps(c: Core, ev: Event) {
    ShapeOf(c, ev).Destroys? && ClampFires(c, ShapeOf(c, ev).d)
  }

  lemma ParentIsPartitionable(c: Core, d: SlotName)
    requires Registry(c.fixed, c.dyn, c.slots, c.dslotSeq) && d in c.dyn
    ensures d in c.slots && c.slots[d].IsDynamic()
    ensures c.slots[d].kind.parent in c.slots && c.slots[c.slots[d].kind.parent].kind.Partitionable?
  {
  }

  /**
   * Conservation, one step, any event: remainder plus carved shares stay the full allocation exactly
   * when the step does not give a slot back into Restore's clamp.
   */
  lemma StepConserves(c: Core, ev: Event)
    requires Firm(c) && Conserved(c)
    ensures Conserved(Step(c, ev).core) <==> !StepClamps(c, ev)
  {
    hide Registry, Ids, Children, AllSane, Generations, Conserved, ClampFires, ShapeOf, Step, Edited, Reissued,
      CarveSlot, Destroy;
    StepHasShape(c, ev);
    RegistryLists(c);
    var c1 := Step(c, ev).core;
    match ShapeOf(c, ev)
    case Edits(n) => PlainStepMovesNothing(c, c1, n); SameSharesKeep(c, c1);
    case Resets(n) => PlainStepMovesNothing(c, c1, n); SameSharesKeep(c, c1);
    case Reissues(n) => PlainStepMovesNothing(c, c1, n); SameSharesKeep(c, c1);
    case Carves(p) =>
      PartitionableIsFixed(c, p);
      SameSharesKeep(c, DropTimer(c, p));
      CarveConserves(DropTimer(c, p), p, ev.ask, ev.now);
    case Destroys(d) =>
      DestroyStepConserves(c, d);
  }

  lemma DestroyStepConserves(c: Core, d: SlotName)
    requires Structure(c) && Conserved(c) && d in c.slots && c.slots[d].IsDynamic()
    ensures Conserved(Destroy(Detach(c, d), d).core) <==> !ClampFires(c, d)
  {
    hide Registry, Ids, Children, Conserved, ClampFires, Destroy;
    DynamicIsListed(c, d);
    ParentIsPartitionable(c, d);
    RegistryLists(c);
    SameSharesKeep(c, Detach(c, d));
    DestroyConserves(Detach(c, d), d);
    ClampIgnoresRest(c, d);
  }

  lemma ClampIgnoresRest(c: Core, d: SlotName)
    ensures ClampFires(Detach(c, d), d) <==> ClampFires(c, d)
  {
  }

  /** A request asks for no negative memory or disk (Cpus are clamped by the core itself). */
  predicate AsksNonNegative(ev: Event) {
    ev.RequestClaim? ==> 0 <= ev.ask.want.memory && 0 <= ev.ask.want.disk
  }

  /** With non-negative requests the clamp never fires and no share goes negative, however little a p-slot has left. */
  lemma StepKeepsShares(c: Core, ev: Event)
    requires Firm(c) && Conserved(c) && SharesNonNegative(c) && AsksNonNegative(ev)
    ensures !StepClamps(c, ev)
    ensures Conserved(Step(c, ev).core) && SharesNonNegative(Step(c, ev).core)
  {
    hide Registry, Ids, Children, AllSane, Generations, Conserved, SharesNonNegative, ClampFires, ShapeOf, Step, Edited, Reissued,
      CarveSlot, Destroy;
    StepHasShape(c, ev);
    RegistryLists(c);
    StepConserves(c, ev);
    var c1 := Step(c, ev).core;
    match ShapeOf(c, ev)
    case Edits(n) => PlainStepMovesNothing(c, c1, n); SameSharesKeep(c, c1);
    case Resets(n) => PlainStepMovesNothing(c, c1, n); SameSharesKeep(c, c1);
    case Reissues(n) => PlainStepMovesNothing(c, c1, n); SameSharesKeep(c, c1);
    case Carves(p) =>
      PartitionableIsFixed(c, p);
      SameSharesKeep(c, DropTimer(c, p));
      CarveKeepsShares(DropTimer(c, p), p, ev.ask, ev.now);
    case Destroys(d) =>
      DynamicIsListed(c, d);
      NoClampWhenNonNegative(c, d);
      SameSharesKeep(c, Detach(c, d));
      DestroyKeepsShares(Detach(c, d), d);
  }

  /** And a p-slot that has not given away more than it has never will. */
  lemma StepKeepsRemainders(c: Core, ev: Event)
    requires Firm(c) && Conserved(c) && SharesNonNegative(c) && RemaindersNonNegative(c) && AsksNonNegative(ev)
    ensures RemaindersNonNegative(Step(c, ev).core)
  {
    hide Registry, Ids, Children, AllSane, Generations, Conserved, SharesNonNegative, RemaindersNonNegative, ClampFires, ShapeOf, Step,
      Edited, Reissued, CarveSlot, Destroy;
    StepHasShape(c, ev);
    RegistryLists(c);
    var c1 := Step(c, ev).core;
    match ShapeOf(c, ev)
    case Edits(n) => PlainStepMovesNothing(c, c1, n); SameSharesKeep(c, c1);
    case Resets(n) => PlainStepMovesNothing(c, c1, n); SameSharesKeep(c, c1);
    case Reissues(n) => PlainStepMovesNothing(c, c1, n); SameSharesKeep(c, c1);
    case Carves(p) =>
      PartitionableIsFixed(c, p);
      SameSharesKeep(c, DropTimer(c, p));
      CarveKeepsRemainders(DropTimer(c, p), p, ev.ask, ev.now);
    case Destroys(d) =>
      DynamicIsListed(c, d);
      ParentIsPartitionable(c, d);
      NoClampWhenNonNegative(c, d);
      SameSharesKeep(c, Detach(c, d));
      ClampIgnoresRest(c, d);
      DestroyKeepsRemainders(Detach(c, d), d);
  }

  /** The remainder never exceeds the full allocation; it is between nothing and full exactly when not overdrawn. */
  lemma RemainderWithinBounds(c: Core, p: SlotName)
    requires Conserved(c) && SharesNonNegative(c) && (forall d :: d in c.dyn ==> d in c.slots)
    requires p in c.slots && c.slots[p].kind.Partitionable?
    ensures c.slots[p].res.AtMost(c.slots[p].full)
    ensures NOTHING.AtMost(c.slots[p].res) <==> SumOf(c.slots, c.dyn, p).AtMost(c.slots[p].full)
  {
    assert Balanced(c.slots, c.dyn, p);
    SumNonNegative(c.slots, c.dyn, p);
  }
}
