/** Safety of whole runs: any events, in any order, stale and duplicated ones included. */
module Runs {
  import opened Basics
  import opened Slots
  import opened CoreModel
  import opened CoreInvariant
  import opened StepShapes
  import opened Firmness
  import opened Allocator

  /** cs are the states of the event loop around the events evs. */
  ghost predicate Trace(cs: seq<Core>, evs: seq<Event>) {
    |cs| == |evs| + 1 && forall i :: 0 <= i < |evs| ==> cs[i + 1] == Step(cs[i], evs[i]).core
  }

  ghost predicate Invariably(cs: seq<Core>) { forall i :: 0 <= i < |cs| ==> Inv(cs[i]) }

  /** The joint invariant holds in every state of a run exactly when no step strands a claim. */
  lemma {:induction false} RunKeepsInv(cs: seq<Core>, evs: seq<Event>)
    requires Trace(cs, evs) && Inv(cs[0])
    ensures Invariably(cs) <==> forall i :: 0 <= i < |evs| ==> !StrandsClaim(cs[i], evs[i])
  {
    hide Inv, Step, StrandsClaim;
    if |evs| > 0 {
      var k := |evs| - 1;
      assert Trace(cs[..k + 1], evs[..k]);
      RunKeepsInv(cs[..k + 1], evs[..k]);
      if Invariably(cs[..k + 1]) {
        assert Inv(cs[..k + 1][k]);
        StepKeepsInv(cs[k], evs[k]);
        assert cs[k + 1] == Step(cs[k], evs[k]).core;
        assert forall i :: 0 <= i <= k ==> cs[..k + 1][i] == cs[i];
      }
      assert forall i :: 0 <= i < k ==> evs[..k][i] == evs[i] && cs[..k + 1][i] == cs[i];
    }
  }

  /** Registry, ids, child index, sanity and generations hold in every state of every run. */
  lemma {:induction false} RunKeepsFirm(cs: seq<Core>, evs: seq<Event>, i: nat)
    requires Trace(cs, evs) && Firm(cs[0]) && i <= |evs|
    ensures Firm(cs[i])
  {
    hide Firm, Step;
    if i > 0 {
      RunKeepsFirm(cs, evs, i - 1);
      StepKeepsFirm(cs[i - 1], evs[i - 1]);
    }
  }

  /** With non-negative requests every state of every run conserves resources and the clamp never fires. */
  lemma {:induction false} RunConserves(cs: seq<Core>, evs: seq<Event>, i: nat)
    requires Trace(cs, evs) && Firm(cs[0]) && Conserved(cs[0]) && SharesNonNegative(cs[0]) && i <= |evs|
    requires forall k :: 0 <= k < |evs| ==> AsksNonNegative(evs[k])
    ensures Conserved(cs[i]) && SharesNonNegative(cs[i])
    ensures i < |evs| ==> !StepClamps(cs[i], evs[i])
  {
    hide Firm, Step, Conserved, SharesNonNegative, StepClamps, AsksNonNegative;
    RunKeepsFirm(cs, evs, i);
    if i > 0 {
      RunConserves(cs, evs, i - 1);
      RunKeepsFirm(cs, evs, i - 1);
      StepKeepsShares(cs[i - 1], evs[i - 1]);
    }
    if i < |evs| { StepKeepsShares(cs[i], evs[i]); }
  }

  /** A p-slot not overdrawn at the start keeps its remainder between nothing and its full allocation. */
  lemma {:induction false} RunWithinBounds(cs: seq<Core>, evs: seq<Event>, i: nat, p: SlotName)
    requires Trace(cs, evs) && Firm(cs[0]) && Conserved(cs[0]) && SharesNonNegative(cs[0]) && RemaindersNonNegative(cs[0])
    requires (forall k :: 0 <= k < |evs| ==> AsksNonNegative(evs[k])) && i <= |evs|
    requires p in cs[i].slots && cs[i].slots[p].kind.Partitionable?
    ensures NOTHING.AtMost(cs[i].slots[p].res) && cs[i].slots[p].res.AtMost(cs[i].slots[p].full)
  {
    RunKeepsRemainders(cs, evs, i);
    RunConserves(cs, evs, i);
    RunKeepsFirm(cs, evs, i);
    RegistryLists(cs[i]);
    RemainderWithinBounds(cs[i], p);
    hide Conserved, SharesNonNegative, Firm, Step;
  }

  lemma {:induction false} RunKeepsRemainders(cs: seq<Core>, evs: seq<Event>, i: nat)
    requires Trace(cs, evs) && Firm(cs[0]) && Conserved(cs[0]) && SharesNonNegative(cs[0]) && RemaindersNonNegative(cs[0])
    requires (forall k :: 0 <= k < |evs| ==> AsksNonNegative(evs[k])) && i <= |evs|
    ensures RemaindersNonNegative(cs[i])
  {
    hide Firm, Step, Conserved, SharesNonNegative, RemaindersNonNegative, AsksNonNegative;
    if i > 0 {
      RunKeepsRemainders(cs, evs, i - 1);
      RunConserves(cs, evs, i - 1);
      RunKeepsFirm(cs, evs, i - 1);
      StepKeepsRemainders(cs[i - 1], evs[i - 1]);
    }
  }

  // ------------------------------------------------------- entries across one step

  /** What a step may do to one name, seen through claim ids, ranks and generations. */
  ghost predicate Moves(c: Core, c1: Core, m: SlotName, reset: bool) {
    var e, f := At(c, m), At(c1, m);
    && (f.slot.Some? && f.slot.value.claim.Some? ==>
          || (e.slot.Some? && Key(e.slot.value) == Key(f.slot.value)
              && (reset || (Rank(e.slot.value) <= Rank(f.slot.value) && (Stray(f) ==> Stray(e)))))
          || (f.slot.value.claim.value.id == c.FreshId() && !Stray(f)))
    && (f.act.Some? ==> (e.act.Some? && SameRun(e.act.value, f.act.value)) || f.act.value.gen > c.gen)
  }

  /** Issued ids are remembered, with their owner. */
  ghost predicate Remembers(c: Core, c1: Core) {
    && c.gen <= c1.gen
    && forall id :: id in c.issued ==> id in c1.issued && c1.issued[id] == c.issued[id]
  }

  lemma EditMoves(c: Core, c1: Core, n: SlotName, m: SlotName, reset: bool)
    requires Edited(c, c1, n) && (reset || Advances(At(c, n), At(c1, n)))
    ensures Moves(c, c1, m, reset && m == n)
  {
    assert m != n ==> At(c1, m) == At(c, m);
  }

  lemma ReissueMoves(c: Core, c1: Core, n: SlotName, m: SlotName)
    requires Reissued(c, c1, n)
    ensures Moves(c, c1, m, false)
  {
    assert m != n ==> At(c1, m) == At(c, m);
  }

  /** Carving touches two names only: the parent's amounts, and the new slot. */
  lemma CarveEntry(c: Core, p: SlotName, ask: ClaimRequest, now: int, m: SlotName)
    requires p in c.slots && c.slots[p].claim.Some? && DynamicName(p, c.dslotSeq + 1) !in c.slots
    ensures var d := DynamicName(p, c.dslotSeq + 1);
            var c1 := CarveSlot(c, p, ask, now).core;
            var e, f := At(c, m), At(c1, m);
            && f.act == e.act
            && (m != p && m != d ==> f == e)
            && (m == p ==> f.slot.Some? && Key(f.slot.value) == Key(e.slot.value)
                           && f.slot.value.claim == e.slot.value.claim && f.slot.value.state == e.slot.value.state)
            && (m == d ==> f.slot.Some? && Key(f.slot.value) == Some(c.FreshId())
                           && f.slot.value.claim.value.state == ClaimedIdle)
  {
    hide Persist, ChildIds;
  }

  lemma CarveMoves(c: Core, p: SlotName, ask: ClaimRequest, now: int, m: SlotName)
    requires Structure(c) && p in c.slots && c.slots[p].claim.Some?
    ensures Moves(c, CarveSlot(DropTimer(c, p), p, ask, now).core, m, false)
  {
    hide Registry, Ids, Children, CarveSlot;
    NextNameIsNew(c, p);
    CarveEntry(DropTimer(c, p), p, ask, now, m);
  }

  /** Destroying touches two names only: the slot is forgotten, the parent's amounts change. */
  lemma DestroyEntry(c: Core, d: SlotName, m: SlotName)
    requires d in c.slots && c.slots[d].IsDynamic() && c.slots[d].kind.parent != d && d !in c.acts
    ensures var c1 := Destroy(c, d).core;
            var e, f := At(c, m), At(c1, m);
            && f.act == e.act
            && (m == d ==> f.slot.None? && f.act.None?)
            && (m != d ==> (f.slot.Some? <==> e.slot.Some?))
            && (m != d && f.slot.Some? ==> f.slot.value.claim == e.slot.value.claim && f.slot.value.state == e.slot.value.state)
            && (m != d && m != c.slots[d].kind.parent ==> f.slot == e.slot)
  {
    hide Destroy;
    DestroyedActs(c, d);
    DestroyedTable(c, d);
  }

  lemma DestroyMoves(c: Core, d: SlotName, m: SlotName)
    requires Structure(c) && d in c.slots && c.slots[d].IsDynamic()
    ensures Moves(c, Destroy(Detach(c, d), d).core, m, false)
  {
    hide Registry, Ids, Children, Destroy;
    DynamicIsListed(c, d);
    DestroyEntry(Detach(c, d), d, m);
  }

  predicate ResetsAt(c: Core, ev: Event, m: SlotName) { ShapeOf(c, ev) == Resets(m) }

  lemma StepMoves(c: Core, ev: Event, m: SlotName)
    requires Firm(c)
    ensures Moves(c, Step(c, ev).core, m, ResetsAt(c, ev, m))
  {
    hide Registry, Ids, Children, Generations, Sane, ShapeOf, Step, Edited, Reissued, Moves, Advances, CarveSlot, Destroy;
    StepHasShape(c, ev);
    var c1 := Step(c, ev).core;
    match ShapeOf(c, ev)
    case Edits(n) => EditMoves(c, c1, n, m, false);
    case Resets(n) => EditMoves(c, c1, n, m, true);
    case Reissues(n) => ReissueMoves(c, c1, n, m);
    case Carves(p) => CarveMoves(c, p, ev.ask, ev.now, m);
    case Destroys(d) => DestroyMoves(c, d, m);
  }

  lemma CarveRemembers(c: Core, p: SlotName, ask: ClaimRequest, now: int)
    requires Ids(c.slots, c.issued, c.birthdate, c.mintSerial) && p in c.slots && c.slots[p].claim.Some?
    ensures Remembers(c, CarveSlot(DropTimer(c, p), p, ask, now).core)
  {
    FreshIsNew(c);
    hide Ids, Persist, ChildIds;
  }

  lemma DestroyRemembers(c: Core, d: SlotName)
    requires d in c.slots && c.slots[d].IsDynamic()
    ensures Remembers(c, Destroy(Detach(c, d), d).core)
  {
    hide Persist, ChildIds, Remove;
  }

  lemma ReissueRemembers(c: Core, c1: Core, n: SlotName)
    requires Ids(c.slots, c.issued, c.birthdate, c.mintSerial) && Reissued(c, c1, n)
    ensures Remembers(c, c1)
  {
    FreshIsNew(c);
  }

  lemma StepRemembers(c: Core, ev: Event)
    requires Firm(c)
    ensures Remembers(c, Step(c, ev).core)
  {
    hide Registry, Ids, Children, Generations, Sane, ShapeOf, Step, OnlyAt, SlotEdit, Reissued, CarveSlot, Destroy;
    StepHasShape(c, ev);
    match ShapeOf(c, ev)
    case Edits(n) =>
    case Resets(n) =>
    case Reissues(n) => ReissueRemembers(c, Step(c, ev).core, n);
    case Carves(p) => CarveRemembers(c, p, ev.ask, ev.now);
    case Destroys(d) => DestroyRemembers(c, d);
  }

  // ------------------------------------------------------------------- claim ids

  lemma {:induction false} RunRemembers(cs: seq<Core>, evs: seq<Event>, i: nat, j: nat)
    requires Trace(cs, evs) && Firm(cs[0]) && i <= j <= |evs|
    ensures Remembers(cs[i], cs[j])
  {
    hide Firm, Step;
    if i < j {
      RunRemembers(cs, evs, i, j - 1);
      RunKeepsFirm(cs, evs, j - 1);
      StepRemembers(cs[j - 1], evs[j - 1]);
    }
  }

  predicate HoldsAt(c: Core, n: SlotName, id: ClaimId) { n in c.slots && c.slots[n].Holds(id) }

  /** An id once installed on a slot is never held by another one. */
  lemma IdsNeverMove(cs: seq<Core>, evs: seq<Event>, i: nat, j: nat, m: SlotName, n: SlotName, id: ClaimId)
    requires Trace(cs, evs) && Firm(cs[0]) && i <= j <= |evs|
    requires HoldsAt(cs[i], m, id) && HoldsAt(cs[j], n, id)
    ensures m == n
  {
    hide Firm, Step, HoldsAt;
    RunRemembers(cs, evs, i, j);
    RunKeepsFirm(cs, evs, i);
    RunKeepsFirm(cs, evs, j);
    HolderIsOwner(cs[i], m, id);
    HolderIsOwner(cs[j], n, id);
  }

  lemma HolderIsOwner(c: Core, n: SlotName, id: ClaimId)
    requires Firm(c) && HoldsAt(c, n, id)
    ensures id in c.issued && c.issued[id] == n
  {
  }

  /** An id held now was held one step ago, unless it had not been issued yet. */
  lemma HeldBefore(c: Core, ev: Event, n: SlotName, id: ClaimId)
    requires Firm(c) && HoldsAt(Step(c, ev).core, n, id) && id in c.issued
    ensures HoldsAt(c, n, id)
    ensures !ResetsAt(c, ev, n) ==> Rank(c.slots[n]) <= Rank(Step(c, ev).core.slots[n])
    ensures !ResetsAt(c, ev, n) && Stray(At(Step(c, ev).core, n)) ==> Stray(At(c, n))
  {
    StepMoves(c, ev, n);
    FreshIsNew(c);
    hide Firm, Step, ShapeOf;
  }

  lemma {:induction false} RetiredIsUnheld(cs: seq<Core>, evs: seq<Event>, i: nat, j: nat, id: ClaimId, n: SlotName)
    requires Trace(cs, evs) && Firm(cs[0]) && i <= j <= |evs|
    requires id in cs[i].issued && forall m :: !HoldsAt(cs[i], m, id)
    ensures !HoldsAt(cs[j], n, id)
  {
    hide HoldsAt, Firm, Step, Remembers;
    if i < j {
      RetiredIsUnheld(cs, evs, i, j - 1, id, n);
      RunRemembers(cs, evs, i, j - 1);
      RemembersId(cs[i], cs[j - 1], id);
      RunKeepsFirm(cs, evs, j - 1);
      NotHeldNext(cs[j - 1], evs[j - 1], n, id);
    }
  }

  lemma RemembersId(c: Core, c1: Core, id: ClaimId)
    requires Remembers(c, c1) && id in c.issued
    ensures id in c1.issued
  {
  }

  lemma NotHeldNext(c: Core, ev: Event, n: SlotName, id: ClaimId)
    requires Firm(c) && id in c.issued && !HoldsAt(c, n, id)
    ensures !HoldsAt(Step(c, ev).core, n, id)
  {
    hide Firm, Step;
    StepMoves(c, ev, n);
    FreshId(c);
  }

  lemma FreshId(c: Core)
    requires Firm(c)
    ensures c.FreshId() !in c.issued
  {
    FreshIsNew(c);
  }

  /** The core would refuse any REQUEST_CLAIM or ACTIVATE_CLAIM with id, and stay as it is. */
  ghost predicate Refuses(c: Core, id: ClaimId) {
    && (forall ask, now, mint :: Step(c, RequestClaim(id, ask, now, mint)) == Same(c, ClaimRefused))
    && (forall job, now :: Step(c, ActivateClaim(id, job, now)) == Same(c, ActivateRefused))
  }

  /**
   * Retired for good: an id that was issued and is held by no slot is never held again in the run,
   * and a REQUEST_CLAIM or ACTIVATE_CLAIM presenting it is refused without any effect.
   */
  lemma RetiredStaysRetired(cs: seq<Core>, evs: seq<Event>, i: nat, j: nat, id: ClaimId)
    requires Trace(cs, evs) && Firm(cs[0]) && i <= j <= |evs|
    requires id in cs[i].issued && forall n :: !HoldsAt(cs[i], n, id)
    ensures forall n :: !HoldsAt(cs[j], n, id)
    ensures Find(cs[j], id) == None && Refuses(cs[j], id)
  {
    hide Firm, Step, FindIn, Refuses;
    forall n ensures !HoldsAt(cs[j], n, id) {
      RetiredIsUnheld(cs, evs, i, j, id, n);
    }
    NoHolderNoAnswer(cs[j], id);
  }

  lemma NoHolderNoAnswer(c: Core, id: ClaimId)
    requires forall n :: !HoldsAt(c, n, id)
    ensures Find(c, id) == None && Refuses(c, id)
  {
    hide FindIn;
    FindInFinds(c.slots, c.Live(), id);
    assert Find(c, id).Some? ==> HoldsAt(c, Find(c, id).value, id);
  }

  /** A slot that holds an id at both ends of a stretch of the run holds it all the way. */
  lemma {:induction false} HeldThroughout(cs: seq<Core>, evs: seq<Event>, i: nat, k: nat, j: nat, n: SlotName, id: ClaimId)
    requires Trace(cs, evs) && Firm(cs[0]) && i <= k <= j <= |evs|
    requires HoldsAt(cs[i], n, id) && HoldsAt(cs[j], n, id)
    ensures HoldsAt(cs[k], n, id)
    ensures (forall s :: k <= s < j ==> !ResetsAt(cs[s], evs[s], n)) ==> Rank(cs[k].slots[n]) <= Rank(cs[j].slots[n])
    decreases j - k
  {
    if k < j {
      hide Firm, Step, ShapeOf, Rank;
      RunKeepsFirm(cs, evs, i);
      RunKeepsFirm(cs, evs, k);
      HolderIsOwner(cs[i], n, id);
      RunRemembers(cs, evs, i, k);
      HeldThroughout(cs, evs, i, k + 1, j, n, id);
      HeldBefore(cs[k], evs[k], n, id);
    }
  }

  // -------------------------------------------------------------- match timeouts

  predicate MatchedUnder(c: Core, n: SlotName, id: ClaimId) { HoldsAt(c, n, id) && c.slots[n].state == Matched }

  /** A timeout changes slots only while its slot is still Matched under the id it names. */
  lemma TimeoutIsGuarded(c: Core, n: SlotName, id: ClaimId, now: int, mint: bool)
    ensures Step(c, MatchTimeout(n, id, now, mint)).core.slots != c.slots ==> MatchedUnder(c, n, id)
    ensures MatchedUnder(c, n, id) && mint ==>
              var c1 := Step(c, MatchTimeout(n, id, now, mint)).core;
              c1.slots == c.slots[n := c.slots[n].SetClaimState(MintClaim(c.FreshId()), Unclaimed, Idle, now)]
  {
    hide Persist;
  }

  /**
   * A timer armed at i whose slot is Matched under its id again at j has seen one single match,
   * exactly when no step between reset that slot without minting a fresh id.
   */
  lemma TimeoutHitsItsOwnMatch(cs: seq<Core>, evs: seq<Event>, i: nat, j: nat, n: SlotName, id: ClaimId)
    requires Trace(cs, evs) && Firm(cs[0]) && i <= j <= |evs|
    requires MatchedUnder(cs[i], n, id) && MatchedUnder(cs[j], n, id)
    ensures (forall k :: i <= k <= j ==> MatchedUnder(cs[k], n, id))
            <==> (forall s :: i <= s < j ==> !ResetsAt(cs[s], evs[s], n))
  {
    hide Firm, Step, ShapeOf, Rank;
    if forall s :: i <= s < j ==> !ResetsAt(cs[s], evs[s], n) {
      forall k | i <= k <= j ensures MatchedUnder(cs[k], n, id) {
        RunKeepsFirm(cs, evs, i);
        RunKeepsFirm(cs, evs, j);
        RunKeepsFirm(cs, evs, k);
        HeldThroughout(cs, evs, i, k, j, n, id);
        HeldThroughout(cs, evs, i, i, k, n, id);
        MatchedMeansRankOne(cs[i], n);
        MatchedMeansRankOne(cs[j], n);
        MatchedMeansRankOne(cs[k], n);
      }
    } else {
      var s :| i <= s < j && ResetsAt(cs[s], evs[s], n);
      RunKeepsFirm(cs, evs, s);
      ResetUnmatches(cs[s], evs[s], n);
      assert !MatchedUnder(cs[s + 1], n, id);
    }
  }

  /**
   * A timer armed by a match at i fires at j: it changes a slot only while that slot is unclaimed and
   * Matched under the timer's own id, and then, unless the slot was reset without a fresh id in
   * between, it is still the match that armed it.
   */
  lemma DelayedTimeout(cs: seq<Core>, evs: seq<Event>, i: nat, j: nat, n: SlotName, id: ClaimId, now: int, mint: bool)
    requires Trace(cs, evs) && Firm(cs[0]) && i <= j <= |evs| && MatchedUnder(cs[i], n, id)
    requires Step(cs[j], MatchTimeout(n, id, now, mint)).core.slots != cs[j].slots
    ensures MatchedUnder(cs[j], n, id) && !cs[j].Claimed(n)
    ensures (forall s :: i <= s < j ==> !ResetsAt(cs[s], evs[s], n)) ==> forall k :: i <= k <= j ==> MatchedUnder(cs[k], n, id)
  {
    hide Firm, Step, ShapeOf;
    TimeoutIsGuarded(cs[j], n, id, now, mint);
    TimeoutHitsItsOwnMatch(cs, evs, i, j, n, id);
    RunKeepsFirm(cs, evs, j);
    MatchedMeansRankOne(cs[j], n);
  }

  lemma MatchedMeansRankOne(c: Core, n: SlotName)
    requires Firm(c) && n in c.slots
    ensures c.slots[n].state == Matched <==> Rank(c.slots[n]) == 1
  {
    assert Sane(At(c, n));
    hide Structure, AllSane, Generations;
  }

  lemma ResetUnmatches(c: Core, ev: Event, n: SlotName)
    requires Firm(c) && ResetsAt(c, ev, n)
    ensures n in Step(c, ev).core.slots && Step(c, ev).core.slots[n].state == Unclaimed
  {
    hide Firm, Persist, FindIn, Destroy;
    if ev.ReleaseClaim? { FindInFinds(c.slots, c.Live(), ev.id); }
  }

  // --------------------------------------------------- activations and escalation

  /** Same name and generation at both ends: one activation, running all the way between. */
  lemma {:induction false} GenerationIsOneRun(cs: seq<Core>, evs: seq<Event>, i: nat, k: nat, j: nat, n: SlotName)
    requires Trace(cs, evs) && Firm(cs[0]) && i <= k <= j <= |evs|
    requires n in cs[i].acts && n in cs[j].acts && cs[i].acts[n].gen == cs[j].acts[n].gen
    ensures n in cs[k].acts && SameRun(cs[k].acts[n], cs[j].acts[n])
    decreases j - k
  {
    if k < j {
      hide Firm, Step, ShapeOf;
      GenerationIsOneRun(cs, evs, i, k + 1, j, n);
      RunKeepsFirm(cs, evs, i);
      RunKeepsFirm(cs, evs, k);
      KnownGeneration(cs[i], n);
      RunRemembers(cs, evs, i, k);
      StepMoves(cs[k], evs[k], n);
    }
  }

  lemma KnownGeneration(c: Core, n: SlotName)
    requires Firm(c) && n in c.acts
    ensures c.acts[n].gen <= c.gen
  {
  }

  /**
   * A vacate escalation armed by a soft vacate at i and delivered at j either finds that very
   * activation, still running ever since, or changes nothing.
   */
  lemma EscalationHitsItsOwnActivation(cs: seq<Core>, evs: seq<Event>, i: nat, j: nat, n: SlotName)
    requires Trace(cs, evs) && Firm(cs[0]) && i <= j <= |evs| && n in cs[i].acts
    ensures var g := cs[i].acts[n].gen;
            || Step(cs[j], VacateEscalate(n, g)).core == cs[j]
            || forall k :: i <= k <= j ==> n in cs[k].acts && SameRun(cs[i].acts[n], cs[k].acts[n])
  {
    hide Firm;
    var g := cs[i].acts[n].gen;
    if n in cs[j].acts && cs[j].acts[n].gen == g {
      forall k | i <= k <= j ensures n in cs[k].acts && SameRun(cs[i].acts[n], cs[k].acts[n]) {
        GenerationIsOneRun(cs, evs, i, k, j, n);
        GenerationIsOneRun(cs, evs, i, i, j, n);
      }
    }
  }

  // ------------------------------------------------------------------ stray claims

  /** The claim id of n, if n is Busy without a starter. */
  function StrayId(c: Core, n: SlotName): Option<ClaimId> {
    if Stray(At(c, n)) then Key(At(c, n).slot.value) else None
  }

  lemma StrayBefore(c: Core, ev: Event, n: SlotName)
    requires Inv(c) && Inv(Step(c, ev).core) && StrayId(Step(c, ev).core, n).Some?
    ensures StrayId(c, n) == StrayId(Step(c, ev).core, n)
  {
    hide Inv, Step, ShapeOf;
    InvIsFirm(c);
    StepMoves(c, ev, n);
    if ResetsAt(c, ev, n) {
      ResetUnmatches(c, ev, n);
      BusyIsClaimed(Step(c, ev).core, n);
    }
  }

  lemma BusyIsClaimed(c: Core, n: SlotName)
    requires Inv(c) && Stray(At(c, n))
    ensures c.slots[n].state == Claimed
  {
    assert Coherent(At(c, n));
  }

  /** A Busy slot without a starter was one, under the same claim, from the start of the run. */
  lemma {:induction false} StraysOnlyComeFromAdoption(cs: seq<Core>, evs: seq<Event>, j: nat, n: SlotName)
    requires Trace(cs, evs) && Invariably(cs) && j <= |evs| && StrayId(cs[j], n).Some?
    ensures StrayId(cs[0], n) == StrayId(cs[j], n)
  {
    hide Inv, Step, StrayId;
    if j > 0 {
      assert Inv(cs[j - 1]) && Inv(cs[j]) && cs[j] == Step(cs[j - 1], evs[j - 1]).core;
      StrayBefore(cs[j - 1], evs[j - 1], n);
      StraysOnlyComeFromAdoption(cs, evs, j - 1, n);
    }
  }

  // ------------------------------------------------------------------- store operations

  /** Everything the loop asked to store in the first k steps of a run. */
  function OpsOf(cs: seq<Core>, evs: seq<Event>, k: nat): seq<StoreOp>
    requires k <= |evs| <= |cs|
  {
    if k == 0 then [] else OpsOf(cs, evs, k - 1) + Step(cs[k - 1], evs[k - 1]).ops
  }

  /** What was asked for in k steps depends on those steps only. */
  lemma {:induction false} OpsOfSame(cs: seq<Core>, evs: seq<Event>, cs1: seq<Core>, evs1: seq<Event>, k: nat)
    requires k <= |evs| <= |cs| && k <= |evs1| <= |cs1|
    requires forall i :: 0 <= i < k ==> cs1[i] == cs[i] && evs1[i] == evs[i]
    ensures OpsOf(cs, evs, k) == OpsOf(cs1, evs1, k)
  {
    hide Step;
    if k > 0 { OpsOfSame(cs, evs, cs1, evs1, k - 1); }
  }
}
