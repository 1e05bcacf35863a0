/**
 * What each event does, told from outside its handler: by who holds an id rather than by the lookup,
 * in amounts, states and times rather than by the functions that compute them.
 */
module Effects {
  import opened Basics
  import opened Slots
  import opened CoreModel
  import opened CoreInvariant
  import opened StepShapes
  import opened Firmness
  import opened Runs
  import opened Adoption

  /** The event is about the claim id it presents. */
  predicate Presents(ev: Event, id: ClaimId) {
    match ev
    case MatchInfo(x, _) => x == id
    case RequestClaim(x, _, _, _) => x == id
    case ReleaseClaim(x, _, _) => x == id
    case ActivateClaim(x, _, _) => x == id
    case Deactivate(x, _) => x == id
    case _ => false
  }

  /** Exactly the record of n is saved. */
  predicate SavesNow(out: Outcome, n: SlotName) {
    n in out.core.slots && out.core.slots[n].claim.Some? && out.ops == [Save(RecordOf(out.core, n))]
  }

  /** Nothing at all has happened. */
  predicate Nothing(c: Core, out: Outcome) { out.core == c && out.ops == [] }

  /** An id no slot holds changes nothing, whatever command presents it. */
  lemma UnknownIdDoesNothing(c: Core, ev: Event, id: ClaimId)
    requires Presents(ev, id) && forall n :: !HoldsAt(c, n, id)
    ensures Nothing(c, Step(c, ev))
    ensures ev.RequestClaim? ==> Step(c, ev).reply == ClaimRefused
    ensures ev.ActivateClaim? ==> Step(c, ev).reply == ActivateRefused
    ensures ev.Deactivate? ==> Step(c, ev).reply == Deactivating(false, true, None, None)
  {
    hide FindIn;
    FindInFinds(c.slots, c.Live(), id);
    assert Find(c, id).Some? ==> HoldsAt(c, Find(c, id).value, id);
  }

  // ------------------------------------------------------------------------- matching

  /** MATCH_INFO matches the slot that holds the id, if it is unclaimed and Unclaimed, arms its timer and saves it. */
  lemma MatchInfoMatches(c: Core, id: ClaimId, now: int, n: SlotName)
    requires Structure(c) && HoldsAt(c, n, id)
    ensures var out := Step(c, MatchInfo(id, now));
            var c1 := out.core;
            if c.Claimed(n) || c.slots[n].state != Unclaimed then Nothing(c, out)
            else
              && MatchedUnder(c1, n, id) && c1.slots[n].activity == Idle && c1.slots[n].entered == now
              && c1.slots[n].claim == c.slots[n].claim && SameShare(c.slots[n], c1.slots[n])
              && n in c1.timers && c1.timers[n] == id && OnlyAt(c, c1, n) && SavesNow(out, n)
  {
    hide Structure, FindIn;
    FindIsUnique(c, id, n);
  }

  /** Unclaimed and idle again: under a fresh id nobody has seen if one could be minted, else under the old claim. */
  predicate BackToUnclaimed(c: Core, c1: Core, n: SlotName, now: int, mint: bool)
    requires n in c.slots
  {
    && n in c1.slots && SameShare(c.slots[n], c1.slots[n]) && c1.mintSerial == c.mintSerial + 1
    && c1.slots[n].state == Unclaimed && c1.slots[n].activity == Idle && c1.slots[n].entered == now
    && if mint then
         && c1.slots[n].claim.Some? && !c1.Claimed(n) && c1.slots[n].claim.value.id !in c.issued
         && c1.slots[n].claim.value.id.Minted? && c1.slots[n].claim.value.id.birthdate == c.birthdate
         && c1.slots[n].claim.value == MintClaim(c1.slots[n].claim.value.id)
       else c1.slots[n].claim == c.slots[n].claim
  }

  lemma UnclaimGoesBack(c: Core, n: SlotName, now: int, mint: bool)
    requires Structure(c) && n in c.slots
    ensures var out := UnclaimAndSave(c, n, now, mint);
            && BackToUnclaimed(c, out.core, n, now, mint) && OnlyAt(c, out.core, n)
            && (c.slots[n].claim.Some? || mint ==> SavesNow(out, n))
            && At(out.core, n) == At(c, n).(slot := Some(out.core.slots[n]))
  {
    hide Registry, Ids, Children, RecordOf, OnlyAt, BackToUnclaimed, Unclaim;
    FreshIsNew(c);
    UnclaimedTable(c, n, now, mint);
    UnclaimedSlot(c, n, now, mint);
  }

  lemma UnclaimedSlot(c: Core, n: SlotName, now: int, mint: bool)
    requires n in c.slots && c.FreshId() !in c.issued
    ensures var c1 := Unclaim(c, n, now, mint);
            BackToUnclaimed(c, c1, n, now, mint) && n in c1.slots && (c.slots[n].claim.Some? || mint ==> c1.slots[n].claim.Some?)
  {
  }

  lemma UnclaimedTable(c: Core, n: SlotName, now: int, mint: bool)
    requires n in c.slots
    ensures var c1 := Unclaim(c, n, now, mint); OnlyAt(c, c1, n) && n in c1.slots && At(c1, n) == At(c, n).(slot := Some(c1.slots[n]))
  {
  }

  /** The timeout of the match the slot is in ends it; any other timeout leaves the slots alone. */
  lemma TimeoutUnmatches(c: Core, n: SlotName, id: ClaimId, now: int, mint: bool)
    requires Structure(c)
    ensures var out := Step(c, MatchTimeout(n, id, now, mint));
            && (n in c.slots ==> n !in out.core.timers) && OnlyAt(c, out.core, n)
            && if MatchedUnder(c, n, id) then BackToUnclaimed(c, out.core, n, now, mint) && SavesNow(out, n)
               else out.core.slots == c.slots && out.ops == []
  {
    hide Structure, UnclaimAndSave, BackToUnclaimed, SavesNow;
    if n in c.slots {
      SameStructure(c, DropTimer(c, n));
      UnclaimGoesBack(DropTimer(c, n), n, now, mint);
      SameSlotsBack(DropTimer(c, n), c, UnclaimAndSave(DropTimer(c, n), n, now, mint).core, n, now, mint);
    }
  }

  lemma SameStructure(c: Core, c0: Core)
    requires Structure(c) && c0.slots == c.slots && c0.fixed == c.fixed && c0.dyn == c.dyn && c0.dslotSeq == c.dslotSeq
    requires c0.issued == c.issued && c0.birthdate == c.birthdate && c0.mintSerial == c.mintSerial
    ensures Structure(c0)
  {
  }

  lemma SameSlotsBack(c0: Core, c: Core, c1: Core, n: SlotName, now: int, mint: bool)
    requires n in c0.slots && BackToUnclaimed(c0, c1, n, now, mint)
    requires c0.slots == c.slots && c0.issued == c.issued && c0.birthdate == c.birthdate && c0.mintSerial == c.mintSerial
    ensures BackToUnclaimed(c, c1, n, now, mint)
  {
  }

  // ------------------------------------------------------------------------- releasing

  /** What a p-slot has after getting share back: no more than its full allocation. */
  predicate GivenBack(s: Slot, s1: Slot, share: Resources) {
    && s1.full == s.full && s1.kind == s.kind && s1.claim == s.claim && s1.state == s.state && s1.activity == s.activity
    && s1.res.cpus == (if s.res.cpus + share.cpus <= s.full.cpus then s.res.cpus + share.cpus else s.full.cpus)
    && s1.res.memory == (if s.res.memory + share.memory <= s.full.memory then s.res.memory + share.memory else s.full.memory)
    && s1.res.disk == (if s.res.disk + share.disk <= s.full.disk then s.res.disk + share.disk else s.full.disk)
  }

  /** A dynamic slot is gone, its share back with its parent and its record deleted. */
  ghost predicate Destroyed(c: Core, out: Outcome, d: SlotName)
    requires d in c.slots && c.slots[d].IsDynamic() && c.slots[d].kind.parent in c.slots
  {
    var p := c.slots[d].kind.parent;
    && d !in out.core.slots && p in out.core.slots && GivenBack(c.slots[p], out.core.slots[p], c.slots[d].res)
    && (forall m :: m != d && m != p ==> At(out.core, m) == At(c, m))
    && out.ops == [Delete(d)] + (if out.core.slots[p].claim.Some? then [Save(RecordOf(out.core, p))] else [])
  }

  lemma DestroyGivesBack(c: Core, d: SlotName)
    requires d in c.slots && c.slots[d].IsDynamic() && c.slots[d].kind.parent in c.slots && c.slots[d].kind.parent != d
    ensures Destroyed(c, Destroy(c, d), d)
    ensures var c1 := Destroy(c, d).core; c1.acts == c.acts && c1.alive == c.alive && c1.timers == c.timers
  {
    hide ChildIds, Remove, RecordOf;
  }

  /** A release ends whatever runs for the slot; a dynamic slot is destroyed, another one goes back to Unclaimed. */
  ghost predicate Released(c: Core, out: Outcome, n: SlotName, now: int, mint: bool)
    requires n in c.slots && (c.slots[n].IsDynamic() ==> c.slots[n].kind.parent in c.slots)
  {
    && n !in out.core.acts && n !in out.core.alive && n !in out.core.timers
    && if c.slots[n].IsDynamic() then Destroyed(c, out, n)
       else
         && BackToUnclaimed(c, out.core, n, now, mint) && OnlyAt(c, out.core, n)
         && (c.slots[n].claim.Some? || mint ==> SavesNow(out, n))
  }

  lemma DynamicReleases(c: Core, n: SlotName, now: int, mint: bool)
    requires n in c.slots && c.slots[n].IsDynamic() && c.slots[n].kind.parent in c.slots && c.slots[n].kind.parent != n
    ensures Released(c, Release(c, n, now, mint), n, now, mint)
  {
    hide Destroy, Destroyed;
    DestroyGivesBack(Detach(c, n), n);
    DetachedOthers(c, Detach(c, n), Destroy(Detach(c, n), n), n);
  }

  lemma ConfiguredReleases(c: Core, n: SlotName, now: int, mint: bool)
    requires Structure(c) && n in c.slots && !c.slots[n].IsDynamic()
    ensures Released(c, Release(c, n, now, mint), n, now, mint)
  {
    hide Structure, UnclaimAndSave, BackToUnclaimed, SavesNow, Destroy;
    var c0 := Detach(c, n);
    SameStructure(c, c0);
    UnclaimGoesBack(c0, n, now, mint);
    SameSlotsBack(c0, c, UnclaimAndSave(c0, n, now, mint).core, n, now, mint);
    DetachedThere(c, UnclaimAndSave(c0, n, now, mint).core, n);
  }

  lemma DetachedThere(c: Core, c1: Core, n: SlotName)
    requires n in c1.slots && OnlyAt(Detach(c, n), c1, n) && At(c1, n) == At(Detach(c, n), n).(slot := Some(c1.slots[n]))
    ensures n !in c1.acts && n !in c1.alive && n !in c1.timers && OnlyAt(c, c1, n)
  {
    assert At(c1, n).act == None && At(c1, n).alive == None && At(c1, n).timer == None;
    forall m | m != n ensures At(c1, m) == At(c, m) {
      assert At(c1, m) == At(Detach(c, n), m);
    }
  }

  lemma ReleaseReleases(c: Core, n: SlotName, now: int, mint: bool)
    requires Structure(c) && n in c.slots
    ensures c.slots[n].IsDynamic() ==> c.slots[n].kind.parent in c.slots
    ensures Released(c, Release(c, n, now, mint), n, now, mint)
  {
    hide Release, Released, Ids, Children, Registry;
    if c.slots[n].IsDynamic() {
      DynamicIsListed(c, n);
      DynamicReleases(c, n, now, mint);
    } else {
      ConfiguredReleases(c, n, now, mint);
    }
  }

  lemma DetachedOthers(c: Core, c0: Core, out: Outcome, d: SlotName)
    requires d in c.slots && c.slots[d].IsDynamic() && c.slots[d].kind.parent in c.slots && c0 == Detach(c, d)
    requires Destroyed(c0, out, d)
    ensures Destroyed(c, out, d)
  {
    hide RecordOf, GivenBack;
    forall m | m != d && m != c.slots[d].kind.parent ensures At(out.core, m) == At(c, m) {
      assert At(out.core, m) == At(c0, m);
    }
  }

  /** RELEASE_CLAIM and a lost lease release the slot that holds the id or bears the name. */
  lemma ReleaseEventsRelease(c: Core, ev: Event, n: SlotName)
    requires Structure(c) && n in c.slots && ((ev.ReleaseClaim? && HoldsAt(c, n, ev.id)) || (ev.ReleaseSlot? && ev.name == n))
    ensures c.slots[n].IsDynamic() ==> c.slots[n].kind.parent in c.slots
    ensures Released(c, Step(c, ev), n, ev.now, ev.mint)
  {
    hide Structure, FindIn, Release, Released;
    if ev.ReleaseClaim? { FindIsUnique(c, ev.id, n); }
    ReleaseReleases(c, n, ev.now, ev.mint);
  }

  // --------------------------------------------------------------------- lease and reports

  /** A lease lasts the keepalive interval times the number of keepalives that may be missed; six and a second by default. */
  predicate LeaseIs(lease: int, now: int, interval: int, missed: int) {
    && (interval > 0 && missed > 0 ==> lease == now + missed * interval)
    && (interval > 0 && missed <= 0 ==> lease == now + 6 * interval)
    && (interval <= 0 && missed > 0 ==> lease == now + missed)
    && (interval <= 0 && missed <= 0 ==> lease == now + 6)
  }

  /** Only the claim record of n has changed, to k. */
  predicate OnlyClaim(c: Core, out: Outcome, n: SlotName, k: Claim)
    requires n in c.slots
  {
    out.core == c.(slots := c.slots[n := c.slots[n].(claim := Some(k))]) && out.ops == []
  }

  /** A keepalive extends the lease of a claimed slot from now on; nothing is saved. */
  lemma KeepaliveExtends(c: Core, n: SlotName, now: int)
    ensures var out := Step(c, AliveOk(n, now));
            if !c.Claimed(n) then Nothing(c, out)
            else
              var k := c.slots[n].claim.value;
              exists lease :: LeaseIs(lease, now, k.schedd.aliveInterval, c.config.alivesMissed) && OnlyClaim(c, out, n, k.(lease := lease))
  {
    var lease := now + LeaseSeconds(ClaimAt(c, n).schedd.aliveInterval, c.config.alivesMissed);
    assert c.Claimed(n) ==> LeaseIs(lease, now, c.slots[n].claim.value.schedd.aliveInterval, c.config.alivesMissed);
  }

  /** A starter's update or final report is kept with the claim of its slot, if that is claimed. */
  lemma ReportsAreKept(c: Core, n: SlotName, ad: string, report: FinalReport)
    ensures var out := Step(c, StarterUpdate(n, ad));
            if c.Claimed(n) then OnlyClaim(c, out, n, c.slots[n].claim.value.(update := ad)) else Nothing(c, out)
    ensures var out := Step(c, StarterFinal(n, report));
            if c.Claimed(n) then OnlyClaim(c, out, n, c.slots[n].claim.value.(final := Some(report))) else Nothing(c, out)
  {
  }

  // ---------------------------------------------------------------------------- starters

  /** The claim of n, which was Busy, is Idle again, with that final report, and saved. */
  predicate IdleAgain(c: Core, out: Outcome, n: SlotName, final: Option<FinalReport>, now: int)
    requires n in c.slots && c.slots[n].claim.Some?
  {
    && n in out.core.slots && n !in out.core.acts && SameShare(c.slots[n], out.core.slots[n])
    && out.core.slots[n].state == Claimed && out.core.slots[n].activity == Idle && out.core.slots[n].entered == now
    && out.core.slots[n].claim == Some(c.slots[n].claim.value.(state := ClaimedIdle, entered := now, final := final))
    && SavesNow(out, n)
  }

  /** A stashed reply to DEACTIVATE_CLAIM_JOB_DONE for n, and no other, is let go. */
  predicate LetsGo(c: Core, c1: Core, n: SlotName) {
    && n !in c1.deferred && c1.deferred == c.deferred - {n}
    && c1.closedWaits == c.closedWaits + (if n in c.deferred then {c.deferred[n]} else {})
  }

  lemma IdleSlotIdles(c: Core, c0: Core, n: SlotName, final: Option<FinalReport>, now: int)
    requires IsBusy(c, n) && c0.slots == c.slots && n !in c0.acts
    ensures var out := IdleSlot(c0, n, final, now);
            && IdleAgain(c, out, n, final, now) && OnlyAt(c0, out.core, n)
            && out.core == c0.(slots := out.core.slots)
  {
    hide RecordOf;
  }

  /** A starter's exit: its activation is gone, its slot idle under the same claim, its report kept, a stashed reply let go. */
  lemma ExitIdles(c: Core, n: SlotName, now: int)
    requires Sane(At(c, n))
    ensures var out := Step(c, StarterExited(n, now));
            && LetsGo(c, out.core, n) && OnlyAt(c, out.core, n)
            && if n in c.acts then
                 && n in c.slots && c.slots[n].claim.Some?
                 && IdleAgain(c, out, n, c.slots[n].claim.value.final, now) && out.core.alive == c.alive && out.core.timers == c.timers
               else out.core.slots == c.slots && out.core.acts == c.acts && out.ops == []
  {
    hide IdleAgain, IdleSlot, OnlyAt, ReleaseDeferred, LetsGo;
    var c0 := ReleaseDeferred(if n in c.acts then DropAct(c, n) else c, n);
    DeferredLetGo(c, n);
    DeferredLetGo(DropAct(c, n), n);
    if n in c.acts {
      IdleSlotIdles(c, c0, n, ClaimAt(c, n).final, now);
      SameElsewhere(c, c0, IdleSlot(c0, n, ClaimAt(c, n).final, now).core, n);
      LetGoAnyway(c, c0, IdleSlot(c0, n, ClaimAt(c, n).final, now).core, n);
    }
  }

  lemma DeferredLetGo(c: Core, n: SlotName)
    ensures var c1 := ReleaseDeferred(c, n);
            LetsGo(c, c1, n) && OnlyAt(c, c1, n) && c1 == c.(deferred := c1.deferred, closedWaits := c1.closedWaits)
  {
    assert n !in c.deferred ==> c.deferred - {n} == c.deferred;
  }

  lemma LetGoAnyway(c: Core, c0: Core, c1: Core, n: SlotName)
    requires LetsGo(DropAct(c, n), c0, n) && c1.deferred == c0.deferred && c1.closedWaits == c0.closedWaits
    ensures LetsGo(c, c1, n)
  {
  }

  lemma SameElsewhere(c: Core, c0: Core, c1: Core, n: SlotName)
    requires OnlyAt(c0, c1, n) && c0.slots == c.slots && c0.alive == c.alive && c0.timers == c.timers && c0.acts == c.acts - {n}
    ensures OnlyAt(c, c1, n)
  {
    forall m | m != n ensures At(c1, m) == At(c, m) {
      assert At(c1, m) == At(c0, m);
    }
  }

  /** A redial that failed: with an exit marker the job is over and the claim idle, without one the slot is released. */
  lemma RedialFailureRecovers(c: Core, n: SlotName, marker: Option<FinalReport>, now: int, mint: bool)
    requires Structure(c) && Sane(At(c, n))
    ensures var out := Step(c, AdoptFailed(n, marker, now, mint));
            if n !in c.acts then Nothing(c, out)
            else
              && n in c.slots && c.slots[n].claim.Some? && (c.slots[n].IsDynamic() ==> c.slots[n].kind.parent in c.slots)
              && if marker.None? then Released(c, out, n, now, mint)
                 else IdleAgain(c, out, n, marker, now) && OnlyAt(c, out.core, n)
  {
    hide Structure, Release, Released, IdleAgain, IdleSlot;
    if n in c.acts {
      ReleaseReleases(c, n, now, mint);
      IdleSlotIdles(c, DropAct(c, n), n, marker, now);
      SameElsewhere(c, DropAct(c, n), IdleSlot(DropAct(c, n), n, marker, now).core, n);
    }
  }

  /** A Hello leaves the starter's address and pid on record, each only if it was given, and saves them if they are news. */
  lemma HelloIsRecorded(c: Core, n: SlotName, addr: string, pid: int)
    requires Sane(At(c, n))
    ensures var out := Step(c, StarterHello(n, addr, pid));
            var c1 := out.core;
            if n !in c.acts then Nothing(c, out)
            else
              && c1 == c.(acts := c.acts[n := c1.acts[n]]) && c1.acts[n] == c.acts[n].(link := c1.acts[n].link)
              && SameLinkBut(c.acts[n].link, c1.acts[n].link)
              && c1.acts[n].link.starterAddr == (if addr == "" then c.acts[n].link.starterAddr else addr)
              && c1.acts[n].link.starterPid == (if pid == 0 then c.acts[n].link.starterPid else pid)
              && (if c1 == c then out.ops == [] else SavesNow(out, n))
  {
    hide RecordOf;
    assert n in c.acts ==> c.acts == c.acts[n := c.acts[n]];
  }

  predicate SameLinkBut(a: Link, b: Link) {
    a.sandbox == b.sandbox && a.jobAd == b.jobAd && a.globalJobId == b.globalJobId && a.socket == b.socket
  }

  // ---------------------------------------------------------------------------- vacating

  /** A vacate leaves its own message in an empty box and nothing in a full one; only that activation is marked. */
  lemma VacateIsOffered(c: Core, n: SlotName, hard: bool)
    ensures var out := Step(c, Vacate(n, hard));
            if n !in c.acts then Nothing(c, out)
            else
              && out.ops == [] && n in out.core.acts && out.core == c.(acts := c.acts[n := out.core.acts[n]])
              && out.core.acts[n] == c.acts[n].(vacating := true, box := out.core.acts[n].box)
              && out.core.acts[n].box == match c.acts[n].box
                                         case Some(m) => Some(m)
                                         case None => Some(if hard then VacateHard else VacateSoft)
  {
  }

  /** An escalation offers a hard vacate to the activation of that generation; the supervisor takes what is there. */
  lemma EscalationAndTaking(c: Core, n: SlotName, gen: nat)
    ensures var out := Step(c, VacateEscalate(n, gen));
            if n !in c.acts || c.acts[n].gen != gen then Nothing(c, out)
            else out.ops == [] && out.core == c.(acts := c.acts[n := c.acts[n].(box := if c.acts[n].box.None? then Some(VacateHard) else c.acts[n].box)])
    ensures var out := Step(c, VacateTaken(n));
            if n !in c.acts then Nothing(c, out) else out.ops == [] && out.core == c.(acts := c.acts[n := c.acts[n].(box := None)])
  {
    assert n in c.acts ==> c.acts == c.acts[n := c.acts[n]];
  }

  // ----------------------------------------------------------------------------- records

  /** A claimed slot's record says what re-adoption needs: installing it gives the very claim back, lease included. */
  lemma RecordReadsBack(c: Core, n: SlotName)
    requires Coherent(At(c, n)) && c.Claimed(n)
    ensures AdoptedClaim(RecordOf(c, n)) == c.slots[n].claim.value.(update := "", final := None)
    ensures var rec := RecordOf(c, n);
            && rec.name == n && rec.state == c.slots[n].state && rec.activity == c.slots[n].activity && rec.kind == c.slots[n].kind
            && (c.slots[n].IsDynamic() ==> rec.res == c.slots[n].res) && (n in c.acts ==> rec.link == c.acts[n].link)
  {
  }
}
