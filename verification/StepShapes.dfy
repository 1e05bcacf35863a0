/** Every step of the core has one of five shapes; what later modules need is read off the shape. */
module StepShapes {
  import opened Basics
  import opened Slots
  import opened CoreModel
  import opened CoreInvariant

  /** Which slot an event acts on, and how. */
  datatype Shape =
    | Edits(n: SlotName)     // n keeps its claim id and its resources
    | Resets(n: SlotName)    // n goes back to Unclaimed under its old claim id: minting failed
    | Reissues(n: SlotName)  // n goes back to Unclaimed under a fresh claim id
    | Carves(p: SlotName)    // a dynamic slot is carved out of p
    | Destroys(d: SlotName)  // dynamic slot d is destroyed

  function Found(c: Core, id: ClaimId): SlotName { if Find(c, id).Some? then Find(c, id).value else Configured(0) }

  function ShapeOfRelease(c: Core, n: SlotName, mint: bool): Shape {
    if n !in c.slots then Edits(n)
    else if c.slots[n].IsDynamic() then Destroys(n)
    else if mint then Reissues(n)
    else Resets(n)
  }

  function ShapeOf(c: Core, ev: Event): Shape {
    match ev
    case MatchInfo(id, _) => Edits(Found(c, id))
    case MatchTimeout(n, id, _, mint) =>
      if n in c.slots && c.slots[n].state == Matched && c.slots[n].Holds(id)
      then (if mint then Reissues(n) else Resets(n)) else Edits(n)
    case RequestClaim(id, ask, _, mint) =>
      if Find(c, id).Some? && CarvesAt(c, Find(c, id).value, ask, mint) then Carves(Find(c, id).value)
      else Edits(Found(c, id))
    case ReleaseClaim(id, _, mint) =>
      if Find(c, id).Some? then ShapeOfRelease(c, Find(c, id).value, mint) else Edits(Configured(0))
    case ReleaseSlot(n, _, mint) => ShapeOfRelease(c, n, mint)
    case AdoptFailed(n, marker, _, mint) =>
      if n in c.acts && n in c.slots && marker.None? then ShapeOfRelease(c, n, mint) else Edits(n)
    case ActivateClaim(id, _, _) => Edits(Found(c, id))
    case Deactivate(id, _) => Edits(Found(c, id))
    case _ => Edits(ev.name)
  }

  predicate CarvesAt(c: Core, n: SlotName, ask: ClaimRequest, mint: bool) {
    && n in c.slots && c.slots[n].claim.Some? && c.slots[n].claim.value.state == NotClaimed
    && c.slots[n].kind.Partitionable?
    && ask.willing && ask.stillWilling && c.slots[n].CanCarve(Requested(ask.want)) && mint
  }

  // -------------------------------------------------- slots that keep their place

  /** How far a claim has come: Unclaimed, Matched, Claimed. */
  function Rank(s: Slot): nat { if s.HasClaimed() then 2 else if s.state == Matched then 1 else 0 }

  predicate SameShare(s: Slot, t: Slot) {
    s.kind == t.kind && s.res == t.res && s.full == t.full && s.children == t.children
  }

  predicate SlotEdit(a: Option<Slot>, b: Option<Slot>) {
    match a
    case None => b.None?
    case Some(s) => b.Some? && SameShare(s, b.value) && Key(s) == Key(b.value)
  }

  /** A slot that is Claimed/Busy with no starter to show for it. */
  predicate Stray(e: Entry) {
    e.slot.Some? && e.slot.value.claim.Some? && e.slot.value.claim.value.state == ClaimedBusy && e.act.None?
  }

  /** A claim that stays only moves forward, and no starter is lost from a slot that stays Busy. */
  predicate Advances(e: Entry, f: Entry) {
    && (e.slot.Some? && f.slot.Some? ==> Rank(e.slot.value) <= Rank(f.slot.value))
    && (Stray(f) ==> Stray(e))
  }

  /** A running activation stays what it is until it goes; a new one takes the next generation. */
  predicate ActEdit(a: Option<Activation>, b: Option<Activation>, gen: nat, gen1: nat) {
    && gen <= gen1 <= gen + 1
    && (b.Some? ==> (a.Some? && SameRun(a.value, b.value)) || (gen1 == gen + 1 && b.value.gen == gen1))
  }

  predicate SameRun(x: Activation, y: Activation) {
    && x.gen == y.gen && x.adopted == y.adopted
    && x.link.sandbox == y.link.sandbox && x.link.jobAd == y.link.jobAd
    && x.link.globalJobId == y.link.globalJobId && x.link.socket == y.link.socket
  }

  /** What no event changes. */
  predicate SameStartd(c: Core, c1: Core) {
    c1.config == c.config && c1.birthdate == c.birthdate && c1.fixed == c.fixed
  }

  ghost predicate Edited(c: Core, c1: Core, n: SlotName) {
    && SameStartd(c, c1) && c1.dyn == c.dyn && c1.dslotSeq == c.dslotSeq
    && c1.issued == c.issued && c1.mintSerial >= c.mintSerial
    && OnlyAt(c, c1, n)
    && SlotEdit(Get(c.slots, n), Get(c1.slots, n))
    && ActEdit(Get(c.acts, n), Get(c1.acts, n), c.gen, c1.gen)
  }

  ghost predicate Reissued(c: Core, c1: Core, n: SlotName) {
    && SameStartd(c, c1) && c1.dyn == c.dyn && c1.dslotSeq == c.dslotSeq && c1.gen == c.gen
    && c1.issued == c.issued[c.FreshId() := n] && c1.mintSerial == c.mintSerial + 1
    && OnlyAt(c, c1, n)
    && n in c.slots && n in c1.slots && n !in c1.acts && !c.slots[n].IsDynamic()
    && SameShare(c.slots[n], c1.slots[n]) && Key(c1.slots[n]) == Some(c.FreshId()) && Rank(c1.slots[n]) == 0
  }

  /** The shape an event announces is the shape its step has. */
  ghost predicate HasShape(c: Core, c1: Core, ev: Event) {
    match ShapeOf(c, ev)
    case Edits(n) => Edited(c, c1, n) && Advances(At(c, n), At(c1, n))
    case Resets(n) => Edited(c, c1, n) && n in c.slots && !c.slots[n].IsDynamic() && n !in c1.acts
    case Reissues(n) => Reissued(c, c1, n)
    case Carves(p) =>
      && ev.RequestClaim? && CarvesAt(c, p, ev.ask, ev.mint)
      && c1 == CarveSlot(DropTimer(c, p), p, ev.ask, ev.now).core
    case Destroys(d) =>
      d in c.slots && c.slots[d].IsDynamic() && c1 == Destroy(Detach(c, d), d).core
  }

  // ------------------------------------------------------------------ the handlers

  lemma SameIsEdit(c: Core, n: SlotName)
    ensures Edited(c, c, n) && Advances(At(c, n), At(c, n))
  {
  }

  lemma MatchSlotShape(c: Core, n: SlotName, id: ClaimId, now: int)
    requires n in c.slots && c.slots[n].state == Unclaimed
    ensures var c1 := MatchSlot(c, n, id, now).core; Edited(c, c1, n) && Advances(At(c, n), At(c1, n))
  {
    hide Persist;
  }

  lemma AcceptSlotShape(c: Core, n: SlotName, ask: ClaimRequest, now: int)
    requires n in c.slots && c.slots[n].claim.Some?
    ensures var c1 := AcceptSlot(DropTimer(c, n), n, ask, now).core;
            Edited(c, c1, n) && Advances(At(c, n), At(c1, n))
  {
    hide Persist;
  }

  lemma BusyShape(c: Core, n: SlotName, a: Activation, now: int, seqNo: nat)
    requires n in c.slots && c.slots[n].HasClaimed() && a.gen == c.gen + 1
    ensures var c1 := c.(sandboxSeq := seqNo, gen := c.gen + 1, acts := c.acts[n := a]).Put(n, c.slots[n].SetBusy(now));
            Edited(c, c1, n) && Advances(At(c, n), At(c1, n))
  {
  }

  lemma ActivateSlotShape(c: Core, n: SlotName, job: JobRequest, now: int)
    requires n in c.slots && c.slots[n].claim.Some? && c.slots[n].claim.value.state == ClaimedIdle
    ensures var c1 := ActivateSlot(c.(sandboxSeq := c.sandboxSeq + 1), n, job, now).core;
            Edited(c, c1, n) && Advances(At(c, n), At(c1, n))
  {
    hide Persist, Edited, Advances;
    var c0 := c.(sandboxSeq := c.sandboxSeq + 1);
    var a := FreshActivation(c0, n, job);
    BusyShape(c, n, a, now, c.sandboxSeq + 1);
    CountersShape(c, n, c.sandboxSeq + 1, c.gen);
    CountersShape(c, n, c.sandboxSeq + 1, c.gen + 1);
  }

  lemma CountersShape(c: Core, n: SlotName, seqNo: nat, gen: nat)
    requires c.gen <= gen <= c.gen + 1
    ensures var c1 := c.(sandboxSeq := seqNo, gen := gen); Edited(c, c1, n) && Advances(At(c, n), At(c1, n))
  {
  }

  lemma UnclaimShape(c: Core, n: SlotName, now: int, mint: bool)
    requires n in c.slots && !c.slots[n].IsDynamic()
    ensures var c1 := UnclaimAndSave(Detach(c, n), n, now, mint).core;
            if mint then Reissued(c, c1, n) else Edited(c, c1, n) && n !in c1.acts
  {
    hide Persist;
  }

  lemma TimeoutShape(c: Core, n: SlotName, now: int, mint: bool)
    requires n in c.slots && !c.slots[n].IsDynamic() && n !in c.acts
    ensures var c1 := UnclaimAndSave(DropTimer(c, n), n, now, mint).core;
            if mint then Reissued(c, c1, n) else Edited(c, c1, n) && n !in c1.acts
  {
    hide Persist;
  }

  lemma ReleaseShape(c: Core, n: SlotName, now: int, mint: bool)
    requires n in c.slots
    ensures var c1 := Release(c, n, now, mint).core;
            match ShapeOfRelease(c, n, mint)
            case Destroys(d) => d == n && c1 == Destroy(Detach(c, n), n).core
            case Reissues(m) => m == n && Reissued(c, c1, n)
            case Resets(m) => m == n && Edited(c, c1, n) && n !in c1.acts
            case _ => false
  {
    hide Destroy, UnclaimAndSave, Edited, Reissued;
    if !c.slots[n].IsDynamic() { UnclaimShape(c, n, now, mint); }
  }

  lemma IdleShape(c: Core, n: SlotName, final: Option<FinalReport>, now: int)
    ensures var c1 := IdleSlot(ReleaseDeferred(DropAct(c, n), n), n, final, now).core;
            Edited(c, c1, n) && Advances(At(c, n), At(c1, n))
    ensures var c1 := IdleSlot(DropAct(c, n), n, final, now).core;
            Edited(c, c1, n) && Advances(At(c, n), At(c1, n))
  {
    hide Persist;
    IdleShapeOf(c, ReleaseDeferred(DropAct(c, n), n), n, final, now);
    IdleShapeOf(c, DropAct(c, n), n, final, now);
  }

  lemma IdleShapeOf(c: Core, c0: Core, n: SlotName, final: Option<FinalReport>, now: int)
    requires c0.config == c.config && c0.birthdate == c.birthdate && c0.fixed == c.fixed && c0.dyn == c.dyn
    requires c0.dslotSeq == c.dslotSeq && c0.issued == c.issued && c0.mintSerial == c.mintSerial && c0.gen == c.gen
    requires c0.slots == c.slots && c0.alive == c.alive && c0.timers == c.timers && c0.acts == c.acts - {n}
    ensures var c1 := IdleSlot(c0, n, final, now).core;
            Edited(c, c1, n) && Advances(At(c, n), At(c1, n))
  {
    IdleOnlyAt(c, c0, n, final, now);
    IdleEntry(c, c0, n, final, now);
    hide Persist, OnlyAt, SlotEdit, ActEdit, Advances, At;
  }

  /** A Busy slot whose starter is gone, as it goes back to Idle. */
  function Idled(s: Slot, final: Option<FinalReport>, now: int): Slot
    requires s.claim.Some?
  {
    s.(claim := Some(s.claim.value.(final := final))).SetIdle(now)
  }

  lemma IdledSlot(s: Slot, final: Option<FinalReport>, now: int)
    requires s.claim.Some? && s.claim.value.state == ClaimedBusy
    ensures var t := Idled(s, final, now);
            SameShare(s, t) && Key(s) == Key(t) && Rank(s) == Rank(t) && t.claim.Some? && t.claim.value.state == ClaimedIdle
  {
  }

  lemma IdleCases(c0: Core, n: SlotName, final: Option<FinalReport>, now: int)
    ensures var c1 := IdleSlot(c0, n, final, now).core;
            if IsBusy(c0, n) then c1 == c0.Put(n, Idled(c0.slots[n], final, now)) else c1 == c0
  {
    hide Persist, Slot.SetIdle;
  }

  lemma IdleEntry(c: Core, c0: Core, n: SlotName, final: Option<FinalReport>, now: int)
    requires c0.slots == c.slots && c0.acts == c.acts - {n} && c0.gen == c.gen
    ensures var c1 := IdleSlot(c0, n, final, now).core;
            && SlotEdit(Get(c.slots, n), Get(c1.slots, n)) && ActEdit(Get(c.acts, n), Get(c1.acts, n), c.gen, c1.gen)
            && Advances(At(c, n), At(c1, n))
  {
    IdleCases(c0, n, final, now);
    if IsBusy(c0, n) { IdledSlot(c0.slots[n], final, now); }
    hide IdleSlot, Idled, SameShare, Key, Rank;
  }

  lemma IdleOnlyAt(c: Core, c0: Core, n: SlotName, final: Option<FinalReport>, now: int)
    requires c0.slots == c.slots && c0.alive == c.alive && c0.timers == c.timers && c0.acts == c.acts - {n}
    ensures OnlyAt(c, IdleSlot(c0, n, final, now).core, n)
  {
    hide Persist;
    var c1 := IdleSlot(c0, n, final, now).core;
    assert c1.acts == c0.acts && c1.alive == c.alive && c1.timers == c.timers;
  }

  lemma OnClaimedShape(c: Core, n: SlotName, cl: Claim)
    requires c.Claimed(n) ==> cl.id == c.slots[n].claim.value.id && cl.state == c.slots[n].claim.value.state
    ensures var c1 := OnClaimed(c, n, cl); Edited(c, c1, n) && Advances(At(c, n), At(c1, n))
  {
  }

  lemma ActOnlyShape(c: Core, c1: Core, n: SlotName)
    requires exists a :: n in c.acts && SameRun(c.acts[n], a) && c1 == c.(acts := c.acts[n := a])
    ensures Edited(c, c1, n) && Advances(At(c, n), At(c1, n))
  {
  }

  lemma DropTimerShape(c: Core, n: SlotName)
    ensures var c1 := DropTimer(c, n); Edited(c, c1, n) && Advances(At(c, n), At(c1, n))
    ensures var c1 := DropTimer(c, n).(mintSerial := c.mintSerial + 1);
            Edited(c, c1, n) && Advances(At(c, n), At(c1, n))
  {
  }

  lemma HelloShape(c: Core, n: SlotName, addr: string, pid: int)
    ensures var c1 := DoStarterHello(c, n, addr, pid).core; Edited(c, c1, n) && Advances(At(c, n), At(c1, n))
  {
    hide Persist, Edited, Advances;
    SameIsEdit(c, n);
    var c1 := DoStarterHello(c, n, addr, pid).core;
    if c1 != c {
      assert SameRun(c.acts[n], c1.acts[n]) && c1 == c.(acts := c.acts[n := c1.acts[n]]);
      ActOnlyShape(c, c1, n);
    }
  }

  lemma VacateShape(c: Core, n: SlotName, a: Activation)
    requires n in c.acts && SameRun(c.acts[n], a)
    ensures var c1 := c.(acts := c.acts[n := a]); Edited(c, c1, n) && Advances(At(c, n), At(c1, n))
  {
  }

  lemma DeactivateShape(c: Core, id: ClaimId, jobDone: bool)
    ensures var c1 := DoDeactivate(c, id, jobDone).core;
            Edited(c, c1, Found(c, id)) && Advances(At(c, Found(c, id)), At(c1, Found(c, id)))
  {
    hide FindIn;
  }

  lemma MatchInfoShape(c: Core, id: ClaimId, now: int)
    ensures var c1 := DoMatchInfo(c, id, now).core;
            Edited(c, c1, Found(c, id)) && Advances(At(c, Found(c, id)), At(c1, Found(c, id)))
  {
    hide FindIn, MatchSlot, Edited, Advances;
    FindInFinds(c.slots, c.Live(), id);
    SameIsEdit(c, Found(c, id));
    if Find(c, id).Some? && c.slots[Find(c, id).value].state == Unclaimed {
      MatchSlotShape(c, Find(c, id).value, id, now);
    }
  }

  lemma RequestShape(c: Core, id: ClaimId, ask: ClaimRequest, now: int, mint: bool)
    ensures HasShape(c, DoRequestClaim(c, id, ask, now, mint).core, RequestClaim(id, ask, now, mint))
  {
    hide FindIn, AcceptSlot, CarveSlot, Edited, Advances;
    FindInFinds(c.slots, c.Live(), id);
    var n := Found(c, id);
    SameIsEdit(c, n);
    DropTimerShape(c, n);
    if Find(c, id).Some? { AcceptSlotShape(c, n, ask, now); }
  }

  lemma ActivateShape(c: Core, id: ClaimId, job: JobRequest, now: int)
    ensures var c1 := DoActivateClaim(c, id, job, now).core;
            Edited(c, c1, Found(c, id)) && Advances(At(c, Found(c, id)), At(c1, Found(c, id)))
  {
    hide FindIn, ActivateSlot, Edited, Advances;
    FindInFinds(c.slots, c.Live(), id);
    SameIsEdit(c, Found(c, id));
    if Find(c, id).Some? && c.slots[Find(c, id).value].claim.value.state == ClaimedIdle {
      ActivateSlotShape(c, Find(c, id).value, job, now);
    }
  }

  lemma MatchTimeoutShape(c: Core, n: SlotName, id: ClaimId, now: int, mint: bool)
    requires Sane(At(c, n))
    ensures HasShape(c, DoMatchTimeout(c, n, id, now, mint).core, MatchTimeout(n, id, now, mint))
  {
    hide UnclaimAndSave, Edited, Reissued, Advances;
    SameIsEdit(c, n);
    DropTimerShape(c, n);
    if n in c.slots && c.slots[n].state == Matched && c.slots[n].Holds(id) { TimeoutShape(c, n, now, mint); }
  }

  lemma ReleaseEventShape(c: Core, ev: Event)
    requires ev.ReleaseClaim? || ev.ReleaseSlot?
    ensures HasShape(c, Step(c, ev).core, ev)
  {
    hide FindIn, Release, Destroy, Edited, Reissued, Advances;
    if ev.ReleaseClaim? {
      FindInFinds(c.slots, c.Live(), ev.id);
      SameIsEdit(c, Configured(0));
      if Find(c, ev.id).Some? { ReleaseShape(c, Find(c, ev.id).value, ev.now, ev.mint); }
    } else {
      SameIsEdit(c, ev.name);
      if ev.name in c.slots { ReleaseShape(c, ev.name, ev.now, ev.mint); }
    }
  }

  lemma AdoptFailedShape(c: Core, n: SlotName, marker: Option<FinalReport>, now: int, mint: bool)
    requires Sane(At(c, n))
    ensures HasShape(c, DoAdoptFailed(c, n, marker, now, mint).core, AdoptFailed(n, marker, now, mint))
  {
    hide Release, Destroy, IdleSlot, Edited, Reissued, Advances;
    SameIsEdit(c, n);
    IdleShape(c, n, marker, now);
    if n in c.slots { ReleaseShape(c, n, now, mint); }
  }

  lemma StarterExitedShape(c: Core, n: SlotName, now: int)
    ensures var c1 := DoStarterExited(c, n, now).core;
            Edited(c, c1, n) && Advances(At(c, n), At(c1, n))
  {
    if n in c.acts {
      hide IdleSlot, Edited, Advances;
      IdleShape(c, n, ClaimAt(c, n).final, now);
    }
  }

  /** Every step has the shape its event announces. */
  lemma StepHasShape(c: Core, ev: Event)
    requires AllSane(c)
    ensures HasShape(c, Step(c, ev).core, ev)
  {
    hide FindIn, Edited, Reissued, Advances, Sane, DoMatchInfo, DoMatchTimeout, DoRequestClaim, DoActivateClaim, Release,
      DoStarterExited, DoStarterHello, DoAdoptFailed, DoDeactivate, OnClaimed;
    match ev
    case MatchInfo(id, now) => MatchInfoShape(c, id, now);
    case MatchTimeout(n, id, now, mint) => assert Sane(At(c, n)); MatchTimeoutShape(c, n, id, now, mint);
    case RequestClaim(id, ask, now, mint) => RequestShape(c, id, ask, now, mint);
    case ReleaseClaim(_, _, _) => ReleaseEventShape(c, ev);
    case ReleaseSlot(_, _, _) => ReleaseEventShape(c, ev);
    case AliveOk(n, now) => OnClaimedShape(c, n, Extended(ClaimAt(c, n), c.config.alivesMissed, now));
    case ActivateClaim(id, job, now) => ActivateShape(c, id, job, now);
    case StarterUpdate(n, ad) => OnClaimedShape(c, n, ClaimAt(c, n).(update := ad));
    case StarterFinal(n, report) => OnClaimedShape(c, n, ClaimAt(c, n).(final := Some(report)));
    case StarterExited(n, now) => StarterExitedShape(c, n, now);
    case StarterHello(n, addr, pid) => HelloShape(c, n, addr, pid);
    case AdoptFailed(n, marker, now, mint) => assert Sane(At(c, n)); AdoptFailedShape(c, n, marker, now, mint);
    case Deactivate(id, jobDone) => DeactivateShape(c, id, jobDone);
    case Vacate(n, hard) =>
      SameIsEdit(c, n);
      if n in c.acts { VacateShape(c, n, DoVacate(c, n, hard).acts[n]); }
    case VacateEscalate(n, gen) =>
      SameIsEdit(c, n);
      if n in c.acts { VacateShape(c, n, Offer(c.acts[n], VacateHard)); }
    case VacateTaken(n) =>
      SameIsEdit(c, n);
      if n in c.acts { VacateShape(c, n, c.acts[n].(box := None)); }
  }
}
