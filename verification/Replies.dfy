/** What the core's answers tell the schedd is true of the state they leave behind. */
module Replies {
  import opened Basics
  import opened Slots
  import opened CoreModel
  import opened CoreInvariant
  import opened StepShapes
  import opened Runs
  import opened Effects

  // ------------------------------------------------------------------- REQUEST_CLAIM

  /** n is claimed, idle, by that schedd, under that id, since now, with a full lease, and kept alive for it. */
  predicate ClaimedFor(c: Core, n: SlotName, id: ClaimId, schedd: Schedd, now: int) {
    && n in c.slots && c.slots[n].Holds(id) && c.slots[n].state == Claimed && c.slots[n].activity == Idle && c.slots[n].entered == now
    && c.slots[n].claim.value.state == ClaimedIdle && c.slots[n].claim.value.schedd == schedd && c.slots[n].claim.value.entered == now
    && LeaseIs(c.slots[n].claim.value.lease, now, schedd.aliveInterval, c.config.alivesMissed)
    && n in c.alive && c.alive[n] == Alive(id, schedd.addr, schedd.aliveInterval)
  }

  /** The share carved for a request: what it wants, but at least one Cpu. */
  predicate Grants(want: Resources, res: Resources) {
    && res.memory == want.memory && res.disk == want.disk
    && (want.cpus >= 1 ==> res.cpus == want.cpus) && (want.cpus < 1 ==> res.cpus == 1)
  }

  /** A p-slot with this much left can satisfy the request. */
  predicate Suffices(res: Resources, want: Resources) {
    1 <= res.cpus && want.cpus <= res.cpus && want.memory <= res.memory && want.disk <= res.disk
  }

  /** The p-slot has so much less, and keeps everything else but its child list. */
  predicate Gave(s: Slot, s1: Slot, res: Resources) {
    && s1.res.cpus == s.res.cpus - res.cpus && s1.res.memory == s.res.memory - res.memory && s1.res.disk == s.res.disk - res.disk
    && s1 == s.(res := s1.res, children := s1.children)
  }

  /** What an accepted request must have led to, told from outside the handler. */
  ghost predicate Honoured(c: Core, c1: Core, id: ClaimId, ask: ClaimRequest, now: int, reply: Reply) {
    reply.ClaimAccepted? && exists n, held :: HonouredBy(c, c1, id, ask, now, reply, n, held)
  }

  /** n, under claim id held, is the slot the schedd got for presenting id. */
  ghost predicate HonouredBy(c: Core, c1: Core, id: ClaimId, ask: ClaimRequest, now: int, reply: Reply, n: SlotName, held: ClaimId)
    requires reply.ClaimAccepted?
  {
    && ClaimedFor(c1, n, held, ask.schedd, now)
    && (reply.claimed.Some? <==> ask.sendClaimedAd) && (reply.claimed.Some? ==> reply.claimed.value == held)
    && if held == id then HoldsAt(c, n, id) && SameShare(c.slots[n], c1.slots[n]) && OnlyAt(c, c1, n) && reply.leftovers.None?
       else
         // carved: a new slot with the requested share, from a p-slot that can be asked again
         && n !in c.slots && c1.slots[n].kind.CarvedFrom? && Grants(ask.want, c1.slots[n].res) && c1.slots[n].full == c1.slots[n].res
         && var p := c1.slots[n].kind.parent;
         && HoldsAt(c, p, id) && HoldsAt(c1, p, id) && !c1.Claimed(p) && Gave(c.slots[p], c1.slots[p], c1.slots[n].res)
         && (forall m :: m != n && m != p ==> At(c1, m) == At(c, m))
         && (reply.leftovers.Some? <==> ask.sendLeftovers)
         && (reply.leftovers.Some? ==> reply.leftovers.value == id && (reply.secure <==> ask.secure))
  }

  lemma AcceptIsHonoured(c: Core, n: SlotName, ask: ClaimRequest, now: int)
    requires n in c.slots && c.slots[n].claim.Some? && !c.slots[n].kind.Partitionable?
    ensures var out := AcceptSlot(DropTimer(c, n), n, ask, now);
            Honoured(c, out.core, c.slots[n].claim.value.id, ask, now, out.reply)
  {
    hide Persist;
    var out := AcceptSlot(DropTimer(c, n), n, ask, now);
    assert HonouredBy(c, out.core, c.slots[n].claim.value.id, ask, now, out.reply, n, c.slots[n].claim.value.id);
  }

  lemma CarvedIsClaimed(c: Core, p: SlotName, ask: ClaimRequest, now: int)
    requires p in c.slots && c.slots[p].claim.Some? && c.slots[p].claim.value.state == NotClaimed
    requires DynamicName(p, c.dslotSeq + 1) !in c.slots
    ensures var c1 := CarveSlot(c, p, ask, now).core;
            var d := DynamicName(p, c.dslotSeq + 1);
            && ClaimedFor(c1, d, c.FreshId(), ask.schedd, now)
            && c1.slots[d].kind == CarvedFrom(p, c.dslotSeq + 1) && Grants(ask.want, c1.slots[d].res) && c1.slots[d].full == c1.slots[d].res
            && p in c1.slots && Gave(c.slots[p], c1.slots[p], c1.slots[d].res)
  {
    hide Persist, ChildIds;
  }

  lemma CarvedElsewhere(c: Core, p: SlotName, ask: ClaimRequest, now: int)
    requires p in c.slots && c.slots[p].claim.Some?
    ensures var c1 := CarveSlot(DropTimer(c, p), p, ask, now).core;
            forall m :: m != DynamicName(p, c.dslotSeq + 1) && m != p ==> At(c1, m) == At(c, m)
  {
    hide Persist, ChildIds;
  }

  lemma CarveIsHonoured(c: Core, p: SlotName, ask: ClaimRequest, now: int)
    requires Structure(c) && p in c.slots && c.slots[p].claim.Some? && c.slots[p].claim.value.state == NotClaimed
    ensures var out := CarveSlot(DropTimer(c, p), p, ask, now);
            Honoured(c, out.core, c.slots[p].claim.value.id, ask, now, out.reply)
  {
    hide Registry, Ids, Children, ClaimedFor, CarveSlot, Grants;
    NextNameIsNew(c, p);
    FreshIsNew(c);
    var c0 := DropTimer(c, p);
    CarvedIsClaimed(c0, p, ask, now);
    CarvedElsewhere(c, p, ask, now);
    CarveReply(c0, p, ask, now);
    var out := CarveSlot(c0, p, ask, now);
    assert HonouredBy(c, out.core, c.slots[p].claim.value.id, ask, now, out.reply, DynamicName(p, c.dslotSeq + 1), c.FreshId());
  }

  lemma CarveReply(c: Core, p: SlotName, ask: ClaimRequest, now: int)
    requires p in c.slots && c.slots[p].claim.Some?
    ensures CarveSlot(c, p, ask, now).reply
            == ClaimAccepted(if ask.sendClaimedAd then Some(c.FreshId()) else None,
                             if ask.sendLeftovers then Some(c.slots[p].claim.value.id) else None, ask.secure)
  {
    hide Persist, ChildIds;
  }

  /**
   * REQUEST_CLAIM: an acceptance is honoured by the state it leaves, and names the right ids; a
   * refusal leaves every slot, lease and starter as it was and stores nothing.
   */
  lemma RequestReplyIsTrue(c: Core, id: ClaimId, ask: ClaimRequest, now: int, mint: bool)
    requires Structure(c)
    ensures var out := Step(c, RequestClaim(id, ask, now, mint)); Honoured(c, out.core, id, ask, now, out.reply) || Untouched(c, out, ClaimRefused)
  {
    hide Structure, FindIn, AcceptSlot, CarveSlot, Honoured, CarveClaim;
    FindInFinds(c.slots, c.Live(), id);
    if Find(c, id).Some? && c.slots[Find(c, id).value].claim.value.state == NotClaimed {
      var n := Find(c, id).value;
      if c.slots[n].kind.Partitionable? { CarveOrRefuse(c, n, ask, now, mint); } else { AcceptIsHonoured(c, n, ask, now); }
    }
  }

  /** Refused, and nothing a schedd could notice has changed. */
  predicate Untouched(c: Core, out: Outcome, reply: Reply) {
    out.reply == reply && out.ops == [] && out.core.slots == c.slots && out.core.dyn == c.dyn && out.core.alive == c.alive && out.core.acts == c.acts
  }

  lemma CarveOrRefuse(c: Core, p: SlotName, ask: ClaimRequest, now: int, mint: bool)
    requires Structure(c) && p in c.slots && c.slots[p].claim.Some? && c.slots[p].claim.value.state == NotClaimed
    ensures var out := CarveClaim(DropTimer(c, p), p, ask, now, mint);
            Honoured(c, out.core, c.slots[p].claim.value.id, ask, now, out.reply) || Untouched(c, out, ClaimRefused)
  {
    hide Structure, CarveSlot, Honoured;
    CarveIsHonoured(c, p, ask, now);
  }

  /** It is accepted exactly when the id is current and unclaimed, the slot willing, and a p-slot has enough left and can mint. */
  lemma AcceptedIff(c: Core, id: ClaimId, ask: ClaimRequest, now: int, mint: bool, n: SlotName)
    requires Structure(c) && HoldsAt(c, n, id)
    ensures Step(c, RequestClaim(id, ask, now, mint)).reply.ClaimAccepted? <==>
              && !c.Claimed(n) && ask.willing
              && (c.slots[n].kind.Partitionable? ==> ask.stillWilling && Suffices(c.slots[n].res, ask.want) && mint)
  {
    hide Structure, FindIn, Persist, ChildIds;
    FindIsUnique(c, id, n);
  }

  // ------------------------------------------------------------------ ACTIVATE_CLAIM

  /** A new activation of the job runs on n, in the next sandbox, and n has become Busy; nothing else has changed. */
  ghost predicate Running(c: Core, c1: Core, n: SlotName, id: ClaimId, job: JobRequest, now: int) {
    && HoldsAt(c, n, id) && c.slots[n].claim.value.state == ClaimedIdle && n in c1.slots && SameShare(c.slots[n], c1.slots[n])
    && c1.slots[n].claim == Some(c.slots[n].claim.value.(state := ClaimedBusy, entered := now))
    && c1.slots[n].state == Claimed && c1.slots[n].activity == Busy && c1.slots[n].entered == now
    && OnlyAt(c, c1, n) && n in c1.acts && RunsJob(c.config, n.slotId, c.sandboxSeq + 1, c1.acts[n], job)
  }

  /** The activation is a new one of that job, in that sandbox, with the linkage of the process if one was spawned. */
  predicate RunsJob(config: Config, slotId: nat, number: nat, a: Activation, job: JobRequest) {
    && a.link.jobAd == job.jobAd && a.link.globalJobId == job.globalJobId && a.link.starterAddr == ""
    && a.link.sandbox == SandboxDir(config.pid, slotId, number)
    && !a.adopted && !a.vacating && a.box.None?
    && if config.processMode then job.spawned.Some? && a.link.socket == job.spawned.value.socket && a.link.starterPid == job.spawned.value.pid
       else a.link.socket == "" && a.link.starterPid == 0
  }

  /** Everything that has to be there to run a job. */
  predicate CanRun(config: Config, job: JobRequest) {
    job.hasUniverse && job.willing && config.hasExecuteDir && job.sandboxMade && (config.processMode ==> job.spawned.Some?)
  }

  lemma FreshRunsJob(c: Core, n: SlotName, job: JobRequest)
    requires c.config.processMode ==> job.spawned.Some?
    ensures RunsJob(c.config, n.slotId, c.sandboxSeq, FreshActivation(c, n, job), job)
  {
  }

  lemma BusyWithIt(c: Core, c1: Core, n: SlotName, id: ClaimId, job: JobRequest, now: int, a: Activation)
    requires HoldsAt(c, n, id) && c.slots[n].claim.value.state == ClaimedIdle
    requires c1.slots == c.slots[n := c.slots[n].SetBusy(now)] && c1.acts == c.acts[n := a] && c1.alive == c.alive && c1.timers == c.timers
    requires RunsJob(c.config, n.slotId, c.sandboxSeq + 1, a, job)
    ensures Running(c, c1, n, id, job, now)
  {
    hide RunsJob;
  }

  lemma ActivatedIsRunning(c: Core, n: SlotName, id: ClaimId, job: JobRequest, now: int)
    requires HoldsAt(c, n, id) && c.slots[n].claim.value.state == ClaimedIdle
    ensures var c0 := c.(sandboxSeq := c.sandboxSeq + 1);
            var out := ActivateSlot(c0, n, job, now);
            if job.sandboxMade && (c.config.processMode ==> job.spawned.Some?)
            then out.reply == ActivateAccepted(n) && Running(c, out.core, n, id, job, now)
            else out.reply == ActivateRefused && out.ops == [] && (out.core == c0 || out.core == c0.(gen := c.gen + 1))
  {
    hide Persist, Running, FreshActivation, Slot.SetBusy, RunsJob;
    var c0 := c.(sandboxSeq := c.sandboxSeq + 1);
    if job.sandboxMade && (c.config.processMode ==> job.spawned.Some?) {
      FreshRunsJob(c0, n, job);
      BusyWithIt(c, ActivateSlot(c0, n, job, now).core, n, id, job, now, FreshActivation(c0, n, job));
    }
  }

  /**
   * ACTIVATE_CLAIM: accepted if and only if the slot that holds the id is Claimed and Idle, the job has a
   * universe and is acceptable to it, and directory, sandbox and process could be had. Accepted means
   * running; refused leaves slots, leases and starters as they were.
   */
  lemma ActivateAcceptedIff(c: Core, id: ClaimId, job: JobRequest, now: int, n: SlotName)
    requires Structure(c) && HoldsAt(c, n, id)
    ensures var out := Step(c, ActivateClaim(id, job, now));
            if c.slots[n].claim.value.state == ClaimedIdle && CanRun(c.config, job)
            then out.reply == ActivateAccepted(n) && Running(c, out.core, n, id, job, now)
            else Untouched(c, out, ActivateRefused)
  {
    hide Structure, FindIn, ActivateSlot, Running;
    FindIsUnique(c, id, n);
    if c.slots[n].claim.value.state == ClaimedIdle { ActivatedIsRunning(c, n, id, job, now); }
  }

  /** In either case the reply is true, whoever holds the id. */
  lemma ActivateReplyIsTrue(c: Core, id: ClaimId, job: JobRequest, now: int)
    ensures var out := Step(c, ActivateClaim(id, job, now));
            || (out.reply.ActivateAccepted? && Running(c, out.core, out.reply.slot, id, job, now))
            || Untouched(c, out, ActivateRefused)
  {
    hide FindIn, ActivateSlot, Running;
    FindInFinds(c.slots, c.Live(), id);
    if Find(c, id).Some? && c.slots[Find(c, id).value].claim.value.state == ClaimedIdle {
      ActivatedIsRunning(c, Find(c, id).value, id, job, now);
    }
  }

  // ------------------------------------------------------------------------- counters

  /** The request gets as far as minting a claim for a new dynamic slot. */
  predicate TriesToMint(c: Core, n: SlotName, ask: ClaimRequest)
    requires n in c.slots
  {
    !c.Claimed(n) && ask.willing && c.slots[n].kind.Partitionable? && ask.stillWilling && Suffices(c.slots[n].res, ask.want)
  }

  function One(b: bool): nat { if b then 1 else 0 }

  /** A request uses up a claim serial exactly if it tries to mint, and a slot number exactly if it carves. */
  lemma RequestCounts(c: Core, id: ClaimId, n: SlotName, ask: ClaimRequest, now: int, mint: bool)
    requires Structure(c) && HoldsAt(c, n, id)
    ensures var c1 := Step(c, RequestClaim(id, ask, now, mint)).core;
            && c1.mintSerial == c.mintSerial + One(TriesToMint(c, n, ask))
            && c1.dslotSeq == c.dslotSeq + One(TriesToMint(c, n, ask) && mint)
            && c1.gen == c.gen && c1.sandboxSeq == c.sandboxSeq && c1.waits == c.waits
  {
    hide Structure, FindIn, AcceptSlot, CarveSlot;
    FindIsUnique(c, id, n);
    ClaimingCounts(DropTimer(c, n), n, ask, now);
  }

  /** An activation takes the next sandbox number once the job is acceptable, and a generation once the sandbox is made. */
  lemma ActivateCounts(c: Core, id: ClaimId, n: SlotName, job: JobRequest, now: int)
    requires Structure(c) && HoldsAt(c, n, id)
    ensures var c1 := Step(c, ActivateClaim(id, job, now)).core;
            var tried := c.slots[n].claim.value.state == ClaimedIdle && job.hasUniverse && job.willing && c.config.hasExecuteDir;
            && c1.sandboxSeq == c.sandboxSeq + One(tried) && c1.gen == c.gen + One(tried && job.sandboxMade)
            && c1.mintSerial == c.mintSerial && c1.dslotSeq == c.dslotSeq && c1.waits == c.waits
  {
    hide Structure, FindIn, ActivateSlot;
    FindIsUnique(c, id, n);
    ActivatingCounts(c.(sandboxSeq := c.sandboxSeq + 1), n, job, now);
  }

  /** A wait channel is made exactly for a reply that is stashed. */
  lemma DeactivateCounts(c: Core, id: ClaimId, n: SlotName, jobDone: bool)
    requires Structure(c) && HoldsAt(c, n, id)
    ensures Step(c, Deactivate(id, jobDone)).core.waits == c.waits + One(jobDone && n in c.acts)
  {
    hide Structure, FindIn;
    FindIsUnique(c, id, n);
  }

  lemma ClaimingCounts(c: Core, n: SlotName, ask: ClaimRequest, now: int)
    requires n in c.slots && c.slots[n].claim.Some?
    ensures var c1 := AcceptSlot(c, n, ask, now).core;
            c1 == c.(slots := c1.slots, alive := c1.alive)
    ensures var c1 := CarveSlot(c, n, ask, now).core;
            && c1.mintSerial == c.mintSerial + 1 && c1.dslotSeq == c.dslotSeq + 1
            && c1.gen == c.gen && c1.sandboxSeq == c.sandboxSeq && c1.waits == c.waits
  {
    hide Persist, ChildIds;
  }

  lemma ActivatingCounts(c: Core, n: SlotName, job: JobRequest, now: int)
    requires n in c.slots && c.slots[n].claim.Some?
    ensures var c1 := ActivateSlot(c, n, job, now).core;
            && c1.gen == c.gen + One(job.sandboxMade) && c1.sandboxSeq == c.sandboxSeq
            && c1.mintSerial == c.mintSerial && c1.dslotSeq == c.dslotSeq && c1.waits == c.waits
  {
    hide Persist, Slot.SetBusy, FreshActivation;
  }

  // ---------------------------------------------------------------- DEACTIVATE_CLAIM

  /** DEACTIVATE_CLAIM: a known claim is one some slot holds; a stashed reply waits for that slot's running starter. */
  lemma DeactivateReplyIsTrue(c: Core, id: ClaimId, jobDone: bool)
    requires Inv(c)
    ensures var out := Step(c, Deactivate(id, jobDone));
            && out.reply.Deactivating? && out.ops == [] && out.core == c.(deferred := out.core.deferred, waits := out.core.waits)
            && (out.reply.closing <==> !out.reply.known) && (!out.reply.known ==> out.reply.of.None?)
            && (out.reply.known <==> exists n :: HoldsAt(c, n, id))
            && (out.reply.known ==> out.reply.of.Some? && HoldsAt(c, out.reply.of.value, id))
            && (out.reply.wait.Some? <==> jobDone && out.reply.known && out.reply.of.value in c.acts)
            && (out.reply.wait.Some? ==>
                  out.core.deferred == c.deferred[out.reply.of.value := out.reply.wait.value] && out.reply.wait.value !in out.core.closedWaits)
            && (out.reply.wait.None? ==> out.core.deferred == c.deferred)
  {
    hide Inv, FindIn, HoldsAt;
    HeldIffFound(c, id);
    NextWaitIsOpen(c);
  }

  lemma HeldIffFound(c: Core, id: ClaimId)
    requires Inv(c)
    ensures Find(c, id).Some? <==> exists n :: HoldsAt(c, n, id)
    ensures Find(c, id).Some? ==> HoldsAt(c, Find(c, id).value, id)
  {
    FindInFinds(c.slots, c.Live(), id);
    forall n ensures Find(c, id).None? ==> !HoldsAt(c, n, id) { FindIsUnique(c, id, n); }
    hide Inv, FindIn;
    assert Find(c, id).Some? ==> HoldsAt(c, Find(c, id).value, id);
  }

  lemma NextWaitIsOpen(c: Core)
    requires Inv(c)
    ensures c.waits !in c.closedWaits
  {
  }

  // -------------------------------------------------------------------------- vacating

  /**
   * The one-place vacate channel: a hard vacate, or an escalation to one, reaches the starter's
   * supervisor if and only if no soft vacate is still waiting there; other starters never notice.
   */
  lemma HardVacateArrivesIff(c: Core, n: SlotName, ev: Event)
    requires n in c.acts && ev in {Vacate(n, true), VacateEscalate(n, c.acts[n].gen)}
    ensures var c1 := Step(c, ev).core;
            && n in c1.acts && (c1.acts[n].box == Some(VacateHard) <==> c.acts[n].box != Some(VacateSoft))
            && c1.slots == c.slots && forall m :: m != n ==> At(c1, m) == At(c, m)
  {
    hide FindIn;
    assert Step(c, ev).core.acts == c.acts[n := Step(c, ev).core.acts[n]];
    assert c.acts[n].box.Some? ==> c.acts[n].box.value.VacateSoft? || c.acts[n].box.value.VacateHard?;
  }

  // ------------------------------------------------------------------------ sandboxes

  /** Running jobs of this process have sandboxes of their own. */
  ghost predicate OwnSandboxes(c: Core) {
    && (forall n :: n in c.acts && !c.acts[n].adopted ==>
          c.acts[n].link.sandbox.SandboxDir? && c.acts[n].link.sandbox.number <= c.sandboxSeq)
    && (forall m, n :: m in c.acts && n in c.acts && m != n && !c.acts[m].adopted && !c.acts[n].adopted ==>
          c.acts[m].link.sandbox != c.acts[n].link.sandbox)
  }

  /** No activation is made and no sandbox number taken. */
  ghost predicate MakesNone(c: Core, c1: Core) {
    c1.sandboxSeq == c.sandboxSeq && forall n :: n in c1.acts ==> n in c.acts && SameJob(c.acts[n], c1.acts[n])
  }

  predicate SameJob(a: Activation, b: Activation) { a.adopted == b.adopted && a.link.sandbox == b.link.sandbox }

  lemma ReleaseMakesNone(c: Core, n: SlotName, now: int, mint: bool)
    requires n in c.slots
    ensures MakesNone(c, Release(c, n, now, mint).core)
  {
    ReleaseActs(c, n, now, mint);
    hide Release;
  }

  lemma ReleaseActs(c: Core, n: SlotName, now: int, mint: bool)
    requires n in c.slots
    ensures var c1 := Release(c, n, now, mint).core; c1.sandboxSeq == c.sandboxSeq && c1.acts == c.acts - {n}
  {
    hide Destroy, UnclaimAndSave;
    if c.slots[n].IsDynamic() { DestroyActs(Detach(c, n), n); } else { UnclaimActs(Detach(c, n), n, now, mint); }
  }

  lemma DestroyActs(c: Core, d: SlotName)
    requires d in c.slots && c.slots[d].IsDynamic()
    ensures Destroy(c, d).core.sandboxSeq == c.sandboxSeq && Destroy(c, d).core.acts == c.acts
  {
    hide Persist, ChildIds, Remove, Slot.Restore;
  }

  lemma UnclaimActs(c: Core, n: SlotName, now: int, mint: bool)
    requires n in c.slots
    ensures var c1 := UnclaimAndSave(c, n, now, mint).core; c1.sandboxSeq == c.sandboxSeq && c1.acts == c.acts
  {
    hide Persist;
  }

  lemma IdleActs(c: Core, n: SlotName, final: Option<FinalReport>, now: int)
    ensures var c1 := IdleSlot(c, n, final, now).core; c1.sandboxSeq == c.sandboxSeq && c1.acts == c.acts
  {
    hide Persist;
  }

  lemma RequestMakesNone(c: Core, id: ClaimId, ask: ClaimRequest, now: int, mint: bool)
    ensures MakesNone(c, DoRequestClaim(c, id, ask, now, mint).core)
  {
    hide FindIn, AcceptSlot, CarveSlot;
    FindInFinds(c.slots, c.Live(), id);
    if Find(c, id).Some? { ClaimingActs(DropTimer(c, Find(c, id).value), Find(c, id).value, ask, now); }
  }

  lemma ClaimingActs(c: Core, n: SlotName, ask: ClaimRequest, now: int)
    requires n in c.slots && c.slots[n].claim.Some?
    ensures var c1 := AcceptSlot(c, n, ask, now).core; c1.acts == c.acts && c1.sandboxSeq == c.sandboxSeq
    ensures var c1 := CarveSlot(c, n, ask, now).core; c1.acts == c.acts && c1.sandboxSeq == c.sandboxSeq
  {
    hide Persist, ChildIds;
  }

  /** The same activations, the same sandbox numbers. */
  lemma SameActsMakeNone(c: Core, c1: Core)
    requires c1.acts == c.acts && c1.sandboxSeq == c.sandboxSeq
    ensures MakesNone(c, c1)
  {
  }

  lemma MatchInfoActs(c: Core, id: ClaimId, now: int)
    ensures var c1 := DoMatchInfo(c, id, now).core; c1.acts == c.acts && c1.sandboxSeq == c.sandboxSeq
  {
    hide FindIn, Persist;
    FindInFinds(c.slots, c.Live(), id);
  }

  lemma TimeoutActs(c: Core, n: SlotName, id: ClaimId, now: int, mint: bool)
    ensures var c1 := DoMatchTimeout(c, n, id, now, mint).core; c1.acts == c.acts && c1.sandboxSeq == c.sandboxSeq
  {
    hide UnclaimAndSave;
    if n in c.slots { UnclaimActs(DropTimer(c, n), n, now, mint); }
  }

  lemma RecordEventActs(c: Core, ev: Event)
    requires ev.Deactivate? || ev.AliveOk? || ev.StarterUpdate? || ev.StarterFinal?
    ensures var c1 := Step(c, ev).core; c1.acts == c.acts && c1.sandboxSeq == c.sandboxSeq
  {
    hide FindIn, Persist;
  }

  lemma ExitedMakesNone(c: Core, n: SlotName, now: int)
    ensures MakesNone(c, DoStarterExited(c, n, now).core)
  {
    hide IdleSlot;
    IdleActs(ReleaseDeferred(DropAct(c, n), n), n, ClaimAt(c, n).final, now);
  }

  lemma HelloMakesNone(c: Core, n: SlotName, addr: string, pid: int)
    ensures MakesNone(c, DoStarterHello(c, n, addr, pid).core)
  {
    hide Persist, MakesNone;
    NothingMakesNone(c);
    var c1 := DoStarterHello(c, n, addr, pid).core;
    if c1 != c { VacateMakesNone(c, n, c1.acts[n]); }
  }

  lemma VacateMakesNone(c: Core, n: SlotName, a: Activation)
    requires n in c.acts && SameJob(c.acts[n], a)
    ensures MakesNone(c, c.(acts := c.acts[n := a]))
  {
  }

  lemma AdoptFailedMakesNone(c: Core, n: SlotName, marker: Option<FinalReport>, now: int, mint: bool)
    ensures MakesNone(c, DoAdoptFailed(c, n, marker, now, mint).core)
  {
    hide Persist, Release, IdleSlot;
    IdleActs(DropAct(c, n), n, marker, now);
    if n in c.slots { ReleaseMakesNone(c, n, now, mint); }
  }

  /** No event but ACTIVATE_CLAIM makes an activation or takes a sandbox number. */
  lemma OthersMakeNone(c: Core, ev: Event)
    requires !ev.ActivateClaim?
    ensures MakesNone(c, Step(c, ev).core)
  {
    hide FindIn, Release, DoMatchInfo, DoMatchTimeout, DoRequestClaim, DoAdoptFailed, DoStarterExited, DoStarterHello, MakesNone,
      DoDeactivate, OnClaimed;
    match ev
    case RequestClaim(id, ask, now, mint) => RequestMakesNone(c, id, ask, now, mint);
    case ReleaseClaim(id, now, mint) =>
      FindInFinds(c.slots, c.Live(), id);
      if Find(c, id).Some? { ReleaseMakesNone(c, Find(c, id).value, now, mint); } else { NothingMakesNone(c); }
    case ReleaseSlot(n, now, mint) => if n in c.slots { ReleaseMakesNone(c, n, now, mint); } else { NothingMakesNone(c); }
    case AdoptFailed(n, marker, now, mint) => AdoptFailedMakesNone(c, n, marker, now, mint);
    case StarterExited(n, now) => ExitedMakesNone(c, n, now);
    case StarterHello(n, addr, pid) => HelloMakesNone(c, n, addr, pid);
    case Vacate(n, hard) =>
      NothingMakesNone(c);
      if n in c.acts { VacateMakesNone(c, n, DoVacate(c, n, hard).acts[n]); }
    case VacateEscalate(n, gen) =>
      NothingMakesNone(c);
      if n in c.acts { VacateMakesNone(c, n, Offer(c.acts[n], VacateHard)); }
    case VacateTaken(n) =>
      NothingMakesNone(c);
      if n in c.acts { VacateMakesNone(c, n, c.acts[n].(box := None)); }
    case MatchInfo(id, now) => MatchInfoActs(c, id, now); SameActsMakeNone(c, Step(c, ev).core);
    case MatchTimeout(n, id, now, mint) => TimeoutActs(c, n, id, now, mint); SameActsMakeNone(c, Step(c, ev).core);
    case _ => RecordEventActs(c, ev); SameActsMakeNone(c, Step(c, ev).core);
  }

  lemma NothingMakesNone(c: Core)
    ensures MakesNone(c, c)
  {
  }

  /** An accepted ACTIVATE_CLAIM takes the next number. */
  lemma ActivateTakesNext(c: Core, id: ClaimId, job: JobRequest, now: int)
    ensures var c1 := Step(c, ActivateClaim(id, job, now)).core;
            var n := Found(c, id);
            && c.sandboxSeq <= c1.sandboxSeq <= c.sandboxSeq + 1
            && (c1.acts == c.acts
                || (n in c1.acts && c1.acts == c.acts[n := c1.acts[n]] && c1.sandboxSeq == c.sandboxSeq + 1
                    && c1.acts[n].link.sandbox.SandboxDir? && c1.acts[n].link.sandbox.number == c.sandboxSeq + 1))
  {
    hide FindIn, ActivateSlot;
    FindInFinds(c.slots, c.Live(), id);
    if Find(c, id).Some? { SlotTakesNext(c.(sandboxSeq := c.sandboxSeq + 1), Find(c, id).value, job, now); }
  }

  lemma SlotTakesNext(c: Core, n: SlotName, job: JobRequest, now: int)
    requires n in c.slots && c.slots[n].claim.Some?
    ensures var c1 := ActivateSlot(c, n, job, now).core;
            && c1.sandboxSeq == c.sandboxSeq
            && (c1.acts == c.acts
                || (n in c1.acts && c1.acts == c.acts[n := c1.acts[n]]
                    && c1.acts[n].link.sandbox.SandboxDir? && c1.acts[n].link.sandbox.number == c.sandboxSeq))
  {
    hide Persist, Slot.SetBusy;
  }

  /** A fresh sandbox for every activation: no two running jobs of one startd process ever share one. */
  lemma StepKeepsSandboxes(c: Core, ev: Event)
    requires OwnSandboxes(c)
    ensures OwnSandboxes(Step(c, ev).core)
  {
    hide Step, FindIn;
    if ev.ActivateClaim? { ActivateTakesNext(c, ev.id, ev.job, ev.now); } else { OthersMakeNone(c, ev); }
  }

  lemma {:induction false} RunKeepsSandboxes(cs: seq<Core>, evs: seq<Event>, i: nat)
    requires Trace(cs, evs) && OwnSandboxes(cs[0]) && i <= |evs|
    ensures OwnSandboxes(cs[i])
  {
    if i > 0 {
      hide Step, OwnSandboxes;
      RunKeepsSandboxes(cs, evs, i - 1);
      StepKeepsSandboxes(cs[i - 1], evs[i - 1]);
    }
  }
}
