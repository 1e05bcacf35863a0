/**
 * The startd core as a state machine: one step per event taken by the event loop
 * (internal/startd/startd.go, claim.go and activate.go).
 *
 * What the environment decides is part of the event: the clock, whether minting
 * succeeds, whether Requirements evaluate to true, whether a sandbox or a starter
 * process could be created, and what an exit marker says.
 */
module CoreModel {
  import opened Basics
  import opened Slots

  datatype Config = Config(processMode: bool, hasExecuteDir: bool, alivesMissed: int, pid: int)

  datatype Sandbox = NoSandbox | SandboxDir(pid: int, slotId: nat, number: nat)

  datatype VacateMsg = VacateSoft | VacateHard

  /** The loop's record of a running starter; box is the one-place vacate channel. */
  datatype Activation = Activation(gen: nat, link: Link, adopted: bool, vacating: bool, box: Option<VacateMsg>)

  /** The starter linkage of an activation, as it is persisted. */
  datatype Link = Link(sandbox: Sandbox, jobAd: string, globalJobId: string, starterAddr: string,
                       starterPid: int, socket: string)

  const NO_LINK := Link(NoSandbox, "", "", "", 0, "")

  /** A keepalive loop, with the identity it was started with. */
  datatype Alive = Alive(id: ClaimId, scheddAddr: string, aliveInterval: int)

  datatype Core = Core(
    config: Config, birthdate: int, mintSerial: nat,
    fixed: seq<SlotName>, dyn: seq<SlotName>, slots: map<SlotName, Slot>, dslotSeq: int,
    timers: map<SlotName, ClaimId>, alive: map<SlotName, Alive>,
    acts: map<SlotName, Activation>, gen: nat, sandboxSeq: nat,
    deferred: map<SlotName, nat>, waits: nat, closedWaits: set<nat>,
    /* history: the slot every claim id was ever installed on */
    issued: map<ClaimId, SlotName>)
  {
    function Live(): seq<SlotName> { fixed + dyn }

    function Put(n: SlotName, s: Slot): Core { this.(slots := slots[n := s]) }

    predicate Claimed(n: SlotName) { n in slots && slots[n].HasClaimed() }

    function FreshId(): ClaimId { Minted(birthdate, mintSerial + 1) }
  }

  // ------------------------------------------------------------- persistence

  datatype Record = Record(name: SlotName, id: ClaimId, state: SlotState, activity: Activity, kind: SlotKind,
                           res: Resources, schedd: Schedd, lease: int, entered: int, link: Link)

  /** What the loop asks of the persister (Put) or of the store itself (Delete). */
  datatype StoreOp = Save(rec: Record) | Delete(name: SlotName)

  function RecordOf(c: Core, n: SlotName): Record
    requires n in c.slots && c.slots[n].claim.Some?
  {
    var s := c.slots[n];
    var cl := s.claim.value;
    Record(n, cl.id, s.state, s.activity, s.kind,
           if s.IsDynamic() then s.res else NOTHING,
           cl.schedd, cl.lease, cl.entered,
           if n in c.acts then c.acts[n].link else NO_LINK)
  }

  /** persistSlot: nothing is written for a slot without a claim. */
  function Persist(c: Core, n: SlotName): seq<StoreOp>
    requires n in c.slots
  {
    if c.slots[n].claim.Some? then [Save(RecordOf(c, n))] else []
  }

  // ------------------------------------------------------------------ events

  datatype ClaimRequest = ClaimRequest(schedd: Schedd, willing: bool, stillWilling: bool, want: Resources,
                                       sendClaimedAd: bool, sendLeftovers: bool, secure: bool)

  datatype Spawned = Spawned(socket: string, pid: int)

  datatype JobRequest = JobRequest(jobAd: string, globalJobId: string, hasUniverse: bool, willing: bool,
                                   sandboxMade: bool, spawned: Option<Spawned>)

  datatype Event =
    | MatchInfo(id: ClaimId, now: int)
    | MatchTimeout(name: SlotName, id: ClaimId, now: int, mint: bool)
    | RequestClaim(id: ClaimId, ask: ClaimRequest, now: int, mint: bool)
    | ReleaseClaim(id: ClaimId, now: int, mint: bool)
    | ReleaseSlot(name: SlotName, now: int, mint: bool)
    | AliveOk(name: SlotName, now: int)
    | ActivateClaim(id: ClaimId, job: JobRequest, now: int)
    | StarterUpdate(name: SlotName, ad: string)
    | StarterFinal(name: SlotName, report: FinalReport)
    | StarterExited(name: SlotName, now: int)
    | StarterHello(name: SlotName, addr: string, pid: int)
    | AdoptFailed(name: SlotName, marker: Option<FinalReport>, now: int, mint: bool)
    | Deactivate(id: ClaimId, jobDone: bool)
    | Vacate(name: SlotName, hard: bool)
    | VacateEscalate(name: SlotName, gen: nat)
    | VacateTaken(name: SlotName)

  datatype Reply =
    | NoReply
    | ClaimRefused
    | ClaimAccepted(claimed: Option<ClaimId>, leftovers: Option<ClaimId>, secure: bool)
    | ActivateRefused
    | ActivateAccepted(slot: SlotName)
    | Deactivating(known: bool, closing: bool, of: Option<SlotName>, wait: Option<nat>)

  datatype Outcome = Outcome(core: Core, ops: seq<StoreOp>, reply: Reply)

  // ----------------------------------------------------------------- lookups

  function FindIn(slots: map<SlotName, Slot>, names: seq<SlotName>, id: ClaimId): Option<SlotName> {
    if names == [] then None
    else if names[0] in slots && slots[names[0]].Holds(id) then Some(names[0])
    else FindIn(slots, names[1..], id)
  }

  /** findSlotByClaimID: the first live slot whose current claim id is id. */
  function Find(c: Core, id: ClaimId): Option<SlotName> { FindIn(c.slots, c.Live(), id) }

  lemma {:induction false} FindInFinds(slots: map<SlotName, Slot>, names: seq<SlotName>, id: ClaimId)
    ensures match FindIn(slots, names, id)
            case Some(n) => n in names && n in slots && slots[n].Holds(id)
            case None => forall n :: n in names && n in slots ==> !slots[n].Holds(id)
  {
    if names != [] {
      FindInFinds(slots, names[1..], id);
      assert names == [names[0]] + names[1..];
    }
  }

  /** The claim ids of parent's live dynamic slots, in list order (refreshPSlotChildren). */
  function ChildIds(slots: map<SlotName, Slot>, dyn: seq<SlotName>, parent: SlotName): seq<ClaimId> {
    if dyn == [] then []
    else
      (if IsChild(slots, dyn[0], parent) && slots[dyn[0]].claim.Some? then [slots[dyn[0]].claim.value.id] else [])
      + ChildIds(slots, dyn[1..], parent)
  }

  predicate IsChild(slots: map<SlotName, Slot>, n: SlotName, parent: SlotName) {
    n in slots && slots[n].kind.CarvedFrom? && slots[n].kind.parent == parent
  }

  function RefreshChildren(c: Core, p: SlotName): Core
    requires p in c.slots
  {
    c.Put(p, c.slots[p].(children := ChildIds(c.slots, c.dyn, p)))
  }

  // ---------------------------------------------------------------- handlers

  function Same(c: Core, reply: Reply): Outcome { Outcome(c, [], reply) }

  function DoMatchInfo(c: Core, id: ClaimId, now: int): Outcome {
    FindInFinds(c.slots, c.Live(), id);
    match Find(c, id)
    case None => Same(c, NoReply)
    case Some(n) =>
      if c.slots[n].claim.value.state != NotClaimed || c.slots[n].state != Unclaimed then Same(c, NoReply)
      else MatchSlot(c, n, id, now)
  }

  function MatchSlot(c: Core, n: SlotName, id: ClaimId, now: int): Outcome
    requires n in c.slots
  {
    var c1 := c.Put(n, c.slots[n].SetStateActivity(Matched, Idle, now));
    Outcome(c1.(timers := c1.timers[n := id]), Persist(c1, n), NoReply)
  }

  /** unclaimSlot: back to Unclaimed with a fresh claim, or with the old one when minting fails. */
  function Unclaim(c: Core, n: SlotName, now: int, mint: bool): Core
    requires n in c.slots
  {
    var c1 := c.(mintSerial := c.mintSerial + 1);
    if mint then
      c1.Put(n, c.slots[n].SetClaimState(MintClaim(c.FreshId()), Unclaimed, Idle, now))
        .(issued := c.issued[c.FreshId() := n])
    else
      c1.Put(n, c.slots[n].SetStateActivity(Unclaimed, Idle, now))
  }

  function DoMatchTimeout(c: Core, n: SlotName, id: ClaimId, now: int, mint: bool): Outcome {
    if n !in c.slots then Same(c, NoReply)
    else if c.slots[n].state != Matched || !c.slots[n].Holds(id) then Same(DropTimer(c, n), NoReply)
    else UnclaimAndSave(DropTimer(c, n), n, now, mint)
  }

  function DropTimer(c: Core, n: SlotName): Core { c.(timers := c.timers - {n}) }

  function UnclaimAndSave(c: Core, n: SlotName, now: int, mint: bool): Outcome
    requires n in c.slots
  {
    var c1 := Unclaim(c, n, now, mint);
    Outcome(c1, Persist(c1, n), NoReply)
  }

  /** requestedResources: only Cpus is clamped. */
  function Requested(want: Resources): Resources {
    want.(cpus := if want.cpus < 1 then 1 else want.cpus)
  }

  function StartAlive(c: Core, n: SlotName): Core
    requires n in c.slots && c.slots[n].claim.Some?
  {
    c.(alive := c.alive[n := AliveFor(c.slots[n].claim.value)])
  }

  function AliveFor(cl: Claim): Alive { Alive(cl.id, cl.schedd.addr, cl.schedd.aliveInterval) }

  function DoRequestClaim(c: Core, id: ClaimId, ask: ClaimRequest, now: int, mint: bool): Outcome {
    FindInFinds(c.slots, c.Live(), id);
    match Find(c, id)
    case None => Same(c, ClaimRefused)
    case Some(n) =>
      if c.slots[n].claim.value.state != NotClaimed then Same(c, ClaimRefused)
      else if !ask.willing then Same(DropTimer(c, n), ClaimRefused)
      else if c.slots[n].kind.Partitionable? then CarveClaim(DropTimer(c, n), n, ask, now, mint)
      else AcceptSlot(DropTimer(c, n), n, ask, now)
  }

  function AcceptSlot(c: Core, n: SlotName, ask: ClaimRequest, now: int): Outcome
    requires n in c.slots && c.slots[n].claim.Some?
  {
    var c1 := c.Put(n, c.slots[n].AcceptClaim(ask.schedd, c.config.alivesMissed, now));
    Outcome(StartAlive(c1, n), Persist(c1, n),
            ClaimAccepted(if ask.sendClaimedAd then Some(c.slots[n].claim.value.id) else None, None, false))
  }

  /** doRequestClaimPSlot: carve a dynamic slot out of p and claim that instead. */
  function CarveClaim(c: Core, p: SlotName, ask: ClaimRequest, now: int, mint: bool): Outcome
    requires p in c.slots && c.slots[p].claim.Some?
  {
    if !ask.stillWilling || !c.slots[p].CanCarve(Requested(ask.want)) then Same(c, ClaimRefused)
    else if !mint then Same(c.(mintSerial := c.mintSerial + 1), ClaimRefused)
    else CarveSlot(c, p, ask, now)
  }

  function CarveSlot(c: Core, p: SlotName, ask: ClaimRequest, now: int): Outcome
    requires p in c.slots && c.slots[p].claim.Some?
  {
    var d := DynamicName(p, c.dslotSeq + 1);
    var c1 := RefreshChildren(Carved(c, p, Requested(ask.want), ask.schedd, now), p);
    Outcome(StartAlive(c1, d), Persist(c1, d) + Persist(c1, p),
            ClaimAccepted(if ask.sendClaimedAd then Some(c.FreshId()) else None,
                          if ask.sendLeftovers then Some(c.slots[p].claim.value.id) else None, ask.secure))
  }

  /** The core right after the new slot is registered and its resources are taken from p. */
  function Carved(c: Core, p: SlotName, req: Resources, schedd: Schedd, now: int): Core
    requires p in c.slots
  {
    var d := DynamicName(p, c.dslotSeq + 1);
    var blank := NewDynamicSlot(p, c.dslotSeq + 1, req, now).(claim := Some(MintClaim(c.FreshId())));
    c.(mintSerial := c.mintSerial + 1,
       dslotSeq := c.dslotSeq + 1,
       slots := c.slots[p := c.slots[p].Carve(req)][d := blank.AcceptClaim(schedd, c.config.alivesMissed, now)],
       dyn := c.dyn + [d],
       issued := c.issued[c.FreshId() := d])
  }

  /** releaseSlot: a dynamic slot is destroyed, any other goes back to Unclaimed. */
  function Release(c: Core, n: SlotName, now: int, mint: bool): Outcome
    requires n in c.slots
  {
    if c.slots[n].IsDynamic() then Destroy(Detach(c, n), n)
    else UnclaimAndSave(Detach(c, n), n, now, mint)
  }

  /** Stops the match timer, the keepalive loop and the starter of n. */
  function Detach(c: Core, n: SlotName): Core {
    c.(timers := c.timers - {n}, alive := c.alive - {n}, acts := c.acts - {n})
  }

  /** removeDSlot. */
  function Unregistered(c: Core, d: SlotName): Core {
    c.(slots := c.slots - {d}, dyn := Remove(c.dyn, d))
  }

  function Destroy(c: Core, d: SlotName): Outcome
    requires d in c.slots && c.slots[d].IsDynamic()
  {
    var p := c.slots[d].kind.parent;
    var c1 := Unregistered(c, d);
    if p in c1.slots then
      var c2 := RefreshChildren(c1.Put(p, c1.slots[p].Restore(c.slots[d].res)), p);
      Outcome(c2, [Delete(d)] + Persist(c2, p), NoReply)
    else
      Outcome(c1, [Delete(d)], NoReply)
  }

  function DoReleaseClaim(c: Core, id: ClaimId, now: int, mint: bool): Outcome {
    FindInFinds(c.slots, c.Live(), id);
    match Find(c, id)
    case None => Same(c, NoReply)
    case Some(n) => Release(c, n, now, mint)
  }

  /** Rewrites a claimed slot's claim record; a missing or unclaimed slot is left alone. */
  function OnClaimed(c: Core, n: SlotName, cl: Claim): Core {
    if c.Claimed(n) then c.Put(n, c.slots[n].(claim := Some(cl))) else c
  }

  function ClaimAt(c: Core, n: SlotName): Claim {
    if n in c.slots && c.slots[n].claim.Some? then c.slots[n].claim.value else MintClaim(NO_CLAIM_ID)
  }

  function Extended(cl: Claim, alivesMissed: int, now: int): Claim {
    cl.(lease := now + LeaseSeconds(cl.schedd.aliveInterval, alivesMissed))
  }

  function DoActivateClaim(c: Core, id: ClaimId, job: JobRequest, now: int): Outcome {
    FindInFinds(c.slots, c.Live(), id);
    match Find(c, id)
    case None => Same(c, ActivateRefused)
    case Some(n) =>
      if c.slots[n].claim.value.state != ClaimedIdle || !job.hasUniverse || !job.willing || !c.config.hasExecuteDir
      then Same(c, ActivateRefused)
      else ActivateSlot(c.(sandboxSeq := c.sandboxSeq + 1), n, job, now)
  }

  function ActivateSlot(c: Core, n: SlotName, job: JobRequest, now: int): Outcome
    requires n in c.slots && c.slots[n].claim.Some?
  {
    if !job.sandboxMade then Same(c, ActivateRefused)
    else if c.config.processMode && job.spawned.None? then Same(c.(gen := c.gen + 1), ActivateRefused)
    else
      var c1 := c.(gen := c.gen + 1, acts := c.acts[n := FreshActivation(c, n, job)]).Put(n, c.slots[n].SetBusy(now));
      Outcome(c1, Persist(c1, n), ActivateAccepted(n))
  }

  function FreshActivation(c: Core, n: SlotName, job: JobRequest): Activation {
    var spawned := if c.config.processMode && job.spawned.Some? then job.spawned.value else Spawned("", 0);
    Activation(c.gen + 1,
               Link(SandboxDir(c.config.pid, n.slotId, c.sandboxSeq), job.jobAd, job.globalJobId, "",
                    spawned.pid, spawned.socket),
               false, false, None)
  }

  /** releaseDeferredDeactivate: wake the stashed DEACTIVATE_CLAIM_JOB_DONE reply, if any. */
  function ReleaseDeferred(c: Core, n: SlotName): Core {
    if n in c.deferred then
      c.(closedWaits := c.closedWaits + {c.deferred[n]}, deferred := c.deferred - {n})
    else c
  }

  function DoStarterExited(c: Core, n: SlotName, now: int): Outcome {
    if n !in c.acts then Same(ReleaseDeferred(c, n), NoReply)
    else IdleSlot(ReleaseDeferred(DropAct(c, n), n), n, ClaimAt(c, n).final, now)
  }

  function DropAct(c: Core, n: SlotName): Core { c.(acts := c.acts - {n}) }

  /** A slot whose starter is gone goes back to Claimed/Idle if its claim is still Busy. */
  function IdleSlot(c: Core, n: SlotName, final: Option<FinalReport>, now: int): Outcome {
    if n in c.slots && c.slots[n].claim.Some? && c.slots[n].claim.value.state == ClaimedBusy then
      var s := c.slots[n];
      var c1 := c.Put(n, s.(claim := Some(s.claim.value.(final := final))).SetIdle(now));
      Outcome(c1, Persist(c1, n), NoReply)
    else Same(c, NoReply)
  }

  /** doStarterHello persists only when the address or the pid is news. */
  function DoStarterHello(c: Core, n: SlotName, addr: string, pid: int): Outcome {
    if n !in c.acts then Same(c, NoReply)
    else
      var was := c.acts[n].link;
      var link := was.(starterAddr := if addr != "" then addr else was.starterAddr,
                       starterPid := if pid != 0 then pid else was.starterPid);
      if link == was then Same(c, NoReply)
      else
        var c1 := c.(acts := c.acts[n := c.acts[n].(link := link)]);
        Outcome(c1, if n in c1.slots then Persist(c1, n) else [], NoReply)
  }

  function DoAdoptFailed(c: Core, n: SlotName, marker: Option<FinalReport>, now: int, mint: bool): Outcome {
    if n !in c.acts then Same(c, NoReply)
    else if n !in c.slots then Same(DropAct(c, n), NoReply)
    else if marker.None? then Release(c, n, now, mint)
    else IdleSlot(DropAct(c, n), n, marker, now)
  }

  function DoDeactivate(c: Core, id: ClaimId, jobDone: bool): Outcome {
    FindInFinds(c.slots, c.Live(), id);
    match Find(c, id)
    case None => Same(c, Deactivating(false, true, None, None))
    case Some(n) =>
      if jobDone && n in c.acts then
        Outcome(c.(deferred := c.deferred[n := c.waits], waits := c.waits + 1), [],
                Deactivating(true, false, Some(n), Some(c.waits)))
      else Same(c, Deactivating(true, false, Some(n), None))
  }

  /** A send on the one-place vacate channel that gives up when the place is taken. */
  function Offer(a: Activation, m: VacateMsg): Activation {
    if a.box.None? then a.(box := Some(m)) else a
  }

  function DoVacate(c: Core, n: SlotName, hard: bool): Core {
    if n in c.acts then
      c.(acts := c.acts[n := Offer(c.acts[n].(vacating := true), if hard then VacateHard else VacateSoft)])
    else c
  }

  function DoVacateEscalate(c: Core, n: SlotName, gen: nat): Core {
    if n in c.acts && c.acts[n].gen == gen then c.(acts := c.acts[n := Offer(c.acts[n], VacateHard)]) else c
  }

  /** The supervisor relays what is in the vacate channel. */
  function DoVacateTaken(c: Core, n: SlotName): Core {
    if n in c.acts then c.(acts := c.acts[n := c.acts[n].(box := None)]) else c
  }

  /** handle: one event. */
  function Step(c: Core, ev: Event): Outcome {
    match ev
    case MatchInfo(id, now) => DoMatchInfo(c, id, now)
    case MatchTimeout(n, id, now, mint) => DoMatchTimeout(c, n, id, now, mint)
    case RequestClaim(id, ask, now, mint) => DoRequestClaim(c, id, ask, now, mint)
    case ReleaseClaim(id, now, mint) => DoReleaseClaim(c, id, now, mint)
    case ReleaseSlot(n, now, mint) => if n in c.slots then Release(c, n, now, mint) else Same(c, NoReply)
    case AliveOk(n, now) => Same(OnClaimed(c, n, Extended(ClaimAt(c, n), c.config.alivesMissed, now)), NoReply)
    case ActivateClaim(id, job, now) => DoActivateClaim(c, id, job, now)
    case StarterUpdate(n, ad) => Same(OnClaimed(c, n, ClaimAt(c, n).(update := ad)), NoReply)
    case StarterFinal(n, report) => Same(OnClaimed(c, n, ClaimAt(c, n).(final := Some(report))), NoReply)
    case StarterExited(n, now) => DoStarterExited(c, n, now)
    case StarterHello(n, addr, pid) => DoStarterHello(c, n, addr, pid)
    case AdoptFailed(n, marker, now, mint) => DoAdoptFailed(c, n, marker, now, mint)
    case Deactivate(id, jobDone) => DoDeactivate(c, id, jobDone)
    case Vacate(n, hard) => Same(DoVacate(c, n, hard), NoReply)
    case VacateEscalate(n, gen) => Same(DoVacateEscalate(c, n, gen), NoReply)
    case VacateTaken(n) => Same(DoVacateTaken(c, n), NoReply)
  }
}
