/**
 * The startd core as the program has it: slot objects updated in place, reached through the
 * configured list, the dynamic list and the name index. Every handler is proved to do to the
 * objects what the state machine's step does to their abstract value.
 */
module StartdObject {
  import opened Basics
  import opened Slots
  import opened CoreModel
  import opened CoreInvariant
  import opened Firmness
  import opened Runs
  import opened Persister
  import opened Stored
  import opened Adoption
  import opened Restart
  import opened Lives

  /** A slot (internal/slot/slot.go): identity and full allocation fixed, the rest updated in place. */
  class LiveSlot {
    const name: SlotName
    const kind: SlotKind
    const full: Resources
    var res: Resources
    var state: SlotState
    var activity: Activity
    var entered: int
    var claim: Option<Claim>
    var children: seq<ClaimId>

    function View(): Slot
      reads this
    {
      Slot(kind, res, full, state, activity, entered, claim, children)
    }

    constructor (name: SlotName, s: Slot)
      ensures this.name == name && View() == s
    {
      this.name, kind, full := name, s.kind, s.full;
      res, state, activity, entered, claim, children := s.res, s.state, s.activity, s.entered, s.claim, s.children;
    }

    method Carve(req: Resources)
      modifies this`res
      ensures View() == old(View()).Carve(req)
    {
      res := Resources(res.cpus - req.cpus, res.memory - req.memory, res.disk - req.disk);
    }

    method Restore(req: Resources)
      modifies this
      ensures View() == old(View()).Restore(req)
    {
      res := Resources(res.cpus + req.cpus, res.memory + req.memory, res.disk + req.disk);
      if res.cpus > full.cpus { res := res.(cpus := full.cpus); }
      if res.memory > full.memory { res := res.(memory := full.memory); }
      if res.disk > full.disk { res := res.(disk := full.disk); }
    }

    method SetStateActivity(st: SlotState, act: Activity, now: int)
      modifies this
      ensures View() == old(View()).SetStateActivity(st, act, now)
    {
      state, activity, entered := st, act, now;
    }

    method SetClaimState(cl: Claim, st: SlotState, act: Activity, now: int)
      modifies this
      ensures View() == old(View()).SetClaimState(cl, st, act, now)
    {
      claim := Some(cl);
      state, activity, entered := st, act, now;
    }

    method AcceptClaim(schedd: Schedd, alivesMissed: int, now: int)
      requires claim.Some?
      modifies this
      ensures View() == old(View()).AcceptClaim(schedd, alivesMissed, now)
    {
      var cl := claim.value.(state := ClaimedIdle, schedd := schedd, entered := now,
                             lease := now + LeaseSeconds(schedd.aliveInterval, alivesMissed));
      SetClaimState(cl, Claimed, Idle, now);
    }
  }

  /** A dynamic slot that has just accepted its claim. */
  method ClaimedDSlot(parent: SlotName, subId: int, cl: Claim, req: Resources, schedd: Schedd, alivesMissed: int, now: int)
    returns (d: LiveSlot)
    ensures fresh(d) && d.name == DynamicName(parent, subId)
    ensures d.View() == NewDynamicSlot(parent, subId, req, now).(claim := Some(cl)).AcceptClaim(schedd, alivesMissed, now)
  {
    d := new LiveSlot(DynamicName(parent, subId), NewDynamicSlot(parent, subId, req, now));
    d.claim := Some(cl);
    d.AcceptClaim(schedd, alivesMissed, now);
  }

  function NamesOf(objects: seq<LiveSlot>): seq<SlotName> { seq(|objects|, i requires 0 <= i < |objects| => objects[i].name) }

  lemma OneChild(table: map<SlotName, Slot>, d: SlotName, p: SlotName)
    requires d in table
    ensures ChildIds(table, [d], p)
            == if IsChild(table, d, p) && table[d].claim.Some? then [table[d].claim.value.id] else []
  {
    assert [d][1..] == [];
  }

  /** The event loop's state. */
  class Startd {
    var config: Config
    var birthdate: int
    var mintSerial: nat
    var slots: seq<LiveSlot>
    var dslots: seq<LiveSlot>
    var byName: map<SlotName, LiveSlot>
    var dslotSeq: int
    var timers: map<SlotName, ClaimId>
    var alive: map<SlotName, Alive>
    var acts: map<SlotName, Activation>
    var gen: nat
    var sandboxSeq: nat
    var deferred: map<SlotName, nat>
    var waits: nat
    var closedWaits: set<nat>
    var asked: seq<StoreOp>              // what went to the persister and the store, in order
    ghost var issued: map<ClaimId, SlotName>

    /** Each registered object sits under its own name, and both lists hold registered objects only. */
    ghost predicate Valid()
      reads this
    {
      && (forall n :: n in byName ==> byName[n].name == n)
      && (forall i :: 0 <= i < |slots| ==> slots[i].name in byName && byName[slots[i].name] == slots[i])
      && (forall i :: 0 <= i < |dslots| ==> dslots[i].name in byName && byName[dslots[i].name] == dslots[i])
    }

    ghost function Repr(): set<LiveSlot>
      reads this`byName
    {
      byName.Values
    }

    ghost function Table(): map<SlotName, Slot>
      reads this, Repr()
    {
      map n | n in byName :: byName[n].View()
    }

    /** The abstract value of all of it. */
    ghost function View(): Core
      reads this, Repr()
    {
      Core(config, birthdate, mintSerial, NamesOf(slots), NamesOf(dslots), Table(), dslotSeq, timers, alive, acts, gen,
           sandboxSeq, deferred, waits, closedWaits, issued)
    }

    constructor (config: Config, birthdate: int, ghost issued: map<ClaimId, SlotName>)
      ensures Valid() && asked == [] && Repr() == {}
      ensures View() == Core(config, birthdate, 0, [], [], map[], 0, map[], map[], map[], 0, 0, map[], 0, {}, issued)
    {
      this.config, this.birthdate, this.issued := config, birthdate, issued;
      mintSerial, slots, dslots, byName, dslotSeq := 0, [], [], map[], 0;
      timers, alive, acts, gen, sandboxSeq := map[], map[], map[], 0, 0;
      deferred, waits, closedWaits, asked := map[], 0, {}, [];
    }

    method Register(s: LiveSlot)
      requires Valid() && s.name !in byName
      modifies this`byName, this`slots
      ensures Valid() && byName == old(byName)[s.name := s]
      ensures View() == old(View()).(slots := old(View()).slots[s.name := s.View()], fixed := old(View()).fixed + [s.name])
    {
      byName := byName[s.name := s];
      slots := slots + [s];
      assert NamesOf(slots) == old(NamesOf(slots)) + [s.name];
      assert Table() == old(Table())[s.name := s.View()];
    }

    /** One configured slot, primed with a claim if minting succeeds. */
    method AddSlot(spec: SlotSpec, now: int, mint: bool)
      requires Valid() && spec.name !in byName
      modifies this
      ensures Valid() && asked == old(asked) && byName.Keys == old(byName.Keys) + {spec.name}
      ensures forall o :: o in Repr() ==> o in old(Repr()) || fresh(o)
      ensures View() == AddConfigured(old(View()), spec, now, mint)
    {
      var minted := Mint(spec.name, mint);
      ghost var c := View();
      var s := new LiveSlot(spec.name, ConfiguredSlot(spec.kind, spec.share, now).(claim := minted));
      assert View() == c && s.View() == PrimedSlot(old(View()), spec, now, mint);
      hide Table, Valid, PrimedSlot;
      Register(s);
    }

    /** New and prime: the booted core, object by object. */
    method Configure(specs: seq<SlotSpec>, now: int, unminted: set<SlotName>)
      requires Valid() && WellConfigured(specs) && byName == map[]
      requires View() == Boot(config, birthdate, [], now, unminted, issued)
      modifies this
      ensures Valid() && asked == old(asked) && forall o :: o in Repr() ==> fresh(o)
      ensures View() == Boot(old(config), old(birthdate), specs, now, unminted, old(issued))
    {
      assert specs[..0] == [];
      hide Table, AddConfigured, WellConfigured, Names, Valid;
      for i := 0 to |specs|
        invariant Valid() && asked == old(asked) && (forall o :: o in Repr() ==> fresh(o))
        invariant View() == Boot(old(config), old(birthdate), specs[..i], now, unminted, old(issued))
        invariant byName.Keys == set n | n in Names(specs[..i])
      {
        NameIsFree(specs, i);
        NamesMore(specs, i);
        assert specs[..i + 1][..i] == specs[..i];
        AddSlot(specs[i], now, specs[i].name !in unminted);
      }
      assert specs[..|specs|] == specs;
    }

    /** findSlotByClaimID: the configured slots first, then the dynamic ones. */
    method FindSlotByClaimID(id: ClaimId) returns (r: LiveSlot?)
      requires Valid()
      ensures match Find(View(), id)
              case None => r == null
              case Some(n) => r != null && r.name == n && Has(r) && n in View().slots && View().slots[n] == r.View()
                              && r.claim.Some? && r.claim.value.id == id
    {
      var live := slots + dslots;
      ghost var names := NamesOf(slots) + NamesOf(dslots);
      assert names[0..] == names;
      for i := 0 to |live|
        invariant Find(View(), id) == FindIn(Table(), names[i..], id)
      {
        var s := live[i];
        assert names[i] == s.name && s.name in byName && byName[s.name] == s;
        assert names[i..][1..] == names[i + 1..];
        assert s.name in Table() && Table()[s.name] == s.View();
        if s.claim.Some? && s.claim.value.id == id {
          return s;
        }
      }
      return null;
    }

    /** s is one of the registered slots. */
    predicate Has(s: LiveSlot)
      reads this
    {
      s.name in byName && byName[s.name] == s
    }

    /** An update of one slot object is an update of one entry of the table. */
    twostate lemma OneSlotChanged(s: LiveSlot)
      requires old(Valid()) && byName == old(byName) && Has(s)
      requires forall n :: n in byName && n != s.name ==> byName[n].View() == old(byName[n].View())
      ensures Table() == old(Table())[s.name := s.View()]
    {
    }

    /** persistSlot. */
    method PersistSlot(s: LiveSlot)
      requires Valid() && Has(s)
      modifies this`asked
      ensures Valid() && View() == old(View()) && asked == old(asked) + Persist(View(), s.name)
    {
      if s.claim.None? { return; }
      var cl := s.claim.value;
      var rec := Record(s.name, cl.id, s.state, s.activity, s.kind, NOTHING, cl.schedd, cl.lease, cl.entered, NO_LINK);
      if s.kind.CarvedFrom? { rec := rec.(res := s.res); }
      if s.name in acts { rec := rec.(link := acts[s.name].link); }
      asked := asked + [Save(rec)];
    }

    /** Minter.Mint: the sequence number advances whether or not minting succeeds. */
    method Mint(owner: SlotName, ok: bool) returns (cl: Option<Claim>)
      requires Valid()
      modifies this`mintSerial, this`issued
      ensures Valid() && cl == if ok then Some(MintClaim(old(View().FreshId()))) else None
      ensures View() == old(View()).(mintSerial := old(mintSerial) + 1,
                                     issued := if ok then old(issued)[old(View().FreshId()) := owner] else old(issued))
    {
      mintSerial := mintSerial + 1;
      if !ok { return None; }
      cl := Some(MintClaim(Minted(birthdate, mintSerial)));
      issued := issued[Minted(birthdate, mintSerial) := owner];
    }

    method UnclaimSlot(s: LiveSlot, now: int, mint: bool)
      requires Valid() && Has(s)
      modifies this`mintSerial, this`issued, s
      ensures Valid() && View() == Unclaim(old(View()), s.name, now, mint)
    {
      var minted := Mint(s.name, mint);
      if minted.Some? {
        s.SetClaimState(minted.value, Unclaimed, Idle, now);
      } else {
        s.SetStateActivity(Unclaimed, Idle, now);
      }
      OneSlotChanged(s);
    }

    method MatchSlot(s: LiveSlot, id: ClaimId, now: int)
      requires Valid() && Has(s)
      modifies this, s
      ensures Valid() && byName == old(byName)
      ensures s.name in old(View()).slots
      ensures var out := CoreModel.MatchSlot(old(View()), s.name, id, now); View() == out.core && asked == old(asked) + out.ops
    {
      hide Persist, Slot.SetStateActivity;
      Registered(s);
      s.SetStateActivity(Matched, Idle, now);
      OneSlotChanged(s);
      assert View() == old(View()).Put(s.name, old(View()).slots[s.name].SetStateActivity(Matched, Idle, now));
      hide Table, Valid;
      PersistSlot(s);
      ArmTimer(s.name, id);
    }

    method ArmTimer(name: SlotName, id: ClaimId)
      requires Valid()
      modifies this`timers
      ensures Valid() && View() == old(View()).(timers := old(timers)[name := id])
    {
      timers := timers[name := id];
    }

    method DoMatchInfo(id: ClaimId, now: int)
      requires Valid()
      modifies this, Repr()
      ensures Valid() && byName == old(byName)
      ensures var out := CoreModel.DoMatchInfo(old(View()), id, now); View() == out.core && asked == old(asked) + out.ops
    {
      hide FindIn, CoreModel.MatchSlot, Table;
      var s := FindSlotByClaimID(id);
      if s == null || s.claim.value.state != NotClaimed || s.state != Unclaimed { return; }
      MatchSlot(s, id, now);
    }

    method UnclaimAndPersist(s: LiveSlot, now: int, mint: bool)
      requires Valid() && Has(s)
      modifies this, s
      ensures Valid() && byName == old(byName) && s.name in old(View()).slots
      ensures var out := UnclaimAndSave(old(View()), s.name, now, mint); View() == out.core && asked == old(asked) + out.ops
    {
      hide Persist, Unclaim;
      UnclaimSlot(s, now, mint);
      PersistSlot(s);
    }

    method CancelMatchTimer(name: SlotName)
      requires Valid()
      modifies this`timers
      ensures Valid() && View() == DropTimer(old(View()), name)
    {
      timers := timers - {name};
    }

    /** What the index knows, the table knows. */
    lemma Registered(s: LiveSlot)
      requires Valid() && Has(s)
      ensures s.name in View().slots && View().slots[s.name] == s.View()
    {
    }

    method DoMatchTimeout(name: SlotName, id: ClaimId, now: int, mint: bool)
      requires Valid()
      modifies this, Repr()
      ensures Valid() && byName == old(byName)
      ensures var out := CoreModel.DoMatchTimeout(old(View()), name, id, now, mint);
              View() == out.core && asked == old(asked) + out.ops
    {
      if name !in byName { return; }
      var s := byName[name];
      Registered(s);
      hide Table, UnclaimAndSave;
      CancelMatchTimer(name);
      if s.state != Matched || s.claim.None? || s.claim.value.id != id { return; }
      UnclaimAndPersist(s, now, mint);
    }

    // ------------------------------------------------------------- REQUEST_CLAIM

    method StartAliveLoop(s: LiveSlot)
      requires Valid() && Has(s) && s.claim.Some?
      modifies this`alive
      ensures Valid() && s.name in old(View()).slots && old(View()).slots[s.name].claim.Some?
      ensures View() == StartAlive(old(View()), s.name)
    {
      alive := alive[s.name := AliveFor(s.claim.value)];
    }

    method AcceptOn(s: LiveSlot, ask: ClaimRequest, now: int) returns (reply: Reply)
      requires Valid() && Has(s) && s.claim.Some?
      modifies this, s
      ensures Valid() && byName == old(byName) && s.name in old(View()).slots && old(View()).slots[s.name].claim.Some?
      ensures var out := AcceptSlot(old(View()), s.name, ask, now);
              View() == out.core && asked == old(asked) + out.ops && reply == out.reply
    {
      hide Persist;
      Registered(s);
      s.AcceptClaim(ask.schedd, config.alivesMissed, now);
      OneSlotChanged(s);
      PersistSlot(s);
      StartAliveLoop(s);
      reply := ClaimAccepted(if ask.sendClaimedAd then Some(s.claim.value.id) else None, None, false);
    }

    method AddDSlot(d: LiveSlot)
      requires Valid() && d.name !in byName
      modifies this`byName, this`dslots
      ensures Valid() && byName == old(byName)[d.name := d]
      ensures View() == old(View()).(slots := old(View()).slots[d.name := d.View()], dyn := old(View()).dyn + [d.name])
    {
      byName := byName[d.name := d];
      dslots := dslots + [d];
      assert NamesOf(dslots) == old(NamesOf(dslots)) + [d.name];
      assert Table() == old(Table())[d.name := d.View()];
    }

    /** The claim ids of p's dynamic slots, in list order. */
    method CollectChildren(p: SlotName) returns (ids: seq<ClaimId>)
      requires Valid()
      ensures ids == ChildIds(View().slots, View().dyn, p)
    {
      ids := [];
      ghost var names := NamesOf(dslots);
      assert names[..0] == [];
      for i := 0 to |dslots|
        invariant ids == ChildIds(Table(), names[..i], p)
      {
        var d := dslots[i];
        assert names[i] == d.name && Has(d) && Table()[d.name] == d.View();
        assert names[..i + 1] == names[..i] + [names[i]];
        ChildIdsAppend(Table(), names[..i], d.name, p);
        OneChild(Table(), d.name, p);
        if d.kind.CarvedFrom? && d.kind.parent == p && d.claim.Some? {
          ids := ids + [d.claim.value.id];
        }
      }
      assert names[..|dslots|] == names;
    }

    /** refreshPSlotChildren. */
    method RefreshPSlotChildren(p: LiveSlot)
      requires Valid() && Has(p)
      modifies p`children
      ensures Valid() && p.name in old(View()).slots && View() == RefreshChildren(old(View()), p.name)
    {
      hide ChildIds;
      Registered(p);
      var ids := CollectChildren(p.name);
      assert Table() == old(Table());
      p.children := ids;
      OneSlotChanged(p);
    }

    /** A new dynamic slot object, claimed, carved out of ps and registered. */
    method CarveOut(ps: LiveSlot, cl: Claim, req: Resources, schedd: Schedd, now: int) returns (d: LiveSlot)
      requires Valid() && Has(ps) && DynamicName(ps.name, dslotSeq + 1) !in byName
      modifies this`dslotSeq, this`byName, this`dslots, ps`res
      ensures Valid() && Has(d) && Has(ps) && fresh(d)
      ensures byName == old(byName)[d.name := d] && d.name == DynamicName(ps.name, old(dslotSeq) + 1)
      ensures ps.name in old(View()).slots
      ensures View() == old(View()).(
                dslotSeq := old(dslotSeq) + 1,
                slots := old(View()).slots[ps.name := old(View()).slots[ps.name].Carve(req)]
                           [d.name := NewDynamicSlot(ps.name, old(dslotSeq) + 1, req, now).(claim := Some(cl))
                                        .AcceptClaim(schedd, config.alivesMissed, now)],
                dyn := old(View()).dyn + [d.name])
    {
      Registered(ps);
      d := ClaimedDSlot(ps.name, dslotSeq + 1, cl, req, schedd, config.alivesMissed, now);
      assert Table() == old(Table());
      hide Table, Valid, Slot.AcceptClaim, NewDynamicSlot, Slot.Carve;
      RaiseSeq(dslotSeq + 1);
      CarveFrom(ps, req);
      AddDSlot(d);
    }

    /** doRequestClaimPSlot. */
    method DoRequestClaimPSlot(ps: LiveSlot, ask: ClaimRequest, now: int, mint: bool) returns (reply: Reply)
      requires Valid() && Has(ps) && ps.claim.Some? && DynamicName(ps.name, dslotSeq + 1) !in byName
      modifies this, ps
      ensures Valid() && ps.name in old(View()).slots && old(View()).slots[ps.name].claim.Some?
      ensures forall o :: o in Repr() ==> o in old(Repr()) || fresh(o)
      ensures var out := CarveClaim(old(View()), ps.name, ask, now, mint);
              View() == out.core && asked == old(asked) + out.ops && reply == out.reply
    {
      Registered(ps);
      hide Table, CarveSlot;
      var req := Requested(ask.want);
      if !ask.stillWilling || !req.AtMost(ps.res) { return ClaimRefused; }
      if !mint {
        var none := Mint(ps.name, false);
        return ClaimRefused;
      }
      reply := CarveAndPersist(ps, ask, now);
    }

    method CarveAndMint(ps: LiveSlot, ask: ClaimRequest, now: int) returns (d: LiveSlot)
      requires Valid() && Has(ps) && DynamicName(ps.name, dslotSeq + 1) !in byName
      modifies this, ps`res
      ensures Valid() && Has(d) && Has(ps) && fresh(d) && asked == old(asked)
      ensures byName == old(byName)[d.name := d] && d.name == DynamicName(ps.name, old(dslotSeq) + 1)
      ensures ps.name in old(View()).slots && View() == Carved(old(View()), ps.name, Requested(ask.want), ask.schedd, now)
    {
      Registered(ps);
      hide Table, Slot.AcceptClaim;
      var minted := Mint(DynamicName(ps.name, dslotSeq + 1), true);
      d := CarveOut(ps, minted.value, Requested(ask.want), ask.schedd, now);
    }

    method CarveAndRefresh(ps: LiveSlot, ask: ClaimRequest, now: int) returns (d: LiveSlot)
      requires Valid() && Has(ps) && DynamicName(ps.name, dslotSeq + 1) !in byName
      modifies this, ps
      ensures Valid() && Has(d) && Has(ps) && fresh(d) && asked == old(asked)
      ensures byName == old(byName)[d.name := d] && d.name == DynamicName(ps.name, old(dslotSeq) + 1)
      ensures d.claim.Some? && d.claim.value.id == old(View()).FreshId()
      ensures ps.name in old(View()).slots && ps.claim == old(ps.claim)
      ensures View() == RefreshChildren(Carved(old(View()), ps.name, Requested(ask.want), ask.schedd, now), ps.name)
    {
      d := CarveAndMint(ps, ask, now);
      Registered(d);
      assert d.claim.Some? && d.claim.value.id == old(View()).FreshId();
      hide Table, ChildIds, Carved;
      RefreshPSlotChildren(ps);
    }

    method PersistBoth(d: LiveSlot, p: LiveSlot)
      requires Valid() && Has(d) && Has(p)
      modifies this`asked
      ensures Valid() && View() == old(View()) && asked == old(asked) + (Persist(View(), d.name) + Persist(View(), p.name))
    {
      hide Persist;
      PersistSlot(d);
      PersistSlot(p);
    }

    lemma SeqOf()
      ensures View().dslotSeq == dslotSeq
    {
    }

    method PersistAndStartAlive(d: LiveSlot, p: LiveSlot)
      requires Valid() && Has(d) && Has(p) && d.claim.Some?
      modifies this`asked, this`alive
      ensures Valid() && d.name in old(View()).slots && old(View()).slots[d.name].claim.Some?
      ensures View() == StartAlive(old(View()), d.name)
      ensures asked == old(asked) + (Persist(old(View()), d.name) + Persist(old(View()), p.name))
    {
      hide Persist, StartAlive, Table;
      PersistBoth(d, p);
      StartAliveLoop(d);
    }

    method CarveAndPersist(ps: LiveSlot, ask: ClaimRequest, now: int) returns (reply: Reply)
      requires Valid() && Has(ps) && ps.claim.Some? && DynamicName(ps.name, dslotSeq + 1) !in byName
      modifies this, ps
      ensures Valid() && ps.name in old(View()).slots && old(View()).slots[ps.name].claim.Some?
      ensures forall o :: o in Repr() ==> o in old(Repr()) || fresh(o)
      ensures var out := CarveSlot(old(View()), ps.name, ask, now);
              View() == out.core && asked == old(asked) + out.ops && reply == out.reply
    {
      hide View, Persist, RefreshChildren, Carved, StartAlive, Valid, Table, NamesOf;
      Registered(ps);
      SeqOf();
      var d := CarveAndRefresh(ps, ask, now);
      PersistAndStartAlive(d, ps);
      reply := ClaimAccepted(if ask.sendClaimedAd then Some(d.claim.value.id) else None,
                             if ask.sendLeftovers then Some(ps.claim.value.id) else None, ask.secure);
    }

    method DoRequestClaim(id: ClaimId, ask: ClaimRequest, now: int, mint: bool) returns (reply: Reply)
      requires Valid() && Registry(View().fixed, View().dyn, View().slots, dslotSeq)
      modifies this, Repr()
      ensures Valid()
      ensures forall o :: o in Repr() ==> o in old(Repr()) || fresh(o)
      ensures var out := CoreModel.DoRequestClaim(old(View()), id, ask, now, mint);
              View() == out.core && asked == old(asked) + out.ops && reply == out.reply
    {
      hide FindIn, CarveClaim, AcceptSlot, Registry;
      var s := FindSlotByClaimID(id);
      if s == null || s.claim.value.state != NotClaimed { return ClaimRefused; }
      NextNameIsNew(View(), s.name);
      assert DynamicName(s.name, dslotSeq + 1) !in byName by { assert Table().Keys == byName.Keys; }
      hide Table;
      CancelMatchTimer(s.name);
      if !ask.willing { return ClaimRefused; }
      if s.kind.Partitionable? {
        reply := DoRequestClaimPSlot(s, ask, now, mint);
      } else {
        reply := AcceptOn(s, ask, now);
      }
    }

    // ------------------------------------------------------------------- release

    /** removeDSlot: out of the index, and out of the list at its first place. */
    method RemoveDSlot(name: SlotName)
      requires Valid() && NoDup(NamesOf(dslots)) && name !in NamesOf(slots)
      modifies this`byName, this`dslots
      ensures Valid() && byName == old(byName) - {name} && View() == Unregistered(old(View()), name)
    {
      byName := byName - {name};
      dslots := Without(dslots, name);
      RemoveIsDeletion(old(NamesOf(dslots)), name);
      hide Remove, NoDup;
      assert name !in NamesOf(dslots);
      assert forall k :: 0 <= k < |dslots| ==> NamesOf(dslots)[k] == dslots[k].name && dslots[k].name != name;
      assert forall k :: 0 <= k < |slots| ==> NamesOf(slots)[k] == slots[k].name && slots[k].name != name;
      assert Table() == old(Table()) - {name};
    }

    /** The store forgets a slot at once, past the persister. */
    method StoreDelete(name: SlotName)
      requires Valid()
      modifies this`asked
      ensures Valid() && View() == old(View()) && asked == old(asked) + [Delete(name)]
    {
      asked := asked + [Delete(name)];
    }

    lemma Known(n: SlotName)
      requires Valid()
      ensures n in View().slots <==> n in byName
    {
    }

    method DestroyDSlot(d: LiveSlot)
      requires Valid() && Has(d) && d.kind.CarvedFrom? && NoDup(NamesOf(dslots)) && d.name !in NamesOf(slots)
      modifies this, Repr()
      ensures Valid() && d.name in old(View()).slots && old(View()).slots[d.name].IsDynamic()
      ensures forall o :: o in Repr() ==> o in old(Repr())
      ensures var out := Destroy(old(View()), d.name); View() == out.core && asked == old(asked) + out.ops
    {
      Registered(d);
      hide Persist, Unregistered, RefreshChildren, Table, NoDup, Slot.Restore, Valid;
      RemoveDSlot(d.name);
      StoreDelete(d.name);
      Known(d.kind.parent);
      if d.kind.parent in byName {
        GiveBack(byName[d.kind.parent], d.res);
      }
    }

    method GiveBack(p: LiveSlot, share: Resources)
      requires Valid() && Has(p)
      modifies this`asked, p
      ensures Valid() && p.name in old(View()).slots
      ensures var c2 := RefreshChildren(old(View()).Put(p.name, old(View()).slots[p.name].Restore(share)), p.name);
              View() == c2 && asked == old(asked) + Persist(c2, p.name)
    {
      hide Persist, RefreshChildren, Table, Slot.Restore, Valid;
      RestoreTo(p, share);
      PersistSlot(p);
    }

    /** The parent takes the share back and its child list is recomputed. */
    method RestoreTo(p: LiveSlot, share: Resources)
      requires Valid() && Has(p)
      modifies p
      ensures Valid() && p.name in old(View()).slots
      ensures View() == RefreshChildren(old(View()).Put(p.name, old(View()).slots[p.name].Restore(share)), p.name)
    {
      Registered(p);
      hide Slot.Restore, ChildIds;
      p.Restore(share);
      OneSlotChanged(p);
      assert View() == old(View()).Put(p.name, old(View()).slots[p.name].Restore(share));
      hide Table;
      RefreshPSlotChildren(p);
    }

    /** Stops what runs for a slot: the match timer, the keepalives, the starter. */
    method DetachSlot(name: SlotName)
      requires Valid()
      modifies this`timers, this`alive, this`acts
      ensures Valid() && View() == Detach(old(View()), name)
    {
      timers := timers - {name};
      alive := alive - {name};
      acts := acts - {name};
    }

    method ReleaseSlot(s: LiveSlot, now: int, mint: bool)
      requires Valid() && Has(s) && NoDup(NamesOf(dslots)) && (s.kind.CarvedFrom? ==> s.name !in NamesOf(slots))
      modifies this, Repr()
      ensures Valid() && s.name in old(View()).slots
      ensures forall o :: o in Repr() ==> o in old(Repr())
      ensures var out := Release(old(View()), s.name, now, mint); View() == out.core && asked == old(asked) + out.ops
    {
      Registered(s);
      hide Table, Destroy, UnclaimAndSave;
      DetachSlot(s.name);
      if s.kind.CarvedFrom? {
        DestroyDSlot(s);
      } else {
        UnclaimAndPersist(s, now, mint);
      }
    }

    /** What the registry invariant says about a slot to be released. */
    lemma Releasable(s: LiveSlot)
      requires Valid() && Has(s) && Registry(View().fixed, View().dyn, View().slots, dslotSeq)
      ensures NoDup(NamesOf(dslots)) && (s.kind.CarvedFrom? ==> s.name !in NamesOf(slots))
    {
      Registered(s);
    }

    method DoReleaseByClaimID(id: ClaimId, now: int, mint: bool)
      requires Valid() && Registry(View().fixed, View().dyn, View().slots, dslotSeq)
      modifies this, Repr()
      ensures Valid()
      ensures forall o :: o in Repr() ==> o in old(Repr())
      ensures var out := CoreModel.DoReleaseClaim(old(View()), id, now, mint); View() == out.core && asked == old(asked) + out.ops
    {
      hide FindIn, Table, Release, Registry;
      var s := FindSlotByClaimID(id);
      if s == null { return; }
      Releasable(s);
      ReleaseSlot(s, now, mint);
    }

    method DoReleaseSlot(name: SlotName, now: int, mint: bool)
      requires Valid() && Registry(View().fixed, View().dyn, View().slots, dslotSeq)
      modifies this, Repr()
      ensures Valid()
      ensures forall o :: o in Repr() ==> o in old(Repr())
      ensures var out := Step(old(View()), Event.ReleaseSlot(name, now, mint)); View() == out.core && asked == old(asked) + out.ops
    {
      hide Release, Registry;
      if name !in byName { return; }
      var s := byName[name];
      Releasable(s);
      ReleaseSlot(s, now, mint);
    }

    // ------------------------------------------------------- keepalives and starters

    method DoAliveOK(name: SlotName, now: int)
      requires Valid()
      modifies this, Repr()
      ensures Valid() && byName == old(byName) && asked == old(asked) && View() == Step(old(View()), AliveOk(name, now)).core
    {
      if name !in byName { return; }
      var s := byName[name];
      Registered(s);
      if s.claim.Some? && s.claim.value.state != NotClaimed {
        s.claim := Some(Extended(s.claim.value, config.alivesMissed, now));
        OneSlotChanged(s);
      }
    }

    method DoStarterUpdate(name: SlotName, ad: string)
      requires Valid()
      modifies this, Repr()
      ensures Valid() && byName == old(byName) && asked == old(asked) && View() == Step(old(View()), StarterUpdate(name, ad)).core
    {
      if name !in byName { return; }
      var s := byName[name];
      Registered(s);
      if s.claim.Some? && s.claim.value.state != NotClaimed {
        s.claim := Some(s.claim.value.(update := ad));
        OneSlotChanged(s);
      }
    }

    method DoStarterFinal(name: SlotName, report: FinalReport)
      requires Valid()
      modifies this, Repr()
      ensures Valid() && byName == old(byName) && asked == old(asked) && View() == Step(old(View()), StarterFinal(name, report)).core
    {
      if name !in byName { return; }
      var s := byName[name];
      Registered(s);
      if s.claim.Some? && s.claim.value.state != NotClaimed {
        s.claim := Some(s.claim.value.(final := Some(report)));
        OneSlotChanged(s);
      }
    }

    /** A job on a Claimed/Idle slot: sandbox, generation, activation record, Claimed/Busy. */
    method ActivateOn(s: LiveSlot, job: JobRequest, now: int) returns (reply: Reply)
      requires Valid() && Has(s) && s.claim.Some?
      modifies this, s
      ensures Valid() && byName == old(byName) && s.name in old(View()).slots && old(View()).slots[s.name].claim.Some?
      ensures var out := ActivateSlot(old(View()), s.name, job, now);
              View() == out.core && asked == old(asked) + out.ops && reply == out.reply
    {
      Registered(s);
      hide Persist, Table, Slot.SetBusy, Valid;
      if !job.sandboxMade { return ActivateRefused; }
      NextGen();
      var link := Link(SandboxDir(config.pid, s.name.slotId, sandboxSeq), job.jobAd, job.globalJobId, "", 0, "");
      if config.processMode {
        if job.spawned.None? { return ActivateRefused; }
        link := link.(starterPid := job.spawned.value.pid, socket := job.spawned.value.socket);
      }
      MakeBusy(s, Activation(gen, link, false, false, None), now);
      PersistSlot(s);
      reply := ActivateAccepted(s.name);
    }

    method NextGen()
      requires Valid()
      modifies this`gen
      ensures Valid() && View() == old(View()).(gen := old(gen) + 1)
    {
      gen := gen + 1;
    }

    method MakeBusy(s: LiveSlot, act: Activation, now: int)
      requires Valid() && Has(s) && s.claim.Some?
      modifies this`acts, s
      ensures Valid() && s.name in old(View()).slots && old(View()).slots[s.name].claim.Some?
      ensures View() == old(View()).(acts := old(acts)[s.name := act]).Put(s.name, old(View()).slots[s.name].SetBusy(now))
    {
      Registered(s);
      acts := acts[s.name := act];
      s.SetClaimState(s.claim.value.(state := ClaimedBusy, entered := now), Claimed, Busy, now);
      OneSlotChanged(s);
    }

    method DoActivateClaim(id: ClaimId, job: JobRequest, now: int) returns (reply: Reply)
      requires Valid()
      modifies this, Repr()
      ensures Valid() && byName == old(byName)
      ensures var out := CoreModel.DoActivateClaim(old(View()), id, job, now);
              View() == out.core && asked == old(asked) + out.ops && reply == out.reply
    {
      hide FindIn, ActivateSlot;
      var s := FindSlotByClaimID(id);
      if s == null || s.claim.value.state != ClaimedIdle || !job.hasUniverse || !job.willing || !config.hasExecuteDir {
        return ActivateRefused;
      }
      sandboxSeq := sandboxSeq + 1;
      assert Table() == old(Table());
      hide Table;
      reply := ActivateOn(s, job, now);
    }

    method ReleaseDeferredDeactivate(name: SlotName)
      requires Valid()
      modifies this`deferred, this`closedWaits
      ensures Valid() && View() == ReleaseDeferred(old(View()), name)
    {
      if name in deferred {
        closedWaits := closedWaits + {deferred[name]};
        deferred := deferred - {name};
      }
    }

    /** A Busy claim goes back to Idle once its starter is gone. */
    method BackToIdle(name: SlotName, final: Option<FinalReport>, now: int)
      requires Valid()
      modifies this, Repr()
      ensures Valid() && byName == old(byName)
      ensures var out := IdleSlot(old(View()), name, final, now); View() == out.core && asked == old(asked) + out.ops
    {
      hide Persist;
      if name !in byName { return; }
      var s := byName[name];
      Registered(s);
      if s.claim.Some? && s.claim.value.state == ClaimedBusy {
        s.SetClaimState(s.claim.value.(final := final, state := ClaimedIdle, entered := now), Claimed, Idle, now);
        OneSlotChanged(s);
        PersistSlot(s);
      }
    }

    /** The final report a slot's claim holds, if there is a claim. */
    method FinalOf(name: SlotName) returns (final: Option<FinalReport>)
      requires Valid()
      ensures final == ClaimAt(View(), name).final
    {
      if name !in byName || byName[name].claim.None? { return None; }
      Registered(byName[name]);
      return byName[name].claim.value.final;
    }

    method DoStarterExited(name: SlotName, now: int)
      requires Valid()
      modifies this, Repr()
      ensures Valid() && byName == old(byName)
      ensures var out := CoreModel.DoStarterExited(old(View()), name, now); View() == out.core && asked == old(asked) + out.ops
    {
      var final := FinalOf(name);
      assert final == ClaimAt(old(View()), name).final by { assert Table() == old(Table()); }
      hide IdleSlot, ClaimAt;
      if name !in acts {
        ReleaseDeferredDeactivate(name);
        return;
      }
      acts := acts - {name};
      assert Table() == old(Table());
      hide Table;
      ReleaseDeferredDeactivate(name);
      BackToIdle(name, final, now);
    }

    method DoStarterHello(name: SlotName, addr: string, pid: int)
      requires Valid()
      modifies this, Repr()
      ensures Valid() && byName == old(byName)
      ensures var out := CoreModel.DoStarterHello(old(View()), name, addr, pid); View() == out.core && asked == old(asked) + out.ops
    {
      hide Persist;
      if name !in acts { return; }
      var link, changed := acts[name].link, false;
      if addr != "" && link.starterAddr != addr {
        link, changed := link.(starterAddr := addr), true;
      }
      if pid != 0 && link.starterPid != pid {
        link, changed := link.(starterPid := pid), true;
      }
      if !changed { return; }
      acts := acts[name := acts[name].(link := link)];
      assert Table() == old(Table());
      if name in byName { PersistSlot(byName[name]); }
    }

    method DoAdoptFailed(name: SlotName, marker: Option<FinalReport>, now: int, mint: bool)
      requires Valid() && Registry(View().fixed, View().dyn, View().slots, dslotSeq)
      modifies this, Repr()
      ensures Valid()
      ensures forall o :: o in Repr() ==> o in old(Repr())
      ensures var out := CoreModel.DoAdoptFailed(old(View()), name, marker, now, mint);
              View() == out.core && asked == old(asked) + out.ops
    {
      hide Release, IdleSlot, Registry;
      if name !in acts { return; }
      if name in byName && marker.None? {
        var s := byName[name];
        Registered(s);
        Releasable(s);
        ReleaseSlot(s, now, mint);
        return;
      }
      acts := acts - {name};
      assert Table() == old(Table());
      if name in byName {
        hide Table;
        BackToIdle(name, marker, now);
      }
    }

    method DoDeactivate(id: ClaimId, jobDone: bool) returns (reply: Reply)
      requires Valid()
      modifies this, Repr()
      ensures Valid() && byName == old(byName)
      ensures var out := CoreModel.DoDeactivate(old(View()), id, jobDone);
              View() == out.core && asked == old(asked) + out.ops && reply == out.reply
    {
      hide FindIn;
      var s := FindSlotByClaimID(id);
      assert Table() == old(Table());
      hide Table, Valid;
      if s == null { return Deactivating(false, true, None, None); }
      if !jobDone || s.name !in acts { return Deactivating(true, false, Some(s.name), None); }
      reply := Deactivating(true, false, Some(s.name), Some(waits));
      Stash(s.name);
    }

    /** The reply of a job-done deactivation waits for the starter to be reaped. */
    method Stash(name: SlotName)
      requires Valid()
      modifies this`waits, this`deferred
      ensures Valid() && View() == old(View()).(deferred := old(deferred)[name := old(waits)], waits := old(waits) + 1)
    {
      deferred := deferred[name := waits];
      waits := waits + 1;
    }

    method DoVacate(name: SlotName, hard: bool)
      requires Valid()
      modifies this`acts
      ensures Valid() && View() == CoreModel.DoVacate(old(View()), name, hard)
    {
      if name in acts {
        acts := acts[name := Offer(acts[name].(vacating := true), if hard then VacateHard else VacateSoft)];
      }
    }

    method DoVacateEscalate(name: SlotName, generation: nat)
      requires Valid()
      modifies this`acts
      ensures Valid() && View() == CoreModel.DoVacateEscalate(old(View()), name, generation)
    {
      if name in acts && acts[name].gen == generation {
        acts := acts[name := Offer(acts[name], VacateHard)];
      }
    }

    method VacateIsTaken(name: SlotName)
      requires Valid()
      modifies this`acts
      ensures Valid() && View() == DoVacateTaken(old(View()), name)
    {
      if name in acts {
        acts := acts[name := acts[name].(box := None)];
      }
    }

    /** The events of claims and their leases. */
    method HandleClaimEvent(ev: Event) returns (reply: Reply)
      requires Valid() && Registry(View().fixed, View().dyn, View().slots, dslotSeq) && ClaimEvent(ev)
      modifies this, Repr()
      ensures Valid()
      ensures forall o :: o in Repr() ==> o in old(Repr()) || fresh(o)
      ensures var out := Step(old(View()), ev); View() == out.core && asked == old(asked) + out.ops && reply == out.reply
    {
      hide View, Registry, FindIn, CoreModel.DoMatchInfo, CoreModel.DoMatchTimeout, CoreModel.DoRequestClaim, DoReleaseClaim, Release, Valid;
      RepliesFollow(View(), ev);
      reply := NoReply;
      match ev
      case MatchInfo(id, now) => DoMatchInfo(id, now);
      case MatchTimeout(n, id, now, mint) => DoMatchTimeout(n, id, now, mint);
      case RequestClaim(id, ask, now, mint) => reply := DoRequestClaim(id, ask, now, mint);
      case ReleaseClaim(id, now, mint) => DoReleaseByClaimID(id, now, mint);
      case ReleaseSlot(n, now, mint) => DoReleaseSlot(n, now, mint);
    }

    /** The events of starters and their jobs. */
    method HandleStarterEvent(ev: Event) returns (reply: Reply)
      requires Valid() && Registry(View().fixed, View().dyn, View().slots, dslotSeq) && StarterEvent(ev)
      modifies this, Repr()
      ensures Valid()
      ensures forall o :: o in Repr() ==> o in old(Repr()) || fresh(o)
      ensures var out := Step(old(View()), ev); View() == out.core && asked == old(asked) + out.ops && reply == out.reply
    {
      hide View, Registry, FindIn, CoreModel.DoActivateClaim, CoreModel.DoStarterExited, CoreModel.DoStarterHello, CoreModel.DoAdoptFailed,
        CoreModel.DoDeactivate, Valid;
      RepliesFollow(View(), ev);
      reply := NoReply;
      match ev
      case ActivateClaim(id, job, now) => reply := DoActivateClaim(id, job, now);
      case StarterExited(n, now) => DoStarterExited(n, now);
      case StarterHello(n, addr, pid) => DoStarterHello(n, addr, pid);
      case AdoptFailed(n, marker, now, mint) => DoAdoptFailed(n, marker, now, mint);
      case Deactivate(id, jobDone) => reply := DoDeactivate(id, jobDone);
    }

    /** The events that only touch a claim's or a starter's record. */
    method HandleRecordEvent(ev: Event)
      requires Valid() && !ClaimEvent(ev) && !StarterEvent(ev)
      modifies this, Repr()
      ensures Valid() && byName == old(byName) && asked == old(asked) && View() == Step(old(View()), ev).core
    {
      hide View, OnClaimed, CoreModel.DoVacate, CoreModel.DoVacateEscalate, DoVacateTaken, FindIn, Valid;
      match ev
      case AliveOk(n, now) => DoAliveOK(n, now);
      case StarterUpdate(n, ad) => DoStarterUpdate(n, ad);
      case StarterFinal(n, report) => DoStarterFinal(n, report);
      case Vacate(n, hard) => DoVacate(n, hard);
      case VacateEscalate(n, g) => DoVacateEscalate(n, g);
      case VacateTaken(n) => VacateIsTaken(n);
    }

    /** handle: the loop's objects do exactly what the state machine's step does to their value. */
    method Handle(ev: Event) returns (reply: Reply)
      requires Valid() && Registry(View().fixed, View().dyn, View().slots, dslotSeq)
      modifies this, Repr()
      ensures Valid()
      ensures forall o :: o in Repr() ==> o in old(Repr()) || fresh(o)
      ensures var out := Step(old(View()), ev); View() == out.core && asked == old(asked) + out.ops && reply == out.reply
    {
      RecordsStoreNothing(View(), ev);
      hide View, Registry, Step, Valid;
      if ClaimEvent(ev) {
        reply := HandleClaimEvent(ev);
      } else if StarterEvent(ev) {
        reply := HandleStarterEvent(ev);
      } else {
        HandleRecordEvent(ev);
        reply := NoReply;
      }
    }

    lemma RegistryOf()
      requires Valid() && Firm(View())
      ensures Registry(View().fixed, View().dyn, View().slots, dslotSeq)
    {
    }

    /** The event loop: handling any events one after the other is a run of the state machine. */
    method Run(evs: seq<Event>) returns (replies: seq<Reply>, ghost cs: seq<Core>)
      requires Valid() && Firm(View())
      modifies this, Repr()
      ensures Valid() && Firm(View())
      ensures Trace(cs, evs) && cs[0] == old(View()) && cs[|evs|] == View() && asked == old(asked) + OpsOf(cs, evs, |evs|)
      ensures |replies| == |evs| && forall i :: 0 <= i < |evs| ==> replies[i] == Step(cs[i], evs[i]).reply
    {
      replies, cs := [], [View()];
      hide View, Valid, Firm, Step;
      for i := 0 to |evs|
        invariant Valid() && Firm(View()) && (forall o :: o in Repr() ==> o in old(Repr()) || fresh(o))
        invariant Trace(cs, evs[..i]) && cs[0] == old(View()) && cs[i] == View() && asked == old(asked) + OpsOf(cs, evs[..i], i)
        invariant |replies| == i && forall j :: 0 <= j < i ==> replies[j] == Step(cs[j], evs[j]).reply
      {
        RegistryOf();
        StepKeepsFirm(View(), evs[i]);
        var reply := Handle(evs[i]);
        OneStepMore(cs, evs, i, View());
        replies, cs := replies + [reply], cs + [View()];
      }
      assert evs[..|evs|] == evs;
    }

    // --------------------------------------------------------------- re-adoption

    method CarveFrom(p: LiveSlot, req: Resources)
      requires Valid() && Has(p)
      modifies p`res
      ensures Valid() && p.name in old(View()).slots
      ensures View() == old(View()).Put(p.name, old(View()).slots[p.name].Carve(req))
    {
      Registered(p);
      p.Carve(req);
      OneSlotChanged(p);
    }

    method RaiseSeq(n: int)
      requires Valid()
      modifies this`dslotSeq
      ensures Valid() && View() == old(View()).(dslotSeq := n)
    {
      dslotSeq := n;
    }

    /** reconstructDSlot, the parent being known; nothing to do if the slot is already there. */
    method ReconstructDSlot(rec: Record)
      requires Valid() && rec.kind.CarvedFrom? && rec.kind.parent in byName
      requires rec.name in byName || DynamicName(rec.kind.parent, rec.kind.subId) !in byName
      modifies this, Repr()
      ensures Valid() && asked == old(asked) && rec.kind.parent in old(View()).slots && (WellNamed(rec) ==> rec.name in byName)
      ensures forall o :: o in Repr() ==> o in old(Repr()) || fresh(o)
      ensures View() == Reconstructed(old(View()), rec)
    {
      var p := byName[rec.kind.parent];
      Registered(p);
      Known(rec.name);
      if rec.name in byName { return; }
      hide NewDynamicSlot, Table, Slot.Carve;
      var d := new LiveSlot(DynamicName(rec.kind.parent, rec.kind.subId), NewDynamicSlot(rec.kind.parent, rec.kind.subId, rec.res, rec.entered));
      CarveFrom(p, rec.res);
      AddDSlot(d);
      if rec.kind.subId > dslotSeq { RaiseSeq(rec.kind.subId); }
    }

    method PutClaim(s: LiveSlot, rec: Record)
      requires Valid() && Has(s) && s.name == rec.name
      modifies this`issued, s
      ensures Valid() && s.claim.Some?
      ensures rec.name in old(View()).slots
      ensures View() == old(View()).Put(rec.name, old(View()).slots[rec.name].SetClaimState(AdoptedClaim(rec), Claimed, rec.activity, rec.entered))
                          .(issued := old(View()).issued[rec.id := rec.name])
    {
      hide AdoptedClaim;
      Registered(s);
      s.SetClaimState(AdoptedClaim(rec), Claimed, rec.activity, rec.entered);
      OneSlotChanged(s);
      issued := issued[rec.id := rec.name];
    }

    method Redial(rec: Record)
      requires Valid()
      modifies this`gen, this`acts
      ensures Valid()
      ensures View() == old(View()).(gen := old(gen) + 1, acts := old(acts)[rec.name := Activation(old(gen) + 1, rec.link, true, false, None)])
    {
      gen := gen + 1;
      acts := acts[rec.name := Activation(gen, rec.link, true, false, None)];
    }

    /** The recorded claim goes back on its slot; keepalives resume; a starter with a socket is redialled. */
    method InstallClaim(s: LiveSlot, rec: Record)
      requires Valid() && Has(s) && s.name == rec.name
      modifies this, s
      ensures Valid() && byName == old(byName) && asked == old(asked)
      ensures rec.name in old(View()).slots && View() == Installed(old(View()), rec)
    {
      hide Table, StartAlive, AdoptedClaim, Slot.SetClaimState;
      PutClaim(s, rec);
      hide Valid;
      StartAliveLoop(s);
      if rec.activity == Busy && rec.link.socket != "" {
        Redial(rec);
      }
    }

    method AdoptClaimOf(rec: Record, importable: bool, ghost touched: set<SlotName>, ghost base: seq<StoreOp>, ghost dropped: seq<StoreOp>)
      requires Valid() && asked == base + dropped
      modifies this, Repr()
      ensures Valid() && (forall o :: o in Repr() ==> o in old(Repr()) || fresh(o))
      ensures var a := AdoptClaim(Adopting(old(View()), dropped, touched), rec, importable);
              View() == a.core && asked == base + a.dropped && a.touched == touched
    {
      hide Installed;
      if rec.name !in byName {
        asked := asked + [Delete(rec.name)];
        return;
      }
      var s := byName[rec.name];
      Registered(s);
      if rec.id == NO_CLAIM_ID || !importable { return; }
      InstallClaim(s, rec);
    }

    /** One stored record. */
    method AdoptRecord(rec: Record, importable: bool, touched: set<SlotName>, ghost base: seq<StoreOp>, ghost dropped: seq<StoreOp>)
      returns (touched1: set<SlotName>)
      requires Valid() && !Clash(View(), rec) && asked == base + dropped
      modifies this, Repr()
      ensures Valid() && (forall o :: o in Repr() ==> o in old(Repr()) || fresh(o))
      ensures var a := AdoptOne(Adopting(old(View()), dropped, touched), rec, importable);
              View() == a.core && asked == base + a.dropped && touched1 == a.touched
    {
      hide AdoptClaim, Reconstructed;
      touched1 := touched;
      if rec.state != Claimed { return; }
      if rec.kind.CarvedFrom? {
        if rec.kind.parent !in byName {
          asked := asked + [Delete(rec.name)];
          return;
        }
        Registered(byName[rec.kind.parent]);
        Known(rec.name);
        Known(DynamicName(rec.kind.parent, rec.kind.subId));
        ReconstructDSlot(rec);
        touched1 := touched1 + {rec.kind.parent};
      }
      hide Table;
      AdoptClaimOf(rec, importable, touched1, base, dropped);
    }

    /** The table has what the index has, the dynamic slots among them. */
    lemma TableLists()
      requires Valid()
      ensures forall n :: n in View().slots <==> n in byName
      ensures forall d :: d in View().dyn ==> d in View().slots
    {
    }

    /** The child lists of the touched p-slots, in whatever order the map gives them. */
    method RefreshAll(touched: set<SlotName>)
      requires Valid()
      modifies Repr()
      ensures Valid() && View() == Refreshed(old(View()), touched)
    {
      var left := touched;
      ghost var c := View();
      RefreshNone(c);
      TableLists();
      hide Table, Refreshed, RefreshChildren;
      while left != {}
        invariant Valid() && left <= touched
        invariant View() == Refreshed(c, touched - left)
        decreases left
      {
        var n :| n in left;
        ghost var done := touched - left;
        assert touched - (left - {n}) == done + {n};
        if n in byName {
          RefreshOneMore(c, done, n);
          RefreshPSlotChildren(byName[n]);
        } else {
          RefreshAbsent(c, done, n);
        }
        left := left - {n};
      }
      assert touched - {} == touched;
    }

    /** doAdopt: every stored record in the order listed, then the child lists. */
    method DoAdopt(recs: seq<Record>, bad: set<ClaimId>)
      requires Valid() && forall i :: 0 <= i < |recs| ==> !Clash(AdoptAll(View(), recs[..i], bad).core, recs[i])
      modifies this, Repr()
      ensures Valid() && forall o :: o in Repr() ==> o in old(Repr()) || fresh(o)
      ensures var out := Adopt(old(View()), recs, bad); View() == out.core && asked == old(asked) + out.ops
    {
      var touched: set<SlotName> := {};
      ghost var base, a := asked, Adopting(View(), [], {});
      assert recs[..0] == [];
      hide Table, AdoptOne, Refreshed, Clash;
      for i := 0 to |recs|
        invariant Valid() && (forall o :: o in Repr() ==> o in old(Repr()) || fresh(o))
        invariant a == AdoptAll(old(View()), recs[..i], bad)
        invariant View() == a.core && asked == base + a.dropped && touched == a.touched
      {
        assert recs[..i + 1][..i] == recs[..i];
        ghost var before := a;
        touched := AdoptRecord(recs[i], recs[i].id !in bad, touched, base, a.dropped);
        a := AdoptOne(before, recs[i], recs[i].id !in bad);
      }
      assert recs[..|recs|] == recs;
      RefreshAll(touched);
    }
  }

  /**
   * A whole life of the objects: booted over what an earlier life has issued, any store that life may
   * have left re-adopted, then any events served. It is a run of the state machine from the adopted
   * core, in which everything Firm says holds, and the joint invariant if no step strands a claim.
   */
  method Serve(ghost c: Core, r: Reboot, ghost t: Table, evs: seq<Event>) returns (startd: Startd, replies: seq<Reply>, ghost cs: seq<Core>)
    requires WellConfigured(r.specs) && NewBirthdate(r.birthdate, c.issued) && NO_CLAIM_ID !in c.issued
    requires AllFit(false, c, t) && Lists(r.recs, t) && KindsKept(Booting(c, r), t, r.bad)
    ensures fresh(startd) && startd.Valid() && Firm(startd.View())
    ensures Trace(cs, evs) && cs[0] == Adopt(Booting(c, r), r.recs, r.bad).core && cs[|evs|] == startd.View()
    ensures startd.asked == Adopt(Booting(c, r), r.recs, r.bad).ops + OpsOf(cs, evs, |evs|)
    ensures |replies| == |evs| && forall i :: 0 <= i < |evs| ==> replies[i] == Step(cs[i], evs[i]).reply
    ensures Invariably(cs) <==> forall i :: 0 <= i < |evs| ==> !StrandsClaim(cs[i], evs[i])
  {
    hide *;
    AdoptsSoundly(c, r, t);
    startd := Reborn(c, r);
    startd.DoAdopt(r.recs, r.bad);
    replies, cs := startd.Run(evs);
    RunKeepsInv(cs, evs);
  }

  method Reborn(ghost c: Core, r: Reboot) returns (startd: Startd)
    requires WellConfigured(r.specs)
    ensures fresh(startd) && startd.Valid() && startd.View() == Booting(c, r) && startd.asked == [] && forall o :: o in startd.Repr() ==> fresh(o)
  {
    startd := new Startd(r.config, r.birthdate, c.issued);
    hide WellConfigured, Startd.Valid;
    startd.Configure(r.specs, r.now, r.unminted);
  }

  lemma NamesMore(specs: seq<SlotSpec>, k: nat)
    requires k < |specs|
    ensures Names(specs[..k + 1]) == Names(specs[..k]) + [specs[k].name]
  {
  }

  lemma RefreshNone(c: Core)
    ensures Refreshed(c, {}) == c
  {
    assert Refreshed(c, {}).slots == c.slots;
  }

  lemma RefreshAbsent(c: Core, done: set<SlotName>, n: SlotName)
    requires n !in c.slots
    ensures Refreshed(c, done + {n}) == Refreshed(c, done)
  {
    assert Refreshed(c, done + {n}).slots == Refreshed(c, done).slots;
  }

  /** Child lists do not depend on child lists, so they can be recomputed one after the other. */
  lemma RefreshOneMore(c: Core, done: set<SlotName>, n: SlotName)
    requires n in c.slots && forall d :: d in c.dyn ==> d in c.slots
    ensures n in Refreshed(c, done).slots && RefreshChildren(Refreshed(c, done), n) == Refreshed(c, done + {n})
  {
    var f := Refreshed(c, done);
    ChildIdsFrame(c.slots, f.slots, c.dyn, n);
    assert RefreshChildren(f, n).slots == Refreshed(c, done + {n}).slots;
  }

  /**
   * A record whose name does not fit its parent and number, while the name that fits is taken: rebuilding
   * it would leave two objects under one name.
   */
  predicate Clash(c: Core, rec: Record) {
    && rec.state == Claimed && rec.kind.CarvedFrom? && rec.kind.parent in c.slots
    && rec.name !in c.slots && DynamicName(rec.kind.parent, rec.kind.subId) in c.slots
  }

  /** The records the startd writes never do that. */
  lemma WrittenNeverClash(c: Core, f0: Core, rec: Record)
    requires Written(f0, rec)
    ensures !Clash(c, rec)
  {
  }

  /** What a store of such records is adopted into: no clash on the way, and a core with the invariant. */
  lemma AdoptsSoundly(c: Core, r: Reboot, t: Table)
    requires WellConfigured(r.specs) && NewBirthdate(r.birthdate, c.issued) && NO_CLAIM_ID !in c.issued
    requires AllFit(false, c, t) && Lists(r.recs, t) && KindsKept(Booting(c, r), t, r.bad)
    ensures var f0 := Booting(c, r);
            && (forall i :: 0 <= i < |r.recs| ==> !Clash(AdoptAll(f0, r.recs[..i], r.bad).core, r.recs[i]))
            && Inv(Adopt(f0, r.recs, r.bad).core) && Firm(Adopt(f0, r.recs, r.bad).core)
  {
    var f0 := Booting(c, r);
    hide Booting, Fresh, AllFit, Lists, KindsKept, WellConfigured, Knows, Configures, Adopt, AdoptAll, Clash, Firm, Written, Drops, Inv;
    BootIsFresh(c, r);
    WrittenStays(c, f0, t);
    ListedFit(f0, t, r.recs);
    forall i | 0 <= i < |r.recs| ensures !Clash(AdoptAll(f0, r.recs[..i], r.bad).core, r.recs[i]) {
      WrittenNeverClash(AdoptAll(f0, r.recs[..i], r.bad).core, f0, r.recs[i]);
    }
    AdoptRebuilds(f0, t, r.recs, r.bad);
    InvIsFirm(Adopt(f0, r.recs, r.bad).core);
  }

  lemma OneStepMore(cs: seq<Core>, evs: seq<Event>, i: nat, c1: Core)
    requires i < |evs| && Trace(cs, evs[..i]) && c1 == Step(cs[i], evs[i]).core
    ensures Trace(cs + [c1], evs[..i + 1])
    ensures OpsOf(cs + [c1], evs[..i + 1], i + 1) == OpsOf(cs, evs[..i], i) + Step(cs[i], evs[i]).ops
  {
    hide Step;
    assert forall j :: 0 <= j < i ==> evs[..i + 1][j] == evs[..i][j];
    OpsOfSame(cs, evs[..i], cs + [c1], evs[..i + 1], i);
  }

  predicate ClaimEvent(ev: Event) { ev.MatchInfo? || ev.MatchTimeout? || ev.RequestClaim? || ev.ReleaseClaim? || ev.ReleaseSlot? }

  predicate StarterEvent(ev: Event) { ev.ActivateClaim? || ev.StarterExited? || ev.StarterHello? || ev.AdoptFailed? || ev.Deactivate? }

  lemma RecordsStoreNothing(c: Core, ev: Event)
    ensures !ClaimEvent(ev) && !StarterEvent(ev) ==> Step(c, ev).ops == [] && Step(c, ev).reply == NoReply
  {
    hide FindIn, Persist, Release, DoMatchInfo, DoMatchTimeout, DoRequestClaim, DoActivateClaim, DoStarterExited, DoStarterHello, DoAdoptFailed,
      DoDeactivate;
  }

  predicate Answered(ev: Event) { ev.RequestClaim? || ev.ActivateClaim? || ev.Deactivate? }

  /** Only three kinds of event are answered. */
  lemma RepliesFollow(c: Core, ev: Event)
    ensures !Answered(ev) ==> Step(c, ev).reply == NoReply
  {
    hide FindIn, Persist, ChildIds, Remove;
    if ev.ReleaseClaim? { FindInFinds(c.slots, c.Live(), ev.id); }
  }

  lemma NamesWithout(objects: seq<LiveSlot>, i: nat)
    requires i < |objects|
    ensures NamesOf(objects[..i] + objects[i + 1..]) == NamesOf(objects)[..i] + NamesOf(objects)[i + 1..]
  {
  }

  /** The list without the first object of that name. */
  method Without(objects: seq<LiveSlot>, name: SlotName) returns (rest: seq<LiveSlot>)
    ensures NamesOf(rest) == Remove(NamesOf(objects), name)
    ensures forall k :: 0 <= k < |rest| ==> rest[k] in objects
  {
    ghost var names := NamesOf(objects);
    var i := 0;
    while i < |objects| && objects[i].name != name
      invariant 0 <= i <= |objects|
      invariant forall k :: 0 <= k < i ==> names[k] != name
    {
      i := i + 1;
    }
    RemoveFirst(names, name, i);
    hide Remove;
    rest := objects;
    if i < |objects| {
      rest := objects[..i] + objects[i + 1..];
      NamesWithout(objects, i);
    }
  }

  lemma {:induction false} RemoveFirst(names: seq<SlotName>, n: SlotName, i: nat)
    requires i <= |names| && (forall k :: 0 <= k < i ==> names[k] != n) && (i < |names| ==> names[i] == n)
    ensures Remove(names, n) == if i < |names| then names[..i] + names[i + 1..] else names
  {
    if i > 0 {
      RemoveFirst(names[1..], n, i - 1);
      assert names == [names[0]] + names[1..];
      if i < |names| {
        assert names[..i] + names[i + 1..] == [names[0]] + (names[1..][..i - 1] + names[1..][i..]);
      }
    }
  }
}
