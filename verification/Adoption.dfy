/** Starting a core (New, prime) and re-adopting persisted claims (internal/startd/adopt.go). */
module Adoption {
  import opened Basics
  import opened Slots
  import opened CoreModel
  import opened CoreInvariant
  import opened Allocator
  import opened Persister
  import opened Images
  import opened Firmness
  import opened Runs

  // ------------------------------------------------------------------------- boot

  datatype SlotSpec = SlotSpec(name: SlotName, kind: SlotKind, share: Resources)

  ghost predicate WellConfigured(specs: seq<SlotSpec>) {
    && (forall i :: 0 <= i < |specs| ==> specs[i].name.Configured? && !specs[i].kind.CarvedFrom?)
    && (forall i, j :: 0 <= i < j < |specs| ==> specs[i].name != specs[j].name)
  }

  /**
   * New: the configured slots, each primed with a minted claim (slots in unminted are those whose
   * minting failed). issued is the history of the startd's earlier lives.
   */
  function Boot(config: Config, birthdate: int, specs: seq<SlotSpec>, now: int, unminted: set<SlotName>,
                issued: map<ClaimId, SlotName>): Core
  {
    if specs == [] then
      Core(config, birthdate, 0, [], [], map[], 0, map[], map[], map[], 0, 0, map[], 0, {}, issued)
    else
      var last := specs[|specs| - 1];
      AddConfigured(Boot(config, birthdate, specs[..|specs| - 1], now, unminted, issued), last, now, last.name !in unminted)
  }

  function AddConfigured(c: Core, spec: SlotSpec, now: int, mint: bool): Core {
    c.(mintSerial := c.mintSerial + 1, fixed := c.fixed + [spec.name],
       slots := c.slots[spec.name := PrimedSlot(c, spec, now, mint)],
       issued := if mint then c.issued[c.FreshId() := spec.name] else c.issued)
  }

  function PrimedSlot(c: Core, spec: SlotSpec, now: int, mint: bool): Slot {
    ConfiguredSlot(spec.kind, spec.share, now).(claim := if mint then Some(MintClaim(c.FreshId())) else None)
  }

  /** No dynamic slots, timers, leases, starters or stashed replies. */
  predicate Quiet(c: Core) {
    c.dyn == [] && c.timers == map[] && c.alive == map[] && c.acts == map[] && c.deferred == map[] && c.closedWaits == {}
  }

  /** None of the known ids carries this startd's birthdate with a serial yet to come. */
  ghost predicate NewBirthdate(birthdate: int, issued: map<ClaimId, SlotName>) {
    forall id :: id in issued && id.Minted? ==> id.birthdate != birthdate
  }

  lemma AddedRegistry(fixed: seq<SlotName>, slots: map<SlotName, Slot>, dslotSeq: int, n: SlotName, s: Slot)
    requires Registry(fixed, [], slots, dslotSeq) && n !in fixed && n.Configured? && !s.IsDynamic()
    ensures Registry(fixed + [n], [], slots[n := s], dslotSeq)
  {
    AppendNoDup(fixed, n);
  }

  lemma AddedIds(c: Core, n: SlotName, s: Slot, mint: bool)
    requires Ids(c.slots, c.issued, c.birthdate, c.mintSerial) && n !in c.slots
    requires Key(s) == if mint then Some(c.FreshId()) else None
    ensures Ids(c.slots[n := s], if mint then c.issued[c.FreshId() := n] else c.issued, c.birthdate, c.mintSerial + 1)
  {
    FreshIsNew(c);
  }

  lemma AddedCoherent(c: Core, spec: SlotSpec, now: int, mint: bool)
    requires AllCoherent(c) && spec.name !in c.slots && !spec.kind.CarvedFrom?
    ensures AllCoherent(AddConfigured(c, spec, now, mint))
  {
    var c1 := AddConfigured(c, spec, now, mint);
    forall m ensures Coherent(At(c1, m)) {
      assert Coherent(At(c, m));
    }
  }

  lemma AddedBalance(c: Core, spec: SlotSpec, now: int, mint: bool)
    requires Conserved(c) && Children(c.slots, c.dyn) && c.dyn == []
    ensures var c1 := AddConfigured(c, spec, now, mint); Conserved(c1) && Children(c1.slots, c1.dyn)
  {
  }

  lemma AddConfiguredKeeps(c: Core, spec: SlotSpec, now: int, mint: bool)
    requires Inv(c) && Quiet(c) && Conserved(c) && spec.name !in c.fixed
    requires spec.name.Configured? && !spec.kind.CarvedFrom?
    ensures var c1 := AddConfigured(c, spec, now, mint); Inv(c1) && Quiet(c1) && Conserved(c1)
  {
    UnlistedIsAbsent(c, spec.name);
    hide Registry, Ids, Children, AllCoherent, Generations, Waiting, Conserved;
    AddedRegistry(c.fixed, c.slots, c.dslotSeq, spec.name, PrimedSlot(c, spec, now, mint));
    AddedIds(c, spec.name, PrimedSlot(c, spec, now, mint), mint);
    AddedCoherent(c, spec, now, mint);
    AddedBalance(c, spec, now, mint);
  }

  lemma UnlistedIsAbsent(c: Core, n: SlotName)
    requires Registry(c.fixed, c.dyn, c.slots, c.dslotSeq) && n !in c.fixed && n !in c.dyn
    ensures n !in c.slots
  {
  }

  /** The slot a specification asked for: fully available, unclaimed. */
  predicate Configures(spec: SlotSpec, c: Core) {
    spec.name in c.slots &&
    var s := c.slots[spec.name];
    s.kind == spec.kind && s.full == spec.share && s.res == spec.share && !s.HasClaimed() && s.children == []
  }

  /** The core has exactly the configured slots, as configured, and knows the ids issued in earlier lives. */
  ghost predicate Booted(c: Core, specs: seq<SlotSpec>, issued: map<ClaimId, SlotName>) {
    && c.fixed == Names(specs)
    && (forall i :: 0 <= i < |specs| ==> Configures(specs[i], c))
    && Knows(c, issued)
  }

  /** The ids already issued are known, and no empty one was added. */
  ghost predicate Knows(c: Core, issued: map<ClaimId, SlotName>) {
    && (forall id :: id in issued ==> id in c.issued && c.issued[id] == issued[id])
    && (NO_CLAIM_ID !in issued ==> NO_CLAIM_ID !in c.issued)
  }

  function Names(specs: seq<SlotSpec>): seq<SlotName> { seq(|specs|, i requires 0 <= i < |specs| => specs[i].name) }

  lemma AddedConfigures(c: Core, spec: SlotSpec, other: SlotSpec, now: int, mint: bool)
    requires Configures(other, c) && other.name != spec.name
    ensures Configures(other, AddConfigured(c, spec, now, mint))
  {
  }

  lemma AddedKnows(c: Core, spec: SlotSpec, issued: map<ClaimId, SlotName>, now: int, mint: bool)
    requires Knows(c, issued) && c.FreshId() !in c.issued
    ensures Knows(AddConfigured(c, spec, now, mint), issued)
    ensures Configures(spec, AddConfigured(c, spec, now, mint))
  {
  }

  lemma AddedBooted(c: Core, specs: seq<SlotSpec>, k: nat, issued: map<ClaimId, SlotName>, now: int, mint: bool)
    requires WellConfigured(specs) && k < |specs| && Booted(c, specs[..k], issued)
    requires c.FreshId() !in c.issued
    ensures Booted(AddConfigured(c, specs[k], now, mint), specs[..k + 1], issued)
  {
    var c1 := AddConfigured(c, specs[k], now, mint);
    assert Names(specs[..k + 1]) == Names(specs[..k]) + [specs[k].name];
    assert c1.fixed == c.fixed + [specs[k].name];
    hide Configures, Knows, AddConfigured, Names;
    AddedKnows(c, specs[k], issued, now, mint);
    var upto := specs[..k + 1];
    forall i | 0 <= i < |upto| ensures Configures(upto[i], c1) {
      if i < k {
        assert specs[..k][i] == specs[i];
        AddedConfigures(c, specs[k], specs[i], now, mint);
      }
    }
  }

  lemma NameIsFree(specs: seq<SlotSpec>, k: nat)
    requires WellConfigured(specs) && k < |specs|
    ensures specs[k].name !in Names(specs[..k]) && WellConfigured(specs[..k])
  {
  }

  /** A booted core has the invariant, conserves resources and remembers the issued ids. */
  lemma {:induction false} BootKeeps(config: Config, birthdate: int, specs: seq<SlotSpec>, now: int, unminted: set<SlotName>,
                                     issued: map<ClaimId, SlotName>)
    requires WellConfigured(specs) && NewBirthdate(birthdate, issued)
    ensures var c := Boot(config, birthdate, specs, now, unminted, issued);
            Inv(c) && Quiet(c) && Conserved(c) && Booted(c, specs, issued)
  {
    if specs == [] {
      EmptyBoot(config, birthdate, now, unminted, issued);
    } else {
      var k := |specs| - 1;
      var c := Boot(config, birthdate, specs[..k], now, unminted, issued);
      NameIsFree(specs, k);
      hide Inv, Conserved, Configures, Knows, Names, WellConfigured, AddConfigured;
      BootKeeps(config, birthdate, specs[..k], now, unminted, issued);
      InvIsFirm(c);
      FreshId(c);
      assert specs[k].name.Configured? && !specs[k].kind.CarvedFrom? by { SpecIsPlain(specs, k); }
      AddConfiguredKeeps(c, specs[k], now, specs[k].name !in unminted);
      AddedBooted(c, specs, k, issued, now, specs[k].name !in unminted);
      assert specs[..k + 1] == specs;
    }
  }

  /** Every configured slot is offered under a claim of its own, unless minting failed. */
  lemma {:induction false} BootPrimes(config: Config, birthdate: int, specs: seq<SlotSpec>, now: int, unminted: set<SlotName>,
                                      issued: map<ClaimId, SlotName>, i: nat)
    requires WellConfigured(specs) && i < |specs|
    ensures var c := Boot(config, birthdate, specs, now, unminted, issued);
            && c.mintSerial == |specs| && specs[i].name in c.slots
            && var s := c.slots[specs[i].name];
            && s.state == Unclaimed && s.activity == Idle && s.entered == now
            && if specs[i].name in unminted then s.claim.None?
               else s.claim.Some? && s.claim.value.id == Minted(birthdate, i + 1) && s.claim.value.state == NotClaimed
  {
    var k := |specs| - 1;
    BootSerial(config, birthdate, specs[..k], now, unminted, issued);
    if i < k {
      NameIsFree(specs, k);
      BootPrimes(config, birthdate, specs[..k], now, unminted, issued, i);
      assert specs[..k][i] == specs[i] && specs[i].name != specs[k].name;
    }
  }

  lemma {:induction false} BootSerial(config: Config, birthdate: int, specs: seq<SlotSpec>, now: int, unminted: set<SlotName>,
                                      issued: map<ClaimId, SlotName>)
    ensures var c := Boot(config, birthdate, specs, now, unminted, issued); c.mintSerial == |specs| && c.birthdate == birthdate
  {
    if specs != [] { BootSerial(config, birthdate, specs[..|specs| - 1], now, unminted, issued); }
  }

  lemma SpecIsPlain(specs: seq<SlotSpec>, k: nat)
    requires WellConfigured(specs) && k < |specs|
    ensures specs[k].name.Configured? && !specs[k].kind.CarvedFrom?
  {
  }

  lemma EmptyBoot(config: Config, birthdate: int, now: int, unminted: set<SlotName>, issued: map<ClaimId, SlotName>)
    requires NewBirthdate(birthdate, issued)
    ensures var c := Boot(config, birthdate, [], now, unminted, issued);
            Inv(c) && Quiet(c) && Conserved(c) && Booted(c, [], issued)
  {
    assert forall n :: Coherent(At(Boot(config, birthdate, [], now, unminted, issued), n));
  }

  // --------------------------------------------------------------------- adoption

  /** doAdopt under way: records it gave up on, and the p-slots whose child lists must be rebuilt. */
  datatype Adopting = Adopting(core: Core, dropped: seq<StoreOp>, touched: set<SlotName>)

  /** reconstructDSlot, once the parent is known to exist. */
  function Reconstructed(c: Core, rec: Record): Core
    requires rec.kind.CarvedFrom? && rec.kind.parent in c.slots
  {
    if rec.name in c.slots then c
    else
      var p := rec.kind.parent;
      var d := DynamicName(p, rec.kind.subId);
      c.(slots := c.slots[p := c.slots[p].Carve(rec.res)][d := NewDynamicSlot(p, rec.kind.subId, rec.res, rec.entered)],
         dyn := c.dyn + [d],
         dslotSeq := if rec.kind.subId > c.dslotSeq then rec.kind.subId else c.dslotSeq)
  }

  /** claim.Adopt. */
  function AdoptedClaim(rec: Record): Claim {
    Claim(rec.id, if rec.activity == Busy then ClaimedBusy else ClaimedIdle, rec.schedd, rec.lease, rec.entered, "", None)
  }

  /** The slot takes the recorded claim; a Busy one with a socket to redial gets its activation back. */
  function Installed(c: Core, rec: Record): Core
    requires rec.name in c.slots
  {
    var s := c.slots[rec.name].SetClaimState(AdoptedClaim(rec), Claimed, rec.activity, rec.entered);
    var c1 := StartAlive(c.Put(rec.name, s).(issued := c.issued[rec.id := rec.name]), rec.name);
    if rec.activity == Busy && rec.link.socket != "" then
      c1.(gen := c1.gen + 1, acts := c1.acts[rec.name := Activation(c1.gen + 1, rec.link, true, false, None)])
    else c1
  }

  function AdoptClaim(a: Adopting, rec: Record, importable: bool): Adopting {
    if rec.name !in a.core.slots then a.(dropped := a.dropped + [Delete(rec.name)])
    else if rec.id == NO_CLAIM_ID || !importable then a
    else a.(core := Installed(a.core, rec))
  }

  function AdoptOne(a: Adopting, rec: Record, importable: bool): Adopting {
    if rec.state != Claimed then a
    else if !rec.kind.CarvedFrom? then AdoptClaim(a, rec, importable)
    else if rec.kind.parent !in a.core.slots then a.(dropped := a.dropped + [Delete(rec.name)])
    else AdoptClaim(a.(core := Reconstructed(a.core, rec), touched := a.touched + {rec.kind.parent}), rec, importable)
  }

  /** The records in the order List returned them; bad are the ids whose session cannot be imported. */
  function AdoptAll(c: Core, recs: seq<Record>, bad: set<ClaimId>): Adopting {
    if recs == [] then Adopting(c, [], {})
    else AdoptOne(AdoptAll(c, recs[..|recs| - 1], bad), recs[|recs| - 1], recs[|recs| - 1].id !in bad)
  }

  /** Every touched p-slot's child list, recomputed. */
  function Refreshed(c: Core, touched: set<SlotName>): Core {
    c.(slots := map n | n in c.slots :: if n in touched then c.slots[n].(children := ChildIds(c.slots, c.dyn, n)) else c.slots[n])
  }

  /** doAdopt. */
  function Adopt(c: Core, recs: seq<Record>, bad: set<ClaimId>): Outcome {
    var a := AdoptAll(c, recs, bad);
    Outcome(Refreshed(a.core, a.touched), a.dropped, NoReply)
  }

  // ------------------------------------------------ what adopting one record keeps

  /** The invariant without the child lists, which are only rebuilt at the end. */
  ghost predicate Base(c: Core) {
    && Registry(c.fixed, c.dyn, c.slots, c.dslotSeq)
    && Ids(c.slots, c.issued, c.birthdate, c.mintSerial)
    && AllCoherent(c) && Generations(c.acts, c.gen)
  }

  predicate SameStart(c: Core, c1: Core) {
    && c1.fixed == c.fixed && c1.config == c.config && c1.birthdate == c.birthdate && c1.mintSerial == c.mintSerial
    && c1.issued == c.issued && c1.timers == c.timers
    && c1.deferred == c.deferred && c1.waits == c.waits && c1.closedWaits == c.closedWaits
  }

  predicate SameSpecAt(c: Core, c1: Core, n: SlotName) {
    n in c.slots && n in c1.slots && c1.slots[n].kind == c.slots[n].kind && c1.slots[n].full == c.slots[n].full
  }

  ghost predicate SameSpecs(c: Core, c1: Core) {
    c1.fixed == c.fixed && forall n :: n in c.fixed ==> SameSpecAt(c, c1, n)
  }

  ghost predicate Childless(c: Core) { forall n :: n in c.slots ==> c.slots[n].children == [] }

  lemma ReconstructedRegistry(fixed: seq<SlotName>, dyn: seq<SlotName>, slots: map<SlotName, Slot>, dslotSeq: int,
                              p: SlotName, sub: int, s: Slot, t: Slot, seq1: int)
    requires Registry(fixed, dyn, slots, dslotSeq) && p in fixed && slots[p].kind.Partitionable?
    requires DynamicName(p, sub) !in slots && s.kind == slots[p].kind && t.kind == CarvedFrom(p, sub)
    requires dslotSeq <= seq1 && sub <= seq1
    ensures Registry(fixed, dyn + [DynamicName(p, sub)], slots[p := s][DynamicName(p, sub) := t], seq1)
  {
    var d := DynamicName(p, sub);
    AppendNoDup(dyn, d);
    var slots1 := slots[p := s][d := t];
    assert forall n :: n in slots ==> slots1[n].kind == slots[n].kind;
    assert forall n :: n in dyn + [d] <==> n in dyn || n == d;
    hide NoDup;
  }

  lemma UnclaimedIds(slots: map<SlotName, Slot>, issued: map<ClaimId, SlotName>, birthdate: int, serial: nat,
                     p: SlotName, s: Slot, d: SlotName, t: Slot)
    requires Ids(slots, issued, birthdate, serial) && p in slots && Key(s) == Key(slots[p]) && t.claim.None?
    ensures Ids(slots[p := s][d := t], issued, birthdate, serial)
  {
  }

  lemma ReconstructedEntry(c: Core, rec: Record, m: SlotName)
    requires rec.kind.CarvedFrom? && rec.kind.parent in c.slots && rec.name !in c.slots
    requires rec.name == DynamicName(rec.kind.parent, rec.kind.subId)
    ensures var c1 := Reconstructed(c, rec);
            && At(c1, m).act == At(c, m).act && At(c1, m).alive == At(c, m).alive && At(c1, m).timer == At(c, m).timer
            && (m != rec.name && m != rec.kind.parent ==> At(c1, m) == At(c, m))
            && (m == rec.kind.parent ==> At(c1, m).slot == Some(c.slots[m].Carve(rec.res)))
            && (m == rec.name ==>
                  At(c1, m).slot == Some(NewDynamicSlot(rec.kind.parent, rec.kind.subId, rec.res, rec.entered)))
  {
  }

  lemma ReconstructedCoherent(c: Core, rec: Record)
    requires AllCoherent(c) && rec.kind.CarvedFrom? && rec.kind.parent in c.slots && rec.name !in c.slots
    requires rec.name == DynamicName(rec.kind.parent, rec.kind.subId)
    ensures AllCoherent(Reconstructed(c, rec))
  {
    hide Reconstructed;
    forall m ensures Coherent(At(Reconstructed(c, rec), m)) {
      assert Coherent(At(c, m));
      ReconstructedEntry(c, rec, m);
    }
  }

  lemma ReconstructedKeeps(c: Core, rec: Record)
    requires Base(c) && rec.kind.CarvedFrom? && rec.kind.parent in c.fixed && rec.kind.parent in c.slots
    requires c.slots[rec.kind.parent].kind.Partitionable?
    requires rec.name !in c.slots && rec.name == DynamicName(rec.kind.parent, rec.kind.subId)
    ensures Base(Reconstructed(c, rec))
  {
    hide Registry, Ids, AllCoherent, Generations;
    var p := rec.kind.parent;
    var c1 := Reconstructed(c, rec);
    var t := NewDynamicSlot(p, rec.kind.subId, rec.res, rec.entered);
    ReconstructedRegistry(c.fixed, c.dyn, c.slots, c.dslotSeq, p, rec.kind.subId, c.slots[p].Carve(rec.res), t, c1.dslotSeq);
    UnclaimedIds(c.slots, c.issued, c.birthdate, c.mintSerial, p, c.slots[p].Carve(rec.res), rec.name, t);
    ReconstructedCoherent(c, rec);
  }

  lemma ReconstructedBalance(c: Core, rec: Record, q: SlotName)
    requires rec.kind.CarvedFrom? && rec.kind.parent in c.slots && rec.name !in c.slots
    requires rec.name == DynamicName(rec.kind.parent, rec.kind.subId) && rec.kind.parent !in c.dyn
    requires (forall d :: d in c.dyn ==> d in c.slots) && q in c.slots && Balanced(c.slots, c.dyn, q)
    ensures var c1 := Reconstructed(c, rec); q in c1.slots && Balanced(c1.slots, c1.dyn, q)
  {
    hide SumOf;
    var c1 := Reconstructed(c, rec);
    SumAppend(c1.slots, c.dyn, rec.name, q);
    SumFrame(c.slots, c1.slots, c.dyn, q);
  }

  lemma ReconstructedConserves(c: Core, rec: Record)
    requires Conserved(c) && rec.kind.CarvedFrom? && rec.kind.parent in c.slots && rec.name !in c.slots
    requires rec.name == DynamicName(rec.kind.parent, rec.kind.subId) && rec.kind.parent !in c.dyn
    requires forall d :: d in c.dyn ==> d in c.slots
    ensures Conserved(Reconstructed(c, rec))
  {
    hide Balanced;
    var c1 := Reconstructed(c, rec);
    forall q | q in c1.slots && c1.slots[q].kind.Partitionable? ensures Balanced(c1.slots, c1.dyn, q) {
      assert q in c.slots && c.slots[q].kind.Partitionable?;
      ReconstructedBalance(c, rec, q);
    }
  }

  lemma InstalledEntry(c: Core, rec: Record)
    requires rec.name in c.slots
    requires Coherent(At(c, rec.name)) && !c.Claimed(rec.name) && rec.name !in c.timers
    requires !c.slots[rec.name].kind.Partitionable?
    ensures var c1 := Installed(c, rec);
            OnlyAt(c, c1, rec.name) && Coherent(At(c1, rec.name)) && c1.Claimed(rec.name)
  {
    InstalledElsewhere(c, rec);
    hide OnlyAt;
  }

  lemma InstalledElsewhere(c: Core, rec: Record)
    requires rec.name in c.slots
    ensures OnlyAt(c, Installed(c, rec), rec.name)
  {
    hide AdoptedClaim, Slot.SetClaimState;
  }

  /** A claim may be installed on n under any id that was issued to n. */
  lemma InstalledIds(slots: map<SlotName, Slot>, issued: map<ClaimId, SlotName>, birthdate: int, serial: nat,
                     n: SlotName, s: Slot, id: ClaimId)
    requires Ids(slots, issued, birthdate, serial) && Key(s) == Some(id) && id in issued && issued[id] == n
    ensures Ids(slots[n := s], issued, birthdate, serial)
  {
  }

  lemma InstalledPlace(c: Core, rec: Record)
    requires rec.name in c.slots && OwnId(c, rec)
    ensures var c1 := Installed(c, rec);
            var a := Activation(c.gen + 1, rec.link, true, false, None);
            && SameStart(c, c1) && c1.dyn == c.dyn && c1.dslotSeq == c.dslotSeq
            && rec.name in c1.slots && c1.slots == c.slots[rec.name := c1.slots[rec.name]]
            && c1.slots[rec.name].kind == c.slots[rec.name].kind && Key(c1.slots[rec.name]) == Some(rec.id)
            && ((c1.gen == c.gen && c1.acts == c.acts) || (rec.link.socket != "" && c1.gen == c.gen + 1 && c1.acts == c.acts[rec.name := a]))
  {
    assert c.issued[rec.id := rec.name] == c.issued;
  }

  lemma InstalledKeeps(c: Core, rec: Record)
    requires Base(c) && rec.name in c.slots && !c.Claimed(rec.name) && rec.name !in c.timers
    requires !c.slots[rec.name].kind.Partitionable? && OwnId(c, rec)
    ensures var c1 := Installed(c, rec); Base(c1) && SameStart(c, c1)
  {
    var c1 := Installed(c, rec);
    assert Coherent(At(c, rec.name));
    InstalledPlace(c, rec);
    hide Registry, Ids, AllCoherent, Generations, Coherent, At, OnlyAt, Installed, Core.Claimed;
    InstalledEntry(c, rec);
    LocalStep(c, c1, rec.name);
    RegistryEdit(c, rec.name, c1.slots[rec.name]);
    InstalledIds(c.slots, c.issued, c.birthdate, c.mintSerial, rec.name, c1.slots[rec.name], rec.id);
    NextGeneration(c.acts, c.gen, rec.name, Activation(c.gen + 1, rec.link, true, false, None));
  }

  lemma InstalledShares(c: Core, rec: Record)
    requires rec.name in c.slots
    ensures SameShares(c, Installed(c, rec)) && (Childless(c) ==> Childless(Installed(c, rec)))
  {
  }
}
