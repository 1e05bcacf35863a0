/**
 * Re-adoption record by record: whatever the store lists, in whatever order and with whatever sessions
 * failing to import, the claims that can be restored are, and the invariant holds again.
 */
module Restart {
  import opened Basics
  import opened Slots
  import opened CoreModel
  import opened CoreInvariant
  import opened Allocator
  import opened Persister
  import opened Images
  import opened Stored
  import opened Adoption

  // ------------------------------------------------------- what adoption makes of a record

  /** The session of the record's claim can be imported. */
  predicate Importable(rec: Record, bad: set<ClaimId>) { rec.id != NO_CLAIM_ID && rec.id !in bad }

  /** A dynamic slot is rebuilt, whether or not its claim can be restored. */
  predicate Rebuilds(f0: Core, rec: Record) { rec.state == Claimed && rec.kind.CarvedFrom? && Placeable(f0, rec) }

  predicate Claims(f0: Core, rec: Record, bad: set<ClaimId>) { rec.state == Claimed && Placeable(f0, rec) && Importable(rec, bad) }

  /** Adoption does something with the record: rebuilds its slot or restores its claim. */
  predicate Acts(f0: Core, rec: Record, bad: set<ClaimId>) { Rebuilds(f0, rec) || Claims(f0, rec, bad) }

  /** What adoption acts on has not changed its kind. */
  predicate Safe(f0: Core, rec: Record, bad: set<ClaimId>) { Acts(f0, rec, bad) ==> KeepsKind(f0, rec) }

  ghost predicate RebuiltIn(f0: Core, recs: seq<Record>, n: SlotName) {
    exists i :: 0 <= i < |recs| && Rebuilds(f0, recs[i]) && recs[i].name == n
  }

  ghost predicate ClaimsIn(f0: Core, recs: seq<Record>, bad: set<ClaimId>, n: SlotName) {
    exists i :: 0 <= i < |recs| && Claims(f0, recs[i], bad) && recs[i].name == n
  }

  /** The records of slots that are gone are deleted. */
  function Drops(f0: Core, recs: seq<Record>): seq<StoreOp> {
    if recs == [] then []
    else
      Drops(f0, recs[..|recs| - 1]) + DropOf(f0, recs[|recs| - 1])
  }

  function DropOf(f0: Core, rec: Record): seq<StoreOp> {
    if rec.state == Claimed && !Placeable(f0, rec) then [Delete(rec.name)] else []
  }

  ghost predicate NotSeen(recs: seq<Record>, n: SlotName) { forall i :: 0 <= i < |recs| ==> recs[i].name != n }

  lemma OneMore(f0: Core, recs: seq<Record>, rec: Record, bad: set<ClaimId>, n: SlotName)
    ensures RebuiltIn(f0, recs + [rec], n) <==> RebuiltIn(f0, recs, n) || (Rebuilds(f0, rec) && rec.name == n)
    ensures ClaimsIn(f0, recs + [rec], bad, n) <==> ClaimsIn(f0, recs, bad, n) || (Claims(f0, rec, bad) && rec.name == n)
    ensures Drops(f0, recs + [rec]) == Drops(f0, recs) + DropOf(f0, rec)
  {
    hide Rebuilds, Claims, Placeable;
    var all := recs + [rec];
    assert all[..|recs|] == recs && all[|recs|] == rec;
    assert forall i :: 0 <= i < |recs| ==> all[i] == recs[i];
  }

  // ------------------------------------------------------------------ the fold's invariant

  /** The record's claim is installed on its slot, starter linkage, lease and times included. */
  predicate Done(c: Core, rec: Record) {
    && c.Claimed(rec.name) && Norm(RecordOf(c, rec.name)) == Norm(rec)
    && c.slots[rec.name].claim.value.lease == rec.lease && c.slots[rec.name].entered == rec.entered
  }

  /** Exactly the claims that can be restored are, each as recorded. */
  ghost predicate AllDone(f0: Core, c: Core, recs: seq<Record>, bad: set<ClaimId>) {
    && (forall i :: 0 <= i < |recs| && Claims(f0, recs[i], bad) ==> Done(c, recs[i]))
    && (forall n :: c.Claimed(n) ==> ClaimsIn(f0, recs, bad, n))
  }

  predicate RebuiltSlot(a: Adopting, d: SlotName) {
    && d in a.core.slots && a.core.slots[d].kind.CarvedFrom? && a.core.slots[d].kind.parent in a.touched
    && NOTHING.AtMost(a.core.slots[d].res)
  }

  /** The slot is there with the recorded kind and share, whether or not its claim is. */
  predicate AsRecorded(c: Core, rec: Record) {
    rec.name in c.slots && c.slots[rec.name].kind == rec.kind && c.slots[rec.name].res == rec.res
  }

  /** Exactly the recorded dynamic slots are there, as recorded. */
  ghost predicate AllRebuilt(f0: Core, c: Core, recs: seq<Record>) {
    && (forall d :: d in c.dyn <==> RebuiltIn(f0, recs, d))
    && (forall i :: 0 <= i < |recs| && Rebuilds(f0, recs[i]) ==> AsRecorded(c, recs[i]))
  }

  /** And their parents are due a refresh. */
  ghost predicate Dynamics(f0: Core, a: Adopting, recs: seq<Record>) {
    AllRebuilt(f0, a.core, recs) && forall d :: d in a.core.dyn ==> RebuiltSlot(a, d)
  }

  /** Every activation is an adopted one, with a socket to redial, and no vacate under way. */
  ghost predicate Redialing(acts: map<SlotName, Activation>) {
    forall n :: n in acts ==> acts[n].adopted && acts[n].link.socket != "" && !acts[n].vacating && acts[n].box.None?
  }

  /** What no record disturbs. */
  ghost predicate Steady(f0: Core, c: Core) {
    && SameStart(f0, c) && SameSpecs(f0, c) && c.timers == map[] && Childless(c)
    && Base(c) && Conserved(c) && Redialing(c.acts)
  }

  ghost predicate Rebuilding(f0: Core, a: Adopting, recs: seq<Record>, bad: set<ClaimId>) {
    && Steady(f0, a.core) && Dynamics(f0, a, recs) && AllDone(f0, a.core, recs, bad) && a.dropped == Drops(f0, recs)
  }

  /** Right before a record's claim is installed: its slot exists, unclaimed and of the recorded kind. */
  ghost predicate Ready(f0: Core, a: Adopting, recs: seq<Record>, bad: set<ClaimId>, rec: Record) {
    && Steady(f0, a.core) && Dynamics(f0, a, recs + [rec]) && AllDone(f0, a.core, recs, bad) && a.dropped == Drops(f0, recs + [rec])
    && SlotReady(a, rec)
  }

  predicate SlotReady(a: Adopting, rec: Record) {
    && rec.name in a.core.slots && !a.core.Claimed(rec.name) && a.core.slots[rec.name].kind == rec.kind
    && !rec.kind.Partitionable? && rec.res == (if rec.kind.CarvedFrom? then a.core.slots[rec.name].res else NOTHING)
  }

  // ------------------------------------------------------------------- installing a claim

  lemma DoneElsewhere(c: Core, c1: Core, rec: Record)
    requires Done(c, rec) && At(c1, rec.name).slot == At(c, rec.name).slot && At(c1, rec.name).act == At(c, rec.name).act
    ensures Done(c1, rec)
  {
  }

  lemma InstalledIsDone(c: Core, rec: Record)
    requires rec.name in c.slots && rec.name !in c.acts && rec.state == Claimed && (rec.activity == Idle ==> rec.link.socket == "")
    requires c.slots[rec.name].kind == rec.kind && (if rec.kind.CarvedFrom? then c.slots[rec.name].res else NOTHING) == rec.res
    ensures Done(Installed(c, rec), rec)
  {
  }

  /** Installing one more claim: the others stay done. */
  lemma InstalledAllDone(f0: Core, c: Core, c1: Core, recs: seq<Record>, bad: set<ClaimId>, rec: Record)
    requires AllDone(f0, c, recs, bad) && Done(c1, rec) && OnlyAt(c, c1, rec.name) && NotSeen(recs, rec.name) && Claims(f0, rec, bad)
    ensures AllDone(f0, c1, recs + [rec], bad)
  {
    hide Norm, RecordOf, Claims, ClaimsIn;
    var all := recs + [rec];
    forall i | 0 <= i < |all| && Claims(f0, all[i], bad) ensures Done(c1, all[i]) {
      if i < |recs| {
        assert Done(c, recs[i]) && recs[i].name != rec.name;
        DoneElsewhere(c, c1, recs[i]);
      }
    }
    forall n | c1.Claimed(n) ensures ClaimsIn(f0, all, bad, n) {
      OneMore(f0, recs, rec, bad, n);
      if n != rec.name { assert At(c1, n).slot == At(c, n).slot; }
    }
  }

  /** A record that claims nothing: nothing changes. */
  lemma SkippedAllDone(f0: Core, c: Core, recs: seq<Record>, bad: set<ClaimId>, rec: Record)
    requires AllDone(f0, c, recs, bad) && !Claims(f0, rec, bad)
    ensures AllDone(f0, c, recs + [rec], bad)
  {
    hide Done, Claims, ClaimsIn;
    forall n | c.Claimed(n) ensures ClaimsIn(f0, recs + [rec], bad, n) {
      OneMore(f0, recs, rec, bad, n);
    }
  }

  lemma SkippedDynamics(f0: Core, a: Adopting, recs: seq<Record>, rec: Record)
    requires Dynamics(f0, a, recs) && !Rebuilds(f0, rec)
    ensures Dynamics(f0, a, recs + [rec])
  {
    hide Rebuilds, RebuiltIn, RebuiltSlot, AsRecorded;
    forall d ensures d in a.core.dyn <==> RebuiltIn(f0, recs + [rec], d) {
      OneMore(f0, recs, rec, {}, d);
    }
  }

  lemma InstalledSpecs(f0: Core, c: Core, rec: Record)
    requires SameSpecs(f0, c) && rec.name in c.slots
    ensures SameSpecs(f0, Installed(c, rec))
  {
    InstalledShares(c, rec);
    hide Installed;
    var c1 := Installed(c, rec);
    forall n | n in f0.fixed ensures SameSpecAt(f0, c1, n) {
      assert SameSpecAt(f0, c, n) && SameAmounts(c.slots[n], c1.slots[n]);
    }
  }

  lemma DynamicsKept(f0: Core, a: Adopting, c1: Core, recs: seq<Record>)
    requires Dynamics(f0, a, recs) && SameShares(a.core, c1)
    ensures Dynamics(f0, a.(core := c1), recs)
  {
    hide RebuiltIn, Rebuilds;
    RebuiltKept(f0, a.core, c1, recs);
    forall d | d in c1.dyn ensures RebuiltSlot(a.(core := c1), d) {
      assert RebuiltSlot(a, d) && SameAmounts(a.core.slots[d], c1.slots[d]);
    }
  }

  lemma RebuiltKept(f0: Core, c: Core, c1: Core, recs: seq<Record>)
    requires AllRebuilt(f0, c, recs) && SameShares(c, c1)
    ensures AllRebuilt(f0, c1, recs)
  {
    hide RebuiltIn, Rebuilds;
    forall i | 0 <= i < |recs| && Rebuilds(f0, recs[i]) ensures AsRecorded(c1, recs[i]) {
      assert AsRecorded(c, recs[i]) && SameAmounts(c.slots[recs[i].name], c1.slots[recs[i].name]);
    }
  }

  lemma RedialingMore(acts: map<SlotName, Activation>, n: SlotName, link: Link, gen: nat)
    requires Redialing(acts)
    ensures link.socket != "" ==> Redialing(acts[n := Activation(gen, link, true, false, None)])
  {
  }

  lemma SameStartTwice(f0: Core, c: Core, c1: Core)
    requires SameStart(f0, c) && SameStart(c, c1)
    ensures SameStart(f0, c1)
  {
  }

  lemma UnclaimedEntry(f0: Core, c: Core, rec: Record)
    requires Steady(f0, c) && Fitting(f0, rec) && rec.name in c.slots && !c.Claimed(rec.name)
    ensures Coherent(At(c, rec.name)) && OwnId(c, rec) && rec.name !in c.timers && rec.name !in c.acts
  {
    assert Coherent(At(c, rec.name));
    hide Registry, Ids, AllCoherent, Generations, Conserved, Childless, SameSpecs, Redialing;
  }

  lemma InstalledSteady(f0: Core, c: Core, rec: Record)
    requires Steady(f0, c) && Fitting(f0, rec) && rec.name in c.slots && !c.Claimed(rec.name) && !c.slots[rec.name].kind.Partitionable?
    ensures Steady(f0, Installed(c, rec)) && OnlyAt(c, Installed(c, rec), rec.name) && SameShares(c, Installed(c, rec))
    ensures rec.name !in c.acts
  {
    UnclaimedEntry(f0, c, rec);
    hide Base, Conserved, Childless, Installed, SameSpecs, OnlyAt, Redialing, Coherent, At, Core.Claimed, Fitting, OwnId, SameStart, SameShares;
    var c1 := Installed(c, rec);
    InstalledEntry(c, rec);
    InstalledKeeps(c, rec);
    SameStartTwice(f0, c, c1);
    InstalledShares(c, rec);
    InstalledActs(c, rec);
    BaseLists(c);
    SameSharesKeep(c, c1);
    InstalledSpecs(f0, c, rec);
    RedialingMore(c.acts, rec.name, rec.link, c.gen + 1);
  }

  lemma BaseLists(c: Core)
    requires Base(c)
    ensures forall n :: n in c.dyn ==> n in c.slots
  {
    RegistryLists(c);
  }

  lemma InstalledActs(c: Core, rec: Record)
    requires rec.name in c.slots && OwnId(c, rec)
    ensures var c1 := Installed(c, rec);
            && c1.timers == c.timers
            && (c1.acts == c.acts
                || (rec.link.socket != "" && c1.acts == c.acts[rec.name := Activation(c.gen + 1, rec.link, true, false, None)]))
  {
    InstalledPlace(c, rec);
    hide Installed;
  }

  lemma InstallStage(f0: Core, a: Adopting, recs: seq<Record>, bad: set<ClaimId>, rec: Record)
    requires Ready(f0, a, recs, bad, rec) && Fitting(f0, rec) && Claims(f0, rec, bad) && NotSeen(recs, rec.name)
    ensures Rebuilding(f0, a.(core := Installed(a.core, rec)), recs + [rec], bad)
  {
    var c := a.core;
    hide Steady, AllDone, Dynamics, Installed, Done, OnlyAt, SameShares, Drops, NotSeen, Core.Claimed, Placeable;
    InstalledSteady(f0, c, rec);
    InstalledIsDone(c, rec);
    InstalledAllDone(f0, c, Installed(c, rec), recs, bad, rec);
    DynamicsKept(f0, a, Installed(c, rec), recs + [rec]);
  }

  lemma SkipStage(f0: Core, a: Adopting, recs: seq<Record>, bad: set<ClaimId>, rec: Record)
    requires Ready(f0, a, recs, bad, rec) && !Claims(f0, rec, bad)
    ensures Rebuilding(f0, a, recs + [rec], bad)
  {
    hide Steady, AllDone, Dynamics, Drops, Claims, SlotReady;
    SkippedAllDone(f0, a.core, recs, bad, rec);
  }

  // ------------------------------------------------------------------- making a slot ready

  /** The configured part of the registry never changes. */
  lemma ConfiguredSame(f0: Core, c: Core, n: SlotName)
    requires Registry(f0.fixed, f0.dyn, f0.slots, f0.dslotSeq) && f0.dyn == [] && Steady(f0, c) && n.Configured?
    ensures n in c.slots <==> n in f0.slots
    ensures n in c.slots ==> n in c.fixed && n !in c.dyn && c.slots[n].kind == f0.slots[n].kind
  {
    hide Ids, AllCoherent, Generations, Conserved, Childless, Redialing;
    if n in f0.slots { assert SameSpecAt(f0, c, n); }
  }

  /** A name no record has claimed yet is not claimed, and if dynamic not there at all. */
  lemma UnseenIsFree(f0: Core, a: Adopting, recs: seq<Record>, bad: set<ClaimId>, n: SlotName)
    requires Rebuilding(f0, a, recs, bad) && NotSeen(recs, n)
    ensures !a.core.Claimed(n) && n !in a.core.dyn && (n.Dynamic? ==> n !in a.core.slots)
  {
    hide Ids, AllCoherent, Generations, Conserved, Childless, Redialing, Done, Claims, Rebuilds, SameSpecs;
    assert a.core.Claimed(n) ==> ClaimsIn(f0, recs, bad, n);
    assert n in a.core.dyn ==> RebuiltIn(f0, recs, n);
  }

  lemma StaticIsReady(f0: Core, a: Adopting, recs: seq<Record>, bad: set<ClaimId>, rec: Record)
    requires Registry(f0.fixed, f0.dyn, f0.slots, f0.dslotSeq) && f0.dyn == []
    requires Rebuilding(f0, a, recs, bad) && Fitting(f0, rec) && rec.state == Claimed && NotSeen(recs, rec.name)
    requires !rec.kind.CarvedFrom? && Placeable(f0, rec)
    ensures Ready(f0, a, recs, bad, rec)
  {
    hide Registry, Steady, AllDone, Dynamics, Drops, NotSeen;
    UnseenIsFree(f0, a, recs, bad, rec.name);
    ConfiguredSame(f0, a.core, rec.name);
    SkippedDynamics(f0, a, recs, rec);
    OneMore(f0, recs, rec, bad, rec.name);
  }

  lemma ReconstructedSpecs(f0: Core, c: Core, rec: Record)
    requires SameStart(f0, c) && SameSpecs(f0, c) && Childless(c)
    requires rec.kind.CarvedFrom? && rec.kind.parent in c.slots && rec.name !in c.slots
    requires rec.name == DynamicName(rec.kind.parent, rec.kind.subId)
    ensures var c1 := Reconstructed(c, rec);
            SameStart(f0, c1) && SameSpecs(f0, c1) && Childless(c1) && c1.timers == c.timers && c1.acts == c.acts
  {
    var c1 := Reconstructed(c, rec);
    forall n | n in f0.fixed ensures SameSpecAt(f0, c1, n) {
      assert SameSpecAt(f0, c, n);
    }
  }

  lemma ReconstructedSteady(f0: Core, c: Core, rec: Record)
    requires Steady(f0, c) && rec.kind.CarvedFrom? && rec.kind.parent in c.fixed && rec.kind.parent in c.slots
    requires c.slots[rec.kind.parent].kind.Partitionable? && rec.kind.parent !in c.dyn
    requires rec.name !in c.slots && rec.name == DynamicName(rec.kind.parent, rec.kind.subId)
    ensures Steady(f0, Reconstructed(c, rec))
  {
    RegistryLists(c);
    hide Registry, Ids, AllCoherent, Generations, Conserved, Childless, Reconstructed, SameSpecs, SameStart, Redialing;
    ReconstructedKeeps(c, rec);
    ReconstructedConserves(c, rec);
    ReconstructedSpecs(f0, c, rec);
  }

  /** Making room for a dynamic slot leaves everything claimed as it was. */
  lemma ReconstructedAllDone(f0: Core, c: Core, rec: Record, recs: seq<Record>, bad: set<ClaimId>)
    requires AllDone(f0, c, recs, bad) && rec.kind.CarvedFrom? && rec.kind.parent in c.slots && rec.name !in c.slots
    requires rec.name == DynamicName(rec.kind.parent, rec.kind.subId) && !c.Claimed(rec.kind.parent)
    ensures AllDone(f0, Reconstructed(c, rec), recs, bad) && !Reconstructed(c, rec).Claimed(rec.name)
  {
    hide Claims, ClaimsIn, Reconstructed;
    var c1 := Reconstructed(c, rec);
    ReconstructedEntry(c, rec, rec.name);
    forall i | 0 <= i < |recs| && Claims(f0, recs[i], bad) ensures Done(c1, recs[i]) {
      assert Done(c, recs[i]);
      ReconstructedEntry(c, rec, recs[i].name);
      DoneElsewhere(c, c1, recs[i]);
    }
    forall n | c1.Claimed(n) ensures ClaimsIn(f0, recs, bad, n) {
      ReconstructedEntry(c, rec, n);
      assert c.Claimed(n);
    }
  }

  lemma ReconstructedDynamics(f0: Core, a: Adopting, recs: seq<Record>, rec: Record)
    requires Dynamics(f0, a, recs) && rec.kind.CarvedFrom? && Rebuilds(f0, rec)
    requires rec.kind.parent in a.core.slots && rec.name !in a.core.slots
    requires rec.name == DynamicName(rec.kind.parent, rec.kind.subId) && rec.kind.parent !in a.core.dyn && NOTHING.AtMost(rec.res)
    ensures Dynamics(f0, a.(core := Reconstructed(a.core, rec), touched := a.touched + {rec.kind.parent}), recs + [rec])
  {
    hide RebuiltIn, Rebuilds, Resources.AtMost;
    var a1 := a.(core := Reconstructed(a.core, rec), touched := a.touched + {rec.kind.parent});
    forall d ensures d in a1.core.dyn <==> RebuiltIn(f0, recs + [rec], d) {
      OneMore(f0, recs, rec, {}, d);
    }
    forall d | d in a1.core.dyn ensures RebuiltSlot(a1, d) {
      assert d != rec.name ==> RebuiltSlot(a, d) && a1.core.slots[d] == a.core.slots[d];
    }
    var all := recs + [rec];
    forall i | 0 <= i < |all| && Rebuilds(f0, all[i]) ensures AsRecorded(a1.core, all[i]) {
      if i < |recs| {
        assert AsRecorded(a.core, recs[i]) && recs[i].name in a.core.dyn by { RebuiltAt(f0, recs, i); }
      }
    }
  }

  lemma RebuiltAt(f0: Core, recs: seq<Record>, i: nat)
    requires i < |recs| && Rebuilds(f0, recs[i])
    ensures RebuiltIn(f0, recs, recs[i].name)
  {
  }

  lemma DynamicIsReady(f0: Core, a: Adopting, recs: seq<Record>, bad: set<ClaimId>, rec: Record)
    requires Registry(f0.fixed, f0.dyn, f0.slots, f0.dslotSeq) && f0.dyn == []
    requires Rebuilding(f0, a, recs, bad) && Fitting(f0, rec) && Rebuilds(f0, rec) && NotSeen(recs, rec.name)
    ensures rec.kind.parent in a.core.slots
    ensures var a1 := a.(core := Reconstructed(a.core, rec), touched := a.touched + {rec.kind.parent});
            Ready(f0, a1, recs, bad, rec)
  {
    hide Registry, Steady, AllDone, Dynamics, Drops, NotSeen, Reconstructed;
    UnseenIsFree(f0, a, recs, bad, rec.name);
    ConfiguredSame(f0, a.core, rec.kind.parent);
    PSlotIsUnclaimed(f0, a.core, rec.kind.parent);
    ReconstructedEntry(a.core, rec, rec.name);
    ReconstructedSteady(f0, a.core, rec);
    ReconstructedAllDone(f0, a.core, rec, recs, bad);
    ReconstructedDynamics(f0, a, recs, rec);
    OneMore(f0, recs, rec, bad, rec.name);
  }

  lemma PSlotIsUnclaimed(f0: Core, c: Core, p: SlotName)
    requires Steady(f0, c) && p in c.slots && c.slots[p].kind.Partitionable?
    ensures !c.Claimed(p)
  {
    assert Coherent(At(c, p));
  }

  // --------------------------------------------------------------------------- all records

  lemma DroppedKeeps(f0: Core, a: Adopting, recs: seq<Record>, bad: set<ClaimId>, rec: Record)
    requires Rebuilding(f0, a, recs, bad) && rec.state == Claimed && !Placeable(f0, rec)
    ensures Rebuilding(f0, a.(dropped := a.dropped + [Delete(rec.name)]), recs + [rec], bad)
  {
    hide Steady, AllDone, Dynamics, Drops, Placeable;
    SkippedAllDone(f0, a.core, recs, bad, rec);
    SkippedDynamics(f0, a, recs, rec);
    DynamicsIgnoresDrops(f0, a, recs + [rec], a.dropped + [Delete(rec.name)]);
    OneMore(f0, recs, rec, bad, rec.name);
  }

  lemma DynamicsIgnoresDrops(f0: Core, a: Adopting, recs: seq<Record>, dropped: seq<StoreOp>)
    requires Dynamics(f0, a, recs)
    ensures Dynamics(f0, a.(dropped := dropped), recs)
  {
    hide AllRebuilt;
    forall d | d in a.core.dyn ensures RebuiltSlot(a.(dropped := dropped), d) {
      assert RebuiltSlot(a, d);
    }
  }

  lemma IgnoredKeeps(f0: Core, a: Adopting, recs: seq<Record>, bad: set<ClaimId>, rec: Record)
    requires Rebuilding(f0, a, recs, bad) && !Acts(f0, rec, bad) && (rec.state == Claimed ==> Placeable(f0, rec))
    ensures Rebuilding(f0, a, recs + [rec], bad)
  {
    hide Steady, AllDone, Dynamics, Drops, Rebuilds, Claims, Placeable;
    SkippedAllDone(f0, a.core, recs, bad, rec);
    SkippedDynamics(f0, a, recs, rec);
    OneMore(f0, recs, rec, bad, rec.name);
  }

  /** One record the startd may have written: dropped, rebuilt, restored or left alone as its slot and session allow. */
  lemma AdoptOneKeeps(f0: Core, a: Adopting, recs: seq<Record>, bad: set<ClaimId>, rec: Record, importable: bool)
    requires Registry(f0.fixed, f0.dyn, f0.slots, f0.dslotSeq) && f0.dyn == []
    requires Rebuilding(f0, a, recs, bad) && Written(f0, rec) && Safe(f0, rec, bad) && NotSeen(recs, rec.name)
    requires importable <==> rec.id !in bad
    ensures Rebuilding(f0, AdoptOne(a, rec, importable), recs + [rec], bad)
  {
    hide Registry, Rebuilding, Reconstructed, Installed, NotSeen, Ready, Written, KeepsKind;
    SameReach(f0, a, recs, bad, rec);
    if rec.state == Claimed && !Placeable(f0, rec) {
      DroppedKeeps(f0, a, recs, bad, rec);
    } else if !Acts(f0, rec, bad) {
      IgnoredKeeps(f0, a, recs, bad, rec);
    } else {
      PlacedKeeps(f0, a, recs, bad, rec, importable);
    }
  }

  /** The core under construction has the slot, or the parent, exactly when the booted one has. */
  lemma SameReach(f0: Core, a: Adopting, recs: seq<Record>, bad: set<ClaimId>, rec: Record)
    requires Registry(f0.fixed, f0.dyn, f0.slots, f0.dslotSeq) && f0.dyn == []
    requires Rebuilding(f0, a, recs, bad) && Written(f0, rec)
    ensures Placeable(f0, rec) <==> if rec.kind.CarvedFrom? then rec.kind.parent in a.core.slots else rec.name in a.core.slots
  {
    hide Registry, Steady, AllDone, Dynamics, Drops;
    ConfiguredSame(f0, a.core, if rec.kind.CarvedFrom? then rec.kind.parent else rec.name);
  }

  lemma PlacedKeeps(f0: Core, a: Adopting, recs: seq<Record>, bad: set<ClaimId>, rec: Record, importable: bool)
    requires Registry(f0.fixed, f0.dyn, f0.slots, f0.dslotSeq) && f0.dyn == []
    requires Rebuilding(f0, a, recs, bad) && Fitting(f0, rec) && NotSeen(recs, rec.name) && rec.state == Claimed && Placeable(f0, rec)
    requires if rec.kind.CarvedFrom? then rec.kind.parent in a.core.slots else rec.name in a.core.slots
    requires importable <==> rec.id !in bad
    ensures Rebuilding(f0, AdoptOne(a, rec, importable), recs + [rec], bad)
  {
    hide Registry, Rebuilding, Reconstructed, Installed, NotSeen, Fitting, Ready;
    var a1 := a;
    if rec.kind.CarvedFrom? {
      a1 := a.(core := Reconstructed(a.core, rec), touched := a.touched + {rec.kind.parent});
      DynamicIsReady(f0, a, recs, bad, rec);
    } else {
      StaticIsReady(f0, a, recs, bad, rec);
    }
    ReadyHasSlot(f0, a1, recs, bad, rec);
    if Importable(rec, bad) { InstallStage(f0, a1, recs, bad, rec); } else { SkipStage(f0, a1, recs, bad, rec); }
  }

  lemma ReadyHasSlot(f0: Core, a: Adopting, recs: seq<Record>, bad: set<ClaimId>, rec: Record)
    requires Ready(f0, a, recs, bad, rec)
    ensures rec.name in a.core.slots
  {
  }

  ghost predicate Distinct(recs: seq<Record>) {
    forall i, j :: 0 <= i < j < |recs| ==> recs[i].name != recs[j].name
  }

  ghost predicate ListWritten(c: Core, recs: seq<Record>) { forall i :: 0 <= i < |recs| ==> Written(c, recs[i]) }

  ghost predicate ListSafe(f0: Core, recs: seq<Record>, bad: set<ClaimId>) { forall i :: 0 <= i < |recs| ==> Safe(f0, recs[i], bad) }

  /** The same for any list of records in any order. */
  lemma {:induction false} AdoptAllKeeps(f0: Core, recs: seq<Record>, bad: set<ClaimId>)
    requires Registry(f0.fixed, f0.dyn, f0.slots, f0.dslotSeq) && f0.dyn == []
    requires Rebuilding(f0, Adopting(f0, [], {}), [], bad) && Distinct(recs) && ListWritten(f0, recs) && ListSafe(f0, recs, bad)
    ensures Rebuilding(f0, AdoptAll(f0, recs, bad), recs, bad)
  {
    hide Registry, Rebuilding, Written, Safe, AdoptOne;
    if recs != [] {
      var k := |recs| - 1;
      AdoptAllKeeps(f0, recs[..k], bad);
      assert NotSeen(recs[..k], recs[k].name);
      AdoptOneKeeps(f0, AdoptAll(f0, recs[..k], bad), recs[..k], bad, recs[k], recs[k].id !in bad);
      assert recs[..k] + [recs[k]] == recs;
    }
  }

  // -------------------------------------------------------- what adoption cannot take back

  /** Slots stay, with their kinds, and claims stay. */
  ghost predicate Grows(c: Core, c1: Core) { forall n :: n in c.slots ==> GrowsAt(c, c1, n) }

  predicate GrowsAt(c: Core, c1: Core, n: SlotName)
    requires n in c.slots
  {
    n in c1.slots && c1.slots[n].kind == c.slots[n].kind && (c.Claimed(n) ==> c1.Claimed(n))
  }

  /** A dynamic name is that of a slot carved from the p-slot it names. */
  ghost predicate CarvedNames(c: Core) {
    forall n: SlotName :: n in c.slots && n.Dynamic? ==> c.slots[n].kind == CarvedFrom(Configured(n.slotId), n.subId)
  }

  lemma ReconstructedGrows(c: Core, rec: Record)
    requires rec.kind.CarvedFrom? && rec.kind.parent in c.slots && WellNamed(rec) && rec.kind.parent.Configured? && CarvedNames(c)
    ensures var c1 := Reconstructed(c, rec); Grows(c, c1) && CarvedNames(c1) && rec.name in c1.slots && c1.slots[rec.name].kind == rec.kind
  {
  }

  lemma InstalledGrows(c: Core, rec: Record)
    requires rec.name in c.slots && CarvedNames(c)
    ensures var c1 := Installed(c, rec); Grows(c, c1) && CarvedNames(c1) && c1.Claimed(rec.name)
  {
  }

  lemma GrowsTwice(a: Core, b: Core, c: Core)
    requires Grows(a, b) && Grows(b, c)
    ensures Grows(a, c)
  {
    forall n | n in a.slots ensures GrowsAt(a, c, n) {
      assert GrowsAt(a, b, n) && GrowsAt(b, c, n);
    }
  }

  /** One record: nothing is taken back, and what adoption acts on has its slot and its claim. */
  lemma AdoptOneGrows(a: Adopting, rec: Record, importable: bool)
    requires WellNamed(rec) && (rec.kind.CarvedFrom? ==> rec.kind.parent.Configured?) && CarvedNames(a.core)
    ensures var c1 := AdoptOne(a, rec, importable).core;
            && Grows(a.core, c1) && CarvedNames(c1)
            && (rec.state == Claimed && rec.kind.CarvedFrom? && rec.kind.parent in a.core.slots ==>
                  rec.name in c1.slots && c1.slots[rec.name].kind == rec.kind)
            && (rec.state == Claimed && !rec.kind.CarvedFrom? && rec.name in a.core.slots && rec.id != NO_CLAIM_ID && importable ==>
                  c1.Claimed(rec.name))
  {
    hide Reconstructed, Installed, CarvedNames, Grows;
    var c := a.core;
    SameGrows(c);
    if rec.state == Claimed {
      if rec.kind.CarvedFrom? && rec.kind.parent in c.slots {
        ReconstructedGrows(c, rec);
        c := Reconstructed(c, rec);
      }
      if rec.name in c.slots {
        InstalledGrows(c, rec);
        GrowsTwice(a.core, c, Installed(c, rec));
        assert GrowsAt(c, Installed(c, rec), rec.name) by { GrowsHere(c, Installed(c, rec), rec.name); }
      }
    }
  }

  lemma SameGrows(c: Core)
    ensures Grows(c, c)
  {
  }

  lemma GrowsHere(c: Core, c1: Core, n: SlotName)
    requires Grows(c, c1) && n in c.slots
    ensures GrowsAt(c, c1, n)
  {
  }

  function Upto(f0: Core, recs: seq<Record>, bad: set<ClaimId>, k: nat): Core
    requires k <= |recs|
  {
    AdoptAll(f0, recs[..k], bad).core
  }

  lemma UptoNext(f0: Core, recs: seq<Record>, bad: set<ClaimId>, k: nat)
    requires k < |recs| && Written(f0, recs[k]) && CarvedNames(Upto(f0, recs, bad, k))
    ensures var c, c1, rec := Upto(f0, recs, bad, k), Upto(f0, recs, bad, k + 1), recs[k];
            && Grows(c, c1) && CarvedNames(c1)
            && (rec.state == Claimed && rec.kind.CarvedFrom? && rec.kind.parent in c.slots ==>
                  rec.name in c1.slots && c1.slots[rec.name].kind == rec.kind)
            && (rec.state == Claimed && !rec.kind.CarvedFrom? && rec.name in c.slots && Importable(rec, bad) ==> c1.Claimed(rec.name))
  {
    assert recs[..k + 1][..k] == recs[..k] && recs[..k + 1][k] == recs[k];
    AdoptOneGrows(AdoptAll(f0, recs[..k], bad), recs[k], recs[k].id !in bad);
    hide AdoptOne, CarvedNames, Grows, Core.Claimed;
  }

  lemma {:induction false} UptoGrows(f0: Core, recs: seq<Record>, bad: set<ClaimId>, j: nat, k: nat)
    requires ListWritten(f0, recs) && CarvedNames(f0) && j <= k <= |recs|
    ensures CarvedNames(Upto(f0, recs, bad, k)) && Grows(Upto(f0, recs, bad, j), Upto(f0, recs, bad, k))
    decreases k, k - j
  {
    hide Upto, CarvedNames, Grows, Written;
    if k == 0 {
      assert Upto(f0, recs, bad, 0) == f0 by { UptoNothing(f0, recs, bad); }
      SameGrows(f0);
    } else {
      UptoGrows(f0, recs, bad, if j < k then j else k - 1, k - 1);
      UptoNext(f0, recs, bad, k - 1);
      SameGrows(Upto(f0, recs, bad, k));
      if j < k { GrowsTwice(Upto(f0, recs, bad, j), Upto(f0, recs, bad, k - 1), Upto(f0, recs, bad, k)); }
    }
  }

  lemma UptoNothing(f0: Core, recs: seq<Record>, bad: set<ClaimId>)
    ensures Upto(f0, recs, bad, 0) == f0
  {
  }

  /** What adoption acts on shows in the end: the carved slot of the recorded kind, or the claim. */
  lemma ActsShow(f0: Core, recs: seq<Record>, bad: set<ClaimId>, i: nat)
    requires ListWritten(f0, recs) && CarvedNames(f0) && i < |recs| && Acts(f0, recs[i], bad)
    ensures var f, rec := Upto(f0, recs, bad, |recs|), recs[i];
            && Grows(f0, f)
            && if rec.kind.CarvedFrom? then rec.name in f.slots && f.slots[rec.name].kind == rec.kind else f.Claimed(rec.name)
  {
    hide Upto, CarvedNames, Grows;
    UptoNothing(f0, recs, bad);
    UptoGrows(f0, recs, bad, 0, |recs|);
    UptoGrows(f0, recs, bad, 0, i);
    UptoNext(f0, recs, bad, i);
    UptoGrows(f0, recs, bad, i + 1, |recs|);
    var place := if recs[i].kind.CarvedFrom? then recs[i].kind.parent else recs[i].name;
    GrowsHere(f0, Upto(f0, recs, bad, i), place);
    GrowsHere(Upto(f0, recs, bad, i + 1), Upto(f0, recs, bad, |recs|), recs[i].name);
  }

  // -------------------------------------------------------------- rebuilding the child lists

  lemma {:induction false} NoChildren(slots: map<SlotName, Slot>, dyn: seq<SlotName>, p: SlotName)
    requires forall d :: d in dyn ==> !IsChild(slots, d, p)
    ensures ChildIds(slots, dyn, p) == []
  {
    if dyn != [] { NoChildren(slots, dyn[1..], p); }
  }

  /** Refreshing rewrites child lists and nothing else. */
  lemma RefreshedSlots(c: Core, touched: set<SlotName>)
    ensures var f := Refreshed(c, touched);
            && f == c.(slots := f.slots) && f.slots.Keys == c.slots.Keys
            && (forall n :: n in c.slots ==> f.slots[n] == c.slots[n].(children := f.slots[n].children))
            && (forall n :: n in c.slots ==>
                  f.slots[n].children == if n in touched then ChildIds(c.slots, c.dyn, n) else c.slots[n].children)
  {
  }

  /** Every dynamic slot's parent is due a refresh. */
  ghost predicate Listed(a: Adopting) {
    forall d :: d in a.core.dyn ==>
      d in a.core.slots && a.core.slots[d].kind.CarvedFrom? && a.core.slots[d].kind.parent in a.touched
  }

  /** A name whose list is not due a refresh, or no p-slot's, has no dynamic slots. */
  lemma UntouchedChildren(a: Adopting, n: SlotName)
    requires Registry(a.core.fixed, a.core.dyn, a.core.slots, a.core.dslotSeq) && Listed(a)
    requires n in a.core.slots && (n !in a.touched || !a.core.slots[n].kind.Partitionable?)
    ensures ChildIds(a.core.slots, a.core.dyn, n) == []
  {
    NoChildren(a.core.slots, a.core.dyn, n);
  }

  lemma RefreshedChildrenAt(a: Adopting, n: SlotName)
    requires Registry(a.core.fixed, a.core.dyn, a.core.slots, a.core.dslotSeq) && Listed(a) && Childless(a.core)
    requires n in a.core.slots
    ensures var f := Refreshed(a.core, a.touched); n in f.slots && f.slots[n].children == ExpectedChildren(f.slots, f.dyn, n)
  {
    var c := a.core;
    var f := Refreshed(c, a.touched);
    hide Refreshed, Registry, ChildIds, Listed;
    RefreshedSlots(c, a.touched);
    RegistryLists(c);
    if n !in a.touched || !c.slots[n].kind.Partitionable? { UntouchedChildren(a, n); }
    ChildIdsFrame(c.slots, f.slots, c.dyn, n);
  }

  lemma RefreshedStructure(a: Adopting)
    requires Registry(a.core.fixed, a.core.dyn, a.core.slots, a.core.dslotSeq) && Listed(a) && Childless(a.core)
    requires Ids(a.core.slots, a.core.issued, a.core.birthdate, a.core.mintSerial)
    ensures Structure(Refreshed(a.core, a.touched))
  {
    var c := a.core;
    var f := Refreshed(c, a.touched);
    RefreshedSlots(c, a.touched);
    assert Children(f.slots, f.dyn) by {
      forall n | n in f.slots ensures f.slots[n].children == ExpectedChildren(f.slots, f.dyn, n) {
        RefreshedChildrenAt(a, n);
      }
    }
    hide Refreshed, Children;
    RefreshedRegistry(c, f);
  }

  lemma RefreshedRegistry(c: Core, f: Core)
    requires Registry(c.fixed, c.dyn, c.slots, c.dslotSeq) && Ids(c.slots, c.issued, c.birthdate, c.mintSerial)
    requires f == c.(slots := f.slots) && f.slots.Keys == c.slots.Keys
    requires forall n :: n in c.slots ==> f.slots[n] == c.slots[n].(children := f.slots[n].children)
    ensures Registry(f.fixed, f.dyn, f.slots, f.dslotSeq) && Ids(f.slots, f.issued, f.birthdate, f.mintSerial)
  {
  }

  lemma RefreshedCoherent(c: Core, f: Core)
    requires AllCoherent(c) && f == c.(slots := f.slots) && f.slots.Keys == c.slots.Keys
    requires forall n :: n in c.slots ==> f.slots[n] == c.slots[n].(children := f.slots[n].children)
    ensures AllCoherent(f)
  {
    hide Coherent;
    forall n ensures Coherent(At(f, n)) {
      assert Coherent(At(c, n));
      if n in c.slots {
        assert At(f, n) == At(c, n).(slot := Some(c.slots[n].(res := c.slots[n].res, children := f.slots[n].children)));
        CoherentIgnoresShares(At(c, n), At(f, n));
      } else {
        assert At(f, n) == At(c, n);
      }
    }
  }

  lemma RefreshedDone(f0: Core, c: Core, f: Core, recs: seq<Record>, bad: set<ClaimId>)
    requires AllDone(f0, c, recs, bad) && f == c.(slots := f.slots) && f.slots.Keys == c.slots.Keys
    requires forall n :: n in c.slots ==> f.slots[n] == c.slots[n].(children := f.slots[n].children)
    ensures AllDone(f0, f, recs, bad)
  {
    hide Claims, ClaimsIn;
    forall i | 0 <= i < |recs| && Claims(f0, recs[i], bad) ensures Done(f, recs[i]) {
      assert Done(c, recs[i]);
    }
    forall n | f.Claimed(n) ensures ClaimsIn(f0, recs, bad, n) {
      assert c.Claimed(n);
    }
  }

  /** Everything doAdopt leaves behind, for a start from f0. */
  ghost predicate Rebuilt(f0: Core, f: Core, recs: seq<Record>, bad: set<ClaimId>) {
    && Inv(f) && Conserved(f) && SharesNonNegative(f) && SameStart(f0, f) && SameSpecs(f0, f) && Redialing(f.acts)
    && AllDone(f0, f, recs, bad) && AllRebuilt(f0, f, recs)
  }

  lemma DynamicsListed(f0: Core, a: Adopting, recs: seq<Record>)
    requires Dynamics(f0, a, recs)
    ensures Listed(a) && SharesNonNegative(a.core)
  {
    hide AllRebuilt;
    forall d | d in a.core.dyn
      ensures d in a.core.slots && a.core.slots[d].kind.CarvedFrom? && a.core.slots[d].kind.parent in a.touched
      ensures NOTHING.AtMost(a.core.slots[d].res)
    {
      assert RebuiltSlot(a, d);
    }
  }

  lemma RefreshedIsRebuilt(f0: Core, a: Adopting, recs: seq<Record>, bad: set<ClaimId>)
    requires Rebuilding(f0, a, recs, bad) && Waiting(f0.deferred, f0.waits, f0.closedWaits)
    ensures Rebuilt(f0, Refreshed(a.core, a.touched), recs, bad)
  {
    var c := a.core;
    var f := Refreshed(c, a.touched);
    DynamicsListed(f0, a, recs);
    RefreshedSlots(c, a.touched);
    RegistryLists(c);
    hide Refreshed, Registry, Ids, Children, AllCoherent, Generations, Waiting, Conserved, SharesNonNegative, AllDone, Redialing, Childless,
      Done, Listed, AllRebuilt, RebuiltSlot;
    RefreshedStructure(a);
    RefreshedCoherent(c, f);
    RefreshedDone(f0, c, f, recs, bad);
    assert SameShares(c, f);
    RebuiltKept(f0, c, f, recs);
    SameSharesKeep(c, f);
    forall n | n in f0.fixed ensures SameSpecAt(f0, f, n) {
      assert SameSpecAt(f0, c, n);
    }
  }

  /** If the invariant holds after adoption, nothing adoption acted on has changed its kind. */
  lemma InvMeansSafe(f0: Core, recs: seq<Record>, bad: set<ClaimId>, i: nat)
    requires Registry(f0.fixed, f0.dyn, f0.slots, f0.dslotSeq) && f0.dyn == []
    requires ListWritten(f0, recs) && i < |recs| && Inv(Adopt(f0, recs, bad).core)
    ensures Safe(f0, recs[i], bad)
  {
    if Acts(f0, recs[i], bad) {
      hide Inv, Adopt, Upto, Grows;
      NoDynamicNames(f0);
      ActsShow(f0, recs, bad, i);
      assert recs[..|recs|] == recs;
      var place := if recs[i].kind.CarvedFrom? then recs[i].kind.parent else recs[i].name;
      GrowsHere(f0, Upto(f0, recs, bad, |recs|), place);
      AdoptIsRefreshed(f0, recs, bad);
      InvKinds(Adopt(f0, recs, bad).core, recs[i].name);
      ConfiguredKind(f0, place);
    }
  }

  lemma NoDynamicNames(f0: Core)
    requires Registry(f0.fixed, f0.dyn, f0.slots, f0.dslotSeq) && f0.dyn == []
    ensures CarvedNames(f0)
  {
  }

  lemma ConfiguredKind(f0: Core, n: SlotName)
    requires Registry(f0.fixed, f0.dyn, f0.slots, f0.dslotSeq) && f0.dyn == [] && n in f0.slots
    ensures !f0.slots[n].kind.CarvedFrom?
  {
  }

  lemma AdoptIsRefreshed(f0: Core, recs: seq<Record>, bad: set<ClaimId>)
    ensures var c, f := Upto(f0, recs, bad, |recs|), Adopt(f0, recs, bad).core;
            && f.slots.Keys == c.slots.Keys
            && forall n :: n in c.slots ==> f.slots[n].kind == c.slots[n].kind && (f.Claimed(n) <==> c.Claimed(n))
  {
    assert recs[..|recs|] == recs;
    RefreshedSlots(Upto(f0, recs, bad, |recs|), AdoptAll(f0, recs, bad).touched);
    hide Refreshed, AdoptAll;
  }

  /** Claimed slots are no p-slots, and dynamic ones are carved from p-slots. */
  lemma InvKinds(c: Core, n: SlotName)
    requires Inv(c) && n in c.slots
    ensures c.Claimed(n) ==> !c.slots[n].kind.Partitionable?
    ensures c.slots[n].kind.CarvedFrom? ==> c.slots[n].kind.parent in c.slots && c.slots[c.slots[n].kind.parent].kind.Partitionable?
  {
    assert Coherent(At(c, n));
    SlotPlaces(c, n);
  }

  // ---------------------------------------------------------- what a table determines

  /** Sums do not depend on the order of the list. */
  lemma {:induction false} SumOfSameSlots(a: map<SlotName, Slot>, x: seq<SlotName>, b: map<SlotName, Slot>, y: seq<SlotName>, p: SlotName)
    requires NoDup(x) && NoDup(y) && forall d :: d in x <==> d in y
    requires forall d :: d in x ==> d in a && d in b && a[d].kind == b[d].kind && a[d].res == b[d].res
    ensures SumOf(a, x, p) == SumOf(b, y, p)
  {
    if x == [] {
      assert forall i :: 0 <= i < |y| ==> y[i] in x;
    } else {
      TailNoDup(x);
      RemoveIsDeletion(y, x[0]);
      SumOfSameSlots(a, x[1..], b, Remove(y, x[0]), p);
      SumRemove(b, y, x[0], p);
    }
  }

  /** The child list holds exactly the claim ids of p's dynamic slots. */
  lemma {:induction false} ChildIdsMember(slots: map<SlotName, Slot>, dyn: seq<SlotName>, p: SlotName, id: ClaimId)
    ensures id in ChildIds(slots, dyn, p) <==> exists d :: d in dyn && IsChild(slots, d, p) && slots[d].Holds(id)
  {
    if dyn != [] {
      ChildIdsMember(slots, dyn[1..], p, id);
      assert forall d :: d in dyn <==> d == dyn[0] || d in dyn[1..];
    }
  }

  lemma SameChildIds(a: map<SlotName, Slot>, x: seq<SlotName>, b: map<SlotName, Slot>, y: seq<SlotName>, p: SlotName, id: ClaimId)
    requires forall d :: d in x <==> d in y
    requires forall d :: d in x ==> d in a && d in b && a[d].kind == b[d].kind && Key(a[d]) == Key(b[d])
    ensures id in ChildIds(a, x, p) <==> id in ChildIds(b, y, p)
  {
    ChildIdsMember(a, x, p, id);
    ChildIdsMember(b, y, p, id);
    hide ChildIds;
  }

  /** Claim id, state, activity, schedd, user, entry time, kind and carved share of a claimed slot are the same. */
  predicate SameClaimed(s: Slot, t: Slot) {
    && s.claim.Some? && t.claim.Some? && s.state == t.state && s.activity == t.activity && s.kind == t.kind
    && s.claim.value.id == t.claim.value.id && s.claim.value.state == t.claim.value.state
    && s.claim.value.schedd == t.claim.value.schedd && s.claim.value.entered == t.claim.value.entered
    && (s.IsDynamic() ==> s.res == t.res)
  }

  /** The linkage of a starter that can be redialled. */
  function Redial(c: Core, n: SlotName): Option<Link> {
    if n in c.acts && c.acts[n].link.socket != "" then Some(c.acts[n].link) else None
  }

  predicate SameAt(c: Core, f: Core, n: SlotName) {
    && (c.Claimed(n) <==> f.Claimed(n))
    && (c.Claimed(n) ==> SameClaimed(c.slots[n], f.slots[n]))
    && Redial(c, n) == Redial(f, n)
  }

  /** As much is carved out of p, so with the same configured share as much is left; and its children are the same. */
  predicate SameRemainder(c: Core, f: Core, p: SlotName)
    requires p in c.slots
  {
    && p in f.slots && f.slots[p].full.Minus(f.slots[p].res) == c.slots[p].full.Minus(c.slots[p].res)
    && (f.slots[p].full == c.slots[p].full ==> f.slots[p].res == c.slots[p].res)
    && (set id | id in f.slots[p].children) == (set id | id in c.slots[p].children)
  }

  /** Whether or not it is claimed, the carved slot is there in both, with the same kind and share. */
  predicate SameCarving(c: Core, f: Core, d: SlotName) {
    d in c.slots && d in f.slots && c.slots[d].kind == f.slots[d].kind && c.slots[d].res == f.slots[d].res
  }

  ghost predicate SameCarvings(c: Core, f: Core) {
    (forall d :: d in c.dyn <==> d in f.dyn) && forall d :: d in c.dyn ==> SameCarving(c, f, d)
  }

  /** The two cores agree on everything a schedd can tell about its claims, and on what is carved. */
  ghost predicate SameClaims(c: Core, f: Core) {
    && (forall n :: SameAt(c, f, n))
    && SameCarvings(c, f)
    && (forall p :: p in c.slots && c.slots[p].kind.Partitionable? ==> SameRemainder(c, f, p))
  }

  lemma ImagesAgreeAt(c: Core, f: Core, t: Table, lost: set<ClaimId>, n: SlotName)
    requires Coherent(At(c, n)) && Coherent(At(f, n)) && ImageAt(c, t, lost, n) && ImageAt(f, t, lost, n) && (c.Claimed(n) <==> f.Claimed(n))
    ensures SameAt(c, f, n)
  {
  }

  /** The same configured names and kinds; the shares may differ. */
  ghost predicate SameKinds(c: Core, f: Core) {
    c.fixed == f.fixed && forall n :: n in c.fixed ==> SameKindAt(c, f, n)
  }

  predicate SameKindAt(c: Core, f: Core, n: SlotName) { n in c.slots && n in f.slots && f.slots[n].kind == c.slots[n].kind }

  lemma CarvedIsSum(res: Resources, sum: Resources, full: Resources)
    requires res.Plus(sum) == full
    ensures full.Minus(res) == sum
  {
  }

  /** What is carved out of p is what its dynamic slots own. */
  lemma CarvedOut(c: Core, p: SlotName)
    requires Conserved(c) && p in c.slots && c.slots[p].kind.Partitionable?
    ensures c.slots[p].full.Minus(c.slots[p].res) == SumOf(c.slots, c.dyn, p)
  {
    assert Balanced(c.slots, c.dyn, p);
    CarvedIsSum(c.slots[p].res, SumOf(c.slots, c.dyn, p), c.slots[p].full);
  }

  /** A dynamic slot, claimed or not, has the same claim id in both cores. */
  lemma SameKeys(c: Core, f: Core, d: SlotName)
    requires Coherent(At(c, d)) && Coherent(At(f, d)) && SameAt(c, f, d) && SameCarving(c, f, d) && c.slots[d].IsDynamic()
    ensures Key(c.slots[d]) == Key(f.slots[d])
  {
  }

  /** The dynamic slots hold the same claim ids, or none, in both. */
  ghost predicate SameIds(c: Core, f: Core) { forall d :: d in c.dyn ==> d in c.slots && d in f.slots && Key(c.slots[d]) == Key(f.slots[d]) }

  lemma RemaindersAgree(c: Core, f: Core, p: SlotName)
    requires Structure(c) && Structure(f) && Conserved(c) && Conserved(f) && SameKinds(c, f) && SameCarvings(c, f)
    requires SameIds(c, f) && p in c.slots && c.slots[p].kind.Partitionable?
    ensures SameRemainder(c, f, p)
  {
    PartitionableIsFixed(c, p);
    assert SameKindAt(c, f, p);
    ListsAreSets(c);
    ListsAreSets(f);
    hide Registry, Ids, Children, Conserved, SumOf, ChildIds, NoDup, SameKinds, SameCarvings, Key;
    CarvedOut(c, p);
    CarvedOut(f, p);
    SumsAgree(c, f, p);
    ChildrenAgree(c, f, p);
  }

  lemma SumsAgree(c: Core, f: Core, p: SlotName)
    requires NoDup(c.dyn) && NoDup(f.dyn) && SameCarvings(c, f)
    ensures SumOf(c.slots, c.dyn, p) == SumOf(f.slots, f.dyn, p)
  {
    hide NoDup, SumOf;
    SumOfSameSlots(c.slots, c.dyn, f.slots, f.dyn, p);
  }

  lemma ChildrenAgree(c: Core, f: Core, p: SlotName)
    requires Children(c.slots, c.dyn) && Children(f.slots, f.dyn) && SameCarvings(c, f)
    requires SameIds(c, f) && SameKindAt(c, f, p) && c.slots[p].kind.Partitionable?
    ensures forall id :: id in c.slots[p].children <==> id in f.slots[p].children
  {
    hide ChildIds, Key;
    forall id ensures id in c.slots[p].children <==> id in f.slots[p].children {
      SameChildIds(c.slots, c.dyn, f.slots, f.dyn, p, id);
    }
  }

  lemma ListsAreSets(c: Core)
    requires Registry(c.fixed, c.dyn, c.slots, c.dslotSeq)
    ensures NoDup(c.dyn) && forall d :: d in c.dyn ==> d in c.slots && c.slots[d].IsDynamic()
  {
  }

  /** Two cores with the same slots, the same claims on them and the same carvings have the same remainders and children. */
  lemma ClaimsDetermine(c: Core, f: Core)
    requires Inv(c) && Inv(f) && Conserved(c) && Conserved(f) && SameKinds(c, f)
    requires (forall n :: SameAt(c, f, n)) && SameCarvings(c, f)
    ensures SameClaims(c, f)
  {
    ListsAreSets(c);
    hide Registry, Ids, Children, Generations, Waiting, Conserved, Coherent, SameAt, SameKinds, SameCarving, SameRemainder, NoDup;
    forall d | d in c.dyn ensures d in c.slots && d in f.slots && Key(c.slots[d]) == Key(f.slots[d]) {
      assert Coherent(At(c, d)) && Coherent(At(f, d)) && SameAt(c, f, d) && SameCarving(c, f, d);
      CarvingHasSlots(c, f, d);
      SameKeys(c, f, d);
    }
    forall p | p in c.slots && c.slots[p].kind.Partitionable? ensures SameRemainder(c, f, p) {
      RemaindersAgree(c, f, p);
    }
  }

  lemma CarvingHasSlots(c: Core, f: Core, d: SlotName)
    requires SameCarving(c, f, d)
    ensures d in c.slots && d in f.slots
  {
  }

  /**
   * One table, one claimed state: two sound cores with the same configured slots, described by the same
   * table and claimed under the same names, agree; carved slots that lost their claim included.
   */
  lemma ImagesDetermine(c: Core, f: Core, t: Table, lost: set<ClaimId>)
    requires Inv(c) && Inv(f) && Conserved(c) && Conserved(f) && SameKinds(c, f)
    requires Image(c, t, lost) && Image(f, t, lost) && forall n :: c.Claimed(n) <==> f.Claimed(n)
    ensures SameClaims(c, f)
  {
    hide Structure, Generations, Waiting, Conserved, Coherent, ImageAt, SameAt, SameKinds, OwnIds, Core.Claimed, Carvings, SameCarvings;
    forall n ensures SameAt(c, f, n) {
      assert Coherent(At(c, n)) && Coherent(At(f, n)) && ImageAt(c, t, lost, n) && ImageAt(f, t, lost, n);
      ImagesAgreeAt(c, f, t, lost, n);
    }
    CarvingsAgree(c, f, t);
    ClaimsDetermine(c, f);
  }

  lemma CarvingAgreesAt(c: Core, f: Core, t: Table, d: SlotName)
    requires (d in c.dyn <==> IsCarved(c, d)) && (d in f.dyn <==> IsCarved(f, d)) && CarvedAt(c, t, d) && CarvedAt(f, t, d)
    ensures (d in c.dyn <==> d in f.dyn) && (d in c.dyn ==> SameCarving(c, f, d))
  {
  }

  lemma CarvingsAgree(c: Core, f: Core, t: Table)
    requires Structure(c) && Structure(f) && Carvings(c, t) && Carvings(f, t)
    ensures SameCarvings(c, f)
  {
    DynamicsAreCarved(c);
    DynamicsAreCarved(f);
    hide Structure, CarvedAt, IsCarved, SameCarving;
    forall d ensures (d in c.dyn <==> d in f.dyn) && (d in c.dyn ==> SameCarving(c, f, d)) {
      CarvingAgreesAt(c, f, t, d);
    }
  }

  predicate IsCarved(c: Core, n: SlotName) { n in c.slots && c.slots[n].kind.CarvedFrom? }

  lemma DynamicsAreCarved(c: Core)
    requires Structure(c)
    ensures forall d :: d in c.dyn <==> IsCarved(c, d)
  {
    hide Ids, Children;
  }
}
