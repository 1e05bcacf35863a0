/** CA_LOCATE_STARTER (internal/startd/activate.go): the answer does not depend on map iteration order. */
module Locate {
  import opened Basics
  import opened Slots
  import opened CoreModel
  import opened CoreInvariant
  import opened Firmness
  import opened Runs
  import opened Persister
  import opened Images
  import opened Stored
  import opened Effects

  /** The claim id presented and the GlobalJobId, "" when not given. */
  datatype Query = Query(id: ClaimId, globalJobId: string)

  /** A running starter that has said Hello, on a slot that holds the id, with the job asked for if one was. */
  predicate LiveMatch(c: Core, q: Query, n: SlotName) {
    && n in c.acts && c.acts[n].link.starterAddr != "" && n in c.slots && c.slots[n].Holds(q.id)
    && (q.globalJobId != "" ==> c.acts[n].link.globalJobId == q.globalJobId)
  }

  /** A stored record of that id, with the job asked for if one was. */
  predicate StoreMatch(t: Table, q: Query, n: SlotName) {
    n in t && t[n].id == q.id && (q.globalJobId != "" ==> t[n].link.globalJobId == q.globalJobId)
  }

  lemma OneLiveMatch(c: Core, q: Query, m: SlotName, n: SlotName)
    requires Structure(c) && LiveMatch(c, q, m) && LiveMatch(c, q, n)
    ensures m == n
  {
    hide Registry, Children;
  }

  lemma OneStoreMatch(c: Core, t: Table, q: Query, m: SlotName, n: SlotName)
    requires OwnIds(c, t) && StoreMatch(t, q, m) && StoreMatch(t, q, n)
    ensures m == n
  {
  }

  /**
   * doLocateStarter, picking activations and records in whatever order the maps give them: a live
   * match wins, and every match there is would give the same answer.
   */
  method LocateStarter(c: Core, store: Table, q: Query) returns (r: Option<string>)
    requires Structure(c) && OwnIds(c, store)
    ensures q.id == NO_CLAIM_ID ==> r == None
    ensures q.id != NO_CLAIM_ID ==> forall n :: LiveMatch(c, q, n) ==> r == Some(c.acts[n].link.starterAddr)
    ensures q.id != NO_CLAIM_ID && (forall m :: !LiveMatch(c, q, m)) ==>
              forall n :: StoreMatch(store, q, n) ==> r == Some(store[n].link.starterAddr)
    ensures r.Some? ==> (exists n :: LiveMatch(c, q, n) && r.value == c.acts[n].link.starterAddr)
                        || (exists n :: StoreMatch(store, q, n) && r.value == store[n].link.starterAddr)
  {
    hide Structure, OwnIds;
    if q.id == NO_CLAIM_ID { return None; }
    var live := c.acts.Keys;
    while live != {}
      invariant live <= c.acts.Keys
      invariant forall n :: LiveMatch(c, q, n) ==> n in live
      decreases live
    {
      var n :| n in live;
      var link := c.acts[n].link;
      if link.starterAddr != "" && (q.globalJobId == "" || link.globalJobId == q.globalJobId)
         && n in c.slots && c.slots[n].claim.Some? && c.slots[n].claim.value.id == q.id {
        assert LiveMatch(c, q, n);
        forall m | LiveMatch(c, q, m) ensures m == n { OneLiveMatch(c, q, m, n); }
        return Some(link.starterAddr);
      }
      live := live - {n};
    }
    var stored := store.Keys;
    while stored != {}
      invariant stored <= store.Keys
      invariant forall n :: StoreMatch(store, q, n) ==> n in stored
      decreases stored
    {
      var n :| n in stored;
      if (q.globalJobId == "" || store[n].link.globalJobId == q.globalJobId) && store[n].id == q.id {
        assert StoreMatch(store, q, n);
        forall m | StoreMatch(store, q, m) ensures m == n { OneStoreMatch(c, store, q, m, n); }
        return Some(store[n].link.starterAddr);
      }
      stored := stored - {n};
    }
    return None;
  }

  /**
   * After a starter's Hello with its address, a query for the claim it runs under finds that address, and
   * none but its own job's.
   */
  lemma HelloIsFound(c: Core, n: SlotName, addr: string, pid: int, q: Query)
    requires Firm(c) && n in c.acts && HoldsAt(c, n, q.id) && addr != ""
    ensures var c1 := Step(c, StarterHello(n, addr, pid)).core;
            && (LiveMatch(c1, q, n) <==> q.globalJobId == "" || q.globalJobId == c.acts[n].link.globalJobId)
            && n in c1.acts && c1.acts[n].link.starterAddr == addr
            && (forall m :: LiveMatch(c1, q, m) ==> m == n)
  {
    assert Sane(At(c, n));
    hide Structure, AllSane, Generations, Step;
    HelloIsRecorded(c, n, addr, pid);
    var c1 := Step(c, StarterHello(n, addr, pid)).core;
    forall m | LiveMatch(c1, q, m) ensures m == n { OneHolder(c, q.id, m, n); }
  }

  lemma OneHolder(c: Core, id: ClaimId, m: SlotName, n: SlotName)
    requires Structure(c) && HoldsAt(c, m, id) && HoldsAt(c, n, id)
    ensures m == n
  {
    hide Registry, Children;
  }

  // -------------------------------- the store is searchable at any moment of any schedule

  /** An id was issued to the slot it is saved under. */
  ghost predicate AllOwn(c: Core, ops: seq<StoreOp>) { forall i :: 0 <= i < |ops| && ops[i].Save? ==> OwnId(c, ops[i].rec) }

  lemma StepAllOwn(c: Core, ev: Event, ops: seq<StoreOp>)
    requires Firm(c) && Firm(Step(c, ev).core) && AllOwn(c, ops)
    ensures AllOwn(Step(c, ev).core, ops + Step(c, ev).ops)
  {
    StepRemembers(c, ev);
    hide Registry, Ids, Children, Sane, Generations, Step, RecordOf, Find;
    StepSavesOnlySlots(c, ev);
    var out := Step(c, ev);
    forall i | 0 <= i < |out.ops| && out.ops[i].Save? ensures OwnId(out.core, out.ops[i].rec) {
      var n :| n in out.core.slots && out.core.slots[n].claim.Some? && out.ops[i].rec == RecordOf(out.core, n);
      RecordOwnsItsId(out.core, n);
    }
  }

  /** Every id any run ever asks to store was issued to the slot it is stored under. */
  lemma {:induction false} RunAllOwn(cs: seq<Core>, evs: seq<Event>, k: nat)
    requires Trace(cs, evs) && Firm(cs[0]) && k <= |evs|
    ensures AllOwn(cs[k], OpsOf(cs, evs, k))
  {
    if k > 0 {
      hide Firm, Step, AllOwn;
      RunAllOwn(cs, evs, k - 1);
      RunKeepsFirm(cs, evs, k - 1);
      RunKeepsFirm(cs, evs, k);
      StepAllOwn(cs[k - 1], evs[k - 1], OpsOf(cs, evs, k - 1));
    } else {
      hide Firm, Step;
    }
  }

  ghost predicate QueueOwn(c: Core, q: map<SlotName, Stamped>) { forall n :: n in q ==> q[n].rec.name == n && OwnId(c, q[n].rec) }

  ghost predicate StateOwn(c: Core, s: State) { QueueOwn(c, s.pending) && QueueOwn(c, s.batch) && OwnIds(c, s.store) }

  lemma LoopOwn(c: Core, s: State, a: Action)
    requires StateOwn(c, s) && Enabled(s, a) && (a.Put? || a.Erase?) && (s.todo[0].Save? ==> OwnId(c, s.todo[0].rec))
    ensures StateOwn(c, Next(s, a))
  {
    hide OwnId;
  }

  lemma CommitOwn(c: Core, s: State, a: Action)
    requires StateOwn(c, s) && Enabled(s, a) && a.Commit?
    ensures StateOwn(c, Next(s, a))
  {
    hide OwnId;
  }

  lemma NextOwn(c: Core, s: State, a: Action)
    requires StateOwn(c, s) && Enabled(s, a) && (a.Put? || a.Erase? ==> (s.todo[0].Save? ==> OwnId(c, s.todo[0].rec)))
    ensures StateOwn(c, Next(s, a))
  {
    NobodyQueued(c);
    if a.Put? || a.Erase? {
      LoopOwn(c, s, a);
    } else if a.Commit? {
      CommitOwn(c, s, a);
    } else {
      hide QueueOwn, OwnIds;
    }
  }

  lemma NobodyQueued(c: Core)
    ensures QueueOwn(c, map[])
  {
  }

  /** Whatever has been written so far, under any interleaving, no claim id is stored twice. */
  lemma {:induction false} StoreOwnsItsIds(c: Core, ss: seq<State>, acts: seq<Action>, program: seq<StoreOp>, first: Table, j: nat, i: nat)
    requires Schedule(ss, acts, program, first) && j <= i < |ss| && OwnIds(c, first) && AllOwn(c, ss[i].done)
    ensures StateOwn(c, ss[j])
  {
    if j == 0 {
      NobodyQueued(c);
    } else {
      StoreOwnsItsIds(c, ss, acts, program, first, j - 1, i);
      var s, a := ss[j - 1], acts[j - 1];
      DoneGrows(ss, acts, program, first, j, i);
      assert Enabled(s, a) && ss[j] == Next(s, a);
      if a.Put? || a.Erase? {
        assert ss[j].done == s.done + [s.todo[0]];
        assert ss[i].done[|s.done|] == ss[j].done[|s.done|];
      }
      hide Schedule, StateOwn, Next, OwnId;
      NextOwn(c, s, a);
    }
  }

  /**
   * What a lookup needs holds at every moment of every run: between any two events, with the writer
   * anywhere in its work, and whatever commits have failed.
   */
  lemma AlwaysSearchable(cs: seq<Core>, evs: seq<Event>, k: nat, ss: seq<State>, acts: seq<Action>, program: seq<StoreOp>, first: Table, i: nat)
    requires Trace(cs, evs) && Firm(cs[0]) && k <= |evs| && OwnIds(cs[0], first)
    requires Schedule(ss, acts, program, first) && i < |ss| && ss[i].done == OpsOf(cs, evs, k)
    ensures Structure(cs[k]) && OwnIds(cs[k], ss[i].store)
  {
    hide Structure, AllSane, Generations, Step, OwnIds, AllOwn, OpsOf, Schedule, QueueOwn;
    RunKeepsFirm(cs, evs, k);
    RunAllOwn(cs, evs, k);
    RunRemembers(cs, evs, 0, k);
    RememberedOwnIds(cs[0], cs[k], first);
    StoreOwnsItsIds(cs[k], ss, acts, program, first, i, i);
  }

  /** So CA_LOCATE_STARTER has one answer at every such moment, of the claim presented. */
  lemma OneAnswer(cs: seq<Core>, evs: seq<Event>, k: nat, ss: seq<State>, acts: seq<Action>, program: seq<StoreOp>, first: Table, i: nat,
                  q: Query, m: SlotName, n: SlotName)
    requires Trace(cs, evs) && Firm(cs[0]) && k <= |evs| && OwnIds(cs[0], first)
    requires Schedule(ss, acts, program, first) && i < |ss| && ss[i].done == OpsOf(cs, evs, k)
    ensures LiveMatch(cs[k], q, m) && LiveMatch(cs[k], q, n) ==> m == n
    ensures StoreMatch(ss[i].store, q, m) && StoreMatch(ss[i].store, q, n) ==> m == n
  {
    hide Structure, OwnIds, OpsOf, Schedule, Firm, LiveMatch, StoreMatch;
    AlwaysSearchable(cs, evs, k, ss, acts, program, first, i);
    if LiveMatch(cs[k], q, m) && LiveMatch(cs[k], q, n) { OneLiveMatch(cs[k], q, m, n); }
    if StoreMatch(ss[i].store, q, m) && StoreMatch(ss[i].store, q, n) { OneStoreMatch(cs[k], ss[i].store, q, m, n); }
  }
}
