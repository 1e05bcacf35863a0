/** Schedules that exist: the loop may run ahead of the writer, which drains everything at the end. */
module Schedules {
  import opened Slots
  import opened CoreModel
  import opened Persister

  /** Some interleaving of the loop's program and the writer leads to s. */
  ghost predicate Reaches(program: seq<StoreOp>, first: Table, s: State) {
    exists ss: seq<State>, acts: seq<Action> :: Schedule(ss, acts, program, first) && ss[|acts|] == s
  }

  lemma ReachesStart(program: seq<StoreOp>, first: Table)
    ensures Reaches(program, first, Start(program, first))
  {
    assert Schedule([Start(program, first)], [], program, first);
  }

  lemma ReachesNext(program: seq<StoreOp>, first: Table, s: State, a: Action)
    requires Reaches(program, first, s) && Enabled(s, a)
    ensures Reaches(program, first, Next(s, a))
  {
    hide Enabled, Next, Start;
    var ss: seq<State>, acts: seq<Action> :| Schedule(ss, acts, program, first) && ss[|acts|] == s;
    assert Schedule(ss + [Next(s, a)], acts + [a], program, first);
  }

  function Saved(ops: seq<StoreOp>): set<SlotName> {
    if ops == [] then {}
    else Saved(ops[..|ops| - 1]) + (if ops[|ops| - 1].Save? then {ops[|ops| - 1].rec.name} else {})
  }

  /** The names whose last operation deletes them after they have been saved. */
  function Overtaken(ops: seq<StoreOp>): set<SlotName> {
    if ops == [] then {}
    else
      match ops[|ops| - 1]
      case Save(rec) => Overtaken(ops[..|ops| - 1]) - {rec.name}
      case Delete(n) => Overtaken(ops[..|ops| - 1]) - {n} + (if n in Saved(ops[..|ops| - 1]) then {n} else {})
  }

  /** The loop has done k operations and the writer none. */
  predicate Ahead(s: State, program: seq<StoreOp>, k: nat)
    requires k <= |program|
  {
    && s.todo == program[k..] && s.loop == Ready && !s.stopped && s.writer == Sleeping && s.batch == map[] && s.failed == {}
    && s.pending.Keys == Saved(program[..k]) && s.haunted == Overtaken(program[..k])
  }

  lemma OneAhead(s: State, program: seq<StoreOp>, k: nat)
    requires k < |program| && Ahead(s, program, k)
    ensures var a := if program[k].Save? then Put else Erase;
            && Enabled(s, a)
            && (a.Put? ==> Enabled(Next(s, a), Signal) && Ahead(Next(Next(s, a), Signal), program, k + 1))
            && (a.Erase? ==> Ahead(Next(s, a), program, k + 1))
  {
    assert program[..k + 1][..k] == program[..k] && program[..k + 1][k] == program[k];
    assert program[k..][0] == program[k] && program[k..][1..] == program[k + 1..];
    hide Saved, Overtaken;
    AheadSets(program, k);
  }

  lemma AheadSets(program: seq<StoreOp>, k: nat)
    requires k < |program|
    ensures Saved(program[..k + 1]) == Saved(program[..k]) + (if program[k].Save? then {program[k].rec.name} else {})
    ensures Overtaken(program[..k + 1]) == match program[k]
                                           case Save(rec) => Overtaken(program[..k]) - {rec.name}
                                           case Delete(n) => Overtaken(program[..k]) - {n}
                                                             + (if n in Saved(program[..k]) then {n} else {})
  {
    assert program[..k + 1][..k] == program[..k];
  }

  lemma {:induction false} LoopRunsAhead(program: seq<StoreOp>, first: Table, k: nat)
    requires k <= |program|
    ensures exists s :: Reaches(program, first, s) && Ahead(s, program, k)
  {
    if k == 0 {
      ReachesStart(program, first);
      assert program[..0] == [] && program[0..] == program;
      assert Ahead(Start(program, first), program, 0);
    } else {
      LoopRunsAhead(program, first, k - 1);
      var s :| Reaches(program, first, s) && Ahead(s, program, k - 1);
      OneAhead(s, program, k - 1);
      hide Reaches, Ahead, Next, Enabled;
      if program[k - 1].Save? {
        ReachesNext(program, first, s, Put);
        ReachesNext(program, first, Next(s, Put), Signal);
      } else {
        ReachesNext(program, first, s, Erase);
      }
    }
  }

  lemma {:induction false} BatchDrains(program: seq<StoreOp>, first: Table, s: State)
    requires Reaches(program, first, s) && s.writer == Committing(true) && s.failed == {}
    ensures exists e :: Reaches(program, first, e) && e.writer.Exited? && e.failed == {} && e.haunted == s.haunted
    decreases |s.batch|
  {
    hide Reaches;
    if s.batch == map[] {
      ReachesNext(program, first, s, Finish);
      assert Next(s, Finish).writer.Exited?;
    } else {
      assert s.batch.Keys != {};
      var n :| n in s.batch.Keys;
      ReachesNext(program, first, s, Commit(n, true));
      var s1 := Next(s, Commit(n, true));
      assert s1.batch == s.batch - {n} && |s1.batch| < |s.batch|;
      BatchDrains(program, first, s1);
    }
  }

  lemma StopDrains(program: seq<StoreOp>, first: Table, s: State)
    requires Reaches(program, first, s) && Ahead(s, program, |program|)
    ensures exists e :: Reaches(program, first, e) && e.writer.Exited? && e.failed == {} && e.haunted == s.haunted
  {
    hide Reaches, Saved, Overtaken;
    ReachesNext(program, first, s, Action.Stop);
    var s1 := Next(s, Action.Stop);
    ReachesNext(program, first, s1, TakeDone);
    var s2 := Next(s1, TakeDone);
    ReachesNext(program, first, s2, Swap);
    var s3 := Next(s2, Swap);
    if !s3.writer.Exited? { BatchDrains(program, first, s3); }
  }

  /** Every program has a drained schedule in which no commit is lost and exactly the overtaken deletions are undone. */
  lemma LazyDrain(program: seq<StoreOp>, first: Table)
    ensures exists ss: seq<State>, acts: seq<Action> ::
              && Schedule(ss, acts, program, first) && ss[|acts|].writer.Exited?
              && (forall n :: !CommitLost(ss, acts, |acts|, n))
              && (forall n :: DeletionOvertook(ss, acts, |acts|, n) <==> n in Overtaken(program))
  {
    LoopRunsAhead(program, first, |program|);
    var s :| Reaches(program, first, s) && Ahead(s, program, |program|);
    assert program[..|program|] == program;
    StopDrains(program, first, s);
    var e :| Reaches(program, first, e) && e.writer.Exited? && e.failed == {} && e.haunted == s.haunted;
    var ss: seq<State>, acts: seq<Action> :| Schedule(ss, acts, program, first) && ss[|acts|] == e;
    forall n ensures !CommitLost(ss, acts, |acts|, n) && (DeletionOvertook(ss, acts, |acts|, n) <==> n in Overtaken(program)) {
      HistoryIsSchedule(ss, acts, program, first, |acts|, n);
    }
  }

  // --------------------------------------------------------------- nothing gets stuck

  /** Some steps lead from s to e. */
  ghost predicate Leads(s: State, e: State) {
    exists ss: seq<State>, acts: seq<Action> :: Path(ss, acts) && ss[0] == s && ss[|acts|] == e
  }

  ghost predicate Path(ss: seq<State>, acts: seq<Action>) {
    |ss| == |acts| + 1 && forall i :: 0 <= i < |acts| ==> Enabled(ss[i], acts[i]) && ss[i + 1] == Next(ss[i], acts[i])
  }

  lemma LeadsOn(s: State, a: Action, e: State)
    requires Enabled(s, a) && Leads(Next(s, a), e)
    ensures Leads(s, e)
  {
    hide Enabled, Next;
    var ss: seq<State>, acts: seq<Action> :| Path(ss, acts) && ss[0] == Next(s, a) && ss[|acts|] == e;
    assert Path([s] + ss, [a] + acts);
  }

  ghost predicate CanDrain(s: State) { exists e :: Leads(s, e) && e.writer.Exited? && e.todo == [] && e.pending == map[] && e.batch == map[] }

  lemma DrainsVia(s: State, a: Action)
    requires Enabled(s, a) && CanDrain(Next(s, a))
    ensures CanDrain(s)
  {
    hide Enabled, Next, Leads;
    var e :| Leads(Next(s, a), e) && e.writer.Exited? && e.todo == [] && e.pending == map[] && e.batch == map[];
    LeadsOn(s, a, e);
  }

  /** How far the writer is from its end once the loop has stopped. */
  function ToGo(w: WriterPc): nat {
    match w
    case Exited => 0
    case Committing(last) => if last then 1 else 4
    case Woken(last) => if last then 2 else 5
    case Sleeping => 3
  }

  lemma {:induction false} WriterDrains(s: State)
    requires s.todo == [] && s.loop == Ready && s.stopped && Awake(s)
    ensures CanDrain(s)
    decreases ToGo(s.writer), |s.batch|
  {
    hide CanDrain;
    AwakeAll(s);
    match s.writer
    case Exited =>
      DrainedNow(s);
    case Sleeping =>
      WriterDrains(Next(s, TakeDone));
      DrainsVia(s, TakeDone);
    case Woken(_) =>
      WriterDrains(Next(s, Swap));
      DrainsVia(s, Swap);
    case Committing(_) =>
      if s.batch == map[] {
        WriterDrains(Next(s, Finish));
        DrainsVia(s, Finish);
      } else {
        assert s.batch.Keys != {};
        var n :| n in s.batch.Keys;
        assert |s.batch - {n}| < |s.batch|;
        WriterDrains(Next(s, Commit(n, true)));
        DrainsVia(s, Commit(n, true));
      }
  }

  lemma AwakeAll(s: State)
    requires Awake(s)
    ensures forall a :: Enabled(s, a) ==> Awake(Next(s, a))
  {
    forall a | Enabled(s, a) ensures Awake(Next(s, a)) { AwakeNext(s, a); }
  }

  lemma DrainedNow(s: State)
    requires s.writer.Exited? && s.todo == [] && Awake(s)
    ensures CanDrain(s)
  {
    assert Path([s], []);
    assert Leads(s, s);
  }

  /** Wherever loop and writer have got to, the work that is left can be finished and everything written out. */
  lemma {:induction false} AlwaysDrains(s: State)
    requires Awake(s)
    ensures CanDrain(s)
    decreases |s.todo|, if s.loop == MustSignal then 1 else 0, if s.stopped then 0 else 1
  {
    hide CanDrain;
    AwakeAll(s);
    if s.loop == MustSignal {
      AlwaysDrains(Next(s, Signal));
      DrainsVia(s, Signal);
    } else if s.todo != [] {
      var a := if s.todo[0].Save? then Put else Erase;
      AlwaysDrains(Next(s, a));
      DrainsVia(s, a);
    } else if !s.stopped {
      AlwaysDrains(Next(s, Action.Stop));
      DrainsVia(s, Action.Stop);
    } else {
      WriterDrains(s);
    }
  }

  /** In particular at every moment of every schedule. */
  lemma EveryStateDrains(ss: seq<State>, acts: seq<Action>, program: seq<StoreOp>, first: Table, i: nat)
    requires Schedule(ss, acts, program, first) && i < |ss|
    ensures CanDrain(ss[i])
  {
    EveryInterleaving(ss, acts, program, first, i);
    hide Schedule, Ordered, Truthful, CanDrain;
    AlwaysDrains(ss[i]);
  }
}
