/**
 * Write-behind persistence (internal/startd/startd.go): the event loop puts records into a pending
 * map and pokes a writer goroutine, which swaps the map out and commits it record by record, while
 * deletions go straight to the store. The two processes interleave step by step.
 */
module Persister {
  import opened Basics
  import opened Slots
  import opened CoreModel

  type Table = map<SlotName, Record>

  // ------------------------------------------------------ what the loop asks for

  function ApplyOne(t: Table, op: StoreOp): Table {
    match op
    case Save(rec) => t[rec.name := rec]
    case Delete(n) => t - {n}
  }

  /** The store the loop means to have after ops. */
  function Apply(t: Table, ops: seq<StoreOp>): Table {
    if ops == [] then t else ApplyOne(Apply(t, ops[..|ops| - 1]), ops[|ops| - 1])
  }

  lemma ApplySnoc(t: Table, ops: seq<StoreOp>, op: StoreOp)
    ensures Apply(t, ops + [op]) == ApplyOne(Apply(t, ops), op)
  {
    assert (ops + [op])[..|ops|] == ops;
  }

  lemma {:induction false} ApplyTwice(t: Table, a: seq<StoreOp>, b: seq<StoreOp>)
    ensures Apply(t, a + b) == Apply(Apply(t, a), b)
  {
    if b == [] {
      assert a + b == a;
    } else {
      ApplyTwice(t, a, b[..|b| - 1]);
      ApplySnoc(t, a + b[..|b| - 1], b[|b| - 1]);
      assert a + b == a + b[..|b| - 1] + [b[|b| - 1]];
    }
  }

  // ------------------------------------------------------------------- the machine

  /** A record with the number of the put that queued it. */
  datatype Stamped = Stamped(rec: Record, tick: nat)

  datatype LoopPc = Ready | MustSignal
  datatype WriterPc = Sleeping | Woken(last: bool) | Committing(last: bool) | Exited

  datatype State = State(
    todo: seq<StoreOp>, loop: LoopPc, stopped: bool,
    pending: map<SlotName, Stamped>, wake: bool,
    writer: WriterPc, batch: map<SlotName, Stamped>, store: Table,
    /* history */
    done: seq<StoreOp>, puts: seq<Record>, commits: seq<Stamped>, failed: set<SlotName>, haunted: set<SlotName>)

  function Start(program: seq<StoreOp>, store: Table): State {
    State(program, Ready, false, map[], false, Sleeping, map[], store, [], [], [], {}, {})
  }

  datatype Action = Put | Signal | Erase | Stop | TakeWake | TakeDone | Swap | Commit(n: SlotName, ok: bool) | Finish

  predicate Enabled(s: State, a: Action) {
    match a
    case Put => s.loop == Ready && s.todo != [] && s.todo[0].Save?
    case Signal => s.loop == MustSignal
    case Erase => s.loop == Ready && s.todo != [] && s.todo[0].Delete?
    case Stop => s.loop == Ready && s.todo == [] && !s.stopped
    case TakeWake => s.writer == Sleeping && s.wake
    case TakeDone => s.writer == Sleeping && s.stopped
    case Swap => s.writer.Woken?
    case Commit(n, _) => s.writer.Committing? && n in s.batch
    case Finish => s.writer.Committing? && s.batch == map[]
  }

  predicate InFlight(s: State, n: SlotName) { n in s.pending || n in s.batch }

  function Next(s: State, a: Action): State
    requires Enabled(s, a)
  {
    match a
    case Put =>
      var rec := s.todo[0].rec;
      s.(pending := s.pending[rec.name := Stamped(rec, |s.puts|)], loop := MustSignal, todo := s.todo[1..],
         done := s.done + [s.todo[0]], puts := s.puts + [rec],
         failed := s.failed - {rec.name}, haunted := s.haunted - {rec.name})
    case Signal => s.(wake := true, loop := Ready)
    case Erase =>
      var n := s.todo[0].name;
      s.(store := s.store - {n}, todo := s.todo[1..], done := s.done + [s.todo[0]], failed := s.failed - {n},
         haunted := if InFlight(s, n) then s.haunted + {n} else s.haunted - {n})
    case Stop => s.(stopped := true)
    case TakeWake => s.(wake := false, writer := Woken(false))
    case TakeDone => s.(writer := Woken(true))
    case Swap =>
      if s.pending == map[] then s.(writer := if s.writer.last then Exited else Sleeping)
      else s.(batch := s.pending, pending := map[], writer := Committing(s.writer.last))
    case Commit(n, ok) =>
      s.(batch := s.batch - {n},
         store := if ok then s.store[n := s.batch[n].rec] else s.store,
         commits := if ok then s.commits + [s.batch[n]] else s.commits,
         failed := if ok || n in s.pending then s.failed else s.failed + {n})
    case Finish => s.(writer := if s.writer.last then Exited else Sleeping)
  }

  // ------------------------------------------------------------------- invariants

  /** A record waiting to be written is one that was put, under its own name. */
  ghost predicate Queued(puts: seq<Record>, q: map<SlotName, Stamped>) {
    forall n :: n in q ==> q[n].tick < |puts| && puts[q[n].tick] == q[n].rec && q[n].rec.name == n
  }

  predicate Before(x: Stamped, y: Stamped) { x.rec.name == y.rec.name ==> x.tick < y.tick }

  ghost predicate AllBefore(xs: seq<Stamped>, y: Stamped) { forall i :: 0 <= i < |xs| ==> Before(xs[i], y) }

  ghost predicate AllBeforeQueue(xs: seq<Stamped>, q: map<SlotName, Stamped>) {
    forall n :: n in q ==> AllBefore(xs, q[n])
  }

  ghost predicate InPutOrder(puts: seq<Record>, commits: seq<Stamped>) {
    && (forall i :: 0 <= i < |commits| ==> commits[i].tick < |puts| && puts[commits[i].tick] == commits[i].rec)
    && (forall i, j :: 0 <= i < j < |commits| ==> Before(commits[i], commits[j]))
  }

  /** Per slot: committed before in flight before pending, in the order of the puts. */
  ghost predicate Ordered(s: State) {
    && Queued(s.puts, s.pending) && Queued(s.puts, s.batch)
    && InPutOrder(s.puts, s.commits)
    && AllBeforeQueue(s.commits, s.batch) && AllBeforeQueue(s.commits, s.pending)
    && (forall n :: n in s.batch && n in s.pending ==> s.batch[n].tick < s.pending[n].tick)
  }

  /** No wake-up is lost, and an exited writer has nothing left to write. */
  ghost predicate Awake(s: State) {
    && (s.pending != map[] ==> s.wake || s.loop == MustSignal || s.writer.Woken?)
    && (s.stopped ==> s.todo == [] && s.loop == Ready)
    && (s.writer.Sleeping? || s.writer.Woken? || s.writer.Exited? ==> s.batch == map[])
    && ((s.writer.Woken? || s.writer.Committing?) && s.writer.last ==> s.stopped)
    && (s.writer.Committing? && s.writer.last ==> s.pending == map[])
    && (s.writer.Exited? ==> s.stopped && s.pending == map[])
  }

  /** What the store will say about n once everything in flight is written. */
  function Outlook(s: State, n: SlotName): Option<Record> {
    if n in s.pending then Some(s.pending[n].rec)
    else if n in s.batch then Some(s.batch[n].rec)
    else if n in s.store then Some(s.store[n])
    else None
  }

  function Meant(t: Table, n: SlotName): Option<Record> { if n in t then Some(t[n]) else None }

  /** Apart from failed commits, the outlook is what the loop meant, or a deleted record come back. */
  ghost predicate TruthfulAt(s: State, meant: Table, n: SlotName) {
    n !in s.failed ==>
      if n in s.haunted then Outlook(s, n).Some? && n !in meant
      else Outlook(s, n) == Meant(meant, n)
  }

  ghost predicate Truthful(s: State, first: Table) {
    forall n :: TruthfulAt(s, Apply(first, s.done), n)
  }

  ghost predicate PersistInv(s: State, first: Table, program: seq<StoreOp>) {
    Ordered(s) && Awake(s) && Truthful(s, first) && s.done + s.todo == program
  }

  lemma StartInv(program: seq<StoreOp>, store: Table)
    ensures PersistInv(Start(program, store), store, program)
  {
  }

  lemma OrderedPut(s: State)
    requires Ordered(s) && Enabled(s, Put)
    ensures Ordered(Next(s, Put))
  {
    hide Before;
    var x := Stamped(s.todo[0].rec, |s.puts|);
    assert AllBefore(s.commits, x) by {
      forall i | 0 <= i < |s.commits| ensures Before(s.commits[i], x) {
        LaterIsAfter(s.commits[i], x);
      }
    }
  }

  lemma LaterIsAfter(x: Stamped, y: Stamped)
    requires x.tick < y.tick
    ensures Before(x, y)
  {
  }

  lemma OrderedCommit(s: State, n: SlotName, ok: bool)
    requires Ordered(s) && Enabled(s, Commit(n, ok))
    ensures Ordered(Next(s, Commit(n, ok)))
  {
    hide Before;
    var x := s.batch[n];
    var s1 := Next(s, Commit(n, ok));
    forall m | m in s1.batch ensures AllBefore(s1.commits, s1.batch[m]) {
      assert AllBefore(s.commits, s.batch[m]);
      DifferentNames(x, s.batch[m]);
    }
    forall m | m in s1.pending ensures AllBefore(s1.commits, s1.pending[m]) {
      assert AllBefore(s.commits, s.pending[m]);
      if m == n { LaterIsAfter(x, s.pending[m]); } else { DifferentNames(x, s.pending[m]); }
    }
    assert AllBefore(s.commits, x);
  }

  lemma DifferentNames(x: Stamped, y: Stamped)
    ensures x.rec.name != y.rec.name ==> Before(x, y)
  {
  }

  lemma OrderedNext(s: State, a: Action)
    requires Ordered(s) && Awake(s) && Enabled(s, a)
    ensures Ordered(Next(s, a))
  {
    match a
    case Put => OrderedPut(s);
    case Commit(n, ok) => OrderedCommit(s, n, ok);
    case _ => hide Queued, InPutOrder, AllBefore;
  }

  lemma AwakeNext(s: State, a: Action)
    requires Awake(s) && Enabled(s, a)
    ensures Awake(Next(s, a))
  {
  }

  lemma TruthfulCommitAt(s: State, m: SlotName, ok: bool, meant: Table, n: SlotName)
    requires TruthfulAt(s, meant, n) && Enabled(s, Commit(m, ok))
    ensures TruthfulAt(Next(s, Commit(m, ok)), meant, n)
  {
  }

  lemma TruthfulLoopAt(s: State, a: Action, meant: Table, n: SlotName)
    requires TruthfulAt(s, meant, n) && Enabled(s, a) && (a.Put? || a.Erase?)
    ensures TruthfulAt(Next(s, a), ApplyOne(meant, s.todo[0]), n)
  {
  }

  lemma TruthfulSwapAt(s: State, meant: Table, n: SlotName)
    requires TruthfulAt(s, meant, n) && Enabled(s, Swap) && s.batch == map[]
    ensures TruthfulAt(Next(s, Swap), meant, n)
  {
  }

  lemma TruthIgnoresControl(s: State, s1: State, meant: Table, n: SlotName)
    requires s1.pending == s.pending && s1.batch == s.batch && s1.store == s.store
    requires s1.failed == s.failed && s1.haunted == s.haunted && TruthfulAt(s, meant, n)
    ensures TruthfulAt(s1, meant, n)
  {
  }

  lemma TruthfulNext(s: State, a: Action, first: Table)
    requires Truthful(s, first) && Awake(s) && Enabled(s, a)
    ensures Truthful(Next(s, a), first)
  {
    if a.Put? || a.Erase? { ApplySnoc(first, s.done, s.todo[0]); }
    hide Apply, ApplyOne, TruthfulAt, Queued;
    forall n ensures TruthfulAt(Next(s, a), Apply(first, Next(s, a).done), n) {
      assert TruthfulAt(s, Apply(first, s.done), n);
      match a
      case Commit(m, ok) => TruthfulCommitAt(s, m, ok, Apply(first, s.done), n);
      case Put => TruthfulLoopAt(s, a, Apply(first, s.done), n);
      case Erase => TruthfulLoopAt(s, a, Apply(first, s.done), n);
      case Swap => TruthfulSwapAt(s, Apply(first, s.done), n);
      case _ => TruthIgnoresControl(s, Next(s, a), Apply(first, s.done), n);
    }
  }

  lemma NextKeeps(s: State, a: Action, first: Table, program: seq<StoreOp>)
    requires PersistInv(s, first, program) && Enabled(s, a)
    ensures PersistInv(Next(s, a), first, program)
  {
    OrderedNext(s, a);
    AwakeNext(s, a);
    TruthfulNext(s, a, first);
  }

  // ------------------------------------------------------------------- whole runs

  ghost predicate Schedule(ss: seq<State>, acts: seq<Action>, program: seq<StoreOp>, first: Table) {
    && |ss| == |acts| + 1 && ss[0] == Start(program, first)
    && forall i :: 0 <= i < |acts| ==> Enabled(ss[i], acts[i]) && ss[i + 1] == Next(ss[i], acts[i])
  }

  lemma {:induction false} EveryInterleaving(ss: seq<State>, acts: seq<Action>, program: seq<StoreOp>, first: Table, i: nat)
    requires Schedule(ss, acts, program, first) && i < |ss|
    ensures PersistInv(ss[i], first, program)
  {
    if i == 0 {
      StartInv(program, first);
    } else {
      EveryInterleaving(ss, acts, program, first, i - 1);
      NextKeeps(ss[i - 1], acts[i - 1], first, program);
    }
  }

  /** Per-slot commits follow put order, under every interleaving. */
  lemma CommitsFollowPuts(ss: seq<State>, acts: seq<Action>, program: seq<StoreOp>, first: Table, i: nat, a: nat, b: nat)
    requires Schedule(ss, acts, program, first) && i < |ss|
    requires a < b < |ss[i].commits| && ss[i].commits[a].rec.name == ss[i].commits[b].rec.name
    ensures ss[i].commits[a].tick < ss[i].commits[b].tick < |ss[i].puts|
    ensures ss[i].puts[ss[i].commits[a].tick] == ss[i].commits[a].rec
    ensures ss[i].puts[ss[i].commits[b].tick] == ss[i].commits[b].rec
  {
    EveryInterleaving(ss, acts, program, first, i);
  }

  /** Pending work always has a token, a sender about to leave one, or a writer about to look. */
  lemma NoLostWakeup(ss: seq<State>, acts: seq<Action>, program: seq<StoreOp>, first: Table, i: nat)
    requires Schedule(ss, acts, program, first) && i < |ss| && ss[i].pending != map[]
    ensures ss[i].wake || ss[i].loop == MustSignal || ss[i].writer.Woken?
  {
    EveryInterleaving(ss, acts, program, first, i);
  }

  // ----------------------------------------------------------- read off the schedule

  /** The records committed, by the commits of the schedule that succeeded. */
  function CommitsOf(ss: seq<State>, acts: seq<Action>, i: nat): seq<Stamped>
    requires i <= |acts| <= |ss|
  {
    if i == 0 then []
    else
      match acts[i - 1]
      case Commit(n, true) => if n in ss[i - 1].batch then CommitsOf(ss, acts, i - 1) + [ss[i - 1].batch[n]] else CommitsOf(ss, acts, i - 1)
      case _ => CommitsOf(ss, acts, i - 1)
  }

  /** A wake token has been left and not yet been taken. */
  function TokenLeft(acts: seq<Action>, i: nat): bool
    requires i <= |acts|
  {
    if i == 0 then false else if acts[i - 1] == Signal then true else if acts[i - 1] == TakeWake then false else TokenLeft(acts, i - 1)
  }

  lemma LogStep(s: State, a: Action)
    requires Enabled(s, a)
    ensures Next(s, a).commits == s.commits + (if a.Commit? && a.ok then [s.batch[a.n]] else [])
    ensures Next(s, a).wake <==> a == Signal || (s.wake && a != TakeWake)
    ensures Next(s, a).stopped <==> s.stopped || a == Stop
  {
    match a
    case Put => case Signal => case Erase => case Stop => case TakeWake => case TakeDone => case Swap => case Commit(_, _) => case Finish =>
  }

  /** What has been committed is what the successful commits took from their batches; the token and the stop are the loop's. */
  lemma {:induction false} LogIsSchedule(ss: seq<State>, acts: seq<Action>, program: seq<StoreOp>, first: Table, i: nat)
    requires Schedule(ss, acts, program, first) && i <= |acts|
    ensures ss[i].commits == CommitsOf(ss, acts, i)
    ensures ss[i].wake <==> TokenLeft(acts, i)
    ensures ss[i].stopped <==> exists j :: 0 <= j < i && acts[j] == Stop
  {
    if i > 0 {
      LogIsSchedule(ss, acts, program, first, i - 1);
      assert Enabled(ss[i - 1], acts[i - 1]) && ss[i] == Next(ss[i - 1], acts[i - 1]);
      hide Next, Schedule;
      LogStep(ss[i - 1], acts[i - 1]);
    }
  }


  /** The action carries out an operation on n that the loop asked for. */
  predicate Asks(s: State, a: Action, n: SlotName) {
    (a.Put? || a.Erase?) && s.todo != [] && n == match s.todo[0] case Save(rec) => rec.name case Delete(m) => m
  }

  /** From j on, until before i, the loop asks nothing about n. */
  ghost predicate Untouched(ss: seq<State>, acts: seq<Action>, j: nat, i: nat, n: SlotName)
    requires i <= |acts| <= |ss|
  {
    forall k :: j <= k < i ==> !Asks(ss[k], acts[k], n)
  }

  /** The last operation on n before i deleted it while a record of it was pending or in flight. */
  ghost predicate DeletionOvertook(ss: seq<State>, acts: seq<Action>, i: nat, n: SlotName)
    requires i <= |acts| <= |ss|
  {
    exists k :: 0 <= k < i && acts[k].Erase? && Asks(ss[k], acts[k], n) && InFlight(ss[k], n) && Untouched(ss, acts, k + 1, i, n)
  }

  /** The commit of the last record put for n failed before i, and n has not been deleted since. */
  ghost predicate CommitLost(ss: seq<State>, acts: seq<Action>, i: nat, n: SlotName)
    requires i <= |acts| <= |ss|
  {
    exists k :: 0 <= k < i && acts[k] == Commit(n, false) && n !in ss[k].pending && Untouched(ss, acts, k + 1, i, n)
  }

  lemma UntouchedMore(ss: seq<State>, acts: seq<Action>, j: nat, i: nat, n: SlotName)
    requires j <= i < |acts| <= |ss|
    ensures Untouched(ss, acts, j, i + 1, n) <==> Untouched(ss, acts, j, i, n) && !Asks(ss[i], acts[i], n)
  {
  }

  lemma OneActionMore(ss: seq<State>, acts: seq<Action>, i: nat, n: SlotName)
    requires i < |acts| <= |ss|
    ensures DeletionOvertook(ss, acts, i + 1, n)
            <==> if Asks(ss[i], acts[i], n) then acts[i].Erase? && InFlight(ss[i], n) else DeletionOvertook(ss, acts, i, n)
    ensures CommitLost(ss, acts, i + 1, n)
            <==> !Asks(ss[i], acts[i], n) && (CommitLost(ss, acts, i, n) || (acts[i] == Commit(n, false) && n !in ss[i].pending))
  {
    hide InFlight;
    forall j | 0 <= j <= i
      ensures Untouched(ss, acts, j, i + 1, n) <==> Untouched(ss, acts, j, i, n) && !Asks(ss[i], acts[i], n)
    {
      UntouchedMore(ss, acts, j, i, n);
    }
    assert Untouched(ss, acts, i + 1, i + 1, n);
    hide Untouched;
  }

  lemma HistoryStep(s: State, a: Action, n: SlotName)
    requires Enabled(s, a)
    ensures n in Next(s, a).haunted <==> if Asks(s, a, n) then a.Erase? && InFlight(s, n) else n in s.haunted
    ensures n in Next(s, a).failed <==> !Asks(s, a, n) && (n in s.failed || (a == Commit(n, false) && n !in s.pending))
  {
  }

  /** The history sets say what the schedule says. */
  lemma {:induction false} HistoryIsSchedule(ss: seq<State>, acts: seq<Action>, program: seq<StoreOp>, first: Table, i: nat, n: SlotName)
    requires Schedule(ss, acts, program, first) && i <= |acts|
    ensures n in ss[i].haunted <==> DeletionOvertook(ss, acts, i, n)
    ensures n in ss[i].failed <==> CommitLost(ss, acts, i, n)
  {
    if i > 0 {
      HistoryIsSchedule(ss, acts, program, first, i - 1, n);
      assert Enabled(ss[i - 1], acts[i - 1]) && ss[i] == Next(ss[i - 1], acts[i - 1]);
      HistoryStep(ss[i - 1], acts[i - 1], n);
      OneActionMore(ss, acts, i - 1, n);
    }
  }

  /**
   * After stop's final drain the store says about a slot what the loop last asked for, provided the
   * commit of its last record did not fail, exactly when its last operation was not a deletion that
   * overtook a record of it still pending or in flight. A deletion that did brings the record back.
   */
  lemma DrainedStore(ss: seq<State>, acts: seq<Action>, program: seq<StoreOp>, first: Table, n: SlotName)
    requires Schedule(ss, acts, program, first) && ss[|acts|].writer.Exited? && !CommitLost(ss, acts, |acts|, n)
    ensures var s := ss[|acts|];
            && s.done == program
            && (Meant(s.store, n) == Meant(Apply(first, program), n) <==> !DeletionOvertook(ss, acts, |acts|, n))
            && (DeletionOvertook(ss, acts, |acts|, n) ==> n in s.store && n !in Apply(first, program))
  {
    EveryInterleaving(ss, acts, program, first, |acts|);
    HistoryIsSchedule(ss, acts, program, first, |acts|, n);
    hide DeletionOvertook, CommitLost;
    var s := ss[|acts|];
    assert s.done + s.todo == s.done;
    assert TruthfulAt(s, Apply(first, s.done), n);
    assert Outlook(s, n) == Meant(s.store, n);
  }

  // --------------------------------------------- the persister's own operations

  /** The persister without its goroutine: put queues, flush swaps the map out and commits all of it. */
  class PendingRecords {
    var pending: Table
    var store: Table

    constructor (initial: Table)
      ensures pending == map[] && store == initial
    {
      pending := map[];
      store := initial;
    }

    method Put(rec: Record)
      modifies this`pending
      ensures pending == old(pending)[rec.name := rec]
    {
      pending := pending[rec.name := rec];
    }

    /** Whatever order the batch is walked in, the store ends up overlaid with the whole batch. */
    method Flush()
      modifies this
      ensures pending == map[] && store == old(store) + old(pending)
    {
      var batch := pending;
      pending := map[];
      while batch != map[]
        invariant pending == map[]
        invariant forall n :: n in batch ==> n in old(pending) && batch[n] == old(pending)[n]
        invariant forall n :: Meant(store, n)
                              == if n in old(pending) && n !in batch then Some(old(pending)[n]) else Meant(old(store), n)
        decreases batch.Keys
      {
        assert batch.Keys != {};
        var n :| n in batch.Keys;
        store := store[n := batch[n]];
        batch := batch - {n};
      }
      assert forall n :: Meant(store, n) == Meant(old(store) + old(pending), n);
      assert forall n :: n in store <==> Meant(store, n).Some?;
    }
  }
}
