/**
 * The starter's durable control relay (internal/starter/transport_unix.go): control connections come
 * and go with the startd, Run's pipe stays. The reader of the current connection, the outbound pump,
 * Close and Run interleave step by step.
 */
module Relay {
  import opened Basics

  /** A control message: the announcement of a passed descriptor, which the relay keeps, or any other. */
  datatype Msg = SyscallConnFollows(received: bool) | Control(typ: int, ad: string)

  datatype ManagePc =
    | Serving(k: nat) | Holding(k: nat, m: Msg) // reading connection k; about to write m to the pipe
    | Broken(k: nat) | Awaiting | Over

  datatype PumpPc = Idle | Got(id: nat) | Picked(id: nat, k: nat)

  datatype State = State(
    manage: ManagePc, current: Option<nat>, stopped: bool, pipeOpen: bool, listening: bool, pump: PumpPc, nextOut: nat,
    /* history */
    read: seq<seq<Msg>>, piped: seq<Msg>, failed: bool, gaveUp: bool, writes: seq<Outbound>)

  /** An attempt to write message id of Run on connection k, complete or broken off. */
  datatype Outbound = Outbound(id: nat, k: nat, ok: bool)

  /** ListenStarter has accepted the first connection. */
  function Start(): State { State(Serving(0), Some(0), false, true, true, Idle, 0, [[]], [], false, false, []) }

  datatype Action =
    // manage, readConn, reaccept
    | Read(m: Msg) | Forward | ForwardFails | Drop | Notice | Accept | AcceptFails
    // Close, statement by statement
    | StopRelay | ClosePipe | ClearConn | CloseListener
    // pumpOutbound
    | TakeOut | Pick | Write(ok: bool)

  predicate Enabled(s: State, a: Action) {
    match a
    case Read(_) => s.manage.Serving? && s.manage.k < |s.read|
    case Forward => s.manage.Holding? && s.pipeOpen
    case ForwardFails => s.manage.Holding? && (s.stopped || !s.pipeOpen)
    case Drop => s.manage.Serving?
    case Notice => s.manage.Broken?
    case Accept => s.manage == Awaiting && s.listening
    case AcceptFails => s.manage == Awaiting
    case StopRelay => true
    case ClosePipe => s.stopped
    case ClearConn => s.stopped
    case CloseListener => s.stopped
    case TakeOut => s.pump == Idle && s.pipeOpen
    case Pick => s.pump.Got?
    case Write(_) => s.pump.Picked?
  }

  function Next(s: State, a: Action): State
    requires Enabled(s, a)
  {
    match a
    case Read(m) =>
      var k := s.manage.k;
      s.(read := s.read[k := s.read[k] + [m]],
         manage := match m
                   case SyscallConnFollows(ok) => if ok then s.manage else Broken(k)
                   case Control(_, _) => Holding(k, m))
    case Forward => s.(piped := s.piped + [s.manage.m], manage := Serving(s.manage.k))
    case ForwardFails => s.(manage := Broken(s.manage.k), failed := true)
    case Drop => s.(manage := Broken(s.manage.k))
    case Notice =>
      if s.stopped then s.(manage := Over)
      else s.(manage := Awaiting, current := if s.current == Some(s.manage.k) then None else s.current)
    case Accept => s.(read := s.read + [[]], current := Some(|s.read|), manage := Serving(|s.read|))
    case AcceptFails => s.(pipeOpen := false, gaveUp := true, manage := Over)
    case StopRelay => s.(stopped := true)
    case ClosePipe => s.(pipeOpen := false)
    case ClearConn => s.(current := None)
    case CloseListener => s.(listening := false)
    case TakeOut => s.(pump := Got(s.nextOut), nextOut := s.nextOut + 1)
    case Pick => s.(pump := if s.current.Some? then Picked(s.pump.id, s.current.value) else Idle)
    case Write(ok) => s.(pump := Idle, writes := s.writes + [Outbound(s.pump.id, s.pump.k, ok)])
  }

  // ------------------------------------------------------------------------ what Run may read

  /** The messages of one connection that are Run's business. */
  function Bridged(ms: seq<Msg>): seq<Msg> {
    if ms == [] then []
    else Bridged(ms[..|ms| - 1]) + (if ms[|ms| - 1].Control? then [ms[|ms| - 1]] else [])
  }

  /** All of them, connection after connection. */
  function AllBridged(read: seq<seq<Msg>>): seq<Msg> {
    if read == [] then [] else AllBridged(read[..|read| - 1]) + Bridged(read[|read| - 1])
  }

  lemma BridgedMore(ms: seq<Msg>, m: Msg)
    ensures Bridged(ms + [m]) == Bridged(ms) + (if m.Control? then [m] else [])
  {
    assert (ms + [m])[..|ms|] == ms;
  }

  /** One more message on the last connection. */
  lemma AllBridgedRead(read: seq<seq<Msg>>, m: Msg)
    requires read != []
    ensures var k := |read| - 1;
            AllBridged(read[k := read[k] + [m]]) == AllBridged(read) + (if m.Control? then [m] else [])
  {
    var k := |read| - 1;
    assert read[k := read[k] + [m]][..k] == read[..k];
    BridgedMore(read[k], m);
  }

  lemma AllBridgedAccept(read: seq<seq<Msg>>)
    ensures AllBridged(read + [[]]) == AllBridged(read)
  {
    assert (read + [[]])[..|read|] == read;
  }

  predicate Prefix<T(==)>(a: seq<T>, b: seq<T>) { |a| <= |b| && a == b[..|a|] }

  // --------------------------------------------------------------------------- what stays true

  /** Run has everything bridged so far but what the reader still holds or could not write. */
  predicate Faithful(s: State) {
    if s.failed then Prefix(s.piped, AllBridged(s.read))
    else AllBridged(s.read) == s.piped + (if s.manage.Holding? then [s.manage.m] else [])
  }

  predicate ReaderOk(s: State) {
    && s.read != []
    && ((s.manage.Serving? || s.manage.Holding?) ==> s.manage.k == |s.read| - 1 && !s.failed)
    && (s.manage.Holding? ==> s.manage.m.Control?)
    && (s.failed ==> s.stopped && (s.manage.Broken? || s.manage.Over?))
    && (!s.pipeOpen ==> s.stopped || (s.gaveUp && s.manage.Over?))
    && (s.manage.Over? ==> s.stopped || s.gaveUp)
    && (s.current.Some? ==> s.current.value < |s.read|)
  }

  /** The message the pump has in hand, if any, has been taken from Run. */
  predicate PumpPcOk(s: State) {
    && ((s.pump.Got? || s.pump.Picked?) ==> s.pump.id < s.nextOut)
    && (s.pump.Picked? ==> s.pump.k < |s.read|)
  }

  /** Messages are tried in the order Run wrote them, each at most once. */
  ghost predicate WritesOk(writes: seq<Outbound>, nextOut: nat, conns: nat) {
    && (forall i :: 0 <= i < |writes| ==> writes[i].id < nextOut && writes[i].k < conns)
    && (forall i, j :: 0 <= i < j < |writes| ==> writes[i].id < writes[j].id)
  }

  ghost predicate PumpOk(s: State) {
    PumpPcOk(s) && WritesOk(s.writes, if s.pump.Idle? then s.nextOut else s.pump.id, |s.read|)
  }

  ghost predicate Inv(s: State) { Faithful(s) && ReaderOk(s) && PumpOk(s) }

  predicate ByReader(a: Action) { a.Read? || a.Forward? || a.ForwardFails? || a.Drop? || a.Notice? || a.Accept? || a.AcceptFails? }

  predicate ByClose(a: Action) { a.StopRelay? || a.ClosePipe? || a.ClearConn? || a.CloseListener? }

  lemma ReaderReads(s: State, a: Action)
    requires ReaderOk(s) && Enabled(s, a) && (a.Read? || a.Forward? || a.ForwardFails? || a.Drop?)
    ensures ReaderOk(Next(s, a))
  {
  }

  lemma ReaderRedials(s: State, a: Action)
    requires ReaderOk(s) && Enabled(s, a) && (a.Notice? || a.Accept? || a.AcceptFails?)
    ensures ReaderOk(Next(s, a))
  {
  }

  lemma ReaderClosed(s: State, a: Action)
    requires ReaderOk(s) && Enabled(s, a) && ByClose(a)
    ensures ReaderOk(Next(s, a))
  {
  }

  lemma ReaderNext(s: State, a: Action)
    requires ReaderOk(s) && Enabled(s, a)
    ensures ReaderOk(Next(s, a))
  {
    if ByReader(a) {
      hide ReaderOk, Enabled, Next;
      if a.Notice? || a.Accept? || a.AcceptFails? { ReaderRedials(s, a); } else { ReaderReads(s, a); }
    } else if ByClose(a) {
      hide ReaderOk, Enabled, Next;
      ReaderClosed(s, a);
    }
  }

  lemma FaithfulReader(s: State, a: Action)
    requires Faithful(s) && ReaderOk(s) && Enabled(s, a) && ByReader(a)
    ensures Faithful(Next(s, a))
  {
    hide AllBridged, Bridged;
    match a
    case Read(m) => AllBridgedRead(s.read, m);
    case Accept => AllBridgedAccept(s.read);
    case Forward => hide Prefix;
    case ForwardFails =>
    case _ => hide Prefix;
  }

  lemma FaithfulNext(s: State, a: Action)
    requires Faithful(s) && ReaderOk(s) && Enabled(s, a)
    ensures Faithful(Next(s, a))
  {
    if ByReader(a) {
      hide Faithful, ReaderOk, Enabled, Next;
      FaithfulReader(s, a);
    } else {
      hide AllBridged, Bridged, Prefix, ReaderOk;
    }
  }

  lemma MoreWrites(writes: seq<Outbound>, w: Outbound, nextOut: nat, conns: nat)
    requires WritesOk(writes, w.id, conns) && w.id < nextOut && w.k < conns
    ensures WritesOk(writes + [w], nextOut, conns)
  {
  }

  lemma LaterWrites(writes: seq<Outbound>, nextOut: nat, conns: nat, later: nat, more: nat)
    requires WritesOk(writes, nextOut, conns) && nextOut <= later && conns <= more
    ensures WritesOk(writes, later, more)
  {
  }

  lemma PumpNext(s: State, a: Action)
    requires ReaderOk(s) && PumpOk(s) && Enabled(s, a)
    ensures PumpOk(Next(s, a))
  {
    hide WritesOk;
    var was := if s.pump.Idle? then s.nextOut else s.pump.id;
    var s1 := Next(s, a);
    assert |s.read| <= |s1.read|;
    if a.Write? {
      MoreWrites(s.writes, Outbound(s.pump.id, s.pump.k, a.ok), s.nextOut, |s.read|);
    } else {
      LaterWrites(s.writes, was, |s.read|, if s1.pump.Idle? then s1.nextOut else s1.pump.id, |s1.read|);
    }
  }

  ghost predicate Schedule(ss: seq<State>, acts: seq<Action>) {
    && |ss| == |acts| + 1 && ss[0] == Start()
    && forall i :: 0 <= i < |acts| ==> Enabled(ss[i], acts[i]) && ss[i + 1] == Next(ss[i], acts[i])
  }

  lemma {:induction false} EveryInterleaving(ss: seq<State>, acts: seq<Action>, i: nat)
    requires Schedule(ss, acts) && i < |ss|
    ensures Inv(ss[i])
  {
    if i == 0 {
      assert Start().read[..0] == [];
    } else {
      hide Enabled, Next, Faithful, ReaderOk, PumpOk;
      EveryInterleaving(ss, acts, i - 1);
      ReaderNext(ss[i - 1], acts[i - 1]);
      FaithfulNext(ss[i - 1], acts[i - 1]);
      PumpNext(ss[i - 1], acts[i - 1]);
    }
  }

  /**
   * Over any losses and redials, what reaches Run is a prefix of the messages of all connections in
   * order without SyscallConnFollows; while the relay runs only the message being written is missing.
   */
  lemma RunReadsAPrefix(ss: seq<State>, acts: seq<Action>, i: nat)
    requires Schedule(ss, acts) && i < |ss|
    ensures Prefix(ss[i].piped, AllBridged(ss[i].read))
    ensures !ss[i].stopped ==>
              AllBridged(ss[i].read) == ss[i].piped + (if ss[i].manage.Holding? then [ss[i].manage.m] else [])
  {
    EveryInterleaving(ss, acts, i);
    hide AllBridged, PumpOk, Schedule;
  }

  /**
   * A message of Run's is written, in full or in part, to at most one connection, at most once, and no
   * two out of order.
   */
  lemma EachOutboundOnce(ss: seq<State>, acts: seq<Action>, i: nat, a: nat, b: nat)
    requires Schedule(ss, acts) && i < |ss| && a < |ss[i].writes| && b < |ss[i].writes|
    ensures ss[i].writes[a].id == ss[i].writes[b].id ==> a == b
    ensures a < b <==> ss[i].writes[a].id < ss[i].writes[b].id
  {
    EveryInterleaving(ss, acts, i);
    hide Faithful, ReaderOk, Schedule;
  }

  // ------------------------------------------------------------------ where a message goes

  /** Step j picks a connection for message id. */
  predicate PicksUp(ss: seq<State>, acts: seq<Action>, j: nat, id: nat)
    requires j < |acts| <= |ss|
  {
    acts[j] == Pick && ss[j].pump == Got(id)
  }

  ghost predicate NeverPicked(ss: seq<State>, acts: seq<Action>, i: nat, id: nat)
    requires i <= |acts| <= |ss|
  {
    forall j :: 0 <= j < i ==> !PicksUp(ss, acts, j, id)
  }

  ghost predicate IsWritten(s: State, id: nat) { exists x :: 0 <= x < |s.writes| && s.writes[x].id == id }

  /** Every attempt to write id was made on the connection that was current in step j. */
  ghost predicate WrittenOn(s: State, id: nat, current: Option<nat>) {
    forall x :: 0 <= x < |s.writes| && s.writes[x].id == id ==> current == Some(s.writes[x].k)
  }

  /** The one step that picked a connection for id before i, and what has come of it. */
  ghost predicate PickedAt(ss: seq<State>, acts: seq<Action>, i: nat, id: nat, j: nat)
    requires i <= |acts| < |ss|
  {
    && j < i && PicksUp(ss, acts, j, id) && (forall m :: 0 <= m < i && PicksUp(ss, acts, m, id) ==> m == j)
    && if ss[i].pump.Picked? && ss[i].pump.id == id then ss[j].current == Some(ss[i].pump.k) && !IsWritten(ss[i], id)
       else (IsWritten(ss[i], id) <==> ss[j].current.Some?) && WrittenOn(ss[i], id, ss[j].current)
  }

  /** Not yet taken from Run, or in hand without a connection: untouched. Else picked exactly once. */
  ghost predicate Tracked(ss: seq<State>, acts: seq<Action>, i: nat, id: nat)
    requires i <= |acts| < |ss|
  {
    if id >= ss[i].nextOut || ss[i].pump == Got(id) then NeverPicked(ss, acts, i, id) && !IsWritten(ss[i], id)
    else exists j: nat :: PickedAt(ss, acts, i, id, j)
  }

  /** What a step does to message id. */
  lemma PumpStep(s: State, a: Action, id: nat)
    requires Enabled(s, a) && PumpPcOk(s)
    ensures var s1 := Next(s, a);
            && s.nextOut <= s1.nextOut <= s.nextOut + 1 && (s1.nextOut > s.nextOut ==> a == TakeOut && s.pump == Idle)
            && (s1.pump == Got(id) <==> (s.pump == Got(id) && a != Pick) || (a == TakeOut && id == s.nextOut))
            && (a == Pick && s1.pump.Picked? ==> Some(s1.pump.k) == s.current)
            && (a == Pick && s.pump == Got(id) && s.current.Some? <==> a == Pick && s1.pump.Picked? && s1.pump.id == id)
            && (a != Pick && s1.pump.Picked? ==> s.pump == s1.pump)
            && (s.pump.Picked? && s1.pump != s.pump ==> a.Write?)
  {
    if ByReader(a) || ByClose(a) {
      hide Enabled, Next;
      OthersLeavePump(s, a);
    }
  }

  lemma OthersLeavePump(s: State, a: Action)
    requires Enabled(s, a) && (ByReader(a) || ByClose(a))
    ensures Next(s, a).pump == s.pump && Next(s, a).nextOut == s.nextOut
  {
  }

  lemma WriteStep(s: State, a: Action)
    requires Enabled(s, a)
    ensures a.Write? ==> Next(s, a).writes == s.writes + [Outbound(s.pump.id, s.pump.k, a.ok)] && Next(s, a).pump == Idle
    ensures !a.Write? ==> Next(s, a).writes == s.writes
  {
  }

  lemma NothingPicked(ss: seq<State>, acts: seq<Action>, i: nat, id: nat)
    requires i < |acts| < |ss|
    ensures NeverPicked(ss, acts, i + 1, id) <==> NeverPicked(ss, acts, i, id) && !PicksUp(ss, acts, i, id)
  {
  }

  lemma WritesMore(s: State, s1: State, x: Outbound, id: nat, current: Option<nat>)
    requires s1.writes == s.writes + [x]
    ensures IsWritten(s1, id) <==> IsWritten(s, id) || x.id == id
    ensures WrittenOn(s1, id, current) <==> WrittenOn(s, id, current) && (x.id == id ==> current == Some(x.k))
  {
    assert forall y :: 0 <= y < |s.writes| ==> s1.writes[y] == s.writes[y];
    assert s1.writes[|s.writes|] == x;
  }

  lemma SameWrites(s: State, s1: State, id: nat, current: Option<nat>)
    requires s1.writes == s.writes
    ensures (IsWritten(s1, id) <==> IsWritten(s, id)) && (WrittenOn(s1, id, current) <==> WrittenOn(s, id, current))
  {
  }

  lemma UnwrittenOn(s: State, id: nat, current: Option<nat>)
    requires !IsWritten(s, id)
    ensures WrittenOn(s, id, current)
  {
  }

  lemma TrackedOn(ss: seq<State>, acts: seq<Action>, i: nat, id: nat)
    requires i < |acts| < |ss| && Enabled(ss[i], acts[i]) && ss[i + 1] == Next(ss[i], acts[i]) && PumpPcOk(ss[i]) && Tracked(ss, acts, i, id)
    ensures Tracked(ss, acts, i + 1, id)
  {
    var s, a, s1 := ss[i], acts[i], ss[i + 1];
    hide Enabled, Next, PumpPcOk, IsWritten, WrittenOn, NeverPicked;
    PumpStep(s, a, id);
    WriteStep(s, a);
    NothingPicked(ss, acts, i, id);
    UntouchedWrites(s, a, s1, id);
    if id >= s.nextOut || s.pump == Got(id) {
      if PicksUp(ss, acts, i, id) {
        NowPicked(ss, acts, i, id);
        UnwrittenOn(s1, id, s.current);
        assert PickedAt(ss, acts, i + 1, id, i);
      }
    } else {
      var j: nat :| PickedAt(ss, acts, i, id, j);
      if a.Write? {
        WritesMore(s, s1, s1.writes[|s.writes|], id, ss[j].current);
        if s.pump.id == id { UnwrittenOn(s, id, ss[j].current); }
      } else {
        SameWrites(s, s1, id, ss[j].current);
      }
      assert PickedAt(ss, acts, i + 1, id, j);
    }
  }

  lemma NowPicked(ss: seq<State>, acts: seq<Action>, i: nat, id: nat)
    requires i < |acts| < |ss| && NeverPicked(ss, acts, i, id)
    ensures forall m :: 0 <= m < i ==> !PicksUp(ss, acts, m, id)
  {
  }

  lemma UntouchedWrites(s: State, a: Action, s1: State, id: nat)
    requires Enabled(s, a) && s1 == Next(s, a)
    ensures !(a.Write? && s.pump.id == id) ==> (IsWritten(s1, id) <==> IsWritten(s, id))
  {
    if a.Write? { WritesMore(s, s1, Outbound(s.pump.id, s.pump.k, a.ok), id, None); }
  }

  lemma {:induction false} EveryMessageTracked(ss: seq<State>, acts: seq<Action>, i: nat, id: nat)
    requires Schedule(ss, acts) && i <= |acts|
    ensures Tracked(ss, acts, i, id)
  {
    if i > 0 {
      EveryMessageTracked(ss, acts, i - 1, id);
      EveryInterleaving(ss, acts, i - 1);
      hide Faithful, ReaderOk, Tracked, Enabled, Next, WritesOk;
      TrackedOn(ss, acts, i - 1, id);
    }
  }

  /**
   * Once the pump is done with message id of Run, a connection had been looked for it exactly once, and
   * the message was tried if and only if one was current then; and it was tried on that one.
   */
  lemma WrittenIffCurrent(ss: seq<State>, acts: seq<Action>, i: nat, id: nat)
    requires Schedule(ss, acts) && i <= |acts| && id < ss[i].nextOut && !(ss[i].pump.Got? && ss[i].pump.id == id)
    requires !(ss[i].pump.Picked? && ss[i].pump.id == id)
    ensures exists j :: 0 <= j < i && PicksUp(ss, acts, j, id) && WrittenOn(ss[i], id, ss[j].current)
    ensures IsWritten(ss[i], id) <==> exists j :: 0 <= j < i && PicksUp(ss, acts, j, id) && ss[j].current.Some?
  {
    EveryMessageTracked(ss, acts, i, id);
    hide IsWritten, WrittenOn, Schedule;
    var j: nat :| PickedAt(ss, acts, i, id, j);
  }

  predicate Served(s: State) {
    if s.manage.Serving? || s.manage.Holding? || s.manage.Broken? then s.manage.k == |s.read| - 1 && s.current == Some(s.manage.k)
    else s.current.None?
  }

  lemma ServedNext(s: State, a: Action)
    requires Enabled(s, a) && !Next(s, a).stopped
    ensures !s.stopped && (Served(s) ==> Served(Next(s, a)))
  {
    assert a != StopRelay && a != ClearConn;
  }

  /** Until Close is called, the connection outbound messages go to is the one the reader serves, the last one accepted. */
  lemma {:induction false} CurrentIsServed(ss: seq<State>, acts: seq<Action>, i: nat)
    requires Schedule(ss, acts) && i <= |acts| && !ss[i].stopped
    ensures Served(ss[i])
  {
    if i > 0 {
      assert Enabled(ss[i - 1], acts[i - 1]) && ss[i] == Next(ss[i - 1], acts[i - 1]);
      hide Enabled, Next, Served, Schedule;
      ServedNext(ss[i - 1], acts[i - 1]);
      CurrentIsServed(ss, acts, i - 1);
    }
  }

  // ------------------------------------------------------------------ what each step comes to

  /** The last thing the reader did before i. */
  function LastRead(acts: seq<Action>, i: nat): Option<nat>
    requires i <= |acts|
  {
    if i == 0 then None else if ByReader(acts[i - 1]) then Some(i - 1) else LastRead(acts, i - 1)
  }

  /** Where the reader is after a: an announced descriptor that does not come breaks the connection, other messages go to Run. */
  predicate ReaderAfter(s: State, a: Action, manage: ManagePc) {
    match a
    case Read(SyscallConnFollows(ok)) => s.manage.Serving? && manage == if ok then s.manage else Broken(s.manage.k)
    case Read(Control(typ, ad)) => s.manage.Serving? && manage == Holding(s.manage.k, Control(typ, ad))
    case Forward => s.manage.Holding? && manage == Serving(s.manage.k)
    case ForwardFails => s.manage.Holding? && manage == Broken(s.manage.k)
    case Drop => s.manage.Serving? && manage == Broken(s.manage.k)
    case Notice => manage == if s.stopped then Over else Awaiting
    case Accept => manage == Serving(|s.read|)
    case AcceptFails => manage == Over
    case _ => false
  }

  /** What Close has done, and how Run's pipe came to be closed. */
  ghost predicate ClosedBy(ss: seq<State>, acts: seq<Action>, i: nat)
    requires i <= |acts| < |ss|
  {
    && (ss[i].stopped <==> exists j :: 0 <= j < i && acts[j] == StopRelay)
    && (ss[i].listening <==> forall j :: 0 <= j < i ==> acts[j] != CloseListener)
    && (ss[i].pipeOpen <==> forall j :: 0 <= j < i ==> acts[j] != ClosePipe && acts[j] != AcceptFails)
  }

  lemma ReaderStep(s: State, a: Action)
    requires Enabled(s, a)
    ensures if ByReader(a) then ReaderAfter(s, a, Next(s, a).manage) else Next(s, a).manage == s.manage
  {
    match a
    case Read(_) => case Forward => case ForwardFails => case Drop => case Notice => case Accept => case AcceptFails =>
    case StopRelay => case ClosePipe => case ClearConn => case CloseListener => case TakeOut => case Pick => case Write(_) =>
  }

  lemma CloseStep(s: State, a: Action)
    requires Enabled(s, a)
    ensures Next(s, a).stopped <==> s.stopped || a == StopRelay
    ensures Next(s, a).listening <==> s.listening && a != CloseListener
    ensures Next(s, a).pipeOpen <==> s.pipeOpen && a != ClosePipe && a != AcceptFails
    ensures a == ClearConn ==> Next(s, a).current.None?
  {
    match a
    case Read(_) => case Forward => case ForwardFails => case Drop => case Notice => case Accept => case AcceptFails =>
    case StopRelay => case ClosePipe => case ClearConn => case CloseListener => case TakeOut => case Pick => case Write(_) =>
  }

  /** The reader goes on from its own last step; stop flag, listener, pipe and connection are what Close and a failed accept made them. */
  lemma {:induction false} StepsComeTo(ss: seq<State>, acts: seq<Action>, i: nat)
    requires Schedule(ss, acts) && i <= |acts|
    ensures match LastRead(acts, i)
            case None => ss[i].manage == Serving(0)
            case Some(j) => j < i && ReaderAfter(ss[j], acts[j], ss[i].manage)
    ensures ClosedBy(ss, acts, i)
    ensures i > 0 && acts[i - 1] == ClearConn ==> ss[i].current.None?
  {
    if i > 0 {
      assert Enabled(ss[i - 1], acts[i - 1]) && ss[i] == Next(ss[i - 1], acts[i - 1]);
      StepsComeTo(ss, acts, i - 1);
      hide Enabled, Next, Schedule, ReaderAfter;
      ReaderStep(ss[i - 1], acts[i - 1]);
      CloseStep(ss[i - 1], acts[i - 1]);
    }
  }

  /** A reader with a message in hand can always go on, and Close can run whenever it is called. */
  lemma NobodyIsStuck(s: State)
    ensures s.manage.Holding? ==> (if s.pipeOpen then Enabled(s, Forward) else Enabled(s, ForwardFails))
    ensures s.manage.Holding? && s.stopped ==> Enabled(s, ForwardFails)
    ensures Enabled(s, StopRelay)
    ensures s.stopped ==> Enabled(s, ClosePipe) && Enabled(s, ClearConn) && Enabled(s, CloseListener)
  {
  }

  // ------------------------------------------------------------------------ runs that exist

  ghost predicate Reaches(s: State) { exists ss: seq<State>, acts: seq<Action> :: Schedule(ss, acts) && ss[|acts|] == s }

  lemma ReachesNext(s: State, a: Action)
    requires Reaches(s) && Enabled(s, a)
    ensures Reaches(Next(s, a))
  {
    hide Enabled, Next, Start;
    var ss: seq<State>, acts: seq<Action> :| Schedule(ss, acts) && ss[|acts|] == s;
    assert Schedule(ss + [Next(s, a)], acts + [a]);
  }

  /** The first connection brings any control messages through to Run. */
  lemma {:induction false} AnythingCanBeRead(ms: seq<Msg>)
    requires forall i :: 0 <= i < |ms| ==> ms[i].Control?
    ensures exists s :: Reaches(s) && s == Start().(read := [ms], piped := ms)
  {
    if ms == [] {
      assert Schedule([Start()], []);
      assert Reaches(Start());
    } else {
      var k := |ms| - 1;
      AnythingCanBeRead(ms[..k]);
      var s := Start().(read := [ms[..k]], piped := ms[..k]);
      assert ms[..k] + [ms[k]] == ms;
      hide Reaches;
      ReachesNext(s, Read(ms[k]));
      ReachesNext(Next(s, Read(ms[k])), Forward);
      assert s.read[0 := ms] == [ms];
      assert Next(Next(s, Read(ms[k])), Forward) == Start().(read := [ms], piped := ms);
    }
  }

  /** A connection that is lost can be replaced by the next one, which then takes Run's messages. */
  lemma RedialCanSucceed()
    ensures exists s :: Reaches(s) && s.manage == Serving(1) && s.current == Some(1) && s.pipeOpen
  {
    var s0 := Start();
    assert Schedule([s0], []);
    assert Reaches(s0);
    hide Reaches;
    ReachesNext(s0, Drop);
    var s1 := Next(s0, Drop);
    ReachesNext(s1, Notice);
    var s2 := Next(s1, Notice);
    ReachesNext(s2, Accept);
    assert Next(s2, Accept).current == Some(1);
  }

  function SentBy(n: nat): seq<Outbound> { seq(n, i requires 0 <= i < n => Outbound(i, 0, true)) }

  /** And takes any number of Run's. */
  lemma {:induction false} AnythingCanBeWritten(n: nat)
    ensures Reaches(Start().(nextOut := n, writes := SentBy(n)))
  {
    if n == 0 {
      assert Schedule([Start()], []);
      assert SentBy(0) == [];
      assert Reaches(Start());
    } else {
      AnythingCanBeWritten(n - 1);
      var s := Start().(nextOut := n - 1, writes := SentBy(n - 1));
      hide Reaches;
      ReachesNext(s, TakeOut);
      ReachesNext(Next(s, TakeOut), Pick);
      ReachesNext(Next(Next(s, TakeOut), Pick), Write(true));
      assert SentBy(n) == SentBy(n - 1) + [Outbound(n - 1, 0, true)];
    }
  }

  /** Run's pipe is closed only after Close was called or a re-accept failed; until then the relay goes on. */
  lemma PipeOutlivesConnections(ss: seq<State>, acts: seq<Action>, i: nat)
    requires Schedule(ss, acts) && i < |ss|
    requires forall k :: 0 <= k < i ==> acts[k] != StopRelay && acts[k] != AcceptFails
    ensures ss[i].pipeOpen && !ss[i].manage.Over? && !ss[i].failed
  {
    EveryInterleaving(ss, acts, i);
    NeverStopped(ss, acts, i);
  }

  lemma {:induction false} NeverStopped(ss: seq<State>, acts: seq<Action>, i: nat)
    requires Schedule(ss, acts) && i < |ss|
    requires forall k :: 0 <= k < i ==> acts[k] != StopRelay && acts[k] != AcceptFails
    ensures !ss[i].stopped && !ss[i].gaveUp
  {
    if i > 0 {
      NeverStopped(ss, acts, i - 1);
      assert ss[i] == Next(ss[i - 1], acts[i - 1]);
    }
  }
}
