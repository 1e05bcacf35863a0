/**
 * Who owns the ACTIVATE connection on the startd's side of a process-mode transport
 * (internal/starter/transport_unix.go): any number of threads in PassSyscallConn, FinishActivation,
 * ReleaseSyscallConn and Close, interleaved at every lock, channel and system call.
 */
module SyscallOwnership {
  import opened Basics

  datatype Pc =
    | Finish                        // waiting on the pending channel
    | Got(st: nat) | Ready(st: nat) // took the request; has the control stream
    | Announced(st: nat)            // SyscallConnFollows is written
    | Sent(st: nat)                 // the descriptor is on its way
    | Failing(st: nat)              // about to close after a failed write or send
    | Dropping(st: nat)             // found the transport closed after sending
    | Release | Releasing(held: Option<nat>)
    | Closing | Marked | Drained    // Close: before the lock, closed set, pending drained
    | Over

  /** Where the one accepted connection is (history). */
  datatype Place = Nowhere | InPending | With(t: nat) | InHandedOff | Gone | Lost

  datatype State = State(
    connected: bool, lock: Option<nat>, closed: bool, passed: bool, pending: Option<nat>, handedOff: Option<nat>,
    ts: map<nat, Pc>,
    /* history; letGo: a Release took the copy or a Close took effect */
    accepted: Option<nat>, place: Place, closings: seq<nat>, sent: bool, letGo: bool)

  function Start(): State { State(false, None, false, false, None, None, map[], None, Nowhere, [], false, false) }

  datatype Action =
    | Connect | Pass(st: nat)
    | CallFinish(t: nat) | TakePending(t: nat) | FinishCancelled(t: nat) | CheckControl(t: nat) | Announce(t: nat, ok: bool)
    | SendFd(t: nat, ok: bool) | KeepCopy(t: nat) | CloseHeld(t: nat)
    | CallRelease(t: nat) | TakeCopy(t: nat) | CloseCopy(t: nat)
    | CallClose(t: nat) | MarkClosed(t: nat) | DrainPending(t: nat) | DropCopy(t: nat)

  predicate At(s: State, t: nat, pc: Pc) { t in s.ts && s.ts[t] == pc }

  predicate Enabled(s: State, a: Action) {
    match a
    case Connect => s.lock.None?
    case Pass(st) => s.lock.None?
    case CallFinish(t) => t !in s.ts
    case TakePending(t) => At(s, t, Finish) && s.pending.Some?
    case FinishCancelled(t) => At(s, t, Finish)
    case CheckControl(t) => t in s.ts && s.ts[t].Got? && s.lock.None?
    case Announce(t, _) => t in s.ts && s.ts[t].Ready?
    case SendFd(t, _) => t in s.ts && s.ts[t].Announced?
    case KeepCopy(t) => t in s.ts && s.ts[t].Sent? && s.lock.None?
    case CloseHeld(t) => t in s.ts && (s.ts[t].Failing? || s.ts[t].Dropping?)
    case CallRelease(t) => t !in s.ts
    case TakeCopy(t) => At(s, t, Release) && s.lock.None?
    case CloseCopy(t) => t in s.ts && s.ts[t].Releasing?
    case CallClose(t) => t !in s.ts
    case MarkClosed(t) => At(s, t, Closing) && s.lock.None?
    case DrainPending(t) => At(s, t, Marked)
    case DropCopy(t) => At(s, t, Drained)
  }

  function Go(s: State, t: nat, pc: Pc): State { s.(ts := s.ts[t := pc]) }

  function CloseStream(s: State, st: nat): State { s.(closings := s.closings + [st], place := Gone) }

  function Next(s: State, a: Action): State
    requires Enabled(s, a)
  {
    match a
    case Connect => if s.closed then s else s.(connected := true)
    case Pass(st) =>
      if s.closed || s.passed then s
      else s.(passed := true, pending := Some(st), accepted := Some(st), place := InPending)
    case CallFinish(t) => Go(s, t, Finish)
    case TakePending(t) => Go(s, t, Got(s.pending.value)).(pending := None, place := With(t))
    case FinishCancelled(t) => Go(s, t, Over)
    case CheckControl(t) => if s.connected then Go(s, t, Ready(s.ts[t].st)) else Go(s, t, Over).(place := Lost)
    case Announce(t, ok) => Go(s, t, if ok then Announced(s.ts[t].st) else Failing(s.ts[t].st))
    case SendFd(t, ok) => Go(s, t, if ok then Sent(s.ts[t].st) else Failing(s.ts[t].st)).(sent := s.sent || ok)
    case KeepCopy(t) =>
      if s.closed then Go(s, t, Dropping(s.ts[t].st))
      else Go(s, t, Over).(handedOff := Some(s.ts[t].st), place := InHandedOff)
    case CloseHeld(t) => CloseStream(Go(s, t, Over), s.ts[t].st)
    case CallRelease(t) => Go(s, t, Release)
    case TakeCopy(t) =>
      Go(s, t, Releasing(s.handedOff)).(handedOff := None, place := if s.handedOff.Some? then With(t) else s.place,
                                        letGo := s.letGo || s.handedOff.Some?)
    case CloseCopy(t) =>
      if s.ts[t].held.Some? then CloseStream(Go(s, t, Over), s.ts[t].held.value) else Go(s, t, Over)
    case CallClose(t) => Go(s, t, Closing)
    case MarkClosed(t) => if s.closed then Go(s, t, Over) else Go(s, t, Marked).(closed := true, lock := Some(t), letGo := true)
    case DrainPending(t) =>
      var s1 := Go(s, t, Drained).(pending := None);
      if s.pending.Some? then CloseStream(s1, s.pending.value) else s1
    case DropCopy(t) =>
      var s1 := Go(s, t, Over).(handedOff := None, lock := None);
      if s.handedOff.Some? then CloseStream(s1, s.handedOff.value) else s1
  }

  // -------------------------------------------------------------------- what stays true

  function Holds(pc: Pc): Option<nat> {
    match pc
    case Got(st) => Some(st) case Ready(st) => Some(st) case Announced(st) => Some(st) case Sent(st) => Some(st)
    case Failing(st) => Some(st) case Dropping(st) => Some(st)
    case Releasing(held) => held
    case _ => None
  }

  /** A thread holds the connection exactly when the history says it does. */
  predicate ThreadOk(s: State, t: nat) {
    && (s.place == With(t) ==> t in s.ts && Holds(s.ts[t]).Some?)
    && (t in s.ts && Holds(s.ts[t]).Some? ==>
          && s.place == With(t) && Holds(s.ts[t]) == s.accepted
          && (s.sent <==> s.ts[t].Sent? || s.ts[t].Dropping? || s.ts[t].Releasing?)
          && (s.ts[t].Dropping? ==> s.closed))
    && (t in s.ts && (s.ts[t].Marked? || s.ts[t].Drained?) ==> s.lock == Some(t))
    && (t in s.ts && s.ts[t].Drained? ==> s.pending.None?)
    && (t in s.ts && s.ts[t].Releasing? && s.ts[t].held.Some? ==> s.letGo)
  }

  predicate SharedOk(s: State) {
    && (s.lock.Some? ==> s.closed && s.lock.value in s.ts && (s.ts[s.lock.value].Marked? || s.ts[s.lock.value].Drained?))
    && (s.passed <==> s.accepted.Some?) && (s.accepted.None? <==> s.place == Nowhere)
    && (s.pending.Some? <==> s.place == InPending) && (s.pending.Some? ==> s.pending == s.accepted && !s.sent)
    && (s.handedOff.Some? <==> s.place == InHandedOff) && (s.handedOff.Some? ==> s.handedOff == s.accepted && s.sent)
    && (if s.place == Gone then s.accepted.Some? && s.closings == [s.accepted.value] else s.closings == [])
    && (s.place in {Nowhere, Lost} ==> !s.sent)
    && (s.closed ==> s.letGo) && (s.place == Gone && s.sent ==> s.letGo)
    && (s.closed && s.lock.None? ==> s.pending.None? && s.handedOff.None?)
  }

  ghost predicate Inv(s: State) { SharedOk(s) && forall t :: ThreadOk(s, t) }

  predicate Threadless(a: Action) { a.Connect? || a.Pass? }

  lemma FinishSharedNext(s: State, a: Action)
    requires InFinish(a) && SharedOk(s) && Enabled(s, a) && ThreadOk(s, a.t)
    ensures SharedOk(Next(s, a))
  {
  }

  lemma CloseSharedNext(s: State, a: Action)
    requires (a.CallClose? || a.MarkClosed? || a.DrainPending? || a.DropCopy?) && SharedOk(s) && Enabled(s, a) && ThreadOk(s, a.t)
    ensures SharedOk(Next(s, a))
  {
  }

  lemma SharedNext(s: State, a: Action)
    requires SharedOk(s) && Enabled(s, a) && (Threadless(a) || ThreadOk(s, a.t))
    ensures SharedOk(Next(s, a))
  {
    if InFinish(a) {
      hide SharedOk, Enabled, ThreadOk, Next;
      FinishSharedNext(s, a);
    } else if a.CallClose? || a.MarkClosed? || a.DrainPending? || a.DropCopy? {
      hide SharedOk, Enabled, ThreadOk, Next;
      CloseSharedNext(s, a);
    }
  }

  predicate InFinish(a: Action) {
    a.CallFinish? || a.TakePending? || a.FinishCancelled? || a.CheckControl? || a.Announce? || a.SendFd? || a.KeepCopy? || a.CloseHeld?
  }

  lemma FinishThreadNext(s: State, a: Action)
    requires InFinish(a) && SharedOk(s) && Enabled(s, a) && ThreadOk(s, a.t)
    ensures ThreadOk(Next(s, a), a.t)
  {
  }

  lemma OwnThreadNext(s: State, a: Action)
    requires !Threadless(a) && SharedOk(s) && Enabled(s, a) && ThreadOk(s, a.t)
    ensures ThreadOk(Next(s, a), a.t)
  {
    if InFinish(a) {
      hide SharedOk, Enabled, ThreadOk, Next;
      FinishThreadNext(s, a);
    }
  }

  lemma OtherFinishNext(s: State, a: Action, t: nat)
    requires InFinish(a) && SharedOk(s) && Enabled(s, a) && ThreadOk(s, a.t) && t != a.t && ThreadOk(s, t)
    ensures ThreadOk(Next(s, a), t)
  {
  }

  lemma OtherThreadNext(s: State, a: Action, t: nat)
    requires SharedOk(s) && Enabled(s, a) && (Threadless(a) || (ThreadOk(s, a.t) && t != a.t)) && ThreadOk(s, t)
    ensures ThreadOk(Next(s, a), t)
  {
    if InFinish(a) {
      hide SharedOk, Enabled, ThreadOk, Next;
      OtherFinishNext(s, a, t);
    }
  }

  lemma NextInv(s: State, a: Action)
    requires Inv(s) && Enabled(s, a)
    ensures Inv(Next(s, a))
  {
    hide SharedOk, ThreadOk, Next, Enabled;
    if !Threadless(a) { assert ThreadOk(s, a.t); }
    SharedNext(s, a);
    forall t ensures ThreadOk(Next(s, a), t) {
      assert ThreadOk(s, t);
      if !Threadless(a) && t == a.t { OwnThreadNext(s, a); } else { OtherThreadNext(s, a, t); }
    }
  }

  // -------------------------------------------------------------------------- whole runs

  ghost predicate Schedule(ss: seq<State>, acts: seq<Action>) {
    && |ss| == |acts| + 1 && ss[0] == Start()
    && forall i :: 0 <= i < |acts| ==> Enabled(ss[i], acts[i]) && ss[i + 1] == Next(ss[i], acts[i])
  }

  lemma {:induction false} EveryInterleaving(ss: seq<State>, acts: seq<Action>, i: nat)
    requires Schedule(ss, acts) && i < |ss|
    ensures Inv(ss[i])
  {
    if i > 0 {
      hide Inv, Enabled, Next;
      EveryInterleaving(ss, acts, i - 1);
      NextInv(ss[i - 1], acts[i - 1]);
    }
  }

  /** Nothing but the one accepted connection is ever closed, and that at most once. */
  lemma ClosedAtMostOnce(ss: seq<State>, acts: seq<Action>, i: nat)
    requires Schedule(ss, acts) && i < |ss|
    ensures ss[i].closings == [] || (ss[i].accepted.Some? && ss[i].closings == [ss[i].accepted.value])
  {
    EveryInterleaving(ss, acts, i);
  }

  /**
   * Until a ReleaseSyscallConn takes the local copy of a sent descriptor or a Close marks the transport
   * closed, the copy is held open; calls of Release that found nothing to take change nothing.
   */
  lemma NotClosedInFlight(ss: seq<State>, acts: seq<Action>, i: nat)
    requires Schedule(ss, acts) && i < |ss| && ss[i].sent && !ss[i].letGo
    ensures ss[i].closings == []
    ensures ss[i].handedOff == ss[i].accepted || exists t :: t in ss[i].ts && ss[i].ts[t].Sent? && Holds(ss[i].ts[t]) == ss[i].accepted
  {
    EveryInterleaving(ss, acts, i);
    var s := ss[i];
    if s.place.With? { assert ThreadOk(s, s.place.t); }
  }

  /** No call of FinishActivation, ReleaseSyscallConn or Close is under way. */
  ghost predicate AllReturned(s: State) { forall t :: t in s.ts ==> s.ts[t] in {Over, Finish, Release, Closing} }

  lemma PlacedOnce(ss: seq<State>, acts: seq<Action>, i: nat)
    requires Schedule(ss, acts) && i < |ss|
    requires ss[i].closed && AllReturned(ss[i]) && ss[i].accepted.Some?
    ensures ss[i].closings == [ss[i].accepted.value] <==> ss[i].place != Lost
  {
    EveryInterleaving(ss, acts, i);
    var s := ss[i];
    assert s.place.With? ==> ThreadOk(s, s.place.t);
  }

  /** It is lost only in the step that checks for the control stream of a transport not yet connected. */
  lemma {:induction false} LostMeansNotConnected(ss: seq<State>, acts: seq<Action>, i: nat)
    requires Schedule(ss, acts) && i < |ss| && ss[i].place == Lost
    ensures exists k :: 0 <= k < i && acts[k].CheckControl? && !ss[k].connected
  {
    if i > 0 {
      if ss[i - 1].place == Lost {
        LostMeansNotConnected(ss, acts, i - 1);
      } else {
        assert ss[i] == Next(ss[i - 1], acts[i - 1]);
        assert acts[i - 1].CheckControl? && !ss[i - 1].connected;
      }
    }
  }

  /** And a FinishActivation that made that check before Connect has lost it for good. */
  lemma {:induction false} NotConnectedMeansLost(ss: seq<State>, acts: seq<Action>, k: nat, i: nat)
    requires Schedule(ss, acts) && k < i < |ss| && k < |acts| && acts[k].CheckControl? && !ss[k].connected
    ensures ss[i].place == Lost
  {
    hide Enabled, Next, Inv, Schedule;
    ScheduleStep(ss, acts, i - 1);
    if k < i - 1 {
      NotConnectedMeansLost(ss, acts, k, i - 1);
      EveryInterleaving(ss, acts, i - 1);
      StaysLost(ss[i - 1], acts[i - 1]);
    } else {
      GetsLost(ss[k], acts[k]);
    }
  }

  lemma ScheduleStep(ss: seq<State>, acts: seq<Action>, i: nat)
    requires Schedule(ss, acts) && i + 1 < |ss|
    ensures i < |acts| && Enabled(ss[i], acts[i]) && ss[i + 1] == Next(ss[i], acts[i])
  {
  }

  lemma GetsLost(s: State, a: Action)
    requires Enabled(s, a) && a.CheckControl? && !s.connected
    ensures Next(s, a).place == Lost
  {
  }

  lemma StaysLost(s: State, a: Action)
    requires Inv(s) && Enabled(s, a) && s.place == Lost
    ensures Next(s, a).place == Lost
  {
    if !Threadless(a) { assert ThreadOk(s, a.t); }
  }

  /**
   * Once the transport is closed and the calls that had started have returned, an accepted connection
   * has been closed exactly once, if and only if no FinishActivation that had taken it looked for the
   * control stream before Connect.
   */
  lemma ClosedExactlyOnce(ss: seq<State>, acts: seq<Action>, i: nat)
    requires Schedule(ss, acts) && i < |ss|
    requires ss[i].closed && AllReturned(ss[i]) && ss[i].accepted.Some?
    ensures ss[i].closings == [ss[i].accepted.value] <==> forall k :: 0 <= k < i && acts[k].CheckControl? ==> ss[k].connected
  {
    hide Schedule, AllReturned;
    PlacedOnce(ss, acts, i);
    ScheduleShape(ss, acts);
    if ss[i].place == Lost {
      LostMeansNotConnected(ss, acts, i);
    } else {
      forall k | 0 <= k < i && acts[k].CheckControl? ensures ss[k].connected {
        if !ss[k].connected { NotConnectedMeansLost(ss, acts, k, i); }
      }
    }
  }

  /** With Connect before any such check, exactly once. */
  lemma ConnectedClosesExactlyOnce(ss: seq<State>, acts: seq<Action>, i: nat)
    requires Schedule(ss, acts) && i < |ss|
    requires ss[i].closed && AllReturned(ss[i]) && ss[i].accepted.Some?
    requires forall k :: 0 <= k < i && acts[k].CheckControl? ==> ss[k].connected
    ensures ss[i].closings == [ss[i].accepted.value]
  {
    ClosedExactlyOnce(ss, acts, i);
  }

  lemma ScheduleShape(ss: seq<State>, acts: seq<Action>)
    requires Schedule(ss, acts)
    ensures |ss| == |acts| + 1
  {
  }

  /** The pending channel has room whenever PassSyscallConn sends on it while holding the lock. */
  lemma PassNeverBlocks(ss: seq<State>, acts: seq<Action>, i: nat)
    requires Schedule(ss, acts) && i < |ss| && !ss[i].passed
    ensures ss[i].pending.None?
  {
    EveryInterleaving(ss, acts, i);
  }

  // ------------------------------------------------- what the calls of the schedule come to

  /** The first connection passed while the transport was open. */
  function FirstPassed(ss: seq<State>, acts: seq<Action>, i: nat): Option<nat>
    requires i <= |acts| < |ss|
  {
    if i == 0 then None
    else
      var was := FirstPassed(ss, acts, i - 1);
      if was.None? && acts[i - 1].Pass? && !ss[i - 1].closed then Some(acts[i - 1].st) else was
  }

  /** The copy kept last, by a FinishActivation that found the transport open, unless a Release or a Close has taken it. */
  function Kept(ss: seq<State>, acts: seq<Action>, i: nat): Option<nat>
    requires i <= |acts| < |ss|
  {
    if i == 0 then None
    else
      match acts[i - 1]
      case KeepCopy(_) => if ss[i - 1].closed then Kept(ss, acts, i - 1) else FirstPassed(ss, acts, i - 1)
      case TakeCopy(_) => None
      case DropCopy(_) => None
      case _ => Kept(ss, acts, i - 1)
  }

  lemma AcceptedStep(s: State, a: Action)
    requires Enabled(s, a) && (s.passed <==> s.accepted.Some?)
    ensures Next(s, a).accepted == if s.accepted.None? && a.Pass? && !s.closed then Some(a.st) else s.accepted
  {
    if !Threadless(a) {
      hide Enabled, Next;
      if InFinish(a) { FinishKeepsFlags(s, a); } else { OthersKeepFlags(s, a); }
    }
  }

  lemma FinishKeepsFlags(s: State, a: Action)
    requires Enabled(s, a) && InFinish(a)
    ensures var s1 := Next(s, a);
            s1.accepted == s.accepted && s1.connected == s.connected && s1.closed == s.closed && (s1.sent <==> s.sent || (a.SendFd? && a.ok))
  {
    match a
    case CallFinish(_) => case TakePending(_) => case FinishCancelled(_) => case CheckControl(_) =>
    case Announce(_, _) => case SendFd(_, _) => case KeepCopy(_) => case CloseHeld(_) =>
  }

  lemma OthersKeepFlags(s: State, a: Action)
    requires Enabled(s, a) && !InFinish(a) && !Threadless(a)
    ensures var s1 := Next(s, a);
            s1.accepted == s.accepted && s1.connected == s.connected && s1.sent == s.sent && (s1.closed <==> s.closed || a.MarkClosed?)
  {
    match a
    case CallRelease(_) => case TakeCopy(_) => case CloseCopy(_) =>
    case CallClose(_) => case MarkClosed(_) => case DrainPending(_) => case DropCopy(_) =>
  }

  lemma FlagsStep(s: State, a: Action)
    requires Enabled(s, a)
    ensures var s1 := Next(s, a);
            && (s1.connected <==> s.connected || (a == Connect && !s.closed))
            && (s1.closed <==> s.closed || a.MarkClosed?)
            && (s1.sent <==> s.sent || (a.SendFd? && a.ok))
  {
    if !Threadless(a) {
      hide Enabled, Next;
      if InFinish(a) { FinishKeepsFlags(s, a); } else { OthersKeepFlags(s, a); }
    }
  }

  lemma KeptStep(s: State, a: Action)
    requires Enabled(s, a) && SharedOk(s) && (a.KeepCopy? ==> ThreadOk(s, a.t))
    ensures Next(s, a).handedOff == if a.KeepCopy? && !s.closed then s.accepted
                                    else if a.TakeCopy? || a.DropCopy? then None
                                    else s.handedOff
  {
  }

  /**
   * The first connection passed to an open transport, and no other, is accepted; the transport is connected
   * once Connect was called on an open one, closed once a Close took effect; the descriptor is sent once a
   * send succeeded; and the copy handed off is the one kept and not yet taken.
   */
  lemma {:induction false} FlagsFollowCalls(ss: seq<State>, acts: seq<Action>, i: nat)
    requires Schedule(ss, acts) && i <= |acts|
    ensures ss[i].accepted == FirstPassed(ss, acts, i) && ss[i].handedOff == Kept(ss, acts, i)
    ensures ss[i].connected <==> exists k :: 0 <= k < i && acts[k] == Connect && !ss[k].closed
    ensures ss[i].closed <==> exists k :: 0 <= k < i && acts[k].MarkClosed?
    ensures ss[i].sent <==> exists k :: 0 <= k < i && acts[k].SendFd? && acts[k].ok
  {
    if i > 0 {
      ScheduleStep(ss, acts, i - 1);
      FlagsFollowCalls(ss, acts, i - 1);
      EveryInterleaving(ss, acts, i - 1);
      if acts[i - 1].KeepCopy? { assert ThreadOk(ss[i - 1], acts[i - 1].t); }
      assert ss[i - 1].passed <==> ss[i - 1].accepted.Some?;
      hide Enabled, Next, SharedOk, ThreadOk, Schedule;
      AcceptedStep(ss[i - 1], acts[i - 1]);
      FlagsStep(ss[i - 1], acts[i - 1]);
      KeptStep(ss[i - 1], acts[i - 1]);
    }
  }

  /** The last thing thread t did before i. */
  function LastBy(acts: seq<Action>, i: nat, t: nat): Option<nat>
    requires i <= |acts|
  {
    if i == 0 then None else if !Threadless(acts[i - 1]) && acts[i - 1].t == t then Some(i - 1) else LastBy(acts, i - 1, t)
  }

  /** How far a thread has come once it has done a in s. */
  predicate ComesTo(s: State, a: Action, pc: Pc) {
    match a
    case Connect => false case Pass(_) => false
    case CallFinish(_) => pc == Finish
    case TakePending(_) => pc.Got? && Some(pc.st) == s.accepted
    case FinishCancelled(_) => pc == Over
    case CheckControl(_) => if s.connected then pc.Ready? && Some(pc.st) == s.accepted else pc == Over
    case Announce(_, ok) => (if ok then pc.Announced? else pc.Failing?) && Some(pc.st) == s.accepted
    case SendFd(_, ok) => (if ok then pc.Sent? else pc.Failing?) && Some(pc.st) == s.accepted
    case KeepCopy(_) => if s.closed then pc.Dropping? && Some(pc.st) == s.accepted else pc == Over
    case CloseHeld(_) => pc == Over
    case CallRelease(_) => pc == Release
    case TakeCopy(_) => pc == Releasing(s.handedOff)
    case CloseCopy(_) => pc == Over
    case CallClose(_) => pc == Closing
    case MarkClosed(_) => if s.closed then pc == Over else pc == Marked
    case DrainPending(_) => pc == Drained
    case DropCopy(_) => pc == Over
  }

  lemma ThreadStep(s: State, a: Action, t: nat)
    requires Enabled(s, a) && SharedOk(s) && (!Threadless(a) ==> ThreadOk(s, a.t))
    ensures if !Threadless(a) && a.t == t then t in Next(s, a).ts && ComesTo(s, a, Next(s, a).ts[t])
            else (t in Next(s, a).ts <==> t in s.ts) && (t in s.ts ==> Next(s, a).ts[t] == s.ts[t])
  {
  }

  /** Every call goes on from its own last step, and from nobody else's. */
  lemma {:induction false} CallsGoOn(ss: seq<State>, acts: seq<Action>, i: nat, t: nat)
    requires Schedule(ss, acts) && i <= |acts|
    ensures match LastBy(acts, i, t)
            case None => t !in ss[i].ts
            case Some(j) => j < i && t in ss[i].ts && ComesTo(ss[j], acts[j], ss[i].ts[t])
  {
    if i > 0 {
      ScheduleStep(ss, acts, i - 1);
      CallsGoOn(ss, acts, i - 1, t);
      EveryInterleaving(ss, acts, i - 1);
      if !Threadless(acts[i - 1]) { assert ThreadOk(ss[i - 1], acts[i - 1].t); }
      hide Enabled, Next, SharedOk, ThreadOk, Schedule, ComesTo;
      ThreadStep(ss[i - 1], acts[i - 1], t);
    }
  }

  /**
   * A FinishActivation whose announcement and send both succeed can go on to keep the copy, and on an open
   * transport the copy it keeps is the accepted connection.
   */
  lemma FinishHandsOff(ss: seq<State>, acts: seq<Action>, i: nat, t: nat)
    requires Schedule(ss, acts) && i <= |acts| && LastBy(acts, i, t).Some?
    ensures var j := LastBy(acts, i, t).value;
            && j < i
            && (acts[j] == Announce(t, true) ==> Enabled(ss[i], SendFd(t, true)))
            && (acts[j] == SendFd(t, true) && ss[i].lock.None? ==> Enabled(ss[i], KeepCopy(t)))
            && (acts[j] == KeepCopy(t) && !ss[j].closed ==> ss[j + 1].handedOff == ss[j].accepted && ss[j].accepted.Some?)
  {
    CallsGoOn(ss, acts, i, t);
    var j := LastBy(acts, i, t).value;
    if acts[j] == KeepCopy(t) {
      ScheduleStep(ss, acts, j);
      EveryInterleaving(ss, acts, j);
      assert ThreadOk(ss[j], t);
      hide Schedule;
    }
  }

  // ---------------------------------------------------------------------------- runs that exist

  ghost predicate Reaches(s: State) { exists ss: seq<State>, acts: seq<Action> :: Schedule(ss, acts) && ss[|acts|] == s }

  lemma ReachesNext(s: State, a: Action)
    requires Reaches(s) && Enabled(s, a)
    ensures Reaches(Next(s, a))
  {
    hide Enabled, Next, Start;
    var ss: seq<State>, acts: seq<Action> :| Schedule(ss, acts) && ss[|acts|] == s;
    assert Schedule(ss + [Next(s, a)], acts + [a]);
  }

  /** The pass that everything is for: connected, passed, announced, sent, and the copy kept. */
  lemma PassCanSucceed(st: nat)
    ensures exists s :: Reaches(s) && s.sent && s.handedOff == Some(st) && s.accepted == Some(st) && s.closings == [] && !s.closed
  {
    var s0 := Start();
    assert Schedule([s0], []);
    assert Reaches(s0);
    hide Reaches;
    ReachesNext(s0, Connect);
    var s1 := Next(s0, Connect);
    ReachesNext(s1, Pass(st));
    var s2 := Next(s1, Pass(st));
    ReachesNext(s2, CallFinish(0));
    var s3 := Next(s2, CallFinish(0));
    ReachesNext(s3, TakePending(0));
    var s4 := Next(s3, TakePending(0));
    ReachesNext(s4, CheckControl(0));
    HandsOver(Next(s4, CheckControl(0)), st);
  }

  lemma HandsOver(s: State, st: nat)
    requires Reaches(s) && 0 in s.ts && s.ts[0] == Ready(st) && s.accepted == Some(st) && !s.closed && s.lock.None? && s.closings == []
    ensures exists e :: Reaches(e) && e.sent && e.handedOff == Some(st) && e.accepted == Some(st) && e.closings == [] && !e.closed
  {
    hide Reaches;
    ReachesNext(s, Announce(0, true));
    var s1 := Next(s, Announce(0, true));
    ReachesNext(s1, SendFd(0, true));
    var s2 := Next(s1, SendFd(0, true));
    ReachesNext(s2, KeepCopy(0));
    assert Next(s2, KeepCopy(0)).handedOff == Some(st);
  }
}
