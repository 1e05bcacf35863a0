/**
 * One run of the starter (Run in internal/starter/starter.go), seen through what it does to the
 * outside: syscalls on its current remote-syscall socket, control messages, transfers.
 */
module StarterRun {
  import opened Basics

  /** Why a run ended, as job_exit reports it. */
  datatype Reason = JobExited | JobKilled | JobCoredumped | JobNotStarted | JobExecFailed | JobShouldHold

  datatype Call =
    | GetJobInfo | RegisterStarterInfo | GetSecSessionInfo | BeginExecution | RegisterJobInfo | JobTermination
    | JobExit(status: int, reason: Reason)

  datatype Message = Hello | Update | Final(status: int, reason: Reason) | Exited

  /** Where output is sent: the transfer key and the transfer socket. */
  datatype Route = Route(key: string, socket: string)

  datatype Out =
    | Rpc(sock: nat, call: Call)
    | Control(msg: Message)
    | InputTransfer
    | JobStarted
    | VacateMark                               // the run is vacated from here on
    | Swap(sock: nat, key: string, socket: string) // a reconnecting shadow's connection is adopted
    | OutputTransfer(route: Route)
    | OnFinal(status: int, reason: Reason)

  datatype SecInfo = Granted | DeclinedByShadow | TransportLost

  datatype Happening =
    | ContextDone | ControlClosed | VacateHard | VacateSoft | Suspend | Continue | Reattach | Unexpected
    | Handoff(sock: nat, key: string, socket: string, replied: bool)
    | Tick | JobWaited

  /** Everything the outside decides, and what happens while the job runs. */
  datatype World = World(
    activated: bool, received: bool, jobInfo: bool, registered: bool, sec: SecInfo,
    shouldTransfer: bool, setup: bool, hasRoute: bool, route: Route, download: bool,
    begin: bool, exec: bool, happenings: seq<Happening>, status: int, coreDump: bool, upload: bool)

  // ------------------------------------------------------------------- the order of things

  /** The socket of the last adopted reconnect; the ACTIVATE connection, 0, before any. */
  function Current(t: seq<Out>): nat {
    if t == [] then 0 else if t[|t| - 1].Swap? then t[|t| - 1].sock else Current(t[..|t| - 1])
  }

  /** A handoff replaces the key and the socket it names. */
  function RouteOf(t: seq<Out>, first: Route): Route {
    if t == [] then first
    else
      var r := RouteOf(t[..|t| - 1], first);
      var o := t[|t| - 1];
      if o.Swap? then Route(if o.key != "" then o.key else r.key, if o.socket != "" then o.socket else r.socket) else r
  }

  predicate Transfers(w: World) { w.shouldTransfer && w.hasRoute }

  predicate Began(t: seq<Out>) { exists i :: 0 <= i < |t| && t[i].Rpc? && t[i].call == BeginExecution }

  predicate Output(t: seq<Out>) { exists i :: 0 <= i < |t| && t[i].OutputTransfer? }

  /** What may come after t in a run that has not been finalized. */
  predicate MayFollow(t: seq<Out>, o: Out, w: World) {
    match o
    case Rpc(sock, call) =>
      && sock == Current(t)
      && (match call
          case BeginExecution => !Began(t) && (Transfers(w) ==> InputTransfer in t)
          case RegisterJobInfo => JobStarted in t && !Output(t)
          case JobTermination => Output(t) && VacateMark !in t
          case JobExit(_, _) => false
          case _ => !Began(t))
    case Control(msg) => msg.Hello? || msg.Update?
    case InputTransfer => w.shouldTransfer && !Began(t)
    case JobStarted => Began(t) && JobStarted !in t
    case VacateMark => JobStarted in t && !Output(t)
    case Swap(_, _, _) => JobStarted in t && !Output(t)
    case OutputTransfer(route) => JobStarted in t && VacateMark !in t && !Output(t) && Transfers(w) && route == RouteOf(t, w.route)
    case OnFinal(_, _) => false
  }

  ghost predicate Orderly(t: seq<Out>, w: World) { forall i :: 0 <= i < |t| ==> MayFollow(t[..i], t[i], w) }

  /** finalize: job_exit (unless get_job_info failed), then Final, Exited, and the callback. */
  function Closing(sock: nat, status: int, reason: Reason, jobExit: bool): seq<Out> {
    (if jobExit then [Rpc(sock, JobExit(status, reason))] else [])
    + [Control(Final(status, reason)), Control(Exited), OnFinal(status, reason)]
  }

  // ------------------------------------------------------------------ what the world is told

  /** The syscalls made, in order. */
  function Calls(t: seq<Out>): seq<Call> {
    if t == [] then [] else Calls(t[..|t| - 1]) + (if t[|t| - 1].Rpc? then [t[|t| - 1].call] else [])
  }

  /** The control messages sent, in order. */
  function Messages(t: seq<Out>): seq<Message> {
    if t == [] then [] else Messages(t[..|t| - 1]) + (if t[|t| - 1].Control? then [t[|t| - 1].msg] else [])
  }

  /** What the run gets to see of what happens: everything up to the end of the job. */
  function Handled(hs: seq<Happening>): seq<Happening> {
    if hs == [] then [] else if EndsJob(hs[0]) then [hs[0]] else [hs[0]] + Handled(hs[1..])
  }

  predicate Vacates(h: Happening) { h.ContextDone? || h.ControlClosed? || h.VacateHard? || h.VacateSoft? }

  predicate AnyVacates(hs: seq<Happening>) { exists i :: 0 <= i < |hs| && Vacates(hs[i]) }

  predicate Vacated(w: World) { AnyVacates(Handled(w.happenings)) }

  predicate Ended(w: World) { exists i :: 0 <= i < |w.happenings| && EndsJob(w.happenings[i]) }

  /** A tick of the update timer is reported to the shadow. */
  function CallsFor(hs: seq<Happening>): seq<Call> {
    if hs == [] then [] else CallsFor(hs[..|hs| - 1]) + (if hs[|hs| - 1].Tick? then [RegisterJobInfo] else [])
  }

  /** And to the startd; a startd that has come back is greeted. */
  function MessagesFor(hs: seq<Happening>): seq<Message> {
    if hs == [] then []
    else
      MessagesFor(hs[..|hs| - 1])
      + match hs[|hs| - 1]
        case Tick => [Update]
        case Reattach => [Hello]
        case _ => []
  }

  /** The connection of the last shadow whose reconnect was completed. */
  function SockAfter(hs: seq<Happening>, first: nat): nat {
    if hs == [] then first
    else
      match hs[|hs| - 1]
      case Handoff(sock, _, _, true) => sock
      case _ => SockAfter(hs[..|hs| - 1], first)
  }

  /** The transfer route it handed over; a key or a socket it did not name stays what it was. */
  function RouteAfter(hs: seq<Happening>, first: Route): Route {
    if hs == [] then first
    else
      var r := RouteAfter(hs[..|hs| - 1], first);
      match hs[|hs| - 1]
      case Handoff(_, key, socket, true) => Route(if key != "" then key else r.key, if socket != "" then socket else r.socket)
      case _ => r
  }

  /** The handshake's syscalls, as far as it gets. */
  function Opening(w: World): seq<Call> {
    if !w.jobInfo then [GetJobInfo]
    else if !w.registered then [GetJobInfo, RegisterStarterInfo]
    else if w.sec == TransportLost || !InputDone(w) then [GetJobInfo, RegisterStarterInfo, GetSecSessionInfo]
    else [GetJobInfo, RegisterStarterInfo, GetSecSessionInfo, BeginExecution]
  }

  /** The input, if any is to be transferred, has arrived. */
  predicate InputDone(w: World) { w.shouldTransfer ==> w.setup && (w.hasRoute ==> w.download) }

  /** Why the run ended, read off the world: first what kept the job from starting, then how it ended. */
  predicate ReasonIs(w: World, reason: Reason) {
    match reason
    case JobNotStarted => !JobRuns(w) && !(Introduced(w) && InputDone(w) && w.begin)
    case JobExecFailed => Introduced(w) && InputDone(w) && w.begin && !w.exec
    case JobKilled => JobRuns(w) && Vacated(w)
    case JobShouldHold => JobRuns(w) && !Vacated(w) && Transfers(w) && !w.upload
    case JobCoredumped => JobRuns(w) && !Vacated(w) && (Transfers(w) ==> w.upload) && w.coreDump
    case JobExited => JobRuns(w) && !Vacated(w) && (Transfers(w) ==> w.upload) && !w.coreDump
  }

  /** Whatever reports the end of the run reports this status and this reason. */
  predicate Reports(log: seq<Out>, status: int, reason: Reason) {
    forall i :: 0 <= i < |log| ==>
      && (log[i].Rpc? && log[i].call.JobExit? ==> log[i].call == JobExit(status, reason))
      && (log[i].Control? && log[i].msg.Final? ==> log[i].msg == Final(status, reason))
      && (log[i].OnFinal? ==> log[i] == OnFinal(status, reason))
  }

  lemma {:induction false} HandledUntil(hs: seq<Happening>, i: nat)
    requires i <= |hs| && forall k :: 0 <= k < i ==> !EndsJob(hs[k])
    ensures i < |hs| && EndsJob(hs[i]) ==> Handled(hs) == hs[..i + 1]
    ensures i == |hs| ==> Handled(hs) == hs
  {
    if i > 0 {
      HandledUntil(hs[1..], i - 1);
      assert hs == [hs[0]] + hs[1..];
      assert i < |hs| ==> hs[..i + 1] == [hs[0]] + hs[1..][..i];
    }
  }

  lemma MoreSaid(t: seq<Out>, o: Out)
    ensures Calls(t + [o]) == Calls(t) + (if o.Rpc? then [o.call] else [])
    ensures Messages(t + [o]) == Messages(t) + (if o.Control? then [o.msg] else [])
  {
    assert (t + [o])[..|t|] == t;
  }

  lemma MoreHandled(hs: seq<Happening>, i: nat, sock: nat, route: Route)
    requires i < |hs|
    ensures CallsFor(hs[..i + 1]) == CallsFor(hs[..i]) + (if hs[i].Tick? then [RegisterJobInfo] else [])
    ensures MessagesFor(hs[..i + 1]) == MessagesFor(hs[..i]) + (if hs[i].Tick? then [Update] else if hs[i].Reattach? then [Hello] else [])
    ensures SockAfter(hs[..i + 1], sock) == if hs[i].Handoff? && hs[i].replied then hs[i].sock else SockAfter(hs[..i], sock)
    ensures RouteAfter(hs[..i + 1], route)
            == if hs[i].Handoff? && hs[i].replied then Redirected(RouteAfter(hs[..i], route), hs[i].key, hs[i].socket) else RouteAfter(hs[..i], route)
  {
    assert hs[..i + 1][..i] == hs[..i] && hs[..i + 1][i] == hs[i];
  }

  function Redirected(r: Route, key: string, socket: string): Route {
    Route(if key != "" then key else r.key, if socket != "" then socket else r.socket)
  }

  lemma Extends(t: seq<Out>, o: Out, w: World)
    requires Orderly(t, w) && MayFollow(t, o, w)
    ensures Orderly(t + [o], w)
    ensures Current(t + [o]) == if o.Swap? then o.sock else Current(t)
    ensures RouteOf(t + [o], w.route) == if o.Swap? then Redirected(RouteOf(t, w.route), o.key, o.socket) else RouteOf(t, w.route)
    ensures Output(t + [o]) <==> Output(t) || o.OutputTransfer?
    ensures Began(t + [o]) <==> Began(t) || (o.Rpc? && o.call == BeginExecution)
  {
    hide MayFollow;
    var u := t + [o];
    assert u[..|t|] == t && u[|t|] == o;
    forall i | 0 <= i < |u| ensures MayFollow(u[..i], u[i], w) {
      if i < |t| {
        assert u[..i] == t[..i];
        assert MayFollow(t[..i], t[i], w);
      }
    }
    assert forall i :: 0 <= i < |t| ==> u[i] == t[i];
  }

  // ------------------------------------------------------------------------------- the run

  /** How a run was finalized. */
  datatype Ending = Ending(status: int, reason: Reason, jobExit: bool)

  predicate EndsJob(h: Happening) { h.ContextDone? || h.ControlClosed? || h.JobWaited? }

  /** The handshake went well and the job runs. */
  predicate JobRuns(w: World) {
    && w.activated && w.received && w.jobInfo && w.registered && w.sec != TransportLost
    && (w.shouldTransfer ==> w.setup && (w.hasRoute ==> w.download)) && w.begin && w.exec
  }

  predicate Introduced(w: World) { w.jobInfo && w.registered && w.sec != TransportLost }

  /** Nothing has happened that a run may not start with. */
  ghost predicate Pristine(t: seq<Out>, w: World) {
    && Orderly(t, w) && Current(t) == 0 && RouteOf(t, w.route) == w.route
    && !Began(t) && !Output(t) && JobStarted !in t && VacateMark !in t
  }

  lemma NothingIsPristine(w: World)
    ensures Pristine([], w) && Calls([]) == [] && Messages([]) == []
  {
  }

  /** get_job_info, register_starter_info, get_sec_session_info. */
  method Introduce(w: World) returns (t: seq<Out>)
    ensures Pristine(t, w) && InputTransfer !in t
    ensures Calls(t) == if !w.jobInfo then [GetJobInfo] else if !w.registered then [GetJobInfo, RegisterStarterInfo]
                        else [GetJobInfo, RegisterStarterInfo, GetSecSessionInfo]
    ensures Messages(t) == if w.jobInfo then [Hello] else []
  {
    hide Orderly, Current, RouteOf, Began, Output, Calls, Messages;
    t := [];
    NothingIsPristine(w);
    t := Emit(t, Rpc(0, GetJobInfo), w);
    if w.jobInfo {
      t := Emit(t, Control(Hello), w);
      t := Emit(t, Rpc(0, RegisterStarterInfo), w);
      if w.registered {
        t := Emit(t, Rpc(0, GetSecSessionInfo), w);
      }
    }
  }

  /**
   * Shadow handshake, input transfer, begin_execution and exec: everything before the monitor loop.
   * A failure on the way says how the run is to be finalized.
   */
  method Prepare(w: World) returns (t: seq<Out>, failed: Option<Ending>)
    requires w.activated && w.received
    ensures Orderly(t, w) && Current(t) == 0 && RouteOf(t, w.route) == w.route && VacateMark !in t && !Output(t)
    ensures failed.None? <==> JobRuns(w)
    ensures JobStarted in t <==> JobRuns(w)
    ensures failed.Some? ==> ReasonIs(w, failed.value.reason) && failed.value.status == 0 && (failed.value.jobExit <==> w.jobInfo)
    ensures Calls(t) == Opening(w)
    ensures Messages(t) == if JobRuns(w) then [Hello, Hello] else if w.jobInfo then [Hello] else []
    ensures InputTransfer in t <==> Introduced(w) && InputDone(w) && Transfers(w)
  {
    hide Orderly, Current, RouteOf, Began, Output, Calls, Messages;
    t := Introduce(w);
    if !Introduced(w) { return t, Some(Ending(0, JobNotStarted, w.jobInfo)); }
    if w.shouldTransfer {
      if !w.setup || (w.hasRoute && !w.download) { return t, Some(Ending(0, JobNotStarted, true)); }
      if w.hasRoute { t := Emit(t, InputTransfer, w); }
    }
    t := Emit(t, Rpc(0, BeginExecution), w);
    if !w.begin { return t, Some(Ending(0, JobNotStarted, true)); }
    if !w.exec { return t, Some(Ending(0, JobExecFailed, true)); }
    t := Emit(t, JobStarted, w);
    t := Emit(t, Control(Hello), w);
    return t, None;
  }

  // ---------------------------------------------------------------------- the monitor loop

  /** One thing that happens while the job runs. */
  method Observe(t: seq<Out>, h: Happening, w: World) returns (u: seq<Out>)
    requires Orderly(t, w) && JobStarted in t && !Output(t)
    ensures Orderly(u, w) && JobStarted in u && !Output(u)
    ensures VacateMark in u <==> VacateMark in t || Vacates(h)
    ensures Current(u) == if h.Handoff? && h.replied then h.sock else Current(t)
    ensures RouteOf(u, w.route) == if h.Handoff? && h.replied then Redirected(RouteOf(t, w.route), h.key, h.socket) else RouteOf(t, w.route)
    ensures Calls(u) == Calls(t) + (if h.Tick? then [RegisterJobInfo] else [])
    ensures Messages(u) == Messages(t) + (if h.Tick? then [Update] else if h.Reattach? then [Hello] else [])
  {
    hide Orderly, Current, RouteOf, Began, Output, Calls, Messages;
    match h
    case ContextDone => u := Emit(t, VacateMark, w);
    case ControlClosed => u := Emit(t, VacateMark, w);
    case VacateHard => u := Emit(t, VacateMark, w);
    case VacateSoft => u := Emit(t, VacateMark, w);
    case Reattach => u := Emit(t, Control(Hello), w);
    case Handoff(sock, key, socket, replied) =>
      u := t;
      if replied { u := Emit(t, Swap(sock, key, socket), w); }
    case Tick =>
      u := Emit(t, Control(Update), w);
      u := Emit(u, Rpc(Current(u), RegisterJobInfo), w);
    case _ => u := t;
  }

  /**
   * The loop, until the job is reaped or killed; waitDone is false if the run is still going on. Each
   * thing that happens until then has its effect, in order: reports, greetings, vacates, new shadows.
   */
  method Monitor(t: seq<Out>, w: World) returns (u: seq<Out>, waitDone: bool)
    requires Orderly(t, w) && JobStarted in t && !Output(t) && VacateMark !in t
    ensures Orderly(u, w) && JobStarted in u && !Output(u)
    ensures waitDone <==> Ended(w)
    ensures VacateMark in u <==> Vacated(w)
    ensures Watched(t, u, Handled(w.happenings), w)
  {
    u, waitDone := t, false;
    var i := 0;
    var hs := w.happenings;
    assert hs[..0] == [];
    hide Orderly, Current, RouteOf, Output, Calls, Messages, Watched, AnyVacates, Handled;
    WatchedNothing(t, w);
    while !waitDone && i < |hs|
      invariant 0 <= i <= |hs|
      invariant Orderly(u, w) && JobStarted in u && !Output(u) && Watched(t, u, hs[..i], w)
      invariant forall k :: 0 <= k < i && EndsJob(hs[k]) ==> waitDone && k == i - 1
      invariant waitDone ==> i > 0 && EndsJob(hs[i - 1])
      invariant VacateMark in u <==> AnyVacates(hs[..i])
    {
      ghost var was := u;
      u := Observe(u, hs[i], w);
      WatchedMore(t, was, u, hs, i, w);
      waitDone := EndsJob(hs[i]);
      i := i + 1;
    }
    if waitDone { HandledUntil(hs, i - 1); } else { HandledUntil(hs, i); assert hs[..i] == hs; }
    assert Handled(hs) == hs[..i];
  }

  /** From t to u exactly the effects of hs. */
  ghost predicate Watched(t: seq<Out>, u: seq<Out>, hs: seq<Happening>, w: World) {
    && Calls(u) == Calls(t) + CallsFor(hs) && Messages(u) == Messages(t) + MessagesFor(hs)
    && Current(u) == SockAfter(hs, Current(t)) && RouteOf(u, w.route) == RouteAfter(hs, RouteOf(t, w.route))
  }

  lemma WatchedMore(t: seq<Out>, u: seq<Out>, v: seq<Out>, hs: seq<Happening>, i: nat, w: World)
    requires i < |hs| && Watched(t, u, hs[..i], w)
    requires Calls(v) == Calls(u) + (if hs[i].Tick? then [RegisterJobInfo] else [])
    requires Messages(v) == Messages(u) + (if hs[i].Tick? then [Update] else if hs[i].Reattach? then [Hello] else [])
    requires Current(v) == if hs[i].Handoff? && hs[i].replied then hs[i].sock else Current(u)
    requires RouteOf(v, w.route)
             == if hs[i].Handoff? && hs[i].replied then Redirected(RouteOf(u, w.route), hs[i].key, hs[i].socket) else RouteOf(u, w.route)
    ensures Watched(t, v, hs[..i + 1], w)
    ensures AnyVacates(hs[..i + 1]) <==> AnyVacates(hs[..i]) || Vacates(hs[i])
  {
    hide Calls, Messages, Current, RouteOf, CallsFor, MessagesFor, SockAfter, RouteAfter, Vacates;
    MoreHandled(hs, i, Current(t), RouteOf(t, w.route));
    var all := hs[..i + 1];
    assert all[i] == hs[i] && forall k :: 0 <= k < i ==> all[k] == hs[..i][k];
    assert forall k :: 0 <= k < i ==> hs[..i][k] == all[k];
  }

  lemma WatchedNothing(t: seq<Out>, w: World)
    ensures Watched(t, t, [], w)
  {
  }

  /** Output transfer and job_termination, unless the run was vacated, and the reason to report. */
  method WindDown(t: seq<Out>, w: World) returns (u: seq<Out>, reason: Reason)
    requires Orderly(t, w) && JobStarted in t && !Output(t)
    ensures Orderly(u, w) && Current(u) == Current(t) && JobStarted in u
    ensures VacateMark in u <==> VacateMark in t
    ensures Output(u) <==> Transfers(w) && VacateMark !in t
    ensures JobRuns(w) && (VacateMark in t <==> Vacated(w)) ==> ReasonIs(w, reason)
    ensures Calls(u) == Calls(t) + (if Transfers(w) && VacateMark !in t then [JobTermination] else []) && Messages(u) == Messages(t)
    ensures Output(u) ==> OutputTransfer(RouteOf(t, w.route)) in u
  {
    hide Orderly, Current, RouteOf, Began, Output, Calls, Messages;
    var vacated := VacateMark in t;
    reason := if vacated then JobKilled else if w.coreDump then JobCoredumped else JobExited;
    u := t;
    if Transfers(w) && !vacated {
      u := Emit(u, OutputTransfer(RouteOf(u, w.route)), w);
      if !w.upload { reason := JobShouldHold; }
      u := Emit(u, Rpc(Current(u), JobTermination), w);
    }
  }

  /** What of a run that has got its syscall connection is told to the shadow before finalize. */
  function ToldShadow(w: World): seq<Call> {
    Opening(w)
    + (if JobRuns(w) then CallsFor(Handled(w.happenings)) + (if Ended(w) && Transfers(w) && !Vacated(w) then [JobTermination] else []) else [])
  }

  /** And to the startd. */
  function ToldStartd(w: World): seq<Message> {
    if JobRuns(w) then [Hello, Hello] + MessagesFor(Handled(w.happenings)) else if w.jobInfo then [Hello] else []
  }

  /**
   * The whole run. What it does before finalize is orderly, and tells shadow and startd exactly what the
   * world calls for; finalize comes exactly once, last, and on the socket that is current then, on every
   * path once the syscall connection is received, with the job's own status and the true reason.
   */
  method Run(w: World) returns (log: seq<Out>, ending: Option<Ending>, ghost body: seq<Out>)
    ensures Orderly(body, w)
    ensures log == body + (if ending.Some? then Closing(Current(body), ending.value.status, ending.value.reason, ending.value.jobExit) else [])
    ensures !(w.activated && w.received) ==> log == [] && ending.None?
    ensures w.activated && w.received ==> (ending.Some? <==> !JobRuns(w) || Ended(w))
    ensures w.activated && w.received ==> Calls(body) == ToldShadow(w) && Messages(body) == ToldStartd(w)
    ensures ending.Some? ==> (ending.value.jobExit <==> w.jobInfo)
    ensures ending.Some? ==> ReasonIs(w, ending.value.reason) && ending.value.status == (if JobRuns(w) then w.status else 0)
    ensures ending.Some? ==> Reports(log, if JobRuns(w) then w.status else 0, ending.value.reason)
    ensures w.activated && w.received ==> (JobStarted in body <==> JobRuns(w)) && (VacateMark in body <==> JobRuns(w) && Vacated(w))
    ensures w.activated && w.received ==> (Output(body) <==> JobRuns(w) && Ended(w) && Transfers(w) && !Vacated(w))
    ensures Output(body) ==> OutputTransfer(RouteAfter(Handled(w.happenings), w.route)) in body
    ensures w.activated && w.received && JobRuns(w) ==> Current(body) == SockAfter(Handled(w.happenings), 0)
  {
    if !w.activated || !w.received { return [], None, []; }
    hide Orderly, Current, RouteOf, Began, Output, Calls, Messages, CallsFor, MessagesFor, SockAfter, RouteAfter, Handled, Reports, ReasonIs,
      Opening, Vacated, Ended, JobRuns;
    var t, failed := Prepare(w);
    if failed.Some? {
      OnlyClosingReports(t, w, failed.value);
      return t + Closing(0, failed.value.status, failed.value.reason, failed.value.jobExit), failed, t;
    }
    var waitDone;
    ghost var t0 := t;
    t, waitDone := Monitor(t, w);
    if !waitDone { return t, None, t; }
    var reason;
    t, reason := WindDown(t, w);
    OnlyClosingReports(t, w, Ending(w.status, reason, true));
    log, ending, body := t + Closing(Current(t), w.status, reason, true), Some(Ending(w.status, reason, true)), t;
  }

  /** Nothing before finalize reports an end, so all reports agree. */
  lemma OnlyClosingReports(body: seq<Out>, w: World, e: Ending)
    requires Orderly(body, w)
    ensures Reports(body + Closing(Current(body), e.status, e.reason, e.jobExit), e.status, e.reason)
  {
    hide Current, Orderly;
    var log := body + Closing(Current(body), e.status, e.reason, e.jobExit);
    forall i | 0 <= i < |log|
      ensures log[i].Rpc? && log[i].call.JobExit? ==> log[i].call == JobExit(e.status, e.reason)
      ensures log[i].Control? && log[i].msg.Final? ==> log[i].msg == Final(e.status, e.reason)
      ensures log[i].OnFinal? ==> log[i] == OnFinal(e.status, e.reason)
    {
      if i < |body| { NothingFinalBefore(body, w, i); }
    }
  }

  /** One more thing done, in order. */
  method Emit(t: seq<Out>, o: Out, w: World) returns (u: seq<Out>)
    requires Orderly(t, w) && MayFollow(t, o, w)
    ensures u == t + [o] && Orderly(u, w)
    ensures Current(u) == if o.Swap? then o.sock else Current(t)
    ensures RouteOf(u, w.route) == if o.Swap? then Redirected(RouteOf(t, w.route), o.key, o.socket) else RouteOf(t, w.route)
    ensures Output(u) <==> Output(t) || o.OutputTransfer?
    ensures Began(u) <==> Began(t) || (o.Rpc? && o.call == BeginExecution)
    ensures Calls(u) == Calls(t) + (if o.Rpc? then [o.call] else []) && Messages(u) == Messages(t) + (if o.Control? then [o.msg] else [])
  {
    Extends(t, o, w);
    MoreSaid(t, o);
    u := t + [o];
  }

  // ------------------------------------------------------------- what the order amounts to

  lemma MembersFollow(t: seq<Out>, w: World, i: nat)
    requires Orderly(t, w) && i < |t|
    ensures MayFollow(t[..i], t[i], w)
  {
  }

  /** Before finalize nothing is final: no job_exit, no Final, no Exited. */
  lemma NothingFinalBefore(body: seq<Out>, w: World, i: nat)
    requires Orderly(body, w) && i < |body|
    ensures !(body[i].Rpc? && body[i].call.JobExit?) && !body[i].OnFinal?
    ensures body[i].Control? ==> body[i].msg.Hello? || body[i].msg.Update?
  {
    MembersFollow(body, w, i);
  }

  /** Every syscall goes to the shadow that reconnected last, job_exit included. */
  lemma EveryRpcOnCurrent(body: seq<Out>, w: World, e: Ending, i: nat)
    requires Orderly(body, w) && i < |body + Closing(Current(body), e.status, e.reason, e.jobExit)|
    ensures var log := body + Closing(Current(body), e.status, e.reason, e.jobExit);
            log[i].Rpc? ==> log[i].sock == Current(log[..i])
  {
    var log := body + Closing(Current(body), e.status, e.reason, e.jobExit);
    if i < |body| {
      MembersFollow(body, w, i);
      assert log[..i] == body[..i];
    } else if i == |body| {
      assert log[..i] == body;
    }
  }

  /** job_exit at most once and after every other syscall; Final, Exited and the callback once, at the end. */
  lemma FinalizeIsLast(body: seq<Out>, w: World, e: Ending, i: nat)
    requires Orderly(body, w) && i < |body + Closing(Current(body), e.status, e.reason, e.jobExit)|
    ensures var log := body + Closing(Current(body), e.status, e.reason, e.jobExit);
            && (log[i] == Control(Exited) <==> i == |log| - 2)
            && (log[i].Control? && log[i].msg.Final? <==> i == |log| - 3)
            && (log[i].OnFinal? <==> i == |log| - 1)
            && (log[i].Rpc? && log[i].call.JobExit? <==> e.jobExit && i == |log| - 4)
            && (e.jobExit && log[i].Rpc? ==> i <= |log| - 4)
  {
    if i < |body| { NothingFinalBefore(body, w, i); }
  }

  /** begin_execution only after the input transfer, and only once. */
  lemma BeginAfterInput(body: seq<Out>, w: World, i: nat)
    requires Orderly(body, w) && i < |body| && body[i].Rpc? && body[i].call == BeginExecution
    ensures Transfers(w) ==> exists k :: 0 <= k < i && body[k] == InputTransfer
    ensures forall k :: 0 <= k < |body| && k != i ==> !(body[k].Rpc? && body[k].call == BeginExecution)
    ensures forall k :: i < k < |body| ==> body[k] != InputTransfer
  {
    MembersFollow(body, w, i);
    forall k | 0 <= k < |body| && k != i
      ensures !(body[k].Rpc? && body[k].call == BeginExecution)
      ensures i < k ==> body[k] != InputTransfer
    {
      MembersFollow(body, w, k);
      if i < k { assert body[..k][i] == body[i]; } else { assert body[..i][k] == body[k]; }
    }
  }

  lemma VacatedNoOutput(body: seq<Out>, w: World, i: nat, k: nat)
    requires Orderly(body, w) && i < |body| && k < |body| && body[i] == VacateMark
    ensures !body[k].OutputTransfer?
  {
    MembersFollow(body, w, k);
    MembersFollow(body, w, i);
    assert i < k ==> body[..k][i] == body[i];
    assert k < i ==> body[..i][k] == body[k];
  }

  /** No output transfer and no job_termination in a vacated run, before or after the vacate. */
  lemma VacatedSendsNothing(body: seq<Out>, w: World, i: nat, k: nat)
    requires Orderly(body, w) && i < |body| && k < |body| && body[i] == VacateMark
    ensures !body[k].OutputTransfer? && !(body[k].Rpc? && body[k].call == JobTermination)
  {
    VacatedNoOutput(body, w, i, k);
    MembersFollow(body, w, k);
    forall m | 0 <= m < k ensures !body[..k][m].OutputTransfer? {
      VacatedNoOutput(body, w, i, m);
    }
  }

  /** Output goes by the route the last shadow handed over, and no syscall but job_termination follows it. */
  lemma OutputIsLastButOne(body: seq<Out>, w: World, i: nat, k: nat)
    requires Orderly(body, w) && i < k < |body| && body[i].OutputTransfer?
    ensures body[i].route == RouteOf(body[..i], w.route)
    ensures body[k].Rpc? ==> body[k].call == JobTermination
    ensures !body[k].Swap? && !body[k].OutputTransfer?
  {
    MembersFollow(body, w, i);
    MembersFollow(body, w, k);
    assert body[..k][i] == body[i];
    assert Output(body[..k]);
    var s :| 0 <= s < i && body[..i][s] == JobStarted;
    MembersFollow(body, w, s);
    var b :| 0 <= b < s && body[..s][b].Rpc? && body[..s][b].call == BeginExecution;
    assert body[..k][b] == body[b];
    assert Began(body[..k]);
  }
}
