/**
 * The CA_RECONNECT_JOB handoff between command handlers (internal/starter/command_server.go) and the
 * starter's Run (internal/starter/starter.go), as interleaved steps: any number of handlers, a
 * one-place handoff channel, and per handoff a one-place ack and a one-place replied channel.
 */
module Reconnect {
  import opened Basics

  /** What is written on a connection: the handler's reply, piece by piece, or Run's syscalls. */
  datatype Chunk = Reply(i: nat) | Refusal | Syscall

  datatype HandlerPc =
    | Arrived            // authorised, about to offer its handoff
    | Declined           // never offered: refused, or its context ended
    | AwaitAck
    | Writing(k: nat)    // k pieces of the Success reply are on the wire
    | Replying(ok: bool) // about to report on replied
    | Returned(ok: bool) // ok: the connection is kept open for Run

  /** How far Run has come with a handoff (history). */
  datatype View = Unseen | Queued | Taken | Acked | Adopted | Replaced | Abandoned

  datatype Handoff = Handoff(pc: HandlerPc, ack: Option<bool>, replied: Option<bool>, open: bool, wire: seq<Chunk>,
                             view: View, reports: nat)

  datatype Stream = Original | Of(h: nat)

  datatype RunPc =
    | Preparing | Monitoring | Acking(h: nat) | Waiting(h: nat) | Abandoning(h: nat) | Dropping(prev: Stream) | Winding | Ended

  datatype State = State(replyLen: nat, cancelled: bool, hs: map<nat, Handoff>, ch: Option<nat>, run: RunPc, current: Stream,
                         originalOpen: bool)

  function Start(replyLen: nat): State { State(replyLen, false, map[], None, Preparing, Original, true) }

  datatype Action =
    | Cancel
    // handler h
    | Arrive(h: nat) | Offer(h: nat) | NoRoom(h: nat) | GiveUp(h: nat) | TakeAck(h: nat) | WritePiece(h: nat) | WriteFails(h: nat)
    | WriteDone(h: nat) | Report(h: nat) | ServerCloses(h: nat)
    // Run
    | Monitor | Take | SendAck | TakeReplied | TimeOut | CloseAbandoned | CloseOld | UseStream | Leave | Exit

  predicate At(s: State, h: nat, pc: HandlerPc) { h in s.hs && s.hs[h].pc == pc }

  predicate Enabled(s: State, a: Action) {
    match a
    case Cancel => true
    case Arrive(h) => h !in s.hs
    case Offer(h) => At(s, h, Arrived) && s.ch.None?
    case NoRoom(h) => At(s, h, Arrived) && s.ch.Some?
    case GiveUp(h) => (At(s, h, Arrived) || At(s, h, AwaitAck)) && s.cancelled
    case TakeAck(h) => At(s, h, AwaitAck) && s.hs[h].ack.Some?
    case WritePiece(h) => h in s.hs && s.hs[h].pc.Writing? && s.hs[h].pc.k < s.replyLen && s.hs[h].open
    case WriteFails(h) => h in s.hs && s.hs[h].pc.Writing?
    case WriteDone(h) => At(s, h, Writing(s.replyLen))
    case Report(h) => h in s.hs && s.hs[h].pc.Replying? && s.hs[h].replied.None?
    case ServerCloses(h) => At(s, h, Declined) || At(s, h, Returned(false))
    case Monitor => s.run == Preparing
    case Take => s.run == Monitoring && s.ch.Some?
    case SendAck => s.run.Acking? && s.run.h in s.hs && s.hs[s.run.h].ack.None?
    case TakeReplied => s.run.Waiting? && s.run.h in s.hs && s.hs[s.run.h].replied.Some?
    case TimeOut => s.run.Waiting?
    case CloseAbandoned => s.run.Abandoning?
    case CloseOld => s.run.Dropping?
    case UseStream => s.run in {Preparing, Monitoring, Winding}
    case Leave => s.run == Monitoring
    case Exit => s.run in {Preparing, Winding}
  }

  function Set(s: State, h: nat, x: Handoff): State { s.(hs := s.hs[h := x]) }

  function Close(s: State, st: Stream): State {
    match st
    case Original => s.(originalOpen := false)
    case Of(h) => if h in s.hs then Set(s, h, s.hs[h].(open := false)) else s
  }

  /** Run adopts h as its syscall connection. */
  function Swap(s: State, h: nat): State
    requires h in s.hs
  {
    var s1 := match s.current
              case Original => s
              case Of(o) => if o in s.hs then Set(s, o, s.hs[o].(view := Replaced)) else s;
    Set(s1, h, s.hs[h].(view := Adopted, replied := None)).(current := Of(h), run := Dropping(s.current))
  }

  function Next(s: State, a: Action): State
    requires Enabled(s, a)
  {
    match a
    case Cancel => s.(cancelled := true)
    case Arrive(h) => Set(s, h, Handoff(Arrived, None, None, true, [], Unseen, 0))
    case Offer(h) => Set(s, h, s.hs[h].(pc := AwaitAck, view := Queued)).(ch := Some(h))
    case NoRoom(h) => Set(s, h, s.hs[h].(pc := Declined, wire := s.hs[h].wire + [Refusal]))
    case GiveUp(h) => Set(s, h, s.hs[h].(pc := if s.hs[h].pc == Arrived then Declined else Replying(false)))
    case TakeAck(h) =>
      if s.hs[h].ack.value then Set(s, h, s.hs[h].(pc := Writing(0), ack := None))
      else Set(s, h, s.hs[h].(pc := Replying(false), ack := None, wire := s.hs[h].wire + [Refusal]))
    case WritePiece(h) => Set(s, h, s.hs[h].(pc := Writing(s.hs[h].pc.k + 1), wire := s.hs[h].wire + [Reply(s.hs[h].pc.k)]))
    case WriteFails(h) => Set(s, h, s.hs[h].(pc := Replying(false)))
    case WriteDone(h) => Set(s, h, s.hs[h].(pc := Replying(true)))
    case Report(h) =>
      Set(s, h, s.hs[h].(pc := Returned(s.hs[h].pc.ok), replied := Some(s.hs[h].pc.ok), reports := s.hs[h].reports + 1))
    case ServerCloses(h) => Set(s, h, s.hs[h].(open := false))
    case Monitor => s.(run := Monitoring)
    case Take =>
      var h := s.ch.value;
      (if h in s.hs then Set(s, h, s.hs[h].(view := Taken)) else s).(ch := None, run := Acking(h))
    case SendAck => Set(s, s.run.h, s.hs[s.run.h].(ack := Some(true), view := Acked)).(run := Waiting(s.run.h))
    case TakeReplied =>
      if s.hs[s.run.h].replied.value then Swap(s, s.run.h)
      else Abandon(Set(s, s.run.h, s.hs[s.run.h].(replied := None)), s.run.h)
    case TimeOut => if s.run.h in s.hs then Abandon(s, s.run.h) else s
    case CloseAbandoned => Close(s, Of(s.run.h)).(run := Monitoring)
    case CloseOld => Close(s, s.run.prev).(run := Monitoring)
    case UseStream =>
      (match s.current
       case Original => s
       case Of(h) => if h in s.hs then Set(s, h, s.hs[h].(wire := s.hs[h].wire + [Syscall])) else s)
    case Leave => s.(run := Winding)
    case Exit => Close(s, s.current).(run := Ended)
  }

  /** acceptReconnect gives up on h, be it for an error, a cancelled context or the timeout. */
  function Abandon(s: State, h: nat): State
    requires h in s.hs
  {
    Set(s, h, s.hs[h].(view := Abandoned)).(run := Abandoning(h))
  }

  // ----------------------------------------------------------------- what stays true

  function ReplyTo(k: nat): seq<Chunk> { seq(k, i requires 0 <= i < k => Reply(i)) }

  /** The whole reply first, then nothing but syscalls. */
  predicate AfterReply(wire: seq<Chunk>, len: nat) {
    |wire| >= len && wire[..len] == ReplyTo(len) && forall i :: len <= i < |wire| ==> wire[i] == Syscall
  }

  /** A wire Run has not used: part of the reply, or a refusal. */
  ghost predicate HandlersOnly(wire: seq<Chunk>, len: nat) {
    wire == [Refusal] || (|wire| <= len && wire == ReplyTo(|wire|))
  }

  /** Where Run stands with a handoff it knows. */
  predicate Placed(s: State, h: nat, x: Handoff) {
    match x.view
    case Unseen => true
    case Queued => s.ch == Some(h)
    case Taken => s.run == Acking(h)
    case Acked => s.run == Waiting(h)
    case Adopted => s.current == Of(h) && (x.open <==> s.run != Ended)
    case Replaced => s.current != Of(h) && (x.open ==> s.run == Dropping(Of(h)))
    case Abandoned => x.open ==> s.run == Abandoning(h)
  }

  /** The handler's own progress agrees with its channels and with Run's view. */
  predicate Progress(x: Handoff, len: nat) {
    && (x.pc in {Arrived, Declined} <==> x.view == Unseen)
    && (x.ack.Some? ==> x.ack.value && x.view in {Acked, Abandoned} && x.pc in {AwaitAck, Replying(false), Returned(false)})
    && (x.view in {Unseen, Queued, Taken} ==> !x.pc.Writing? && x.pc !in {Replying(true), Returned(true)})
    && (x.view in {Adopted, Replaced} ==> x.pc == Returned(true))
    && (x.replied.Some? ==> x.pc == Returned(x.replied.value))
    && (x.pc.Returned? && x.view in {Queued, Taken, Acked} ==> x.replied.Some?)
    && x.reports == (if x.pc.Returned? then 1 else 0)
    && (x.view in {Unseen, Queued, Taken, Acked} && x.pc !in {Declined, Returned(false)} ==> x.open)
    && (x.pc in {Arrived, AwaitAck} ==> x.wire == [])
    && (x.pc.Writing? ==> x.wire == ReplyTo(x.pc.k) && x.pc.k <= len)
  }

  ghost predicate Clean(x: Handoff, len: nat) {
    if x.view in {Adopted, Replaced} then AfterReply(x.wire, len)
    else HandlersOnly(x.wire, len) && (x.pc in {Replying(true), Returned(true)} ==> x.wire == ReplyTo(len))
  }

  ghost predicate HandoffOk(s: State, h: nat) {
    h in s.hs ==> Placed(s, h, s.hs[h]) && Progress(s.hs[h], s.replyLen) && Clean(s.hs[h], s.replyLen)
  }

  /** Run's references point at handoffs in the matching stage; one stream is current. */
  predicate RunOk(s: State) {
    && (s.ch.Some? ==> s.ch.value in s.hs && s.hs[s.ch.value].view == Queued)
    && (s.run.Acking? ==> s.run.h in s.hs && s.hs[s.run.h].view == Taken)
    && (s.run.Waiting? ==> s.run.h in s.hs && s.hs[s.run.h].view == Acked)
    && (s.run.Abandoning? ==> s.run.h in s.hs && s.hs[s.run.h].view == Abandoned)
    && (s.run.Dropping? ==> s.run.prev != s.current && (s.run.prev.Of? ==> s.run.prev.h in s.hs && s.hs[s.run.prev.h].view == Replaced))
    && (s.current.Of? ==> s.current.h in s.hs && s.hs[s.current.h].view == Adopted)
    && (s.originalOpen <==> (s.current == Original && s.run != Ended) || s.run == Dropping(Original))
  }

  ghost predicate Inv(s: State) { RunOk(s) && forall h :: HandoffOk(s, h) }

  lemma StartInv(replyLen: nat)
    ensures Inv(Start(replyLen))
  {
  }

  predicate ByHandler(a: Action) {
    a.Arrive? || a.Offer? || a.NoRoom? || a.GiveUp? || a.TakeAck? || a.WritePiece? || a.WriteFails? || a.WriteDone? || a.Report?
    || a.ServerCloses?
  }

  /** A handler touches its own handoff only, and Run's view of it only by offering it. */
  lemma HandlerTouches(s: State, a: Action)
    requires ByHandler(a) && Enabled(s, a)
    ensures var s1 := Next(s, a);
            && a.h in s1.hs && s1 == s.(hs := s.hs[a.h := s1.hs[a.h]], ch := s1.ch) && s1.ch == (if a.Offer? then Some(a.h) else s.ch)
            && (a.h in s.hs ==> s1.hs[a.h].view == (if a.Offer? then Queued else s.hs[a.h].view))
            && (a.Offer? ==> a.h in s.hs && s.hs[a.h].pc == Arrived)
  {
  }

  lemma HandlerRunOk(s: State, a: Action)
    requires ByHandler(a) && RunOk(s) && HandoffOk(s, a.h) && Enabled(s, a)
    ensures RunOk(Next(s, a))
  {
    HandlerTouches(s, a);
    hide Next, Enabled, Clean, Placed;
  }

  lemma RunTakesOk(s: State, a: Action)
    requires RunOk(s) && Enabled(s, a) && (a.Take? || a.SendAck? || a.TakeReplied? || a.TimeOut?) && (s.run.Waiting? ==> HandoffOk(s, s.run.h))
    ensures RunOk(Next(s, a))
  {
    hide Clean, Progress;
  }

  lemma RunRunOk(s: State, a: Action)
    requires Inv(s) && Enabled(s, a) && !ByHandler(a)
    ensures RunOk(Next(s, a))
  {
    if a.Take? || a.SendAck? || a.TakeReplied? || a.TimeOut? {
      if s.run.Waiting? { assert HandoffOk(s, s.run.h); }
      hide HandoffOk, RunOk, Enabled, Next;
      RunTakesOk(s, a);
    } else {
      hide HandoffOk;
    }
  }

  lemma HandlerWrites(s: State, a: Action)
    requires (a.TakeAck? || a.WritePiece?) && HandoffOk(s, a.h) && RunOk(s) && Enabled(s, a)
    ensures HandoffOk(Next(s, a), a.h)
  {
    assert ReplyTo(0) == [];
    if a.WritePiece? { assert ReplyTo(s.hs[a.h].pc.k) + [Reply(s.hs[a.h].pc.k)] == ReplyTo(s.hs[a.h].pc.k + 1); }
    hide AfterReply, ReplyTo;
  }

  lemma HandlerArrives(s: State, a: Action)
    requires (a.Arrive? || a.Offer? || a.NoRoom? || a.GiveUp?) && HandoffOk(s, a.h) && RunOk(s) && Enabled(s, a)
    ensures HandoffOk(Next(s, a), a.h)
  {
    assert ReplyTo(0) == [];
    hide AfterReply, ReplyTo;
  }

  /** A handler's step keeps its own handoff in order. */
  lemma HandlerOwn(s: State, a: Action)
    requires ByHandler(a) && HandoffOk(s, a.h) && RunOk(s) && Enabled(s, a)
    ensures HandoffOk(Next(s, a), a.h)
  {
    if a.TakeAck? || a.WritePiece? {
      hide HandoffOk, RunOk, Enabled, Next;
      HandlerWrites(s, a);
    } else if a.Arrive? || a.Offer? || a.NoRoom? || a.GiveUp? {
      hide HandoffOk, RunOk, Enabled, Next;
      HandlerArrives(s, a);
    } else {
      hide AfterReply, ReplyTo, RunOk;
    }
  }

  /** and nobody else's out of it. */
  lemma HandlerOther(s: State, a: Action, h: nat)
    requires HandoffOk(s, h) && RunOk(s) && Enabled(s, a) && ByHandler(a) && h != a.h
    ensures HandoffOk(Next(s, a), h)
  {
    HandlerTouches(s, a);
    hide Progress, Clean, Next, Enabled;
  }

  lemma MoreSyscalls(wire: seq<Chunk>, len: nat)
    requires AfterReply(wire, len)
    ensures AfterReply(wire + [Syscall], len)
  {
    assert (wire + [Syscall])[..len] == wire[..len];
  }

  lemma WholeReply(len: nat)
    ensures AfterReply(ReplyTo(len), len)
  {
    assert ReplyTo(len)[..len] == ReplyTo(len);
  }

  lemma RunAdopts(s: State, h: nat)
    requires HandoffOk(s, h) && RunOk(s) && s.run.Waiting? && s.run.h in s.hs && s.hs[s.run.h].replied == Some(true)
    requires HandoffOk(s, s.run.h)
    ensures HandoffOk(Swap(s, s.run.h), h)
  {
    WholeReply(s.replyLen);
    hide ReplyTo, AfterReply, HandlersOnly;
  }

  lemma RunAbandons(s: State, h: nat, x: Option<bool>)
    requires HandoffOk(s, h) && RunOk(s) && s.run.Waiting? && s.run.h in s.hs
    requires x in {None, s.hs[s.run.h].replied}
    ensures HandoffOk(Abandon(Set(s, s.run.h, s.hs[s.run.h].(replied := x)), s.run.h), h)
  {
    hide ReplyTo, AfterReply, HandlersOnly;
  }

  lemma RunResolves(s: State, a: Action, h: nat)
    requires HandoffOk(s, h) && RunOk(s) && Enabled(s, a) && (a.TakeReplied? || a.TimeOut?) && HandoffOk(s, s.run.h)
    ensures HandoffOk(Next(s, a), h)
  {
    var r := s.run.h;
    assert r in s.hs;
    hide HandoffOk, RunOk;
    if a.TakeReplied? && s.hs[r].replied.value {
      RunAdopts(s, h);
    } else if a.TakeReplied? {
      RunAbandons(s, h, None);
    } else {
      assert s.hs[r := s.hs[r].(replied := s.hs[r].replied)] == s.hs;
      RunAbandons(s, h, s.hs[r].replied);
    }
  }

  lemma RunCloses(s: State, a: Action, h: nat)
    requires HandoffOk(s, h) && RunOk(s) && Enabled(s, a) && (a.CloseAbandoned? || a.CloseOld? || a.Exit?)
    ensures HandoffOk(Next(s, a), h)
  {
    hide ReplyTo, AfterReply, HandlersOnly;
  }

  lemma RunStep(s: State, a: Action, h: nat)
    requires HandoffOk(s, h) && RunOk(s) && Enabled(s, a) && !ByHandler(a) && (s.run.Waiting? ==> HandoffOk(s, s.run.h))
    ensures HandoffOk(Next(s, a), h)
  {
    if a.TakeReplied? || a.TimeOut? {
      RunResolves(s, a, h);
    } else if a.CloseAbandoned? || a.CloseOld? || a.Exit? {
      RunCloses(s, a, h);
    } else if a.UseStream? {
      RunUses(s, h);
    } else {
      hide ReplyTo, AfterReply, HandlersOnly;
    }
  }

  lemma RunUses(s: State, h: nat)
    requires HandoffOk(s, h) && RunOk(s) && Enabled(s, UseStream)
    ensures HandoffOk(Next(s, UseStream), h)
  {
    if h in s.hs && s.hs[h].view == Adopted { MoreSyscalls(s.hs[h].wire, s.replyLen); }
    hide ReplyTo, AfterReply, HandlersOnly;
  }

  lemma NextInv(s: State, a: Action)
    requires Inv(s) && Enabled(s, a)
    ensures Inv(Next(s, a))
  {
    hide RunOk, HandoffOk, Enabled, Next;
    if ByHandler(a) { assert HandoffOk(s, a.h); HandlerRunOk(s, a); } else { RunRunOk(s, a); }
    forall h ensures HandoffOk(Next(s, a), h) {
      assert HandoffOk(s, h);
      assert s.run.Waiting? ==> HandoffOk(s, s.run.h);
      if !ByHandler(a) { RunStep(s, a, h); } else if h == a.h { HandlerOwn(s, a); } else { HandlerOther(s, a, h); }
    }
  }

  lemma SameReply(s: State, a: Action)
    requires Enabled(s, a)
    ensures Next(s, a).replyLen == s.replyLen
  {
  }

  // ---------------------------------------------------------------------- whole runs

  ghost predicate Schedule(ss: seq<State>, acts: seq<Action>, replyLen: nat) {
    && |ss| == |acts| + 1 && ss[0] == Start(replyLen)
    && forall i :: 0 <= i < |acts| ==> Enabled(ss[i], acts[i]) && ss[i + 1] == Next(ss[i], acts[i])
  }

  lemma {:induction false} EveryInterleaving(ss: seq<State>, acts: seq<Action>, replyLen: nat, i: nat)
    requires Schedule(ss, acts, replyLen) && i < |ss|
    ensures Inv(ss[i]) && ss[i].replyLen == replyLen
  {
    if i == 0 {
      StartInv(replyLen);
    } else {
      hide Inv, Next, Enabled;
      EveryInterleaving(ss, acts, replyLen, i - 1);
      NextInv(ss[i - 1], acts[i - 1]);
      SameReply(ss[i - 1], acts[i - 1]);
    }
  }

  /**
   * No syscall on a handed-off stream before the handler's Success reply is complete, and none of
   * the reply after it, on any stream of any interleaving.
   */
  lemma ReplyBeforeSyscalls(ss: seq<State>, acts: seq<Action>, replyLen: nat, i: nat, h: nat)
    requires Schedule(ss, acts, replyLen) && i < |ss| && h in ss[i].hs
    ensures HandlersOnly(ss[i].hs[h].wire, replyLen) || AfterReply(ss[i].hs[h].wire, replyLen)
    ensures ss[i].current == Of(h) ==> ss[i].hs[h].pc == Returned(true) && AfterReply(ss[i].hs[h].wire, replyLen)
  {
    EveryInterleaving(ss, acts, replyLen, i);
    assert HandoffOk(ss[i], h);
    hide ReplyTo, AfterReply, HandlersOnly;
  }

  /** Every offered handoff gets exactly one replied value by the time its handler returns, and no send ever blocks. */
  lemma ExactlyOneReport(ss: seq<State>, acts: seq<Action>, replyLen: nat, i: nat, h: nat)
    requires Schedule(ss, acts, replyLen) && i < |ss| && h in ss[i].hs
    ensures var x := ss[i].hs[h];
            && x.reports <= 1 && (x.reports == 1 <==> x.pc.Returned?)
            && (x.pc == Declined ==> x.view == Unseen && x.reports == 0)
            && (x.pc.Replying? ==> Enabled(ss[i], Report(h)))
    ensures ss[i].run == Acking(h) ==> Enabled(ss[i], SendAck)
  {
    EveryInterleaving(ss, acts, replyLen, i);
    assert HandoffOk(ss[i], h);
    hide Clean;
  }

  predicate IsOpen(s: State, st: Stream) {
    match st
    case Original => s.originalOpen
    case Of(h) => h in s.hs && s.hs[h].open
  }

  /**
   * One stream is current, and open until Run has ended; whatever Run has replaced or abandoned is
   * closed as soon as Run is back in its monitor loop, and at the end everything Run ever held is.
   */
  lemma OneCurrentStream(ss: seq<State>, acts: seq<Action>, replyLen: nat, i: nat, st: Stream)
    requires Schedule(ss, acts, replyLen) && i < |ss|
    requires st == Original || (st.h in ss[i].hs && ss[i].hs[st.h].view in {Adopted, Replaced, Abandoned})
    ensures st == ss[i].current ==> (IsOpen(ss[i], st) <==> ss[i].run != Ended)
    ensures st != ss[i].current && IsOpen(ss[i], st) ==>
              ss[i].run == Dropping(st) || (st.Of? && ss[i].run == Abandoning(st.h))
    ensures ss[i].run == Ended ==> !IsOpen(ss[i], st)
  {
    EveryInterleaving(ss, acts, replyLen, i);
    if st.Of? { assert HandoffOk(ss[i], st.h); }
    hide Progress, Clean;
  }

  // ----------------------------------------------------- which handoffs are adopted, and when

  /** Step j takes the report of a completed reply of h, for which Run has been waiting. */
  predicate Adopts(s: State, a: Action, h: nat) {
    a == TakeReplied && s.run == Waiting(h) && h in s.hs && s.hs[h].replied == Some(true)
  }

  predicate IsAdopted(s: State, h: nat) { h in s.hs && s.hs[h].view in {Adopted, Replaced} }

  ghost predicate EverAdopts(ss: seq<State>, acts: seq<Action>, i: nat, h: nat)
    requires i <= |acts| < |ss|
  {
    exists j :: 0 <= j < i && Adopts(ss[j], acts[j], h)
  }

  /** The stream of the last such step, the ACTIVATE connection before any. */
  function LastAdopted(ss: seq<State>, acts: seq<Action>, i: nat): Stream
    requires i <= |acts| < |ss|
  {
    if i == 0 then Original
    else if ss[i - 1].run.Waiting? && Adopts(ss[i - 1], acts[i - 1], ss[i - 1].run.h) then Of(ss[i - 1].run.h)
    else LastAdopted(ss, acts, i - 1)
  }

  lemma ViewStep(s: State, a: Action, h: nat)
    requires Enabled(s, a) && RunOk(s) && (h in s.hs ==> Progress(s.hs[h], s.replyLen))
    ensures IsAdopted(Next(s, a), h) <==> IsAdopted(s, h) || Adopts(s, a, h)
  {
    if ByHandler(a) {
      hide Enabled, Next, RunOk;
      HandlerTouches(s, a);
      ArrivesUnseen(s, a);
    } else {
      hide Progress;
      RunViewStep(s, a, h);
    }
  }

  lemma ArrivesUnseen(s: State, a: Action)
    requires Enabled(s, a) && ByHandler(a)
    ensures a.h !in s.hs ==> a.h in Next(s, a).hs && Next(s, a).hs[a.h].view == Unseen
  {
  }

  lemma RunViewStep(s: State, a: Action, h: nat)
    requires Enabled(s, a) && RunOk(s) && !ByHandler(a)
    ensures IsAdopted(Next(s, a), h) <==> IsAdopted(s, h) || Adopts(s, a, h)
  {
  }

  lemma CurrentStep(s: State, a: Action)
    requires Enabled(s, a)
    ensures Next(s, a).current == if s.run.Waiting? && Adopts(s, a, s.run.h) then Of(s.run.h) else s.current
  {
  }

  /**
   * A handoff has been adopted if and only if Run, waiting for it, was told that its reply is complete;
   * the current stream is that of the last such step, the ACTIVATE connection if there was none.
   */
  lemma {:induction false} AdoptedIff(ss: seq<State>, acts: seq<Action>, replyLen: nat, i: nat, h: nat)
    requires Schedule(ss, acts, replyLen) && i <= |acts|
    ensures IsAdopted(ss[i], h) <==> EverAdopts(ss, acts, i, h)
    ensures ss[i].current == LastAdopted(ss, acts, i)
  {
    if i > 0 {
      assert Enabled(ss[i - 1], acts[i - 1]) && ss[i] == Next(ss[i - 1], acts[i - 1]);
      AdoptedIff(ss, acts, replyLen, i - 1, h);
      EveryInterleaving(ss, acts, replyLen, i - 1);
      assert HandoffOk(ss[i - 1], h);
      hide RunOk, Progress, Placed, Clean, Adopts, IsAdopted, Enabled, Next, Schedule;
      ViewStep(ss[i - 1], acts[i - 1], h);
      CurrentStep(ss[i - 1], acts[i - 1]);
    }
  }

  predicate SaysYes(s: State, h: nat) { h in s.hs && s.hs[h].pc in {Replying(true), Returned(true)} }

  lemma SaysYesStep(s: State, a: Action, h: nat)
    requires Enabled(s, a)
    ensures SaysYes(Next(s, a), h) <==> SaysYes(s, h) || a == WriteDone(h)
  {
    if ByHandler(a) {
      if a.h != h { HandlerTouches(s, a); hide Next, Enabled; }
    } else {
      RunKeepsPcs(s, a, h);
      hide Next, Enabled;
    }
  }

  lemma RunKeepsPcs(s: State, a: Action, h: nat)
    requires Enabled(s, a) && !ByHandler(a)
    ensures (h in Next(s, a).hs <==> h in s.hs) && (h in s.hs ==> Next(s, a).hs[h].pc == s.hs[h].pc)
  {
  }

  lemma {:induction false} YesIffWritten(ss: seq<State>, acts: seq<Action>, replyLen: nat, i: nat, h: nat)
    requires Schedule(ss, acts, replyLen) && i <= |acts|
    ensures SaysYes(ss[i], h) <==> exists j :: 0 <= j < i && acts[j] == WriteDone(h)
  {
    if i > 0 {
      assert Enabled(ss[i - 1], acts[i - 1]) && ss[i] == Next(ss[i - 1], acts[i - 1]);
      hide Enabled, Next, Schedule, SaysYes;
      YesIffWritten(ss, acts, replyLen, i - 1, h);
      SaysYesStep(ss[i - 1], acts[i - 1], h);
    }
  }

  /** A handler reports success if and only if it wrote the reply to its end without an error. */
  lemma SuccessIffWritten(ss: seq<State>, acts: seq<Action>, replyLen: nat, i: nat, h: nat)
    requires Schedule(ss, acts, replyLen) && i <= |acts| && h in ss[i].hs
    ensures ss[i].hs[h].pc in {Replying(true), Returned(true)} <==> exists j :: 0 <= j < i && acts[j] == WriteDone(h)
    ensures ss[i].hs[h].replied.Some? ==> (ss[i].hs[h].replied.value <==> exists j :: 0 <= j < i && acts[j] == WriteDone(h))
  {
    YesIffWritten(ss, acts, replyLen, i, h);
    hide Schedule;
    EveryInterleaving(ss, acts, replyLen, i);
    assert HandoffOk(ss[i], h);
    hide RunOk, Placed, Clean;
  }

  // -------------------------------------------------------------------- what is on the wires

  function SyscallsOn(wire: seq<Chunk>): nat {
    if wire == [] then 0 else SyscallsOn(wire[..|wire| - 1]) + (if wire[|wire| - 1] == Syscall then 1 else 0)
  }

  /** How often Run has used its stream while that was h's. */
  function UsesOf(ss: seq<State>, acts: seq<Action>, i: nat, h: nat): nat
    requires i <= |acts| < |ss|
  {
    if i == 0 then 0 else UsesOf(ss, acts, i - 1, h) + (if acts[i - 1] == UseStream && ss[i - 1].current == Of(h) then 1 else 0)
  }

  function WireOf(s: State, h: nat): seq<Chunk> { if h in s.hs then s.hs[h].wire else [] }

  lemma WireStep(s: State, a: Action, h: nat)
    requires Enabled(s, a) && (a == UseStream && s.current == Of(h) ==> h in s.hs)
    ensures WireOf(Next(s, a), h) == WireOf(s, h)
            || exists ch :: WireOf(Next(s, a), h) == WireOf(s, h) + [ch] && (ch == Syscall <==> a == UseStream && s.current == Of(h))
    ensures a == UseStream && s.current == Of(h) ==> WireOf(Next(s, a), h) == WireOf(s, h) + [Syscall]
  {
    if a == UseStream && s.current == Of(h) {
      assert WireOf(Next(s, a), h) == WireOf(s, h) + [Syscall];
    } else if (a.NoRoom? || a.TakeAck? || a.WritePiece?) && a.h == h {
      HandlerWire(s, a);
    } else {
      OtherWires(s, a, h);
    }
  }

  lemma HandlerWire(s: State, a: Action)
    requires Enabled(s, a) && (a.NoRoom? || a.TakeAck? || a.WritePiece?)
    ensures var was, wire := WireOf(s, a.h), WireOf(Next(s, a), a.h); wire == was || exists ch :: wire == was + [ch] && ch != Syscall
  {
    assert WireOf(Next(s, a), a.h) == WireOf(s, a.h)
      || WireOf(Next(s, a), a.h) == WireOf(s, a.h) + [Refusal]
      || (a.WritePiece? && WireOf(Next(s, a), a.h) == WireOf(s, a.h) + [Reply(s.hs[a.h].pc.k)]);
  }

  lemma OtherWires(s: State, a: Action, h: nat)
    requires Enabled(s, a) && !(a == UseStream && s.current == Of(h)) && !((a.NoRoom? || a.TakeAck? || a.WritePiece?) && a.h == h)
    ensures WireOf(Next(s, a), h) == WireOf(s, h)
  {
  }

  lemma OneChunkMore(wire: seq<Chunk>, ch: Chunk)
    ensures SyscallsOn(wire + [ch]) == SyscallsOn(wire) + (if ch == Syscall then 1 else 0)
  {
    assert (wire + [ch])[..|wire|] == wire;
  }

  /** Every syscall of Run is on the stream that was current when it was made, and no other is on any wire. */
  lemma {:induction false} SyscallsGoToCurrent(ss: seq<State>, acts: seq<Action>, replyLen: nat, i: nat, h: nat)
    requires Schedule(ss, acts, replyLen) && i <= |acts|
    ensures SyscallsOn(WireOf(ss[i], h)) == UsesOf(ss, acts, i, h)
  {
    if i > 0 {
      var s, a := ss[i - 1], acts[i - 1];
      assert Enabled(s, a) && ss[i] == Next(s, a);
      SyscallsGoToCurrent(ss, acts, replyLen, i - 1, h);
      EveryInterleaving(ss, acts, replyLen, i - 1);
      hide HandoffOk, Enabled, Next, Schedule, WireOf, SyscallsOn;
      WireStep(s, a, h);
      forall ch { OneChunkMore(WireOf(s, h), ch); }
    }
  }

  lemma RefusalStep(s: State, a: Action, h: nat)
    requires Enabled(s, a) && RunOk(s) && (h in s.hs ==> Progress(s.hs[h], s.replyLen))
    ensures Refusal in WireOf(Next(s, a), h) <==> Refusal in WireOf(s, h) || a == NoRoom(h)
  {
    if (a.NoRoom? || a.TakeAck? || a.WritePiece?) && a.h == h {
      hide RunOk;
    } else if !(a == UseStream && s.current == Of(h)) {
      OtherWires(s, a, h);
      hide Next, Enabled, RunOk, Progress;
    }
  }

  /** A shadow is refused if and only if it came while another handoff was waiting in the channel. */
  lemma {:induction false} RefusedIff(ss: seq<State>, acts: seq<Action>, replyLen: nat, i: nat, h: nat)
    requires Schedule(ss, acts, replyLen) && i <= |acts|
    ensures Refusal in WireOf(ss[i], h) <==> exists j :: 0 <= j < i && acts[j] == NoRoom(h)
  {
    if i > 0 {
      assert Enabled(ss[i - 1], acts[i - 1]) && ss[i] == Next(ss[i - 1], acts[i - 1]);
      RefusedIff(ss, acts, replyLen, i - 1, h);
      EveryInterleaving(ss, acts, replyLen, i - 1);
      assert HandoffOk(ss[i - 1], h);
      hide RunOk, Placed, Progress, Clean, Enabled, Next, Schedule, WireOf;
      RefusalStep(ss[i - 1], acts[i - 1], h);
    }
  }

  // -------------------------------------------------------------- who goes on from where

  /** The last thing handler h did before i. */
  function LastOf(acts: seq<Action>, i: nat, h: nat): Option<nat>
    requires i <= |acts|
  {
    if i == 0 then None
    else if ByHandler(acts[i - 1]) && !acts[i - 1].ServerCloses? && acts[i - 1].h == h then Some(i - 1)
    else LastOf(acts, i - 1, h)
  }

  /** How far a handler has come once it has done a in s. */
  predicate HandlerAfter(s: State, a: Action, pc: HandlerPc) {
    match a
    case Arrive(_) => pc == Arrived
    case Offer(_) => pc == AwaitAck
    case NoRoom(_) => pc == Declined
    case GiveUp(h) => h in s.hs && pc == if s.hs[h].pc == Arrived then Declined else Replying(false)
    case TakeAck(_) => pc == Writing(0)
    case WritePiece(h) => h in s.hs && s.hs[h].pc.Writing? && pc == Writing(s.hs[h].pc.k + 1)
    case WriteFails(_) => pc == Replying(false)
    case WriteDone(_) => pc == Replying(true)
    case Report(h) => h in s.hs && s.hs[h].pc.Replying? && pc == Returned(s.hs[h].pc.ok)
    case _ => false
  }

  lemma HandlerStep(s: State, a: Action, h: nat)
    requires Enabled(s, a) && (h in s.hs ==> Progress(s.hs[h], s.replyLen))
    ensures if ByHandler(a) && !a.ServerCloses? && a.h == h then h in Next(s, a).hs && HandlerAfter(s, a, Next(s, a).hs[h].pc)
            else (h in Next(s, a).hs <==> h in s.hs) && (h in s.hs ==> Next(s, a).hs[h].pc == s.hs[h].pc)
  {
    if !ByHandler(a) {
      hide Enabled, Next, Progress;
      RunKeepsPcs(s, a, h);
    } else if a.h != h {
      HandlerTouches(s, a);
      hide Enabled, Next, Progress;
    } else {
      match a
      case Arrive(_) => case Offer(_) => case NoRoom(_) => case GiveUp(_) => case TakeAck(_) =>
      case WritePiece(_) => case WriteFails(_) => case WriteDone(_) => case Report(_) => case ServerCloses(_) =>
    }
  }

  /** Every handler goes on from its own last step, and from nobody else's. */
  lemma {:induction false} HandlersGoOn(ss: seq<State>, acts: seq<Action>, replyLen: nat, i: nat, h: nat)
    requires Schedule(ss, acts, replyLen) && i <= |acts|
    ensures match LastOf(acts, i, h)
            case None => h !in ss[i].hs
            case Some(j) => j < i && h in ss[i].hs && HandlerAfter(ss[j], acts[j], ss[i].hs[h].pc)
  {
    if i > 0 {
      assert Enabled(ss[i - 1], acts[i - 1]) && ss[i] == Next(ss[i - 1], acts[i - 1]);
      HandlersGoOn(ss, acts, replyLen, i - 1, h);
      EveryInterleaving(ss, acts, replyLen, i - 1);
      assert HandoffOk(ss[i - 1], h);
      hide RunOk, Placed, Progress, Clean, Enabled, Next, Schedule, HandlerAfter;
      HandlerStep(ss[i - 1], acts[i - 1], h);
    }
  }

  predicate ByRun(a: Action) { !ByHandler(a) && a != Cancel && a != UseStream }

  /** The last thing Run did before i, other than using its stream. */
  function LastOfRun(acts: seq<Action>, i: nat): Option<nat>
    requires i <= |acts|
  {
    if i == 0 then None else if ByRun(acts[i - 1]) then Some(i - 1) else LastOfRun(acts, i - 1)
  }

  /** How far Run has come once it has done a in s. */
  predicate RunAfter(s: State, a: Action, run: RunPc) {
    match a
    case Monitor => run == Monitoring
    case Take => s.ch.Some? && run == Acking(s.ch.value)
    case SendAck => s.run.Acking? && run == Waiting(s.run.h)
    case TakeReplied => s.run.Waiting? && run == if Adopts(s, a, s.run.h) then Dropping(s.current) else Abandoning(s.run.h)
    case TimeOut => s.run.Waiting? && run == Abandoning(s.run.h)
    case CloseAbandoned => run == Monitoring
    case CloseOld => run == Monitoring
    case Leave => run == Winding
    case Exit => run == Ended
    case _ => false
  }

  lemma RunPcStep(s: State, a: Action)
    requires Enabled(s, a) && RunOk(s)
    ensures if ByRun(a) then RunAfter(s, a, Next(s, a).run) else Next(s, a).run == s.run
    ensures a == TakeReplied ==> s.run.Waiting? && s.run.h in Next(s, a).hs && Next(s, a).hs[s.run.h].replied.None?
  {
    if ByHandler(a) {
      HandlerTouches(s, a);
      hide Enabled, Next, RunOk;
    } else {
      match a
      case Cancel => case Monitor => case Take => case SendAck => case TakeReplied => case TimeOut =>
      case CloseAbandoned => case CloseOld => case UseStream => case Leave => case Exit =>
    }
  }

  /** So does Run; and a reported outcome is taken once. */
  lemma {:induction false} RunGoesOn(ss: seq<State>, acts: seq<Action>, replyLen: nat, i: nat)
    requires Schedule(ss, acts, replyLen) && i <= |acts|
    ensures match LastOfRun(acts, i)
            case None => ss[i].run == Preparing
            case Some(j) => j < i && RunAfter(ss[j], acts[j], ss[i].run)
    ensures i > 0 && acts[i - 1] == TakeReplied ==>
              ss[i - 1].run.Waiting? && ss[i - 1].run.h in ss[i].hs && ss[i].hs[ss[i - 1].run.h].replied.None?
  {
    if i > 0 {
      assert Enabled(ss[i - 1], acts[i - 1]) && ss[i] == Next(ss[i - 1], acts[i - 1]);
      RunGoesOn(ss, acts, replyLen, i - 1);
      EveryInterleaving(ss, acts, replyLen, i - 1);
      hide RunOk, HandoffOk, Enabled, Next, Schedule, RunAfter;
      RunPcStep(ss[i - 1], acts[i - 1]);
    }
  }

  lemma OpenStep(s: State, a: Action, h: nat)
    requires Enabled(s, a) && RunOk(s) && h in Next(s, a).hs && Next(s, a).hs[h].view == Unseen
    ensures h in s.hs ==> s.hs[h].view == Unseen
    ensures Next(s, a).hs[h].open <==> (h in s.hs ==> s.hs[h].open) && a != ServerCloses(h)
  {
    if ByHandler(a) && a.h != h {
      HandlerTouches(s, a);
      hide Enabled, Next, RunOk;
    }
  }

  /** The connection of a handler that never offered stays open until the server closes it. */
  lemma {:induction false} DeclinedIsClosed(ss: seq<State>, acts: seq<Action>, replyLen: nat, i: nat, h: nat)
    requires Schedule(ss, acts, replyLen) && i <= |acts| && h in ss[i].hs && ss[i].hs[h].view == Unseen
    ensures ss[i].hs[h].open <==> forall j :: 0 <= j < i ==> acts[j] != ServerCloses(h)
  {
    if i > 0 {
      assert Enabled(ss[i - 1], acts[i - 1]) && ss[i] == Next(ss[i - 1], acts[i - 1]);
      EveryInterleaving(ss, acts, replyLen, i - 1);
      hide RunOk, HandoffOk, Enabled, Next;
      OpenStep(ss[i - 1], acts[i - 1], h);
      if h in ss[i - 1].hs { DeclinedIsClosed(ss, acts, replyLen, i - 1, h); } else { NotThereNotClosed(ss, acts, replyLen, i - 1, h); }
    }
  }

  lemma {:induction false} NotThereNotClosed(ss: seq<State>, acts: seq<Action>, replyLen: nat, i: nat, h: nat)
    requires Schedule(ss, acts, replyLen) && i <= |acts| && h !in ss[i].hs
    ensures forall j :: 0 <= j < i ==> acts[j] != ServerCloses(h)
  {
    if i > 0 {
      assert Enabled(ss[i - 1], acts[i - 1]) && ss[i] == Next(ss[i - 1], acts[i - 1]);
      hide Schedule;
      StaysThere(ss[i - 1], acts[i - 1], h);
      NotThereNotClosed(ss, acts, replyLen, i - 1, h);
    }
  }

  lemma StaysThere(s: State, a: Action, h: nat)
    requires Enabled(s, a)
    ensures h in s.hs || a == ServerCloses(h) ==> h in s.hs && h in Next(s, a).hs
  {
    if ByHandler(a) { HandlerTouches(s, a); } else { RunKeepsPcs(s, a, h); }
    hide Next;
  }

  /**
   * Nobody is stuck for good: the server's context can end at any time, and then every handler can go
   * on to return; a handler that has not handed its connection over has it closed.
   */
  lemma HandlersCanReturn(ss: seq<State>, acts: seq<Action>, replyLen: nat, i: nat, h: nat)
    requires Schedule(ss, acts, replyLen) && i < |ss| && h in ss[i].hs
    ensures Enabled(ss[i], Cancel)
    ensures var s := Next(ss[i], Cancel);
            match ss[i].hs[h].pc
            case Arrived => Enabled(s, GiveUp(h))
            case AwaitAck => Enabled(s, GiveUp(h))
            case Writing(_) => Enabled(s, WriteFails(h))
            case Replying(_) => Enabled(s, Report(h))
            case Declined => Enabled(s, ServerCloses(h))
            case Returned(ok) => !ok ==> Enabled(s, ServerCloses(h))
  {
    EveryInterleaving(ss, acts, replyLen, i);
    assert HandoffOk(ss[i], h);
    hide Schedule, Clean, Placed, RunOk;
  }

  // --------------------------------------------------------------------------- runs that exist

  ghost predicate Reaches(replyLen: nat, s: State) {
    exists ss: seq<State>, acts: seq<Action> :: Schedule(ss, acts, replyLen) && ss[|acts|] == s
  }

  lemma ReachesNext(replyLen: nat, s: State, a: Action)
    requires Reaches(replyLen, s) && Enabled(s, a)
    ensures Reaches(replyLen, Next(s, a))
  {
    hide Enabled, Next, Start;
    var ss: seq<State>, acts: seq<Action> :| Schedule(ss, acts, replyLen) && ss[|acts|] == s;
    assert Schedule(ss + [Next(s, a)], acts + [a], replyLen);
  }

  /** Handler 0 has written k pieces of its reply, and Run waits for it. */
  function Halfway(replyLen: nat, k: nat): State {
    State(replyLen, false, map[0 := Handoff(Writing(k), None, None, true, ReplyTo(k), Acked, 0)], None, Waiting(0), Original, true)
  }

  /** Handler 0 has offered its handoff to a monitoring Run. */
  function Offered(replyLen: nat): State {
    State(replyLen, false, map[0 := Handoff(AwaitAck, None, None, true, [], Queued, 0)], Some(0), Monitoring, Original, true)
  }

  lemma HandoffOffered(replyLen: nat)
    ensures Reaches(replyLen, Offered(replyLen))
  {
    var s0 := Start(replyLen);
    assert Schedule([s0], [], replyLen);
    assert Reaches(replyLen, s0);
    hide Reaches;
    ReachesNext(replyLen, s0, Arrive(0));
    var s1 := Next(s0, Arrive(0));
    ReachesNext(replyLen, s1, Monitor);
    var s2 := Next(s1, Monitor);
    ReachesNext(replyLen, s2, Offer(0));
    assert Next(s2, Offer(0)).hs == Offered(replyLen).hs;
  }

  lemma HandoffBegins(replyLen: nat)
    ensures Reaches(replyLen, Halfway(replyLen, 0))
  {
    hide Reaches;
    HandoffOffered(replyLen);
    var s3 := Offered(replyLen);
    ReachesNext(replyLen, s3, Take);
    var s4 := Next(s3, Take);
    ReachesNext(replyLen, s4, SendAck);
    var s5 := Next(s4, SendAck);
    ReachesNext(replyLen, s5, TakeAck(0));
    assert ReplyTo(0) == [];
    assert Next(s5, TakeAck(0)).hs == Halfway(replyLen, 0).hs;
  }

  lemma {:induction false} HandoffProceeds(replyLen: nat, k: nat)
    requires k <= replyLen
    ensures Reaches(replyLen, Halfway(replyLen, k))
  {
    if k == 0 {
      HandoffBegins(replyLen);
    } else {
      HandoffProceeds(replyLen, k - 1);
      hide Reaches;
      ReachesNext(replyLen, Halfway(replyLen, k - 1), WritePiece(0));
      assert ReplyTo(k - 1) + [Reply(k - 1)] == ReplyTo(k);
      assert Next(Halfway(replyLen, k - 1), WritePiece(0)).hs == Halfway(replyLen, k).hs;
    }
  }

  /** A shadow can take over: its whole reply is on the wire, then a syscall, and the old connection is closed. */
  lemma HandoffSucceeds(replyLen: nat)
    ensures exists s ::
              && Reaches(replyLen, s) && s.current == Of(0) && s.run == Monitoring && 0 in s.hs && !s.originalOpen
              && s.hs[0].open && s.hs[0].wire == ReplyTo(replyLen) + [Syscall]
  {
    HandoffProceeds(replyLen, replyLen);
    hide Reaches, ReplyTo;
    var s0 := Halfway(replyLen, replyLen);
    ReachesNext(replyLen, s0, WriteDone(0));
    var s1 := Next(s0, WriteDone(0));
    ReachesNext(replyLen, s1, Report(0));
    var s2 := Next(s1, Report(0));
    ReachesNext(replyLen, s2, TakeReplied);
    var s3 := Next(s2, TakeReplied);
    ReachesNext(replyLen, s3, CloseOld);
    var s4 := Next(s3, CloseOld);
    ReachesNext(replyLen, s4, UseStream);
  }
}
