/** What one action of the server does: which events a channel is handed, what its
    handlers make of them, which connections stay as they are, and that no functor is lost or overtaken. */
module Dispatch {
  import opened PollerSpec
  import opened TcpSpec
  import opened TcpOutcomes
  import opened ServerSpec
  import opened Wrappers
  import opened OwnershipInvariant
  import opened OwnershipSteps
  import opened OwnershipActions
  import opened Ownership
  import opened TcpConnections
  import Notifications
  import Reactor

  // ----- what may happen

  /** Whatever the kernel may answer for a registered channel, the model lets it answer; and whoever is on a
      connection's loop may send and shut down, on any thread while the connection is up. */
  lemma NothingIsRuledOut(s: System, c: nat, event: Event, m: Message, k: WriteResult)
    requires Reachable(s) && c < |s.conns| && s.conns[c].tcp.ch.index == Added && event.fd == s.conns[c].tcp.ch.fd
    requires event.input ==> s.conns[c].tcp.ch.events.read
    requires event.output ==> s.conns[c].tcp.ch.events.write
    requires k.Wrote? ==> k.n <= |m.text|
    ensures Valid(s, c)
    ensures s.loops[s.conns[c].loop].at == Polling ==> Enabled(s, PollReturn(s.conns[c].loop, [event]))
    ensures s.loops[s.conns[c].loop].at != Polling ==> Enabled(s, LocalSend(c, m, k)) && Enabled(s, LocalShutdown(c))
    ensures s.conns[c].tcp.state == Connected ==> Enabled(s, RemoteSend(c, m))
  {
    ReachableIsGood(s);
    assert ConnInv(s, c);
  }

  /** A connection that the user keeps is not freed. */
  lemma KeptUntilDropped(s: System, c: nat)
    requires c < |s.conns|
    ensures Enabled(s, Hold(c)) ==> !CanFree(Next(s, Hold(c)), c)
    ensures c !in Next(s, Drop(c)).held
  {
  }

  /** One that is freed gives its descriptor back: it is open no more, so accept may return it again. */
  lemma FreeingClosesTheSocket(s: System, c: nat)
    requires Reachable(s) && Enabled(s, Free(c))
    ensures Next(s, Free(c)).conns[c].freed && s.conns[c].tcp.ch.fd !in OpenFds(Next(s, Free(c)))
  {
    ReachableIsGood(s);
    DescriptorIsNobodyElses(s, c);
  }

  lemma DescriptorIsNobodyElses(s: System, c: nat)
    requires Shape(s) && c < |s.conns| && !s.conns[c].freed
    ensures s.conns[c].tcp.ch.fd !in OpenFds(Freed(s, c))
  {
  }

  // ----- from the kernel to the handlers

  /** Every event that epoll returns is handed, with its own flags, to the live channel of its descriptor,
      in the order of the events. */
  lemma EventsReachTheirChannels(s: System, l: nat, events: seq<Event>, i: nat)
    requires Reachable(s) && Enabled(s, PollReturn(l, events)) && i < |events|
    ensures var active := Next(s, PollReturn(l, events)).loops[l].active;
            |active| == |events|
            && Valid(s, active[i].conn) && s.conns[active[i].conn].loop == l && !s.conns[active[i].conn].freed
            && s.conns[active[i].conn].tcp.ch.fd == events[i].fd
            && active[i].hup == events[i].hup && active[i].input == events[i].input && active[i].output == events[i].output
  {
    ReachableIsGood(s);
    assert LoopInv(s, l);
    var fd := events[i].fd;
    assert fd in s.loops[l].poller.kernel && fd in s.loops[l].poller.channels;
    assert OwnerFits(s, l, fd, s.loops[l].poller.channels[fd]);
    RegisteredIsAlive(s, s.loops[l].poller.channels[fd]);
  }

  lemma StartCloseDoes(s: System, l: nat, c: nat)
    requires Valid(s, c) && s.conns[c].loop == l
    ensures var s', t := StartClose(s, l, c), s.conns[c].tcp;
            && Valid(s', c) && |s'.loops| == |s.loops|
            && s'.loops[l] == s.loops[l].(closing := Some(c), poller := s'.loops[l].poller)
            && s'.conns == s.conns[c := s.conns[c].(tcp := CloseBegin(Look(s, c)).tcp)]
            && CloseOutcome(t, s'.conns[c].tcp, [Down]) && Times(s'.conns[c].tcp.told, Down) == Times(t.told, Down) + 1
  {
    LifecycleDoes(Look(s, c));
    TimesSnoc(s.conns[c].tcp.told, Down, Down);
  }

  /** A hang-up without input begins a close, and nothing else does at this stage: the connection is then
      disconnected, wants no events, and the user is told once that it is down. */
  lemma HangUpCloses(s: System, l: nat)
    requires Enabled(s, HandleHup(l))
    ensures var r, s' := s.loops[l].active[0], Next(s, HandleHup(l));
            && s'.loops[l].closing == (if r.hup && !r.input then Some(r.conn) else None)
            && s'.loops[l].active == s.loops[l].active && s'.loops[l].stage == AtIn
            && Valid(s', r.conn)
            && var t, t' := s.conns[r.conn].tcp, s'.conns[r.conn].tcp;
               if r.hup && !r.input
               then CloseOutcome(t, t', [Down]) && Times(t'.told, Down) == Times(t.told, Down) + 1
               else t' == t
  {
    StartCloseDoes(s, l, s.loops[l].active[0].conn);
  }

  /** Input that has come to its end begins a close in the same way. Input that brings bytes brings them to
      the input buffer and tells the user. A failed read, or no input, changes nothing. */
  lemma EndOfInputCloses(s: System, l: nat, r: ReadResult)
    requires Enabled(s, HandleIn(l, r))
    ensures var ready, s' := s.loops[l].active[0], Next(s, HandleIn(l, r));
            var atEnd := r.EndOfFile? || (r.Received? && r.chunk == []);
            && s'.loops[l].closing == (if ready.input && atEnd then Some(ready.conn) else None)
            && s'.loops[l].active == s.loops[l].active && s'.loops[l].stage == AtOut
            && Valid(s', ready.conn)
            && var t, t' := s.conns[ready.conn].tcp, s'.conns[ready.conn].tcp;
               if ready.input && atEnd
               then CloseOutcome(t, t', [Down]) && Times(t'.told, Down) == Times(t.told, Down) + 1
               else if ready.input && r.Received? then InputOutcome(t, t', r.chunk)
               else t' == t
  {
    StartCloseDoes(s, l, s.loops[l].active[0].conn);
  }

  /** Room for output drains the output buffer by what the kernel takes, and the turn goes to the next
      channel. */
  lemma OutputDrains(s: System, l: nat, k: WriteResult)
    requires Enabled(s, HandleOut(l, k))
    ensures var ready, s' := s.loops[l].active[0], Next(s, HandleOut(l, k));
            && s'.loops[l].active == s.loops[l].active[1..] && s'.loops[l].stage == AtHup && s'.loops[l].closing == None
            && Valid(s', ready.conn)
            && var t, t' := s.conns[ready.conn].tcp, s'.conns[ready.conn].tcp;
               if ready.output then DrainOutcome(t, t', k) else t' == t
  {
    HandleWriteDoes(Look(s, s.loops[l].active[0].conn), k);
  }

  // ----- one channel's whole turn

  // handlerClose, once begun, runs to its end.
  function Finished(s: System, l: nat): System {
    if CanFinish(s, l) then CloseFinished(s, l) else s
  }

  ghost predicate Shows(s: System, l: nat, c: nat, v: View<nat>) {
    Valid(s, c) && s.conns[c].loop == l && s.conns[c].tcp == v.tcp && s.loops[l].poller == v.poller
  }

  ghost predicate SameTurn(s: System, s': System, l: nat, stage: Stage) {
    l < |s.loops| && InHandler(s', l, stage) && s'.loops[l].active == s.loops[l].active
  }

  lemma EndTurn(s: System, l: nat, v: View<nat>, stage: Stage)
    requires l < |s.loops| && InHandler(s, l, s.loops[l].stage) && Shows(s, l, s.loops[l].active[0].conn, v)
    ensures var c := s.loops[l].active[0].conn;
            var s' := Finished(AtStage(StartClose(s, l, c), l, stage), l);
            SameTurn(s, s', l, stage) && Shows(s', l, c, TcpSpec.HandleClose(v))
  {
  }

  lemma HupTurn(s: System, l: nat)
    requires InHandler(s, l, AtHup)
    ensures var r := s.loops[l].active[0];
            var s' := Finished(HupHandled(s, l), l);
            SameTurn(s, s', l, AtIn)
            && Shows(s', l, r.conn, if r.hup && !r.input then TcpSpec.HandleClose(Look(s, r.conn)) else Look(s, r.conn))
  {
    if s.loops[l].active[0].hup && !s.loops[l].active[0].input {
      EndTurn(s, l, Look(s, s.loops[l].active[0].conn), AtIn);
    }
  }

  lemma InTurn(s: System, l: nat, result: ReadResult, v: View<nat>)
    requires InHandler(s, l, AtIn) && Shows(s, l, s.loops[l].active[0].conn, v)
    ensures var r := s.loops[l].active[0];
            var s' := Finished(InHandled(s, l, result), l);
            SameTurn(s, s', l, AtOut)
            && Shows(s', l, r.conn, if r.input then TcpSpec.HandleRead(v, result) else v)
  {
    if s.loops[l].active[0].input && AtEnd(result) {
      EndTurn(s, l, v, AtOut);
    }
  }

  lemma OutTurn(s: System, l: nat, k: WriteResult, v: View<nat>)
    requires InHandler(s, l, AtOut) && Shows(s, l, s.loops[l].active[0].conn, v) && LegalDrain(v.tcp, k)
    ensures var r := s.loops[l].active[0];
            OutHandled(s, l, k).conns[r.conn].tcp == (if r.output then TcpSpec.HandleWrite(v, k) else v).tcp
  {
    HandleWriteUnfolds(v, k);
    HandleWriteUnfolds(Look(s, s.loops[l].active[0].conn), k);
  }

  // The rest of a channel's turn from its input on, and its whole turn.
  function AfterInput(s: System, l: nat, result: ReadResult, k: WriteResult): System {
    if InHandler(s, l, AtIn) then
      var s' := Finished(InHandled(s, l, result), l);
      if InHandler(s', l, AtOut) && LegalDrain(s'.conns[s'.loops[l].active[0].conn].tcp, k)
      then OutHandled(s', l, k) else s'
    else s
  }

  function AfterTurn(s: System, l: nat, result: ReadResult, k: WriteResult): System {
    if InHandler(s, l, AtHup) then AfterInput(Finished(HupHandled(s, l), l), l, result, k) else s
  }

  // What is left of handleEvent after its test for a hang-up.
  function FromInput(v: View<nat>, r: Ready, result: ReadResult, k: WriteResult): View<nat>
    requires LegalDrain(v.tcp, k)
  {
    var v2 := if r.input then TcpSpec.HandleRead(v, result) else v;
    if r.output then TcpSpec.HandleWrite(v2, k) else v2
  }

  ghost predicate TurnOver(s: System, s': System, l: nat, v: View<nat>)
    requires l < |s.loops| && s.loops[l].active != []
  {
    l < |s'.loops| && s'.loops[l].active == s.loops[l].active[1..]
    && s.loops[l].active[0].conn < |s'.conns| && s'.conns[s.loops[l].active[0].conn].tcp == v.tcp
  }

  lemma LastPart(s: System, l: nat, k: WriteResult, v: View<nat>)
    requires InHandler(s, l, AtOut) && Shows(s, l, s.loops[l].active[0].conn, v) && LegalDrain(v.tcp, k)
    ensures TurnOver(s, OutHandled(s, l, k), l, if s.loops[l].active[0].output then TcpSpec.HandleWrite(v, k) else v)
  {
    OutTurn(s, l, k, v);
  }

  lemma SecondPart(s: System, l: nat, result: ReadResult, k: WriteResult, v: View<nat>)
    requires InHandler(s, l, AtIn) && Shows(s, l, s.loops[l].active[0].conn, v) && LegalDrain(v.tcp, k)
    ensures TurnOver(s, AfterInput(s, l, result, k), l, FromInput(v, s.loops[l].active[0], result, k))
  {
    var r := s.loops[l].active[0];
    InTurn(s, l, result, v);
    LastPart(Finished(InHandled(s, l, result), l), l, k, if r.input then TcpSpec.HandleRead(v, result) else v);
  }

  lemma SameActive(s: System, s1: System, l: nat, result: ReadResult, k: WriteResult, v: View<nat>)
    requires InHandler(s, l, AtHup) && SameTurn(s, s1, l, AtIn)
    requires Shows(s1, l, s.loops[l].active[0].conn, v) && LegalDrain(v.tcp, k)
    ensures TurnOver(s, AfterInput(s1, l, result, k), l, FromInput(v, s.loops[l].active[0], result, k))
  {
    SecondPart(s1, l, result, k, v);
  }

  /** The stages of a channel's turn, taken one after the other, are one call of handleEvent: the server's
      steps do to the connection what the object's method does, and the next channel follows. */
  lemma TurnIsHandleEvent(s: System, l: nat, result: ReadResult, k: WriteResult)
    requires InHandler(s, l, AtHup) && LegalDrain(s.conns[s.loops[l].active[0].conn].tcp, k)
    ensures var r := s.loops[l].active[0];
            TurnOver(s, AfterTurn(s, l, result, k), l,
                     Dispatched(Look(s, r.conn), Reactor.Revents(r.hup, false, r.input, r.output), result, k))
  {
    var r := s.loops[l].active[0];
    HupTurn(s, l);
    SameActive(s, Finished(HupHandled(s, l), l), l, result, k,
               if r.hup && !r.input then TcpSpec.HandleClose(Look(s, r.conn)) else Look(s, r.conn));
  }

  // ----- sending and shutting down

  /** A send on the loop's thread does what a send does, and a shutdown what a shutdown does. */
  lemma LocalCallsArrive(s: System, c: nat, m: Message, k: WriteResult)
    requires OnLoop(s, c)
    ensures Enabled(s, LocalSend(c, m, k)) ==>
              var t, t' := s.conns[c].tcp, Next(s, LocalSend(c, m, k)).conns[c].tcp;
              if t.state == Connected then SendOutcome(t, t', m, k) else t' == t
    ensures ShutdownOutcome(s.conns[c].tcp, Next(s, LocalShutdown(c)).conns[c].tcp)
  {
    if LegalSend(m, k) {
      SendOnLoopDoes(Look(s, c), m, k);
    }
    ShutdownDoes(Look(s, c));
  }

  /** A send of another thread changes no connection and is queued last on the connection's loop; when its
      turn comes it does what a send does. */
  lemma RemoteSendsArrive(s: System, c: nat, m: Message)
    requires Enabled(s, RemoteSend(c, m))
    ensures var s', l := Next(s, RemoteSend(c, m)), s.conns[c].loop;
            s'.conns == s.conns && s'.loops[l].pending == s.loops[l].pending + [SendTask(c, m)]
  {
  }

  lemma QueuedSendsArrive(s: System, l: nat, k: WriteResult)
    requires Enabled(s, RunTask(l, k)) && NextTask(s, l).SendTask?
    ensures var c, m, s' := NextTask(s, l).conn, NextTask(s, l).message, Next(s, RunTask(l, k));
            SendOutcome(s.conns[c].tcp, s'.conns[c].tcp, m, k)
  {
    SendDoes(Look(Popped(s, l), NextTask(s, l).conn), NextTask(s, l).message, k);
  }

  // ----- what stays

  // The connection that an action works on.
  ghost function Target(s: System, a: Action): Option<nat>
    requires Enabled(s, a)
  {
    match a
    case HandleHup(l) => Some(s.loops[l].active[0].conn)
    case HandleIn(l, _) => Some(s.loops[l].active[0].conn)
    case HandleOut(l, _) => Some(s.loops[l].active[0].conn)
    case FinishClose(l) => s.loops[l].closing
    case RunTask(l, _) => Some(NextTask(s, l).conn)
    case LocalSend(c, _, _) => Some(c)
    case LocalShutdown(c) => Some(c)
    case Free(c) => Some(c)
    case _ => None
  }

  lemma PutLeavesOthers(s: System, s1: System, c: nat, v: View<nat>, d: nat)
    requires s1.conns == s.conns && Valid(s1, c) && d < |s.conns| && d != c
    ensures d < |Put(s1, c, v).conns| && Put(s1, c, v).conns[d] == s.conns[d]
  {
  }

  lemma HandlersLeaveOthers(s: System, a: Action, d: nat)
    requires Enabled(s, a) && d < |s.conns| && Target(s, a) != Some(d)
    requires a.HandleHup? || a.HandleIn? || a.HandleOut? || a.FinishClose?
    ensures d < |Next(s, a).conns| && Next(s, a).conns[d] == s.conns[d]
  {
  }

  /** An action leaves every connection but its own exactly as it was. */
  lemma OthersStay(s: System, a: Action, d: nat)
    requires Enabled(s, a) && d < |s.conns| && Target(s, a) != Some(d)
    ensures d < |Next(s, a).conns| && Next(s, a).conns[d] == s.conns[d]
  {
    match a
    case HandleHup(_) => HandlersLeaveOthers(s, a, d);
    case HandleIn(_, _) => HandlersLeaveOthers(s, a, d);
    case HandleOut(_, _) => HandlersLeaveOthers(s, a, d);
    case FinishClose(_) => HandlersLeaveOthers(s, a, d);
    case LocalSend(c, m, k) => PutLeavesOthers(s, s, c, Send(Look(s, c), m, k), d);
    case LocalShutdown(c) => PutLeavesOthers(s, s, c, Shutdown(Look(s, c)), d);
    case _ =>
  }

  lemma CreatedOnItsLoop(s: System, fd: int, mark: nat, wc: bool, hw: bool)
    requires Shape(s) && CanCreate(s, fd)
    ensures var s', c := Create(s, fd, mark, wc, hw), |s.conns|;
            |s'.conns| == c + 1 && Valid(s', c) && Linked(s', c) && !s'.conns[c].freed
            && s'.conns[c].tcp == NewTcp(c, fd, mark, wc, hw)
            && (s'.conns[c].loop == 0 <==> |s.loops| == 1)
  {
  }

  lemma AcceptedDoes(s: System, fd: int, mark: nat, wc: bool, hw: bool)
    requires Shape(s) && CanCreate(s, fd)
    ensures var s1, s', c := Create(s, fd, mark, wc, hw), Accepting(s, fd, mark, wc, hw), |s.conns|;
            |s'.conns| == |s1.conns| == c + 1 && s'.connections == s1.connections
            && s'.conns[c] == s1.conns[c].(tcp := s'.conns[c].tcp) && |s'.loops| == |s1.loops|
            && var t, t' := s1.conns[c].tcp, s'.conns[c].tcp;
               if s1.conns[c].loop == 0
               then t' == t.(state := Connected, told := t.told + [Up], ch := t'.ch)
                    && t'.ch.fd == t.ch.fd && t'.ch.events == t.ch.events.(read := true)
               else t' == t
  {
    CreatedOnItsLoop(s, fd, mark, wc, hw);
    LifecycleDoes(Look(Create(s, fd, mark, wc, hw), |s.conns|));
  }

  /** Accepting adds one connection: with the descriptor and the callbacks it was given, in the table, and
      brought up at once or, on another loop, not yet. */
  lemma AcceptAddsOne(s: System, fd: int, mark: nat, wc: bool, hw: bool)
    requires Reachable(s) && Enabled(s, Accept(fd, mark, wc, hw))
    ensures var c, s' := |s.conns|, Next(s, Accept(fd, mark, wc, hw));
            |s'.conns| == c + 1 && Valid(s', c) && Linked(s', c) && !s'.conns[c].freed
            && var t := s'.conns[c].tcp;
               t.ch.fd == fd && t.mark == mark && t.onWriteComplete == wc && t.onHighWater == hw
               && t.input == [] && t.output == [] && t.calls == [] && t.accepted == []
               && if |s.loops| == 1 then t.state == Connected && t.told == [Up] && t.ch.events == Interest(true, false)
                  else t.state == Connecting && t.told == [] && t.ch.events == NONE
  {
    ReachableIsGood(s);
    CreatedOnItsLoop(s, fd, mark, wc, hw);
    AcceptedDoes(s, fd, mark, wc, hw);
  }

  // ----- functors

  lemma PutKeepsTodo(s: System, c: nat, v: View<nat>, l: nat)
    requires Valid(s, c) && l < |s.loops| && Look(s, c).queue <= v.queue
    ensures l < |Put(s, c, v).loops| && Todo(s.loops[l]) <= Todo(Put(s, c, v).loops[l])
  {
  }

  lemma HandlersOnlyAppend(v: View<nat>, m: Message, k: WriteResult)
    ensures LegalSend(m, k) ==> v.queue <= SendInLoop(v, m, k).queue
    ensures LegalDrain(v.tcp, k) ==> v.queue <= TcpSpec.HandleWrite(v, k).queue
  {
    if LegalSend(m, k) {
      Notifications.SendQueues(v, m, k);
    }
    if LegalDrain(v.tcp, k) {
      Notifications.DrainQueues(v, k);
    }
  }

  lemma TaskOnlyAppends(s: System, l: nat, k: WriteResult, m: nat)
    requires HasNext(s, l) && TaskEnabled(Popped(s, l), l, NextTask(s, l), k) && m < |s.loops|
    ensures var s' := Execute(Popped(s, l), l, NextTask(s, l), k);
            m < |s'.loops| && Todo(Popped(s, l).loops[m]) <= Todo(s'.loops[m])
  {
    var s1, c := Popped(s, l), NextTask(s, l).conn;
    match NextTask(s, l)
    case Established(_) => PutKeepsTodo(s1, c, TcpSpec.ConnectionEstablished(Look(s1, c)), m);
    case Destroyed(_) => PutKeepsTodo(s1, c, TcpSpec.ConnectionDestroyed(Look(s1, c)), m);
    case SendTask(_, message) =>
      HandlersOnlyAppend(Look(s1, c), message, k);
      PutKeepsTodo(s1, c, SendInLoop(Look(s1, c), message, k), m);
    case _ =>
  }

  lemma DispatchOnlyAppends(s: System, l: nat, r: ReadResult, k: WriteResult, m: nat)
    requires m < |s.loops|
    ensures InHandler(s, l, AtHup) ==> Todo(s.loops[m]) <= Todo(HupHandled(s, l).loops[m])
    ensures InHandler(s, l, AtIn) ==> Todo(s.loops[m]) <= Todo(InHandled(s, l, r).loops[m])
    ensures InHandler(s, l, AtOut) && LegalDrain(s.conns[s.loops[l].active[0].conn].tcp, k) ==>
              Todo(s.loops[m]) <= Todo(OutHandled(s, l, k).loops[m])
  {
    if InHandler(s, l, AtOut) && LegalDrain(s.conns[s.loops[l].active[0].conn].tcp, k) {
      var c := s.loops[l].active[0].conn;
      HandlersOnlyAppend(Look(s, c), Message(0, 0, []), k);
      PutKeepsTodo(s, c, TcpSpec.HandleWrite(Look(s, c), k), m);
    }
  }

  lemma PassKeepsTodo(s: System, l: nat, m: nat)
    requires Inv(s) && m < |s.loops| && l < |s.loops|
    ensures CanStart(s, l) ==> Todo(s.loops[m]) == Todo(TasksStarted(s, l).loops[m])
    ensures CanEnd(s, l) ==> Todo(s.loops[m]) == Todo(TasksEnded(s, l).loops[m])
  {
    assert LoopInv(s, l);
  }

  lemma CloseOnlyAppends(s: System, l: nat, m: nat)
    requires CanFinish(s, l) && m < |s.loops|
    ensures m < |CloseFinished(s, l).loops| && Todo(s.loops[m]) <= Todo(CloseFinished(s, l).loops[m])
  {
  }

  lemma AcceptOnlyAppends(s: System, fd: int, mark: nat, wc: bool, hw: bool, m: nat)
    requires CanCreate(s, fd) && m < |s.loops|
    ensures m < |Accepting(s, fd, mark, wc, hw).loops|
    ensures Todo(s.loops[m]) <= Todo(Accepting(s, fd, mark, wc, hw).loops[m])
  {
  }

  lemma CallsOnlyAppend(s: System, a: Action, m: nat)
    requires Enabled(s, a) && m < |s.loops|
    requires a.PollReturn? || a.LocalSend? || a.LocalShutdown? || a.RemoteSend? || a.Hold? || a.Drop? || a.Free?
    ensures m < |Next(s, a).loops| && Todo(s.loops[m]) <= Todo(Next(s, a).loops[m])
  {
    match a
    case LocalSend(c, message, k) =>
      HandlersOnlyAppend(Look(s, c), message, k);
      PutKeepsTodo(s, c, TcpSpec.Send(Look(s, c), message, k), m);
    case LocalShutdown(c) => PutKeepsTodo(s, c, TcpSpec.Shutdown(Look(s, c)), m);
    case _ =>
  }

  lemma TurnOnlyAppends(s: System, a: Action, m: nat)
    requires Enabled(s, a) && m < |s.loops| && (a.HandleHup? || a.HandleIn? || a.HandleOut?)
    ensures m < |Next(s, a).loops| && Todo(s.loops[m]) <= Todo(Next(s, a).loops[m])
  {
    match a
    case HandleHup(l) => DispatchOnlyAppends(s, l, ReadFailed, Wrote(0), m);
    case HandleIn(l, r) => DispatchOnlyAppends(s, l, r, Wrote(0), m);
    case HandleOut(l, k) => DispatchOnlyAppends(s, l, ReadFailed, k, m);
  }

  lemma PassOnlyAppends(s: System, a: Action, m: nat)
    requires Inv(s) && Enabled(s, a) && m < |s.loops| && (a.StartTasks? || a.EndTasks?)
    ensures m < |Next(s, a).loops| && Todo(s.loops[m]) <= Todo(Next(s, a).loops[m])
  {
    PassKeepsTodo(s, a.loop, m);
  }

  lemma OthersOnlyAppend(s: System, a: Action, m: nat)
    requires Inv(s) && Enabled(s, a) && m < |s.loops| && !a.RunTask?
    ensures m < |Next(s, a).loops| && Todo(s.loops[m]) <= Todo(Next(s, a).loops[m])
  {
    match a
    case Accept(fd, mark, wc, hw) => AcceptOnlyAppends(s, fd, mark, wc, hw, m);
    case HandleHup(_) => TurnOnlyAppends(s, a, m);
    case HandleIn(_, _) => TurnOnlyAppends(s, a, m);
    case HandleOut(_, _) => TurnOnlyAppends(s, a, m);
    case FinishClose(l) => CloseOnlyAppends(s, l, m);
    case StartTasks(_) => PassOnlyAppends(s, a, m);
    case EndTasks(_) => PassOnlyAppends(s, a, m);
    case _ => CallsOnlyAppend(s, a, m);
  }

  /** Functors of a loop are run from the front and queued at the back: no action drops one, doubles one or
      lets one overtake another. */
  lemma FunctorsMoveInOrder(s: System, a: Action, m: nat)
    requires Reachable(s) && Enabled(s, a) && m < |s.loops|
    ensures m < |Next(s, a).loops|
    ensures a.RunTask? && a.loop == m ==>
              Todo(s.loops[m]) != [] && Todo(s.loops[m])[0] == NextTask(s, m)
              && Todo(s.loops[m])[1..] <= Todo(Next(s, a).loops[m])
    ensures !(a.RunTask? && a.loop == m) ==> Todo(s.loops[m]) <= Todo(Next(s, a).loops[m])
  {
    ReachableIsGood(s);
    if a.RunTask? {
      TaskOnlyAppends(s, a.loop, a.k, m);
      PopTodo(s, a.loop, NextTask(s, a.loop));
    } else {
      OthersOnlyAppend(s, a, m);
    }
  }
}
