/** shutdown(): the write side is closed after the last waiting byte, once, and nothing follows it. */
module HalfClose {
  import opened Bytes
  import opened TcpSpec
  import opened SendPath

  /** SHUT_WR happens at most once and no write follows it. */
  ghost predicate ShutIsLast(calls: seq<SocketCall>) {
    forall i :: 0 <= i < |calls| && calls[i] == ShutWr ==> i == |calls| - 1
  }

  // No send() of another thread is on its way to the loop.
  predicate NoSendUnderway(p: Path) {
    p.tasks == [] && p.checked == map[]
  }

  ghost predicate EpolloutArmed(v: View<nat>) {
    var ch := v.tcp.ch;
    ch.fd in v.poller.kernel && v.poller.kernel[ch.fd].channel == ch.self && v.poller.kernel[ch.fd].events.write
  }

  ghost predicate HalfInv(p: Path) {
    && ShutIsLast(p.v.tcp.calls)
    && (ShutWr in p.v.tcp.calls ==> p.v.tcp.output == [])
    && (p.v.tcp.state == DisConnecting ==> NoSendUnderway(p))
  }

  // shutdown() takes effect only while no other thread's send is under way.
  predicate Careful(p: Path, a: Action) {
    a == LocalShutdown && p.v.tcp.state == Connected ==> NoSendUnderway(p)
  }

  lemma SendKeepsHalf(p: Path, m: Message, k: WriteResult)
    requires Good(p) && HalfInv(p) && LegalSend(m, k) && p.v.tcp.state != DisConnecting
    ensures HalfInv(p.(v := SendInLoop(p.v, m, k)))
  {
    SendUnfolds(p.v, m, k);
    AcceptedIsLocal(p.v, m, k);
    BufferRestIsLocal(Accepted(p.v, m, k), Rest(p.v.tcp, m, k));
    SendIsSteady(p.v, m, k);
  }

  lemma DrainKeepsHalf(p: Path, k: WriteResult)
    requires Good(p) && HalfInv(p) && LegalDrain(p.v.tcp, k)
    ensures HalfInv(p.(v := HandleWrite(p.v, k)))
  {
    HandleWriteUnfolds(p.v, k);
    HandleWriteIsSound(p.v, k);
  }

  lemma StepKeepsHalf(p: Path, a: Action)
    requires Good(p) && HalfInv(p) && Enabled(p, a) && Careful(p, a)
    ensures HalfInv(Next(p, a))
  {
    match a
    case LocalSend(text, k) =>
      if p.v.tcp.state == Connected {
        SendKeepsHalf(p, Numbered(p, LOOP, text), k);
      }
    case RunTask(k) => SendKeepsHalf(p, p.tasks[0], k);
    case Writable(k) => DrainKeepsHalf(p, k);
    case _ =>
  }

  predicate CarefulRun(p: Path, actions: seq<Action>)
    requires LegalRun(p, actions)
    decreases |actions|
  {
    actions == [] || (Careful(p, actions[0]) && CarefulRun(Next(p, actions[0]), actions[1..]))
  }

  lemma {:induction false} RunKeepsHalf(p: Path, actions: seq<Action>)
    requires Good(p) && HalfInv(p) && LegalRun(p, actions) && CarefulRun(p, actions)
    ensures Good(Run(p, actions)) && HalfInv(Run(p, actions))
    decreases |actions|
  {
    if actions == [] {
    } else {
      StepKeepsGood(p, actions[0]);
      StepKeepsHalf(p, actions[0]);
      RunKeepsHalf(Next(p, actions[0]), actions[1..]);
    }
  }

  /** Neither early nor lost: SHUT_WR is the last call on the socket, made with nothing waiting; and a
      connection that is disconnecting has made it, or has bytes waiting and EPOLLOUT armed. */
  lemma HalfCloseIsExact(fd: int, mark: nat, wc: bool, hw: bool, actions: seq<Action>)
    requires LegalRun(Opened(fd, mark, wc, hw), actions) && CarefulRun(Opened(fd, mark, wc, hw), actions)
    ensures var v := Run(Opened(fd, mark, wc, hw), actions).v;
            ShutIsLast(v.tcp.calls)
            && (ShutWr in v.tcp.calls ==> v.tcp.output == [])
            && (v.tcp.state == DisConnecting ==>
                  ShutWr in v.tcp.calls || (v.tcp.output != [] && EpolloutArmed(v)))
  {
    OpenedIsGood(fd, mark, wc, hw);
    RunKeepsHalf(Opened(fd, mark, wc, hw), actions);
  }

  predicate OnLoopOnly(actions: seq<Action>) {
    forall i :: 0 <= i < |actions| ==> !actions[i].CheckState?
  }

  /** With every send on the connection's own loop, each run is careful. */
  lemma {:induction false} OnLoopRunsAreCareful(p: Path, actions: seq<Action>)
    requires LegalRun(p, actions) && OnLoopOnly(actions) && NoSendUnderway(p)
    ensures CarefulRun(p, actions)
    decreases |actions|
  {
    if actions == [] {
    } else {
      assert !actions[0].CheckState?;
      OnLoopRunsAreCareful(Next(p, actions[0]), actions[1..]);
    }
  }

  // ----- when shutdown() overtakes a send of another thread

  function Drain(p: Path): seq<Action> {
    if p.v.tcp.output == [] then [] else [Writable(Wrote(|p.v.tcp.output|))]
  }

  lemma DrainShuts(p: Path)
    requires Good(p) && p.v.tcp.state == DisConnecting
    ensures LegalRun(p, Drain(p))
    ensures var q := Run(p, Drain(p));
            ShutWr in q.v.tcp.calls && q.v.tcp.output == [] && q == p.(v := q.v)
            && q.v.tcp.state == DisConnecting && !q.v.tcp.ch.events.write
  {
    if p.v.tcp.output != [] {
      var k := Wrote(|p.v.tcp.output|);
      var q := Next(p, Writable(k));
      HandleWriteUnfolds(p.v, k);
      HandleWriteIsSound(p.v, k);
      assert LegalRun(q, []);
      assert Run(p, Drain(p)) == q;
    }
  }

  lemma LateTaskWrites(p: Path)
    requires p.tasks != [] && p.v.tcp.state == DisConnecting && p.v.tcp.output == []
    requires !p.v.tcp.ch.events.write && ShutWr in p.v.tcp.calls
    ensures LegalRun(p, [RunTask(WriteFailed(EPipe))])
    ensures !ShutIsLast(Run(p, [RunTask(WriteFailed(EPipe))]).v.tcp.calls)
    ensures Run(p, [RunTask(WriteFailed(EPipe))]).v.tcp.accepted == p.v.tcp.accepted
  {
    var k := WriteFailed(EPipe);
    var q := Next(p, RunTask(k));
    SendUnfolds(p.v, p.tasks[0], k);
    assert LegalRun(q, []);
    assert Run(p, [RunTask(k)]) == q;
    var i :| 0 <= i < |p.v.tcp.calls| && p.v.tcp.calls[i] == ShutWr;
    assert q.v.tcp.calls[i] == ShutWr;
  }

  /** Or it buffers bytes that can no longer be sent: what one write does not take, unless the write
      faults, waits behind SHUT_WR with EPOLLOUT armed. */
  lemma LateTaskBuffers(p: Path, k: WriteResult)
    requires Good(p) && p.tasks != [] && p.v.tcp.state == DisConnecting && p.v.tcp.output == []
    requires ShutWr in p.v.tcp.calls && LegalSend(p.tasks[0], k)
    requires !Faults(p.v.tcp, k) && BytesSent(p.tasks[0].text, k) != p.tasks[0].text
    ensures var q, sent := Next(p, RunTask(k)), BytesSent(p.tasks[0].text, k);
            ShutWr in q.v.tcp.calls && q.v.tcp.output == p.tasks[0].text[|sent|..] != [] && EpolloutArmed(q.v)
  {
    SendUnfolds(p.v, p.tasks[0], k);
    SendIsSound(p.v, p.tasks[0], k);
    AcceptedIsLocal(p.v, p.tasks[0], k);
    BufferRestIsLocal(Accepted(p.v, p.tasks[0], k), Rest(p.v.tcp, p.tasks[0], k));
  }

  lemma {:induction false} RunsJoin(p: Path, first: seq<Action>, second: seq<Action>)
    requires LegalRun(p, first) && LegalRun(Run(p, first), second)
    ensures LegalRun(p, first + second) && Run(p, first + second) == Run(Run(p, first), second)
    decreases |first|
  {
    if first == [] {
      assert first + second == second;
    } else {
      RunsJoin(Next(p, first[0]), first[1..], second);
      assert (first + second)[1..] == first[1..] + second;
    }
  }

  function Overtaken(p: Path, t: nat): seq<Action> {
    Drain(p) + (if p.tasks == [] then [PushTask(t)] else []) + [RunTask(WriteFailed(EPipe))]
  }

  lemma OvertakenBreaks(p: Path, t: nat)
    requires Good(p) && p.v.tcp.state == DisConnecting && (p.tasks != [] || t in p.checked)
    ensures LegalRun(p, Overtaken(p, t)) && !ShutIsLast(Run(p, Overtaken(p, t)).v.tcp.calls)
  {
    DrainShuts(p);
    var q := Run(p, Drain(p));
    var push := if p.tasks == [] then [PushTask(t)] else [];
    var r := if p.tasks == [] then Next(q, PushTask(t)) else q;
    assert LegalRun(r, []);
    assert LegalRun(q, push) && Run(q, push) == r;
    RunsJoin(p, Drain(p), push);
    LateTaskWrites(r);
    RunsJoin(p, Drain(p) + push, [RunTask(WriteFailed(EPipe))]);
  }

  /** After SHUT_WR may come a write exactly when, at the call of shutdown(), a send() of another
      thread had passed its state test and not yet run. */
  lemma ShutdownIsSafeIff(p: Path)
    requires Good(p) && p.v.tcp.state == Connected
    ensures var q := Next(p, LocalShutdown);
            (forall actions :: LegalRun(q, actions) ==> ShutIsLast(Run(q, actions).v.tcp.calls))
            <==> NoSendUnderway(p)
  {
    var q := Next(p, LocalShutdown);
    StepKeepsGood(p, LocalShutdown);
    if NoSendUnderway(p) {
      assert HalfInv(q);
      forall actions | LegalRun(q, actions)
        ensures ShutIsLast(Run(q, actions).v.tcp.calls)
      {
        ClosingRunsAreCareful(q, actions);
        RunKeepsHalf(q, actions);
      }
    } else {
      var t := if p.checked == map[] then 0 else var u :| u in p.checked; u;
      assert q.tasks == p.tasks && q.checked == p.checked;
      OvertakenBreaks(q, t);
    }
  }

  /** Such a state is reached in one step: another thread enters send() on a new connection. What follows
      is a run from the start in which the socket is written after SHUT_WR. */
  lemma AShutdownCanBeEarly(fd: int, mark: nat, wc: bool, hw: bool, text: seq<byte>)
    ensures var start, send := Opened(fd, mark, wc, hw), [CheckState(1, text)];
            LegalRun(start, send)
            && var p := Run(start, send);
               Good(p) && p.v.tcp.state == Connected && !NoSendUnderway(p)
               && var run := send + ([LocalShutdown] + Overtaken(Next(p, LocalShutdown), 1));
                  LegalRun(start, run) && !ShutIsLast(Run(start, run).v.tcp.calls)
  {
    var start, send := Opened(fd, mark, wc, hw), [CheckState(1, text)];
    OpenedIsGood(fd, mark, wc, hw);
    StepKeepsGood(start, send[0]);
    var p := Next(start, send[0]);
    assert LegalRun(p, []) && Run(start, send) == p;
    assert p.checked == map[1 := Message(1, 0, text)];
    StepKeepsGood(p, LocalShutdown);
    var q := Next(p, LocalShutdown);
    OvertakenBreaks(q, 1);
    assert LegalRun(q, []) && LegalRun(p, [LocalShutdown]) && Run(p, [LocalShutdown]) == q;
    RunsJoin(p, [LocalShutdown], Overtaken(q, 1));
    RunsJoin(start, send, [LocalShutdown] + Overtaken(q, 1));
  }

  lemma {:induction false} ClosingRunsAreCareful(p: Path, actions: seq<Action>)
    requires LegalRun(p, actions) && p.v.tcp.state in {DisConnecting, Disconnected}
    ensures CarefulRun(p, actions)
    decreases |actions|
  {
    if actions == [] {
    } else {
      var a := actions[0];
      StateStaysClosing(p, a);
      ClosingRunsAreCareful(Next(p, a), actions[1..]);
    }
  }

  lemma StateStaysClosing(p: Path, a: Action)
    requires Enabled(p, a) && p.v.tcp.state in {DisConnecting, Disconnected}
    ensures Next(p, a).v.tcp.state in {DisConnecting, Disconnected}
  {
    if a.RunTask? {
      SendUnfolds(p.v, p.tasks[0], a.k);
    } else if a.Writable? {
      HandleWriteUnfolds(p.v, a.k);
    }
  }
}
