/** What the invariant means for every run: who owns a connection, which phase it is in, what the user
    hears of it, and what is left when the loops are at rest. */
module Ownership {
  import opened PollerSpec
  import opened TcpSpec
  import opened ServerSpec
  import opened Wrappers
  import opened OwnershipInvariant
  import opened OwnershipSteps
  import opened OwnershipActions

  ghost predicate LegalRun(s: System, actions: seq<Action>)
    decreases |actions|
  {
    actions == [] || (Enabled(s, actions[0]) && LegalRun(Next(s, actions[0]), actions[1..]))
  }

  ghost function Run(s: System, actions: seq<Action>): System
    requires LegalRun(s, actions)
    decreases |actions|
  {
    if actions == [] then s else Run(Next(s, actions[0]), actions[1..])
  }

  ghost predicate Reachable(s: System) {
    exists ioLoops: nat, prefix: string, system: set<int>, actions: seq<Action> ::
      LegalRun(Boot(ioLoops, prefix, system), actions) && Run(Boot(ioLoops, prefix, system), actions) == s
  }

  lemma {:induction false} RunKeepsInv(s: System, actions: seq<Action>)
    requires Inv(s) && LegalRun(s, actions)
    ensures Inv(Run(s, actions))
    decreases |actions|
  {
    if actions == [] {
    } else {
      StepKeepsInv(s, actions[0]);
      RunKeepsInv(Next(s, actions[0]), actions[1..]);
    }
  }

  lemma ReachableIsGood(s: System)
    requires Reachable(s)
    ensures Inv(s)
  {
    var ioLoops: nat, prefix: string, system: set<int>, actions: seq<Action> :|
      LegalRun(Boot(ioLoops, prefix, system), actions) && Run(Boot(ioLoops, prefix, system), actions) == s;
    BootIsGood(ioLoops, prefix, system);
    RunKeepsInv(Boot(ioLoops, prefix, system), actions);
  }

  // ----- one phase at a time

  predicate InTable(s: System, c: nat)
    requires Valid(s, c)
  {
    var t := TracesOf(s, c);
    t.linked && s.conns[c].tcp.state != Disconnected && !t.closing && t.removing == 0 && t.destroying == 0
  }

  predicate BeingUnlinked(s: System, c: nat)
    requires Valid(s, c)
  {
    var t := TracesOf(s, c);
    t.linked && s.conns[c].tcp.state == Disconnected
    && (if t.closing then 1 else 0) + t.removing == 1 && t.destroying == 0
  }

  predicate BeingDestroyed(s: System, c: nat)
    requires Valid(s, c)
  {
    var t := TracesOf(s, c);
    !t.linked && s.conns[c].tcp.state == Disconnected && !t.closing && t.removing == 0 && t.destroying == 1
  }

  predicate IsDestroyed(s: System, c: nat)
    requires Valid(s, c)
  {
    s.conns[c].tcp.state == Disconnected && !Registered(s.conns[c].tcp)
  }

  /** Every connection not yet destroyed is in exactly one of three places: in the table and open; in
      the table with exactly one removal running or queued; out of it with exactly one destruction
      queued. Until it is destroyed it is not freed and something owns it. */
  lemma ExactlyOnePhase(s: System, c: nat)
    requires Reachable(s) && c < |s.conns|
    ensures Valid(s, c)
    ensures !IsDestroyed(s, c) ==>
              (InTable(s, c) || BeingUnlinked(s, c) || BeingDestroyed(s, c))
              && !(InTable(s, c) && BeingUnlinked(s, c)) && !(BeingUnlinked(s, c) && BeingDestroyed(s, c))
              && !(InTable(s, c) && BeingDestroyed(s, c))
    ensures !IsDestroyed(s, c) ==> !s.conns[c].freed && Referenced(s, c)
    ensures IsDestroyed(s, c) ==> TracesOf(s, c) == Traces(0, false, 0, 0, false)
  {
    ReachableIsGood(s);
    assert ConnInv(s, c);
    ReferencedUntilGone(s, c);
  }

  /** Whatever channel a poller still lists belongs to a connection that is alive and owned. */
  lemma ListedIsOwned(s: System, l: nat, fd: int)
    requires Reachable(s) && l < |s.loops| && fd in s.loops[l].poller.channels
    ensures var c := s.loops[l].poller.channels[fd];
            Valid(s, c) && s.conns[c].loop == l && s.conns[c].tcp.ch.fd == fd
            && !s.conns[c].freed && Referenced(s, c)
  {
    ReachableIsGood(s);
    assert LoopInv(s, l);
    var c := s.loops[l].poller.channels[fd];
    assert OwnerFits(s, l, fd, c);
    RegisteredIsAlive(s, c);
    ReferencedUntilGone(s, c);
  }

  /** accept() hands newConnection a descriptor no poller knows, so registering it never displaces
      another channel; and when a connection is freed no poller knows it any more. */
  lemma DescriptorsAreFresh(s: System, a: Action)
    requires Reachable(s) && Enabled(s, a)
    ensures a.Accept? ==> FdIsFree(s, a.fd)
    ensures a.Free? ==> FdIsFree(s, s.conns[a.conn].tcp.ch.fd)
  {
    ReachableIsGood(s);
    match a
    case Accept(fd, _, _, _) => OpenFdsAreFree(s, fd);
    case Free(c) =>
      ReferencedUntilGone(s, c);
      forall l | 0 <= l < |s.loops|
        ensures s.conns[c].tcp.ch.fd !in s.loops[l].poller.channels && s.conns[c].tcp.ch.fd !in s.loops[l].poller.kernel
      {
        assert LoopInv(s, l);
        var fd := s.conns[c].tcp.ch.fd;
        if fd in s.loops[l].poller.channels {
          var d := s.loops[l].poller.channels[fd];
          assert OwnerFits(s, l, fd, d);
          RegisteredIsAlive(s, d);
        }
      }
    case _ =>
  }

  /** Every channel still to be dispatched is alive, owned and listed when its turn comes, so the
      weak pointer it is tied to can be locked; and a sendInLoop task finds its connection alive. */
  lemma DispatchIsSafe(s: System, l: nat)
    requires Reachable(s) && l < |s.loops|
    ensures forall i :: 0 <= i < |s.loops[l].active| ==>
              var c := s.loops[l].active[i].conn;
              Valid(s, c) && !s.conns[c].freed && Referenced(s, c) && HasChannel(s.loops[l].poller, s.conns[c].tcp.ch)
    ensures HasNext(s, l) && NextTask(s, l).SendTask? ==>
              Valid(s, NextTask(s, l).conn) && !s.conns[NextTask(s, l).conn].freed
  {
    ReachableIsGood(s);
    assert LoopInv(s, l);
    forall i | 0 <= i < |s.loops[l].active|
      ensures var c := s.loops[l].active[i].conn;
              Valid(s, c) && !s.conns[c].freed && Referenced(s, c) && HasChannel(s.loops[l].poller, s.conns[c].tcp.ch)
    {
      var c := s.loops[l].active[i].conn;
      assert ReadyFits(s, l, s.loops[l].active[i], i == 0);
      RegisteredIsAlive(s, c);
      ReferencedUntilGone(s, c);
    }
    if HasNext(s, l) {
      assert Todo(s.loops[l])[0] == NextTask(s, l) && TaskFits(s, l, Todo(s.loops[l])[0]);
      assert ConnInv(s, NextTask(s, l).conn);
    }
  }

  lemma StartCloseUnregisters(s: System, l: nat, c: nat)
    requires Inv(s) && Valid(s, c) && s.conns[c].loop == l && s.conns[c].tcp.state in {Connected, DisConnecting}
    ensures s.conns[c].tcp.ch.index == Added
    ensures s.conns[c].tcp.ch.fd !in StartClose(s, l, c).loops[l].poller.kernel
  {
    UpIsOpen(s, c);
    DisableAllLeavesTheKernelIff(s.loops[l].poller, s.conns[c].tcp.ch);
  }

  /** Whenever a hang-up begins a close, disableAll meets a channel that is registered, so it does take the
      descriptor out of the kernel set. */
  lemma HangUpDisablesForGood(s: System, l: nat)
    requires Reachable(s) && InHandler(s, l, AtHup) && HupHandled(s, l).loops[l].closing.Some?
    ensures var ch := s.conns[s.loops[l].active[0].conn].tcp.ch;
            ch.index == Added && ch.fd !in HupHandled(s, l).loops[l].poller.kernel
  {
    ReachableIsGood(s);
    CurrentFits(s, l);
    StartCloseUnregisters(s, l, s.loops[l].active[0].conn);
  }

  /** The same when the end of the input begins it. */
  lemma EndOfFileDisablesForGood(s: System, l: nat, r: ReadResult)
    requires Reachable(s) && InHandler(s, l, AtIn) && InHandled(s, l, r).loops[l].closing.Some?
    ensures var ch := s.conns[s.loops[l].active[0].conn].tcp.ch;
            ch.index == Added && ch.fd !in InHandled(s, l, r).loops[l].poller.kernel
  {
    ReachableIsGood(s);
    CurrentFits(s, l);
    StartCloseUnregisters(s, l, s.loops[l].active[0].conn);
  }

  /** connectionDestroyed, the one other place with a disableAll, never comes to it: it finds the
      connection disconnected, and only removes the channel. */
  lemma DestructionOnlyRemoves(s: System, l: nat)
    requires Reachable(s) && HasNext(s, l) && NextTask(s, l).Destroyed?
    ensures var c := NextTask(s, l).conn;
            Valid(s, c) && s.conns[c].tcp.state == Disconnected
            && ConnectionDestroyed(Look(s, c)) == Touch(Look(s, c), Remove)
  {
    ReachableIsGood(s);
    ArrivedDestroyed(s, l, NextTask(s, l).conn);
  }

  // The step that the loop thread takes next, with the weakest answers the kernel can give.
  function NextAction(s: System, l: nat): Action
    requires l < |s.loops|
  {
    var lp := s.loops[l];
    match lp.at
    case Polling => PollReturn(l, [])
    case Dispatching =>
      if lp.closing.Some? then FinishClose(l)
      else if lp.active == [] then StartTasks(l)
      else (match lp.stage
            case AtHup => HandleHup(l)
            case AtIn => HandleIn(l, ReadFailed)
            case AtOut => HandleOut(l, Wrote(0)))
    case RunningTasks => if HasNext(s, l) then RunTask(l, Wrote(0)) else EndTasks(l)
  }

  lemma DispatchGoesOn(s: System, l: nat)
    requires Inv(s) && l < |s.loops| && s.loops[l].at == Dispatching
    ensures s.loops[l].closing.Some? ==> CanFinish(s, l)
    ensures s.loops[l].closing == None && s.loops[l].active != [] ==> InHandler(s, l, s.loops[l].stage)
  {
    assert LoopInv(s, l);
    if s.loops[l].active != [] {
      CurrentFits(s, l);
    }
  }

  lemma TasksGoOn(s: System, l: nat)
    requires Inv(s) && l < |s.loops| && s.loops[l].at == RunningTasks
    ensures if HasNext(s, l) then TaskEnabled(s, l, NextTask(s, l), Wrote(0)) else CanEnd(s, l)
  {
    assert LoopInv(s, l);
    if HasNext(s, l) {
      assert Todo(s.loops[l])[0] == NextTask(s, l) && TaskFits(s, l, Todo(s.loops[l])[0]);
    }
  }

  /** The guards that say "this connection belongs to this loop" never stop a loop: a loop can always
      take its next step, and the base loop can always accept. */
  lemma NeverStuck(s: System, l: nat)
    requires Reachable(s) && l < |s.loops|
    ensures Enabled(s, NextAction(s, l))
    ensures forall fd :: s.loops[0].at == Dispatching && fd > 0 && fd !in OpenFds(s) ==>
              Enabled(s, Accept(fd, 0, false, false))
  {
    ReachableIsGood(s);
    if s.loops[l].at == Dispatching {
      DispatchGoesOn(s, l);
    }
    if s.loops[l].at == RunningTasks {
      TasksGoOn(s, l);
    }
  }

  // ----- nothing lingers

  function PhaseAt(s: System, c: nat): Phase
    requires Valid(s, c)
  {
    PhaseOf(s.conns[c].tcp, TracesOf(s, c))
  }

  lemma TaskFindsPhase(s: System, l: nat, k: WriteResult)
    requires Inv(s) && HasNext(s, l) && TaskEnabled(s, l, NextTask(s, l), k)
    ensures match NextTask(s, l)
            case Established(c) => PhaseAt(s, c) == Phase.Accepted
            case RemoveInLoop(c) => PhaseAt(s, c) == Removing
            case Destroyed(c) => PhaseAt(s, c) == Destroying
            case _ => true
  {
    PopCount(s, l, NextTask(s, l), NextTask(s, l));
    assert ConnInv(s, NextTask(s, l).conn);
  }

  lemma TaskLeavesPhase(s: System, l: nat, k: WriteResult, s': System)
    requires HasNext(s, l) && TaskEnabled(s, l, NextTask(s, l), k) && Inv(s')
    requires TaskEnabled(Popped(s, l), l, NextTask(s, l), k) && s' == Execute(Popped(s, l), l, NextTask(s, l), k)
    requires NextTask(s, l).RemoveInLoop? || NextTask(s, l).Destroyed? ==>
               s.conns[NextTask(s, l).conn].tcp.state == Disconnected
    requires NextTask(s, l).RemoveInLoop? ==> Registered(s.conns[NextTask(s, l).conn].tcp)
    ensures Valid(s', NextTask(s, l).conn)
    ensures match NextTask(s, l)
            case Established(c) => PhaseAt(s', c) == Open
            case RemoveInLoop(c) => PhaseAt(s', c) == Destroying
            case Destroyed(c) => PhaseAt(s', c) == Gone
            case _ => true
  {
    assert ConnInv(s', NextTask(s, l).conn);
  }

  /** Each functor of the life of a connection finds it in the one phase it is meant for and takes it
      to the next: established, unlinked, destroyed. */
  lemma TasksAdvance(s: System, l: nat, k: WriteResult)
    requires Reachable(s) && Enabled(s, RunTask(l, k))
    ensures var c, s' := NextTask(s, l).conn, Next(s, RunTask(l, k));
            Valid(s, c) && Valid(s', c)
            && match NextTask(s, l)
               case Established(_) => PhaseAt(s, c) == Phase.Accepted && PhaseAt(s', c) == Open
               case RemoveInLoop(_) => PhaseAt(s, c) == Removing && PhaseAt(s', c) == Destroying
               case Destroyed(_) => PhaseAt(s, c) == Destroying && PhaseAt(s', c) == Gone
               case _ => true
  {
    ReachableIsGood(s);
    StepKeepsInv(s, RunTask(l, k));
    TaskFindsPhase(s, l, k);
    TaskLeavesPhase(s, l, k, Next(s, RunTask(l, k)));
  }

  lemma CloseLeavesPhase(s: System, l: nat, c: nat, s': System)
    requires CanFinish(s, l) && s.loops[l].closing == Some(c) && s.conns[c].loop == l
    requires Linked(s, c) && s.conns[c].tcp.state == Disconnected && Registered(s.conns[c].tcp)
    requires Inv(s') && s' == CloseFinished(s, l)
    ensures Valid(s', c) && PhaseAt(s', c) == if l == 0 then Destroying else Removing
  {
    assert ConnInv(s', c);
  }

  /** The end of handlerClose takes the connection from closing to being unlinked on the base loop, or,
      if that is its own loop, straight to being destroyed. */
  lemma CloseAdvances(s: System, l: nat)
    requires Reachable(s) && Enabled(s, FinishClose(l))
    ensures var c, s' := s.loops[l].closing.value, Next(s, FinishClose(l));
            Valid(s, c) && Valid(s', c)
            && PhaseAt(s, c) == Closing && PhaseAt(s', c) == if l == 0 then Destroying else Removing
  {
    ReachableIsGood(s);
    StepKeepsInv(s, FinishClose(l));
    assert LoopInv(s, l) && ConnInv(s, s.loops[l].closing.value);
    CloseLeavesPhase(s, l, s.loops[l].closing.value, Next(s, FinishClose(l)));
  }

  // Every loop is at its poll with no functor queued.
  ghost predicate Quiet(s: System) {
    forall l :: 0 <= l < |s.loops| ==> s.loops[l].at == Polling && s.loops[l].pending == []
  }

  lemma QuietLoop(s: System, l: nat, c: nat)
    requires Inv(s) && Quiet(s) && l < |s.loops|
    ensures Todo(s.loops[l]) == [] && s.loops[l].closing == None && !LoopHolds(s.loops[l], c)
  {
    assert LoopInv(s, l);
  }

  /** When all loops are at rest, the table holds exactly the connections that are up; every other one
      is destroyed, and it is freed, or can be, unless the user still keeps a pointer to it. */
  lemma NothingLingers(s: System, c: nat)
    requires Reachable(s) && Quiet(s) && c < |s.conns|
    ensures Valid(s, c)
    ensures Linked(s, c) <==> s.conns[c].tcp.state in {Connected, DisConnecting}
    ensures !Linked(s, c) ==> IsDestroyed(s, c) && (s.conns[c].freed || c in s.held || CanFree(s, c))
  {
    ReachableIsGood(s);
    assert ConnInv(s, c);
    QuietLoop(s, s.conns[c].loop, c);
    QuietLoop(s, 0, c);
    forall l | 0 <= l < |s.loops|
      ensures !LoopHolds(s.loops[l], c)
    {
      QuietLoop(s, l, c);
    }
  }

  /** On every loop, poller and kernel agree with every channel, every epoll_ctl was legal, and every
      connection's bytes are conserved. */
  lemma EveryLoopAgrees(s: System, c: nat)
    requires Reachable(s) && c < |s.conns|
    ensures Valid(s, c) && s.loops[s.conns[c].loop].poller.legal
    ensures !s.conns[c].freed ==> Agrees(s.loops[s.conns[c].loop].poller, s.conns[c].tcp.ch)
    ensures var t := s.conns[c].tcp; Wire(t.calls) + t.output == Texts(t.accepted)
  {
    ReachableIsGood(s);
    assert ConnInv(s, c);
    assert LoopInv(s, s.conns[c].loop);
  }

  // ----- what the user hears

  lemma {:induction false} HeardUpCounts(told: seq<Callback>)
    requires HeardUp(told)
    ensures Times(told, Up) == 1 && Times(told, Down) == 0 && Times(told, Closed) == 0
    decreases |told|
  {
    if |told| == 1 {
      assert told[..0] == [];
    } else {
      HeardUpCounts(told[..|told| - 1]);
    }
  }

  lemma HeardCounts(told: seq<Callback>)
    ensures HeardDown(told) ==> Times(told, Up) == 1 && Times(told, Down) == 1 && Times(told, Closed) == 0
    ensures HeardAll(told) ==> Times(told, Up) == 1 && Times(told, Down) == 1 && Times(told, Closed) == 1
  {
    if HeardDown(told) {
      HeardUpCounts(told[..|told| - 1]);
    }
    if HeardAll(told) {
      HeardUpCounts(told[..|told| - 1][..|told| - 2]);
    }
  }

  lemma HeardTells(told: seq<Callback>, phase: Phase)
    requires Heard(told, phase)
    ensures Times(told, Up) == (if phase == Phase.Accepted then 0 else 1)
    ensures Times(told, Down) == (if phase == Phase.Accepted || phase == Open then 0 else 1)
    ensures Times(told, Closed) <= Times(told, Down)
    ensures told == [] || HeardUp(told) || HeardDown(told) || HeardAll(told)
  {
    HeardCounts(told);
    if HeardUp(told) {
      HeardUpCounts(told);
    }
  }

  /** The user hears Up once the connection is established, once; Down once it is disconnected, once;
      and the server's close callback fires once, after Down. Input comes only in between. */
  lemma ClosedExactlyOnce(s: System, c: nat)
    requires Reachable(s) && c < |s.conns|
    ensures var t := s.conns[c].tcp;
            Times(t.told, Up) == (if t.state == Connecting then 0 else 1)
            && Times(t.told, Down) == (if t.state == Disconnected then 1 else 0)
            && Times(t.told, Closed) <= Times(t.told, Down)
            && (t.told == [] || HeardUp(t.told) || HeardDown(t.told) || HeardAll(t.told))
  {
    ReachableIsGood(s);
    assert ConnInv(s, c);
    HeardTells(s.conns[c].tcp.told, PhaseOf(s.conns[c].tcp, TracesOf(s, c)));
  }

  // ----- the state only moves forward

  function Rank(state: State): nat {
    match state case Connecting => 0 case Connected => 1 case DisConnecting => 2 case Disconnected => 3
  }

  ghost predicate Forward(s: System, s': System) {
    |s.conns| <= |s'.conns|
    && forall c :: 0 <= c < |s.conns| ==> Rank(s.conns[c].tcp.state) <= Rank(s'.conns[c].tcp.state)
  }

  lemma PutMovesForward(s: System, s1: System, c: nat, v: View<nat>)
    requires s1.conns == s.conns && Valid(s1, c) && Rank(s.conns[c].tcp.state) <= Rank(v.tcp.state)
    ensures Forward(s, Put(s1, c, v))
  {
  }

  lemma EstablishedMovesForward(s: System, l: nat, c: nat)
    requires Inv(s) && HasTask(s, l, Established(c)) && Valid(s, c)
    ensures Forward(s, Put(Popped(s, l), c, ConnectionEstablished(Look(Popped(s, l), c))))
  {
    ArrivedEstablished(s, l, c);
    PutMovesForward(s, Popped(s, l), c, ConnectionEstablished(Look(Popped(s, l), c)));
  }

  lemma SendTaskMovesForward(s: System, s1: System, c: nat, m: Message, k: WriteResult)
    requires s1.conns == s.conns && Valid(s1, c) && LegalSend(m, k)
    ensures Forward(s, Put(s1, c, SendInLoop(Look(s1, c), m, k)))
  {
    SendUnfolds(Look(s1, c), m, k);
    PutMovesForward(s, s1, c, SendInLoop(Look(s1, c), m, k));
  }

  lemma TaskMovesForward(s: System, l: nat, k: WriteResult)
    requires Inv(s) && HasNext(s, l) && TaskEnabled(s, l, NextTask(s, l), k)
    ensures Forward(s, Execute(Popped(s, l), l, NextTask(s, l), k))
  {
    var s1, c := Popped(s, l), NextTask(s, l).conn;
    match NextTask(s, l)
    case Established(_) => EstablishedMovesForward(s, l, c);
    case RemoveInLoop(_) => assert Unlink(s1, c).conns == s.conns;
    case Destroyed(_) => PutMovesForward(s, s1, c, ConnectionDestroyed(Look(s1, c)));
    case SendTask(_, m) => SendTaskMovesForward(s, s1, c, m, k);
    case _ => assert s1.conns == s.conns;
  }

  lemma StartCloseMovesForward(s: System, l: nat, c: nat)
    requires Valid(s, c) && s.conns[c].loop == l
    ensures Forward(s, StartClose(s, l, c))
  {
    PutMovesForward(s, s, c, CloseBegin(Look(s, c)));
  }

  lemma HupMovesForward(s: System, l: nat)
    requires InHandler(s, l, AtHup)
    ensures Forward(s, HupHandled(s, l))
  {
    StartCloseMovesForward(s, l, s.loops[l].active[0].conn);
  }

  lemma InMovesForward(s: System, l: nat, r: ReadResult)
    requires InHandler(s, l, AtIn)
    ensures Forward(s, InHandled(s, l, r))
  {
    StartCloseMovesForward(s, l, s.loops[l].active[0].conn);
  }

  lemma OutMovesForward(s: System, l: nat, k: WriteResult)
    requires Inv(s) && InHandler(s, l, AtOut) && LegalDrain(s.conns[s.loops[l].active[0].conn].tcp, k)
    ensures Forward(s, OutHandled(s, l, k))
  {
    HandleWriteUnfolds(Look(s, s.loops[l].active[0].conn), k);
  }

  lemma CloseMovesForward(s: System, l: nat)
    requires Inv(s) && CanFinish(s, l)
    ensures Forward(s, CloseFinished(s, l))
  {
  }

  lemma SendMovesForward(s: System, c: nat, m: Message, k: WriteResult)
    requires Inv(s) && Valid(s, c) && LegalSend(m, k)
    ensures Forward(s, Put(s, c, Send(Look(s, c), m, k)))
  {
    SendUnfolds(Look(s, c), m, k);
    PutMovesForward(s, s, c, Send(Look(s, c), m, k));
  }

  lemma AcceptMovesForward(s: System, fd: int, mark: nat, wc: bool, hw: bool)
    requires Inv(s) && CanCreate(s, fd)
    ensures Forward(s, Accepting(s, fd, mark, wc, hw))
  {
  }

  lemma StepMovesForward(s: System, a: Action)
    requires Inv(s) && Enabled(s, a)
    ensures Forward(s, Next(s, a))
  {
    match a
    case Accept(fd, mark, wc, hw) => AcceptMovesForward(s, fd, mark, wc, hw);
    case HandleHup(l) => HupMovesForward(s, l);
    case HandleIn(l, r) => InMovesForward(s, l, r);
    case HandleOut(l, k) => OutMovesForward(s, l, k);
    case FinishClose(l) => CloseMovesForward(s, l);
    case RunTask(l, k) => TaskMovesForward(s, l, k);
    case LocalSend(c, m, k) => SendMovesForward(s, c, m, k);
    case LocalShutdown(c) => PutMovesForward(s, s, c, Shutdown(Look(s, c)));
    case _ =>
  }

  /** Along every run, no connection ever goes back to an earlier state. */
  lemma {:induction false} RunsMoveForward(s: System, actions: seq<Action>)
    requires Inv(s) && LegalRun(s, actions)
    ensures Forward(s, Run(s, actions))
    decreases |actions|
  {
    if actions == [] {
    } else {
      StepMovesForward(s, actions[0]);
      StepKeepsInv(s, actions[0]);
      RunsMoveForward(Next(s, actions[0]), actions[1..]);
    }
  }
}
