/** Every action of the server keeps the ownership invariant. */
module OwnershipActions {
  import opened Bytes
  import opened PollerSpec
  import opened TcpSpec
  import opened Names
  import opened ServerSpec
  import opened Wrappers
  import opened OwnershipInvariant
  import opened OwnershipSteps

  lemma RegisteredIsAlive(s: System, c: nat)
    requires Inv(s) && c < |s.conns| && Registered(s.conns[c].tcp)
    ensures !s.conns[c].freed && Agrees(Look(s, c).poller, s.conns[c].tcp.ch)
  {
    assert ConnInv(s, c);
  }

  lemma CurrentFits(s: System, l: nat)
    requires Inv(s) && l < |s.loops| && s.loops[l].active != []
    ensures ReadyFits(s, l, s.loops[l].active[0], true)
  {
    assert LoopInv(s, l);
  }

  lemma UpIsOpen(s: System, c: nat)
    requires Inv(s) && c < |s.conns| && s.conns[c].tcp.state in {Connected, DisConnecting}
    ensures !s.conns[c].freed && TracesOf(s, c) == TracesFor(Open) && HeardUp(s.conns[c].tcp.told)
    ensures Agrees(Look(s, c).poller, s.conns[c].tcp.ch) && Sound(s.conns[c].tcp)
    ensures s.conns[c].tcp.ch.index == Added
  {
    assert ConnInv(s, c);
  }

  // A connection that has arrived in a phase completes the invariant.
  lemma Land(s: System, c: nat, phase: Phase)
    requires Almost(s, c) && !s.conns[c].freed
    requires Sound(s.conns[c].tcp) && Heard(s.conns[c].tcp.told, phase)
    requires TracesOf(s, c) == TracesFor(phase) && PhaseOf(s.conns[c].tcp, TracesFor(phase)) == phase
    ensures Inv(s)
  {
    assert ConnInv(s, c);
  }

  lemma CloseBeginPut(s: System, c: nat)
    requires Almost(s, c) && !s.conns[c].freed && Sound(s.conns[c].tcp) && HeardUp(s.conns[c].tcp.told)
    requires s.conns[c].tcp.ch.index == Added
    requires var l := s.conns[c].loop;
             forall i :: 0 <= i < |s.loops[l].active| && s.loops[l].active[i].conn == c ==>
               i == 0 && ReadyFits(s, l, s.loops[l].active[0], true)
               && s.loops[l].stage != AtHup && (s.loops[l].stage == AtIn ==> !s.loops[l].active[0].input)
    ensures var s' := Put(s, c, CloseBegin(Look(s, c)));
            Almost(s', c) && TracesOf(s', c) == TracesOf(s, c) && Sound(s'.conns[c].tcp)
            && s'.conns[c].tcp.state == Disconnected && s'.conns[c].tcp.ch.index == Deleted
            && HeardDown(s'.conns[c].tcp.told) && !s'.conns[c].freed
  {
    var v := CloseBegin(Look(s, c));
    CloseIsSound(Look(s, c));
    PutKeepsAlmost(s, c, v);
    PutKeepsTraces(s, c, v, c);
    assert v.tcp.told[..|v.tcp.told| - 1] == s.conns[c].tcp.told;
  }

  // The current channel of loop l, about to close.
  ghost predicate AboutToClose(s: System, l: nat, c: nat, stage: Stage) {
    && l < |s.loops| && s.loops[l].active != [] && s.loops[l].closing == None && s.loops[l].active[0].conn == c
    && Valid(s, c) && s.conns[c].loop == l && s.conns[c].tcp.state in {Connected, DisConnecting}
    && stage != AtHup && (stage == AtIn ==> !s.loops[l].active[0].input)
  }

  lemma MarkBeforeClose(s: System, l: nat, c: nat, stage: Stage)
    requires Inv(s) && AboutToClose(s, l, c, stage)
    ensures Almost(Marked(s, l, None, stage), c) && TracesOf(Marked(s, l, None, stage), c) == TracesFor(Open)
  {
    UpIsOpen(s, c);
    InvIsAlmost(s, c);
    assert LoopInv(s, l);
    MarkKeepsAlmost(s, c, None, stage);
    MarkKeepsTraces(s, l, None, stage, c);
  }

  lemma CloseMarked(s: System, l: nat, c: nat, stage: Stage)
    requires Inv(s) && AboutToClose(s, l, c, stage)
    ensures var s1 := Marked(s, l, None, stage);
            var s2 := Put(s1, c, CloseBegin(Look(s1, c)));
            Almost(s2, c) && TracesOf(s2, c) == TracesFor(Open) && Sound(s2.conns[c].tcp)
            && s2.conns[c].tcp.state == Disconnected && s2.conns[c].tcp.ch.index == Deleted
            && HeardDown(s2.conns[c].tcp.told) && !s2.conns[c].freed
  {
    UpIsOpen(s, c);
    MarkBeforeClose(s, l, c, stage);
    var s1 := Marked(s, l, None, stage);
    assert LoopInv(s1, l);
    CloseBeginPut(s1, c);
  }

  lemma MarkClosing(s: System, c: nat)
    requires Almost(s, c) && !s.conns[c].freed && TracesOf(s, c) == TracesFor(Open)
    requires Sound(s.conns[c].tcp) && HeardDown(s.conns[c].tcp.told)
    requires s.conns[c].tcp.state == Disconnected && s.conns[c].tcp.ch.index == Deleted
    requires var lp := s.loops[s.conns[c].loop]; lp.at == Dispatching && lp.closing == None
    ensures Inv(Marked(s, s.conns[c].loop, Some(c), s.loops[s.conns[c].loop].stage))
  {
    var l := s.conns[c].loop;
    var stage := s.loops[l].stage;
    MarkKeepsAlmost(s, c, Some(c), stage);
    MarkKeepsTraces(s, l, Some(c), stage, c);
    Land(Marked(s, l, Some(c), stage), c, Closing);
  }

  // handlerClose begins for the current channel of loop l.
  lemma CloseKeeps(s: System, l: nat, c: nat, stage: Stage)
    requires Inv(s) && AboutToClose(s, l, c, stage)
    ensures Inv(Marked(Put(s, c, CloseBegin(Look(s, c))), l, Some(c), stage))
  {
    assert ActiveInv(s, l) by {
      assert LoopInv(s, l);
    }
    CloseMarked(s, l, c, stage);
    var s1 := Marked(s, l, None, stage);
    MarkClosing(Put(s1, c, CloseBegin(Look(s1, c))), c);
    CloseCommutes(s, l, c, stage);
  }

  lemma CloseCommutes(s: System, l: nat, c: nat, stage: Stage)
    requires Valid(s, c) && s.conns[c].loop == l
    ensures var s1 := Marked(s, l, None, stage);
            Marked(Put(s1, c, CloseBegin(Look(s1, c))), l, Some(c), stage)
            == Marked(Put(s, c, CloseBegin(Look(s, c))), l, Some(c), stage)
  {
  }

  lemma HandleHupKeeps(s: System, l: nat)
    requires Inv(s) && InHandler(s, l, AtHup)
    ensures Inv(HupHandled(s, l))
  {
    var r := s.loops[l].active[0];
    CurrentFits(s, l);
    if r.hup && !r.input {
      CloseKeeps(s, l, r.conn, AtIn);
      assert HupHandled(s, l) == Marked(Put(s, r.conn, CloseBegin(Look(s, r.conn))), l, Some(r.conn), AtIn);
    } else {
      StageKeeps(s, l, AtIn);
    }
  }

  lemma TakeInputKeeps(s: System, c: nat, chunk: seq<byte>)
    requires Inv(s) && c < |s.conns| && s.conns[c].tcp.state in {Connected, DisConnecting}
    ensures Inv(Put(s, c, TakeInput(Look(s, c), chunk)))
  {
    UpIsOpen(s, c);
    InvIsAlmost(s, c);
    PutKeepsInv(s, c, TakeInput(Look(s, c), chunk));
  }

  lemma HandleInKeeps(s: System, l: nat, result: ReadResult)
    requires Inv(s) && InHandler(s, l, AtIn)
    ensures Inv(InHandled(s, l, result))
  {
    var r := s.loops[l].active[0];
    CurrentFits(s, l);
    if !r.input || result.ReadFailed? {
      StageKeeps(s, l, AtOut);
    } else if result.Received? && result.chunk != [] {
      TakeInputKeeps(s, r.conn, result.chunk);
      StageKeeps(Put(s, r.conn, TakeInput(Look(s, r.conn), result.chunk)), l, AtOut);
    } else {
      CloseKeeps(s, l, r.conn, AtOut);
      assert InHandled(s, l, result) == Marked(Put(s, r.conn, CloseBegin(Look(s, r.conn))), l, Some(r.conn), AtOut);
    }
  }

  lemma HandleOutKeeps(s: System, l: nat, k: WriteResult)
    requires Inv(s) && InHandler(s, l, AtOut) && LegalDrain(s.conns[s.loops[l].active[0].conn].tcp, k)
    ensures Inv(OutHandled(s, l, k))
  {
    var r := s.loops[l].active[0];
    CurrentFits(s, l);
    if r.output {
      RegisteredIsAlive(s, r.conn);
      InvIsAlmost(s, r.conn);
      assert ConnInv(s, r.conn);
      var v := HandleWrite(Look(s, r.conn), k);
      HandleWriteIsSound(Look(s, r.conn), k);
      PutKeepsInv(s, r.conn, v);
      NextChannelKeeps(Put(s, r.conn, v), l);
    } else {
      NextChannelKeeps(s, l);
    }
  }

  // ----- unlinking

  function Erased(s: System, c: nat): System
    requires Valid(s, c)
  {
    s.(connections := s.connections - {s.conns[c].name})
  }

  lemma EraseKeepsAlmost(s: System, c: nat)
    requires Almost(s, c)
    ensures Almost(Erased(s, c), c)
    ensures TracesOf(Erased(s, c), c) == TracesOf(s, c).(linked := false)
  {
    var s' := Erased(s, c);
    forall d | 0 <= d < |s'.conns| && d != c
      ensures ConnInv(s', d)
    {
      NamesAreUnique(s.prefix, c + 1, d + 1);
      assert s.conns[d].name != s.conns[c].name;
      assert ConnInv(s, d);
      assert TracesOf(s', d) == TracesOf(s, d);
    }
    forall l | 0 <= l < |s'.loops|
      ensures LoopInv(s', l)
    {
      assert LoopInv(s, l);
      SameButTables(s, s', l);
    }
  }

  // A loop's part of the invariant does not look at the tables of the server.
  lemma SameButTables(s: System, s': System, l: nat)
    requires s'.conns == s.conns && s'.loops == s.loops && l < |s.loops| && LoopInv(s, l)
    ensures LoopInv(s', l)
  {
    forall i | 0 <= i < |Todo(s.loops[l])|
      ensures TaskFits(s', l, Todo(s.loops[l])[i])
    {
      assert TaskFits(s, l, Todo(s.loops[l])[i]);
    }
    forall i | 0 <= i < |s.loops[l].active|
      ensures ReadyFits(s', l, s.loops[l].active[i], i == 0)
    {
      assert ReadyFits(s, l, s.loops[l].active[i], i == 0);
    }
    forall fd | fd in s.loops[l].poller.channels
      ensures OwnerFits(s', l, fd, s.loops[l].poller.channels[fd])
    {
      assert OwnerFits(s, l, fd, s.loops[l].poller.channels[fd]);
    }
  }

  lemma UnlinkKeepsAlmost(s: System, c: nat)
    requires Almost(s, c)
    ensures Almost(Unlink(s, c), c)
    ensures TracesOf(Unlink(s, c), c) == TracesOf(s, c).(linked := false, destroying := TracesOf(s, c).destroying + 1)
  {
    EraseKeepsAlmost(s, c);
    QueueKeepsAlmost(Erased(s, c), s.conns[c].loop, Destroyed(c));
    QueueTraces(Erased(s, c), s.conns[c].loop, Destroyed(c), c);
  }

  // handlerClose has called the server's close callback, and not yet returned.
  function Returned(s: System, l: nat, c: nat): System
    requires Valid(s, c) && l < |s.loops|
  {
    Marked(Put(s, c, CloseEnd(Look(s, c))), l, None, s.loops[l].stage)
  }

  lemma CloseEndFits(s: System, l: nat, c: nat)
    requires Inv(s) && l < |s.loops| && s.loops[l].closing == Some(c)
    ensures Valid(s, c) && s.conns[c].loop == l && s.loops[l].at == Dispatching
    ensures TracesOf(s, c) == TracesFor(Closing) && !s.conns[c].freed && Local(Look(s, c), CloseEnd(Look(s, c)))
    ensures var t := CloseEnd(Look(s, c)).tcp;
            t == s.conns[c].tcp.(told := t.told)
            && Sound(t) && HeardAll(t.told) && t.state == Disconnected && t.ch.index == Deleted
  {
    assert LoopInv(s, l) && ConnInv(s, c);
    var v := CloseEnd(Look(s, c));
    assert v.tcp.told[..|v.tcp.told| - 1] == s.conns[c].tcp.told;
  }

  lemma CloseEndPut(s: System, l: nat, c: nat)
    requires Inv(s) && l < |s.loops| && s.loops[l].closing == Some(c)
    ensures Valid(s, c) && s.conns[c].loop == l && s.loops[l].at == Dispatching
    ensures var s1 := Put(s, c, CloseEnd(Look(s, c)));
            Almost(s1, c) && TracesOf(s1, c) == TracesFor(Closing)
            && s1.loops[l] == s.loops[l] && Returned(s, l, c) == Marked(s1, l, None, s1.loops[l].stage)
    ensures var t := Put(s, c, CloseEnd(Look(s, c))).conns[c].tcp;
            Sound(t) && HeardAll(t.told) && t.state == Disconnected && t.ch.index == Deleted
    ensures !s.conns[c].freed
  {
    CloseEndFits(s, l, c);
    InvIsAlmost(s, c);
    var v := CloseEnd(Look(s, c));
    ActiveUntouched(s, c, v);
    PutKeepsAlmost(s, c, v);
    PutKeepsTraces(s, c, v, c);
  }

  lemma ReturnedIsAlmost(s: System, l: nat, c: nat)
    requires Inv(s) && l < |s.loops| && s.loops[l].closing == Some(c)
    ensures Valid(s, c) && s.conns[c].loop == l && Almost(Returned(s, l, c), c)
    ensures TracesOf(Returned(s, l, c), c) == TracesFor(Open)
    ensures var t := Returned(s, l, c).conns[c].tcp;
            Sound(t) && HeardAll(t.told) && t.state == Disconnected && t.ch.index == Deleted
    ensures !Returned(s, l, c).conns[c].freed
  {
    CloseEndPut(s, l, c);
    var s1 := Put(s, c, CloseEnd(Look(s, c)));
    MarkKeepsAlmost(s1, c, None, s1.loops[l].stage);
    MarkKeepsTraces(s1, l, None, s1.loops[l].stage, c);
  }

  lemma FinishCloseKeeps(s: System, l: nat)
    requires Inv(s) && CanFinish(s, l)
    ensures Inv(CloseFinished(s, l))
  {
    var c := s.loops[l].closing.value;
    ReturnedIsAlmost(s, l, c);
    var s1 := Returned(s, l, c);
    assert CloseFinished(s, l) == RemoveConnection(s1, c);
    if l == 0 {
      UnlinkKeepsAlmost(s1, c);
      Land(Unlink(s1, c), c, Destroying);
    } else {
      QueueKeepsAlmost(s1, 0, RemoveInLoop(c));
      QueueTraces(s1, 0, RemoveInLoop(c), c);
      Land(Queue(s1, 0, RemoveInLoop(c)), c, Removing);
    }
  }

  lemma ActiveUntouched(s: System, c: nat, v: View<nat>)
    requires Inv(s) && PutOk(s, c, v) && SamePhase(s.conns[c].tcp, v.tcp) && Sound(v.tcp)
    ensures var l := s.conns[c].loop;
            forall i :: 0 <= i < |s.loops[l].active| && s.loops[l].active[i].conn == c ==>
              ReadyFits(Put(s, c, v), l, s.loops[l].active[i], i == 0)
  {
    var l := s.conns[c].loop;
    forall i | 0 <= i < |s.loops[l].active| && s.loops[l].active[i].conn == c
      ensures ReadyFits(Put(s, c, v), l, s.loops[l].active[i], i == 0)
    {
      assert LoopInv(s, l) && ReadyFits(s, l, s.loops[l].active[i], i == 0);
    }
  }

  // ----- tasks

  // What a connection is like whose next functor is about to run, once it is off the batch.
  ghost predicate Arrived(s: System, l: nat, c: nat, phase: Phase)
    requires c < |s.conns|
  {
    var t := s.conns[c].tcp;
    PhaseOf(t, TracesFor(phase)) == phase && Sound(t) && Heard(t.told, phase) && !s.conns[c].freed
  }

  lemma ArrivedEstablished(s: System, l: nat, c: nat)
    requires Inv(s) && HasTask(s, l, Established(c))
    ensures Almost(Popped(s, l), c) && TaskFits(s, l, Established(c)) && Arrived(s, l, c, Phase.Accepted)
    ensures TracesOf(Popped(s, l), c) == TracesFor(Open)
  {
    PopKeepsAlmost(s, l, Established(c));
    PopTraces(s, l, Established(c), c);
    assert ConnInv(s, c);
  }

  lemma ArrivedRemove(s: System, l: nat, c: nat)
    requires Inv(s) && HasTask(s, l, RemoveInLoop(c))
    ensures Almost(Popped(s, l), c) && TaskFits(s, l, RemoveInLoop(c)) && Arrived(s, l, c, Removing)
    ensures TracesOf(Popped(s, l), c) == TracesFor(Open)
  {
    PopKeepsAlmost(s, l, RemoveInLoop(c));
    PopTraces(s, l, RemoveInLoop(c), c);
    assert ConnInv(s, c);
  }

  lemma ArrivedDestroyed(s: System, l: nat, c: nat)
    requires Inv(s) && HasTask(s, l, Destroyed(c))
    ensures Almost(Popped(s, l), c) && TaskFits(s, l, Destroyed(c)) && Arrived(s, l, c, Destroying)
    ensures TracesOf(Popped(s, l), c) == TracesFor(Gone)
  {
    PopKeepsAlmost(s, l, Destroyed(c));
    PopTraces(s, l, Destroyed(c), c);
    assert ConnInv(s, c);
  }

  lemma EstablishedPut(s: System, c: nat)
    requires Almost(s, c) && !s.conns[c].freed && Sound(s.conns[c].tcp) && s.conns[c].tcp.state == Connecting
    ensures var s' := Put(s, c, ConnectionEstablished(Look(s, c)));
            Almost(s', c) && TracesOf(s', c) == TracesOf(s, c) && Sound(s'.conns[c].tcp)
            && s'.conns[c].tcp.state == Connected && HeardUp(s'.conns[c].tcp.told) && !s'.conns[c].freed
  {
    var v := ConnectionEstablished(Look(s, c));
    var l := s.conns[c].loop;
    EstablishedIsSound(Look(s, c));
    assert LoopInv(s, l);
    assert forall i :: 0 <= i < |s.loops[l].active| ==> ReadyFits(s, l, s.loops[l].active[i], i == 0);
    PutKeepsAlmost(s, c, v);
    PutKeepsTraces(s, c, v, c);
  }

  lemma RunEstablishedKeeps(s: System, l: nat, c: nat)
    requires Inv(s) && HasTask(s, l, Established(c))
    ensures Valid(s, c) && Inv(Put(Popped(s, l), c, ConnectionEstablished(Look(Popped(s, l), c))))
  {
    var s1 := Popped(s, l);
    ArrivedEstablished(s, l, c);
    EstablishedPut(s1, c);
    Land(Put(s1, c, ConnectionEstablished(Look(s1, c))), c, Open);
  }

  lemma RunRemoveKeeps(s: System, l: nat, c: nat)
    requires Inv(s) && HasTask(s, l, RemoveInLoop(c))
    ensures Valid(s, c) && Inv(Unlink(Popped(s, l), c))
  {
    ArrivedRemove(s, l, c);
    UnlinkKeepsAlmost(Popped(s, l), c);
    Land(Unlink(Popped(s, l), c), c, Destroying);
  }

  lemma DestroyedPut(s: System, c: nat)
    requires Almost(s, c) && !s.conns[c].freed && Sound(s.conns[c].tcp) && s.conns[c].tcp.state == Disconnected
    requires s.loops[s.conns[c].loop].active == []
    requires forall i :: 0 <= i < |Todo(s.loops[s.conns[c].loop])| ==>
               !(Todo(s.loops[s.conns[c].loop])[i].SendTask? && Todo(s.loops[s.conns[c].loop])[i].conn == c)
    ensures var s' := Put(s, c, ConnectionDestroyed(Look(s, c)));
            Almost(s', c) && TracesOf(s', c) == TracesOf(s, c) && Sound(s'.conns[c].tcp)
            && s'.conns[c].tcp.state == Disconnected && s'.conns[c].tcp.ch.index == New
            && s'.conns[c].tcp.told == s.conns[c].tcp.told && !s'.conns[c].freed
  {
    DestroyedIsSound(Look(s, c));
    PutKeepsAlmost(s, c, ConnectionDestroyed(Look(s, c)));
    PutKeepsTraces(s, c, ConnectionDestroyed(Look(s, c)), c);
  }

  lemma NoSendAfterDestroyed(s: System, l: nat, c: nat)
    requires Inv(s) && HasTask(s, l, Destroyed(c))
    ensures var ts := Todo(Popped(s, l).loops[l]);
            forall i :: 0 <= i < |ts| ==> !(ts[i].SendTask? && ts[i].conn == c)
  {
    assert LoopInv(s, l);
    PopTodo(s, l, Destroyed(c));
    var ts := Todo(Popped(s, l).loops[l]);
    forall i | 0 <= i < |ts|
      ensures !(ts[i].SendTask? && ts[i].conn == c)
    {
      assert Todo(s.loops[l])[i + 1] == ts[i] && Todo(s.loops[l])[0] == Destroyed(c);
    }
  }

  lemma RunDestroyedKeeps(s: System, l: nat, c: nat)
    requires Inv(s) && HasTask(s, l, Destroyed(c))
    ensures Valid(s, c) && Inv(Put(Popped(s, l), c, ConnectionDestroyed(Look(Popped(s, l), c))))
  {
    var s1 := Popped(s, l);
    ArrivedDestroyed(s, l, c);
    NoSendAfterDestroyed(s, l, c);
    assert LoopInv(s, l);
    DestroyedPut(s1, c);
    Land(Put(s1, c, ConnectionDestroyed(Look(s1, c))), c, Gone);
  }

  lemma RunNoticeKeeps(s: System, l: nat, task: Task<nat>)
    requires Inv(s) && HasTask(s, l, task) && (task.WriteComplete? || task.HighWater?)
    ensures Inv(Popped(s, l))
  {
    PopKeepsAlmost(s, l, task);
    PopTraces(s, l, task, task.conn);
    assert ConnInv(s, task.conn);
    assert ConnInv(Popped(s, l), task.conn);
  }

  lemma ArrivedSend(s: System, l: nat, c: nat, m: Message)
    requires Inv(s) && HasTask(s, l, SendTask(c, m))
    ensures Valid(s, c) && Inv(Popped(s, l)) && !s.conns[c].freed && s.conns[c].tcp.state != Connecting
  {
    PopKeepsAlmost(s, l, SendTask(c, m));
    PopTraces(s, l, SendTask(c, m), c);
    assert ConnInv(s, c);
    assert ConnInv(Popped(s, l), c);
  }

  lemma RunSendKeeps(s: System, l: nat, c: nat, m: Message, k: WriteResult)
    requires Inv(s) && HasTask(s, l, SendTask(c, m)) && LegalSend(m, k)
    ensures Valid(s, c) && Inv(Put(Popped(s, l), c, SendInLoop(Look(Popped(s, l), c), m, k)))
  {
    var s1 := Popped(s, l);
    ArrivedSend(s, l, c, m);
    InvIsAlmost(s1, c);
    assert ConnInv(s1, c);
    SendIsSound(Look(s1, c), m, k);
    if s.conns[c].tcp.state == Disconnected {
      SendKeepsIndex(s1, c, m, k);
    }
    PutKeepsInv(s1, c, SendInLoop(Look(s1, c), m, k));
  }

  lemma SendKeepsIndex(s: System, c: nat, m: Message, k: WriteResult)
    requires Inv(s) && Valid(s, c) && LegalSend(m, k) && s.conns[c].tcp.state == Disconnected
    ensures SendInLoop(Look(s, c), m, k) == Look(s, c)
  {
  }

  lemma RunTaskKeeps(s: System, l: nat, k: WriteResult)
    requires Inv(s) && HasNext(s, l) && TaskEnabled(s, l, NextTask(s, l), k)
    ensures TaskEnabled(Popped(s, l), l, NextTask(s, l), k)
    ensures Inv(Execute(Popped(s, l), l, NextTask(s, l), k))
  {
    match NextTask(s, l)
    case Established(c) => RunEstablishedKeeps(s, l, c);
    case RemoveInLoop(c) => RunRemoveKeeps(s, l, c);
    case Destroyed(c) => RunDestroyedKeeps(s, l, c);
    case SendTask(c, m) => RunSendKeeps(s, l, c, m, k);
    case _ => RunNoticeKeeps(s, l, NextTask(s, l));
  }

  // ----- the user

  lemma LocalSendKeeps(s: System, c: nat, m: Message, k: WriteResult)
    requires Inv(s) && OnLoop(s, c) && LegalSend(m, k)
    ensures Inv(Put(s, c, Send(Look(s, c), m, k)))
  {
    assert ConnInv(s, c);
    InvIsAlmost(s, c);
    if s.conns[c].tcp.state == Connected {
      SendIsSound(Look(s, c), m, k);
    }
    PutKeepsInv(s, c, Send(Look(s, c), m, k));
  }

  lemma LocalShutdownKeeps(s: System, c: nat)
    requires Inv(s) && OnLoop(s, c)
    ensures Inv(Put(s, c, Shutdown(Look(s, c))))
  {
    assert ConnInv(s, c);
    InvIsAlmost(s, c);
    ShutdownIsSound(Look(s, c));
    PutKeepsInv(s, c, Shutdown(Look(s, c)));
  }

  lemma RemoteSendKeeps(s: System, c: nat, m: Message)
    requires Inv(s) && Valid(s, c) && !s.conns[c].freed && s.conns[c].tcp.state == Connected
    ensures Inv(Queue(s, s.conns[c].loop, SendTask(c, m)))
  {
    var l := s.conns[c].loop;
    UpIsOpen(s, c);
    InvIsAlmost(s, c);
    OccursIff(Todo(s.loops[l]), Destroyed(c));
    QueueKeepsAlmost(s, l, SendTask(c, m));
    QueueTraces(s, l, SendTask(c, m), c);
    assert ConnInv(s, c);
    assert ConnInv(Queue(s, l, SendTask(c, m)), c);
  }

  lemma HeldKeeps(s: System, held: set<nat>)
    requires Inv(s)
    ensures Inv(s.(held := held))
  {
    var s' := s.(held := held);
    forall c | 0 <= c < |s.conns|
      ensures ConnInv(s', c)
    {
      assert ConnInv(s, c);
      assert TracesOf(s', c) == TracesOf(s, c);
    }
    forall l | 0 <= l < |s.loops|
      ensures LoopInv(s', l)
    {
      assert LoopInv(s, l);
      SameButTables(s, s', l);
    }
  }

  // ----- a new connection, and the end of an old one

  lemma NobodyKnows(s: System, l: nat, task: Task<nat>)
    requires Inv(s) && l < |s.loops| && task.conn >= |s.conns|
    ensures CountOf(s.loops[l], task) == 0
    ensures s.loops[l].closing != Some(task.conn)
  {
    assert LoopInv(s, l);
    OccursIff(Todo(s.loops[l]), task);
    assert forall i :: 0 <= i < |Todo(s.loops[l])| ==> TaskFits(s, l, Todo(s.loops[l])[i]);
  }

  ghost predicate FdIsFree(s: System, fd: int) {
    forall l :: 0 <= l < |s.loops| ==> fd !in s.loops[l].poller.channels && fd !in s.loops[l].poller.kernel
  }

  /** The descriptor of a new connection is unknown to every poller: the old connection that had it
      was freed, so nothing held it, so it had been destroyed and its channel removed. */
  lemma OpenFdsAreFree(s: System, fd: int)
    requires Inv(s) && fd !in OpenFds(s)
    ensures FdIsFree(s, fd)
  {
    forall l | 0 <= l < |s.loops|
      ensures fd !in s.loops[l].poller.channels && fd !in s.loops[l].poller.kernel
    {
      assert LoopInv(s, l);
      assert forall c :: 0 <= c < |s.conns| && !s.conns[c].freed ==> s.conns[c].tcp.ch.fd in OpenFds(s);
      if fd in s.loops[l].poller.channels {
        var c := s.loops[l].poller.channels[fd];
        assert OwnerFits(s, l, fd, c);
        RegisteredIsAlive(s, c);
      }
    }
  }

  lemma CreateKeepsShape(s: System, fd: int, mark: nat, wc: bool, hw: bool)
    requires Inv(s) && CanCreate(s, fd)
    ensures Shape(Create(s, fd, mark, wc, hw))
  {
    var s' := Create(s, fd, mark, wc, hw);
    forall c | 0 <= c < |s.conns| && !s.conns[c].freed
      ensures s.conns[c].tcp.ch.fd != fd
    {
      assert s.conns[c].tcp.ch.fd in OpenFds(s);
    }
    forall c, d | 0 <= c < d < |s'.conns| && !s'.conns[c].freed && !s'.conns[d].freed
      ensures s'.conns[c].tcp.ch.fd != s'.conns[d].tcp.ch.fd
    {
      assert s'.conns[c] == s.conns[c];
      assert d < |s.conns| ==> s'.conns[d] == s.conns[d];
    }
    forall name | name in s'.connections
      ensures s'.connections[name] < |s'.conns| && s'.conns[s'.connections[name]].name == name
    {
      assert name != ConnName(s.prefix, s.nextConnId) ==> name in s.connections;
    }
  }

  lemma CreateKeepsOld(s: System, fd: int, mark: nat, wc: bool, hw: bool, d: nat)
    requires Inv(s) && CanCreate(s, fd) && d < |s.conns|
    ensures Valid(Create(s, fd, mark, wc, hw), d) && ConnInv(Create(s, fd, mark, wc, hw), d)
  {
    NamesAreUnique(s.prefix, d + 1, s.nextConnId);
    assert ConnInv(s, d);
    assert TracesOf(Create(s, fd, mark, wc, hw), d) == TracesOf(s, d);
  }

  lemma CreateKeepsLoop(s: System, fd: int, mark: nat, wc: bool, hw: bool, l: nat)
    requires Inv(s) && CanCreate(s, fd) && l < |s.loops|
    ensures LoopInv(Create(s, fd, mark, wc, hw), l)
  {
    var s' := Create(s, fd, mark, wc, hw);
    assert LoopInv(s, l);
    forall i | 0 <= i < |Todo(s.loops[l])|
      ensures TaskFits(s', l, Todo(s.loops[l])[i])
    {
      assert TaskFits(s, l, Todo(s.loops[l])[i]);
    }
    forall i | 0 <= i < |s.loops[l].active|
      ensures ReadyFits(s', l, s.loops[l].active[i], i == 0)
    {
      assert ReadyFits(s, l, s.loops[l].active[i], i == 0);
    }
    forall f | f in s.loops[l].poller.channels
      ensures OwnerFits(s', l, f, s.loops[l].poller.channels[f])
    {
      assert OwnerFits(s, l, f, s.loops[l].poller.channels[f]);
    }
  }

  // The new connection, before anything has happened to it.
  lemma CreatedStartsOut(s: System, fd: int, mark: nat, wc: bool, hw: bool)
    requires Inv(s) && CanCreate(s, fd)
    ensures var s', c := Create(s, fd, mark, wc, hw), |s.conns|;
            Valid(s', c) && TracesOf(s', c) == TracesFor(Open)
            && s'.conns[c].tcp == NewTcp(c, fd, mark, wc, hw) && !s'.conns[c].freed
            && Agrees(s'.loops[s'.conns[c].loop].poller, s'.conns[c].tcp.ch)
  {
    var s', c := Create(s, fd, mark, wc, hw), |s.conns|;
    var l := s'.conns[c].loop;
    OpenFdsAreFree(s, fd);
    NobodyKnows(s, l, Established(c));
    NobodyKnows(s, 0, RemoveInLoop(c));
    NobodyKnows(s, l, Destroyed(c));
  }

  lemma CreateIsAlmost(s: System, fd: int, mark: nat, wc: bool, hw: bool)
    requires Inv(s) && CanCreate(s, fd)
    ensures var s' := Create(s, fd, mark, wc, hw);
            var c := |s.conns|;
            Almost(s', c) && TracesOf(s', c) == TracesFor(Open)
            && s'.conns[c].tcp == NewTcp(c, fd, mark, wc, hw) && !s'.conns[c].freed
  {
    var s', c := Create(s, fd, mark, wc, hw), |s.conns|;
    CreateKeepsShape(s, fd, mark, wc, hw);
    CreatedStartsOut(s, fd, mark, wc, hw);
    forall d | 0 <= d < |s'.conns| && d != c
      ensures ConnInv(s', d)
    {
      CreateKeepsOld(s, fd, mark, wc, hw, d);
    }
    forall m | 0 <= m < |s'.loops|
      ensures LoopInv(s', m)
    {
      CreateKeepsLoop(s, fd, mark, wc, hw, m);
    }
  }

  lemma AcceptKeeps(s: System, fd: int, mark: nat, wc: bool, hw: bool)
    requires Inv(s) && CanCreate(s, fd)
    ensures Inv(Accepting(s, fd, mark, wc, hw))
  {
    var s1, c := Create(s, fd, mark, wc, hw), |s.conns|;
    CreateIsAlmost(s, fd, mark, wc, hw);
    var l := s1.conns[c].loop;
    if l == 0 {
      EstablishedPut(s1, c);
      Land(Put(s1, c, ConnectionEstablished(Look(s1, c))), c, Open);
    } else {
      QueueKeepsAlmost(s1, l, Established(c));
      QueueTraces(s1, l, Established(c), c);
      Land(Queue(s1, l, Established(c)), c, Phase.Accepted);
    }
  }

  lemma DestroyTaskHolds(lp: Loop, c: nat)
    requires CountOf(lp, Destroyed(c)) > 0
    ensures LoopHolds(lp, c)
  {
    OccursIff(Todo(lp), Destroyed(c));
    var i :| 0 <= i < |Todo(lp)| && Todo(lp)[i] == Destroyed(c);
    var waiting := if lp.next <= |lp.batch| then |lp.batch| - lp.next else 0;
    if i < waiting {
      assert TaskHolds(lp.batch[lp.next + i], c);
    } else {
      assert TaskHolds(lp.pending[i - waiting], c);
    }
  }

  /** A connection not yet destroyed has a strong reference: the server's table or the queued task. */
  lemma ReferencedUntilGone(s: System, c: nat)
    requires Inv(s) && c < |s.conns|
    ensures PhaseOf(s.conns[c].tcp, TracesOf(s, c)) != Gone ==> Referenced(s, c)
  {
    assert ConnInv(s, c);
    if Linked(s, c) {
      assert s.connections[s.conns[c].name] == c;
    } else if PhaseOf(s.conns[c].tcp, TracesOf(s, c)) == Destroying {
      DestroyTaskHolds(s.loops[s.conns[c].loop], c);
    }
  }

  lemma FreeKeeps(s: System, c: nat)
    requires Inv(s) && CanFree(s, c)
    ensures Inv(Freed(s, c))
  {
    ReferencedUntilGone(s, c);
    var s' := Freed(s, c);
    forall d | 0 <= d < |s'.conns|
      ensures ConnInv(s', d)
    {
      assert ConnInv(s, d);
      assert TracesOf(s', d) == TracesOf(s, d);
    }
    forall l | 0 <= l < |s'.loops|
      ensures LoopInv(s', l)
    {
      assert LoopInv(s, l);
      FreeKeepsLoop(s, c, l);
    }
  }

  lemma FreeKeepsLoop(s: System, c: nat, l: nat)
    requires Inv(s) && CanFree(s, c) && l < |s.loops|
    ensures LoopInv(Freed(s, c), l)
  {
    var s' := Freed(s, c);
    assert LoopInv(s, l);
    forall i | 0 <= i < |Todo(s.loops[l])|
      ensures TaskFits(s', l, Todo(s.loops[l])[i])
    {
      assert TaskFits(s, l, Todo(s.loops[l])[i]);
    }
    forall i | 0 <= i < |s.loops[l].active|
      ensures ReadyFits(s', l, s.loops[l].active[i], i == 0)
    {
      assert ReadyFits(s, l, s.loops[l].active[i], i == 0);
    }
    forall f | f in s.loops[l].poller.channels
      ensures OwnerFits(s', l, f, s.loops[l].poller.channels[f])
    {
      assert OwnerFits(s, l, f, s.loops[l].poller.channels[f]);
    }
  }

  lemma StepKeepsInv(s: System, a: Action)
    requires Inv(s) && Enabled(s, a)
    ensures Inv(Next(s, a))
  {
    match a
    case PollReturn(l, events) => PollReturnKeeps(s, l, events);
    case Accept(fd, mark, wc, hw) => AcceptKeeps(s, fd, mark, wc, hw);
    case HandleHup(l) => HandleHupKeeps(s, l);
    case HandleIn(l, r) => HandleInKeeps(s, l, r);
    case HandleOut(l, k) => HandleOutKeeps(s, l, k);
    case FinishClose(l) => FinishCloseKeeps(s, l);
    case StartTasks(l) => StartTasksKeeps(s, l);
    case RunTask(l, k) => RunTaskKeeps(s, l, k);
    case EndTasks(l) => EndTasksKeeps(s, l);
    case LocalSend(c, m, k) => LocalSendKeeps(s, c, m, k);
    case LocalShutdown(c) => LocalShutdownKeeps(s, c);
    case RemoteSend(c, m) => RemoteSendKeeps(s, c, m);
    case Hold(c) => HeldKeeps(s, s.held + {c});
    case Drop(c) => HeldKeeps(s, s.held - {c});
    case Free(c) => FreeKeeps(s, c);
  }
}
