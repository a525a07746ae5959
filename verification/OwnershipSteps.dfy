/** What the ingredients of a server action do to the ownership invariant: a handler of one connection,
    a move of a loop's own control, a functor queued, a functor taken off the batch. */
module OwnershipSteps {
  import opened PollerSpec
  import opened TcpSpec
  import opened ServerSpec
  import opened Wrappers
  import opened OwnershipInvariant

  // ----- queues

  predicate IsNotice(task: Task<nat>, c: nat) {
    task == WriteComplete(c) || (task.HighWater? && task.conn == c)
  }

  predicate Notices(tasks: seq<Task<nat>>, c: nat) {
    forall i :: 0 <= i < |tasks| ==> IsNotice(tasks[i], c)
  }

  lemma TodoGrows(lp: Loop, more: seq<Task<nat>>)
    ensures Todo(lp.(pending := lp.pending + more)) == Todo(lp) + more
  {
  }

  lemma NoticesDontCount(lp: Loop, more: seq<Task<nat>>, c: nat, task: Task<nat>)
    requires Notices(more, c) && (task.Established? || task.RemoveInLoop? || task.Destroyed?)
    ensures CountOf(lp.(pending := lp.pending + more), task) == CountOf(lp, task)
  {
    TodoGrows(lp, more);
    OccurrencesJoin(Todo(lp), more, task);
    OccursIff(more, task);
  }

  // ----- a handler of connection c: Put with a local change

  function NewTasks(s: System, c: nat, v: View<nat>): seq<Task<nat>>
    requires Valid(s, c)
  {
    var q := Look(s, c).queue;
    if |q| <= |v.queue| then v.queue[|q|..] else []
  }

  // The invariant, but for where connection c is in its life.
  ghost predicate Almost(s: System, c: nat) {
    && Shape(s)
    && Valid(s, c) && s.conns[c].tcp.ch.self == c
    && (!s.conns[c].freed ==> Agrees(s.loops[s.conns[c].loop].poller, s.conns[c].tcp.ch))
    && (forall d :: 0 <= d < |s.conns| && d != c ==> ConnInv(s, d))
    && (forall l :: 0 <= l < |s.loops| ==> LoopInv(s, l))
  }

  lemma InvIsAlmost(s: System, c: nat)
    requires Inv(s) && c < |s.conns|
    ensures Almost(s, c)
  {
    assert ConnInv(s, c);
  }

  ghost predicate PutOk(s: System, c: nat, v: View<nat>) {
    Almost(s, c) && !s.conns[c].freed && Local(Look(s, c), v)
  }

  lemma PutQueue(s: System, c: nat, v: View<nat>)
    requires PutOk(s, c, v)
    ensures Notices(NewTasks(s, c, v), c)
    ensures v.queue == Look(s, c).queue + NewTasks(s, c, v)
    ensures Todo(Put(s, c, v).loops[s.conns[c].loop]) == Todo(s.loops[s.conns[c].loop]) + NewTasks(s, c, v)
  {
    var q := Look(s, c).queue;
    assert v.queue == v.queue[..|q|] + v.queue[|q|..];
    TodoGrows(s.loops[s.conns[c].loop], NewTasks(s, c, v));
  }

  lemma PutKeepsTraces(s: System, c: nat, v: View<nat>, d: nat)
    requires PutOk(s, c, v) && Valid(s, d)
    ensures TracesOf(Put(s, c, v), d) == TracesOf(s, d)
  {
    PutQueue(s, c, v);
    var lp := s.loops[s.conns[c].loop];
    NoticesDontCount(lp, NewTasks(s, c, v), c, Established(d));
    NoticesDontCount(lp, NewTasks(s, c, v), c, RemoveInLoop(d));
    NoticesDontCount(lp, NewTasks(s, c, v), c, Destroyed(d));
  }

  lemma PutKeepsOther(s: System, c: nat, v: View<nat>, d: nat)
    requires PutOk(s, c, v) && d < |s.conns| && d != c
    ensures ConnInv(Put(s, c, v), d)
  {
    assert ConnInv(s, d);
    PutKeepsTraces(s, c, v, d);
    if !s.conns[d].freed && s.conns[d].loop == s.conns[c].loop {
      OthersAgree(Look(s, c).poller, v.poller, s.conns[c].tcp.ch.fd, s.conns[d].tcp.ch);
    }
  }

  lemma PutKeepsPoller(s: System, c: nat, v: View<nat>, l: nat)
    requires PutOk(s, c, v) && l < |s.loops|
    ensures PollerInv(Put(s, c, v), l)
  {
    var s' := Put(s, c, v);
    assert LoopInv(s, l);
    var p, p', fd0 := s.loops[l].poller, s'.loops[l].poller, s.conns[c].tcp.ch.fd;
    if l == s.conns[c].loop {
      forall fd | fd in p'.channels
        ensures OwnerFits(s', l, fd, p'.channels[fd])
      {
        if fd != fd0 {
          assert fd in p'.channels - {fd0} && fd in p.channels - {fd0};
          assert (p'.channels - {fd0})[fd] == (p.channels - {fd0})[fd];
          assert OwnerFits(s, l, fd, p.channels[fd]);
        }
      }
      forall fd | fd in p'.kernel
        ensures fd in p'.channels && p'.kernel[fd].channel == p'.channels[fd]
                && s'.conns[p'.channels[fd]].tcp.ch.index == Added
                && p'.kernel[fd].events == s'.conns[p'.channels[fd]].tcp.ch.events
      {
        if fd != fd0 {
          assert fd in p'.kernel - {fd0} && fd in p.kernel - {fd0};
          assert (p'.kernel - {fd0})[fd] == (p.kernel - {fd0})[fd];
          assert OwnerFits(s, l, fd, p.channels[fd]);
          assert fd in p.channels - {fd0} && fd in p'.channels - {fd0};
          assert (p'.channels - {fd0})[fd] == (p.channels - {fd0})[fd];
        }
      }
    } else {
      forall fd | fd in p.channels
        ensures OwnerFits(s', l, fd, p.channels[fd]) && p.channels[fd] != c
      {
        assert OwnerFits(s, l, fd, p.channels[fd]);
      }
    }
  }

  // A change of c that no waiting sendInLoop of c minds.
  predicate SendsStayFit(t: Tcp<nat>, t': Tcp<nat>) {
    && (t.state != Connecting ==> t'.state != Connecting)
    && ((t.state == Disconnected ==> Registered(t)) ==> (t'.state == Disconnected ==> Registered(t')))
  }

  lemma PutKeepsTodo(s: System, c: nat, v: View<nat>, l: nat)
    requires PutOk(s, c, v) && l < |s.loops|
    requires SendsStayFit(s.conns[c].tcp, v.tcp)
             || forall i :: 0 <= i < |Todo(s.loops[l])| ==> !(Todo(s.loops[l])[i].SendTask? && Todo(s.loops[l])[i].conn == c)
    ensures TodoInv(Put(s, c, v), l)
  {
    var s' := Put(s, c, v);
    assert LoopInv(s, l);
    PutQueue(s, c, v);
    var ts, ts' := Todo(s.loops[l]), Todo(s'.loops[l]);
    forall i | 0 <= i < |ts'|
      ensures TaskFits(s', l, ts'[i])
      ensures i >= |ts| ==> !ts'[i].SendTask? && !ts'[i].Destroyed?
    {
      if i < |ts| {
        assert ts'[i] == ts[i] && TaskFits(s, l, ts[i]);
      } else {
        assert IsNotice(ts'[i], c);
      }
    }
  }

  lemma PutKeepsActive(s: System, c: nat, v: View<nat>, l: nat)
    requires PutOk(s, c, v) && l < |s.loops|
    requires forall i :: 0 <= i < |s.loops[l].active| && s.loops[l].active[i].conn == c ==>
               ReadyFits(Put(s, c, v), l, s.loops[l].active[i], i == 0)
    ensures ActiveInv(Put(s, c, v), l)
  {
    var s' := Put(s, c, v);
    assert LoopInv(s, l);
    forall i | 0 <= i < |s.loops[l].active|
      ensures ReadyFits(s', l, s.loops[l].active[i], i == 0)
    {
      assert ReadyFits(s, l, s.loops[l].active[i], i == 0);
    }
  }

  lemma PutKeepsShape(s: System, c: nat, v: View<nat>)
    requires PutOk(s, c, v)
    ensures Shape(Put(s, c, v))
  {
  }

  lemma PutKeepsAlmost(s: System, c: nat, v: View<nat>)
    requires PutOk(s, c, v)
    requires SendsStayFit(s.conns[c].tcp, v.tcp)
             || forall i :: 0 <= i < |Todo(s.loops[s.conns[c].loop])| ==>
                  !(Todo(s.loops[s.conns[c].loop])[i].SendTask? && Todo(s.loops[s.conns[c].loop])[i].conn == c)
    requires forall i :: 0 <= i < |s.loops[s.conns[c].loop].active| && s.loops[s.conns[c].loop].active[i].conn == c ==>
               ReadyFits(Put(s, c, v), s.conns[c].loop, s.loops[s.conns[c].loop].active[i], i == 0)
    ensures Almost(Put(s, c, v), c)
  {
    var s' := Put(s, c, v);
    PutKeepsShape(s, c, v);
    forall d | 0 <= d < |s'.conns| && d != c
      ensures ConnInv(s', d)
    {
      PutKeepsOther(s, c, v, d);
    }
    forall l | 0 <= l < |s'.loops|
      ensures LoopInv(s', l)
    {
      assert LoopInv(s, l);
      PutKeepsPoller(s, c, v, l);
      if l != s.conns[c].loop {
        assert forall i :: 0 <= i < |Todo(s.loops[l])| ==> TaskFits(s, l, Todo(s.loops[l])[i]);
        assert forall i :: 0 <= i < |s.loops[l].active| ==> ReadyFits(s, l, s.loops[l].active[i], i == 0);
      }
      PutKeepsTodo(s, c, v, l);
      PutKeepsActive(s, c, v, l);
    }
  }

  predicate BothUp(t: Tcp<nat>, t': Tcp<nat>) {
    t.state in {Connected, DisConnecting} && t'.state in {Connected, DisConnecting}
  }

  predicate SamePhase(t: Tcp<nat>, t': Tcp<nat>) {
    BothUp(t, t') || (t'.state == t.state && t'.ch.index == t.ch.index)
  }

  /** A handler that neither opens nor closes the connection. */
  lemma PutKeepsInv(s: System, c: nat, v: View<nat>)
    requires Inv(s) && PutOk(s, c, v) && Sound(v.tcp)
    requires SamePhase(s.conns[c].tcp, v.tcp)
    requires Heard(v.tcp.told, PhaseOf(s.conns[c].tcp, TracesOf(s, c)))
    ensures Inv(Put(s, c, v))
  {
    assert ConnInv(s, c);
    var l := s.conns[c].loop;
    forall i | 0 <= i < |s.loops[l].active| && s.loops[l].active[i].conn == c
      ensures ReadyFits(Put(s, c, v), l, s.loops[l].active[i], i == 0)
    {
      assert LoopInv(s, l) && ReadyFits(s, l, s.loops[l].active[i], i == 0);
    }
    PutKeepsAlmost(s, c, v);
    PutKeepsTraces(s, c, v, c);
    assert PhaseOf(v.tcp, TracesOf(s, c)) == PhaseOf(s.conns[c].tcp, TracesOf(s, c));
  }

  // ----- steps that only move a loop's own control

  lemma ControlKeepsConn(s: System, l: nat, lp: Loop, c: nat)
    requires Valid(s, c) && l < |s.loops| && ConnInv(s, c)
    requires lp.poller == s.loops[l].poller
    requires TracesOf(SetLoop(s, l, lp), c) == TracesOf(s, c)
    ensures ConnInv(SetLoop(s, l, lp), c)
  {
    assert SetLoop(s, l, lp).loops[s.conns[c].loop].poller == s.loops[s.conns[c].loop].poller;
  }

  lemma SameTodoSameTraces(s: System, l: nat, lp: Loop, c: nat)
    requires Valid(s, c) && l < |s.loops|
    requires Todo(lp) == Todo(s.loops[l]) && lp.closing == s.loops[l].closing
    ensures TracesOf(SetLoop(s, l, lp), c) == TracesOf(s, c)
  {
  }

  lemma ControlKeepsOthers(s: System, l: nat, lp: Loop, m: nat)
    requires Shape(s) && l < |s.loops| && m < |s.loops| && m != l && LoopInv(s, m)
    ensures LoopInv(SetLoop(s, l, lp), m)
  {
    var s' := SetLoop(s, l, lp);
    forall i | 0 <= i < |Todo(s.loops[m])|
      ensures TaskFits(s', m, Todo(s.loops[m])[i])
    {
      assert TaskFits(s, m, Todo(s.loops[m])[i]);
    }
    forall i | 0 <= i < |s.loops[m].active|
      ensures ReadyFits(s', m, s.loops[m].active[i], i == 0)
    {
      assert ReadyFits(s, m, s.loops[m].active[i], i == 0);
    }
    forall fd | fd in s.loops[m].poller.channels
      ensures OwnerFits(s', m, fd, s.loops[m].poller.channels[fd])
    {
      assert OwnerFits(s, m, fd, s.loops[m].poller.channels[fd]);
    }
  }

  lemma SamePollerKept(s: System, l: nat, lp: Loop)
    requires Shape(s) && l < |s.loops| && PollerInv(s, l) && lp.poller == s.loops[l].poller
    ensures PollerInv(SetLoop(s, l, lp), l)
  {
    forall fd | fd in lp.poller.channels
      ensures OwnerFits(SetLoop(s, l, lp), l, fd, lp.poller.channels[fd])
    {
      assert OwnerFits(s, l, fd, lp.poller.channels[fd]);
    }
  }

  // A step of one loop's control keeps the invariant if it keeps the loop's own part of it.
  lemma ControlKeepsInv(s: System, l: nat, lp: Loop)
    requires Inv(s) && l < |s.loops|
    requires lp.poller == s.loops[l].poller && lp.closing == s.loops[l].closing
    requires Todo(lp) == Todo(s.loops[l])
    requires TodoInv(SetLoop(s, l, lp), l) && ActiveInv(SetLoop(s, l, lp), l)
    ensures Inv(SetLoop(s, l, lp))
  {
    forall c | 0 <= c < |s.conns|
      ensures ConnInv(SetLoop(s, l, lp), c)
    {
      assert ConnInv(s, c);
      SameTodoSameTraces(s, l, lp, c);
      ControlKeepsConn(s, l, lp, c);
    }
    assert LoopInv(s, l);
    SamePollerKept(s, l, lp);
    forall m | 0 <= m < |s.loops|
      ensures LoopInv(SetLoop(s, l, lp), m)
    {
      assert LoopInv(s, m);
      if m != l {
        ControlKeepsOthers(s, l, lp, m);
      }
    }
  }

  lemma SameTodoKept(s: System, l: nat, lp: Loop)
    requires Inv(s) && l < |s.loops|
    requires Todo(lp) == Todo(s.loops[l]) && lp.next <= |lp.batch|
    requires lp.at != RunningTasks ==> lp.batch == [] && lp.next == 0
    ensures TodoInv(SetLoop(s, l, lp), l)
  {
    assert LoopInv(s, l);
    forall i | 0 <= i < |Todo(lp)|
      ensures TaskFits(SetLoop(s, l, lp), l, Todo(lp)[i])
    {
      assert TaskFits(s, l, Todo(s.loops[l])[i]);
    }
  }

  lemma ReportedIsUp(s: System, l: nat, events: seq<Event>, i: nat)
    requires Inv(s) && CanPoll(s, l, events) && i < |events|
    ensures var c := FillActive(s.loops[l].poller, events)[i].conn;
            Valid(s, c) && s.conns[c].loop == l && s.conns[c].tcp.ch.fd == events[i].fd
            && Registered(s.conns[c].tcp) && s.conns[c].tcp.state in {Connected, DisConnecting}
  {
    var p, fd := s.loops[l].poller, events[i].fd;
    assert LoopInv(s, l);
    assert fd in p.kernel && OwnerFits(s, l, fd, p.channels[fd]);
    assert ConnInv(s, p.channels[fd]);
  }

  lemma PollReturnKeeps(s: System, l: nat, events: seq<Event>)
    requires Inv(s) && CanPoll(s, l, events)
    ensures Inv(Polled(s, l, events))
  {
    var active := FillActive(s.loops[l].poller, events);
    var lp := s.loops[l].(at := Dispatching, stage := AtHup, active := active);
    assert LoopInv(s, l);
    SameTodoKept(s, l, lp);
    forall i | 0 <= i < |active|
      ensures ReadyFits(SetLoop(s, l, lp), l, active[i], i == 0)
    {
      ReportedIsUp(s, l, events, i);
    }
    forall i, j | 0 <= i < j < |active|
      ensures active[i].conn != active[j].conn
    {
      ReportedIsUp(s, l, events, i);
      ReportedIsUp(s, l, events, j);
    }
    ControlKeepsInv(s, l, lp);
  }

  lemma StartTasksKeeps(s: System, l: nat)
    requires Inv(s) && CanStart(s, l)
    ensures Inv(TasksStarted(s, l))
  {
    var lp := s.loops[l].(at := RunningTasks, batch := s.loops[l].pending, pending := [], next := 0);
    assert LoopInv(s, l);
    assert Todo(lp) == Todo(s.loops[l]);
    SameTodoKept(s, l, lp);
    ControlKeepsInv(s, l, lp);
  }

  lemma EndTasksKeeps(s: System, l: nat)
    requires Inv(s) && CanEnd(s, l)
    ensures Inv(TasksEnded(s, l))
  {
    var lp := s.loops[l].(at := Polling, batch := [], next := 0);
    assert LoopInv(s, l);
    assert Todo(lp) == Todo(s.loops[l]);
    SameTodoKept(s, l, lp);
    ControlKeepsInv(s, l, lp);
  }

  // Moving on to a later stage of the current channel.
  lemma StageKeeps(s: System, l: nat, stage: Stage)
    requires Inv(s) && l < |s.loops| && s.loops[l].active != [] && stage != AtHup
    requires Valid(s, s.loops[l].active[0].conn)
    requires stage == AtIn && s.loops[l].active[0].input ==> s.conns[s.loops[l].active[0].conn].tcp.state in {Connected, DisConnecting}
    ensures Inv(AtStage(s, l, stage))
  {
    var lp := s.loops[l].(stage := stage);
    assert LoopInv(s, l);
    assert Todo(lp) == Todo(s.loops[l]);
    SameTodoKept(s, l, lp);
    forall i | 0 <= i < |lp.active|
      ensures ReadyFits(SetLoop(s, l, lp), l, lp.active[i], i == 0)
    {
      assert ReadyFits(s, l, s.loops[l].active[i], i == 0);
    }
    ControlKeepsInv(s, l, lp);
  }

  lemma NextChannelKeeps(s: System, l: nat)
    requires Inv(s) && l < |s.loops| && s.loops[l].active != []
    ensures Inv(NextChannel(s, l))
  {
    var lp := s.loops[l].(stage := AtHup, active := s.loops[l].active[1..]);
    assert LoopInv(s, l);
    assert Todo(lp) == Todo(s.loops[l]);
    SameTodoKept(s, l, lp);
    forall i | 0 <= i < |lp.active|
      ensures ReadyFits(SetLoop(s, l, lp), l, lp.active[i], i == 0)
    {
      assert ReadyFits(s, l, s.loops[l].active[i + 1], false);
    }
    ControlKeepsInv(s, l, lp);
  }

  // ----- queueing a task, taking one, and closing

  lemma PushCount(lp: Loop, task: Task<nat>, t: Task<nat>)
    ensures CountOf(lp.(pending := lp.pending + [task]), t) == CountOf(lp, t) + (if t == task then 1 else 0)
  {
    TodoGrows(lp, [task]);
    OccurrencesJoin(Todo(lp), [task], t);
  }

  // The traces of connection d with one more task in loop l's queue.
  function WithTask(t: Traces, task: Task<nat>, d: nat, home: bool, base: bool): Traces {
    t.(established := t.established + (if home && task == Established(d) then 1 else 0),
       removing := t.removing + (if base && task == RemoveInLoop(d) then 1 else 0),
       destroying := t.destroying + (if home && task == Destroyed(d) then 1 else 0))
  }

  lemma QueueTraces(s: System, l: nat, task: Task<nat>, d: nat)
    requires Valid(s, d) && l < |s.loops|
    ensures TracesOf(Queue(s, l, task), d) == WithTask(TracesOf(s, d), task, d, l == s.conns[d].loop, l == 0)
  {
    PushCount(s.loops[l], task, Established(d));
    PushCount(s.loops[l], task, RemoveInLoop(d));
    PushCount(s.loops[l], task, Destroyed(d));
  }

  lemma QueueKeepsAlmost(s: System, l: nat, task: Task<nat>)
    requires Almost(s, task.conn) && l < |s.loops| && TaskFits(s, l, task)
    requires task.SendTask? ==> forall i :: 0 <= i < |Todo(s.loops[l])| ==> Todo(s.loops[l])[i] != Destroyed(task.conn)
    ensures Almost(Queue(s, l, task), task.conn)
  {
    var s' := Queue(s, l, task);
    var lp := s'.loops[l];
    TodoGrows(s.loops[l], [task]);
    forall d | 0 <= d < |s'.conns| && d != task.conn
      ensures ConnInv(s', d)
    {
      QueueTraces(s, l, task, d);
      ControlKeepsConn(s, l, lp, d);
    }
    assert LoopInv(s, l);
    QueuedTaskFits(s, l, task);
    SamePollerKept(s, l, lp);
    assert forall i :: 0 <= i < |lp.active| ==> ReadyFits(s, l, lp.active[i], i == 0) && ReadyFits(s', l, lp.active[i], i == 0);
    forall m | 0 <= m < |s'.loops|
      ensures LoopInv(s', m)
    {
      assert LoopInv(s, m);
      if m != l {
        ControlKeepsOthers(s, l, lp, m);
      }
    }
  }

  lemma QueuedTaskFits(s: System, l: nat, task: Task<nat>)
    requires l < |s.loops| && TodoInv(s, l) && TaskFits(s, l, task)
    requires task.SendTask? ==> forall i :: 0 <= i < |Todo(s.loops[l])| ==> Todo(s.loops[l])[i] != Destroyed(task.conn)
    ensures TodoInv(Queue(s, l, task), l)
  {
    var s' := Queue(s, l, task);
    var ts, ts' := Todo(s.loops[l]), Todo(s'.loops[l]);
    TodoGrows(s.loops[l], [task]);
    forall i | 0 <= i < |ts'|
      ensures TaskFits(s', l, ts'[i])
    {
      assert i < |ts| ==> TaskFits(s, l, ts[i]);
    }
    forall i, j | 0 <= i < j < |ts'| && ts'[i].Destroyed? && ts'[j].SendTask?
      ensures ts'[i].conn != ts'[j].conn
    {
      assert j == |ts| ==> ts[i] != Destroyed(task.conn);
    }
  }

  predicate HasTask(s: System, l: nat, task: Task<nat>) {
    HasNext(s, l) && NextTask(s, l) == task
  }

  lemma PopTodo(s: System, l: nat, task: Task<nat>)
    requires HasTask(s, l, task)
    ensures Todo(s.loops[l]) == [task] + Todo(Popped(s, l).loops[l])
  {
  }

  lemma PopCount(s: System, l: nat, task: Task<nat>, t: Task<nat>)
    requires HasTask(s, l, task)
    ensures CountOf(s.loops[l], t) == CountOf(Popped(s, l).loops[l], t) + (if t == task then 1 else 0)
  {
    PopTodo(s, l, task);
    OccurrencesJoin([task], Todo(Popped(s, l).loops[l]), t);
  }

  lemma PopTraces(s: System, l: nat, task: Task<nat>, d: nat)
    requires HasTask(s, l, task) && Valid(s, d)
    ensures TracesOf(s, d) == WithTask(TracesOf(Popped(s, l), d), task, d, l == s.conns[d].loop, l == 0)
  {
    PopCount(s, l, task, Established(d));
    PopCount(s, l, task, RemoveInLoop(d));
    PopCount(s, l, task, Destroyed(d));
  }

  lemma PopKeepsAlmost(s: System, l: nat, task: Task<nat>)
    requires Inv(s) && HasTask(s, l, task)
    ensures TaskFits(s, l, task) && Almost(Popped(s, l), task.conn)
  {
    var s' := Popped(s, l);
    var lp := s'.loops[l];
    assert LoopInv(s, l);
    PopTodo(s, l, task);
    assert TaskFits(s, l, Todo(s.loops[l])[0]);
    InvIsAlmost(s, task.conn);
    forall d | 0 <= d < |s'.conns| && d != task.conn
      ensures ConnInv(s', d)
    {
      PopTraces(s, l, task, d);
      ControlKeepsConn(s, l, lp, d);
    }
    PoppedTodoFits(s, l, task);
    SamePollerKept(s, l, lp);
    forall m | 0 <= m < |s'.loops|
      ensures LoopInv(s', m)
    {
      assert LoopInv(s, m);
      if m != l {
        ControlKeepsOthers(s, l, lp, m);
      }
    }
  }

  lemma PoppedTodoFits(s: System, l: nat, task: Task<nat>)
    requires HasTask(s, l, task) && TodoInv(s, l)
    ensures TodoInv(Popped(s, l), l)
  {
    var ts, ts' := Todo(s.loops[l]), Todo(Popped(s, l).loops[l]);
    PopTodo(s, l, task);
    forall i | 0 <= i < |ts'|
      ensures TaskFits(Popped(s, l), l, ts'[i])
    {
      assert ts'[i] == ts[i + 1] && TaskFits(s, l, ts[i + 1]);
    }
    forall i, j | 0 <= i < j < |ts'| && ts'[i].Destroyed? && ts'[j].SendTask?
      ensures ts'[i].conn != ts'[j].conn
    {
      assert ts'[i] == ts[i + 1] && ts'[j] == ts[j + 1];
    }
  }

  // The user's connection callback inside handlerClose begins or ends.
  function Marked(s: System, l: nat, closing: Option<nat>, stage: Stage): System
    requires l < |s.loops|
  {
    SetLoop(s, l, s.loops[l].(closing := closing, stage := stage))
  }

  lemma MarkKeepsTraces(s: System, l: nat, closing: Option<nat>, stage: Stage, d: nat)
    requires Valid(s, d) && l < |s.loops|
    ensures TracesOf(Marked(s, l, closing, stage), d)
            == if s.conns[d].loop == l then TracesOf(s, d).(closing := closing == Some(d)) else TracesOf(s, d)
  {
    assert Todo(Marked(s, l, closing, stage).loops[l]) == Todo(s.loops[l]);
  }

  lemma MarkKeepsAlmost(s: System, c: nat, closing: Option<nat>, stage: Stage)
    requires Almost(s, c)
    requires var l := s.conns[c].loop;
             && s.loops[l].at == Dispatching && (closing == None || closing == Some(c))
             && s.loops[l].closing in {None, Some(c)}
             && (stage == s.loops[l].stage
                 || (s.loops[l].active != [] && s.loops[l].active[0].conn == c && stage != AtHup
                     && (stage == AtIn ==> !s.loops[l].active[0].input)))
    ensures Almost(Marked(s, s.conns[c].loop, closing, stage), c)
  {
    var l := s.conns[c].loop;
    var s' := Marked(s, l, closing, stage);
    var lp := s'.loops[l];
    assert LoopInv(s, l);
    forall d | 0 <= d < |s'.conns| && d != c
      ensures ConnInv(s', d)
    {
      MarkKeepsTraces(s, l, closing, stage, d);
      assert ConnInv(s, d);
      ControlKeepsConn(s, l, lp, d);
    }
    MarkKeepsLoop(s, c, closing, stage);
    forall m | 0 <= m < |s'.loops|
      ensures LoopInv(s', m)
    {
      assert LoopInv(s, m);
      if m != l {
        ControlKeepsOthers(s, l, lp, m);
      }
    }
  }

  lemma MarkKeepsLoop(s: System, c: nat, closing: Option<nat>, stage: Stage)
    requires Valid(s, c) && Shape(s) && LoopInv(s, s.conns[c].loop)
    requires var l := s.conns[c].loop;
             && s.loops[l].at == Dispatching && (closing == None || closing == Some(c))
             && (stage == s.loops[l].stage
                 || (s.loops[l].active != [] && s.loops[l].active[0].conn == c && stage != AtHup
                     && (stage == AtIn ==> !s.loops[l].active[0].input)))
    ensures LoopInv(Marked(s, s.conns[c].loop, closing, stage), s.conns[c].loop)
  {
    var l := s.conns[c].loop;
    var s' := Marked(s, l, closing, stage);
    var lp := s'.loops[l];
    assert Todo(lp) == Todo(s.loops[l]);
    SamePollerKept(s, l, lp);
    forall i | 0 <= i < |Todo(lp)|
      ensures TaskFits(s', l, Todo(lp)[i])
    {
      assert TaskFits(s, l, Todo(s.loops[l])[i]);
    }
    forall i | 0 <= i < |lp.active|
      ensures ReadyFits(s', l, lp.active[i], i == 0)
    {
      assert ReadyFits(s, l, s.loops[l].active[i], i == 0);
    }
  }
}
