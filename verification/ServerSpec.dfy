/** The server and all its loops: connections are accepted on the base loop, live on an io loop, are
    unlinked on the base loop and destroyed on the io loop, in every interleaving. Loop 0 is the base
    loop; without further loops it is also the io loop of every connection. */
module ServerSpec {
  import opened PollerSpec
  import opened TcpSpec
  import opened ThreadPoolSpec
  import opened Names
  import opened Wrappers

  datatype Conn = Conn(tcp: Tcp<nat>, loop: nat, name: string, freed: bool)

  // One entry of activeChannels_: the channel and the events it is to handle.
  datatype Ready = Ready(conn: nat, hup: bool, input: bool, output: bool)

  // One epoll_event as the kernel returns it.
  datatype Event = Event(fd: int, hup: bool, input: bool, output: bool)

  datatype Place = Polling | Dispatching | RunningTasks

  // How far handleEventWithGuard has come with the first active channel.
  datatype Stage = AtHup | AtIn | AtOut

  datatype Loop = Loop(
    at: Place,
    active: seq<Ready>,
    stage: Stage,
    closing: Option<nat>,       // inside handlerClose, in the user's connection callback
    batch: seq<Task<nat>>,
    next: nat,
    pending: seq<Task<nat>>,
    poller: Poller<nat>)

  datatype System = System(
    conns: seq<Conn>,           // every connection ever created
    loops: seq<Loop>,
    connections: map<string, nat>,
    nextConnId: nat,
    pool: Pool<nat>,
    held: set<nat>,             // connections the user keeps a shared pointer to
    prefix: string,
    system: set<int>)           // open descriptors that are not connections

  function FreshLoop(): Loop { Loop(Polling, [], AtHup, None, [], 0, [], EmptyPoller()) }

  function Boot(ioLoops: nat, prefix: string, system: set<int>): System {
    System([], seq(ioLoops + 1, i => FreshLoop()), map[], 1,
           Pool(0, seq(ioLoops, i => i + 1), 0), {}, prefix, system)
  }

  // ----- looking at the system

  function Todo(lp: Loop): seq<Task<nat>> {
    (if lp.next <= |lp.batch| then lp.batch[lp.next..] else []) + lp.pending
  }

  function OpenFds(s: System): set<int> {
    s.system + set c | 0 <= c < |s.conns| && !s.conns[c].freed :: s.conns[c].tcp.ch.fd
  }

  function Linked(s: System, c: nat): bool
    requires c < |s.conns|
  {
    s.conns[c].name in s.connections && s.connections[s.conns[c].name] == c
  }

  // Whether a task of the loop keeps a shared pointer; sendInLoop is bound to the raw pointer. A
  // batch keeps its pointers until the whole pass is over.
  predicate TaskHolds(task: Task<nat>, c: nat) {
    !task.SendTask? && task.conn == c
  }

  ghost predicate LoopHolds(lp: Loop, c: nat) {
    || (exists i :: 0 <= i < |lp.batch| && TaskHolds(lp.batch[i], c))
    || (exists i :: 0 <= i < |lp.pending| && TaskHolds(lp.pending[i], c))
  }

  ghost predicate Referenced(s: System, c: nat) {
    || (exists name :: name in s.connections && s.connections[name] == c)
    || c in s.held
    || (exists l :: 0 <= l < |s.loops| && LoopHolds(s.loops[l], c))
  }

  // ----- changing the system

  predicate Valid(s: System, c: nat) { c < |s.conns| && s.conns[c].loop < |s.loops| }

  function Look(s: System, c: nat): View<nat>
    requires Valid(s, c)
  {
    var lp := s.loops[s.conns[c].loop];
    View(s.conns[c].tcp, lp.poller, lp.pending)
  }

  function Put(s: System, c: nat, v: View<nat>): System
    requires Valid(s, c)
  {
    var l := s.conns[c].loop;
    s.(conns := s.conns[c := s.conns[c].(tcp := v.tcp)],
       loops := s.loops[l := s.loops[l].(poller := v.poller, pending := v.queue)])
  }

  function Queue(s: System, l: nat, task: Task<nat>): System
    requires l < |s.loops|
  {
    s.(loops := s.loops[l := s.loops[l].(pending := s.loops[l].pending + [task])])
  }

  function SetLoop(s: System, l: nat, lp: Loop): System
    requires l < |s.loops|
  {
    s.(loops := s.loops[l := lp])
  }

  function Unlink(s: System, c: nat): System
    requires Valid(s, c)
  {
    Queue(s.(connections := s.connections - {s.conns[c].name}), s.conns[c].loop, Destroyed(c))
  }

  // TcpServer::removeConnection, called on the connection's own loop.
  function RemoveConnection(s: System, c: nat): System
    requires Valid(s, c)
  {
    if s.conns[c].loop == 0 then Unlink(s, c) else Queue(s, 0, RemoveInLoop(c))
  }

  function Create(s: System, fd: int, mark: nat, wc: bool, hw: bool): System
    requires s.pool.Ok()
  {
    var c := |s.conns|;
    var name := ConnName(s.prefix, s.nextConnId);
    s.(conns := s.conns + [Conn(NewTcp(c, fd, mark, wc, hw), s.pool.Pick(), name, false)],
       connections := s.connections[name := c], nextConnId := s.nextConnId + 1, pool := s.pool.Advance())
  }

  function StartClose(s: System, l: nat, c: nat): System
    requires Valid(s, c) && s.conns[c].loop == l
  {
    var s1 := Put(s, c, CloseBegin(Look(s, c)));
    SetLoop(s1, l, s1.loops[l].(closing := Some(c)))
  }

  datatype Action =
    | PollReturn(loop: nat, events: seq<Event>)
    | Accept(fd: int, mark: nat, wc: bool, hw: bool)
    | HandleHup(loop: nat)
    | HandleIn(loop: nat, r: ReadResult)
    | HandleOut(loop: nat, k: WriteResult)
    | FinishClose(loop: nat)
    | StartTasks(loop: nat)
    | RunTask(loop: nat, k: WriteResult)
    | EndTasks(loop: nat)
    | LocalSend(conn: nat, m: Message, k: WriteResult)
    | LocalShutdown(conn: nat)
    | RemoteSend(conn: nat, m: Message)
    | Hold(conn: nat)
    | Drop(conn: nat)
    | Free(conn: nat)

  predicate LegalEvents(p: Poller<nat>, events: seq<Event>) {
    && (forall i :: 0 <= i < |events| ==>
          events[i].fd in p.kernel
          && (events[i].input ==> p.kernel[events[i].fd].events.read)
          && (events[i].output ==> p.kernel[events[i].fd].events.write))
    && (forall i, j :: 0 <= i < j < |events| ==> events[i].fd != events[j].fd)
  }

  // fillActiveChannel: the kernel hands back the channel pointer stored with the descriptor.
  function FillActive(p: Poller<nat>, events: seq<Event>): seq<Ready>
    requires LegalEvents(p, events)
  {
    seq(|events|, i requires 0 <= i < |events| =>
      Ready(p.kernel[events[i].fd].channel, events[i].hup, events[i].input, events[i].output))
  }

  predicate InHandler(s: System, l: nat, stage: Stage) {
    && l < |s.loops|
    && s.loops[l].at == Dispatching && s.loops[l].closing == None && s.loops[l].stage == stage
    && s.loops[l].active != []
    && Valid(s, s.loops[l].active[0].conn) && s.conns[s.loops[l].active[0].conn].loop == l
  }

  predicate OnLoop(s: System, c: nat) {
    Valid(s, c) && !s.conns[c].freed && s.loops[s.conns[c].loop].at != Polling
  }

  predicate HasNext(s: System, l: nat) {
    l < |s.loops| && s.loops[l].at == RunningTasks && s.loops[l].next < |s.loops[l].batch|
  }

  function NextTask(s: System, l: nat): Task<nat>
    requires HasNext(s, l)
  {
    s.loops[l].batch[s.loops[l].next]
  }

  function Popped(s: System, l: nat): System
    requires l < |s.loops|
  {
    SetLoop(s, l, s.loops[l].(next := s.loops[l].next + 1))
  }

  predicate TaskEnabled(s: System, l: nat, task: Task<nat>, k: WriteResult) {
    && Valid(s, task.conn)
    && (if task.RemoveInLoop? then l == 0 else s.conns[task.conn].loop == l)
    && (task.SendTask? ==> LegalSend(task.message, k))
  }

  predicate CanPoll(s: System, l: nat, events: seq<Event>) {
    l < |s.loops| && s.loops[l].at == Polling && LegalEvents(s.loops[l].poller, events)
  }

  predicate CanCreate(s: System, fd: int) {
    s.pool.Ok() && s.pool.Pick() < |s.loops| && fd !in OpenFds(s)
  }

  predicate CanFinish(s: System, l: nat) {
    l < |s.loops| && s.loops[l].closing.Some? && Valid(s, s.loops[l].closing.value)
  }

  predicate CanStart(s: System, l: nat) {
    l < |s.loops| && s.loops[l].at == Dispatching && s.loops[l].active == [] && s.loops[l].closing == None
  }

  predicate CanEnd(s: System, l: nat) {
    l < |s.loops| && s.loops[l].at == RunningTasks && s.loops[l].next == |s.loops[l].batch|
  }

  ghost predicate CanFree(s: System, c: nat) {
    c < |s.conns| && !s.conns[c].freed && !Referenced(s, c)
  }

  ghost predicate Enabled(s: System, a: Action) {
    match a
    case PollReturn(l, events) => CanPoll(s, l, events)
    case Accept(fd, _, _, _) => |s.loops| > 0 && s.loops[0].at == Dispatching && fd > 0 && CanCreate(s, fd)
    case HandleHup(l) => InHandler(s, l, AtHup)
    case HandleIn(l, r) => InHandler(s, l, AtIn)
    case HandleOut(l, k) => InHandler(s, l, AtOut) && LegalDrain(s.conns[s.loops[l].active[0].conn].tcp, k)
    case FinishClose(l) => CanFinish(s, l)
    case StartTasks(l) => CanStart(s, l)
    case RunTask(l, k) => HasNext(s, l) && TaskEnabled(s, l, NextTask(s, l), k)
    case EndTasks(l) => CanEnd(s, l)
    case LocalSend(c, m, k) => OnLoop(s, c) && LegalSend(m, k)
    case LocalShutdown(c) => OnLoop(s, c)
    case RemoteSend(c, m) => Valid(s, c) && !s.conns[c].freed && s.conns[c].tcp.state == Connected
    case Hold(c) => c < |s.conns| && !s.conns[c].freed
    case Drop(c) => true
    case Free(c) => CanFree(s, c)
  }

  function Execute(s: System, l: nat, task: Task<nat>, k: WriteResult): System
    requires TaskEnabled(s, l, task, k)
  {
    var c := task.conn;
    match task
    case Established(_) => Put(s, c, ConnectionEstablished(Look(s, c)))
    case RemoveInLoop(_) => Unlink(s, c)
    case Destroyed(_) => Put(s, c, ConnectionDestroyed(Look(s, c)))
    case SendTask(_, m) => Put(s, c, SendInLoop(Look(s, c), m, k))
    case _ => s
  }

  function Polled(s: System, l: nat, events: seq<Event>): System
    requires l < |s.loops| && LegalEvents(s.loops[l].poller, events)
  {
    SetLoop(s, l, s.loops[l].(at := Dispatching, stage := AtHup,
                              active := FillActive(s.loops[l].poller, events)))
  }

  // newConnection, with the descriptor that accept() returned.
  function Accepting(s: System, fd: int, mark: nat, wc: bool, hw: bool): System
    requires CanCreate(s, fd)
  {
    var c := |s.conns|;
    var s1 := Create(s, fd, mark, wc, hw);
    if s1.conns[c].loop == 0 then Put(s1, c, ConnectionEstablished(Look(s1, c)))
    else Queue(s1, s1.conns[c].loop, Established(c))
  }

  function AtStage(s: System, l: nat, stage: Stage): System
    requires l < |s.loops|
  {
    SetLoop(s, l, s.loops[l].(stage := stage))
  }

  function HupHandled(s: System, l: nat): System
    requires InHandler(s, l, AtHup)
  {
    var r := s.loops[l].active[0];
    AtStage(if r.hup && !r.input then StartClose(s, l, r.conn) else s, l, AtIn)
  }

  function InHandled(s: System, l: nat, result: ReadResult): System
    requires InHandler(s, l, AtIn)
  {
    var r := s.loops[l].active[0];
    var s1 :=
      if !r.input || result.ReadFailed? then s
      else if result.Received? && result.chunk != [] then Put(s, r.conn, TakeInput(Look(s, r.conn), result.chunk))
      else StartClose(s, l, r.conn);
    AtStage(s1, l, AtOut)
  }

  function NextChannel(s: System, l: nat): System
    requires l < |s.loops| && s.loops[l].active != []
  {
    SetLoop(s, l, s.loops[l].(stage := AtHup, active := s.loops[l].active[1..]))
  }

  function OutHandled(s: System, l: nat, k: WriteResult): System
    requires InHandler(s, l, AtOut) && LegalDrain(s.conns[s.loops[l].active[0].conn].tcp, k)
  {
    var r := s.loops[l].active[0];
    NextChannel(if r.output then Put(s, r.conn, HandleWrite(Look(s, r.conn), k)) else s, l)
  }

  function CloseFinished(s: System, l: nat): System
    requires CanFinish(s, l)
  {
    var c := s.loops[l].closing.value;
    var s1 := Put(s, c, CloseEnd(Look(s, c)));
    RemoveConnection(SetLoop(s1, l, s1.loops[l].(closing := None)), c)
  }

  function TasksStarted(s: System, l: nat): System
    requires l < |s.loops|
  {
    SetLoop(s, l, s.loops[l].(at := RunningTasks, batch := s.loops[l].pending, pending := [], next := 0))
  }

  function TasksEnded(s: System, l: nat): System
    requires l < |s.loops|
  {
    SetLoop(s, l, s.loops[l].(at := Polling, batch := [], next := 0))
  }

  function Freed(s: System, c: nat): System
    requires c < |s.conns|
  {
    s.(conns := s.conns[c := s.conns[c].(freed := true)])
  }

  ghost function Next(s: System, a: Action): System
    requires Enabled(s, a)
  {
    match a
    case PollReturn(l, events) => Polled(s, l, events)
    case Accept(fd, mark, wc, hw) => Accepting(s, fd, mark, wc, hw)
    case HandleHup(l) => HupHandled(s, l)
    case HandleIn(l, r) => InHandled(s, l, r)
    case HandleOut(l, k) => OutHandled(s, l, k)
    case FinishClose(l) => CloseFinished(s, l)
    case StartTasks(l) => TasksStarted(s, l)
    case RunTask(l, k) => Execute(Popped(s, l), l, NextTask(s, l), k)
    case EndTasks(l) => TasksEnded(s, l)
    case LocalSend(c, m, k) => Put(s, c, Send(Look(s, c), m, k))
    case LocalShutdown(c) => Put(s, c, Shutdown(Look(s, c)))
    case RemoteSend(c, m) => Queue(s, s.conns[c].loop, SendTask(c, m))
    case Hold(c) => s.(held := s.held + {c})
    case Drop(c) => s.(held := s.held - {c})
    case Free(c) => Freed(s, c)
  }
}
