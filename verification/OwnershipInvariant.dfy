/** The invariant of the whole server: which phase each connection is in, and what still knows it. */
module OwnershipInvariant {
  import opened PollerSpec
  import opened TcpSpec
  import opened Names
  import opened ServerSpec
  import opened Wrappers

  datatype Phase = Accepted | Open | Closing | Removing | Destroying | Gone

  // Everything outside the connection itself that says where in its life it is.
  datatype Traces = Traces(established: nat, closing: bool, removing: nat, destroying: nat, linked: bool)

  function Occurrences(tasks: seq<Task<nat>>, task: Task<nat>): nat {
    if tasks == [] then 0 else (if tasks[0] == task then 1 else 0) + Occurrences(tasks[1..], task)
  }

  function CountOf(lp: Loop, task: Task<nat>): nat { Occurrences(Todo(lp), task) }

  lemma {:induction false} OccurrencesJoin(ts: seq<Task<nat>>, us: seq<Task<nat>>, task: Task<nat>)
    ensures Occurrences(ts + us, task) == Occurrences(ts, task) + Occurrences(us, task)
  {
    if ts == [] {
      assert ts + us == us;
    } else {
      OccurrencesJoin(ts[1..], us, task);
      assert (ts + us)[1..] == ts[1..] + us;
    }
  }

  lemma {:induction false} OccursIff(ts: seq<Task<nat>>, task: Task<nat>)
    ensures Occurrences(ts, task) > 0 <==> task in ts
  {
    if ts != [] {
      OccursIff(ts[1..], task);
      assert ts == [ts[0]] + ts[1..];
    }
  }

  function TracesOf(s: System, c: nat): Traces
    requires Valid(s, c)
  {
    var lp := s.loops[s.conns[c].loop];
    Traces(CountOf(lp, Established(c)), lp.closing == Some(c), CountOf(s.loops[0], RemoveInLoop(c)),
           CountOf(lp, Destroyed(c)), Linked(s, c))
  }

  function PhaseOf(t: Tcp<nat>, traces: Traces): Phase {
    match t.state
    case Connecting => Phase.Accepted
    case Connected => Open
    case DisConnecting => Open
    case Disconnected =>
      if t.ch.index == New then Gone
      else if traces.closing then Closing
      else if traces.linked then Removing
      else Destroying
  }

  function TracesFor(phase: Phase): Traces {
    match phase
    case Accepted => Traces(1, false, 0, 0, true)
    case Open => Traces(0, false, 0, 0, true)
    case Closing => Traces(0, true, 0, 0, true)
    case Removing => Traces(0, false, 1, 0, true)
    case Destroying => Traces(0, false, 0, 1, false)
    case Gone => Traces(0, false, 0, 0, false)
  }

  // The user hears of a connection once when it comes up, then its input, then once that it is down.
  predicate HeardUp(told: seq<Callback>) {
    told != [] && told[0] == Up && forall i :: 1 <= i < |told| ==> told[i] == Incoming
  }

  predicate HeardDown(told: seq<Callback>) {
    told != [] && told[|told| - 1] == Down && HeardUp(told[..|told| - 1])
  }

  predicate HeardAll(told: seq<Callback>) {
    told != [] && told[|told| - 1] == Closed && HeardDown(told[..|told| - 1])
  }

  predicate Heard(told: seq<Callback>, phase: Phase) {
    match phase
    case Accepted => told == []
    case Open => HeardUp(told)
    case Closing => HeardDown(told)
    case _ => HeardAll(told)
  }

  ghost predicate ConnFits(k: Conn, c: nat, traces: Traces, p: Poller<nat>) {
    var phase := PhaseOf(k.tcp, traces);
    && traces == TracesFor(phase)
    && Sound(k.tcp)
    && k.tcp.ch.self == c
    && Heard(k.tcp.told, phase)
    && (k.freed ==> phase == Gone)
    && (!k.freed ==> Agrees(p, k.tcp.ch))
  }

  ghost predicate ConnInv(s: System, c: nat)
    requires Valid(s, c)
  {
    ConnFits(s.conns[c], c, TracesOf(s, c), s.loops[s.conns[c].loop].poller)
  }

  predicate Registered(t: Tcp<nat>) { t.ch.index != New }

  // A task lies in the queue of the loop that may run it, and what it needs is still there.
  predicate TaskFits(s: System, l: nat, task: Task<nat>) {
    && Valid(s, task.conn)
    && (if task.RemoveInLoop? then l == 0 else s.conns[task.conn].loop == l)
    && (task.SendTask? ==>
          s.conns[task.conn].tcp.state != Connecting
          && (s.conns[task.conn].tcp.state == Disconnected ==> Registered(s.conns[task.conn].tcp)))
  }

  // A queued sendInLoop holds no pointer, but it runs before the connection's destruction.
  predicate SendsFirst(tasks: seq<Task<nat>>) {
    forall i, j :: 0 <= i < j < |tasks| && tasks[i].Destroyed? && tasks[j].SendTask? ==>
      tasks[i].conn != tasks[j].conn
  }

  ghost predicate TodoInv(s: System, l: nat)
    requires l < |s.loops|
  {
    var lp := s.loops[l];
    && lp.next <= |lp.batch|
    && (lp.at != RunningTasks ==> lp.batch == [] && lp.next == 0)
    && (forall i :: 0 <= i < |Todo(lp)| ==> TaskFits(s, l, Todo(lp)[i]))
    && SendsFirst(Todo(lp))
  }

  // What is still to be dispatched is registered; and whatever may yet close is not closed.
  predicate ReadyFits(s: System, l: nat, r: Ready, current: bool) {
    && Valid(s, r.conn) && s.conns[r.conn].loop == l && Registered(s.conns[r.conn].tcp)
    && (!current || s.loops[l].stage == AtHup || (s.loops[l].stage == AtIn && r.input) ==>
          s.conns[r.conn].tcp.state in {Connected, DisConnecting})
  }

  ghost predicate ActiveInv(s: System, l: nat)
    requires l < |s.loops|
  {
    var lp := s.loops[l];
    && (lp.at != Dispatching ==> lp.active == [] && lp.closing == None)
    && (lp.closing.Some? ==> Valid(s, lp.closing.value) && s.conns[lp.closing.value].loop == l)
    && (forall i :: 0 <= i < |lp.active| ==> ReadyFits(s, l, lp.active[i], i == 0))
    && (forall i, j :: 0 <= i < j < |lp.active| ==> lp.active[i].conn != lp.active[j].conn)
  }

  ghost predicate OwnerFits(s: System, l: nat, fd: int, c: nat) {
    Valid(s, c) && s.conns[c].loop == l && s.conns[c].tcp.ch.fd == fd && Registered(s.conns[c].tcp)
  }

  ghost predicate PollerInv(s: System, l: nat)
    requires l < |s.loops|
  {
    var p := s.loops[l].poller;
    && p.legal
    && (forall fd <- p.channels :: OwnerFits(s, l, fd, p.channels[fd]))
    && (forall fd <- p.kernel :: fd in p.channels && p.kernel[fd].channel == p.channels[fd]
          && s.conns[p.channels[fd]].tcp.ch.index == Added
          && p.kernel[fd].events == s.conns[p.channels[fd]].tcp.ch.events)
  }

  ghost predicate Shape(s: System) {
    && |s.loops| > 0
    && s.pool.base == 0 && s.pool.Ok()
    && |s.pool.loops| + 1 == |s.loops| && (forall i :: 0 <= i < |s.pool.loops| ==> s.pool.loops[i] == i + 1)
    && s.nextConnId == |s.conns| + 1
    && (forall c :: 0 <= c < |s.conns| ==> Valid(s, c) && s.conns[c].name == ConnName(s.prefix, c + 1))
    && (forall name <- s.connections ::
          s.connections[name] < |s.conns| && s.conns[s.connections[name]].name == name)
    && (forall c, d :: 0 <= c < d < |s.conns| && !s.conns[c].freed && !s.conns[d].freed ==>
          s.conns[c].tcp.ch.fd != s.conns[d].tcp.ch.fd)
    && (forall c :: 0 <= c < |s.conns| && !s.conns[c].freed ==> s.conns[c].tcp.ch.fd !in s.system)
  }

  ghost predicate LoopInv(s: System, l: nat)
    requires l < |s.loops|
  {
    TodoInv(s, l) && ActiveInv(s, l) && PollerInv(s, l)
  }

  ghost predicate Inv(s: System) {
    Shape(s)
    && (forall c :: 0 <= c < |s.conns| ==> ConnInv(s, c))
    && (forall l :: 0 <= l < |s.loops| ==> LoopInv(s, l))
  }

  lemma FreshLoopFits(s: System, l: nat)
    requires l < |s.loops| && s.loops[l] == FreshLoop()
    ensures LoopInv(s, l)
  {
  }

  lemma BootIsGood(ioLoops: nat, prefix: string, system: set<int>)
    ensures Inv(Boot(ioLoops, prefix, system))
  {
    var s := Boot(ioLoops, prefix, system);
    assert Shape(s);
    forall l | 0 <= l < |s.loops|
      ensures LoopInv(s, l)
    {
      FreshLoopFits(s, l);
    }
  }
}
