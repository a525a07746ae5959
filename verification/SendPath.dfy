/** Whole runs of one connection: sends from its own loop and from other threads, the kernel taking
    as much or as little as it likes, shutdown, hang-up and destruction, in any interleaving. */
module SendPath {
  import opened Bytes
  import opened PollerSpec
  import opened TcpSpec
  import BufferSpec

  const LOOP: nat := 0

  datatype Path = Path(
    v: View<nat>,
    tasks: seq<Message>,          // sendInLoop functors waiting in the loop's queue
    checked: map<nat, Message>,   // threads inside send(), past its state test, before the push
    issued: map<nat, nat>)        // how often each thread has called send()

  datatype Action =
    | LocalSend(text: seq<byte>, k: WriteResult)
    | CheckState(thread: nat, text: seq<byte>)
    | PushTask(thread: nat)
    | RunTask(k: WriteResult)
    | LocalShutdown
    | Writable(k: WriteResult)
    | Readable(r: ReadResult)
    | Retrieve(n: nat)
    | HangUp
    | Destroy

  function Opened(fd: int, mark: nat, onWriteComplete: bool, onHighWater: bool): Path {
    var tcp: Tcp<nat> := NewTcp(0, fd, mark, onWriteComplete, onHighWater);
    Path(ConnectionEstablished(View(tcp, EmptyPoller(), [])), [], map[], map[])
  }

  function Count(issued: map<nat, nat>, thread: nat): nat {
    if thread in issued then issued[thread] else 0
  }

  function Numbered(p: Path, thread: nat, text: seq<byte>): Message {
    Message(thread, Count(p.issued, thread), text)
  }

  function Issue(p: Path, m: Message): Path {
    p.(issued := p.issued[m.thread := m.n + 1])
  }

  predicate Enabled(p: Path, a: Action) {
    match a
    case LocalSend(text, k) => LegalSend(Numbered(p, LOOP, text), k)
    case CheckState(t, text) => t != LOOP && t !in p.checked
    case PushTask(t) => t in p.checked
    case RunTask(k) => p.tasks != [] && LegalSend(p.tasks[0], k)
    case LocalShutdown => true
    case Writable(k) => LegalDrain(p.v.tcp, k)
    case Readable(r) => p.v.tcp.ch.index == Added
    case Retrieve(n) => true
    case HangUp => p.v.tcp.ch.index == Added
    case Destroy => p.v.tcp.state == Disconnected
  }

  function Next(p: Path, a: Action): Path
    requires Enabled(p, a)
  {
    match a
    case LocalSend(text, k) =>
      var m := Numbered(p, LOOP, text);
      Issue(p, m).(v := Send(p.v, m, k))
    case CheckState(t, text) =>
      var m := Numbered(p, t, text);
      if p.v.tcp.state == Connected then Issue(p, m).(checked := p.checked[t := m]) else Issue(p, m)
    case PushTask(t) => p.(tasks := p.tasks + [p.checked[t]], checked := p.checked - {t})
    case RunTask(k) => p.(v := SendInLoop(p.v, p.tasks[0], k), tasks := p.tasks[1..])
    case LocalShutdown => p.(v := Shutdown(p.v))
    case Writable(k) => p.(v := HandleWrite(p.v, k))
    case Readable(r) => p.(v := HandleRead(p.v, r))
    case Retrieve(n) => p.(v := RetrieveInput(p.v, n))
    case HangUp => p.(v := HandleClose(p.v))
    case Destroy => p.(v := ConnectionDestroyed(p.v))
  }

  predicate LegalRun(p: Path, actions: seq<Action>)
    decreases |actions|
  {
    actions == [] || (Enabled(p, actions[0]) && LegalRun(Next(p, actions[0]), actions[1..]))
  }

  function Run(p: Path, actions: seq<Action>): Path
    requires LegalRun(p, actions)
    decreases |actions|
  {
    if actions == [] then p else Run(Next(p, actions[0]), actions[1..])
  }

  // ----- what every step keeps

  ghost predicate Good(p: Path) {
    Agrees(p.v.poller, p.v.tcp.ch) && p.v.poller.legal && Sound(p.v.tcp) && p.v.tcp.state != Connecting
  }

  lemma OpenedIsGood(fd: int, mark: nat, onWriteComplete: bool, onHighWater: bool)
    ensures Good(Opened(fd, mark, onWriteComplete, onHighWater))
  {
    var tcp: Tcp<nat> := NewTcp(0, fd, mark, onWriteComplete, onHighWater);
    EstablishedIsSound(View(tcp, EmptyPoller(), []));
  }

  lemma CloseKeepsGood(v: View<nat>)
    requires Agrees(v.poller, v.tcp.ch) && Sound(v.tcp) && v.tcp.ch.index == Added
    ensures Local(v, HandleClose(v)) && Sound(HandleClose(v).tcp)
    ensures HandleClose(v).tcp.state == Disconnected
  {
    CloseIsSound(v);
  }

  lemma StepKeepsGood(p: Path, a: Action)
    requires Good(p) && Enabled(p, a)
    ensures Good(Next(p, a))
  {
    match a
    case LocalSend(text, k) => SendIsSound(p.v, Numbered(p, LOOP, text), k);
    case RunTask(k) => SendIsSound(p.v, p.tasks[0], k);
    case LocalShutdown => ShutdownIsSound(p.v);
    case Writable(k) => HandleWriteIsSound(p.v, k);
    case Readable(r) => CloseKeepsGood(p.v);
    case HangUp => CloseKeepsGood(p.v);
    case Destroy => DestroyedIsSound(p.v);
    case _ =>
  }

  lemma {:induction false} RunKeepsGood(p: Path, actions: seq<Action>)
    requires Good(p) && LegalRun(p, actions)
    ensures Good(Run(p, actions))
    decreases |actions|
  {
    if actions == [] {
    } else {
      StepKeepsGood(p, actions[0]);
      RunKeepsGood(Next(p, actions[0]), actions[1..]);
    }
  }

  // ----- the order of messages

  ghost predicate InThreadOrder(messages: seq<Message>) {
    forall i, j :: 0 <= i < j < |messages| && messages[i].thread == messages[j].thread ==>
      messages[i].n < messages[j].n
  }

  ghost predicate AllBelow(messages: seq<Message>, thread: nat, n: nat) {
    forall i :: 0 <= i < |messages| && messages[i].thread == thread ==> messages[i].n < n
  }

  ghost predicate AllIssued(messages: seq<Message>, issued: map<nat, nat>) {
    forall i :: 0 <= i < |messages| ==> messages[i].n < Count(issued, messages[i].thread)
  }

  ghost predicate ChecksLast(messages: seq<Message>, p: Path) {
    forall t <- p.checked :: t != LOOP && p.checked[t].thread == t && p.checked[t].n < Count(p.issued, t)
                             && AllBelow(messages, t, p.checked[t].n)
  }

  // The messages of other threads follow, in the queue, those already taken.
  ghost predicate Ordered(p: Path) {
    var messages := p.v.tcp.accepted + p.tasks;
    InThreadOrder(messages) && AllIssued(messages, p.issued) && ChecksLast(messages, p)
    && (forall i :: 0 <= i < |p.tasks| ==> p.tasks[i].thread != LOOP)
  }

  lemma TakenSendIsOrdered(taken: seq<Message>, tasks: seq<Message>, m: Message)
    requires InThreadOrder(taken + tasks) && AllBelow(taken + tasks, LOOP, m.n) && m.thread == LOOP
    requires forall i :: 0 <= i < |tasks| ==> tasks[i].thread != LOOP
    ensures InThreadOrder((taken + [m]) + tasks)
  {
    var before, after := taken + tasks, (taken + [m]) + tasks;
    var here := |taken|;
    assert forall i :: 0 <= i < |after| && i != here ==> after[i] == before[if i < here then i else i - 1];
    assert forall j :: here < j < |after| ==> after[j] == tasks[j - here - 1];
    forall i, j | 0 <= i < j < |after| && after[i].thread == after[j].thread
      ensures after[i].n < after[j].n
    {
      if i != here {
        assert before[if i < here then i else i - 1] == after[i];
        assert j == here || before[if j < here then j else j - 1] == after[j];
      }
    }
  }

  lemma TakenSendKeepsBounds(taken: seq<Message>, tasks: seq<Message>, m: Message, issued: map<nat, nat>)
    requires AllIssued(taken + tasks, issued) && m.thread == LOOP && m.n == Count(issued, LOOP)
    ensures AllIssued((taken + [m]) + tasks, issued[LOOP := m.n + 1])
    ensures AllIssued(taken + tasks, issued[LOOP := m.n + 1])
    ensures forall t, n :: t != LOOP && AllBelow(taken + tasks, t, n) ==> AllBelow((taken + [m]) + tasks, t, n)
  {
    var before, after := taken + tasks, (taken + [m]) + tasks;
    assert forall i :: 0 <= i < |after| ==> after[i] == if i == |taken| then m else before[if i < |taken| then i else i - 1];
  }

  lemma LocalSendKeepsOrder(p: Path, text: seq<byte>, k: WriteResult)
    requires Good(p) && Ordered(p) && Enabled(p, LocalSend(text, k))
    ensures Ordered(Next(p, LocalSend(text, k)))
  {
    var m := Numbered(p, LOOP, text);
    SendConserves(p.v, m, k);
    TakenSendIsOrdered(p.v.tcp.accepted, p.tasks, m);
    TakenSendKeepsBounds(p.v.tcp.accepted, p.tasks, m, p.issued);
  }

  lemma StepKeepsOrder(p: Path, a: Action)
    requires Good(p) && Ordered(p) && Enabled(p, a)
    ensures Ordered(Next(p, a))
  {
    match a
    case LocalSend(text, k) => LocalSendKeepsOrder(p, text, k);
    case CheckState(t, text) =>
    case PushTask(t) => PushKeepsOrder(p, t);
    case RunTask(k) => RunTaskKeepsOrder(p, k);
    case _ => QuietSteps(p, a);
  }

  lemma QuietSteps(p: Path, a: Action)
    requires Enabled(p, a) && (a.LocalShutdown? || a.Writable? || a.Readable? || a.Retrieve? || a.HangUp? || a.Destroy?)
    ensures Next(p, a).v.tcp.accepted == p.v.tcp.accepted
    ensures Next(p, a) == p.(v := Next(p, a).v)
  {
    if a.Writable? {
      HandleWriteUnfolds(p.v, a.k);
    }
  }

  lemma PushKeepsOrder(p: Path, t: nat)
    requires Ordered(p) && t in p.checked
    ensures Ordered(Next(p, PushTask(t)))
  {
    var p' := Next(p, PushTask(t));
    assert p'.v.tcp.accepted + p'.tasks == (p.v.tcp.accepted + p.tasks) + [p.checked[t]];
  }

  lemma DroppedTaskKeepsOrder(taken: seq<Message>, m: Message, tasks: seq<Message>, issued: map<nat, nat>)
    requires InThreadOrder(taken + ([m] + tasks)) && AllIssued(taken + ([m] + tasks), issued)
    ensures InThreadOrder(taken + tasks) && AllIssued(taken + tasks, issued)
    ensures forall t, n :: AllBelow(taken + ([m] + tasks), t, n) ==> AllBelow(taken + tasks, t, n)
  {
    var before, after := taken + ([m] + tasks), taken + tasks;
    assert forall i :: 0 <= i < |after| ==> after[i] == before[if i < |taken| then i else i + 1];
    forall i, j | 0 <= i < j < |after| && after[i].thread == after[j].thread
      ensures after[i].n < after[j].n
    {
      assert before[if i < |taken| then i else i + 1].thread == before[if j < |taken| then j else j + 1].thread;
    }
  }

  lemma RunTaskKeepsOrder(p: Path, k: WriteResult)
    requires Good(p) && Ordered(p) && Enabled(p, RunTask(k))
    ensures Ordered(Next(p, RunTask(k)))
  {
    var m, rest := p.tasks[0], p.tasks[1..];
    SendConserves(p.v, m, k);
    assert p.tasks == [m] + rest;
    if Accepts(p.v.tcp, k) {
      assert (p.v.tcp.accepted + [m]) + rest == p.v.tcp.accepted + p.tasks;
    } else {
      DroppedTaskKeepsOrder(p.v.tcp.accepted, m, rest, p.issued);
    }
  }

  lemma {:induction false} RunKeepsOrder(p: Path, actions: seq<Action>)
    requires Good(p) && Ordered(p) && LegalRun(p, actions)
    ensures Ordered(Run(p, actions))
    decreases |actions|
  {
    if actions == [] {
    } else {
      StepKeepsGood(p, actions[0]);
      StepKeepsOrder(p, actions[0]);
      RunKeepsOrder(Next(p, actions[0]), actions[1..]);
    }
  }

  /** In every run the bytes written, followed by the bytes waiting, are the accepted messages, whole
      and end to end; and the messages of any one thread appear in its order of sending. */
  lemma WireStream(fd: int, mark: nat, wc: bool, hw: bool, actions: seq<Action>)
    requires LegalRun(Opened(fd, mark, wc, hw), actions)
    ensures var t := Run(Opened(fd, mark, wc, hw), actions).v.tcp;
            Wire(t.calls) + t.output == Texts(t.accepted) && InThreadOrder(t.accepted)
  {
    OpenedIsGood(fd, mark, wc, hw);
    RunKeepsGood(Opened(fd, mark, wc, hw), actions);
    RunKeepsOrder(Opened(fd, mark, wc, hw), actions);
    var p := Run(Opened(fd, mark, wc, hw), actions);
    assert forall i :: 0 <= i < |p.v.tcp.accepted| ==> p.v.tcp.accepted[i] == (p.v.tcp.accepted + p.tasks)[i];
  }

  // ----- every send is accounted for

  // The message that an action enters into send() with.
  function IssuedBy(p: Path, a: Action): seq<Message> {
    match a
    case LocalSend(text, _) => [Numbered(p, LOOP, text)]
    case CheckState(t, text) => [Numbered(p, t, text)]
    case _ => []
  }

  // The message that an action refuses: the connection is not up, or the write faults.
  function RefusedBy(p: Path, a: Action): seq<Message>
    requires Enabled(p, a)
  {
    match a
    case LocalSend(text, k) =>
      if p.v.tcp.state != Connected || Faults(p.v.tcp, k) then [Numbered(p, LOOP, text)] else []
    case CheckState(t, text) => if p.v.tcp.state != Connected then [Numbered(p, t, text)] else []
    case RunTask(k) => if p.v.tcp.state == Disconnected || Faults(p.v.tcp, k) then [p.tasks[0]] else []
    case _ => []
  }

  function Issues(p: Path, actions: seq<Action>): seq<Message>
    requires LegalRun(p, actions)
    decreases |actions|
  {
    if actions == [] then [] else IssuedBy(p, actions[0]) + Issues(Next(p, actions[0]), actions[1..])
  }

  function Refusals(p: Path, actions: seq<Action>): seq<Message>
    requires LegalRun(p, actions)
    decreases |actions|
  {
    if actions == [] then [] else RefusedBy(p, actions[0]) + Refusals(Next(p, actions[0]), actions[1..])
  }

  function Between(p: Path, m: Message): nat {
    if m.thread in p.checked && p.checked[m.thread] == m then 1 else 0
  }

  // How often a message is taken, queued, or between the two halves of a send().
  function Kept(p: Path, m: Message): nat {
    multiset(p.v.tcp.accepted)[m] + multiset(p.tasks)[m] + Between(p, m)
  }

  lemma SnocCounts(ms: seq<Message>, last: Message, m: Message)
    ensures multiset(ms + [last])[m] == multiset(ms)[m] + multiset([last])[m]
  {
  }

  lemma LocalSendAccounts(p: Path, text: seq<byte>, k: WriteResult, m: Message)
    requires Good(p) && Enabled(p, LocalSend(text, k))
    ensures var a := LocalSend(text, k);
            Kept(Next(p, a), m) + multiset(RefusedBy(p, a))[m] == Kept(p, m) + multiset(IssuedBy(p, a))[m]
  {
    SendConserves(p.v, Numbered(p, LOOP, text), k);
    SnocCounts(p.v.tcp.accepted, Numbered(p, LOOP, text), m);
  }

  lemma HeadCounts(ms: seq<Message>, m: Message)
    requires ms != []
    ensures multiset(ms)[m] == multiset([ms[0]])[m] + multiset(ms[1..])[m]
  {
    assert ms == [ms[0]] + ms[1..];
  }

  lemma TaskLeavesQueue(p: Path, p': Path, taken: bool, m: Message)
    requires p.tasks != [] && p'.tasks == p.tasks[1..] && p'.checked == p.checked
    requires p'.v.tcp.accepted == if taken then p.v.tcp.accepted + [p.tasks[0]] else p.v.tcp.accepted
    ensures Kept(p', m) + (if taken then 0 else multiset([p.tasks[0]])[m]) == Kept(p, m)
  {
    HeadCounts(p.tasks, m);
    SnocCounts(p.v.tcp.accepted, p.tasks[0], m);
  }

  lemma RunTaskAccounts(p: Path, k: WriteResult, m: Message)
    requires Good(p) && Enabled(p, RunTask(k))
    ensures Kept(Next(p, RunTask(k)), m) + multiset(RefusedBy(p, RunTask(k)))[m] == Kept(p, m)
  {
    SendConserves(p.v, p.tasks[0], k);
    TaskLeavesQueue(p, Next(p, RunTask(k)), Accepts(p.v.tcp, k), m);
  }

  // A send() of another thread begins, or hands its message to the loop's queue.
  lemma RemoteSendAccounts(p: Path, a: Action, m: Message)
    requires Ordered(p) && Enabled(p, a) && (a.CheckState? || a.PushTask?)
    ensures Kept(Next(p, a), m) + multiset(RefusedBy(p, a))[m] == Kept(p, m) + multiset(IssuedBy(p, a))[m]
  {
    if a.PushTask? {
      SnocCounts(p.tasks, p.checked[a.thread], m);
    }
  }

  lemma StepAccounts(p: Path, a: Action, m: Message)
    requires Good(p) && Ordered(p) && Enabled(p, a)
    ensures Kept(Next(p, a), m) + multiset(RefusedBy(p, a))[m] == Kept(p, m) + multiset(IssuedBy(p, a))[m]
  {
    match a
    case LocalSend(text, k) => LocalSendAccounts(p, text, k, m);
    case CheckState(_, _) => RemoteSendAccounts(p, a, m);
    case PushTask(_) => RemoteSendAccounts(p, a, m);
    case RunTask(k) => RunTaskAccounts(p, k, m);
    case _ => QuietSteps(p, a);
  }

  lemma {:induction false} RunAccounts(p: Path, actions: seq<Action>, m: Message)
    requires Good(p) && Ordered(p) && LegalRun(p, actions)
    ensures Kept(Run(p, actions), m) + multiset(Refusals(p, actions))[m]
            == Kept(p, m) + multiset(Issues(p, actions))[m]
    decreases |actions|
  {
    if actions == [] {
    } else {
      StepKeepsGood(p, actions[0]);
      StepKeepsOrder(p, actions[0]);
      StepAccounts(p, actions[0], m);
      RunAccounts(Next(p, actions[0]), actions[1..], m);
    }
  }

  lemma StepNumbers(p: Path, a: Action)
    requires Enabled(p, a)
    ensures forall m <- IssuedBy(p, a) :: m.n == Count(p.issued, m.thread) && Count(Next(p, a).issued, m.thread) == m.n + 1
    ensures forall t :: Count(p.issued, t) <= Count(Next(p, a).issued, t)
  {
  }

  /** No two calls of send() issue the same message. */
  lemma {:induction false} IssuedOnce(p: Path, actions: seq<Action>, m: Message)
    requires LegalRun(p, actions)
    ensures multiset(Issues(p, actions))[m] <= 1
    ensures m in Issues(p, actions) ==> m.n >= Count(p.issued, m.thread)
    decreases |actions|
  {
    if actions == [] {
    } else {
      StepNumbers(p, actions[0]);
      IssuedOnce(Next(p, actions[0]), actions[1..], m);
      assert m in IssuedBy(p, actions[0]) ==> m !in Issues(Next(p, actions[0]), actions[1..]);
    }
  }

  /** In every run each message that any thread has given to send() is in exactly one place: taken by the
      connection, queued for its loop, in the hands of its thread, or refused because the connection was
      not up or the write faulted. No other message is anywhere. */
  lemma EverySendIsAccountedFor(fd: int, mark: nat, wc: bool, hw: bool, actions: seq<Action>, m: Message)
    requires LegalRun(Opened(fd, mark, wc, hw), actions)
    ensures var start := Opened(fd, mark, wc, hw);
            var p := Run(start, actions);
            multiset(p.v.tcp.accepted)[m] + multiset(p.tasks)[m] + Between(p, m) + multiset(Refusals(start, actions))[m]
            == if m in Issues(start, actions) then 1 else 0
  {
    OpenedIsGood(fd, mark, wc, hw);
    RunAccounts(Opened(fd, mark, wc, hw), actions, m);
    IssuedOnce(Opened(fd, mark, wc, hw), actions, m);
  }

  // ----- input

  function ChunkOf(a: Action): seq<byte> {
    if a.Readable? && a.r.Received? then a.r.chunk else []
  }

  function Chunks(actions: seq<Action>): seq<byte> {
    if actions == [] then [] else ChunkOf(actions[0]) + Chunks(actions[1..])
  }

  // The bytes that the user takes out of the input buffer.
  function TakenBy(p: Path, a: Action): seq<byte> {
    if a.Retrieve? then (if a.n < |p.v.tcp.input| then p.v.tcp.input[..a.n] else p.v.tcp.input) else []
  }

  function Taken(p: Path, actions: seq<Action>): seq<byte>
    requires LegalRun(p, actions)
    decreases |actions|
  {
    if actions == [] then [] else TakenBy(p, actions[0]) + Taken(Next(p, actions[0]), actions[1..])
  }

  lemma OutputLeavesInput(v: View<nat>, m: Message, k: WriteResult)
    ensures LegalSend(m, k) ==> SendInLoop(v, m, k).tcp.input == v.tcp.input
    ensures LegalDrain(v.tcp, k) ==> HandleWrite(v, k).tcp.input == v.tcp.input
  {
    if LegalSend(m, k) {
      SendUnfolds(v, m, k);
    }
    if LegalDrain(v.tcp, k) {
      HandleWriteUnfolds(v, k);
    }
  }

  lemma StepTakesInput(p: Path, a: Action)
    requires Enabled(p, a)
    ensures TakenBy(p, a) + Next(p, a).v.tcp.input == p.v.tcp.input + ChunkOf(a)
  {
    match a
    case LocalSend(text, k) => OutputLeavesInput(p.v, Numbered(p, LOOP, text), k);
    case RunTask(k) => OutputLeavesInput(p.v, p.tasks[0], k);
    case Writable(k) => OutputLeavesInput(p.v, Numbered(p, LOOP, []), k);
    case _ =>
  }

  /** What the user has taken out of the input buffer, followed by what is still in it, is what was
      received, in order. */
  lemma {:induction false} InputStream(p: Path, actions: seq<Action>)
    requires LegalRun(p, actions)
    ensures Taken(p, actions) + Run(p, actions).v.tcp.input == p.v.tcp.input + Chunks(actions)
    decreases |actions|
  {
    if actions == [] {
    } else {
      var q := Next(p, actions[0]);
      StepTakesInput(p, actions[0]);
      InputStream(q, actions[1..]);
      BufferSpec.ChainQueues(p.v.tcp.input, ChunkOf(actions[0]), Chunks(actions[1..]), TakenBy(p, actions[0]),
                             q.v.tcp.input, Taken(q, actions[1..]), Run(q, actions[1..]).v.tcp.input);
    }
  }
}
