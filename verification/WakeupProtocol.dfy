/** The functor queue of an event loop, the eventfd that wakes it, and every interleaving of one loop
    thread with any number of other threads that queue functors or ask the loop to quit. */
module LoopSpec {
  // An eventfd refuses a write that would push its counter past this value.
  const COUNTER_MAX: nat := 0xffff_ffff_ffff_fffe

  // What several threads touch. Each function below is one atomic action on it.
  datatype Core<F> = Core(quit: bool, calling: bool, pending: seq<F>, counter: nat) {
    function Push(f: F): Core<F> { this.(pending := pending + [f]) }

    function Wakeup(): Core<F> { if counter < COUNTER_MAX then this.(counter := counter + 1) else this }

    function ReadEventfd(): Core<F> { this.(counter := 0) }

    function Swap(): Core<F> { this.(pending := []) }

    // queueInLoop and quit as one thread sees them, when no other thread steps in between.
    function QueueInLoop(inLoopThread: bool, f: F): Core<F> {
      if !inLoopThread || calling then Push(f).Wakeup() else Push(f)
    }

    function Quit(inLoopThread: bool): Core<F> {
      var asked := this.(quit := true);
      if inLoopThread then asked else asked.Wakeup()
    }
  }

  function FreshCore<F>(): Core<F> { Core(false, false, [], 0) }
}

module WakeupProtocol {
  import opened LoopSpec

  // The n-th task that a thread queued.
  datatype Job = Job(thread: nat, n: nat)

  // Where the loop thread is inside loop().
  datatype Place =
    | BeforeLoop
    | Check
    | Poll
    | Dispatch(woken: bool)
    | Collect
    | Running
    | Exited

  // What another thread has done but not yet followed by its write to the eventfd.
  datatype Debt = Pushed | AskedToQuit

  datatype World = World(
    core: Core<Job>,
    at: Place,
    batch: seq<Job>,            // the local vector of doPendingFunctors
    next: nat,
    owes: bool,                 // the loop thread has pushed and not yet woken itself
    debts: map<nat, Debt>,
    issued: map<nat, nat>,      // how many tasks each thread has queued
    enqueued: seq<Job>,         // history of pushes
    executed: seq<Job>,         // history of runs
    before: seq<Job>,           // executed, when the current pass took its snapshot
    early: bool,                // the loop thread queued before loop() and no pass has run since
    polls: nat)                 // how often the loop went to poll

  const LOOP: nat := 0

  datatype Label =
    | PushEarly
    | Enter
    | CheckQuit
    | PollReturn(woken: bool)
    | HandleRead
    | EndDispatch
    | TakeBatch
    | RunNext
    | EndPass
    | LoopPush
    | LoopWake
    | LoopQuit
    | ThreadPush(thread: nat)
    | ThreadQuit(thread: nat)
    | ThreadWake(thread: nat)

  function Start(): World {
    World(FreshCore(), BeforeLoop, [], 0, false, map[], map[], [], [], [], false, 0)
  }

  function Issued(w: World, thread: nat): nat {
    if thread in w.issued then w.issued[thread] else 0
  }

  function PushFrom(w: World, thread: nat): World {
    var job := Job(thread, Issued(w, thread));
    w.(core := w.core.Push(job), enqueued := w.enqueued + [job],
       issued := w.issued[thread := Issued(w, thread) + 1])
  }

  predicate Enabled(w: World, a: Label) {
    match a
    case PushEarly => w.at == BeforeLoop
    case Enter => w.at == BeforeLoop
    case CheckQuit => w.at == Check
    case PollReturn(woken) => w.at == Poll && (woken ==> w.core.counter > 0)
    case HandleRead => w.at == Dispatch(true)
    case EndDispatch => w.at == Dispatch(false)
    case TakeBatch => w.at == Collect
    case RunNext => w.at == Running && !w.owes && w.next < |w.batch|
    case EndPass => w.at == Running && !w.owes && w.next == |w.batch|
    case LoopPush => (w.at.Dispatch? || w.at == Running) && !w.owes
    case LoopWake => w.owes
    case LoopQuit => (w.at.Dispatch? || w.at == Running) && !w.owes
    case ThreadPush(t) => t != LOOP && t !in w.debts
    case ThreadQuit(t) => t != LOOP && t !in w.debts
    case ThreadWake(t) => t in w.debts
  }

  function Next(w: World, a: Label): World
    requires Enabled(w, a)
  {
    match a
    case PushEarly => PushFrom(w, LOOP).(early := true)
    case Enter => w.(at := Check, core := w.core.(quit := false))
    case CheckQuit => if w.core.quit then w.(at := Exited) else w.(at := Poll, polls := w.polls + 1)
    case PollReturn(woken) => w.(at := Dispatch(woken))
    case HandleRead => w.(at := Dispatch(false), core := w.core.ReadEventfd())
    case EndDispatch => w.(at := Collect, core := w.core.(calling := true))
    case TakeBatch =>
      w.(at := Running, batch := w.core.pending, core := w.core.Swap(), before := w.executed, early := false)
    case RunNext => w.(next := w.next + 1, executed := w.executed + [w.batch[w.next]])
    case EndPass => w.(at := Check, batch := [], next := 0, core := w.core.(calling := false))
    case LoopPush => PushFrom(w, LOOP).(owes := w.core.calling)
    case LoopWake => w.(core := w.core.Wakeup(), owes := false)
    case LoopQuit => w.(core := w.core.(quit := true))
    case ThreadPush(t) => PushFrom(w, t).(debts := w.debts[t := Pushed])
    case ThreadQuit(t) => w.(core := w.core.(quit := true), debts := w.debts[t := AskedToQuit])
    case ThreadWake(t) => w.(core := w.core.Wakeup(), debts := w.debts - {t})
  }

  predicate LegalRun(w: World, labels: seq<Label>)
    decreases |labels|
  {
    labels == [] || (Enabled(w, labels[0]) && LegalRun(Next(w, labels[0]), labels[1..]))
  }

  function Run(w: World, labels: seq<Label>): World
    requires LegalRun(w, labels)
    decreases |labels|
  {
    if labels == [] then w else Run(Next(w, labels[0]), labels[1..])
  }

  // ----- no lost wakeup

  ghost predicate Owed(w: World, debt: Debt) {
    exists t :: t in w.debts && w.debts[t] == debt
  }

  ghost predicate Noticed(w: World) {
    w.core.counter > 0 || w.owes || Owed(w, Pushed)
  }

  ghost predicate WakeInv(w: World) {
    (w.owes ==> w.at == Running)
    && (w.core.calling <==> w.at == Collect || w.at == Running)
    && (w.at == Running && w.core.pending != [] ==> Noticed(w))
    && (w.at in {BeforeLoop, Check, Poll} && w.core.pending != [] ==> Noticed(w) || w.early)
    && (w.at == BeforeLoop && w.early ==> w.core.pending != [])
    && (w.at == Poll && w.core.quit ==> w.core.counter > 0 || Owed(w, AskedToQuit))
  }

  lemma DebtStays(w: World, w': World, t: nat, debt: Debt)
    requires forall u :: u != t && u in w.debts ==> u in w'.debts && w'.debts[u] == w.debts[u]
    requires t !in w.debts
    ensures Owed(w, debt) ==> Owed(w', debt)
  {
    if Owed(w, debt) {
      var u :| u in w.debts && w.debts[u] == debt;
      assert u in w'.debts && w'.debts[u] == debt;
    }
  }

  lemma StepKeepsWake(w: World, a: Label)
    requires WakeInv(w) && Enabled(w, a)
    ensures WakeInv(Next(w, a))
  {
    var w' := Next(w, a);
    match a
    case ThreadPush(t) =>
      DebtStays(w, w', t, AskedToQuit);
      assert t in w'.debts && w'.debts[t] == Pushed;
    case ThreadQuit(t) =>
      DebtStays(w, w', t, Pushed);
      assert t in w'.debts && w'.debts[t] == AskedToQuit;
    case ThreadWake(t) => assert w'.core.counter > 0;
    case _ => assert w'.debts == w.debts;
  }

  // ----- exactly once, in order

  ghost predicate InThreadOrder(jobs: seq<Job>) {
    forall i, j :: 0 <= i < j < |jobs| && jobs[i].thread == jobs[j].thread ==> jobs[i].n < jobs[j].n
  }

  ghost predicate FifoInv(w: World) {
    w.next <= |w.batch|
    && (w.at != Running ==> w.batch == [])
    && (w.at == Running ==> w.executed == w.before + w.batch[..w.next])
    && w.enqueued == w.executed + w.batch[w.next..] + w.core.pending
    && InThreadOrder(w.enqueued)
    && (forall i :: 0 <= i < |w.enqueued| ==> w.enqueued[i].n < Issued(w, w.enqueued[i].thread))
  }

  lemma RunNextKeepsFifo(w: World)
    requires FifoInv(w) && w.at == Running && w.next < |w.batch|
    ensures FifoInv(w.(next := w.next + 1, executed := w.executed + [w.batch[w.next]]))
  {
    assert w.batch[w.next..] == [w.batch[w.next]] + w.batch[w.next + 1..];
    assert w.batch[..w.next + 1] == w.batch[..w.next] + [w.batch[w.next]];
    var jobs := w.executed + [w.batch[w.next]] + w.batch[w.next + 1..] + w.core.pending;
    assert w.enqueued == jobs;
  }

  lemma TakeBatchKeepsFifo(w: World)
    requires FifoInv(w) && w.at == Collect
    ensures FifoInv(w.(at := Running, batch := w.core.pending, core := w.core.Swap(), before := w.executed, early := false))
  {
    assert w.enqueued == w.executed + w.core.pending;
  }

  lemma EndPassKeepsFifo(w: World)
    requires FifoInv(w) && w.at == Running && w.next == |w.batch|
    ensures FifoInv(w.(at := Check, batch := [], next := 0, core := w.core.(calling := false)))
  {
    assert w.enqueued == w.executed + w.core.pending;
  }

  lemma StepKeepsFifo(w: World, a: Label)
    requires FifoInv(w) && Enabled(w, a)
    ensures FifoInv(Next(w, a))
  {
    match a
    case RunNext => RunNextKeepsFifo(w);
    case TakeBatch => TakeBatchKeepsFifo(w);
    case EndPass => EndPassKeepsFifo(w);
    case PushEarly => PushKeepsFifo(w, LOOP);
    case LoopPush => PushKeepsFifo(w, LOOP);
    case ThreadPush(t) => PushKeepsFifo(w, t);
    case _ =>
  }

  lemma PushKeepsFifo(w: World, thread: nat)
    requires FifoInv(w)
    ensures FifoInv(PushFrom(w, thread))
  {
    var w' := PushFrom(w, thread);
    assert w'.enqueued == w'.executed + w'.batch[w'.next..] + w'.core.pending;
    forall i | 0 <= i < |w'.enqueued|
      ensures w'.enqueued[i].n < Issued(w', w'.enqueued[i].thread)
    {
      assert i < |w.enqueued| ==> w'.enqueued[i] == w.enqueued[i];
    }
  }

  ghost predicate Inv(w: World) { WakeInv(w) && FifoInv(w) }

  lemma {:induction false} RunKeepsInv(w: World, labels: seq<Label>)
    requires Inv(w) && LegalRun(w, labels)
    ensures Inv(Run(w, labels))
    decreases |labels|
  {
    if labels == [] {
    } else {
      StepKeepsWake(w, labels[0]);
      StepKeepsFifo(w, labels[0]);
      RunKeepsInv(Next(w, labels[0]), labels[1..]);
    }
  }

  predicate NeverEarly(labels: seq<Label>) {
    forall k :: 0 <= k < |labels| ==> labels[k] != PushEarly
  }

  lemma {:induction false} EarlyNeedsPushEarly(w: World, labels: seq<Label>)
    requires LegalRun(w, labels) && NeverEarly(labels) && !w.early
    ensures !Run(w, labels).early
    decreases |labels|
  {
    if labels == [] {
    } else {
      assert labels[0] != PushEarly;
      EarlyNeedsPushEarly(Next(w, labels[0]), labels[1..]);
    }
  }

  /** With tasks waiting and the loop at its blocking poll, the poll is about to return: the eventfd
      is readable, or a thread that pushed still has its write to make. */
  lemma NoLostWakeup(labels: seq<Label>)
    requires LegalRun(Start(), labels) && NeverEarly(labels)
    ensures var w := Run(Start(), labels);
            w.at == Poll && w.core.pending != [] ==> w.core.counter > 0 || Owed(w, Pushed)
  {
    RunKeepsInv(Start(), labels);
    EarlyNeedsPushEarly(Start(), labels);
  }

  /** The hypothesis is needed: a loop entered after its own thread queued a task goes to sleep on
      it, exactly when nobody else has woken or is about to wake the loop. */
  lemma EnteringLosesEarlyTasksIff(labels: seq<Label>)
    requires LegalRun(Start(), labels) && Run(Start(), labels).at == BeforeLoop
    ensures var w := Run(Start(), labels);
            var polling := Next(Next(w, Enter), CheckQuit);
            polling.at == Poll
            && ((polling.core.pending != [] && polling.core.counter == 0 && !Owed(polling, Pushed))
                <==> (w.early && w.core.counter == 0 && !Owed(w, Pushed)))
  {
    RunKeepsInv(Start(), labels);
    var w := Run(Start(), labels);
    assert Next(Next(w, Enter), CheckQuit).debts == w.debts;
    assert Owed(Next(Next(w, Enter), CheckQuit), Pushed) == Owed(w, Pushed);
  }

  lemma AnEarlyTaskCanBeLost()
    ensures LegalRun(Start(), [PushEarly]) && Run(Start(), [PushEarly]).early
    ensures Run(Start(), [PushEarly]).core.counter == 0 && !Owed(Run(Start(), [PushEarly]), Pushed)
  {
    assert LegalRun(Next(Start(), PushEarly), []);
    assert Run(Start(), [PushEarly]) == Next(Start(), PushEarly);
  }

  /** Every task ever queued is executed, waiting in the current batch or pending, once and in the
      order of queueing; so what one thread queued runs in the order in which it queued them. */
  lemma ExactlyOnceInOrder(labels: seq<Label>)
    requires LegalRun(Start(), labels)
    ensures var w := Run(Start(), labels);
            w.next <= |w.batch|
            && w.enqueued == w.executed + w.batch[w.next..] + w.core.pending
            && InThreadOrder(w.enqueued) && InThreadOrder(w.executed)
  {
    RunKeepsInv(Start(), labels);
    var w := Run(Start(), labels);
    assert forall i :: 0 <= i < |w.executed| ==> w.executed[i] == w.enqueued[i];
  }

  /** A pass that ends has run what was pending when it began, all of it and nothing else. */
  lemma PassRunsItsSnapshot(labels: seq<Label>)
    requires LegalRun(Start(), labels) && Enabled(Run(Start(), labels), EndPass)
    ensures var w := Run(Start(), labels); w.executed == w.before + w.batch
  {
    RunKeepsInv(Start(), labels);
    var w := Run(Start(), labels);
    assert w.batch[..w.next] == w.batch;
  }

  // ----- no spurious wakeup

  // The wakeups written since the eventfd was last read, `before` of them before these steps.
  function Unread(before: nat, labels: seq<Label>): nat
    decreases |labels|
  {
    if labels == [] then before
    else
      var now := match labels[0]
                 case HandleRead => 0
                 case LoopWake => before + 1
                 case ThreadWake(_) => before + 1
                 case _ => before;
      Unread(now, labels[1..])
  }

  function AtMost(n: nat, limit: nat): nat { if n < limit then n else limit }

  lemma {:induction false} CounterCounts(w: World, labels: seq<Label>, before: nat)
    requires LegalRun(w, labels) && w.core.counter == AtMost(before, COUNTER_MAX)
    ensures Run(w, labels).core.counter == AtMost(Unread(before, labels), COUNTER_MAX)
    decreases |labels|
  {
    if labels == [] {
    } else {
      var now := match labels[0]
                 case HandleRead => 0
                 case LoopWake => before + 1
                 case ThreadWake(_) => before + 1
                 case _ => before;
      CounterCounts(Next(w, labels[0]), labels[1..], now);
    }
  }

  /** In every run the eventfd counts the wakeups written since it was last read, as far as it can count;
      so the poll returns for it only if there was one, and reading it lets the next poll block again. */
  lemma NoSpuriousWakeup(labels: seq<Label>)
    requires LegalRun(Start(), labels)
    ensures var w := Run(Start(), labels);
            w.core.counter == AtMost(Unread(0, labels), COUNTER_MAX)
            && (w.at == Poll ==> (Enabled(w, PollReturn(true)) <==> Unread(0, labels) > 0))
            && (Enabled(w, PollReturn(true)) ==> Enabled(Next(w, PollReturn(true)), HandleRead))
            && (Enabled(w, HandleRead) ==> Next(w, HandleRead).core.counter == 0)
  {
    CounterCounts(Start(), labels, 0);
  }

  // What the loop's own thread does next, if functors queue nothing and nothing is ready at the poll.
  function NextLabel(w: World): Label
    requires w.at != Exited
  {
    if w.owes then LoopWake
    else
      match w.at
      case BeforeLoop => Enter
      case Check => CheckQuit
      case Poll => PollReturn(false)
      case Dispatch(woken) => if woken then HandleRead else EndDispatch
      case Collect => TakeBatch
      case Running => if w.next < |w.batch| then RunNext else EndPass
  }

  /** The loop's thread is never stuck, and it leaves the loop only through its test of the flag. */
  lemma LoopGoesOn(labels: seq<Label>, a: Label)
    requires LegalRun(Start(), labels) && Run(Start(), labels).at != Exited
    ensures var w := Run(Start(), labels);
            Enabled(w, NextLabel(w))
            && (Enabled(w, a) && Next(w, a).at == Exited ==> w.at == Check && w.core.quit)
            && (w.at == BeforeLoop ==> !Next(w, Enter).core.quit)
  {
    RunKeepsInv(Start(), labels);
  }

  // ----- quitting

  lemma {:induction false} QuitIsFinal(w: World, labels: seq<Label>)
    requires LegalRun(w, labels) && w.at != BeforeLoop && w.core.quit
    ensures Run(w, labels).core.quit && Run(w, labels).at != BeforeLoop
    ensures Run(w, labels).polls == w.polls
    decreases |labels|
  {
    if labels == [] {
    } else {
      QuitIsFinal(Next(w, labels[0]), labels[1..]);
    }
  }

  /** Once loop() has begun, a request to quit from any thread is seen promptly: the poll it may find
      the loop in is about to return, and the loop never goes to poll again. */
  lemma PromptQuit(labels: seq<Label>, more: seq<Label>)
    requires LegalRun(Start(), labels) && LegalRun(Run(Start(), labels), more)
    requires var w := Run(Start(), labels); w.at != BeforeLoop && w.core.quit
    ensures var w := Run(Start(), labels);
            (w.at == Poll ==> w.core.counter > 0 || Owed(w, AskedToQuit))
            && Run(w, more).polls == w.polls
            && (w.at == Check ==> Next(w, CheckQuit).at == Exited)
  {
    RunKeepsInv(Start(), labels);
    QuitIsFinal(Run(Start(), labels), more);
  }

  /** queueInLoop and quit of another thread, uninterrupted, are the steps they are made of. */
  lemma CallsFromElsewhere(w: World, t: nat)
    requires t != LOOP && t !in w.debts
    ensures Enabled(Next(w, ThreadPush(t)), ThreadWake(t)) && Enabled(Next(w, ThreadQuit(t)), ThreadWake(t))
    ensures Next(Next(w, ThreadPush(t)), ThreadWake(t)).core == w.core.QueueInLoop(false, Job(t, Issued(w, t)))
    ensures Next(Next(w, ThreadQuit(t)), ThreadWake(t)).core == w.core.Quit(false)
  {
  }

  /** The same for the loop's own thread, which wakes itself only from inside a pass. */
  lemma CallsFromTheLoop(w: World)
    requires WakeInv(w) && Enabled(w, LoopPush)
    ensures var pushed := Next(w, LoopPush);
            (if pushed.owes then Next(pushed, LoopWake) else pushed).core
            == w.core.QueueInLoop(true, Job(LOOP, Issued(w, LOOP)))
    ensures Next(w, LoopQuit).core == w.core.Quit(true)
  {
  }
}
