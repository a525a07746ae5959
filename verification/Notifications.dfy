/** The high-water and write-complete notifications, against what the output buffer does. */
module Notifications {
  import opened Bytes
  import opened TcpSpec
  import opened SendPath

  function HighWaters(queue: seq<Task<nat>>): nat {
    if queue == [] then 0
    else HighWaters(queue[..|queue| - 1]) + (if queue[|queue| - 1].HighWater? then 1 else 0)
  }

  // An upward crossing of the mark by the number of waiting bytes.
  function Crossing(before: Tcp<nat>, after: Tcp<nat>): nat {
    if |before.output| < before.mark <= |after.output| then 1 else 0
  }

  function Crossings(p: Path, actions: seq<Action>): nat
    requires LegalRun(p, actions)
    decreases |actions|
  {
    if actions == [] then 0
    else Crossing(p.v.tcp, Next(p, actions[0]).v.tcp) + Crossings(Next(p, actions[0]), actions[1..])
  }

  lemma HighWatersSnoc(queue: seq<Task<nat>>, task: Task<nat>)
    ensures HighWaters(queue + [task]) == HighWaters(queue) + (if task.HighWater? then 1 else 0)
  {
    assert (queue + [task])[..|queue|] == queue;
  }

  // The notifications that one sendInLoop queues.
  function SendNotices(t: Tcp<nat>, m: Message, k: WriteResult): seq<Task<nat>>
    requires k.Wrote? ==> k.n <= |m.text|
  {
    var direct := !t.ch.events.write && t.output == [];
    var n := if direct && k.Wrote? then k.n else 0;
    var waiting := |t.output| + |m.text| - n;
    if t.state == Disconnected || (direct && (k == WriteFailed(EPipe) || k == WriteFailed(EConnReset))) then []
    else if direct && k == Wrote(|m.text|) then (if t.onWriteComplete then [WriteComplete(t.ch.self)] else [])
    else if t.onHighWater && |t.output| < t.mark <= waiting && n < |m.text| then [HighWater(t.ch.self, waiting)]
    else []
  }

  lemma AcceptedQueues(v: View<nat>, m: Message, k: WriteResult)
    requires LegalSend(m, k)
    ensures var direct := !v.tcp.ch.events.write && v.tcp.output == [] && v.tcp.state != Disconnected;
            Accepted(v, m, k).queue
            == v.queue + (if direct && k == Wrote(|m.text|) && v.tcp.onWriteComplete then [WriteComplete(v.tcp.ch.self)] else [])
    ensures Faults(v.tcp, k) ==> WriteThrough(v, m.text, k).queue == v.queue
    ensures var t := Accepted(v, m, k).tcp; t == v.tcp.(calls := t.calls, accepted := t.accepted)
    ensures var t := WriteThrough(v, m.text, k).tcp; t == v.tcp.(calls := t.calls)
  {
  }

  lemma BufferRestQueues(v: View<nat>, rest: seq<byte>)
    ensures var waiting := |v.tcp.output| + |rest|;
            BufferRest(v, rest).queue
            == v.queue + (if v.tcp.onHighWater && |v.tcp.output| < v.tcp.mark <= waiting then [HighWater(v.tcp.ch.self, waiting)] else [])
    ensures var t := BufferRest(v, rest).tcp;
            t.output == v.tcp.output + rest && t.mark == v.tcp.mark && t.onHighWater == v.tcp.onHighWater
  {
  }

  lemma SendQueues(v: View<nat>, m: Message, k: WriteResult)
    requires LegalSend(m, k)
    ensures SendInLoop(v, m, k).queue == v.queue + SendNotices(v.tcp, m, k)
    ensures var t := SendInLoop(v, m, k).tcp;
            t.mark == v.tcp.mark && t.onHighWater == v.tcp.onHighWater
            && t.output == if v.tcp.state == Disconnected || Faults(v.tcp, k) then v.tcp.output
                           else v.tcp.output + Rest(v.tcp, m, k)
  {
    SendUnfolds(v, m, k);
    AcceptedQueues(v, m, k);
    BufferRestQueues(Accepted(v, m, k), Rest(v.tcp, m, k));
    assert v.queue + [] == v.queue && v.tcp.output + [] == v.tcp.output;
  }

  lemma SendCounts(v: View<nat>, m: Message, k: WriteResult)
    requires LegalSend(m, k) && v.tcp.onHighWater
    ensures var w := SendInLoop(v, m, k);
            HighWaters(w.queue) == HighWaters(v.queue) + Crossing(v.tcp, w.tcp)
            && w.tcp.mark == v.tcp.mark && w.tcp.onHighWater
  {
    SendQueues(v, m, k);
    CountNotices(v.queue, SendNotices(v.tcp, m, k));
  }

  lemma CountNotices(queue: seq<Task<nat>>, notices: seq<Task<nat>>)
    requires |notices| <= 1
    ensures HighWaters(queue + notices)
            == HighWaters(queue) + (if |notices| == 1 && notices[0].HighWater? then 1 else 0)
  {
    if notices == [] {
      assert queue + notices == queue;
    } else {
      assert notices == [notices[0]];
      HighWatersSnoc(queue, notices[0]);
    }
  }

  lemma DrainCounts(v: View<nat>, k: WriteResult)
    requires LegalDrain(v.tcp, k) && v.tcp.onHighWater
    ensures var w := HandleWrite(v, k);
            HighWaters(w.queue) == HighWaters(v.queue) && |w.tcp.output| <= |v.tcp.output|
            && w.tcp.mark == v.tcp.mark && w.tcp.onHighWater
  {
    HandleWriteUnfolds(v, k);
    HighWatersSnoc(v.queue, WriteComplete(v.tcp.ch.self));
  }

  lemma StepCounts(p: Path, a: Action)
    requires Enabled(p, a) && p.v.tcp.onHighWater
    ensures var q := Next(p, a);
            HighWaters(q.v.queue) == HighWaters(p.v.queue) + Crossing(p.v.tcp, q.v.tcp)
            && q.v.tcp.mark == p.v.tcp.mark && q.v.tcp.onHighWater
  {
    match a
    case LocalSend(text, k) => SendCounts(p.v, Numbered(p, LOOP, text), k);
    case RunTask(k) => SendCounts(p.v, p.tasks[0], k);
    case Writable(k) => DrainCounts(p.v, k);
    case _ =>
  }

  /** With the callback set, the high-water notifications queued over any run are as many as the
      upward crossings of the mark. */
  lemma {:induction false} HighWaterCountsCrossings(p: Path, actions: seq<Action>)
    requires LegalRun(p, actions) && p.v.tcp.onHighWater
    ensures HighWaters(Run(p, actions).v.queue) == HighWaters(p.v.queue) + Crossings(p, actions)
    decreases |actions|
  {
    if actions == [] {
    } else {
      StepCounts(p, actions[0]);
      HighWaterCountsCrossings(Next(p, actions[0]), actions[1..]);
    }
  }

  predicate StaysHigh(p: Path, actions: seq<Action>)
    requires LegalRun(p, actions)
    decreases |actions|
  {
    |p.v.tcp.output| >= p.v.tcp.mark && (actions == [] || StaysHigh(Next(p, actions[0]), actions[1..]))
  }

  /** Between two high-water notifications the buffer has drained below the mark. */
  lemma {:induction false} NoSecondWithoutDrain(p: Path, actions: seq<Action>)
    requires LegalRun(p, actions) && p.v.tcp.onHighWater && StaysHigh(p, actions)
    ensures HighWaters(Run(p, actions).v.queue) == HighWaters(p.v.queue)
    decreases |actions|
  {
    if actions == [] {
    } else {
      StepCounts(p, actions[0]);
      NoSecondWithoutDrain(Next(p, actions[0]), actions[1..]);
    }
  }

  // What a handler added to the loop's queue.
  function NewTasks(before: View<nat>, after: View<nat>): seq<Task<nat>> {
    if |before.queue| <= |after.queue| then after.queue[|before.queue|..] else []
  }

  /** sendInLoop notifies exactly when one direct write took the whole message. */
  lemma SendNotifiesIff(v: View<nat>, m: Message, k: WriteResult)
    requires LegalSend(m, k)
    ensures WriteComplete(v.tcp.ch.self) in NewTasks(v, SendInLoop(v, m, k))
            <==> v.tcp.onWriteComplete && WritesDirectly(v.tcp) && k == Wrote(|m.text|)
    ensures WriteComplete(v.tcp.ch.self) in NewTasks(v, SendInLoop(v, m, k)) ==> SendInLoop(v, m, k).tcp.output == []
  {
    SendQueues(v, m, k);
    var notices := SendNotices(v.tcp, m, k);
    assert NewTasks(v, SendInLoop(v, m, k)) == notices;
    assert notices != [] ==> notices[0] in notices;
  }

  /** handlerWrite queues one notification, when the kernel takes all that was waiting, and nothing else. */
  lemma DrainQueues(v: View<nat>, k: WriteResult)
    requires k.Wrote? ==> k.n <= |v.tcp.output|
    ensures HandleWrite(v, k).queue
            == if v.tcp.onWriteComplete && v.tcp.ch.events.write && k.Wrote? && 0 < k.n == |v.tcp.output|
               then v.queue + [WriteComplete(v.tcp.ch.self)] else v.queue
  {
    HandleWriteUnfolds(v, k);
  }

  /** handlerWrite notifies exactly when it empties the buffer. */
  lemma DrainNotifiesIff(v: View<nat>, k: WriteResult)
    requires LegalDrain(v.tcp, k)
    ensures WriteComplete(v.tcp.ch.self) in NewTasks(v, HandleWrite(v, k))
            <==> v.tcp.onWriteComplete && v.tcp.ch.events.write && v.tcp.output != [] && HandleWrite(v, k).tcp.output == []
  {
    HandleWriteUnfolds(v, k);
    var w := HandleWrite(v, k);
    if v.tcp.onWriteComplete && v.tcp.ch.events.write && v.tcp.output != [] && w.tcp.output == [] {
      assert w.queue == v.queue + [WriteComplete(v.tcp.ch.self)];
      assert NewTasks(v, w)[0] == WriteComplete(v.tcp.ch.self);
    }
  }

  /** A high-water notification carries the number of bytes then waiting. */
  lemma HighWaterTellsTheSize(v: View<nat>, m: Message, k: WriteResult)
    requires LegalSend(m, k)
    ensures forall task <- NewTasks(v, SendInLoop(v, m, k)) :: task.HighWater? ==> task.size == |SendInLoop(v, m, k).tcp.output|
  {
    SendQueues(v, m, k);
    assert NewTasks(v, SendInLoop(v, m, k)) == SendNotices(v.tcp, m, k);
  }

  lemma StepNotifiesWhenDone(p: Path, a: Action)
    requires Enabled(p, a)
    requires WriteComplete(p.v.tcp.ch.self) in NewTasks(p.v, Next(p, a).v)
    ensures Next(p, a).v.tcp.output == [] && p.v.tcp.onWriteComplete
  {
    match a
    case LocalSend(text, k) => SendNotifiesIff(p.v, Numbered(p, LOOP, text), k);
    case RunTask(k) => SendNotifiesIff(p.v, p.tasks[0], k);
    case Writable(k) => DrainNotifiesIff(p.v, k);
    case _ =>
  }

  /** A write-complete notification is queued only when all bytes accepted so far went to the kernel. */
  lemma WriteCompleteIsAccurate(fd: int, mark: nat, wc: bool, hw: bool, actions: seq<Action>, a: Action)
    requires LegalRun(Opened(fd, mark, wc, hw), actions)
    requires Enabled(Run(Opened(fd, mark, wc, hw), actions), a)
    ensures var p := Run(Opened(fd, mark, wc, hw), actions);
            var q := Next(p, a);
            WriteComplete(p.v.tcp.ch.self) in NewTasks(p.v, q.v) ==>
              Wire(q.v.tcp.calls) == Texts(q.v.tcp.accepted)
  {
    OpenedIsGood(fd, mark, wc, hw);
    RunKeepsGood(Opened(fd, mark, wc, hw), actions);
    var p := Run(Opened(fd, mark, wc, hw), actions);
    StepKeepsGood(p, a);
    if WriteComplete(p.v.tcp.ch.self) in NewTasks(p.v, Next(p, a).v) {
      StepNotifiesWhenDone(p, a);
      var t := Next(p, a).v.tcp;
      assert Wire(t.calls) + [] == Wire(t.calls);
    }
  }
}
