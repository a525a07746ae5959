/** What each handler does to a connection, told case by case from the kernel's answer alone: which bytes
    the kernel took, which bytes wait, what is wanted of epoll, who is called back. */
module TcpOutcomes {
  import opened Bytes
  import opened PollerSpec
  import opened TcpSpec
  import opened SendPath

  // Nothing but these fields, and the registration of the channel, may differ.
  predicate OnlyOutput<C(==)>(t: Tcp<C>, t': Tcp<C>) {
    t' == t.(output := t'.output, calls := t'.calls, accepted := t'.accepted, ch := t'.ch)
    && t'.ch.self == t.ch.self && t'.ch.fd == t.ch.fd && t'.ch.events.read == t.ch.events.read
  }

  predicate SendOutcome<C(==)>(t: Tcp<C>, t': Tcp<C>, m: Message, k: WriteResult)
    requires k.Wrote? ==> k.n <= |m.text|
  {
    var direct := !t.ch.events.write && t.output == [];
    if t.state == Disconnected then t' == t
    else if direct && (k == WriteFailed(EPipe) || k == WriteFailed(EConnReset)) then
      t' == t.(calls := t.calls + [Write([])])
    else
      var n := if direct && k.Wrote? then k.n else 0;
      && OnlyOutput(t, t')
      && t'.calls == (if direct then t.calls + [Write(m.text[..n])] else t.calls)
      && t'.output == t.output + m.text[n..]
      && t'.accepted == t.accepted + [m]
      && (t'.ch.events.write <==> t.ch.events.write || n < |m.text|)
  }

  predicate DrainOutcome<C(==)>(t: Tcp<C>, t': Tcp<C>, k: WriteResult)
    requires k.Wrote? ==> k.n <= |t.output|
  {
    if !t.ch.events.write then t' == t
    else if k.WriteFailed? || k.n == 0 then t' == t.(calls := t.calls + [Write([])])
    else
      var shut := if k.n == |t.output| && t.state == DisConnecting then [ShutWr] else [];
      && OnlyOutput(t, t') && t'.accepted == t.accepted
      && t'.calls == t.calls + [Write(t.output[..k.n])] + shut
      && t'.output == t.output[k.n..]
      && (t'.ch.events.write <==> k.n < |t.output|)
  }

  predicate ShutdownOutcome<C(==)>(t: Tcp<C>, t': Tcp<C>) {
    if t.state != Connected then t' == t
    else t' == t.(state := DisConnecting, calls := if t.ch.events.write then t.calls else t.calls + [ShutWr])
  }

  // The close callbacks called so far are given by `callbacks`.
  predicate CloseOutcome<C(==)>(t: Tcp<C>, t': Tcp<C>, callbacks: seq<Callback>) {
    t' == t.(state := Disconnected, told := t.told + callbacks, ch := t'.ch)
    && t'.ch.self == t.ch.self && t'.ch.fd == t.ch.fd && t'.ch.events == NONE
  }

  predicate InputOutcome<C(==)>(t: Tcp<C>, t': Tcp<C>, chunk: seq<byte>) {
    t' == t.(input := t.input + chunk, told := t.told + [Incoming])
  }

  predicate AtEnd(r: ReadResult) {
    r.EndOfFile? || (r.Received? && r.chunk == [])
  }

  lemma AcceptedDoes<C>(v: View<C>, m: Message, k: WriteResult)
    requires k.Wrote? ==> k.n <= |m.text|
    ensures var sent := if k.Wrote? then m.text[..k.n] else [];
            var direct := v.tcp.state != Disconnected && !v.tcp.ch.events.write && v.tcp.output == [];
            && WriteThrough(v, m.text, k).tcp == v.tcp.(calls := v.tcp.calls + [Write(sent)])
            && Accepted(v, m, k).tcp == v.tcp.(calls := if direct then v.tcp.calls + [Write(sent)] else v.tcp.calls,
                                               accepted := v.tcp.accepted + [m])
            && Rest(v.tcp, m, k) == (if direct then m.text[|sent|..] else m.text)
            && (Faults(v.tcp, k) <==> direct && (k == WriteFailed(EPipe) || k == WriteFailed(EConnReset)))
  {
  }

  lemma BufferRestDoes<C>(v: View<C>, rest: seq<byte>)
    ensures var t := BufferRest(v, rest).tcp;
            t == v.tcp.(output := v.tcp.output + rest, ch := t.ch)
            && t.ch.self == v.tcp.ch.self && t.ch.fd == v.tcp.ch.fd && t.ch.events == v.tcp.ch.events.(write := true)
  {
  }

  lemma SendDoes<C>(v: View<C>, m: Message, k: WriteResult)
    requires k.Wrote? ==> k.n <= |m.text|
    ensures SendOutcome(v.tcp, SendInLoop(v, m, k).tcp, m, k)
  {
    SendUnfolds(v, m, k);
    AcceptedDoes(v, m, k);
    BufferRestDoes(Accepted(v, m, k), Rest(v.tcp, m, k));
    assert m.text[0..] == m.text && v.tcp.output + [] == v.tcp.output;
  }

  lemma SendOnLoopDoes<C>(v: View<C>, m: Message, k: WriteResult)
    requires k.Wrote? ==> k.n <= |m.text|
    ensures if v.tcp.state == Connected then SendOutcome(v.tcp, Send(v, m, k).tcp, m, k) else Send(v, m, k) == v
  {
    SendDoes(v, m, k);
  }

  lemma HandleWriteDoes<C>(v: View<C>, k: WriteResult)
    requires k.Wrote? ==> k.n <= |v.tcp.output|
    ensures DrainOutcome(v.tcp, HandleWrite(v, k).tcp, k)
  {
    HandleWriteUnfolds(v, k);
    if k.Wrote? {
      assert v.tcp.output[0..] == v.tcp.output;
    }
  }

  lemma ShutdownDoes<C>(v: View<C>)
    ensures ShutdownOutcome(v.tcp, Shutdown(v).tcp)
  {
  }

  lemma HandleReadDoes<C>(v: View<C>, r: ReadResult)
    ensures AtEnd(r) ==> CloseOutcome(v.tcp, HandleRead(v, r).tcp, [Down, Closed])
    ensures r.Received? && r.chunk != [] ==> InputOutcome(v.tcp, HandleRead(v, r).tcp, r.chunk)
    ensures r.ReadFailed? ==> HandleRead(v, r) == v
  {
    assert v.tcp.told + [Down] + [Closed] == v.tcp.told + [Down, Closed];
  }

  lemma LifecycleDoes<C>(v: View<C>)
    ensures CloseOutcome(v.tcp, CloseBegin(v).tcp, [Down])
    ensures CloseOutcome(v.tcp, HandleClose(v).tcp, [Down, Closed])
    ensures var t := ConnectionEstablished(v).tcp;
            t == v.tcp.(state := Connected, told := v.tcp.told + [Up], ch := t.ch)
            && t.ch.fd == v.tcp.ch.fd && t.ch.events == v.tcp.ch.events.(read := true)
    ensures var t := ConnectionDestroyed(v).tcp;
            t.ch.index == New
            && if v.tcp.state == Connected then CloseOutcome(v.tcp, t, [Down]) else t == v.tcp.(ch := t.ch)
  {
    assert v.tcp.told + [Down] + [Closed] == v.tcp.told + [Down, Closed];
  }

  /** Every legal answer of the kernel, and every call of the user, is a step of the model. */
  lemma NothingIsRuledOut(p: Path, text: seq<byte>, k: WriteResult, r: ReadResult, thread: nat, n: nat)
    ensures (k.Wrote? ==> k.n <= |text|) ==> Enabled(p, LocalSend(text, k))
    ensures thread != LOOP && thread !in p.checked ==> Enabled(p, CheckState(thread, text))
    ensures thread in p.checked ==> Enabled(p, PushTask(thread))
    ensures p.tasks != [] && (k.Wrote? ==> k.n <= |p.tasks[0].text|) ==> Enabled(p, RunTask(k))
    ensures (k.Wrote? ==> k.n <= |p.v.tcp.output|) ==> Enabled(p, Writable(k))
    ensures p.v.tcp.ch.index == Added ==> Enabled(p, Readable(r)) && Enabled(p, HangUp)
    ensures Enabled(p, LocalShutdown) && Enabled(p, Retrieve(n))
  {
  }

  // ----- the wire, over whole runs

  // The bytes that the kernel says it took: from the message if it is written directly, from the front
  // of the output buffer if that is being drained.
  function TookBy(p: Path, a: Action): seq<byte>
    requires Enabled(p, a)
  {
    var t := p.v.tcp;
    match a
    case LocalSend(text, Wrote(n)) =>
      if t.state == Connected && !t.ch.events.write && t.output == [] then text[..n] else []
    case RunTask(Wrote(n)) =>
      if t.state != Disconnected && !t.ch.events.write && t.output == [] then p.tasks[0].text[..n] else []
    case Writable(Wrote(n)) => if t.ch.events.write then t.output[..n] else []
    case _ => []
  }

  function Took(p: Path, actions: seq<Action>): seq<byte>
    requires LegalRun(p, actions)
    decreases |actions|
  {
    if actions == [] then [] else TookBy(p, actions[0]) + Took(Next(p, actions[0]), actions[1..])
  }

  lemma SendTakes(v: View<nat>, m: Message, k: WriteResult)
    requires k.Wrote? ==> k.n <= |m.text|
    ensures Wire(SendInLoop(v, m, k).tcp.calls)
            == Wire(v.tcp.calls)
               + (if v.tcp.state != Disconnected && !v.tcp.ch.events.write && v.tcp.output == [] && k.Wrote?
                  then m.text[..k.n] else [])
  {
    SendDoes(v, m, k);
    WireSnoc(v.tcp.calls, Write([]));
    if k.Wrote? {
      WireSnoc(v.tcp.calls, Write(m.text[..k.n]));
    }
  }

  lemma DrainTakes(v: View<nat>, k: WriteResult)
    requires k.Wrote? ==> k.n <= |v.tcp.output|
    ensures Wire(HandleWrite(v, k).tcp.calls)
            == Wire(v.tcp.calls) + (if v.tcp.ch.events.write && k.Wrote? then v.tcp.output[..k.n] else [])
  {
    HandleWriteDoes(v, k);
    WireSnoc(v.tcp.calls, Write([]));
    if k.Wrote? {
      var calls := v.tcp.calls + [Write(v.tcp.output[..k.n])];
      WireSnoc(v.tcp.calls, Write(v.tcp.output[..k.n]));
      WireSnoc(calls, ShutWr);
    }
  }

  lemma StepTakes(p: Path, a: Action)
    requires Enabled(p, a)
    ensures Wire(Next(p, a).v.tcp.calls) == Wire(p.v.tcp.calls) + TookBy(p, a)
  {
    match a
    case LocalSend(text, k) => SendTakes(p.v, Numbered(p, LOOP, text), k);
    case RunTask(k) => SendTakes(p.v, p.tasks[0], k);
    case Writable(k) => DrainTakes(p.v, k);
    case LocalShutdown => WireSnoc(p.v.tcp.calls, ShutWr);
    case _ =>
  }

  lemma JoinThree(a: seq<byte>, b: seq<byte>, c: seq<byte>)
    ensures (a + b) + c == a + (b + c)
  {
  }

  lemma {:induction false} RunTakes(p: Path, actions: seq<Action>)
    requires LegalRun(p, actions)
    ensures Wire(Run(p, actions).v.tcp.calls) == Wire(p.v.tcp.calls) + Took(p, actions)
    decreases |actions|
  {
    if actions == [] {
    } else {
      StepTakes(p, actions[0]);
      RunTakes(Next(p, actions[0]), actions[1..]);
      JoinThree(Wire(p.v.tcp.calls), TookBy(p, actions[0]), Took(Next(p, actions[0]), actions[1..]));
    }
  }

  lemma OpenedHasSentNothing(fd: int, mark: nat, wc: bool, hw: bool)
    ensures Wire(Opened(fd, mark, wc, hw).v.tcp.calls) == []
    ensures var t := Opened(fd, mark, wc, hw).v.tcp;
            t.ch.fd == fd && t.mark == mark && t.onWriteComplete == wc && t.onHighWater == hw
            && t.state == Connected && t.told == [Up] && t.input == [] && t.output == []
  {
  }

  lemma NothingBefore(a: seq<byte>)
    ensures [] + a == a
  {
  }

  /** In every run the bytes that the kernel's answers say it took, followed by the bytes waiting, are the
      accepted messages, whole and end to end: the peer gets each byte once and in its place. */
  lemma KernelTookTheMessages(fd: int, mark: nat, wc: bool, hw: bool, actions: seq<Action>)
    requires LegalRun(Opened(fd, mark, wc, hw), actions)
    ensures var start := Opened(fd, mark, wc, hw);
            var t := Run(start, actions).v.tcp;
            Took(start, actions) + t.output == Texts(t.accepted) && Wire(t.calls) == Took(start, actions)
  {
    OpenedHasSentNothing(fd, mark, wc, hw);
    RunTakes(Opened(fd, mark, wc, hw), actions);
    WireStream(fd, mark, wc, hw, actions);
    NothingBefore(Took(Opened(fd, mark, wc, hw), actions));
  }

  // ----- the message callback, over whole runs

  predicate Delivers(a: Action) {
    a.Readable? && a.r.Received? && a.r.chunk != []
  }

  function Deliveries(actions: seq<Action>): nat {
    if actions == [] then 0 else (if Delivers(actions[0]) then 1 else 0) + Deliveries(actions[1..])
  }

  lemma StepTells(p: Path, a: Action)
    requires Enabled(p, a)
    ensures Times(Next(p, a).v.tcp.told, Incoming) == Times(p.v.tcp.told, Incoming) + (if Delivers(a) then 1 else 0)
  {
    var told := p.v.tcp.told;
    TimesSnoc(told, Incoming, Incoming);
    TimesSnoc(told, Down, Incoming);
    TimesSnoc(told + [Down], Closed, Incoming);
    match a
    case LocalSend(text, k) => SendDoes(p.v, Numbered(p, LOOP, text), k);
    case RunTask(k) => SendDoes(p.v, p.tasks[0], k);
    case Writable(k) => HandleWriteDoes(p.v, k);
    case _ =>
  }

  /** Over any run the message callback is called once for every readv that delivered bytes, and at no
      other time. */
  lemma {:induction false} EveryDeliveryIsTold(p: Path, actions: seq<Action>)
    requires LegalRun(p, actions)
    ensures Times(Run(p, actions).v.tcp.told, Incoming) == Times(p.v.tcp.told, Incoming) + Deliveries(actions)
    decreases |actions|
  {
    if actions == [] {
    } else {
      StepTells(p, actions[0]);
      EveryDeliveryIsTold(Next(p, actions[0]), actions[1..]);
    }
  }
}
