/** One TCP connection: its state, its channel, its two buffers and its socket. Every handler is a
    function on what it can touch: the connection, its loop's poller and its loop's functor queue. */
module TcpSpec {
  import opened Bytes
  import opened PollerSpec

  datatype State = Connecting | Connected | DisConnecting | Disconnected

  datatype Errno = EWouldBlock | EPipe | EConnReset | OtherErrno

  // What the kernel answers to one write and to one readv.
  datatype WriteResult = Wrote(n: nat) | WriteFailed(errno: Errno)
  datatype ReadResult = Received(chunk: seq<byte>) | EndOfFile | ReadFailed

  // The calls made on the socket, with the bytes the kernel took.
  datatype SocketCall = Write(sent: seq<byte>) | ShutWr

  // The functions set by the user and the server, in the order in which they are called.
  datatype Callback = Up | Incoming | Down | Closed

  // The n-th message that a thread sends on this connection.
  datatype Message = Message(thread: nat, n: nat, text: seq<byte>)

  datatype Task<C> =
    | Established(conn: C)
    | RemoveInLoop(conn: C)
    | Destroyed(conn: C)
    | WriteComplete(conn: C)
    | HighWater(conn: C, size: nat)
    | SendTask(conn: C, message: Message)

  datatype Tcp<C> = Tcp(
    state: State,
    ch: Channel<C>,
    input: seq<byte>,
    output: seq<byte>,
    mark: nat,
    onWriteComplete: bool,      // whether the two notification callbacks are set
    onHighWater: bool,
    calls: seq<SocketCall>,     // history
    accepted: seq<Message>,     // history: messages taken whole, not rejected and not faulted
    told: seq<Callback>)        // history

  datatype View<C> = View(tcp: Tcp<C>, poller: Poller<C>, queue: seq<Task<C>>)

  function NewTcp<C>(self: C, fd: int, mark: nat, onWriteComplete: bool, onHighWater: bool): Tcp<C> {
    Tcp(Connecting, Channel(self, fd, NONE, New), [], [], mark, onWriteComplete, onHighWater, [], [], [])
  }

  function Touch<C>(v: View<C>, op: ChannelOp): View<C> {
    var (p, ch) := ApplyOp(v.poller, v.tcp.ch, op);
    v.(poller := p, tcp := v.tcp.(ch := ch))
  }

  function SetState<C>(v: View<C>, state: State): View<C> { v.(tcp := v.tcp.(state := state)) }

  function Tell<C>(v: View<C>, callback: Callback): View<C> {
    v.(tcp := v.tcp.(told := v.tcp.told + [callback]))
  }

  function CallSocket<C>(v: View<C>, call: SocketCall): View<C> {
    v.(tcp := v.tcp.(calls := v.tcp.calls + [call]))
  }

  function NotifyWriteComplete<C>(v: View<C>): View<C> {
    if v.tcp.onWriteComplete then v.(queue := v.queue + [WriteComplete(v.tcp.ch.self)]) else v
  }

  // ----- the handlers

  predicate WritesDirectly<C>(t: Tcp<C>) {
    t.state != Disconnected && !t.ch.events.write && t.output == []
  }

  predicate Faults<C>(t: Tcp<C>, k: WriteResult) {
    WritesDirectly(t) && k.WriteFailed? && (k.errno == EPipe || k.errno == EConnReset)
  }

  predicate Accepts<C>(t: Tcp<C>, k: WriteResult) {
    t.state != Disconnected && !Faults(t, k)
  }

  predicate LegalSend(m: Message, k: WriteResult) {
    k.Wrote? ==> k.n <= |m.text|
  }

  predicate LegalDrain<C>(t: Tcp<C>, k: WriteResult) {
    k.Wrote? ==> k.n <= |t.output|
  }

  function BytesSent(text: seq<byte>, k: WriteResult): seq<byte>
    requires k.Wrote? ==> k.n <= |text|
  {
    if k.Wrote? then text[..k.n] else []
  }

  function BufferRest<C>(v: View<C>, rest: seq<byte>): View<C> {
    var waiting := |v.tcp.output|;
    var v1 := if waiting + |rest| >= v.tcp.mark && waiting < v.tcp.mark && v.tcp.onHighWater
              then v.(queue := v.queue + [HighWater(v.tcp.ch.self, waiting + |rest|)]) else v;
    var v2 := v1.(tcp := v1.tcp.(output := v1.tcp.output + rest));
    if !v2.tcp.ch.events.write then Touch(v2, EnableWriting) else v2
  }

  function WriteThrough<C>(v: View<C>, text: seq<byte>, k: WriteResult): View<C>
    requires k.Wrote? ==> k.n <= |text|
  {
    var v1 := CallSocket(v, Write(BytesSent(text, k)));
    if k == Wrote(|text|) then NotifyWriteComplete(v1) else v1
  }

  function SendInLoop<C>(v: View<C>, m: Message, k: WriteResult): View<C>
    requires LegalSend(m, k)
  {
    if v.tcp.state == Disconnected then v
    else
      var direct := WritesDirectly(v.tcp);
      var v1 := if direct then WriteThrough(v, m.text, k) else v;
      var rest := if direct then m.text[|BytesSent(m.text, k)|..] else m.text;
      if Faults(v.tcp, k) then v1 else TakeRest(v1, m, rest)
  }

  // The message is taken, and what was not written is buffered.
  function TakeRest<C>(v: View<C>, m: Message, rest: seq<byte>): View<C> {
    var v1 := v.(tcp := v.tcp.(accepted := v.tcp.accepted + [m]));
    if rest == [] then v1 else BufferRest(v1, rest)
  }

  function Send<C>(v: View<C>, m: Message, k: WriteResult): View<C>
    requires LegalSend(m, k)
  {
    if v.tcp.state == Connected then SendInLoop(v, m, k) else v
  }

  function ShutdownInLoop<C>(v: View<C>): View<C> {
    if !v.tcp.ch.events.write then CallSocket(v, ShutWr) else v
  }

  function Shutdown<C>(v: View<C>): View<C> {
    if v.tcp.state == Connected then ShutdownInLoop(SetState(v, DisConnecting)) else v
  }

  function Drained<C>(v: View<C>): View<C> {
    var v1 := NotifyWriteComplete(Touch(v, DisableWriting));
    if v1.tcp.state == DisConnecting then ShutdownInLoop(v1) else v1
  }

  function HandleWrite<C>(v: View<C>, k: WriteResult): View<C>
    requires LegalDrain(v.tcp, k)
  {
    if !v.tcp.ch.events.write then v
    else
      var sent := BytesSent(v.tcp.output, k);
      var v1 := CallSocket(v, Write(sent));
      if sent == [] then v1
      else
        var v2 := v1.(tcp := v1.tcp.(output := v1.tcp.output[|sent|..]));
        if v2.tcp.output == [] then Drained(v2) else v2
  }

  // handlerClose up to and after the point where the user's connection callback runs.
  function CloseBegin<C>(v: View<C>): View<C> {
    Tell(Touch(SetState(v, Disconnected), DisableAll), Down)
  }

  function CloseEnd<C>(v: View<C>): View<C> { Tell(v, Closed) }

  function HandleClose<C>(v: View<C>): View<C> { CloseEnd(CloseBegin(v)) }

  function TakeInput<C>(v: View<C>, chunk: seq<byte>): View<C> {
    Tell(v.(tcp := v.tcp.(input := v.tcp.input + chunk)), Incoming)
  }

  // The user takes n bytes out of the input buffer, or all of them.
  function RetrieveInput<C>(v: View<C>, n: nat): View<C> {
    v.(tcp := v.tcp.(input := if n < |v.tcp.input| then v.tcp.input[n..] else []))
  }

  function HandleRead<C>(v: View<C>, r: ReadResult): View<C> {
    match r
    case Received(chunk) => if chunk == [] then HandleClose(v) else TakeInput(v, chunk)
    case EndOfFile => HandleClose(v)
    case ReadFailed => v
  }

  function ConnectionEstablished<C>(v: View<C>): View<C> {
    Tell(Touch(SetState(v, Connected), EnableReading), Up)
  }

  function ConnectionDestroyed<C>(v: View<C>): View<C> {
    var v1 := if v.tcp.state == Connected then CloseBegin(v) else v;
    Touch(v1, Remove)
  }

  // ----- what the histories mean

  // The byte stream that went to the kernel.
  function Wire(calls: seq<SocketCall>): seq<byte> {
    if calls == [] then []
    else
      var last := calls[|calls| - 1];
      Wire(calls[..|calls| - 1]) + (if last.Write? then last.sent else [])
  }

  function Texts(messages: seq<Message>): seq<byte> {
    if messages == [] then [] else Texts(messages[..|messages| - 1]) + messages[|messages| - 1].text
  }

  // How often the user or the server was called back.
  function Times(told: seq<Callback>, callback: Callback): nat {
    if told == [] then 0 else Times(told[..|told| - 1], callback) + (if told[|told| - 1] == callback then 1 else 0)
  }

  lemma TimesSnoc(told: seq<Callback>, last: Callback, callback: Callback)
    ensures Times(told + [last], callback) == Times(told, callback) + (if last == callback then 1 else 0)
  {
    assert (told + [last])[..|told|] == told;
  }

  lemma WireSnoc(calls: seq<SocketCall>, call: SocketCall)
    ensures Wire(calls + [call]) == Wire(calls) + (if call.Write? then call.sent else [])
  {
    assert (calls + [call])[..|calls|] == calls;
  }

  lemma TextsSnoc(messages: seq<Message>, m: Message)
    ensures Texts(messages + [m]) == Texts(messages) + m.text
  {
    assert (messages + [m])[..|messages|] == messages;
  }

  /** Nothing is lost, repeated or reordered between `send` and the kernel. */
  ghost predicate Conserves<C>(t: Tcp<C>) {
    Wire(t.calls) + t.output == Texts(t.accepted)
  }

  /** While the connection is up, EPOLLOUT is wanted exactly when bytes are waiting. */
  ghost predicate Steady<C>(t: Tcp<C>) {
    && (t.state == Connecting ==> t.output == [] && t.ch.events == NONE && t.ch.index == New && t.calls == [] && t.told == [])
    && (t.state in {Connected, DisConnecting} ==>
          t.ch.index == Added && t.ch.events.read && (t.ch.events.write <==> t.output != []))
    && (t.state == Disconnected ==> t.ch.events == NONE && t.ch.index != Added)
    && (t.state == Connected ==> ShutWr !in t.calls)
    && (t.state == DisConnecting && t.output == [] ==> ShutWr in t.calls)
  }

  ghost predicate Sound<C>(t: Tcp<C>) { Conserves(t) && Steady(t) }

  // How a handler may change its surroundings: its own descriptor's entries, and notifications.
  ghost predicate Local<C>(v: View<C>, w: View<C>) {
    && w.tcp.ch.self == v.tcp.ch.self && w.tcp.ch.fd == v.tcp.ch.fd
    && w.poller.legal == v.poller.legal
    && Agrees(w.poller, w.tcp.ch)
    && SameElsewhere(v.poller, w.poller, v.tcp.ch.fd)
    && |v.queue| <= |w.queue| && w.queue[..|v.queue|] == v.queue
    && forall i :: |v.queue| <= i < |w.queue| ==>
         w.queue[i] == WriteComplete(v.tcp.ch.self) || (w.queue[i].HighWater? && w.queue[i].conn == v.tcp.ch.self)
  }

  lemma TouchIsLocal<C>(v: View<C>, op: ChannelOp)
    requires Agrees(v.poller, v.tcp.ch)
    ensures Local(v, Touch(v, op))
    ensures Touch(v, op).tcp == v.tcp.(ch := Touch(v, op).tcp.ch) && Touch(v, op).queue == v.queue
    ensures Touch(v, op).tcp.ch.events == Mask(v.tcp.ch.events, op)
  {
    OpKeepsAgreement(v.poller, v.tcp.ch, op);
  }

  lemma BufferRestIsLocal<C>(v: View<C>, rest: seq<byte>)
    requires Agrees(v.poller, v.tcp.ch)
    ensures Local(v, BufferRest(v, rest))
    ensures var t := BufferRest(v, rest).tcp;
            t == v.tcp.(output := v.tcp.output + rest, ch := t.ch)
            && t.ch.events == v.tcp.ch.events.(write := true)
            && (v.tcp.ch.index == Added ==> t.ch.index == Added)
  {
    OpKeepsAgreement(v.poller, v.tcp.ch, EnableWriting);
  }

  lemma LocalChain<C>(u: View<C>, v: View<C>, w: View<C>)
    requires Local(u, v) && Local(v, w)
    ensures Local(u, w)
  {
    assert w.queue[..|u.queue|] == w.queue[..|v.queue|][..|u.queue|];
    forall i | |u.queue| <= i < |w.queue|
      ensures w.queue[i] == WriteComplete(u.tcp.ch.self) || (w.queue[i].HighWater? && w.queue[i].conn == u.tcp.ch.self)
    {
      assert i < |v.queue| ==> w.queue[i] == w.queue[..|v.queue|][i];
    }
  }

  // What a send leaves to be buffered, and the connection at that point.
  function Rest<C>(t: Tcp<C>, m: Message, k: WriteResult): seq<byte>
    requires LegalSend(m, k)
  {
    if WritesDirectly(t) then m.text[|BytesSent(m.text, k)|..] else m.text
  }

  function Accepted<C>(v: View<C>, m: Message, k: WriteResult): View<C>
    requires LegalSend(m, k)
  {
    var v1 := if WritesDirectly(v.tcp) then WriteThrough(v, m.text, k) else v;
    v1.(tcp := v1.tcp.(accepted := v1.tcp.accepted + [m]))
  }

  lemma AcceptedIsLocal<C>(v: View<C>, m: Message, k: WriteResult)
    requires LegalSend(m, k) && Agrees(v.poller, v.tcp.ch)
    ensures Local(v, Accepted(v, m, k))
    ensures Local(v, WriteThrough(v, m.text, k))
    ensures var t := Accepted(v, m, k).tcp;
            t == v.tcp.(calls := t.calls, accepted := v.tcp.accepted + [m])
            && (ShutWr in t.calls <==> ShutWr in v.tcp.calls)
  {
  }

  lemma SplitMessage(wire: seq<byte>, output: seq<byte>, text: seq<byte>, sent: seq<byte>)
    requires sent <= text
    ensures output == [] ==> (wire + sent) + output == wire + sent
    ensures output == [] ==> (wire + sent) + output + text[|sent|..] == (wire + output) + text
  {
    assert sent + text[|sent|..] == text;
    assert wire + sent + text[|sent|..] == wire + (sent + text[|sent|..]);
  }

  lemma AcceptedConserves<C>(v: View<C>, m: Message, k: WriteResult)
    requires LegalSend(m, k) && Conserves(v.tcp)
    ensures Wire(Accepted(v, m, k).tcp.calls) + v.tcp.output + Rest(v.tcp, m, k)
            == Texts(v.tcp.accepted + [m])
    ensures Faults(v.tcp, k) ==> Conserves(WriteThrough(v, m.text, k).tcp)
  {
    TextsSnoc(v.tcp.accepted, m);
    var sent := BytesSent(m.text, k);
    WireSnoc(v.tcp.calls, Write(sent));
    SplitMessage(Wire(v.tcp.calls), v.tcp.output, m.text, sent);
  }

  lemma SendUnfolds<C>(v: View<C>, m: Message, k: WriteResult)
    requires LegalSend(m, k)
    ensures SendInLoop(v, m, k) ==
            if v.tcp.state == Disconnected then v
            else if Faults(v.tcp, k) then WriteThrough(v, m.text, k)
            else if Rest(v.tcp, m, k) == [] then Accepted(v, m, k)
            else BufferRest(Accepted(v, m, k), Rest(v.tcp, m, k))
  {
  }

  lemma SendIsLocal<C>(v: View<C>, m: Message, k: WriteResult)
    requires LegalSend(m, k) && Agrees(v.poller, v.tcp.ch)
    ensures Local(v, SendInLoop(v, m, k))
  {
    SendUnfolds(v, m, k);
    AcceptedIsLocal(v, m, k);
    BufferRestIsLocal(Accepted(v, m, k), Rest(v.tcp, m, k));
    LocalChain(v, Accepted(v, m, k), BufferRest(Accepted(v, m, k), Rest(v.tcp, m, k)));
  }

  lemma SendConserves<C>(v: View<C>, m: Message, k: WriteResult)
    requires LegalSend(m, k) && Agrees(v.poller, v.tcp.ch) && Conserves(v.tcp)
    ensures Conserves(SendInLoop(v, m, k).tcp)
    ensures SendInLoop(v, m, k).tcp.accepted
            == if Accepts(v.tcp, k) then v.tcp.accepted + [m] else v.tcp.accepted
  {
    SendUnfolds(v, m, k);
    AcceptedIsLocal(v, m, k);
    AcceptedConserves(v, m, k);
    BufferRestIsLocal(Accepted(v, m, k), Rest(v.tcp, m, k));
    var calls, out, rest := Accepted(v, m, k).tcp.calls, v.tcp.output, Rest(v.tcp, m, k);
    assert Wire(calls) + out + rest == Wire(calls) + (out + rest);
  }

  lemma SendIsSteady<C>(v: View<C>, m: Message, k: WriteResult)
    requires LegalSend(m, k) && Agrees(v.poller, v.tcp.ch) && Steady(v.tcp) && v.tcp.state != Connecting
    ensures var t := SendInLoop(v, m, k).tcp;
            Steady(t) && t.state == v.tcp.state && t.told == v.tcp.told
  {
    SendUnfolds(v, m, k);
    AcceptedIsLocal(v, m, k);
    BufferRestIsLocal(Accepted(v, m, k), Rest(v.tcp, m, k));
  }

  lemma SendIsSound<C>(v: View<C>, m: Message, k: WriteResult)
    requires LegalSend(m, k) && Agrees(v.poller, v.tcp.ch) && v.tcp.state != Connecting && Sound(v.tcp)
    ensures var w := SendInLoop(v, m, k);
            Local(v, w) && Sound(w.tcp) && w.tcp.state == v.tcp.state && w.tcp.told == v.tcp.told
  {
    SendIsLocal(v, m, k);
    SendConserves(v, m, k);
    SendIsSteady(v, m, k);
  }

  lemma ShutdownIsSound<C>(v: View<C>)
    requires Agrees(v.poller, v.tcp.ch) && Sound(v.tcp)
    ensures Local(v, Shutdown(v)) && Sound(Shutdown(v).tcp)
    ensures Shutdown(v).tcp.told == v.tcp.told
    ensures Shutdown(v).tcp.state == if v.tcp.state == Connected then DisConnecting else v.tcp.state
  {
    if v.tcp.state == Connected {
      WireSnoc(v.tcp.calls, ShutWr);
      ShutdownUnfolds(v);
    }
  }

  lemma ShutdownUnfolds<C>(v: View<C>)
    requires v.tcp.state == Connected
    ensures Shutdown(v) == v.(tcp := v.tcp.(state := DisConnecting, calls := Shutdown(v).tcp.calls))
    ensures Shutdown(v).tcp.calls == if v.tcp.ch.events.write then v.tcp.calls else v.tcp.calls + [ShutWr]
  {
  }

  lemma DrainedIsSound<C>(v: View<C>)
    requires Agrees(v.poller, v.tcp.ch) && v.tcp.output == [] && Conserves(v.tcp)
    requires v.tcp.state in {Connected, DisConnecting} && v.tcp.ch.events.read && v.tcp.ch.index == Added
    requires v.tcp.state == Connected ==> ShutWr !in v.tcp.calls
    ensures Local(v, Drained(v)) && Sound(Drained(v).tcp)
    ensures Drained(v).tcp.told == v.tcp.told && Drained(v).tcp.state == v.tcp.state
  {
    TouchIsLocal(v, DisableWriting);
    WireSnoc(v.tcp.calls, ShutWr);
  }

  // handlerWrite just after the kernel took `sent` from the front of the output buffer.
  function Advanced<C>(v: View<C>, sent: seq<byte>): View<C>
    requires sent <= v.tcp.output
  {
    var v1 := CallSocket(v, Write(sent));
    v1.(tcp := v1.tcp.(output := v1.tcp.output[|sent|..]))
  }

  lemma AdvancedConserves<C>(v: View<C>, sent: seq<byte>)
    requires sent <= v.tcp.output && Conserves(v.tcp) && Agrees(v.poller, v.tcp.ch)
    ensures Conserves(Advanced(v, sent).tcp) && Local(v, Advanced(v, sent))
    ensures ShutWr in Advanced(v, sent).tcp.calls <==> ShutWr in v.tcp.calls
  {
    WireSnoc(v.tcp.calls, Write(sent));
    var rest := v.tcp.output[|sent|..];
    assert sent + rest == v.tcp.output;
    assert Wire(v.tcp.calls) + sent + rest == Wire(v.tcp.calls) + (sent + rest);
  }

  lemma HandleWriteUnfolds<C>(v: View<C>, k: WriteResult)
    requires LegalDrain(v.tcp, k)
    ensures var sent := BytesSent(v.tcp.output, k);
            HandleWrite(v, k) ==
              if !v.tcp.ch.events.write then v
              else if sent == [] || |sent| < |v.tcp.output| then Advanced(v, sent)
              else Drained(Advanced(v, sent))
  {
    assert v.tcp.output[0..] == v.tcp.output;
  }

  lemma HandleWriteIsSound<C>(v: View<C>, k: WriteResult)
    requires LegalDrain(v.tcp, k) && Agrees(v.poller, v.tcp.ch) && Sound(v.tcp)
    ensures var w := HandleWrite(v, k);
            Local(v, w) && Sound(w.tcp) && w.tcp.state == v.tcp.state && w.tcp.told == v.tcp.told
  {
    var sent := BytesSent(v.tcp.output, k);
    HandleWriteUnfolds(v, k);
    if v.tcp.ch.events.write {
      AdvancedConserves(v, sent);
      if sent != [] && |sent| == |v.tcp.output| {
        DrainedIsSound(Advanced(v, sent));
        LocalChain(v, Advanced(v, sent), Drained(Advanced(v, sent)));
      }
    }
  }

  lemma CloseIsSound<C>(v: View<C>)
    requires Agrees(v.poller, v.tcp.ch) && Sound(v.tcp) && v.tcp.ch.index == Added
    ensures Local(v, CloseBegin(v)) && Sound(CloseBegin(v).tcp)
    ensures CloseBegin(v).tcp.ch.index == Deleted && CloseBegin(v).tcp.state == Disconnected
    ensures CloseBegin(v).tcp.told == v.tcp.told + [Down]
  {
    TouchIsLocal(SetState(v, Disconnected), DisableAll);
  }

  lemma EstablishedIsSound<C>(v: View<C>)
    requires Agrees(v.poller, v.tcp.ch) && Sound(v.tcp) && v.tcp.state == Connecting
    ensures Local(v, ConnectionEstablished(v)) && Sound(ConnectionEstablished(v).tcp)
    ensures ConnectionEstablished(v).tcp.state == Connected && ConnectionEstablished(v).tcp.told == [Up]
  {
    TouchIsLocal(SetState(v, Connected), EnableReading);
  }

  lemma DestroyedIsSound<C>(v: View<C>)
    requires Agrees(v.poller, v.tcp.ch) && Sound(v.tcp) && v.tcp.state == Disconnected
    ensures Local(v, ConnectionDestroyed(v)) && Sound(ConnectionDestroyed(v).tcp)
    ensures ConnectionDestroyed(v).tcp.ch.index == New && ConnectionDestroyed(v).tcp.state == Disconnected
    ensures ConnectionDestroyed(v).tcp.told == v.tcp.told
  {
    TouchIsLocal(v, Remove);
  }
}
