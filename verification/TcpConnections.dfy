/** The connection object: the handlers as they run on its loop's thread, step by step, each proved
    against the specification function of the same name. */
module TcpConnections {
  import opened Bytes
  import opened TcpSpec
  import opened NetBuffer
  import BufferSpec
  import Reactor

  class TcpConnection {
    const loop: Reactor.EventLoop
    const channel: Reactor.Channel
    const inputBuffer: Buffer
    const outputBuffer: Buffer
    const name: string
    var state: State
    var highWaterMark: nat
    var writeCompleteCallback: bool
    var highWaterMarkCallback: bool
    ghost var calls: seq<SocketCall>
    ghost var accepted: seq<Message>
    ghost var told: seq<Callback>

    ghost predicate Valid()
      reads this, inputBuffer, outputBuffer
    {
      && channel.loop == loop
      && inputBuffer != outputBuffer && inputBuffer.buffer != outputBuffer.buffer
      && inputBuffer.Valid() && outputBuffer.Valid()
    }

    ghost function Tcp(): TcpSpec.Tcp<Reactor.Channel>
      requires Valid()
      reads this, channel, inputBuffer, outputBuffer, inputBuffer.buffer, outputBuffer.buffer
    {
      TcpSpec.Tcp(state, channel.V(), inputBuffer.V().content, outputBuffer.V().content, highWaterMark,
                  writeCompleteCallback, highWaterMarkCallback, calls, accepted, told)
    }

    ghost function V(): View<Reactor.Channel>
      requires Valid()
      reads this, channel, loop, loop.poller, inputBuffer, outputBuffer, inputBuffer.buffer, outputBuffer.buffer
    {
      View(Tcp(), loop.poller.V(), loop.pending)
    }

    constructor (loop: Reactor.EventLoop, name: string, sockfd: int)
      ensures Valid() && fresh(channel) && fresh(inputBuffer) && fresh(outputBuffer)
      ensures fresh(inputBuffer.buffer) && fresh(outputBuffer.buffer)
      ensures this.loop == loop && this.name == name && !writeCompleteCallback && !highWaterMarkCallback
      ensures Tcp() == NewTcp(channel, sockfd, 64 * 1024 * 1024, false, false)
    {
      this.loop, this.name, state := loop, name, Connecting;
      channel := new Reactor.Channel(loop, sockfd);
      inputBuffer := new Buffer(1024);
      outputBuffer := new Buffer(1024);
      highWaterMark := 64 * 1024 * 1024;
      writeCompleteCallback, highWaterMarkCallback := false, false;
      calls, accepted, told := [], [], [];
    }

    method QueueInLoop(task: Task<Reactor.Channel>)
      requires Valid()
      modifies loop`pending, loop`counter
      ensures Valid() && V() == old(V()).(queue := old(V()).queue + [task])
    {
      loop.QueueInLoop(true, task);
    }

    method NotifyWriteComplete()
      requires Valid()
      modifies loop`pending, loop`counter
      ensures Valid() && V() == TcpSpec.NotifyWriteComplete(old(V()))
    {
      if writeCompleteCallback {
        QueueInLoop(WriteComplete(channel));
      }
    }

    // The direct write of sendInLoop; `k` is the kernel's answer.
    method WriteThrough(data: seq<byte>, k: WriteResult) returns (nwrote: nat, faultError: bool)
      requires Valid() && (k.Wrote? ==> k.n <= |data|)
      modifies this, loop`pending, loop`counter
      ensures Valid() && V() == TcpSpec.WriteThrough(old(V()), data, k)
      ensures nwrote == |BytesSent(data, k)|
      ensures faultError <==> k == WriteFailed(EPipe) || k == WriteFailed(EConnReset)
    {
      nwrote, faultError := 0, false;
      calls := calls + [Write(BytesSent(data, k))];
      match k {
        case Wrote(n) =>
          nwrote := n;
          if |data| - n == 0 {
            NotifyWriteComplete();
          }
        case WriteFailed(errno) =>
          if errno != EWouldBlock && (errno == EPipe || errno == EConnReset) {
            faultError := true;
          }
      }
    }

    // The socket is written only when nothing is waiting; `k` is then the kernel's answer.
    method WriteFirst(data: seq<byte>, k: WriteResult) returns (nwrote: nat, faultError: bool)
      requires Valid() && (k.Wrote? ==> k.n <= |data|) && state != Disconnected
      modifies this, loop`pending, loop`counter
      ensures Valid()
      ensures V() == if WritesDirectly(old(Tcp())) then TcpSpec.WriteThrough(old(V()), data, k) else old(V())
      ensures nwrote == if WritesDirectly(old(Tcp())) then |BytesSent(data, k)| else 0
      ensures faultError <==> Faults(old(Tcp()), k)
    {
      nwrote, faultError := 0, false;
      if !channel.IsWriting() && outputBuffer.ReadableBytes() == 0 {
        nwrote, faultError := WriteThrough(data, k);
      }
    }

    method SendInLoop(message: Message, k: WriteResult)
      requires Valid() && LegalSend(message, k)
      modifies this, channel`events, channel`index, loop, loop.poller, outputBuffer, outputBuffer.buffer
      ensures Valid() && (outputBuffer.buffer == old(outputBuffer.buffer) || fresh(outputBuffer.buffer))
      ensures V() == TcpSpec.SendInLoop(old(V()), message, k)
    {
      if state == Disconnected {
        return;
      }
      var nwrote, faultError := WriteFirst(message.text, k);
      assert message.text[0..] == message.text;
      if !faultError {
        TakeRest(message, nwrote);
      }
    }

    method TakeRest(message: Message, nwrote: nat)
      requires Valid() && nwrote <= |message.text|
      modifies this, channel`events, channel`index, loop, loop.poller, outputBuffer, outputBuffer.buffer
      ensures Valid() && (outputBuffer.buffer == old(outputBuffer.buffer) || fresh(outputBuffer.buffer))
      ensures V() == TcpSpec.TakeRest(old(V()), message, message.text[nwrote..])
    {
      accepted := accepted + [message];
      var remaining := |message.text| - nwrote;
      if remaining > 0 {
        BufferRest(message.text[nwrote..]);
      }
    }

    method NotifyHighWater(oldLen: nat, more: nat)
      requires Valid()
      modifies loop`pending, loop`counter
      ensures Valid()
      ensures V() == if oldLen < highWaterMark <= oldLen + more && highWaterMarkCallback
                     then old(V()).(queue := old(V()).queue + [HighWater(channel, oldLen + more)])
                     else old(V())
    {
      if oldLen + more >= highWaterMark && oldLen < highWaterMark && highWaterMarkCallback {
        QueueInLoop(HighWater(channel, oldLen + more));
      }
    }

    method AppendOutput(rest: seq<byte>)
      requires Valid()
      modifies outputBuffer, outputBuffer.buffer
      ensures Valid() && (outputBuffer.buffer == old(outputBuffer.buffer) || fresh(outputBuffer.buffer))
      ensures V() == old(V()).(tcp := old(V()).tcp.(output := old(V()).tcp.output + rest))
    {
      BufferSpec.RoomIsMade(outputBuffer.V(), |rest|);
      outputBuffer.Append(rest);
    }

    method BufferRest(rest: seq<byte>)
      requires Valid()
      modifies this, channel`events, channel`index, loop, loop.poller, outputBuffer, outputBuffer.buffer
      ensures Valid() && (outputBuffer.buffer == old(outputBuffer.buffer) || fresh(outputBuffer.buffer))
      ensures V() == TcpSpec.BufferRest(old(V()), rest)
    {
      NotifyHighWater(outputBuffer.ReadableBytes(), |rest|);
      AppendOutput(rest);
      if !channel.IsWriting() {
        channel.EnableWriting();
      }
    }

    method Send(message: Message, k: WriteResult)
      requires Valid() && LegalSend(message, k)
      modifies this, channel`events, channel`index, loop, loop.poller, outputBuffer, outputBuffer.buffer
      ensures Valid() && (outputBuffer.buffer == old(outputBuffer.buffer) || fresh(outputBuffer.buffer))
      ensures V() == TcpSpec.Send(old(V()), message, k)
    {
      if state == Connected {
        SendInLoop(message, k);
      }
    }

    // send() called on another thread.
    method SendFromElsewhere(message: Message)
      requires Valid()
      modifies loop`pending, loop`counter
      ensures Valid() && loop.V() == if state == Connected
                                     then old(loop.V()).QueueInLoop(false, SendTask(channel, message))
                                     else old(loop.V())
    {
      if state == Connected {
        var _ := loop.RunInLoop(false, SendTask(channel, message));
      }
    }

    method ShutdownInLoop()
      requires Valid()
      modifies this
      ensures Valid() && V() == TcpSpec.ShutdownInLoop(old(V()))
    {
      if !channel.IsWriting() {
        calls := calls + [ShutWr];
      }
    }

    method Shutdown()
      requires Valid()
      modifies this
      ensures Valid() && V() == TcpSpec.Shutdown(old(V()))
    {
      if state == Connected {
        state := DisConnecting;
        ShutdownInLoop();
      }
    }

    // outputBuffer_.retrive(n) after a write that took n bytes.
    method Advance(n: nat)
      requires Valid() && n <= |outputBuffer.V().content|
      modifies this`calls, outputBuffer
      ensures Valid() && outputBuffer.buffer == old(outputBuffer.buffer)
      ensures V() == Advanced(old(V()), old(outputBuffer.V()).content[..n])
    {
      ghost var content := outputBuffer.V().content;
      calls := calls + [Write(content[..n])];
      if n > 0 {
        outputBuffer.Retrieve(n);
      }
      assert outputBuffer.V().content == content[n..];
    }

    method Drained()
      requires Valid()
      modifies this, channel`events, channel`index, loop, loop.poller
      ensures Valid() && V() == TcpSpec.Drained(old(V()))
    {
      channel.DisableWriting();
      NotifyWriteComplete();
      if state == DisConnecting {
        ShutdownInLoop();
      }
    }

    method HandleWrite(k: WriteResult)
      requires Valid() && LegalDrain(Tcp(), k)
      modifies this, channel`events, channel`index, loop, loop.poller, outputBuffer
      ensures Valid() && outputBuffer.buffer == old(outputBuffer.buffer)
      ensures V() == TcpSpec.HandleWrite(old(V()), k)
    {
      HandleWriteUnfolds(V(), k);
      if channel.IsWriting() {
        var n := if k.Wrote? then k.n else 0;
        assert BytesSent(outputBuffer.V().content, k) == outputBuffer.V().content[..n];
        Advance(n);
        if n > 0 && outputBuffer.ReadableBytes() == 0 {
          Drained();
        }
      }
    }

    method HandleClose()
      requires Valid()
      modifies this, channel`events, channel`index, loop.poller
      ensures Valid() && V() == TcpSpec.HandleClose(old(V()))
    {
      state := Disconnected;
      channel.DisableAll();
      told := told + [Down];
      told := told + [Closed];
    }

    method HandleRead(answer: BufferSpec.Readv)
      requires Valid()
      requires answer.Delivered? ==> |answer.chunk| <= inputBuffer.V().ReadCapacity()
      modifies this, channel`events, channel`index, loop.poller, inputBuffer, inputBuffer.buffer
      ensures Valid() && (inputBuffer.buffer == old(inputBuffer.buffer) || fresh(inputBuffer.buffer))
      ensures V() == TcpSpec.HandleRead(old(V()), ResultOf(answer))
    {
      if answer.Delivered? {
        BufferSpec.StepIsFifo(inputBuffer.V(), BufferSpec.ReadFd(answer.chunk));
      }
      var n, saveErrno := inputBuffer.ReadFd(answer);
      assert answer.Delivered? ==> inputBuffer.V().content == old(inputBuffer.V().content) + answer.chunk;
      if n > 0 {
        told := told + [Incoming];
      } else if n == 0 {
        HandleClose();
      }
    }

    // Channel::handleEventWithGuard with this connection's callbacks; handlerError only logs.
    method HandleEvent(answer: BufferSpec.Readv, k: WriteResult)
      requires Valid() && LegalDrain(Tcp(), k)
      requires answer.Delivered? ==> |answer.chunk| <= inputBuffer.V().ReadCapacity()
      modifies this, channel`events, channel`index, loop, loop.poller, inputBuffer, inputBuffer.buffer, outputBuffer
      ensures Valid() && outputBuffer.buffer == old(outputBuffer.buffer)
      ensures V() == Dispatched(old(V()), old(channel.revents), ResultOf(answer), k)
    {
      if channel.revents.hup && !channel.revents.input {
        HandleClose();
      }
      if channel.revents.input {
        HandleRead(answer);
      }
      if channel.revents.output {
        HandleWrite(k);
      }
    }

    method ConnectionEstablished()
      requires Valid()
      modifies this, channel`events, channel`index, loop.poller
      ensures Valid() && V() == TcpSpec.ConnectionEstablished(old(V()))
    {
      state := Connected;
      channel.EnableReading();
      told := told + [Up];
    }

    method ConnectionDestroyed()
      requires Valid()
      modifies this, channel`events, channel`index, loop.poller
      ensures Valid() && V() == TcpSpec.ConnectionDestroyed(old(V()))
    {
      if state == Connected {
        state := Disconnected;
        channel.DisableAll();
        told := told + [Down];
      }
      channel.Remove();
    }
  }

  function ResultOf(answer: BufferSpec.Readv): ReadResult {
    match answer
    case Delivered(chunk) => if chunk == [] then EndOfFile else Received(chunk)
    case Failed(_) => ReadFailed
  }

  // One call of handleEvent, when the user's callbacks do nothing.
  function Dispatched<C>(v: View<C>, revents: Reactor.Revents, r: ReadResult, k: WriteResult): View<C>
    requires LegalDrain(v.tcp, k)
  {
    var v1 := if revents.hup && !revents.input then TcpSpec.HandleClose(v) else v;
    var v2 := if revents.input then TcpSpec.HandleRead(v1, r) else v1;
    if revents.output then TcpSpec.HandleWrite(v2, k) else v2
  }

  /** One dispatch closes a connection at most once, whatever the kernel reports: the test for a
      hang-up without input keeps handlerClose from running twice. */
  lemma DispatchClosesOnce<C>(v: View<C>, revents: Reactor.Revents, r: ReadResult, k: WriteResult)
    requires LegalDrain(v.tcp, k)
    ensures var eof := r.EndOfFile? || (r.Received? && r.chunk == []);
            Times(Dispatched(v, revents, r, k).tcp.told, Closed)
            == Times(v.tcp.told, Closed) + (if (revents.hup && !revents.input) || (revents.input && eof) then 1 else 0)
  {
    var v1 := if revents.hup && !revents.input then TcpSpec.HandleClose(v) else v;
    var v2 := if revents.input then TcpSpec.HandleRead(v1, r) else v1;
    CloseCounts(v);
    TimesSnoc(v.tcp.told, Incoming, Closed);
    if revents.output {
      WriteTellsNothing(v2, k);
    }
  }

  lemma CloseCounts<C>(v: View<C>)
    ensures Times(TcpSpec.HandleClose(v).tcp.told, Closed) == Times(v.tcp.told, Closed) + 1
    ensures TcpSpec.HandleClose(v).tcp.output == v.tcp.output
  {
    TimesSnoc(v.tcp.told, Down, Closed);
    TimesSnoc(v.tcp.told + [Down], Closed, Closed);
  }

  lemma WriteTellsNothing<C>(v: View<C>, k: WriteResult)
    requires LegalDrain(v.tcp, k)
    ensures TcpSpec.HandleWrite(v, k).tcp.told == v.tcp.told
  {
    HandleWriteUnfolds(v, k);
  }
}
