/** The objects behind the specifications: a channel, the poller it registers with, and the loop that
    owns the poller and the functor queue. Each method is proved against its specification function. */
module Reactor {
  import opened PollerSpec
  import opened LoopSpec
  import opened TcpSpec

  class Channel {
    const loop: EventLoop
    const fd: int
    var events: Interest
    var revents: Revents
    var index: Index

    constructor (loop: EventLoop, fd: int)
      ensures this.loop == loop && this.fd == fd
      ensures V() == PollerSpec.Channel(this, fd, NONE, New)
    {
      this.loop, this.fd := loop, fd;
      events, revents, index := NONE, NOTHING, New;
    }

    ghost function V(): PollerSpec.Channel<Channel>
      reads this`events, this`index
    {
      PollerSpec.Channel(this, fd, events, index)
    }

    predicate IsWriting()
      reads this`events
    {
      events.write
    }

    predicate IsNoneEvent()
      reads this`events
    {
      events == NONE
    }

    method Update()
      modifies this`index, loop.poller
      ensures (loop.poller.V(), V()) == UpdateChannel(old(loop.poller.V()), old(V()))
    {
      loop.UpdateChannel(this);
    }

    method EnableReading()
      modifies this`events, this`index, loop.poller
      ensures (loop.poller.V(), V()) == ApplyOp(old(loop.poller.V()), old(V()), ChannelOp.EnableReading)
    {
      events := events.(read := true);
      Update();
    }

    method EnableWriting()
      modifies this`events, this`index, loop.poller
      ensures (loop.poller.V(), V()) == ApplyOp(old(loop.poller.V()), old(V()), ChannelOp.EnableWriting)
    {
      events := events.(write := true);
      Update();
    }

    method DisableWriting()
      modifies this`events, this`index, loop.poller
      ensures (loop.poller.V(), V()) == ApplyOp(old(loop.poller.V()), old(V()), ChannelOp.DisableWriting)
    {
      events := events.(write := false);
      Update();
    }

    method DisableAll()
      modifies this`events, this`index, loop.poller
      ensures (loop.poller.V(), V()) == ApplyOp(old(loop.poller.V()), old(V()), ChannelOp.DisableAll)
    {
      events := NONE;
      Update();
    }

    method Remove()
      modifies this`index, loop.poller
      ensures (loop.poller.V(), V()) == ApplyOp(old(loop.poller.V()), old(V()), ChannelOp.Remove)
    {
      loop.RemoveChannel(this);
    }
  }

  // One epoll_event: the channel pointer stored with the descriptor, and whatever happened on it.
  datatype Event = Event(channel: Channel, revents: Revents)

  datatype Revents = Revents(hup: bool, err: bool, input: bool, output: bool)

  const NOTHING := Revents(false, false, false, false)

  class EpollPoller {
    var channels: map<int, Channel>
    var kernel: map<int, Registration<Channel>>   // the kernel's side of the epoll descriptor
    var legal: bool
    var capacity: nat                             // the length of the events_ vector

    constructor ()
      ensures V() == EmptyPoller() && capacity == 16
    {
      channels, kernel, legal, capacity := map[], map[], true, 16;
    }

    ghost function V(): Poller<Channel>
      reads this
    {
      Poller(channels, kernel, legal)
    }

    // The effect of epoll_ctl: refused for a descriptor that is, or is not, in the set already.
    method Ctl(op: Ctl, channel: Channel)
      modifies this`kernel, this`legal
      ensures V() == EpollCtl(old(V()), op, channel.V())
    {
      if (op == CtlAdd) == (channel.fd in kernel) {
        legal := false;
      } else if op == CtlDel {
        kernel := kernel - {channel.fd};
      } else {
        kernel := kernel[channel.fd := Registration(channel, channel.events)];
      }
    }

    method UpdateChannel(channel: Channel)
      modifies this, channel`index
      ensures (V(), channel.V()) == PollerSpec.UpdateChannel(old(V()), old(channel.V()))
      ensures capacity == old(capacity)
    {
      var index := channel.index;
      if index == New || index == Deleted {
        if index == New {
          channels := channels[channel.fd := channel];
        }
        channel.index := Added;
        Ctl(CtlAdd, channel);
      } else if channel.IsNoneEvent() {
        Ctl(CtlDel, channel);
        channel.index := Deleted;
      } else {
        Ctl(CtlMod, channel);
      }
    }

    method RemoveChannel(channel: Channel)
      modifies this, channel`index
      ensures (V(), channel.V()) == PollerSpec.RemoveChannel(old(V()), old(channel.V()))
      ensures capacity == old(capacity)
    {
      channels := channels - {channel.fd};
      if channel.index == Added {
        Ctl(CtlDel, channel);
      }
      channel.index := New;
    }

    // hasChannel is true exactly of the channels whose index says so.
    method HasChannel(channel: Channel) returns (has: bool)
      requires Agrees(V(), channel.V())
      ensures has <==> channel.index != New
    {
      has := channel.fd in channels && channels[channel.fd] == channel;
    }

    // `events` is what epoll_wait returned, at most as many as the vector holds.
    method Poll(events: seq<Event>) returns (active: seq<Channel>)
      requires |events| <= capacity
      requires forall i, j :: 0 <= i < j < |events| ==> events[i].channel != events[j].channel
      modifies this`capacity, (set i | 0 <= i < |events| :: events[i].channel)`revents
      ensures |active| == |events|
      ensures forall i :: 0 <= i < |active| ==>
                active[i] == events[i].channel && active[i].revents == events[i].revents
      ensures capacity == if events != [] && |events| == old(capacity) then 2 * old(capacity) else old(capacity)
    {
      active := [];
      if events != [] {
        var i := 0;
        while i < |events|
          invariant 0 <= i <= |events| && |active| == i && capacity == old(capacity)
          invariant forall j :: 0 <= j < i ==> active[j] == events[j].channel && active[j].revents == events[j].revents
        {
          var channel := events[i].channel;
          channel.revents := events[i].revents;
          active := active + [channel];
          i := i + 1;
        }
        if |events| == capacity {
          capacity := capacity * 2;
        }
      }
    }
  }

  // Everything that a batch of tasks queues while it runs, when each task queues spawn(task).
  function Spawned<F>(spawn: F -> seq<F>, batch: seq<F>): seq<F> {
    if batch == [] then [] else Spawned(spawn, batch[..|batch| - 1]) + spawn(batch[|batch| - 1])
  }

  /** In the order in which the functors ran, each one's own in its order. */
  lemma {:induction false} SpawnedInOrder<F>(spawn: F -> seq<F>, batch: seq<F>)
    ensures batch == [] ==> Spawned(spawn, batch) == []
    ensures batch != [] ==> Spawned(spawn, batch) == spawn(batch[0]) + Spawned(spawn, batch[1..])
  {
    if |batch| > 1 {
      var front := batch[..|batch| - 1];
      SpawnedInOrder(spawn, front);
      assert front[1..] == batch[1..][..|batch| - 2];
      assert Spawned(spawn, batch[1..]) == Spawned(spawn, front[1..]) + spawn(batch[|batch| - 1]);
    }
  }

  class EventLoop {
    const poller: EpollPoller
    var quit: bool
    var calling: bool
    var pending: seq<Task<Channel>>
    var counter: nat               // the eventfd

    constructor ()
      ensures fresh(poller) && poller.V() == EmptyPoller() && V() == FreshCore()
    {
      poller := new EpollPoller();
      quit, calling, pending, counter := false, false, [], 0;
    }

    ghost function V(): Core<Task<Channel>>
      reads this
    {
      Core(quit, calling, pending, counter)
    }

    method UpdateChannel(channel: Channel)
      modifies poller, channel`index
      ensures (poller.V(), channel.V()) == PollerSpec.UpdateChannel(old(poller.V()), old(channel.V()))
    {
      poller.UpdateChannel(channel);
    }

    method RemoveChannel(channel: Channel)
      modifies poller, channel`index
      ensures (poller.V(), channel.V()) == PollerSpec.RemoveChannel(old(poller.V()), old(channel.V()))
    {
      poller.RemoveChannel(channel);
    }

    method Wakeup()
      modifies this`counter
      ensures V() == old(V()).Wakeup()
    {
      if counter < COUNTER_MAX {
        counter := counter + 1;
      }
    }

    method HandleRead()
      modifies this`counter
      ensures V() == old(V()).ReadEventfd() && counter == 0
    {
      counter := 0;
    }

    method QueueInLoop(inLoopThread: bool, task: Task<Channel>)
      modifies this`pending, this`counter
      ensures V() == old(V()).QueueInLoop(inLoopThread, task)
    {
      pending := pending + [task];
      if !inLoopThread || calling {
        Wakeup();
      }
    }

    // On the loop's own thread the caller runs the functor at once, on any other it is queued.
    method RunInLoop(inLoopThread: bool, task: Task<Channel>) returns (runNow: bool)
      modifies this`pending, this`counter
      ensures runNow == inLoopThread
      ensures V() == if runNow then old(V()) else old(V()).QueueInLoop(false, task)
    {
      runNow := inLoopThread;
      if !runNow {
        QueueInLoop(inLoopThread, task);
      }
    }

    method Quit(inLoopThread: bool)
      modifies this`quit, this`counter
      ensures V() == old(V()).Quit(inLoopThread)
    {
      quit := true;
      if !inLoopThread {
        Wakeup();
      }
    }

    // One functor, inside a pass: all that matters here is what it queues in its turn.
    method RunFunctor(more: seq<Task<Channel>>)
      requires calling && (pending != [] ==> counter > 0)
      modifies this`pending, this`counter
      ensures pending == old(pending) + more
      ensures counter >= old(counter) && (pending != [] ==> counter > 0)
    {
      var j := 0;
      while j < |more|
        invariant 0 <= j <= |more|
        invariant pending == old(pending) + more[..j]
        invariant counter >= old(counter) && (pending != [] ==> counter > 0)
      {
        QueueInLoop(true, more[j]);
        j := j + 1;
      }
      assert more[..j] == more;
    }

    // One pass on the loop thread. Whatever these functors queue, themselves included, waits for the next
    // pass, and the eventfd is readable if there is to be one.
    method DoPendingFunctors(spawn: Task<Channel> -> seq<Task<Channel>>) returns (executed: seq<Task<Channel>>)
      modifies this
      ensures executed == old(pending)
      ensures pending == Spawned(spawn, old(pending))
      ensures pending != [] ==> counter > 0
      ensures counter >= old(counter) && quit == old(quit) && !calling
    {
      executed := [];
      calling := true;
      var functors := pending;
      pending := [];
      var i := 0;
      while i < |functors|
        invariant 0 <= i <= |functors| && calling && quit == old(quit)
        invariant executed == functors[..i]
        invariant pending == Spawned(spawn, functors[..i])
        invariant counter >= old(counter) && (pending != [] ==> counter > 0)
      {
        executed := executed + [functors[i]];
        RunFunctor(spawn(functors[i]));
        assert functors[..i + 1][..i] == functors[..i];
        i := i + 1;
      }
      assert functors[..i] == functors;
      calling := false;
    }
  }
}
