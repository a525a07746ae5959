/** The poller: a table of registered channels kept in step with the kernel's interest set.
    `C` is the identity of a channel, which is what the poller's table and the kernel store. */
module PollerSpec {
  datatype Interest = Interest(read: bool, write: bool)

  const NONE := Interest(false, false)

  // The values kNew, kAdded and kDelete of a channel's index.
  datatype Index = New | Added | Deleted

  datatype Channel<C> = Channel(self: C, fd: int, events: Interest, index: Index)

  datatype Registration<C> = Registration(channel: C, events: Interest)

  // `legal` turns false for good at the first epoll_ctl that the kernel would refuse.
  datatype Poller<C> = Poller(channels: map<int, C>, kernel: map<int, Registration<C>>, legal: bool)

  function EmptyPoller<C>(): Poller<C> {
    Poller(map[], map[], true)
  }

  datatype Ctl = CtlAdd | CtlMod | CtlDel

  predicate CtlAllowed<C>(kernel: map<int, Registration<C>>, op: Ctl, fd: int) {
    if op == CtlAdd then fd !in kernel else fd in kernel
  }

  function EpollCtl<C>(p: Poller<C>, op: Ctl, ch: Channel<C>): Poller<C> {
    if !CtlAllowed(p.kernel, op, ch.fd) then p.(legal := false)
    else if op == CtlDel then p.(kernel := p.kernel - {ch.fd})
    else p.(kernel := p.kernel[ch.fd := Registration(ch.self, ch.events)])
  }

  function UpdateChannel<C>(p: Poller<C>, ch: Channel<C>): (Poller<C>, Channel<C>) {
    if ch.index != Added then
      var p1 := if ch.index == New then p.(channels := p.channels[ch.fd := ch.self]) else p;
      (EpollCtl(p1, CtlAdd, ch), ch.(index := Added))
    else if ch.events == NONE then (EpollCtl(p, CtlDel, ch), ch.(index := Deleted))
    else (EpollCtl(p, CtlMod, ch), ch)
  }

  function RemoveChannel<C>(p: Poller<C>, ch: Channel<C>): (Poller<C>, Channel<C>) {
    var p1 := p.(channels := p.channels - {ch.fd});
    (if ch.index == Added then EpollCtl(p1, CtlDel, ch) else p1, ch.(index := New))
  }

  /** The kernel's rule: ADD of an absent descriptor, MOD and DEL of a present one; what it refuses changes
      nothing, and what it takes changes that descriptor alone, to the channel's current events. */
  lemma KernelRule<C>(p: Poller<C>, op: Ctl, ch: Channel<C>)
    ensures var q := EpollCtl(p, op, ch);
            var taken := op == CtlAdd <==> ch.fd !in p.kernel;
            && (q.legal <==> p.legal && taken) && q.channels == p.channels
            && (!taken ==> q.kernel == p.kernel)
            && (taken && op == CtlDel ==> q.kernel == p.kernel - {ch.fd})
            && (taken && op != CtlDel ==> q.kernel == p.kernel[ch.fd := Registration(ch.self, ch.events)])
  {
  }

  predicate HasChannel<C(==)>(p: Poller<C>, ch: Channel<C>) {
    ch.fd in p.channels && p.channels[ch.fd] == ch.self
  }

  // ----- one channel and its poller

  /** The poller and the kernel know exactly what the channel's own fields say. */
  ghost predicate Agrees<C>(p: Poller<C>, ch: Channel<C>) {
    (ch.index != New <==> HasChannel(p, ch))
    && (ch.index == Added <==> ch.fd in p.kernel && p.kernel[ch.fd] == Registration(ch.self, ch.events))
    && (ch.index != Added ==> ch.fd !in p.kernel)
    && (ch.index == New ==> ch.fd !in p.channels)
  }

  ghost predicate SameElsewhere<C>(p: Poller<C>, q: Poller<C>, fd: int) {
    p.channels - {fd} == q.channels - {fd} && p.kernel - {fd} == q.kernel - {fd}
  }

  // Every operation of a channel changes its interest mask and calls update.
  datatype ChannelOp = EnableReading | EnableWriting | DisableWriting | DisableAll | Remove

  function Mask(events: Interest, op: ChannelOp): Interest {
    match op
    case EnableReading => events.(read := true)
    case EnableWriting => events.(write := true)
    case DisableWriting => events.(write := false)
    case DisableAll => NONE
    case Remove => events
  }

  function ApplyOp<C>(p: Poller<C>, ch: Channel<C>, op: ChannelOp): (Poller<C>, Channel<C>) {
    if op == Remove then RemoveChannel(p, ch)
    else UpdateChannel(p, ch.(events := Mask(ch.events, op)))
  }

  lemma OpKeepsAgreement<C>(p: Poller<C>, ch: Channel<C>, op: ChannelOp)
    requires Agrees(p, ch)
    ensures var (q, ch') := ApplyOp(p, ch, op);
            Agrees(q, ch') && q.legal == p.legal && SameElsewhere(p, q, ch.fd)
            && ch'.fd == ch.fd && ch'.self == ch.self && ch'.events == Mask(ch.events, op)
  {
    var (q, ch') := ApplyOp(p, ch, op);
    assert p.channels[ch.fd := ch.self] - {ch.fd} == p.channels - {ch.fd};
    assert p.channels - {ch.fd} - {ch.fd} == p.channels - {ch.fd};
    assert p.kernel[ch.fd := Registration(ch.self, ch'.events)] - {ch.fd} == p.kernel - {ch.fd};
    assert p.kernel - {ch.fd} - {ch.fd} == p.kernel - {ch.fd};
  }

  // ----- many channels on one poller

  datatype World = World(poller: Poller<nat>, chans: seq<Channel<nat>>)

  datatype Call = Call(who: nat, op: ChannelOp)

  function Step(w: World, call: Call): World
    requires call.who < |w.chans|
  {
    var (p, ch) := ApplyOp(w.poller, w.chans[call.who], call.op);
    World(p, w.chans[call.who := ch])
  }

  ghost predicate DistinctFds(chans: seq<Channel<nat>>) {
    forall i, j :: 0 <= i < j < |chans| ==> chans[i].fd != chans[j].fd
  }

  ghost predicate Owned(w: World, fd: int) {
    exists i :: 0 <= i < |w.chans| && w.chans[i].fd == fd
  }

  ghost predicate Agreement(w: World) {
    w.poller.legal
    && DistinctFds(w.chans)
    && (forall i :: 0 <= i < |w.chans| ==> w.chans[i].self == i && Agrees(w.poller, w.chans[i]))
    && (forall fd <- w.poller.kernel :: Owned(w, fd))
    && (forall fd <- w.poller.channels :: Owned(w, fd))
  }

  lemma OthersAgree(p: Poller<nat>, q: Poller<nat>, fd: int, ch: Channel<nat>)
    requires SameElsewhere(p, q, fd) && ch.fd != fd && Agrees(p, ch)
    ensures Agrees(q, ch)
  {
    assert (ch.fd in p.channels) == (ch.fd in p.channels - {fd});
    assert (ch.fd in q.channels) == (ch.fd in q.channels - {fd});
    assert ch.fd in p.channels ==> (p.channels - {fd})[ch.fd] == p.channels[ch.fd];
    assert ch.fd in q.channels ==> (q.channels - {fd})[ch.fd] == q.channels[ch.fd];
    assert (ch.fd in p.kernel) == (ch.fd in p.kernel - {fd});
    assert (ch.fd in q.kernel) == (ch.fd in q.kernel - {fd});
    assert ch.fd in p.kernel ==> (p.kernel - {fd})[ch.fd] == p.kernel[ch.fd];
    assert ch.fd in q.kernel ==> (q.kernel - {fd})[ch.fd] == q.kernel[ch.fd];
  }

  lemma StillOwned(w: World, call: Call, fd: int)
    requires call.who < |w.chans| && Owned(w, fd)
    ensures Owned(Step(w, call), fd)
  {
    var i :| 0 <= i < |w.chans| && w.chans[i].fd == fd;
    assert Step(w, call).chans[i].fd == fd;
  }

  lemma StepKeepsAgreement(w: World, call: Call)
    requires Agreement(w) && call.who < |w.chans|
    ensures Agreement(Step(w, call))
  {
    var ch := w.chans[call.who];
    var w' := Step(w, call);
    OpKeepsAgreement(w.poller, ch, call.op);
    forall i | 0 <= i < |w.chans|
      ensures w'.chans[i].self == i && Agrees(w'.poller, w'.chans[i])
    {
      if i != call.who {
        OthersAgree(w.poller, w'.poller, ch.fd, w.chans[i]);
      }
    }
    assert w'.chans[call.who].fd == ch.fd;
    forall fd | fd in w'.poller.kernel || fd in w'.poller.channels
      ensures Owned(w', fd)
    {
      if fd != ch.fd {
        assert fd in w'.poller.kernel ==> fd in w'.poller.kernel - {ch.fd};
        assert fd in w'.poller.channels ==> fd in w'.poller.channels - {ch.fd};
        assert fd in w.poller.kernel || fd in w.poller.channels;
        StillOwned(w, call, fd);
      }
    }
  }

  predicate ValidCalls(n: nat, calls: seq<Call>) {
    forall k :: 0 <= k < |calls| ==> calls[k].who < n
  }

  function Steps(w: World, calls: seq<Call>): World
    requires ValidCalls(|w.chans|, calls)
    decreases |calls|
  {
    if calls == [] then w else Steps(Step(w, calls[0]), calls[1..])
  }

  /** After any calls on channels with distinct descriptors, table, kernel and channels agree, and
      every epoll_ctl issued on the way was one the kernel accepts. */
  lemma {:induction false} AlwaysAgree(w: World, calls: seq<Call>)
    requires Agreement(w) && ValidCalls(|w.chans|, calls)
    ensures Agreement(Steps(w, calls))
    decreases |calls|
  {
    if calls == [] {
    } else {
      StepKeepsAgreement(w, calls[0]);
      AlwaysAgree(Step(w, calls[0]), calls[1..]);
    }
  }

  lemma FreshChannelsAgree(chans: seq<Channel<nat>>)
    requires DistinctFds(chans)
    requires forall i :: 0 <= i < |chans| ==> chans[i].self == i && chans[i].index == New
    ensures Agreement(World(EmptyPoller(), chans))
  {
  }

  /** Registering a new channel is legal exactly when the kernel does not know its descriptor, so the
      first update of a channel is the one that a descriptor still held by another channel spoils. */
  lemma FirstUpdateIsLegalIffFdUnknown(p: Poller<nat>, ch: Channel<nat>, op: ChannelOp)
    requires p.legal && ch.index == New && op != Remove
    ensures ApplyOp(p, ch, op).0.legal <==> ch.fd !in p.kernel
  {
  }

  /** disableAll takes the descriptor out of the kernel set exactly when the channel's index is kAdded.
      On a channel that is new, or disabled already, the same call registers it, with an empty mask, and
      the kernel reports hang-ups and errors for an empty mask too. */
  lemma DisableAllLeavesTheKernelIff<C>(p: Poller<C>, ch: Channel<C>)
    requires Agrees(p, ch)
    ensures var q := ApplyOp(p, ch, DisableAll).0;
            (ch.fd !in q.kernel <==> ch.index == Added)
            && (ch.index != Added ==> q.kernel[ch.fd] == Registration(ch.self, NONE))
  {
  }

  /** The two ways to fail, first: a channel that never wanted anything is registered by disabling it. */
  lemma DisablingANewChannelRegistersIt<C>(self: C, fd: int)
    ensures var (q, ch) := ApplyOp(EmptyPoller(), Channel(self, fd, NONE, New), DisableAll);
            fd in q.kernel && HasChannel(q, ch)
  {
  }

  /** Second: disabling twice is not disabling. */
  lemma DisableAllTwiceRegistersAgain(p: Poller<nat>, ch: Channel<nat>)
    requires Agrees(p, ch) && ch.index == Added
    ensures var (p1, c1) := ApplyOp(p, ch, DisableAll);
            var (p2, c2) := ApplyOp(p1, c1, DisableAll);
            ch.fd !in p1.kernel && c1.index == Deleted
            && c2.index == Added && ch.fd in p2.kernel && p2.kernel[ch.fd] == Registration(ch.self, NONE)
  {
  }

  /** disableAll followed by remove, as a channel's owner ends with, leaves nothing behind in any case,
      and no call on the way is one the kernel refuses. */
  lemma DisableThenRemoveLeavesNothing<C>(p: Poller<C>, ch: Channel<C>)
    requires Agrees(p, ch)
    ensures var (p1, c1) := ApplyOp(p, ch, DisableAll);
            var p2 := ApplyOp(p1, c1, Remove).0;
            ch.fd !in p2.kernel && ch.fd !in p2.channels && p2.legal == p.legal
  {
    OpKeepsAgreement(p, ch, DisableAll);
  }
}
