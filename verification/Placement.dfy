/** Where connections live: in the whole server, as in the pool alone, they go round the loops. */
module Placement {
  import opened TcpSpec
  import opened ThreadPoolSpec
  import opened ServerSpec
  import opened OwnershipInvariant
  import opened OwnershipActions
  import opened Ownership

  // The pool stands where as many picks as there are connections have taken it.
  ghost predicate RoundTheLoops(s: System) {
    var loops := s.pool.loops;
    if loops == [] then forall c :: 0 <= c < |s.conns| ==> s.conns[c].loop == 0
    else s.pool.next == |s.conns| % |loops|
         && forall c :: 0 <= c < |s.conns| ==> s.conns[c].loop == loops[c % |loops|]
  }

  ghost predicate SamePlaces(s: System, s': System) {
    s'.pool == s.pool && |s'.loops| == |s.loops| && |s'.conns| == |s.conns|
    && forall c :: 0 <= c < |s.conns| ==> s'.conns[c].loop == s.conns[c].loop
  }

  lemma PutKeepsPlaces(s: System, s1: System, c: nat, v: View<nat>)
    requires Valid(s1, c) && s1.conns == s.conns && s1.pool == s.pool && |s1.loops| == |s.loops|
    ensures SamePlaces(s, Put(s1, c, v))
  {
  }

  lemma DispatchKeepsPlaces(s: System, l: nat, r: ReadResult, k: WriteResult)
    ensures InHandler(s, l, AtHup) ==> SamePlaces(s, HupHandled(s, l))
    ensures InHandler(s, l, AtIn) ==> SamePlaces(s, InHandled(s, l, r))
    ensures InHandler(s, l, AtOut) && LegalDrain(s.conns[s.loops[l].active[0].conn].tcp, k) ==>
              SamePlaces(s, OutHandled(s, l, k))
  {
    if l < |s.loops| && s.loops[l].active != [] && Valid(s, s.loops[l].active[0].conn) {
      var c := s.loops[l].active[0].conn;
      PutKeepsPlaces(s, s, c, CloseBegin(Look(s, c)));
      if LegalDrain(s.conns[c].tcp, k) {
        PutKeepsPlaces(s, s, c, HandleWrite(Look(s, c), k));
      }
    }
  }

  lemma CloseKeepsPlaces(s: System, l: nat)
    requires CanFinish(s, l)
    ensures SamePlaces(s, CloseFinished(s, l))
  {
    var c := s.loops[l].closing.value;
    PutKeepsPlaces(s, s, c, CloseEnd(Look(s, c)));
  }

  lemma TaskKeepsPlaces(s: System, l: nat, k: WriteResult)
    requires Inv(s) && HasNext(s, l) && TaskEnabled(s, l, NextTask(s, l), k)
    ensures SamePlaces(s, Execute(Popped(s, l), l, NextTask(s, l), k))
  {
    var s1, c := Popped(s, l), NextTask(s, l).conn;
    match NextTask(s, l)
    case Established(_) => PutKeepsPlaces(s, s1, c, ConnectionEstablished(Look(s1, c)));
    case Destroyed(_) => PutKeepsPlaces(s, s1, c, ConnectionDestroyed(Look(s1, c)));
    case SendTask(_, m) => PutKeepsPlaces(s, s1, c, SendInLoop(Look(s1, c), m, k));
    case _ =>
  }

  lemma OthersKeepPlaces(s: System, a: Action)
    requires Inv(s) && Enabled(s, a) && !a.Accept?
    ensures SamePlaces(s, Next(s, a))
  {
    match a
    case HandleHup(l) => DispatchKeepsPlaces(s, l, ReadFailed, WriteFailed(OtherErrno));
    case HandleIn(l, r) => DispatchKeepsPlaces(s, l, r, WriteFailed(OtherErrno));
    case HandleOut(l, k) => DispatchKeepsPlaces(s, l, ReadFailed, k);
    case FinishClose(l) => CloseKeepsPlaces(s, l);
    case RunTask(l, k) => TaskKeepsPlaces(s, l, k);
    case LocalSend(c, m, k) => PutKeepsPlaces(s, s, c, Send(Look(s, c), m, k));
    case LocalShutdown(c) => PutKeepsPlaces(s, s, c, Shutdown(Look(s, c)));
    case _ =>
  }

  lemma NextRemainder(x: nat, n: nat)
    requires n > 0
    ensures (x + 1) % n == if x % n + 1 >= n then 0 else x % n + 1
  {
    assert x == n * (x / n) + x % n;
    if x % n + 1 >= n {
      assert x + 1 == n * (x / n + 1);
      DivisionIsUnique(x + 1, n, x / n + 1, 0);
    } else {
      DivisionIsUnique(x + 1, n, x / n, x % n + 1);
    }
  }

  lemma AcceptGoesRound(s: System, fd: int, mark: nat, wc: bool, hw: bool)
    requires Shape(s) && RoundTheLoops(s) && CanCreate(s, fd)
    ensures RoundTheLoops(Accepting(s, fd, mark, wc, hw)) && |Accepting(s, fd, mark, wc, hw).loops| == |s.loops|
  {
    var s', loops := Accepting(s, fd, mark, wc, hw), s.pool.loops;
    assert |s'.conns| == |s.conns| + 1 && s'.pool == s.pool.Advance();
    assert forall c :: 0 <= c < |s.conns| ==> s'.conns[c].loop == s.conns[c].loop;
    if loops != [] {
      NextRemainder(|s.conns|, |loops|);
    }
  }

  lemma SamePlacesGoRound(s: System, s': System)
    requires RoundTheLoops(s) && SamePlaces(s, s')
    ensures RoundTheLoops(s')
  {
  }

  lemma StepGoesRound(s: System, a: Action)
    requires Inv(s) && RoundTheLoops(s) && Enabled(s, a)
    ensures RoundTheLoops(Next(s, a)) && |Next(s, a).loops| == |s.loops|
  {
    if a.Accept? {
      AcceptGoesRound(s, a.fd, a.mark, a.wc, a.hw);
    } else {
      OthersKeepPlaces(s, a);
      SamePlacesGoRound(s, Next(s, a));
    }
  }

  lemma {:induction false} RunGoesRound(s: System, actions: seq<Action>)
    requires Inv(s) && RoundTheLoops(s) && LegalRun(s, actions)
    ensures RoundTheLoops(Run(s, actions)) && |Run(s, actions).loops| == |s.loops|
    decreases |actions|
  {
    if actions == [] {
    } else {
      StepKeepsInv(s, actions[0]);
      StepGoesRound(s, actions[0]);
      RunGoesRound(Next(s, actions[0]), actions[1..]);
    }
  }

  /** In every run of a server with n io loops the connections lie round them in the order of accepting;
      without io loops all lie on the base loop. */
  lemma ConnectionsGoRound(n: nat, prefix: string, system: set<int>, actions: seq<Action>, c: nat)
    requires LegalRun(Boot(n, prefix, system), actions) && c < |Run(Boot(n, prefix, system), actions).conns|
    ensures var s := Run(Boot(n, prefix, system), actions);
            |s.loops| == n + 1 && s.conns[c].loop == if n == 0 then 0 else c % n + 1
  {
    BootIsGood(n, prefix, system);
    RunGoesRound(Boot(n, prefix, system), actions);
    RunKeepsInv(Boot(n, prefix, system), actions);
  }
}
