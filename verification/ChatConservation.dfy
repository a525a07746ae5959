/** That every copy of every message is in exactly one place. */
module ChatConservation {
  import opened ChatSpec
  import opened ChatSessions

  function HandedCopies(handed: seq<Handed>): multiset<Copy> {
    if handed == [] then multiset{} else HandedCopies(handed[..|handed| - 1]) + multiset{handed[|handed| - 1].copy}
  }

  function InFlight(flight: seq<seq<Copy>>): multiset<Copy> {
    if flight == [] then multiset{} else InFlight(flight[..|flight| - 1]) + multiset(flight[|flight| - 1])
  }

  // The four places a copy can be in.
  function Places(n: Node): multiset<Copy> {
    HandedCopies(n.handed) + InFlight(n.broker.flight) + multiset(n.db.offline) + multiset(n.returned)
  }

  function AllPlaces(c: Cluster): multiset<Copy> {
    HandedCopies(c.handed) + InFlight(c.broker.flight) + multiset(c.db.offline) + multiset(c.returned)
  }

  lemma Rearrange(x: multiset<Copy>, y: multiset<Copy>, m: multiset<Copy>, q: multiset<Copy>, l: multiset<Copy>)
    ensures (x + q) + m == (x + m) + q
    ensures x + m == y + q ==> (x + l) + m == (y + l) + q
  {
    if x + m == y + q {
      forall copy: Copy
        ensures ((x + l) + m)[copy] == ((y + l) + q)[copy]
      {
        assert (x + m)[copy] == (y + q)[copy];
      }
    }
  }

  lemma {:induction false} FlightChanges(flight: seq<seq<Copy>>, j: nat, q: seq<Copy>)
    requires j < |flight|
    ensures InFlight(flight[j := q]) + multiset(flight[j]) == InFlight(flight) + multiset(q)
  {
    var last, changed := |flight| - 1, flight[j := q];
    var front := flight[..last];
    if j == last {
      assert changed[..last] == front;
      Rearrange(InFlight(front), InFlight(front), multiset(flight[j]), multiset(q), multiset{});
    } else {
      FlightChanges(front, j, q);
      assert changed[..last] == front[j := q];
      Rearrange(InFlight(front[j := q]), InFlight(front), multiset(flight[j]), multiset(q), multiset(flight[last]));
    }
  }

  // Replacing a queue by one that has `more` in addition.
  lemma FlightGains(flight: seq<seq<Copy>>, j: nat, q: seq<Copy>, more: multiset<Copy>)
    requires j < |flight| && multiset(q) == multiset(flight[j]) + more
    ensures InFlight(flight[j := q]) == InFlight(flight) + more
  {
    FlightChanges(flight, j, q);
    var a, b, m := InFlight(flight[j := q]), InFlight(flight), multiset(flight[j]);
    assert a + m == b + (m + more);
    forall copy: Copy
      ensures a[copy] == (b + more)[copy]
    {
      assert (a + m)[copy] == a[copy] + m[copy];
      assert (b + (m + more))[copy] == b[copy] + m[copy] + more[copy];
    }
  }

  ghost predicate SoleSubscriber(b: Broker, j: nat, id: int) {
    j < |b.flight| && forall i :: 0 <= i < |b.flight| ==> (Subscribes(b, i, id) <==> i == j)
  }

  /** A message published to a user with one subscriber goes into that subscriber's queue alone. */
  lemma PublishAddsOne(b: Broker, copy: Copy, j: nat)
    requires SoleSubscriber(b, j, copy.to)
    ensures Publish(b, copy).flight == b.flight[j := b.flight[j] + [copy]]
    ensures InFlight(Publish(b, copy).flight) == InFlight(b.flight) + multiset{copy}
  {
    assert Publish(b, copy).flight == b.flight[j := b.flight[j] + [copy]];
    assert multiset(b.flight[j] + [copy]) == multiset(b.flight[j]) + multiset{copy};
    FlightGains(b.flight, j, b.flight[j] + [copy], multiset{copy});
  }

  // The broker has one subscriber for every user who is online, and none besides.
  ghost predicate OneSubscriber(n: Node) {
    forall id :: IsOnline(n.db, id) ==> exists j: nat :: SoleSubscriber(n.broker, j, id)
  }

  lemma SessionsGiveOneSubscriber(c: Cluster, i: nat)
    requires SessionInv(c) && i < |c.conns|
    ensures OneSubscriber(NodeOf(c, i))
  {
    forall id | IsOnline(c.db, id)
      ensures exists j: nat :: SoleSubscriber(c.broker, j, id)
    {
      var j :| On(c, j, id);
      forall k | 0 <= k < |c.broker.flight|
        ensures Subscribes(c.broker, k, id) <==> k == j
      {
        assert Subscribes(c.broker, k, id) <==> On(c, k, id);
      }
      assert SoleSubscriber(c.broker, j, id);
    }
  }

  /** Routing one message makes one copy, in one place. */
  lemma RouteAddsOne(n: Node, copy: Copy)
    requires OneSubscriber(n)
    ensures Places(Route(n, copy)) == Places(n) + multiset{copy}
    ensures OneSubscriber(Route(n, copy))
  {
    if copy.to in n.conns {
      var handed := n.handed + [Handed(n.me, n.conns[copy.to], copy)];
      assert handed[..|n.handed|] == n.handed;
    } else if IsOnline(n.db, copy.to) {
      var j: nat :| SoleSubscriber(n.broker, j, copy.to);
      PublishAddsOne(n.broker, copy, j);
    }
    SubscribersStay(n, Route(n, copy));
  }

  lemma SubscribersStay(n: Node, n': Node)
    requires OneSubscriber(n) && SameTables(n, n')
    ensures OneSubscriber(n')
  {
    forall id | IsOnline(n'.db, id)
      ensures exists j: nat :: SoleSubscriber(n'.broker, j, id)
    {
      assert IsOnline(n.db, id);
      var j: nat :| SoleSubscriber(n.broker, j, id);
      assert forall i :: Subscribes(n'.broker, i, id) <==> Subscribes(n.broker, i, id);
      assert SoleSubscriber(n'.broker, j, id);
    }
  }

  lemma {:induction false} RouteAllAddsEach(n: Node, ids: seq<int>, text: string)
    requires OneSubscriber(n)
    ensures Places(RouteAll(n, ids, text)) == Places(n) + multiset(Copies(ids, text))
    ensures OneSubscriber(RouteAll(n, ids, text))
  {
    if ids != [] {
      var front, last := ids[..|ids| - 1], ids[|ids| - 1];
      RouteAllAddsEach(n, front, text);
      RouteAddsOne(RouteAll(n, front, text), Copy(last, text));
      assert Copies(ids, text) == Copies(front, text) + [Copy(last, text)];
    }
  }

  lemma {:induction false} RowsSplit(rows: seq<Copy>, id: int)
    ensures multiset(rows) == multiset(RowsFor(rows, id)) + multiset(RowsNotFor(rows, id))
    ensures forall copy <- RowsFor(rows, id) :: copy.to == id
    ensures forall copy <- RowsNotFor(rows, id) :: copy.to != id
  {
    if rows != [] {
      RowsSplit(rows[..|rows| - 1], id);
      assert rows == rows[..|rows| - 1] + [rows[|rows| - 1]];
    }
  }

  lemma LoginMovesOffline(n: Node, conn: nat, id: int, password: string)
    ensures Places(Login(n, conn, id, password)) == Places(n)
  {
    RowsSplit(n.db.offline, id);
  }

  /** A successful login returns every message stored for the user and leaves none in the store; the
      messages stored for others stay. */
  lemma LoginEmptiesTheStore(n: Node, conn: nat, id: int, password: string)
    requires AnswerLogin(n, id, password) == LoggedIn
    ensures var n' := Login(n, conn, id, password);
            |n.returned| <= |n'.returned|
            && (forall copy <- n'.returned[|n.returned|..] :: copy.to == id)
            && (forall copy <- n'.db.offline :: copy.to != id)
            && multiset(n.db.offline) == multiset(n'.db.offline) + multiset(n'.returned[|n.returned|..])
  {
    RowsSplit(n.db.offline, id);
    assert Login(n, conn, id, password).returned[|n.returned|..] == RowsFor(n.db.offline, id);
  }

  lemma ReportMovesOne(n: Node, copy: Copy)
    ensures Places(Report(n, copy)) == Places(n) + multiset{copy}
  {
    if copy.to in n.conns {
      var handed := n.handed + [Handed(n.me, n.conns[copy.to], copy)];
      assert handed[..|n.handed|] == n.handed;
    }
  }

  lemma TakingOne(flight: seq<seq<Copy>>, i: nat)
    requires i < |flight| && flight[i] != []
    ensures InFlight(flight) == InFlight(flight[i := flight[i][1..]]) + multiset{flight[i][0]}
  {
    var shorter := flight[i := flight[i][1..]];
    assert shorter[i := flight[i]] == flight;
    assert flight[i] == [flight[i][0]] + flight[i][1..];
    FlightGains(shorter, i, flight[i], multiset{flight[i][0]});
  }

  lemma PlacesOfNode(c: Cluster, i: nat, n: Node)
    requires i < |c.conns|
    ensures AllPlaces(PutNode(c, i, n)) == Places(n) && Places(NodeOf(c, i)) == AllPlaces(c)
  {
  }

  lemma ReportKeepsCopies(c: Cluster, i: nat)
    requires Enabled(c, DoReport(i))
    ensures AllPlaces(Next(c, DoReport(i))) == AllPlaces(c)
  {
    var taken := c.(broker := c.broker.(flight := c.broker.flight[i := c.broker.flight[i][1..]]));
    TakingOne(c.broker.flight, i);
    ReportMovesOne(NodeOf(taken, i), c.broker.flight[i][0]);
    PlacesOfNode(taken, i, Report(NodeOf(taken, i), c.broker.flight[i][0]));
  }

  lemma OneChatMakesOneCopy(c: Cluster, i: nat, to: int, text: string)
    requires SessionInv(c) && i < |c.conns|
    ensures AllPlaces(Next(c, DoOneChat(i, to, text))) == AllPlaces(c) + multiset{Copy(to, text)}
  {
    SessionsGiveOneSubscriber(c, i);
    RouteAddsOne(NodeOf(c, i), Copy(to, text));
    PlacesOfNode(c, i, Route(NodeOf(c, i), Copy(to, text)));
  }

  lemma GroupChatMakesItsCopies(c: Cluster, i: nat, sender: int, group: int, text: string)
    requires SessionInv(c) && i < |c.conns|
    ensures AllPlaces(Next(c, DoGroupChat(i, sender, group, text)))
            == AllPlaces(c) + multiset(Copies(GroupUsers(c.db.members, sender, group), text))
  {
    var ids := GroupUsers(c.db.members, sender, group);
    SessionsGiveOneSubscriber(c, i);
    RouteAllAddsEach(NodeOf(c, i), ids, text);
    PlacesOfNode(c, i, RouteAll(NodeOf(c, i), ids, text));
  }

  lemma LoginKeepsCopies(c: Cluster, i: nat, conn: nat, id: int, password: string)
    requires Enabled(c, DoLogin(i, conn, id, password))
    ensures AllPlaces(Next(c, DoLogin(i, conn, id, password))) == AllPlaces(c)
  {
    LoginMovesOffline(NodeOf(c, i), conn, id, password);
    PlacesOfNode(c, i, Login(NodeOf(c, i), conn, id, password));
  }

  predicate SameCopies(c: Cluster, c': Cluster) {
    c'.handed == c.handed && c'.broker.flight == c.broker.flight && c'.db.offline == c.db.offline
    && c'.returned == c.returned && c'.created == c.created
  }

  lemma LeavingKeepsCopies(c: Cluster, a: Action)
    requires Enabled(c, a) && (a.DoLogout? || a.DoConnectionLost?)
    ensures SameCopies(c, Next(c, a))
  {
  }

  lemma StepKeepsCopies(c: Cluster, a: Action)
    requires SessionInv(c) && Enabled(c, a) && AllPlaces(c) == multiset(c.created)
    ensures AllPlaces(Next(c, a)) == multiset(Next(c, a).created)
  {
    match a
    case DoRegister(_, _) =>
    case DoJoin(_, _) =>
    case DoOneChat(i, to, text) => OneChatMakesOneCopy(c, i, to, text);
    case DoGroupChat(i, sender, group, text) => GroupChatMakesItsCopies(c, i, sender, group, text);
    case DoReport(i) => ReportKeepsCopies(c, i);
    case DoLogin(i, conn, id, password) => LoginKeepsCopies(c, i, conn, id, password);
    case DoLogout(_, _) => LeavingKeepsCopies(c, a);
    case DoConnectionLost(_, _, _) => LeavingKeepsCopies(c, a);
  }

  lemma {:induction false} RunKeepsCopies(c: Cluster, actions: seq<Action>)
    requires SessionInv(c) && LegalRun(c, actions) && AllPlaces(c) == multiset(c.created)
    ensures AllPlaces(Run(c, actions)) == multiset(Run(c, actions).created)
    decreases |actions|
  {
    if actions == [] {
    } else {
      StepKeepsCopies(c, actions[0]);
      StepKeepsSessions(c, actions[0]);
      RunKeepsCopies(Next(c, actions[0]), actions[1..]);
    }
  }

  lemma {:induction false} EmptyFlight(servers: nat)
    ensures InFlight(seq(servers, i => [])) == multiset{}
  {
    if servers > 0 {
      EmptyFlight(servers - 1);
      assert seq<seq<Copy>>(servers, i => [])[..servers - 1] == seq(servers - 1, i => []);
    }
  }

  /** In every run, through logout, login elsewhere and late delivery, the copies handed to a
      connection, in flight, stored offline and returned at login are together the copies created. */
  lemma CopiesAreConserved(servers: nat, actions: seq<Action>, copy: Copy)
    requires LegalRun(Boot(servers), actions)
    ensures var c := Run(Boot(servers), actions);
            HandedCopies(c.handed)[copy] + InFlight(c.broker.flight)[copy] + multiset(c.db.offline)[copy]
            + multiset(c.returned)[copy] == multiset(c.created)[copy]
  {
    EmptyFlight(servers);
    RunKeepsCopies(Boot(servers), actions);
  }

  /** A message to one user, in any reachable cluster, goes to exactly one place: the connection of the
      user on this server, the one server that is subscribed for the user, or the offline store. */
  lemma OneChatGoesToOnePlace(servers: nat, actions: seq<Action>, i: nat, copy: Copy)
    requires LegalRun(Boot(servers), actions) && i < servers
    ensures var c := Run(Boot(servers), actions);
            i < |c.conns|
            && var n, n' := NodeOf(c, i), Route(NodeOf(c, i), copy);
            || (On(c, i, copy.to) && n' == n.(handed := n.handed + [Handed(i, c.conns[i][copy.to], copy)]))
            || (exists j :: j != i && On(c, j, copy.to) && j < |n.broker.flight|
                  && n' == n.(broker := n.broker.(flight := n.broker.flight[j := n.broker.flight[j] + [copy]])))
            || (!IsOnline(c.db, copy.to) && n' == n.(db := n.db.(offline := n.db.offline + [copy])))
  {
    RunKeepsSessions(Boot(servers), actions);
    ServersStay(Boot(servers), actions);
    var c := Run(Boot(servers), actions);
    if !On(c, i, copy.to) && IsOnline(c.db, copy.to) {
      var j :| On(c, j, copy.to);
      assert forall k :: 0 <= k < |c.conns| ==> (Subscribes(c.broker, k, copy.to) <==> On(c, k, copy.to));
      assert SoleSubscriber(c.broker, j, copy.to);
      PublishAddsOne(c.broker, copy, j);
    }
  }

  lemma {:induction false} ServersStay(c: Cluster, actions: seq<Action>)
    requires LegalRun(c, actions)
    ensures |Run(c, actions).conns| == |c.conns|
    decreases |actions|
  {
    if actions != [] {
      ServersStay(Next(c, actions[0]), actions[1..]);
    }
  }

  function MembershipRows(members: seq<(int, int)>, group: int, user: int): nat {
    if members == [] then 0
    else MembershipRows(members[..|members| - 1], group, user) + (if members[|members| - 1] == (group, user) then 1 else 0)
  }

  lemma {:induction false} GroupUsersCount(members: seq<(int, int)>, sender: int, group: int, user: int)
    ensures multiset(GroupUsers(members, sender, group))[user] == if user == sender then 0 else MembershipRows(members, group, user)
  {
    if members != [] {
      GroupUsersCount(members[..|members| - 1], sender, group, user);
    }
  }

  lemma {:induction false} CopiesCount(ids: seq<int>, text: string, user: int)
    ensures multiset(Copies(ids, text))[Copy(user, text)] == multiset(ids)[user]
  {
    if ids != [] {
      var front, last := ids[..|ids| - 1], ids[|ids| - 1];
      CopiesCount(front, text, user);
      assert Copies(ids, text) == Copies(front, text) + [Copy(last, text)];
      assert ids == front + [last];
    }
  }

  /** A group message makes one copy for every membership row of the group but the sender's own. */
  lemma GroupChatCopiesEachMember(c: Cluster, i: nat, sender: int, group: int, text: string, user: int)
    requires SessionInv(c) && i < |c.conns|
    ensures Places(GroupChat(NodeOf(c, i), sender, group, text))[Copy(user, text)]
            == Places(NodeOf(c, i))[Copy(user, text)]
               + (if user == sender then 0 else MembershipRows(c.db.members, group, user))
  {
    var ids := GroupUsers(c.db.members, sender, group);
    SessionsGiveOneSubscriber(c, i);
    RouteAllAddsEach(NodeOf(c, i), ids, text);
    GroupUsersCount(c.db.members, sender, group, user);
    CopiesCount(ids, text, user);
  }
}
