/** Where each message goes, who may log in, and what logging out ends, in every reachable cluster. */
module ChatDelivery {
  import opened Wrappers
  import opened ChatSpec
  import opened ChatSessions
  import opened ChatConservation

  // ----- a group message, place by place

  predicate OnlineElsewhere(n: Node, id: int) {
    id !in n.conns && id in n.db.users && n.db.users[id].online
  }

  predicate Offline(n: Node, id: int) {
    id !in n.conns && !(id in n.db.users && n.db.users[id].online)
  }

  // How many of the copies for `ids` are this one.
  function Wanted(ids: seq<int>, text: string, copy: Copy): nat {
    if copy.text == text then multiset(ids)[copy.to] else 0
  }

  lemma RouteOnce(n: Node, copy: Copy, h: Handed, j: nat, other: Copy)
    requires j < |n.broker.flight| && j < |n.broker.subscribed|
    ensures var n' := Route(n, copy);
            |n'.broker.flight| == |n.broker.flight|
            && multiset(n'.handed)[h] == multiset(n.handed)[h]
               + (if copy.to in n.conns && h == Handed(n.me, n.conns[copy.to], copy) then 1 else 0)
            && multiset(n'.broker.flight[j])[other] == multiset(n.broker.flight[j])[other]
               + (if other == copy && OnlineElsewhere(n, copy.to) && copy.to in n.broker.subscribed[j] then 1 else 0)
            && multiset(n'.db.offline)[other] == multiset(n.db.offline)[other]
               + (if other == copy && Offline(n, copy.to) then 1 else 0)
  {
  }

  lemma {:induction false} RouteAllByPlace(n: Node, ids: seq<int>, text: string, h: Handed, j: nat, copy: Copy)
    requires j < |n.broker.flight| && j < |n.broker.subscribed|
    ensures var n' := RouteAll(n, ids, text);
            |n'.broker.flight| == |n.broker.flight|
            && multiset(n'.handed)[h] == multiset(n.handed)[h]
               + (if h.copy.to in n.conns && h == Handed(n.me, n.conns[h.copy.to], h.copy) then Wanted(ids, text, h.copy) else 0)
            && multiset(n'.broker.flight[j])[copy] == multiset(n.broker.flight[j])[copy]
               + (if OnlineElsewhere(n, copy.to) && copy.to in n.broker.subscribed[j] then Wanted(ids, text, copy) else 0)
            && multiset(n'.db.offline)[copy] == multiset(n.db.offline)[copy]
               + (if Offline(n, copy.to) then Wanted(ids, text, copy) else 0)
  {
    if ids != [] {
      var front, last := ids[..|ids| - 1], ids[|ids| - 1];
      RouteAllByPlace(n, front, text, h, j, copy);
      RouteAllKeepsTables(n, front, text);
      RouteOnce(RouteAll(n, front, text), Copy(last, text), h, j, copy);
      assert ids == front + [last];
    }
  }

  // The membership rows that a group message makes a given copy for.
  function RowsOf(members: seq<(int, int)>, sender: int, group: int, text: string, copy: Copy): nat {
    if copy.text == text && copy.to != sender then MembershipRows(members, group, copy.to) else 0
  }

  lemma SizesStay(servers: nat, actions: seq<Action>)
    requires LegalRun(Boot(servers), actions)
    ensures var c := Run(Boot(servers), actions);
            SessionInv(c) && |c.conns| == |c.broker.flight| == |c.broker.subscribed| == servers
  {
    RunKeepsSessions(Boot(servers), actions);
    ServersStay(Boot(servers), actions);
  }

  /** A group message in any reachable cluster makes one copy for each membership row but the sender's:
      for a member on this server it is handed to that member's connection, for a member on another server
      it is in flight to that server and no other, and for everybody else it is stored offline. No other
      copy of any message appears anywhere. */
  lemma GroupChatGoesToEachMember(servers: nat, actions: seq<Action>, i: nat, sender: int, group: int, text: string,
                                  h: Handed, j: nat, copy: Copy)
    requires LegalRun(Boot(servers), actions) && i < servers && j < servers
    requires Enabled(Run(Boot(servers), actions), DoGroupChat(i, sender, group, text))
    ensures var c := Run(Boot(servers), actions);
            var c' := Next(c, DoGroupChat(i, sender, group, text));
            && |c.conns| == |c.broker.flight| == |c'.broker.flight| == servers
            && multiset(c'.handed)[h] == multiset(c.handed)[h]
               + (if On(c, i, h.copy.to) && h.server == i && h.conn == c.conns[i][h.copy.to]
                  then RowsOf(c.db.members, sender, group, text, h.copy) else 0)
            && multiset(c'.broker.flight[j])[copy] == multiset(c.broker.flight[j])[copy]
               + (if j != i && On(c, j, copy.to) then RowsOf(c.db.members, sender, group, text, copy) else 0)
            && multiset(c'.db.offline)[copy] == multiset(c.db.offline)[copy]
               + (if forall k :: !On(c, k, copy.to) then RowsOf(c.db.members, sender, group, text, copy) else 0)
  {
    SizesStay(servers, actions);
    var c := Run(Boot(servers), actions);
    var ids := GroupUsers(c.db.members, sender, group);
    RouteAllByPlace(NodeOf(c, i), ids, text, h, j, copy);
    GroupUsersCount(c.db.members, sender, group, copy.to);
    GroupUsersCount(c.db.members, sender, group, h.copy.to);
    Whereabouts(c, i, j, copy.to);
  }

  lemma Whereabouts(c: Cluster, i: nat, j: nat, id: int)
    requires SessionInv(c) && i < |c.conns| && j < |c.conns|
    ensures OnlineElsewhere(NodeOf(c, i), id) && id in c.broker.subscribed[j] <==> j != i && On(c, j, id)
    ensures Offline(NodeOf(c, i), id) <==> forall k :: !On(c, k, id)
  {
    assert id in c.broker.subscribed[j] <==> On(c, j, id);
    assert id in c.conns[i] <==> On(c, i, id);
    assert On(c, j, id) ==> IsOnline(c.db, id);
    if !IsOnline(c.db, id) {
      assert forall k :: !On(c, k, id);
    } else {
      var k :| On(c, k, id);
    }
  }

  /** A message to one user, in any reachable cluster, goes to the user's connection if the user is on this
      server, into the queue of the server that has the user if there is one, and into the store otherwise;
      everything else stays. */
  lemma OneChatArrives(servers: nat, actions: seq<Action>, i: nat, to: int, text: string)
    requires LegalRun(Boot(servers), actions) && i < servers
    requires Enabled(Run(Boot(servers), actions), DoOneChat(i, to, text))
    ensures var c := Run(Boot(servers), actions);
            var copy, c' := Copy(to, text), Next(c, DoOneChat(i, to, text)).(created := c.created);
            || (On(c, i, to) && c' == c.(handed := c.handed + [Handed(i, c.conns[i][to], copy)]))
            || (exists j :: j != i && On(c, j, to) && j < |c.broker.flight|
                  && c' == c.(broker := c.broker.(flight := c.broker.flight[j := c.broker.flight[j] + [copy]])))
            || ((forall j :: !On(c, j, to)) && c' == c.(db := c.db.(offline := c.db.offline + [copy])))
  {
    OneChatGoesToOnePlace(servers, actions, i, Copy(to, text));
    SizesStay(servers, actions);
    var c := Run(Boot(servers), actions);
    assert c.conns[i := c.conns[i]] == c.conns;
    assert !IsOnline(c.db, to) ==> forall j :: !On(c, j, to);
  }

  /** Every request to a server of the cluster can be handled, and so can every loss of a connection. */
  lemma EveryRequestIsHandled(servers: nat, actions: seq<Action>, i: nat, conn: nat, id: int, text: string)
    requires LegalRun(Boot(servers), actions) && i < servers
    ensures var c := Run(Boot(servers), actions);
            && |c.lost| == |c.broker.flight| == servers
            && Enabled(c, DoLogout(i, id)) && Enabled(c, DoOneChat(i, id, text)) && Enabled(c, DoGroupChat(i, id, id, text))
            && (c.broker.flight[i] != [] ==> Enabled(c, DoReport(i)))
            && (conn !in c.lost[i] ==>
                  Enabled(c, DoLogin(i, conn, id, text)) && exists found :: Enabled(c, DoConnectionLost(i, conn, found)))
  {
    SizesStay(servers, actions);
    var c := Run(Boot(servers), actions);
    if conn !in c.lost[i] {
      if Carries(c.conns[i], conn) {
        var id :| id in c.conns[i] && c.conns[i][id] == conn;
        assert Enabled(c, DoConnectionLost(i, conn, Some(id)));
      } else {
        assert Enabled(c, DoConnectionLost(i, conn, None));
      }
    }
  }

  /** A published message that reaches its server goes to the user's connection there, or, if the user has
      left, to the offline store; the rest of the queue stays as it is. */
  lemma ReportGoesToOnePlace(c: Cluster, i: nat)
    requires Enabled(c, DoReport(i))
    ensures var copy, c' := c.broker.flight[i][0], Next(c, DoReport(i));
            && c'.broker.flight == c.broker.flight[i := c.broker.flight[i][1..]]
            && c'.conns == c.conns && c'.db.users == c.db.users && c'.returned == c.returned
            && if On(c, i, copy.to)
               then c'.handed == c.handed + [Handed(i, c.conns[i][copy.to], copy)] && c'.db.offline == c.db.offline
               else c'.handed == c.handed && c'.db.offline == c.db.offline + [copy]
  {
  }

  lemma Regroup(a: seq<Copy>, b: seq<Copy>, c: seq<Copy>)
    ensures (a + b) + c == a + (b + c)
  {
  }

  lemma RowsSnoc(rows: seq<Copy>, last: Copy, id: int)
    ensures RowsFor(rows + [last], id) == RowsFor(rows, id) + (if last.to == id then [last] else [])
    ensures RowsNotFor(rows + [last], id) == RowsNotFor(rows, id) + (if last.to != id then [last] else [])
  {
    assert (rows + [last])[..|rows|] == rows;
  }

  /** The rows of a user are read in the order in which they were stored. */
  lemma {:induction false} RowsJoin(rows: seq<Copy>, more: seq<Copy>, id: int)
    ensures RowsFor(rows + more, id) == RowsFor(rows, id) + RowsFor(more, id)
  {
    if more == [] {
      assert rows + more == rows;
    } else {
      var front, last := more[..|more| - 1], more[|more| - 1];
      RowsJoin(rows, front, id);
      assert rows + more == (rows + front) + [last] && more == front + [last];
      RowsSnoc(rows + front, last, id);
      RowsSnoc(front, last, id);
      Regroup(RowsFor(rows, id), RowsFor(front, id), if last.to == id then [last] else []);
    }
  }

  /** So are the rows of everybody else left. */
  lemma {:induction false} OtherRowsJoin(rows: seq<Copy>, more: seq<Copy>, id: int)
    ensures RowsNotFor(rows + more, id) == RowsNotFor(rows, id) + RowsNotFor(more, id)
  {
    if more == [] {
      assert rows + more == rows;
    } else {
      var front, last := more[..|more| - 1], more[|more| - 1];
      OtherRowsJoin(rows, front, id);
      assert rows + more == (rows + front) + [last] && more == front + [last];
      RowsSnoc(rows + front, last, id);
      RowsSnoc(front, last, id);
      Regroup(RowsNotFor(rows, id), RowsNotFor(front, id), if last.to != id then [last] else []);
    }
  }

  /** Members are addressed in the order in which they joined. */
  lemma {:induction false} MembersJoin(members: seq<(int, int)>, more: seq<(int, int)>, sender: int, group: int)
    ensures GroupUsers(members + more, sender, group)
            == GroupUsers(members, sender, group) + GroupUsers(more, sender, group)
  {
    if more == [] {
      assert members + more == members;
    } else {
      var front := more[..|more| - 1];
      MembersJoin(members, front, sender, group);
      assert (members + more)[..|members + more| - 1] == members + front;
    }
  }

  /** Joining a group adds one row, for that user in that group. */
  lemma JoinAddsOneRow(c: Cluster, group: int, user: int, g: int, u: int)
    ensures MembershipRows(Next(c, DoJoin(group, user)).db.members, g, u)
            == MembershipRows(c.db.members, g, u) + (if g == group && u == user then 1 else 0)
  {
    assert (c.db.members + [(group, user)])[..|c.db.members|] == c.db.members;
  }

  // ----- who may log in

  /** Each of the three answers to a login, in any reachable cluster, exactly: the user is let in if the id
      is registered, the password is the stored one and no server has the user. Otherwise nothing changes. */
  lemma LoginAnswers(servers: nat, actions: seq<Action>, i: nat, conn: nat, id: int, password: string)
    requires LegalRun(Boot(servers), actions)
    requires Enabled(Run(Boot(servers), actions), DoLogin(i, conn, id, password))
    ensures var c := Run(Boot(servers), actions);
            var answer, c' := AnswerLogin(NodeOf(c, i), id, password), Next(c, DoLogin(i, conn, id, password));
            var right := id in c.db.users && c.db.users[id].password == password;
            && (answer == LoggedIn <==> right && forall j :: !On(c, j, id))
            && (answer == AlreadyOnline <==> right && exists j :: On(c, j, id))
            && (answer == WrongPassword <==> id !in c.db.users || c.db.users[id].password != password)
            && (answer == LoggedIn ==> On(c', i, id) && c'.conns[i][id] == conn && IsOnline(c'.db, id))
            && (answer != LoggedIn ==> c' == c)
  {
    RunKeepsSessions(Boot(servers), actions);
    var c := Run(Boot(servers), actions);
    LoginKeepsSessions(c, i, conn, id, password);
    SessionsAgree(servers, actions, id);
    assert id in c.db.users ==> id != NOBODY;
  }

  lemma StepKeepsPassword(c: Cluster, a: Action, id: int)
    requires Enabled(c, a) && id in c.db.users
    ensures id in Next(c, a).db.users && Next(c, a).db.users[id].password == c.db.users[id].password
  {
    if a.DoGroupChat? {
      RouteAllKeepsTables(NodeOf(c, a.server), GroupUsers(c.db.members, a.sender, a.group), a.text);
    }
  }

  lemma StepRegistersOnly(c: Cluster, a: Action, id: int)
    requires Enabled(c, a) && id !in c.db.users
    ensures id in Next(c, a).db.users <==> a.DoRegister? && a.id == id
    ensures id in Next(c, a).db.users ==> Next(c, a).db.users[id] == User(a.password, false)
  {
    if a.DoGroupChat? {
      RouteAllKeepsTables(NodeOf(c, a.server), GroupUsers(c.db.members, a.sender, a.group), a.text);
    }
  }

  // The password that a run registers an id with.
  function Registered(actions: seq<Action>, id: int): Option<string>
    decreases |actions|
  {
    if actions == [] then None
    else if actions[0].DoRegister? && actions[0].id == id then Some(actions[0].password)
    else Registered(actions[1..], id)
  }

  lemma {:induction false} RunKeepsPassword(c: Cluster, actions: seq<Action>, id: int)
    requires LegalRun(c, actions)
    ensures id in c.db.users ==>
              id in Run(c, actions).db.users && Run(c, actions).db.users[id].password == c.db.users[id].password
    ensures id !in c.db.users ==>
              match Registered(actions, id)
              case Some(password) => id in Run(c, actions).db.users && Run(c, actions).db.users[id].password == password
              case None => id !in Run(c, actions).db.users
    decreases |actions|
  {
    if actions == [] {
    } else {
      if id in c.db.users {
        StepKeepsPassword(c, actions[0], id);
      } else {
        StepRegistersOnly(c, actions[0], id);
      }
      RunKeepsPassword(Next(c, actions[0]), actions[1..], id);
    }
  }

  /** In every run the known ids are those registered, and the password stored for one is the password it
      was registered with. */
  lemma PasswordIsTheRegistered(servers: nat, actions: seq<Action>, id: int)
    requires LegalRun(Boot(servers), actions)
    ensures var users := Run(Boot(servers), actions).db.users;
            match Registered(actions, id)
            case Some(password) => id in users && users[id].password == password
            case None => id !in users
  {
    RunKeepsPassword(Boot(servers), actions, id);
  }

  // ----- what logging out ends

  // No server but i may lose an entry, and that one only its entry for id.
  ghost predicate SessionEnded(c: Cluster, c': Cluster, i: nat, id: int) {
    && |c'.conns| == |c.conns|
    && (forall j, u :: On(c', j, u) <==> On(c, j, u) && !(j == i && u == id))
    && (forall j, u :: On(c', j, u) ==> c'.conns[j][u] == c.conns[j][u])
    && (forall u :: IsOnline(c'.db, u) <==> IsOnline(c.db, u) && !(u == id && On(c, i, id)))
    && c'.db.offline == c.db.offline && c'.db.members == c.db.members
    && c'.handed == c.handed && c'.broker.flight == c.broker.flight && c'.returned == c.returned
  }

  /** A logout ends the user's session on the server it arrives at, and no other session: the user is then
      on no server and offline in the table. One for a user who is elsewhere changes nothing. */
  lemma LogoutEndsTheSession(servers: nat, actions: seq<Action>, i: nat, id: int)
    requires LegalRun(Boot(servers), actions) && i < servers
    requires Enabled(Run(Boot(servers), actions), DoLogout(i, id))
    ensures var c := Run(Boot(servers), actions);
            var c' := Next(c, DoLogout(i, id));
            SessionEnded(c, c', i, id)
            && (On(c, i, id) ==> !IsOnline(c'.db, id) && forall j :: !On(c', j, id))
            && (!On(c, i, id) ==> c'.conns == c.conns && c'.db == c.db && c'.broker.subscribed == c.broker.subscribed)
  {
    SizesStay(servers, actions);
    var c := Run(Boot(servers), actions);
    var c' := Next(c, DoLogout(i, id));
    assert On(c, i, id) ==> IsOnline(c.db, id);
    if !On(c, i, id) {
      assert id !in c.broker.subscribed[i];
      assert c'.conns[i] == c.conns[i] && c'.broker.subscribed[i] == c.broker.subscribed[i];
    }
  }

  /** A lost connection ends the one session that the search finds, and none if it finds none. */
  lemma LossEndsTheSession(servers: nat, actions: seq<Action>, i: nat, conn: nat, found: Option<int>)
    requires LegalRun(Boot(servers), actions)
    requires Enabled(Run(Boot(servers), actions), DoConnectionLost(i, conn, found))
    ensures var c := Run(Boot(servers), actions);
            var c' := Next(c, DoConnectionLost(i, conn, found));
            (found == None ==> c'.conns == c.conns && c'.db == c.db && !Carries(c.conns[i], conn))
            && (found.Some? ==> On(c, i, found.value) && c.conns[i][found.value] == conn
                                && SessionEnded(c, c', i, found.value) && !IsOnline(c'.db, found.value))
            && conn in c'.lost[i]
  {
    SizesStay(servers, actions);
    var c := Run(Boot(servers), actions);
    if found.Some? {
      assert On(c, i, found.value);
    }
  }
}
