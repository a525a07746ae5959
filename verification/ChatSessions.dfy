/** That the servers agree on who is logged in where. */
module ChatSessions {
  import opened ChatSpec
  import opened Wrappers

  ghost predicate On(c: Cluster, i: int, id: int) {
    0 <= i < |c.conns| && id in c.conns[i]
  }

  ghost predicate SessionInv(c: Cluster) {
    && |c.broker.subscribed| == |c.broker.flight| == |c.lost| == |c.conns|
    && NOBODY !in c.db.users
    && (forall i :: 0 <= i < |c.conns| ==> c.broker.subscribed[i] == c.conns[i].Keys)
    && (forall i, id :: On(c, i, id) ==> IsOnline(c.db, id))
    && (forall id :: IsOnline(c.db, id) ==> exists i :: On(c, i, id))
    && (forall i, j, id :: On(c, i, id) && On(c, j, id) ==> i == j)
  }

  lemma LoginKeepsSessions(c: Cluster, i: nat, conn: nat, id: int, password: string)
    requires SessionInv(c) && Enabled(c, DoLogin(i, conn, id, password))
    ensures SessionInv(Next(c, DoLogin(i, conn, id, password)))
    ensures AnswerLogin(NodeOf(c, i), id, password) == LoggedIn ==> id !in c.conns[i]
  {
    var c' := Next(c, DoLogin(i, conn, id, password));
    if AnswerLogin(NodeOf(c, i), id, password) == LoggedIn {
      assert !IsOnline(c.db, id);
      assert forall j :: !On(c, j, id);
      assert !On(c, i, id);
      assert c'.conns[i].Keys == c.conns[i].Keys + {id};
      assert forall j, u :: On(c', j, u) <==> On(c, j, u) || (j == i && u == id);
      forall u | IsOnline(c'.db, u)
        ensures exists j :: On(c', j, u)
      {
        if u == id {
          assert On(c', i, u);
        } else {
          assert IsOnline(c.db, u);
          var j :| On(c, j, u);
          assert On(c', j, u);
        }
      }
    } else {
      SameSessionsKeep(c, c');
    }
  }

  lemma LogoutKeepsSessions(c: Cluster, i: nat, id: int)
    requires SessionInv(c) && i < |c.conns|
    ensures SessionInv(PutNode(c, i, Logout(NodeOf(c, i), id)))
  {
    var c' := PutNode(c, i, Logout(NodeOf(c, i), id));
    assert c'.conns[i].Keys == c.conns[i].Keys - {id};
    assert forall j, u :: On(c', j, u) <==> On(c, j, u) && !(j == i && u == id);
    if id in c.conns[i] {
      assert On(c, i, id);
    }
    forall u | IsOnline(c'.db, u)
      ensures exists j :: On(c', j, u)
    {
      assert IsOnline(c.db, u);
      var j :| On(c, j, u);
      assert On(c', j, u);
    }
  }

  // A step that touches none of the session data.
  predicate SameSessions(c: Cluster, c': Cluster) {
    c'.conns == c.conns && c'.broker.subscribed == c.broker.subscribed && c'.db.users == c.db.users
    && |c'.broker.flight| == |c.broker.flight| && |c'.lost| == |c.lost|
  }

  lemma SameSessionsKeep(c: Cluster, c': Cluster)
    requires SessionInv(c) && SameSessions(c, c')
    ensures SessionInv(c')
  {
    assert forall i, id :: On(c', i, id) <==> On(c, i, id);
    forall id | IsOnline(c'.db, id)
      ensures exists i :: On(c', i, id)
    {
      assert IsOnline(c.db, id);
      var i :| On(c, i, id);
      assert On(c', i, id);
    }
  }

  predicate SameTables(n: Node, n': Node) {
    n'.conns == n.conns && n'.broker.subscribed == n.broker.subscribed && n'.db.users == n.db.users
    && |n'.broker.flight| == |n.broker.flight| && n'.me == n.me
  }

  lemma {:induction false} RouteAllKeepsTables(n: Node, ids: seq<int>, text: string)
    ensures SameTables(n, RouteAll(n, ids, text))
  {
    if ids != [] {
      RouteAllKeepsTables(n, ids[..|ids| - 1], text);
    }
  }

  lemma RegisterKeepsSessions(c: Cluster, id: int, password: string)
    requires SessionInv(c) && Enabled(c, DoRegister(id, password))
    ensures SessionInv(Next(c, DoRegister(id, password)))
  {
    var c' := Next(c, DoRegister(id, password));
    assert forall i, u :: On(c', i, u) <==> On(c, i, u);
    assert forall u :: IsOnline(c'.db, u) <==> IsOnline(c.db, u);
  }

  lemma StepKeepsSessions(c: Cluster, a: Action)
    requires SessionInv(c) && Enabled(c, a)
    ensures SessionInv(Next(c, a))
  {
    match a
    case DoRegister(id, password) => RegisterKeepsSessions(c, id, password);
    case DoLogin(i, conn, id, password) => LoginKeepsSessions(c, i, conn, id, password);
    case DoLogout(i, id) => LogoutKeepsSessions(c, i, id);
    case DoGroupChat(i, sender, group, text) =>
      RouteAllKeepsTables(NodeOf(c, i), GroupUsers(c.db.members, sender, group), text);
      SameSessionsKeep(c, Next(c, a));
    case DoConnectionLost(i, conn, found) =>
      if found.Some? {
        LogoutKeepsSessions(c, i, found.value);
        SameSessionsKeep(PutNode(c, i, Logout(NodeOf(c, i), found.value)), Next(c, a));
      } else {
        assert !On(c, i, NOBODY);
        assert c.broker.subscribed[i] - {NOBODY} == c.broker.subscribed[i];
        SameSessionsKeep(c, Next(c, a));
      }
    case _ => SameSessionsKeep(c, Next(c, a));
  }

  lemma {:induction false} RunKeepsSessions(c: Cluster, actions: seq<Action>)
    requires SessionInv(c) && LegalRun(c, actions)
    ensures SessionInv(Run(c, actions))
    decreases |actions|
  {
    if actions == [] {
    } else {
      StepKeepsSessions(c, actions[0]);
      RunKeepsSessions(Next(c, actions[0]), actions[1..]);
    }
  }

  /** In every run the table says "online" of exactly those users whom a server has a connection for,
      that server is only one, and its subscriptions are the users it has. */
  lemma SessionsAgree(servers: nat, actions: seq<Action>, id: int)
    requires LegalRun(Boot(servers), actions)
    ensures var c := Run(Boot(servers), actions);
            && (IsOnline(c.db, id) <==> exists i :: On(c, i, id))
            && (forall i, j :: On(c, i, id) && On(c, j, id) ==> i == j)
            && (forall i :: 0 <= i < |c.conns| ==> |c.conns| == |c.broker.subscribed| && c.broker.subscribed[i] == c.conns[i].Keys)
  {
    RunKeepsSessions(Boot(servers), actions);
  }

  /** So the insert of a successful login never meets an entry that is already there. */
  lemma LoginInserts(servers: nat, actions: seq<Action>, i: nat, conn: nat, id: int, password: string)
    requires LegalRun(Boot(servers), actions)
    requires Enabled(Run(Boot(servers), actions), DoLogin(i, conn, id, password))
    requires AnswerLogin(NodeOf(Run(Boot(servers), actions), i), id, password) == LoggedIn
    ensures var c := Run(Boot(servers), actions);
            id !in c.conns[i] && Next(c, DoLogin(i, conn, id, password)).conns[i] == c.conns[i][id := conn]
  {
    RunKeepsSessions(Boot(servers), actions);
    LoginKeepsSessions(Run(Boot(servers), actions), i, conn, id, password);
  }

  // ----- connections that are gone

  ghost predicate NoStale(c: Cluster) {
    |c.lost| == |c.conns|
    && forall i, id :: On(c, i, id) ==> c.conns[i][id] !in c.lost[i]
  }

  // The client logs in at most one id on a connection.
  predicate OneId(c: Cluster, a: Action)
    requires Enabled(c, a)
  {
    a.DoLogin? && AnswerLogin(NodeOf(c, a.server), a.id, a.password) == LoggedIn ==>
      !Carries(c.conns[a.server], a.conn)
  }

  ghost predicate OneEach(c: Cluster) {
    forall i, id, other :: On(c, i, id) && On(c, i, other) && c.conns[i][id] == c.conns[i][other] ==> id == other
  }

  // A step that adds no entry and ends no connection.
  ghost predicate NoNewEntry(c: Cluster, c': Cluster) {
    |c'.conns| == |c.conns| && c'.lost == c.lost
    && forall i, id :: On(c', i, id) ==> On(c, i, id) && c'.conns[i][id] == c.conns[i][id]
  }

  lemma NoNewEntryKeeps(c: Cluster, c': Cluster)
    requires NoStale(c) && OneEach(c) && NoNewEntry(c, c')
    ensures NoStale(c') && OneEach(c')
  {
  }

  lemma LoginKeepsNoStale(c: Cluster, i: nat, conn: nat, id: int, password: string)
    requires NoStale(c) && OneEach(c) && Enabled(c, DoLogin(i, conn, id, password))
    requires AnswerLogin(NodeOf(c, i), id, password) == LoggedIn && !Carries(c.conns[i], conn)
    requires id !in c.conns[i]
    ensures var c' := Next(c, DoLogin(i, conn, id, password)); NoStale(c') && OneEach(c')
  {
    var c' := Next(c, DoLogin(i, conn, id, password));
    assert c'.conns[i] == c.conns[i][id := conn];
    assert forall j, u :: On(c', j, u) && !(j == i && u == id) ==> On(c, j, u) && c'.conns[j][u] == c.conns[j][u];
  }

  lemma LossKeepsNoStale(c: Cluster, i: nat, conn: nat, found: Option<int>)
    requires NoStale(c) && OneEach(c) && Enabled(c, DoConnectionLost(i, conn, found))
    ensures var c' := Next(c, DoConnectionLost(i, conn, found)); NoStale(c') && OneEach(c')
  {
    var c' := Next(c, DoConnectionLost(i, conn, found));
    assert forall j, u :: On(c', j, u) ==> On(c, j, u) && c'.conns[j][u] == c.conns[j][u];
    forall u | On(c', i, u)
      ensures c'.conns[i][u] != conn
    {
      if found.Some? {
        assert On(c, i, found.value);
      }
    }
  }

  lemma StepKeepsNoStale(c: Cluster, a: Action)
    requires SessionInv(c) && NoStale(c) && OneEach(c) && Enabled(c, a) && OneId(c, a)
    ensures NoStale(Next(c, a)) && OneEach(Next(c, a))
  {
    match a
    case DoLogin(i, conn, id, password) =>
      if AnswerLogin(NodeOf(c, i), id, password) == LoggedIn {
        LoginKeepsSessions(c, i, conn, id, password);
        LoginKeepsNoStale(c, i, conn, id, password);
      } else {
        NoNewEntryKeeps(c, Next(c, a));
      }
    case DoConnectionLost(i, conn, found) => LossKeepsNoStale(c, i, conn, found);
    case DoGroupChat(i, sender, group, text) =>
      RouteAllKeepsTables(NodeOf(c, i), GroupUsers(c.db.members, sender, group), text);
      NoNewEntryKeeps(c, Next(c, a));
    case _ => NoNewEntryKeeps(c, Next(c, a));
  }

  predicate OneIdRun(c: Cluster, actions: seq<Action>)
    requires LegalRun(c, actions)
    decreases |actions|
  {
    actions == [] || (OneId(c, actions[0]) && OneIdRun(Next(c, actions[0]), actions[1..]))
  }

  lemma {:induction false} RunKeepsNoStale(c: Cluster, actions: seq<Action>)
    requires SessionInv(c) && NoStale(c) && OneEach(c) && LegalRun(c, actions) && OneIdRun(c, actions)
    ensures NoStale(Run(c, actions))
    decreases |actions|
  {
    if actions == [] {
    } else {
      StepKeepsSessions(c, actions[0]);
      StepKeepsNoStale(c, actions[0]);
      RunKeepsNoStale(Next(c, actions[0]), actions[1..]);
    }
  }

  /** If no client logs in a second id on a connection, no entry outlives its connection. */
  lemma NoEntryOutlivesItsConnection(servers: nat, actions: seq<Action>)
    requires LegalRun(Boot(servers), actions) && OneIdRun(Boot(servers), actions)
    ensures NoStale(Run(Boot(servers), actions))
  {
    RunKeepsNoStale(Boot(servers), actions);
  }

  /** The search removes one entry only, so an entry of a lost connection stays behind exactly when
      two ids were logged in on it. */
  lemma EntryStaysIffTwoIds(c: Cluster, i: nat, conn: nat, found: Option<int>)
    requires Enabled(c, DoConnectionLost(i, conn, found))
    ensures Carries(Next(c, DoConnectionLost(i, conn, found)).conns[i], conn)
            <==> exists id, other :: id != other && id in c.conns[i] && other in c.conns[i]
                                     && c.conns[i][id] == conn && c.conns[i][other] == conn
  {
    var after := Next(c, DoConnectionLost(i, conn, found)).conns[i];
    if found.Some? {
      assert after == c.conns[i] - {found.value};
      if Carries(after, conn) {
        var id :| id in after && after[id] == conn;
        assert id != found.value && id in c.conns[i] && c.conns[i][id] == conn;
      }
      if id, other :| id != other && id in c.conns[i] && other in c.conns[i]
                      && c.conns[i][id] == conn && c.conns[i][other] == conn {
        var left := if id == found.value then other else id;
        assert left in after && after[left] == conn;
      }
    } else {
      assert after == c.conns[i];
    }
  }

  const TWO_IDS: seq<Action> := [
    DoRegister(1, "p"), DoRegister(2, "p"), DoLogin(0, 7, 1, "p"), DoLogin(0, 7, 2, "p"),
    DoConnectionLost(0, 7, Some(1))]

  /** Two ids on one connection: after it is lost the second user is still "online", on it. */
  lemma TwoIdsLeaveAStaleEntry()
    ensures LegalRun(Boot(1), TWO_IDS)
    ensures var c := Run(Boot(1), TWO_IDS);
            IsOnline(c.db, 2) && On(c, 0, 2) && c.conns[0][2] == 7 && 7 in c.lost[0]
  {
  }
}
