/** The chat service on a cluster of servers: one shared user table and offline store, one publish and
    subscribe broker, and on each server a table from logged-in users to connections. */
module ChatSpec {
  import opened Wrappers

  datatype User = User(password: string, online: bool)

  // One message on its way to one user.
  datatype Copy = Copy(to: int, text: string)

  datatype Handed = Handed(server: nat, conn: nat, copy: Copy)

  datatype Database = Database(
    users: map<int, User>,
    offline: seq<Copy>,             // the rows of OfflineMessage
    members: seq<(int, int)>)       // the rows (groupid, userid) of GroupUser

  datatype Broker = Broker(
    subscribed: seq<set<int>>,      // by server
    flight: seq<seq<Copy>>)         // by server: published, not yet reported to its service

  // What one service can see and change.
  datatype Node = Node(
    me: nat,
    conns: map<int, nat>,           // _userConnMap
    db: Database,
    broker: Broker,
    handed: seq<Handed>,            // history: copies given to a connection's send
    returned: seq<Copy>)            // history: offline copies put into a login response

  const NOBODY: int := -1

  datatype LoginAnswer = LoggedIn | WrongPassword | AlreadyOnline

  // ----- the handlers

  function IsOnline(db: Database, id: int): bool { id in db.users && db.users[id].online }

  function SetOnline(db: Database, id: int, online: bool): Database {
    if id in db.users then db.(users := db.users[id := db.users[id].(online := online)]) else db
  }

  function Subscribe(b: Broker, server: nat, id: int): Broker {
    if server < |b.subscribed| then b.(subscribed := b.subscribed[server := b.subscribed[server] + {id}]) else b
  }

  function Unsubscribe(b: Broker, server: nat, id: int): Broker {
    if server < |b.subscribed| then b.(subscribed := b.subscribed[server := b.subscribed[server] - {id}]) else b
  }

  predicate Subscribes(b: Broker, server: nat, id: int) {
    server < |b.subscribed| && id in b.subscribed[server]
  }

  // Every server subscribed to the user's channel gets the message.
  function Publish(b: Broker, copy: Copy): Broker {
    b.(flight := seq(|b.flight|, j requires 0 <= j < |b.flight| =>
                       if Subscribes(b, j, copy.to) then b.flight[j] + [copy] else b.flight[j]))
  }

  function Hand(n: Node, copy: Copy): Node
    requires copy.to in n.conns
  {
    n.(handed := n.handed + [Handed(n.me, n.conns[copy.to], copy)])
  }

  function StoreOffline(n: Node, copy: Copy): Node {
    n.(db := n.db.(offline := n.db.offline + [copy]))
  }

  function Route(n: Node, copy: Copy): Node {
    if copy.to in n.conns then Hand(n, copy)
    else if IsOnline(n.db, copy.to) then n.(broker := Publish(n.broker, copy))
    else StoreOffline(n, copy)
  }

  function RowsFor(rows: seq<Copy>, id: int): seq<Copy> {
    if rows == [] then []
    else RowsFor(rows[..|rows| - 1], id) + (if rows[|rows| - 1].to == id then [rows[|rows| - 1]] else [])
  }

  function RowsNotFor(rows: seq<Copy>, id: int): seq<Copy> {
    if rows == [] then []
    else RowsNotFor(rows[..|rows| - 1], id) + (if rows[|rows| - 1].to != id then [rows[|rows| - 1]] else [])
  }

  function AnswerLogin(n: Node, id: int, password: string): LoginAnswer {
    if id != NOBODY && id in n.db.users && n.db.users[id].password == password then
      if n.db.users[id].online then AlreadyOnline else LoggedIn
    else WrongPassword
  }

  // The insert leaves an existing entry alone.
  function Login(n: Node, conn: nat, id: int, password: string): Node {
    if AnswerLogin(n, id, password) != LoggedIn then n
    else
      n.(db := SetOnline(n.db, id, true).(offline := RowsNotFor(n.db.offline, id)),
         conns := if id in n.conns then n.conns else n.conns[id := conn],
         broker := Subscribe(n.broker, n.me, id),
         returned := n.returned + RowsFor(n.db.offline, id))
  }

  function Logout(n: Node, id: int): Node {
    n.(conns := n.conns - {id},
       broker := Unsubscribe(n.broker, n.me, id),
       db := if id in n.conns then SetOnline(n.db, id, false) else n.db)
  }

  // `found` is the entry that the search of the table came upon first.
  function ConnectionLost(n: Node, found: Option<int>): Node {
    match found
    case Some(id) => Logout(n, id)
    case None => n.(broker := Unsubscribe(n.broker, n.me, NOBODY))
  }

  function GroupUsers(members: seq<(int, int)>, sender: int, group: int): seq<int> {
    if members == [] then []
    else
      var last := members[|members| - 1];
      GroupUsers(members[..|members| - 1], sender, group) + (if last.0 == group && last.1 != sender then [last.1] else [])
  }

  function RouteAll(n: Node, ids: seq<int>, text: string): Node {
    if ids == [] then n else Route(RouteAll(n, ids[..|ids| - 1], text), Copy(ids[|ids| - 1], text))
  }

  function GroupChat(n: Node, sender: int, group: int, text: string): Node {
    RouteAll(n, GroupUsers(n.db.members, sender, group), text)
  }

  function Report(n: Node, copy: Copy): Node {
    if copy.to in n.conns then Hand(n, copy) else StoreOffline(n, copy)
  }

  // ----- the cluster

  datatype Cluster = Cluster(
    conns: seq<map<int, nat>>,
    lost: seq<set<nat>>,            // by server: connections whose down callback has finished
    db: Database,
    broker: Broker,
    handed: seq<Handed>,
    returned: seq<Copy>,
    created: seq<Copy>)             // history: one copy for each recipient of each message

  function NodeOf(c: Cluster, i: nat): Node
    requires i < |c.conns|
  {
    Node(i, c.conns[i], c.db, c.broker, c.handed, c.returned)
  }

  function PutNode(c: Cluster, i: nat, n: Node): Cluster
    requires i < |c.conns|
  {
    c.(conns := c.conns[i := n.conns], db := n.db, broker := n.broker, handed := n.handed, returned := n.returned)
  }

  datatype Action =
    | DoRegister(id: int, password: string)
    | DoJoin(group: int, user: int)
    | DoLogin(server: nat, conn: nat, id: int, password: string)
    | DoLogout(server: nat, id: int)
    | DoOneChat(server: nat, to: int, text: string)
    | DoGroupChat(server: nat, sender: int, group: int, text: string)
    | DoReport(server: nat)
    | DoConnectionLost(server: nat, conn: nat, found: Option<int>)

  function Boot(servers: nat): Cluster {
    Cluster(seq(servers, i => map[]), seq(servers, i => {}), Database(map[], [], []),
            Broker(seq(servers, i => {}), seq(servers, i => [])), [], [], [])
  }

  predicate Carries(conns: map<int, nat>, conn: nat) {
    exists id :: id in conns && conns[id] == conn
  }

  // The search finds some entry of the connection if there is one.
  predicate Finds(conns: map<int, nat>, conn: nat, found: Option<int>) {
    match found
    case Some(id) => id in conns && conns[id] == conn
    case None => !Carries(conns, conn)
  }

  predicate Enabled(c: Cluster, a: Action) {
    match a
    case DoRegister(id, _) => id != NOBODY && id !in c.db.users
    case DoJoin(_, _) => true
    case DoLogin(i, conn, _, _) => i < |c.conns| && i < |c.lost| && conn !in c.lost[i]
    case DoLogout(i, _) => i < |c.conns|
    case DoOneChat(i, _, _) => i < |c.conns|
    case DoGroupChat(i, _, _, _) => i < |c.conns|
    case DoReport(i) => i < |c.conns| && i < |c.broker.flight| && c.broker.flight[i] != []
    case DoConnectionLost(i, conn, found) =>
      i < |c.conns| && i < |c.lost| && conn !in c.lost[i] && Finds(c.conns[i], conn, found)
  }

  function Copies(ids: seq<int>, text: string): seq<Copy> {
    seq(|ids|, i requires 0 <= i < |ids| => Copy(ids[i], text))
  }

  function Next(c: Cluster, a: Action): Cluster
    requires Enabled(c, a)
  {
    match a
    case DoRegister(id, password) => c.(db := c.db.(users := c.db.users[id := User(password, false)]))
    case DoJoin(group, user) => c.(db := c.db.(members := c.db.members + [(group, user)]))
    case DoLogin(i, conn, id, password) => PutNode(c, i, Login(NodeOf(c, i), conn, id, password))
    case DoLogout(i, id) => PutNode(c, i, Logout(NodeOf(c, i), id))
    case DoOneChat(i, to, text) =>
      PutNode(c, i, Route(NodeOf(c, i), Copy(to, text))).(created := c.created + [Copy(to, text)])
    case DoGroupChat(i, sender, group, text) =>
      PutNode(c, i, GroupChat(NodeOf(c, i), sender, group, text))
      .(created := c.created + Copies(GroupUsers(c.db.members, sender, group), text))
    case DoReport(i) =>
      var taken := c.(broker := c.broker.(flight := c.broker.flight[i := c.broker.flight[i][1..]]));
      PutNode(taken, i, Report(NodeOf(taken, i), c.broker.flight[i][0]))
    case DoConnectionLost(i, conn, found) =>
      PutNode(c, i, ConnectionLost(NodeOf(c, i), found)).(lost := c.lost[i := c.lost[i] + {conn}])
  }

  predicate LegalRun(c: Cluster, actions: seq<Action>)
    decreases |actions|
  {
    actions == [] || (Enabled(c, actions[0]) && LegalRun(Next(c, actions[0]), actions[1..]))
  }

  function Run(c: Cluster, actions: seq<Action>): Cluster
    requires LegalRun(c, actions)
    decreases |actions|
  {
    if actions == [] then c else Run(Next(c, actions[0]), actions[1..])
  }
}
