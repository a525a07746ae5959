/** The server object: what one call on the base loop's thread does to the table of connections, the
    pool of loops and the functor queue of the chosen loop. */
module TcpServers {
  import opened TcpSpec
  import opened ThreadPool
  import opened TcpConnections
  import opened Names
  import Reactor

  class TcpServer {
    const loop: Reactor.EventLoop
    const prefix: string
    const threadPool: EventLoopThreadPool<Reactor.EventLoop>
    const writeCompleteCallback: bool
    var connections: map<string, TcpConnection>
    var nextConnId: nat

    ghost predicate Valid()
      reads this, threadPool
    {
      && threadPool.Valid() && threadPool.baseLoop == loop
      && forall name <- connections ::
           connections[name].name == name && GivenBefore(name, nextConnId)
    }

    ghost predicate GivenBefore(name: string, id: nat) {
      exists earlier: nat :: earlier < id && name == ConnName(prefix, earlier)
    }

    constructor (loop: Reactor.EventLoop, prefix: string, writeComplete: bool)
      ensures Valid() && this.loop == loop && this.prefix == prefix && fresh(threadPool)
      ensures connections == map[] && nextConnId == 1
    {
      this.loop, this.prefix, writeCompleteCallback := loop, prefix, writeComplete;
      connections, nextConnId := map[], 1;
      threadPool := new EventLoopThreadPool(loop);
    }

    lemma NextNameIsNew()
      requires Valid()
      ensures ConnName(prefix, nextConnId) !in connections
    {
      if ConnName(prefix, nextConnId) in connections {
        assert GivenBefore(ConnName(prefix, nextConnId), nextConnId);
        var id: nat :| id < nextConnId && ConnName(prefix, nextConnId) == ConnName(prefix, id);
        NamesAreUnique(prefix, id, nextConnId);
      }
    }

    method MakeConnection(ioLoop: Reactor.EventLoop, connName: string, sockfd: int) returns (conn: TcpConnection)
      ensures fresh(conn) && conn.Valid() && conn.loop == ioLoop && conn.name == connName
      ensures fresh(conn.channel) && fresh(conn.inputBuffer) && fresh(conn.outputBuffer)
      ensures fresh(conn.inputBuffer.buffer) && fresh(conn.outputBuffer.buffer)
      ensures conn.Tcp() == NewTcp(conn.channel, sockfd, 64 * 1024 * 1024, writeCompleteCallback, false)
    {
      conn := new TcpConnection(ioLoop, connName, sockfd);
      conn.writeCompleteCallback := writeCompleteCallback;
    }

    // The connection object, under the next name, in the table.
    method AddConnection(ioLoop: Reactor.EventLoop, sockfd: int) returns (conn: TcpConnection)
      requires Valid()
      modifies this
      ensures Valid() && fresh(conn) && conn.Valid() && conn.loop == ioLoop
      ensures fresh(conn.channel) && fresh(conn.inputBuffer) && fresh(conn.outputBuffer)
      ensures fresh(conn.inputBuffer.buffer) && fresh(conn.outputBuffer.buffer)
      ensures conn.Tcp() == NewTcp(conn.channel, sockfd, 64 * 1024 * 1024, writeCompleteCallback, false)
      ensures conn.name !in old(connections) && connections == old(connections)[conn.name := conn]
      ensures nextConnId == old(nextConnId) + 1
    {
      var connName := ConnName(prefix, nextConnId);
      NextNameIsNew();
      nextConnId := nextConnId + 1;
      conn := MakeConnection(ioLoop, connName, sockfd);
      connections := connections[connName := conn];
    }

    /** The new connection gets a name that no other connection has, so it displaces none; it is
        brought up at once if its loop is this one, and queued to be brought up if not. */
    method NewConnection(sockfd: int) returns (conn: TcpConnection)
      requires Valid()
      modifies this, threadPool, threadPool.V().Pick(), threadPool.V().Pick().poller
      ensures Valid() && fresh(conn) && conn.Valid()
      ensures conn.loop == old(threadPool.V().Pick()) && threadPool.V() == old(threadPool.V()).Advance()
      ensures conn.name !in old(connections) && connections == old(connections)[conn.name := conn]
      ensures nextConnId == old(nextConnId) + 1
      ensures var tcp := NewTcp(conn.channel, sockfd, 64 * 1024 * 1024, writeCompleteCallback, false);
              if conn.loop == loop
              then conn.V() == TcpSpec.ConnectionEstablished(
                                 View(tcp, old(threadPool.V().Pick().poller.V()), old(threadPool.V().Pick().pending)))
              else conn.Tcp() == tcp
                   && conn.loop.V() == old(threadPool.V().Pick().V()).QueueInLoop(false, Established(conn.channel))
                   && conn.loop.poller.V() == old(threadPool.V().Pick().poller.V())
    {
      var ioLoop := threadPool.GetNextLoop();
      conn := AddConnection(ioLoop, sockfd);
      var runNow := ioLoop.RunInLoop(ioLoop == loop, Established(conn.channel));
      if runNow {
        conn.ConnectionEstablished();
      }
    }

    // Called by handlerClose, on the thread of the connection's loop.
    method RemoveConnection(conn: TcpConnection)
      requires Valid()
      modifies this`connections, loop`pending, loop`counter
      ensures Valid()
      ensures if conn.loop == loop
              then connections == old(connections) - {conn.name}
                   && loop.V() == old(loop.V()).QueueInLoop(true, Destroyed(conn.channel))
              else connections == old(connections)
                   && loop.V() == old(loop.V()).QueueInLoop(false, RemoveInLoop(conn.channel))
    {
      var runNow := loop.RunInLoop(conn.loop == loop, RemoveInLoop(conn.channel));
      if runNow {
        RemoveConnectionInLoop(conn);
      }
    }

    /** Even on the connection's own loop the destruction is queued, never run inside the removal. */
    method RemoveConnectionInLoop(conn: TcpConnection)
      requires Valid()
      modifies this`connections, conn.loop`pending, conn.loop`counter
      ensures Valid() && connections == old(connections) - {conn.name}
      ensures conn.loop.V() == old(conn.loop.V()).QueueInLoop(conn.loop == loop, Destroyed(conn.channel))
    {
      connections := connections - {conn.name};
      conn.loop.QueueInLoop(conn.loop == loop, Destroyed(conn.channel));
    }
  }
}
