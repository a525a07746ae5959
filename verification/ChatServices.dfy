/** The chat service as an object on one server, sharing the user tables and the broker with the
    services of the other servers. Each handler is one atomic step. */
module ChatServices {
  import opened ChatSpec
  import opened Wrappers

  class Tables {
    var users: map<int, User>
    var offline: seq<Copy>
    var members: seq<(int, int)>

    ghost function V(): Database
      reads this
    {
      Database(users, offline, members)
    }

    method SetState(id: int, online: bool)
      modifies this`users
      ensures V() == SetOnline(old(V()), id, online)
    {
      if id in users {
        users := users[id := users[id].(online := online)];
      }
    }

    method QueryOffline(id: int) returns (rows: seq<Copy>)
      ensures rows == RowsFor(offline, id)
    {
      rows := [];
      var i := 0;
      while i < |offline|
        invariant 0 <= i <= |offline| && rows == RowsFor(offline[..i], id)
      {
        assert offline[..i + 1][..i] == offline[..i];
        if offline[i].to == id {
          rows := rows + [offline[i]];
        }
        i := i + 1;
      }
      assert offline[..i] == offline;
    }

    method RemoveOffline(id: int)
      modifies this`offline
      ensures V() == old(V()).(offline := RowsNotFor(old(offline), id))
    {
      var rows := [];
      var i := 0;
      while i < |offline|
        invariant 0 <= i <= |offline| && rows == RowsNotFor(offline[..i], id)
      {
        assert offline[..i + 1][..i] == offline[..i];
        if offline[i].to != id {
          rows := rows + [offline[i]];
        }
        i := i + 1;
      }
      assert offline[..i] == offline;
      offline := rows;
    }

    method QueryGroupUsers(sender: int, group: int) returns (ids: seq<int>)
      ensures ids == GroupUsers(members, sender, group)
    {
      ids := [];
      var i := 0;
      while i < |members|
        invariant 0 <= i <= |members| && ids == GroupUsers(members[..i], sender, group)
      {
        assert members[..i + 1][..i] == members[..i];
        if members[i].0 == group && members[i].1 != sender {
          ids := ids + [members[i].1];
        }
        i := i + 1;
      }
      assert members[..i] == members;
    }
  }

  class Redis {
    var subscribed: seq<set<int>>
    var flight: seq<seq<Copy>>

    ghost function V(): Broker
      reads this
    {
      Broker(subscribed, flight)
    }

    method Subscribe(server: nat, id: int)
      modifies this`subscribed
      ensures V() == ChatSpec.Subscribe(old(V()), server, id)
    {
      if server < |subscribed| {
        subscribed := subscribed[server := subscribed[server] + {id}];
      }
    }

    method Unsubscribe(server: nat, id: int)
      modifies this`subscribed
      ensures V() == ChatSpec.Unsubscribe(old(V()), server, id)
    {
      if server < |subscribed| {
        subscribed := subscribed[server := subscribed[server] - {id}];
      }
    }

    method Publish(copy: Copy)
      modifies this`flight
      ensures V() == ChatSpec.Publish(old(V()), copy)
    {
      var j := 0;
      while j < |flight|
        invariant 0 <= j <= |flight| && |flight| == |old(flight)| && subscribed == old(subscribed)
        invariant forall k :: 0 <= k < j ==> flight[k] == ChatSpec.Publish(old(V()), copy).flight[k]
        invariant forall k :: j <= k < |flight| ==> flight[k] == old(flight)[k]
      {
        if j < |subscribed| && copy.to in subscribed[j] {
          flight := flight[j := flight[j] + [copy]];
        }
        j := j + 1;
      }
    }
  }

  class ChatService {
    const me: nat
    const tables: Tables
    const redis: Redis
    var userConnMap: map<int, nat>
    ghost var handed: seq<Handed>
    ghost var returned: seq<Copy>

    constructor (me: nat, tables: Tables, redis: Redis)
      ensures this.me == me && this.tables == tables && this.redis == redis
      ensures V() == Node(me, map[], tables.V(), redis.V(), [], [])
    {
      this.me, this.tables, this.redis := me, tables, redis;
      userConnMap, handed, returned := map[], [], [];
    }

    ghost function V(): Node
      reads this, tables, redis
    {
      Node(me, userConnMap, tables.V(), redis.V(), handed, returned)
    }

    method Send(copy: Copy)
      requires copy.to in userConnMap
      modifies this`handed
      ensures V() == Hand(old(V()), copy)
    {
      handed := handed + [Handed(me, userConnMap[copy.to], copy)];
    }

    method InsertOffline(copy: Copy)
      modifies tables`offline
      ensures V() == StoreOffline(old(V()), copy)
    {
      tables.offline := tables.offline + [copy];
    }

    method Login(conn: nat, id: int, password: string) returns (answer: LoginAnswer, offlineMsg: seq<Copy>)
      modifies this, tables, redis
      ensures V() == ChatSpec.Login(old(V()), conn, id, password)
      ensures answer == AnswerLogin(old(V()), id, password)
      ensures offlineMsg == if answer == LoggedIn then RowsFor(old(tables.offline), id) else []
    {
      offlineMsg := [];
      if id != NOBODY && id in tables.users && tables.users[id].password == password {
        if tables.users[id].online {
          answer := AlreadyOnline;
        } else {
          tables.SetState(id, true);
          if id !in userConnMap {
            userConnMap := userConnMap[id := conn];
          }
          redis.Subscribe(me, id);
          offlineMsg := tables.QueryOffline(id);
          tables.RemoveOffline(id);
          returned := returned + offlineMsg;
          answer := LoggedIn;
        }
      } else {
        answer := WrongPassword;
      }
    }

    // No service ever has an entry for NOBODY, the id that stands for "not found" below.
    method LoginOut(userid: int)
      requires NOBODY !in userConnMap
      modifies this`userConnMap, tables`users, redis`subscribed
      ensures V() == Logout(old(V()), userid)
    {
      var id := NOBODY;
      if userid in userConnMap {
        id := userid;
        userConnMap := userConnMap - {userid};
      }
      redis.Unsubscribe(me, userid);
      if id != NOBODY {
        tables.SetState(id, false);
      }
    }

    method Route(copy: Copy)
      modifies this`handed, tables`offline, redis`flight
      ensures V() == ChatSpec.Route(old(V()), copy)
    {
      if copy.to in userConnMap {
        Send(copy);
      } else if copy.to in tables.users && tables.users[copy.to].online {
        redis.Publish(copy);
      } else {
        InsertOffline(copy);
      }
    }

    method OneChat(to: int, text: string)
      modifies this`handed, tables`offline, redis`flight
      ensures V() == ChatSpec.Route(old(V()), Copy(to, text))
    {
      Route(Copy(to, text));
    }

    method GroupChat(userid: int, groupid: int, text: string)
      modifies this`handed, tables`offline, redis`flight
      ensures V() == ChatSpec.GroupChat(old(V()), userid, groupid, text)
    {
      var ids := tables.QueryGroupUsers(userid, groupid);
      var i := 0;
      while i < |ids|
        invariant 0 <= i <= |ids|
        invariant V() == RouteAll(old(V()), ids[..i], text)
      {
        assert ids[..i + 1][..i] == ids[..i];
        Route(Copy(ids[i], text));
        i := i + 1;
      }
      assert ids[..i] == ids;
    }

    // Walks the table and stops at the first entry of the connection. `order` is the order of the walk,
    // which is whatever the hash table makes it.
    method ClientCloseException(conn: nat, order: seq<int>) returns (found: Option<int>)
      requires NOBODY !in userConnMap
      requires forall j :: 0 <= j < |order| ==> order[j] in userConnMap
      requires forall id :: id in userConnMap ==> id in order
      modifies this`userConnMap, tables`users, redis`subscribed
      ensures Finds(old(userConnMap), conn, found)
      ensures V() == ConnectionLost(old(V()), found)
    {
      var id := NOBODY;
      found := None;
      var i := 0;
      while i < |order| && id == NOBODY
        invariant 0 <= i <= |order| && unchanged(tables) && unchanged(redis)
        invariant id == NOBODY ==> found == None && userConnMap == old(userConnMap)
        invariant id == NOBODY ==> forall j :: 0 <= j < i ==> userConnMap[order[j]] != conn
        invariant id != NOBODY ==> found == Some(id) && id in old(userConnMap) && old(userConnMap)[id] == conn
                                   && userConnMap == old(userConnMap) - {id}
      {
        if userConnMap[order[i]] == conn {
          id := order[i];
          found := Some(id);
          userConnMap := userConnMap - {id};
        }
        i := i + 1;
      }
      assert id == NOBODY <==> found == None;
      assert userConnMap == old(userConnMap) - {id};
      redis.Unsubscribe(me, id);
      if id != NOBODY {
        tables.SetState(id, false);
      }
    }

    method HandleRedisSubscribeMessage(userid: int, text: string)
      modifies this`handed, tables`offline
      ensures V() == Report(old(V()), Copy(userid, text))
    {
      if userid in userConnMap {
        Send(Copy(userid, text));
      } else {
        InsertOffline(Copy(userid, text));
      }
    }
  }
}
