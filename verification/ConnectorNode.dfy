/** The connector working on mutable fields; every handler is proved against its step in `Sessions`. */
module Connectors {
  import opened Types
  import opened Sessions

  /** `NetworkUserService`; a list holds socket ids for the handlers. */
  class NetworkUserService {
    var users: UserMap
    var pendingUsers: UserMap

    constructor ()
      ensures users == map[] && pendingUsers == map[]
    {
      users, pendingUsers := map[], map[];
    }

    static method AddTo(m: UserMap, userId: string, socket: SocketId) returns (more: UserMap)
      ensures more == Add(m, userId, socket)
    {
      more := m;
      if userId !in more {
        more := more[userId := []];
      }
      more := more[userId := more[userId] + [socket]];
    }

    /** Drops every occurrence of the socket, and the key when the list is empty. */
    static method RemoveFrom(m: UserMap, userId: string, socket: SocketId) returns (less: UserMap)
      ensures less == Remove(m, userId, socket)
    {
      less := m;
      if userId in m {
        var list := m[userId];
        var kept := [];
        for i := 0 to |list|
          invariant kept == Without(list[..i], socket)
        {
          assert list[..i + 1][..i] == list[..i];
          if list[i] != socket {
            kept := kept + [list[i]];
          }
        }
        assert list[..|list|] == list;
        less := if kept == [] then less - {userId} else less[userId := kept];
      }
    }

    method AddUser(userId: string, socket: SocketId)
      modifies this`users
      ensures users == Add(old(users), userId, socket)
    {
      users := AddTo(users, userId, socket);
    }

    method RemoveUser(userId: string, socket: SocketId)
      modifies this`users
      ensures users == Remove(old(users), userId, socket)
    {
      users := RemoveFrom(users, userId, socket);
    }

    method AddPendingUser(userId: string, socket: SocketId)
      modifies this`pendingUsers
      ensures pendingUsers == Add(old(pendingUsers), userId, socket)
    {
      pendingUsers := AddTo(pendingUsers, userId, socket);
    }

    method RemovePendingUser(userId: string, socket: SocketId)
      modifies this`pendingUsers
      ensures pendingUsers == Remove(old(pendingUsers), userId, socket)
    {
      pendingUsers := RemoveFrom(pendingUsers, userId, socket);
    }

    /** `getUser(map, userId, socketId)`: None stands for null. */
    static method Find(m: UserMap, userId: string, socket: SocketId) returns (found: Option<SocketId>)
      ensures found == if Holds(m, userId, socket) then Some(socket) else None
    {
      found := None;
      if userId in m {
        for i := 0 to |m[userId]|
          invariant socket !in m[userId][..i]
        {
          if m[userId][i] == socket {
            return Some(m[userId][i]);
          }
        }
      }
    }
  }

  class ConnectorNode {
    const userService: NetworkUserService
    var sockets: map<SocketId, Socket>
    var queue: seq<Event>
    ghost var approved: set<(string, SocketId)>
    var forwarded: set<(Option<string>, SocketId)>

    constructor ()
      ensures State() == START && fresh(userService)
    {
      sockets, queue, approved, forwarded := map[], [], {}, {};
      userService := new NetworkUserService();
    }

    ghost function State(): Connector
      reads this, userService
    {
      Connector(userService.users, userService.pendingUsers, sockets, queue, approved, forwarded)
    }

    /** `handlerAdded`. */
    method HandlerAdded(s: SocketId)
      requires Enabled(State(), Open(s))
      modifies this`sockets
      ensures State() == After(old(State()), Open(s))
    {
      sockets := sockets[s := Socket(None, NotAuthenticated, true)];
    }

    /** `AuthClientMessageProcessor.doProcess`; `ok` is false when it throws on a null user id. */
    method Authenticate(s: SocketId, userId: Option<string>) returns (ok: bool)
      requires Enabled(State(), AuthRequest(s, userId))
      modifies this`sockets, userService
      ensures State() == After(old(State()), AuthRequest(s, userId))
      ensures !ok <==> old(sockets[s].status) == NotAuthenticated && userId.None?
    {
      ok := true;
      if sockets[s].status == NotAuthenticated {
        sockets := sockets[s := sockets[s].(userId := userId)];
        sockets := sockets[s := sockets[s].(status := Authenticating)];
        if userId.None? {
          return false;
        }
        userService.AddPendingUser(userId.value, s);
      }
    }

    /** `AuthClientReplyMessageProcessor.doProcess`. */
    method AuthReply(user: string, s: SocketId, isAuthenticated: bool)
      requires Holds(State().pending, user, s) ==> s in sockets
      modifies this`sockets, this`queue, this`approved, userService
      ensures State() == After(old(State()), Reply(user, s, isAuthenticated))
    {
      var handler := NetworkUserService.Find(userService.pendingUsers, user, s);
      if handler.None? {
        return;
      }
      userService.RemovePendingUser(user, s);
      if isAuthenticated {
        userService.AddUser(user, s);
        sockets := sockets[s := sockets[s].(status := Authenticated)];
        approved := approved + {(user, s)};
        queue := queue + [Connected(user, s)];
      } else {
        sockets := sockets[s := sockets[s].(status := NotAuthenticated)];
      }
    }

    /** `DefaultIncomingMessageProcessor.doProcess`; otherwise AUTH_REQUIRED goes back to the client. */
    method HandleIncoming(s: SocketId) returns (authRequired: bool)
      requires Enabled(State(), Incoming(s))
      modifies this`forwarded
      ensures State() == After(old(State()), Incoming(s))
      ensures authRequired <==> sockets[s].status != Authenticated
      ensures forwarded == old(forwarded) + if authRequired then {} else {(sockets[s].userId, s)}
    {
      authRequired := sockets[s].status != Authenticated;
      if !authRequired {
        forwarded := forwarded + {(sockets[s].userId, s)};
      }
    }

    /** `DefaultOutgoingMessageProcessor.doProcess`: `written` tells whether there was a socket to write to. */
    method HandleOutgoing(user: string, s: SocketId, reliable: bool) returns (written: bool)
      modifies this`queue
      ensures State() == After(old(State()), Outgoing(user, s, reliable))
      ensures written <==> Holds(State().users, user, s)
    {
      var handler := NetworkUserService.Find(userService.users, user, s);
      written := handler.Some?;
      if !written && reliable {
        queue := queue + [NotFound(user, s)];
      }
    }

    /** `handlerRemoved`. */
    method HandlerRemoved(s: SocketId)
      requires Enabled(State(), Removed(s))
      modifies this`sockets, this`queue, userService
      ensures State() == After(old(State()), Removed(s))
    {
      var socket := sockets[s];
      sockets := sockets[s := socket.(open := false)];
      if socket.status == NotAuthenticated {
        return;
      }
      if socket.userId.Some? && socket.userId.value != "" {
        userService.RemoveUser(socket.userId.value, s);
        userService.RemovePendingUser(socket.userId.value, s);
        queue := queue + [Disconnected(socket.userId.value, s)];
      }
    }
  }
}
