/** The sessions of one connector: sockets, the users waiting for authentication and the authenticated
ones. A socket stands for its handler object; socket ids are never used twice. */
module Sessions {
  import opened Types

  type SocketId = int

  datatype AuthStatus = NotAuthenticated | Authenticating | Authenticated

  /** `userId` is None while it is null. A socket is open from `handlerAdded` to `handlerRemoved`. */
  datatype Socket = Socket(userId: Option<string>, status: AuthStatus, open: bool)

  /** `users` and `pendingUsers` of `NetworkUserService`. */
  type UserMap = map<string, seq<SocketId>>

  /** What a connector tells the processor about a user's socket. */
  datatype Event =
    | Connected(user: string, socket: SocketId)
    | Disconnected(user: string, socket: SocketId)
    | NotFound(user: string, socket: SocketId)

  /** `approved` and `forwarded` record the past: the positive replies, and the sender and socket of
  each message passed on to the processor. `queue` holds the events still on their way. */
  datatype Connector = Connector(
    users: UserMap,
    pending: UserMap,
    sockets: map<SocketId, Socket>,
    queue: seq<Event>,
    approved: set<(string, SocketId)>,
    forwarded: set<(Option<string>, SocketId)>)

  datatype Step =
    | Open(socket: SocketId)
    | AuthRequest(socket: SocketId, userId: Option<string>)
    | Reply(user: string, socket: SocketId, isAuthenticated: bool)
    | Incoming(socket: SocketId)
    | Outgoing(user: string, socket: SocketId, reliable: bool)
    | Removed(socket: SocketId)

  // ---- the two maps

  function Add(m: UserMap, user: string, socket: SocketId): UserMap {
    m[user := (if user in m then m[user] else []) + [socket]]
  }

  function Without(list: seq<SocketId>, socket: SocketId): seq<SocketId> {
    if list == [] then []
    else Without(list[..|list| - 1], socket) + if list[|list| - 1] == socket then [] else [list[|list| - 1]]
  }

  /** The key goes with its last socket. */
  function Remove(m: UserMap, user: string, socket: SocketId): UserMap {
    if user !in m then m
    else if Without(m[user], socket) == [] then m - {user}
    else m[user := Without(m[user], socket)]
  }

  /** How often the socket is listed under the user. */
  function Occurrences(m: UserMap, user: string, socket: SocketId): nat {
    if user in m then multiset(m[user])[socket] else 0
  }

  predicate Holds(m: UserMap, user: string, socket: SocketId) {
    user in m && socket in m[user]
  }

  predicate NoEmptyList(m: UserMap) {
    forall u :: u in m ==> m[u] != []
  }

  // ---- steps

  predicate IsOpen(c: Connector, socket: SocketId) {
    socket in c.sockets && c.sockets[socket].open
  }

  predicate Enabled(c: Connector, step: Step) {
    match step
    case Open(s) => s !in c.sockets
    case AuthRequest(s, _) => IsOpen(c, s)
    case Reply(_, _, _) => true
    case Incoming(s) => IsOpen(c, s)
    case Outgoing(_, _, _) => true
    case Removed(s) => IsOpen(c, s)
  }

  /** `AuthClientMessageProcessor`. For a null user id adding to the map throws, after the socket has
  been changed. */
  function Requested(c: Connector, s: SocketId, userId: Option<string>): Connector
    requires s in c.sockets
  {
    if c.sockets[s].status != NotAuthenticated then c
    else
      c.(sockets := c.sockets[s := c.sockets[s].(userId := userId, status := Authenticating)],
         pending := if userId.Some? then Add(c.pending, userId.value, s) else c.pending)
  }

  /** `AuthClientReplyMessageProcessor`. */
  function Replied(c: Connector, user: string, s: SocketId, isAuthenticated: bool): Connector {
    if !Holds(c.pending, user, s) || s !in c.sockets then c
    else
      var c1 := c.(pending := Remove(c.pending, user, s));
      if isAuthenticated then
        c1.(users := Add(c.users, user, s),
            sockets := c.sockets[s := c.sockets[s].(status := Authenticated)],
            queue := c.queue + [Connected(user, s)],
            approved := c.approved + {(user, s)})
      else c1.(sockets := c.sockets[s := c.sockets[s].(status := NotAuthenticated)])
  }

  /** `handlerRemoved`, and `UserDisconnectedMessageProcessor` for the message it raises. */
  function Dropped(c: Connector, s: SocketId): Connector
    requires s in c.sockets
  {
    var socket := c.sockets[s];
    var c1 := c.(sockets := c.sockets[s := socket.(open := false)]);
    if socket.status == NotAuthenticated || socket.userId.None? || socket.userId.value == "" then c1
    else
      c1.(users := Remove(c.users, socket.userId.value, s),
          pending := Remove(c.pending, socket.userId.value, s),
          queue := c.queue + [Disconnected(socket.userId.value, s)])
  }

  function After(c: Connector, step: Step): Connector
    requires Enabled(c, step)
  {
    match step
    case Open(s) => c.(sockets := c.sockets[s := Socket(None, NotAuthenticated, true)])
    case AuthRequest(s, userId) => Requested(c, s, userId)
    case Reply(user, s, ok) => Replied(c, user, s, ok)
    case Incoming(s) =>
      if c.sockets[s].status == Authenticated then c.(forwarded := c.forwarded + {(c.sockets[s].userId, s)}) else c
    case Outgoing(user, s, reliable) =>
      if !Holds(c.users, user, s) && reliable then c.(queue := c.queue + [NotFound(user, s)]) else c
    case Removed(s) => Dropped(c, s)
  }

  const START := Connector(map[], map[], map[], [], {}, {})

  // ---- what every step keeps

  /** The socket has the status under this user id, and no disconnect has taken it out of the maps -
  which a disconnect never does for the empty id. */
  predicate Listed(socket: Socket, user: string, status: AuthStatus) {
    socket.status == status && socket.userId == Some(user) && (socket.open || user == "")
  }

  /** A map lists exactly the sockets of one status, each under its own user and once. */
  ghost predicate Lists(m: UserMap, sockets: map<SocketId, Socket>, status: AuthStatus) {
    && NoEmptyList(m)
    && forall u, s :: Occurrences(m, u, s) == if s in sockets && Listed(sockets[s], u, status) then 1 else 0
  }

  /** An authenticated socket has the user id that a positive reply approved for it. */
  ghost predicate ApprovedOnly(c: Connector) {
    && (forall s :: s in c.sockets && c.sockets[s].status == Authenticated ==>
          c.sockets[s].userId.Some? && (c.sockets[s].userId.value, s) in c.approved)
    && (forall f :: f in c.forwarded ==> f.0.Some? && (f.0.value, f.1) in c.approved)
  }

  ghost predicate Inv(c: Connector) {
    Lists(c.pending, c.sockets, Authenticating) && Lists(c.users, c.sockets, Authenticated) && ApprovedOnly(c)
  }

  lemma {:induction false} WithoutCounts(list: seq<SocketId>, s: SocketId, t: SocketId)
    ensures multiset(Without(list, s))[t] == if s == t then 0 else multiset(list)[t]
  {
    if list != [] {
      var k := |list| - 1;
      WithoutCounts(list[..k], s, t);
      assert list == list[..k] + [list[k]];
    }
  }

  lemma {:induction false} AddCounts(m: UserMap, user: string, s: SocketId)
    ensures NoEmptyList(m) ==> NoEmptyList(Add(m, user, s))
    ensures forall u, t :: Occurrences(Add(m, user, s), u, t) == Occurrences(m, u, t) + if u == user && t == s then
            1 else 0
  {
  }

  lemma {:induction false} RemoveCounts(m: UserMap, user: string, s: SocketId)
    ensures NoEmptyList(m) ==> NoEmptyList(Remove(m, user, s))
    ensures forall u, t :: Occurrences(Remove(m, user, s), u, t) == if u == user && t == s then
            0 else Occurrences(m, u, t)
  {
    hide Without;
    if user in m {
      forall t ensures multiset(Without(m[user], s))[t] == if s == t then 0 else multiset(m[user])[t] {
        WithoutCounts(m[user], s, t);
      }
    }
  }

  lemma {:induction false} HoldsCounts(m: UserMap, user: string, s: SocketId)
    ensures Holds(m, user, s) <==> Occurrences(m, user, s) > 0
  {
  }

  /** Only the status and the openness of a socket under its own user matter. */
  lemma {:induction false} SocketChange(m: UserMap, sockets: map<SocketId, Socket>, s: SocketId, socket: Socket,
                                        status: AuthStatus)
    requires Lists(m, sockets, status)
    requires forall u :: (s in sockets && Listed(sockets[s], u, status)) == Listed(socket, u, status)
    ensures Lists(m, sockets[s := socket], status)
  {
  }

  lemma {:induction false} SocketAdded(m: UserMap, sockets: map<SocketId, Socket>, s: SocketId, socket: Socket,
                                       status: AuthStatus, user: string)
    requires Lists(m, sockets, status)
    requires forall u :: !(s in sockets && Listed(sockets[s], u, status))
    requires forall u :: Listed(socket, u, status) <==> u == user
    ensures Lists(Add(m, user, s), sockets[s := socket], status)
  {
    hide Add, Occurrences, NoEmptyList;
    AddCounts(m, user, s);
  }

  lemma {:induction false} SocketRemoved(m: UserMap, sockets: map<SocketId, Socket>, s: SocketId, socket: Socket,
                                         status: AuthStatus, user: string)
    requires Lists(m, sockets, status)
    requires forall u :: s in sockets && Listed(sockets[s], u, status) ==> u == user
    requires forall u :: !Listed(socket, u, status)
    ensures Lists(Remove(m, user, s), sockets[s := socket], status)
  {
    hide Remove, Occurrences, NoEmptyList;
    RemoveCounts(m, user, s);
  }

  lemma {:induction false} RequestKeepsInv(c: Connector, s: SocketId, userId: Option<string>)
    requires Inv(c) && IsOpen(c, s)
    ensures Inv(Requested(c, s, userId))
  {
    hide Lists, Add;
    if c.sockets[s].status == NotAuthenticated {
      var socket := c.sockets[s].(userId := userId, status := Authenticating);
      SocketChange(c.users, c.sockets, s, socket, Authenticated);
      if userId.Some? {
        SocketAdded(c.pending, c.sockets, s, socket, Authenticating, userId.value);
      } else {
        SocketChange(c.pending, c.sockets, s, socket, Authenticating);
      }
    }
  }

  lemma {:induction false} PendingIsAuthenticating(c: Connector, user: string, s: SocketId)
    requires Inv(c) && Holds(c.pending, user, s)
    ensures s in c.sockets && Listed(c.sockets[s], user, Authenticating)
  {
    HoldsCounts(c.pending, user, s);
  }

  lemma {:induction false} ReplyKeepsInv(c: Connector, user: string, s: SocketId, ok: bool)
    requires Inv(c)
    ensures Inv(Replied(c, user, s, ok))
  {
    if Holds(c.pending, user, s) {
      PendingIsAuthenticating(c, user, s);
      hide Lists, Add, Remove, Holds;
      var socket := c.sockets[s].(status := if ok then Authenticated else NotAuthenticated);
      SocketRemoved(c.pending, c.sockets, s, socket, Authenticating, user);
      if ok {
        SocketAdded(c.users, c.sockets, s, socket, Authenticated, user);
      } else {
        SocketChange(c.users, c.sockets, s, socket, Authenticated);
      }
    }
  }

  lemma {:induction false} DropKeepsInv(c: Connector, s: SocketId)
    requires Inv(c) && IsOpen(c, s)
    ensures Inv(Dropped(c, s))
  {
    hide Lists, Remove;
    var socket := c.sockets[s].(open := false);
    if c.sockets[s].status == NotAuthenticated || socket.userId.None? || socket.userId.value == "" {
      SocketChange(c.users, c.sockets, s, socket, Authenticated);
      SocketChange(c.pending, c.sockets, s, socket, Authenticating);
    } else {
      SocketRemoved(c.users, c.sockets, s, socket, Authenticated, socket.userId.value);
      SocketRemoved(c.pending, c.sockets, s, socket, Authenticating, socket.userId.value);
    }
  }

  lemma {:induction false} OpenKeepsInv(c: Connector, s: SocketId)
    requires Inv(c) && s !in c.sockets
    ensures Inv(After(c, Open(s)))
  {
    hide Lists;
    SocketChange(c.users, c.sockets, s, Socket(None, NotAuthenticated, true), Authenticated);
    SocketChange(c.pending, c.sockets, s, Socket(None, NotAuthenticated, true), Authenticating);
  }

  lemma {:induction false} StepKeepsInv(c: Connector, step: Step)
    requires Inv(c) && Enabled(c, step)
    ensures Inv(After(c, step))
  {
    hide Lists, Requested, Replied, Dropped;
    match step
    case Open(s) => OpenKeepsInv(c, s);
    case AuthRequest(s, userId) => RequestKeepsInv(c, s, userId);
    case Reply(user, s, ok) => ReplyKeepsInv(c, user, s, ok);
    case Removed(s) => DropKeepsInv(c, s);
    case Incoming(_) =>
    case Outgoing(_, _, _) =>
  }

  ghost predicate IsRun(cs: seq<Connector>, steps: seq<Step>) {
    && |cs| == |steps| + 1
    && forall i :: 0 <= i < |steps| ==> Enabled(cs[i], steps[i]) && cs[i + 1] == After(cs[i], steps[i])
  }

  lemma {:induction false} RunKeepsInv(cs: seq<Connector>, steps: seq<Step>, i: nat)
    requires IsRun(cs, steps) && Inv(cs[0]) && i < |cs|
    ensures Inv(cs[i])
  {
    hide Inv, Enabled, After;
    if i > 0 {
      RunKeepsInv(cs, steps, i - 1);
      StepKeepsInv(cs[i - 1], steps[i - 1]);
    }
  }

  /** In every run: an open socket with a user id is AUTHENTICATING exactly when it is listed, once, as
  pending under that id, and AUTHENTICATED exactly when it is listed, once, as a user under that id; it
  is listed under no other id; and whatever was forwarded named the user approved for its socket. */
  lemma {:induction false} SessionsAreListed(cs: seq<Connector>, steps: seq<Step>, s: SocketId)
    requires IsRun(cs, steps) && cs[0] == START && s in cs[|steps|].sockets && cs[|steps|].sockets[s].open
    ensures var c := cs[|steps|];
      var socket := c.sockets[s];
      && NoEmptyList(c.pending) && NoEmptyList(c.users)
      && (forall u :: Occurrences(c.pending, u, s) == if socket.status == Authenticating &&
          socket.userId == Some(u) then 1 else 0)
      && (forall u :: Occurrences(c.users, u, s) == if socket.status == Authenticated && socket.userId == Some(u) then
          1 else 0)
      && (socket.status == Authenticated ==> socket.userId.Some? && (socket.userId.value, s) in c.approved)
      && (forall f :: f in c.forwarded ==> f.0.Some? && (f.0.value, f.1) in c.approved)
  {
    RunKeepsInv(cs, steps, |steps|);
  }

  /** A socket asks and sends from when it opens until it closes; the processor's replies and messages always come. */
  lemma {:induction false} WhenStepsHappen(c: Connector, s: SocketId, userId: Option<string>, user: string, flag: bool)
    ensures Enabled(c, Open(s)) <==> s !in c.sockets
    ensures Enabled(c, AuthRequest(s, userId)) <==> s in c.sockets && c.sockets[s].open
    ensures Enabled(c, Incoming(s)) <==> s in c.sockets && c.sockets[s].open
    ensures Enabled(c, Removed(s)) <==> s in c.sockets && c.sockets[s].open
    ensures Enabled(c, Reply(user, s, flag)) && Enabled(c, Outgoing(user, s, flag))
  {
  }

  /** At this moment of the run the socket, authenticated as the user, sends a message. */
  predicate Speaks(cs: seq<Connector>, steps: seq<Step>, i: nat, user: string, s: SocketId)
    requires |cs| == |steps| + 1
  {
    && i < |steps| && steps[i] == Incoming(s) && s in cs[i].sockets
    && cs[i].sockets[s].status == Authenticated && cs[i].sockets[s].userId == Some(user)
  }

  /** What has been passed on to the processor is exactly what authenticated sockets sent, in their user's name. */
  lemma {:induction false} ForwardedExactlyWhatUsersSent(cs: seq<Connector>, steps: seq<Step>, user: string,
                                                         s: SocketId)
    requires IsRun(cs, steps) && cs[0] == START
    ensures (Some(user), s) in cs[|steps|].forwarded <==> exists i: nat :: Speaks(cs, steps, i, user, s)
  {
    ForwardedSoFar(cs, steps, |steps|, user, s);
    if i: nat :| Speaks(cs, steps, i, user, s) {
      assert i < |steps|;
    }
  }

  lemma {:induction false} ForwardedSoFar(cs: seq<Connector>, steps: seq<Step>, n: nat, user: string, s: SocketId)
    requires IsRun(cs, steps) && cs[0] == START && n <= |steps|
    ensures (Some(user), s) in cs[n].forwarded <==> exists i: nat :: i < n && Speaks(cs, steps, i, user, s)
  {
    if n > 0 {
      ForwardedSoFar(cs, steps, n - 1, user, s);
      ForwardedStep(cs[n - 1], steps[n - 1], user, s);
      hide Enabled, After;
      if Speaks(cs, steps, n - 1, user, s) {
        assert n - 1 < n && Speaks(cs, steps, n - 1, user, s);
      }
    }
  }

  lemma {:induction false} ForwardedStep(c: Connector, step: Step, user: string, s: SocketId)
    requires Enabled(c, step)
    ensures (Some(user), s) in After(c, step).forwarded <==>
            || (Some(user), s) in c.forwarded
            || (step == Incoming(s) && c.sockets[s].status == Authenticated && c.sockets[s].userId == Some(user))
  {
  }

  /** A closed socket is still listed somewhere exactly when it asked to be authenticated as the empty
  user and was not turned down: disconnecting skips the empty user id. */
  lemma {:induction false} ClosedStaysExactlyForEmptyUser(cs: seq<Connector>, steps: seq<Step>, s: SocketId)
    requires IsRun(cs, steps) && cs[0] == START && s in cs[|steps|].sockets && !cs[|steps|].sockets[s].open
    ensures var c := cs[|steps|];
      (exists u :: Holds(c.pending, u, s) || Holds(c.users, u, s)) <==>
      c.sockets[s].userId == Some("") && c.sockets[s].status != NotAuthenticated
  {
    RunKeepsInv(cs, steps, |steps|);
    var c := cs[|steps|];
    hide Lists, Holds;
    forall u
      ensures Holds(c.pending, u, s) <==> Listed(c.sockets[s], u, Authenticating)
      ensures Holds(c.users, u, s) <==> Listed(c.sockets[s], u, Authenticated)
    {
      ListedIsHeld(c.pending, c.sockets, u, s, Authenticating);
      ListedIsHeld(c.users, c.sockets, u, s, Authenticated);
    }
    if c.sockets[s].userId == Some("") && c.sockets[s].status != NotAuthenticated {
      assert Holds(c.pending, "", s) || Holds(c.users, "", s);
    }
  }

  lemma {:induction false} ListedIsHeld(m: UserMap, sockets: map<SocketId, Socket>, u: string, s: SocketId,
                                        status: AuthStatus)
    requires Lists(m, sockets, status) && s in sockets
    ensures Holds(m, u, s) <==> Listed(sockets[s], u, status)
  {
    HoldsCounts(m, u, s);
  }

  /** It does happen: the socket is gone and still pending, whatever the reply may be. */
  lemma {:induction false} EmptyUserOutlivesSocket() returns (cs: seq<Connector>, steps: seq<Step>)
    ensures IsRun(cs, steps) && cs[0] == START && steps == [Open(1), AuthRequest(1, Some("")), Removed(1)]
    ensures Holds(cs[3].pending, "", 1) && 1 in cs[3].sockets && !cs[3].sockets[1].open && cs[3].queue == []
  {
    steps := [Open(1), AuthRequest(1, Some("")), Removed(1)];
    var c1 := After(START, steps[0]);
    var c2 := After(c1, steps[1]);
    var c3 := After(c2, steps[2]);
    cs := [START, c1, c2, c3];
    assert c3.pending[""] == [1] && c3.sockets[1] == Socket(Some(""), Authenticating, false);
  }

  /** The processor knows no client app for the empty user id and turns it down. */
  ghost predicate RepliesAreFromProcessor(steps: seq<Step>) {
    forall j :: 0 <= j < |steps| && steps[j].Reply? && steps[j].isAuthenticated ==> steps[j].user != ""
  }

  lemma {:induction false} EmptyUserIsNeverApproved(cs: seq<Connector>, steps: seq<Step>, i: nat)
    requires IsRun(cs, steps) && cs[0] == START && RepliesAreFromProcessor(steps) && i < |cs|
    ensures forall s :: ("", s) !in cs[i].approved
  {
    if i > 0 {
      EmptyUserIsNeverApproved(cs, steps, i - 1);
      assert cs[i] == After(cs[i - 1], steps[i - 1]);
    }
  }

  /** So with the replies the processor sends, a closed socket is never an authenticated session, and it
  is still pending exactly while the empty user it asked for waits for its reply. */
  lemma {:induction false} ClosedIsNoSession(cs: seq<Connector>, steps: seq<Step>, s: SocketId)
    requires IsRun(cs, steps) && cs[0] == START && RepliesAreFromProcessor(steps)
    requires s in cs[|steps|].sockets && !cs[|steps|].sockets[s].open
    ensures var c := cs[|steps|];
      && (forall u :: !Holds(c.users, u, s))
      && ((exists u :: Holds(c.pending, u, s)) <==> Listed(c.sockets[s], "", Authenticating))
  {
    RunKeepsInv(cs, steps, |steps|);
    EmptyUserIsNeverApproved(cs, steps, |steps|);
    var c := cs[|steps|];
    hide Lists, Holds;
    forall u
      ensures Holds(c.pending, u, s) <==> Listed(c.sockets[s], u, Authenticating)
      ensures Holds(c.users, u, s) <==> Listed(c.sockets[s], u, Authenticated)
    {
      ListedIsHeld(c.pending, c.sockets, u, s, Authenticating);
      ListedIsHeld(c.users, c.sockets, u, s, Authenticated);
    }
    if Listed(c.sockets[s], "", Authenticating) {
      assert Holds(c.pending, "", s);
    }
  }

  /** That reply takes it out: afterwards it is listed nowhere. */
  lemma {:induction false} ReplyEndsWaiting(c: Connector, s: SocketId)
    requires Inv(c) && s in c.sockets && !c.sockets[s].open && Holds(c.pending, "", s)
    ensures var c1 := After(c, Reply("", s, false));
      forall u :: !Holds(c1.pending, u, s) && !Holds(c1.users, u, s)
  {
    PendingIsAuthenticating(c, "", s);
    var c1 := After(c, Reply("", s, false));
    StepKeepsInv(c, Reply("", s, false));
    hide Lists, Holds, Inv;
    assert c1.sockets[s].status == NotAuthenticated by {
      assert c1 == Replied(c, "", s, false);
    }
    forall u ensures !Holds(c1.pending, u, s) && !Holds(c1.users, u, s) {
      assert Lists(c1.pending, c1.sockets, Authenticating) && Lists(c1.users, c1.sockets, Authenticated);
      ListedIsHeld(c1.pending, c1.sockets, u, s, Authenticating);
      ListedIsHeld(c1.users, c1.sockets, u, s, Authenticated);
    }
  }

  /** A socket that once sent a null user id can never be authenticated: it is AUTHENTICATING for good. */
  lemma {:induction false} NullUserIsLockedOut(cs: seq<Connector>, steps: seq<Step>, s: SocketId, i: nat)
    requires IsRun(cs, steps) && Inv(cs[0]) && i < |cs|
    requires s in cs[0].sockets && cs[0].sockets[s].status == Authenticating && cs[0].sockets[s].userId == None
    ensures s in cs[i].sockets && cs[i].sockets[s].status == Authenticating && cs[i].sockets[s].userId == None
  {
    if i > 0 {
      NullUserIsLockedOut(cs, steps, s, i - 1);
      RunKeepsInv(cs, steps, i - 1);
      NullStays(cs[i - 1], steps[i - 1], s);
    }
  }

  lemma {:induction false} NullStays(c: Connector, step: Step, s: SocketId)
    requires Inv(c) && Enabled(c, step)
    requires s in c.sockets && c.sockets[s].status == Authenticating && c.sockets[s].userId == None
    ensures s in After(c, step).sockets && After(c, step).sockets[s].status == Authenticating
    ensures After(c, step).sockets[s].userId == None
  {
    hide Lists, Add, Remove;
    if step.Reply? && Holds(c.pending, step.user, step.socket) {
      PendingIsAuthenticating(c, step.user, step.socket);
    }
  }
}
