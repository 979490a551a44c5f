/** The user channels as an index of the connectors' sessions, kept up to date by events that each
connector sends to the processor in order. */
module ChannelIndex {
  import opened Types
  import opened PostOffices
  import opened Sessions

  datatype Hub = Hub(domain: string, connectors: map<string, Connector>, channels: Channels)

  /** A step of one connector, or the processor taking the oldest event of one connector. */
  datatype HubStep =
    | At(name: string, step: Step)
    | Take(name: string)

  function SocketAddress(domain: string, name: string, s: SocketId): Address {
    Address(domain, Some(name), s)
  }

  /** `UserConnectedMessageProcessor`, `UserDisconnectedMessageProcessor` and the removal in
  `processTargetNotFound`. */
  function Applied(channels: Channels, domain: string, name: string, e: Event): Channels {
    match e
    case Connected(user, s) => AddAddress(channels, user, SocketAddress(domain, name, s))
    case Disconnected(user, s) => RemoveAddress(channels, user, SocketAddress(domain, name, s))
    case NotFound(user, s) => RemoveAddress(channels, user, SocketAddress(domain, name, s))
  }

  predicate HubEnabled(h: Hub, step: HubStep) {
    match step
    case At(name, s) => name in h.connectors && Enabled(h.connectors[name], s)
    case Take(name) => name in h.connectors && h.connectors[name].queue != []
  }

  function HubAfter(h: Hub, step: HubStep): Hub
    requires HubEnabled(h, step)
  {
    match step
    case At(name, s) => h.(connectors := h.connectors[name := After(h.connectors[name], s)])
    case Take(name) =>
      var c := h.connectors[name];
      h.(channels := Applied(h.channels, h.domain, name, c.queue[0]),
         connectors := h.connectors[name := c.(queue := c.queue[1..])])
  }

  // ---- what the channels will say once the queues are empty

  /** The sockets of the connector that the channel lists for the user. */
  function Indexed(channels: Channels, domain: string, name: string, user: string): set<SocketId> {
    set a | a in ChannelOf(channels, user) && a == SocketAddress(domain, name, a.socketId) :: a.socketId
  }

  function Outcome(e: Event, user: string, found: set<SocketId>): set<SocketId> {
    if e.user != user then found
    else if e.Connected? then found + {e.socket}
    else found - {e.socket}
  }

  function Folded(queue: seq<Event>, user: string, found: set<SocketId>): set<SocketId> {
    if queue == [] then found
    else Outcome(queue[|queue| - 1], user, Folded(queue[..|queue| - 1], user, found))
  }

  /** The sockets a connector has authenticated for the user. */
  function SocketsOf(users: UserMap, user: string): set<SocketId> {
    if user in users then set s | s in users[user] else {}
  }

  /** The named connector holds an authenticated socket of the user at the address. */
  predicate IsSession(h: Hub, name: string, user: string, a: Address) {
    name in h.connectors && a == SocketAddress(h.domain, name, a.socketId) &&
      Holds(h.connectors[name].users, user, a.socketId)
  }

  ghost predicate IndexOk(channels: Channels, domain: string, name: string, c: Connector) {
    forall user :: Folded(c.queue, user, Indexed(channels, domain, name, user)) == SocketsOf(c.users, user)
  }

  ghost predicate OnlyKnown(h: Hub) {
    forall user, a :: a in ChannelOf(h.channels, user) ==>
      exists name :: name in h.connectors && a == SocketAddress(h.domain, name, a.socketId)
  }

  predicate NoEmptyChannel(channels: Channels) {
    forall user :: user in channels ==> channels[user] != {}
  }

  ghost predicate HubInv(h: Hub) {
    && (forall name :: name in h.connectors ==> IndexOk(h.channels, h.domain, name, h.connectors[name]))
    && OnlyKnown(h) && NoEmptyChannel(h.channels)
  }

  // ---- one event

  lemma {:induction false} FoldedOn(queue: seq<Event>, e: Event, user: string, found: set<SocketId>)
    ensures Folded(queue + [e], user, found) == Outcome(e, user, Folded(queue, user, found))
  {
    assert (queue + [e])[..|queue|] == queue;
  }

  lemma {:induction false} FoldedHead(queue: seq<Event>, user: string, found: set<SocketId>)
    requires queue != []
    ensures Folded(queue, user, found) == Folded(queue[1..], user, Outcome(queue[0], user, found))
  {
    var k := |queue| - 1;
    if k == 0 {
      assert queue[..0] == [];
    } else {
      FoldedHead(queue[..k], user, found);
      assert queue[..k][1..] == queue[1..][..k - 1];
    }
  }

  lemma {:induction false} ChannelAfter(channels: Channels, user: string, a: Address, u: string)
    ensures ChannelOf(AddAddress(channels, user, a), u) == ChannelOf(channels, u) + if u == user then {a} else {}
    ensures ChannelOf(RemoveAddress(channels, user, a), u) == ChannelOf(channels, u) - if u == user then {a} else {}
    ensures NoEmptyChannel(channels) ==>
            NoEmptyChannel(AddAddress(channels, user, a)) && NoEmptyChannel(RemoveAddress(channels, user, a))
  {
  }

  /** An event changes the entries of its own connector and user, and no others. */
  lemma {:induction false} EventApplies(channels: Channels, domain: string, name: string, e: Event, n: string,
                                        u: string)
    ensures Indexed(Applied(channels, domain, name, e), domain, n, u) ==
            if n == name then Outcome(e, u, Indexed(channels, domain, n, u)) else Indexed(channels, domain, n, u)
    ensures NoEmptyChannel(channels) ==> NoEmptyChannel(Applied(channels, domain, name, e))
  {
    hide AddAddress, RemoveAddress, NoEmptyChannel, ChannelOf;
    ChannelAfter(channels, e.user, SocketAddress(domain, name, e.socket), u);
  }

  lemma {:induction false} EventAddsOnlyKnown(h: Hub, name: string)
    requires OnlyKnown(h) && HubEnabled(h, Take(name))
    ensures OnlyKnown(HubAfter(h, Take(name)))
  {
    var h1, e := HubAfter(h, Take(name)), h.connectors[name].queue[0];
    forall user, a | a in ChannelOf(h1.channels, user)
      ensures exists n :: n in h1.connectors && a == SocketAddress(h1.domain, n, a.socketId)
    {
      ChannelAfter(h.channels, e.user, SocketAddress(h.domain, name, e.socket), user);
      if a in ChannelOf(h.channels, user) {
        var n :| n in h.connectors && a == SocketAddress(h.domain, n, a.socketId);
        assert n in h1.connectors;
      } else {
        assert name in h1.connectors && a == SocketAddress(h1.domain, name, a.socketId);
      }
    }
  }

  // ---- one step

  lemma {:induction false} SocketsAfter(m: UserMap, user: string, s: SocketId, u: string)
    ensures SocketsOf(Add(m, user, s), u) == SocketsOf(m, u) + if u == user then {s} else {}
    ensures SocketsOf(Remove(m, user, s), u) == SocketsOf(m, u) - if u == user then {s} else {}
  {
    hide Without;
    if user in m {
      forall t ensures t in Without(m[user], s) <==> t in m[user] && t != s {
        WithoutCounts(m[user], s, t);
        CountIsIn(m[user], t);
        CountIsIn(Without(m[user], s), t);
      }
    }
  }

  lemma {:induction false} CountIsIn(list: seq<SocketId>, t: SocketId)
    ensures t in list <==> multiset(list)[t] > 0
  {
  }

  /** Every event a connector sends says just what it did to its own map. */
  lemma {:induction false} ConnectorKeepsIndex(channels: Channels, domain: string, name: string, c: Connector,
                                               step: Step)
    requires IndexOk(channels, domain, name, c) && Enabled(c, step)
    ensures IndexOk(channels, domain, name, After(c, step))
  {
    hide Add, Remove, Indexed, Folded, SocketsOf, Listed;
    var c1 := After(c, step);
    forall user
      ensures Folded(c1.queue, user, Indexed(channels, domain, name, user)) == SocketsOf(c1.users, user)
    {
      var found := Indexed(channels, domain, name, user);
      assert Folded(c.queue, user, found) == SocketsOf(c.users, user);
      if |c1.queue| > |c.queue| {
        var e := c1.queue[|c.queue|];
        assert c1.queue == c.queue + [e];
        FoldedOn(c.queue, e, user, found);
        SocketsAfter(c.users, e.user, e.socket, user);
        MissingSocket(c, step, user);
      } else {
        assert c1.queue == c.queue && c1.users == c.users;
      }
    }
  }

  /** A socket reported as not found is not among the user's. */
  lemma {:induction false} MissingSocket(c: Connector, step: Step, user: string)
    ensures step.Outgoing? && !Holds(c.users, step.user, step.socket) ==>
      SocketsOf(c.users, step.user) - {step.socket} == SocketsOf(c.users, step.user)
  {
  }

  lemma {:induction false} AtKeepsInv(h: Hub, name: string, step: Step)
    requires HubInv(h) && HubEnabled(h, At(name, step))
    ensures HubInv(HubAfter(h, At(name, step)))
  {
    hide IndexOk, After;
    ConnectorKeepsIndex(h.channels, h.domain, name, h.connectors[name], step);
    var h1 := HubAfter(h, At(name, step));
    assert h1.connectors.Keys == h.connectors.Keys;
  }

  lemma {:induction false} TakeKeepsIndex(h: Hub, name: string, n: string)
    requires HubInv(h) && HubEnabled(h, Take(name)) && n in h.connectors
    ensures var h1 := HubAfter(h, Take(name)); IndexOk(h1.channels, h1.domain, n, h1.connectors[n])
  {
    hide Indexed, Folded, SocketsOf, Applied, Outcome, OnlyKnown, NoEmptyChannel;
    var h1, c := HubAfter(h, Take(name)), h.connectors[name];
    forall user
      ensures Folded(h1.connectors[n].queue, user, Indexed(h1.channels, h1.domain, n, user)) ==
              SocketsOf(h1.connectors[n].users, user)
    {
      EventApplies(h.channels, h.domain, name, c.queue[0], n, user);
      FoldedHead(c.queue, user, Indexed(h.channels, h.domain, name, user));
      assert IndexOk(h.channels, h.domain, n, h.connectors[n]);
    }
  }

  lemma {:induction false} HubStepKeepsInv(h: Hub, step: HubStep)
    requires HubInv(h) && HubEnabled(h, step)
    ensures HubInv(HubAfter(h, step))
  {
    match step
    case At(name, s) => AtKeepsInv(h, name, s);
    case Take(name) =>
      forall n | n in h.connectors
        ensures IndexOk(HubAfter(h, step).channels, h.domain, n, HubAfter(h, step).connectors[n])
      {
        TakeKeepsIndex(h, name, n);
      }
      EventAddsOnlyKnown(h, name);
      EventApplies(h.channels, h.domain, name, h.connectors[name].queue[0], name, "");
      hide IndexOk, Applied, OnlyKnown, NoEmptyChannel;
  }

  // ---- whole runs

  ghost predicate IsHubRun(hs: seq<Hub>, steps: seq<HubStep>) {
    && |hs| == |steps| + 1
    && forall i :: 0 <= i < |steps| ==> HubEnabled(hs[i], steps[i]) && hs[i + 1] == HubAfter(hs[i], steps[i])
  }

  /** Nobody connected, no channel stored. */
  predicate IsHubStart(h: Hub) {
    h.channels == map[] && forall name :: name in h.connectors ==> h.connectors[name] == Sessions.START
  }

  lemma {:induction false} RunKeepsHubInv(hs: seq<Hub>, steps: seq<HubStep>, i: nat)
    requires IsHubRun(hs, steps) && IsHubStart(hs[0]) && i < |hs|
    ensures HubInv(hs[i])
  {
    if i > 0 {
      RunKeepsHubInv(hs, steps, i - 1);
      HubStepKeepsInv(hs[i - 1], steps[i - 1]);
    }
  }

  /** At every moment of every run, the stored channel of a user, changed by the events still queued, is
  what the connectors list for the user; no stored channel is empty; and when no event is queued, the
  channel holds the addresses of exactly the user's authenticated sockets. */
  lemma {:induction false} ChannelsIndexSessions(hs: seq<Hub>, steps: seq<HubStep>, user: string)
    requires IsHubRun(hs, steps) && IsHubStart(hs[0])
    ensures var h := hs[|steps|];
      && NoEmptyChannel(h.channels)
      && (forall name :: name in h.connectors ==>
            Folded(h.connectors[name].queue, user, Indexed(h.channels, h.domain, name, user)) ==
              SocketsOf(h.connectors[name].users, user))
      && ((forall name :: name in h.connectors ==> h.connectors[name].queue == []) ==>
            forall a :: (a in ChannelOf(h.channels, user) <==> exists name :: IsSession(h, name, user, a)))
  {
    RunKeepsHubInv(hs, steps, |steps|);
    var h := hs[|steps|];
    forall name | name in h.connectors
      ensures Folded(h.connectors[name].queue, user, Indexed(h.channels, h.domain, name, user)) ==
              SocketsOf(h.connectors[name].users, user)
    {
      assert IndexOk(h.channels, h.domain, name, h.connectors[name]);
    }
    if forall name :: name in h.connectors ==> h.connectors[name].queue == [] {
      QuietIndex(h, user);
    }
  }

  lemma {:induction false} NameOf(h: Hub, user: string, a: Address) returns (name: string)
    requires OnlyKnown(h) && a in ChannelOf(h.channels, user)
    ensures name in h.connectors && a == SocketAddress(h.domain, name, a.socketId)
  {
    name :| name in h.connectors && a == SocketAddress(h.domain, name, a.socketId);
  }

  lemma {:induction false} QuietIndex(h: Hub, user: string)
    requires HubInv(h) && forall name :: name in h.connectors ==> h.connectors[name].queue == []
    ensures forall a :: (a in ChannelOf(h.channels, user) <==> exists name :: IsSession(h, name, user, a))
  {
    forall name | name in h.connectors
      ensures Indexed(h.channels, h.domain, name, user) == SocketsOf(h.connectors[name].users, user)
    {
      assert IndexOk(h.channels, h.domain, name, h.connectors[name]);
    }
    hide IndexOk, NoEmptyChannel, Folded;
    forall a | a in ChannelOf(h.channels, user)
      ensures exists name :: IsSession(h, name, user, a)
    {
      var name := NameOf(h, user, a);
      assert a.socketId in Indexed(h.channels, h.domain, name, user);
      assert IsSession(h, name, user, a);
    }
    forall a, name | IsSession(h, name, user, a)
      ensures a in ChannelOf(h.channels, user)
    {
      assert a.socketId in SocketsOf(h.connectors[name].users, user);
    }
  }
}
