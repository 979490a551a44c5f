/** A group message splits into parts that together reach every recipient, and nobody twice. */
module GroupFanout {
  import opened Types
  import opened ClientApps
  import opened Messages
  import opened PostOffices
  import opened Delivery
  import opened Dispatch
  import opened Routing

  /** Some connector message names the user. */
  ghost predicate Addressee(groups: map<string, set<ConnectorUserId>>, user: string) {
    exists c, id :: c in groups && id in groups[c] && id.userId == user
  }

  /** The user is in a part sent to another domain. */
  predicate InForeignPart(cfg: Config, users: set<string>, user: string) {
    exists d :: d in DomainGroups(cfg, users) && d != cfg.domain && user in DomainGroups(cfg, users)[d]
  }

  /** The recipients this domain handles itself. */
  function Local(cfg: Config, users: set<string>): set<string> {
    PartFor(cfg, users, cfg.domain)
  }

  ghost predicate IsMissed(cfg: Config, channels: Channels, picks: Picks, users: set<string>, user: string) {
    user in Missed(cfg, channels, picks, Local(cfg, users))
  }

  ghost predicate IsAddressed(cfg: Config, channels: Channels, picks: Picks, users: set<string>, user: string) {
    Addressee(ConnectorGroups(Chosen(cfg, channels, picks, Local(cfg, users))), user)
  }

  lemma {:induction false} AddresseesAreChosen(chosen: set<(string, Address)>, user: string)
    ensures Addressee(ConnectorGroups(chosen), user) <==> exists x :: x in chosen && x.0 == user
  {
    var groups := ConnectorGroups(chosen);
    forall x | x in chosen && x.0 == user ensures Addressee(groups, user) {
      var id := ConnectorUserId(user, x.1.socketId);
      assert ConnectorOf(x.1) in groups && id in groups[ConnectorOf(x.1)];
    }
  }

  lemma {:induction false} AddressedExactlyWhenFound(cfg: Config, channels: Channels, picks: Picks, users: set<string>,
                                                     user: string)
    ensures Addressee(ConnectorGroups(Chosen(cfg, channels, picks, users)), user) <==>
            user in users && GroupTargets(cfg, channels, picks, user) != {}
  {
    hide ConnectorGroups, GroupTargets, Addressee;
    var chosen := Chosen(cfg, channels, picks, users);
    AddresseesAreChosen(chosen, user);
    if user in users && GroupTargets(cfg, channels, picks, user) != {} {
      var a :| a in GroupTargets(cfg, channels, picks, user);
      assert (user, a) in chosen;
    }
  }

  /** Every recipient, and nobody else, is in exactly one of: the part for the domain that is its home,
  the users reported as not found, the users some connector is asked to serve. */
  lemma {:induction false} RecipientsArePartitioned(cfg: Config, channels: Channels, picks: Picks, users: set<string>,
                                                    user: string)
    ensures InForeignPart(cfg, users, user) <==> user in users && HomeOf(cfg, user) != cfg.domain
    ensures IsMissed(cfg, channels, picks, users, user) <==>
            user in users && HomeOf(cfg, user) == cfg.domain && GroupTargets(cfg, channels, picks, user) == {}
    ensures IsAddressed(cfg, channels, picks, users, user) <==>
            user in users && HomeOf(cfg, user) == cfg.domain && GroupTargets(cfg, channels, picks, user) != {}
    ensures forall d :: d in DomainGroups(cfg, users) && user in DomainGroups(cfg, users)[d] ==> d == HomeOf(cfg, user)
  {
    hide GroupTargets, HomeOf, Addressee, ConnectorGroups, Chosen;
    AddressedExactlyWhenFound(cfg, channels, picks, Local(cfg, users), user);
    if user in users && HomeOf(cfg, user) != cfg.domain {
      assert HomeOf(cfg, user) in DomainGroups(cfg, users);
    }
  }

  // ---- one copy for every chosen socket

  /** The children the connector named `connector` makes out of its message. */
  function Children(group: Message, domain: string, connector: string): set<Message>
    requires group.content.data.GroupConnectorMessage?
  {
    set id | id in group.content.data.connectorUserIds ::
      GroupChild(group, group.content.data.forward, domain, connector, id, NEW_ID, NOW)
  }

  /** The addresses of this domain's connectors. */
  predicate IsConnectorAddress(cfg: Config, a: Address) {
    a.domain == cfg.domain && a.connector.Some?
  }

  /** A recipient with addresses, who is not addressed by a connector's name. */
  predicate IsConnected(channels: Channels, user: string) {
    !IsBlank(user) && !IsConnectorUser(user) && user in channels && channels[user] != {}
  }

  /** Of an ordinary recipient every address is chosen. */
  lemma {:induction false} EveryAddressIsChosen(cfg: Config, channels: Channels, picks: Picks, users: set<string>,
                                                user: string, a: Address)
    requires user in users && IsConnected(channels, user) && !IsMaster(cfg.apps, user)
    ensures (user, a) in Chosen(cfg, channels, picks, users) <==> a in channels[user]
  {
    MasterByName(cfg.apps, user);
    hide IsMasterUser, IsMaster;
  }

  /** Of a master user exactly one is, wherever the choice falls. */
  lemma {:induction false} OneAddressIsChosen(cfg: Config, channels: Channels, picks: Picks, users: set<string>,
                                              user: string, a: Address)
    requires user in users && IsConnected(channels, user) && IsMaster(cfg.apps, user)
    requires picks(user) in channels[user]
    ensures (user, a) in Chosen(cfg, channels, picks, users) <==> a == picks(user)
  {
    MasterByName(cfg.apps, user);
    hide IsMasterUser, IsMaster;
  }

  /** Nobody else's addresses are, and of a user without any none. */
  lemma {:induction false} OnlyRecipientsAreChosen(cfg: Config, channels: Channels, picks: Picks, users: set<string>,
                                                   user: string, a: Address)
    requires (user, a) in Chosen(cfg, channels, picks, users)
    ensures user in users && !IsBlank(user)
    ensures !IsConnectorUser(user) ==> user in channels && channels[user] != {}
  {
    hide IsMasterUser;
  }

  /** Down to the connectors: every socket of an ordinary recipient gets one child message with the text. */
  lemma {:induction false} EverySocketGetsItsChild(cfg: Config, channels: Channels, picks: Picks, m: Message,
                                                   text: string,
                                                   users: set<string>, user: string, a: Address)
    requires user in users && HomeOf(cfg, user) == cfg.domain
    requires IsConnected(channels, user) && !IsMaster(cfg.apps, user)
    requires a in channels[user] && IsConnectorAddress(cfg, a)
    ensures var chosen := Chosen(cfg, channels, picks, Local(cfg, users));
      var connector := a.connector.value;
      && connector in ConnectorGroups(chosen)
      && exists child :: child in Children(GroupForConnector(m, text, connector, ConnectorGroups(chosen)[connector],
                                                             NEW_ID, NOW), cfg.domain, connector) &&
                         child.to == user && child.meta.target == Some(a) &&
                         child.content.data == MessageForward(m.from, text)
  {
    var chosen := Chosen(cfg, channels, picks, Local(cfg, users));
    assert user in Local(cfg, users);
    hide Local, Chosen, IsMaster, IsConnected, ConnectorGroups, Children, HomeOf;
    EveryAddressIsChosen(cfg, channels, picks, Local(cfg, users), user, a);
    ChosenSocketsGetChildren(cfg, m, text, chosen, user, a);
    var connector := ConnectorOf(a);
    var group := GroupForConnector(m, text, connector, ConnectorGroups(chosen)[connector], NEW_ID, NOW);
    var child :| child in Children(group, cfg.domain, connector) && child.to == user && child.meta.target == Some(a);
    ChildCarriesText(group, cfg.domain, connector, child);
  }

  lemma {:induction false} ChildCarriesText(group: Message, domain: string, connector: string, child: Message)
    requires group.content.data.GroupConnectorMessage? && child in Children(group, domain, connector)
    ensures child.content.data == group.content.data.forward
  {
  }

  /** Each chosen (user, socket) pair is named in the message for the connector that holds the socket
  and in no other connector's message. */
  lemma {:induction false} ChosenOnce(cfg: Config, chosen: set<(string, Address)>, user: string, a: Address,
                                      connector: string)
    requires IsConnectorAddress(cfg, a) && forall x :: x in chosen ==> IsConnectorAddress(cfg, x.1)
    requires ConnectorOf(a) == connector
    ensures (user, a) in chosen <==>
            connector in ConnectorGroups(chosen) &&
              ConnectorUserId(user, a.socketId) in ConnectorGroups(chosen)[connector]
  {
    var groups := ConnectorGroups(chosen);
    if connector in groups && ConnectorUserId(user, a.socketId) in groups[connector] {
      var x :| x in chosen && ConnectorOf(x.1) == connector &&
        ConnectorUserId(x.0, x.1.socketId) == ConnectorUserId(user, a.socketId);
      assert x == (user, a);
    }
  }

  /** The message the processor sends to a connector, turned into children there: one child for each
  chosen socket of that connector, aimed at it, with the forwarded text, never to be confirmed. */
  lemma {:induction false} ChildrenHitChosenSockets(cfg: Config, m: Message, text: string,
                                                    chosen: set<(string, Address)>, connector: string, child: Message)
    requires connector in ConnectorGroups(chosen) && forall x :: x in chosen ==> IsConnectorAddress(cfg, x.1)
    requires child in Children(GroupForConnector(m, text, connector, ConnectorGroups(chosen)[connector], NEW_ID, NOW),
                               cfg.domain, connector)
    ensures child.meta.target.Some? && (child.to, child.meta.target.value) in chosen
    ensures ConnectorOf(child.meta.target.value) == connector
    ensures child.content.data == MessageForward(m.from, text) && !child.meta.confirmEnabled
    ensures child.content.feature == m.content.feature && child.content.reference == m.content.reference
  {
    var users := ConnectorGroups(chosen)[connector];
    var group := GroupForConnector(m, text, connector, users, NEW_ID, NOW);
    var id :| id in users &&
      child == GroupChild(group, MessageForward(m.from, text), cfg.domain, connector, id, NEW_ID, NOW);
    var x :| x in chosen && ConnectorOf(x.1) == connector && ConnectorUserId(x.0, x.1.socketId) == id;
    assert child.meta.target.value == x.1;
  }

  /** And the other way round: a chosen socket gets its child, from its own connector. */
  lemma {:induction false} ChosenSocketsGetChildren(cfg: Config, m: Message, text: string,
                                                    chosen: set<(string, Address)>, user: string, a: Address)
    requires (user, a) in chosen && IsConnectorAddress(cfg, a)
    ensures var connector := ConnectorOf(a);
      && connector in ConnectorGroups(chosen)
      && exists child :: child in Children(GroupForConnector(m, text, connector, ConnectorGroups(chosen)[connector],
                                                             NEW_ID, NOW), cfg.domain, connector) &&
                         child.to == user && child.meta.target == Some(a)
  {
    var connector, id := ConnectorOf(a), ConnectorUserId(user, a.socketId);
    var users := ConnectorGroups(chosen)[connector];
    assert id in users;
    var group := GroupForConnector(m, text, connector, users, NEW_ID, NOW);
    var child := GroupChild(group, MessageForward(m.from, text), cfg.domain, connector, id, NEW_ID, NOW);
    assert child in Children(group, cfg.domain, connector);
  }

  /** The copy of a connector's group message that goes to the connector itself. */
  function ConnectorCopy(cfg: Config, group: Message, connector: string): Message {
    Adjusted(cfg, Populated(cfg, group)).WithTarget(ConnectorAddress(cfg, connector))
  }

  /** The group message for a connector reaches it if and only if its name starts like one and resolves to
  this domain: then exactly one copy goes to it. A name that belongs to another domain makes the
  delivery throw, and any other name is looked up among the users. */
  lemma {:induction false} GroupReachesItsConnector(cfg: Config, n: Node, m: Message, text: string, connector: string,
                                                    users: set<ConnectorUserId>, pick: Address)
    requires CanPick(cfg, n.channels, connector, pick)
    ensures var group := GroupForConnector(m, text, connector, users, NEW_ID, NOW);
      var sent := Deliver(cfg, n, group, pick);
      if IsConnectorUser(connector) && HomeOf(cfg, connector) == cfg.domain then
        sent == Some(n.(net := n.net + multiset{ConnectorCopy(cfg, group, connector)}))
      else if !IsBlank(connector) && HomeOf(cfg, connector) != cfg.domain then
        sent == None
      else
        sent.Some? && (ChannelOf(n.channels, connector) == {} ==> sent.value.net == n.net)
    ensures var group := GroupForConnector(m, text, connector, users, NEW_ID, NOW);
      var copy := ConnectorCopy(cfg, group, connector);
      copy.to == connector && copy.content == group.content &&
        copy.meta.target == Some(ConnectorAddress(cfg, connector))
  {
    hide ResolveDomain, IsMasterUser;
    var group := GroupForConnector(m, text, connector, users, NEW_ID, NOW);
    if IsConnectorUser(connector) && HomeOf(cfg, connector) == cfg.domain {
      var m1, a := Adjusted(cfg, Populated(cfg, group)), ConnectorAddress(cfg, connector);
      assert pick == a;
      assert Copies(m1, {a}) == {m1.WithTarget(a)};
      assert multiset(Copies(m1, {a})) == multiset{m1.WithTarget(a)};
      assert RouteTargets(cfg, n.channels, connector, m1.meta.deliveryType, pick) == {a};
    }
  }

  lemma {:induction false} ChildIsNew(group: Message, forward: Payload, domain: string, connector: string,
                                      done: set<ConnectorUserId>, id: ConnectorUserId)
    requires id !in done
    ensures multiset(set x | x in done + {id} :: GroupChild(group, forward, domain, connector, x, NEW_ID, NOW)) ==
            multiset(set x | x in done :: GroupChild(group, forward, domain, connector, x, NEW_ID, NOW)) +
            multiset{GroupChild(group, forward, domain, connector, id, NEW_ID, NOW)}
  {
    var before := set x | x in done :: GroupChild(group, forward, domain, connector, x, NEW_ID, NOW);
    var child := GroupChild(group, forward, domain, connector, id, NEW_ID, NOW);
    forall x | x in done ensures GroupChild(group, forward, domain, connector, x, NEW_ID, NOW) != child {
      assert GroupChild(group, forward, domain, connector, x, NEW_ID, NOW).meta.target.value.socketId == x.socketId;
    }
    assert (set x | x in done + {id} :: GroupChild(group, forward, domain, connector, x, NEW_ID, NOW)) ==
           before + {child};
    assert child !in before;
  }

  // ---- when the loops reach everyone

  /** The first domain on the way to `domain` is known. */
  predicate HasRoute(cfg: Config, domain: string) {
    domain in cfg.hops && !IsBlank(cfg.hops[domain])
  }

  /** A message to this connector stays in the domain. */
  predicate ResolvesHere(cfg: Config, connector: string) {
    IsBlank(connector) || HomeOf(cfg, connector) == cfg.domain
  }

  ghost predicate AllHomesHaveRoutes(cfg: Config, users: set<string>) {
    forall u :: u in users && HomeOf(cfg, u) != cfg.domain ==> HasRoute(cfg, HomeOf(cfg, u))
  }

  ghost predicate AllConnectorsResolveHere(cfg: Config, chosen: set<(string, Address)>) {
    forall x :: x in chosen ==> ResolvesHere(cfg, ConnectorOf(x.1))
  }

  lemma {:induction false} PartPerforms(cfg: Config, m: Message, text: string, domain: string, users: set<string>)
    requires domain != cfg.domain
    ensures Performs(cfg, PartEffect(cfg, m, text, domain, users)) <==> HasRoute(cfg, domain)
  {
    hide ResolveDomain, IsMasterUser;
    assert PROCESSOR[0] == 'P' && !IsBlank(PROCESSOR);
  }

  lemma {:induction false} ConnectorMessagePerforms(cfg: Config, m: Message, text: string, connector: string,
                                                    users: set<ConnectorUserId>)
    ensures Performs(cfg, ConnectorEffect(m, text, connector, users)) <==> ResolvesHere(cfg, connector)
  {
    hide ResolveDomain, IsMasterUser;
  }

  lemma {:induction false} PartsPerform(cfg: Config, m: Message, text: string, users: set<string>)
    ensures AllPerform(cfg, multiset(PartEffects(cfg, m, text, DomainGroups(cfg, users)))) <==>
            AllHomesHaveRoutes(cfg, users)
  {
    hide Performs, HomeOf, PartEffect, HasRoute;
    var groups := DomainGroups(cfg, users);
    var es := PartEffects(cfg, m, text, groups);
    forall d | d in groups && d != cfg.domain
      ensures PartEffect(cfg, m, text, d, groups[d]) in es
      ensures Performs(cfg, PartEffect(cfg, m, text, d, groups[d])) <==> HasRoute(cfg, d)
    {
      PartPerforms(cfg, m, text, d, groups[d]);
    }
    forall u | u in users ensures HomeOf(cfg, u) in groups {
    }
    forall d | d in groups ensures exists u :: u in users && HomeOf(cfg, u) == d {
    }
    assert forall e :: e in multiset(es) <==> e in es;
  }

  lemma {:induction false} ConnectorsPerform(cfg: Config, m: Message, text: string, chosen: set<(string, Address)>)
    ensures AllPerform(cfg, multiset(ConnectorEffects(m, text, ConnectorGroups(chosen)))) <==>
            AllConnectorsResolveHere(cfg, chosen)
  {
    hide Performs, ConnectorEffect, ResolvesHere, ConnectorOf;
    var groups := ConnectorGroups(chosen);
    var es := ConnectorEffects(m, text, groups);
    forall c | c in groups
      ensures ConnectorEffect(m, text, c, groups[c]) in es
      ensures Performs(cfg, ConnectorEffect(m, text, c, groups[c])) <==> ResolvesHere(cfg, c)
    {
      ConnectorMessagePerforms(cfg, m, text, c, groups[c]);
    }
    forall x | x in chosen ensures ConnectorOf(x.1) in groups {
    }
    assert forall e :: e in multiset(es) <==> e in es;
  }

  /** Whatever order the loops take, a group message reaches all its recipients if and only if the home of
  every foreign one has a route, and the connector of every chosen address resolves to this domain.
  Otherwise the first exception leaves out those who have not had their turn. */
  lemma {:induction false} GroupReachesEveryone(cfg: Config, channels: Channels, picks: Picks, m: Message,
                                                users: set<string>, text: string)
    ensures AllPerform(cfg, multiset(GroupEffects(cfg, channels, picks, m, users, text))) <==>
            && AllHomesHaveRoutes(cfg, users)
            && AllConnectorsResolveHere(cfg, Chosen(cfg, channels, picks, Local(cfg, users)))
  {
    var local := Local(cfg, users);
    var parts := PartEffects(cfg, m, text, DomainGroups(cfg, users));
    var misses := MissEffects(m, text, Missed(cfg, channels, picks, local));
    var connectors := ConnectorEffects(m, text, ConnectorGroups(Chosen(cfg, channels, picks, local)));
    assert GroupEffects(cfg, channels, picks, m, users, text) == parts + (misses + connectors);
    assert forall u :: u in Missed(cfg, channels, picks, local) ==> HomeOf(cfg, u) == cfg.domain;
    hide *;
    PartsPerform(cfg, m, text, users);
    MissesPerform(cfg, m, text, Missed(cfg, channels, picks, local));
    ConnectorsPerform(cfg, m, text, Chosen(cfg, channels, picks, local));
    PerformTogether(cfg, misses, connectors);
    PerformTogether(cfg, parts, misses + connectors);
  }

  lemma {:induction false} PerformTogether(cfg: Config, a: set<Effect>, b: set<Effect>)
    ensures AllPerform(cfg, multiset(a + b)) <==> AllPerform(cfg, multiset(a)) && AllPerform(cfg, multiset(b))
  {
    hide Performs;
    assert forall e :: e in multiset(a) ==> e in multiset(a + b);
    assert forall e :: e in multiset(b) ==> e in multiset(a + b);
  }

  /** One recipient whose home has no route, and a local one without an address: all loops may end before
  the second is served, and what is then stored of the group message is never fetched. */
  lemma {:induction false} OneRecipientStopsTheRest(cfg: Config, channels: Channels, picks: Picks, m: Message,
                                                    users: set<string>, text: string, far: string, near: string,
                                                    before: multiset<Effect>)
    requires far in users && HomeOf(cfg, far) != cfg.domain && !HasRoute(cfg, HomeOf(cfg, far))
    requires near in users && HomeOf(cfg, near) == cfg.domain && GroupTargets(cfg, channels, picks, near) == {}
    ensures var all := GroupEffects(cfg, channels, picks, m, users, text);
      var part := PartEffect(cfg, m, text, HomeOf(cfg, far), PartFor(cfg, users, HomeOf(cfg, far)));
      && MissEffect(m, text, near) in all && Performs(cfg, MissEffect(m, text, near))
      && part in all && (forall rest :: UpToException(cfg, [part] + rest) == [])
      && Ran(cfg, before, multiset(all), before, false)
    ensures !Fetchable(m.(state := ProcessorError))
  {
    var home := HomeOf(cfg, far);
    var part := PartEffect(cfg, m, text, home, PartFor(cfg, users, home));
    hide *;
    PartIsThere(cfg, channels, picks, m, users, text, far);
    PartPerforms(cfg, m, text, home, PartFor(cfg, users, home));
    MissIsThere(cfg, channels, picks, m, users, text, near);
    MissPerforms(cfg, m, text, near);
    NoneBefore(cfg, GroupEffects(cfg, channels, picks, m, users, text), part, before);
    NotFetched(m);
  }

  lemma {:induction false} PartIsThere(cfg: Config, channels: Channels, picks: Picks, m: Message, users: set<string>,
                                       text: string, far: string)
    requires far in users && HomeOf(cfg, far) != cfg.domain
    ensures PartEffect(cfg, m, text, HomeOf(cfg, far), PartFor(cfg, users, HomeOf(cfg, far))) in
            GroupEffects(cfg, channels, picks, m, users, text)
  {
    hide PartEffect, HomeOf, LocalEffects;
    var home, groups := HomeOf(cfg, far), DomainGroups(cfg, users);
    assert home in groups && groups[home] == PartFor(cfg, users, home);
    assert PartEffect(cfg, m, text, home, groups[home]) in PartEffects(cfg, m, text, groups);
  }

  lemma {:induction false} MissIsThere(cfg: Config, channels: Channels, picks: Picks, m: Message, users: set<string>,
                                       text: string, near: string)
    requires near in users && HomeOf(cfg, near) == cfg.domain && GroupTargets(cfg, channels, picks, near) == {}
    ensures MissEffect(m, text, near) in GroupEffects(cfg, channels, picks, m, users, text)
  {
    hide MissEffect, HomeOf, PartEffects, GroupTargets, ConnectorEffects;
    assert near in Missed(cfg, channels, picks, PartFor(cfg, users, cfg.domain));
  }

  lemma {:induction false} ConnectorMessageIsThere(cfg: Config, channels: Channels, picks: Picks, m: Message,
                                                   users: set<string>, text: string, user: string, a: Address)
    requires (user, a) in Chosen(cfg, channels, picks, Local(cfg, users))
    ensures exists ids :: ConnectorUserId(user, a.socketId) in ids &&
                          ConnectorEffect(m, text, ConnectorOf(a), ids) in
                            GroupEffects(cfg, channels, picks, m, users, text)
  {
    hide Chosen, PartEffects, MissEffects, ConnectorEffect, ConnectorOf;
    var groups := ConnectorGroups(Chosen(cfg, channels, picks, Local(cfg, users)));
    var c := ConnectorOf(a);
    assert c in groups && ConnectorUserId(user, a.socketId) in groups[c];
    assert ConnectorEffect(m, text, c, groups[c]) in ConnectorEffects(m, text, groups);
  }

  /** The group message serves every recipient: a foreign one in the part for its home, a local one without
  address in a message of its own, and any other through the connector of each address chosen. */
  lemma {:induction false} EveryRecipientIsServed(cfg: Config, channels: Channels, picks: Picks, m: Message,
                                                  users: set<string>, text: string, user: string)
    requires user in users
    ensures var all, home := GroupEffects(cfg, channels, picks, m, users, text), HomeOf(cfg, user);
      if home != cfg.domain then
        PartEffect(cfg, m, text, home, set u | u in users && HomeOf(cfg, u) == home) in all
      else if GroupTargets(cfg, channels, picks, user) == {} then MissEffect(m, text, user) in all
      else
        forall a :: a in GroupTargets(cfg, channels, picks, user) ==>
          exists ids :: ConnectorUserId(user, a.socketId) in ids && ConnectorEffect(m, text, ConnectorOf(a), ids) in all
  {
    hide GroupTargets, GroupEffects, PartEffect, MissEffect, ConnectorEffect, HomeOf, ConnectorOf;
    var home := HomeOf(cfg, user);
    if home != cfg.domain {
      PartIsThere(cfg, channels, picks, m, users, text, user);
      assert PartFor(cfg, users, home) == set u | u in users && HomeOf(cfg, u) == home;
    } else if GroupTargets(cfg, channels, picks, user) == {} {
      MissIsThere(cfg, channels, picks, m, users, text, user);
    } else {
      forall a | a in GroupTargets(cfg, channels, picks, user)
        ensures exists ids :: ConnectorUserId(user, a.socketId) in ids &&
                              ConnectorEffect(m, text, ConnectorOf(a), ids) in
                                GroupEffects(cfg, channels, picks, m, users, text)
      {
        assert user in Local(cfg, users) && (user, a) in Chosen(cfg, channels, picks, Local(cfg, users));
        ConnectorMessageIsThere(cfg, channels, picks, m, users, text, user, a);
      }
    }
  }

  lemma {:induction false} NoneBefore(cfg: Config, all: set<Effect>, e: Effect, before: multiset<Effect>)
    requires e in all && !Performs(cfg, e)
    ensures Ran(cfg, before, multiset(all), before, false)
    ensures forall rest :: UpToException(cfg, [e] + rest) == []
  {
    hide Performs;
    assert e in multiset(all);
    assert before - before == multiset{};
  }

  lemma {:induction false} NotFetched(m: Message)
    ensures !Fetchable(m.(state := ProcessorError))
  {
  }

  /** `GroupConnectorMessageProcessor`: hands one child per named socket to the outgoing processors. */
  class GroupConnectorMessageProcessor {
    const domain: string
    const connector: string
    var outgoing: multiset<Message>

    constructor (domain: string, connector: string)
      ensures this.domain == domain && this.connector == connector && outgoing == multiset{}
    {
      this.domain, this.connector, outgoing := domain, connector, multiset{};
    }

    method DoProcess(group: Message)
      requires group.content.data.GroupConnectorMessage?
      modifies this`outgoing
      ensures outgoing == old(outgoing) + multiset(Children(group, domain, connector))
    {
      var forward := group.content.data.forward;
      var todo, done := group.content.data.connectorUserIds, {};
      while todo != {}
        invariant todo !! done && todo + done == group.content.data.connectorUserIds
        invariant outgoing == old(outgoing) +
                  multiset(set x | x in done :: GroupChild(group, forward, domain, connector, x, NEW_ID, NOW))
        decreases |todo|
      {
        var id :| id in todo;
        ChildIsNew(group, forward, domain, connector, done, id);
        outgoing := outgoing + multiset{GroupChild(group, forward, domain, connector, id, NEW_ID, NOW)};
        todo, done := todo - {id}, done + {id};
      }
      assert done == group.content.data.connectorUserIds;
    }
  }

  // ---- across domains

  /** The recipients `there` handles of a group message that `here` received: its own recipients, or
  what is local of the part sent to it. */
  function HandledAt(here: Config, there: Config, users: set<string>): set<string> {
    if there.domain == here.domain then Local(here, users) else Local(there, PartFor(here, users, there.domain))
  }

  /** Whether the ranges give a user's home, or leave the user to the domain that asks, exactly one
  domain handles each recipient: the home as seen from the domain where the group message started. */
  lemma {:induction false} EachRecipientHasOneDomain(here: Config, there: Config, users: set<string>, user: string)
    requires here.apps == there.apps
    ensures user in HandledAt(here, there, users) <==> user in users && there.domain == HomeOf(here, user)
  {
  }

  /** A part is wholly local where it was sent to: it is not split a second time. */
  lemma {:induction false} PartIsLocalAtItsTarget(here: Config, there: Config, users: set<string>)
    requires here.apps == there.apps && here.domain != there.domain
    ensures Local(there, PartFor(here, users, there.domain)) == PartFor(here, users, there.domain)
    ensures forall d :: d != there.domain ==> PartFor(there, PartFor(here, users, there.domain), d) == {}
  {
  }
}
