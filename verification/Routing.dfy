/** Who gets a copy: what delivery inside a domain comes to, told from the fields of the message, the
client apps and the stored channel alone. */
module Routing {
  import opened Types
  import opened Names
  import opened ClientApps
  import opened Messages
  import opened PostOffices

  /** The user id names an app and a number, and is the one the app calls its master. */
  ghost predicate IsMaster(apps: Apps, user: string) {
    exists app, number ::
      && Split(user) == [app, number] && !IsBlank(app) && ParseLong(number).Some?
      && app in apps && apps[app].masterUserId == user
  }

  lemma {:induction false} MasterByName(apps: Apps, user: string)
    ensures IsMasterUser(apps, user) <==> IsMaster(apps, user)
  {
    if IsMaster(apps, user) {
      var app, number :| Split(user) == [app, number] && !IsBlank(app) && ParseLong(number).Some? && app in apps &&
        apps[app].masterUserId == user;
      TokenIsNotBlank(user, app);
    }
    if IsMasterUser(apps, user) {
      assert Split(user) == [Split(user)[0], Split(user)[1]];
    }
  }

  lemma {:induction false} TokenIsNotBlank(s: string, t: string)
    requires t in Split(s) && !IsBlank(t)
    ensures !IsBlank(s)
    decreases |s|
  {
    if s[0] == '-' {
      TokenIsNotBlank(s[1..], t);
      assert forall i :: 0 <= i < |s[1..]| ==> s[1..][i] == s[i + 1];
    } else {
      var n := TokenLength(s);
      if t != s[..n] {
        TokenIsNotBlank(s[n..], t);
        assert forall i :: 0 <= i < |s[n..]| ==> s[n..][i] == s[i + n];
      }
    }
  }

  /** A user of app `app` with number `number` is its master exactly when the app says so. */
  lemma {:induction false} MasterOfPair(apps: Apps, app: string, number: string)
    requires !IsBlank(app) && NoDash(app) && number != "" && NoDash(number) && ParseLong(number).Some?
    ensures IsMaster(apps, app + "-" + number) <==> app in apps && apps[app].masterUserId == app + "-" + number
  {
    SplitOfPair(app, number);
  }

  /** The message stays in this domain: it is already aimed here, or it has no target and its user lives here. */
  predicate StaysHere(cfg: Config, m: Message) {
    if m.meta.target.Some? then m.meta.target.value.domain == cfg.domain
    else ResolveDomain(cfg.apps, cfg.domain, m.to) == cfg.domain
  }

  /** One address is enough: the sender says so, it is an envelope, it is for the processor or for a master user. */
  ghost predicate OneIsEnough(cfg: Config, m: Message) {
    || m.meta.deliveryType == Any || m.content.data.InternalMessage?
    || IsProcessorUser(m.to) || IsMaster(cfg.apps, m.to)
  }

  /** The copy of `m` for the address `a`, field by field. */
  function CopyFor(m: Message, a: Address, dt: DeliveryType): Message {
    Message(m.id, m.content, m.from, m.to,
            Meta(m.meta.original, Some(a), m.meta.ttl, m.meta.confirmEnabled, dt), m.createdAt, m.state)
  }

  /** The addresses of a user who is no connector. */
  predicate HasAddresses(n: Node, user: string) {
    !IsBlank(user) && !IsConnectorUser(user) && user in n.channels && n.channels[user] != {}
  }

  lemma {:induction false} LocalIsAddressed(cfg: Config, m: Message)
    requires StaysHere(cfg, m) && !IsBlank(m.to)
    ensures var dt := if OneIsEnough(cfg, m) then Any else m.meta.deliveryType;
      exists target :: Addressed(cfg, m) == Some(CopyFor(m, target, dt))
  {
    MasterByName(cfg.apps, m.to);
    var dt := if OneIsEnough(cfg, m) then Any else m.meta.deliveryType;
    var target := if m.meta.target.Some? then m.meta.target.value else DomainOnly(cfg.domain);
    hide IsMaster, IsMasterUser, ResolveDomain;
    assert Addressed(cfg, m) == Some(CopyFor(m, target, dt));
  }

  lemma {:induction false} OneCopy(m: Message, target: Address, dt: DeliveryType, a: Address)
    ensures multiset(Copies(CopyFor(m, target, dt), {a})) == multiset{CopyFor(m, a, dt)}
  {
    var copy := CopyFor(m, a, dt);
    assert Copies(CopyFor(m, target, dt), {a}) == {copy};
    assert multiset({copy}) == multiset{copy};
  }

  lemma {:induction false} CopiesFor(m: Message, target: Address, dt: DeliveryType, addresses: set<Address>)
    ensures Copies(CopyFor(m, target, dt), addresses) == set a | a in addresses :: CopyFor(m, a, dt)
  {
    assert forall a :: CopyFor(m, target, dt).WithTarget(a) == CopyFor(m, a, dt);
  }

  /** Where one address is enough, one copy goes out, to an address of the channel. */
  lemma {:induction false} OneCopyGoesOut(cfg: Config, n: Node, m: Message, pick: Address)
    requires StaysHere(cfg, m) && HasAddresses(n, m.to) && OneIsEnough(cfg, m)
    requires CanPick(cfg, n.channels, m.to, pick)
    ensures pick in n.channels[m.to]
    ensures Deliver(cfg, n, m, pick) == Some(n.(net := n.net + multiset{CopyFor(m, pick, Any)}))
  {
    hide OneIsEnough, ResolveDomain, IsMasterUser;
    LocalIsAddressed(cfg, m);
    var target :| Addressed(cfg, m) == Some(CopyFor(m, target, Any));
    OneCopy(m, target, Any, pick);
    hide Addressed, Copies;
    assert RouteTargets(cfg, n.channels, m.to, Any, pick) == {pick};
  }

  /** Otherwise one copy goes to every address of the channel. */
  lemma {:induction false} EveryAddressGetsOne(cfg: Config, n: Node, m: Message, pick: Address)
    requires StaysHere(cfg, m) && HasAddresses(n, m.to) && !OneIsEnough(cfg, m)
    ensures var copies := set a | a in n.channels[m.to] :: CopyFor(m, a, All);
      && Deliver(cfg, n, m, pick) == Some(n.(net := n.net + multiset(copies)))
      && |copies| == |n.channels[m.to]|
  {
    hide OneIsEnough, ResolveDomain, IsMasterUser;
    assert m.meta.deliveryType == All by { NotEnoughIsAll(cfg, m); }
    LocalIsAddressed(cfg, m);
    var target :| Addressed(cfg, m) == Some(CopyFor(m, target, All));
    CopiesFor(m, target, All, n.channels[m.to]);
    CopiesCount(m, n.channels[m.to]);
    hide Addressed, Copies;
  }

  lemma {:induction false} NotEnoughIsAll(cfg: Config, m: Message)
    requires !OneIsEnough(cfg, m)
    ensures m.meta.deliveryType == All
  {
  }

  lemma {:induction false} CopiesCount(m: Message, addresses: set<Address>)
    ensures |set a | a in addresses :: CopyFor(m, a, All)| == |addresses|
    decreases |addresses|
  {
    var copies := set a | a in addresses :: CopyFor(m, a, All);
    if addresses == {} {
      assert copies == {};
    } else {
      var a :| a in addresses;
      var rest := addresses - {a};
      CopiesCount(m, rest);
      var fewer := set b | b in rest :: CopyFor(m, b, All);
      assert copies == fewer + {CopyFor(m, a, All)};
      forall b | b in rest ensures CopyFor(m, b, All) != CopyFor(m, a, All) {
        assert CopyFor(m, b, All).meta.target == Some(b);
      }
      assert CopyFor(m, a, All) !in fewer;
    }
  }

  /** The master of an app, with any number of devices connected, gets one copy, at one of them. */
  lemma {:induction false} MasterGetsOneCopy(cfg: Config, n: Node, m: Message, app: string, number: string,
                                             pick: Address)
    requires !IsBlank(app) && NoDash(app) && number != "" && NoDash(number) && ParseLong(number).Some?
    requires m.to == app + "-" + number && app in cfg.apps && cfg.apps[app].masterUserId == m.to
    requires StaysHere(cfg, m) && HasAddresses(n, m.to) && CanPick(cfg, n.channels, m.to, pick)
    ensures pick in n.channels[m.to]
    ensures Deliver(cfg, n, m, pick) == Some(n.(net := n.net + multiset{CopyFor(m, pick, Any)}))
  {
    MasterOfPair(cfg.apps, app, number);
    hide IsMaster, StaysHere, HasAddresses, CanPick;
    OneCopyGoesOut(cfg, n, m, pick);
  }

  /** A user without addresses: the message is stored as not found, if it is reliable, and otherwise gone. */
  lemma {:induction false} NobodyGetsACopy(cfg: Config, n: Node, m: Message, pick: Address)
    requires StaysHere(cfg, m) && !IsBlank(m.to) && !IsConnectorUser(m.to)
    requires m.to !in n.channels || n.channels[m.to] == {}
    ensures var n1 := Deliver(cfg, n, m, pick);
      && n1.Some? && n1.value.net == n.net && n1.value.channels == n.channels
      && (m.content.feature == Fast ==> n1.value == n)
      && (m.content.feature == Reliable ==>
            && n1.value.store.Keys == n.store.Keys + {m.id}
            && (forall id :: id in n.store && id != m.id ==> n1.value.store[id] == n.store[id])
            && var row := n1.value.store[m.id];
               && row.id == m.id && row.content == m.content && row.from == m.from && row.to == m.to
               && row.createdAt == m.createdAt && row.state == AddressNotFound)
  {
    hide OneIsEnough, ResolveDomain, IsMasterUser;
    LocalIsAddressed(cfg, m);
    var dt := if OneIsEnough(cfg, m) then Any else m.meta.deliveryType;
    var target :| Addressed(cfg, m) == Some(CopyFor(m, target, dt));
    hide Addressed, Copies;
  }

  /** Nor does anybody get a message for nobody, whatever it is aimed at. */
  lemma {:induction false} BlankGoesNowhere(cfg: Config, n: Node, m: Message, pick: Address)
    requires IsBlank(m.to)
    ensures var n1 := Deliver(cfg, n, m, pick);
      && n1.Some? && n1.value.net == n.net
      && n1.value.store.Keys == n.store.Keys + if m.content.feature == Reliable then {m.id} else {}
  {
    hide ResolveDomain, IsMasterUser;
  }

  /** A connector's own name: one copy, to the connector itself. */
  lemma {:induction false} ConnectorGetsOneCopy(cfg: Config, n: Node, m: Message, pick: Address)
    requires StaysHere(cfg, m) && IsConnectorUser(m.to) && CanPick(cfg, n.channels, m.to, pick)
    ensures var dt := if OneIsEnough(cfg, m) then Any else m.meta.deliveryType;
      Deliver(cfg, n, m, pick) ==
      Some(n.(net := n.net + multiset{CopyFor(m, Address(cfg.domain, Some(m.to), -1), dt)}))
  {
    hide OneIsEnough, ResolveDomain, IsMasterUser;
    LocalIsAddressed(cfg, m);
    var dt := if OneIsEnough(cfg, m) then Any else m.meta.deliveryType;
    var target :| Addressed(cfg, m) == Some(CopyFor(m, target, dt));
    var a := Address(cfg.domain, Some(m.to), -1);
    assert pick == a;
    OneCopy(m, target, dt, a);
    hide Addressed, Copies;
    assert RouteTargets(cfg, n.channels, m.to, dt, pick) == {a};
  }

  /** An envelope for another domain: one copy, to the neighbour the way starts with, and only if there is one.
  Anything else for another domain is refused. */
  lemma {:induction false} ForeignGoesToNeighbour(cfg: Config, n: Node, m: Message, pick: Address)
    requires m.meta.target.Some? && m.meta.target.value.domain != cfg.domain && !IsBlank(m.to)
    ensures var target := m.meta.target.value.domain;
      var sent := Deliver(cfg, n, m, pick);
      && (sent.Some? <==> m.content.data.InternalMessage? && target in cfg.hops && !IsBlank(cfg.hops[target]))
      && (sent.Some? ==>
            var next := DomainUserId(cfg.hops[target]);
            && (HasAddresses(n, next) && pick in n.channels[next] ==>
                  sent.value == n.(net := n.net + multiset{CopyFor(m.(to := next), pick, Any)}))
            && (!IsConnectorUser(next) && next !in n.channels && m.content.feature == Reliable ==>
                  sent.value.net == n.net && m.id in sent.value.store && sent.value.store[m.id].to == next &&
                  sent.value.store[m.id].content == m.content))
  {
    hide DomainUserId, IsMasterUser;
    var target := m.meta.target.value.domain;
    if m.content.data.InternalMessage? && target in cfg.hops && !IsBlank(cfg.hops[target]) {
      var next := DomainUserId(cfg.hops[target]);
      var e := CopyFor(m.(to := next), m.meta.target.value, Any);
      assert Addressed(cfg, m) == Some(e);
      DomainUserIdIsNotBlank(cfg.hops[target]);
      OneCopy(m.(to := next), m.meta.target.value, Any, pick);
      hide Addressed, Copies;
    }
  }
}
