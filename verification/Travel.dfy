/** Messages on their way through the linked domains.

A domain that cannot handle a message puts it in an envelope, or passes an envelope on, to the
neighbour its own shortest path starts with. The neighbour receives only the inner message and wraps
it afresh, so no domain knows which way a message came, or that it has travelled at all. */
module Travel {
  import opened Types
  import opened Names
  import opened ClientApps
  import opened Messages
  import opened PostOffices
  import opened Delivery
  import opened DomainGraphs
  import opened Dispatch
  import opened Fetching
  import opened GroupFanout

  datatype Network = Network(graph: Graph, apps: Apps, domains: map<string, Config>)

  /** `hops` is what `getNextDomainName` answers at `source`. Ties between shortest paths may be broken
  differently in every domain. */
  ghost predicate HopsOk(g: Graph, source: string, hops: map<string, string>) {
    && (forall t :: t in hops <==> g.Reachable(source, t))
    && (forall t :: t in hops ==> if t == source then hops[t] == source else IsNextHop(g, source, t, hops[t]))
  }

  ghost predicate DomainOk(net: Network, d: string) {
    d in net.domains && net.domains[d].domain == d && net.domains[d].apps == net.apps &&
      HopsOk(net.graph, d, net.domains[d].hops)
  }

  /** All domains share the link graph and the client apps, and no two log in under the same user id. */
  ghost predicate Good(net: Network) {
    && (forall d :: d in net.graph.domains ==> DomainOk(net, d) && !IsBlank(d))
    && (forall a, b :: a in net.graph.domains && b in net.graph.domains && DomainUserId(a) == DomainUserId(b) ==>
        a == b)
  }

  /** What a `DomainGraphService` computes is such a table. */
  lemma {:induction false} ServiceGivesHops(s: DomainGraphService)
    requires s.Valid()
    ensures HopsOk(s.graph, s.source, map t | t in s.path :: s.GetNextDomainName(t).value)
  {
  }

  /** A message that waits to be processed in a domain. */
  datatype Place = Place(domain: string, message: Message)

  /** The message inside the envelope. */
  function Inner(m: Message): Message {
    if m.content.data.InternalMessage? then m.content.data.inner else m
  }

  /** One hop: `p.domain` sends an envelope to a neighbour's user id, and the neighbour that logs in
  under this id wraps what it receives. */
  ghost predicate Hops(net: Network, p: Place, q: Place) {
    && p.domain in net.domains && q.domain in net.graph.domains
    && var cfg := net.domains[p.domain];
       && Decide(cfg, p.message).Route?
       && var e := Addressed(cfg, Decide(cfg, p.message).envelope);
          && e.Some? && DomainUserId(q.domain) == e.value.to
          && exists id, now :: q.message == Wrapper(Inner(e.value), id, now)
  }

  ghost predicate CanHop(net: Network, p: Place) {
    exists q :: Hops(net, p, q)
  }

  ghost predicate IsJourney(net: Network, ps: seq<Place>) {
    |ps| >= 1 && forall i :: 0 <= i < |ps| - 1 ==> Hops(net, ps[i], ps[i + 1])
  }

  // ---- one hop

  lemma {:induction false} CoveredIsNotBlank(apps: Apps, user: string)
    requires HomeDomain(apps, user).Some?
    ensures !IsBlank(user)
  {
  }

  /** An envelope for a reachable domain `t` goes to the neighbour that comes next on the way. */
  lemma {:induction false} EnvelopeGoesNext(net: Network, d: string, e: Message, t: string)
    requires Good(net) && d in net.graph.domains && net.graph.Reachable(d, t) && t != d
    requires e.Type() == INTERNAL_MESSAGE && !IsBlank(e.to) && DomainOf(net.domains[d], e) == t
    ensures var next := net.domains[d].hops[t];
      && next in net.graph.domains && IsNextHop(net.graph, d, t, next)
      && Addressed(net.domains[d], e).Some?
      && Addressed(net.domains[d], e).value.to == DomainUserId(next)
      && Inner(Addressed(net.domains[d], e).value) == Inner(e)
  {
    hide IsNextHop, DomainUserId, HomeDomain;
    assert DomainOk(net, d);
    var next := net.domains[d].hops[t];
    NextHopIsDomain(net.graph, d, t, next);
    DomainUserIdIsNotBlank(next);
  }

  lemma {:induction false} NextHopIsDomain(g: Graph, a: string, b: string, next: string)
    requires IsNextHop(g, a, b, next)
    ensures next in g.domains
  {
  }

  /** Only that neighbour receives it, and it is one hop nearer. */
  lemma {:induction false} HopIsNearer(net: Network, p: Place, q: Place, e: Message, t: string)
    requires Good(net) && p.domain in net.graph.domains && net.graph.Reachable(p.domain, t) && t != p.domain
    requires Decide(net.domains[p.domain], p.message) == Route(e)
    requires e.Type() == INTERNAL_MESSAGE && !IsBlank(e.to) && DomainOf(net.domains[p.domain], e) == t
    requires Hops(net, p, q)
    ensures q.domain == net.domains[p.domain].hops[t]
    ensures exists id, now :: q.message == Wrapper(Inner(e), id, now)
    ensures net.graph.Reachable(q.domain, t) && Dist(net.graph, p.domain, t) == Dist(net.graph, q.domain, t) + 1
  {
    hide IsNextHop, Decide, DomainUserId, Addressed, DomainOf, Wrapper, Dist;
    EnvelopeGoesNext(net, p.domain, e, t);
    HopsGetNearer(net.graph, p.domain, t, q.domain);
  }

  lemma {:induction false} HopExists(net: Network, p: Place, e: Message, t: string)
    requires Good(net) && p.domain in net.graph.domains && net.graph.Reachable(p.domain, t) && t != p.domain
    requires Decide(net.domains[p.domain], p.message) == Route(e)
    requires e.Type() == INTERNAL_MESSAGE && !IsBlank(e.to) && DomainOf(net.domains[p.domain], e) == t
    ensures CanHop(net, p)
  {
    hide IsNextHop, Decide, DomainUserId, Addressed, DomainOf;
    EnvelopeGoesNext(net, p.domain, e, t);
    assert DomainOk(net, p.domain);
    var e1 := Addressed(net.domains[p.domain], e).value;
    assert Hops(net, p, Place(net.domains[p.domain].hops[t], Wrapper(Inner(e1), 0, 0)));
  }

  lemma {:induction false} OnlyRoutedHops(net: Network, p: Place)
    requires p.domain in net.domains && !Decide(net.domains[p.domain], p.message).Route?
    ensures !CanHop(net, p)
  {
  }

  /** Place by place, one hop nearer to the target. */
  ghost predicate Nearing(net: Network, ps: seq<Place>, target: string) {
    && (forall i :: 0 <= i < |ps| ==> net.graph.Reachable(ps[i].domain, target))
    && forall i :: 0 <= i < |ps| ==> Dist(net.graph, ps[i].domain, target) == Dist(net.graph, ps[0].domain, target) - i
  }

  /** Places at falling distances are different domains. */
  lemma {:induction false} NoDomainTwice(net: Network, ps: seq<Place>, target: string)
    requires Nearing(net, ps, target)
    ensures forall i, j :: 0 <= i < j < |ps| ==> ps[i].domain != ps[j].domain
  {
    hide Dist;
    forall i, j | 0 <= i < j < |ps| ensures ps[i].domain != ps[j].domain {
      assert Dist(net.graph, ps[i].domain, target) != Dist(net.graph, ps[j].domain, target);
    }
  }

  // ---- messages for a user

  /** A message for a user whose home the ranges fix, as a connector hands it to its processor. */
  predicate IsUserMessage(apps: Apps, m: Message, home: string) {
    && m.Type() != INTERNAL_MESSAGE && Supported(m.content.data) && m.meta.target.None?
    && HomeDomain(apps, Preprocessed(m).to) == Some(home)
  }

  /** What travels: the message after its first `process`. */
  function Traveller(m: Message): Message {
    Preprocessed(Touched(m))
  }

  /** At the start the message is handled, or sent off in an envelope for its home. */
  lemma {:induction false} UserMessageStarts(cfg: Config, m: Message, home: string)
    requires IsUserMessage(cfg.apps, m, home) && m.meta.ttl >= 2
    ensures cfg.domain == home ==> Decide(cfg, m) == Handle(Traveller(m))
    ensures cfg.domain != home ==> Decide(cfg, m) == Route(EnvelopeFor(cfg, Traveller(m)))
    ensures var e := EnvelopeFor(cfg, Traveller(m));
      e.Type() == INTERNAL_MESSAGE && !IsBlank(e.to) && DomainOf(cfg, e) == home && Inner(e) == Traveller(m)
  {
    hide HomeDomain;
    CoveredIsNotBlank(cfg.apps, Traveller(m).to);
  }

  /** On the way it is passed on just so; at home it is taken out and handled. */
  lemma {:induction false} UserMessageGoesOn(cfg: Config, m: Message, home: string, id: nat, now: int)
    requires IsUserMessage(cfg.apps, m, home) && m.meta.ttl >= 3
    ensures var w := Wrapper(Traveller(m), id, now);
      && (cfg.domain == home ==> Decide(cfg, w) == Handle(Touched(Traveller(m))))
      && (cfg.domain != home ==> Decide(cfg, w) == Route(Touched(w)))
      && Touched(w).Type() == INTERNAL_MESSAGE && !IsBlank(Touched(w).to)
      && DomainOf(cfg, Touched(w)) == home && Inner(Touched(w)) == Traveller(m)
  {
    hide HomeDomain;
    CoveredIsNotBlank(cfg.apps, Traveller(m).to);
  }

  /** Where a user message is after `i` hops: as it was sent, or wrapped around the traveller. */
  ghost predicate UserMessageAt(m: Message, p: Place, i: nat) {
    if i == 0 then p.message == m else exists id, now :: p.message == Wrapper(Traveller(m), id, now)
  }

  /** What happens to a user message at any place of its journey. */
  lemma {:induction false} UserMessageVerdict(net: Network, m: Message, home: string, p: Place,
                                              i: nat) returns (e: Message)
    requires Good(net) && p.domain in net.graph.domains
    requires IsUserMessage(net.apps, m, home) && m.meta.ttl >= 3 && UserMessageAt(m, p, i)
    ensures p.domain == home ==>
            Decide(net.domains[home], p.message) == Handle(if i == 0 then Traveller(m) else Touched(Traveller(m)))
    ensures p.domain != home ==> Decide(net.domains[p.domain], p.message) == Route(e)
    ensures e.Type() == INTERNAL_MESSAGE && !IsBlank(e.to) && Inner(e) == Traveller(m)
    ensures DomainOf(net.domains[p.domain], e) == home
  {
    hide Decide, HomeDomain, Traveller, EnvelopeFor, DomainOf;
    assert DomainOk(net, p.domain);
    var cfg := net.domains[p.domain];
    if i == 0 {
      UserMessageStarts(cfg, m, home);
      e := EnvelopeFor(cfg, Traveller(m));
    } else {
      var id, now :| p.message == Wrapper(Traveller(m), id, now);
      UserMessageGoesOn(cfg, m, home, id, now);
      e := Touched(p.message);
    }
  }

  /** After `i` hops a user message is `i` hops nearer to its home. */
  lemma {:induction false} UserMessageProgress(net: Network, m: Message, home: string, ps: seq<Place>, i: nat)
    requires Good(net) && IsJourney(net, ps) && i < |ps|
    requires IsUserMessage(net.apps, m, home) && m.meta.ttl >= 3
    requires ps[0].message == m && ps[0].domain in net.graph.domains && net.graph.Reachable(ps[0].domain, home)
    ensures ps[i].domain in net.graph.domains && UserMessageAt(m, ps[i], i)
    ensures net.graph.Reachable(ps[i].domain, home)
    ensures Dist(net.graph, ps[i].domain, home) == Dist(net.graph, ps[0].domain, home) - i
  {
    hide Good, IsUserMessage, Dist, Wrapper, Traveller, Inner, IsNextHop, DomainOf;
    if i > 0 {
      UserMessageProgress(net, m, home, ps, i - 1);
      var p := ps[i - 1];
      assert Hops(net, p, ps[i]);
      var e := UserMessageVerdict(net, m, home, p, i - 1);
      HopIsNearer(net, p, ps[i], e, home);
    }
  }

  lemma {:induction false} UserMessageNears(net: Network, m: Message, home: string, ps: seq<Place>)
    requires Good(net) && IsJourney(net, ps)
    requires IsUserMessage(net.apps, m, home) && m.meta.ttl >= 3
    requires ps[0].message == m && ps[0].domain in net.graph.domains && net.graph.Reachable(ps[0].domain, home)
    ensures Nearing(net, ps, home)
  {
    hide Good, IsUserMessage, Dist, IsJourney, UserMessageAt;
    forall i | 0 <= i < |ps|
      ensures net.graph.Reachable(ps[i].domain, home)
      ensures Dist(net.graph, ps[i].domain, home) == Dist(net.graph, ps[0].domain, home) - i
    {
      UserMessageProgress(net, m, home, ps, i);
    }
  }

  lemma {:induction false} TravellerKeeps(m: Message)
    ensures Traveller(m).content == m.content && Traveller(m).meta.ttl == m.meta.ttl - 1
  {
  }

  /** Every journey of a user message ends at its home after exactly as many hops as a shortest path
  has, visits no domain twice and cannot stop before; at home the inner message is handled, with a TTL
  that does not depend on how far it came. */
  lemma {:induction false} UserMessageReachesHome(net: Network, m: Message, home: string, ps: seq<Place>)
    requires Good(net) && IsJourney(net, ps)
    requires IsUserMessage(net.apps, m, home) && m.meta.ttl == INITIAL_TTL
    requires ps[0].message == m && ps[0].domain in net.graph.domains && net.graph.Reachable(ps[0].domain, home)
    ensures forall i, j :: 0 <= i < j < |ps| ==> ps[i].domain != ps[j].domain
    ensures |ps| - 1 <= Dist(net.graph, ps[0].domain, home)
    ensures ps[|ps| - 1].domain == home <==> |ps| - 1 == Dist(net.graph, ps[0].domain, home)
    ensures ps[|ps| - 1].domain == home <==> !CanHop(net, ps[|ps| - 1])
    ensures ps[|ps| - 1].domain == home ==>
      var v := Decide(net.domains[home], ps[|ps| - 1].message);
      v.Handle? && v.message.content == m.content && v.message.meta.ttl == if |ps| == 1 then
        INITIAL_TTL - 1 else INITIAL_TTL - 2
  {
    assert |ps| >= 1;
    hide Good, IsUserMessage, Dist, IsNextHop, DomainOf, Decide, IsJourney, CanHop, UserMessageAt, Nearing, Traveller;
    var last := ps[|ps| - 1];
    UserMessageNears(net, m, home, ps);
    NoDomainTwice(net, ps, home);
    TravellerKeeps(m);
    UserMessageProgress(net, m, home, ps, |ps| - 1);
    DistZero(net.graph, last.domain, home);
    var e := UserMessageVerdict(net, m, home, last, |ps| - 1);
    KnownDomain(net, last.domain);
    if last.domain != home {
      HopExists(net, last, e, home);
    } else {
      OnlyRoutedHops(net, last);
    }
  }

  /** What is handed to delivery at home is what the user asked for, wherever it came from: the text, in
  the sender's name, for the user named in the request, to be confirmed if and only if the request
  carries a reference and allows it. */
  lemma {:induction false} UserRequestArrivesIntact(net: Network, m: Message, home: string, ps: seq<Place>,
                                                   channels: Channels, picks: Picks) returns (sent: Message)
    requires Good(net) && IsJourney(net, ps)
    requires IsUserMessage(net.apps, m, home) && m.meta.ttl == INITIAL_TTL && m.content.data.MessageRequest?
    requires ps[0].message == m && ps[0].domain in net.graph.domains && net.graph.Reachable(ps[0].domain, home)
    requires ps[|ps| - 1].domain == home
    ensures home in net.domains
    ensures Effects(net.domains[home], channels, picks, ps[|ps| - 1].message) == multiset{Post(sent)}
    ensures sent.from == m.from && sent.to == m.content.data.to
    ensures sent.content.data == MessageForward(m.from, m.content.data.text)
    ensures sent.content.reference == m.content.reference && sent.content.feature == m.content.feature
    ensures sent.meta.original == m.meta.original
    ensures sent.meta.confirmEnabled <==> m.content.confirmationEnabled && !IsBlank(m.content.reference)
  {
    var last := ps[|ps| - 1];
    assert |ps| >= 1;
    UserMessageProgress(net, m, home, ps, |ps| - 1);
    KnownDomain(net, home);
    var e := UserMessageVerdict(net, m, home, last, |ps| - 1);
    SameVerdictSameEffects(net.domains[home], channels, picks, last.message);
    var handled := if |ps| == 1 then Traveller(m) else Touched(Traveller(m));
    RequestIsForwarded(net.domains[home], channels, picks, m, handled);
    sent := Forwarded(handled, m.content.data.text);
    hide Good, IsJourney, IsUserMessage, UserMessageAt, Decide, Effects, HandlerEffects, Dist, Traveller, Forwarded;
  }

  lemma {:induction false} RequestIsForwarded(cfg: Config, channels: Channels, picks: Picks, m: Message,
                                              handled: Message)
    requires m.content.data.MessageRequest? && (handled == Traveller(m) || handled == Touched(Traveller(m)))
    ensures HandlerEffects(cfg, channels, picks, handled) == multiset{Post(Forwarded(handled, m.content.data.text))}
    ensures var sent := Forwarded(handled, m.content.data.text);
      && sent.from == m.from && sent.to == m.content.data.to &&
         sent.content.data == MessageForward(m.from, m.content.data.text)
      && sent.content.reference == m.content.reference && sent.content.feature == m.content.feature
      && sent.meta.original == m.meta.original
      && (sent.meta.confirmEnabled <==> m.content.confirmationEnabled && !IsBlank(m.content.reference))
  {
    hide IsBlank;
  }

  lemma {:induction false} JourneyOn(net: Network, ps: seq<Place>, q: Place)
    requires IsJourney(net, ps) && Hops(net, ps[|ps| - 1], q)
    ensures IsJourney(net, ps + [q])
  {
    hide Hops;
  }

  lemma {:induction false} NextPlace(net: Network, m: Message, home: string, ps: seq<Place>) returns (q: Place)
    requires Good(net) && IsJourney(net, ps) && |ps| >= 1
    requires IsUserMessage(net.apps, m, home) && m.meta.ttl == INITIAL_TTL
    requires ps[0].message == m && ps[0].domain in net.graph.domains && net.graph.Reachable(ps[0].domain, home)
    requires ps[|ps| - 1].domain != home
    ensures IsJourney(net, ps + [q]) && |ps| <= Dist(net.graph, ps[0].domain, home)
  {
    UserMessageReachesHome(net, m, home, ps);
    hide Good, IsUserMessage, Dist, Hops, Decide, IsJourney, IsNextHop;
    assert CanHop(net, ps[|ps| - 1]);
    q :| Hops(net, ps[|ps| - 1], q);
    JourneyOn(net, ps, q);
  }

  /** And such a journey exists, from wherever the message starts. */
  lemma {:induction false} UserMessageCanReachHome(net: Network, m: Message, home: string,
                                                   ps: seq<Place>) returns (all: seq<Place>)
    requires Good(net) && IsJourney(net, ps) && |ps| >= 1
    requires IsUserMessage(net.apps, m, home) && m.meta.ttl == INITIAL_TTL
    requires ps[0].message == m && ps[0].domain in net.graph.domains && net.graph.Reachable(ps[0].domain, home)
    ensures |all| >= 1 && IsJourney(net, all) && all[0] == ps[0] && all[|all| - 1].domain == home
    decreases Dist(net.graph, ps[0].domain, home) + 1 - |ps|
  {
    hide *;
    all := ps;
    if ps[|ps| - 1].domain != home {
      var q := NextPlace(net, m, home, ps);
      all := UserMessageCanReachHome(net, m, home, ps + [q]);
    }
  }

  // ---- parts of a group message

  /** The part of a group message for domain `target`, with `i` TTL units used up. */
  function PartAfter(part: Message, i: int): Message {
    part.(meta := part.meta.(ttl := part.meta.ttl - i))
  }

  predicate IsGroupPart(part: Message, target: string) {
    part.content.data.GroupMessage? && part.to == PROCESSOR && part.meta.target == Some(DomainOnly(target))
  }

  lemma {:induction false} ProcessorIsNoName(apps: Apps)
    ensures !IsBlank(PROCESSOR) && HomeDomain(apps, PROCESSOR) == None
  {
    ProcessorHasNoHome(apps);
    assert PROCESSOR[0] == 'P';
  }

  /** The part itself: it loses one TTL unit, and is handled or sent off. */
  lemma {:induction false} PartStarts(cfg: Config, part: Message, target: string)
    requires IsGroupPart(part, target)
    ensures part.meta.ttl <= 1 ==> Decide(cfg, part) == Dropped
    ensures part.meta.ttl > 1 && cfg.domain == target ==> Decide(cfg, part) == Handle(PartAfter(part, 1))
    ensures part.meta.ttl > 1 && cfg.domain != target ==>
            Decide(cfg, part) == Route(EnvelopeFor(cfg, PartAfter(part, 1)))
    ensures var e := EnvelopeFor(cfg, PartAfter(part, 1));
      e.Type() == INTERNAL_MESSAGE && !IsBlank(e.to) && DomainOf(cfg, e) == target && Inner(e) == PartAfter(part, 1)
  {
    hide HomeDomain;
    ProcessorIsNoName(cfg.apps);
  }

  /** A wrapper around a part belongs to no user, so every domain opens it and processes the part. */
  lemma {:induction false} WrappedPartIsOpened(cfg: Config, part: Message, target: string, id: nat, now: int)
    requires IsGroupPart(part, target)
    ensures Decide(cfg, Wrapper(part, id, now)) == Decide(cfg, part)
  {
    hide HomeDomain;
    ProcessorIsNoName(cfg.apps);
  }

  ghost predicate PartAt(part: Message, p: Place, i: nat) {
    if i == 0 then p.message == part else exists id, now :: p.message == Wrapper(PartAfter(part, i), id, now)
  }

  lemma {:induction false} PartVerdict(net: Network, part: Message, target: string, p: Place,
                                       i: nat) returns (e: Message)
    requires Good(net) && p.domain in net.graph.domains && IsGroupPart(part, target) && PartAt(part, p, i)
    ensures part.meta.ttl - i <= 1 ==> Decide(net.domains[p.domain], p.message) == Dropped
    ensures part.meta.ttl - i > 1 && p.domain == target ==>
            Decide(net.domains[p.domain], p.message) == Handle(PartAfter(part, i + 1))
    ensures part.meta.ttl - i > 1 && p.domain != target ==> Decide(net.domains[p.domain], p.message) == Route(e)
    ensures e.Type() == INTERNAL_MESSAGE && !IsBlank(e.to) && Inner(e) == PartAfter(part, i + 1)
    ensures DomainOf(net.domains[p.domain], e) == target
  {
    hide Decide, HomeDomain, EnvelopeFor, DomainOf;
    assert DomainOk(net, p.domain);
    var cfg := net.domains[p.domain];
    PartStarts(cfg, PartAfter(part, i), target);
    e := EnvelopeFor(cfg, PartAfter(PartAfter(part, i), 1));
    if i > 0 {
      var id, now :| p.message == Wrapper(PartAfter(part, i), id, now);
      WrappedPartIsOpened(cfg, PartAfter(part, i), target, id, now);
    }
  }

  lemma {:induction false} PartProgress(net: Network, part: Message, target: string, ps: seq<Place>, i: nat)
    requires Good(net) && IsJourney(net, ps) && i < |ps| && IsGroupPart(part, target)
    requires ps[0].message == part && ps[0].domain in net.graph.domains && net.graph.Reachable(ps[0].domain, target)
    ensures ps[i].domain in net.graph.domains && PartAt(part, ps[i], i)
    ensures net.graph.Reachable(ps[i].domain, target)
    ensures Dist(net.graph, ps[i].domain, target) == Dist(net.graph, ps[0].domain, target) - i
    ensures i > 0 ==> part.meta.ttl > i
  {
    hide Good, IsGroupPart, Dist, Wrapper, Inner, IsNextHop, DomainOf;
    if i > 0 {
      PartProgress(net, part, target, ps, i - 1);
      var p := ps[i - 1];
      assert Hops(net, p, ps[i]);
      var e := PartVerdict(net, part, target, p, i - 1);
      HopIsNearer(net, p, ps[i], e, target);
    }
  }

  lemma {:induction false} PartNears(net: Network, part: Message, target: string, ps: seq<Place>)
    requires Good(net) && IsJourney(net, ps) && IsGroupPart(part, target)
    requires ps[0].message == part && ps[0].domain in net.graph.domains && net.graph.Reachable(ps[0].domain, target)
    ensures Nearing(net, ps, target)
  {
    hide Good, IsGroupPart, Dist, IsJourney, PartAt;
    forall i | 0 <= i < |ps|
      ensures net.graph.Reachable(ps[i].domain, target)
      ensures Dist(net.graph, ps[i].domain, target) == Dist(net.graph, ps[0].domain, target) - i
    {
      PartProgress(net, part, target, ps, i);
    }
  }

  /** After `k` hops the TTL of a part is `9 - k` when it is processed. A journey of a part can go on
  exactly while it has not arrived and no more than 8 hops are behind it; it ends with the part being
  handled at its target or, after 9 hops, dropped wherever it is. */
  lemma {:induction false} PartReach(net: Network, part: Message, target: string, ps: seq<Place>)
    requires Good(net) && IsJourney(net, ps) && IsGroupPart(part, target) && part.meta.ttl == INITIAL_TTL
    requires ps[0].message == part && ps[0].domain in net.graph.domains && net.graph.Reachable(ps[0].domain, target)
    ensures forall i, j :: 0 <= i < j < |ps| ==> ps[i].domain != ps[j].domain
    ensures var k, last := |ps| - 1, ps[|ps| - 1];
      && k <= 9 && k <= Dist(net.graph, ps[0].domain, target)
      && last.domain in net.domains
      && var v := Decide(net.domains[last.domain], last.message);
         && (v.Dropped? <==> k == 9)
         && (v.Handle? <==> k <= 8 && k == Dist(net.graph, ps[0].domain, target))
         && (v.Handle? ==> last.domain == target && v.message == PartAfter(part, k + 1) && v.message.meta.ttl == 9 - k)
         && (CanHop(net, last) <==> k <= 8 && k < Dist(net.graph, ps[0].domain, target))
  {
    assert |ps| >= 1;
    hide Good, IsGroupPart, Dist, IsNextHop, DomainOf, Decide, IsJourney, CanHop, PartAt, Nearing;
    var k, last := |ps| - 1, ps[|ps| - 1];
    PartNears(net, part, target, ps);
    NoDomainTwice(net, ps, target);
    PartProgress(net, part, target, ps, k);
    DistZero(net.graph, last.domain, target);
    var e := PartVerdict(net, part, target, last, k);
    KnownDomain(net, last.domain);
    if k <= 8 && last.domain != target {
      HopExists(net, last, e, target);
    } else {
      OnlyRoutedHops(net, last);
    }
  }

  lemma {:induction false} KnownDomain(net: Network, d: string)
    requires Good(net) && d in net.graph.domains
    ensures d in net.domains && net.domains[d].domain == d
  {
    assert DomainOk(net, d);
  }

  /** The part that a domain sends off for another domain is handled there exactly when that domain is
  at most 8 hops away, and then all of its recipients - those whose home it is - are handled there. */
  lemma {:induction false} GroupPartArrives(net: Network, group: Message, text: string, all: set<string>, id: nat,
                                            target: string, ps: seq<Place>)
    requires Good(net) && IsJourney(net, ps)
    requires ps[0].domain in net.graph.domains && net.graph.Reachable(ps[0].domain, target) && ps[0].domain != target
    requires ps[0].domain in net.domains &&
      ps[0].message == GroupPart(group, text, target, PartFor(net.domains[ps[0].domain], all, target), id)
    ensures var k, last := |ps| - 1, ps[|ps| - 1];
      var users := PartFor(net.domains[ps[0].domain], all, target);
      && last.domain in net.domains
      && var v := Decide(net.domains[last.domain], last.message);
         && (v.Handle? <==> k <= 8 && k == Dist(net.graph, ps[0].domain, target))
         && (v.Handle? ==> last.domain == target && v.message.content.data == GroupMessage(users, text) &&
                           Local(net.domains[target], users) == users)
         && (!v.Handle? && !CanHop(net, last) ==> k == 9 && Dist(net.graph, ps[0].domain, target) > 8)
  {
    PartReach(net, ps[0].message, target, ps);
    PartIsLocal(net, ps[0].domain, all, target);
    hide Good, IsJourney, Dist, Decide, CanHop, PartFor, Local, IsNextHop;
  }

  lemma {:induction false} PartIsLocal(net: Network, here: string, all: set<string>, target: string)
    requires Good(net) && here in net.graph.domains && net.graph.Reachable(here, target) && here != target
    ensures target in net.domains
    ensures Local(net.domains[target], PartFor(net.domains[here], all, target)) ==
            PartFor(net.domains[here], all, target)
  {
    assert DomainOk(net, here) && DomainOk(net, target);
    PartIsLocalAtItsTarget(net.domains[here], net.domains[target], all);
  }

  /** The copies that a neighbour's socket gets and the row that is kept for it carry one content. */
  predicate CarriesFor(m: Message, user: string, content: Content) {
    m.to == user && m.content == content
  }

  /** Store and forward: an envelope for a neighbour that is not connected is stored under the
  neighbour's own user id. When it fetches, after it has an address again and some copy can be sent, the
  same content goes to the same neighbour, and the row is gone. */
  lemma {:induction false} StoredThenForwarded(cfg: Config, n: Node, e: Message, pick: Address, channels: Channels,
                                               pick2: Address, fails: Fails)
    requires e.Type() == INTERNAL_MESSAGE && e.IsReliable() && Addressed(cfg, e).Some?
    requires !IsCurrentDomain(cfg, Populated(cfg, e))
    requires Candidates(cfg, n.channels, Addressed(cfg, e).value.to) == {}
    requires SentTo(cfg, channels, Addressed(cfg, e).value.(state := AddressNotFound), pick2, fails) != {}
    ensures var next := DomainUserId(cfg.hops[DomainOf(cfg, e)]);
      var stored := Deliver(cfg, n, e, pick);
      && stored.Some? && stored.value.net == n.net
      && e.id in Matching(stored.value.store, next)
      && var row := stored.value.store[e.id];
         && CarriesFor(row, next, e.content) && Addressed(cfg, row).Some? && Addressed(cfg, row).value.to == next
         && var sent := FetchRow(cfg, stored.value.(channels := channels), row, pick2, fails);
            && sent.ok && sent.node.store == stored.value.store - {e.id}
            && n.net < sent.node.net
            && forall c :: c in sent.node.net - n.net ==> CarriesFor(c, next, e.content)
  {
    var e1 := Addressed(cfg, e).value;
    AddressedIsStable(cfg, e, AddressNotFound);
    var row := e1.(state := AddressNotFound);
    var n1 := n.(store := n.store[e.id := row]);
    assert Deliver(cfg, n, e, pick) == Some(n1);
    CopiesCarry(cfg, row, SentTo(cfg, channels, row, pick2, fails));
  }

  lemma {:induction false} CopiesCarry(cfg: Config, m: Message, targets: set<Address>)
    requires targets != {}
    ensures multiset(Copies(m, targets)) != multiset{}
    ensures forall c :: c in multiset(Copies(m, targets)) ==> CarriesFor(c, m.to, m.content)
  {
    var a :| a in targets;
    assert m.WithTarget(a) in Copies(m, targets);
    assert m.WithTarget(a) in multiset(Copies(m, targets));
  }

  /** What the neighbour makes of any copy it fetched is a next place of the same journey: nothing is
  lost of the way by having waited. */
  lemma {:induction false} ForwardedGoesOn(net: Network, p: Place, e: Message, t: string, copy: Message, id: nat,
                                           now: int)
    requires Good(net) && p.domain in net.graph.domains && net.graph.Reachable(p.domain, t) && t != p.domain
    requires Decide(net.domains[p.domain], p.message) == Route(e)
    requires e.Type() == INTERNAL_MESSAGE && !IsBlank(e.to) && DomainOf(net.domains[p.domain], e) == t
    requires CarriesFor(copy, DomainUserId(net.domains[p.domain].hops[t]), e.content)
    ensures Hops(net, p, Place(net.domains[p.domain].hops[t], Wrapper(Inner(copy), id, now)))
  {
    hide IsNextHop, Decide, DomainUserId, Addressed, DomainOf, Wrapper;
    EnvelopeGoesNext(net, p.domain, e, t);
    assert DomainOk(net, p.domain);
    assert Inner(copy) == Inner(e);
  }

  // ---- the smallest network

  function PairGraph(a: string, b: string): Graph {
    Graph({a, b}, {(a, b)})
  }

  /** Two linked domains. */
  function Pair(apps: Apps, a: string, b: string): Network {
    Network(PairGraph(a, b), apps,
            map[a := Config(a, "", apps, map[a := a, b := b]), b := Config(b, "", apps, map[a := a, b := b])])
  }

  lemma {:induction false} PairHops(a: string, b: string, x: string)
    requires a != b && (x == a || x == b)
    ensures HopsOk(PairGraph(a, b), x, map[a := a, b := b])
  {
    var g, y := PairGraph(a, b), if x == a then b else a;
    assert g.Joins([x], x, x) && g.Joins([x, y], x, y);
    assert g.IsShortest([x, y], x, y);
    forall t | g.Reachable(x, t) ensures t == a || t == b {
      var p :| g.Joins(p, x, t);
      assert p[|p| - 1] in g.domains;
    }
  }

  /** Two linked domains with different user ids satisfy everything journeys assume. */
  lemma {:induction false} PairIsGood(apps: Apps, a: string, b: string)
    requires a != b && !IsBlank(a) && !IsBlank(b) && DomainUserId(a) != DomainUserId(b)
    ensures Good(Pair(apps, a, b)) && Pair(apps, a, b).graph.Reachable(a, b)
  {
    hide DomainUserId, IsBlank, HopsOk;
    PairHops(a, b, a);
    PairHops(a, b, b);
    var g := PairGraph(a, b);
    assert g.Joins([a, b], a, b);
  }
}
