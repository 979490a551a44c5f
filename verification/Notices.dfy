/** What processing a notice or a report does to the user channels. */
module Notices {
  import opened Types
  import opened ClientApps
  import opened Messages
  import opened PostOffices
  import opened Dispatch
  import Delivery
  import Handlers
  import Sessions
  import ChannelIndex

  /** What an effect does to the stored channels. */
  function OnChannels(channels: Channels, e: Effect): Channels {
    match e
    case AddToChannel(user, Some(a)) => AddAddress(channels, user, a)
    case RemoveFromChannel(user, Some(a)) => RemoveAddress(channels, user, a)
    case _ => channels
  }

  function AllOnChannels(channels: Channels, es: seq<Effect>): Channels {
    if es == [] then channels else OnChannels(AllOnChannels(channels, es[..|es| - 1]), es[|es| - 1])
  }

  /** In whatever order the effects happen, they turn the channels into `after`. */
  ghost predicate Leaves(channels: Channels, es: multiset<Effect>, after: Channels) {
    forall order :: multiset(order) == es ==> AllOnChannels(channels, order) == after
  }

  /** `e` is among the effects, and no other touches the channels. */
  ghost predicate OnlyChange(es: multiset<Effect>, e: Effect) {
    e in es && forall x :: x in es && (x.AddToChannel? || x.RemoveFromChannel?) ==> x == e
  }

  lemma {:induction false} ChangeTwice(channels: Channels, e: Effect)
    ensures OnChannels(OnChannels(channels, e), e) == OnChannels(channels, e)
  {
    if e.AddToChannel? && e.address.Some? {
      var added := ChannelOf(channels, e.user) + {e.address.value};
      assert added + {e.address.value} == added;
    }
    if e.RemoveFromChannel? && e.address.Some? && e.user in channels {
      var less := channels[e.user] - {e.address.value};
      assert less - {e.address.value} == less;
    }
  }

  lemma {:induction false} ChangesAdd(channels: Channels, order: seq<Effect>, e: Effect)
    requires forall x :: x in order && (x.AddToChannel? || x.RemoveFromChannel?) ==> x == e
    ensures AllOnChannels(channels, order) == if e in order then OnChannels(channels, e) else channels
    decreases |order|
  {
    if order != [] {
      var k := |order| - 1;
      assert order == order[..k] + [order[k]];
      ChangesAdd(channels, order[..k], e);
      ChangeTwice(channels, e);
    }
  }

  lemma {:induction false} OnlyChangeLeaves(channels: Channels, es: multiset<Effect>, e: Effect)
    requires OnlyChange(es, e)
    ensures Leaves(channels, es, OnChannels(channels, e))
  {
    forall order | multiset(order) == es ensures AllOnChannels(channels, order) == OnChannels(channels, e) {
      assert forall x :: x in order <==> x in multiset(order);
      ChangesAdd(channels, order, e);
    }
  }

  /** What a notice passed on to a master user can do is make the same change once more. */
  lemma {:induction false} NoticeMakesOneChange(cfg: Config, channels: Channels, picks: Picks, m: Message, user: string,
                                                change: Effect)
    requires m.content.data == UserConnected(user) || m.content.data == UserDisconnected(user)
    requires change == if m.content.data.UserConnected? then AddToChannel(user, m.meta.original)
                       else RemoveFromChannel(user, m.meta.original)
    ensures forall x :: x in HandlerEffects(cfg, channels, picks, m) && (x.AddToChannel? || x.RemoveFromChannel?) ==>
      x == change
    ensures IsProcessorUser(m.to) && m.state == Created ==> change in HandlerEffects(cfg, channels, picks, m)
    decreases Ttl(m)
  {
    hide IsCurrentDomain, IsProcessorUser, Preprocessed;
    var master := MasterOf(cfg, user);
    if IsProcessorUser(m.to) && master.Some? {
      var notice := m.(to := master.value);
      SameVerdictSameEffects(cfg, channels, picks, notice);
      if Decide(cfg, notice).Handle? {
        NoticeIsHandled(cfg, notice);
        NoticeMakesOneChange(cfg, channels, picks, Decide(cfg, notice).message, user, change);
      }
    }
  }

  lemma {:induction false} NoticeIsHandled(cfg: Config, m: Message)
    requires m.content.data.UserConnected? || m.content.data.UserDisconnected?
    requires Decide(cfg, m).Handle?
    ensures Decide(cfg, m).message == Touched(m) && m.meta.ttl > 1
  {
    hide IsCurrentDomain;
  }

  /** What is addressed to "Processor" is handled wherever it is. */
  lemma {:induction false} ProcessorIsHere(cfg: Config, m: Message)
    requires m.to == PROCESSOR && m.meta.target.None?
    ensures Handlers.HandledBy(cfg, m.meta, m.to) == cfg.domain && IsProcessorUser(m.to)
  {
    ProcessorHasNoHome(cfg.apps);
    hide HomeDomain;
    assert PROCESSOR[0] == 'P' && !IsBlank(PROCESSOR);
  }

  /** A notice from a connector, as it reaches the processor. */
  predicate IsNotice(m: Message, data: Payload, domain: string, name: string, s: int) {
    && m.content.data == data && m.to == PROCESSOR && m.state == Created && m.meta.ttl == INITIAL_TTL
    && m.meta.target.None? && m.meta.original == Some(Address(domain, Some(name), s))
  }

  lemma {:induction false} NoticeHasItsChange(cfg: Config, channels: Channels, picks: Picks, m: Message, data: Payload,
                                              domain: string, name: string, s: int, change: Effect)
    requires IsNotice(m, data, domain, name, s)
    requires || (data.UserConnected? && change == AddToChannel(data.userId, m.meta.original))
             || (data.UserDisconnected? && change == RemoveFromChannel(data.userId, m.meta.original))
    ensures OnlyChange(Effects(cfg, channels, picks, m), change)
  {
    ProcessorIsHere(cfg, m);
    assert Handlers.Older(m, m.to).meta.original == m.meta.original && Handlers.UserOf(m) == m.to;
    hide Handlers.HandledBy, HandlerEffects, IsProcessorUser, Effects;
    Handlers.HereIsHandled(cfg, channels, picks, m);
    NoticeMakesOneChange(cfg, channels, picks, Handlers.Older(m, m.to), data.userId, change);
  }

  /** A user that connects is found at the socket's address from then on, just as the index has it. */
  lemma {:induction false} ConnectedIsAdded(cfg: Config, channels: Channels, picks: Picks, m: Message, user: string,
                                            domain: string, name: string, s: int)
    requires IsNotice(m, UserConnected(user), domain, name, s)
    ensures Leaves(channels, Effects(cfg, channels, picks, m),
                   ChannelIndex.Applied(channels, domain, name, Sessions.Connected(user, s)))
    ensures var a := Address(domain, Some(name), s);
      ChannelOf(ChannelIndex.Applied(channels, domain, name, Sessions.Connected(user, s)), user) ==
      ChannelOf(channels, user) + {a}
  {
    NoticeHasItsChange(cfg, channels, picks, m, UserConnected(user), domain, name, s,
                       AddToChannel(user, m.meta.original));
    hide Effects;
    OnlyChangeLeaves(channels, Effects(cfg, channels, picks, m), AddToChannel(user, m.meta.original));
  }

  /** A user that disconnects is not found there any more. */
  lemma {:induction false} DisconnectedIsRemoved(cfg: Config, channels: Channels, picks: Picks, m: Message,
                                                 user: string,
                                                 domain: string, name: string, s: int)
    requires IsNotice(m, UserDisconnected(user), domain, name, s)
    ensures Leaves(channels, Effects(cfg, channels, picks, m),
                   ChannelIndex.Applied(channels, domain, name, Sessions.Disconnected(user, s)))
    ensures var a := Address(domain, Some(name), s);
      ChannelOf(ChannelIndex.Applied(channels, domain, name, Sessions.Disconnected(user, s)), user) ==
      ChannelOf(channels, user) - {a}
  {
    NoticeHasItsChange(cfg, channels, picks, m, UserDisconnected(user), domain, name, s,
                       RemoveFromChannel(user, m.meta.original));
    hide Effects;
    OnlyChangeLeaves(channels, Effects(cfg, channels, picks, m), RemoveFromChannel(user, m.meta.original));
  }

  /** The delivery protocol takes the same steps. */
  lemma {:induction false} NoticesAreProtocolSteps(cfg: Config, w: Delivery.World, picks: Picks, m: Message,
                                                   user: string,
                                                   name: string, s: int)
    ensures var session := Delivery.Session(user, Address(cfg.domain, Some(name), s));
      && (IsNotice(m, UserConnected(user), cfg.domain, name, s) ==>
            Leaves(w.node.channels, Effects(cfg, w.node.channels, picks, m),
                   Delivery.After(cfg, w, Delivery.Announce(session)).node.channels))
      && (IsNotice(m, UserDisconnected(user), cfg.domain, name, s) ==>
            Leaves(w.node.channels, Effects(cfg, w.node.channels, picks, m),
                   Delivery.After(cfg, w, Delivery.Withdraw(session)).node.channels))
  {
    hide Effects, Leaves;
    if IsNotice(m, UserConnected(user), cfg.domain, name, s) {
      ConnectedIsAdded(cfg, w.node.channels, picks, m, user, cfg.domain, name, s);
    }
    if IsNotice(m, UserDisconnected(user), cfg.domain, name, s) {
      DisconnectedIsRemoved(cfg, w.node.channels, picks, m, user, cfg.domain, name, s);
    }
  }

  /** A report that a copy did not find its socket leaves the channels from which it is redelivered, without
  that address, and hands precisely this copy to the post office again. */
  lemma {:induction false} NotFoundIsRemoved(cfg: Config, n: Node, picks: Picks, m: Message, copy: Message,
                                             pick: Address)
    requires m.content.data == MessageStateChanged(copy, AddressNotFound) && m.to == PROCESSOR
    requires m.meta.ttl == INITIAL_TTL && m.meta.target.None? && copy.meta.target.Some?
    ensures var es := Effects(cfg, n.channels, picks, m);
      && Leaves(n.channels, es, RemoveAddress(n.channels, copy.to, copy.meta.target.value))
      && (forall x :: x in es && x.Post? ==> x.message == copy) && Post(copy) in es
    ensures Redeliver(cfg, n, copy, pick).Some? ==>
      Redeliver(cfg, n, copy, pick).value.channels == RemoveAddress(n.channels, copy.to, copy.meta.target.value)
    ensures ChannelOf(RemoveAddress(n.channels, copy.to, copy.meta.target.value), copy.to) ==
            ChannelOf(n.channels, copy.to) - {copy.meta.target.value}
  {
    var remove := RemoveFromChannel(copy.to, copy.meta.target);
    ProcessorIsHere(cfg, m);
    assert Handlers.UserOf(m) == m.to;
    hide Handlers.HandledBy, Effects, Redeliver;
    Handlers.HereIsHandled(cfg, n.channels, picks, m);
    assert HandlerEffects(cfg, n.channels, picks, Handlers.Older(m, m.to)) == multiset{remove, Post(copy)};
    hide HandlerEffects, Handlers.Older;
    OnlyChangeLeaves(n.channels, multiset{remove, Post(copy)}, remove);
    RedeliverKeepsRest(cfg, n, copy, pick);
    RemovedIsGone(n.channels, copy.to, copy.meta.target.value);
    hide RemoveAddress, ChannelOf, Leaves;
  }

  lemma {:induction false} RemovedIsGone(channels: Channels, user: string, a: Address)
    ensures ChannelOf(RemoveAddress(channels, user, a), user) == ChannelOf(channels, user) - {a}
  {
  }

  lemma {:induction false} RedeliverKeepsRest(cfg: Config, n: Node, copy: Message, pick: Address)
    requires copy.meta.target.Some?
    ensures Redeliver(cfg, n, copy, pick).Some? ==>
      Redeliver(cfg, n, copy, pick).value.channels == RemoveAddress(n.channels, copy.to, copy.meta.target.value)
  {
    hide Addressed, RouteTargets, RemoveAddress;
  }
}
