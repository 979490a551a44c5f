/** The steps of the delivery protocol, told by what happens to the messages under way, the rows and the
reports; and that they are what the methods of the processor and of the connectors do. */
module Steps {
  import opened Types
  import opened ClientApps
  import opened Messages
  import opened PostOffices
  import opened Delivery
  import Dispatch
  import Handlers
  import Networks

  /** The row that a reliable message leaves, field by field. */
  function RowIn(m: Message, state: MessageState): Message {
    Message(m.id, m.content, m.from, m.to, m.meta, m.createdAt, state)
  }

  function SavedIn(store: map<nat, Message>, m: Message, state: MessageState): map<nat, Message> {
    if m.content.feature == Reliable then store[m.id := RowIn(m, state)] else store
  }

  /** The message stays here, and the address is one of its user's. */
  predicate IsAimedAt(cfg: Config, channels: Channels, m: Message, pick: Address) {
    && m.meta.target.Some? && m.meta.target.value.domain == cfg.domain
    && !IsConnectorUser(m.to) && m.to in channels && pick in channels[m.to]
  }

  /** A copy can move whenever it is under way, and sessions come and go as they like. */
  lemma {:induction false} WhenCopiesMove(cfg: Config, w: World, copy: Message, success: bool, s: Session)
    ensures Enabled(cfg, w, SendFail(copy)) && Enabled(cfg, w, Fault(copy)) <==> copy in w.node.net
    ensures Enabled(cfg, w, Receive(copy, success)) || Enabled(cfg, w, Control(copy)) <==> copy in w.node.net
    ensures Enabled(cfg, w, Connect(s)) <==> s !in w.born && s.address.socketId >= 0 && s.address.domain == cfg.domain
    ensures Enabled(cfg, w, Disconnect(s)) <==> s in w.live
    ensures Enabled(cfg, w, Announce(s)) <==> s in w.born
    ensures Enabled(cfg, w, Withdraw(s)) <==> s in w.born && s !in w.live
  {
    hide CanDeliver, CanSettle, Plausible;
  }

  /** A new message can always be handed over, and a waiting row fetched; only the choice of an address is bound. */
  lemma {:induction false} WhenMessagesMove(cfg: Config, w: World, m: Message, pick: Address, failed: set<Address>)
    ensures Enabled(cfg, w, Accept(m, pick)) <==>
            m.id !in w.accepted && CanDeliver(cfg, w.node.channels, m, pick)
    ensures Enabled(cfg, w, FetchOne(m, pick, failed)) <==>
            && m.id in w.node.store && w.node.store[m.id] == m && CanDeliver(cfg, w.node.channels, m, pick)
            && (m.state == AddressNotFound || m.state == NetworkError)
    ensures IsAimedAt(cfg, w.node.channels, m, pick) ==> CanDeliver(cfg, w.node.channels, m, pick)
  {
    hide ResolveDomain, IsMasterUser;
  }

  /** Handing a message to delivery is delivering it; what delivery refuses is saved as PROCESSOR_ERROR. */
  lemma {:induction false} AcceptDelivers(cfg: Config, w: World, m: Message, pick: Address)
    ensures var w1 := After(cfg, w, Accept(m, pick));
      var sent := Deliver(cfg, w.node, m, pick);
      && w1.node == (if sent.Some? then sent.value else w.node.(store := SavedIn(w.node.store, m, ProcessorError)))
      && w1.(node := w.node, accepted := w.accepted) == w
      && w1.accepted.Keys == w.accepted.Keys + {m.id}
  {
    if Addressed(cfg, m).Some? {
      AddressedIsStable(cfg, m, AddressNotFound);
    }
    hide Addressed, SendToConnector, Canon;
  }

  /** A local user without address gets the text of a group message in a message of its own. */
  lemma {:induction false} GroupMissDelivers(cfg: Config, w: World, group: Message, text: string, user: string, id: nat,
                                             now: int, users: set<string>, pick: Address)
    requires group.content.data == GroupMessage(users, text)
    ensures var m := Message(id, Content(MessageForward(group.from, text), group.content.reference,
                                         group.content.feature, false),
                             group.from, user, Meta(group.meta.original, None, 9, false, All), now, Created);
      After(cfg, w, AcceptGroupMiss(group, user, id, now, pick)) ==
      After(cfg, w, Accept(m, pick)).(fromGroup := w.fromGroup + {id})
  {
    hide Handed;
  }

  /** A connector turns a group into a copy for one of its sockets. */
  lemma {:induction false} SpawnAddsChild(cfg: Config, w: World, group: Message, users: set<ConnectorUserId>,
                                          text: string,
                                          connector: string, cu: ConnectorUserId, id: nat, now: int)
    requires group.content.data == GroupConnectorMessage(users, MessageForward(group.from, text))
    ensures var child := Message(id, Content(MessageForward(group.from, text), group.content.reference,
                                             group.content.feature, true),
                                 group.from, cu.userId,
                                 Meta(group.meta.original, Some(Address(cfg.domain, Some(connector), cu.socketId)), 10,
                                      false, All), now, Created);
      var w1 := After(cfg, w, Spawn(group, connector, cu, id, now));
      && w1.node == w.node.(net := w.node.net + multiset{child})
      && w1.(node := w.node, accepted := w.accepted, fromGroup := w.fromGroup) == w
      && w1.fromGroup == w.fromGroup + {id}
  {
  }

  /** A copy whose sending fails is not under way any more and is saved as NETWORK_ERROR. */
  lemma {:induction false} SendFailSaves(cfg: Config, w: World, copy: Message)
    ensures After(cfg, w, SendFail(copy)) ==
            w.(node := Node(w.node.channels, SavedIn(w.node.store, copy, NetworkError), w.node.net - multiset{copy}))
  {
  }

  /** A copy that a connector cannot process is reported as CONNECTOR_ERROR, if it is reliable. */
  lemma {:induction false} FaultReports(cfg: Config, w: World, copy: Message)
    ensures After(cfg, w, Fault(copy)) ==
            w.(node := Node(w.node.channels, w.node.store, w.node.net - multiset{copy}),
               reports := w.reports + if copy.content.feature == Reliable then
                 multiset{Report(copy, ConnectorError)} else multiset{})
  {
    assert w.reports + multiset{} == w.reports;
  }

  /** The three types that connectors handle themselves are neither written nor reported. */
  lemma {:induction false} ControlTakes(cfg: Config, w: World, copy: Message)
    ensures Enabled(cfg, w, Control(copy)) <==>
            copy in w.node.net && (copy.content.data.AuthClientReply? || copy.content.data.GroupConnectorMessage? ||
                                   copy.content.data.CloseConnection?)
    ensures After(cfg, w, Control(copy)) ==
            w.(node := Node(w.node.channels, w.node.store, w.node.net - multiset{copy}))
  {
  }

  /** Any other report than not-found saves its message in the reported state, except for a success. */
  lemma {:induction false} SettleSaves(cfg: Config, w: World, r: Report, pick: Address, ids: FreshIds)
    requires r.state != AddressNotFound && !(r.state == Processed && Handlers.WantsConfirmation(cfg, r.msg))
    ensures After(cfg, w, Settle(r, pick, ids)) ==
            w.(reports := w.reports - multiset{r},
               node := w.node.(store := if r.state == Processed then w.node.store else
                 SavedIn(w.node.store, r.msg, r.state)))
  {
    Handlers.DueIsWanted(cfg, r.msg, r.state);
    hide ConfirmationDue, Handlers.WantsConfirmation;
  }

  /** A success that is to be confirmed hands the confirmation to delivery. */
  lemma {:induction false} SettleConfirms(cfg: Config, w: World, r: Report, pick: Address, ids: FreshIds)
    requires r.state == Processed && Handlers.WantsConfirmation(cfg, r.msg)
    ensures var confirmed := multiset{Write(r.msg.id, r.msg.meta.target.value)};
      var c := ConfirmationHanded(cfg, r.msg, ids.id, ids.envelopeId, ids.now);
      After(cfg, w, Settle(r, pick, ids)) ==
      After(cfg, w.(reports := w.reports - multiset{r}, confirmations := w.confirmations + confirmed), Accept(c, pick))
  {
    Handlers.DueIsWanted(cfg, r.msg, r.state);
    hide ConfirmationDue, Handed, ConfirmationHanded;
  }

  /** What a connector and the channels know of a session. */
  lemma {:induction false} SessionsComeAndGo(cfg: Config, w: World, s: Session)
    ensures After(cfg, w, Connect(s)) == w.(live := w.live + {s}, born := w.born + {s})
    ensures After(cfg, w, Disconnect(s)) == w.(live := w.live - {s})
    ensures ChannelOf(After(cfg, w, Announce(s)).node.channels, s.user) ==
            ChannelOf(w.node.channels, s.user) + {s.address}
    ensures ChannelOf(After(cfg, w, Withdraw(s)).node.channels, s.user) ==
            ChannelOf(w.node.channels, s.user) - {s.address}
  {
  }

  /** Across domains: what a domain hands over is what its `process` posts, up to the id of a new envelope. */
  lemma {:induction false} HandedOverIsPosted(cfg: Config, channels: Channels, picks: Dispatch.Picks, m: Message)
    requires Networks.HandedOver(cfg, m).Some?
    ensures Dispatch.Effects(cfg, channels, picks, m) == multiset{Dispatch.Post(Networks.HandedOver(cfg, m).value)}
  {
    Dispatch.SameVerdictSameEffects(cfg, channels, picks, m);
    hide Dispatch.Decide, Dispatch.Effects, Forwarded;
  }

  /** And nothing is handed over of a request or confirmation only when processing posts nothing. */
  lemma {:induction false} NothingHandedOver(cfg: Config, channels: Channels, picks: Dispatch.Picks, m: Message)
    requires m.content.data.MessageRequest? || m.content.data.MessageConfirmation?
    requires Networks.HandedOver(cfg, m).None?
    ensures Dispatch.Effects(cfg, channels, picks, m) == multiset{}
  {
    Dispatch.SameVerdictSameEffects(cfg, channels, picks, m);
    if Dispatch.Decide(cfg, m).Handle? {
      Dispatch.HandledIsCore(cfg, m);
    }
  }
}
