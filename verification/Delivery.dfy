/** The delivery protocol between the processor and the connectors of one domain, as a step system.

Every handler is one atomic step. Copies and reports travel in unordered bags, so any interleaving
of deliveries, reports, failures, connects and disconnects is a run. */
module Delivery {
  import opened Types
  import opened Messages
  import opened PostOffices

  /** What a connector tells the processor about one copy. */
  datatype Report = Report(msg: Message, state: MessageState)

  /** An authenticated socket: the user and the address of the socket. */
  datatype Session = Session(user: string, address: Address)

  /** A successful write of message `id` to the socket at `address`. */
  datatype Write = Write(id: nat, address: Address)

  /** `born` are all sessions that ever existed. `accepted`, `fromGroup`, `writes` and
  `confirmations` record the past: the messages handed to delivery (in canonical form), which of them
  came out of a group message, the socket writes, and the confirmations by the write they stand for. */
  datatype World = World(
    node: Node,
    reports: multiset<Report>,
    live: set<Session>,
    born: set<Session>,
    accepted: map<nat, Message>,
    fromGroup: set<nat>,
    writes: multiset<Write>,
    confirmations: multiset<Write>)

  datatype FreshIds = FreshIds(id: nat, envelopeId: nat, now: int)

  datatype Step =
    | Accept(m: Message, pick: Address)
    | AcceptGroupMiss(group: Message, user: string, id: nat, now: int, pick: Address)
    | Spawn(group: Message, connector: string, cu: ConnectorUserId, id: nat, now: int)
    | Receive(copy: Message, success: bool)
    | Control(copy: Message)
    | Fault(copy: Message)
    | SendFail(copy: Message)
    | Settle(report: Report, pick: Address, ids: FreshIds)
    | FetchOne(row: Message, pick: Address, failed: set<Address>)
    | Connect(session: Session)
    | Announce(session: Session)
    | Disconnect(session: Session)
    | Withdraw(session: Session)

  /** The types `DefaultOutgoingMessageProcessor` handles; the connector has a processor of its own
  for the three others. */
  predicate DefaultOutgoing(m: Message) {
    m.Type() != AUTH_CLIENT_REPLY && m.Type() != GROUP_CONNECTOR_MESSAGE && m.Type() != CLOSE_CONNECTION
  }

  function AddressOf(m: Message): Address {
    if m.meta.target.Some? then m.meta.target.value else DomainOnly("")
  }

  function SessionOf(m: Message): Session {
    Session(m.to, AddressOf(m))
  }

  function WriteOf(m: Message): Write {
    Write(m.id, AddressOf(m))
  }

  /** The text a group message asks to deliver. */
  function GroupText(group: Message): string {
    if group.content.data.GroupMessage? then group.content.data.text else ""
  }

  function GroupForward(group: Message): Payload {
    if group.content.data.GroupConnectorMessage? then group.content.data.forward else OtherPayload
  }

  /** The MESSAGE a group message turns into for a user without any address. */
  function GroupMissHanded(group: Message, user: string, id: nat, now: int): Message {
    Forwarded(Touched(GroupMiss(group, GroupText(group), user, id, now)), GroupText(group))
  }

  function SpawnedCopy(cfg: Config, step: Step): Message
    requires step.Spawn?
  {
    GroupChild(step.group, GroupForward(step.group), cfg.domain, step.connector, step.cu, step.id, step.now)
  }

  /** A copy can only be aimed at a session that existed, or at a connector by name. */
  predicate Plausible(cfg: Config, born: set<Session>, m: Message) {
    && m.meta.target.Some? && AddressOf(m).domain == cfg.domain
    && if IsConnectorUser(m.to) then AddressOf(m) == ConnectorAddress(cfg, m.to) else SessionOf(m) in born
  }

  predicate Fetchable(m: Message) {
    m.state == AddressNotFound || m.state == NetworkError
  }

  // ---- the effect of a step

  /** A handler hands `m` to the post office. When that throws, the post office stores the message. */
  function Handed(cfg: Config, w: World, m: Message, pick: Address): World {
    match Addressed(cfg, m)
    case None => w.(node := Persist(w.node, m, ProcessorError), accepted := w.accepted[m.id := Canon(cfg, m)])
    case Some(m1) => w.(node := SendToConnector(cfg, w.node, m1, pick), accepted := w.accepted[m.id := Canon(cfg, m1)])
  }

  function TakeCopy(w: World, copy: Message): World {
    w.(node := w.node.(net := w.node.net - multiset{copy}))
  }

  /** `DefaultOutgoingMessageProcessor.doProcess`, with `success` the outcome of the socket write. */
  function Received(w: World, copy: Message, success: bool): World {
    var w1 := TakeCopy(w, copy);
    if SessionOf(copy) in w.live then
      var w2 := if success then w1.(writes := w1.writes + multiset{WriteOf(copy)}) else w1;
      if copy.meta.confirmEnabled || (!success && copy.IsReliable()) then
        w2.(reports := w2.reports + multiset{Report(copy, if success then Processed else NetworkError)})
      else w2
    else if copy.IsReliable() then w1.(reports := w1.reports + multiset{Report(copy, AddressNotFound)})
    else w1
  }

  /** `MessageStateChangedMessageProcessor.doProcess`. In the worlds a run can reach, a redelivery never
  throws: `RedeliverKeepsInv`. */
  function Settled(cfg: Config, w: World, r: Report, pick: Address, ids: FreshIds): World {
    var w1 := w.(reports := w.reports - multiset{r});
    if r.state == AddressNotFound then
      if r.msg.meta.target.None? then w1
      else
        match Redeliver(cfg, w1.node, r.msg, pick)
        case None => w1
        case Some(n) => w1.(node := n)
    else
      var w2 := w1.(node := Persist(w1.node, r.msg, r.state));
      if ConfirmationDue(cfg, r.msg, r.state) then
        Handed(cfg, w2.(confirmations := w2.confirmations + multiset{WriteOf(r.msg)}),
               ConfirmationHanded(cfg, r.msg, ids.id, ids.envelopeId, ids.now), pick)
      else w2
  }

  /** One round of the fetch loop; the sends to `failed` fail before the row is removed. */
  function Fetched(cfg: Config, w: World, row: Message, pick: Address, failed: set<Address>): World {
    match FetchedNode(cfg, w.node, row, pick, failed)
    case None => w
    case Some(n) => w.(node := n)
  }

  function After(cfg: Config, w: World, step: Step): World {
    match step
    case Accept(m, pick) => Handed(cfg, w, m, pick)
    case AcceptGroupMiss(group, user, id, now, pick) =>
      Handed(cfg, w, GroupMissHanded(group, user, id, now), pick).(fromGroup := w.fromGroup + {id})
    case Spawn(_, _, _, id, _) =>
      var child := SpawnedCopy(cfg, step);
      w.(node := w.node.(net := w.node.net + multiset{child}),
         accepted := w.accepted[id := Canon(cfg, child)],
         fromGroup := w.fromGroup + {id})
    case Receive(copy, success) => Received(w, copy, success)
    case Control(copy) => TakeCopy(w, copy)
    case Fault(copy) =>
      var w1 := TakeCopy(w, copy);
      if copy.IsReliable() then w1.(reports := w1.reports + multiset{Report(copy, ConnectorError)}) else w1
    case SendFail(copy) => var w1 := TakeCopy(w, copy); w1.(node := Persist(w1.node, copy, NetworkError))
    case Settle(report, pick, ids) => Settled(cfg, w, report, pick, ids)
    case FetchOne(row, pick, failed) => Fetched(cfg, w, row, pick, failed)
    case Connect(s) => w.(live := w.live + {s}, born := w.born + {s})
    case Announce(s) => w.(node := w.node.(channels := AddAddress(w.node.channels, s.user, s.address)))
    case Disconnect(s) => w.(live := w.live - {s})
    case Withdraw(s) => w.(node := w.node.(channels := RemoveAddress(w.node.channels, s.user, s.address)))
  }

  // ---- when a step can happen

  predicate FreshId(w: World, id: nat) {
    id !in w.accepted
  }

  /** `pick` is a possible random choice in delivering `m`. */
  predicate CanDeliver(cfg: Config, channels: Channels, m: Message, pick: Address) {
    Addressed(cfg, m).Some? ==> CanPick(cfg, channels, Addressed(cfg, m).value.to, pick)
  }

  predicate CanSettle(cfg: Config, w: World, r: Report, pick: Address, ids: FreshIds) {
    if r.state == AddressNotFound then
      r.msg.meta.target.Some? ==>
        CanDeliver(cfg, RemoveAddress(w.node.channels, r.msg.to, r.msg.meta.target.value), r.msg, pick)
    else
      ConfirmationDue(cfg, r.msg, r.state) ==>
        var c := ConfirmationHanded(cfg, r.msg, ids.id, ids.envelopeId, ids.now);
        FreshId(w, c.id) && CanDeliver(cfg, w.node.channels, c, pick)
  }

  predicate Enabled(cfg: Config, w: World, step: Step) {
    match step
    case Accept(m, pick) => FreshId(w, m.id) && CanDeliver(cfg, w.node.channels, m, pick)
    case AcceptGroupMiss(group, user, id, now, pick) =>
      FreshId(w, id) && CanDeliver(cfg, w.node.channels, GroupMissHanded(group, user, id, now), pick)
    case Spawn(_, _, _, id, _) => FreshId(w, id) && Plausible(cfg, w.born, SpawnedCopy(cfg, step))
    case Receive(copy, _) => copy in w.node.net && DefaultOutgoing(copy)
    case Control(copy) => copy in w.node.net && !DefaultOutgoing(copy)
    case Fault(copy) => copy in w.node.net
    case SendFail(copy) => copy in w.node.net
    case Settle(report, pick, ids) => report in w.reports && CanSettle(cfg, w, report, pick, ids)
    case FetchOne(row, pick, _) =>
      && row.id in w.node.store && w.node.store[row.id] == row && Fetchable(row)
      && CanDeliver(cfg, w.node.channels, row, pick)
    case Connect(s) => s !in w.born && s.address.socketId >= 0 && s.address.domain == cfg.domain
    case Announce(s) => s in w.born
    case Disconnect(s) => s in w.live
    case Withdraw(s) => s in w.born && s !in w.live
  }

  // ---- what every step keeps

  ghost predicate ChannelsOk(channels: Channels, born: set<Session>) {
    forall u :: u in channels ==> channels[u] != {} && forall a :: a in channels[u] ==> Session(u, a) in born
  }

  predicate SessionsOk(cfg: Config, live: set<Session>, born: set<Session>) {
    live <= born && forall s :: s in born ==> s.address.socketId >= 0 && s.address.domain == cfg.domain
  }

  /** A copy, a reported message or a row is the accepted message, up to target and state. */
  predicate SameMessage(cfg: Config, accepted: map<nat, Message>, m: Message) {
    m.id in accepted && Canon(cfg, m) == accepted[m.id]
  }

  predicate PacketOk(cfg: Config, born: set<Session>, accepted: map<nat, Message>, m: Message) {
    SameMessage(cfg, accepted, m) && Plausible(cfg, born, m)
  }

  ghost predicate PacketsOk(cfg: Config, born: set<Session>, accepted: map<nat, Message>, net: multiset<Message>) {
    forall m :: m in net ==> PacketOk(cfg, born, accepted, m)
  }

  predicate ReportOk(cfg: Config, live: set<Session>, r: Report) {
    && (r.state == AddressNotFound ==> r.msg.IsReliable() && DefaultOutgoing(r.msg) && SessionOf(r.msg) !in live)
    && (r.state == Processed ==> r.msg.meta.confirmEnabled)
  }

  ghost predicate ReportsOk(cfg: Config, live: set<Session>, born: set<Session>, accepted: map<nat, Message>,
                            reports: multiset<Report>) {
    forall r :: r in reports ==> PacketOk(cfg, born, accepted, r.msg) && ReportOk(cfg, live, r)
  }

  predicate RowOk(cfg: Config, accepted: map<nat, Message>, id: nat, row: Message) {
    && row.id == id && row.IsReliable() && SameMessage(cfg, accepted, row)
    && (Fetchable(row) ==> Addressed(cfg, row) == Some(Adjusted(cfg, row)))
  }

  ghost predicate RowsOk(cfg: Config, accepted: map<nat, Message>, store: map<nat, Message>) {
    forall id :: id in store ==> RowOk(cfg, accepted, id, store[id])
  }

  ghost predicate GroupsOk(accepted: map<nat, Message>, fromGroup: set<nat>) {
    forall id :: id in fromGroup ==> id in accepted && !accepted[id].meta.confirmEnabled
  }

  ghost predicate Inv(cfg: Config, w: World) {
    && ChannelsOk(w.node.channels, w.born)
    && SessionsOk(cfg, w.live, w.born)
    && PacketsOk(cfg, w.born, w.accepted, w.node.net)
    && ReportsOk(cfg, w.live, w.born, w.accepted, w.reports)
    && RowsOk(cfg, w.accepted, w.node.store)
    && GroupsOk(w.accepted, w.fromGroup)
  }

  /** The start: nobody connected, nothing stored, nothing under way. */
  const START := World(Node(map[], map[], multiset{}), multiset{}, {}, {}, map[], {}, multiset{}, multiset{})

  lemma {:induction false} AcceptKeepsInv(cfg: Config, w: World, id: nat, m: Message)
    requires Inv(cfg, w) && FreshId(w, id)
    ensures Inv(cfg, w.(accepted := w.accepted[id := m]))
  {
  }

  lemma {:induction false} TakeKeepsInv(cfg: Config, w: World, copy: Message)
    requires Inv(cfg, w)
    ensures Inv(cfg, TakeCopy(w, copy))
  {
  }

  lemma {:induction false} ReportKeepsInv(cfg: Config, w: World, r: Report)
    requires Inv(cfg, w)
    requires PacketOk(cfg, w.born, w.accepted, r.msg) && ReportOk(cfg, w.live, r)
    ensures Inv(cfg, w.(reports := w.reports + multiset{r}))
  {
  }

  /** The copies sent to addresses out of the user channel are plausible. */
  lemma {:induction false} CopiesArePlausible(cfg: Config, w: World, m: Message, targets: set<Address>)
    requires ChannelsOk(w.node.channels, w.born) && SessionsOk(cfg, w.live, w.born)
    requires targets <= Candidates(cfg, w.node.channels, m.to)
    requires SameMessage(cfg, w.accepted, m)
    ensures PacketsOk(cfg, w.born, w.accepted, multiset(Copies(m, targets)))
  {
    forall p | p in multiset(Copies(m, targets))
      ensures PacketOk(cfg, w.born, w.accepted, p)
    {
      var a :| a in targets && p == m.WithTarget(a);
      CanonOfCopy(cfg, m, a);
      assert !IsConnectorUser(m.to) ==> Session(m.to, a) in w.born;
    }
  }

  /** Sending a message known as `accepted[m.id]` keeps the invariant. */
  lemma {:induction false} SendKeepsInv(cfg: Config, w: World, m: Message, pick: Address)
    requires Inv(cfg, w)
    requires SameMessage(cfg, w.accepted, m)
    requires RowOk(cfg, w.accepted, m.id, m.(state := AddressNotFound)) || !m.IsReliable()
    requires CanPick(cfg, w.node.channels, m.to, pick)
    ensures Inv(cfg, w.(node := SendToConnector(cfg, w.node, m, pick)))
  {
    var targets := RouteTargets(cfg, w.node.channels, m.to, m.meta.deliveryType, pick);
    CopiesArePlausible(cfg, w, m, targets);
  }

  lemma {:induction false} RejectedKeepsInv(cfg: Config, w: World, m: Message)
    requires Inv(cfg, w) && FreshId(w, m.id)
    ensures Inv(cfg, w.(node := Persist(w.node, m, ProcessorError), accepted := w.accepted[m.id := Canon(cfg, m)]))
  {
    AcceptKeepsInv(cfg, w, m.id, Canon(cfg, m));
    var row := m.(state := ProcessorError);
    assert Canon(cfg, row) == Canon(cfg, m);
  }

  lemma {:induction false} HandedKeepsInv(cfg: Config, w: World, m: Message, pick: Address)
    requires Inv(cfg, w) && FreshId(w, m.id)
    requires CanDeliver(cfg, w.node.channels, m, pick)
    ensures Inv(cfg, Handed(cfg, w, m, pick))
  {
    match Addressed(cfg, m)
    case None =>
      RejectedKeepsInv(cfg, w, m);
    case Some(m1) =>
      AddressedIsStable(cfg, m, AddressNotFound);
      AcceptKeepsInv(cfg, w, m.id, Canon(cfg, m1));
      var w1 := w.(accepted := w.accepted[m.id := Canon(cfg, m1)]);
      assert RowOk(cfg, w1.accepted, m1.id, m1.(state := AddressNotFound)) || !m1.IsReliable();
      SendKeepsInv(cfg, w1, m1, pick);
      assert Handed(cfg, w, m, pick) == w1.(node := SendToConnector(cfg, w1.node, m1, pick));
  }

  /** What gets accepted under the id of a message handed over. */
  lemma {:induction false} HandedAccepts(cfg: Config, w: World, m: Message, pick: Address)
    ensures Handed(cfg, w, m, pick).accepted.Keys == w.accepted.Keys + {m.id}
    ensures forall id :: id in w.accepted && id != m.id ==> Handed(cfg, w, m, pick).accepted[id] == w.accepted[id]
    ensures Handed(cfg, w, m, pick).accepted[m.id].meta.confirmEnabled == m.meta.confirmEnabled
    ensures Handed(cfg, w, m, pick).accepted[m.id].content == m.content
  {
    if Addressed(cfg, m).Some? {
      AddressedIsStable(cfg, m, AddressNotFound);
    }
  }

  lemma {:induction false} PersistKeepsInv(cfg: Config, w: World, m: Message, state: MessageState)
    requires Inv(cfg, w) && PacketOk(cfg, w.born, w.accepted, m)
    ensures Inv(cfg, w.(node := Persist(w.node, m, state)))
  {
    LocalIsSettled(cfg, m.(state := state));
  }

  lemma {:induction false} RemoveKeepsInv(cfg: Config, w: World, user: string, a: Address)
    requires Inv(cfg, w)
    ensures Inv(cfg, w.(node := w.node.(channels := RemoveAddress(w.node.channels, user, a))))
  {
  }

  lemma {:induction false} RedeliverKeepsInv(cfg: Config, w: World, m: Message, pick: Address)
    requires Inv(cfg, w) && PacketOk(cfg, w.born, w.accepted, m)
    requires CanDeliver(cfg, RemoveAddress(w.node.channels, m.to, AddressOf(m)), m, pick)
    ensures Redeliver(cfg, w.node, m, pick).Some?
    ensures Inv(cfg, w.(node := Redeliver(cfg, w.node, m, pick).value))
  {
    LocalIsSettled(cfg, m);
    RemoveKeepsInv(cfg, w, m.to, AddressOf(m));
    var w1 := w.(node := w.node.(channels := RemoveAddress(w.node.channels, m.to, AddressOf(m))));
    var m1 := Adjusted(cfg, m);
    LocalIsSettled(cfg, m1.(state := AddressNotFound));
    SendKeepsInv(cfg, w1, m1, pick);
  }

  lemma {:induction false} SettledKeepsInv(cfg: Config, w: World, r: Report, pick: Address, ids: FreshIds)
    requires Inv(cfg, w) && r in w.reports && CanSettle(cfg, w, r, pick, ids)
    ensures Inv(cfg, Settled(cfg, w, r, pick, ids))
  {
    var w1 := w.(reports := w.reports - multiset{r});
    assert Inv(cfg, w1);
    if r.state == AddressNotFound {
      RedeliverKeepsInv(cfg, w1, r.msg, pick);
    } else {
      PersistKeepsInv(cfg, w1, r.msg, r.state);
      var w2 := w1.(node := Persist(w1.node, r.msg, r.state));
      if ConfirmationDue(cfg, r.msg, r.state) {
        var w3 := w2.(confirmations := w2.confirmations + multiset{WriteOf(r.msg)});
        assert Inv(cfg, w3);
        HandedKeepsInv(cfg, w3, ConfirmationHanded(cfg, r.msg, ids.id, ids.envelopeId, ids.now), pick);
      }
    }
  }

  lemma {:induction false} ReceivedKeepsInv(cfg: Config, w: World, copy: Message, success: bool)
    requires Inv(cfg, w) && copy in w.node.net && DefaultOutgoing(copy)
    ensures Inv(cfg, Received(w, copy, success))
  {
    TakeKeepsInv(cfg, w, copy);
    var w1 := TakeCopy(w, copy);
    if SessionOf(copy) in w.live {
      var w2 := if success then w1.(writes := w1.writes + multiset{WriteOf(copy)}) else w1;
      assert Inv(cfg, w2);
      if copy.meta.confirmEnabled || (!success && copy.IsReliable()) {
        ReportKeepsInv(cfg, w2, Report(copy, if success then Processed else NetworkError));
      }
    } else if copy.IsReliable() {
      ReportKeepsInv(cfg, w1, Report(copy, AddressNotFound));
    }
  }

  /** A stored row is delivered as it stands. */
  lemma {:induction false} FetchedIs(cfg: Config, w: World, row: Message, pick: Address, failed: set<Address>)
    requires Inv(cfg, w) && Enabled(cfg, w, FetchOne(row, pick, failed))
    ensures var m := Adjusted(cfg, row);
      && m.id == row.id && m.to == row.to && SameMessage(cfg, w.accepted, m) &&
         CanPick(cfg, w.node.channels, m.to, pick)
      && row.id in w.node.store
      && Fetched(cfg, w, row, pick, failed) ==
         w.(node := SentAndRemoved(w.node, m, Reached(cfg, w.node.channels, m, pick, failed), row.id))
  {
    assert RowOk(cfg, w.accepted, row.id, row);
    AddressedIsStable(cfg, row, AddressNotFound);
    hide Inv, Addressed, Copies, RouteTargets;
  }

  lemma {:induction false} FetchedKeepsInv(cfg: Config, w: World, row: Message, pick: Address, failed: set<Address>)
    requires Inv(cfg, w) && Enabled(cfg, w, FetchOne(row, pick, failed))
    ensures Inv(cfg, Fetched(cfg, w, row, pick, failed))
  {
    var m := Adjusted(cfg, row);
    FetchedIs(cfg, w, row, pick, failed);
    hide Adjusted, Fetched, Enabled;
    CopiesArePlausible(cfg, w, m, Reached(cfg, w.node.channels, m, pick, failed));
  }

  lemma {:induction false} SpawnKeepsInv(cfg: Config, w: World, step: Step)
    requires Inv(cfg, w) && step.Spawn? && Enabled(cfg, w, step)
    ensures Inv(cfg, After(cfg, w, step))
  {
    var child := SpawnedCopy(cfg, step);
    AcceptKeepsInv(cfg, w, step.id, Canon(cfg, child));
    var w1 := w.(accepted := w.accepted[step.id := Canon(cfg, child)]);
    assert PacketOk(cfg, w1.born, w1.accepted, child);
    assert PacketsOk(cfg, w1.born, w1.accepted, w1.node.net + multiset{child});
  }

  lemma {:induction false} ConnectKeepsInv(cfg: Config, w: World, s: Session)
    requires Inv(cfg, w) && Enabled(cfg, w, Connect(s))
    ensures Inv(cfg, After(cfg, w, Connect(s)))
  {
    var born := w.born + {s};
    assert PacketsOk(cfg, born, w.accepted, w.node.net);
    forall r | r in w.reports
      ensures PacketOk(cfg, born, w.accepted, r.msg) && ReportOk(cfg, w.live + {s}, r)
    {
      assert SessionOf(r.msg) != s;
    }
  }

  lemma {:induction false} AnnounceKeepsInv(cfg: Config, w: World, s: Session)
    requires Inv(cfg, w) && s in w.born
    ensures Inv(cfg, w.(node := w.node.(channels := AddAddress(w.node.channels, s.user, s.address))))
  {
    assert ChannelsOk(AddAddress(w.node.channels, s.user, s.address), w.born);
  }

  lemma {:induction false} DisconnectKeepsInv(cfg: Config, w: World, s: Session)
    requires Inv(cfg, w)
    ensures Inv(cfg, w.(live := w.live - {s}))
  {
  }

  lemma {:induction false} GroupMissKeepsInv(cfg: Config, w: World, group: Message, user: string, id: nat, now: int,
                                             pick: Address)
    requires Inv(cfg, w) && Enabled(cfg, w, AcceptGroupMiss(group, user, id, now, pick))
    ensures Inv(cfg, After(cfg, w, AcceptGroupMiss(group, user, id, now, pick)))
  {
    var m := GroupMissHanded(group, user, id, now);
    HandedKeepsInv(cfg, w, m, pick);
    HandedAccepts(cfg, w, m, pick);
    hide Handed;
    assert GroupsOk(Handed(cfg, w, m, pick).accepted, w.fromGroup + {id});
  }

  lemma {:induction false} FailureStepsKeepInv(cfg: Config, w: World, step: Step)
    requires Inv(cfg, w) && Enabled(cfg, w, step)
    requires step.Control? || step.Fault? || step.SendFail?
    ensures Inv(cfg, After(cfg, w, step))
  {
    assert PacketOk(cfg, w.born, w.accepted, step.copy);
    TakeKeepsInv(cfg, w, step.copy);
    if step.Fault? && step.copy.IsReliable() {
      ReportKeepsInv(cfg, TakeCopy(w, step.copy), Report(step.copy, ConnectorError));
    } else if step.SendFail? {
      PersistKeepsInv(cfg, TakeCopy(w, step.copy), step.copy, NetworkError);
    }
  }

  /** Every step of every run keeps the invariant. */
  lemma {:induction false} StepKeepsInv(cfg: Config, w: World, step: Step)
    requires Inv(cfg, w) && Enabled(cfg, w, step)
    ensures Inv(cfg, After(cfg, w, step))
  {
    hide Handed, Settled, Received, Fetched, PacketsOk, ReportsOk, RowsOk;
    match step
    case Accept(m, pick) => HandedKeepsInv(cfg, w, m, pick);
    case AcceptGroupMiss(group, user, id, now, pick) =>
      GroupMissKeepsInv(cfg, w, group, user, id, now, pick);
    case Spawn(_, _, _, _, _) => SpawnKeepsInv(cfg, w, step);
    case Receive(copy, success) => ReceivedKeepsInv(cfg, w, copy, success);
    case Settle(report, pick, ids) => SettledKeepsInv(cfg, w, report, pick, ids);
    case FetchOne(row, pick, failed) => FetchedKeepsInv(cfg, w, row, pick, failed);
    case Withdraw(s) => RemoveKeepsInv(cfg, w, s.user, s.address);
    case Control(_) => FailureStepsKeepInv(cfg, w, step);
    case Fault(_) => FailureStepsKeepInv(cfg, w, step);
    case SendFail(_) => FailureStepsKeepInv(cfg, w, step);
    case Connect(s) => ConnectKeepsInv(cfg, w, s);
    case Announce(s) => AnnounceKeepsInv(cfg, w, s);
    case Disconnect(s) => DisconnectKeepsInv(cfg, w, s);
  }

  lemma {:induction false} SettledGrowsAccepted(cfg: Config, w: World, r: Report, pick: Address, ids: FreshIds)
    requires CanSettle(cfg, w, r, pick, ids)
    ensures var w1 := Settled(cfg, w, r, pick, ids);
      && (forall id :: id in w.accepted ==> id in w1.accepted && w1.accepted[id] == w.accepted[id])
      && w1.writes == w.writes && w1.fromGroup == w.fromGroup && w1.live == w.live && w1.born == w.born
  {
    if ConfirmationDue(cfg, r.msg, r.state) && r.state != AddressNotFound {
      var w2 := w.(node := Persist(w.node, r.msg, r.state), reports := w.reports - multiset{r},
                   confirmations := w.confirmations + multiset{WriteOf(r.msg)});
      HandedAccepts(cfg, w2, ConfirmationHanded(cfg, r.msg, ids.id, ids.envelopeId, ids.now), pick);
    }
  }

  /** Accepted messages stay accepted, unchanged; only a connector writes to sockets. */
  lemma {:induction false} StepGrowsAccepted(cfg: Config, w: World, step: Step)
    requires Enabled(cfg, w, step)
    ensures forall id :: id in w.accepted ==>
      id in After(cfg, w, step).accepted && After(cfg, w, step).accepted[id] == w.accepted[id]
    ensures !step.Receive? ==> After(cfg, w, step).writes == w.writes
  {
    match step
    case Accept(m, pick) => HandedAccepts(cfg, w, m, pick);
    case AcceptGroupMiss(group, user, id, now, pick) =>
      HandedAccepts(cfg, w, GroupMissHanded(group, user, id, now), pick);
    case Settle(report, pick, ids) => SettledGrowsAccepted(cfg, w, report, pick, ids);
    case Spawn(_, _, _, _, _) =>
    case Receive(_, _) =>
    case FetchOne(_, _, _) =>
    case Control(_) =>
    case Fault(_) =>
    case SendFail(_) =>
    case Connect(_) =>
    case Announce(_) =>
    case Disconnect(_) =>
    case Withdraw(_) =>
  }

  /** A run: worlds joined by enabled steps. */
  ghost predicate IsRun(cfg: Config, ws: seq<World>, steps: seq<Step>) {
    && |ws| == |steps| + 1
    && forall i :: 0 <= i < |steps| ==> Enabled(cfg, ws[i], steps[i]) && ws[i + 1] == After(cfg, ws[i], steps[i])
  }

  /** A run prefixed with one more step. */
  lemma {:induction false} RunAfter(cfg: Config, w: World, step: Step, ws: seq<World>, steps: seq<Step>)
    requires Enabled(cfg, w, step) && IsRun(cfg, ws, steps) && ws[0] == After(cfg, w, step)
    ensures IsRun(cfg, [w] + ws, [step] + steps)
  {
    hide Enabled, After;
    var all, allSteps := [w] + ws, [step] + steps;
    forall i | 0 <= i < |allSteps|
      ensures Enabled(cfg, all[i], allSteps[i]) && all[i + 1] == After(cfg, all[i], allSteps[i]) {
      if i > 0 {
        assert allSteps[i] == steps[i - 1] && all[i] == ws[i - 1] && all[i + 1] == ws[i];
      }
    }
  }

  lemma {:induction false} RunKeepsInv(cfg: Config, ws: seq<World>, steps: seq<Step>, i: nat)
    requires IsRun(cfg, ws, steps) && Inv(cfg, ws[0]) && i < |ws|
    ensures Inv(cfg, ws[i])
  {
    if i > 0 {
      RunKeepsInv(cfg, ws, steps, i - 1);
      StepKeepsInv(cfg, ws[i - 1], steps[i - 1]);
    }
  }
}
