/** What the processor's post office, user channels and message store compute, on values.

The class `ProcessorNode` carries these functions out step by step on mutable fields. */
module PostOffices {
  import opened Types
  import opened Names
  import opened ClientApps
  import opened Messages

  /** One processor's constants: its domain and name, the client apps, and for every reachable
  target domain the neighbour its shortest path starts with. */
  datatype Config = Config(domain: string, processor: string, apps: Apps, hops: map<string, string>)

  type Channels = map<string, set<Address>>

  /** The user channels (Redis), the stored messages by id (Mongo), and the copies that are on their
  way to connectors. */
  datatype Node = Node(channels: Channels, store: map<nat, Message>, net: multiset<Message>)

  // ---- user channels

  /** `UserChannelService.addAddress`. */
  function AddAddress(channels: Channels, user: string, a: Address): Channels {
    channels[user := (if user in channels then channels[user] else {}) + {a}]
  }

  /** `UserChannelService.removeAddress`: a channel that becomes empty is deleted. */
  function RemoveAddress(channels: Channels, user: string, a: Address): Channels {
    if user !in channels then channels
    else if channels[user] - {a} == {} then channels - {user}
    else channels[user := channels[user] - {a}]
  }

  /** The addresses under which a user can be found. */
  function ChannelOf(channels: Channels, user: string): set<Address> {
    if user in channels then channels[user] else {}
  }

  // ---- addressing

  /** `ProcessorUtils.resolveDomainName`. */
  function DomainOf(cfg: Config, m: Message): string {
    if m.meta.target.Some? then m.meta.target.value.domain else ResolveDomain(cfg.apps, cfg.domain, m.to)
  }

  /** `ProcessorUtils.isCurrentDomainMessage`. */
  predicate IsCurrentDomain(cfg: Config, m: Message) {
    IsBlank(m.to) || DomainOf(cfg, m) == cfg.domain
  }

  /** `PostOffice.populateTargetAddress`. */
  function Populated(cfg: Config, m: Message): Message {
    if m.meta.target.None? then m.WithTarget(DomainOnly(ResolveDomain(cfg.apps, cfg.domain, m.to))) else m
  }

  predicate GoesToAny(cfg: Config, m: Message) {
    || m.Type() == INTERNAL_MESSAGE
    || IsMasterUser(cfg.apps, m.to)
    || StartsWithIgnoreCase(m.to, PROCESSOR)
  }

  /** `PostOffice.adjustDeliveryType`. */
  function Adjusted(cfg: Config, m: Message): Message {
    if m.meta.deliveryType == All && GoesToAny(cfg, m) then m.(meta := m.meta.(deliveryType := Any)) else m
  }

  /** The message `deliverMessage` ends up routing: target populated, a far one redirected to the
  user id of the next domain, delivery type adjusted. None is an exception: a message for another
  domain that is no INTERNAL message, or for a domain without a route. */
  function Addressed(cfg: Config, m: Message): Option<Message> {
    var m1 := Populated(cfg, m);
    if IsCurrentDomain(cfg, m1) then Some(Adjusted(cfg, m1))
    else if m1.Type() != INTERNAL_MESSAGE then None
    else
      var target := m1.meta.target.value.domain;
      if target !in cfg.hops || IsBlank(cfg.hops[target]) then None
      else Some(Adjusted(cfg, m1.(to := DomainUserId(cfg.hops[target]))))
  }

  // ---- sending

  /** The one address under which a connector itself is reached. */
  function ConnectorAddress(cfg: Config, to: string): Address {
    Address(cfg.domain, Some(to), NO_SOCKET)
  }

  /** The addresses `getRouteTargetAddresses` chooses from. */
  function Candidates(cfg: Config, channels: Channels, to: string): set<Address> {
    if IsBlank(to) then {}
    else if IsConnectorUser(to) then {ConnectorAddress(cfg, to)}
    else ChannelOf(channels, to)
  }

  /** `pick` is a possible outcome of the random choice made for delivery to ANY one address. */
  predicate CanPick(cfg: Config, channels: Channels, to: string, pick: Address) {
    Candidates(cfg, channels, to) != {} ==> pick in Candidates(cfg, channels, to)
  }

  /** `PostOffice.getRouteTargetAddresses`. */
  function RouteTargets(cfg: Config, channels: Channels, to: string, dt: DeliveryType, pick: Address): set<Address> {
    var all := Candidates(cfg, channels, to);
    if dt == All || all == {} then all else {pick}
  }

  function Copies(m: Message, targets: set<Address>): set<Message> {
    set a | a in targets :: m.WithTarget(a)
  }

  /** `PostOffice.sendToAddresses`. */
  function Send(n: Node, m: Message, targets: set<Address>): Node {
    n.(net := n.net + multiset(Copies(m, targets)))
  }

  /** `MessageProcessorService.persistMessage`: saving replaces the row with the same id. */
  function Persist(n: Node, m: Message, state: MessageState): Node {
    if m.IsReliable() && state != Processed then n.(store := n.store[m.id := m.(state := state)]) else n
  }

  /** `PostOffice.sendToConnector`, for a message already adjusted. */
  function SendToConnector(cfg: Config, n: Node, m: Message, pick: Address): Node {
    var targets := RouteTargets(cfg, n.channels, m.to, m.meta.deliveryType, pick);
    if targets == {} then Persist(n, m, AddressNotFound) else Send(n, m, targets)
  }

  /** `PostOffice.deliverMessage`; None is an exception and changes nothing. */
  function Deliver(cfg: Config, n: Node, m: Message, pick: Address): Option<Node> {
    match Addressed(cfg, m)
    case None => None
    case Some(m1) => Some(SendToConnector(cfg, n, m1, pick))
  }

  // ---- sending that fails at once

  /** The copies whose sending fails in the sending thread, as it does once the producer is closed. */
  type Fails = Message -> bool

  const NONE_FAILS: Fails := m => false

  function FailedOf(m: Message, targets: set<Address>, fails: Fails): set<Address> {
    set a | a in targets && fails(m.WithTarget(a))
  }

  /** `sendToAddresses` when the sends to `failed` fail at once: each of these copies is saved as
  NETWORK_ERROR by `onMessageDeliveryFailed`, under the one id they share, `last` being the last. */
  function SendSome(n: Node, m: Message, targets: set<Address>, failed: set<Address>, last: Address): Node {
    var n1 := Send(n, m, targets - failed);
    if failed == {} then n1 else Persist(n1, m.WithTarget(last), NetworkError)
  }

  /** `deliverMessage` when some sends fail at once; `last` is the last target that failed, if any. */
  function DeliverFailing(cfg: Config, n: Node, m: Message, pick: Address, fails: Fails, last: Address): Option<Node> {
    match Addressed(cfg, m)
    case None => None
    case Some(m1) => Some(SendFailing(cfg, n, m1, pick, fails, last))
  }

  function SendFailing(cfg: Config, n: Node, m: Message, pick: Address, fails: Fails, last: Address): Node {
    var targets := RouteTargets(cfg, n.channels, m.to, m.meta.deliveryType, pick);
    if targets == {} then Persist(n, m, AddressNotFound)
    else SendSome(n, m, targets, FailedOf(m, targets, fails), last)
  }

  lemma {:induction false} SendToNone(n: Node, m: Message, fails: Fails, last: Address)
    ensures FailedOf(m, {}, fails) == {} && SendSome(n, m, {}, {}, last) == n
  {
    assert Copies(m, {}) == {} && n.net + multiset({}) == n.net;
    var none: set<Address> := {};
    assert none - {} == {};
  }

  /** One more address in the loop of `sendToAddresses`. */
  lemma {:induction false} SendSomeGrows(n: Node, m: Message, done: set<Address>, fails: Fails, a: Address,
                                         last: Address)
    requires a !in done
    ensures fails(m.WithTarget(a)) ==>
      && a in FailedOf(m, done + {a}, fails)
      && SendSome(n, m, done + {a}, FailedOf(m, done + {a}, fails), a) ==
         Persist(SendSome(n, m, done, FailedOf(m, done, fails), last), m.WithTarget(a), NetworkError)
    ensures !fails(m.WithTarget(a)) ==>
      var n1 := SendSome(n, m, done, FailedOf(m, done, fails), last);
      && FailedOf(m, done + {a}, fails) == FailedOf(m, done, fails)
      && SendSome(n, m, done + {a}, FailedOf(m, done + {a}, fails), last) ==
         n1.(net := n1.net + multiset{m.WithTarget(a)})
  {
    var failed := FailedOf(m, done, fails);
    if fails(m.WithTarget(a)) {
      assert FailedOf(m, done + {a}, fails) == failed + {a};
      hide FailedOf, SendSome, Persist;
      FailedSend(n, m, done, failed, a, last);
    } else {
      assert FailedOf(m, done + {a}, fails) == failed;
      hide FailedOf, SendSome;
      OneMoreSend(n, m, done, failed, a, last);
    }
  }

  lemma {:induction false} FailedSend(n: Node, m: Message, done: set<Address>, failed: set<Address>, a: Address,
                                      last: Address)
    requires a !in done && failed <= done
    ensures SendSome(n, m, done + {a}, failed + {a}, a) ==
            Persist(SendSome(n, m, done, failed, last), m.WithTarget(a), NetworkError)
  {
    var sent := Send(n, m, done - failed);
    assert done + {a} - (failed + {a}) == done - failed;
    PersistTwice(sent, m, sent.net, a, last);
    hide Send, Persist;
    assert sent.(net := sent.net) == sent;
  }

  lemma {:induction false} OneMoreSend(n: Node, m: Message, done: set<Address>, failed: set<Address>, a: Address,
                                       last: Address)
    requires a !in done && failed <= done
    ensures var n1 := SendSome(n, m, done, failed, last);
      SendSome(n, m, done + {a}, failed, last) == n1.(net := n1.net + multiset{m.WithTarget(a)})
  {
    assert done + {a} - failed == (done - failed) + {a};
    SendOneMore(n, m, done - failed, a);
    var n1 := Send(n, m, done - failed);
    PersistApart(n1, m.WithTarget(last), n1.net + multiset{m.WithTarget(a)});
    hide Send, Persist;
  }

  lemma {:induction false} SendOneMore(n: Node, m: Message, kept: set<Address>, a: Address)
    requires a !in kept
    ensures Send(n, m, kept + {a}) ==
            Send(n, m, kept).(net := Send(n, m, kept).net + multiset{m.WithTarget(a)})
  {
    CopiesGrow(m, kept, a);
    hide Copies;
  }

  lemma {:induction false} PersistApart(n: Node, m: Message, net: multiset<Message>)
    ensures Persist(n.(net := net), m, NetworkError) == Persist(n, m, NetworkError).(net := net)
    ensures Persist(n, m, NetworkError).net == n.net
  {
  }

  /** One send that fails, at once or later. */
  function FailOne(n: Node, copy: Message): Node {
    Persist(n.(net := n.net - multiset{copy}), copy, NetworkError)
  }

  lemma {:induction false} SendOneLess(n: Node, m: Message, kept: set<Address>, a: Address)
    requires a !in kept
    ensures Send(n, m, kept).net == Send(n, m, kept + {a}).net - multiset{m.WithTarget(a)}
  {
    CopiesGrow(m, kept, a);
  }

  lemma {:induction false} PersistTwice(n: Node, m: Message, net: multiset<Message>, a: Address, last: Address)
    ensures Persist(n.(net := net), m.WithTarget(a), NetworkError) ==
            Persist(Persist(n, m.WithTarget(last), NetworkError).(net := net), m.WithTarget(a), NetworkError)
  {
    var x := m.WithTarget(last).(state := NetworkError);
    var y := m.WithTarget(a).(state := NetworkError);
    assert n.store[m.id := x][m.id := y] == n.store[m.id := y];
  }

  /** Failing at once is failing right after the sending, copy by copy. */
  lemma {:induction false} FailingOneMore(n: Node, m: Message, targets: set<Address>, failed: set<Address>, a: Address,
                                          last: Address)
    requires a in targets && a !in failed && failed <= targets
    ensures SendSome(n, m, targets, failed + {a}, a) == FailOne(SendSome(n, m, targets, failed, last), m.WithTarget(a))
    ensures SendSome(n, m, targets, {}, last) == Send(n, m, targets)
  {
    var kept := targets - failed - {a};
    assert targets - failed == kept + {a} && targets - (failed + {a}) == kept && targets - {} == targets;
    hide Copies, Persist;
    SendOneLess(n, m, kept, a);
    PersistTwice(Send(n, m, kept + {a}), m, Send(n, m, kept).net, a, last);
    assert Send(n, m, kept) == Send(n, m, kept + {a}).(net := Send(n, m, kept).net);
    hide Send;
  }

  /** When none fails, this is plain delivery. */
  lemma {:induction false} NoneFailing(cfg: Config, n: Node, m: Message, pick: Address, last: Address)
    ensures DeliverFailing(cfg, n, m, pick, NONE_FAILS, last) == Deliver(cfg, n, m, pick)
  {
    hide Addressed;
    if Addressed(cfg, m).Some? {
      var m1 := Addressed(cfg, m).value;
      var targets := RouteTargets(cfg, n.channels, m1.to, m1.meta.deliveryType, pick);
      assert FailedOf(m1, targets, NONE_FAILS) == {};
      assert targets - {} == targets;
    }
  }

  // ---- fetching a stored row

  /** The addresses a row is sent to when those of `failed` fail before the row is removed. */
  function Reached(cfg: Config, channels: Channels, m: Message, pick: Address, failed: set<Address>): set<Address> {
    RouteTargets(cfg, channels, m.to, m.meta.deliveryType, pick) - failed
  }

  function SentAndRemoved(n: Node, m: Message, reached: set<Address>, id: nat): Node {
    n.(net := n.net + multiset(Copies(m, reached)), store := n.store - {id})
  }

  /** One round of the fetch loop: the row is delivered, and then removed by its id - together with
  whatever a failing delivery has saved under this id. None is an exception. */
  function FetchedNode(cfg: Config, n: Node, row: Message, pick: Address, failed: set<Address>): Option<Node> {
    match Addressed(cfg, row)
    case None => None
    case Some(m) =>
      Some(SentAndRemoved(n, m, Reached(cfg, n.channels, m, pick, failed), row.id))
  }

  /** It is delivery, with its own saving, followed by the removal. */
  lemma {:induction false} FetchedIsDeliverThenRemove(cfg: Config, n: Node, row: Message, pick: Address, fails: Fails,
                                                      last: Address)
    requires Addressed(cfg, row).Some?
    ensures var m := Addressed(cfg, row).value;
      var targets := RouteTargets(cfg, n.channels, m.to, m.meta.deliveryType, pick);
      var delivered := DeliverFailing(cfg, n, row, pick, fails, last);
      && delivered.Some?
      && FetchedNode(cfg, n, row, pick, FailedOf(m, targets, fails)) ==
         Some(delivered.value.(store := delivered.value.store - {row.id}))
  {
    AddressedIsStable(cfg, row, AddressNotFound);
    SendFailingThenRemove(cfg, n, Addressed(cfg, row).value, pick, fails, last);
  }

  lemma {:induction false} SendFailingThenRemove(cfg: Config, n: Node, m: Message, pick: Address, fails: Fails,
                                                 last: Address)
    ensures var targets := RouteTargets(cfg, n.channels, m.to, m.meta.deliveryType, pick);
      var n1 := SendFailing(cfg, n, m, pick, fails, last);
      n1.(store := n1.store - {m.id}) == SentAndRemoved(n, m, targets - FailedOf(m, targets, fails), m.id)
  {
    var targets := RouteTargets(cfg, n.channels, m.to, m.meta.deliveryType, pick);
    var failed := FailedOf(m, targets, fails);
    hide RouteTargets, Persist, FailedOf;
    if targets == {} {
      assert Copies(m, targets - failed) == {};
      assert n.net + multiset({}) == n.net;
      PersistThenRemove(n, m, AddressNotFound);
    } else {
      PersistThenRemove(Send(n, m, targets - failed), m.WithTarget(last), NetworkError);
    }
  }

  lemma {:induction false} PersistThenRemove(n: Node, m: Message, state: MessageState)
    ensures var n1 := Persist(n, m, state);
      n1.(store := n1.store - {m.id}) == n.(store := n.store - {m.id})
  {
    assert n.store[m.id := m.(state := state)] - {m.id} == n.store - {m.id};
  }

  /** `MessageStateChangedMessageProcessor.processTargetNotFound`. */
  function Redeliver(cfg: Config, n: Node, m: Message, pick: Address): Option<Node>
    requires m.meta.target.Some?
  {
    Deliver(cfg, n.(channels := RemoveAddress(n.channels, m.to, m.meta.target.value)), m, pick)
  }

  // ---- confirmations

  /** The condition under which a PROCESSED report makes the processor confirm. */
  predicate ConfirmationDue(cfg: Config, m: Message, state: MessageState) {
    && state == Processed
    && m.Type() == MESSAGE
    && m.meta.target.Some? && m.meta.target.value.domain == cfg.domain
    && !IsBlank(m.content.reference)
    && m.content.confirmationEnabled
  }

  /** The message that `process(confirmMessage)` hands to the post office: the confirmation itself,
  or an envelope around it when the sender lives in another domain. */
  function ConfirmationHanded(cfg: Config, m: Message, id: nat, envelopeId: nat, now: int): Message {
    var c := Touched(Confirmation(m, cfg.domain, cfg.processor, id, now));
    if IsCurrentDomain(cfg, c) then c else Touched(Envelope(c, DomainOf(cfg, c), envelopeId, now))
  }

  // ---- what stays the same about a message while it travels

  /** A message without the parts that delivery rewrites: target and state. */
  function Canon(cfg: Config, m: Message): Message {
    var m1 := Adjusted(cfg, m);
    m1.(meta := m1.meta.(target := None), state := Created)
  }

  /** Messages that agree in this form agree in everything else: nothing but target, state and the narrowing of
  the delivery type changes on the way. */
  lemma {:induction false} CanonDetermines(cfg: Config, a: Message, b: Message)
    ensures Canon(cfg, a) == Canon(cfg, b) <==>
            && a.id == b.id && a.content == b.content && a.from == b.from && a.to == b.to && a.createdAt == b.createdAt
            && a.meta.original == b.meta.original && a.meta.ttl == b.meta.ttl
            && a.meta.confirmEnabled == b.meta.confirmEnabled
            && Adjusted(cfg, a).meta.deliveryType == Adjusted(cfg, b).meta.deliveryType
  {
    hide IsMasterUser;
  }

  lemma {:induction false} DomainUserIdIsNotBlank(domain: string)
    ensures !IsBlank(DomainUserId(domain))
  {
    var s := DomainUserId(domain);
    assert s[|s| - 2] == '-';
  }

  /** A copy or a report addressed inside the domain is delivered as it stands. */
  lemma {:induction false} LocalIsSettled(cfg: Config, m: Message)
    requires m.meta.target.Some? && m.meta.target.value.domain == cfg.domain
    ensures Addressed(cfg, m) == Some(Adjusted(cfg, m))
    ensures Canon(cfg, Adjusted(cfg, m)) == Canon(cfg, m)
  {
  }

  /** A message saved for later is delivered again as the same message, to the same user, even when
  it was on its way to another domain. */
  lemma {:induction false} AddressedIsStable(cfg: Config, m: Message, state: MessageState)
    requires Addressed(cfg, m).Some?
    ensures Addressed(cfg, Addressed(cfg, m).value.(state := state)) == Some(Addressed(cfg, m).value.(state := state))
    ensures Canon(cfg, Addressed(cfg, m).value.(state := state)) == Canon(cfg, Addressed(cfg, m).value)
    ensures Adjusted(cfg, Addressed(cfg, m).value) == Addressed(cfg, m).value
    ensures Addressed(cfg, m).value.id == m.id && Addressed(cfg, m).value.content == m.content
    ensures Addressed(cfg, m).value.meta.confirmEnabled == m.meta.confirmEnabled
  {
    var m1 := Populated(cfg, m);
    if !IsCurrentDomain(cfg, m1) {
      DomainUserIdIsNotBlank(cfg.hops[m1.meta.target.value.domain]);
    }
  }

  lemma {:induction false} CanonOfCopy(cfg: Config, m: Message, a: Address)
    ensures Canon(cfg, m.WithTarget(a)) == Canon(cfg, m)
    ensures m.WithTarget(a).id == m.id && m.WithTarget(a).to == m.to
  {
  }

  /** One more target is one more copy. */
  lemma {:induction false} CopiesGrow(m: Message, rest: set<Address>, a: Address)
    requires a !in rest
    ensures multiset(Copies(m, rest + {a})) == multiset(Copies(m, rest)) + multiset{m.WithTarget(a)}
  {
    var copy := m.WithTarget(a);
    forall b | b in rest ensures m.WithTarget(b) != copy {
      assert m.WithTarget(b).meta.target.value == b;
    }
    assert Copies(m, rest + {a}) == Copies(m, rest) + {copy};
    assert copy !in Copies(m, rest);
  }
}
