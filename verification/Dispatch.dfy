/** `MessageProcessorService.process` and the handlers it dispatches to.

`process` calls itself: for the message inside an envelope, for an envelope put around a message, for
the parts of a group message, for a confirmation, and for a notice passed on to a master user. `Rank`
together with the TTL bounds this recursion for every message; the TTL alone does not, since every
new envelope starts with a full one. */
module Dispatch {
  import opened Types
  import opened ClientApps
  import opened Messages
  import opened PostOffices
  import opened Delivery
  import opened Fetching

  /** What a handler asks the rest of the processor to do. `Fail` is an exception of the handler itself. */
  datatype Effect =
    | Post(message: Message)
    | AddToChannel(user: string, address: Option<Address>)
    | RemoveFromChannel(user: string, address: Option<Address>)
    | Save(message: Message, state: MessageState)
    | Authenticate(message: Message)
    | Fetch(user: string, count: int)
    | Fail

  /** Ids and clock readings of newly built messages play no role in dispatching. */
  const NEW_ID: nat := 0
  const NOW := 0

  /** A processor for the type exists, and the data can be converted to what it expects. */
  predicate Supported(data: Payload) {
    match data
    case MessageRequest(_, _) => true
    case MessageConfirmation(_) => true
    case GroupMessage(_, _) => true
    case InternalMessage(_) => true
    case MessageStateChanged(_, _) => true
    case UserConnected(_) => true
    case UserDisconnected(_) => true
    case AuthClient(_) => true
    case CloseConnection(_) => true
    case FetchMissingMessagesRequest(_) => true
    case MessageForward(_, _) => false
    case GroupConnectorMessage(_, _) => false
    case AuthClientReply(_, _) => false
    case FetchMissingMessagesComplete(_) => false
    case OtherPayload => false
  }

  /** `doPreprocess` of the processor for the type. */
  function Preprocessed(m: Message): Message {
    match m.content.data
    case MessageRequest(to, _) => m.(to := to)
    case CloseConnection(userId) => m.(to := userId)
    case InternalMessage(inner) => if IsBlank(m.to) then m.(to := inner.to) else m
    case _ => m
  }

  /** What `process` decides: the message is dropped, has no processor, is handled here, or travels
  on inside the given envelope. */
  datatype Verdict =
    | Dropped
    | NoProcessor
    | Handle(message: Message)
    | Route(envelope: Message)

  /** The envelope of `processCrossDomainMessage`, as it comes out of its own `process`. */
  function EnvelopeFor(cfg: Config, m: Message): Message {
    Touched(Envelope(m, DomainOf(cfg, m), NEW_ID, NOW))
  }

  /** What becomes of a message that is no envelope, or of the innermost message of nested ones. */
  function Decide(cfg: Config, m: Message): Verdict
    decreases m
  {
    var m2 := Preprocessed(Touched(m));
    if !IsAlive(m2) then Dropped
    else if !Supported(m.content.data) then NoProcessor
    else
      match m.content.data
      case InternalMessage(inner) => if IsCurrentDomain(cfg, m2) then Decide(cfg, inner) else Route(m2)
      case _ => if IsCurrentDomain(cfg, m2) then Handle(m2) else Route(EnvelopeFor(cfg, m2))
  }

  // ---- the measure of the recursion

  /** The message inside all envelopes. */
  function Core(m: Message): Message
    decreases m
  {
    match m.content.data
    case InternalMessage(inner) => Core(inner)
    case _ => m
  }

  function Ttl(m: Message): nat {
    if m.meta.ttl > 0 then m.meta.ttl else 0
  }

  /** Kinds whose handlers build further messages rank above those that only deliver. */
  function KindRank(m: Message): nat {
    if m.Type() == GROUP_MESSAGE || m.Type() == MESSAGE_STATE_CHANGED then 1 else 0
  }

  /** An envelope for another domain is only passed on; a foreign message is only wrapped; an envelope
  for this domain counts one more than what it holds. */
  function Rank(cfg: Config, m: Message): nat
    decreases m
  {
    match m.content.data
    case InternalMessage(inner) => if IsCurrentDomain(cfg, Preprocessed(m)) then 1 + Rank(cfg, inner) else 0
    case _ => if IsCurrentDomain(cfg, Preprocessed(m)) then 2 + KindRank(m) else 1
  }

  lemma {:induction false} PreprocessedKeeps(m: Message)
    ensures var m1 := Preprocessed(m);
      Preprocessed(m1) == m1 && m1.Type() == m.Type() && m1.content == m.content && m1.meta == m.meta
    ensures Preprocessed(Touched(m)) == Touched(Preprocessed(m))
  {
  }

  /** Counting down and preprocessing change neither the place in the recursion nor the domain. */
  lemma {:induction false} TouchedKeeps(cfg: Config, m: Message)
    ensures IsCurrentDomain(cfg, Preprocessed(Touched(m))) == IsCurrentDomain(cfg, Preprocessed(m))
    ensures Rank(cfg, Preprocessed(Touched(m))) == Rank(cfg, m)
    ensures var m2 := Preprocessed(Touched(m));
      Preprocessed(m2) == m2 && m2.Type() == m.Type() && m2.content == m.content && m2.meta == Touched(m).meta
  {
    hide Preprocessed, ResolveDomain;
    PreprocessedKeeps(m);
    PreprocessedKeeps(Touched(m));
  }

  /** The envelope around a foreign message is itself foreign. It starts with a full TTL, however little
  the message has left. */
  lemma {:induction false} EnvelopeIsForeign(cfg: Config, m: Message)
    requires !IsCurrentDomain(cfg, m) && m.Type() != INTERNAL_MESSAGE
    ensures var e := Envelope(m, DomainOf(cfg, m), NEW_ID, NOW);
      && e.meta.ttl == INITIAL_TTL
      && Preprocessed(e) == e && !IsCurrentDomain(cfg, e) && Rank(cfg, e) == 0
      && Decide(cfg, e) == Route(Touched(e))
  {
  }

  /** A handled message is the innermost one with one TTL unit taken off. */
  lemma {:induction false} HandledIsCore(cfg: Config, m: Message)
    requires Decide(cfg, m).Handle?
    ensures Decide(cfg, m).message == Preprocessed(Touched(Core(m)))
    ensures IsCurrentDomain(cfg, Decide(cfg, m).message) && IsAlive(Decide(cfg, m).message)
    ensures Supported(Core(m).content.data) && !Core(m).content.data.InternalMessage?
    decreases m
  {
    match m.content.data
    case InternalMessage(inner) => HandledIsCore(cfg, inner);
    case _ =>
  }

  // ---- group messages

  /** The random choices `getRouteTargetAddresses` makes, one per user. */
  type Picks = string -> Address

  function GroupDelivery(cfg: Config, user: string): DeliveryType {
    if IsMasterUser(cfg.apps, user) then Any else All
  }

  /** The addresses a group message is sent to for one local user. */
  function GroupTargets(cfg: Config, channels: Channels, picks: Picks, user: string): set<Address> {
    RouteTargets(cfg, channels, user, GroupDelivery(cfg, user), picks(user))
  }

  function HomeOf(cfg: Config, user: string): string {
    ResolveDomain(cfg.apps, cfg.domain, user)
  }

  function PartFor(cfg: Config, users: set<string>, domain: string): set<string> {
    set u | u in users && HomeOf(cfg, u) == domain
  }

  /** `domainGroupedUsers`. */
  function DomainGroups(cfg: Config, users: set<string>): map<string, set<string>> {
    map d | d in (set u | u in users :: HomeOf(cfg, u)) :: PartFor(cfg, users, d)
  }

  function ConnectorOf(a: Address): string {
    if a.connector.Some? then a.connector.value else ""
  }

  /** The chosen (user, address) pairs. */
  function Chosen(cfg: Config, channels: Channels, picks: Picks, users: set<string>): set<(string, Address)> {
    set u, a | u in users && a in GroupTargets(cfg, channels, picks, u) :: (u, a)
  }

  function UsersAt(chosen: set<(string, Address)>, connector: string): set<ConnectorUserId> {
    set x | x in chosen && ConnectorOf(x.1) == connector :: ConnectorUserId(x.0, x.1.socketId)
  }

  /** `connectorGroupedUsers`. */
  function ConnectorGroups(chosen: set<(string, Address)>): map<string, set<ConnectorUserId>> {
    map c | c in (set x | x in chosen :: ConnectorOf(x.1)) :: UsersAt(chosen, c)
  }

  /** The users a group message finds no address for. */
  function Missed(cfg: Config, channels: Channels, picks: Picks, users: set<string>): set<string> {
    set u | u in users && GroupTargets(cfg, channels, picks, u) == {}
  }

  function PartEffect(cfg: Config, m: Message, text: string, domain: string, users: set<string>): Effect {
    Post(EnvelopeFor(cfg, Touched(GroupPart(m, text, domain, users, NEW_ID))))
  }

  function MissEffect(m: Message, text: string, user: string): Effect {
    Post(Forwarded(Touched(GroupMiss(m, text, user, NEW_ID, NOW)), text))
  }

  function ConnectorEffect(m: Message, text: string, connector: string, users: set<ConnectorUserId>): Effect {
    Post(GroupForConnector(m, text, connector, users, NEW_ID, NOW))
  }

  function PartEffects(cfg: Config, m: Message, text: string, groups: map<string, set<string>>): set<Effect> {
    set d | d in groups && d != cfg.domain :: PartEffect(cfg, m, text, d, groups[d])
  }

  function MissEffects(m: Message, text: string, users: set<string>): set<Effect> {
    set u | u in users :: MissEffect(m, text, u)
  }

  function ConnectorEffects(m: Message, text: string, groups: map<string, set<ConnectorUserId>>): set<Effect> {
    set c | c in groups :: ConnectorEffect(m, text, c, groups[c])
  }

  function LocalEffects(cfg: Config, channels: Channels, picks: Picks, m: Message, text: string,
                        users: set<string>): set<Effect> {
    MissEffects(m, text, Missed(cfg, channels, picks, users)) +
    ConnectorEffects(m, text, ConnectorGroups(Chosen(cfg, channels, picks, users)))
  }

  function GroupEffects(cfg: Config, channels: Channels, picks: Picks, m: Message, users: set<string>,
                        text: string): set<Effect> {
    PartEffects(cfg, m, text, DomainGroups(cfg, users)) +
    LocalEffects(cfg, channels, picks, m, text, PartFor(cfg, users, cfg.domain))
  }

  // ---- the effect of processing

  /** The user that notices about `user` are passed on to: the master of the app, unless it is absent
  or the user itself. */
  function MasterOf(cfg: Config, user: string): Option<string> {
    var app := AppOfUser(cfg.apps, user);
    if app.Some? && app.value.masterUserId != user && app.value.masterUserId != "" then
       Some(app.value.masterUserId) else None
  }

  /** The notices about connects and disconnects: a change of the channel, and a copy for the master. */
  function NoticeEffects(cfg: Config, channels: Channels, picks: Picks, m: Message, user: string,
                         change: Effect): multiset<Effect>
    requires m.content.data.UserConnected? || m.content.data.UserDisconnected?
    decreases 0, Ttl(m), 1
  {
    if !IsProcessorUser(m.to) then multiset{Post(m)}
    else
      var master := MasterOf(cfg, user);
      (if m.state == Created then multiset{change} else multiset{}) +
      (if master.Some? then Effects(cfg, channels, picks, m.(to := master.value)) else multiset{})
  }

  /** A report of success about a message without a target, which the handler does not expect. */
  predicate LacksTarget(m: Message, state: MessageState) {
    state == Processed && m.Type() == MESSAGE && m.meta.target.None?
  }

  /** The master user of an app can have its users' connections closed. */
  function CloseEffects(cfg: Config, m: Message, userId: string): multiset<Effect> {
    var app := AppOfUser(cfg.apps, userId);
    if app.Some? && app.value.masterUserId == m.from then
      multiset{Post(m.(content := m.content.(data := CloseConnection(""), feature := Reliable)))}
    else multiset{}
  }

  /** The handlers that do one thing. */
  function PlainEffects(cfg: Config, m: Message): multiset<Effect> {
    match m.content.data
    case MessageRequest(_, text) => multiset{Post(Forwarded(m, text))}
    case MessageConfirmation(_) => multiset{Post(m)}
    case CloseConnection(userId) => CloseEffects(cfg, m, userId)
    case AuthClient(_) => multiset{Authenticate(m)}
    case FetchMissingMessagesRequest(count) => multiset{Fetch(m.from, if count < MAX_COUNT then count else MAX_COUNT)}
    case _ => multiset{}
  }

  function HandlerEffects(cfg: Config, channels: Channels, picks: Picks, m: Message): multiset<Effect>
    decreases KindRank(m), Ttl(m), 2
  {
    match m.content.data
    case GroupMessage(users, text) => multiset(GroupEffects(cfg, channels, picks, m, users, text))
    case MessageStateChanged(msg, state) =>
      if state == AddressNotFound then multiset{RemoveFromChannel(msg.to, msg.meta.target), Post(msg)}
      else
        multiset{Save(msg, state)} +
        (if LacksTarget(msg, state) then multiset{Fail}
         else if ConfirmationDue(cfg, msg, state) then
           Effects(cfg, channels, picks, Confirmation(msg, cfg.domain, cfg.processor, NEW_ID, NOW))
         else multiset{})
    case UserConnected(user) => NoticeEffects(cfg, channels, picks, m, user, AddToChannel(user, m.meta.original))
    case UserDisconnected(user) => NoticeEffects(cfg, channels, picks, m, user,
                                                 RemoveFromChannel(user, m.meta.original))
    case _ => PlainEffects(cfg, m)
  }

  /** All that `process(m)` sets out to do, in whatever order; the first exception ends it. */
  function Effects(cfg: Config, channels: Channels, picks: Picks, m: Message): multiset<Effect>
    decreases KindRank(Core(m)), Ttl(Core(m)), 0
  {
    match Decide(cfg, m)
    case Dropped => multiset{}
    case NoProcessor => multiset{}
    case Route(envelope) => multiset{Post(envelope)}
    case Handle(m2) =>
      HandledIsCore(cfg, m);
      HandlerEffects(cfg, channels, picks, m2)
  }

  // ---- exceptions

  /** The post office throws on a message it can address to nobody, and a fetch on an empty page. */
  predicate Performs(cfg: Config, e: Effect) {
    match e
    case Post(p) => Addressed(cfg, p).Some?
    case Fetch(_, count) => count >= 1
    case Fail => false
    case _ => true
  }

  ghost predicate AllPerform(cfg: Config, es: multiset<Effect>) {
    forall e :: e in es ==> Performs(cfg, e)
  }

  /** `after` is what processing can come to that sets out to do `all`: everything, if nothing throws, and
  otherwise some of what does not. `ok` is false when an exception left it. */
  ghost predicate Ran(cfg: Config, before: multiset<Effect>, all: multiset<Effect>, after: multiset<Effect>, ok: bool) {
    && (ok <==> AllPerform(cfg, all))
    && (ok ==> after == before + all)
    && before <= after <= before + all && AllPerform(cfg, after - before)
  }

  /** The effects ahead of the first that throws. */
  function UpToException(cfg: Config, es: seq<Effect>): seq<Effect> {
    if es == [] || !Performs(cfg, es[0]) then [] else [es[0]] + UpToException(cfg, es[1..])
  }

  lemma {:induction false} RanNothing(cfg: Config, before: multiset<Effect>)
    ensures Ran(cfg, before, multiset{}, before, true)
  {
    assert before - before == multiset{};
  }

  lemma {:induction false} RanAll(cfg: Config, before: multiset<Effect>, all: multiset<Effect>)
    requires AllPerform(cfg, all)
    ensures Ran(cfg, before, all, before + all, true)
  {
    assert before + all - before == all;
  }

  lemma {:induction false} RanOne(cfg: Config, before: multiset<Effect>, e: Effect)
    ensures Ran(cfg, before, multiset{e}, if Performs(cfg, e) then before + multiset{e} else before, Performs(cfg, e))
  {
    hide Performs;
    assert e in multiset{e};
    if Performs(cfg, e) {
      RanAll(cfg, before, multiset{e});
    } else {
      assert before - before == multiset{};
    }
  }

  lemma {:induction false} RanThen(cfg: Config, before: multiset<Effect>, first: multiset<Effect>,
                                   mid: multiset<Effect>, rest: multiset<Effect>, after: multiset<Effect>, ok: bool)
    requires Ran(cfg, before, first, mid, true) && Ran(cfg, mid, rest, after, ok)
    ensures Ran(cfg, before, first + rest, after, ok)
  {
    hide Performs;
    assert mid == before + first;
    assert before + first + rest == before + (first + rest);
    assert after - before == first + (after - mid);
    forall e | e in rest ensures e in first + rest {
    }
  }

  lemma {:induction false} RanStops(cfg: Config, before: multiset<Effect>, some: multiset<Effect>,
                                    all: multiset<Effect>, after: multiset<Effect>)
    requires Ran(cfg, before, some, after, false) && some <= all
    ensures Ran(cfg, before, all, after, false)
  {
    hide Performs;
    var e :| e in some && !Performs(cfg, e);
    assert e in all;
  }

  lemma {:induction false} RanGrows(cfg: Config, before: multiset<Effect>, all: multiset<Effect>,
                                    after: multiset<Effect>, ok: bool)
    requires Ran(cfg, before, all, after, ok)
    ensures before <= after
  {
  }

  /** These are exactly the outcomes of taking the effects in some order up to the first exception. */
  lemma {:induction false} RanExactlyInSomeOrder(cfg: Config, before: multiset<Effect>, all: multiset<Effect>,
                                                 after: multiset<Effect>, ok: bool)
    ensures Ran(cfg, before, all, after, ok) <==>
            exists es :: multiset(es) == all && after == before + multiset(UpToException(cfg, es)) &&
                         (ok <==> UpToException(cfg, es) == es)
  {
    hide Performs;
    if Ran(cfg, before, all, after, ok) {
      var es := OrderOfRun(cfg, before, all, after, ok);
    }
    if es :| multiset(es) == all && after == before + multiset(UpToException(cfg, es)) &&
             (ok <==> UpToException(cfg, es) == es) {
      OrderRuns(cfg, before, es);
    }
  }

  lemma {:induction false} OrderRuns(cfg: Config, before: multiset<Effect>, es: seq<Effect>)
    ensures Ran(cfg, before, multiset(es), before + multiset(UpToException(cfg, es)), UpToException(cfg, es) == es)
    decreases |es|
  {
    hide Performs;
    if es == [] {
      RanNothing(cfg, before);
      assert before + multiset(es) == before;
    } else {
      assert es == [es[0]] + es[1..];
      assert multiset(es) == multiset{es[0]} + multiset(es[1..]);
      RanOne(cfg, before, es[0]);
      if Performs(cfg, es[0]) {
        OrderRuns(cfg, before + multiset{es[0]}, es[1..]);
        var rest := UpToException(cfg, es[1..]);
        assert before + multiset{es[0]} + multiset(rest) == before + multiset([es[0]] + rest);
        assert UpToException(cfg, es) == es <==> rest == es[1..];
        RanThen(cfg, before, multiset{es[0]}, before + multiset{es[0]}, multiset(es[1..]),
                before + multiset{es[0]} + multiset(rest), rest == es[1..]);
      } else {
        RanStops(cfg, before, multiset{es[0]}, multiset(es), before);
        var none: seq<Effect> := [];
        assert before + multiset(none) == before;
      }
    }
  }

  lemma {:induction false} ListOf(all: multiset<Effect>) returns (es: seq<Effect>)
    ensures multiset(es) == all
    decreases |all|
  {
    if all == multiset{} {
      es := [];
    } else {
      var e :| e in all;
      es := ListOf(all - multiset{e});
      es := es + [e];
      assert all == all - multiset{e} + multiset{e};
    }
  }

  lemma {:induction false} UpToJoin(cfg: Config, done: seq<Effect>, rest: seq<Effect>)
    requires AllPerform(cfg, multiset(done))
    ensures UpToException(cfg, done + rest) == done + UpToException(cfg, rest)
    decreases |done|
  {
    hide Performs;
    if done == [] {
      assert done + rest == rest && done + UpToException(cfg, rest) == UpToException(cfg, rest);
    } else {
      assert done[0] in multiset(done);
      assert forall e :: e in multiset(done[1..]) ==> e in multiset(done);
      UpToJoin(cfg, done[1..], rest);
      assert (done + rest)[1..] == done[1..] + rest;
      assert [done[0]] + (done[1..] + UpToException(cfg, rest)) == done + UpToException(cfg, rest);
    }
  }

  lemma {:induction false} OrderOfRun(cfg: Config, before: multiset<Effect>, all: multiset<Effect>,
                                      after: multiset<Effect>, ok: bool) returns (es: seq<Effect>)
    requires Ran(cfg, before, all, after, ok)
    ensures multiset(es) == all && after == before + multiset(UpToException(cfg, es))
    ensures ok <==> UpToException(cfg, es) == es
  {
    var done := after - before;
    assert AllPerform(cfg, done) && after == before + done && done <= all;
    if ok {
      assert done == all;
      es := ListOf(done);
      hide Ran, Performs, AllPerform;
      UpToJoin(cfg, es, []);
      assert es + [] == es;
    } else {
      var e :| e in all && !Performs(cfg, e);
      assert e !in done;
      hide Ran, Performs, AllPerform;
      es := OrderThatStops(cfg, all, done, e);
    }
  }

  lemma {:induction false} OrderThatStops(cfg: Config, all: multiset<Effect>, done: multiset<Effect>,
                                          e: Effect) returns (es: seq<Effect>)
    requires AllPerform(cfg, done) && done <= all && e in all && e !in done && !Performs(cfg, e)
    ensures multiset(es) == all && multiset(UpToException(cfg, es)) == done && UpToException(cfg, es) != es
  {
    hide Performs;
    var prefix := ListOf(done);
    var left := all - done - multiset{e};
    var rest := ListOf(left);
    es := prefix + ([e] + rest);
    assert all == done + (multiset{e} + left);
    UpToJoin(cfg, prefix, [e] + rest);
    var none: seq<Effect> := [];
    assert UpToException(cfg, [e] + rest) == none && prefix + none == prefix;
    hide UpToException, AllPerform;
    assert |es| > |prefix|;
  }

  // ---- the service

  lemma {:induction false} GroupRank(cfg: Config, channels: Channels, picks: Picks, m: Message, users: set<string>,
                                     text: string)
    requires m.content.data == GroupMessage(users, text) && IsCurrentDomain(cfg, m)
    ensures Rank(cfg, m) == 3
    ensures forall d, u :: d in DomainGroups(cfg, users) && u in DomainGroups(cfg, users)[d] ==> HomeOf(cfg, u) == d
  {
  }

  lemma {:induction false} PartIsRouted(cfg: Config, channels: Channels, picks: Picks, m: Message, text: string,
                                        domain: string, users: set<string>)
    requires domain != cfg.domain
    ensures Effects(cfg, channels, picks, GroupPart(m, text, domain, users, NEW_ID)) ==
            multiset{PartEffect(cfg, m, text, domain, users)}
    ensures Rank(cfg, GroupPart(m, text, domain, users, NEW_ID)) == 1
  {
    var part := GroupPart(m, text, domain, users, NEW_ID);
    assert PROCESSOR[0] == 'P' && !IsBlank(part.to);
    assert Decide(cfg, part) == Route(EnvelopeFor(cfg, Touched(part)));
  }

  lemma {:induction false} MissIsPosted(cfg: Config, channels: Channels, picks: Picks, m: Message, text: string,
                                        user: string)
    requires HomeOf(cfg, user) == cfg.domain
    ensures Effects(cfg, channels, picks, GroupMiss(m, text, user, NEW_ID, NOW)) == multiset{MissEffect(m, text, user)}
    ensures Rank(cfg, GroupMiss(m, text, user, NEW_ID, NOW)) == 2
  {
    var miss := GroupMiss(m, text, user, NEW_ID, NOW);
    assert Preprocessed(Touched(miss)) == Touched(miss);
    assert Decide(cfg, miss) == Handle(Touched(miss));
    assert HandlerEffects(cfg, channels, picks, Touched(miss)) == multiset{Post(Forwarded(Touched(miss), text))};
  }

  lemma {:induction false} DecideSplits(cfg: Config, m: Message)
    ensures var m2 := Preprocessed(Touched(m));
      Decide(cfg, m) ==
      if !IsAlive(m2) then Dropped
      else if !Supported(m2.content.data) then NoProcessor
      else if !IsCurrentDomain(cfg, m2) then Route(if m2.Type() == INTERNAL_MESSAGE then m2 else EnvelopeFor(cfg, m2))
      else if m2.Type() == INTERNAL_MESSAGE then Decide(cfg, m2.content.data.inner)
      else Handle(m2)
  {
    hide IsCurrentDomain, EnvelopeFor;
  }

  lemma {:induction false} SameVerdictSameEffects(cfg: Config, channels: Channels, picks: Picks, m: Message)
    ensures Effects(cfg, channels, picks, m) ==
      match Decide(cfg, m)
      case Dropped => multiset{}
      case NoProcessor => multiset{}
      case Route(envelope) => multiset{Post(envelope)}
      case Handle(m2) => HandlerEffects(cfg, channels, picks, m2)
  {
    hide HandlerEffects, Decide, IsCurrentDomain;
  }

  /** The branches of `process`. */
  lemma {:induction false} ProcessSplits(cfg: Config, channels: Channels, picks: Picks, m: Message)
    ensures var m2 := Preprocessed(Touched(m));
      Effects(cfg, channels, picks, m) ==
      if !IsAlive(m2) || !Supported(m2.content.data) then multiset{}
      else if !IsCurrentDomain(cfg, m2) then
        multiset{Post(if m2.Type() == INTERNAL_MESSAGE then m2 else EnvelopeFor(cfg, m2))}
      else if m2.Type() == INTERNAL_MESSAGE then Effects(cfg, channels, picks, m2.content.data.inner)
      else HandlerEffects(cfg, channels, picks, m2)
  {
    hide HandlerEffects, Decide, Effects, IsCurrentDomain, EnvelopeFor, Preprocessed, Touched;
    var m2 := Preprocessed(Touched(m));
    DecideSplits(cfg, m);
    SameVerdictSameEffects(cfg, channels, picks, m);
    if m2.Type() == INTERNAL_MESSAGE {
      SameVerdictSameEffects(cfg, channels, picks, m2.content.data.inner);
    }
  }

  /** A confirmation that is processed is handed to the post office as the delivery protocol has it: as it
  is, or in an envelope when the sender lives elsewhere. */
  lemma {:induction false} ConfirmationIsHanded(cfg: Config, channels: Channels, picks: Picks, m: Message)
    ensures Effects(cfg, channels, picks, Confirmation(m, cfg.domain, cfg.processor, NEW_ID, NOW)) ==
            multiset{Post(ConfirmationHanded(cfg, m, NEW_ID, NEW_ID, NOW))}
  {
    var c := Confirmation(m, cfg.domain, cfg.processor, NEW_ID, NOW);
    hide ResolveDomain;
    DecideSplits(cfg, c);
    SameVerdictSameEffects(cfg, channels, picks, c);
    assert Preprocessed(Touched(c)) == Touched(c) && IsAlive(Touched(c));
  }

  lemma {:induction false} NoticeRank(cfg: Config, m: Message, master: string)
    requires m.content.data.UserConnected? || m.content.data.UserDisconnected?
    requires IsCurrentDomain(cfg, m)
    ensures Rank(cfg, m.(to := master)) <= Rank(cfg, m)
  {
  }

  // ---- the loops over users, domains and connectors, one element at a time

  lemma {:induction false} NoDomainGroups(cfg: Config)
    ensures DomainGroups(cfg, {}) == map[]
  {
  }

  lemma {:induction false} NothingGrouped(cfg: Config, channels: Channels, picks: Picks, m: Message, text: string)
    ensures Missed(cfg, channels, picks, {}) == {} && MissEffects(m, text, {}) == {}
    ensures Chosen(cfg, channels, picks, {}) == {}
    ensures ConnectorGroups({}) == map[]
    ensures forall groups :: PartEffects(cfg, m, text, Restrict(groups, {})) == {}
    ensures forall groups :: ConnectorEffects(m, text, RestrictUsers(groups, {})) == {}
  {
  }

  function WithUser(groups: map<string, set<string>>, domain: string, user: string): map<string, set<string>> {
    groups[domain := (if domain in groups then groups[domain] else {}) + {user}]
  }

  lemma {:induction false} PartGrows(cfg: Config, done: set<string>, user: string, domain: string)
    ensures PartFor(cfg, done + {user}, domain) ==
            if HomeOf(cfg, user) == domain then PartFor(cfg, done, domain) + {user} else PartFor(cfg, done, domain)
    ensures domain !in DomainGroups(cfg, done) ==> PartFor(cfg, done, domain) == {}
  {
    hide HomeOf;
  }

  lemma {:induction false} DomainsGrow(cfg: Config, done: set<string>, user: string)
    ensures DomainGroups(cfg, done + {user}).Keys == DomainGroups(cfg, done).Keys + {HomeOf(cfg, user)}
  {
    hide HomeOf, PartFor;
  }

  lemma {:induction false} DomainGroupsGrow(cfg: Config, done: set<string>, user: string)
    requires user !in done
    ensures DomainGroups(cfg, done + {user}) == WithUser(DomainGroups(cfg, done), HomeOf(cfg, user), user)
  {
    hide HomeOf, PartFor;
    var groups, d := DomainGroups(cfg, done), HomeOf(cfg, user);
    var more := groups[d := (if d in groups then groups[d] else {}) + {user}];
    DomainsGrow(cfg, done, user);
    forall x | x in more ensures DomainGroups(cfg, done + {user})[x] == more[x] {
      PartGrows(cfg, done, user, x);
    }
  }

  function Restrict(groups: map<string, set<string>>, keys: set<string>): map<string, set<string>> {
    map d | d in groups && d in keys :: groups[d]
  }

  function RestrictUsers(groups: map<string, set<ConnectorUserId>>,
                         keys: set<string>): map<string, set<ConnectorUserId>> {
    map c | c in groups && c in keys :: groups[c]
  }

  lemma {:induction false} AllRestricted(groups: map<string, set<ConnectorUserId>>)
    ensures RestrictUsers(groups, groups.Keys) == groups
  {
  }

  lemma {:induction false} RestrictGrows(cfg: Config, m: Message, text: string, groups: map<string, set<string>>,
                                         done: set<string>, domain: string)
    requires domain in groups && domain !in done
    ensures PartEffects(cfg, m, text, Restrict(groups, done + {domain})) ==
            PartEffects(cfg, m, text, Restrict(groups, done)) +
            if domain == cfg.domain then {} else {PartEffect(cfg, m, text, domain, groups[domain])}
    ensures domain != cfg.domain ==>
            PartEffect(cfg, m, text, domain, groups[domain]) !in PartEffects(cfg, m, text, Restrict(groups, done))
  {
    var before, after := Restrict(groups, done), Restrict(groups, done + {domain});
    forall d | d in before && d != cfg.domain
      ensures PartEffect(cfg, m, text, d, before[d]) != PartEffect(cfg, m, text, domain, groups[domain])
    {
      PartTarget(cfg, m, text, d, before[d]);
      PartTarget(cfg, m, text, domain, groups[domain]);
    }
    var lhs, rhs := PartEffects(cfg, m, text, after), PartEffects(cfg, m, text, before);
    forall e | e in lhs
      ensures e in rhs || (domain != cfg.domain && e == PartEffect(cfg, m, text, domain, groups[domain]))
    {
      var d :| d in after && d != cfg.domain && e == PartEffect(cfg, m, text, d, after[d]);
      assert d != domain ==> d in before && before[d] == after[d];
    }
    forall e | e in rhs ensures e in lhs {
      var d :| d in before && d != cfg.domain && e == PartEffect(cfg, m, text, d, before[d]);
      assert d in after && after[d] == before[d];
    }
    assert domain in after && after[domain] == groups[domain];
  }

  /** A forwarded part says where it goes, to whom, and what. */
  lemma {:induction false} PartTarget(cfg: Config, m: Message, text: string, domain: string, users: set<string>)
    ensures var e := PartEffect(cfg, m, text, domain, users).message;
      && e.Type() == INTERNAL_MESSAGE
      && e.meta.target == Some(DomainOnly(domain))
      && e.content.data.inner.content.data == GroupMessage(users, text)
  {
  }

  lemma {:induction false} LocalIsNotPart(cfg: Config, channels: Channels, picks: Picks, m: Message, text: string,
                                          users: set<string>,
                                          groups: map<string, set<string>>)
    ensures LocalEffects(cfg, channels, picks, m, text, users) !! PartEffects(cfg, m, text, groups)
  {
    forall e | e in PartEffects(cfg, m, text, groups) ensures e !in LocalEffects(cfg, channels, picks, m, text, users) {
      var d :| d in groups && d != cfg.domain && e == PartEffect(cfg, m, text, d, groups[d]);
      PartTarget(cfg, m, text, d, groups[d]);
    }
  }

  lemma {:induction false} OnePart(cfg: Config, m: Message, text: string, domain: string, users: set<string>)
    requires domain != cfg.domain
    ensures PartEffect(cfg, m, text, domain, users) in PartEffects(cfg, m, text, map[domain := users])
  {
    var groups := map[domain := users];
    assert groups[domain] == users;
    assert PartEffect(cfg, m, text, domain, groups[domain]) in PartEffects(cfg, m, text, groups);
  }

  lemma {:induction false} MissIsNotConnector(m: Message, text: string, users: set<string>, groups: map<string,
                                              set<ConnectorUserId>>)
    ensures MissEffects(m, text, users) !! ConnectorEffects(m, text, groups)
    ensures multiset(MissEffects(m, text, users) + ConnectorEffects(m, text, groups)) ==
            multiset(MissEffects(m, text, users)) + multiset(ConnectorEffects(m, text, groups))
  {
    forall e | e in MissEffects(m, text, users) ensures e !in ConnectorEffects(m, text, groups) {
      assert e.message.Type() == MESSAGE;
    }
    DisjointUnion(MissEffects(m, text, users), ConnectorEffects(m, text, groups));
  }

  lemma {:induction false} DisjointUnion<T>(a: set<T>, b: set<T>)
    requires a !! b
    ensures multiset(a + b) == multiset(a) + multiset(b)
  {
  }

  /** The effects of the groups handled so far. */
  function GroupsDone(cfg: Config, channels: Channels, picks: Picks, m: Message, text: string,
                      groups: map<string, set<string>>, done: set<string>): set<Effect> {
    PartEffects(cfg, m, text, Restrict(groups, done)) +
    if cfg.domain in groups && cfg.domain in done then
       LocalEffects(cfg, channels, picks, m, text, groups[cfg.domain]) else {}
  }

  lemma {:induction false} NothingDone(cfg: Config, channels: Channels, picks: Picks, m: Message, text: string,
                                       groups: map<string, set<string>>)
    ensures GroupsDone(cfg, channels, picks, m, text, groups, {}) == {}
  {
    hide PartEffect, LocalEffects;
  }

  lemma {:induction false} GroupsDoneGrow(cfg: Config, channels: Channels, picks: Picks, m: Message, text: string,
                                          groups: map<string, set<string>>, done: set<string>, domain: string)
    requires domain in groups && domain !in done
    ensures multiset(GroupsDone(cfg, channels, picks, m, text, groups, done + {domain})) ==
            multiset(GroupsDone(cfg, channels, picks, m, text, groups, done)) +
            if domain == cfg.domain then multiset(LocalEffects(cfg, channels, picks, m, text, groups[domain]))
            else multiset{PartEffect(cfg, m, text, domain, groups[domain])}
  {
    hide PartEffects, LocalEffects, PartEffect, Restrict;
    RestrictGrows(cfg, m, text, groups, done, domain);
    var sofar := GroupsDone(cfg, channels, picks, m, text, groups, done);
    if domain == cfg.domain {
      LocalIsNotPart(cfg, channels, picks, m, text, groups[domain], Restrict(groups, done));
      DisjointUnion(sofar, LocalEffects(cfg, channels, picks, m, text, groups[domain]));
    } else {
      if cfg.domain in groups {
        LocalIsNotPart(cfg, channels, picks, m, text, groups[cfg.domain], map[domain := groups[domain]]);
        OnePart(cfg, m, text, domain, groups[domain]);
      }
      var part := {PartEffect(cfg, m, text, domain, groups[domain])};
      assert GroupsDone(cfg, channels, picks, m, text, groups, done + {domain}) == sofar + part;
      DisjointUnion(sofar, part);
    }
  }

  lemma {:induction false} GroupsTogether(cfg: Config, channels: Channels, picks: Picks, m: Message,
                                          users: set<string>, text: string,
                                          groups: map<string, set<string>>, done: set<string>)
    requires groups == DomainGroups(cfg, users) && done == groups.Keys
    ensures GroupsDone(cfg, channels, picks, m, text, groups, done) ==
            GroupEffects(cfg, channels, picks, m, users, text)
  {
    hide LocalEffects, PartEffects;
    assert Restrict(groups, done) == groups;
    var local := PartFor(cfg, users, cfg.domain);
    if cfg.domain !in groups {
      assert local == {};
      NobodyLocal(cfg, channels, picks, m, text);
    }
  }

  lemma {:induction false} NobodyLocal(cfg: Config, channels: Channels, picks: Picks, m: Message, text: string)
    ensures LocalEffects(cfg, channels, picks, m, text, {}) == {}
  {
    assert Chosen(cfg, channels, picks, {}) == {};
  }

  lemma {:induction false} MissedGrows(cfg: Config, channels: Channels, picks: Picks, m: Message, text: string,
                                       done: set<string>, user: string)
    requires user !in done
    ensures multiset(MissEffects(m, text, Missed(cfg, channels, picks, done + {user}))) ==
            multiset(MissEffects(m, text, Missed(cfg, channels, picks, done))) +
            if GroupTargets(cfg, channels, picks, user) == {} then multiset{MissEffect(m, text, user)} else multiset{}
  {
    var missed := Missed(cfg, channels, picks, done);
    if GroupTargets(cfg, channels, picks, user) == {} {
      assert Missed(cfg, channels, picks, done + {user}) == missed + {user};
      assert MissEffects(m, text, missed + {user}) == MissEffects(m, text, missed) + {MissEffect(m, text, user)};
      forall u | u in missed ensures MissEffect(m, text, u) != MissEffect(m, text, user) {
        assert MissEffect(m, text, u).message.to == u;
      }
      assert MissEffect(m, text, user) !in MissEffects(m, text, missed);
    } else {
      assert Missed(cfg, channels, picks, done + {user}) == missed;
    }
  }

  lemma {:induction false} ChosenGrows(cfg: Config, channels: Channels, picks: Picks, done: set<string>, user: string)
    ensures Chosen(cfg, channels, picks, done + {user}) ==
            Chosen(cfg, channels, picks, done) + set a | a in GroupTargets(cfg, channels, picks, user) :: (user, a)
  {
  }

  lemma {:induction false} ConnectorGroupsGrow(chosen: set<(string, Address)>, user: string, a: Address)
    ensures var groups, c, id := ConnectorGroups(chosen), ConnectorOf(a), ConnectorUserId(user, a.socketId);
      ConnectorGroups(chosen + {(user, a)}) == groups[c := (if c in groups then groups[c] else {}) + {id}]
  {
    var groups, c, id := ConnectorGroups(chosen), ConnectorOf(a), ConnectorUserId(user, a.socketId);
    var more := groups[c := (if c in groups then groups[c] else {}) + {id}];
    assert c !in groups ==> UsersAt(chosen, c) == {};
    assert ConnectorGroups(chosen + {(user, a)}).Keys == more.Keys;
    forall x | x in more ensures ConnectorGroups(chosen + {(user, a)})[x] == more[x] {
      assert UsersAt(chosen + {(user, a)}, x) == if x == c then UsersAt(chosen, x) + {id} else UsersAt(chosen, x);
    }
  }

  lemma {:induction false} ConnectorEffectsGrow(m: Message, text: string, groups: map<string, set<ConnectorUserId>>,
                                                done: set<string>, connector: string)
    requires connector in groups && connector !in done
    ensures multiset(ConnectorEffects(m, text, RestrictUsers(groups, done + {connector}))) ==
            multiset(ConnectorEffects(m, text, RestrictUsers(groups, done))) +
              multiset{ConnectorEffect(m, text, connector, groups[connector])}
  {
    var before, after := RestrictUsers(groups, done), RestrictUsers(groups, done + {connector});
    var e := ConnectorEffect(m, text, connector, groups[connector]);
    forall x | x in ConnectorEffects(m, text, after) ensures x in ConnectorEffects(m, text, before) + {e} {
      var c :| c in after && x == ConnectorEffect(m, text, c, after[c]);
      assert c != connector ==> c in before && before[c] == after[c];
    }
    forall x | x in ConnectorEffects(m, text, before) + {e} ensures x in ConnectorEffects(m, text, after) {
      if x == e {
        assert connector in after && after[connector] == groups[connector];
      } else {
        var c :| c in before && x == ConnectorEffect(m, text, c, before[c]);
        assert c in after && after[c] == before[c];
      }
    }
    assert ConnectorEffects(m, text, after) == ConnectorEffects(m, text, before) + {e};
    forall c | c in before ensures ConnectorEffect(m, text, c, before[c]) != e {
      assert ConnectorEffect(m, text, c, before[c]).message.to == c;
    }
    assert e !in ConnectorEffects(m, text, before);
  }

  lemma {:induction false} MissPerforms(cfg: Config, m: Message, text: string, user: string)
    requires HomeOf(cfg, user) == cfg.domain
    ensures Performs(cfg, MissEffect(m, text, user))
  {
    hide ResolveDomain, IsMasterUser;
  }

  lemma {:induction false} MissesPerform(cfg: Config, m: Message, text: string, users: set<string>)
    requires forall u :: u in users ==> HomeOf(cfg, u) == cfg.domain
    ensures AllPerform(cfg, multiset(MissEffects(m, text, users)))
  {
    hide Performs, HomeOf, MissEffect;
    forall u | u in users ensures Performs(cfg, MissEffect(m, text, u)) {
      MissPerforms(cfg, m, text, u);
    }
  }

  /** The groups handled so far are part of all. */
  lemma {:induction false} GroupsDonePart(cfg: Config, channels: Channels, picks: Picks, m: Message, text: string,
                                          groups: map<string, set<string>>, done: set<string>, more: set<string>)
    requires done <= more
    ensures multiset(GroupsDone(cfg, channels, picks, m, text, groups, done)) <=
            multiset(GroupsDone(cfg, channels, picks, m, text, groups, more))
  {
    hide LocalEffects, PartEffect;
    var part, all := Restrict(groups, done), Restrict(groups, more);
    forall e | e in PartEffects(cfg, m, text, part) ensures e in PartEffects(cfg, m, text, all) {
      var d :| d in part && d != cfg.domain && e == PartEffect(cfg, m, text, d, part[d]);
      assert d in all && all[d] == part[d];
    }
  }

  lemma {:induction false} ConnectorEffectsPart(m: Message, text: string, groups: map<string, set<ConnectorUserId>>,
                                                done: set<string>)
    ensures multiset(ConnectorEffects(m, text, RestrictUsers(groups, done))) <=
            multiset(ConnectorEffects(m, text, groups))
  {
    var part := RestrictUsers(groups, done);
    forall e | e in ConnectorEffects(m, text, part) ensures e in ConnectorEffects(m, text, groups) {
      var c :| c in part && e == ConnectorEffect(m, text, c, part[c]);
      assert c in groups && groups[c] == part[c];
    }
  }

  /** What handling a report begins with. */
  function FirstOfReport(msg: Message, state: MessageState): Effect {
    if state == AddressNotFound then RemoveFromChannel(msg.to, msg.meta.target) else Save(msg, state)
  }

  function RestOfReport(cfg: Config, channels: Channels, picks: Picks, msg: Message, state: MessageState):
    multiset<Effect>
  {
    if state == AddressNotFound then multiset{Post(msg)}
    else if LacksTarget(msg, state) then multiset{Fail}
    else if ConfirmationDue(cfg, msg, state) then
      Effects(cfg, channels, picks, Confirmation(msg, cfg.domain, cfg.processor, NEW_ID, NOW))
    else multiset{}
  }

  lemma {:induction false} StateChangedEffects(cfg: Config, channels: Channels, picks: Picks, m: Message, msg: Message,
                                               state: MessageState)
    requires m.content.data == MessageStateChanged(msg, state)
    ensures HandlerEffects(cfg, channels, picks, m) ==
            multiset{FirstOfReport(msg, state)} + RestOfReport(cfg, channels, picks, msg, state)
  {
    hide Effects, ConfirmationDue, LacksTarget;
    if state == AddressNotFound {
      var remove := RemoveFromChannel(msg.to, msg.meta.target);
      assert multiset{remove, Post(msg)} == multiset{remove} + multiset{Post(msg)};
    }
  }

  class MessageProcessorService {
    const cfg: Config
    const channels: Channels
    const picks: Picks
    var effects: multiset<Effect>

    constructor (cfg: Config, channels: Channels, picks: Picks)
      ensures this.cfg == cfg && this.channels == channels && this.picks == picks && effects == multiset{}
    {
      this.cfg, this.channels, this.picks, effects := cfg, channels, picks, multiset{};
    }

    /** `ok` is false when the call throws; here as in every method of this class. */
    method Perform(e: Effect) returns (ok: bool)
      modifies this`effects
      ensures ok <==> Performs(cfg, e)
      ensures effects == if ok then old(effects) + multiset{e} else old(effects)
      ensures Ran(cfg, old(effects), multiset{e}, effects, ok)
    {
      hide Performs, Ran;
      RanOne(cfg, effects, e);
      ok := Performs(cfg, e);
      if ok {
        effects := effects + multiset{e};
      }
    }

    /** `PostOffice.onMessageArrived`. What is saved after an exception is written here as it arrived. */
    method OnMessageArrived(m: Message) returns (ok: bool)
      modifies this`effects
      ensures ok <==> AllPerform(cfg, Effects(cfg, channels, picks, m))
      ensures ok ==> effects == old(effects) + Effects(cfg, channels, picks, m)
      ensures var saved := Save(m, ProcessorError);
        !ok ==> saved in effects && Ran(cfg, old(effects), Effects(cfg, channels, picks, m), effects - multiset{saved},
                                        false)
    {
      hide Effects, AllPerform;
      ok := Process(m);
      if !ok {
        ghost var aborted := effects;
        effects := effects + multiset{Save(m, ProcessorError)};
        assert effects - multiset{Save(m, ProcessorError)} == aborted;
      }
    }

    method Process(m: Message) returns (ok: bool)
      modifies this`effects
      ensures Ran(cfg, old(effects), Effects(cfg, channels, picks, m), effects, ok)
      decreases Rank(cfg, m), Ttl(m), 1
    {
      hide Effects, Decide, HandlerEffects, IsCurrentDomain, Rank, Preprocessed, Supported, EnvelopeFor, Ran;
      ProcessSplits(cfg, channels, picks, m);
      TouchedKeeps(cfg, m);
      var m1 := Touched(m);
      if !IsAlive(m1) || !Supported(m1.content.data) {
        RanNothing(cfg, effects);
        return true;
      }
      var m2 := Preprocessed(m1);
      if m2.Type() != INTERNAL_MESSAGE && !IsCurrentDomain(cfg, m2) {
        ok := ProcessCrossDomainMessage(m2);
        return;
      }
      ok := HandleMessage(m2);
    }

    method ProcessCrossDomainMessage(m: Message) returns (ok: bool)
      requires !IsCurrentDomain(cfg, m) && Preprocessed(m) == m
      modifies this`effects
      ensures m.Type() != INTERNAL_MESSAGE ==>
        Ran(cfg, old(effects), multiset{Post(EnvelopeFor(cfg, m))}, effects, ok)
      ensures m.Type() == INTERNAL_MESSAGE ==>
        Ran(cfg, old(effects), Effects(cfg, channels, picks, m), effects, ok)
      decreases Rank(cfg, m), Ttl(m), 2
    {
      hide Ran;
      if m.Type() == INTERNAL_MESSAGE {
        ok := Process(m);
        return;
      }
      EnvelopeIsForeign(cfg, m);
      ok := Process(Envelope(m, DomainOf(cfg, m), NEW_ID, NOW));
    }

    /** `doProcess` of the processor for the type. */
    method HandleMessage(m: Message) returns (ok: bool)
      requires Supported(m.content.data) && Preprocessed(m) == m
      requires m.Type() != INTERNAL_MESSAGE ==> IsCurrentDomain(cfg, m)
      modifies this`effects
      ensures m.Type() != INTERNAL_MESSAGE ==>
        Ran(cfg, old(effects), HandlerEffects(cfg, channels, picks, m), effects, ok)
      ensures m.Type() == INTERNAL_MESSAGE && IsCurrentDomain(cfg, m) ==>
        Ran(cfg, old(effects), Effects(cfg, channels, picks, m.content.data.inner), effects, ok)
      ensures m.Type() == INTERNAL_MESSAGE && !IsCurrentDomain(cfg, m) ==>
        Ran(cfg, old(effects), multiset{Post(m)}, effects, ok)
      decreases Rank(cfg, m), Ttl(m), 7
    {
      hide Ran, Performs, GroupEffects, NoticeEffects, IsCurrentDomain, Rank, Effects, PlainEffects, Preprocessed;
      match m.content.data
      case InternalMessage(inner) =>
        ok := ProcessInternal(m, inner);
      case GroupMessage(users, text) =>
        ok := ProcessGroupMessage(m, users, text);
      case MessageStateChanged(msg, state) =>
        ok := ProcessStateChanged(m, msg, state);
      case UserConnected(user) =>
        ok := ProcessNotice(m, user, AddToChannel(user, m.meta.original));
      case UserDisconnected(user) =>
        ok := ProcessNotice(m, user, RemoveFromChannel(user, m.meta.original));
      case MessageRequest(_, _) => ok := ProcessPlain(m);
      case MessageConfirmation(_) => ok := ProcessPlain(m);
      case CloseConnection(_) => ok := ProcessPlain(m);
      case AuthClient(_) => ok := ProcessPlain(m);
      case FetchMissingMessagesRequest(_) => ok := ProcessPlain(m);
    }

    method ProcessPlain(m: Message) returns (ok: bool)
      modifies this`effects
      ensures Ran(cfg, old(effects), PlainEffects(cfg, m), effects, ok)
    {
      hide Ran, Performs, Forwarded, CloseEffects;
      match m.content.data
      case MessageRequest(_, text) =>
        ok := Perform(Post(Forwarded(m, text)));
      case MessageConfirmation(_) =>
        ok := Perform(Post(m));
      case CloseConnection(userId) =>
        ok := ProcessClose(m, userId);
      case AuthClient(_) =>
        ok := Perform(Authenticate(m));
      case FetchMissingMessagesRequest(count) =>
        ok := Perform(Fetch(m.from, if count < MAX_COUNT then count else MAX_COUNT));
      case _ =>
        RanNothing(cfg, effects);
        ok := true;
    }

    method ProcessClose(m: Message, userId: string) returns (ok: bool)
      modifies this`effects
      ensures Ran(cfg, old(effects), CloseEffects(cfg, m, userId), effects, ok)
    {
      hide Ran, Performs, AppOfUser;
      var app := AppOfUser(cfg.apps, userId);
      if app.Some? && app.value.masterUserId == m.from {
        ok := Perform(Post(m.(content := m.content.(data := CloseConnection(""), feature := Reliable))));
      } else {
        RanNothing(cfg, effects);
        ok := true;
      }
    }

    /** `InternalMessageProcessor.doProcess`. */
    method ProcessInternal(m: Message, inner: Message) returns (ok: bool)
      requires m.content.data == InternalMessage(inner) && Preprocessed(m) == m
      modifies this`effects
      ensures Ran(cfg, old(effects),
                  if IsCurrentDomain(cfg, m) then Effects(cfg, channels, picks, inner) else multiset{Post(m)}, effects,
                  ok)
      decreases Rank(cfg, m), Ttl(m), 6
    {
      hide Ran, Effects, IsCurrentDomain;
      if IsCurrentDomain(cfg, m) {
        ok := Process(inner);
      } else {
        ok := Perform(Post(m));
      }
    }

    /** The address is removed, or the state saved, even when an exception follows. */
    method ProcessStateChanged(m: Message, msg: Message, state: MessageState) returns (ok: bool)
      requires m.content.data == MessageStateChanged(msg, state) && IsCurrentDomain(cfg, m) && Preprocessed(m) == m
      modifies this`effects
      ensures Ran(cfg, old(effects), HandlerEffects(cfg, channels, picks, m), effects, ok)
      ensures old(effects) + multiset{FirstOfReport(msg, state)} <= effects
      decreases Rank(cfg, m), Ttl(m), 5
    {
      var first := FirstOfReport(msg, state);
      ghost var before := effects;
      StateChangedEffects(cfg, channels, picks, m, msg, state);
      assert Performs(cfg, first);
      assert ConfirmationDue(cfg, msg, state) ==>
          Rank(cfg, Confirmation(msg, cfg.domain, cfg.processor, NEW_ID, NOW)) < Rank(cfg, m);
      hide *;
      ok := Perform(first);
      ghost var mid := effects;
      if state == AddressNotFound {
        ok := Perform(Post(msg));
      } else if LacksTarget(msg, state) {
        ok := Perform(Fail);
      } else if ConfirmationDue(cfg, msg, state) {
        ok := Process(Confirmation(msg, cfg.domain, cfg.processor, NEW_ID, NOW));
      } else {
        RanNothing(cfg, effects);
      }
      RanGrows(cfg, mid, RestOfReport(cfg, channels, picks, msg, state), effects, ok);
      RanThen(cfg, before, multiset{first}, mid, RestOfReport(cfg, channels, picks, msg, state), effects, ok);
    }

    /** The change of the channel is made even when passing the notice on throws. */
    method ProcessNotice(m: Message, user: string, change: Effect) returns (ok: bool)
      requires m.content.data.UserConnected? || m.content.data.UserDisconnected?
      requires IsCurrentDomain(cfg, m) && (change.AddToChannel? || change.RemoveFromChannel?)
      modifies this`effects
      ensures Ran(cfg, old(effects), NoticeEffects(cfg, channels, picks, m, user, change), effects, ok)
      ensures IsProcessorUser(m.to) && m.state == Created ==> old(effects) + multiset{change} <= effects
      decreases Rank(cfg, m), Ttl(m), 5
    {
      assert Performs(cfg, change);
      hide Effects, IsCurrentDomain, Rank, IsProcessorUser, MasterOf, Ran, Performs;
      if !IsProcessorUser(m.to) {
        ok := Perform(Post(m));
        return;
      }
      ghost var before := effects;
      ghost var first := if m.state == Created then multiset{change} else multiset{};
      RanNothing(cfg, before);
      ok := true;
      if m.state == Created {
        ok := Perform(change);
      }
      ghost var mid := effects;
      var master := MasterOf(cfg, user);
      if master.Some? {
        var notice := m.(to := master.value);
        NoticeRank(cfg, m, master.value);
        ok := Process(notice);
        RanGrows(cfg, mid, Effects(cfg, channels, picks, notice), effects, ok);
        RanThen(cfg, before, first, mid, Effects(cfg, channels, picks, notice), effects, ok);
      } else {
        assert first + multiset{} == first;
      }
    }

    // ---- CustomGroupMessageProcessor

    static method PutUser(groups: map<string, set<string>>, domain: string,
                          user: string) returns (more: map<string, set<string>>)
      ensures more == WithUser(groups, domain, user)
    {
      more := groups;
      if domain !in more {
        more := more[domain := {}];
      }
      more := more[domain := more[domain] + {user}];
    }

    method GroupByDomain(users: set<string>) returns (groups: map<string, set<string>>)
      ensures groups == DomainGroups(cfg, users)
    {
      hide *;
      groups := map[];
      var todo, done := users, {};
      NoDomainGroups(cfg);
      while todo != {}
        invariant todo !! done && todo + done == users
        invariant groups == DomainGroups(cfg, done)
        decreases |todo|
      {
        var user :| user in todo;
        groups := PutUser(groups, HomeOf(cfg, user), user);
        DomainGroupsGrow(cfg, done, user);
        todo, done := todo - {user}, done + {user};
      }
      assert done == users;
    }

    method ProcessGroupMessage(m: Message, users: set<string>, text: string) returns (ok: bool)
      requires m.content.data == GroupMessage(users, text) && IsCurrentDomain(cfg, m)
      modifies this`effects
      ensures Ran(cfg, old(effects), multiset(GroupEffects(cfg, channels, picks, m, users, text)), effects, ok)
      decreases Rank(cfg, m), Ttl(m), 6
    {
      hide *;
      var groups := GroupByDomain(users);
      GroupRank(cfg, channels, picks, m, users, text);
      ok := ProcessDomainGroups(groups, m, text);
      GroupsTogether(cfg, channels, picks, m, users, text, groups, groups.Keys);
    }

    /** The domains are taken in any order, until one of them throws. */
    method ProcessDomainGroups(groups: map<string, set<string>>, m: Message, text: string) returns (ok: bool)
      requires (forall d, u :: d in groups && u in groups[d] ==> HomeOf(cfg, u) == d) && Rank(cfg, m) >= 3
      modifies this`effects
      ensures Ran(cfg, old(effects), multiset(GroupsDone(cfg, channels, picks, m, text, groups, groups.Keys)), effects,
                  ok)
      decreases Rank(cfg, m), Ttl(m), 5
    {
      hide *;
      var todo, done := groups.Keys, {};
      NothingDone(cfg, channels, picks, m, text, groups);
      RanNothing(cfg, effects);
      assert multiset(GroupsDone(cfg, channels, picks, m, text, groups, done)) == multiset{};
      ok := true;
      while todo != {}
        invariant todo !! done && todo + done == groups.Keys && ok
        invariant Ran(cfg, old(effects), multiset(GroupsDone(cfg, channels, picks, m, text, groups, done)), effects, ok)
        decreases |todo|
      {
        var domain :| domain in todo;
        ok := ProcessGroup(domain, groups, m, text, old(effects), done);
        if !ok {
          RanStops(cfg, old(effects), multiset(GroupsDone(cfg, channels, picks, m, text, groups, done + {domain})),
                   multiset(GroupsDone(cfg, channels, picks, m, text, groups, groups.Keys)), effects);
          return;
        }
        todo, done := todo - {domain}, done + {domain};
      }
      assert done == groups.Keys;
    }

    /** The recipients of one domain, after those of the domains in `done`. */
    method ProcessGroup(domain: string, groups: map<string, set<string>>, m: Message, text: string,
                        ghost before: multiset<Effect>, ghost done: set<string>) returns (ok: bool)
      requires (forall d, u :: d in groups && u in groups[d] ==> HomeOf(cfg, u) == d) && Rank(cfg, m) >= 3
      requires domain in groups && domain !in done && done <= groups.Keys
      requires Ran(cfg, before, multiset(GroupsDone(cfg, channels, picks, m, text, groups, done)), effects, true)
      modifies this`effects
      ensures Ran(cfg, before, multiset(GroupsDone(cfg, channels, picks, m, text, groups, done +
                                                   {domain})), effects, ok)
      ensures multiset(GroupsDone(cfg, channels, picks, m, text, groups, done + {domain})) <=
              multiset(GroupsDone(cfg, channels, picks, m, text, groups, groups.Keys))
      decreases Rank(cfg, m), Ttl(m), 5, 0
    {
      hide *;
      ghost var mid := effects;
      ghost var sofar := multiset(GroupsDone(cfg, channels, picks, m, text, groups, done));
      GroupsDoneGrow(cfg, channels, picks, m, text, groups, done, domain);
      GroupsDonePart(cfg, channels, picks, m, text, groups, done + {domain}, groups.Keys);
      if domain == cfg.domain {
        ok := ProcessCurrentDomain(groups[domain], m, text);
        RanThen(cfg, before, sofar, mid, multiset(LocalEffects(cfg, channels, picks, m, text, groups[domain])), effects,
                ok);
      } else {
        ok := ProcessOtherDomain(domain, groups[domain], m, text);
        RanThen(cfg, before, sofar, mid, multiset{PartEffect(cfg, m, text, domain, groups[domain])}, effects, ok);
      }
    }

    method ProcessOtherDomain(domain: string, users: set<string>, m: Message, text: string) returns (ok: bool)
      requires domain != cfg.domain && Rank(cfg, m) >= 3
      modifies this`effects
      ensures Ran(cfg, old(effects), multiset{PartEffect(cfg, m, text, domain, users)}, effects, ok)
      decreases Rank(cfg, m), Ttl(m), 3
    {
      hide Ran;
      PartIsRouted(cfg, channels, picks, m, text, domain, users);
      ok := Process(GroupPart(m, text, domain, users, NEW_ID));
    }

    /** The recipient lives here, so that this does not throw. */
    method ProcessUserAddressNotFound(user: string, m: Message, text: string)
      requires HomeOf(cfg, user) == cfg.domain && Rank(cfg, m) >= 3
      modifies this`effects
      ensures effects == old(effects) + multiset{MissEffect(m, text, user)}
      decreases Rank(cfg, m), Ttl(m), 1
    {
      MissIsPosted(cfg, channels, picks, m, text, user);
      MissPerforms(cfg, m, text, user);
      hide Performs, MissEffect, HomeOf, Rank, Effects;
      var ok := Process(GroupMiss(m, text, user, NEW_ID, NOW));
      assert ok;
    }

    method GroupByConnector(users: set<string>, m: Message,
                            text: string) returns (groups: map<string, set<ConnectorUserId>>)
      requires (forall u :: u in users ==> HomeOf(cfg, u) == cfg.domain) && Rank(cfg, m) >= 3
      modifies this`effects
      ensures effects == old(effects) + multiset(MissEffects(m, text, Missed(cfg, channels, picks, users)))
      ensures groups == ConnectorGroups(Chosen(cfg, channels, picks, users))
      decreases Rank(cfg, m), Ttl(m), 3
    {
      hide *;
      groups := map[];
      var todo, done := users, {};
      NothingGrouped(cfg, channels, picks, m, text);
      while todo != {}
        invariant todo !! done && todo + done == users
        invariant effects == old(effects) + multiset(MissEffects(m, text, Missed(cfg, channels, picks, done)))
        invariant groups == ConnectorGroups(Chosen(cfg, channels, picks, done))
        decreases |todo|
      {
        var user :| user in todo;
        MissedGrows(cfg, channels, picks, m, text, done, user);
        groups := GroupUser(user, m, text, done, groups);
        todo, done := todo - {user}, done + {user};
      }
      assert done == users;
    }

    /** Adds the addresses of one recipient, or reports that there are none. */
    method GroupUser(user: string, m: Message, text: string, ghost done: set<string>, groups: map<string,
                     set<ConnectorUserId>>)
      returns (more: map<string, set<ConnectorUserId>>)
      requires HomeOf(cfg, user) == cfg.domain && Rank(cfg, m) >= 3
      requires groups == ConnectorGroups(Chosen(cfg, channels, picks, done))
      modifies this`effects
      ensures more == ConnectorGroups(Chosen(cfg, channels, picks, done + {user}))
      ensures effects ==
              old(effects) + if GroupTargets(cfg, channels, picks, user) == {} then
                multiset{MissEffect(m, text, user)} else multiset{}
      decreases Rank(cfg, m), Ttl(m), 2
    {
      hide *;
      var addresses := GroupTargets(cfg, channels, picks, user);
      if addresses == {} {
        ProcessUserAddressNotFound(user, m, text);
      }
      more := AddAddresses(user, addresses, Chosen(cfg, channels, picks, done), groups);
      ChosenGrows(cfg, channels, picks, done, user);
    }

    method AddAddresses(user: string, addresses: set<Address>, ghost chosen: set<(string, Address)>,
                        groups: map<string, set<ConnectorUserId>>)
      returns (more: map<string, set<ConnectorUserId>>)
      requires groups == ConnectorGroups(chosen)
      ensures more == ConnectorGroups(chosen + set a | a in addresses :: (user, a))
    {
      hide ConnectorGroups, ConnectorOf;
      more := groups;
      var todo := addresses;
      ghost var sofar := chosen;
      while todo != {}
        invariant todo <= addresses && sofar == chosen + set a | a in addresses && a !in todo :: (user, a)
        invariant more == ConnectorGroups(sofar)
        decreases |todo|
      {
        var a :| a in todo;
        var connector := ConnectorOf(a);
        ConnectorGroupsGrow(sofar, user, a);
        if connector !in more {
          more := more[connector := {}];
        }
        more := more[connector := more[connector] + {ConnectorUserId(user, a.socketId)}];
        todo, sofar := todo - {a}, sofar + {(user, a)};
      }
      assert sofar == chosen + set a | a in addresses :: (user, a);
    }

    method ProcessCurrentDomain(users: set<string>, m: Message, text: string) returns (ok: bool)
      requires (forall u :: u in users ==> HomeOf(cfg, u) == cfg.domain) && Rank(cfg, m) >= 3
      modifies this`effects
      ensures Ran(cfg, old(effects), multiset(LocalEffects(cfg, channels, picks, m, text, users)), effects, ok)
      decreases Rank(cfg, m), Ttl(m), 4
    {
      ghost var missed := Missed(cfg, channels, picks, users);
      assert missed <= users;
      hide MissEffects, Missed, ConnectorEffects, Chosen, ConnectorGroups, HomeOf, Ran, AllPerform;
      var groups := GroupByConnector(users, m, text);
      MissesPerform(cfg, m, text, missed);
      RanAll(cfg, old(effects), multiset(MissEffects(m, text, missed)));
      ghost var mid := effects;
      ok := ProcessConnectorGroups(groups, m, text);
      MissIsNotConnector(m, text, missed, groups);
      RanThen(cfg, old(effects), multiset(MissEffects(m, text, missed)), mid,
              multiset(ConnectorEffects(m, text, groups)), effects, ok);
    }

    method ProcessConnectorGroups(groups: map<string, set<ConnectorUserId>>, m: Message, text: string)
      returns (ok: bool)
      modifies this`effects
      ensures Ran(cfg, old(effects), multiset(ConnectorEffects(m, text, groups)), effects, ok)
    {
      hide *;
      var todo, done := groups.Keys, {};
      NothingGrouped(cfg, channels, picks, m, text);
      RanNothing(cfg, effects);
      assert multiset(ConnectorEffects(m, text, RestrictUsers(groups, done))) == multiset{};
      ok := true;
      while todo != {}
        invariant todo !! done && todo + done == groups.Keys && ok
        invariant Ran(cfg, old(effects), multiset(ConnectorEffects(m, text, RestrictUsers(groups, done))), effects, ok)
        decreases |todo|
      {
        var connector :| connector in todo;
        var e := ConnectorEffect(m, text, connector, groups[connector]);
        ghost var mid, sofar := effects, multiset(ConnectorEffects(m, text, RestrictUsers(groups, done)));
        ConnectorEffectsGrow(m, text, groups, done, connector);
        ok := Perform(e);
        RanThen(cfg, old(effects), sofar, mid, multiset{e}, effects, ok);
        if !ok {
          ConnectorEffectsPart(m, text, groups, done + {connector});
          RanStops(cfg, old(effects), sofar + multiset{e}, multiset(ConnectorEffects(m, text, groups)), effects);
          return;
        }
        todo, done := todo - {connector}, done + {connector};
      }
      AllRestricted(groups);
    }
  }
}
