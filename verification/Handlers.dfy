/** What the processor makes of each kind of message, told field by field: which messages go to the post
office, with which sender, recipient, content and meta, and what else happens. */
module Handlers {
  import opened Types
  import opened Names
  import opened ClientApps
  import opened Messages
  import opened PostOffices
  import opened Dispatch
  import opened Routing

  /** The domain that has to handle a message with this meta for this user. */
  function HandledBy(cfg: Config, meta: Meta, user: string): string {
    if IsBlank(user) then cfg.domain
    else if meta.target.Some? then meta.target.value.domain
    else ResolveDomain(cfg.apps, cfg.domain, user)
  }

  /** The message for this user, one TTL unit older. */
  function Older(m: Message, user: string): Message {
    Message(m.id, m.content, m.from, user,
            Meta(m.meta.original, m.meta.target, m.meta.ttl - 1, m.meta.confirmEnabled, m.meta.deliveryType),
            m.createdAt, m.state)
  }

  /** A new envelope on its way to `domain`. */
  function NewEnvelope(m: Message, domain: string): Message {
    Message(NEW_ID, Content(InternalMessage(m), "", m.content.feature, true), m.from, m.to,
            Meta(m.meta.original, Some(Address(domain, None, -1)), 9, false, All), NOW, Created)
  }

  /** The user a message is for: a request and a command to close name the user in their data. */
  function UserOf(m: Message): string {
    match m.content.data
    case MessageRequest(to, _) => to
    case CloseConnection(userId) => userId
    case _ => m.to
  }

  predicate HasHandler(data: Payload) {
    || data.MessageRequest? || data.MessageConfirmation? || data.GroupMessage? || data.MessageStateChanged?
    || data.UserConnected? || data.UserDisconnected? || data.AuthClient? || data.CloseConnection?
    || data.FetchMissingMessagesRequest?
  }

  lemma {:induction false} OlderIsPreprocessed(m: Message)
    requires !m.content.data.InternalMessage?
    ensures Preprocessed(Touched(m)) == Older(m, UserOf(m))
  {
  }

  lemma {:induction false} HandledByDomainOf(cfg: Config, m: Message)
    ensures IsCurrentDomain(cfg, m) <==> HandledBy(cfg, m.meta, m.to) == cfg.domain
    ensures !IsBlank(m.to) ==> DomainOf(cfg, m) == HandledBy(cfg, m.meta, m.to)
  {
  }

  /** A message that is used up, or for which there is no handler, has no effect. */
  lemma {:induction false} NothingHappens(cfg: Config, channels: Channels, picks: Picks, m: Message)
    requires m.meta.ttl <= 1 || !(HasHandler(m.content.data) || m.content.data.InternalMessage?)
    ensures Effects(cfg, channels, picks, m) == multiset{}
  {
    hide IsCurrentDomain, Preprocessed;
    PreprocessedKeeps(Touched(m));
    DecideSplits(cfg, m);
    SameVerdictSameEffects(cfg, channels, picks, m);
  }

  /** A message for another domain leaves in one new envelope for that domain, addressed to its user. */
  lemma {:induction false} ForeignLeaves(cfg: Config, channels: Channels, picks: Picks, m: Message)
    requires m.meta.ttl >= 2 && HasHandler(m.content.data)
    requires HandledBy(cfg, m.meta, UserOf(m)) != cfg.domain
    ensures Effects(cfg, channels, picks, m) ==
            multiset{Post(NewEnvelope(Older(m, UserOf(m)), HandledBy(cfg, m.meta, UserOf(m))))}
  {
    var m2 := Older(m, UserOf(m));
    OlderIsPreprocessed(m);
    HandledByDomainOf(cfg, m2);
    hide IsCurrentDomain, Preprocessed, HandlerEffects, ResolveDomain;
    ProcessSplits(cfg, channels, picks, m);
    hide Effects;
    assert EnvelopeFor(cfg, m2) == NewEnvelope(m2, HandledBy(cfg, m2.meta, m2.to));
  }

  lemma {:induction false} HereIsHandled(cfg: Config, channels: Channels, picks: Picks, m: Message)
    requires m.meta.ttl >= 2 && HasHandler(m.content.data)
    requires HandledBy(cfg, m.meta, UserOf(m)) == cfg.domain
    ensures Effects(cfg, channels, picks, m) == HandlerEffects(cfg, channels, picks, Older(m, UserOf(m)))
  {
    var m2 := Older(m, UserOf(m));
    OlderIsPreprocessed(m);
    HandledByDomainOf(cfg, m2);
    hide IsCurrentDomain, Preprocessed, HandlerEffects, ResolveDomain, HandledBy;
    ProcessSplits(cfg, channels, picks, m);
    hide Effects;
  }

  /** A request: the text goes to the user it names, in the sender's name, to be confirmed if it carries a
  reference and allows it. */
  lemma {:induction false} RequestIsPosted(cfg: Config, channels: Channels, picks: Picks, m: Message, to: string,
                                           text: string)
    requires m.content.data == MessageRequest(to, text) && m.meta.ttl >= 2
    requires HandledBy(cfg, m.meta, to) == cfg.domain
    ensures var c := m.content;
      Effects(cfg, channels, picks, m) ==
      multiset{Post(Message(m.id, Content(MessageForward(m.from, text), c.reference, c.feature, c.confirmationEnabled),
                            m.from, to,
                            Meta(m.meta.original, m.meta.target, m.meta.ttl - 1,
                                 c.confirmationEnabled && !IsBlank(c.reference), m.meta.deliveryType),
                            m.createdAt, m.state))}
  {
    hide HandledBy;
    HereIsHandled(cfg, channels, picks, m);
    hide Effects;
  }

  /** A confirmation goes to its recipient as it is. */
  lemma {:induction false} ConfirmationIsPosted(cfg: Config, channels: Channels, picks: Picks, m: Message)
    requires m.content.data.MessageConfirmation? && m.meta.ttl >= 2 && HandledBy(cfg, m.meta, m.to) == cfg.domain
    ensures Effects(cfg, channels, picks, m) == multiset{Post(Older(m, m.to))}
  {
    hide HandledBy;
    HereIsHandled(cfg, channels, picks, m);
    hide Effects;
  }

  /** Only the master of a user's app has the user's connections closed, reliably. */
  lemma {:induction false} CloseIsForMasters(cfg: Config, channels: Channels, picks: Picks, m: Message, app: string,
                                             number: string, user: string)
    requires m.content.data == CloseConnection(user) && m.meta.ttl >= 2 && HandledBy(cfg, m.meta, user) == cfg.domain
    requires !IsBlank(app) && NoDash(app) && number != "" && NoDash(number) && ParseLong(number).Some?
    requires user == app + "-" + number
    ensures Effects(cfg, channels, picks, m) ==
      if app in cfg.apps && cfg.apps[app].masterUserId == m.from then
        multiset{Post(Older(m, user).(content := Content(CloseConnection(""), m.content.reference, Reliable,
                                                         m.content.confirmationEnabled)))}
      else multiset{}
  {
    ParseOfPair(app, number);
    hide HandledBy, Parse, ParseLong;
    HereIsHandled(cfg, channels, picks, m);
    hide Effects;
  }

  lemma {:induction false} CloseOfStrangerDoesNothing(cfg: Config, channels: Channels, picks: Picks, m: Message,
                                                      user: string)
    requires m.content.data == CloseConnection(user) && m.meta.ttl >= 2 && HandledBy(cfg, m.meta, user) == cfg.domain
    requires AppOfUser(cfg.apps, user) == None
    ensures Effects(cfg, channels, picks, m) == multiset{}
  {
    hide HandledBy, AppOfUser;
    HereIsHandled(cfg, channels, picks, m);
    hide Effects;
  }

  /** A request to fetch reads the sender's rows, at most 2000 of them; it throws if it asks for none. */
  lemma {:induction false} FetchIsForSender(cfg: Config, channels: Channels, picks: Picks, m: Message, count: int)
    requires m.content.data == FetchMissingMessagesRequest(count) && m.meta.ttl >= 2
    requires HandledBy(cfg, m.meta, m.to) == cfg.domain
    ensures Effects(cfg, channels, picks, m) == multiset{Fetch(m.from, if count <= 2000 then count else 2000)}
    ensures AllPerform(cfg, Effects(cfg, channels, picks, m)) <==> count >= 1
  {
    hide HandledBy;
    HereIsHandled(cfg, channels, picks, m);
    hide Effects;
    var fetch := Fetch(m.from, if count <= 2000 then count else 2000);
    assert fetch in multiset{fetch};
  }

  lemma {:induction false} AuthIsChecked(cfg: Config, channels: Channels, picks: Picks, m: Message)
    requires m.content.data.AuthClient? && m.meta.ttl >= 2 && HandledBy(cfg, m.meta, m.to) == cfg.domain
    ensures Effects(cfg, channels, picks, m) == multiset{Authenticate(Older(m, m.to))}
  {
    hide HandledBy;
    HereIsHandled(cfg, channels, picks, m);
    hide Effects;
  }

  /** An envelope without a user of its own is for the user of what it holds. For this domain it is opened,
  for another one passed on. */
  lemma {:induction false} EnvelopeIsOpenedOrPassedOn(cfg: Config, channels: Channels, picks: Picks, m: Message,
                                                      inner: Message)
    requires m.content.data == InternalMessage(inner) && m.meta.ttl >= 2
    ensures var user := if IsBlank(m.to) then inner.to else m.to;
      Effects(cfg, channels, picks, m) ==
      if HandledBy(cfg, m.meta, user) == cfg.domain then Effects(cfg, channels, picks, inner)
      else multiset{Post(Older(m, user))}
  {
    var user := if IsBlank(m.to) then inner.to else m.to;
    var m2 := Preprocessed(Touched(m));
    assert m2 == Older(m, user);
    HandledByDomainOf(cfg, m2);
    hide IsCurrentDomain, Preprocessed, HandlerEffects, ResolveDomain, HandledBy, EnvelopeFor;
    ProcessSplits(cfg, channels, picks, m);
    hide Effects;
  }

  // ---- reports

  /** A success to be confirmed: a user's message, written in this domain, whose sender gave a reference and
  allows a confirmation. */
  predicate WantsConfirmation(cfg: Config, m: Message) {
    && (m.content.data.MessageRequest? || m.content.data.MessageForward?)
    && m.meta.target.Some? && m.meta.target.value.domain == cfg.domain
    && !IsBlank(m.content.reference) && m.content.confirmationEnabled
  }

  /** The confirmation, as it comes out of its own processing. */
  function NewConfirmation(cfg: Config, m: Message): Message {
    Message(NEW_ID, Content(MessageConfirmation(m.content.reference), "", Reliable, true), SYSTEM, m.from,
            Meta(Some(Address(cfg.domain, Some(cfg.processor), -1)), None, 9, false, All), NOW, Created)
  }

  predicate IsReport(cfg: Config, m: Message, msg: Message, state: MessageState) {
    && m.content.data == MessageStateChanged(msg, state) && m.meta.ttl >= 2
    && HandledBy(cfg, m.meta, m.to) == cfg.domain
  }

  lemma {:induction false} DueIsWanted(cfg: Config, msg: Message, state: MessageState)
    ensures ConfirmationDue(cfg, msg, state) <==> state == Processed && WantsConfirmation(cfg, msg)
  {
  }

  /** Success is noted, and confirmed to the sender, wherever the sender lives. */
  lemma {:induction false} SuccessIsConfirmed(cfg: Config, channels: Channels, picks: Picks, m: Message, msg: Message)
    requires IsReport(cfg, m, msg, Processed) && WantsConfirmation(cfg, msg)
    ensures var c := NewConfirmation(cfg, msg);
      var home := HandledBy(cfg, c.meta, c.to);
      Effects(cfg, channels, picks, m) ==
      multiset{Save(msg, Processed), Post(if home == cfg.domain then c else NewEnvelope(c, home))}
  {
    DueIsWanted(cfg, msg, Processed);
    HereIsHandled(cfg, channels, picks, m);
    ConfirmationIsHanded(cfg, channels, picks, msg);
    ConfirmationInFields(cfg, msg);
    hide Effects, ConfirmationHanded, HandledBy, ConfirmationDue;
    var confirmed := Effects(cfg, channels, picks, Confirmation(msg, cfg.domain, cfg.processor, NEW_ID, NOW));
    assert HandlerEffects(cfg, channels, picks, Older(m, UserOf(m))) == multiset{Save(msg, Processed)} + confirmed;
  }

  lemma {:induction false} ConfirmationInFields(cfg: Config, msg: Message)
    ensures var c := NewConfirmation(cfg, msg);
      var home := HandledBy(cfg, c.meta, c.to);
      ConfirmationHanded(cfg, msg, NEW_ID, NEW_ID, NOW) == if home == cfg.domain then c else NewEnvelope(c, home)
  {
    var c := NewConfirmation(cfg, msg);
    HandledByDomainOf(cfg, c);
    hide ResolveDomain;
    assert c == Touched(Confirmation(msg, cfg.domain, cfg.processor, NEW_ID, NOW));
  }

  /** Any other report that is no not-found is only noted. */
  lemma {:induction false} OthersAreNoted(cfg: Config, channels: Channels, picks: Picks, m: Message, msg: Message,
                                          state: MessageState)
    requires IsReport(cfg, m, msg, state) && state != AddressNotFound
    requires state != Processed || (msg.meta.target.Some? && !WantsConfirmation(cfg, msg))
    ensures Effects(cfg, channels, picks, m) == multiset{Save(msg, state)}
  {
    DueIsWanted(cfg, msg, state);
    HereIsHandled(cfg, channels, picks, m);
    hide Effects, HandledBy, ConfirmationDue, WantsConfirmation;
    assert multiset{Save(msg, state)} + multiset{} == multiset{Save(msg, state)};
  }

  /** The handler does not expect a success about a user's message without a target: it throws, after noting it. */
  lemma {:induction false} SuccessWithoutTargetThrows(cfg: Config, channels: Channels, picks: Picks, m: Message,
                                                      msg: Message)
    requires IsReport(cfg, m, msg, Processed) && msg.meta.target.None?
    requires msg.content.data.MessageRequest? || msg.content.data.MessageForward?
    ensures Save(msg, Processed) in Effects(cfg, channels, picks, m)
    ensures !AllPerform(cfg, Effects(cfg, channels, picks, m))
  {
    HereIsHandled(cfg, channels, picks, m);
    hide Effects, HandledBy;
    assert Fail in HandlerEffects(cfg, channels, picks, Older(m, UserOf(m)));
  }

  // ---- notices

  /** A notice for the processor, as it reaches it: `change` is what it says about the channel. */
  predicate IsNoticeAbout(cfg: Config, m: Message, user: string, change: Effect) {
    && m.meta.ttl >= 3 && IsProcessorUser(m.to) && HandledBy(cfg, m.meta, m.to) == cfg.domain
    && ((m.content.data == UserConnected(user) && change == AddToChannel(user, m.meta.original)) ||
        (m.content.data == UserDisconnected(user) && change == RemoveFromChannel(user, m.meta.original)))
  }

  /** A user that is nobody's, or is the master itself, or whose app has no master: the change is all. */
  lemma {:induction false} NoticeWithoutMaster(cfg: Config, channels: Channels, picks: Picks, m: Message, user: string,
                                               change: Effect)
    requires IsNoticeAbout(cfg, m, user, change)
    requires var app := AppOfUser(cfg.apps, user);
      app.None? || app.value.masterUserId == user || app.value.masterUserId == ""
    ensures Effects(cfg, channels, picks, m) == if m.state == Created then multiset{change} else multiset{}
  {
    hide AppOfUser, IsProcessorUser, HandledBy;
    HereIsHandled(cfg, channels, picks, m);
    hide Effects;
    assert multiset{change} + multiset{} == multiset{change};
  }

  /** A notice that is new changes the channel; the master of the app is told, where the master lives. */
  lemma {:induction false} NoticeReachesMaster(cfg: Config, channels: Channels, picks: Picks, m: Message, app: string,
                                               number: string, user: string, change: Effect)
    requires IsNoticeAbout(cfg, m, user, change) && user == app + "-" + number
    requires !IsBlank(app) && NoDash(app) && number != "" && NoDash(number) && ParseLong(number).Some?
    requires app in cfg.apps && cfg.apps[app].masterUserId != user && cfg.apps[app].masterUserId != ""
    requires !IsProcessorUser(cfg.apps[app].masterUserId)
    ensures var master := cfg.apps[app].masterUserId;
      var home := HandledBy(cfg, m.meta, master);
      var notice := Older(Older(m, m.to), master);
      Effects(cfg, channels, picks, m) ==
      (if m.state == Created then multiset{change} else multiset{}) +
      multiset{Post(if home == cfg.domain then notice else NewEnvelope(notice, home))}
  {
    var master := cfg.apps[app].masterUserId;
    var told := Older(m, m.to).(to := master);
    hide IsProcessorUser, HandledBy, IsBlank, NoDash, ParseLong, Effects;
    MasterOfUser(cfg, app, number);
    HereIsHandled(cfg, channels, picks, m);
    MasterIsTold(cfg, channels, picks, Older(m, m.to), user, change, master);
    NoticeIsTold(cfg, channels, picks, told);
    assert Older(told, told.to) == Older(Older(m, m.to), master);
    hide Older, MasterOf, HandlerEffects, NewEnvelope;
  }

  lemma {:induction false} MasterIsTold(cfg: Config, channels: Channels, picks: Picks, m: Message, user: string,
                                        change: Effect, master: string)
    requires IsProcessorUser(m.to) && MasterOf(cfg, user) == Some(master)
    requires (m.content.data == UserConnected(user) && change == AddToChannel(user, m.meta.original)) ||
             (m.content.data == UserDisconnected(user) && change == RemoveFromChannel(user, m.meta.original))
    ensures HandlerEffects(cfg, channels, picks, m) ==
            (if m.state == Created then multiset{change} else multiset{}) +
              Effects(cfg, channels, picks, m.(to := master))
  {
    hide IsProcessorUser, MasterOf, Effects;
  }

  lemma {:induction false} MasterOfUser(cfg: Config, app: string, number: string)
    requires !IsBlank(app) && NoDash(app) && number != "" && NoDash(number) && ParseLong(number).Some?
    requires app in cfg.apps
    ensures var master := cfg.apps[app].masterUserId;
      MasterOf(cfg, app + "-" + number) ==
      if master != app + "-" + number && master != "" then Some(master) else None
  {
    ParseOfPair(app, number);
    hide ParseLong, Parse;
  }

  /** A notice for anybody else is only passed on. */
  lemma {:induction false} NoticeIsTold(cfg: Config, channels: Channels, picks: Picks, m: Message)
    requires m.content.data.UserConnected? || m.content.data.UserDisconnected?
    requires m.meta.ttl >= 2 && !IsProcessorUser(m.to)
    ensures var home := HandledBy(cfg, m.meta, m.to);
      Effects(cfg, channels, picks, m) ==
      multiset{Post(if home == cfg.domain then Older(m, m.to) else NewEnvelope(Older(m, m.to), home))}
  {
    hide HandledBy, IsProcessorUser;
    if HandledBy(cfg, m.meta, m.to) == cfg.domain {
      HereIsHandled(cfg, channels, picks, m);
    } else {
      ForeignLeaves(cfg, channels, picks, m);
    }
    hide Effects;
  }

  // ---- what a group message sends

  /** A group message for this domain is split among its recipients. */
  lemma {:induction false} GroupIsSplit(cfg: Config, channels: Channels, picks: Picks, m: Message, users: set<string>,
                                        text: string)
    requires m.content.data == GroupMessage(users, text) && m.meta.ttl >= 2
    requires HandledBy(cfg, m.meta, m.to) == cfg.domain
    ensures Effects(cfg, channels, picks, m) ==
            multiset(GroupEffects(cfg, channels, picks, Older(m, m.to), users, text))
  {
    hide HandledBy, GroupEffects;
    HereIsHandled(cfg, channels, picks, m);
    hide Effects;
  }

  /** The part for another domain: a group message in the sender's name for its users, to that processor. */
  lemma {:induction false} PartInFields(cfg: Config, m: Message, text: string, domain: string, users: set<string>)
    requires domain != cfg.domain
    ensures var part := Message(NEW_ID, Content(GroupMessage(users, text), "", m.content.feature, true), m.from,
                                "Processor", Meta(m.meta.original, Some(Address(domain, None, -1)), 9, false, All),
                                m.createdAt, Created);
      PartEffect(cfg, m, text, domain, users) == Post(NewEnvelope(part, domain))
  {
  }

  /** The message for a local user without any address: never to be confirmed. */
  lemma {:induction false} MissInFields(m: Message, text: string, user: string)
    ensures MissEffect(m, text, user) ==
            Post(Message(NEW_ID, Content(MessageForward(m.from, text), m.content.reference, m.content.feature, false),
                         m.from, user, Meta(m.meta.original, None, 9, false, All), NOW, Created))
  {
  }

  /** The message for a connector. */
  lemma {:induction false} ConnectorMessageInFields(m: Message, text: string, connector: string,
                                                    users: set<ConnectorUserId>)
    ensures ConnectorEffect(m, text, connector, users) ==
            Post(Message(NEW_ID, Content(GroupConnectorMessage(users, MessageForward(m.from, text)),
                                         m.content.reference, m.content.feature, false),
                         m.from, connector, Meta(m.meta.original, None, 10, false, All), NOW, Created))
  {
  }

  /** What the connector makes out of it for one socket. */
  lemma {:induction false} ChildInFields(m: Message, text: string, users: set<ConnectorUserId>, domain: string,
                                         connector: string, id: ConnectorUserId)
    ensures var group := GroupForConnector(m, text, connector, users, NEW_ID, NOW);
      GroupChild(group, MessageForward(m.from, text), domain, connector, id, NEW_ID, NOW) ==
      Message(NEW_ID, Content(MessageForward(m.from, text), m.content.reference, m.content.feature, true), m.from,
              id.userId, Meta(m.meta.original, Some(Address(domain, Some(connector), id.socketId)), 10, false, All),
              NOW, Created)
  {
  }

  /** What a tunnel brings is wrapped for processing: for the inner user, with a fresh meta. */
  lemma {:induction false} WrapperInFields(inner: Message, id: nat, now: int)
    ensures Wrapper(inner, id, now) ==
            Message(id, Content(InternalMessage(inner), "", inner.content.feature, true), inner.from, inner.to,
                    Meta(inner.meta.original, None, 10, false, All), now, Created)
  {
  }
}
