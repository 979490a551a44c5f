/** Reliable messages across domains.

Every domain runs the delivery protocol of its own. A tunnel is a session under the user id of the
neighbour that holds its other end: what is written to its socket arrives there and is processed. */
module Networks {
  import opened Types
  import opened Names
  import opened ClientApps
  import opened Bags
  import opened Messages
  import opened PostOffices
  import opened Delivery
  import opened NoLoss
  import Quiescence
  import opened DomainGraphs
  import opened Dispatch
  import opened Travel

  type Worlds = map<string, World>

  /** `Local` is a step inside one domain, `Cross` a write to the socket of a tunnel together with the
  arrival at its other end, `Submit` a message that comes from a connector. */
  datatype NetStep =
    | Local(domain: string, step: Step)
    | Cross(domain: string, copy: Message, next: string, id: nat, now: int, pick: Address)
    | Submit(domain: string, m: Message, id: nat, now: int, pick: Address)

  /** The home forwards the text of a request, and a confirmation as it is. */
  function HandedAtHome(h: Message): Message {
    if h.content.data.MessageRequest? then Forwarded(h, h.content.data.text) else h
  }

  /** What processing hands to the post office: the envelope that goes on, the forwarded request or the
  confirmation. What other handlers do is left to further local steps. */
  function HandedOver(cfg: Config, m: Message): Option<Message> {
    match Decide(cfg, m)
    case Route(e) => Some(e)
    case Handle(h) =>
      if h.content.data.MessageRequest? || h.content.data.MessageConfirmation? then Some(HandedAtHome(h)) else None
    case _ => None
  }

  /** The same for a message from a connector; an envelope put around it gets an id of its own. */
  function SubmittedAs(cfg: Config, m: Message, id: nat, now: int): Option<Message> {
    var handed := HandedOver(cfg, m);
    if handed.Some? && handed.value.Type() == INTERNAL_MESSAGE then
       Some(handed.value.(id := id, createdAt := now)) else handed
  }

  predicate IsTunnelCopy(net: Network, copy: Message) {
    copy.Type() == INTERNAL_MESSAGE && exists n :: n in net.graph.domains && DomainUserId(n) == copy.to
  }

  predicate KnowsDomain(net: Network, ws: Worlds, d: string) {
    d in net.graph.domains && d in net.domains && d in ws
  }

  predicate CanAccept(cfg: Config, w: World, m: Option<Message>, pick: Address) {
    m.Some? ==> Enabled(cfg, w, Accept(m.value, pick))
  }

  function Accepted(cfg: Config, w: World, m: Option<Message>, pick: Address): World {
    if m.Some? then After(cfg, w, Accept(m.value, pick)) else w
  }

  /** What arrives through a tunnel. */
  function Arrival(step: NetStep): Message
    requires step.Cross?
  {
    Wrapper(Inner(step.copy), step.id, step.now)
  }

  predicate NetEnabled(net: Network, ws: Worlds, step: NetStep) {
    KnowsDomain(net, ws, step.domain) &&
    var cfg, w := net.domains[step.domain], ws[step.domain];
    match step
    case Local(_, s) => Enabled(cfg, w, s) &&
      !(s.Receive? && s.success && SessionOf(s.copy) in w.live && IsTunnelCopy(net, s.copy))
    case Cross(d, copy, n, _, _, pick) =>
      && Enabled(cfg, w, Receive(copy, true)) && SessionOf(copy) in w.live
      && copy.Type() == INTERNAL_MESSAGE && KnowsDomain(net, ws, n) && n != d && DomainUserId(n) == copy.to
      && CanAccept(net.domains[n], ws[n], HandedOver(net.domains[n], Arrival(step)), pick)
    case Submit(_, m, id, now, pick) => CanAccept(cfg, w, SubmittedAs(cfg, m, id, now), pick)
  }

  function NetAfter(net: Network, ws: Worlds, step: NetStep): Worlds
    requires NetEnabled(net, ws, step)
  {
    var cfg, w := net.domains[step.domain], ws[step.domain];
    match step
    case Local(d, s) => ws[d := After(cfg, w, s)]
    case Cross(d, copy, n, _, _, pick) =>
      ws[d := After(cfg, w, Receive(copy, true))]
        [n := Accepted(net.domains[n], ws[n], HandedOver(net.domains[n], Arrival(step)), pick)]
    case Submit(d, m, id, now, pick) => ws[d := Accepted(cfg, w, SubmittedAs(cfg, m, id, now), pick)]
  }

  ghost predicate IsNetRun(net: Network, runs: seq<Worlds>, steps: seq<NetStep>) {
    && |runs| == |steps| + 1
    && forall i :: 0 <= i < |steps| ==>
       NetEnabled(net, runs[i], steps[i]) && runs[i + 1] == NetAfter(net, runs[i], steps[i])
  }

  ghost predicate WorldOk(cfg: Config, w: World) {
    Inv(cfg, w) && WritesKnown(w)
  }

  ghost predicate NetOk(net: Network, ws: Worlds) {
    forall d :: d in net.graph.domains ==> d in net.domains && d in ws && WorldOk(net.domains[d], ws[d])
  }

  // ---- one message on its way

  /** A reliable request or confirmation, newly made, for a user whose home the ranges fix. */
  predicate IsBound(apps: Apps, m: Message, home: string) {
    && IsUserMessage(apps, m, home) && m.meta.ttl == INITIAL_TTL && m.IsReliable()
    && (m.content.data.MessageRequest? || m.content.data.MessageConfirmation?)
  }

  /** The domain knows the message as the envelope of the message, for the next domain on its way. */
  ghost predicate OnWay(net: Network, d: string, e: Message, m: Message, home: string) {
    && d in net.domains && d != home && net.graph.Reachable(d, home) && home in net.domains[d].hops
    && e.content.data == InternalMessage(Traveller(m)) && e.IsReliable() && e.meta.deliveryType == Any
    && e.to == DomainUserId(net.domains[d].hops[home])
  }

  /** The home knows the message as the forwarded request, or as the confirmation. */
  predicate IsHome(e: Message, m: Message) {
    && e.IsReliable()
    && match m.content.data
       case MessageRequest(to, text) => e.content.data == MessageForward(m.from, text) && e.to == to
       case MessageConfirmation(_) => e.content.data == m.content.data && e.to == m.to
       case _ => false
  }

  /** `d` is answerable for the message: it has accounted for it under `id` and, unless it is the home, has
  not passed it on. */
  ghost predicate Holder(net: Network, ws: Worlds, m: Message, home: string, d: string, id: nat) {
    && d in net.graph.domains && d in ws && id in ws[d].accepted && Accounted(ws[d], id)
    && if d == home then id == m.id && IsHome(ws[d].accepted[id], m)
       else OnWay(net, d, ws[d].accepted[id], m, home) && Sum(WriteOfId(id), ws[d].writes) == 0
  }

  ghost predicate IsHeld(net: Network, ws: Worlds, m: Message, home: string) {
    exists d, id :: Holder(net, ws, m, home, d, id)
  }

  /** A fetch of the message or its envelope sends it before the row is removed. */
  predicate FetchIsSafe(net: Network, ws: Worlds, step: NetStep, m: Message, home: string) {
    step.Local? && step.step.FetchOne? && step.domain in net.domains && step.domain in ws ==>
      var row := step.step.row;
      (if step.domain == home then row.id == m.id else row.content.data == InternalMessage(Traveller(m))) ==>
        Reached(net.domains[step.domain], ws[step.domain].node.channels, Adjusted(net.domains[step.domain], row),
                step.step.pick, step.step.failed) != {}
  }

  // ---- accepting it

  lemma {:induction false} AcceptKeepsOk(cfg: Config, w: World, m: Message, pick: Address)
    requires WorldOk(cfg, w) && Enabled(cfg, w, Accept(m, pick))
    ensures WorldOk(cfg, After(cfg, w, Accept(m, pick)))
  {
    hide Inv, WritesKnown, Enabled, After;
    StepKeepsInv(cfg, w, Accept(m, pick));
    StepKeepsWritesKnown(cfg, w, Accept(m, pick));
  }

  /** The world has just taken on `m`: it is accounted for and has not been written yet. */
  ghost predicate Took(cfg: Config, w: World, m: Message) {
    && Addressed(cfg, m).Some? && m.id in w.accepted && w.accepted[m.id] == Canon(cfg, Addressed(cfg, m).value)
    && Accounted(w, m.id) && Sum(WriteOfId(m.id), w.writes) == 0
  }

  lemma {:induction false} NewIsUnknown(w: World, id: nat)
    requires WritesKnown(w) && id !in w.accepted
    ensures Accounted(w, id) && Sum(WriteOfId(id), w.writes) == 0
  {
    SumZero(WriteOfId(id), w.writes);
  }

  lemma {:induction false} AcceptTakes(cfg: Config, w: World, m: Message, pick: Address)
    requires WorldOk(cfg, w) && Enabled(cfg, w, Accept(m, pick)) && Addressed(cfg, m).Some?
    ensures Took(cfg, After(cfg, w, Accept(m, pick)), m)
  {
    var step := Accept(m, pick);
    NewIsUnknown(w, m.id);
    AddressedIsStable(cfg, m, AddressNotFound);
    assert After(cfg, w, step).accepted[m.id] == Canon(cfg, Addressed(cfg, m).value);
    assert After(cfg, w, step).writes == w.writes;
    hide Inv, Enabled, After, Addressed, Canon, Tokens, Accounted;
    StepAccounts(cfg, w, step, m.id);
  }

  /** The step that handles a report of success takes on the confirmation. */
  lemma {:induction false} SettleTakes(cfg: Config, w: World, r: Report, pick: Address, ids: FreshIds)
    requires WorldOk(cfg, w) && Enabled(cfg, w, Settle(r, pick, ids)) && ConfirmationDue(cfg, r.msg, r.state)
    requires Addressed(cfg, ConfirmationHanded(cfg, r.msg, ids.id, ids.envelopeId, ids.now)).Some?
    ensures Took(cfg, After(cfg, w, Settle(r, pick, ids)),
                 ConfirmationHanded(cfg, r.msg, ids.id, ids.envelopeId, ids.now))
  {
    var c, w1 := ConfirmationHanded(cfg, r.msg, ids.id, ids.envelopeId, ids.now),
                 After(cfg, w, Settle(r, pick, ids));
    hide ConfirmationHanded, Inv, Addressed, Canon, Accounted, Tokens, ConfirmationDue;
    assert r.state == Processed by { DueIsProcessed(cfg, r.msg, r.state); }
    NewIsUnknown(w, c.id);
    AddressedIsStable(cfg, c, AddressNotFound);
    assert w1.writes == w.writes && c.id in w1.accepted && w1.accepted[c.id] == Canon(cfg, Addressed(cfg, c).value);
    hide Enabled, After;
    StepAccounts(cfg, w, Settle(r, pick, ids), c.id);
  }

  lemma {:induction false} DueIsProcessed(cfg: Config, m: Message, state: MessageState)
    requires ConfirmationDue(cfg, m, state)
    ensures state == Processed
  {
  }

  lemma {:induction false} EnvelopeIsOnWay(net: Network, d: string, e: Message, m: Message, home: string)
    requires Good(net) && d in net.graph.domains && net.graph.Reachable(d, home) && d != home
    requires e.Type() == INTERNAL_MESSAGE && !IsBlank(e.to) && DomainOf(net.domains[d], e) == home
    requires Inner(e) == Traveller(m) && e.IsReliable()
    ensures Addressed(net.domains[d], e).Some?
    ensures OnWay(net, d, Canon(net.domains[d], Addressed(net.domains[d], e).value), m, home)
  {
    hide *;
    RouteIsKnown(net, d, home);
    EnvelopeGoesNext(net, d, e, home);
    AddressedKeepsContent(net.domains[d], e);
    EnvelopeGoesToAny(net.domains[d], Addressed(net.domains[d], e).value);
    CarriesTraveller(net, d, e, Canon(net.domains[d], Addressed(net.domains[d], e).value), m, home);
  }

  lemma {:induction false} CarriesTraveller(net: Network, d: string, e: Message, known: Message, m: Message,
                                            home: string)
    requires e.Type() == INTERNAL_MESSAGE && Inner(e) == Traveller(m) && e.IsReliable()
    requires d in net.domains && d != home && net.graph.Reachable(d, home) && home in net.domains[d].hops
    requires known.content == e.content && known.meta.deliveryType == Any
    requires known.to == DomainUserId(net.domains[d].hops[home])
    ensures OnWay(net, d, known, m, home)
  {
    hide Traveller, DomainUserId;
  }

  lemma {:induction false} RouteIsKnown(net: Network, d: string, home: string)
    requires Good(net) && d in net.graph.domains && net.graph.Reachable(d, home)
    ensures d in net.domains && home in net.domains[d].hops
  {
    assert DomainOk(net, d);
  }

  lemma {:induction false} AddressedKeepsContent(cfg: Config, e: Message)
    requires Addressed(cfg, e).Some?
    ensures Addressed(cfg, e).value.content == e.content && Addressed(cfg, e).value.id == e.id
    ensures e.Type() == INTERNAL_MESSAGE <==> e.content.data.InternalMessage?
  {
    AddressedIsStable(cfg, e, AddressNotFound);
    hide Addressed;
  }

  lemma {:induction false} EnvelopeGoesToAny(cfg: Config, e: Message)
    requires e.content.data.InternalMessage?
    ensures Canon(cfg, e).meta.deliveryType == Any && Canon(cfg, e).to == e.to && Canon(cfg, e).content == e.content
  {
  }

  /** A domain that takes the envelope on becomes its holder. */
  lemma {:induction false} EnvelopeIsHeld(net: Network, ws: Worlds, d: string, e: Message, m: Message, home: string)
    requires Good(net) && d in net.graph.domains && net.graph.Reachable(d, home) && d != home
    requires e.Type() == INTERNAL_MESSAGE && !IsBlank(e.to) && DomainOf(net.domains[d], e) == home
    requires Inner(e) == Traveller(m) && e.IsReliable()
    requires d in ws && Took(net.domains[d], ws[d], e)
    ensures Holder(net, ws, m, home, d, e.id)
  {
    EnvelopeIsOnWay(net, d, e, m, home);
    hide Good, OnWay, Addressed, Canon, DomainOf, Accounted, Traveller;
  }

  lemma {:induction false} AcceptedEnvelopeIsHeld(net: Network, ws: Worlds, d: string, e: Message, m: Message,
                                                  home: string, pick: Address)
    requires Good(net) && NetOk(net, ws) && d in net.graph.domains && net.graph.Reachable(d, home) && d != home
    requires e.Type() == INTERNAL_MESSAGE && !IsBlank(e.to) && DomainOf(net.domains[d], e) == home
    requires Inner(e) == Traveller(m) && e.IsReliable()
    requires Enabled(net.domains[d], ws[d], Accept(e, pick))
    ensures Holder(net, ws[d := After(net.domains[d], ws[d], Accept(e, pick))], m, home, d, e.id)
  {
    assert WorldOk(net.domains[d], ws[d]);
    hide *;
    EnvelopeIsOnWay(net, d, e, m, home);
    AcceptTakes(net.domains[d], ws[d], e, pick);
    EnvelopeIsHeld(net, ws[d := After(net.domains[d], ws[d], Accept(e, pick))], d, e, m, home);
  }

  /** The home becomes the holder of the message itself. */
  lemma {:induction false} MessageIsHeld(net: Network, ws: Worlds, m: Message, home: string, handled: Message)
    requires Good(net) && home in net.graph.domains && IsBound(net.apps, m, home)
    requires handled == Traveller(m) || handled == Touched(Traveller(m))
    requires home in ws && Took(net.domains[home], ws[home], HandedAtHome(handled))
    ensures Holder(net, ws, m, home, home, m.id)
  {
    StaysHome(net, m, home, handled);
    hide Good, Addressed, Canon, Accounted, Traveller, HandedAtHome, IsBound, IsHome;
  }

  lemma {:induction false} AcceptedMessageIsHeld(net: Network, ws: Worlds, m: Message, home: string, handled: Message,
                                                 pick: Address)
    requires Good(net) && NetOk(net, ws) && home in net.graph.domains && IsBound(net.apps, m, home)
    requires handled == Traveller(m) || handled == Touched(Traveller(m))
    requires Enabled(net.domains[home], ws[home], Accept(HandedAtHome(handled), pick))
    ensures Holder(net, ws[home := After(net.domains[home], ws[home], Accept(HandedAtHome(handled), pick))], m, home,
                   home, m.id)
  {
    assert WorldOk(net.domains[home], ws[home]);
    hide *;
    StaysHome(net, m, home, handled);
    AcceptTakes(net.domains[home], ws[home], HandedAtHome(handled), pick);
    MessageIsHeld(net, ws[home := After(net.domains[home], ws[home], Accept(HandedAtHome(handled), pick))], m, home,
                  handled);
  }

  lemma {:induction false} StaysHome(net: Network, m: Message, home: string, handled: Message)
    requires Good(net) && home in net.graph.domains && IsBound(net.apps, m, home)
    requires handled == Traveller(m) || handled == Touched(Traveller(m))
    ensures var cfg, p := net.domains[home], HandedAtHome(handled);
      && p.id == m.id && Addressed(cfg, p).Some? && IsHome(Canon(cfg, Addressed(cfg, p).value), m)
  {
    assert DomainOk(net, home);
    var cfg, p := net.domains[home], HandedAtHome(handled);
    assert p.meta.target == None && p.to == Preprocessed(m).to && p.id == m.id;
    assert HomeDomain(net.apps, p.to) == Some(home);
    hide HomeDomain, IsMasterUser;
  }

  /** Submitting a request makes the domain its holder. */
  lemma {:induction false} SubmitIsHeld(net: Network, ws: Worlds, step: NetStep, home: string)
    requires Good(net) && NetOk(net, ws) && step.Submit? && NetEnabled(net, ws, step)
    requires IsBound(net.apps, step.m, home) && net.graph.Reachable(step.domain, home)
    ensures IsHeld(net, NetAfter(net, ws, step), step.m, home)
    ensures var taken := SubmittedAs(net.domains[step.domain], step.m, step.id, step.now);
      taken.Some? && Holder(net, NetAfter(net, ws, step), step.m, home, step.domain, taken.value.id)
  {
    var d, m := step.domain, step.m;
    var cfg, ws1 := net.domains[d], NetAfter(net, ws, step);
    SubmittedMessage(net, d, m, home, step.id, step.now);
    hide Good, NetOk, IsBound, SubmittedAs, Enabled, After, Traveller, HandedAtHome, EnvelopeFor, Holder,
         DomainOf, Inner;
    if d == home {
      AcceptedMessageIsHeld(net, ws, m, home, Traveller(m), step.pick);
      WitnessHolder(net, ws1, m, home, home, m.id);
    } else {
      var e := EnvelopeFor(cfg, Traveller(m)).(id := step.id, createdAt := step.now);
      AcceptedEnvelopeIsHeld(net, ws, d, e, m, home, step.pick);
      WitnessHolder(net, ws1, m, home, d, e.id);
    }
  }

  lemma {:induction false} SubmittedMessage(net: Network, d: string, m: Message, home: string, id: nat, now: int)
    requires Good(net) && d in net.graph.domains && d in net.domains && IsBound(net.apps, m, home)
    ensures var cfg, e := net.domains[d], EnvelopeFor(net.domains[d], Traveller(m)).(id := id, createdAt := now);
      && SubmittedAs(cfg, m, id, now) == Some(if d == home then HandedAtHome(Traveller(m)) else e)
      && e.Type() == INTERNAL_MESSAGE && !IsBlank(e.to) && DomainOf(cfg, e) == home && Inner(e) == Traveller(m) &&
         e.IsReliable()
  {
    assert DomainOk(net, d);
    var cfg := net.domains[d];
    UserMessageStarts(cfg, m, home);
    SameDomain(cfg, EnvelopeFor(cfg, Traveller(m)), EnvelopeFor(cfg, Traveller(m)).(id := id, createdAt := now));
    hide Good, Decide, DomainOf, HomeDomain;
    if d == home {
      HandsOverMessage(cfg, m, m, Traveller(m));
    }
  }

  lemma {:induction false} SameDomain(cfg: Config, e: Message, e1: Message)
    requires e1.to == e.to && e1.meta == e.meta
    ensures DomainOf(cfg, e1) == DomainOf(cfg, e)
  {
  }

  /** What comes out of a tunnel is held by the domain at its end. */
  lemma {:induction false} ArrivalIsHeld(net: Network, ws: Worlds, n: string, m: Message, home: string, id: nat,
                                         now: int, pick: Address)
    requires Good(net) && NetOk(net, ws) && n in net.graph.domains && net.graph.Reachable(n, home)
    requires IsBound(net.apps, m, home)
    requires CanAccept(net.domains[n], ws[n], HandedOver(net.domains[n], Wrapper(Traveller(m), id, now)), pick)
    ensures var handed := HandedOver(net.domains[n], Wrapper(Traveller(m), id, now));
      handed.Some? &&
      Holder(net, ws[n := Accepted(net.domains[n], ws[n], handed, pick)], m, home, n, handed.value.id)
  {
    var cfg, w := net.domains[n], Wrapper(Traveller(m), id, now);
    assert DomainOk(net, n);
    UserMessageGoesOn(cfg, m, home, id, now);
    if n == home {
      var handled := Touched(Traveller(m));
      HandsOverMessage(cfg, m, w, handled);
      AcceptedMessageIsHeld(net, ws, m, home, handled, pick);
      assert Holder(net, ws[n := Accepted(cfg, ws[n], HandedOver(cfg, w), pick)], m, home, home, m.id);
    } else {
      assert HandedOver(cfg, w) == Some(Touched(w));
      assert Touched(w).IsReliable();
      AcceptedEnvelopeIsHeld(net, ws, n, Touched(w), m, home, pick);
      assert Holder(net, ws[n := Accepted(cfg, ws[n], HandedOver(cfg, w), pick)], m, home, n, id);
    }
  }

  lemma {:induction false} HandsOverMessage(cfg: Config, m: Message, w: Message, handled: Message)
    requires m.content.data.MessageRequest? || m.content.data.MessageConfirmation?
    requires handled.content == m.content && Decide(cfg, w) == Handle(handled)
    ensures HandedOver(cfg, w) == Some(HandedAtHome(handled))
  {
    hide Decide, Forwarded;
  }

  // ---- one step

  /** A step inside the holder's domain that does not write the envelope to a tunnel. */
  lemma {:induction false} HolderStays(net: Network, ws: Worlds, d: string, step: Step, m: Message, home: string,
                                       id: nat)
    requires NetOk(net, ws) && Holder(net, ws, m, home, d, id) && d in net.domains
    requires Enabled(net.domains[d], ws[d], step) && FetchGoesOut(net.domains[d], ws[d], step, id)
    requires d == home || !(step.Receive? && step.success && SessionOf(step.copy) in ws[d].live && step.copy.id == id)
    ensures Holder(net, ws[d := After(net.domains[d], ws[d], step)], m, home, d, id)
  {
    var cfg, w := net.domains[d], ws[d];
    assert WorldOk(cfg, w);
    hide Inv, WritesKnown, Accounted, OnWay, IsHome, FetchGoesOut;
    StepAccounts(cfg, w, step, id);
    StepGrowsAccepted(cfg, w, step);
    UnwrittenStays(cfg, w, step, id);
  }

  lemma {:induction false} UnwrittenStays(cfg: Config, w: World, step: Step, id: nat)
    requires Enabled(cfg, w, step)
    ensures !(step.Receive? && step.success && SessionOf(step.copy) in w.live && step.copy.id == id) ==>
      Sum(WriteOfId(id), After(cfg, w, step).writes) == Sum(WriteOfId(id), w.writes)
  {
    hide Sum;
    StepGrowsAccepted(cfg, w, step);
    if step.Receive? {
      SumAdd(WriteOfId(id), w.writes, WriteOf(step.copy));
    }
  }

  /** A copy or row under the holder's id is the message or its envelope. */
  lemma {:induction false} HolderKnows(net: Network, ws: Worlds, m: Message, home: string, d: string, id: nat,
                                       p: Message)
    requires Holder(net, ws, m, home, d, id) && d in net.domains
    requires p.id == id && SameMessage(net.domains[d], ws[d].accepted, p)
    ensures d == home || (p.content.data == InternalMessage(Traveller(m)) &&
                          p.to == DomainUserId(net.domains[d].hops[home]))
  {
    hide Accounted, Traveller, DomainUserId, IsMasterUser;
  }

  lemma {:induction false} WorldsAreOk(net: Network, ws: Worlds, step: NetStep)
    requires NetOk(net, ws) && NetEnabled(net, ws, step)
    ensures NetOk(net, NetAfter(net, ws, step))
  {
    hide Inv, WritesKnown, Enabled, After, HandedOver, IsTunnelCopy, SubmittedAs, DomainUserId;
    var cfg, w := net.domains[step.domain], ws[step.domain];
    assert WorldOk(cfg, w);
    match step
    case Local(_, s) =>
      StepKeepsInv(cfg, w, s);
      StepKeepsWritesKnown(cfg, w, s);
    case Cross(_, copy, n, _, _, pick) =>
      StepKeepsInv(cfg, w, Receive(copy, true));
      StepKeepsWritesKnown(cfg, w, Receive(copy, true));
      AcceptedIsOk(net.domains[n], ws[n], HandedOver(net.domains[n], Arrival(step)), pick);
    case Submit(_, m, id, now, pick) =>
      AcceptedIsOk(cfg, w, SubmittedAs(cfg, m, id, now), pick);
  }

  lemma {:induction false} AcceptedIsOk(cfg: Config, w: World, m: Option<Message>, pick: Address)
    requires WorldOk(cfg, w) && CanAccept(cfg, w, m, pick)
    ensures WorldOk(cfg, Accepted(cfg, w, m, pick))
  {
    hide Inv, WritesKnown, Enabled, After;
    if m.Some? {
      AcceptKeepsOk(cfg, w, m.value, pick);
    }
  }

  /** What happens elsewhere does not concern the holder. */
  lemma {:induction false} HolderElsewhere(net: Network, ws: Worlds, ws1: Worlds, m: Message, home: string, d: string,
                                           id: nat)
    requires Holder(net, ws, m, home, d, id) && d in ws1 && ws1[d] == ws[d]
    ensures Holder(net, ws1, m, home, d, id)
  {
    hide Accounted, OnWay, IsHome;
  }

  lemma {:induction false} HolderAccepts(net: Network, ws: Worlds, d: string, handed: Option<Message>, pick: Address,
                                         m: Message, home: string, id: nat)
    requires NetOk(net, ws) && Holder(net, ws, m, home, d, id) && d in net.domains
    requires d in ws && CanAccept(net.domains[d], ws[d], handed, pick)
    ensures Holder(net, ws[d := Accepted(net.domains[d], ws[d], handed, pick)], m, home, d, id)
  {
    hide NetOk, Holder, Enabled, After;
    if handed.Some? {
      HolderStays(net, ws, d, Accept(handed.value, pick), m, home, id);
    } else {
      HolderElsewhere(net, ws, ws[d := Accepted(net.domains[d], ws[d], handed, pick)], m, home, d, id);
    }
  }

  lemma {:induction false} HolderSeesLocal(net: Network, ws: Worlds, step: NetStep, m: Message, home: string, d: string,
                                          id: nat)
    requires NetOk(net, ws) && step.Local? && NetEnabled(net, ws, step) && FetchIsSafe(net, ws, step, m, home)
    requires Holder(net, ws, m, home, d, id) && Good(net)
    ensures Holder(net, NetAfter(net, ws, step), m, home, d, id)
  {
    var ws1, s := NetAfter(net, ws, step), step.step;
    if step.domain != d {
      HolderElsewhere(net, ws, ws1, m, home, d, id);
    } else {
      OwnFetchIsSafe(net, ws, step, m, home, d, id);
      OwnWriteIsNoTunnel(net, ws, step, m, home, d, id);
      hide Good, NetOk, Holder, FetchIsSafe, FetchGoesOut, After, Enabled, IsTunnelCopy;
      HolderStays(net, ws, d, s, m, home, id);
    }
  }

  lemma {:induction false} WitnessHolder(net: Network, ws: Worlds, m: Message, home: string, d: string, id: nat)
    requires Holder(net, ws, m, home, d, id)
    ensures IsHeld(net, ws, m, home)
  {
    hide Holder;
  }

  lemma {:induction false} RowIsKnown(cfg: Config, w: World, row: Message, pick: Address, failed: set<Address>)
    requires Inv(cfg, w) && Enabled(cfg, w, FetchOne(row, pick, failed))
    ensures SameMessage(cfg, w.accepted, row)
  {
    assert RowOk(cfg, w.accepted, row.id, row);
    hide Inv;
  }

  lemma {:induction false} CopyIsAccepted(cfg: Config, w: World, copy: Message)
    requires Inv(cfg, w) && copy in w.node.net
    ensures SameMessage(cfg, w.accepted, copy)
  {
    assert PacketOk(cfg, w.born, w.accepted, copy);
    hide Inv;
  }

  /** A fetch does not lose the message at its holder. */
  lemma {:induction false} OwnFetchIsSafe(net: Network, ws: Worlds, step: NetStep, m: Message, home: string, d: string,
                                          id: nat)
    requires NetOk(net, ws) && step.Local? && NetEnabled(net, ws, step) && FetchIsSafe(net, ws, step, m, home)
    requires Holder(net, ws, m, home, d, id) && step.domain == d
    ensures d in net.domains && FetchGoesOut(net.domains[d], ws[d], step.step, id)
  {
    var cfg, w, s := net.domains[d], ws[d], step.step;
    assert WorldOk(cfg, w);
    if s.FetchOne? && s.row.id == id {
      hide Inv, Traveller, Reached, Adjusted, SameMessage, WritesKnown, Accounted;
      RowIsKnown(cfg, w, s.row, s.pick, s.failed);
      HolderKnows(net, ws, m, home, d, id, s.row);
    }
  }

  /** A local step does not write the envelope to a tunnel. */
  lemma {:induction false} OwnWriteIsNoTunnel(net: Network, ws: Worlds, step: NetStep, m: Message, home: string,
                                              d: string, id: nat)
    requires NetOk(net, ws) && step.Local? && NetEnabled(net, ws, step)
    requires Holder(net, ws, m, home, d, id) && step.domain == d && Good(net) && d in net.domains
    ensures d == home || !(step.step.Receive? && step.step.success && SessionOf(step.step.copy) in ws[d].live &&
                           step.step.copy.id == id)
  {
    var cfg, w, s := net.domains[d], ws[d], step.step;
    assert WorldOk(cfg, w);
    if s.Receive? && s.copy.id == id && d != home {
      hide Inv, Good, Traveller, SameMessage, WritesKnown, Accounted, DomainUserId, IsNextHop;
      CopyIsAccepted(cfg, w, s.copy);
      HolderKnows(net, ws, m, home, d, id, s.copy);
      NextIsDomain(net, d, home);
      assert s.copy.Type() == INTERNAL_MESSAGE && IsTunnelCopy(net, s.copy);
    }
  }

  lemma {:induction false} NextIsDomain(net: Network, d: string, home: string)
    requires Good(net) && d in net.graph.domains && d in net.domains && d != home && home in net.domains[d].hops
    ensures net.domains[d].hops[home] in net.graph.domains && IsNextHop(net.graph, d, home, net.domains[d].hops[home])
    ensures net.graph.Reachable(net.domains[d].hops[home], home)
  {
    assert DomainOk(net, d);
    NextHopIsDomain(net.graph, d, home, net.domains[d].hops[home]);
    HopsGetNearer(net.graph, d, home, net.domains[d].hops[home]);
  }

  /** The holder's envelope is written to the tunnel it was meant for. */
  lemma {:induction false} WrittenToNext(net: Network, ws: Worlds, step: NetStep, m: Message, home: string, d: string,
                                         id: nat)
    requires NetOk(net, ws) && Good(net) && step.Cross? && NetEnabled(net, ws, step)
    requires Holder(net, ws, m, home, d, id) && step.domain == d && d != home && step.copy.id == id
    ensures Inner(step.copy) == Traveller(m) && step.next in net.graph.domains && net.graph.Reachable(step.next, home)
  {
    CrossingParts(net, ws, step);
    HolderWorld(net, ws, m, home, d, id);
    hide *;
    CopyIsAccepted(net.domains[d], ws[d], step.copy);
    HolderKnows(net, ws, m, home, d, id, step.copy);
    NextIsDomain(net, d, home);
    SameUserSameDomain(net, step.next, net.domains[d].hops[home]);
    InnerOf(step.copy, Traveller(m));
  }

  lemma {:induction false} InnerOf(p: Message, inner: Message)
    requires p.content.data == InternalMessage(inner)
    ensures Inner(p) == inner
  {
  }

  lemma {:induction false} SameUserSameDomain(net: Network, a: string, b: string)
    requires Good(net) && a in net.graph.domains && b in net.graph.domains && DomainUserId(a) == DomainUserId(b)
    ensures a == b
  {
    hide DomainUserId;
  }

  lemma {:induction false} CrossingParts(net: Network, ws: Worlds, step: NetStep)
    requires step.Cross? && NetEnabled(net, ws, step)
    ensures KnowsDomain(net, ws, step.domain) && KnowsDomain(net, ws, step.next) && step.next != step.domain
    ensures step.domain in net.domains && step.domain in ws && step.next in net.domains && step.next in ws
    ensures step.next in net.graph.domains
    ensures step.copy in ws[step.domain].node.net && DomainUserId(step.next) == step.copy.to
    ensures SessionOf(step.copy) in ws[step.domain].live
    ensures Enabled(net.domains[step.domain], ws[step.domain], Receive(step.copy, true))
    ensures CanAccept(net.domains[step.next], ws[step.next], HandedOver(net.domains[step.next], Arrival(step)),
                      step.pick)
    ensures var ws0 := ws[step.domain := After(net.domains[step.domain], ws[step.domain], Receive(step.copy, true))];
      ws0[step.next] == ws[step.next] && NetAfter(net, ws, step) ==
      ws0[step.next := Accepted(net.domains[step.next], ws0[step.next],
                                HandedOver(net.domains[step.next], Arrival(step)), step.pick)]
  {
    hide HandedOver, After, DomainUserId, CanAccept, Accepted;
  }

  lemma {:induction false} HolderWorld(net: Network, ws: Worlds, m: Message, home: string, d: string, id: nat)
    requires NetOk(net, ws) && Holder(net, ws, m, home, d, id)
    ensures d in net.graph.domains && d in ws && d in net.domains && Inv(net.domains[d], ws[d])
    ensures d != home ==> home in net.domains[d].hops
  {
    assert WorldOk(net.domains[d], ws[d]);
    hide Inv, Accounted, Traveller;
  }

  lemma {:induction false} OneWorldOk(net: Network, ws: Worlds, d: string, step: Step)
    requires NetOk(net, ws) && KnowsDomain(net, ws, d)
    requires d in net.domains && d in ws && Enabled(net.domains[d], ws[d], step)
    ensures NetOk(net, ws[d := After(net.domains[d], ws[d], step)])
  {
    assert WorldOk(net.domains[d], ws[d]);
    hide Inv, WritesKnown, Enabled, After;
    StepKeepsInv(net.domains[d], ws[d], step);
    StepKeepsWritesKnown(net.domains[d], ws[d], step);
  }

  /** The message crosses a tunnel: its other end is the new holder. */
  lemma {:induction false} HolderCrosses(net: Network, ws: Worlds, step: NetStep, m: Message, home: string, d: string,
                                         id: nat)
    requires NetOk(net, ws) && Good(net) && step.Cross? && NetEnabled(net, ws, step) && IsBound(net.apps, m, home)
    requires Holder(net, ws, m, home, d, id) && step.domain == d && d != home && step.copy.id == id
    ensures step.next in net.domains
    ensures var handed := HandedOver(net.domains[step.next], Arrival(step));
      handed.Some? && Holder(net, NetAfter(net, ws, step), m, home, step.next, handed.value.id)
  {
    hide *;
    CrossingParts(net, ws, step);
    WrittenToNext(net, ws, step, m, home, d, id);
    OneWorldOk(net, ws, d, Receive(step.copy, true));
    var ws0 := ws[d := After(net.domains[d], ws[d], Receive(step.copy, true))];
    ArrivalOf(step, Traveller(m));
    ArrivalIsHeld(net, ws0, step.next, m, home, step.id, step.now, step.pick);
  }

  lemma {:induction false} ArrivalOf(step: NetStep, inner: Message)
    requires step.Cross? && Inner(step.copy) == inner
    ensures Arrival(step) == Wrapper(inner, step.id, step.now)
  {
    hide Inner, Wrapper;
  }

  /** Any other crossing leaves the holder as it is. */
  lemma {:induction false} HolderSeesCrossing(net: Network, ws: Worlds, step: NetStep, m: Message, home: string,
                                              d: string, id: nat)
    requires NetOk(net, ws) && Good(net) && step.Cross? && NetEnabled(net, ws, step)
    requires Holder(net, ws, m, home, d, id) && !(step.domain == d && d != home && step.copy.id == id)
    ensures Holder(net, NetAfter(net, ws, step), m, home, d, id)
  {
    hide *;
    CrossingParts(net, ws, step);
    HolderIsKnown(net, ws, m, home, d, id);
    var ws1, d1, n, receive := NetAfter(net, ws, step), step.domain, step.next, Receive(step.copy, true);
    var ws0 := ws[d1 := After(net.domains[d1], ws[d1], receive)];
    OneWorldOk(net, ws, d1, receive);
    if d == d1 {
      NoFetch(net.domains[d], ws[d], receive, id);
      HolderStays(net, ws, d, receive, m, home, id);
      HolderElsewhere(net, ws0, ws1, m, home, d, id);
    } else {
      HolderElsewhere(net, ws, ws0, m, home, d, id);
      if d == n {
        HolderAccepts(net, ws0, n, HandedOver(net.domains[n], Arrival(step)), step.pick, m, home, id);
      } else {
        HolderElsewhere(net, ws0, ws1, m, home, d, id);
      }
    }
  }

  lemma {:induction false} NoFetch(cfg: Config, w: World, step: Step, id: nat)
    requires !step.FetchOne?
    ensures FetchGoesOut(cfg, w, step, id)
  {
  }

  lemma {:induction false} HolderIsKnown(net: Network, ws: Worlds, m: Message, home: string, d: string, id: nat)
    requires Holder(net, ws, m, home, d, id)
    ensures d in ws
  {
  }

  /** Whatever step the network takes, some domain holds the message. */
  lemma {:induction false} NetStepKeepsHeld(net: Network, ws: Worlds, step: NetStep, m: Message, home: string)
    requires NetOk(net, ws) && Good(net) && NetEnabled(net, ws, step) && IsBound(net.apps, m, home)
    requires FetchIsSafe(net, ws, step, m, home) && IsHeld(net, ws, m, home)
    ensures IsHeld(net, NetAfter(net, ws, step), m, home)
  {
    var d, id :| Holder(net, ws, m, home, d, id);
    HolderIsKnown(net, ws, m, home, d, id);
    hide *;
    match step
    case Local(_, _) =>
      HolderSeesLocal(net, ws, step, m, home, d, id);
      WitnessHolder(net, NetAfter(net, ws, step), m, home, d, id);
    case Cross(d1, copy, _, _, _, _) =>
      if d1 == d && d != home && copy.id == id {
        HolderCrosses(net, ws, step, m, home, d, id);
        var handed := HandedOver(net.domains[step.next], Arrival(step));
        WitnessHolder(net, NetAfter(net, ws, step), m, home, step.next, handed.value.id);
      } else {
        HolderSeesCrossing(net, ws, step, m, home, d, id);
        WitnessHolder(net, NetAfter(net, ws, step), m, home, d, id);
      }
    case Submit(_, _, _, _, _) =>
      HolderSeesSubmit(net, ws, step, m, home, d, id);
      WitnessHolder(net, NetAfter(net, ws, step), m, home, d, id);
  }

  lemma {:induction false} HolderSeesSubmit(net: Network, ws: Worlds, step: NetStep, m: Message, home: string,
                                            d: string, id: nat)
    requires NetOk(net, ws) && step.Submit? && NetEnabled(net, ws, step) && Holder(net, ws, m, home, d, id)
    ensures Holder(net, NetAfter(net, ws, step), m, home, d, id)
  {
    HolderIsKnown(net, ws, m, home, d, id);
    hide NetOk, SubmittedAs, CanAccept, Accepted, Holder;
    if step.domain == d {
      HolderAccepts(net, ws, d, SubmittedAs(net.domains[d], step.m, step.id, step.now), step.pick, m, home, id);
    } else {
      HolderElsewhere(net, ws, NetAfter(net, ws, step), m, home, d, id);
    }
  }

  lemma {:induction false} NetRunIsOk(net: Network, runs: seq<Worlds>, steps: seq<NetStep>, i: nat)
    requires IsNetRun(net, runs, steps) && NetOk(net, runs[0]) && i < |runs|
    ensures NetOk(net, runs[i])
  {
    hide NetOk, NetEnabled, NetAfter;
    if i > 0 {
      NetRunIsOk(net, runs, steps, i - 1);
      WorldsAreOk(net, runs[i - 1], steps[i - 1]);
    }
  }

  /** Held once, held at every later moment of every run. */
  lemma {:induction false} HeldStaysHeld(net: Network, runs: seq<Worlds>, steps: seq<NetStep>, i: nat, j: nat,
                                         m: Message, home: string)
    requires Good(net) && IsNetRun(net, runs, steps) && NetOk(net, runs[0]) && i <= j < |runs|
    requires IsBound(net.apps, m, home) && IsHeld(net, runs[i], m, home)
    requires forall k :: i <= k < j ==> FetchIsSafe(net, runs[k], steps[k], m, home)
    ensures IsHeld(net, runs[j], m, home)
    decreases j
  {
    hide Good, NetOk, NetEnabled, NetAfter, IsBound, FetchIsSafe, IsHeld;
    if i < j {
      HeldStaysHeld(net, runs, steps, i, j - 1, m, home);
      NetRunIsOk(net, runs, steps, j - 1);
      NetStepKeepsHeld(net, runs[j - 1], steps[j - 1], m, home);
    }
  }

  /** No reliable request is lost across domains: from the moment a processor takes it from a connector, at
  every later moment of every run of the network some domain holds it - under way, reported or stored
  as an envelope for the next domain on its way, or accounted for at its home. Only its own fetches
  must send it. */
  lemma {:induction false} RequestIsNeverLost(net: Network, runs: seq<Worlds>, steps: seq<NetStep>, i: nat, j: nat,
                                              home: string)
    requires Good(net) && IsNetRun(net, runs, steps) && NetOk(net, runs[0]) && i < j < |runs|
    requires steps[i].Submit? && IsBound(net.apps, steps[i].m, home) && net.graph.Reachable(steps[i].domain, home)
    requires forall k :: i < k < j ==> FetchIsSafe(net, runs[k], steps[k], steps[i].m, home)
    ensures IsHeld(net, runs[j], steps[i].m, home)
  {
    hide Good, NetOk, NetEnabled, NetAfter, IsBound, FetchIsSafe, IsHeld;
    NetRunIsOk(net, runs, steps, i);
    SubmitIsHeld(net, runs[i], steps[i], home);
    HeldStaysHeld(net, runs, steps, i + 1, j, steps[i].m, home);
  }

  /** The confirmation a processor makes when it handles a report. */
  function ConfirmationOf(cfg: Config, r: Report, ids: FreshIds): Message {
    Confirmation(r.msg, cfg.domain, cfg.processor, ids.id, ids.now)
  }

  /** The step handles the report of a success that is to be confirmed. */
  predicate Confirms(net: Network, step: NetStep) {
    && step.Local? && step.step.Settle? && step.domain in net.domains
    && ConfirmationDue(net.domains[step.domain], step.step.report.msg, step.step.report.state)
  }

  /** Nor is the confirmation that a home sends back to the domain of the sender, from the moment it handles
  the report of the write. */
  lemma {:induction false} ConfirmationIsNeverLost(net: Network, runs: seq<Worlds>, steps: seq<NetStep>, i: nat, j: nat,
                                                   home: string)
    requires Good(net) && IsNetRun(net, runs, steps) && NetOk(net, runs[0]) && i < j < |runs|
    requires Confirms(net, steps[i]) && HomeDomain(net.apps, steps[i].step.report.msg.from) == Some(home)
    requires net.graph.Reachable(steps[i].domain, home)
    requires var m := ConfirmationOf(net.domains[steps[i].domain], steps[i].step.report, steps[i].step.ids);
      forall k :: i < k < j ==> FetchIsSafe(net, runs[k], steps[k], m, home)
    ensures IsHeld(net, runs[j], ConfirmationOf(net.domains[steps[i].domain], steps[i].step.report, steps[i].step.ids),
                   home)
  {
    hide Good, NetOk, NetEnabled, NetAfter, IsBound, FetchIsSafe, IsHeld, ConfirmationDue, HomeDomain, ConfirmationOf;
    NetRunIsOk(net, runs, steps, i);
    SettleIsHeld(net, runs[i], steps[i], home);
    HeldStaysHeld(net, runs, steps, i + 1, j,
                  ConfirmationOf(net.domains[steps[i].domain], steps[i].step.report, steps[i].step.ids), home);
  }

  /** A confirmation is bound for the home of the sender. */
  lemma {:induction false} ConfirmationIsBound(apps: Apps, cfg: Config, r: Report, ids: FreshIds, home: string)
    requires HomeDomain(apps, r.msg.from) == Some(home)
    ensures IsBound(apps, ConfirmationOf(cfg, r, ids), home)
    ensures Traveller(ConfirmationOf(cfg, r, ids)) == Touched(ConfirmationOf(cfg, r, ids))
  {
    hide HomeDomain;
  }

  /** What is handed over is the confirmation itself at home, and its envelope elsewhere. */
  lemma {:induction false} WhatIsHanded(net: Network, d: string, r: Report, ids: FreshIds, home: string)
    requires Good(net) && d in net.graph.domains && d in net.domains && HomeDomain(net.apps, r.msg.from) == Some(home)
    ensures var cfg, m := net.domains[d], ConfirmationOf(net.domains[d], r, ids);
      var e := ConfirmationHanded(cfg, r.msg, ids.id, ids.envelopeId, ids.now);
      && (d == home ==> e == HandedAtHome(Traveller(m)))
      && (d != home ==> e.Type() == INTERNAL_MESSAGE && !IsBlank(e.to) && DomainOf(cfg, e) == home &&
                        Inner(e) == Traveller(m) && e.IsReliable())
  {
    assert DomainOk(net, d);
    ConfirmationIsBound(net.apps, net.domains[d], r, ids, home);
    CoveredIsNotBlank(net.apps, r.msg.from);
    var c := Touched(ConfirmationOf(net.domains[d], r, ids));
    assert DomainOf(net.domains[d], c) == home;
    hide HomeDomain, Good, DomainOk;
  }

  /** Handling the report makes the domain the holder of the confirmation. */
  lemma {:induction false} SettleIsHeld(net: Network, ws: Worlds, step: NetStep, home: string)
    requires Good(net) && NetOk(net, ws) && NetEnabled(net, ws, step) && Confirms(net, step)
    requires HomeDomain(net.apps, step.step.report.msg.from) == Some(home)
    requires net.graph.Reachable(step.domain, home)
    ensures var m := ConfirmationOf(net.domains[step.domain], step.step.report, step.step.ids);
      var e := ConfirmationHanded(net.domains[step.domain], step.step.report.msg, step.step.ids.id,
                                  step.step.ids.envelopeId, step.step.ids.now);
      && IsBound(net.apps, m, home) && Holder(net, NetAfter(net, ws, step), m, home, step.domain, e.id)
      && IsHeld(net, NetAfter(net, ws, step), m, home)
  {
    var d, s := step.domain, step.step;
    var cfg, ws1 := net.domains[d], NetAfter(net, ws, step);
    var m := ConfirmationOf(cfg, s.report, s.ids);
    var e := ConfirmationHanded(cfg, s.report.msg, s.ids.id, s.ids.envelopeId, s.ids.now);
    assert WorldOk(cfg, ws[d]) && d in net.graph.domains && Enabled(cfg, ws[d], s);
    assert ws1[d] == After(cfg, ws[d], s);
    hide *;
    ConfirmsParts(net, step);
    ConfirmationIsBound(net.apps, cfg, s.report, s.ids, home);
    WhatIsHanded(net, d, s.report, s.ids, home);
    if d == home {
      StaysHome(net, m, home, Traveller(m));
      SettleTakes(cfg, ws[d], s.report, s.pick, s.ids);
      MessageIsHeld(net, ws1, m, home, Traveller(m));
      WitnessHolder(net, ws1, m, home, home, m.id);
    } else {
      EnvelopeIsOnWay(net, d, e, m, home);
      SettleTakes(cfg, ws[d], s.report, s.pick, s.ids);
      EnvelopeIsHeld(net, ws1, d, e, m, home);
      WitnessHolder(net, ws1, m, home, d, e.id);
    }
  }

  lemma {:induction false} ConfirmsParts(net: Network, step: NetStep)
    requires Confirms(net, step)
    ensures step.Local? && step.step.Settle? && step.domain in net.domains
    ensures step.step == Settle(step.step.report, step.step.pick, step.step.ids)
    ensures ConfirmationDue(net.domains[step.domain], step.step.report.msg, step.step.report.state)
  {
    hide ConfirmationDue;
  }

  /** Every domain at its start. */
  lemma {:induction false} NetStartIsOk(net: Network, ws: Worlds)
    requires Good(net) && forall d :: d in net.graph.domains ==> d in ws && ws[d] == START
    ensures NetOk(net, ws)
  {
    forall d | d in net.graph.domains ensures d in net.domains && d in ws && WorldOk(net.domains[d], ws[d]) {
      assert DomainOk(net, d);
      StartLosesNothing(net.domains[d]);
    }
  }

  // ---- when nothing is under way

  /** No domain stores the message or its envelope. */
  ghost predicate NoRowLeft(net: Network, ws: Worlds, m: Message, home: string) {
    forall d, id :: d in ws && id in ws[d].node.store ==>
      if d == home then id != m.id else ws[d].node.store[id].content.data != InternalMessage(Traveller(m))
  }

  lemma {:induction false} RestingTokens(w: World, id: nat)
    requires Quiescence.Quiet(w) && Tokens(w, id) >= 1
    ensures id in w.node.store || Sum(WriteOfId(id), w.writes) >= 1
  {
  }

  lemma {:induction false} HolderIsTracked(net: Network, ws: Worlds, m: Message, home: string, d: string, id: nat)
    requires Holder(net, ws, m, home, d, id)
    ensures Tokens(ws[d], id) >= 1
  {
    hide Tokens, Traveller;
  }

  /** So once nothing is under way anywhere and no domain stores it, it has been written to a socket of its
  user at its home. */
  lemma {:induction false} RestMeansDelivered(net: Network, ws: Worlds, m: Message, home: string)
    requires NetOk(net, ws) && IsHeld(net, ws, m, home) && NoRowLeft(net, ws, m, home)
    requires forall d :: d in ws ==> Quiescence.Quiet(ws[d])
    ensures home in ws && exists x :: x in ws[home].writes && x.id == m.id
  {
    var d, id :| Holder(net, ws, m, home, d, id);
    HolderIsTracked(net, ws, m, home, d, id);
    RestingTokens(ws[d], id);
    if id in ws[d].node.store {
      HeldRow(net, ws, m, home, d, id);
    } else {
      hide NetOk, Accounted, Traveller;
      SumPositive(WriteOfId(id), ws[d].writes);
    }
  }

  lemma {:induction false} HeldRow(net: Network, ws: Worlds, m: Message, home: string, d: string, id: nat)
    requires NetOk(net, ws) && Holder(net, ws, m, home, d, id) && id in ws[d].node.store
    ensures if d == home then id == m.id else ws[d].node.store[id].content.data == InternalMessage(Traveller(m))
  {
    var cfg, w := net.domains[d], ws[d];
    assert WorldOk(cfg, w);
    assert RowOk(cfg, w.accepted, id, w.node.store[id]);
    hide Inv, Accounted, Traveller;
    HolderKnows(net, ws, m, home, d, id, w.node.store[id]);
  }
}
