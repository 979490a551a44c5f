/** Redelivery comes to rest.

A not-found report sends the message again to everyone left in the channel, without touching its TTL,
and it does so even when the reported address was removed long ago. Still every run without new
connections ends, unless a message is addressed to a connector by name, or a confirmation that can
still become due would be: such a message is sent back to the same connector for ever. */
module Quiescence {
  import opened Types
  import opened ClientApps
  import opened Bags
  import opened Messages
  import opened PostOffices
  import opened Delivery

  /** The steps the system takes by itself once nothing new arrives and nobody connects. */
  predicate Internal(w: World, step: Step) {
    match step
    case Receive(_, _) => true
    case Control(_) => true
    case Fault(_) => true
    case SendFail(_) => true
    case Settle(_, _, _) => true
    case Disconnect(_) => true
    case Withdraw(s) => s.address in ChannelOf(w.node.channels, s.user)
    case Accept(_, _) => false
    case AcceptGroupMiss(_, _, _, _, _) => false
    case Spawn(_, _, _, _, _) => false
    case FetchOne(_, _, _) => false
    case Connect(_) => false
    case Announce(_) => false
  }

  /** The user a confirmation of `m` is finally sent to. */
  function Replier(cfg: Config, m: Message): string {
    var c := Addressed(cfg, ConfirmationHanded(cfg, m, 0, 0, 0));
    if c.Some? then c.value.to else ""
  }

  /** A reliable copy addressed to a connector by name, which the post office keeps sending back. */
  predicate Bounces(cfg: Config, m: Message) {
    m.IsReliable() && DefaultOutgoing(m) && IsConnectorUser(m.to)
  }

  /** Once written to a socket, `m` is confirmed to a connector by name. */
  predicate Asks(cfg: Config, m: Message) {
    m.meta.confirmEnabled && ConfirmationDue(cfg, m, Processed) && IsConnectorUser(Replier(cfg, m))
  }

  predicate SomeLive(live: set<Session>, channels: Channels, user: string) {
    exists a :: a in ChannelOf(channels, user) && Session(user, a) in live
  }

  /** A copy of `m` can still reach a socket: at its own address, or after a redelivery. */
  predicate StillWritable(live: set<Session>, channels: Channels, m: Message) {
    SessionOf(m) in live || (m.IsReliable() && !IsBlank(m.to) && SomeLive(live, channels, m.to))
  }

  predicate Calm(cfg: Config, live: set<Session>, channels: Channels, m: Message) {
    !Bounces(cfg, m) && (Asks(cfg, m) ==> !StillWritable(live, channels, m))
  }

  ghost predicate NetCalm(cfg: Config, live: set<Session>, channels: Channels, net: multiset<Message>) {
    forall m :: m in net ==> Calm(cfg, live, channels, m)
  }

  predicate ReportCalm(cfg: Config, live: set<Session>, channels: Channels, r: Report) {
    (r.state == AddressNotFound ==> Calm(cfg, live, channels, r.msg)) && (r.state == Processed ==> !Asks(cfg, r.msg))
  }

  ghost predicate ReportsCalm(cfg: Config, live: set<Session>, channels: Channels, reports: multiset<Report>) {
    forall r :: r in reports ==> ReportCalm(cfg, live, channels, r)
  }

  /** Nothing is sent back to a connector by name, and nothing that asks for it can still be written. */
  ghost predicate AllCalm(cfg: Config, w: World) {
    NetCalm(cfg, w.live, w.node.channels, w.node.net) && ReportsCalm(cfg, w.live, w.node.channels, w.reports)
  }

  // ---- the measure

  /** Every entry of every user channel. */
  function Index(channels: Channels): set<Session> {
    set u, a | u in channels && a in channels[u] :: Session(u, a)
  }

  /** `m` is aimed at an address that is no longer in the channel of its user. */
  predicate Stale(channels: Channels, m: Message) {
    AddressOf(m) !in ChannelOf(channels, m.to)
  }

  predicate InClass(channels: Channels, confirm: bool, stale: bool, m: Message) {
    m.meta.confirmEnabled == confirm && Stale(channels, m) == stale
  }

  function CopyWeight(channels: Channels, confirm: bool, stale: bool): Message -> nat {
    (m: Message) => if InClass(channels, confirm, stale, m) then 2 else 0
  }

  function ReportWeight(channels: Channels, confirm: bool, stale: bool): Report -> nat {
    (r: Report) => if InClass(channels, confirm, stale, r.msg) then 1 else 0
  }

  ghost function Weight(w: World, confirm: bool, stale: bool): nat {
    Sum(CopyWeight(w.node.channels, confirm, stale), w.node.net) +
    Sum(ReportWeight(w.node.channels, confirm, stale), w.reports)
  }

  /** Class by class: what may still be confirmed before what may not, stale before fresh. */
  ghost predicate LowerWeight(w1: World, w: World) {
    || Weight(w1, true, true) < Weight(w, true, true)
    || (Weight(w1, true, true) == Weight(w, true, true)
        && (|| Weight(w1, true, false) < Weight(w, true, false)
            || (Weight(w1, true, false) == Weight(w, true, false)
                && (|| Weight(w1, false, true) < Weight(w, false, true)
                    || (Weight(w1, false, true) == Weight(w, false, true)
                        && Weight(w1, false, false) < Weight(w, false, false))))))
  }

  ghost predicate Lower(w1: World, w: World) {
    || w1.live < w.live
    || (w1.live == w.live
        && (|| Index(w1.node.channels) < Index(w.node.channels)
            || (Index(w1.node.channels) == Index(w.node.channels) && LowerWeight(w1, w))))
  }

  // ---- each step lowers it

  lemma {:induction false} TakeCopyWeight(w: World, copy: Message, confirm: bool, stale: bool)
    requires copy in w.node.net
    ensures Weight(w, confirm, stale) ==
            Weight(TakeCopy(w, copy), confirm, stale) + CopyWeight(w.node.channels, confirm, stale)(copy)
  {
    SumRemove(CopyWeight(w.node.channels, confirm, stale), w.node.net, copy);
  }

  lemma {:induction false} AddReportWeight(w: World, r: Report, confirm: bool, stale: bool)
    ensures Weight(w.(reports := w.reports + multiset{r}), confirm, stale) ==
            Weight(w, confirm, stale) + ReportWeight(w.node.channels, confirm, stale)(r)
  {
    SumAdd(ReportWeight(w.node.channels, confirm, stale), w.reports, r);
  }

  lemma {:induction false} TakeReportWeight(w: World, r: Report, confirm: bool, stale: bool)
    requires r in w.reports
    ensures Weight(w, confirm, stale) ==
            Weight(w.(reports := w.reports - multiset{r}), confirm, stale) +
              ReportWeight(w.node.channels, confirm, stale)(r)
  {
    SumRemove(ReportWeight(w.node.channels, confirm, stale), w.reports, r);
  }

  lemma {:induction false} SendWeight(w: World, m: Message, targets: set<Address>, confirm: bool, stale: bool)
    requires targets <= ChannelOf(w.node.channels, m.to)
    requires stale || m.meta.confirmEnabled != confirm
    ensures Weight(w.(node := Send(w.node, m, targets)), confirm, stale) == Weight(w, confirm, stale)
  {
    var f := CopyWeight(w.node.channels, confirm, stale);
    SumUnion(f, w.node.net, multiset(Copies(m, targets)));
    forall p | p in multiset(Copies(m, targets)) ensures f(p) == 0 {
      var a :| a in targets && p == m.WithTarget(a);
    }
    SumZero(f, multiset(Copies(m, targets)));
  }

  /** A copy leaves the bag and at most one report about it comes. */
  lemma {:induction false} ConsumeLowers(w: World, copy: Message, state: Option<MessageState>)
    requires copy in w.node.net
    ensures var w1 := TakeCopy(w, copy);
      LowerWeight(if state.Some? then w1.(reports := w1.reports + multiset{Report(copy, state.value)}) else w1, w)
  {
    hide Sum;
    forall c, s {:trigger Weight(w, c, s)} {
      TakeCopyWeight(w, copy, c, s);
    }
    if state.Some? {
      var w1 := TakeCopy(w, copy);
      forall c, s {:trigger Weight(w1, c, s)} {
        AddReportWeight(w1, Report(copy, state.value), c, s);
      }
    }
  }

  lemma {:induction false} StoreChangesNoWeight(w: World, w1: World)
    requires w1.node.channels == w.node.channels && w1.node.net == w.node.net && w1.reports == w.reports
    ensures forall c, s :: Weight(w1, c, s) == Weight(w, c, s)
  {
  }

  lemma {:induction false} ReceivedLowers(w: World, copy: Message, success: bool)
    requires copy in w.node.net
    ensures Lower(Received(w, copy, success), w)
  {
    var w1 := Received(w, copy, success);
    var state: Option<MessageState> :=
      if SessionOf(copy) in w.live then
        if copy.meta.confirmEnabled || (!success && copy.IsReliable()) then
           Some(if success then Processed else NetworkError) else None
      else if copy.IsReliable() then Some(AddressNotFound) else None;
    ConsumeLowers(w, copy, state);
    var w2 := TakeCopy(w, copy);
    var w3 := if state.Some? then w2.(reports := w2.reports + multiset{Report(copy, state.value)}) else w2;
    StoreChangesNoWeight(w3, w1);
  }

  lemma {:induction false} FailureLowers(cfg: Config, w: World, step: Step)
    requires Enabled(cfg, w, step)
    requires step.Control? || step.Fault? || step.SendFail?
    ensures Lower(After(cfg, w, step), w)
  {
    hide Weight;
    var copy := step.copy;
    if step.Fault? && copy.IsReliable() {
      ConsumeLowers(w, copy, Some(ConnectorError));
    } else {
      ConsumeLowers(w, copy, None);
      StoreChangesNoWeight(TakeCopy(w, copy), After(cfg, w, step));
    }
  }

  /** Removing an address that is there makes the index smaller; otherwise nothing changes. */
  lemma {:induction false} RemoveLowersIndex(channels: Channels, user: string, a: Address)
    requires forall u :: u in channels ==> channels[u] != {}
    ensures a in ChannelOf(channels, user) ==> Index(RemoveAddress(channels, user, a)) < Index(channels)
    ensures a !in ChannelOf(channels, user) ==> RemoveAddress(channels, user, a) == channels
  {
    if a in ChannelOf(channels, user) {
      assert Session(user, a) in Index(channels);
      assert Session(user, a) !in Index(RemoveAddress(channels, user, a));
    } else if user in channels {
      assert channels[user] - {a} == channels[user];
    }
  }

  lemma {:induction false} TakeReportLowers(w: World, r: Report)
    requires r in w.reports
    ensures var w1 := w.(reports := w.reports - multiset{r});
      && Weight(w1, r.msg.meta.confirmEnabled,
                Stale(w.node.channels, r.msg)) < Weight(w, r.msg.meta.confirmEnabled, Stale(w.node.channels, r.msg))
      && forall c, s :: c != r.msg.meta.confirmEnabled || s != Stale(w.node.channels, r.msg) ==>
         Weight(w1, c, s) == Weight(w, c, s)
  {
    var w1 := w.(reports := w.reports - multiset{r});
    forall c, s {:trigger Weight(w1, c, s)} {
      TakeReportWeight(w, r, c, s);
    }
  }

  /** A redelivery after the address has been removed is a plain sending. */
  lemma {:induction false} RedeliverSends(cfg: Config, w: World, r: Report, pick: Address)
    requires Inv(cfg, w) && r in w.reports && r.state == AddressNotFound
    ensures var channels := RemoveAddress(w.node.channels, r.msg.to, AddressOf(r.msg));
      Redeliver(cfg, w.node, r.msg, pick) ==
        Some(SendToConnector(cfg, w.node.(channels := channels), Adjusted(cfg, r.msg), pick))
    ensures r.msg.IsReliable() && DefaultOutgoing(r.msg)
  {
    assert PacketOk(cfg, w.born, w.accepted, r.msg) && ReportOk(cfg, w.live, r);
    LocalIsSettled(cfg, r.msg);
  }

  lemma {:induction false} SendKeepsChannels(cfg: Config, n: Node, m: Message, pick: Address)
    ensures SendToConnector(cfg, n, m, pick).channels == n.channels
  {
  }

  /** Sending to addresses of the channel only adds fresh weight. */
  lemma {:induction false} SendWeights(cfg: Config, w: World, m: Message, pick: Address)
    requires !IsConnectorUser(m.to) && CanPick(cfg, w.node.channels, m.to, pick)
    ensures forall c, s :: s || m.meta.confirmEnabled != c ==>
      Weight(w.(node := SendToConnector(cfg, w.node, m, pick)), c, s) == Weight(w, c, s)
  {
    var targets := RouteTargets(cfg, w.node.channels, m.to, m.meta.deliveryType, pick);
    var n1 := SendToConnector(cfg, w.node, m, pick);
    if targets == {} {
      StoreChangesNoWeight(w, w.(node := n1));
    } else {
      forall c, s {:trigger Weight(w, c, s)} | s || m.meta.confirmEnabled != c
        ensures Weight(w.(node := n1), c, s) == Weight(w, c, s)
      {
        SendWeight(w, m, targets, c, s);
      }
    }
  }

  /** A stale report costs stale weight and only adds fresh weight. */
  lemma {:induction false} RedeliverLowers(cfg: Config, w: World, r: Report, pick: Address)
    requires Inv(cfg, w) && r in w.reports && r.state == AddressNotFound && !Bounces(cfg, r.msg)
    requires CanSettle(cfg, w, r, pick, FreshIds(0, 0, 0))
    ensures Redeliver(cfg, w.node, r.msg, pick).Some?
    ensures Lower(w.(node := Redeliver(cfg, w.node, r.msg, pick).value, reports := w.reports - multiset{r}), w)
  {
    assert PacketOk(cfg, w.born, w.accepted, r.msg);
    LocalIsSettled(cfg, r.msg);
    RedeliverSends(cfg, w, r, pick);
    RemoveLowersIndex(w.node.channels, r.msg.to, AddressOf(r.msg));
    hide Inv, Redeliver, RemoveAddress, SendToConnector, Weight, Index;
    var m := Adjusted(cfg, r.msg);
    var w1 := w.(reports := w.reports - multiset{r},
                 node := w.node.(channels := RemoveAddress(w.node.channels, r.msg.to, AddressOf(r.msg))));
    SendKeepsChannels(cfg, w1.node, m, pick);
    if Stale(w.node.channels, r.msg) {
      TakeReportLowers(w, r);
      SendWeights(cfg, w1, m, pick);
    }
  }

  /** The message a confirmation ends up as is never confirmed itself. */
  lemma {:induction false} ConfirmationIsSafe(cfg: Config, m: Message, ids: FreshIds)
    requires m.meta.confirmEnabled && ConfirmationDue(cfg, m, Processed) && !Asks(cfg, m)
    ensures var c := ConfirmationHanded(cfg, m, ids.id, ids.envelopeId, ids.now);
      Addressed(cfg, c).Some? ==>
        !IsConnectorUser(Addressed(cfg, c).value.to) && !Addressed(cfg, c).value.meta.confirmEnabled
  {
    hide ResolveDomain, IsMasterUser;
    var c := ConfirmationHanded(cfg, m, ids.id, ids.envelopeId, ids.now);
    var c0 := ConfirmationHanded(cfg, m, 0, 0, 0);
    assert c.to == c0.to && c.meta == c0.meta && c.Type() == c0.Type();
  }

  /** Handing over a message that will not be confirmed changes only the last two classes. */
  lemma {:induction false} HandedWeight(cfg: Config, w: World, m: Message, pick: Address, stale: bool)
    requires !m.meta.confirmEnabled
    requires Addressed(cfg, m).Some? ==> !IsConnectorUser(Addressed(cfg, m).value.to)
    requires CanDeliver(cfg, w.node.channels, m, pick)
    ensures Weight(Handed(cfg, w, m, pick), true, stale) == Weight(w, true, stale)
    ensures Handed(cfg, w, m, pick).node.channels == w.node.channels && Handed(cfg, w, m, pick).live == w.live
  {
    var w1 := Handed(cfg, w, m, pick);
    match Addressed(cfg, m)
    case None => StoreChangesNoWeight(w, w1);
    case Some(m1) =>
      AddressedIsStable(cfg, m, AddressNotFound);
      var targets := RouteTargets(cfg, w.node.channels, m1.to, m1.meta.deliveryType, pick);
      if targets == {} {
        StoreChangesNoWeight(w, w1);
      } else {
        SendWeight(w, m1, targets, true, stale);
        StoreChangesNoWeight(w.(node := Send(w.node, m1, targets)), w1);
      }
  }

  lemma {:induction false} StoredReportLowers(cfg: Config, w: World, r: Report, pick: Address, ids: FreshIds)
    requires Inv(cfg, w) && r in w.reports && r.state != AddressNotFound && (r.state == Processed ==> !Asks(cfg, r.msg))
    requires CanSettle(cfg, w, r, pick, ids)
    ensures Lower(Settled(cfg, w, r, pick, ids), w)
  {
    hide Weight;
    assert ReportOk(cfg, w.live, r);
    TakeReportLowers(w, r);
    var w1 := w.(reports := w.reports - multiset{r});
    var w2 := w1.(node := Persist(w1.node, r.msg, r.state));
    StoreChangesNoWeight(w1, w2);
    if ConfirmationDue(cfg, r.msg, r.state) {
      var w3 := w2.(confirmations := w2.confirmations + multiset{WriteOf(r.msg)});
      StoreChangesNoWeight(w2, w3);
      var c := ConfirmationHanded(cfg, r.msg, ids.id, ids.envelopeId, ids.now);
      ConfirmationIsSafe(cfg, r.msg, ids);
      HandedWeight(cfg, w3, c, pick, true);
      HandedWeight(cfg, w3, c, pick, false);
    }
  }

  /** Every internal step lowers the measure. */
  lemma {:induction false} InternalStepLowers(cfg: Config, w: World, step: Step)
    requires Inv(cfg, w) && AllCalm(cfg, w) && Enabled(cfg, w, step) && Internal(w, step)
    ensures Lower(After(cfg, w, step), w)
  {
    hide SameMessage, LowerWeight, ConfirmationHanded;
    match step
    case Receive(copy, success) => ReceivedLowers(w, copy, success);
    case Control(_) => FailureLowers(cfg, w, step);
    case Fault(_) => FailureLowers(cfg, w, step);
    case SendFail(_) => FailureLowers(cfg, w, step);
    case Settle(r, pick, ids) =>
      if r.state == AddressNotFound {
        RedeliverLowers(cfg, w, r, pick);
        assert PacketOk(cfg, w.born, w.accepted, r.msg);
      } else {
        StoredReportLowers(cfg, w, r, pick, ids);
      }
    case Disconnect(_) =>
    case Withdraw(s) => RemoveLowersIndex(w.node.channels, s.user, s.address);
  }

  // ---- and keeps it calm

  /** No channel has an address more. */
  ghost predicate Shrunk(channels: Channels, channels1: Channels) {
    forall u :: ChannelOf(channels1, u) <= ChannelOf(channels, u)
  }

  lemma {:induction false} CalmFades(cfg: Config, live: set<Session>, channels: Channels, live1: set<Session>,
                                     channels1: Channels, m: Message)
    requires Calm(cfg, live, channels, m) && live1 <= live && Shrunk(channels, channels1)
    ensures Calm(cfg, live1, channels1, m)
  {
    hide Bounces, Asks;
  }

  lemma {:induction false} NetCalmFades(cfg: Config, live: set<Session>, channels: Channels, live1: set<Session>,
                                        channels1: Channels,
                                        net: multiset<Message>)
    requires NetCalm(cfg, live, channels, net) && live1 <= live && Shrunk(channels, channels1)
    ensures NetCalm(cfg, live1, channels1, net)
  {
    hide Calm;
    forall m | m in net ensures Calm(cfg, live1, channels1, m) {
      CalmFades(cfg, live, channels, live1, channels1, m);
    }
  }

  lemma {:induction false} ReportsCalmFade(cfg: Config, live: set<Session>, channels: Channels, live1: set<Session>,
                                           channels1: Channels,
                                           reports: multiset<Report>)
    requires ReportsCalm(cfg, live, channels, reports) && live1 <= live && Shrunk(channels, channels1)
    ensures ReportsCalm(cfg, live1, channels1, reports)
  {
    hide Calm, Asks;
    forall r | r in reports ensures ReportCalm(cfg, live1, channels1, r) {
      assert ReportCalm(cfg, live, channels, r);
      if r.state == AddressNotFound {
        CalmFades(cfg, live, channels, live1, channels1, r.msg);
      }
    }
  }

  lemma {:induction false} RemoveShrinks(channels: Channels, user: string, a: Address)
    ensures Shrunk(channels, RemoveAddress(channels, user, a))
  {
  }

  /** Only what delivery never rewrites matters for the confirmation of a message. */
  lemma {:induction false} SameConfirmation(cfg: Config, m: Message, p: Message)
    requires p.content == m.content && p.to == m.to && p.from == m.from && p.meta.original == m.meta.original
    requires p.meta.confirmEnabled == m.meta.confirmEnabled
    requires m.meta.target.Some? && p.meta.target.Some? && AddressOf(p).domain == AddressOf(m).domain
    ensures Asks(cfg, p) == Asks(cfg, m) && Bounces(cfg, p) == Bounces(cfg, m)
  {
    assert ConfirmationHanded(cfg, m, 0, 0, 0) == ConfirmationHanded(cfg, p, 0, 0, 0);
  }

  /** A redelivery sends only to dead addresses what may not be written any more. */
  lemma {:induction false} CopyIsCalm(cfg: Config, live: set<Session>, channels: Channels, m: Message, a: Address)
    requires Calm(cfg, live, channels, m) && m.IsReliable()
    requires m.meta.target.Some? && AddressOf(m).domain == cfg.domain && a.domain == cfg.domain
    requires a in Candidates(cfg, channels, m.to)
    ensures Calm(cfg, live, channels, m.WithTarget(a))
  {
    SameConfirmation(cfg, m, m.WithTarget(a));
    if Asks(cfg, m) {
      assert DefaultOutgoing(m) && a in ChannelOf(channels, m.to);
    }
  }

  lemma {:induction false} SendKeepsCalm(cfg: Config, live: set<Session>, n: Node, m: Message, pick: Address)
    requires NetCalm(cfg, live, n.channels, n.net) && Calm(cfg, live, n.channels, m) && m.IsReliable()
    requires m.meta.target.Some? && AddressOf(m).domain == cfg.domain
    requires CanPick(cfg, n.channels, m.to, pick)
    requires forall a :: a in Candidates(cfg, n.channels, m.to) ==> a.domain == cfg.domain
    ensures NetCalm(cfg, live, n.channels, SendToConnector(cfg, n, m, pick).net)
  {
    hide Calm, Candidates;
    var targets := RouteTargets(cfg, n.channels, m.to, m.meta.deliveryType, pick);
    forall p | p in Copies(m, targets) ensures Calm(cfg, live, n.channels, p) {
      var a :| a in targets && p == m.WithTarget(a);
      CopyIsCalm(cfg, live, n.channels, m, a);
    }
  }

  lemma {:induction false} CandidatesAreLocal(cfg: Config, w: World, channels: Channels, user: string)
    requires Inv(cfg, w) && Shrunk(w.node.channels, channels)
    ensures forall a :: a in Candidates(cfg, channels, user) ==> a.domain == cfg.domain
  {
    forall a | a in Candidates(cfg, channels, user) ensures a.domain == cfg.domain {
      if !IsConnectorUser(user) {
        assert a in ChannelOf(w.node.channels, user);
        assert Session(user, a) in w.born;
      }
    }
  }

  lemma {:induction false} RedeliverKeepsCalm(cfg: Config, w: World, r: Report, pick: Address)
    requires Inv(cfg, w) && AllCalm(cfg, w) && r in w.reports && r.state == AddressNotFound
    requires CanSettle(cfg, w, r, pick, FreshIds(0, 0, 0))
    ensures Redeliver(cfg, w.node, r.msg, pick).Some?
    ensures AllCalm(cfg, w.(node := Redeliver(cfg, w.node, r.msg, pick).value, reports := w.reports - multiset{r}))
  {
    assert PacketOk(cfg, w.born, w.accepted, r.msg) && ReportCalm(cfg, w.live, w.node.channels, r);
    LocalIsSettled(cfg, r.msg);
    RedeliverSends(cfg, w, r, pick);
    var m, channels := Adjusted(cfg, r.msg), RemoveAddress(w.node.channels, r.msg.to, AddressOf(r.msg));
    RemoveShrinks(w.node.channels, r.msg.to, AddressOf(r.msg));
    CandidatesAreLocal(cfg, w, channels, m.to);
    SameConfirmation(cfg, r.msg, m);
    AdjustedIsCalm(cfg, w.live, w.node.channels, r.msg);
    hide Inv, PacketOk, Calm, Redeliver, SendToConnector, Adjusted, RemoveAddress, Candidates, Asks, Shrunk, ReportCalm;
    CalmFades(cfg, w.live, w.node.channels, w.live, channels, m);
    NetCalmFades(cfg, w.live, w.node.channels, w.live, channels, w.node.net);
    SendKeepsCalm(cfg, w.live, w.node.(channels := channels), m, pick);
    SendKeepsChannels(cfg, w.node.(channels := channels), m, pick);
    ReportsCalmFade(cfg, w.live, w.node.channels, w.live, channels, w.reports - multiset{r});
  }

  lemma {:induction false} AdjustedIsCalm(cfg: Config, live: set<Session>, channels: Channels, m: Message)
    requires Calm(cfg, live, channels, m) && m.meta.target.Some?
    ensures Calm(cfg, live, channels, Adjusted(cfg, m))
    ensures Adjusted(cfg, m).to == m.to && Adjusted(cfg, m).IsReliable() == m.IsReliable()
    ensures Adjusted(cfg, m).meta.target == m.meta.target
  {
    SameConfirmation(cfg, m, Adjusted(cfg, m));
  }

  lemma {:induction false} UnaskedCopiesAreCalm(cfg: Config, live: set<Session>, channels: Channels, m: Message,
                                                targets: set<Address>)
    requires !m.meta.confirmEnabled && !IsConnectorUser(m.to)
    ensures NetCalm(cfg, live, channels, multiset(Copies(m, targets)))
  {
    forall p | p in multiset(Copies(m, targets)) ensures Calm(cfg, live, channels, p) {
      var a :| a in targets && p == m.WithTarget(a);
    }
  }

  lemma {:induction false} HandedKeepsCalm(cfg: Config, w: World, m: Message, pick: Address)
    requires AllCalm(cfg, w)
    requires Addressed(cfg, m).Some? ==>
             !Addressed(cfg, m).value.meta.confirmEnabled && !IsConnectorUser(Addressed(cfg, m).value.to)
    ensures AllCalm(cfg, Handed(cfg, w, m, pick))
  {
    hide Calm, ReportsCalm, Addressed, IsConnectorUser;
    if Addressed(cfg, m).Some? {
      var m1 := Addressed(cfg, m).value;
      UnaskedCopiesAreCalm(cfg, w.live, w.node.channels, m1,
                           RouteTargets(cfg, w.node.channels, m1.to, m1.meta.deliveryType, pick));
    }
  }

  lemma {:induction false} SettledKeepsCalm(cfg: Config, w: World, r: Report, pick: Address, ids: FreshIds)
    requires Inv(cfg, w) && AllCalm(cfg, w) && r in w.reports && CanSettle(cfg, w, r, pick, ids)
    ensures AllCalm(cfg, Settled(cfg, w, r, pick, ids))
  {
    assert ReportOk(cfg, w.live, r) && ReportCalm(cfg, w.live, w.node.channels, r);
    assert PacketOk(cfg, w.born, w.accepted, r.msg);
    hide Inv, NetCalm, Calm, Asks, PacketOk;
    if r.state == AddressNotFound {
      RedeliverKeepsCalm(cfg, w, r, pick);
    } else {
      var w1 := w.(reports := w.reports - multiset{r}, node := Persist(w.node, r.msg, r.state));
      assert AllCalm(cfg, w1);
      if ConfirmationDue(cfg, r.msg, r.state) {
        var w2 := w1.(confirmations := w1.confirmations + multiset{WriteOf(r.msg)});
        ConfirmationIsSafe(cfg, r.msg, ids);
        HandedKeepsCalm(cfg, w2, ConfirmationHanded(cfg, r.msg, ids.id, ids.envelopeId, ids.now), pick);
      }
    }
  }

  lemma {:induction false} ReceivedKeepsCalm(cfg: Config, w: World, copy: Message, success: bool)
    requires AllCalm(cfg, w) && copy in w.node.net
    ensures AllCalm(cfg, Received(w, copy, success))
  {
    assert Calm(cfg, w.live, w.node.channels, copy);
    hide Bounces, Asks, SomeLive;
  }

  /** What the three ways to lose a copy have in common. */
  predicate CopyGone(w: World, w1: World, copy: Message) {
    && w1.live == w.live && w1.node.channels == w.node.channels && w1.node.net == w.node.net - multiset{copy}
    && (w1.reports == w.reports || w1.reports == w.reports + multiset{Report(copy, ConnectorError)})
  }

  lemma {:induction false} GoneIsCalm(cfg: Config, w: World, w1: World, copy: Message)
    requires AllCalm(cfg, w) && CopyGone(w, w1, copy)
    ensures AllCalm(cfg, w1)
  {
    hide Calm, Asks;
  }

  lemma {:induction false} ControlDrops(cfg: Config, w: World, copy: Message)
    ensures CopyGone(w, After(cfg, w, Control(copy)), copy)
  {
  }

  lemma {:induction false} FaultDrops(cfg: Config, w: World, copy: Message)
    ensures CopyGone(w, After(cfg, w, Fault(copy)), copy)
  {
  }

  lemma {:induction false} SendFailDrops(cfg: Config, w: World, copy: Message)
    ensures CopyGone(w, After(cfg, w, SendFail(copy)), copy)
  {
  }

  lemma {:induction false} InternalStepKeepsCalm(cfg: Config, w: World, step: Step)
    requires Inv(cfg, w) && AllCalm(cfg, w) && Enabled(cfg, w, step) && Internal(w, step)
    ensures AllCalm(cfg, After(cfg, w, step))
  {
    hide Inv, NetCalm, ReportsCalm, RemoveAddress, Settled, Received;
    match step
    case Receive(copy, success) => ReceivedKeepsCalm(cfg, w, copy, success);
    case Settle(r, pick, ids) => SettledKeepsCalm(cfg, w, r, pick, ids);
    case Control(copy) =>
      ControlDrops(cfg, w, copy);
      GoneIsCalm(cfg, w, After(cfg, w, step), copy);
    case Fault(copy) =>
      FaultDrops(cfg, w, copy);
      GoneIsCalm(cfg, w, After(cfg, w, step), copy);
    case SendFail(copy) =>
      SendFailDrops(cfg, w, copy);
      GoneIsCalm(cfg, w, After(cfg, w, step), copy);
    case Disconnect(s) => FadedIsCalm(cfg, w, w.live - {s}, w.node.channels);
    case Withdraw(s) =>
      RemoveShrinks(w.node.channels, s.user, s.address);
      FadedIsCalm(cfg, w, w.live, RemoveAddress(w.node.channels, s.user, s.address));
  }

  lemma {:induction false} FadedIsCalm(cfg: Config, w: World, live: set<Session>, channels: Channels)
    requires AllCalm(cfg, w) && live <= w.live && Shrunk(w.node.channels, channels)
    ensures AllCalm(cfg, w.(live := live, node := w.node.(channels := channels)))
  {
    NetCalmFades(cfg, w.live, w.node.channels, live, channels, w.node.net);
    ReportsCalmFade(cfg, w.live, w.node.channels, live, channels, w.reports);
  }

  // ---- runs

  ghost predicate Quiet(w: World) {
    w.node.net == multiset{} && w.reports == multiset{}
  }

  ghost predicate InternalStep(cfg: Config, w: World, w1: World) {
    exists step :: Enabled(cfg, w, step) && Internal(w, step) && w1 == After(cfg, w, step)
  }

  /** A run of internal steps that goes on for ever. */
  ghost predicate RunsForever(cfg: Config, run: nat -> World) {
    forall i: nat :: InternalStep(cfg, run(i), run(i + 1))
  }

  /** No run of internal steps is infinite. */
  lemma {:induction false} RedeliveryTerminates(cfg: Config, run: nat -> World, i: nat)
    requires Inv(cfg, run(i)) && AllCalm(cfg, run(i))
    ensures !RunsForever(cfg, run)
    decreases run(i).live, Index(run(i).node.channels),
              Weight(run(i), true, true), Weight(run(i), true,
                                                 false), Weight(run(i), false, true), Weight(run(i), false, false)
  {
    if RunsForever(cfg, run) {
      assert InternalStep(cfg, run(i), run(i + 1));
      var step :| Enabled(cfg, run(i), step) && Internal(run(i), step) && run(i + 1) == After(cfg, run(i), step);
      StepKeepsInv(cfg, run(i), step);
      InternalStepKeepsCalm(cfg, run(i), step);
      InternalStepLowers(cfg, run(i), step);
      RedeliveryTerminates(cfg, run, i + 1);
    }
  }

  lemma {:induction false} FreshIdFor(used: set<nat>) returns (id: nat)
    ensures id !in used
    ensures forall x :: x in used ==> x < id
    decreases |used|
  {
    if used == {} {
      id := 0;
    } else {
      var x :| x in used;
      var rest := FreshIdFor(used - {x});
      id := if x < rest then rest else x + 1;
      assert used == (used - {x}) + {x};
    }
  }

  lemma {:induction false} SomePick(cfg: Config, channels: Channels, m: Message) returns (pick: Address)
    ensures CanDeliver(cfg, channels, m, pick)
  {
    pick := DomainOnly("");
    if Addressed(cfg, m).Some? && Candidates(cfg, channels, Addressed(cfg, m).value.to) != {} {
      pick :| pick in Candidates(cfg, channels, Addressed(cfg, m).value.to);
    }
  }

  lemma {:induction false} ReportCanSettle(cfg: Config, w: World, r: Report)
    requires r in w.reports
    ensures exists w1 :: InternalStep(cfg, w, w1)
  {
    var id := FreshIdFor(w.accepted.Keys);
    var c := ConfirmationHanded(cfg, r.msg, id, id, 0);
    var pick: Address;
    if r.state != AddressNotFound {
      pick := SomePick(cfg, w.node.channels, c);
    } else if r.msg.meta.target.Some? {
      pick := SomePick(cfg, RemoveAddress(w.node.channels, r.msg.to, r.msg.meta.target.value), r.msg);
    } else {
      pick := DomainOnly("");
    }
    assert CanSettle(cfg, w, r, pick, FreshIds(id, id, 0));
    var step := Settle(r, pick, FreshIds(id, id, 0));
    assert InternalStep(cfg, w, After(cfg, w, step));
  }

  /** Wherever something is under way, a step is possible - so runs end only in quiet. */
  lemma {:induction false} OnlyQuietStops(cfg: Config, w: World)
    requires !Quiet(w)
    ensures exists w1 :: InternalStep(cfg, w, w1)
  {
    if w.reports != multiset{} {
      var r :| r in w.reports;
      ReportCanSettle(cfg, w, r);
    } else {
      var copy :| copy in w.node.net;
      var step := if DefaultOutgoing(copy) then Receive(copy, true) else Control(copy);
      assert InternalStep(cfg, w, After(cfg, w, step));
    }
  }

  // ---- the condition is exact

  lemma {:induction false} NobodySitsAtAConnector(cfg: Config, w: World, c: Message)
    requires Inv(cfg, w) && Plausible(cfg, w.born, c) && IsConnectorUser(c.to)
    ensures SessionOf(c) !in w.live
    ensures RemoveAddress(w.node.channels, c.to, AddressOf(c)) == w.node.channels
  {
    assert AddressOf(c) in ChannelOf(w.node.channels, c.to) ==> SessionOf(c) in w.born;
    RemoveLowersIndex(w.node.channels, c.to, AddressOf(c));
  }

  lemma {:induction false} RedeliverToConnector(cfg: Config, n: Node, m: Message)
    requires m.meta.target == Some(ConnectorAddress(cfg, m.to)) && IsConnectorUser(m.to)
    requires RemoveAddress(n.channels, m.to, AddressOf(m)) == n.channels
    ensures Redeliver(cfg, n, m, ConnectorAddress(cfg, m.to)) == Some(n.(net := n.net + multiset{Adjusted(cfg, m)}))
    ensures CanDeliver(cfg, n.channels, m, ConnectorAddress(cfg, m.to))
  {
    var c := Adjusted(cfg, m);
    var pick := ConnectorAddress(cfg, m.to);
    LocalIsSettled(cfg, m);
    assert Candidates(cfg, n.channels, c.to) == {pick};
    assert Copies(c, {pick}) == {c};
    assert multiset(Copies(c, {pick})) == multiset{c};
  }

  function SentBack(cfg: Config, w: World, r: Report): World {
    w.(node := w.node.(net := w.node.net + multiset{Adjusted(cfg, r.msg)}), reports := w.reports - multiset{r})
  }

  function ReportedBack(w: World, c: Message): World {
    w.(node := w.node.(net := w.node.net - multiset{c}), reports := w.reports + multiset{Report(c, AddressNotFound)})
  }

  /** A not-found report about such a copy sends the copy out again, and nothing else happens. */
  lemma {:induction false} ReportSendsBack(cfg: Config, w: World, r: Report)
    requires Inv(cfg, w) && r in w.reports && r.state == AddressNotFound && Bounces(cfg, r.msg)
    ensures InternalStep(cfg, w, SentBack(cfg, w, r)) && Inv(cfg, SentBack(cfg, w, r))
    ensures Bounces(cfg, Adjusted(cfg, r.msg)) && Adjusted(cfg, Adjusted(cfg, r.msg)) == Adjusted(cfg, r.msg)
  {
    assert PacketOk(cfg, w.born, w.accepted, r.msg);
    NobodySitsAtAConnector(cfg, w, r.msg);
    RedeliverToConnector(cfg, w.node, r.msg);
    var step := Settle(r, ConnectorAddress(cfg, r.msg.to), FreshIds(0, 0, 0));
    assert Enabled(cfg, w, step) && Internal(w, step);
    assert After(cfg, w, step) == SentBack(cfg, w, r);
    StepKeepsInv(cfg, w, step);
  }

  lemma {:induction false} ConnectorReportsBack(cfg: Config, w: World, c: Message)
    requires Inv(cfg, w) && c in w.node.net && Bounces(cfg, c)
    ensures InternalStep(cfg, w, ReportedBack(w, c)) && Inv(cfg, ReportedBack(w, c))
  {
    assert PacketOk(cfg, w.born, w.accepted, c);
    NobodySitsAtAConnector(cfg, w, c);
    var step := Receive(c, true);
    assert Enabled(cfg, w, step) && Internal(w, step);
    StepKeepsInv(cfg, w, step);
  }

  lemma {:induction false} ThereAndBack(cfg: Config, w: World, c: Message)
    requires c in w.node.net && Adjusted(cfg, c) == c
    ensures SentBack(cfg, ReportedBack(w, c), Report(c, AddressNotFound)) == w
  {
    var w2 := SentBack(cfg, ReportedBack(w, c), Report(c, AddressNotFound));
    assert w2.node.net == w.node.net && w2.reports == w.reports;
  }

  /** Two steps lead back to exactly the same world. */
  lemma {:induction false} BouncingGoesRound(cfg: Config, w: World, c: Message)
    requires Inv(cfg, w) && c in w.node.net && Bounces(cfg, c) && Adjusted(cfg, c) == c
    ensures InternalStep(cfg, w, ReportedBack(w, c)) && InternalStep(cfg, ReportedBack(w, c), w)
  {
    ConnectorReportsBack(cfg, w, c);
    ReportSendsBack(cfg, ReportedBack(w, c), Report(c, AddressNotFound));
    ThereAndBack(cfg, w, c);
  }

  function Lasso<T>(w: T, a: T, b: T): nat -> T {
    (i: nat) => if i == 0 then w else if i % 2 == 1 then a else b
  }

  lemma {:induction false} LassoAt<T>(w: T, a: T, b: T, i: nat)
    ensures i == 0 ==> Lasso(w, a, b)(i) == w && Lasso(w, a, b)(i + 1) == a
    ensures i > 0 ==>
      || (Lasso(w, a, b)(i) == a && Lasso(w, a, b)(i + 1) == b)
      || (Lasso(w, a, b)(i) == b && Lasso(w, a, b)(i + 1) == a)
  {
  }

  lemma {:induction false} LassoRuns(cfg: Config, w: World, a: World, b: World)
    requires InternalStep(cfg, w, a) && InternalStep(cfg, a, b) && InternalStep(cfg, b, a)
    ensures RunsForever(cfg, Lasso(w, a, b))
  {
    forall i: nat ensures InternalStep(cfg, Lasso(w, a, b)(i), Lasso(w, a, b)(i + 1)) {
      LassoAt(w, a, b, i);
    }
  }

  /** From a world with a bouncing report there is an infinite run. */
  lemma {:induction false} ReportBouncesForever(cfg: Config, w: World, r: Report) returns (run: nat -> World)
    requires Inv(cfg, w) && r in w.reports && r.state == AddressNotFound && Bounces(cfg, r.msg)
    ensures run(0) == w && RunsForever(cfg, run)
  {
    ReportSendsBack(cfg, w, r);
    var a := SentBack(cfg, w, r);
    var c := Adjusted(cfg, r.msg);
    BouncingGoesRound(cfg, a, c);
    LassoRuns(cfg, w, a, ReportedBack(a, c));
    run := Lasso(w, a, ReportedBack(a, c));
  }

  function Delayed(w: World, run: nat -> World): nat -> World {
    (i: nat) => if i == 0 then w else run(i - 1)
  }

  ghost predicate CanRunForever(cfg: Config, w: World) {
    exists run: nat -> World :: run(0) == w && RunsForever(cfg, run)
  }

  lemma {:induction false} RunsOnFrom(cfg: Config, w: World, w1: World)
    requires InternalStep(cfg, w, w1) && CanRunForever(cfg, w1)
    ensures CanRunForever(cfg, w)
  {
    var rest: nat -> World :| rest(0) == w1 && RunsForever(cfg, rest);
    var run := Delayed(w, rest);
    forall i: nat ensures InternalStep(cfg, run(i), run(i + 1)) {
      if i > 0 {
        assert InternalStep(cfg, rest(i - 1), rest(i));
      }
    }
    assert run(0) == w && RunsForever(cfg, run);
  }

  lemma {:induction false} CopyBouncesForever(cfg: Config, w: World, c: Message)
    requires Inv(cfg, w) && c in w.node.net && Bounces(cfg, c)
    ensures CanRunForever(cfg, w)
  {
    ConnectorReportsBack(cfg, w, c);
    var w1 := ReportedBack(w, c);
    var run := ReportBouncesForever(cfg, w1, Report(c, AddressNotFound));
    assert CanRunForever(cfg, w1);
    RunsOnFrom(cfg, w, w1);
  }

  /** A success report that asks for a confirmation brings a copy that bounces. */
  lemma {:induction false} ConfirmationBounces(cfg: Config, w: World, r: Report)
    requires Inv(cfg, w) && r in w.reports && r.state == Processed && Asks(cfg, r.msg)
    ensures CanRunForever(cfg, w)
  {
    var id := FreshIdFor(w.accepted.Keys);
    var ids := FreshIds(id, id, 0);
    var c := ConfirmationHanded(cfg, r.msg, id, id, 0);
    ConfirmationGoesToConnector(cfg, r.msg, id);
    var m := Addressed(cfg, c).value;
    var pick := ConnectorAddress(cfg, m.to);
    var step := Settle(r, pick, ids);
    assert Candidates(cfg, w.node.channels, m.to) == {pick};
    assert Enabled(cfg, w, step) && Internal(w, step);
    var w1 := After(cfg, w, step);
    StepKeepsInv(cfg, w, step);
    var w2 := w.(reports := w.reports - multiset{r}, node := Persist(w.node, r.msg, r.state),
                 confirmations := w.confirmations + multiset{WriteOf(r.msg)});
    assert w1 == Handed(cfg, w2, c, pick);
    HandedToConnector(cfg, w2, c, m);
    CopyBouncesForever(cfg, w1, m.WithTarget(pick));
    RunsOnFrom(cfg, w, w1);
  }

  lemma {:induction false} SameAddressee(cfg: Config, c: Message, d: Message)
    requires c.to == d.to && c.meta == d.meta && c.Type() == d.Type()
    ensures Addressed(cfg, c).Some? == Addressed(cfg, d).Some?
    ensures Addressed(cfg, c).Some? ==> Addressed(cfg, c).value.to == Addressed(cfg, d).value.to
  {
    hide ResolveDomain, IsMasterUser;
  }

  lemma {:induction false} ConfirmationParts(cfg: Config, m: Message, id: nat)
    ensures var c, c0 := ConfirmationHanded(cfg, m, id, id, 0), ConfirmationHanded(cfg, m, 0, 0, 0);
      && c.to == c0.to && c.meta == c0.meta && c.Type() == c0.Type() && c.id == id && c.IsReliable() &&
         DefaultOutgoing(c)
  {
    hide ResolveDomain;
  }

  lemma {:induction false} SameContent(cfg: Config, c: Message)
    requires Addressed(cfg, c).Some?
    ensures var m := Addressed(cfg, c).value;
      m.id == c.id && m.IsReliable() == c.IsReliable() && DefaultOutgoing(m) == DefaultOutgoing(c)
  {
    AddressedIsStable(cfg, c, AddressNotFound);
    hide Addressed;
  }

  lemma {:induction false} ConfirmationGoesToConnector(cfg: Config, m: Message, id: nat)
    requires Asks(cfg, m)
    ensures var c := ConfirmationHanded(cfg, m, id, id, 0);
      c.id == id && Addressed(cfg, c).Some? && Bounces(cfg, Addressed(cfg, c).value) && Addressed(cfg, c).value.id == id
  {
    assert !IsConnectorUser("");
    hide ConfirmationHanded, ConfirmationDue, Addressed, IsConnectorUser, DefaultOutgoing;
    var c, c0 := ConfirmationHanded(cfg, m, id, id, 0), ConfirmationHanded(cfg, m, 0, 0, 0);
    ConfirmationParts(cfg, m, id);
    SameAddressee(cfg, c, c0);
    SameContent(cfg, c);
  }

  lemma {:induction false} HandedToConnector(cfg: Config, w: World, c: Message, m: Message)
    requires Addressed(cfg, c) == Some(m) && IsConnectorUser(m.to)
    ensures var pick := ConnectorAddress(cfg, m.to);
      m.WithTarget(pick) in Handed(cfg, w, c, pick).node.net
  {
    var pick := ConnectorAddress(cfg, m.to);
    assert RouteTargets(cfg, w.node.channels, m.to, m.meta.deliveryType, pick) == {pick};
    assert m.WithTarget(pick) in Copies(m, {pick});
    assert m.WithTarget(pick) in multiset(Copies(m, {pick}));
  }

  /** A copy whose socket is there can be written, and then confirmed. */
  lemma {:induction false} WritableBounces(cfg: Config, w: World, c: Message)
    requires Inv(cfg, w) && c in w.node.net && Asks(cfg, c) && SessionOf(c) in w.live
    ensures CanRunForever(cfg, w)
  {
    var step := Receive(c, true);
    var w1 := After(cfg, w, step);
    StepKeepsInv(cfg, w, step);
    assert InternalStep(cfg, w, w1);
    assert Report(c, Processed) in w1.reports;
    hide Inv, After;
    ConfirmationBounces(cfg, w1, Report(c, Processed));
    RunsOnFrom(cfg, w, w1);
  }

  /** A not-found report can be answered by a copy for a socket that is there. */
  lemma {:induction false} RedeliveredBounces(cfg: Config, w: World, r: Report)
    requires Inv(cfg, w) && r in w.reports && r.state == AddressNotFound && Asks(cfg, r.msg)
    requires !IsBlank(r.msg.to) && !IsConnectorUser(r.msg.to) && SomeLive(w.live, w.node.channels, r.msg.to)
    ensures CanRunForever(cfg, w)
  {
    assert ReportOk(cfg, w.live, r);
    var a :| a in ChannelOf(w.node.channels, r.msg.to) && Session(r.msg.to, a) in w.live;
    assert a != AddressOf(r.msg);
    hide *;
    RedeliveredReaches(cfg, w, r, a);
    SettlesInside(cfg, w, r, a, FreshIds(0, 0, 0));
    var w1 := Settled(cfg, w, r, a, FreshIds(0, 0, 0));
    RedeliveredAsks(cfg, w, r, a);
    WritableBounces(cfg, w1, Adjusted(cfg, r.msg).WithTarget(a));
    RunsOnFrom(cfg, w, w1);
  }

  lemma {:induction false} SettlesInside(cfg: Config, w: World, r: Report, pick: Address, ids: FreshIds)
    requires Inv(cfg, w) && r in w.reports && CanSettle(cfg, w, r, pick, ids)
    ensures InternalStep(cfg, w, Settled(cfg, w, r, pick, ids)) && Inv(cfg, Settled(cfg, w, r, pick, ids))
  {
    var step := Settle(r, pick, ids);
    assert Enabled(cfg, w, step) && Internal(w, step) && After(cfg, w, step) == Settled(cfg, w, r, pick, ids);
    hide *;
    StepKeepsInv(cfg, w, step);
    WitnessStep(cfg, w, step);
  }

  lemma {:induction false} WitnessStep(cfg: Config, w: World, step: Step)
    requires Enabled(cfg, w, step) && Internal(w, step)
    ensures InternalStep(cfg, w, After(cfg, w, step))
  {
    hide Enabled, Internal, After;
  }

  lemma {:induction false} RedeliveredAsks(cfg: Config, w: World, r: Report, a: Address)
    requires Inv(cfg, w) && r in w.reports && Asks(cfg, r.msg)
    requires Session(r.msg.to, a) in w.live
    ensures Asks(cfg, Adjusted(cfg, r.msg).WithTarget(a)) && SessionOf(Adjusted(cfg, r.msg).WithTarget(a)) in w.live
  {
    assert PacketOk(cfg, w.born, w.accepted, r.msg);
    assert a.domain == cfg.domain;
    hide Inv, Asks, Bounces;
    SameConfirmation(cfg, r.msg, Adjusted(cfg, r.msg).WithTarget(a));
  }

  lemma {:induction false} RedeliveredReaches(cfg: Config, w: World, r: Report, a: Address)
    requires Inv(cfg, w) && r in w.reports && r.state == AddressNotFound && Session(r.msg.to, a) in w.live
    requires !IsBlank(r.msg.to) && !IsConnectorUser(r.msg.to)
    requires a in ChannelOf(w.node.channels, r.msg.to) && a != AddressOf(r.msg)
    ensures CanSettle(cfg, w, r, a, FreshIds(0, 0, 0))
    ensures Adjusted(cfg, r.msg).WithTarget(a) in Settled(cfg, w, r, a, FreshIds(0, 0, 0)).node.net
    ensures Settled(cfg, w, r, a, FreshIds(0, 0, 0)).live == w.live
  {
    assert PacketOk(cfg, w.born, w.accepted, r.msg);
    LocalIsSettled(cfg, r.msg);
    RedeliverSends(cfg, w, r, a);
    var m, channels := Adjusted(cfg, r.msg), RemoveAddress(w.node.channels, r.msg.to, AddressOf(r.msg));
    assert a in ChannelOf(channels, m.to);
    var targets := RouteTargets(cfg, channels, m.to, m.meta.deliveryType, a);
    assert a in targets;
    assert m.WithTarget(a) in Copies(m, targets);
    assert m.WithTarget(a) in multiset(Copies(m, targets));
  }

  /** A copy that finds no socket is reported, and its report can be answered. */
  lemma {:induction false} UnfoundBounces(cfg: Config, w: World, c: Message)
    requires Inv(cfg, w) && c in w.node.net && Asks(cfg, c) && SessionOf(c) !in w.live && c.IsReliable()
    requires !IsBlank(c.to) && !IsConnectorUser(c.to) && SomeLive(w.live, w.node.channels, c.to)
    ensures CanRunForever(cfg, w)
  {
    var step := Receive(c, true);
    var w1 := After(cfg, w, step);
    StepKeepsInv(cfg, w, step);
    assert InternalStep(cfg, w, w1);
    assert Report(c, AddressNotFound) in w1.reports && w1.live == w.live && w1.node.channels == w.node.channels;
    hide Inv, After;
    RedeliveredBounces(cfg, w1, Report(c, AddressNotFound));
    RunsOnFrom(cfg, w, w1);
  }

  /** Some copy or not-found report bounces. */
  ghost predicate SomethingBounces(cfg: Config, w: World) {
    || (exists c :: c in w.node.net && Bounces(cfg, c))
    || (exists r :: r in w.reports && r.state == AddressNotFound && Bounces(cfg, r.msg))
  }

  /** Some copy or report asks for a confirmation to a connector by name and can still bring it about. */
  ghost predicate ConfirmationWillBounce(cfg: Config, w: World) {
    || (exists c :: c in w.node.net && Asks(cfg, c) && StillWritable(w.live, w.node.channels, c))
    || (exists r :: r in w.reports && r.state == Processed && Asks(cfg, r.msg))
    || (exists r :: r in w.reports && r.state == AddressNotFound &&
                    Asks(cfg, r.msg) && StillWritable(w.live, w.node.channels, r.msg))
  }

  lemma {:induction false} CopyRunsForever(cfg: Config, w: World, c: Message)
    requires Inv(cfg, w) && c in w.node.net
    requires Bounces(cfg, c) || (Asks(cfg, c) && StillWritable(w.live, w.node.channels, c))
    ensures CanRunForever(cfg, w)
  {
    hide Inv, IsConnectorUser, CanRunForever, SomeLive;
    if Bounces(cfg, c) {
      CopyBouncesForever(cfg, w, c);
    } else if SessionOf(c) in w.live {
      WritableBounces(cfg, w, c);
    } else {
      UnfoundBounces(cfg, w, c);
    }
  }

  lemma {:induction false} ReportRunsForever(cfg: Config, w: World, r: Report)
    requires Inv(cfg, w) && r in w.reports
    requires if r.state == AddressNotFound then Bounces(cfg, r.msg) ||
             (Asks(cfg, r.msg) && StillWritable(w.live, w.node.channels, r.msg))
             else r.state == Processed && Asks(cfg, r.msg)
    ensures CanRunForever(cfg, w)
  {
    assert ReportOk(cfg, w.live, r);
    hide Inv, IsConnectorUser, SomeLive;
    if r.state == Processed {
      ConfirmationBounces(cfg, w, r);
    } else if Bounces(cfg, r.msg) {
      var run := ReportBouncesForever(cfg, w, r);
    } else {
      RedeliveredBounces(cfg, w, r);
    }
  }

  lemma {:induction false} OtherwiseCalm(cfg: Config, w: World)
    requires !SomethingBounces(cfg, w) && !ConfirmationWillBounce(cfg, w)
    ensures AllCalm(cfg, w)
  {
    hide Bounces, Asks, StillWritable;
  }

  /** From a reachable world redelivery can go on for ever if and only if a reliable copy, or its
  not-found report, is addressed to a user whose id starts like a connector's, or a copy or report can
  still make a confirmation due that is. */
  lemma {:induction false} RunsForeverExactlyWhenBouncing(cfg: Config, w: World)
    requires Inv(cfg, w)
    ensures CanRunForever(cfg, w) <==> SomethingBounces(cfg, w) || ConfirmationWillBounce(cfg, w)
  {
    hide Inv, Bounces, Asks, StillWritable;
    if SomethingBounces(cfg, w) || ConfirmationWillBounce(cfg, w) {
      if c :| c in w.node.net && (Bounces(cfg, c) || (Asks(cfg, c) && StillWritable(w.live, w.node.channels, c))) {
        CopyRunsForever(cfg, w, c);
      } else {
        var r :| r in w.reports &&
                 if r.state == AddressNotFound then Bounces(cfg, r.msg) ||
                    (Asks(cfg, r.msg) && StillWritable(w.live, w.node.channels, r.msg))
                 else r.state == Processed && Asks(cfg, r.msg);
        ReportRunsForever(cfg, w, r);
      }
    } else {
      OtherwiseCalm(cfg, w);
      forall run: nat -> World | run(0) == w ensures !RunsForever(cfg, run) {
        RedeliveryTerminates(cfg, run, 0);
      }
    }
  }
}
