/** What one step of the delivery protocol does to one message sent to ALL addresses of its user.

`Load` counts the copies and not-found reports of the message whose address is inside, or outside, a
given set. Every step has one of five effects on these counts, the writes and the channel. */
module Fanout {
  import opened Types
  import opened Bags
  import opened PostOffices
  import opened Delivery

  function Hit(a: Address, s: set<Address>, inside: bool): nat {
    if (a in s) == inside then 1 else 0
  }

  function CopyHit(id: nat, s: set<Address>, inside: bool): Message -> nat {
    (m: Message) => if m.id == id then Hit(AddressOf(m), s, inside) else 0
  }

  function ReportHit(id: nat, s: set<Address>, inside: bool): Report -> nat {
    (r: Report) => if r.msg.id == id && r.state == AddressNotFound then Hit(AddressOf(r.msg), s, inside) else 0
  }

  ghost function Load(net: multiset<Message>, reports: multiset<Report>, id: nat, s: set<Address>, inside: bool): nat {
    Sum(CopyHit(id, s, inside), net) + Sum(ReportHit(id, s, inside), reports)
  }

  ghost function LoadOf(w: World, id: nat, s: set<Address>, inside: bool): nat {
    Load(w.node.net, w.reports, id, s, inside)
  }

  /** Copies and not-found reports of the message at one address. */
  ghost function Pending(w: World, id: nat, a: Address): nat {
    LoadOf(w, id, {a}, true)
  }

  function Written(w: World, id: nat, a: Address): nat {
    w.writes[Write(id, a)]
  }

  /** Elements of `c` inside, or outside, of `s`. */
  function Hits(c: set<Address>, s: set<Address>, inside: bool): nat {
    |set a | a in c && (a in s) == inside|
  }

  datatype Effect =
    | Nothing
    | Lose(a: Address)
    | Deliver(a: Address)
    | Shrink(a: Address)
    | Resend(a: Address)

  ghost predicate SameLoad(w: World, w1: World, id: nat) {
    forall s, i :: LoadOf(w1, id, s, i) == LoadOf(w, id, s, i)
  }

  ghost predicate LessLoad(w: World, w1: World, id: nat, a: Address) {
    forall s, i :: LoadOf(w1, id, s, i) + Hit(a, s, i) == LoadOf(w, id, s, i)
  }

  ghost predicate ResentLoad(w: World, w1: World, id: nat, a: Address, c: set<Address>) {
    forall s, i :: LoadOf(w1, id, s, i) + Hit(a, s, i) == LoadOf(w, id, s, i) + Hits(c, s, i)
  }

  ghost predicate SameWrites(w: World, w1: World, id: nat) {
    forall b :: Written(w1, id, b) == Written(w, id, b)
  }

  ghost predicate OneMoreWrite(w: World, w1: World, id: nat, a: Address) {
    forall b :: Written(w1, id, b) == Written(w, id, b) + if b == a then 1 else 0
  }

  /** The relation between the worlds before and after a step with the given effect. */
  ghost predicate Has(w: World, w1: World, id: nat, u: string, e: Effect) {
    var c, c1 := ChannelOf(w.node.channels, u), ChannelOf(w1.node.channels, u);
    match e
    case Nothing => c1 == c && SameLoad(w, w1, id) && SameWrites(w, w1, id)
    case Lose(a) => c1 == c && LessLoad(w, w1, id, a) && SameWrites(w, w1, id)
    case Deliver(a) => c1 == c && Session(u, a) in w.live && LessLoad(w, w1, id, a) && OneMoreWrite(w, w1, id, a)
    case Shrink(a) => a in c && c1 == c - {a} && Session(u, a) !in w.live && SameLoad(w, w1, id) &&
      SameWrites(w, w1, id)
    case Resend(a) => c1 == c - {a} && Session(u, a) !in w.live && ResentLoad(w, w1, id, a, c1) && SameWrites(w, w1, id)
  }

  // ---- counting

  lemma {:induction false} TakeCopyLoad(net: multiset<Message>, reports: multiset<Report>, copy: Message, id: nat)
    requires copy in net
    ensures forall s, i ::
      Load(net, reports, id, s, i) ==
      Load(net - multiset{copy}, reports, id, s, i) + CopyHit(id, s, i)(copy)
  {
    forall s, i
      ensures Load(net, reports, id, s, i) == Load(net - multiset{copy}, reports, id, s, i) + CopyHit(id, s, i)(copy) {
      SumRemove(CopyHit(id, s, i), net, copy);
    }
  }

  lemma {:induction false} AddReportLoad(net: multiset<Message>, reports: multiset<Report>, r: Report, id: nat)
    ensures forall s, i ::
      Load(net, reports + multiset{r}, id, s, i) ==
      Load(net, reports, id, s, i) + ReportHit(id, s, i)(r)
  {
    forall s, i
      ensures Load(net, reports + multiset{r}, id, s, i) == Load(net, reports, id, s, i) + ReportHit(id, s, i)(r) {
      SumAdd(ReportHit(id, s, i), reports, r);
    }
  }

  lemma {:induction false} TakeReportLoad(net: multiset<Message>, reports: multiset<Report>, r: Report, id: nat)
    requires r in reports
    ensures forall s, i ::
      Load(net, reports, id, s, i) ==
      Load(net, reports - multiset{r}, id, s, i) + ReportHit(id, s, i)(r)
  {
    forall s, i
      ensures Load(net, reports, id, s, i) == Load(net, reports - multiset{r}, id, s, i) + ReportHit(id, s, i)(r) {
      SumRemove(ReportHit(id, s, i), reports, r);
    }
  }

  lemma {:induction false} HitsGrow(rest: set<Address>, a: Address, s: set<Address>, i: bool)
    requires a !in rest
    ensures Hits(rest + {a}, s, i) == Hits(rest, s, i) + Hit(a, s, i)
  {
    var hits, hitsRest := set b | b in rest + {a} && (b in s) == i, set b | b in rest && (b in s) == i;
    assert hits == if (a in s) == i then hitsRest + {a} else hitsRest;
  }

  lemma {:induction false} CopiesHits(m: Message, targets: set<Address>, s: set<Address>, i: bool)
    ensures Sum(CopyHit(m.id, s, i), multiset(Copies(m, targets))) == Hits(targets, s, i)
    decreases |targets|
  {
    if targets == {} {
      assert multiset(Copies(m, targets)) == multiset{};
      NoHits(s, i);
    } else {
      var a :| a in targets;
      var rest := targets - {a};
      assert targets == rest + {a};
      CopiesHits(m, rest, s, i);
      CopiesGrow(m, rest, a);
      HitsGrow(rest, a, s, i);
      SumAdd(CopyHit(m.id, s, i), multiset(Copies(m, rest)), m.WithTarget(a));
    }
  }

  lemma {:induction false} SendLoad(net: multiset<Message>, reports: multiset<Report>, m: Message,
                                    targets: set<Address>, id: nat)
    ensures forall s, i ::
      Load(net + multiset(Copies(m, targets)), reports, id, s, i) ==
                     Load(net, reports, id, s, i) + if m.id == id then Hits(targets, s, i) else 0
  {
    forall s, i ensures Load(net + multiset(Copies(m, targets)), reports, id, s, i) ==
                        Load(net, reports, id, s, i) + if m.id == id then Hits(targets, s, i) else 0 {
      SumUnion(CopyHit(id, s, i), net, multiset(Copies(m, targets)));
      if m.id == id {
        CopiesHits(m, targets, s, i);
      } else {
        SumZero(CopyHit(id, s, i), multiset(Copies(m, targets)));
      }
    }
  }

  lemma {:induction false} NoHits(s: set<Address>, i: bool)
    ensures Hits({}, s, i) == 0
  {
    assert (set a | a in {} && (a in s) == i) == {};
  }

  lemma {:induction false} HitsOfOne(c: set<Address>, a: Address)
    ensures Hits(c, {a}, true) == if a in c then 1 else 0
  {
    var s, inside := {a}, true;
    var hits := set b | b in c && (b in s) == inside;
    if a in c {
      assert hits == {a};
    } else {
      assert hits == {};
    }
  }

  lemma {:induction false} NoHitsOutside(c: set<Address>)
    ensures Hits(c, c, false) == 0
  {
    assert (set a | a in c && (a in c) == false) == {};
  }

  /** Leaving an address out of the set moves what is pending there to the outside. */
  lemma {:induction false} LoadOutside(w: World, id: nat, c: set<Address>, a: Address)
    requires a in c
    ensures LoadOf(w, id, c - {a}, false) == LoadOf(w, id, c, false) + Pending(w, id, a)
  {
    SumSplit(CopyHit(id, c - {a}, false), CopyHit(id, c, false), CopyHit(id, {a}, true), w.node.net);
    SumSplit(ReportHit(id, c - {a}, false), ReportHit(id, c, false), ReportHit(id, {a}, true), w.reports);
  }

  // ---- the message whose copies are counted

  /** `id` is a reliable message to all addresses of the ordinary user `u`. */
  predicate ToAll(w: World, id: nat, u: string) {
    && id in w.accepted && w.accepted[id].to == u && w.accepted[id].meta.deliveryType == All
    && w.accepted[id].IsReliable() && DefaultOutgoing(w.accepted[id])
    && !IsBlank(u) && !IsConnectorUser(u)
  }

  /** The steps that bring no new address for `u` and do not fetch `id`. */
  predicate Allowed(step: Step, id: nat, u: string) {
    && (step.Announce? ==> step.session.user != u)
    && (step.FetchOne? ==> step.row.id != id)
  }

  /** The copy of `id`, if any, gets through to the connector and its socket. */
  predicate Faultless(step: Step, id: nat) {
    && (step.Fault? ==> step.copy.id != id)
    && (step.SendFail? ==> step.copy.id != id)
    && (step.Receive? && step.copy.id == id ==> step.success)
  }

  lemma {:induction false} ReceivedLive(w: World, copy: Message, success: bool)
    requires SessionOf(copy) in w.live
    ensures var w1, r := Received(w, copy, success), Report(copy, if success then Processed else NetworkError);
      && w1.node == w.node.(net := w.node.net - multiset{copy})
      && w1.writes == (if success then w.writes + multiset{WriteOf(copy)} else w.writes)
      && (w1.reports == w.reports || w1.reports == w.reports + multiset{r})
  {
  }

  lemma {:induction false} ReceiveLiveLoad(w: World, copy: Message, success: bool, id: nat)
    requires copy in w.node.net && SessionOf(copy) in w.live
    ensures copy.id != id ==> SameLoad(w, Received(w, copy, success), id)
    ensures copy.id == id ==> LessLoad(w, Received(w, copy, success), id, AddressOf(copy))
  {
    hide Received, SessionOf;
    ReceivedLive(w, copy, success);
    TakeCopyLoad(w.node.net, w.reports, copy, id);
    AddReportLoad(w.node.net - multiset{copy}, w.reports, Report(copy, if success then Processed else NetworkError),
                  id);
  }

  lemma {:induction false} ReceiveLiveEffect(w: World, copy: Message, success: bool, id: nat,
                                             u: string) returns (e: Effect)
    requires copy in w.node.net && SessionOf(copy) in w.live && (copy.id == id ==> copy.to == u)
    ensures Has(w, Received(w, copy, success), id, u, e)
    ensures e == if copy.id != id then Nothing else if success then Deliver(AddressOf(copy)) else Lose(AddressOf(copy))
  {
    hide Received, LoadOf, Hit;
    ReceivedLive(w, copy, success);
    ReceiveLiveLoad(w, copy, success, id);
    if copy.id != id {
      e := Nothing;
    } else if success {
      e := Deliver(AddressOf(copy));
    } else {
      e := Lose(AddressOf(copy));
    }
  }

  lemma {:induction false} ReceiveDeadEffect(w: World, copy: Message, success: bool, id: nat, u: string)
    requires copy in w.node.net && SessionOf(copy) !in w.live && (copy.id == id ==> copy.IsReliable())
    ensures Has(w, Received(w, copy, success), id, u, Nothing)
  {
    var w1 := Received(w, copy, success);
    var net := w.node.net - multiset{copy};
    TakeCopyLoad(w.node.net, w.reports, copy, id);
    AddReportLoad(net, w.reports, Report(copy, AddressNotFound), id);
    assert w1.node == w.node.(net := net) && w1.writes == w.writes;
  }

  lemma {:induction false} ReceiveEffect(cfg: Config, w: World, copy: Message, success: bool, id: nat,
                                         u: string) returns (e: Effect)
    requires Inv(cfg, w) && ToAll(w, id, u) && copy in w.node.net
    ensures Has(w, Received(w, copy, success), id, u, e)
    ensures e == Nothing || (copy.id == id && !success && e == Lose(AddressOf(copy))) || e == Deliver(AddressOf(copy))
  {
    assert PacketOk(cfg, w.born, w.accepted, copy);
    if SessionOf(copy) in w.live {
      e := ReceiveLiveEffect(w, copy, success, id, u);
    } else {
      ReceiveDeadEffect(w, copy, success, id, u);
      e := Nothing;
    }
  }

  lemma {:induction false} TakeEffect(w: World, w1: World, copy: Message, id: nat, u: string) returns (e: Effect)
    requires copy in w.node.net
    requires w1.node.net == w.node.net - multiset{copy} && w1.node.channels == w.node.channels && w1.writes == w.writes
    requires w1.reports == w.reports || w1.reports == w.reports + multiset{Report(copy, ConnectorError)}
    ensures Has(w, w1, id, u, e)
    ensures e == if copy.id == id then Lose(AddressOf(copy)) else Nothing
  {
    TakeCopyLoad(w.node.net, w.reports, copy, id);
    AddReportLoad(w1.node.net, w.reports, Report(copy, ConnectorError), id);
    if copy.id == id {
      e := Lose(AddressOf(copy));
    } else {
      e := Nothing;
    }
  }

  lemma {:induction false} FailureEffect(cfg: Config, w: World, step: Step, id: nat, u: string) returns (e: Effect)
    requires Inv(cfg, w) && ToAll(w, id, u) && Enabled(cfg, w, step)
    requires step.Control? || step.Fault? || step.SendFail?
    ensures Has(w, After(cfg, w, step), id, u, e)
    ensures e.Lose? ==> !Faultless(step, id)
    ensures e == Nothing || e.Lose?
  {
    hide Plausible;
    var copy := step.copy;
    assert PacketOk(cfg, w.born, w.accepted, copy);
    var taken := TakeCopy(w, copy);
    match step
    case Control(_) => e := TakeEffect(w, taken, copy, id, u);
    case Fault(_) =>
      var w1 := taken.(reports := taken.reports + multiset{Report(copy, ConnectorError)});
      e := TakeEffect(w, if copy.IsReliable() then w1 else taken, copy, id, u);
    case SendFail(_) =>
      e := TakeEffect(w, taken.(node := Persist(taken.node, copy, NetworkError)), copy, id, u);
  }

  /** Sending another message leaves the counts of this one alone. */
  lemma {:induction false} SendOtherLoad(cfg: Config, n: Node, m: Message, pick: Address, reports: multiset<Report>,
                                         id: nat)
    requires m.id != id
    ensures forall s, i ::
      Load(SendToConnector(cfg, n, m, pick).net, reports, id, s, i) ==
      Load(n.net, reports, id, s, i)
    ensures SendToConnector(cfg, n, m, pick).channels == n.channels
  {
    SendLoad(n.net, reports, m, RouteTargets(cfg, n.channels, m.to, m.meta.deliveryType, pick), id);
  }

  lemma {:induction false} HandedEffect(cfg: Config, w: World, m: Message, pick: Address, id: nat, u: string)
    requires m.id != id
    ensures Has(w, Handed(cfg, w, m, pick), id, u, Nothing)
  {
    if Addressed(cfg, m).Some? {
      AddressedIsStable(cfg, m, AddressNotFound);
      SendOtherLoad(cfg, w.node, Addressed(cfg, m).value, pick, w.reports, id);
    }
  }

  lemma {:induction false} StoredReportEffect(cfg: Config, w: World, r: Report, pick: Address, ids: FreshIds, id: nat,
                                              u: string)
    requires ToAll(w, id, u) && r in w.reports && r.state != AddressNotFound && CanSettle(cfg, w, r, pick, ids)
    ensures Has(w, Settled(cfg, w, r, pick, ids), id, u, Nothing)
  {
    TakeReportLoad(w.node.net, w.reports, r, id);
    var w1 := w.(reports := w.reports - multiset{r}, node := Persist(w.node, r.msg, r.state));
    assert Has(w, w1, id, u, Nothing);
    if ConfirmationDue(cfg, r.msg, r.state) {
      var w2 := w1.(confirmations := w1.confirmations + multiset{WriteOf(r.msg)});
      HandedEffect(cfg, w2, ConfirmationHanded(cfg, r.msg, ids.id, ids.envelopeId, ids.now), pick, id, u);
    }
  }

  lemma {:induction false} RemoveFromChannel(channels: Channels, user: string, a: Address, u: string)
    ensures ChannelOf(RemoveAddress(channels, user, a), u) ==
            if user == u then ChannelOf(channels, u) - {a} else ChannelOf(channels, u)
  {
  }

  lemma {:induction false} RedeliverOwn(cfg: Config, w: World, r: Report, pick: Address, u: string)
    requires Inv(cfg, w) && r in w.reports && r.state == AddressNotFound && ToAll(w, r.msg.id, u)
    ensures r.msg.to == u && Session(u, AddressOf(r.msg)) !in w.live
    ensures Redeliver(cfg, w.node, r.msg, pick).Some?
    ensures Has(w, w.(node := Redeliver(cfg, w.node, r.msg, pick).value, reports := w.reports - multiset{r}), r.msg.id,
                u, Resend(AddressOf(r.msg)))
    ensures ChannelOf(w.node.channels, u) - {AddressOf(r.msg)} == {} ==>
      r.msg.id in Redeliver(cfg, w.node, r.msg, pick).value.store &&
      Redeliver(cfg, w.node, r.msg, pick).value.store[r.msg.id].state == AddressNotFound
    ensures ChannelOf(w.node.channels, u) - {AddressOf(r.msg)} != {} ==>
      Redeliver(cfg, w.node, r.msg, pick).value.store == w.node.store
  {
    hide Copies, Load, Hit;
    assert PacketOk(cfg, w.born, w.accepted, r.msg) && ReportOk(cfg, w.live, r);
    LocalIsSettled(cfg, r.msg);
    var a, m := AddressOf(r.msg), Adjusted(cfg, r.msg);
    var n := w.node.(channels := RemoveAddress(w.node.channels, u, a));
    RemoveFromChannel(w.node.channels, u, a, u);
    var c1 := ChannelOf(n.channels, u);
    assert RouteTargets(cfg, n.channels, u, All, pick) == c1;
    assert Redeliver(cfg, w.node, r.msg, pick) == Some(SendToConnector(cfg, n, m, pick));
    TakeReportLoad(w.node.net, w.reports, r, m.id);
    SendLoad(w.node.net, w.reports - multiset{r}, m, c1, m.id);
    if c1 == {} {
      forall s, i {:trigger Hits(c1, s, i)} { NoHits(s, i); }
    }
  }

  lemma {:induction false} RedeliverOther(cfg: Config, w: World, r: Report, pick: Address, id: nat,
                                          u: string) returns (e: Effect)
    requires Inv(cfg, w) && r in w.reports && r.state == AddressNotFound && r.msg.id != id && ToAll(w, id, u)
    ensures Redeliver(cfg, w.node, r.msg, pick).Some?
    ensures Has(w, w.(node := Redeliver(cfg, w.node, r.msg, pick).value, reports := w.reports - multiset{r}), id, u, e)
    ensures e == Nothing || e == Shrink(AddressOf(r.msg))
  {
    assert PacketOk(cfg, w.born, w.accepted, r.msg) && ReportOk(cfg, w.live, r);
    LocalIsSettled(cfg, r.msg);
    var a, m := AddressOf(r.msg), Adjusted(cfg, r.msg);
    var n := w.node.(channels := RemoveAddress(w.node.channels, r.msg.to, a));
    RemoveFromChannel(w.node.channels, r.msg.to, a, u);
    TakeReportLoad(w.node.net, w.reports, r, id);
    SendOtherLoad(cfg, n, m, pick, w.reports - multiset{r}, id);
    assert Redeliver(cfg, w.node, r.msg, pick) == Some(SendToConnector(cfg, n, m, pick));
    e := if r.msg.to == u && a in ChannelOf(w.node.channels, u) then Shrink(a) else Nothing;
  }

  lemma {:induction false} SettledEffect(cfg: Config, w: World, r: Report, pick: Address, ids: FreshIds, id: nat,
                                         u: string) returns (e: Effect)
    requires Inv(cfg, w) && ToAll(w, id, u) && r in w.reports && CanSettle(cfg, w, r, pick, ids)
    ensures Has(w, Settled(cfg, w, r, pick, ids), id, u, e)
    ensures !e.Lose? && !e.Deliver?
    ensures e.Resend? ==> r.msg.id == id && r.state == AddressNotFound && e.a == AddressOf(r.msg)
    ensures r.msg.id == id && r.state == AddressNotFound ==> e.Resend?
  {
    if r.state != AddressNotFound {
      StoredReportEffect(cfg, w, r, pick, ids, id, u);
      e := Nothing;
    } else {
      assert PacketOk(cfg, w.born, w.accepted, r.msg);
      if r.msg.id == id {
        RedeliverOwn(cfg, w, r, pick, u);
        e := Resend(AddressOf(r.msg));
      } else {
        e := RedeliverOther(cfg, w, r, pick, id, u);
      }
    }
  }

  lemma {:induction false} FetchedEffect(cfg: Config, w: World, row: Message, pick: Address, failed: set<Address>,
                                         id: nat, u: string)
    requires Inv(cfg, w) && ToAll(w, id, u) && Enabled(cfg, w, FetchOne(row, pick, failed)) && row.id != id
    ensures Has(w, Fetched(cfg, w, row, pick, failed), id, u, Nothing)
  {
    FetchedIs(cfg, w, row, pick, failed);
    hide Fetched, Inv, Enabled, Reached, Copies, Adjusted;
    var m := Adjusted(cfg, row);
    SendLoad(w.node.net, w.reports, m, Reached(cfg, w.node.channels, m, pick, failed), id);
  }

  lemma {:induction false} SpawnEffect(cfg: Config, w: World, step: Step, id: nat, u: string)
    requires Inv(cfg, w) && ToAll(w, id, u) && step.Spawn? && Enabled(cfg, w, step)
    ensures Has(w, After(cfg, w, step), id, u, Nothing)
  {
    hide Inv, Sum;
    var child := SpawnedCopy(cfg, step);
    var net := w.node.net + multiset{child};
    TakeCopyLoad(net, w.reports, child, id);
    assert net - multiset{child} == w.node.net;
  }

  lemma {:induction false} UntouchedEffect(w: World, w1: World, id: nat, u: string)
    requires w1.node.net == w.node.net && w1.reports == w.reports && w1.writes == w.writes
    ensures SameLoad(w, w1, id) && SameWrites(w, w1, id)
    ensures ChannelOf(w1.node.channels, u) == ChannelOf(w.node.channels, u) ==> Has(w, w1, id, u, Nothing)
  {
  }

  lemma {:induction false} WithdrawEffect(w: World, s: Session, id: nat, u: string) returns (e: Effect)
    requires s !in w.live
    ensures Has(w, w.(node := w.node.(channels := RemoveAddress(w.node.channels, s.user, s.address))), id, u, e)
    ensures e == Nothing || e.Shrink?
  {
    var w1 := w.(node := w.node.(channels := RemoveAddress(w.node.channels, s.user, s.address)));
    UntouchedEffect(w, w1, id, u);
    RemoveFromChannel(w.node.channels, s.user, s.address, u);
    if s.user == u && s.address in ChannelOf(w.node.channels, u) {
      e := Shrink(s.address);
    } else {
      e := Nothing;
    }
  }

  lemma {:induction false} SessionEffect(cfg: Config, w: World, step: Step, id: nat, u: string) returns (e: Effect)
    requires Enabled(cfg, w, step) && Allowed(step, id, u)
    requires step.Connect? || step.Announce? || step.Disconnect? || step.Withdraw?
    ensures Has(w, After(cfg, w, step), id, u, e)
    ensures e == Nothing || e.Shrink?
  {
    if step.Withdraw? {
      e := WithdrawEffect(w, step.session, id, u);
    } else {
      UntouchedEffect(w, After(cfg, w, step), id, u);
      e := Nothing;
    }
  }

  lemma {:induction false} GroupMissEffect(cfg: Config, w: World, m: Message, fromGroup: set<nat>, pick: Address,
                                           id: nat, u: string)
    requires m.id != id
    ensures Has(w, Handed(cfg, w, m, pick).(fromGroup := fromGroup), id, u, Nothing)
  {
    HandedEffect(cfg, w, m, pick, id, u);
    var w1 := Handed(cfg, w, m, pick);
    var w2 := w1.(fromGroup := fromGroup);
    UntouchedEffect(w1, w2, id, u);
  }

  lemma {:induction false} InputEffect(cfg: Config, w: World, step: Step, id: nat, u: string)
    requires Inv(cfg, w) && ToAll(w, id, u) && Enabled(cfg, w, step) && Allowed(step, id, u)
    requires step.Accept? || step.AcceptGroupMiss? || step.Spawn? || step.FetchOne?
    ensures Has(w, After(cfg, w, step), id, u, Nothing)
  {
    match step
    case Accept(m, pick) => HandedEffect(cfg, w, m, pick, id, u);
    case AcceptGroupMiss(group, user, gid, now, pick) =>
      GroupMissEffect(cfg, w, GroupMissHanded(group, user, gid, now), w.fromGroup + {gid}, pick, id, u);
    case Spawn(_, _, _, _, _) => SpawnEffect(cfg, w, step, id, u);
    case FetchOne(row, pick, failed) => FetchedEffect(cfg, w, row, pick, failed, id, u);
  }

  /** Every step has one of the five effects, and only a failure loses a copy. */
  lemma {:induction false} StepEffect(cfg: Config, w: World, step: Step, id: nat, u: string) returns (e: Effect)
    requires Inv(cfg, w) && ToAll(w, id, u) && Enabled(cfg, w, step) && Allowed(step, id, u)
    ensures Has(w, After(cfg, w, step), id, u, e)
    ensures e.Lose? ==> !Faultless(step, id)
    ensures e.Resend? <==> step.Settle? && step.report.msg.id == id && step.report.state == AddressNotFound
  {
    hide Inv;
    if step.Receive? {
      e := ReceiveEffect(cfg, w, step.copy, step.success, id, u);
    } else if step.Settle? {
      e := SettledEffect(cfg, w, step.report, step.pick, step.ids, id, u);
    } else if step.Control? || step.Fault? || step.SendFail? {
      e := FailureEffect(cfg, w, step, id, u);
    } else if step.Connect? || step.Announce? || step.Disconnect? || step.Withdraw? {
      e := SessionEffect(cfg, w, step, id, u);
    } else {
      InputEffect(cfg, w, step, id, u);
      e := Nothing;
    }
  }
}
