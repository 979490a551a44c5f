/** Where an accepted message is: every in-flight copy, every report other than success, every socket
write and the stored row is one token of it. A reliable message never runs out of tokens, and a
message for ANY one address never has more than one - except that a fetch loses what it fetched when
no copy goes out: the user has no address, or sending fails at once. */
module NoLoss {
  import opened Types
  import opened Names
  import opened ClientApps
  import opened Bags
  import opened Messages
  import opened PostOffices
  import opened Delivery

  function OfId(id: nat): Message -> nat {
    (m: Message) => if m.id == id then 1 else 0
  }

  function PendingOfId(id: nat): Report -> nat {
    (r: Report) => if r.msg.id == id && r.state != Processed then 1 else 0
  }

  function WriteOfId(id: nat): Write -> nat {
    (x: Write) => if x.id == id then 1 else 0
  }

  ghost function NodeTokens(n: Node, id: nat): nat {
    Sum(OfId(id), n.net) + if id in n.store then 1 else 0
  }

  ghost function Tokens(w: World, id: nat): nat {
    NodeTokens(w.node, id) + Sum(PendingOfId(id), w.reports) + Sum(WriteOfId(id), w.writes)
  }

  /** The messages the reliability promise is about. */
  predicate Tracked(w: World, id: nat) {
    id in w.accepted && w.accepted[id].IsReliable() && DefaultOutgoing(w.accepted[id])
  }

  ghost predicate Accounted(w: World, id: nat) {
    Tracked(w, id) ==> Tokens(w, id) >= 1 && (w.accepted[id].meta.deliveryType == Any ==> Tokens(w, id) == 1)
  }

  ghost predicate WritesKnown(w: World) {
    forall x :: x in w.writes ==> x.id in w.accepted
  }

  /** The guard a fetch of the message needs: some copy of it goes out before the row is removed. It fails
  when the user has no address, and when sending fails at once for every address chosen. */
  predicate FetchGoesOut(cfg: Config, w: World, step: Step, id: nat) {
    step.FetchOne? && step.row.id == id ==>
      Reached(cfg, w.node.channels, Adjusted(cfg, step.row), step.pick, step.failed) != {}
  }

  /** Every fetch of the message sends it; fetches of other messages may not. */
  ghost predicate OwnFetchesGoOut(cfg: Config, ws: seq<World>, steps: seq<Step>, id: nat)
    requires |ws| == |steps| + 1
  {
    forall j :: 0 <= j < |steps| ==> FetchGoesOut(cfg, ws[j], steps[j], id)
  }

  /** Different addresses give different copies. */
  lemma {:induction false} CopiesSize(m: Message, targets: set<Address>)
    ensures |Copies(m, targets)| == |targets|
    decreases |targets|
  {
    if targets != {} {
      var a :| a in targets;
      var rest := targets - {a};
      CopiesSize(m, rest);
      assert Copies(m, targets) == Copies(m, rest) + {m.WithTarget(a)};
      forall b | b in rest ensures m.WithTarget(b) != m.WithTarget(a) {
        assert m.WithTarget(b).meta.target.value == b;
      }
    }
  }

  lemma {:induction false} CopiesTokens(m: Message, net: multiset<Message>, targets: set<Address>, id: nat)
    ensures Sum(OfId(id), net + multiset(Copies(m, targets))) == Sum(OfId(id), net) + if m.id == id then
            |targets| else 0
  {
    var copies := Copies(m, targets);
    SumUnion(OfId(id), net, multiset(copies));
    SumConstant(OfId(id), copies, if m.id == id then 1 else 0);
    CopiesSize(m, targets);
  }

  function TargetsOf(cfg: Config, n: Node, m: Message, pick: Address): set<Address> {
    RouteTargets(cfg, n.channels, m.to, m.meta.deliveryType, pick)
  }

  lemma {:induction false} TargetsSize(cfg: Config, n: Node, m: Message, pick: Address)
    ensures TargetsOf(cfg, n, m, pick) == {} <==> Candidates(cfg, n.channels, m.to) == {}
    ensures TargetsOf(cfg, n, m, pick) != {} ==> |TargetsOf(cfg, n, m, pick)| >= 1
    ensures TargetsOf(cfg, n, m, pick) != {} && m.meta.deliveryType == Any ==> |TargetsOf(cfg, n, m, pick)| == 1
  {
  }

  /** Sending adds one token per target; without a target the message gets its row. */
  lemma {:induction false} SendTokens(cfg: Config, n: Node, m: Message, pick: Address, id: nat)
    ensures m.id != id ==> NodeTokens(SendToConnector(cfg, n, m, pick), id) == NodeTokens(n, id)
    ensures m.id == id && TargetsOf(cfg, n, m, pick) != {} ==>
      NodeTokens(SendToConnector(cfg, n, m, pick), id) == NodeTokens(n, id) + |TargetsOf(cfg, n, m, pick)| &&
      SendToConnector(cfg, n, m, pick).store == n.store
    ensures m.id == id && TargetsOf(cfg, n, m, pick) == {} && m.IsReliable() ==>
      NodeTokens(SendToConnector(cfg, n, m, pick), id) == NodeTokens(n, id) + if id in n.store then 0 else 1
    ensures TargetsOf(cfg, n, m, pick) == {} && m.IsReliable() ==>
      m.id in SendToConnector(cfg, n, m, pick).store && SendToConnector(cfg, n, m, pick).net == n.net
  {
    hide Sum;
    CopiesTokens(m, n.net, TargetsOf(cfg, n, m, pick), id);
  }

  lemma {:induction false} TakeTokens(w: World, copy: Message, id: nat)
    requires copy in w.node.net
    ensures Tokens(w, id) == Tokens(TakeCopy(w, copy), id) + OfId(id)(copy)
  {
    SumRemove(OfId(id), w.node.net, copy);
  }

  lemma {:induction false} AddReportTokens(w: World, r: Report, id: nat)
    ensures Tokens(w.(reports := w.reports + multiset{r}), id) == Tokens(w, id) + PendingOfId(id)(r)
  {
    SumAdd(PendingOfId(id), w.reports, r);
  }

  lemma {:induction false} TakeReportTokens(w: World, r: Report, id: nat)
    requires r in w.reports
    ensures Tokens(w, id) == Tokens(w.(reports := w.reports - multiset{r}), id) + PendingOfId(id)(r)
  {
    SumRemove(PendingOfId(id), w.reports, r);
  }

  /** A message nobody handed over yet has no token. */
  lemma {:induction false} FreshHasNoTokens(cfg: Config, w: World, id: nat)
    requires Inv(cfg, w) && WritesKnown(w) && FreshId(w, id)
    ensures Tokens(w, id) == 0
  {
    SumZero(OfId(id), w.node.net);
    SumZero(PendingOfId(id), w.reports);
    SumZero(WriteOfId(id), w.writes);
  }

  lemma {:induction false} HandedAccounts(cfg: Config, w: World, m: Message, pick: Address, id: nat)
    requires Inv(cfg, w) && WritesKnown(w) && FreshId(w, m.id)
    requires Accounted(w, id)
    ensures Accounted(Handed(cfg, w, m, pick), id)
  {
    var w1 := Handed(cfg, w, m, pick);
    HandedAccepts(cfg, w, m, pick);
    if m.id == id {
      FreshHasNoTokens(cfg, w, id);
    }
    match Addressed(cfg, m)
    case None =>
      assert w1.node == Persist(w.node, m, ProcessorError) && w1.reports == w.reports && w1.writes == w.writes;
      PersistTokens(w.node, m, ProcessorError, id);
    case Some(m1) =>
      assert w1.node == SendToConnector(cfg, w.node, m1, pick) && w1.reports == w.reports && w1.writes == w.writes;
      AddressedIsStable(cfg, m, AddressNotFound);
      SendTokens(cfg, w.node, m1, pick, id);
      TargetsSize(cfg, w.node, m1, pick);
      assert m.id == id ==> w1.accepted[id].meta.deliveryType == m1.meta.deliveryType;
  }

  lemma {:induction false} WriteTokens(w: World, x: Write, id: nat)
    ensures Tokens(w.(writes := w.writes + multiset{x}), id) == Tokens(w, id) + WriteOfId(id)(x)
  {
    SumAdd(WriteOfId(id), w.writes, x);
  }

  /** The connector turns a copy into a write or a report: one token for one. */
  lemma {:induction false} ReceivedTokens(w: World, copy: Message, success: bool, id: nat)
    requires copy in w.node.net && copy.IsReliable()
    ensures Tokens(Received(w, copy, success), id) == Tokens(w, id)
  {
    hide Tokens;
    TakeTokens(w, copy, id);
    var w1 := TakeCopy(w, copy);
    if SessionOf(copy) in w.live {
      WriteTokens(w1, WriteOf(copy), id);
      var w2 := if success then w1.(writes := w1.writes + multiset{WriteOf(copy)}) else w1;
      AddReportTokens(w2, Report(copy, if success then Processed else NetworkError), id);
    } else {
      AddReportTokens(w1, Report(copy, AddressNotFound), id);
    }
  }

  lemma {:induction false} ReceivedOtherTokens(w: World, copy: Message, success: bool, id: nat)
    requires copy in w.node.net && copy.id != id
    ensures Tokens(Received(w, copy, success), id) == Tokens(w, id)
  {
    hide Tokens;
    TakeTokens(w, copy, id);
    var w1 := TakeCopy(w, copy);
    WriteTokens(w1, WriteOf(copy), id);
    var w2 := if SessionOf(copy) in w.live && success then w1.(writes := w1.writes + multiset{WriteOf(copy)}) else w1;
    AddReportTokens(w2, Report(copy, if success then Processed else NetworkError), id);
    AddReportTokens(w1, Report(copy, AddressNotFound), id);
  }

  /** A copy is reliable exactly if the message accepted under its id is. */
  lemma {:induction false} CopyIsKnown(cfg: Config, w: World, copy: Message)
    requires Inv(cfg, w) && copy in w.node.net
    ensures copy.id in w.accepted && w.accepted[copy.id].IsReliable() == copy.IsReliable()
    ensures DefaultOutgoing(w.accepted[copy.id]) == DefaultOutgoing(copy)
  {
    assert PacketOk(cfg, w.born, w.accepted, copy);
    hide Inv;
  }

  lemma {:induction false} ReceivedKeepsAccepted(w: World, copy: Message, success: bool)
    ensures Received(w, copy, success).accepted == w.accepted
  {
  }

  lemma {:induction false} ReceivedAccounts(cfg: Config, w: World, copy: Message, success: bool, id: nat)
    requires Inv(cfg, w) && copy in w.node.net && Accounted(w, id)
    ensures Accounted(Received(w, copy, success), id)
  {
    CopyIsKnown(cfg, w, copy);
    ReceivedKeepsAccepted(w, copy, success);
    hide Sum, Tokens, Received, Inv, DefaultOutgoing;
    if copy.id != id {
      ReceivedOtherTokens(w, copy, success, id);
    } else if copy.IsReliable() {
      ReceivedTokens(w, copy, success, id);
    }
  }

  lemma {:induction false} PersistTokens(n: Node, m: Message, state: MessageState, id: nat)
    ensures m.id != id ==> NodeTokens(Persist(n, m, state), id) == NodeTokens(n, id)
    ensures m.id == id && m.IsReliable() && state != Processed ==>
      NodeTokens(Persist(n, m, state), id) == NodeTokens(n, id) + if id in n.store then 0 else 1
    ensures state == Processed ==> Persist(n, m, state) == n
  {
  }

  lemma {:induction false} FaultAccounts(cfg: Config, w: World, copy: Message, id: nat)
    requires Inv(cfg, w) && copy in w.node.net && Accounted(w, id)
    ensures Accounted(After(cfg, w, Fault(copy)), id)
  {
    hide Tokens;
    assert PacketOk(cfg, w.born, w.accepted, copy);
    TakeTokens(w, copy, id);
    AddReportTokens(TakeCopy(w, copy), Report(copy, ConnectorError), id);
  }

  /** A copy that cannot be sent becomes a row, or is covered by one. */
  lemma {:induction false} SendFailTokens(w: World, copy: Message, id: nat)
    requires copy in w.node.net && copy.IsReliable()
    ensures var w1 := TakeCopy(w, copy);
      var w2 := w1.(node := Persist(w1.node, copy, NetworkError));
      if copy.id == id && id in w.node.store then 1 <= Tokens(w2, id) &&
         2 <= Tokens(w, id) else Tokens(w2, id) == Tokens(w, id)
  {
    TakeTokens(w, copy, id);
    PersistTokens(TakeCopy(w, copy).node, copy, NetworkError, id);
    hide Sum;
  }

  lemma {:induction false} SendFailAccounts(cfg: Config, w: World, copy: Message, id: nat)
    requires Inv(cfg, w) && copy in w.node.net && Accounted(w, id)
    ensures Accounted(After(cfg, w, SendFail(copy)), id)
  {
    hide Tokens;
    assert PacketOk(cfg, w.born, w.accepted, copy);
    TakeTokens(w, copy, id);
    if copy.IsReliable() {
      SendFailTokens(w, copy, id);
    }
  }

  lemma {:induction false} ControlAccounts(cfg: Config, w: World, copy: Message, id: nat)
    requires Inv(cfg, w) && copy in w.node.net && !DefaultOutgoing(copy) && Accounted(w, id)
    ensures Accounted(TakeCopy(w, copy), id)
  {
    hide Tokens;
    assert PacketOk(cfg, w.born, w.accepted, copy);
    TakeTokens(w, copy, id);
  }

  /** A not-found report gives its token to the copies sent anew, or to the row. */
  lemma {:induction false} RedeliverAccounts(cfg: Config, w: World, r: Report, pick: Address, id: nat)
    requires Inv(cfg, w) && r in w.reports && r.state == AddressNotFound && Accounted(w, id)
    requires Redeliver(cfg, w.node, r.msg, pick).Some?
    ensures Accounted(w.(node := Redeliver(cfg, w.node, r.msg, pick).value, reports := w.reports - multiset{r}), id)
  {
    assert PacketOk(cfg, w.born, w.accepted, r.msg) && ReportOk(cfg, w.live, r);
    TakeReportTokens(w, r, id);
    LocalIsSettled(cfg, r.msg);
    var n := w.node.(channels := RemoveAddress(w.node.channels, r.msg.to, AddressOf(r.msg)));
    var m := Adjusted(cfg, r.msg);
    assert Redeliver(cfg, w.node, r.msg, pick).value == SendToConnector(cfg, n, m, pick);
    assert NodeTokens(n, id) == NodeTokens(w.node, id);
    SendTokens(cfg, n, m, pick, id);
    TargetsSize(cfg, n, m, pick);
    assert m.id == id ==> w.accepted[id].meta.deliveryType == m.meta.deliveryType;
  }

  /** Any other report stores its message, or is about a write already made. */
  lemma {:induction false} StoreReportAccounts(cfg: Config, w: World, r: Report, id: nat)
    requires Inv(cfg, w) && r in w.reports && r.state != AddressNotFound && Accounted(w, id)
    ensures Accounted(w.(node := Persist(w.node, r.msg, r.state), reports := w.reports - multiset{r}), id)
  {
    assert PacketOk(cfg, w.born, w.accepted, r.msg);
    TakeReportTokens(w, r, id);
    PersistTokens(w.node, r.msg, r.state, id);
  }

  lemma {:induction false} ConfirmedAccounts(cfg: Config, w: World, m: Message, id: nat)
    requires Inv(cfg, w) && WritesKnown(w) && Accounted(w, id)
    ensures var w1 := w.(confirmations := w.confirmations + multiset{WriteOf(m)});
      Inv(cfg, w1) && WritesKnown(w1) && Accounted(w1, id)
  {
  }

  lemma {:induction false} SettledAccounts(cfg: Config, w: World, r: Report, pick: Address, ids: FreshIds, id: nat)
    requires Inv(cfg, w) && WritesKnown(w) && r in w.reports && CanSettle(cfg, w, r, pick, ids) && Accounted(w, id)
    ensures Accounted(Settled(cfg, w, r, pick, ids), id)
  {
    var w1 := w.(reports := w.reports - multiset{r});
    assert Inv(cfg, w1);
    assert PacketOk(cfg, w.born, w.accepted, r.msg);
    hide Tokens, Tracked, Accounted, PacketOk, Redeliver, Handed;
    if r.state == AddressNotFound {
      RedeliverKeepsInv(cfg, w1, r.msg, pick);
      RedeliverAccounts(cfg, w, r, pick, id);
    } else {
      StoreReportAccounts(cfg, w, r, id);
      PersistKeepsInv(cfg, w1, r.msg, r.state);
      var w2 := w1.(node := Persist(w1.node, r.msg, r.state));
      if ConfirmationDue(cfg, r.msg, r.state) {
        var w3 := w2.(confirmations := w2.confirmations + multiset{WriteOf(r.msg)});
        ConfirmedAccounts(cfg, w2, r.msg, id);
        HandedAccounts(cfg, w3, ConfirmationHanded(cfg, r.msg, ids.id, ids.envelopeId, ids.now), pick, id);
      }
    }
  }

  lemma {:induction false} RemoveRowTokens(n: Node, id: nat, other: nat)
    requires id in n.store
    ensures NodeTokens(n.(store := n.store - {id}), other) == NodeTokens(n, other) - if id == other then 1 else 0
  {
  }

  lemma {:induction false} NodeChange(w: World, n: Node, id: nat)
    ensures Tokens(w.(node := n), id) - NodeTokens(n, id) == Tokens(w, id) - NodeTokens(w.node, id)
  {
  }

  lemma {:induction false} FetchedNodeTokens(n: Node, m: Message, reached: set<Address>, id: nat)
    requires m.id in n.store
    ensures NodeTokens(SentAndRemoved(n, m, reached, m.id), id) ==
            NodeTokens(n, id) + if m.id == id then |reached| - 1 else 0
  {
    hide Sum;
    CopiesTokens(m, n.net, reached, id);
  }

  /** A fetch trades the row for the copies that go out. */
  lemma {:induction false} FetchedTokens(cfg: Config, w: World, row: Message, pick: Address, failed: set<Address>,
                                         id: nat)
    requires Inv(cfg, w) && Enabled(cfg, w, FetchOne(row, pick, failed))
    ensures row.id != id ==> Tokens(Fetched(cfg, w, row, pick, failed), id) == Tokens(w, id)
    ensures row.id == id ==>
      Tokens(Fetched(cfg, w, row, pick, failed), id) ==
      Tokens(w, id) - 1 + |Reached(cfg, w.node.channels, Adjusted(cfg, row), pick, failed)|
  {
    hide *;
    FetchedIs(cfg, w, row, pick, failed);
    var m := Adjusted(cfg, row);
    var reached := Reached(cfg, w.node.channels, m, pick, failed);
    FetchedNodeTokens(w.node, m, reached, id);
    NodeChange(w, SentAndRemoved(w.node, m, reached, m.id), id);
  }

  lemma {:induction false} ReachedSize(cfg: Config, channels: Channels, m: Message, pick: Address, failed: set<Address>)
    ensures var reached := Reached(cfg, channels, m, pick, failed);
      && (reached != {} <==> |reached| >= 1)
      && (m.meta.deliveryType == Any && Candidates(cfg, channels, m.to) != {} ==> |reached| <= 1)
      && (Candidates(cfg, channels, m.to) == {} ==> reached == {})
  {
    var reached := Reached(cfg, channels, m, pick, failed);
    if m.meta.deliveryType == Any && Candidates(cfg, channels, m.to) != {} {
      assert reached == {} || reached == {pick};
    }
  }

  lemma {:induction false} FetchedAccounts(cfg: Config, w: World, row: Message, pick: Address, failed: set<Address>,
                                           id: nat)
    requires Inv(cfg, w) && Enabled(cfg, w, FetchOne(row, pick, failed)) && Accounted(w, id)
    requires FetchGoesOut(cfg, w, FetchOne(row, pick, failed), id)
    ensures Accounted(Fetched(cfg, w, row, pick, failed), id)
  {
    FetchedTokens(cfg, w, row, pick, failed, id);
    ReachedSize(cfg, w.node.channels, Adjusted(cfg, row), pick, failed);
    FetchedIs(cfg, w, row, pick, failed);
    AdjustedType(cfg, w, row);
    hide Inv, Enabled, Tokens, Fetched, Reached, Candidates, Copies, SameMessage, Adjusted;
  }

  lemma {:induction false} AdjustedType(cfg: Config, w: World, row: Message)
    ensures SameMessage(cfg, w.accepted, Adjusted(cfg, row)) ==>
      w.accepted[Adjusted(cfg, row).id].meta.deliveryType == Adjusted(cfg, row).meta.deliveryType
  {
  }

  lemma {:induction false} SpawnAccounts(cfg: Config, w: World, step: Step, id: nat)
    requires Inv(cfg, w) && WritesKnown(w) && step.Spawn? && Enabled(cfg, w, step) && Accounted(w, id)
    ensures Accounted(After(cfg, w, step), id)
  {
    hide Sum, Inv;
    SumAdd(OfId(id), w.node.net, SpawnedCopy(cfg, step));
    if id == step.id {
      FreshHasNoTokens(cfg, w, id);
    }
  }

  /** Sessions come and go without touching any token. */
  lemma {:induction false} SessionStepAccounts(cfg: Config, w: World, step: Step, id: nat)
    requires step.Connect? || step.Announce? || step.Disconnect? || step.Withdraw?
    requires Accounted(w, id)
    ensures Accounted(After(cfg, w, step), id)
  {
    var w1 := After(cfg, w, step);
    assert w1.node.net == w.node.net && w1.node.store == w.node.store;
  }

  lemma {:induction false} StepAccounts(cfg: Config, w: World, step: Step, id: nat)
    requires Inv(cfg, w) && WritesKnown(w) && Enabled(cfg, w, step) && FetchGoesOut(cfg, w, step, id)
    requires Accounted(w, id)
    ensures Accounted(After(cfg, w, step), id)
  {
    hide Inv, Handed;
    match step
    case Accept(m, pick) => HandedAccounts(cfg, w, m, pick, id);
    case AcceptGroupMiss(group, user, gid, now, pick) =>
      var m := GroupMissHanded(group, user, gid, now);
      HandedAccounts(cfg, w, m, pick, id);
      var w1 := Handed(cfg, w, m, pick);
      assert Tokens(w1.(fromGroup := w.fromGroup + {gid}), id) == Tokens(w1, id);
    case Spawn(_, _, _, _, _) => SpawnAccounts(cfg, w, step, id);
    case Receive(copy, success) => ReceivedAccounts(cfg, w, copy, success, id);
    case Settle(report, pick, ids) => SettledAccounts(cfg, w, report, pick, ids, id);
    case FetchOne(row, pick, failed) => FetchedAccounts(cfg, w, row, pick, failed, id);
    case Control(copy) => ControlAccounts(cfg, w, copy, id);
    case Fault(copy) => FaultAccounts(cfg, w, copy, id);
    case SendFail(copy) => SendFailAccounts(cfg, w, copy, id);
    case Connect(_) => SessionStepAccounts(cfg, w, step, id);
    case Announce(_) => SessionStepAccounts(cfg, w, step, id);
    case Disconnect(_) => SessionStepAccounts(cfg, w, step, id);
    case Withdraw(_) => SessionStepAccounts(cfg, w, step, id);
  }

  lemma {:induction false} StepKeepsWritesKnown(cfg: Config, w: World, step: Step)
    requires Inv(cfg, w) && WritesKnown(w) && Enabled(cfg, w, step)
    ensures WritesKnown(After(cfg, w, step))
  {
    StepGrowsAccepted(cfg, w, step);
    if step.Receive? {
      assert PacketOk(cfg, w.born, w.accepted, step.copy);
    }
  }

  lemma {:induction false} StartLosesNothing(cfg: Config)
    ensures Inv(cfg, START) && WritesKnown(START) && forall id :: Accounted(START, id)
  {
  }

  /** Safety over whole runs: when every fetch of a message sends it, the message is never lost,
  and one for ANY one address is never doubled - whatever happens to other messages. */
  lemma {:induction false} NothingIsLost(cfg: Config, ws: seq<World>, steps: seq<Step>, i: nat, id: nat)
    requires IsRun(cfg, ws, steps) && i < |ws| && OwnFetchesGoOut(cfg, ws, steps, id)
    requires Inv(cfg, ws[0]) && WritesKnown(ws[0]) && Accounted(ws[0], id)
    ensures Inv(cfg, ws[i]) && WritesKnown(ws[i]) && Accounted(ws[i], id)
  {
    hide Inv, WritesKnown, Accounted, Enabled, After, FetchGoesOut;
    if i > 0 {
      NothingIsLost(cfg, ws, steps, i - 1, id);
      StepKeepsInv(cfg, ws[i - 1], steps[i - 1]);
      StepKeepsWritesKnown(cfg, ws[i - 1], steps[i - 1]);
      StepAccounts(cfg, ws[i - 1], steps[i - 1], id);
    }
  }

  /** The same in words a reader can check: the message is somewhere. */
  ghost predicate IsSomewhere(w: World, id: nat) {
    || (exists m :: m in w.node.net && m.id == id)
    || (exists r :: r in w.reports && r.msg.id == id && r.state != Processed)
    || (exists x :: x in w.writes && x.id == id)
    || id in w.node.store
  }

  lemma {:induction false} TokensAreSomewhere(w: World, id: nat)
    ensures Tokens(w, id) >= 1 <==> IsSomewhere(w, id)
  {
    if Sum(OfId(id), w.node.net) > 0 { SumPositive(OfId(id), w.node.net); }
    if Sum(PendingOfId(id), w.reports) > 0 { SumPositive(PendingOfId(id), w.reports); }
    if Sum(WriteOfId(id), w.writes) > 0 { SumPositive(WriteOfId(id), w.writes); }
    if m :| m in w.node.net && m.id == id { SumAtLeast(OfId(id), w.node.net, m); }
    if r :| r in w.reports && r.msg.id == id && r.state != Processed { SumAtLeast(PendingOfId(id), w.reports, r); }
    if x :| x in w.writes && x.id == id { SumAtLeast(WriteOfId(id), w.writes, x); }
  }

  lemma {:induction false} AcceptedIsSomewhere(cfg: Config, ws: seq<World>, steps: seq<Step>, i: nat, id: nat)
    requires IsRun(cfg, ws, steps) && ws[0] == START && i < |ws| && OwnFetchesGoOut(cfg, ws, steps, id)
    requires Tracked(ws[i], id)
    ensures IsSomewhere(ws[i], id)
  {
    StartLosesNothing(cfg);
    NothingIsLost(cfg, ws, steps, i, id);
    TokensAreSomewhere(ws[i], id);
  }

  /** The guard is exact. A row that is the last trace of its message survives its fetch if and only if a
  copy goes out before the removal: otherwise the delivery has saved the row again, because it found no
  address or because sending failed, and the loop then removes it. */
  lemma {:induction false} FetchLosesExactlyWhenNothingIsSent(cfg: Config, w: World, row: Message, pick: Address,
                                                              failed: set<Address>)
    requires Inv(cfg, w) && Enabled(cfg, w, FetchOne(row, pick, failed))
    requires Tokens(w, row.id) == 1
    ensures IsSomewhere(Fetched(cfg, w, row, pick, failed), row.id) <==>
            Reached(cfg, w.node.channels, Adjusted(cfg, row), pick, failed) != {}
  {
    hide *;
    FetchedTokens(cfg, w, row, pick, failed, row.id);
    ReachedSize(cfg, w.node.channels, Adjusted(cfg, row), pick, failed);
    TokensAreSomewhere(Fetched(cfg, w, row, pick, failed), row.id);
  }

  /** With `failed` empty this comes down to the user having an address. */
  lemma {:induction false} ReachedWithoutFailures(cfg: Config, channels: Channels, m: Message, pick: Address)
    ensures Reached(cfg, channels, m, pick, {}) != {} <==> Candidates(cfg, channels, m.to) != {}
  {
    assert Reached(cfg, channels, m, pick, {}) == RouteTargets(cfg, channels, m.to, m.meta.deliveryType, pick);
  }

  /** A session that can exist in this domain. */
  predicate IsPossible(cfg: Config, s: Session) {
    s.address.socketId >= 0 && s.address.domain == cfg.domain
  }

  /** The row of a message that was accepted without any address for its user. */
  function RowOf(m1: Message): Message {
    m1.(state := AddressNotFound)
  }

  /** The world after its acceptance, with no one connected. */
  function Stored(cfg: Config, m1: Message): World {
    START.(node := Node(map[], map[m1.id := RowOf(m1)], multiset{}), accepted := map[m1.id := Canon(cfg, m1)])
  }

  /** A message that is stored, because nobody has ever connected. */
  predicate IsOffline(cfg: Config, m: Message) {
    && m.IsReliable() && DefaultOutgoing(m)
    && Addressed(cfg, m).Some? && Candidates(cfg, map[], Addressed(cfg, m).value.to) == {}
  }

  lemma {:induction false} OfflineIsStored(cfg: Config, m: Message, pick: Address)
    requires IsOffline(cfg, m)
    ensures Enabled(cfg, START, Accept(m, pick))
    ensures After(cfg, START, Accept(m, pick)) == Stored(cfg, Addressed(cfg, m).value)
  {
    AddressedIsStable(cfg, m, AddressNotFound);
    var m1 := Addressed(cfg, m).value;
    hide Addressed;
    assert SendToConnector(cfg, START.node, m1, pick) == Stored(cfg, m1).node;
  }

  /** Its fetch, when no copy of it goes out. */
  lemma {:induction false} OfflineIsRemoved(cfg: Config, m: Message, w: World, pick: Address, failed: set<Address>)
    requires IsOffline(cfg, m)
    requires w.node.store == map[m.id := RowOf(Addressed(cfg, m).value)]
    requires CanPick(cfg, w.node.channels, Addressed(cfg, m).value.to, pick)
    requires Reached(cfg, w.node.channels, RowOf(Addressed(cfg, m).value), pick, failed) == {}
    ensures Enabled(cfg, w, FetchOne(RowOf(Addressed(cfg, m).value), pick, failed))
    ensures After(cfg, w, FetchOne(RowOf(Addressed(cfg, m).value), pick, failed)) ==
            w.(node := w.node.(store := map[]))
  {
    AddressedIsStable(cfg, m, AddressNotFound);
    var row := RowOf(Addressed(cfg, m).value);
    hide Addressed, Reached;
    assert w.node.store - {row.id} == map[];
    assert Copies(row, {}) == {};
    assert w.node.net + multiset({}) == w.node.net;
  }

  lemma {:induction false} OfflineIsTracked(cfg: Config, m: Message, w: World)
    requires IsOffline(cfg, m) && w.accepted == Stored(cfg, Addressed(cfg, m).value).accepted
    ensures Tracked(w, m.id)
  {
    AddressedIsStable(cfg, m, AddressNotFound);
    hide Addressed;
  }

  /** Any reliable message for an offline user: it is accepted and stored, the user connects and fetches,
  the fetch overtakes the announcement of the new address, and the message is gone. A notice of
  connection and a request travel apart when the request is FAST. */
  lemma {:induction false} OfflineFetchLoses(cfg: Config, m: Message, pick: Address,
                                             s: Session) returns (ws: seq<World>, steps: seq<Step>)
    requires IsOffline(cfg, m) && IsPossible(cfg, s) && s.user == Addressed(cfg, m).value.to
    ensures IsRun(cfg, ws, steps) && ws[0] == START && |steps| == 3
    ensures steps[0] == Accept(m, pick) && steps[1] == Connect(s) && steps[2].FetchOne? && steps[2].row.to == s.user
    ensures s in ws[2].live && s in ws[3].live
    ensures Tracked(ws[3], m.id) && !IsSomewhere(ws[3], m.id)
  {
    var m1 := Addressed(cfg, m).value;
    var w1 := Stored(cfg, m1);
    var w2 := w1.(live := {s}, born := {s});
    var w3 := w2.(node := w2.node.(store := map[]));
    ReachedWithoutFailures(cfg, map[], RowOf(m1), pick);
    OfflineIsStored(cfg, m, pick);
    OfflineIsTracked(cfg, m, w3);
    AddressedIsStable(cfg, m, AddressNotFound);
    OfflineIsRemoved(cfg, m, w2, pick, {});
    FirstToConnect(cfg, w1, s);
    hide Addressed, Enabled, After, IsRun;
    RunOfNone(cfg, w3);
    RunAfter(cfg, w2, FetchOne(RowOf(m1), pick, {}), [w3], []);
    RunAfter(cfg, w1, Connect(s), [w2, w3], [FetchOne(RowOf(m1), pick, {})]);
    RunAfter(cfg, START, Accept(m, pick), [w1, w2, w3], [Connect(s), FetchOne(RowOf(m1), pick, {})]);
    ws, steps := [START, w1, w2, w3], [Accept(m, pick), Connect(s), FetchOne(RowOf(m1), pick, {})];
  }

  /** The first user to connect becomes the one address of his channel. */
  lemma {:induction false} FirstToConnect(cfg: Config, w: World, s: Session)
    requires w.born == {} && w.live == {} && w.node.channels == map[] && IsPossible(cfg, s)
    ensures Enabled(cfg, w, Connect(s)) && After(cfg, w, Connect(s)) == w.(live := {s}, born := {s})
    ensures var w1 := w.(live := {s}, born := {s});
      && Enabled(cfg, w1, Announce(s))
      && After(cfg, w1, Announce(s)) == w1.(node := w1.node.(channels := map[s.user := {s.address}]))
  {
    var none: set<Address> := {};
    assert none + {s.address} == {s.address};
  }

  lemma {:induction false} OneAddress(cfg: Config, m: Message, pick: Address, s: Session)
    requires Candidates(cfg, map[], m.to) == {} && !IsBlank(m.to) && s.user == m.to
    ensures Candidates(cfg, map[s.user := {s.address}], m.to) == {s.address}
    ensures Reached(cfg, map[s.user := {s.address}], m, s.address, {s.address}) == {}
    ensures CanPick(cfg, map[s.user := {s.address}], m.to, s.address)
  {
  }

  lemma {:induction false} RunOfNone(cfg: Config, w: World)
    ensures IsRun(cfg, [w], [])
  {
  }

  /** The same for a user whose new address has been announced before the fetch: when the one send fails
  at once, its failure saves the row again, and the loop then removes it. */
  lemma {:induction false} FailingFetchLoses(cfg: Config, m: Message, pick: Address,
                                             s: Session) returns (ws: seq<World>, steps: seq<Step>)
    requires IsOffline(cfg, m) && IsPossible(cfg, s) && s.user == Addressed(cfg, m).value.to
    requires !IsBlank(s.user)
    ensures IsRun(cfg, ws, steps) && ws[0] == START && |steps| == 4
    ensures steps[0] == Accept(m, pick) && steps[1] == Connect(s) && steps[2] == Announce(s)
    ensures Candidates(cfg, ws[3].node.channels, s.user) == {s.address} && s in ws[3].live && m.id in ws[3].node.store
    ensures steps[3].FetchOne? && steps[3].row == ws[3].node.store[m.id] && steps[3].failed == {s.address}
    ensures Tracked(ws[4], m.id) && !IsSomewhere(ws[4], m.id)
  {
    var m1 := Addressed(cfg, m).value;
    var w3 := Joined(cfg, m1, s);
    var w4 := w3.(node := w3.node.(store := map[]));
    AddressedIsStable(cfg, m, AddressNotFound);
    OneAddress(cfg, RowOf(m1), pick, s);
    OfflineIsTracked(cfg, m, w4);
    hide Addressed, Enabled, After, IsRun, Candidates, Reached, CanPick, IsOffline, Canon, Tracked;
    FailingFetchRuns(cfg, m, pick, s, w3, w4);
    ws := [START, Stored(cfg, m1), Stored(cfg, m1).(live := {s}, born := {s}), w3, w4];
    steps := [Accept(m, pick), Connect(s), Announce(s), FetchOne(RowOf(m1), s.address, {s.address})];
  }

  /** The row is stored, and its user is connected and announced. */
  function Joined(cfg: Config, m1: Message, s: Session): World {
    var w := Stored(cfg, m1);
    w.(node := w.node.(channels := map[s.user := {s.address}]), live := {s}, born := {s})
  }

  lemma {:induction false} FailingFetchRuns(cfg: Config, m: Message, pick: Address, s: Session, w3: World, w4: World)
    requires IsOffline(cfg, m) && IsPossible(cfg, s) && s.user == Addressed(cfg, m).value.to && !IsBlank(s.user)
    requires w3 == Joined(cfg, Addressed(cfg, m).value, s) && w4 == w3.(node := w3.node.(store := map[]))
    ensures var m1 := Addressed(cfg, m).value;
      IsRun(cfg, [START, Stored(cfg, m1), Stored(cfg, m1).(live := {s}, born := {s}), w3, w4],
            [Accept(m, pick), Connect(s), Announce(s), FetchOne(RowOf(m1), s.address, {s.address})])
  {
    var m1 := Addressed(cfg, m).value;
    var w1 := Stored(cfg, m1);
    var fetch := FetchOne(RowOf(m1), s.address, {s.address});
    AddressedIsStable(cfg, m, AddressNotFound);
    OneAddress(cfg, RowOf(m1), pick, s);
    hide Addressed, Enabled, After, IsRun, Candidates, Reached, CanPick, IsOffline, Canon, Tracked;
    OfflineIsStored(cfg, m, pick);
    OfflineIsRemoved(cfg, m, w3, s.address, {s.address});
    RunOfNone(cfg, w4);
    RunAfter(cfg, w3, fetch, [w4], []);
    assert [w3] + [w4] == [w3, w4] && [fetch] + [] == [fetch];
    JoinThenRun(cfg, w1, s, [w3, w4], [fetch]);
    var w2 := w1.(live := {s}, born := {s});
    RunAfter(cfg, START, Accept(m, pick), [w1, w2, w3, w4], [Connect(s), Announce(s), fetch]);
    assert [START] + [w1, w2, w3, w4] == [START, w1, w2, w3, w4];
    assert [Accept(m, pick)] + [Connect(s), Announce(s), fetch] == [Accept(m, pick), Connect(s), Announce(s), fetch];
  }

  lemma {:induction false} JoinThenRun(cfg: Config, w: World, s: Session, ws: seq<World>, steps: seq<Step>)
    requires w.born == {} && w.live == {} && w.node.channels == map[] && IsPossible(cfg, s)
    requires IsRun(cfg, ws, steps) && |ws| == 2 && |steps| == 1
    requires ws[0] == w.(node := w.node.(channels := map[s.user := {s.address}]), live := {s}, born := {s})
    ensures IsRun(cfg, [w, w.(live := {s}, born := {s}), ws[0], ws[1]], [Connect(s), Announce(s), steps[0]])
  {
    var w1 := w.(live := {s}, born := {s});
    hide *;
    FirstToConnect(cfg, w, s);
    RunAfter(cfg, w1, Announce(s), ws, steps);
    RunAfter(cfg, w, Connect(s), [w1] + ws, [Announce(s)] + steps);
    assert [w] + ([w1] + ws) == [w, w1, ws[0], ws[1]];
    assert [Connect(s)] + ([Announce(s)] + steps) == [Connect(s), Announce(s), steps[0]];
  }

  /** One such message, to a user that a client app knows and that this domain is home to. */
  lemma {:induction false} FetchCanLose() returns (cfg: Config, ws: seq<World>, steps: seq<Step>)
    ensures AppOfUser(cfg.apps, "b-1").Some? && ResolveDomain(cfg.apps, cfg.domain, "b-1") == cfg.domain
    ensures IsRun(cfg, ws, steps) && ws[0] == START && |steps| == 3 && steps[1].Connect?
    ensures steps[1].session.user == "b-1"
    ensures steps[2].FetchOne? && steps[2].row.to == "b-1"
    ensures Tracked(ws[3], 7) && !IsSomewhere(ws[3], 7)
  {
    cfg := Config("d", "p", map["b" := ClientApp("b", "", [])], map[]);
    KnownUser(cfg.apps);
    var m := Message(7, NewContent(MessageForward("a-1", "hi"), Reliable), "a-1", "b-1",
                     NewMeta(None, Some(DomainOnly("d"))), 0, Created);
    LocalIsSettled(cfg, m);
    assert Candidates(cfg, map[], "b-1") == {} by {
      assert |"b-1"| < |CONNECTOR|;
    }
    hide Parse;
    ws, steps := OfflineFetchLoses(cfg, m, DomainOnly("d"), Session("b-1", Address("d", Some("connector-1"), 1)));
  }

  lemma {:induction false} KnownUser(apps: Apps)
    requires "b" in apps && apps["b"].userDistributions == []
    ensures AppOfUser(apps, "b-1").Some? && HomeDomain(apps, "b-1") == None
  {
    assert "1"[..0] == "" && Value("1") == 1;
    ParseOfPair("b", "1");
    assert "b" + "-" + "1" == "b-1";
    assert "b"[0] == 'b' && !IsBlank("b");
    hide Parse, ParseLong;
  }
}
