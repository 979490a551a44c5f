/** Confirmations match socket writes one to one: never without a write, never for a message that came
out of a group message, and - when the sender asked - for every single write. */
module Confirmations {
  import opened Types
  import opened Bags
  import opened ClientApps
  import opened Messages
  import opened PostOffices
  import opened Delivery
  import opened NoLoss
  import opened Quiescence

  /** A report of success about this very write. */
  function SuccessAt(x: Write): Report -> nat {
    (r: Report) => if r.state == Processed && WriteOf(r.msg) == x then 1 else 0
  }

  /** The sender of the message asked for confirmations and gave a reference. */
  predicate Asked(m: Message) {
    && m.meta.confirmEnabled && m.Type() == MESSAGE
    && !IsBlank(m.content.reference) && m.content.confirmationEnabled
  }

  ghost predicate Matched(w: World, x: Write) {
    var announced := w.confirmations[x] + Sum(SuccessAt(x), w.reports);
    && announced <= w.writes[x]
    && (x in w.confirmations ==> x.id in w.accepted && Asked(w.accepted[x.id]))
    && (x.id in w.accepted && Asked(w.accepted[x.id]) ==> announced == w.writes[x])
  }

  ghost predicate ConfirmationInv(cfg: Config, w: World) {
    Inv(cfg, w) && WritesKnown(w) && forall x :: Matched(w, x)
  }

  /** Changes that touch neither writes, confirmations nor reports of success. */
  lemma {:induction false} UnrelatedKeepsMatched(w: World, w1: World, x: Write)
    requires Matched(w, x) && (x.id in w1.accepted ==> x.id in w.accepted || w.writes[x] == 0)
    requires w1.writes == w.writes && w1.confirmations == w.confirmations
    requires Sum(SuccessAt(x), w1.reports) == Sum(SuccessAt(x), w.reports)
    requires forall id :: id in w.accepted ==> id in w1.accepted && w1.accepted[id] == w.accepted[id]
    ensures Matched(w1, x)
  {
  }

  lemma {:induction false} FreshIsUnwritten(w: World, x: Write)
    requires WritesKnown(w) && x.id !in w.accepted
    ensures w.writes[x] == 0
  {
    assert x !in w.writes;
  }

  lemma {:induction false} HandedMatched(cfg: Config, w: World, m: Message, pick: Address, x: Write)
    requires WritesKnown(w) && FreshId(w, m.id) && Matched(w, x)
    ensures Matched(Handed(cfg, w, m, pick), x)
  {
    var w1 := Handed(cfg, w, m, pick);
    HandedAccepts(cfg, w, m, pick);
    if x.id !in w.accepted {
      FreshIsUnwritten(w, x);
    }
    UnrelatedKeepsMatched(w, w1, x);
  }

  /** A successful write, with a report of it when the message asks for one. */
  lemma {:induction false} WriteMatched(cfg: Config, w: World, copy: Message, x: Write)
    requires PacketOk(cfg, w.born, w.accepted, copy) && Matched(w, x)
    ensures Matched(w.(writes := w.writes + multiset{WriteOf(copy)},
                       reports := if copy.meta.confirmEnabled then
                         w.reports + multiset{Report(copy, Processed)} else w.reports), x)
  {
    SumAdd(SuccessAt(x), w.reports, Report(copy, Processed));
    assert Asked(copy) == Asked(w.accepted[copy.id]);
  }

  lemma {:induction false} OtherReportMatched(w: World, r: Report, x: Write)
    requires r.state != Processed && Matched(w, x)
    ensures Matched(w.(reports := w.reports + multiset{r}), x)
  {
    SumAdd(SuccessAt(x), w.reports, r);
  }

  lemma {:induction false} ReceivedMatched(cfg: Config, w: World, copy: Message, success: bool, x: Write)
    requires Inv(cfg, w) && copy in w.node.net && Matched(w, x)
    ensures Matched(Received(w, copy, success), x)
  {
    assert PacketOk(cfg, w.born, w.accepted, copy);
    var w1 := TakeCopy(w, copy);
    assert Matched(w1, x);
    if SessionOf(copy) in w.live && success {
      WriteMatched(cfg, w1, copy, x);
    } else if SessionOf(copy) in w.live {
      OtherReportMatched(w1, Report(copy, NetworkError), x);
    } else {
      OtherReportMatched(w1, Report(copy, AddressNotFound), x);
    }
  }

  lemma {:induction false} FailureMatched(cfg: Config, w: World, step: Step, x: Write)
    requires Enabled(cfg, w, step) && Matched(w, x)
    requires step.Control? || step.Fault? || step.SendFail?
    ensures Matched(After(cfg, w, step), x)
  {
    SumAdd(SuccessAt(x), w.reports, Report(step.copy, ConnectorError));
    UnrelatedKeepsMatched(w, After(cfg, w, step), x);
  }

  /** A report of not-found confirms nothing. */
  lemma {:induction false} NotFoundMatched(cfg: Config, w: World, r: Report, pick: Address, ids: FreshIds, x: Write)
    requires r in w.reports && r.state == AddressNotFound && Matched(w, x)
    ensures Matched(Settled(cfg, w, r, pick, ids), x)
  {
    hide Redeliver;
    SumRemove(SuccessAt(x), w.reports, r);
    UnrelatedKeepsMatched(w, Settled(cfg, w, r, pick, ids), x);
  }

  /** A report of success is taken in for the confirmation that is due. */
  lemma {:induction false} DueMatched(cfg: Config, w: World, r: Report, x: Write)
    requires PacketOk(cfg, w.born, w.accepted, r.msg) && ReportOk(cfg, w.live, r) && r in w.reports && Matched(w, x)
    requires r.state != AddressNotFound
    ensures var w1 := w.(reports := w.reports - multiset{r}, node := Persist(w.node, r.msg, r.state));
      if ConfirmationDue(cfg, r.msg, r.state) then
         Matched(w1.(confirmations := w.confirmations + multiset{WriteOf(r.msg)}), x)
      else Matched(w1, x)
  {
    SumRemove(SuccessAt(x), w.reports, r);
    assert Asked(r.msg) == Asked(w.accepted[r.msg.id]);
  }

  /** A confirmation tells the sender, and nobody else, which message was written: directly, or in an
  envelope for the sender's domain. Neither is confirmed in turn. */
  lemma {:induction false} ConfirmationTellsSender(cfg: Config, m: Message, id: nat, envelopeId: nat, now: int)
    ensures var h := ConfirmationHanded(cfg, m, id, envelopeId, now);
      var c := if h.content.data.InternalMessage? then h.content.data.inner else h;
      && c.to == m.from && c.content.data == MessageConfirmation(m.content.reference)
      && c.IsReliable() && h.IsReliable() && !c.meta.confirmEnabled && !h.meta.confirmEnabled
      && (c == h <==> IsBlank(m.from) || ResolveDomain(cfg.apps, cfg.domain, m.from) == cfg.domain)
      && (c != h ==> h.meta.target == Some(DomainOnly(ResolveDomain(cfg.apps, cfg.domain, m.from))))
  {
  }

  /** A report of success is spent on exactly one confirmation, if one is due. */
  lemma {:induction false} SettledMatched(cfg: Config, w: World, r: Report, pick: Address, ids: FreshIds, x: Write)
    requires Inv(cfg, w) && WritesKnown(w) && r in w.reports && CanSettle(cfg, w, r, pick, ids) && Matched(w, x)
    ensures Matched(Settled(cfg, w, r, pick, ids), x)
  {
    assert PacketOk(cfg, w.born, w.accepted, r.msg) && ReportOk(cfg, w.live, r);
    hide Inv, Matched, PacketOk, ReportOk, Persist, ConfirmationDue, ConfirmationHanded, Handed;
    if r.state == AddressNotFound {
      NotFoundMatched(cfg, w, r, pick, ids, x);
    } else {
      DueMatched(cfg, w, r, x);
      var w1 := w.(reports := w.reports - multiset{r}, node := Persist(w.node, r.msg, r.state));
      if ConfirmationDue(cfg, r.msg, r.state) {
        var w2 := w1.(confirmations := w.confirmations + multiset{WriteOf(r.msg)});
        HandedMatched(cfg, w2, ConfirmationHanded(cfg, r.msg, ids.id, ids.envelopeId, ids.now), pick, x);
      }
    }
  }

  lemma {:induction false} GroupMissMatched(cfg: Config, w: World, m: Message, fromGroup: set<nat>, pick: Address,
                                            x: Write)
    requires WritesKnown(w) && FreshId(w, m.id) && Matched(w, x)
    ensures Matched(Handed(cfg, w, m, pick).(fromGroup := fromGroup), x)
  {
    HandedMatched(cfg, w, m, pick, x);
    var w1 := Handed(cfg, w, m, pick);
    UnrelatedKeepsMatched(w1, w1.(fromGroup := fromGroup), x);
  }

  lemma {:induction false} SpawnMatched(cfg: Config, w: World, step: Step, x: Write)
    requires WritesKnown(w) && step.Spawn? && Enabled(cfg, w, step) && Matched(w, x)
    ensures Matched(After(cfg, w, step), x)
  {
    if x.id !in w.accepted {
      FreshIsUnwritten(w, x);
    }
    UnrelatedKeepsMatched(w, After(cfg, w, step), x);
  }

  lemma {:induction false} FetchedMatched(cfg: Config, w: World, row: Message, pick: Address, failed: set<Address>,
                                          x: Write)
    requires Matched(w, x)
    ensures Matched(Fetched(cfg, w, row, pick, failed), x)
  {
    var w1 := Fetched(cfg, w, row, pick, failed);
    assert w1.accepted == w.accepted && w1.reports == w.reports && w1.writes == w.writes &&
           w1.confirmations == w.confirmations;
  }

  lemma {:induction false} InputMatched(cfg: Config, w: World, step: Step, x: Write)
    requires Inv(cfg, w) && WritesKnown(w) && Enabled(cfg, w, step) && Matched(w, x)
    requires step.Accept? || step.AcceptGroupMiss? || step.Spawn? || step.FetchOne?
    ensures Matched(After(cfg, w, step), x)
  {
    match step
    case Accept(m, pick) => HandedMatched(cfg, w, m, pick, x);
    case AcceptGroupMiss(group, user, gid, now, pick) =>
      GroupMissMatched(cfg, w, GroupMissHanded(group, user, gid, now), w.fromGroup + {gid}, pick, x);
    case Spawn(_, _, _, _, _) => SpawnMatched(cfg, w, step, x);
    case FetchOne(row, pick, failed) => FetchedMatched(cfg, w, row, pick, failed, x);
  }

  lemma {:induction false} StepMatched(cfg: Config, w: World, step: Step, x: Write)
    requires Inv(cfg, w) && WritesKnown(w) && Enabled(cfg, w, step) && Matched(w, x)
    ensures Matched(After(cfg, w, step), x)
  {
    hide Handed, Settled, Received, Fetched, GroupMissHanded, Matched;
    if step.Receive? {
      ReceivedMatched(cfg, w, step.copy, step.success, x);
    } else if step.Settle? {
      SettledMatched(cfg, w, step.report, step.pick, step.ids, x);
    } else if step.Control? || step.Fault? || step.SendFail? {
      FailureMatched(cfg, w, step, x);
    } else if step.Connect? || step.Announce? || step.Disconnect? || step.Withdraw? {
      UnrelatedKeepsMatched(w, After(cfg, w, step), x);
    } else {
      InputMatched(cfg, w, step, x);
    }
  }

  lemma {:induction false} RunKeepsMatched(cfg: Config, ws: seq<World>, steps: seq<Step>, i: nat)
    requires IsRun(cfg, ws, steps) && ws[0] == START && i < |ws|
    ensures ConfirmationInv(cfg, ws[i])
  {
    if i > 0 {
      RunKeepsMatched(cfg, ws, steps, i - 1);
      StepKeepsInv(cfg, ws[i - 1], steps[i - 1]);
      StepKeepsWritesKnown(cfg, ws[i - 1], steps[i - 1]);
      forall x ensures Matched(ws[i], x) {
        assert Matched(ws[i - 1], x);
        StepMatched(cfg, ws[i - 1], steps[i - 1], x);
      }
    }
  }

  /** Soundness over every run, through retries, storage and refetching: each confirmation stands for
  a write of its own, and no message of a group is ever confirmed. */
  lemma {:induction false} ConfirmationsAreSound(cfg: Config, ws: seq<World>, steps: seq<Step>, i: nat, x: Write)
    requires IsRun(cfg, ws, steps) && ws[0] == START && i < |ws|
    ensures ws[i].confirmations[x] <= ws[i].writes[x]
    ensures x in ws[i].confirmations ==>
            x.id !in ws[i].fromGroup && x.id in ws[i].accepted && Asked(ws[i].accepted[x.id])
  {
    RunKeepsMatched(cfg, ws, steps, i);
    assert Matched(ws[i], x);
  }

  /** Completeness: once nothing is under way, every write of a message whose sender asked has been
  confirmed, exactly once. */
  lemma {:induction false} EveryWriteIsConfirmed(cfg: Config, ws: seq<World>, steps: seq<Step>, i: nat, x: Write)
    requires IsRun(cfg, ws, steps) && ws[0] == START && i < |ws|
    requires Quiet(ws[i]) && x.id in ws[i].accepted && Asked(ws[i].accepted[x.id])
    ensures ws[i].confirmations[x] == ws[i].writes[x]
  {
    RunKeepsMatched(cfg, ws, steps, i);
    assert Matched(ws[i], x);
  }
}
