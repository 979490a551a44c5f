/** A message has one holder at a time.

The envelope is delivered to ANY one address, so that it crosses one tunnel once; what it leaves behind
in the domains it came through can never be sent again. */
module Holders {
  import opened Types
  import opened Names
  import opened ClientApps
  import opened Bags
  import opened Messages
  import opened PostOffices
  import opened Delivery
  import opened NoLoss
  import opened DomainGraphs
  import opened Dispatch
  import opened Travel
  import opened Networks

  /** The domain has taken on, under `id`, an envelope with the message inside, or the message at its home. */
  ghost predicate Carrying(net: Network, ws: Worlds, m: Message, home: string, d: string, id: nat) {
    && d in net.graph.domains && d in ws && id in ws[d].accepted
    && (ws[d].accepted[id].content.data == InternalMessage(Traveller(m)) || (d == home && id == m.id))
  }

  /** The one token of this message is a write: nothing of it is under way, reported or stored. */
  ghost predicate Spent(w: World, id: nat) {
    && Tracked(w, id) && w.accepted[id].meta.deliveryType == Any
    && Accounted(w, id) && Sum(WriteOfId(id), w.writes) >= 1
  }

  /** Every other domain that ever took the message on, or this one earlier, has passed it on. */
  ghost predicate OthersAreSpent(net: Network, ws: Worlds, m: Message, home: string, d: string, id: nat) {
    forall d2, id2 :: Carrying(net, ws, m, home, d2, id2) && (d2 != d || id2 != id) ==>
      d2 != home && Spent(ws[d2], id2)
  }

  ghost predicate HeldOnce(net: Network, ws: Worlds, m: Message, home: string, d: string, id: nat) {
    Holder(net, ws, m, home, d, id) && OthersAreSpent(net, ws, m, home, d, id)
  }

  ghost predicate IsHeldOnce(net: Network, ws: Worlds, m: Message, home: string) {
    exists d, id :: HeldOnce(net, ws, m, home, d, id)
  }

  /** Ids are never used twice: only the tunnels bring the message to a domain. */
  ghost predicate ComesByTunnel(net: Network, ws: Worlds, step: NetStep, m: Message, home: string)
    requires NetEnabled(net, ws, step)
  {
    forall d, id :: Carrying(net, NetAfter(net, ws, step), m, home, d, id) && !Carrying(net, ws, m, home, d, id) ==>
      step.Cross? && Inner(step.copy) == Traveller(m)
  }

  // ---- what is spent stays so

  lemma {:induction false} SpentIsNowhereElse(w: World, id: nat)
    requires Spent(w, id)
    ensures Sum(OfId(id), w.node.net) == 0 && id !in w.node.store
  {
  }

  lemma {:induction false} SpentHasNoCopy(w: World, id: nat, copy: Message)
    requires Spent(w, id) && copy in w.node.net
    ensures copy.id != id
  {
    SpentIsNowhereElse(w, id);
    SumAtLeast(OfId(id), w.node.net, copy);
  }

  lemma {:induction false} SpentIsNotFetched(cfg: Config, w: World, step: Step, id: nat)
    requires Spent(w, id) && Enabled(cfg, w, step)
    ensures FetchGoesOut(cfg, w, step, id)
    ensures step.Receive? ==> step.copy.id != id
  {
    SpentIsNowhereElse(w, id);
    if step.Receive? {
      SpentHasNoCopy(w, id, step.copy);
    }
  }

  lemma {:induction false} TrackedStays(w: World, w1: World, id: nat)
    requires Tracked(w, id) && id in w1.accepted && w1.accepted[id] == w.accepted[id]
    ensures Tracked(w1, id)
  {
  }

  lemma {:induction false} SpentStays(cfg: Config, w: World, step: Step, id: nat)
    requires WorldOk(cfg, w) && Spent(w, id) && Enabled(cfg, w, step)
    ensures Spent(After(cfg, w, step), id)
  {
    assert Inv(cfg, w) && WritesKnown(w) && Accounted(w, id) && Tracked(w, id);
    hide Inv, WritesKnown, Accounted, Tracked, FetchGoesOut, Enabled, After;
    SpentIsNotFetched(cfg, w, step, id);
    StepAccounts(cfg, w, step, id);
    StepGrowsAccepted(cfg, w, step);
    TrackedStays(w, After(cfg, w, step), id);
    UnwrittenStays(cfg, w, step, id);
  }

  lemma {:induction false} SpentAccepts(cfg: Config, w: World, m: Option<Message>, pick: Address, id: nat)
    requires WorldOk(cfg, w) && Spent(w, id) && CanAccept(cfg, w, m, pick)
    ensures Spent(Accepted(cfg, w, m, pick), id)
  {
    hide Spent, WorldOk, Enabled, After;
    if m.Some? {
      SpentStays(cfg, w, Accept(m.value, pick), id);
    }
  }

  lemma {:induction false} SpentInNet(net: Network, ws: Worlds, step: NetStep, d: string, id: nat)
    requires NetOk(net, ws) && NetEnabled(net, ws, step) && d in net.graph.domains && d in ws && Spent(ws[d], id)
    ensures d in NetAfter(net, ws, step) && Spent(NetAfter(net, ws, step)[d], id)
  {
    hide Spent, NetOk, NetEnabled, NetAfter;
    match step
    case Local(_, _) => SpentSeesLocal(net, ws, step, d, id);
    case Cross(_, _, _, _, _, _) => SpentSeesCrossing(net, ws, step, d, id);
    case Submit(_, _, _, _, _) => SpentSeesSubmit(net, ws, step, d, id);
  }

  lemma {:induction false} SpentSeesLocal(net: Network, ws: Worlds, step: NetStep, d: string, id: nat)
    requires NetOk(net, ws) && NetEnabled(net, ws, step) && d in net.graph.domains && d in ws && Spent(ws[d], id)
    requires step.Local?
    ensures d in NetAfter(net, ws, step) && Spent(NetAfter(net, ws, step)[d], id)
  {
    assert d in net.domains && WorldOk(net.domains[d], ws[d]);
    hide Spent, WorldOk, Enabled, After, NetOk, IsTunnelCopy;
    if d == step.domain {
      SpentStays(net.domains[d], ws[d], step.step, id);
    }
  }

  lemma {:induction false} SpentSeesCrossing(net: Network, ws: Worlds, step: NetStep, d: string, id: nat)
    requires NetOk(net, ws) && NetEnabled(net, ws, step) && d in net.graph.domains && d in ws && Spent(ws[d], id)
    requires step.Cross?
    ensures d in NetAfter(net, ws, step) && Spent(NetAfter(net, ws, step)[d], id)
  {
    assert d in net.domains && WorldOk(net.domains[d], ws[d]);
    hide *;
    CrossingParts(net, ws, step);
    if d == step.domain {
      SpentStays(net.domains[d], ws[d], Receive(step.copy, true), id);
    } else if d == step.next {
      SpentAccepts(net.domains[d], ws[d], HandedOver(net.domains[d], Arrival(step)), step.pick, id);
    }
  }

  lemma {:induction false} SpentSeesSubmit(net: Network, ws: Worlds, step: NetStep, d: string, id: nat)
    requires NetOk(net, ws) && NetEnabled(net, ws, step) && d in net.graph.domains && d in ws && Spent(ws[d], id)
    requires step.Submit?
    ensures d in NetAfter(net, ws, step) && Spent(NetAfter(net, ws, step)[d], id)
  {
    assert d in net.domains && WorldOk(net.domains[d], ws[d]);
    hide Spent, WorldOk, NetOk, CanAccept, Accepted, SubmittedAs;
    if d == step.domain {
      SpentAccepts(net.domains[d], ws[d], SubmittedAs(net.domains[d], step.m, step.id, step.now), step.pick, id);
    }
  }

  // ---- a step

  lemma {:induction false} OthersStaySpent(net: Network, ws: Worlds, step: NetStep, m: Message, home: string, d: string,
                                           id: nat)
    requires NetOk(net, ws) && NetEnabled(net, ws, step) && OthersAreSpent(net, ws, m, home, d, id)
    requires ComesByTunnel(net, ws, step, m, home) && !(step.Cross? && Inner(step.copy) == Traveller(m))
    ensures OthersAreSpent(net, NetAfter(net, ws, step), m, home, d, id)
  {
    var ws1 := NetAfter(net, ws, step);
    hide NetOk, NetEnabled, NetAfter, Carrying, Spent, Inner, Traveller;
    forall d2, id2 | Carrying(net, ws1, m, home, d2, id2) && (d2 != d || id2 != id)
      ensures d2 != home && Spent(ws1[d2], id2)
    {
      assert Carrying(net, ws, m, home, d2, id2);
      CarryingIsKnown(net, ws, m, home, d2, id2);
      SpentInNet(net, ws, step, d2, id2);
    }
  }

  lemma {:induction false} CarryingIsKnown(net: Network, ws: Worlds, m: Message, home: string, d: string, id: nat)
    requires Carrying(net, ws, m, home, d, id)
    ensures d in net.graph.domains && d in ws && id in ws[d].accepted
  {
  }

  lemma {:induction false} HolderCarries(net: Network, ws: Worlds, m: Message, home: string, d: string, id: nat)
    requires Holder(net, ws, m, home, d, id)
    ensures Carrying(net, ws, m, home, d, id)
  {
    hide Traveller, Accounted;
  }

  /** A copy on its way with the message inside belongs to the holder. */
  lemma {:induction false} CrossingIsHolders(net: Network, ws: Worlds, step: NetStep, m: Message, home: string,
                                             d: string,
                                             id: nat)
    requires NetOk(net, ws) && NetEnabled(net, ws, step) && HeldOnce(net, ws, m, home, d, id)
    requires step.Cross? && Inner(step.copy) == Traveller(m)
    ensures step.domain == d && step.copy.id == id && d != home
  {
    CopyCarries(net, ws, step, m, home);
    CrossingParts(net, ws, step);
    hide NetOk, NetEnabled, Traveller, Inner, Spent, Holder, Carrying;
    var d1, copy := step.domain, step.copy;
    if d1 != d || copy.id != id {
      assert Spent(ws[d1], copy.id);
      SpentHasNoCopy(ws[d1], copy.id, copy);
    }
    if d == home {
      HomeIsNoEnvelope(net, ws, m, home, id);
    }
  }

  lemma {:induction false} HomeIsNoEnvelope(net: Network, ws: Worlds, m: Message, home: string, id: nat)
    requires Holder(net, ws, m, home, home, id)
    ensures home in ws && id in ws[home].accepted
    ensures !ws[home].accepted[id].content.data.InternalMessage?
  {
    hide Accounted;
  }

  lemma {:induction false} CopyCarries(net: Network, ws: Worlds, step: NetStep, m: Message, home: string)
    requires NetOk(net, ws) && NetEnabled(net, ws, step) && step.Cross? && Inner(step.copy) == Traveller(m)
    ensures Carrying(net, ws, m, home, step.domain, step.copy.id)
    ensures ws[step.domain].accepted[step.copy.id].content.data.InternalMessage?
  {
    var d, copy := step.domain, step.copy;
    assert WorldOk(net.domains[d], ws[d]) && d in net.graph.domains && copy.Type() == INTERNAL_MESSAGE;
    assert copy in ws[d].node.net by { CrossingParts(net, ws, step); }
    hide Inv, WritesKnown, NetEnabled, NetOk, Traveller;
    CopyIsAccepted(net.domains[d], ws[d], copy);
    CanonContent(net.domains[d], copy);
  }

  lemma {:induction false} CanonContent(cfg: Config, m: Message)
    ensures Canon(cfg, m).content == m.content
  {
  }

  lemma {:induction false} AcceptAddsOne(cfg: Config, w: World, m: Message, pick: Address, id: nat)
    requires id in After(cfg, w, Accept(m, pick)).accepted && id != m.id
    ensures id in w.accepted && After(cfg, w, Accept(m, pick)).accepted[id] == w.accepted[id]
  {
    hide SendToConnector, Persist;
    if Addressed(cfg, m).Some? {
      AddressedIsStable(cfg, m, AddressNotFound);
    }
    hide Addressed;
  }

  lemma {:induction false} ReceiveAddsNone(cfg: Config, w: World, copy: Message)
    ensures After(cfg, w, Receive(copy, true)).accepted == w.accepted
  {
  }

  lemma {:induction false} ReceiveWrites(cfg: Config, w: World, copy: Message)
    requires SessionOf(copy) in w.live
    ensures After(cfg, w, Receive(copy, true)).writes == w.writes + multiset{WriteOf(copy)}
  {
  }

  /** A crossing brings one message to the far end, and nothing anywhere else. */
  lemma {:induction false} CrossAddsOne(net: Network, ws: Worlds, step: NetStep, d: string, id: nat)
    requires NetEnabled(net, ws, step) && step.Cross?
    requires d in net.graph.domains && d in NetAfter(net, ws, step) && id in NetAfter(net, ws, step)[d].accepted
    requires step.next in net.domains
    requires var handed := HandedOver(net.domains[step.next], Arrival(step));
      handed.Some? ==> !(d == step.next && id == handed.value.id)
    ensures d in ws && id in ws[d].accepted && ws[d].accepted[id] == NetAfter(net, ws, step)[d].accepted[id]
  {
    CrossingParts(net, ws, step);
    var ws1, n := NetAfter(net, ws, step), step.next;
    var handed := HandedOver(net.domains[n], Arrival(step));
    var taken := Accepted(net.domains[n], ws[n], handed, step.pick);
    ReceiveAddsNone(net.domains[step.domain], ws[step.domain], step.copy);
    hide HandedOver, After, NetEnabled, NetAfter, CanAccept, Enabled;
    if d == n {
      assert ws1[d] == taken;
      if handed.Some? {
        AcceptAddsOne(net.domains[n], ws[n], handed.value, step.pick, id);
      }
    }
  }

  /** The domain an envelope has left is spent. */
  lemma {:induction false} CrossSpends(net: Network, ws: Worlds, step: NetStep, m: Message, home: string, d: string,
                                       id: nat)
    requires NetOk(net, ws) && NetEnabled(net, ws, step) && Holder(net, ws, m, home, d, id)
    requires step.Cross? && step.domain == d && step.copy.id == id && d != home
    ensures d in NetAfter(net, ws, step) && Spent(NetAfter(net, ws, step)[d], id)
  {
    assert d in net.graph.domains && WorldOk(net.domains[d], ws[d]);
    hide *;
    CrossingParts(net, ws, step);
    EnvelopeAt(net, ws, m, home, d, id);
    OnWayIsTracked(net, ws, d, id, m, home);
    WrittenIsSpent(net.domains[d], ws[d], step.copy);
  }

  lemma {:induction false} EnvelopeAt(net: Network, ws: Worlds, m: Message, home: string, d: string, id: nat)
    requires Holder(net, ws, m, home, d, id) && d != home
    ensures d in ws && id in ws[d].accepted && Accounted(ws[d], id) && OnWay(net, d, ws[d].accepted[id], m, home)
  {
    hide Accounted, OnWay;
  }

  lemma {:induction false} OnWayIsTracked(net: Network, ws: Worlds, d: string, id: nat, m: Message, home: string)
    requires d in ws && id in ws[d].accepted && OnWay(net, d, ws[d].accepted[id], m, home)
    ensures Tracked(ws[d], id) && ws[d].accepted[id].meta.deliveryType == Any
  {
    hide Traveller;
  }

  lemma {:induction false} WrittenIsSpent(cfg: Config, w: World, copy: Message)
    requires WorldOk(cfg, w) && Enabled(cfg, w, Receive(copy, true)) && SessionOf(copy) in w.live
    requires Tracked(w, copy.id) && w.accepted[copy.id].meta.deliveryType == Any && Accounted(w, copy.id)
    ensures Spent(After(cfg, w, Receive(copy, true)), copy.id)
  {
    var w1 := After(cfg, w, Receive(copy, true));
    assert copy.id in w.accepted;
    hide Inv, WritesKnown, Accounted, Tracked, Enabled, After, Sum;
    ReceiveAddsNone(cfg, w, copy);
    ReceiveWrites(cfg, w, copy);
    NoFetch(cfg, w, Receive(copy, true), copy.id);
    StepAccounts(cfg, w, Receive(copy, true), copy.id);
    SumAdd(WriteOfId(copy.id), w.writes, WriteOf(copy));
    TrackedStays(w, w1, copy.id);
  }

  /** When the message crosses a tunnel, the domain it leaves is spent and its other end holds it. */
  lemma {:induction false} CrossKeepsHeldOnce(net: Network, ws: Worlds, step: NetStep, m: Message, home: string,
                                              d: string, id: nat)
    requires NetOk(net, ws) && Good(net) && NetEnabled(net, ws, step) && IsBound(net.apps, m, home)
    requires HeldOnce(net, ws, m, home, d, id) && step.Cross? && Inner(step.copy) == Traveller(m)
    ensures step.next in net.domains
    ensures var handed := HandedOver(net.domains[step.next], Arrival(step));
      handed.Some? && HeldOnce(net, NetAfter(net, ws, step), m, home, step.next, handed.value.id)
  {
    assert Holder(net, ws, m, home, d, id) && OthersAreSpent(net, ws, m, home, d, id);
    CrossingIsHolders(net, ws, step, m, home, d, id);
    hide *;
    HolderCrosses(net, ws, step, m, home, d, id);
    CrossSpends(net, ws, step, m, home, d, id);
    LeftBehindIsSpent(net, ws, step, m, home, d, id);
    HeldOnceIs(net, NetAfter(net, ws, step), m, home, step.next,
               HandedOver(net.domains[step.next], Arrival(step)).value.id);
  }

  lemma {:induction false} HeldOnceIs(net: Network, ws: Worlds, m: Message, home: string, d: string, id: nat)
    requires Holder(net, ws, m, home, d, id) && OthersAreSpent(net, ws, m, home, d, id)
    ensures HeldOnce(net, ws, m, home, d, id) && IsHeldOnce(net, ws, m, home)
  {
    hide Holder, OthersAreSpent;
    assert HeldOnce(net, ws, m, home, d, id);
  }

  lemma {:induction false} LeftBehindIsSpent(net: Network, ws: Worlds, step: NetStep, m: Message, home: string,
                                             d: string, id: nat)
    requires NetOk(net, ws) && NetEnabled(net, ws, step) && OthersAreSpent(net, ws, m, home, d, id)
    requires step.Cross? && step.next in net.domains && HandedOver(net.domains[step.next], Arrival(step)).Some?
    requires d != home && d in NetAfter(net, ws, step) && Spent(NetAfter(net, ws, step)[d], id)
    ensures OthersAreSpent(net, NetAfter(net, ws, step), m, home, step.next,
                           HandedOver(net.domains[step.next], Arrival(step)).value.id)
  {
    var ws1, n := NetAfter(net, ws, step), step.next;
    var newId := HandedOver(net.domains[n], Arrival(step)).value.id;
    hide NetOk, NetEnabled, NetAfter, Spent, HandedOver, Arrival, Traveller;
    forall d2, id2 | Carrying(net, ws1, m, home, d2, id2) && (d2 != n || id2 != newId)
      ensures d2 != home && Spent(ws1[d2], id2)
    {
      CrossAddsOne(net, ws, step, d2, id2);
      assert Carrying(net, ws, m, home, d2, id2);
      if d2 != d || id2 != id {
        SpentInNet(net, ws, step, d2, id2);
      }
    }
  }

  lemma {:induction false} NetStepKeepsHeldOnce(net: Network, ws: Worlds, step: NetStep, m: Message, home: string)
    requires NetOk(net, ws) && Good(net) && NetEnabled(net, ws, step) && IsBound(net.apps, m, home)
    requires FetchIsSafe(net, ws, step, m, home) && ComesByTunnel(net, ws, step, m, home)
    requires IsHeldOnce(net, ws, m, home)
    ensures IsHeldOnce(net, NetAfter(net, ws, step), m, home)
  {
    var d, id :| HeldOnce(net, ws, m, home, d, id);
    assert Holder(net, ws, m, home, d, id) && OthersAreSpent(net, ws, m, home, d, id);
    hide *;
    if step.Cross? && Inner(step.copy) == Traveller(m) {
      CrossKeepsHeldOnce(net, ws, step, m, home, d, id);
      WitnessOnce(net, NetAfter(net, ws, step), m, home, step.next,
                  HandedOver(net.domains[step.next], Arrival(step)).value.id);
    } else {
      HolderRemains(net, ws, step, m, home, d, id);
      OthersStaySpent(net, ws, step, m, home, d, id);
      HeldOnceIs(net, NetAfter(net, ws, step), m, home, d, id);
    }
  }

  lemma {:induction false} WitnessOnce(net: Network, ws: Worlds, m: Message, home: string, d: string, id: nat)
    requires HeldOnce(net, ws, m, home, d, id)
    ensures IsHeldOnce(net, ws, m, home)
  {
    hide HeldOnce;
  }

  /** A step that takes no envelope of the message through a tunnel leaves the holder as it is. */
  lemma {:induction false} HolderRemains(net: Network, ws: Worlds, step: NetStep, m: Message, home: string, d: string,
                                         id: nat)
    requires NetOk(net, ws) && Good(net) && NetEnabled(net, ws, step) && FetchIsSafe(net, ws, step, m, home)
    requires Holder(net, ws, m, home, d, id) && !(step.Cross? && Inner(step.copy) == Traveller(m))
    ensures Holder(net, NetAfter(net, ws, step), m, home, d, id)
  {
    hide *;
    match step
    case Local(_, _) => HolderSeesLocal(net, ws, step, m, home, d, id);
    case Submit(_, _, _, _, _) => HolderSeesSubmit(net, ws, step, m, home, d, id);
    case Cross(d1, copy, _, _, _, _) =>
      if d1 == d && d != home && copy.id == id {
        WrittenToNext(net, ws, step, m, home, d, id);
      }
      HolderSeesCrossing(net, ws, step, m, home, d, id);
  }

  // ---- runs

  /** Nobody has seen the message yet. */
  ghost predicate IsNew(net: Network, ws: Worlds, m: Message, home: string) {
    forall d, id :: !Carrying(net, ws, m, home, d, id)
  }

  lemma {:induction false} HeldOnceForever(net: Network, runs: seq<Worlds>, steps: seq<NetStep>, i: nat, j: nat,
                                           m: Message, home: string)
    requires Good(net) && IsNetRun(net, runs, steps) && NetOk(net, runs[0]) && i <= j < |runs|
    requires IsBound(net.apps, m, home) && IsHeldOnce(net, runs[i], m, home)
    requires forall k :: i <= k < j ==> FetchIsSafe(net, runs[k], steps[k], m, home)
    requires forall k :: i <= k < j ==> ComesByTunnel(net, runs[k], steps[k], m, home)
    ensures IsHeldOnce(net, runs[j], m, home)
    decreases j
  {
    hide Good, NetOk, NetEnabled, NetAfter, IsBound, FetchIsSafe, IsHeldOnce, ComesByTunnel;
    if i < j {
      HeldOnceForever(net, runs, steps, i, j - 1, m, home);
      NetRunIsOk(net, runs, steps, j - 1);
      NetStepKeepsHeldOnce(net, runs[j - 1], steps[j - 1], m, home);
    }
  }

  /** A step that adds one carrier where there was none. */
  lemma {:induction false} FirstCarrier(net: Network, ws: Worlds, ws1: Worlds, m: Message, home: string, d: string,
                                        id: nat)
    requires IsNew(net, ws, m, home)
    requires forall d2, id2 :: Carrying(net, ws1, m, home, d2, id2) && (d2 != d || id2 != id) ==>
      Carrying(net, ws, m, home, d2, id2)
    ensures OthersAreSpent(net, ws1, m, home, d, id)
  {
    hide Carrying, Spent;
  }

  lemma {:induction false} SubmitAddsOne(net: Network, ws: Worlds, step: NetStep, m: Message, home: string)
    requires NetEnabled(net, ws, step) && step.Submit? && IsNew(net, ws, m, home)
    requires SubmittedAs(net.domains[step.domain], step.m, step.id, step.now).Some?
    ensures OthersAreSpent(net, NetAfter(net, ws, step), m, home, step.domain,
                           SubmittedAs(net.domains[step.domain], step.m, step.id, step.now).value.id)
  {
    var ws1, d := NetAfter(net, ws, step), step.domain;
    var taken := SubmittedAs(net.domains[d], step.m, step.id, step.now).value;
    assert ws1 == ws[d := After(net.domains[d], ws[d], Accept(taken, step.pick))];
    hide NetEnabled, NetAfter, SubmittedAs, Spent, After, Traveller, IsNew;
    forall d2, id2 | Carrying(net, ws1, m, home, d2, id2) && (d2 != d || id2 != taken.id)
      ensures Carrying(net, ws, m, home, d2, id2)
    {
      if d2 == d {
        AcceptAddsOne(net.domains[d], ws[d], taken, step.pick, id2);
      }
    }
    FirstCarrier(net, ws, ws1, m, home, d, taken.id);
  }

  lemma {:induction false} SettleAdds(cfg: Config, w: World, r: Report, pick: Address, ids: FreshIds, id: nat)
    requires ConfirmationDue(cfg, r.msg, r.state)
    requires id in After(cfg, w, Settle(r, pick, ids)).accepted
    requires id != ConfirmationHanded(cfg, r.msg, ids.id, ids.envelopeId, ids.now).id
    ensures id in w.accepted && After(cfg, w, Settle(r, pick, ids)).accepted[id] == w.accepted[id]
  {
    var c := ConfirmationHanded(cfg, r.msg, ids.id, ids.envelopeId, ids.now);
    DueIsProcessed(cfg, r.msg, r.state);
    hide SendToConnector, Persist, ConfirmationHanded, ConfirmationDue, Canon, Redeliver;
    if Addressed(cfg, c).Some? {
      AddressedIsStable(cfg, c, AddressNotFound);
    }
    hide Addressed;
  }

  lemma {:induction false} SettleAddsOne(net: Network, ws: Worlds, step: NetStep, m: Message, home: string)
    requires NetEnabled(net, ws, step) && Confirms(net, step) && IsNew(net, ws, m, home)
    ensures var s := step.step;
      OthersAreSpent(net, NetAfter(net, ws, step), m, home, step.domain,
                     ConfirmationHanded(net.domains[step.domain], s.report.msg, s.ids.id, s.ids.envelopeId,
                                        s.ids.now).id)
  {
    var ws1, d, s := NetAfter(net, ws, step), step.domain, step.step;
    var id := ConfirmationHanded(net.domains[d], s.report.msg, s.ids.id, s.ids.envelopeId, s.ids.now).id;
    assert ws1 == ws[d := After(net.domains[d], ws[d], s)];
    ConfirmsParts(net, step);
    hide NetEnabled, NetAfter, Spent, After, Traveller, IsNew, ConfirmationHanded, ConfirmationDue, Confirms;
    forall d2, id2 | Carrying(net, ws1, m, home, d2, id2) && (d2 != d || id2 != id)
      ensures Carrying(net, ws, m, home, d2, id2)
    {
      if d2 == d {
        SettleAdds(net.domains[d], ws[d], s.report, s.pick, s.ids, id2);
      }
    }
    FirstCarrier(net, ws, ws1, m, home, d, id);
  }

  ghost predicate HasOneHolder(net: Network, ws: Worlds, m: Message, home: string) {
    exists d, id :: Holder(net, ws, m, home, d, id) &&
                    forall d2, id2 :: Holder(net, ws, m, home, d2, id2) ==> d2 == d && id2 == id
  }

  /** From the moment a processor takes a reliable message from a connector, exactly one domain holds it, at
  every later moment of every run of the network. */
  lemma {:induction false} OneHolder(net: Network, runs: seq<Worlds>, steps: seq<NetStep>, i: nat, j: nat, home: string)
    requires Good(net) && IsNetRun(net, runs, steps) && NetOk(net, runs[0]) && i < j < |runs|
    requires steps[i].Submit? && IsBound(net.apps, steps[i].m, home) && net.graph.Reachable(steps[i].domain, home)
    requires IsNew(net, runs[i], steps[i].m, home)
    requires forall k :: i < k < j ==> FetchIsSafe(net, runs[k], steps[k], steps[i].m, home)
    requires forall k :: i < k < j ==> ComesByTunnel(net, runs[k], steps[k], steps[i].m, home)
    ensures HasOneHolder(net, runs[j], steps[i].m, home)
  {
    var m := steps[i].m;
    hide Good, NetOk, NetEnabled, NetAfter, IsBound, FetchIsSafe, ComesByTunnel, IsNew, Holder, HeldOnce,
         OthersAreSpent, SubmittedAs, HasOneHolder, IsHeldOnce;
    NetRunIsOk(net, runs, steps, i);
    SubmitIsHeld(net, runs[i], steps[i], home);
    SubmitAddsOne(net, runs[i], steps[i], m, home);
    HeldOnceIs(net, runs[i + 1], m, home, steps[i].domain,
               SubmittedAs(net.domains[steps[i].domain], m, steps[i].id, steps[i].now).value.id);
    HeldOnceForever(net, runs, steps, i + 1, j, m, home);
    OnceIsOne(net, runs[j], m, home);
  }

  /** The same for a confirmation, from the moment its report is handled. */
  lemma {:induction false} OneHolderOfConfirmation(net: Network, runs: seq<Worlds>, steps: seq<NetStep>, i: nat, j: nat,
                                                   home: string, m: Message)
    requires Good(net) && IsNetRun(net, runs, steps) && NetOk(net, runs[0]) && i < j < |runs|
    requires Confirms(net, steps[i]) && HomeDomain(net.apps, steps[i].step.report.msg.from) == Some(home)
    requires net.graph.Reachable(steps[i].domain, home)
    requires m == ConfirmationOf(net.domains[steps[i].domain], steps[i].step.report, steps[i].step.ids)
    requires IsNew(net, runs[i], m, home)
    requires forall k :: i < k < j ==> FetchIsSafe(net, runs[k], steps[k], m, home)
    requires forall k :: i < k < j ==> ComesByTunnel(net, runs[k], steps[k], m, home)
    ensures HasOneHolder(net, runs[j], m, home)
  {
    hide Good, NetOk, NetEnabled, NetAfter, IsBound, FetchIsSafe, ComesByTunnel, IsNew, Holder, HeldOnce,
         OthersAreSpent, HasOneHolder, IsHeldOnce, ConfirmationOf, ConfirmationHanded, HomeDomain, ConfirmationDue;
    var s := steps[i].step;
    NetRunIsOk(net, runs, steps, i);
    SettleIsHeld(net, runs[i], steps[i], home);
    SettleAddsOne(net, runs[i], steps[i], m, home);
    HeldOnceIs(net, runs[i + 1], m, home, steps[i].domain,
               ConfirmationHanded(net.domains[steps[i].domain], s.report.msg, s.ids.id, s.ids.envelopeId,
                                  s.ids.now).id);
    HeldOnceForever(net, runs, steps, i + 1, j, m, home);
    OnceIsOne(net, runs[j], m, home);
  }

  lemma {:induction false} OnceIsOne(net: Network, ws: Worlds, m: Message, home: string)
    requires IsHeldOnce(net, ws, m, home)
    ensures HasOneHolder(net, ws, m, home)
  {
    hide Holder, HeldOnce;
    var d, id :| HeldOnce(net, ws, m, home, d, id);
    HeldOnceHolds(net, ws, m, home, d, id);
    forall d2, id2 | Holder(net, ws, m, home, d2, id2) ensures d2 == d && id2 == id {
      HolderIsUnique(net, ws, m, home, d, id, d2, id2);
    }
  }

  lemma {:induction false} HeldOnceHolds(net: Network, ws: Worlds, m: Message, home: string, d: string, id: nat)
    requires HeldOnce(net, ws, m, home, d, id)
    ensures Holder(net, ws, m, home, d, id) && OthersAreSpent(net, ws, m, home, d, id)
  {
    hide Holder, OthersAreSpent;
  }

  lemma {:induction false} HolderIsUnique(net: Network, ws: Worlds, m: Message, home: string, d: string, id: nat,
                                          d2: string, id2: nat)
    requires HeldOnce(net, ws, m, home, d, id) && Holder(net, ws, m, home, d2, id2)
    ensures d2 == d && id2 == id
  {
    HeldOnceHolds(net, ws, m, home, d, id);
    HolderCarries(net, ws, m, home, d2, id2);
    hide HeldOnce, Carrying, OnWay, IsHome, Accounted, Tracked;
  }
}
