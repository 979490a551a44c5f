/** The bound of 2^k copies is attained: there is a run in which the one live address gets them all.

The worst order lets each dead address report every copy it got before the next one reports at all: the
copies still under way to every other address double each time. */
module WorstCase {
  import opened Types
  import opened Bags
  import opened PostOffices
  import opened Delivery
  import opened NoLoss
  import opened Fanout
  import opened CopyBound

  /** `w` with this channel of `u`, these copies under way and no reports. */
  function At(w: World, u: string, c: set<Address>, net: multiset<Message>): World {
    w.(node := w.node.(channels := w.node.channels[u := c], net := net), reports := multiset{})
  }

  /** `p` copies for every address. */
  function CopiesEach(m: Message, c: set<Address>, p: nat): multiset<Message> {
    if p == 0 then multiset{} else CopiesEach(m, c, p - 1) + multiset(Copies(m, c))
  }

  /** `q` copies for one address. */
  function Times(m: Message, a: Address, q: nat): multiset<Message> {
    if q == 0 then multiset{} else Times(m, a, q - 1) + multiset{m.WithTarget(a)}
  }

  lemma {:induction false} EachSplit(m: Message, c: set<Address>, a: Address, p: nat)
    requires a in c
    ensures CopiesEach(m, c, p) == CopiesEach(m, c - {a}, p) + Times(m, a, p)
  {
    if p > 0 {
      EachSplit(m, c, a, p - 1);
      assert c == (c - {a}) + {a};
      CopiesGrow(m, c - {a}, a);
    }
  }

  /** A message ready to be sent to all addresses of the ordinary user `u`. */
  predicate IsSettled(cfg: Config, m: Message, u: string) {
    && Adjusted(cfg, m) == m && m.to == u && m.meta.deliveryType == All && m.IsReliable() && DefaultOutgoing(m)
    && !IsBlank(u) && !IsConnectorUser(u)
  }

  /** Steps that neither fail nor change who is alive. */
  predicate IsOrderly(step: Step) {
    step.Settle? || (step.Receive? && step.success)
  }

  ghost predicate Leads(cfg: Config, w: World, ws: seq<World>, steps: seq<Step>, w1: World) {
    && IsRun(cfg, ws, steps) && ws[0] == w && ws[|steps|] == w1
    && (forall j :: 0 <= j < |steps| ==> IsOrderly(steps[j]))
    && (forall j :: 0 <= j < |ws| ==> ws[j].live == w.live)
  }

  lemma {:induction false} LeadsTwice(cfg: Config, w: World, ws: seq<World>, steps: seq<Step>, w1: World,
                                      ws2: seq<World>, steps2: seq<Step>, w2: World)
    returns (all: seq<World>, allSteps: seq<Step>)
    requires Leads(cfg, w, ws, steps, w1) && Leads(cfg, w1, ws2, steps2, w2)
    ensures Leads(cfg, w, all, allSteps, w2)
  {
    hide Enabled, After, IsOrderly;
    all, allSteps := ws + ws2[1..], steps + steps2;
    forall i | 0 <= i < |allSteps|
      ensures Enabled(cfg, all[i], allSteps[i]) && all[i + 1] == After(cfg, all[i], allSteps[i])
      ensures IsOrderly(allSteps[i])
    {
      if i >= |steps| {
        assert allSteps[i] == steps2[i - |steps|] && all[i] == ws2[i - |steps|] && all[i + 1] == ws2[i - |steps| + 1];
      }
    }
  }

  lemma {:induction false} RedeliveredTo(cfg: Config, n: Node, m: Message, u: string, c: set<Address>, d: Address,
                                         pick: Address)
    requires IsSettled(cfg, m, u) && d.domain == cfg.domain && c - {d} != {}
    ensures Redeliver(cfg, n.(channels := n.channels[u := c]), m.WithTarget(d), pick) ==
            Some(n.(channels := n.channels[u := c - {d}], net := n.net + multiset(Copies(m, c - {d}))))
    ensures CanDeliver(cfg, RemoveAddress(n.channels[u := c], u, d), m.WithTarget(d), pick) <==> pick in c - {d}
  {
    var r := m.WithTarget(d);
    LocalIsSettled(cfg, r);
    assert Adjusted(cfg, r) == r;
    assert RemoveAddress(n.channels[u := c], u, d) == n.channels[u := c - {d}];
    assert Copies(r, c - {d}) == Copies(m, c - {d}) by {
      assert forall b :: r.WithTarget(b) == m.WithTarget(b);
    }
  }

  /** One copy for a dead address: it reports, the address goes, everyone left gets one more copy. */
  lemma {:induction false} OneReport(cfg: Config, w: World, m: Message, u: string, c: set<Address>,
                                     net: multiset<Message>, d: Address, a: Address)
    returns (ws: seq<World>, steps: seq<Step>)
    requires IsSettled(cfg, m, u) && d.domain == cfg.domain && a in c && a != d && Session(u, d) !in w.live
    requires m.WithTarget(d) in net
    ensures Leads(cfg, At(w, u, c, net), ws, steps,
                  At(w, u, c - {d}, net - multiset{m.WithTarget(d)} + multiset(Copies(m, c - {d}))))
  {
    var copy, rest, left := m.WithTarget(d), net - multiset{m.WithTarget(d)}, c - {d};
    var w0, w1 := At(w, u, c, net), Reporting(w, u, c, rest, copy);
    var w2 := At(w, u, left, rest + multiset(Copies(m, left)));
    var settle := Settle(Report(copy, AddressNotFound), a, FreshIds(0, 0, 0));
    DeadReports(cfg, w, m, u, c, net, d);
    ReportResends(cfg, w, m, u, c, rest, d, a);
    hide Enabled, After, At, Reporting;
    ws, steps := [w0, w1, w2], [Receive(copy, true), settle];
  }

  /** `w` with one not-found report about the copy. */
  function Reporting(w: World, u: string, c: set<Address>, net: multiset<Message>, copy: Message): World {
    At(w, u, c, net).(reports := multiset{Report(copy, AddressNotFound)})
  }

  lemma {:induction false} DeadReports(cfg: Config, w: World, m: Message, u: string, c: set<Address>,
                                       net: multiset<Message>, d: Address)
    requires IsSettled(cfg, m, u) && Session(u, d) !in w.live && m.WithTarget(d) in net
    ensures var copy := m.WithTarget(d);
      && Enabled(cfg, At(w, u, c, net), Receive(copy, true))
      && After(cfg, At(w, u, c, net), Receive(copy, true)) == Reporting(w, u, c, net - multiset{copy}, copy)
  {
    assert SessionOf(m.WithTarget(d)) == Session(u, d);
  }

  lemma {:induction false} ReportCanResend(cfg: Config, w: World, m: Message, u: string, c: set<Address>,
                                           net: multiset<Message>, d: Address, a: Address)
    requires IsSettled(cfg, m, u) && d.domain == cfg.domain && a in c && a != d
    ensures var copy := m.WithTarget(d);
      Enabled(cfg, Reporting(w, u, c, net, copy), Settle(Report(copy, AddressNotFound), a, FreshIds(0, 0, 0)))
  {
    assert a in c - {d};
    RedeliveredTo(cfg, w.node.(net := net), m, u, c, d, a);
    hide Redeliver, RemoveAddress, Adjusted, CanDeliver;
  }

  lemma {:induction false} ReportResends(cfg: Config, w: World, m: Message, u: string, c: set<Address>,
                                         net: multiset<Message>, d: Address, a: Address)
    requires IsSettled(cfg, m, u) && d.domain == cfg.domain && a in c && a != d
    ensures var copy := m.WithTarget(d);
      var settle := Settle(Report(copy, AddressNotFound), a, FreshIds(0, 0, 0));
      && Enabled(cfg, Reporting(w, u, c, net, copy), settle)
      && After(cfg, Reporting(w, u, c, net, copy), settle) == At(w, u, c - {d}, net + multiset(Copies(m, c - {d})))
  {
    ReportCanResend(cfg, w, m, u, c, net, d, a);
    assert a in c - {d};
    RedeliveredTo(cfg, w.node.(net := net), m, u, c, d, a);
    hide Redeliver, RemoveAddress, Copies, Adjusted, CanDeliver, Enabled, IsSettled;
  }

  /** All the copies of an address that is already out of the channel report. */
  lemma {:induction false} DrainStrays(cfg: Config, w: World, m: Message, u: string, c: set<Address>, p: nat,
                                       d: Address, q: nat, a: Address)
    returns (ws: seq<World>, steps: seq<Step>)
    requires IsSettled(cfg, m, u) && d.domain == cfg.domain && a in c && d !in c && Session(u, d) !in w.live
    ensures Leads(cfg, At(w, u, c, CopiesEach(m, c, p) +
                          Times(m, d, q)), ws, steps, At(w, u, c, CopiesEach(m, c, p + q)))
    decreases q
  {
    hide IsSettled, Leads, At;
    if q == 0 {
      assert CopiesEach(m, c, p) + Times(m, d, q) == CopiesEach(m, c, p + q);
      ws, steps := LeadsNowhere(cfg, At(w, u, c, CopiesEach(m, c, p)));
    } else {
      var net := CopiesEach(m, c, p) + Times(m, d, q);
      ws, steps := OneReport(cfg, w, m, u, c, net, d, a);
      assert c - {d} == c;
      assert net - multiset{m.WithTarget(d)} + multiset(Copies(m, c)) == CopiesEach(m, c, p + 1) + Times(m, d, q - 1);
      var ws2, steps2 := DrainStrays(cfg, w, m, u, c, p + 1, d, q - 1, a);
      ws, steps := LeadsTwice(cfg, At(w, u, c, net), ws, steps,
                              At(w, u, c, CopiesEach(m, c, p + 1) + Times(m, d, q - 1)),
                              ws2, steps2, At(w, u, c, CopiesEach(m, c, p + q)));
    }
  }

  lemma {:induction false} LeadsNowhere(cfg: Config, w: World) returns (ws: seq<World>, steps: seq<Step>)
    ensures Leads(cfg, w, ws, steps, w)
  {
    ws, steps := [w], [];
  }

  /** The first of `p` copies is taken, and every other address gets one more. */
  lemma {:induction false} FirstOfDead(m: Message, c: set<Address>, d: Address, p: nat)
    requires d in c && p >= 1
    ensures m.WithTarget(d) in CopiesEach(m, c, p)
    ensures CopiesEach(m, c, p) - multiset{m.WithTarget(d)} + multiset(Copies(m, c - {d})) ==
            CopiesEach(m, c - {d}, p + 1) + Times(m, d, p - 1)
  {
    EachSplit(m, c, d, p);
    assert Times(m, d, p) == Times(m, d, p - 1) + multiset{m.WithTarget(d)};
  }

  /** A dead address with `p` copies costs every other address `p` more. */
  lemma {:induction false} RemoveDead(cfg: Config, w: World, m: Message, u: string, c: set<Address>, p: nat,
                                      d: Address, a: Address)
    returns (ws: seq<World>, steps: seq<Step>)
    requires IsSettled(cfg, m, u) && d.domain == cfg.domain && a in c && d in c && a != d && Session(u, d) !in w.live
    requires p >= 1
    ensures Leads(cfg, At(w, u, c, CopiesEach(m, c, p)), ws, steps, At(w, u, c - {d}, CopiesEach(m, c - {d}, 2 * p)))
  {
    hide IsSettled, Leads, At;
    var net, rest := CopiesEach(m, c, p), c - {d};
    FirstOfDead(m, c, d, p);
    hide CopiesEach, Times, Copies;
    ws, steps := OneReport(cfg, w, m, u, c, net, d, a);
    var ws2, steps2 := DrainStrays(cfg, w, m, u, rest, p + 1, d, p - 1, a);
    ws, steps := LeadsTwice(cfg, At(w, u, c, net), ws, steps,
                            At(w, u, rest, CopiesEach(m, rest, p + 1) + Times(m, d, p - 1)),
                            ws2, steps2, At(w, u, rest, CopiesEach(m, rest, 2 * p)));
  }

  lemma {:induction false} OneLess(c: set<Address>, a: Address, d: Address, p: nat)
    requires a in c && d in c && a != d
    ensures |c - {d}| < |c| && Doubled(p, |c - {a}|) == Doubled(2 * p, |(c - {d}) - {a}|)
  {
    assert c - {a} == ((c - {d}) - {a}) + {d};
    assert c == (c - {d}) + {d};
  }

  /** One dead address after the other. */
  lemma {:induction false} RemoveAllDead(cfg: Config, w: World, m: Message, u: string, c: set<Address>, p: nat,
                                         a: Address)
    returns (ws: seq<World>, steps: seq<Step>)
    requires IsSettled(cfg, m, u) && a in c && p >= 1
    requires forall d :: d in c && d != a ==> d.domain == cfg.domain && Session(u, d) !in w.live
    ensures Leads(cfg, At(w, u, c, CopiesEach(m, c, p)), ws, steps,
                  At(w, u, {a}, CopiesEach(m, {a}, Doubled(p, |c - {a}|))))
    decreases |c|
  {
    hide IsSettled, Leads, At, CopiesEach;
    if c - {a} == {} {
      assert c == {a};
      ws, steps := LeadsNowhere(cfg, At(w, u, c, CopiesEach(m, c, p)));
    } else {
      var d :| d in c - {a};
      OneLess(c, a, d, p);
      hide Doubled;
      ws, steps := RemoveDead(cfg, w, m, u, c, p, d, a);
      var ws2, steps2 := RemoveAllDead(cfg, w, m, u, c - {d}, 2 * p, a);
      ws, steps := LeadsTwice(cfg, At(w, u, c, CopiesEach(m, c, p)), ws, steps,
                              At(w, u, c - {d}, CopiesEach(m, c - {d}, 2 * p)),
                              ws2, steps2, At(w, u, {a}, CopiesEach(m, {a}, Doubled(p, |c - {a}|))));
    }
  }

  lemma {:induction false} EachHits(m: Message, a: Address, p: nat)
    ensures Sum(CopyHit(m.id, {a}, true), CopiesEach(m, {a}, p)) == p
  {
    var f := CopyHit(m.id, {a}, true);
    if p > 0 {
      EachHits(m, a, p - 1);
      CopiesHits(m, {a}, {a}, true);
      HitsOfOne({a}, a);
      hide Sum, Copies, CopyHit, Hits;
      SumUnion(f, CopiesEach(m, {a}, p - 1), multiset(Copies(m, {a})));
      assert CopiesEach(m, {a}, p) == CopiesEach(m, {a}, p - 1) + multiset(Copies(m, {a}));
    }
  }

  lemma {:induction false} PendingOfEach(w: World, m: Message, u: string, a: Address, p: nat)
    ensures Pending(At(w, u, {a}, CopiesEach(m, {a}, p)), m.id, a) == p
  {
    EachHits(m, a, p);
    SumZero(ReportHit(m.id, {a}, true), multiset{});
  }

  lemma {:induction false} StartsRound(cfg: Config, w: World, m: Message, u: string, pick: Address)
    requires Inv(cfg, w) && FreshId(w, m.id) && SentToAll(cfg, w, m, u) && w.node.net == multiset{}
    requires w.reports == multiset{}
    ensures var m1, c, w1 := Addressed(cfg, m).value, ChannelOf(w.node.channels, u), Handed(cfg, w, m, pick);
      && IsSettled(cfg, m1, u) && m1.id == m.id
      && w1 == At(w1, u, c, CopiesEach(m1, c, 1)) && w1.live == w.live && w1.writes == w.writes
  {
    var m1, c := Addressed(cfg, m).value, ChannelOf(w.node.channels, u);
    HandedToAll(cfg, w, m, pick, u);
    AddressedIsStable(cfg, m, AddressNotFound);
    assert CopiesEach(m1, c, 1) == CopiesEach(m1, c, 0) + multiset(Copies(m1, c));
    assert w.node.channels[u := c] == w.node.channels;
  }

  lemma {:induction false} WorstRun(cfg: Config, w: World, m: Message, u: string, a: Address)
    returns (ws: seq<World>, steps: seq<Step>)
    requires Inv(cfg, w) && w.node.net == multiset{} && w.reports == multiset{}
    requires FreshId(w, m.id) && SentToAll(cfg, w, m, u)
    requires a in ChannelOf(w.node.channels, u)
    requires forall d :: d in ChannelOf(w.node.channels, u) && d != a ==> Session(u, d) !in w.live
    ensures Handed(cfg, w, m, a).live == w.live
    ensures |ws| == |steps| + 1 && Leads(cfg, Handed(cfg, w, m, a), ws, steps, ws[|steps|])
    ensures Pending(ws[|steps|], m.id, a) == Pow2(|ChannelOf(w.node.channels, u) - {a}|)
  {
    StartsRound(cfg, w, m, u, a);
    ChannelIsLocal(cfg, w, u);
    var m1, c, w1 := Addressed(cfg, m).value, ChannelOf(w.node.channels, u), Handed(cfg, w, m, a);
    hide Inv, SentToAll, Handed, Addressed, IsSettled, At, CopiesEach, ChannelOf, Pending;
    ws, steps := RemoveAllDead(cfg, w1, m1, u, c, 1, a);
    DoubledOne(|c - {a}|);
    PendingOfEach(w1, m1, u, a, Pow2(|c - {a}|));
  }

  /** A run in which nothing fails ends with as many copies on their way to the one live address as the
  bound allows: 2^k, when the channel holds k other addresses, all dead. */
  lemma {:induction false} BoundIsAttained(cfg: Config, w: World, m: Message, u: string, a: Address)
    returns (ws: seq<World>, steps: seq<Step>)
    requires Inv(cfg, w) && WritesKnown(w) && w.node.net == multiset{} && w.reports == multiset{}
    requires FreshId(w, m.id) && SentToAll(cfg, w, m, u)
    requires a in ChannelOf(w.node.channels, u) && Session(u, a) in w.live
    requires forall d :: d in ChannelOf(w.node.channels, u) && d != a ==> Session(u, d) !in w.live
    ensures IsDelivery(cfg, ws, steps, m, u, {a}) && ws[0] == w && AllFaultless(steps, m.id)
    ensures Pending(ws[|steps|], m.id, a) == Pow2(|ChannelOf(w.node.channels, u) - {a}|)
  {
    ws, steps := WorstRun(cfg, w, m, u, a);
    AcceptedFirst(cfg, w, m, u, a, ws, steps);
    hide IsDelivery, AllFaultless, Inv, WritesKnown, SentToAll, Leads, Handed, Pending, Pow2, ChannelOf;
    ws, steps := [w] + ws, [Accept(m, a)] + steps;
  }

  lemma {:induction false} ChannelIsLocal(cfg: Config, w: World, u: string)
    requires Inv(cfg, w)
    ensures forall d :: d in ChannelOf(w.node.channels, u) ==> d.domain == cfg.domain
  {
    forall d | d in ChannelOf(w.node.channels, u) ensures d.domain == cfg.domain {
      assert Session(u, d) in w.born;
    }
  }

  lemma {:induction false} OrderlyIsFaultless(step: Step, id: nat, u: string)
    requires IsOrderly(step)
    ensures Allowed(step, id, u) && Faultless(step, id)
  {
  }

  /** An orderly run after handing over the message is a delivery without faults. */
  lemma {:induction false} AcceptedFirst(cfg: Config, w: World, m: Message, u: string, a: Address, ws: seq<World>,
                                         steps: seq<Step>)
    requires Inv(cfg, w) && WritesKnown(w) && FreshId(w, m.id) && SentToAll(cfg, w, m, u)
    requires a in ChannelOf(w.node.channels, u) && Session(u, a) in w.live
    requires |ws| >= 1 && Leads(cfg, Handed(cfg, w, m, a), ws, steps, ws[|ws| - 1])
    requires Handed(cfg, w, m, a).live == w.live
    ensures IsDelivery(cfg, [w] + ws, [Accept(m, a)] + steps, m, u, {a}) && AllFaultless([Accept(m, a)] + steps, m.id)
  {
    var all, allSteps := [w] + ws, [Accept(m, a)] + steps;
    assert Enabled(cfg, w, Accept(m, a)) && After(cfg, w, Accept(m, a)) == ws[0];
    RunAfter(cfg, w, Accept(m, a), ws, steps);
    hide Enabled, After, Inv, WritesKnown, SentToAll, Handed, ChannelOf, IsOrderly, IsRun, Allowed;
    forall i | 1 <= i < |allSteps| ensures Allowed(allSteps[i], m.id, u) && Faultless(allSteps[i], m.id) {
      assert allSteps[i] == steps[i - 1];
      OrderlyIsFaultless(allSteps[i], m.id, u);
    }
    forall i | 0 <= i < |all| ensures all[i].live == w.live {
      assert i > 0 ==> all[i] == ws[i - 1];
    }
    hide Leads, Faultless;
  }
}
