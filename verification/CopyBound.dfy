/** How often a message to ALL addresses is delivered, and how the protocol repairs the channel.

Every not-found report sends the message once more to everyone left. With k dead addresses in the
channel a live address receives it at least once and at most 2^k times, whatever the interleaving;
when the protocol is at rest the channel holds no address that was dead at the start, and if none was
alive the message is stored. */
module CopyBound {
  import opened Types
  import opened Bags
  import opened PostOffices
  import opened Delivery
  import opened NoLoss
  import opened Fanout
  import opened Quiescence

  function Pow2(k: nat): (r: nat)
    ensures r >= 1
  {
    if k == 0 then 1 else 2 * Pow2(k - 1)
  }

  /** `x` doubled `r` times. */
  function Doubled(x: nat, r: nat): nat
    decreases r
  {
    if r == 0 then x else Doubled(2 * x, r - 1)
  }

  lemma {:induction false} DoubledGrows(x: nat, y: nat, r: nat)
    requires x <= y
    ensures Doubled(x, r) <= Doubled(y, r)
    decreases r
  {
    if r > 0 {
      DoubledGrows(2 * x, 2 * y, r - 1);
    }
  }

  lemma {:induction false} DoubledTwice(x: nat, r: nat)
    ensures Doubled(2 * x, r) == 2 * Doubled(x, r)
    ensures Doubled(x, r) >= x
    decreases r
  {
    if r > 0 {
      DoubledTwice(2 * x, r - 1);
    }
  }

  lemma {:induction false} DoubledOne(r: nat)
    ensures Doubled(1, r) == Pow2(r)
  {
    if r > 0 {
      DoubledOne(r - 1);
      DoubledTwice(1, r - 1);
    }
  }

  /** What the bound is about: the channel, how many copies each address has had or will have, and
  how many copies and reports are aimed at addresses no longer in the channel. */
  datatype Tally = Tally(channel: set<Address>, count: Address -> nat, strayed: nat)

  ghost function Count(w: World, id: nat, a: Address): nat {
    Pending(w, id, a) + Written(w, id, a)
  }

  ghost function TallyOf(w: World, id: nat, u: string): Tally {
    var c := ChannelOf(w.node.channels, u);
    Tally(c, a => Count(w, id, a), LoadOf(w, id, c, false))
  }

  /** After `n` rounds of sending: no address in the channel saw more than `n` copies, and however
  the rest is processed the number of rounds stays below 2^k. The addresses of `keep` stay. */
  ghost predicate Bounded(t: Tally, keep: set<Address>, k: nat, n: nat) {
    && n >= 1
    && keep <= t.channel
    && (forall a :: a in t.channel ==> t.count(a) <= n)
    && Doubled(n + t.strayed, |t.channel - keep|) <= Pow2(k)
  }

  /** Without failures every address in the channel has had a copy in every round. */
  ghost predicate Even(t: Tally, n: nat) {
    forall a :: a in t.channel ==> t.count(a) == n
  }

  /** Losing one more address pays for a doubling. */
  lemma {:induction false} Halve(x: nat, y: nat, c: set<Address>, keep: set<Address>, a: Address)
    requires a in c && a !in keep && x <= 2 * y
    ensures Doubled(x, |(c - {a}) - keep|) <= Doubled(y, |c - keep|)
  {
    assert c - keep == ((c - {a}) - keep) + {a};
    DoubledGrows(x, 2 * y, |(c - {a}) - keep|);
  }

  lemma {:induction false} ConsumeKeepsBound(t: Tally, t1: Tally, keep: set<Address>, k: nat, n: nat)
    requires Bounded(t, keep, k, n)
    requires t1.channel == t.channel && t1.strayed <= t.strayed && forall a :: t1.count(a) <= t.count(a)
    ensures Bounded(t1, keep, k, n)
  {
    DoubledGrows(n + t1.strayed, n + t.strayed, |t.channel - keep|);
    assert forall a :: a in t1.channel ==> t1.count(a) <= t.count(a) <= n;
  }

  lemma {:induction false} ShrinkKeepsBound(t: Tally, t1: Tally, a: Address, keep: set<Address>, k: nat, n: nat)
    requires Bounded(t, keep, k, n) && a in t.channel && a !in keep
    requires t1.channel == t.channel - {a} && t1.strayed <= t.strayed + t.count(a)
    requires forall b :: b in t1.channel ==> t1.count(b) == t.count(b)
    ensures Bounded(t1, keep, k, n)
  {
    Halve(n + t1.strayed, n + t.strayed, t.channel, keep, a);
  }

  /** One more round. The report that caused it is gone, so what strays grows by at most n - 1. */
  lemma {:induction false} ResendKeepsBound(t: Tally, t1: Tally, a: Address, keep: set<Address>, k: nat, n: nat)
    requires Bounded(t, keep, k, n) && a !in keep
    requires t1.channel == t.channel - {a}
    requires t1.strayed + 1 <= t.strayed + if a in t.channel then t.count(a) else 0
    requires forall b :: b in t1.channel ==> t1.count(b) == t.count(b) + 1
    ensures Bounded(t1, keep, k, n + 1)
  {
    if a in t.channel {
      Halve(n + 1 + t1.strayed, n + t.strayed, t.channel, keep, a);
    } else {
      assert t.channel - {a} == t.channel;
      DoubledGrows(n + 1 + t1.strayed, n + t.strayed, |t.channel - keep|);
    }
  }

  // ---- the tallies before and after a step

  lemma {:induction false} ConsumeTally(w: World, w1: World, id: nat, u: string, e: Effect)
    requires Has(w, w1, id, u, e) && (e.Nothing? || e.Lose? || e.Deliver?)
    ensures var t, t1 := TallyOf(w, id, u), TallyOf(w1, id, u);
      && t1.channel == t.channel && t1.strayed <= t.strayed && (forall a :: t1.count(a) <= t.count(a))
      && (!e.Lose? ==> forall a :: t1.count(a) == t.count(a))
  {
    forall a
      ensures Count(w1, id, a) <= Count(w, id, a)
      ensures !e.Lose? ==> Count(w1, id, a) == Count(w, id, a)
    {
      assert !e.Nothing? ==> Hit(e.a, {a}, true) == if e.a == a then 1 else 0;
    }
  }

  lemma {:induction false} ShrinkTally(w: World, w1: World, id: nat, u: string, a: Address)
    requires Has(w, w1, id, u, Shrink(a))
    ensures var t, t1 := TallyOf(w, id, u), TallyOf(w1, id, u);
      && a in t.channel && t1.channel == t.channel - {a} && t1.strayed <= t.strayed + t.count(a)
      && forall b :: t1.count(b) == t.count(b)
  {
    LoadOutside(w, id, ChannelOf(w.node.channels, u), a);
    forall b ensures Count(w1, id, b) == Count(w, id, b) {
    }
  }

  lemma {:induction false} ResendPending(w: World, w1: World, id: nat, u: string, a: Address, b: Address)
    requires Has(w, w1, id, u, Resend(a)) && b in ChannelOf(w1.node.channels, u)
    ensures Count(w1, id, b) == Count(w, id, b) + 1
  {
    var c1 := ChannelOf(w1.node.channels, u);
    HitsOfOne(c1, b);
    assert LoadOf(w1, id, {b}, true) + Hit(a, {b}, true) == LoadOf(w, id, {b}, true) + Hits(c1, {b}, true);
  }

  lemma {:induction false} ResendStrayed(w: World, w1: World, id: nat, u: string, a: Address)
    requires Has(w, w1, id, u, Resend(a))
    ensures var t, t1 := TallyOf(w, id, u), TallyOf(w1, id, u);
      t1.strayed + 1 == t.strayed + if a in t.channel then Pending(w, id, a) else 0
  {
    var c, c1 := ChannelOf(w.node.channels, u), ChannelOf(w1.node.channels, u);
    NoHitsOutside(c1);
    assert LoadOf(w1, id, c1, false) + Hit(a, c1, false) == LoadOf(w, id, c1, false) + Hits(c1, c1, false);
    if a in c {
      LoadOutside(w, id, c, a);
    } else {
      assert c1 == c;
    }
  }

  lemma {:induction false} ResendTally(w: World, w1: World, id: nat, u: string, a: Address)
    requires Has(w, w1, id, u, Resend(a))
    ensures var t, t1 := TallyOf(w, id, u), TallyOf(w1, id, u);
      && t1.channel == t.channel - {a}
      && t1.strayed + 1 <= t.strayed + (if a in t.channel then t.count(a) else 0)
      && forall b :: b in t1.channel ==> t1.count(b) == t.count(b) + 1
  {
    ResendStrayed(w, w1, id, u, a);
    forall b | b in ChannelOf(w1.node.channels, u) ensures Count(w1, id, b) == Count(w, id, b) + 1 {
      ResendPending(w, w1, id, u, a, b);
    }
  }

  /** The effect of a step, seen on the tally alone. */
  ghost predicate TallyStep(t: Tally, t1: Tally, e: Effect) {
    match e
    case Nothing => t1.channel == t.channel && t1.strayed <= t.strayed && forall a :: t1.count(a) == t.count(a)
    case Lose(_) => t1.channel == t.channel && t1.strayed <= t.strayed && forall a :: t1.count(a) <= t.count(a)
    case Deliver(_) => t1.channel == t.channel && t1.strayed <= t.strayed && forall a :: t1.count(a) == t.count(a)
    case Shrink(a) =>
      && a in t.channel && t1.channel == t.channel - {a} && t1.strayed <= t.strayed + t.count(a)
      && forall b :: t1.count(b) == t.count(b)
    case Resend(a) =>
      && t1.channel == t.channel - {a}
      && t1.strayed + 1 <= t.strayed + (if a in t.channel then t.count(a) else 0)
      && forall b :: b in t1.channel ==> t1.count(b) == t.count(b) + 1
  }

  lemma {:induction false} EffectTally(w: World, w1: World, id: nat, u: string, e: Effect)
    requires Has(w, w1, id, u, e)
    ensures TallyStep(TallyOf(w, id, u), TallyOf(w1, id, u), e)
  {
    match e
    case Shrink(a) => ShrinkTally(w, w1, id, u, a);
    case Resend(a) => ResendTally(w, w1, id, u, a);
    case Nothing => ConsumeTally(w, w1, id, u, e);
    case Lose(_) => ConsumeTally(w, w1, id, u, e);
    case Deliver(_) => ConsumeTally(w, w1, id, u, e);
  }

  lemma {:induction false} TallyKeepsBound(t: Tally, t1: Tally, e: Effect, keep: set<Address>, k: nat,
                                           n: nat) returns (n1: nat)
    requires TallyStep(t, t1, e) && Bounded(t, keep, k, n)
    requires (e.Shrink? || e.Resend?) ==> e.a !in keep
    ensures Bounded(t1, keep, k, n1)
    ensures Even(t, n) && !e.Lose? ==> Even(t1, n1)
  {
    match e
    case Shrink(a) =>
      ShrinkKeepsBound(t, t1, a, keep, k, n);
      n1 := n;
    case Resend(a) =>
      ResendKeepsBound(t, t1, a, keep, k, n);
      n1 := n + 1;
    case Nothing =>
      ConsumeKeepsBound(t, t1, keep, k, n);
      n1 := n;
    case Lose(_) =>
      ConsumeKeepsBound(t, t1, keep, k, n);
      n1 := n;
    case Deliver(_) =>
      ConsumeKeepsBound(t, t1, keep, k, n);
      n1 := n;
  }

  lemma {:induction false} BoundedCount(t: Tally, keep: set<Address>, k: nat, n: nat, a: Address)
    requires Bounded(t, keep, k, n) && a in t.channel
    ensures t.count(a) <= Pow2(k)
    ensures Even(t, n) ==> t.count(a) >= 1
  {
    DoubledTwice(n + t.strayed, |t.channel - keep|);
  }

  lemma {:induction false} KeptAreNotRemoved(w: World, w1: World, id: nat, u: string, e: Effect, keep: set<Address>)
    requires Has(w, w1, id, u, e) && (forall a :: a in keep ==> Session(u, a) in w.live)
    ensures (e.Shrink? || e.Resend?) ==> e.a !in keep
  {
  }

  // ---- the first round

  /** `m` goes to all addresses of the ordinary user `u`, and there is one. */
  predicate SentToAll(cfg: Config, w: World, m: Message, u: string) {
    && Addressed(cfg, m).Some? && Addressed(cfg, m).value.to == u && Addressed(cfg, m).value.meta.deliveryType == All
    && m.IsReliable() && DefaultOutgoing(m)
    && !IsBlank(u) && !IsConnectorUser(u)
    && ChannelOf(w.node.channels, u) != {}
  }

  lemma {:induction false} NothingPendingYet(cfg: Config, w: World, id: nat)
    requires Inv(cfg, w) && WritesKnown(w) && FreshId(w, id)
    ensures forall s, i :: LoadOf(w, id, s, i) == 0
    ensures forall a :: Written(w, id, a) == 0
    ensures id !in w.node.store && forall r :: r in w.reports ==> r.msg.id != id
  {
    forall s, i ensures LoadOf(w, id, s, i) == 0 {
      SumZero(CopyHit(id, s, i), w.node.net);
      SumZero(ReportHit(id, s, i), w.reports);
    }
  }

  lemma {:induction false} HandedToAll(cfg: Config, w: World, m: Message, pick: Address, u: string)
    requires Inv(cfg, w) && FreshId(w, m.id) && SentToAll(cfg, w, m, u)
    ensures var w1 := Handed(cfg, w, m, pick); var m1 := Addressed(cfg, m).value;
      && m1.id == m.id
      && ToAll(w1, m.id, u)
      && w1.node == Send(w.node, m1, ChannelOf(w.node.channels, u))
      && w1.reports == w.reports && w1.writes == w.writes && w1.live == w.live && w1.born == w.born
  {
    AddressedIsStable(cfg, m, AddressNotFound);
    assert RouteTargets(cfg, w.node.channels, u, All, pick) == ChannelOf(w.node.channels, u);
  }

  lemma {:induction false} FirstTally(cfg: Config, w: World, m: Message, pick: Address, u: string)
    requires Inv(cfg, w) && WritesKnown(w) && FreshId(w, m.id) && SentToAll(cfg, w, m, u)
    ensures var t := TallyOf(Handed(cfg, w, m, pick), m.id, u);
      t.channel == ChannelOf(w.node.channels, u) && t.strayed == 0 && forall a :: a in t.channel ==> t.count(a) == 1
  {
    hide Load, Addressed;
    var w1 := Handed(cfg, w, m, pick);
    var c := ChannelOf(w.node.channels, u);
    HandedToAll(cfg, w, m, pick, u);
    NothingPendingYet(cfg, w, m.id);
    SendLoad(w.node.net, w.reports, Addressed(cfg, m).value, c, m.id);
    assert forall s, i :: LoadOf(w1, m.id, s, i) == LoadOf(w, m.id, s, i) + Hits(c, s, i);
    NoHitsOutside(c);
    assert LoadOf(w1, m.id, c, false) == 0;
    forall a | a in c ensures Count(w1, m.id, a) == 1 {
      HitsOfOne(c, a);
      assert LoadOf(w1, m.id, {a}, true) == 1;
      assert Written(w, m.id, a) == 0;
    }
  }

  lemma {:induction false} FirstRound(t: Tally, keep: set<Address>)
    requires keep <= t.channel && t.strayed == 0 && forall a :: a in t.channel ==> t.count(a) == 1
    ensures Bounded(t, keep, |t.channel - keep|, 1) && Even(t, 1)
  {
    DoubledOne(|t.channel - keep|);
  }

  // ---- runs

  /** A run that starts with handing over `m`, and then neither brings an address for `u` nor fetches
  `m`; the addresses of `keep` stay alive. */
  ghost predicate IsDelivery(cfg: Config, ws: seq<World>, steps: seq<Step>, m: Message, u: string, keep: set<Address>) {
    && IsRun(cfg, ws, steps) && |steps| >= 1 && Inv(cfg, ws[0]) && WritesKnown(ws[0])
    && steps[0].Accept? && steps[0].m == m && SentToAll(cfg, ws[0], m, u)
    && keep <= ChannelOf(ws[0].node.channels, u)
    && (forall j :: 1 <= j < |steps| ==> Allowed(steps[j], m.id, u))
    && (forall j, a :: 0 <= j < |ws| && a in keep ==> Session(u, a) in ws[j].live)
  }

  ghost predicate AllFaultless(steps: seq<Step>, id: nat) {
    forall j :: 0 <= j < |steps| ==> Faultless(steps[j], id)
  }

  lemma {:induction false} StepKeepsToAll(cfg: Config, w: World, step: Step, id: nat, u: string)
    requires ToAll(w, id, u) && Enabled(cfg, w, step)
    ensures ToAll(After(cfg, w, step), id, u)
  {
    StepGrowsAccepted(cfg, w, step);
  }

  /** The number of rounds up to world `i`. */
  lemma {:induction false} Rounds(cfg: Config, ws: seq<World>, steps: seq<Step>, m: Message, u: string,
                                  keep: set<Address>, i: nat) returns (n: nat)
    requires IsDelivery(cfg, ws, steps, m, u, keep) && 1 <= i < |ws|
    ensures Inv(cfg, ws[i]) && ToAll(ws[i], m.id, u)
    ensures Bounded(TallyOf(ws[i], m.id, u), keep, |ChannelOf(ws[0].node.channels, u) - keep|, n)
    ensures AllFaultless(steps, m.id) ==> Even(TallyOf(ws[i], m.id, u), n)
  {
    var k := |ChannelOf(ws[0].node.channels, u) - keep|;
    if i == 1 {
      StepKeepsInv(cfg, ws[0], steps[0]);
      HandedToAll(cfg, ws[0], m, steps[0].pick, u);
      FirstTally(cfg, ws[0], m, steps[0].pick, u);
      FirstRound(TallyOf(ws[1], m.id, u), keep);
      n := 1;
    } else {
      var n0 := Rounds(cfg, ws, steps, m, u, keep, i - 1);
      var w, step := ws[i - 1], steps[i - 1];
      StepKeepsInv(cfg, w, step);
      StepKeepsToAll(cfg, w, step, m.id, u);
      var e := StepEffect(cfg, w, step, m.id, u);
      KeptAreNotRemoved(w, ws[i], m.id, u, e, keep);
      EffectTally(w, ws[i], m.id, u, e);
      n := TallyKeepsBound(TallyOf(w, m.id, u), TallyOf(ws[i], m.id, u), e, keep, k, n0);
    }
  }

  /** No address that stays alive ever receives the message more than 2^k times, where k addresses of
  the channel do not stay alive - failures or not. */
  lemma {:induction false} CopiesAreBounded(cfg: Config, ws: seq<World>, steps: seq<Step>, m: Message, u: string,
                                            keep: set<Address>, i: nat, a: Address)
    requires IsDelivery(cfg, ws, steps, m, u, keep) && 1 <= i < |ws| && a in keep
    ensures Pending(ws[i], m.id, a) + Written(ws[i], m.id, a) <= Pow2(|ChannelOf(ws[0].node.channels, u) - keep|)
    ensures AllFaultless(steps, m.id) ==> Pending(ws[i], m.id, a) + Written(ws[i], m.id, a) >= 1
  {
    var n := Rounds(cfg, ws, steps, m, u, keep, i);
    var t := TallyOf(ws[i], m.id, u);
    BoundedCount(t, keep, |ChannelOf(ws[0].node.channels, u) - keep|, n, a);
  }

  // ---- at rest

  lemma {:induction false} QuietHasNoLoad(w: World, id: nat)
    requires Quiet(w)
    ensures forall s, i :: LoadOf(w, id, s, i) == 0
  {
  }

  /** Nobody comes back to life, and a channel without new announcements only shrinks. */
  ghost predicate Fading(w0: World, w: World, u: string) {
    && w0.born <= w.born
    && (forall s :: s in w0.born && s in w.live ==> s in w0.live)
    && ChannelOf(w.node.channels, u) <= ChannelOf(w0.node.channels, u)
  }

  /** All copies are aimed at addresses of the first channel, and only what was alive then has been
  written to. */
  ghost predicate WrittenToLive(w0: World, w: World, id: nat, u: string) {
    && LoadOf(w, id, ChannelOf(w0.node.channels, u), false) == 0
    && (forall a :: Written(w, id, a) > 0 ==> a in ChannelOf(w0.node.channels, u) && Session(u, a) in w0.live)
  }

  ghost predicate StoredAsNotFound(w: World, id: nat) {
    && (id in w.node.store ==> w.node.store[id].state == AddressNotFound)
    && (forall r :: r in w.reports && r.msg.id == id ==> r.state == AddressNotFound || r.state == Processed)
  }

  lemma {:induction false} StepRevivesNobody(cfg: Config, w: World, step: Step)
    requires Enabled(cfg, w, step)
    ensures w.born <= After(cfg, w, step).born
    ensures forall s :: s in w.born && s in After(cfg, w, step).live ==> s in w.live
  {
    if step.Settle? {
      SettledGrowsAccepted(cfg, w, step.report, step.pick, step.ids);
    }
  }

  lemma {:induction false} EffectFades(w0: World, w: World, w1: World, id: nat, u: string, e: Effect)
    requires Has(w, w1, id, u, e) && Fading(w0, w, u)
    requires w.born <= w1.born && forall s :: s in w.born && s in w1.live ==> s in w.live
    ensures Fading(w0, w1, u)
  {
  }

  lemma {:induction false} EffectWritesToLive(cfg: Config, w0: World, w: World, w1: World, id: nat, u: string,
                                              e: Effect)
    requires Inv(cfg, w0) && Has(w, w1, id, u, e) && Fading(w0, w, u) && WrittenToLive(w0, w, id, u)
    ensures WrittenToLive(w0, w1, id, u)
  {
    var c0 := ChannelOf(w0.node.channels, u);
    assert LoadOf(w, id, c0, false) == 0;
    if e.Resend? {
      var c1 := ChannelOf(w1.node.channels, u);
      assert (set a | a in c1 && (a in c0) == false) == {};
      assert Hits(c1, c0, false) == 0;
      assert LoadOf(w1, id, c0, false) + Hit(e.a, c0, false) == LoadOf(w, id, c0, false) + Hits(c1, c0, false);
    } else if e.Deliver? {
      assert LoadOf(w1, id, c0, false) + Hit(e.a, c0, false) == LoadOf(w, id, c0, false);
      assert e.a in c0;
      assert Session(u, e.a) in w0.born;
    }
    assert LoadOf(w1, id, c0, false) <= LoadOf(w, id, c0, false);
    forall a | Written(w1, id, a) > 0 ensures a in c0 && Session(u, a) in w0.live {
      assert Written(w1, id, a) > Written(w, id, a) ==> e == Deliver(a);
    }
  }

  /** Handing over one message does not touch the row of another. */
  lemma {:induction false} HandedKeepsRow(cfg: Config, w: World, m: Message, pick: Address, id: nat)
    requires m.id != id && StoredAsNotFound(w, id)
    ensures StoredAsNotFound(Handed(cfg, w, m, pick), id)
  {
    if Addressed(cfg, m).Some? {
      AddressedIsStable(cfg, m, AddressNotFound);
    }
  }

  predicate SameRow(n: Node, n1: Node, id: nat) {
    (id in n1.store <==> id in n.store) && (id in n.store ==> n1.store[id] == n.store[id])
  }

  lemma {:induction false} SendKeepsRow(cfg: Config, n: Node, m: Message, pick: Address, id: nat)
    requires m.id != id
    ensures SameRow(n, SendToConnector(cfg, n, m, pick), id)
  {
  }

  lemma {:induction false} RedeliverKeepsRow(cfg: Config, w: World, r: Report, pick: Address, id: nat, u: string)
    requires Inv(cfg, w) && ToAll(w, id, u) && r in w.reports && r.state == AddressNotFound && StoredAsNotFound(w, id)
    ensures Redeliver(cfg, w.node, r.msg, pick).Some?
    ensures var n := Redeliver(cfg, w.node, r.msg, pick).value;
      id in n.store ==> n.store[id].state == AddressNotFound
  {
    assert PacketOk(cfg, w.born, w.accepted, r.msg);
    LocalIsSettled(cfg, r.msg);
    if r.msg.id == id {
      RedeliverOwn(cfg, w, r, pick, u);
    } else {
      var n := w.node.(channels := RemoveAddress(w.node.channels, r.msg.to, AddressOf(r.msg)));
      SendKeepsRow(cfg, n, Adjusted(cfg, r.msg), pick, id);
    }
  }

  lemma {:induction false} SettledKeepsRow(cfg: Config, w: World, r: Report, pick: Address, ids: FreshIds, id: nat,
                                           u: string)
    requires Inv(cfg, w) && ToAll(w, id, u) && r in w.reports && CanSettle(cfg, w, r, pick, ids)
    requires StoredAsNotFound(w, id)
    ensures StoredAsNotFound(Settled(cfg, w, r, pick, ids), id)
  {
    hide Inv;
    if r.state == AddressNotFound {
      RedeliverKeepsRow(cfg, w, r, pick, id, u);
      assert Settled(cfg, w, r, pick, ids).reports == w.reports - multiset{r};
    } else {
      var w1 := w.(reports := w.reports - multiset{r}, node := Persist(w.node, r.msg, r.state));
      assert StoredAsNotFound(w1, id);
      if ConfirmationDue(cfg, r.msg, r.state) {
        var w2 := w1.(confirmations := w1.confirmations + multiset{WriteOf(r.msg)});
        HandedKeepsRow(cfg, w2, ConfirmationHanded(cfg, r.msg, ids.id, ids.envelopeId, ids.now), pick, id);
      }
    }
  }

  lemma {:induction false} ReceivedKeepsRow(w: World, copy: Message, success: bool, id: nat)
    requires copy in w.node.net && StoredAsNotFound(w, id) && (copy.id == id ==> success)
    ensures StoredAsNotFound(Received(w, copy, success), id)
  {
  }

  lemma {:induction false} FaultKeepsRow(cfg: Config, w: World, copy: Message, id: nat)
    requires copy.id != id && StoredAsNotFound(w, id)
    ensures StoredAsNotFound(After(cfg, w, Fault(copy)), id)
  {
  }

  lemma {:induction false} SendFailKeepsRow(cfg: Config, w: World, copy: Message, id: nat)
    requires copy.id != id && StoredAsNotFound(w, id)
    ensures StoredAsNotFound(After(cfg, w, SendFail(copy)), id)
  {
  }

  lemma {:induction false} FailureKeepsRow(cfg: Config, w: World, step: Step, id: nat)
    requires Faultless(step, id) && StoredAsNotFound(w, id)
    requires step.Control? || step.Fault? || step.SendFail?
    ensures StoredAsNotFound(After(cfg, w, step), id)
  {
    match step
    case Control(_) =>
    case Fault(copy) => FaultKeepsRow(cfg, w, copy, id);
    case SendFail(copy) => SendFailKeepsRow(cfg, w, copy, id);
  }

  lemma {:induction false} FetchedKeepsRow(cfg: Config, w: World, row: Message, pick: Address, failed: set<Address>,
                                           id: nat)
    requires Inv(cfg, w) && Enabled(cfg, w, FetchOne(row, pick, failed)) && row.id != id && StoredAsNotFound(w, id)
    ensures StoredAsNotFound(Fetched(cfg, w, row, pick, failed), id)
  {
    FetchedIs(cfg, w, row, pick, failed);
    hide Fetched, Inv, Enabled, Reached, Copies;
  }

  lemma {:induction false} InputKeepsRow(cfg: Config, w: World, step: Step, id: nat, u: string)
    requires Inv(cfg, w) && ToAll(w, id, u) && Enabled(cfg, w, step) && Allowed(step, id, u) && StoredAsNotFound(w, id)
    requires step.Accept? || step.AcceptGroupMiss? || step.Spawn? || step.FetchOne?
    ensures StoredAsNotFound(After(cfg, w, step), id)
  {
    match step
    case Accept(m, pick) => HandedKeepsRow(cfg, w, m, pick, id);
    case AcceptGroupMiss(group, user, gid, now, pick) =>
      HandedKeepsRow(cfg, w, GroupMissHanded(group, user, gid, now), pick, id);
    case Spawn(_, _, _, _, _) =>
    case FetchOne(row, pick, failed) => FetchedKeepsRow(cfg, w, row, pick, failed, id);
  }

  lemma {:induction false} StepKeepsRow(cfg: Config, w: World, step: Step, id: nat, u: string)
    requires Inv(cfg, w) && ToAll(w, id, u) && Enabled(cfg, w, step) && Allowed(step, id, u)
    requires Faultless(step, id) && StoredAsNotFound(w, id)
    ensures StoredAsNotFound(After(cfg, w, step), id)
  {
    if step.Receive? {
      ReceivedKeepsRow(w, step.copy, step.success, id);
    } else if step.Settle? {
      SettledKeepsRow(cfg, w, step.report, step.pick, step.ids, id, u);
    } else if step.Control? || step.Fault? || step.SendFail? {
      FailureKeepsRow(cfg, w, step, id);
    } else if step.Connect? || step.Announce? || step.Disconnect? || step.Withdraw? {
      assert After(cfg, w, step).reports == w.reports && After(cfg, w, step).node.store == w.node.store;
    } else {
      InputKeepsRow(cfg, w, step, id, u);
    }
  }

  lemma {:induction false} FirstIsLive(cfg: Config, w: World, m: Message, pick: Address, u: string)
    requires Inv(cfg, w) && WritesKnown(w) && FreshId(w, m.id) && SentToAll(cfg, w, m, u)
    ensures var w1 := Handed(cfg, w, m, pick);
      Fading(w, w1, u) && WrittenToLive(w, w1, m.id, u) && StoredAsNotFound(w1, m.id)
  {
    HandedToAll(cfg, w, m, pick, u);
    FirstTally(cfg, w, m, pick, u);
    NothingPendingYet(cfg, w, m.id);
    forall a ensures Written(Handed(cfg, w, m, pick), m.id, a) == 0 {
      assert Written(w, m.id, a) == 0;
    }
  }

  lemma {:induction false} Fades(cfg: Config, ws: seq<World>, steps: seq<Step>, m: Message, u: string,
                                 keep: set<Address>, i: nat)
    requires IsDelivery(cfg, ws, steps, m, u, keep) && 1 <= i < |ws| && AllFaultless(steps, m.id)
    ensures Fading(ws[0], ws[i], u) && WrittenToLive(ws[0], ws[i], m.id, u) && StoredAsNotFound(ws[i], m.id)
  {
    if i == 1 {
      FirstIsLive(cfg, ws[0], m, steps[0].pick, u);
    } else {
      Fades(cfg, ws, steps, m, u, keep, i - 1);
      var w, step := ws[i - 1], steps[i - 1];
      var n := Rounds(cfg, ws, steps, m, u, keep, i - 1);
      var e := StepEffect(cfg, w, step, m.id, u);
      StepRevivesNobody(cfg, w, step);
      EffectFades(ws[0], w, ws[i], m.id, u, e);
      EffectWritesToLive(cfg, ws[0], w, ws[i], m.id, u, e);
      StepKeepsRow(cfg, w, step, m.id, u);
    }
  }

  /** While the message is being delivered, an address that was dead from the start and is still in the
  channel has a copy or a report under way, so it is bound to be found out. */
  lemma {:induction false} DeadAddressesArePending(cfg: Config, ws: seq<World>, steps: seq<Step>, m: Message,
                                                   u: string, keep: set<Address>, i: nat, a: Address)
    requires IsDelivery(cfg, ws, steps, m, u, keep) && 1 <= i < |ws| && AllFaultless(steps, m.id)
    requires a in ChannelOf(ws[i].node.channels, u) && Session(u, a) !in ws[0].live
    ensures Pending(ws[i], m.id, a) >= 1
  {
    hide IsDelivery, AllFaultless, Doubled, Pow2, LoadOf;
    var n := Rounds(cfg, ws, steps, m, u, keep, i);
    Fades(cfg, ws, steps, m, u, keep, i);
    BoundedCount(TallyOf(ws[i], m.id, u), keep, |ChannelOf(ws[0].node.channels, u) - keep|, n, a);
    assert TallyOf(ws[i], m.id, u).count(a) == Count(ws[i], m.id, a);
  }

  /** At rest, every address still in the channel has been written to. */
  lemma {:induction false} RestingChannelIsWritten(w: World, id: nat, u: string, keep: set<Address>, k: nat, n: nat,
                                                   a: Address)
    requires Bounded(TallyOf(w, id, u), keep, k, n) && Even(TallyOf(w, id, u), n) && Quiet(w)
    requires a in ChannelOf(w.node.channels, u)
    ensures 1 <= Written(w, id, a) <= Pow2(k)
  {
    QuietHasNoLoad(w, id);
    BoundedCount(TallyOf(w, id, u), keep, k, n, a);
    assert TallyOf(w, id, u).count(a) == Count(w, id, a);
  }

  lemma {:induction false} UnwrittenIsStored(w: World, id: nat)
    requires Tracked(w, id) && Accounted(w, id) && Quiet(w) && StoredAsNotFound(w, id)
    requires forall a :: Written(w, id, a) == 0
    ensures id in w.node.store && w.node.store[id].state == AddressNotFound
  {
    TokensAreSomewhere(w, id);
    forall x | x in w.writes ensures x.id != id {
      assert x.id == id ==> Written(w, id, x.address) > 0;
    }
  }

  /** What rest looks like: `k` addresses of the first channel do not belong to `keep`. */
  ghost predicate Repaired(w0: World, w: World, id: nat, u: string, keep: set<Address>) {
    var c0, c := ChannelOf(w0.node.channels, u), ChannelOf(w.node.channels, u);
    && (forall a :: a in c ==> Session(u, a) in w0.live)
    && (forall a :: a in keep ==> a in c && 1 <= Written(w, id, a) <= Pow2(|c0 - keep|))
    && (c0 == keep ==> forall a :: a in keep ==> Written(w, id, a) == 1)
    && ((forall a :: a in c0 ==> Session(u, a) !in w0.live) ==>
          c == {} && id in w.node.store && w.node.store[id].state == AddressNotFound)
  }

  ghost predicate AllWritten(w: World, id: nat, u: string, keep: set<Address>, bound: nat) {
    var c := ChannelOf(w.node.channels, u);
    keep <= c && forall a :: a in c ==> 1 <= Written(w, id, a) <= bound
  }

  lemma {:induction false} RestIsWritten(w: World, id: nat, u: string, keep: set<Address>, k: nat, n: nat)
    requires Bounded(TallyOf(w, id, u), keep, k, n) && Even(TallyOf(w, id, u), n) && Quiet(w)
    ensures AllWritten(w, id, u, keep, Pow2(k))
  {
    forall a | a in ChannelOf(w.node.channels, u) ensures 1 <= Written(w, id, a) <= Pow2(k) {
      RestingChannelIsWritten(w, id, u, keep, k, n, a);
    }
  }

  lemma {:induction false} RestIsRepaired(w0: World, w: World, id: nat, u: string, keep: set<Address>)
    requires AllWritten(w, id, u, keep, Pow2(|ChannelOf(w0.node.channels, u) - keep|))
    requires Quiet(w) && Fading(w0, w, u) && WrittenToLive(w0, w, id, u) && StoredAsNotFound(w, id)
    requires Tracked(w, id) && Accounted(w, id)
    ensures Repaired(w0, w, id, u, keep)
  {
    var c0 := ChannelOf(w0.node.channels, u);
    assert c0 == keep ==> c0 - keep == {};
    if forall a :: a in c0 ==> Session(u, a) !in w0.live {
      UnwrittenIsStored(w, id);
    }
  }

  /** At rest the channel is repaired, whoever stayed alive got the message between once and 2^k
  times - exactly once when k is 0 - and if nobody was alive the message waits in the store. */
  lemma {:induction false} AtRest(cfg: Config, ws: seq<World>, steps: seq<Step>, m: Message, u: string,
                                  keep: set<Address>)
    requires IsDelivery(cfg, ws, steps, m, u, keep) && AllFaultless(steps, m.id)
    requires Quiet(ws[|ws| - 1])
    ensures Repaired(ws[0], ws[|ws| - 1], m.id, u, keep)
  {
    var last := |ws| - 1;
    var n := Rounds(cfg, ws, steps, m, u, keep, last);
    Fades(cfg, ws, steps, m, u, keep, last);
    NothingIsLost(cfg, ws, steps, last, m.id);
    RestIsWritten(ws[last], m.id, u, keep, |ChannelOf(ws[0].node.channels, u) - keep|, n);
    RestIsRepaired(ws[0], ws[last], m.id, u, keep);
  }
}
