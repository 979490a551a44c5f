/** Fetching missed messages: what a page of stored rows is, and what delivering a page does. */
module Fetching {
  import opened Types
  import opened PostOffices
  import opened Delivery

  type Store = map<nat, Message>

  /** `FetchMissingMessagesMessageProcessor.MAX_COUNT`. */
  const MAX_COUNT := 2000

  predicate Matches(user: string, row: Message) {
    row.to == user && Fetchable(row)
  }

  /** The ids of the rows a fetch for `user` looks at. */
  function Matching(store: Store, user: string): set<nat> {
    set id | id in store && Matches(user, store[id])
  }

  function Ids(rows: seq<Message>): set<nat> {
    set i | 0 <= i < |rows| :: rows[i].id
  }

  predicate Sorted(rows: seq<Message>) {
    forall i, j :: 0 <= i < j < |rows| ==> rows[i].createdAt <= rows[j].createdAt
  }

  predicate Distinct(rows: seq<Message>) {
    forall i, j :: 0 <= i < j < |rows| ==> rows[i].id != rows[j].id
  }

  /** `rows` are rows of the store, one by one, for `user`. */
  predicate AreRows(store: Store, user: string, rows: seq<Message>) {
    Distinct(rows) && forall i ::
      0 <= i < |rows| ==> rows[i].id in Matching(store, user) && store[rows[i].id] == rows[i]
  }

  /** The answer of `findMessages`: the oldest rows, oldest first, as many as there are up to `count`. */
  ghost predicate IsPage(store: Store, user: string, count: nat, page: seq<Message>) {
    && AreRows(store, user, page) && Sorted(page) && OlderThanRest(store, user, page)
    && |page| == Min(count, |Matching(store, user)|)
  }

  /** The row waits for the user: it was not found or not sent. */
  predicate Waits(row: Message, user: string) {
    row.to == user && (row.state == AddressNotFound || row.state == NetworkError)
  }

  lemma {:induction false} PageParts(store: Store, user: string, count: nat, page: seq<Message>)
    requires IsPage(store, user, count, page)
    ensures AreRows(store, user, page) && |page| == Min(count, |Matching(store, user)|)
  {
    hide AreRows, Sorted, OlderThanRest, Matching;
  }

  predicate IsOff(page: seq<Message>, id: nat) {
    forall j :: 0 <= j < |page| ==> page[j].id != id
  }

  /** What a fetch looks up, row by row: waiting rows of the user, each once and oldest first, up to `count`,
  and none that waits is left out for a younger one. */
  ghost predicate OldestRows(store: Store, user: string, count: nat, page: seq<Message>) {
    && (forall i :: 0 <= i < |page| ==> page[i].id in store && store[page[i].id] == page[i] && Waits(page[i], user))
    && (forall i, j :: 0 <= i < j < |page| ==> page[i].id != page[j].id && page[i].createdAt <= page[j].createdAt)
    && (forall id, i :: id in store && Waits(store[id], user) && IsOff(page, id) && 0 <= i < |page| ==>
          page[i].createdAt <= store[id].createdAt)
    && var total := |set id | id in store && Waits(store[id], user)|;
       |page| == if total < count then total else count
  }

  lemma {:induction false} PageIsOldestRows(store: Store, user: string, count: nat, page: seq<Message>)
    requires IsPage(store, user, count, page)
    ensures Matching(store, user) == set id | id in store && Waits(store[id], user)
    ensures OldestRows(store, user, count, page)
  {
    forall id, i | id in store && Waits(store[id], user) && IsOff(page, id) && 0 <= i < |page|
      ensures page[i].createdAt <= store[id].createdAt
    {
      assert id in Matching(store, user) - Ids(page);
    }
    assert Matching(store, user) == set id | id in store && Waits(store[id], user);
  }

  function Min(a: int, b: int): int {
    if a < b then a else b
  }

  /** Rows are stored under their own ids. */
  predicate Keyed(store: Store) {
    forall id :: id in store ==> store[id].id == id
  }

  /** Every row of `user` can be delivered as it stands; see `StoreIsDeliverable`. */
  ghost predicate Deliverable(cfg: Config, store: Store, user: string) {
    forall id :: id in Matching(store, user) ==> Addressed(cfg, store[id]) == Some(Adjusted(cfg, store[id]))
  }

  /** The addresses to which a copy of `m` goes out. */
  function SentTo(cfg: Config, channels: Channels, m: Message, pick: Address, fails: Fails): set<Address> {
    var targets := RouteTargets(cfg, channels, m.to, m.meta.deliveryType, pick);
    Reached(cfg, channels, m, pick, FailedOf(m, targets, fails))
  }

  /** The copies that go out when `rows` are delivered, with `picks` the random choices. A copy is sent at
  most once here, so `fails` can tell any pattern of failures. */
  function Sent(cfg: Config, channels: Channels, rows: seq<Message>, picks: seq<Address>, fails: Fails):
    multiset<Message>
    requires |rows| == |picks|
  {
    if rows == [] then multiset{}
    else
      var m := Adjusted(cfg, rows[|rows| - 1]);
      Sent(cfg, channels, rows[..|rows| - 1], picks[..|rows| - 1], fails) +
      multiset(Copies(m, SentTo(cfg, channels, m, picks[|rows| - 1], fails)))
  }

  lemma {:induction false} SentAppend(cfg: Config, channels: Channels, rows: seq<Message>, picks: seq<Address>,
                                      row: Message, pick: Address, fails: Fails)
    requires |rows| == |picks|
    ensures var m := Adjusted(cfg, row);
      Sent(cfg, channels, rows + [row], picks + [pick], fails) ==
      Sent(cfg, channels, rows, picks, fails) + multiset(Copies(m, SentTo(cfg, channels, m, pick, fails)))
  {
    assert (rows + [row])[..|rows|] == rows && (picks + [pick])[..|rows|] == picks;
  }

  lemma {:induction false} SentConcat(cfg: Config, channels: Channels, rows: seq<Message>, picks: seq<Address>,
                                      more: seq<Message>, morePicks: seq<Address>, fails: Fails)
    requires |rows| == |picks| && |more| == |morePicks|
    ensures Sent(cfg, channels, rows + more, picks + morePicks, fails) ==
            Sent(cfg, channels, rows, picks, fails) + Sent(cfg, channels, more, morePicks, fails)
    decreases |more|
  {
    hide Adjusted, SentTo, Copies;
    if more == [] {
      assert rows + more == rows && picks + morePicks == picks;
    } else {
      var n := |more| - 1;
      SentConcat(cfg, channels, rows, picks, more[..n], morePicks[..n], fails);
      assert rows + more == (rows + more[..n]) + [more[n]];
      assert picks + morePicks == (picks + morePicks[..n]) + [morePicks[n]];
      SentAppend(cfg, channels, rows + more[..n], picks + morePicks[..n], more[n], morePicks[n], fails);
    }
  }

  /** No copy goes out exactly when there is no address, or every chosen one fails at once. */
  lemma {:induction false} SentToNobody(cfg: Config, channels: Channels, m: Message, pick: Address, fails: Fails)
    ensures SentTo(cfg, channels, m, pick, fails) == {} <==>
            || Candidates(cfg, channels, m.to) == {}
            || forall a :: a in RouteTargets(cfg, channels, m.to, m.meta.deliveryType, pick) ==> fails(m.WithTarget(a))
  {
    var targets := RouteTargets(cfg, channels, m.to, m.meta.deliveryType, pick);
    assert forall a :: a in SentTo(cfg, channels, m, pick, fails) <==> a in targets && !fails(m.WithTarget(a));
  }

  /** In every world a run of the delivery protocol reaches, rows have their own ids and can be fetched. */
  lemma {:induction false} StoreIsDeliverable(cfg: Config, w: World, user: string)
    requires Inv(cfg, w)
    ensures Keyed(w.node.store) && Deliverable(cfg, w.node.store, user)
  {
    assert forall id :: id in w.node.store ==> RowOk(cfg, w.accepted, id, w.node.store[id]);
    hide Inv, Addressed, Adjusted, SameMessage;
  }

  /** How far the loop over a page came: `ok` is false when a delivery threw and ended it. */
  datatype Progress = Progress(node: Node, ok: bool)

  /** The loop of `doProcess`: deliver a row, then remove it. */
  function FetchRows(cfg: Config, n: Node, rows: seq<Message>, picks: seq<Address>, fails: Fails): Progress
    requires |rows| == |picks|
  {
    if rows == [] then Progress(n, true)
    else
      var p := FetchRows(cfg, n, rows[..|rows| - 1], picks[..|rows| - 1], fails);
      if p.ok then FetchRow(cfg, p.node, rows[|rows| - 1], picks[|rows| - 1], fails) else p
  }

  /** What `FetchedIsDeliverThenRemove` shows a delivery with its own saving, and the removal, to be. */
  function FetchRow(cfg: Config, n: Node, row: Message, pick: Address, fails: Fails): Progress {
    match Addressed(cfg, row)
    case None => Progress(n, false)
    case Some(m) => Progress(SentAndRemoved(n, m, SentTo(cfg, n.channels, m, pick, fails), row.id), true)
  }

  lemma {:induction false} FetchRowIsDeliverThenRemove(cfg: Config, n: Node, row: Message, pick: Address, fails: Fails,
                                                       last: Address)
    ensures var delivered := DeliverFailing(cfg, n, row, pick, fails, last);
      FetchRow(cfg, n, row, pick, fails) ==
      if delivered.None? then Progress(n, false)
      else Progress(delivered.value.(store := delivered.value.store - {row.id}), true)
  {
    hide Addressed, RouteTargets, SendFailing, SentAndRemoved, FailedOf, Reached;
    if Addressed(cfg, row).Some? {
      FetchedIsDeliverThenRemove(cfg, n, row, pick, fails, last);
    }
  }

  lemma {:induction false} FetchRowsAppend(cfg: Config, n: Node, rows: seq<Message>, picks: seq<Address>, row: Message,
                                           pick: Address, fails: Fails)
    requires |rows| == |picks|
    ensures var p := FetchRows(cfg, n, rows, picks, fails);
      FetchRows(cfg, n, rows + [row], picks + [pick], fails) ==
      if p.ok then FetchRow(cfg, p.node, row, pick, fails) else p
  {
    assert (rows + [row])[..|rows|] == rows && (picks + [pick])[..|rows|] == picks;
  }

  /** Rows the post office accepts as they stand, all for `user`. */
  ghost predicate Ready(cfg: Config, user: string, rows: seq<Message>) {
    forall i :: 0 <= i < |rows| ==> rows[i].to == user && Addressed(cfg, rows[i]) == Some(Adjusted(cfg, rows[i]))
  }

  /** The loop sends what can be sent, and drops every row. */
  lemma {:induction false} FetchSends(cfg: Config, n: Node, user: string, rows: seq<Message>, picks: seq<Address>,
                                      fails: Fails)
    requires |rows| == |picks| && Ready(cfg, user, rows)
    ensures FetchRows(cfg, n, rows, picks, fails) ==
            Progress(n.(net := n.net + Sent(cfg, n.channels, rows, picks, fails), store := n.store - Ids(rows)), true)
  {
    hide Addressed, Adjusted, SentTo, Copies, Ids;
    if rows == [] {
      assert Ids(rows) == {} by { EmptyPage(n.store, user); }
      assert n.store - Ids(rows) == n.store;
    } else {
      var k := |rows| - 1;
      FetchSends(cfg, n, user, rows[..k], picks[..k], fails);
      IdsAppend(rows[..k], rows[k]);
      assert rows == rows[..k] + [rows[k]];
      assert n.store - Ids(rows[..k]) - {rows[k].id} == n.store - Ids(rows);
    }
  }

  /** No copy of any of these rows goes out. */
  predicate NothingGoesOut(cfg: Config, channels: Channels, rows: seq<Message>, picks: seq<Address>, fails: Fails)
    requires |rows| == |picks|
  {
    forall i :: 0 <= i < |rows| ==> SentTo(cfg, channels, Adjusted(cfg, rows[i]), picks[i], fails) == {}
  }

  lemma {:induction false} NothingIsSent(cfg: Config, channels: Channels, rows: seq<Message>, picks: seq<Address>,
                                         fails: Fails)
    requires |rows| == |picks| && NothingGoesOut(cfg, channels, rows, picks, fails)
    ensures Sent(cfg, channels, rows, picks, fails) == multiset{}
  {
    hide SentTo, Adjusted;
    if rows != [] {
      var k := |rows| - 1;
      NothingIsSent(cfg, channels, rows[..k], picks[..k], fails);
      assert Copies(Adjusted(cfg, rows[k]), {}) == {};
    }
  }

  /** A page is lost as a whole when no copy goes out: the user has no address, or every sending fails. */
  lemma {:induction false} FetchLosesPage(cfg: Config, n: Node, user: string, rows: seq<Message>, picks: seq<Address>,
                                          fails: Fails)
    requires |rows| == |picks| && Ready(cfg, user, rows)
    requires Candidates(cfg, n.channels, user) == {} || forall m :: fails(m)
    ensures FetchRows(cfg, n, rows, picks, fails) == Progress(n.(store := n.store - Ids(rows)), true)
  {
    forall i | 0 <= i < |rows| ensures SentTo(cfg, n.channels, Adjusted(cfg, rows[i]), picks[i], fails) == {} {
      SentToNobody(cfg, n.channels, Adjusted(cfg, rows[i]), picks[i], fails);
    }
    FetchSends(cfg, n, user, rows, picks, fails);
    NothingIsSent(cfg, n.channels, rows, picks, fails);
  }

  /** The rows of a page are ready when all matching rows can be delivered. */
  lemma {:induction false} PageIsReady(cfg: Config, store: Store, user: string, page: seq<Message>)
    requires AreRows(store, user, page) && Deliverable(cfg, store, user)
    ensures Ready(cfg, user, page)
  {
    forall i | 0 <= i < |page| ensures page[i].to == user && Addressed(cfg, page[i]) == Some(Adjusted(cfg, page[i])) {
      assert page[i].id in Matching(store, user) && store[page[i].id] == page[i];
    }
  }

  /** The row of a page that lies furthest back is still at most as old as what is not on it. */
  lemma {:induction false} PageGrows(store: Store, user: string, page: seq<Message>, id: nat)
    requires Keyed(store) && AreRows(store, user, page) && Sorted(page) && OlderThanRest(store, user, page)
    requires id in Matching(store, user) - Ids(page)
    requires forall x :: x in Matching(store, user) - Ids(page) ==> store[id].createdAt <= store[x].createdAt
    ensures AreRows(store, user, page + [store[id]]) && Sorted(page + [store[id]])
    ensures OlderThanRest(store, user, page + [store[id]])
    ensures Ids(page + [store[id]]) == Ids(page) + {id}
  {
    var more := page + [store[id]];
    IdsAppend(page, store[id]);
    forall i | 0 <= i < |page| ensures page[i].id != id {
      assert page[i].id in Ids(page);
    }
  }

  lemma {:induction false} IdsAppend(rows: seq<Message>, row: Message)
    ensures Ids(rows + [row]) == Ids(rows) + {row.id}
  {
    var more := rows + [row];
    forall x | x in Ids(rows) + {row.id} ensures x in Ids(more) {
      if x == row.id {
        assert more[|rows|].id == x;
      } else {
        var i :| 0 <= i < |rows| && rows[i].id == x;
        assert more[i].id == x;
      }
    }
  }

  lemma {:induction false} IdsCount(rows: seq<Message>)
    requires Distinct(rows)
    ensures |Ids(rows)| == |rows|
  {
    if rows == [] {
      assert Ids(rows) == {};
    } else {
      var n := |rows| - 1;
      IdsCount(rows[..n]);
      IdsAppend(rows[..n], rows[n]);
      assert rows == rows[..n] + [rows[n]];
      assert rows[n].id !in Ids(rows[..n]);
    }
  }

  lemma {:induction false} OldestExists(store: Store, ids: set<nat>) returns (id: nat)
    requires ids != {} && ids <= store.Keys
    ensures id in ids && forall x :: x in ids ==> store[id].createdAt <= store[x].createdAt
    decreases |ids|
  {
    id :| id in ids;
    var rest := ids - {id};
    assert ids == rest + {id};
    if rest != {} {
      var other := OldestExists(store, rest);
      if store[other].createdAt < store[id].createdAt {
        id := other;
      }
    }
  }

  /** What a page leaves to be fetched. */
  lemma {:induction false} RestAfterPage(store: Store, user: string, page: seq<Message>)
    requires AreRows(store, user, page)
    ensures Matching(store - Ids(page), user) == Matching(store, user) - Ids(page)
    ensures |Matching(store - Ids(page), user)| == |Matching(store, user)| - |page|
    ensures forall id :: id in store && !Matches(user, store[id]) ==>
            id in store - Ids(page) && (store - Ids(page))[id] == store[id]
  {
    IdsCount(page);
    assert Ids(page) <= Matching(store, user);
    assert Matching(store - Ids(page), user) == Matching(store, user) - Ids(page);
  }

  /** Once a delivery has thrown, the rest of the page is left alone. */
  lemma {:induction false} FetchRowsStuck(cfg: Config, n: Node, rows: seq<Message>, picks: seq<Address>, fails: Fails,
                                          i: nat)
    requires |rows| == |picks| && i <= |rows| && !FetchRows(cfg, n, rows[..i], picks[..i], fails).ok
    ensures FetchRows(cfg, n, rows, picks, fails) == FetchRows(cfg, n, rows[..i], picks[..i], fails)
    decreases |rows|
  {
    hide FetchRow;
    var k := |rows| - 1;
    if i > k {
      assert rows[..i] == rows && picks[..i] == picks;
    } else {
      assert rows[..k][..i] == rows[..i] && picks[..k][..i] == picks[..i];
      FetchRowsStuck(cfg, n, rows[..k], picks[..k], fails, i);
    }
  }

  lemma {:induction false} FetchKeepsChannels(cfg: Config, n: Node, rows: seq<Message>, picks: seq<Address>,
                                              fails: Fails)
    requires |rows| == |picks| && Keyed(n.store)
    ensures FetchRows(cfg, n, rows, picks, fails).node.channels == n.channels
    ensures Keyed(FetchRows(cfg, n, rows, picks, fails).node.store)
  {
    hide Addressed, SentTo, Copies;
    if rows != [] {
      FetchKeepsChannels(cfg, n, rows[..|rows| - 1], picks[..|rows| - 1], fails);
    }
  }

  /** The reply of `sendCompleteMessage`, which reuses the meta of the request. */
  function CompleteReply(request: Message, left: int, id: nat, now: int): Message {
    Message(id, NewContent(FetchMissingMessagesComplete(left), Reliable), SYSTEM, request.from, request.meta, now,
            Created)
  }

  /** The reply on its way to the user who asked. */
  function PopulatedReply(cfg: Config, request: Message, left: int, id: nat, now: int): Message {
    Populated(cfg, CompleteReply(request, left, id, now))
  }

  /** The reply stays in this domain. */
  predicate RepliesHere(cfg: Config, request: Message) {
    IsCurrentDomain(cfg, PopulatedReply(cfg, request, 0, 0, 0))
  }

  /** The message tells whoever asked how many rows are left, with what is left of the request's own TTL. */
  predicate SaysLeft(m: Message, request: Message, left: int) {
    && m.content.data == FetchMissingMessagesComplete(left) && m.content.feature == Reliable
    && m.from == SYSTEM && m.to == request.from
    && m.meta.original == request.meta.original && m.meta.ttl == request.meta.ttl
    && m.meta.confirmEnabled == request.meta.confirmEnabled
  }

  /** Whatever a reply that has been delivered put under way, or stored, says so. */
  lemma {:induction false} RepliesSayLeft(cfg: Config, n: Node, request: Message, left: int, id: nat, now: int,
                                          pick: Address, fails: Fails, last: Address)
    ensures var n1 := DeliverFailing(cfg, n, CompleteReply(request, left, id, now), pick, fails, last);
      n1.Some? ==> NewSays(n, n1.value, request, left)
  {
    var reply := CompleteReply(request, left, id, now);
    if Addressed(cfg, reply).Some? {
      var m := Addressed(cfg, reply).value;
      assert m == Adjusted(cfg, Populated(cfg, reply)) && SaysLeft(m, request, left);
      hide Addressed, CompleteReply, Populated, Adjusted, RouteTargets, FailedOf, NewSays, SaysLeft;
      SendFailingSays(cfg, n, m, pick, fails, last, request, left);
    }
  }

  /** All that `n1` has more than `n` says so. */
  ghost predicate NewSays(n: Node, n1: Node, request: Message, left: int) {
    && n.net <= n1.net && (forall c :: c in n1.net - n.net ==> SaysLeft(c, request, left))
    && (forall i :: i in n1.store && (i in n.store ==> n1.store[i] != n.store[i]) ==>
          SaysLeft(n1.store[i], request, left))
  }

  lemma {:induction false} PersistSays(n: Node, m: Message, state: MessageState, request: Message, left: int)
    requires SaysLeft(m, request, left)
    ensures NewSays(n, Persist(n, m, state), request, left)
  {
    assert n.net - n.net == multiset{};
  }

  lemma {:induction false} SendSays(n: Node, m: Message, targets: set<Address>, request: Message, left: int)
    requires SaysLeft(m, request, left)
    ensures NewSays(n, Send(n, m, targets), request, left)
  {
    forall c | c in multiset(Copies(m, targets)) ensures SaysLeft(c, request, left) {
      var a :| a in targets && c == m.WithTarget(a);
    }
    hide Copies, SaysLeft;
    assert n.net + multiset(Copies(m, targets)) - n.net == multiset(Copies(m, targets));
  }

  lemma {:induction false} BothSay(n: Node, n1: Node, n2: Node, request: Message, left: int)
    requires NewSays(n, n1, request, left) && NewSays(n1, n2, request, left)
    ensures NewSays(n, n2, request, left)
  {
    hide SaysLeft;
    assert n2.net - n.net == (n2.net - n1.net) + (n1.net - n.net);
  }

  lemma {:induction false} SendFailingSays(cfg: Config, n: Node, m: Message, pick: Address, fails: Fails, last: Address,
                                           request: Message, left: int)
    requires SaysLeft(m, request, left)
    ensures NewSays(n, SendFailing(cfg, n, m, pick, fails, last), request, left)
  {
    hide Copies, RouteTargets, FailedOf, Persist, Send, NewSays;
    var targets := RouteTargets(cfg, n.channels, m.to, m.meta.deliveryType, pick);
    var failed := FailedOf(m, targets, fails);
    var sent := Send(n, m, targets - failed);
    assert SaysLeft(m.WithTarget(last), request, left);
    hide SaysLeft;
    PersistSays(n, m, AddressNotFound, request, left);
    SendSays(n, m, targets - failed, request, left);
    PersistSays(sent, m.WithTarget(last), NetworkError, request, left);
    BothSay(n, sent, Persist(sent, m.WithTarget(last), NetworkError), request, left);
  }

  /** Replies are new messages; no stored row is one of them. */
  ghost predicate RepliesGoOut(fails: Fails) {
    forall c: Message :: c.content.data.FetchMissingMessagesComplete? && c.state == Created ==> !fails(c)
  }

  lemma {:induction false} ReplyIsSent(cfg: Config, n: Node, request: Message, left: int, id: nat, now: int,
                                       pick: Address, fails: Fails, last: Address)
    requires RepliesHere(cfg, request) && Candidates(cfg, n.channels, request.from) != {} && RepliesGoOut(fails)
    ensures var m := Adjusted(cfg, PopulatedReply(cfg, request, left, id, now));
      DeliverFailing(cfg, n, CompleteReply(request, left, id, now), pick, fails, last) ==
      Some(n.(net := n.net + multiset(Copies(m, SentTo(cfg, n.channels, m, pick, fails)))))
  {
    var m := Adjusted(cfg, PopulatedReply(cfg, request, left, id, now));
    var targets := RouteTargets(cfg, n.channels, m.to, m.meta.deliveryType, pick);
    assert Addressed(cfg, CompleteReply(request, left, id, now)) == Some(m);
    assert forall a :: a in targets ==> !fails(m.WithTarget(a));
    assert targets != {};
    hide Addressed, RouteTargets, PopulatedReply, Adjusted;
    assert FailedOf(m, targets, fails) == {};
  }

  /** All rows fetched so far are at most as old as those still stored. */
  ghost predicate OlderThanRest(store: Store, user: string, rows: seq<Message>) {
    forall i, id :: 0 <= i < |rows| && id in Matching(store, user) - Ids(rows) ==>
      rows[i].createdAt <= store[id].createdAt
  }

  lemma {:induction false} IdsConcat(rows: seq<Message>, more: seq<Message>)
    ensures Ids(rows + more) == Ids(rows) + Ids(more)
    decreases |more|
  {
    if more == [] {
      assert rows + more == rows && Ids(more) == {};
    } else {
      var k := |more| - 1;
      IdsConcat(rows, more[..k]);
      IdsAppend(rows + more[..k], more[k]);
      IdsAppend(more[..k], more[k]);
      assert more[..k] + [more[k]] == more;
      assert (rows + more[..k]) + [more[k]] == rows + more;
    }
  }

  lemma {:induction false} RowIsMatching(store: Store, user: string, rows: seq<Message>, page: seq<Message>, i: nat)
    requires AreRows(store, user, rows) && AreRows(store - Ids(rows), user, page) && i < |page|
    ensures page[i].id in Matching(store, user) - Ids(rows) && page[i].id in store && store[page[i].id] == page[i]
  {
    RestAfterPage(store, user, rows);
    assert page[i].id in Matching(store - Ids(rows), user);
  }

  /** One more page, taken from what the earlier pages left, continues them in order. */
  lemma {:induction false} PagesJoin(store: Store, user: string, rows: seq<Message>, count: nat, page: seq<Message>)
    requires AreRows(store, user, rows) && Sorted(rows) && OlderThanRest(store, user, rows)
    requires IsPage(store - Ids(rows), user, count, page)
    ensures AreRows(store, user, rows + page) && Sorted(rows + page)
    ensures Ids(rows + page) == Ids(rows) + Ids(page)
  {
    hide Matching;
    IdsConcat(rows, page);
    forall i | 0 <= i < |page|
      ensures page[i].id in Matching(store, user) - Ids(rows) && page[i].id in store && store[page[i].id] == page[i] {
      RowIsMatching(store, user, rows, page, i);
    }
    forall i | 0 <= i < |rows| ensures rows[i].id in Ids(rows) {
    }
  }

  lemma {:induction false} PagesLeave(store: Store, user: string, rows: seq<Message>, count: nat, page: seq<Message>)
    requires AreRows(store, user, rows) && OlderThanRest(store, user, rows)
    requires IsPage(store - Ids(rows), user, count, page)
    ensures OlderThanRest(store, user, rows + page)
  {
    IdsConcat(rows, page);
    RestAfterPage(store, user, rows);
    var rest := store - Ids(rows);
    forall i, id | 0 <= i < |rows + page| && id in Matching(store, user) - Ids(rows + page)
      ensures (rows + page)[i].createdAt <= store[id].createdAt
    {
      assert id in Matching(store, user) - Ids(rows);
      assert id in Matching(rest, user) - Ids(page) && rest[id] == store[id];
    }
  }

  lemma {:induction false} EmptyPage(store: Store, user: string)
    ensures Ids([]) == {} && AreRows(store, user, []) && Sorted([]) && OlderThanRest(store, user, [])
    ensures store - Ids([]) == store && Matching(store, user) - Ids([]) == Matching(store, user)
  {
  }

  lemma {:induction false} MatchingStored(store: Store, user: string)
    ensures Matching(store, user) <= store.Keys
  {
  }

  lemma {:induction false} NothingSent(cfg: Config, channels: Channels, fails: Fails)
    ensures Sent(cfg, channels, [], [], fails) == multiset{}
  {
  }

  lemma {:induction false} SentOne(cfg: Config, channels: Channels, row: Message, pick: Address, fails: Fails)
    ensures var m := Adjusted(cfg, row);
      Sent(cfg, channels, [row], [pick], fails) == multiset(Copies(m, SentTo(cfg, channels, m, pick, fails)))
  {
    SentAppend(cfg, channels, [], [], row, pick, fails);
    assert [] + [row] == [row] && [] + [pick] == [pick];
  }

  lemma {:induction false} DeliverKeepsKeys(cfg: Config, n: Node, m: Message, pick: Address, fails: Fails,
                                            last: Address)
    requires Keyed(n.store)
    ensures var n1 := DeliverFailing(cfg, n, m, pick, fails, last);
      n1.Some? ==> Keyed(n1.value.store)
  {
    hide Addressed, RouteTargets, Copies, FailedOf;
  }

  lemma {:induction false} RestIsDeliverable(cfg: Config, store: Store, user: string, rows: seq<Message>)
    requires Deliverable(cfg, store, user)
    ensures Deliverable(cfg, store - Ids(rows), user)
  {
    hide Addressed, Adjusted;
    forall id | id in Matching(store - Ids(rows), user) ensures id in Matching(store, user) {
    }
  }

  /** How many of `total` rows are left after so many rounds. */
  function LeftAfter(total: nat, rounds: nat): nat {
    if total <= MAX_COUNT * rounds then 0 else total - MAX_COUNT * rounds
  }

  /** The number of rounds it takes to fetch `total` rows: one at least, for the first answer. */
  function RoundsFor(total: nat): nat {
    if total == 0 then 1 else (total + MAX_COUNT - 1) / MAX_COUNT
  }

  /** Both in plain numbers: a round takes up to 2000 rows. */
  lemma {:induction false} RoundsInNumbers(total: nat, rounds: nat)
    ensures RoundsFor(total) == if total == 0 then 1 else (total + 1999) / 2000
    ensures LeftAfter(total, rounds) == if total <= 2000 * rounds then 0 else total - 2000 * rounds
  {
  }

  lemma {:induction false} NextLeft(total: nat, rounds: nat)
    ensures LeftAfter(total, 0) == total
    ensures Min(MAX_COUNT, LeftAfter(total, rounds)) + LeftAfter(total, rounds + 1) == LeftAfter(total, rounds)
    ensures LeftAfter(total, rounds) > 0 ==> LeftAfter(total, rounds + 1) < LeftAfter(total, rounds)
  {
  }

  lemma {:induction false} RoundsAreEnough(total: nat, rounds: nat)
    requires rounds >= 1 && LeftAfter(total, rounds) == 0
    requires rounds == 1 || LeftAfter(total, rounds - 1) > 0
    ensures rounds == RoundsFor(total)
  {
  }

  lemma {:induction false} AllFetched(store: Store, user: string, rows: seq<Message>)
    requires AreRows(store, user, rows) && |rows| == |Matching(store, user)|
    ensures Ids(rows) == Matching(store, user)
  {
    RestAfterPage(store, user, rows);
    assert Matching(store, user) - Ids(rows) == {};
    forall x | x in Ids(rows) ensures x in Matching(store, user) {
    }
  }

  /** The replies of the first rounds, in order. */
  predicate AreReplies(cfg: Config, request: Message, total: nat, firstId: nat, now: int, replies: seq<Message>) {
    forall i :: 0 <= i < |replies| ==>
      replies[i] == PopulatedReply(cfg, request, LeftAfter(total, i + 1), firstId + i, now)
  }

  lemma {:induction false} RepliesGrow(cfg: Config, request: Message, total: nat, firstId: nat, now: int,
                                       replies: seq<Message>, reply: Message)
    requires AreReplies(cfg, request, total, firstId, now, replies)
    requires reply == PopulatedReply(cfg, request, LeftAfter(total, |replies| + 1), firstId + |replies|, now)
    ensures AreReplies(cfg, request, total, firstId, now, replies + [reply])
  {
    hide PopulatedReply, LeftAfter;
  }

  lemma {:induction false} NoReplies(cfg: Config, request: Message, total: nat, firstId: nat, now: int)
    ensures AreReplies(cfg, request, total, firstId, now, [])
  {
  }

  /** What is under way after one more page and one more reply. */
  lemma {:induction false} NetJoins(cfg: Config, channels: Channels, net: multiset<Message>, fails: Fails,
                                    rows: seq<Message>, picks: seq<Address>,
                                    replies: seq<Message>, replyPicks: seq<Address>,
                                    page: seq<Message>, pagePicks: seq<Address>, reply: Message, replyPick: Address)
    requires |rows| == |picks| && |replies| == |replyPicks| && |page| == |pagePicks|
    ensures net + Sent(cfg, channels, rows, picks, fails) + Sent(cfg, channels, replies, replyPicks, fails)
                + Sent(cfg, channels, page, pagePicks, fails) + Sent(cfg, channels, [reply], [replyPick], fails)
         == net + Sent(cfg, channels, rows + page, picks + pagePicks, fails) +
           Sent(cfg, channels, replies + [reply], replyPicks + [replyPick], fails)
  {
    hide *;
    SentConcat(cfg, channels, rows, picks, page, pagePicks, fails);
    SentConcat(cfg, channels, replies, replyPicks, [reply], [replyPick], fails);
  }

  // ---- the conversation of several rounds

  /** What a conversation starts from: who asks, what is stored and under way, the ids of the replies. */
  datatype Talk = Talk(request: Message, store: Store, net: multiset<Message>, firstId: nat, now: int, fails: Fails)

  function LeftOf(t: Talk, rounds: nat): nat {
    LeftAfter(|Matching(t.store, t.request.from)|, rounds)
  }

  /** After so many rounds `rows` have been fetched and `replies` sent. */
  ghost predicate IsTalk(cfg: Config, channels: Channels, t: Talk, rounds: nat, rows: seq<Message>,
                         picks: seq<Address>, replies: seq<Message>, replyPicks: seq<Address>, store: Store,
                         net: multiset<Message>) {
    && Keyed(store) && store == t.store - Ids(rows)
    && AreRows(t.store, t.request.from, rows) && Sorted(rows) && OlderThanRest(t.store, t.request.from, rows)
    && |rows| == |Matching(t.store, t.request.from)| - LeftOf(t, rounds)
    && |picks| == |rows| && |replies| == |replyPicks| == rounds
    && net == t.net + Sent(cfg, channels, rows, picks, t.fails) + Sent(cfg, channels, replies, replyPicks, t.fails)
    && AreReplies(cfg, t.request, |Matching(t.store, t.request.from)|, t.firstId, t.now, replies)
  }

  lemma {:induction false} TalkBegins(cfg: Config, channels: Channels, t: Talk)
    requires Keyed(t.store)
    ensures IsTalk(cfg, channels, t, 0, [], [], [], [], t.store, t.net)
    ensures LeftOf(t, 0) == |Matching(t.store, t.request.from)|
  {
    hide Matching, AreRows, Sorted, OlderThanRest, Ids, Sent, AreReplies, LeftAfter;
    EmptyPage(t.store, t.request.from);
    NothingSent(cfg, channels, t.fails);
    NextLeft(|Matching(t.store, t.request.from)|, 0);
    NoReplies(cfg, t.request, |Matching(t.store, t.request.from)|, t.firstId, t.now);
  }

  lemma {:induction false} TalkIsReady(cfg: Config, channels: Channels, t: Talk, rounds: nat, rows: seq<Message>,
                                       picks: seq<Address>, replies: seq<Message>, replyPicks: seq<Address>,
                                       store: Store, net: multiset<Message>)
    requires IsTalk(cfg, channels, t, rounds, rows, picks, replies, replyPicks, store, net)
    ensures Keyed(store) && store == t.store - Ids(rows)
    ensures AreRows(t.store, t.request.from, rows) && Sorted(rows) && OlderThanRest(t.store, t.request.from, rows)
  {
    hide Keyed, AreRows, Sorted, OlderThanRest, Ids, Sent, AreReplies, Matching, LeftOf;
  }

  /** One more page and one more reply continue the conversation. */
  lemma {:induction false} TalkGoesOn(cfg: Config, channels: Channels, t: Talk, rounds: nat, rows: seq<Message>,
                                      picks: seq<Address>, replies: seq<Message>, replyPicks: seq<Address>,
                                      store: Store, net: multiset<Message>,
                                      page: seq<Message>, pagePicks: seq<Address>, reply: Message,
                                      replyPick: Address, store1: Store, net1: multiset<Message>)
    requires IsTalk(cfg, channels, t, rounds, rows, picks, replies, replyPicks, store, net)
    requires Keyed(store1) && store1 == t.store - Ids(rows + page)
    requires AreRows(t.store, t.request.from, rows + page) && Sorted(rows + page)
    requires OlderThanRest(t.store, t.request.from, rows + page)
    requires |pagePicks| == |page| == Min(MAX_COUNT, |Matching(t.store, t.request.from)| - |rows|)
    requires reply == PopulatedReply(cfg, t.request, |Matching(t.store, t.request.from)| - |rows| - |page|,
                                     t.firstId + rounds, t.now)
    requires net1 == net + Sent(cfg, channels, page, pagePicks, t.fails) +
                     Sent(cfg, channels, [reply], [replyPick], t.fails)
    ensures IsTalk(cfg, channels, t, rounds + 1, rows + page, picks + pagePicks, replies + [reply],
                   replyPicks + [replyPick], store1, net1)
    ensures |Matching(t.store, t.request.from)| - |rows| - |page| == LeftOf(t, rounds + 1) <= LeftOf(t, rounds)
    ensures LeftOf(t, rounds) > 0 ==> LeftOf(t, rounds + 1) < LeftOf(t, rounds)
  {
    hide Matching, AreRows, Sorted, OlderThanRest, Ids, Sent, AreReplies, LeftAfter, PopulatedReply, Keyed;
    var total := |Matching(t.store, t.request.from)|;
    NextLeft(total, rounds);
    RepliesGrow(cfg, t.request, total, t.firstId, t.now, replies, reply);
    NetJoins(cfg, channels, t.net, t.fails, rows, picks, replies, replyPicks, page, pagePicks, reply, replyPick);
  }

  /** The replies count down: `i + 1` rounds leave what is over 2000 rows each. */
  ghost predicate CountDown(request: Message, total: nat, replies: seq<Message>) {
    forall i :: 0 <= i < |replies| ==>
      SaysLeft(replies[i], request, if total <= 2000 * (i + 1) then 0 else total - 2000 * (i + 1))
  }

  lemma {:induction false} RepliesCountDown(cfg: Config, request: Message, total: nat, firstId: nat, now: int,
                                            replies: seq<Message>)
    requires AreReplies(cfg, request, total, firstId, now, replies)
    ensures CountDown(request, total, replies)
  {
    hide CompleteReply, PopulatedReply, SaysLeft, LeftAfter;
    forall i | 0 <= i < |replies|
      ensures SaysLeft(replies[i], request, if total <= 2000 * (i + 1) then 0 else total - 2000 * (i + 1))
    {
      RoundsInNumbers(total, i + 1);
      ReplySaysLeft(cfg, request, LeftAfter(total, i + 1), firstId + i, now);
    }
  }

  lemma {:induction false} ReplySaysLeft(cfg: Config, request: Message, left: int, id: nat, now: int)
    ensures SaysLeft(PopulatedReply(cfg, request, left, id, now), request, left)
  {
  }

  /** When nothing is left, every row has been fetched. */
  lemma {:induction false} TalkEnds(cfg: Config, channels: Channels, t: Talk, rounds: nat, rows: seq<Message>,
                                    picks: seq<Address>, replies: seq<Message>, replyPicks: seq<Address>,
                                    store: Store, net: multiset<Message>)
    requires IsTalk(cfg, channels, t, rounds, rows, picks, replies, replyPicks, store, net)
    requires rounds >= 1 && LeftOf(t, rounds) == 0 && (rounds == 1 || LeftOf(t, rounds - 1) > 0)
    ensures var total := |Matching(t.store, t.request.from)|;
      && rounds == (if total == 0 then 1 else (total + 1999) / 2000) && CountDown(t.request, total, replies)
    ensures AreRows(t.store, t.request.from, rows) && Sorted(rows)
    ensures Ids(rows) == Matching(t.store, t.request.from)
    ensures store == t.store - Matching(t.store, t.request.from)
    ensures |picks| == |rows| && |replies| == |replyPicks| == rounds
    ensures net == t.net + Sent(cfg, channels, rows, picks, t.fails) + Sent(cfg, channels, replies, replyPicks, t.fails)
    ensures AreReplies(cfg, t.request, |Matching(t.store, t.request.from)|, t.firstId, t.now, replies)
  {
    hide Matching, AreRows, Sorted, OlderThanRest, Ids, Sent, AreReplies, LeftAfter, Keyed, RoundsFor, CountDown;
    var total := |Matching(t.store, t.request.from)|;
    RoundsAreEnough(total, rounds);
    RoundsInNumbers(total, rounds);
    RepliesCountDown(cfg, t.request, total, t.firstId, t.now, replies);
    AllFetched(t.store, t.request.from, rows);
  }
}
