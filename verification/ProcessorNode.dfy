/** The processor: the post office, the user channels and the message store working on mutable fields.
Every method is proved against the functions of `PostOffices` and `Fetching`. */
module Processors {
  import opened Types
  import Names
  import opened Messages
  import opened PostOffices
  import opened Delivery
  import opened Fetching

  /** The node without the address at which the message was not found. */
  function Forgotten(n: Node, m: Message): Node
    requires m.meta.target.Some?
  {
    n.(channels := PostOffices.RemoveAddress(n.channels, m.to, m.meta.target.value))
  }

  class ProcessorNode {
    const cfg: Config
    var channels: Channels
    var store: map<nat, Message>
    var net: multiset<Message>

    constructor (cfg: Config)
      ensures this.cfg == cfg && Value() == Node(map[], map[], multiset{})
    {
      this.cfg := cfg;
      channels, store, net := map[], map[], multiset{};
    }

    function Value(): Node
      reads this
    {
      Node(channels, store, net)
    }

    // ---- UserChannelService

    method AddAddress(user: string, a: Address)
      modifies this`channels
      ensures channels == PostOffices.AddAddress(old(channels), user, a)
    {
      var addresses := {};
      if user in channels {
        addresses := channels[user];
      }
      addresses := addresses + {a};
      channels := channels[user := addresses];
    }

    method RemoveAddress(user: string, a: Address)
      modifies this`channels
      ensures channels == PostOffices.RemoveAddress(old(channels), user, a)
    {
      if user in channels {
        var addresses := channels[user] - {a};
        if addresses == {} {
          channels := channels - {user};
        } else {
          channels := channels[user := addresses];
        }
      }
    }

    // ---- MessageProcessorService.persistMessage

    method PersistMessage(m: Message, state: MessageState)
      modifies this`store
      ensures Value() == Persist(old(Value()), m, state)
      ensures store == if m.content.feature == Reliable && state != Processed then
                         old(store)[m.id := Message(m.id, m.content, m.from, m.to, m.meta, m.createdAt, state)]
                       else old(store)
    {
      var saved := m.(state := state);
      if saved.IsReliable() && state != Processed {
        store := store[saved.id := saved];
      }
    }

    // ---- PostOffice

    /** The random choice among the addresses is returned as `pick`. */
    method GetRouteTargetAddresses(to: string, dt: DeliveryType) returns (targets: set<Address>, pick: Address)
      ensures CanPick(cfg, channels, to, pick)
      ensures targets == RouteTargets(cfg, channels, to, dt, pick)
    {
      targets, pick := {}, DomainOnly("");
      if !IsBlank(to) {
        if IsConnectorUser(to) {
          pick := ConnectorAddress(cfg, to);
          targets := {pick};
        } else if to in channels && channels[to] != {} {
          pick :| pick in channels[to];
          targets := if dt == All then channels[to] else {pick};
        }
      }
    }

    /** The sends for which `fails` holds fail in this thread; `last` is the last of them, if any. */
    method SendToAddresses(m: Message, targets: set<Address>, fails: Fails) returns (last: Address)
      modifies this`net, this`store
      ensures Value() == SendSome(old(Value()), m, targets, FailedOf(m, targets, fails), last)
      ensures FailedOf(m, targets, fails) != {} ==> last in FailedOf(m, targets, fails)
    {
      hide SendSome, FailedOf, Persist;
      var todo, done := targets, {};
      last := DomainOnly("");
      SendToNone(Value(), m, fails, last);
      while todo != {}
        invariant todo !! done && todo + done == targets
        invariant Value() == SendSome(old(Value()), m, done, FailedOf(m, done, fails), last)
        invariant FailedOf(m, done, fails) != {} ==> last in FailedOf(m, done, fails)
        decreases |todo|
      {
        var a :| a in todo;
        SendSomeGrows(old(Value()), m, done, fails, a, last);
        if fails(m.WithTarget(a)) {
          OnMessageDeliveryFailed(m.WithTarget(a));
          last := a;
        } else {
          net := net + multiset{m.WithTarget(a)};
        }
        todo, done := todo - {a}, done + {a};
      }
      assert done == targets;
    }

    method SendToConnector(m: Message, fails: Fails) returns (pick: Address, last: Address)
      modifies this`net, this`store
      ensures CanPick(cfg, old(channels), m.to, pick)
      ensures Value() == SendFailing(cfg, old(Value()), Adjusted(cfg, m), pick, fails, last)
    {
      var m1 := Adjusted(cfg, m);
      var targets;
      last := DomainOnly("");
      targets, pick := GetRouteTargetAddresses(m1.to, m1.meta.deliveryType);
      if targets == {} {
        PersistMessage(m1, AddressNotFound);
        return;
      }
      last := SendToAddresses(m1, targets, fails);
    }

    /** `ok` is false when the Java method throws. */
    method DeliverMessage(m: Message, fails: Fails) returns (ok: bool, pick: Address, last: Address)
      modifies this`net, this`store
      ensures CanDeliver(cfg, old(channels), m, pick)
      ensures ok <==> DeliverFailing(cfg, old(Value()), m, pick, fails, last).Some?
      ensures Value() == if ok then DeliverFailing(cfg, old(Value()), m, pick, fails, last).value else old(Value())
    {
      var m1 := m;
      if m1.meta.target == None {
        m1 := Populated(cfg, m1);
      }
      if !IsCurrentDomain(cfg, m1) {
        var target := m1.meta.target.value.domain;
        if m1.Type() != INTERNAL_MESSAGE || target !in cfg.hops || IsBlank(cfg.hops[target]) {
          return false, DomainOnly(""), DomainOnly("");
        }
        m1 := m1.(to := Names.DomainUserId(cfg.hops[target]));
      }
      pick, last := SendToConnector(m1, fails);
      ok := true;
    }

    /** Delivery whose sends do not fail at once; a later failure is a call of `OnMessageDeliveryFailed`. */
    method DeliverSending(m: Message) returns (ok: bool, pick: Address)
      modifies this`net, this`store
      ensures CanDeliver(cfg, old(channels), m, pick)
      ensures ok <==> Deliver(cfg, old(Value()), m, pick).Some?
      ensures Value() == if ok then Deliver(cfg, old(Value()), m, pick).value else old(Value())
    {
      var last;
      ok, pick, last := DeliverMessage(m, NONE_FAILS);
      NoneFailing(cfg, old(Value()), m, pick, last);
    }

    method OnMessageDeliveryFailed(m: Message)
      modifies this`store
      ensures Value() == Persist(old(Value()), m, NetworkError)
    {
      PersistMessage(m, NetworkError);
    }

    // ---- MessageStateChangedMessageProcessor

    method ProcessTargetNotFound(m: Message) returns (ok: bool, pick: Address)
      requires m.meta.target.Some?
      modifies this
      ensures CanDeliver(cfg, PostOffices.RemoveAddress(old(channels), m.to, m.meta.target.value), m, pick)
      ensures ok ==> Redeliver(cfg, old(Value()), m, pick) == Some(Value())
      ensures !ok ==> Redeliver(cfg, old(Value()), m, pick) == None && Value() == Forgotten(old(Value()), m)
    {
      RemoveAddress(m.to, m.meta.target.value);
      ok, pick := DeliverSending(m);
    }

    /** Handles one report. `confirmed` tells whether a confirmation was sent; `ok` is false when a
    delivery threw, which `onMessageArrived` answers by storing what it was handling. */
    method ProcessStateChanged(r: Report, ids: FreshIds) returns (ok: bool, confirmed: bool, pick: Address)
      requires r.msg.meta.target.Some?
      modifies this
      ensures confirmed <==> r.state != AddressNotFound && ConfirmationDue(cfg, r.msg, r.state)
      ensures ok ==> forall w: World :: w.node == old(Value()) ==> Settled(cfg, w, r, pick, ids).node == Value()
      ensures !ok ==> Value() == if r.state == AddressNotFound then
              Forgotten(old(Value()), r.msg) else Persist(old(Value()), r.msg, r.state)
    {
      confirmed := false;
      if r.state == AddressNotFound {
        ok, pick := ProcessTargetNotFound(r.msg);
      } else {
        PersistMessage(r.msg, r.state);
        ok, pick := true, DomainOnly("");
        if ConfirmationDue(cfg, r.msg, r.state) {
          confirmed := true;
          ok, pick := DeliverSending(ConfirmationHanded(cfg, r.msg, ids.id, ids.envelopeId, ids.now));
        }
      }
    }

    // ---- MessageRepository and FetchMissingMessagesMessageProcessor

    /** The oldest rows, oldest first, and how many there are in all. Equally old rows come in any order. */
    method FindMessages(user: string, count: nat) returns (page: seq<Message>, total: nat)
      requires Keyed(store)
      ensures IsPage(store, user, count, page) && total == |Matching(store, user)|
      ensures OldestRows(store, user, count, page) && total == |set id | id in store && Waits(store[id], user)|
    {
      hide Matching, Waits, OldestRows;
      var found := Matching(store, user);
      page, total := [], |found|;
      var rest := found;
      EmptyPage(store, user);
      while |page| < count && rest != {}
        invariant |page| <= count && rest == found - Ids(page) && |rest| == total - |page|
        invariant AreRows(store, user, page) && Sorted(page) && OlderThanRest(store, user, page)
        decreases |rest|
      {
        MatchingStored(store, user);
        ghost var oldest := OldestExists(store, rest);
        var id :| id in rest && forall x :: x in rest ==> store[id].createdAt <= store[x].createdAt;
        PageGrows(store, user, page, id);
        page, rest := page + [store[id]], rest - {id};
      }
      PageIsOldestRows(store, user, count, page);
    }

    /** `ok` is false when the Java method throws: the page size is not positive, or a delivery failed.
    `left` is what the reply reports. */
    method FetchMissingMessages(request: Message, count: int, id: nat, now: int, fails: Fails)
      returns (ok: bool, page: seq<Message>, picks: seq<Address>, left: int, replyPick: Address, replyLast: Address)
      requires Keyed(store)
      modifies this`store, this`net
      ensures Keyed(store)
      ensures count <= 0 ==> !ok && page == [] && Value() == old(Value())
      ensures count > 0 ==> IsPage(old(store), request.from, Min(2000, count), page)
      ensures |picks| == |page|
      ensures left == |Matching(old(store), request.from)| - |page|
      ensures var p := FetchRows(cfg, old(Value()), page, picks, fails);
        var reply := CompleteReply(request, left, id, now);
        if ok then p.ok && DeliverFailing(cfg, p.node, reply, replyPick, fails, replyLast) == Some(Value())
        else Value() == p.node
      ensures var p := FetchRows(cfg, old(Value()), page, picks, fails);
        var reply := CompleteReply(request, left, id, now);
        !ok && count > 0 && p.ok ==> DeliverFailing(cfg, p.node, reply, replyPick, fails, replyLast) == None
      ensures var n := FetchRows(cfg, old(Value()), page, picks, fails).node;
        ok ==> NewSays(n, Value(), request, left)
      ensures ok ==> forall i :: 0 <= i < |page| ==> CanDeliver(cfg, channels, page[i], picks[i])
      ensures ok ==> CanDeliver(cfg, channels, CompleteReply(request, left, id, now), replyPick)
    {
      hide Matching, IsPage, DeliverFailing, NewSays;
      page, picks, replyPick, replyLast := [], [], DomainOnly(""), DomainOnly("");
      ok, left := false, |Matching(store, request.from)|;
      var size := if MAX_COUNT < count then MAX_COUNT else count;
      if size < 1 {
        return;
      }
      var total;
      page, total := FindMessages(request.from, size);
      left := total - |page|;
      ok, picks := DeliverPage(page, fails);
      if ok {
        FetchKeepsChannels(cfg, old(Value()), page, picks, fails);
        ok, replyPick, replyLast := DeliverMessage(CompleteReply(request, left, id, now), fails);
      }
      FetchKeepsChannels(cfg, old(Value()), page, picks, fails);
      ghost var n := FetchRows(cfg, old(Value()), page, picks, fails).node;
      DeliverKeepsKeys(cfg, n, CompleteReply(request, left, id, now), replyPick, fails, replyLast);
      RepliesSayLeft(cfg, n, request, left, id, now, replyPick, fails, replyLast);
    }

    method DeliverPage(page: seq<Message>, fails: Fails) returns (ok: bool, picks: seq<Address>)
      modifies this`store, this`net
      ensures |picks| == |page| && FetchRows(cfg, old(Value()), page, picks, fails) == Progress(Value(), ok)
      ensures ok ==> forall i :: 0 <= i < |page| ==> CanDeliver(cfg, channels, page[i], picks[i])
    {
      hide DeliverFailing, CanDeliver, FetchRow;
      picks := [];
      for i := 0 to |page|
        invariant |picks| == i && FetchRows(cfg, old(Value()), page[..i], picks, fails) == Progress(Value(), true)
        invariant forall j :: 0 <= j < i ==> CanDeliver(cfg, channels, page[j], picks[j])
      {
        var row := page[i];
        var pick, last;
        ghost var n := Value();
        assert page[..i + 1] == page[..i] + [row];
        ok, pick, last := DeliverMessage(row, fails);
        FetchRowIsDeliverThenRemove(cfg, n, row, pick, fails, last);
        FetchRowsAppend(cfg, old(Value()), page[..i], picks, row, pick, fails);
        picks := picks + [pick];
        if !ok {
          var filled := picks + seq(|page| - i - 1, _ => DomainOnly(""));
          assert filled[..i + 1] == picks;
          FetchRowsStuck(cfg, old(Value()), page, filled, fails, i + 1);
          return false, filled;
        }
        store := store - {row.id};
      }
      assert page[..|page|] == page;
      ok := true;
    }

    // ---- DomainService.fetchMissingMessages and handleFetchingMessagesComplete

    /** The conversation between a connected domain and its neighbour: fetch, and fetch again as long
    as the reply says that something is left. The sends of rows may fail; a reply that does not go out
    would end the conversation. */
    method FetchUntilNoneLeft(request: Message, firstId: nat, now: int, fails: Fails)
      returns (rounds: nat, rows: seq<Message>, picks: seq<Address>, replies: seq<Message>, replyPicks: seq<Address>)
      requires Keyed(store) && Deliverable(cfg, store, request.from)
      requires Candidates(cfg, channels, request.from) != {} && RepliesHere(cfg, request) && RepliesGoOut(fails)
      modifies this`store, this`net
      ensures var total := |Matching(old(store), request.from)|;
        rounds == if total == 0 then 1 else (total + 1999) / 2000
      ensures AreRows(old(store), request.from, rows) && Sorted(rows)
      ensures Ids(rows) == Matching(old(store), request.from)
      ensures store == old(store) - Matching(old(store), request.from)
      ensures |picks| == |rows| && |replies| == |replyPicks| == rounds
      ensures net == old(net) + Sent(cfg, channels, rows, picks, fails) +
              Sent(cfg, channels, replies, replyPicks, fails)
      ensures AreReplies(cfg, request, |Matching(old(store), request.from)|, firstId, now, replies)
      ensures CountDown(request, |Matching(old(store), request.from)|, replies)
    {
      hide *;
      ghost var talk := Talk(request, old(store), old(net), firstId, now, fails);
      rounds, rows, picks, replies, replyPicks := 0, [], [], [], [];
      TalkBegins(cfg, channels, talk);
      var again := true;
      while again
        invariant IsTalk(cfg, channels, talk, rounds, rows, picks, replies, replyPicks, store, net)
        invariant again <==> rounds == 0 || LeftOf(talk, rounds) > 0
        invariant rounds > 1 ==> LeftOf(talk, rounds - 1) > 0
        decreases (if rounds == 0 then 1 else 0) + LeftOf(talk, rounds)
      {
        var page, pagePicks, reply, replyPick;
        ghost var store1, net1 := store, net;
        TalkIsReady(cfg, channels, talk, rounds, rows, picks, replies, replyPicks, store, net);
        page, pagePicks, reply, replyPick := FetchRound(request, old(store), rows, firstId + rounds, now, fails);
        TalkGoesOn(cfg, channels, talk, rounds, rows, picks, replies, replyPicks, store1, net1, page, pagePicks,
                   reply, replyPick, store, net);
        rows, picks := rows + page, picks + pagePicks;
        replies, replyPicks := replies + [reply], replyPicks + [replyPick];
        rounds := rounds + 1;
        again := HandleFetchingMessagesComplete(reply);
      }
      TalkEnds(cfg, channels, talk, rounds, rows, picks, replies, replyPicks, store, net);
    }

    /** The neighbour reads the reply, and fetches again when rows are left. */
    static method HandleFetchingMessagesComplete(reply: Message) returns (again: bool)
      requires reply.content.data.FetchMissingMessagesComplete?
      ensures again <==> reply.content.data.leftMissingCount > 0
    {
      again := reply.content.data.leftMissingCount > 0;
    }

    /** One round for a user with an address: the next page is sent and dropped, then the reply is sent. */
    method FetchRound(request: Message, ghost store0: Store, ghost rows: seq<Message>, id: nat, now: int, fails: Fails)
      returns (page: seq<Message>, picks: seq<Address>, reply: Message, replyPick: Address)
      requires Keyed(store) && store == store0 - Ids(rows) && Deliverable(cfg, store0, request.from)
      requires AreRows(store0, request.from, rows) && Sorted(rows) && OlderThanRest(store0, request.from, rows)
      requires Candidates(cfg, channels, request.from) != {} && RepliesHere(cfg, request) && RepliesGoOut(fails)
      modifies this`store, this`net
      ensures Keyed(store) && store == store0 - Ids(rows + page)
      ensures AreRows(store0, request.from, rows + page) && Sorted(rows + page)
      ensures OlderThanRest(store0, request.from, rows + page)
      ensures |picks| == |page| == Min(MAX_COUNT, |Matching(store0, request.from)| - |rows|)
      ensures var left := |Matching(store0, request.from)| - |rows| - |page|;
        reply == PopulatedReply(cfg, request, left, id, now) && reply.content.data == FetchMissingMessagesComplete(left)
      ensures net == old(net) + Sent(cfg, channels, page, picks, fails) +
              Sent(cfg, channels, [reply], [replyPick], fails)
    {
      hide Matching, AreRows, Sorted, OlderThanRest, Deliverable, Candidates, RepliesHere, RepliesGoOut, Sent,
           PopulatedReply, Keyed, FetchRows, DeliverFailing, CompleteReply, CanDeliver, Ids, Ready, SentTo, Copies,
           NewSays, IsPage;
      var ok, left, replyLast;
      ok, page, picks, left, replyPick, replyLast := FetchMissingMessages(request, MAX_COUNT, id, now, fails);
      reply := PopulatedReply(cfg, request, left, id, now);
      PageParts(old(store), request.from, Min(2000, MAX_COUNT), page);
      RestAfterPage(store0, request.from, rows);
      RestIsDeliverable(cfg, store0, request.from, rows);
      PageIsReady(cfg, old(store), request.from, page);
      FetchSends(cfg, old(Value()), request.from, page, picks, fails);
      var n := FetchRows(cfg, old(Value()), page, picks, fails).node;
      ReplyIsSent(cfg, n, request, left, id, now, replyPick, fails, replyLast);
      ReplySaysLeft(cfg, request, left, id, now);
      SentOne(cfg, channels, reply, replyPick, fails);
      PagesJoin(store0, request.from, rows, MAX_COUNT, page);
      PagesLeave(store0, request.from, rows, MAX_COUNT, page);
      assert store0 - Ids(rows) - Ids(page) == store0 - Ids(rows + page);
    }
  }
}
