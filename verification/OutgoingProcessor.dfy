/** The connector's end of the delivery protocol on mutable fields. */
module Outgoing {
  import opened Types
  import opened Delivery
  import Sessions

  /** The copy is for a user whose socket at the target address is authenticated. */
  predicate Finds(sessions: set<Session>, copy: Message)
    requires copy.meta.target.Some?
  {
    Session(copy.to, copy.meta.target.value) in sessions
  }

  function Written(sessions: set<Session>, copy: Message, isSuccess: bool): multiset<Write>
    requires copy.meta.target.Some?
  {
    if Finds(sessions, copy) && isSuccess then multiset{Write(copy.id, copy.meta.target.value)} else multiset{}
  }

  /** What the processor is told: success when it was asked for, failure of a reliable copy, and of any copy when
  success was asked for, and that a reliable copy did not find its socket. */
  function Reported(sessions: set<Session>, copy: Message, isSuccess: bool): multiset<Report>
    requires copy.meta.target.Some?
  {
    var reliable := copy.content.feature == Reliable;
    if Finds(sessions, copy) then
      if isSuccess then (if copy.meta.confirmEnabled then multiset{Report(copy, Processed)} else multiset{})
      else if reliable || copy.meta.confirmEnabled then multiset{Report(copy, NetworkError)} else multiset{}
    else if reliable then multiset{Report(copy, AddressNotFound)} else multiset{}
  }

  class DefaultOutgoingMessageProcessor {
    /** The authenticated sockets of all users. */
    var sessions: set<Session>
    var writes: multiset<Write>
    var reports: multiset<Report>

    constructor ()
      ensures sessions == {} && writes == multiset{} && reports == multiset{}
    {
      sessions, writes, reports := {}, multiset{}, multiset{};
    }

    method DeliverStateChangedMessage(m: Message, state: MessageState)
      modifies this`reports
      ensures reports == old(reports) + multiset{Report(m, state)}
    {
      reports := reports + multiset{Report(m, state)};
    }

    /** `PostOffice.onMessageArrived` of the connector when the processor of the message throws. */
    method OnProcessorThrew(copy: Message)
      modifies this`reports
      ensures reports == old(reports) + if copy.content.feature == Reliable then
              multiset{Report(copy, ConnectorError)} else multiset{}
      ensures forall cfg, w: World {:trigger After(cfg, w, Fault(copy))} ::
        w.reports == old(reports) && copy in w.node.net ==> After(cfg, w, Fault(copy)).reports == reports
    {
      if copy.IsReliable() {
        DeliverStateChangedMessage(copy, ConnectorError);
      }
    }

    /** `doProcess`; `isSuccess` is how the write to the socket turns out. A copy that finds its socket
    is written or, when reliable, reported as failed; a reliable one that does not is reported as not
    found; success is reported only when the sender asked. */
    method DoProcess(copy: Message, isSuccess: bool)
      modifies this`writes, this`reports
      ensures forall w: World {:trigger Received(w, copy, isSuccess)} ::
        w.live == sessions && w.writes == old(writes) && w.reports == old(reports) ==>
          Received(w, copy, isSuccess).writes == writes && Received(w, copy, isSuccess).reports == reports
      ensures copy.meta.target.Some? ==>
        writes == old(writes) + Written(sessions, copy, isSuccess) &&
        reports == old(reports) + Reported(sessions, copy, isSuccess)
    {
      var found := SessionOf(copy) in sessions;
      if found {
        if isSuccess {
          writes := writes + multiset{WriteOf(copy)};
        }
        if copy.meta.confirmEnabled || (!isSuccess && copy.IsReliable()) {
          var state := if isSuccess then Processed else NetworkError;
          DeliverStateChangedMessage(copy, state);
        }
      } else if copy.IsReliable() {
        DeliverStateChangedMessage(copy, AddressNotFound);
      }
    }
  }

  /** The session machine of a connector and the delivery protocol see one handler: it queues the event
  that the user was not found exactly when the protocol reports so. */
  lemma {:induction false} ReportsAsSessionsDo(c: Sessions.Connector, w: World, domain: string, name: string,
                                               copy: Message, success: bool)
    requires forall u, s :: Session(u, Address(domain, Some(name), s)) in w.live <==> Sessions.Holds(c.users, u, s)
    requires copy.meta.target.Some? && AddressOf(copy) == Address(domain, Some(name), AddressOf(copy).socketId)
    ensures var s := AddressOf(copy).socketId;
      var c1 := Sessions.After(c, Sessions.Outgoing(copy.to, s, copy.IsReliable()));
      c1.queue == (if !Sessions.Holds(c.users, copy.to, s) && copy.IsReliable() then
                   c.queue + [Sessions.NotFound(copy.to, s)] else c.queue) &&
      (c1.queue != c.queue <==>
       SessionOf(copy) !in w.live &&
         Received(w, copy, success).reports == w.reports + multiset{Report(copy, AddressNotFound)})
  {
    var r := Report(copy, AddressNotFound);
    assert (w.reports + multiset{r})[r] == w.reports[r] + 1;
  }
}
