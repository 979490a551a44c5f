# Linker: delivery between processors, connectors and domains

Linker routes messages between users. A *connector* holds the sockets of users; a *processor* routes messages for one *domain*; a Redis *user channel* lists the addresses (domain, connector, socket) under which a user can be found; a Mongo *store* keeps reliable messages that could not be delivered; domains are joined by *tunnels*, each of which logs in at its neighbour as an ordinary user. This project models that router in Dafny and proves what its design relies on.

`dafny verify dfyconfig.toml` checks the whole project.

## What is modelled

* **Delivery with self-repair** (`Delivery`, `NoLoss`, `Quiescence`, `Fanout`, `CopyBound`, `WorstCase`, `Confirmations`). One domain as a step system: handing a message to the post office, copies and reports travelling in any order, socket writes, failures, connects, disconnects, channel updates and fetches. Proved over whole runs: no reliable message is lost, redelivery terminates, the channel is repaired, live addresses get at least one and at most 2^k copies, confirmations match socket writes.
* **The processor on mutable fields** (`Processors`, `Fetching`). The post office, user channels, store, report handling, paged fetch and the draining loop between domains, each method proved against the functions the step system is made of. `Outgoing` does the same for the connector's end.
* **Who gets a copy** (`Routing`, `Steps`). Delivery told from the fields of the message, the client apps and the stored channel: one copy for a master user, the processor or an envelope, one for each address otherwise; and the steps of the protocol in the same terms.
* **Dispatching** (`Dispatch`, `Handlers`, `Notices`, `GroupFanout`). `process` and its handlers as mutually recursive methods with their termination measure, and the exceptions that end them; the loops that split a group message by domain and connector, and the connector's loop that turns a group into one message per socket. `Handlers` and `Notices` say field by field what each kind of message leads to, and what it does to the user channels.
* **Between domains** (`DomainGraphs`, `Travel`, `Networks`, `Holders`). A level-by-level search for shortest walks, journeys of envelopes through domains that each choose their own next hop, and a network of domains that each run the delivery protocol, joined by tunnels: no reliable request or confirmation is lost across them, and exactly one domain holds it at a time.
* **The Kafka consumer** (`Kafka`). Log, committed offset and key cache, with a crash between any two actions.
* **Sessions and the channel index** (`Sessions`, `Connectors`, `ChannelIndex`). The pending and authenticated maps of a connector, and their agreement with the stored channels through the queued events.

`Types`, `Messages`, `Names`, `ClientApps`, `PostOffices` and `Bags` hold what these share: messages and their parts, name parsing, user ranges, the post office on values, and sums over bags.

## Where the code falls short of what it is for

Each of these is stated with the exact condition.

* A fetch delivers a row and then removes it. If the user has no address at that moment, or if sending fails before the removal - in the calling thread, as it does once the producer is closed, or in a callback that comes in time - delivering stores the row again under its id and the removal then loses it. It survives exactly when at least one copy goes out (`NoLoss.FetchLosesExactlyWhenNothingIsSent`). A user has no address yet when a FAST request to fetch overtakes the notice that the user has connected (`NoLoss.OfflineFetchLoses`, `NoLoss.FailingFetchLoses`, `Fetching.FetchLosesPage`).
* A recipient of a group message whose home has no route, or a connector name that belongs to another domain, makes one delivery throw and so ends the loops: whoever has not had a turn is not served, and the stored group message is never fetched (`GroupFanout.GroupReachesEveryone`, `GroupFanout.OneRecipientStopsTheRest`).
* Redelivery need not end for a reliable message, or the confirmation of one, to an id that starts with "Connector": the connector's own address is not in any channel and so is never removed (`Quiescence.RunsForeverExactlyWhenBouncing`).
* A forwarded group part is dropped beyond 8 hops, because its TTL is counted down in every domain; messages for a user are not limited (`Travel.PartReach`, `Travel.UserMessageReachesHome`).
* The comment on `resolveDomainUserId` says `domain-01 => domain01-1`; the code gives `domain1-1`. Different domain names can share an id, so the journeys assume that those of the linked domains differ (`Names.DomainUserIdCollision`).
* A socket that asks to be the empty user stays pending after it closes, until its reply comes, and a null user id locks the socket out (`Sessions.ClosedStaysExactlyForEmptyUser`, `Sessions.ClosedIsNoSession`, `Sessions.NullUserIsLockedOut`).

## Model

| member | source | states |
|---|---|---|
| Names.ParseOfPair | processor/src/main/java/com/linker/processor/models/NameRecord.java:24-41 | a name of exactly two dash-free tokens parses to the first token and to the number the second one reads as, if it does |
| Names.ReadsNumbers | processor/src/main/java/com/linker/processor/models/NameRecord.java:31-35 | a token reads as a number if and only if it consists of digits, after at most one '+', and fits into a long; the number is its decimal value |
| Types.NamesOfParts | processor/src/main/java/com/linker/processor/ProcessorUtils.java:73-85 | the names of connectors and of the processor are recognised by their first nine letters in either case; white space of any kind is blank |
| Names.DomainUserIdRoundTrip | processor/src/main/java/com/linker/processor/ProcessorUtils.java:87-98 | the user id made from a domain name `p-n` parses back to app `pn`, number 1, however the number was written |
| Names.DomainUserIdCollision | processor/src/main/java/com/linker/processor/ProcessorUtils.java:90-98 | two well-formed domain names get one user id if and only if prefix and number written side by side read the same; with equal prefixes, if and only if the numbers are equal |
| Names.MisnamedDomain | processor/src/main/java/com/linker/processor/ProcessorUtils.java:90-98 | a domain name that is not two tokens logs in as `nullnull-1`, one whose second token is no number with `null` in its place |
| Names.LeadingZerosVanish | processor/src/main/java/com/linker/processor/ProcessorUtils.java:87-93 | `domain-01` and `domain-1` share the id `domain1-1`: the id does not determine the domain, and is not the one the comment on the method gives |
| Names.DigitsCanMove | processor/src/main/java/com/linker/processor/ProcessorUtils.java:90-93 | nor do different prefixes keep ids apart: `a1-1` and `a-11` share theirs |
| ClientApps.FindDistribution | processor/src/main/java/com/linker/processor/services/ClientAppService.java:105-115 | the domain of the first range that contains the number, and none if and only if no range does |
| ClientApps.HomeIsFirstRange | processor/src/main/java/com/linker/processor/services/ClientAppService.java:87-116 | user `app-n` lives where the first range of the app says whose bounds, 0 and the largest long when missing, include n |
| ClientApps.HomelessBelongsHere | processor/src/main/java/com/linker/processor/services/ClientAppService.java:87-116 | without such a range or without the app, the user belongs to the domain that asks |
| ClientApps.NamelessBelongsHere | processor/src/main/java/com/linker/processor/services/ClientAppService.java:66-76 | so does a user whose id is not two tokens, a non-blank one and a number |
| ClientApps.DomainsAgreeExactlyOnCoveredUsers | processor/src/main/java/com/linker/processor/services/ClientAppService.java:87-116 | two different domains resolve a user to the same domain if and only if some range covers the user, and then it is that range's domain |
| ClientApps.ProcessorHasNoHome | processor/src/main/java/com/linker/processor/services/ClientAppService.java:66-76 | no client app claims the name "Processor", so every domain resolves it to itself |
| PostOffices.LocalIsSettled | processor/src/main/java/com/linker/processor/express/PostOffice.java:80-101 | a copy or report addressed inside the domain is delivered as it stands, whatever its user id resolves to |
| PostOffices.AddressedIsStable | processor/src/main/java/com/linker/processor/express/PostOffice.java:80-131 | a message the post office stored is delivered again as the same message to the same user, also when it was on its way to another domain; id, content and confirm flag are those it had before |
| Routing.OneCopyGoesOut | processor/src/main/java/com/linker/processor/express/PostOffice.java:69-78 | a message inside the domain whose sender asks for ANY, an envelope, a message to the processor and one to the master user of an app each go out in exactly one copy, to one address of the user's channel, all other fields kept |
| Routing.MasterGetsOneCopy | processor/src/main/java/com/linker/processor/express/PostOffice.java:69-78 | the master user `app-n` of its app gets one copy, with however many devices connected |
| Routing.EveryAddressGetsOne | processor/src/main/java/com/linker/processor/express/PostOffice.java:133-140 | any other message goes out in one copy to each address of the channel, all other fields kept |
| Routing.NobodyGetsACopy | processor/src/main/java/com/linker/processor/express/PostOffice.java:119-128 | a user without addresses: nothing goes out, a reliable message becomes the row of its id as ADDRESS_NOT_FOUND and no other row changes, a FAST one is gone |
| Routing.ConnectorGetsOneCopy | processor/src/main/java/com/linker/processor/express/PostOffice.java:174-178 | a connector's own name: one copy, to that connector without a socket |
| Routing.ForeignGoesToNeighbour | processor/src/main/java/com/linker/processor/express/PostOffice.java:103-117 | a message aimed at another domain is refused unless it is an envelope and a neighbour is known on the way; then one copy goes to an address of that neighbour, or the envelope is stored under the neighbour's id |
| PostOffices.CanonDetermines | processor/src/main/java/com/linker/processor/express/PostOffice.java:69-140 | what the step system calls the same message agrees in id, content, sender, recipient, creation time, origin, TTL and confirm flag: on its way only target, state and the narrowing of ALL to ANY change |
| PostOffices.FailingOneMore | processor/src/main/java/com/linker/processor/express/PostOffice.java:133-147 | sends that fail at once leave what the same sends leave that fail right afterwards, copy by copy: the last failure is stored as NETWORK_ERROR, the other copies are under way |
| PostOffices.FetchedIsDeliverThenRemove | processor/src/main/java/com/linker/processor/messageprocessors/FetchMissingMessagesMessageProcessor.java:46-49 | one round of the fetch loop is delivery, with all that delivery itself stores, followed by the removal: the copies whose sending did not fail are under way and no row is left under the id |
| Delivery.StepKeepsInv | processor/src/main/java/com/linker/processor/express/PostOffice.java:88-147 | every step keeps: channels are never empty and list only sessions that existed, copies, reports and rows are the accepted messages up to target and state, a not-found report is about a reliable message and a dead session, group messages never ask for confirmation |
| Delivery.RunKeepsInv | processor/src/main/java/com/linker/processor/express/PostOffice.java:88-147 | so does every run |
| Delivery.StepGrowsAccepted | processor/src/main/java/com/linker/processor/messageprocessors/MessageStateChangedMessageProcessor.java:36-79 | accepted messages stay accepted unchanged, and only a connector writes to sockets |
| Delivery.RedeliverKeepsInv | processor/src/main/java/com/linker/processor/messageprocessors/MessageStateChangedMessageProcessor.java:54-65 | in a reachable world handling a not-found report never throws, and it keeps the invariant |
| Steps.AcceptDelivers | processor/src/main/java/com/linker/processor/express/PostOffice.java:88-131 | in the step system handing a message over has the effect of delivering it, and one that delivery refuses is saved as PROCESSOR_ERROR when it is reliable; nothing else changes |
| Steps.SendFailSaves | processor/src/main/java/com/linker/processor/express/PostOffice.java:142-147 | a copy whose sending fails is no longer under way, and its row says NETWORK_ERROR if it is reliable |
| Steps.FaultReports | connector/src/main/java/com/linker/connector/express/PostOffice.java:75-87 | a copy on which a connector throws is reported as CONNECTOR_ERROR if and only if it is reliable |
| Steps.ControlTakes | connector/src/main/java/com/linker/connector/messageprocessors/MessageProcessorService.java:45-52 | authentication replies, groups and closings are neither written nor reported by the default processor |
| Steps.SettleSaves | processor/src/main/java/com/linker/processor/messageprocessors/MessageStateChangedMessageProcessor.java:36-52 | any report other than not-found and a success to be confirmed saves its message in the reported state, except for a success, and does nothing else |
| Steps.SettleConfirms | processor/src/main/java/com/linker/processor/messageprocessors/MessageStateChangedMessageProcessor.java:67-79 | a success that is to be confirmed hands the confirmation to delivery |
| Steps.GroupMissDelivers | processor/src/main/java/com/linker/processor/messageprocessors/CustomGroupMessageProcessor.java:101-113 | a local recipient without address is handed the text in a message of its own, field by field, never to be confirmed |
| Steps.SpawnAddsChild | connector/src/main/java/com/linker/connector/messageprocessors/outgoing/GroupConnectorMessageProcessor.java:29-40 | a connector turns a group into a copy for one socket, field by field |
| Steps.HandedOverIsPosted | processor/src/main/java/com/linker/processor/messageprocessors/MessageProcessorService.java:59-81 | across domains, what a domain hands to delivery is what its `process` posts |
| Outgoing.DefaultOutgoingMessageProcessor.DoProcess | connector/src/main/java/com/linker/connector/messageprocessors/outgoing/DefaultOutgoingMessageProcessor.java:31-53 | carries out the connector's half of a step: written exactly when the user's socket at the target is there and the write succeeds; success is reported if it was asked for, failure also of a reliable copy, and a missing socket exactly of a reliable one |
| Outgoing.DefaultOutgoingMessageProcessor.OnProcessorThrew | connector/src/main/java/com/linker/connector/express/PostOffice.java:75-87 | the fault step on mutable fields: a CONNECTOR_ERROR report for a reliable copy and no other |
| Outgoing.ReportsAsSessionsDo | connector/src/main/java/com/linker/connector/messageprocessors/outgoing/DefaultOutgoingMessageProcessor.java:31-53 | the session machine queues that a user was not found exactly when the delivery protocol reports it |
| NoLoss.NothingIsLost | processor/src/main/java/com/linker/processor/express/PostOffice.java:119-147 | in every run in which each of its own fetches gets at least one copy out before the removal, a reliable accepted message of a type the default outgoing processor handles (all but AUTH_CLIENT_REPLY, GROUP_CONNECTOR_MESSAGE and CLOSE_CONNECTION) has at least one token - copy under way, pending report, socket write or row - and one for ANY one address has exactly one, whatever happens to other messages |
| NoLoss.AcceptedIsSomewhere | processor/src/main/java/com/linker/processor/express/PostOffice.java:119-147 | the same from the empty start, in words: the message is under way, reported, written or stored |
| NoLoss.FetchLosesExactlyWhenNothingIsSent | processor/src/main/java/com/linker/processor/messageprocessors/FetchMissingMessagesMessageProcessor.java:46-49 | the guard is exact: a row that is the last trace of its message survives its fetch if and only if some address is chosen whose send does not fail before the removal |
| NoLoss.FailingFetchLoses | linker-common-lib/src/main/java/com/linker/common/messagedelivery/KafkaExpressDelivery.java:135-155 | for every reliable message to a user without addresses there is a run that stores it, lets the user connect and be announced, and loses it in a fetch whose one send fails in the calling thread, although the user has an address |
| NoLoss.OfflineFetchLoses | processor/src/main/java/com/linker/processor/messageprocessors/FetchMissingMessagesMessageProcessor.java:46-49 | for every reliable message to a user without addresses there is a run that accepts and stores it, lets the user connect, and loses it in a fetch that overtakes the notice of the connection |
| NoLoss.FetchCanLose | processor/src/main/java/com/linker/processor/messageprocessors/FetchMissingMessagesMessageProcessor.java:46-49 | a concrete such run, for a user that a client app knows and whose home is this domain |
| Quiescence.InternalStepLowers | processor/src/main/java/com/linker/processor/messageprocessors/MessageStateChangedMessageProcessor.java:54-65 | without new input every step - copy, report, removal, redelivery, confirmation - lowers a lexicographic measure of live sockets, channel entries and the weights of what is aimed outside and inside the channels, in every world where nothing bounces |
| Quiescence.RedeliveryTerminates | processor/src/main/java/com/linker/processor/messageprocessors/MessageStateChangedMessageProcessor.java:54-65 | hence no such world has an infinite run without input |
| Quiescence.OnlyQuietStops | processor/src/main/java/com/linker/processor/messageprocessors/MessageStateChangedMessageProcessor.java:36-65 | while a copy or report is under way some step can happen: only a quiet world is at rest |
| Quiescence.RunsForeverExactlyWhenBouncing | processor/src/main/java/com/linker/processor/express/PostOffice.java:174-178 | from any reachable world an infinite run without input exists if and only if a reliable copy or its not-found report is addressed to a name that starts with "Connector" (that address is never removed, so it is sent again for ever), or a copy or report that can still reach a socket asks for a confirmation to such a name |
| Quiescence.InternalStepKeepsCalm | processor/src/main/java/com/linker/processor/messageprocessors/MessageStateChangedMessageProcessor.java:36-79 | a world where nothing bounces, and where nothing that asks for a confirmation to a connector's name can still be written, stays one |
| Fanout.StepEffect | processor/src/main/java/com/linker/processor/express/PostOffice.java:133-140 | every step does one of five things to a message for ALL addresses: nothing, lose a copy (only on a failure), write one to a live socket, drop a dead address, or drop it and send one copy to each address left |
| Fanout.RedeliverOwn | processor/src/main/java/com/linker/processor/messageprocessors/MessageStateChangedMessageProcessor.java:54-65 | handling the message's own not-found report resends to exactly the remaining addresses, and stores the message as ADDRESS_NOT_FOUND if there are none |
| CopyBound.Rounds | processor/src/main/java/com/linker/processor/messageprocessors/MessageStateChangedMessageProcessor.java:54-65 | the inductive invariant: after n rounds every address in the channel has had at most n copies, exactly n without failures, and n plus the strayed copies, doubled once for each address that may still go, stays within 2^k |
| CopyBound.CopiesAreBounded | processor/src/main/java/com/linker/processor/messageprocessors/MessageStateChangedMessageProcessor.java:54-65 | an address that stays alive gets at most 2^k copies, k being the addresses of the channel that need not stay alive, in every interleaving and with failures; without failures it gets at least one |
| CopyBound.DeadAddressesArePending | processor/src/main/java/com/linker/processor/messageprocessors/MessageStateChangedMessageProcessor.java:54-65 | self-repair under way: without failures, an address dead from the start that is still in the channel has a copy or report of the message in flight |
| CopyBound.AtRest | processor/src/main/java/com/linker/processor/messageprocessors/MessageStateChangedMessageProcessor.java:54-65 | when nothing is under way: the channel holds no address that was dead, live ones were written to between once and 2^k times (once if k = 0), and if none was alive the message is stored as ADDRESS_NOT_FOUND |
| WorstCase.RemoveDead | processor/src/main/java/com/linker/processor/messageprocessors/MessageStateChangedMessageProcessor.java:54-65 | a dead address whose p copies all report costs every other address p copies more |
| WorstCase.BoundIsAttained | processor/src/main/java/com/linker/processor/messageprocessors/MessageStateChangedMessageProcessor.java:54-65 | the bound is exact: from every quiet world with one live and k dead addresses some faultless run brings 2^k copies to the live one |
| Confirmations.ConfirmationsAreSound | processor/src/main/java/com/linker/processor/messageprocessors/MessageStateChangedMessageProcessor.java:46-79 | per message and socket there are never more confirmations than successful writes, and only for messages whose sender asked and that no group message spawned, through retries, storage and refetch |
| Confirmations.EveryWriteIsConfirmed | processor/src/main/java/com/linker/processor/messageprocessors/MessageStateChangedMessageProcessor.java:46-79 | at rest every write of a message whose sender asked has been confirmed exactly once |
| Confirmations.ConfirmationTellsSender | processor/src/main/java/com/linker/processor/messageprocessors/MessageStateChangedMessageProcessor.java:67-79 | a confirmation carries the reference to the sender, reliably, alone or in an envelope for the sender's domain, and is not confirmed in turn |
| Processors.ProcessorNode.AddAddress | processor/src/main/java/com/linker/processor/services/UserChannelService.java:21-28 | adds to the stored channel, creating it if needed |
| Processors.ProcessorNode.RemoveAddress | processor/src/main/java/com/linker/processor/services/UserChannelService.java:30-40 | removes from the stored channel and deletes it when it becomes empty; a missing channel or address changes nothing |
| Processors.ProcessorNode.PersistMessage | processor/src/main/java/com/linker/processor/messageprocessors/MessageProcessorService.java:88-93 | the row of a reliable message is the message with the new state, except for PROCESSED; nothing else changes |
| Processors.ProcessorNode.GetRouteTargetAddresses | processor/src/main/java/com/linker/processor/express/PostOffice.java:174-194 | all addresses or one of them, the connector itself for connector names, nothing for blank or unknown users |
| Processors.ProcessorNode.SendToAddresses | processor/src/main/java/com/linker/processor/express/PostOffice.java:133-147 | one copy for each address whose send does not fail at once, aimed at it; the others are saved as NETWORK_ERROR by the listener, the last one last, and nothing else changes |
| Processors.ProcessorNode.SendToConnector | processor/src/main/java/com/linker/processor/express/PostOffice.java:120-131 | adjusts, then sends, with any failing sends, or stores as ADDRESS_NOT_FOUND exactly when there is no address; `Routing` says who gets a copy |
| Processors.ProcessorNode.DeliverMessage | processor/src/main/java/com/linker/processor/express/PostOffice.java:88-117 | throws exactly for messages without a route, changing nothing; otherwise has the effect the step system gives it, followed by the failures of the sends that fail at once |
| Processors.ProcessorNode.OnMessageDeliveryFailed | processor/src/main/java/com/linker/processor/express/PostOffice.java:142-147 | a reliable message whose sending failed is stored as NETWORK_ERROR |
| Processors.ProcessorNode.ProcessTargetNotFound | processor/src/main/java/com/linker/processor/messageprocessors/MessageStateChangedMessageProcessor.java:54-65 | the redelivery step of the step system; when it throws the address is removed all the same |
| Processors.ProcessorNode.ProcessStateChanged | processor/src/main/java/com/linker/processor/messageprocessors/MessageStateChangedMessageProcessor.java:36-79 | the settling step of the step system, and confirms exactly when a confirmation is due |
| Processors.ProcessorNode.FindMessages | processor/src/main/java/com/linker/processor/repositories/MessageRepository.java:45-56 | returns rows of the user in state ADDRESS_NOT_FOUND or NETWORK_ERROR, each once, oldest first and none left out for a younger one, as many as there are up to the page size, and the number of all such rows |
| Processors.ProcessorNode.DeliverPage | processor/src/main/java/com/linker/processor/messageprocessors/FetchMissingMessagesMessageProcessor.java:46-49 | the loop over a page, with any pattern of failing sends, refines its fold: deliver with its own saving, then remove, up to the first exception |
| Processors.ProcessorNode.FetchMissingMessages | processor/src/main/java/com/linker/processor/messageprocessors/FetchMissingMessagesMessageProcessor.java:36-68 | a page of at most 2000 rows is delivered and removed row by row, whichever sends fail; then all that is put under way or stored is a FETCH_MISSING_MESSAGES_COMPLETE from SYSTEM to whoever asked that says how many are left, with the meta of the request; a size below 1 throws and changes nothing, a delivery that throws keeps what was done before it |
| Processors.ProcessorNode.FetchRound | processor/src/main/java/com/linker/processor/messageprocessors/FetchMissingMessagesMessageProcessor.java:36-68 | for a user with an address: the next page of what earlier rounds left is removed, the copies whose sends do not fail are under way, and one reply follows |
| Processors.ProcessorNode.HandleFetchingMessagesComplete | processor/src/main/java/com/linker/processor/services/DomainService.java:69-77 | the neighbour fetches again if and only if the reply says that something is left |
| Processors.ProcessorNode.FetchUntilNoneLeft | processor/src/main/java/com/linker/processor/services/DomainService.java:58-77 | draining, with any sends of rows failing, as long as the replies say that rows are left: max(1, ceil(N/2000)) rounds; the pages in sequence are precisely the N stored rows of the user in order of creation, each sent once unless its sends fail, and removed; no other row is touched; reply i says N - 2000 i, and the last one 0 |
| Fetching.FetchSends | processor/src/main/java/com/linker/processor/messageprocessors/FetchMissingMessagesMessageProcessor.java:46-49 | the loop over a page puts under way precisely the copies that have an address and whose send does not fail, and removes precisely these rows |
| Fetching.SentToNobody | processor/src/main/java/com/linker/processor/messageprocessors/FetchMissingMessagesMessageProcessor.java:46-49 | no copy of a row goes out if and only if its user has no address or every chosen send fails |
| Fetching.FetchLosesPage | processor/src/main/java/com/linker/processor/messageprocessors/FetchMissingMessagesMessageProcessor.java:46-49 | without an address, or when every send fails, the loop sends nothing and still removes every row of the page |
| Fetching.PagesJoin | processor/src/main/java/com/linker/processor/repositories/MessageRepository.java:73-85 | a page taken from what earlier pages left continues them: together still distinct rows in order of creation |
| Fetching.RepliesSayLeft | processor/src/main/java/com/linker/processor/messageprocessors/FetchMissingMessagesMessageProcessor.java:58-68 | whatever delivering a reply puts under way or stores says the number left, to the user who asked, from SYSTEM, reliably |
| Fetching.StoreIsDeliverable | processor/src/main/java/com/linker/processor/express/PostOffice.java:120-131 | in every world a run reaches, rows are stored under their own ids and can be delivered as they stand |
| DomainGraphs.SingleSourcePaths | processor/src/main/java/com/linker/processor/services/DomainGraphService.java:49-58 | a walk to every domain that can be reached and to no other, and none of them longer than any walk to the same domain |
| DomainGraphs.DomainGraphService.SetupGraph | processor/src/main/java/com/linker/processor/services/DomainGraphService.java:49-58 | throws exactly if a link or the current domain is not among the domains; otherwise all paths are shortest from the current domain, or the configured one if the name is blank |
| DomainGraphs.DomainGraphService.GetNextDomainName | processor/src/main/java/com/linker/processor/services/DomainGraphService.java:60-80 | null if and only if the target cannot be reached, the current domain if and only if it is the target, otherwise the second domain of a shortest walk |
| DomainGraphs.HopsGetNearer | processor/src/main/java/com/linker/processor/services/DomainGraphService.java:70-80 | the next domain of any shortest walk is linked to this one and exactly one hop nearer to the target |
| DomainGraphs.LinksLeadBothWays | processor/src/main/java/com/linker/processor/services/DomainGraphService.java:49-58 | a link joins its ends in both directions: each is the next domain on the way to the other, one hop away |
| DomainGraphs.StrangersAreNotReached | processor/src/main/java/com/linker/processor/services/DomainGraphService.java:49-58 | a domain without links reaches nobody and is not reached |
| Dispatch.MessageProcessorService.Process | processor/src/main/java/com/linker/processor/messageprocessors/MessageProcessorService.java:59-81 | terminates for every message, with (rank of envelope and kind, TTL) as measure; returns normally if and only if none of the effects of the handler chosen for the innermost message throws, and then has had all of them, whatever the order of the loops; otherwise it has had some of those that do not throw |
| Dispatch.MessageProcessorService.OnMessageArrived | processor/src/main/java/com/linker/processor/express/PostOffice.java:160-168 | after an exception what has been done stays done, and the arrived message is saved as PROCESSOR_ERROR; without one all effects have happened |
| Dispatch.RanExactlyInSomeOrder | processor/src/main/java/com/linker/processor/express/PostOffice.java:160-168 | these outcomes are exactly those of taking the effects in some order up to the first one that throws |
| Dispatch.MessageProcessorService.ProcessCrossDomainMessage | processor/src/main/java/com/linker/processor/messageprocessors/MessageProcessorService.java:44-57 | a foreign message leaves in one envelope for its domain, or nothing happens because there is no route |
| Dispatch.MessageProcessorService.HandleMessage | processor/src/main/java/com/linker/processor/messageprocessors/InternalMessageProcessor.java:36-51 | an envelope for this domain has the outcome of what it holds, one for another is passed on if there is a route, everything else goes to its handler |
| Dispatch.MessageProcessorService.ProcessStateChanged | processor/src/main/java/com/linker/processor/messageprocessors/MessageStateChangedMessageProcessor.java:36-79 | stores and confirms, or removes the address and redelivers; the storing and the removal stand even when an exception follows, as it does after a success reported for a MESSAGE without a target |
| Dispatch.MessageProcessorService.ProcessNotice | processor/src/main/java/com/linker/processor/messageprocessors/UserConnectedMessageProcessor.java:27-40 | a notice changes the channel once, even when passing it on throws, and goes to the master user unless that is the user itself or absent |
| Dispatch.MessageProcessorService.ProcessGroupMessage | processor/src/main/java/com/linker/processor/messageprocessors/CustomGroupMessageProcessor.java:40-59 | sets out to have one effect per foreign domain, per user without address and per connector, none of them twice; the loops end with the first that throws, and return normally if and only if none does |
| Dispatch.MessageProcessorService.GroupByDomain | processor/src/main/java/com/linker/processor/messageprocessors/CustomGroupMessageProcessor.java:42-50 | the loop groups the recipients by resolved domain |
| Dispatch.MessageProcessorService.GroupByConnector | processor/src/main/java/com/linker/processor/messageprocessors/CustomGroupMessageProcessor.java:61-78 | the loop groups the chosen (user, socket) pairs by connector and reports exactly the users without address |
| Dispatch.EnvelopeIsForeign | processor/src/main/java/com/linker/processor/messageprocessors/MessageProcessorService.java:44-57 | the envelope around a foreign message is foreign, starts with a full TTL and is routed without being opened: why TTL alone does not bound the recursion |
| Dispatch.HandledIsCore | processor/src/main/java/com/linker/processor/messageprocessors/InternalMessageProcessor.java:36-47 | whatever the nesting, the message handled is the innermost one with one TTL unit taken off, it is alive and belongs to this domain |
| Dispatch.ConfirmationIsHanded | processor/src/main/java/com/linker/processor/messageprocessors/MessageStateChangedMessageProcessor.java:67-79 | processing a confirmation hands to the post office precisely what the delivery protocol confirms with, in an envelope when the sender lives elsewhere |
| Handlers.NothingHappens | processor/src/main/java/com/linker/processor/messageprocessors/MessageProcessorService.java:59-81 | a message whose TTL is used up, or of a type without a processor, has no effect |
| Handlers.ForeignLeaves | processor/src/main/java/com/linker/processor/messageprocessors/MessageProcessorService.java:44-71 | a message whose user or target belongs to another domain leaves in one new envelope, addressed to its user and aimed at that domain, with its feature, sender and origin and a TTL of 9 |
| Handlers.RequestIsPosted | processor/src/main/java/com/linker/processor/messageprocessors/CustomMessageProcessor.java:24-44 | a request here posts one message, field by field: the text in the sender's name to the user named in the data, to be confirmed if and only if it has a reference and allows it |
| Handlers.ConfirmationIsPosted | processor/src/main/java/com/linker/processor/messageprocessors/CustomMessageConfirmationProcessor.java:26-28 | a confirmation here is posted as it is |
| Handlers.CloseIsForMasters | processor/src/main/java/com/linker/processor/messageprocessors/CloseConnectionMessageProcessor.java:29-43 | a connection of user `app-n` is closed, reliably, if and only if the command comes from the master of the app |
| Handlers.FetchIsForSender | processor/src/main/java/com/linker/processor/messageprocessors/FetchMissingMessagesMessageProcessor.java:36-41 | a request to fetch reads the rows of its sender, at most 2000, and throws if it asks for fewer than one |
| Handlers.EnvelopeIsOpenedOrPassedOn | processor/src/main/java/com/linker/processor/messageprocessors/InternalMessageProcessor.java:27-51 | an envelope takes the user of what it holds if it names none; for this domain it has the effects of what it holds, for another it is passed on |
| Handlers.SuccessIsConfirmed | processor/src/main/java/com/linker/processor/messageprocessors/MessageStateChangedMessageProcessor.java:36-79 | the success of a user's message written in this domain, with a reference and confirmation allowed, posts a confirmation, field by field, or a new envelope with it for the domain of the sender |
| Handlers.OthersAreNoted | processor/src/main/java/com/linker/processor/messageprocessors/MessageStateChangedMessageProcessor.java:36-52 | every other report except not-found only saves |
| Handlers.SuccessWithoutTargetThrows | processor/src/main/java/com/linker/processor/messageprocessors/MessageStateChangedMessageProcessor.java:46-50 | a success about a user's message without target is noted and then throws |
| Handlers.NoticeReachesMaster | processor/src/main/java/com/linker/processor/ProcessorUtils.java:39-51 | a new notice changes the channel; in either case the master of the user's app gets the notice, here or in an envelope for its domain |
| Handlers.NoticeWithoutMaster | processor/src/main/java/com/linker/processor/ProcessorUtils.java:39-51 | without a master other than the user itself the change of the channel is all, and a notice that is not new changes nothing |
| Handlers.GroupIsSplit | processor/src/main/java/com/linker/processor/messageprocessors/CustomGroupMessageProcessor.java:40-59 | a group message here has the effects of its parts |
| Handlers.PartInFields | processor/src/main/java/com/linker/processor/messageprocessors/CustomGroupMessageProcessor.java:115-125 | the part for another domain, field by field, in its envelope |
| Handlers.MissInFields | processor/src/main/java/com/linker/processor/messageprocessors/CustomGroupMessageProcessor.java:101-113 | the message for a local user without address, field by field |
| Handlers.ConnectorMessageInFields | processor/src/main/java/com/linker/processor/messageprocessors/CustomGroupMessageProcessor.java:85-99 | the message for a connector, field by field |
| Handlers.ChildInFields | connector/src/main/java/com/linker/connector/messageprocessors/outgoing/GroupConnectorMessageProcessor.java:29-40 | what the connector makes of it for one socket, field by field |
| Handlers.WrapperInFields | processor/src/main/java/com/linker/processor/services/DomainService.java:47-56 | what a tunnel brings is wrapped in a message for the inner user with a fresh meta, field by field |
| Notices.ConnectedIsAdded | processor/src/main/java/com/linker/processor/messageprocessors/UserConnectedMessageProcessor.java:27-40 | processing a new notice of connection leaves, in whatever order its effects happen, precisely the channel the index gives it: the address added to the user's |
| Notices.DisconnectedIsRemoved | processor/src/main/java/com/linker/processor/messageprocessors/UserDisconnectedMessageProcessor.java:28-41 | processing a new notice of disconnection leaves the user's channel without that address |
| Notices.NoticesAreProtocolSteps | processor/src/main/java/com/linker/processor/messageprocessors/UserConnectedMessageProcessor.java:27-40 | these are the channels after the announcing and withdrawing steps of the delivery protocol |
| Notices.NotFoundIsRemoved | processor/src/main/java/com/linker/processor/messageprocessors/MessageStateChangedMessageProcessor.java:54-65 | processing a not-found report leaves the channels of the redelivery, without the address, and posts precisely the reported copy |
| GroupFanout.RecipientsArePartitioned | processor/src/main/java/com/linker/processor/messageprocessors/CustomGroupMessageProcessor.java:40-83 | every recipient and nobody else is in exactly one of: the part for its home domain, the users reported as not found, the users some connector is asked to serve |
| GroupFanout.ChosenOnce | processor/src/main/java/com/linker/processor/messageprocessors/CustomGroupMessageProcessor.java:72-82 | a (user, address) pair is chosen if and only if the message for that address's connector names that user and socket |
| GroupFanout.EveryAddressIsChosen | processor/src/main/java/com/linker/processor/messageprocessors/CustomGroupMessageProcessor.java:65-82 | of a recipient who is no master user exactly the addresses of the channel are chosen, all of them |
| GroupFanout.OneAddressIsChosen | processor/src/main/java/com/linker/processor/messageprocessors/CustomGroupMessageProcessor.java:65-82 | of a master user exactly one is |
| GroupFanout.EverySocketGetsItsChild | connector/src/main/java/com/linker/connector/messageprocessors/outgoing/GroupConnectorMessageProcessor.java:25-40 | down to the connectors: every socket of a local recipient who is no master user gets a child message with the text, aimed at it |
| GroupFanout.EveryRecipientIsServed | processor/src/main/java/com/linker/processor/messageprocessors/CustomGroupMessageProcessor.java:40-83 | among the effects there is for every recipient: the part for its home with all recipients who live there, the message of a user without address, or for each chosen address a message to its connector that names it |
| GroupFanout.GroupConnectorMessageProcessor.DoProcess | connector/src/main/java/com/linker/connector/messageprocessors/outgoing/GroupConnectorMessageProcessor.java:25-40 | the loop hands on exactly one child message per named socket |
| GroupFanout.ChildrenHitChosenSockets | connector/src/main/java/com/linker/connector/messageprocessors/outgoing/GroupConnectorMessageProcessor.java:29-40 | each child is aimed at a chosen socket of that connector with the forwarded text, feature and reference, and never asks for confirmation |
| GroupFanout.ChosenSocketsGetChildren | connector/src/main/java/com/linker/connector/messageprocessors/outgoing/GroupConnectorMessageProcessor.java:29-40 | each chosen socket gets its child from its own connector, once the group message has reached it |
| GroupFanout.GroupReachesItsConnector | processor/src/main/java/com/linker/processor/express/PostOffice.java:174-194 | the group message for a connector goes to it, in exactly one copy, if and only if its name starts with "Connector" and resolves to this domain; a foreign name makes the delivery throw, any other name without addresses gets no copy |
| GroupFanout.GroupReachesEveryone | processor/src/main/java/com/linker/processor/messageprocessors/CustomGroupMessageProcessor.java:52-83 | in whatever order the loops run, everyone is served if and only if the home of every foreign recipient has a route and the connector of every chosen address is blank or resolves to this domain |
| GroupFanout.OneRecipientStopsTheRest | processor/src/main/java/com/linker/processor/express/PostOffice.java:103-117 | with one recipient whose home has no route and a local one, taking that home first ends the loops before anyone is served, and the group message is then stored in a state no fetch looks for |
| GroupFanout.EachRecipientHasOneDomain | processor/src/main/java/com/linker/processor/services/ClientAppService.java:87-116 | over all domains sharing the ranges, a recipient is handled in exactly one: its home as seen from where the group message started |
| GroupFanout.PartIsLocalAtItsTarget | processor/src/main/java/com/linker/processor/messageprocessors/CustomGroupMessageProcessor.java:115-125 | the part sent to a domain is wholly local there and is not split again |
| Travel.ServiceGivesHops | processor/src/main/java/com/linker/processor/services/DomainGraphService.java:60-80 | what a set-up graph service answers for all targets is a valid table of next hops |
| Travel.EnvelopeGoesNext | processor/src/main/java/com/linker/processor/express/PostOffice.java:103-117 | an envelope for a reachable domain is sent, unopened, to the user id of the neighbour its shortest path starts with |
| Travel.HopIsNearer | processor/src/main/java/com/linker/processor/services/DomainService.java:47-56 | only that neighbour receives it, rewraps the same inner message, and is exactly one hop nearer |
| Travel.UserMessageReachesHome | processor/src/main/java/com/linker/processor/messageprocessors/MessageProcessorService.java:50-66 | with any tie-breaking in every domain, a user message visits no domain twice and cannot stop before its home, which it reaches after exactly dist hops; it is handled there with TTL 8, or 9 if it never left |
| Travel.UserRequestArrivesIntact | processor/src/main/java/com/linker/processor/messageprocessors/CustomMessageProcessor.java:24-44 | wherever it came from, what is handed to delivery at home is the requested text in the sender's name for the requested user, with reference, feature and origin kept, to be confirmed if and only if the request has a reference and allows it |
| Travel.UserMessageCanReachHome | processor/src/main/java/com/linker/processor/messageprocessors/MessageProcessorService.java:50-66 | every journey of a user message can be completed to one that ends at its home |
| Travel.WrappedPartIsOpened | processor/src/main/java/com/linker/processor/messageprocessors/InternalMessageProcessor.java:36-47 | a wrapper around a group part is addressed to no user, so every domain opens it and counts its TTL down |
| Travel.PartReach | linker-common-lib/src/main/java/com/linker/common/MessageUtils.java:14-33 | after k hops a group part is processed with TTL 9 - k; it goes on exactly while k is at most 8 and it has not arrived, is handled at its target if and only if that is at most 8 hops away, and is dropped after 9 hops otherwise |
| Travel.GroupPartArrives | processor/src/main/java/com/linker/processor/messageprocessors/CustomGroupMessageProcessor.java:115-125 | the part sent off for a domain is handled there exactly within 8 hops, with the recipients whose home it is, all local |
| Travel.StoredThenForwarded | processor/src/main/java/com/linker/processor/express/PostOffice.java:103-127 | an envelope for a neighbour without an address is stored under the neighbour's own id; its fetch, when some send succeeds, sends the same content to the same neighbour and removes the row |
| Travel.ForwardedGoesOn | processor/src/main/java/com/linker/processor/services/DomainService.java:47-56 | what the neighbour makes of a copy it fetched is a next place of the same journey |
| Networks.RequestIsNeverLost | README.MD:148-150 | across domains: from the moment a processor takes a reliable user request from a connector, at every later moment of every run of the network some domain holds it - under way, reported or stored as an envelope for the next domain on its way, or accounted for at its home - provided each of its own fetches gets a copy out before the removal |
| Networks.ConfirmationIsNeverLost | README.MD:163-164 | the same for the confirmation of a reported write, from the moment the report is handled, on its way to the home of the sender |
| Networks.NetStepKeepsHeld | processor/src/main/java/com/linker/processor/services/DomainService.java:47-56 | every step inside a domain, through a tunnel or from a connector keeps this; a write to the tunnel hands the message to the domain at its other end |
| Networks.RestMeansDelivered | README.MD:148-150 | once nothing is under way anywhere and no domain stores it, it has been written to a socket at its home |
| Holders.OneHolder | processor/src/main/java/com/linker/processor/services/DomainService.java:47-56 | at every such moment exactly one domain holds the request: the ones it came through have written their envelope to a tunnel and can never send it again |
| Holders.OneHolderOfConfirmation | processor/src/main/java/com/linker/processor/messageprocessors/MessageStateChangedMessageProcessor.java:67-79 | the same for the confirmation of a write |
| Holders.NetStepKeepsHeldOnce | processor/src/main/java/com/linker/processor/services/DomainService.java:47-56 | every step keeps: one domain holds the message, and every other one that ever took it on has nothing of it under way, reported or stored |
| Kafka.StepKeepsInv | linker-common-lib/src/main/java/com/linker/common/messagedelivery/KafkaExpressDelivery.java:72-113 | append, poll, skip, handle, cache, commit, clean and crash at any point keep: handled count = crashes that made it forgotten + 1 if it is known, and everything before a handled record was handled earlier |
| Kafka.CrashTolerantConsumption | linker-common-lib/src/main/java/com/linker/common/messagedelivery/KafkaExpressDelivery.java:72-113 | in every run a committed record was handled exactly 1 + (crashes between handling and the record of it) times, no record more often, and first handlings come in log order; with or without a cache |
| Kafka.OnlyTheWindowForgets | linker-common-lib/src/main/java/com/linker/common/messagedelivery/KafkaExpressDelivery.java:80-88 | with the cache, a crash at some moment of a run makes the consumer forget an offset if and only if handling it was the last thing the consumer did |
| Kafka.ExactlyOnceInOrder | linker-common-lib/src/main/java/com/linker/common/messagedelivery/KafkaExpressDelivery.java:72-113 | without such crashes the listener sees precisely a first part of the log, in order, once, and it covers everything committed |
| Kafka.KafkaExpressDelivery.ProcessRecords | linker-common-lib/src/main/java/com/linker/common/messagedelivery/KafkaExpressDelivery.java:72-91 | handles and caches exactly the records not cached before, in order; its actions are a run of the machine |
| Kafka.KafkaExpressDelivery.ConsumeBatch | linker-common-lib/src/main/java/com/linker/common/messagedelivery/KafkaExpressDelivery.java:96-104 | poll, process, commit and clean are a run of the machine; the position moves to the end of the batch and the cache loses the batch's keys |
| Kafka.KafkaExpressDelivery.RunConsumer | linker-common-lib/src/main/java/com/linker/common/messagedelivery/KafkaExpressDelivery.java:93-113 | from a restart to the end of the log, with any batch sizes: the listener gets the uncommitted records the cache does not know, once each and in order |
| Sessions.StepKeepsInv | connector/src/main/java/com/linker/connector/network/AppSocketHandler.java:47-92 | every event, with any user ids, keeps: a map lists exactly the sockets of one status, each once and under its own user, and no empty list |
| Sessions.SessionsAreListed | connector/src/main/java/com/linker/connector/NetworkUserService.java:51-66 | in every run an open socket with a user id is AUTHENTICATING exactly when it is pending once under that id, AUTHENTICATED exactly when it is a user once under that id, and under no other id; an authenticated socket and everything forwarded carry the id approved for that socket |
| Sessions.ForwardedExactlyWhatUsersSent | connector/src/main/java/com/linker/connector/messageprocessors/incomming/DefaultIncomingMessageProcessor.java:22-32 | over whole runs: a message in a user's name from a socket has reached the processor if and only if the socket sent one while it was authenticated as that user |
| Sessions.ClosedStaysExactlyForEmptyUser | connector/src/main/java/com/linker/connector/messageprocessors/incomming/UserDisconnectedMessageProcessor.java:23-30 | a closed socket is still listed if and only if it asked to be the empty user and was not turned down |
| Sessions.EmptyUserOutlivesSocket | connector/src/main/java/com/linker/connector/messageprocessors/incomming/UserDisconnectedMessageProcessor.java:23-30 | the concrete run: a socket asks to be the empty user and closes, and is still pending |
| Sessions.ClosedIsNoSession | connector/src/main/java/com/linker/connector/messageprocessors/incomming/UserDisconnectedMessageProcessor.java:23-30 | with the replies a processor sends - never a positive one for the empty id - a closed socket is never an authenticated session, and is pending if and only if it waits for its reply as the empty user |
| Sessions.ReplyEndsWaiting | connector/src/main/java/com/linker/connector/messageprocessors/outgoing/AuthClientReplyMessageProcessor.java:34-66 | that reply takes it out of the maps: it is listed nowhere afterwards |
| Sessions.NullUserIsLockedOut | connector/src/main/java/com/linker/connector/messageprocessors/incomming/AuthClientMessageProcessor.java:35-48 | after a null user id a socket stays AUTHENTICATING whatever happens |
| Connectors.NetworkUserService.AddTo | connector/src/main/java/com/linker/connector/NetworkUserService.java:51-56 | appends to the user's list, creating it if needed |
| Connectors.NetworkUserService.RemoveFrom | connector/src/main/java/com/linker/connector/NetworkUserService.java:58-66 | the loop drops every occurrence of the socket, and the key with the last one |
| Connectors.NetworkUserService.Find | connector/src/main/java/com/linker/connector/NetworkUserService.java:68-77 | finds the socket if and only if it is listed under the user |
| Connectors.ConnectorNode.HandlerAdded | connector/src/main/java/com/linker/connector/network/AppSocketHandler.java:64-73 | a new socket starts without user id and NOT_AUTHENTICATED |
| Connectors.ConnectorNode.Authenticate | connector/src/main/java/com/linker/connector/messageprocessors/incomming/AuthClientMessageProcessor.java:35-48 | the AUTH_CLIENT step; throws exactly for a null id of an unauthenticated socket |
| Connectors.ConnectorNode.AuthReply | connector/src/main/java/com/linker/connector/messageprocessors/outgoing/AuthClientReplyMessageProcessor.java:34-66 | the reply step: moves a pending socket to the users and announces it, or drops it; ignores everyone else |
| Connectors.ConnectorNode.HandleIncoming | connector/src/main/java/com/linker/connector/messageprocessors/incomming/DefaultIncomingMessageProcessor.java:22-32 | forwards the message of an authenticated socket in its user's name, and of no other socket |
| Connectors.ConnectorNode.HandleOutgoing | connector/src/main/java/com/linker/connector/messageprocessors/outgoing/DefaultOutgoingMessageProcessor.java:31-53 | reports not-found exactly for reliable messages to sockets that are not listed |
| Connectors.ConnectorNode.HandlerRemoved | connector/src/main/java/com/linker/connector/network/AppSocketHandler.java:76-92 | the closing step: unlists and reports a socket with a nonempty id, and only closes any other |
| ChannelIndex.ConnectorKeepsIndex | connector/src/main/java/com/linker/connector/messageprocessors/outgoing/AuthClientReplyMessageProcessor.java:44-61 | every event a connector queues says just what it did to its own map |
| ChannelIndex.HubStepKeepsInv | processor/src/main/java/com/linker/processor/services/UserChannelService.java:21-40 | with any number of connectors, each with its own ordered queue, every step keeps the index |
| ChannelIndex.ChannelsIndexSessions | processor/src/main/java/com/linker/processor/services/UserChannelService.java:21-40 | in every run the stored channel changed by the queued events is what the connectors list; no stored channel is empty; with empty queues the channel holds exactly the addresses of the user's authenticated sockets |

## Left out

- Threads: every handler is one atomic step, so lost updates of Redis read-modify-write are not modelled, nor a report about a fetched copy that is handled before its row is removed, nor the lock around a fetch.
- Messages are values. In Java a handler overwrites the fields of the one object it was given; the copies differ only because each is serialized when it is sent.
- Handler objects of sockets are represented by their ids, which are never reused; a connector restart that resets the counter is not modelled.
- `UserDisconnectedMessageProcessor` is modelled for the message `handlerRemoved` raises; a client that sends this type itself is not.
- The events of a connector reach the processor in order and are not lost; reports reach the processor.
- Ids, clock readings and random choices are parameters; a new id was never used before. In `Dispatch` all ids of new messages are 0.
- When a delivery throws inside a handler, `Delivery` stores the message handed over under PROCESSOR_ERROR; the Java code stores the message that had arrived. The methods of `Processors` return the exception instead.
- A group message for connectors is one step per named socket in `Delivery`; `GroupFanout` has the loop.
- A MESSAGE that has already been turned into its forwarded form and is processed once more is treated as unsupported.
- The CLOSE_CONNECTION payload sent to a connector is written as CloseConnection with an empty user id.
- FAST messages may be lost, so the conservation results are about RELIABLE ones.
- Domain names are compared exactly, not ignoring case, and blanks are ASCII.
- Kafka has one partition; a record is handled in one action.
- Shortest paths come from a unit-weight search instead of Dijkstra's algorithm; which of several shortest paths is found is left open. A tunnel delivers what its socket was sent, and only the tunnel of a domain logs in under its user id.
- Codecs, Netty, HTTP authentication, the meta server, Spring wiring, logging, the upload of client apps and their cache: an authentication reply is an arbitrary event, graph and client apps are constants shared by all domains.
- A name that starts with "Connector" is taken to be read by a connector. A copy for a name that nobody reads stays in its topic, is never reported and does not come back.
- CopyBound.AtRest: assumes that nobody connects as the user and that the message is not fetched while it is being delivered, because both bring further copies.
- Travel.UserMessageReachesHome: is about users that the ranges assign to a domain; every other user belongs to the domain that asks.
- Processors.ProcessorNode.FetchUntilNoneLeft: assumes that the replies are sent, because a reply that does not go out ends the conversation; FetchMissingMessages does not assume it.
- Dispatch.MessageProcessorService.OnMessageArrived: the message saved after an exception is written as it arrived; the Java code saves the object that the handlers have been changing, under the same id. An exception inside a fetch, other than for its page size, or inside an authentication is not one of its effects.
- Delivery takes every report and every arriving message exactly once. Kafka.CrashTolerantConsumption allows one more handling for each crash between handling a record and noting it. After such a crash neither "exactly one token" for a message to ANY one address nor "never more confirmations than writes" holds.
- Holders.OneHolder: assumes that ids are never used twice, so that only the tunnels bring the message to a further domain.
- That a run of the whole network without input ends: Quiescence has it for each domain.
