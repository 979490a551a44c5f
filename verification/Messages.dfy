/** The messages that handlers build out of others, and the TTL that `process` counts down.

`id` and `now` stand for the random id and the clock reading that `Message.builder()` takes. */
module Messages {
  import opened Types

  /** `MessageUtils.touchMessage`. */
  function Touched(m: Message): Message {
    m.(meta := m.meta.(ttl := m.meta.ttl - 1))
  }

  /** `MessageUtils.isMessageAlive`. */
  predicate IsAlive(m: Message) {
    m.meta.ttl > 0
  }

  function DomainOnly(domain: string): Address {
    Address(domain, None, NO_SOCKET)
  }

  /** The INTERNAL envelope of `MessageProcessorService.processCrossDomainMessage`. */
  function Envelope(m: Message, targetDomain: string, id: nat, now: int): Message {
    Message(id, NewContent(InternalMessage(m), m.content.feature), m.from, m.to,
            NewMeta(m.meta.original, Some(DomainOnly(targetDomain))), now, Created)
  }

  /** The wrapper `DomainService.handleInternalMessage` puts around what a tunnel brings: the inner
  message is kept, everything else starts afresh. */
  function Wrapper(inner: Message, id: nat, now: int): Message {
    Message(id, NewContent(InternalMessage(inner), inner.content.feature), inner.from, inner.to,
            NewMeta(inner.meta.original, None), now, Created)
  }

  /** The confirmation `MessageStateChangedMessageProcessor` sends back to the sender. */
  function Confirmation(m: Message, domain: string, processor: string, id: nat, now: int): Message {
    Message(id, NewContent(MessageConfirmation(m.content.reference), Reliable), SYSTEM, m.from,
            NewMeta(Some(Address(domain, Some(processor), NO_SOCKET)), None), now, Created)
  }

  /** What `CustomMessageProcessor.doProcess` does to a user's request before delivering it. */
  function Forwarded(m: Message, text: string): Message {
    m.(content := m.content.(data := MessageForward(m.from, text)),
       meta := m.meta.(confirmEnabled := m.content.confirmationEnabled && !IsBlank(m.content.reference)))
  }

  /** `CustomGroupMessageProcessor.processUserAddressNotFound`. */
  function GroupMiss(group: Message, text: string, user: string, id: nat, now: int): Message {
    Message(id, Content(MessageRequest(user, text), group.content.reference, group.content.feature, false),
            group.from, user, NewMeta(group.meta.original, None), now, Created)
  }

  /** `CustomGroupMessageProcessor.processConnectorUserMessages`. */
  function GroupForConnector(group: Message, text: string, connector: string, users: set<ConnectorUserId>, id: nat,
                             now: int): Message {
    Message(id,
            Content(GroupConnectorMessage(users, MessageForward(group.from, text)), group.content.reference,
                    group.content.feature, false),
            group.from, connector, NewMeta(group.meta.original, None), now, Created)
  }

  /** `CustomGroupMessageProcessor.processOtherDomain`. */
  function GroupPart(group: Message, text: string, domain: string, users: set<string>, id: nat): Message {
    Message(id, NewContent(GroupMessage(users, text), group.content.feature), group.from, PROCESSOR,
            NewMeta(group.meta.original, Some(DomainOnly(domain))), group.createdAt, Created)
  }

  /** `GroupConnectorMessageProcessor.processUser` at the named connector. Its content has
  confirmation enabled again, but its fresh meta never asks the connector to report success. */
  function GroupChild(group: Message, forward: Payload, domain: string, connector: string, user: ConnectorUserId,
                      id: nat, now: int): Message {
    Message(id, Content(forward, group.content.reference, group.content.feature, true), group.from, user.userId,
            NewMeta(group.meta.original, Some(Address(domain, Some(connector), user.socketId))), now, Created)
  }
}
