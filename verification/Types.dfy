/** The values every component exchanges: addresses, messages and their parts.

A message is a value here. The Java code passes one mutable `Message` object through a handler
and overwrites its fields; a method of this model rebinds a local variable instead. A null string
and a blank string are both written "", because the code only ever tests with `isBlank`. */
module Types {

  datatype Option<+T> = None | Some(value: T)

  /** `connector` is None for an address that only names a domain; `NO_SOCKET` is its socket id. */
  datatype Address = Address(domain: string, connector: Option<string>, socketId: int)

  const NO_SOCKET := -1

  datatype DeliveryType = Any | All

  datatype Feature = Fast | Reliable

  datatype MessageState =
    | Created
    | AddressNotFound
    | NetworkError
    | Processed
    | ProcessorError
    | ConnectorError

  /** One socket of one user, as a group message names it to a connector. */
  datatype ConnectorUserId = ConnectorUserId(userId: string, socketId: int)

  datatype MessageType =
    | MESSAGE
    | MESSAGE_CONFIRMATION
    | GROUP_MESSAGE
    | GROUP_CONNECTOR_MESSAGE
    | INTERNAL_MESSAGE
    | MESSAGE_STATE_CHANGED
    | USER_CONNECTED
    | USER_DISCONNECTED
    | AUTH_CLIENT
    | AUTH_CLIENT_REPLY
    | CLOSE_CONNECTION
    | FETCH_MISSING_MESSAGES_REQUEST
    | FETCH_MISSING_MESSAGES_COMPLETE
    | OTHER

  /** The typed `data` of a message content. The message type follows from the constructor. */
  datatype Payload =
    | MessageRequest(to: string, text: string)
    | MessageForward(sender: string, text: string)
    | MessageConfirmation(reference: string)
    | GroupMessage(recipients: set<string>, text: string)
    | GroupConnectorMessage(connectorUserIds: set<ConnectorUserId>, forward: Payload)
    | InternalMessage(inner: Message)
    | MessageStateChanged(message: Message, newState: MessageState)
    | UserConnected(userId: string)
    | UserDisconnected(userId: string)
    | AuthClient(userId: string)
    | AuthClientReply(userId: string, isAuthenticated: bool)
    | CloseConnection(userId: string)
    | FetchMissingMessagesRequest(count: int)
    | FetchMissingMessagesComplete(leftMissingCount: int)
    | OtherPayload
  {
    function Type(): MessageType {
      match this
      case MessageRequest(_, _) => MESSAGE
      case MessageForward(_, _) => MESSAGE
      case MessageConfirmation(_) => MESSAGE_CONFIRMATION
      case GroupMessage(_, _) => GROUP_MESSAGE
      case GroupConnectorMessage(_, _) => GROUP_CONNECTOR_MESSAGE
      case InternalMessage(_) => INTERNAL_MESSAGE
      case MessageStateChanged(_, _) => MESSAGE_STATE_CHANGED
      case UserConnected(_) => USER_CONNECTED
      case UserDisconnected(_) => USER_DISCONNECTED
      case AuthClient(_) => AUTH_CLIENT
      case AuthClientReply(_, _) => AUTH_CLIENT_REPLY
      case CloseConnection(_) => CLOSE_CONNECTION
      case FetchMissingMessagesRequest(_) => FETCH_MISSING_MESSAGES_REQUEST
      case FetchMissingMessagesComplete(_) => FETCH_MISSING_MESSAGES_COMPLETE
      case OtherPayload => OTHER
    }
  }

  datatype Content = Content(
    data: Payload,
    reference: string,
    feature: Feature,
    confirmationEnabled: bool)

  /** `target` is null until the message is given a domain, then a domain, then one socket. */
  datatype Meta = Meta(
    original: Option<Address>,
    target: Option<Address>,
    ttl: int,
    confirmEnabled: bool,
    deliveryType: DeliveryType)

  datatype Message = Message(
    id: nat,
    content: Content,
    from: string,
    to: string,
    meta: Meta,
    createdAt: int,
    state: MessageState)
  {
    function Type(): MessageType {
      content.data.Type()
    }

    predicate IsReliable() {
      content.feature == Reliable
    }

    function WithTarget(a: Address): Message {
      this.(meta := meta.(target := Some(a)))
    }
  }

  const INITIAL_TTL := 10

  /** `new MessageMeta(original)` and `new MessageMeta(original, target)`. */
  function NewMeta(original: Option<Address>, target: Option<Address>): Meta {
    Meta(original, target, INITIAL_TTL, false, All)
  }

  /** `MessageUtils.createMessageContent(type, data, feature)`: confirmation is enabled by default. */
  function NewContent(data: Payload, feature: Feature): Content {
    Content(data, "", feature, true)
  }

  const SYSTEM := "SYSTEM"
  const PROCESSOR := "Processor"
  const CONNECTOR := "Connector"

  predicate IsSpace(c: char) {
    c == ' ' || c == '\t' || c == '\n' || c == '\r'
  }

  /** `StringUtils.isBlank`. */
  predicate IsBlank(s: string) {
    forall i :: 0 <= i < |s| ==> IsSpace(s[i])
  }

  function LowerChar(c: char): char {
    if 'A' <= c <= 'Z' then c - 'A' + 'a' else c
  }

  /** `StringUtils.startsWithIgnoreCase`, for ASCII prefixes. */
  predicate StartsWithIgnoreCase(s: string, prefix: string) {
    |prefix| <= |s| && forall i :: 0 <= i < |prefix| ==> LowerChar(s[i]) == LowerChar(prefix[i])
  }

  /** `ProcessorUtils.isConnectorUser`. */
  predicate IsConnectorUser(to: string) {
    !IsBlank(to) && StartsWithIgnoreCase(to, CONNECTOR)
  }

  /** `ProcessorUtils.isProcessorMessage`. */
  predicate IsProcessorUser(to: string) {
    !IsBlank(to) && StartsWithIgnoreCase(to, PROCESSOR)
  }

  /** "Connector" and "Processor" are read ignoring case; tabs and line ends are blank. */
  lemma {:induction false} NamesOfParts(s: string)
    ensures IsConnectorUser(s) <==>
            |s| >= 9 && forall i :: 0 <= i < 9 ==> s[i] == "connector"[i] || s[i] == "CONNECTOR"[i]
    ensures IsProcessorUser(s) <==>
            |s| >= 9 && forall i :: 0 <= i < 9 ==> s[i] == "processor"[i] || s[i] == "PROCESSOR"[i]
    ensures IsBlank(" \t\r\n") && IsBlank("") && !IsBlank(" x")
  {
    var lower, upper := "connector", "CONNECTOR";
    var lower2, upper2 := "processor", "PROCESSOR";
    forall i | 0 <= i < 9 && i < |s|
      ensures LowerChar(s[i]) == LowerChar(CONNECTOR[i]) <==> s[i] == lower[i] || s[i] == upper[i]
      ensures LowerChar(s[i]) == LowerChar(PROCESSOR[i]) <==> s[i] == lower2[i] || s[i] == upper2[i]
    {
    }
    if |s| >= 9 && (LowerChar(s[0]) == 'c' || LowerChar(s[0]) == 'p') {
      assert !IsSpace(s[0]);
    }
    assert " x"[1] == 'x' && !IsSpace('x');
  }
}
