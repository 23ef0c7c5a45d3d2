/**
 * Records, DTOs, destination flags, settings and errors shared by the chat core.
 * Instants are DateTime ticks (100 ns units since 0001-01-01), so never negative.
 */
module ChatTypes {
  import opened Wrappers

  type Instant = nat

  const TicksPerSecond: nat := 10_000_000
  const TicksPerDay: nat := 864_000_000_000

  /** A JSON value as far as the core inspects one: handlers only ever add booleans. */
  datatype JsonValue = JBool(b: bool) | JString(s: string) | JNumber(n: int)

  /** The JObject carried by a message. */
  type Metadata = map<string, JsonValue>

  /** The text produced by JObject.ToString(); only its provenance matters here. */
  datatype JsonText = JsonText(fields: Metadata)

  /** Identity copied into every message: the user id and the profile data blob. */
  datatype UserInfo = UserInfo(userId: string, data: string)

  datatype ChatMessage = ChatMessage(
    channel: string,
    date: Instant,
    text: string,
    metadata: Metadata,
    userInfo: UserInfo)

  /** UserStatusDto; Unset is the enum's default value 0, which has no name in the source. */
  datatype UserStatus = Unset | Connected | Disconnected | Error

  datatype ChatUserInfoDto = ChatUserInfoDto(userId: string, peerId: int, status: UserStatus, data: string)

  /** ChatMessageDto; a Metadata string that was never assigned is None. */
  datatype ChatMessageDto = ChatMessageDto(
    text: string,
    metadata: Option<JsonText>,
    timeStamp: int,
    userInfo: ChatUserInfoDto)

  /** DestinationType is a [Flags] enum over a 32-bit integer. */
  type Destination = bv32

  const Self: Destination := 1
  const Others: Destination := 2
  const All: Destination := 3

  predicate HasFlag(d: Destination, flag: Destination) {
    d & flag == flag
  }

  lemma AllIsSelfAndOthers()
    ensures All == Self | Others
    ensures HasFlag(All, Self) && HasFlag(All, Others)
    ensures HasFlag(Self, Self) && !HasFlag(Self, Others)
    ensures HasFlag(Others, Others) && !HasFlag(Others, Self)
  {
  }

  /** ChatMsgReceivedContext: the message, its DTO and the destination, all mutable by handlers. */
  datatype ReceiveContext = ReceiveContext(message: ChatMessage, dto: ChatMessageDto, destination: Destination)

  class MessageContext {
    var message: ChatMessage
    var dto: ChatMessageDto
    var destination: Destination

    constructor (message: ChatMessage, dto: ChatMessageDto, destination: Destination)
      ensures Value() == ReceiveContext(message, dto, destination)
    {
      this.message := message;
      this.dto := dto;
      this.destination := destination;
    }

    function Value(): ReceiveContext
      reads this
    {
      ReceiveContext(message, dto, destination)
    }
  }

  /** The chatConfiguration section of the settings; a missing key is None. */
  datatype ChatConfiguration = ChatConfiguration(
    jailDuration: Option<int>,
    windowDuration: Option<int>,
    windowNumberOfMessages: Option<int>,
    batchSize: Option<int>,
    maxChatLogSize: Option<int>,
    loadHistory: Option<bool>)

  /** The exception types the core throws, and why. */
  datatype ErrorKind = ClientException | InvalidOperationException | DivideByZeroException

  datatype Reason =
    | UserNotFound(peerId: int)
    | HandlerFailed
    | ClientNotConnected
    | HistoryDisabled
    | DatabaseNotFound
    | NullMessageDto
    | SubscriberFailed      // a subscriber of the message stream threw from OnNext

  /** An exception: its type and why it was raised. */
  datatype ChatError = Raised(kind: ErrorKind, reason: Reason)
}
