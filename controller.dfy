/**
 * The chat controller: routes a delivered message by its destination flags, wraps every
 * failure as a client error, and maps history messages to DTOs one for one.
 */
module Controller {
  import opened Wrappers
  import opened ChatTypes
  import CS = ChatService

  /** A packet the routing callback sends: to the whole scene, or back to the requester. */
  datatype Outbound = Broadcast(dto: ChatMessageDto) | Reply(dto: ChatMessageDto)

  /**
   * The routing callback: a missing DTO is an internal error; otherwise the message is
   * broadcast when the destination has the Others flag, then sent back when it has Self.
   */
  function Route(dto: Option<ChatMessageDto>, destination: Destination): (r: Result<seq<Outbound>, ChatError>)
    ensures dto.None? <==> r.Failure?
    ensures r.Failure? ==> r.error == Raised(InvalidOperationException, NullMessageDto)
    ensures dto.Some? ==>
      && (Broadcast(dto.value) in r.value <==> HasFlag(destination, Others))
      && (Reply(dto.value) in r.value <==> HasFlag(destination, Self))
      && (forall o :: o in r.value ==> o.dto == dto.value)
  {
    if dto.None? then Failure(Raised(InvalidOperationException, NullMessageDto))
    else
      var broadcast := if HasFlag(destination, Others) then [Broadcast(dto.value)] else [];
      var reply := if HasFlag(destination, Self) then [Reply(dto.value)] else [];
      Success(broadcast + reply)
  }

  /** The decision table of the three named destinations. */
  lemma RouteTable(dto: ChatMessageDto)
    ensures Route(Some(dto), All) == Success([Broadcast(dto), Reply(dto)])
    ensures Route(Some(dto), Self) == Success([Reply(dto)])
    ensures Route(Some(dto), Others) == Success([Broadcast(dto)])
  {
    AllIsSelfAndOthers();
    assert [Broadcast(dto)] + [Reply(dto)] == [Broadcast(dto), Reply(dto)];
    assert [] + [Reply(dto)] == [Reply(dto)];
    assert [Broadcast(dto)] + [] == [Broadcast(dto)];
  }

  /** `throw new ClientException(ex.Message)`: the reason survives, the type becomes ClientException. */
  function AsClientError(e: ChatError): (r: ChatError)
    ensures r.kind == ClientException && r.reason == e.reason
  {
    Raised(ClientException, e.reason)
  }

  lemma AsClientErrorIdempotent(e: ChatError)
    ensures AsClientError(AsClientError(e)) == AsClientError(e)
    ensures e.kind == ClientException ==> AsClientError(e) == e
  {
  }

  /** The DTO LoadHistory builds for one message; the fields it does not set keep their defaults. */
  function HistoryDto(m: ChatMessage, toUnix: Instant -> int): (d: ChatMessageDto)
    ensures d.text == m.text && d.userInfo.userId == m.userInfo.userId && d.userInfo.data == m.userInfo.data
    ensures d.timeStamp == toUnix(m.date) && d.metadata == None
  {
    ChatMessageDto(m.text, None, toUnix(m.date), ChatUserInfoDto(m.userInfo.userId, 0, Unset, m.userInfo.data))
  }

  /** The DTOs of a history, one per message and in the same order. */
  function HistoryDtos(ms: seq<ChatMessage>, toUnix: Instant -> int): (r: seq<ChatMessageDto>)
    ensures |r| == |ms|
  {
    if ms == [] then [] else [HistoryDto(ms[0], toUnix)] + HistoryDtos(ms[1..], toUnix)
  }

  lemma {:induction false} HistoryDtosPointwise(ms: seq<ChatMessage>, toUnix: Instant -> int)
    ensures |HistoryDtos(ms, toUnix)| == |ms|
    ensures forall i :: 0 <= i < |ms| ==> HistoryDtos(ms, toUnix)[i] == HistoryDto(ms[i], toUnix)
  {
    if ms != [] {
      HistoryDtosPointwise(ms[1..], toUnix);
      forall i | 0 < i < |ms|
        ensures HistoryDtos(ms, toUnix)[i] == HistoryDto(ms[i], toUnix)
      {
        assert ms[1..][i - 1] == ms[i];
      }
    }
  }

  /** Mapping a concatenation maps each part. */
  lemma {:induction false} HistoryDtosConcat(a: seq<ChatMessage>, b: seq<ChatMessage>, toUnix: Instant -> int)
    ensures HistoryDtos(a + b, toUnix) == HistoryDtos(a, toUnix) + HistoryDtos(b, toUnix)
    decreases |a|
  {
    if a == [] {
      assert a + b == b;
    } else {
      assert (a + b)[1..] == a[1..] + b;
      HistoryDtosConcat(a[1..], b, toUnix);
    }
  }

  /** The foreach of LoadHistory that fills the result list. */
  method ToDtos(ms: seq<ChatMessage>, toUnix: Instant -> int) returns (result: seq<ChatMessageDto>)
    ensures result == HistoryDtos(ms, toUnix)
    ensures |result| == |ms|
    ensures forall i :: 0 <= i < |ms| ==> result[i].text == ms[i].text && result[i].userInfo.userId == ms[i].userInfo.userId
  {
    result := [];
    var i := 0;
    while i < |ms|
      invariant 0 <= i <= |ms|
      invariant result == HistoryDtos(ms[..i], toUnix)
    {
      HistoryDtosConcat(ms[..i], [ms[i]], toUnix);
      assert ms[..i + 1] == ms[..i] + [ms[i]];
      result := result + [HistoryDto(ms[i], toUnix)];
      i := i + 1;
    }
    assert ms[..i] == ms;
    HistoryDtosPointwise(ms, toUnix);
  }

  /**
   * Message: the service's receive pipeline with the routing callback as its sender; any
   * failure comes back as a client error.
   */
  method Message(chat: CS.ChatService, peer: CS.Peer, text: string, now: Instant, clock: int,
                 handlers: seq<CS.MessageHandler>, streamOk: bool)
    returns (r: Result<seq<Outbound>, ChatError>)
    requires chat.Valid()
    modifies chat`trace
    ensures peer !in chat.connected ==>
      r == Failure(Raised(ClientException, UserNotFound(peer.id))) && chat.trace == old(chat.trace)
    ensures peer in chat.connected ==>
      var run := CS.RunFrom(handlers, 0, CS.InitialContext(peer, chat.connected[peer], text, now, clock));
      match run
      case Failure(k) =>
        r == Failure(Raised(ClientException, HandlerFailed)) && chat.trace == old(chat.trace) + CS.HandlerCalls(k + 1)
      case Success(c) =>
        if streamOk then
          && r == Route(Some(c.dto), c.destination)
          && r.Success?
          && chat.trace == old(chat.trace) + CS.HandlerCalls(|handlers|)
                           + [CS.LogAppended(c.message), CS.Published(c.message), CS.Delivered(c.dto, c.destination)]
        else
          && r == Failure(Raised(ClientException, SubscriberFailed))
          && chat.trace == old(chat.trace) + CS.HandlerCalls(|handlers|) + [CS.LogAppended(c.message), CS.Published(c.message)]
  {
    var delivered := chat.OnMessageReceived(peer, text, now, clock, handlers, streamOk);
    if delivered.Failure? {
      return Failure(AsClientError(delivered.error));
    }
    r := Route(Some(delivered.value.dto), delivered.value.destination);
  }

  /**
   * LoadHistory for the requester's own channel between two instants (already converted from
   * Unix seconds); `history` is the repository's answer.
   */
  method LoadHistory(chat: CS.ChatService, peer: CS.Peer, start: Instant, end: Instant,
                     history: Result<seq<ChatMessage>, ChatError>, toUnix: Instant -> int)
    returns (r: Result<seq<ChatMessageDto>, ChatError>)
    modifies chat`trace
    ensures !chat.loadHistory ==> r == Failure(Raised(ClientException, HistoryDisabled)) && chat.trace == old(chat.trace)
    ensures chat.loadHistory ==>
      && chat.trace == old(chat.trace) + [CS.HistoryRequested(peer.sceneId, start, end)]
      && match history
         case Failure(e) => r == Failure(AsClientError(e))
         case Success(ms) => r == Success(HistoryDtos(ms, toUnix))
  {
    var messages := chat.LoadHistory(peer.sceneId, start, end, history);
    if messages.Failure? {
      return Failure(AsClientError(messages.error));
    }
    var result := ToDtos(messages.value, toUnix);
    r := Success(result);
  }
}
