/**
 * The chat service: presence of connected peers, the ordered receive pipeline and the
 * history gate. Event handlers, the log repository, the message stream and the network are
 * abstract; every call the service makes to them is recorded, in order, in a trace.
 */
module ChatService {
  import opened Wrappers
  import opened ChatTypes
  import AntiFlood

  /** A connected client: its peer id and the scene (channel) it is in. */
  datatype Peer = Peer(id: int, sceneId: string)

  /** What one registered handler's OnMessageReceived does to the context: None when it throws. */
  type MessageHandler = ReceiveContext -> Option<ReceiveContext>

  /** The calls the service makes to its collaborators. */
  datatype Event =
    | ConnectedBroadcast(users: set<ChatUserInfoDto>)   // "statuschange" with every connected user
    | DisconnectedBroadcast(user: ChatUserInfoDto)      // "statuschange" with the user who left
    | DisconnectHandlerCalled(index: nat, userId: string)
    | MessageHandlerCalled(index: nat)
    | LogAppended(message: ChatMessage)                 // IChatRepository.AddMessageLog
    | Published(message: ChatMessage)                   // the messages stream's OnNext
    | Delivered(dto: ChatMessageDto, destination: Destination)  // the sender callback
    | HistoryRequested(channel: string, start: Instant, end: Instant)

  /** Whether some connected peer already carries this peer id. */
  predicate PeerIdTaken(connected: map<Peer, ChatUserInfoDto>, id: int) {
    exists p :: p in connected && connected[p].peerId == id
  }

  /** The presence invariant: one entry per peer id, stored under its own peer, marked connected. */
  predicate Presence(connected: map<Peer, ChatUserInfoDto>) {
    && (forall p :: p in connected ==> connected[p].peerId == p.id && connected[p].status == Connected)
    && (forall p, q :: p in connected && q in connected && p != q ==> connected[p].peerId != connected[q].peerId)
  }

  /** The calls to the first n message handlers, in registration order. */
  function HandlerCalls(n: nat): (r: seq<Event>)
    ensures |r| == n
    ensures forall k :: 0 <= k < n ==> r[k] == MessageHandlerCalled(k)
  {
    if n == 0 then [] else HandlerCalls(n - 1) + [MessageHandlerCalled(n - 1)]
  }

  /** The calls to the first n disconnect handlers. */
  function DisconnectCalls(n: nat, userId: string): (r: seq<Event>)
    ensures |r| == n
    ensures forall k :: 0 <= k < n ==> r[k] == DisconnectHandlerCalled(k, userId)
  {
    if n == 0 then [] else DisconnectCalls(n - 1, userId) + [DisconnectHandlerCalled(n - 1, userId)]
  }

  /**
   * The context handler k receives when the handlers run from index i over c: each one gets
   * what its predecessor returned; None once one of them has thrown.
   */
  function Ctx(handlers: seq<MessageHandler>, i: nat, k: nat, c: ReceiveContext): Option<ReceiveContext>
    requires i <= k <= |handlers|
    decreases k - i
  {
    if k == i then Some(c)
    else match Ctx(handlers, i, k - 1, c)
      case None => None
      case Some(p) => handlers[k - 1](p)
  }

  /** Starting one handler later from what handler i returned changes no later context. */
  lemma {:induction false} CtxShift(handlers: seq<MessageHandler>, i: nat, c: ReceiveContext, next: ReceiveContext, k: nat)
    requires i < k <= |handlers|
    requires handlers[i](c) == Some(next)
    ensures Ctx(handlers, i, k, c) == Ctx(handlers, i + 1, k, next)
    decreases k - i
  {
    if k > i + 1 {
      CtxShift(handlers, i, c, next, k - 1);
    }
  }

  lemma CtxShiftAll(handlers: seq<MessageHandler>, i: nat, c: ReceiveContext, next: ReceiveContext)
    requires i < |handlers|
    requires handlers[i](c) == Some(next)
    ensures forall k :: i + 1 <= k <= |handlers| ==> Ctx(handlers, i, k, c) == Ctx(handlers, i + 1, k, next)
  {
    forall k | i + 1 <= k <= |handlers| ensures Ctx(handlers, i, k, c) == Ctx(handlers, i + 1, k, next) {
      CtxShift(handlers, i, c, next, k);
    }
  }

  /**
   * RunEventHandler over the handlers from index i: each sees the context the previous one
   * left; the first one that throws stops the run, and its index is the error. A run that
   * gets through delivers what the last handler returned.
   */
  function RunFrom(handlers: seq<MessageHandler>, i: nat, c: ReceiveContext): (r: Result<ReceiveContext, nat>)
    requires i <= |handlers|
    ensures r.Failure? ==>
      && i <= r.error < |handlers|
      && (forall k :: i <= k <= r.error ==> Ctx(handlers, i, k, c).Some?)
      && handlers[r.error](Ctx(handlers, i, r.error, c).value).None?
    ensures r.Success? ==>
      && (forall k :: i <= k <= |handlers| ==> Ctx(handlers, i, k, c).Some?)
      && Ctx(handlers, i, |handlers|, c) == Some(r.value)
    decreases |handlers| - i
  {
    if i == |handlers| then Success(c)
    else match handlers[i](c)
      case None => Failure(i)
      case Some(next) =>
        CtxShiftAll(handlers, i, c, next);
        RunFrom(handlers, i + 1, next)
  }

  /** Handlers that never throw and never touch the context leave it as it was built. */
  lemma {:induction false} RunFromIdentity(handlers: seq<MessageHandler>, i: nat, c: ReceiveContext)
    requires i <= |handlers|
    requires forall k :: i <= k < |handlers| ==> handlers[k](c) == Some(c)
    ensures RunFrom(handlers, i, c) == Success(c)
    decreases |handlers| - i
  {
    if i < |handlers| {
      RunFromIdentity(handlers, i + 1, c);
    }
  }

  /** The message built for `text` from the sender's presence entry. */
  function BuildMessage(peer: Peer, info: ChatUserInfoDto, text: string, now: Instant): (m: ChatMessage)
    ensures m.channel == peer.sceneId && m.date == now && m.text == text
    ensures m.metadata == map[] && m.userInfo.userId == info.userId && m.userInfo.data == info.data
  {
    ChatMessage(peer.sceneId, now, text, map[], UserInfo(info.userId, info.data))
  }

  /** The context handlers start from: the message, its DTO, and destination All. */
  function InitialContext(peer: Peer, info: ChatUserInfoDto, text: string, now: Instant, clock: int): (c: ReceiveContext)
    ensures c.message == BuildMessage(peer, info, text, now)
    ensures c.dto == ChatMessageDto(text, None, clock, info)
    ensures c.destination == All
  {
    ReceiveContext(BuildMessage(peer, info, text, now), ChatMessageDto(text, None, clock, info), All)
  }

  class ChatService {
    var connected: map<Peer, ChatUserInfoDto>
    var loadHistory: bool
    /** Every call to a collaborator so far, oldest first. */
    var trace: seq<Event>

    ghost predicate Valid()
      reads this
    {
      Presence(connected)
    }

    constructor (settings: ChatConfiguration)
      ensures Valid()
      ensures connected == map[] && trace == []
      ensures loadHistory == settings.loadHistory.GetOr(false)
    {
      connected := map[];
      loadHistory := settings.loadHistory.GetOr(false);
      trace := [];
    }

    /** A missing loadHistory key means history is disabled. */
    method OnSettingsChange(settings: ChatConfiguration)
      modifies this`loadHistory
      ensures loadHistory == settings.loadHistory.GetOr(false)
    {
      if settings.loadHistory.None? {
        loadHistory := false;
      } else {
        loadHistory := settings.loadHistory.value;
      }
    }

    /**
     * OnConnected for a peer whose user-info handlers resolved `userId` and `data`: the peer
     * is added, marked connected, and everyone is told, unless its peer id is already present.
     */
    method OnConnected(peer: Peer, userId: string, data: string)
      requires Valid()
      modifies this`connected, this`trace
      ensures Valid()
      ensures PeerIdTaken(old(connected), peer.id) ==> connected == old(connected) && trace == old(trace)
      ensures !PeerIdTaken(old(connected), peer.id) ==>
        && connected == old(connected)[peer := ChatUserInfoDto(userId, peer.id, Connected, data)]
        && trace == old(trace) + [ConnectedBroadcast(connected.Values)]
    {
      var info := ChatUserInfoDto("", peer.id, Unset, "");
      var taken := exists p :: p in connected && connected[p].peerId == info.peerId;
      if !taken {
        info := info.(userId := userId, status := Connected, data := data);
        if peer !in connected {
          connected := connected[peer := info];
        }
        trace := trace + [ConnectedBroadcast(connected.Values)];
      }
    }

    /**
     * OnDisconnected: the peer's entry is removed, broadcast as disconnected, and every
     * disconnect handler is told the user id; `handlerOk[k]` says whether handler k returns.
     */
    method OnDisconnected(peer: Peer, handlerOk: seq<bool>) returns (r: Result<ChatUserInfoDto, ChatError>)
      requires Valid()
      modifies this`connected, this`trace
      ensures Valid()
      ensures peer !in old(connected) ==>
        r == Failure(Raised(InvalidOperationException, ClientNotConnected))
        && connected == old(connected) && trace == old(trace)
      ensures peer in old(connected) ==>
        var info := old(connected)[peer].(status := Disconnected);
        && connected == old(connected) - {peer}
        && var n := FirstFailure(handlerOk, 0);
        && (if n < |handlerOk|
            then r == Failure(Raised(ClientException, HandlerFailed))
                 && trace == old(trace) + [DisconnectedBroadcast(info)] + DisconnectCalls(n + 1, info.userId)
            else r == Success(info)
                 && trace == old(trace) + [DisconnectedBroadcast(info)] + DisconnectCalls(|handlerOk|, info.userId))
    {
      if peer !in connected {
        return Failure(Raised(InvalidOperationException, ClientNotConnected));
      }
      var info := connected[peer];
      connected := connected - {peer};
      info := info.(status := Disconnected);
      trace := trace + [DisconnectedBroadcast(info)];
      ghost var t0 := trace;
      var i := 0;
      while i < |handlerOk|
        modifies this`trace
        invariant 0 <= i <= |handlerOk|
        invariant FirstFailure(handlerOk, i) == FirstFailure(handlerOk, 0)
        invariant trace == t0 + DisconnectCalls(i, info.userId)
      {
        trace := trace + [DisconnectHandlerCalled(i, info.userId)];
        if !handlerOk[i] {
          return Failure(Raised(ClientException, HandlerFailed));
        }
        i := i + 1;
      }
      r := Success(info);
    }

    /**
     * OnMessageReceived from `peer` at `now` (the scene clock reads `clock`): an unknown
     * sender is refused before anything happens; otherwise the handlers run over the context
     * in order, and only if none throws is the final message logged, published, and the final
     * DTO delivered to its final destination, each exactly once and in that order.
     * `streamOk` says whether every subscriber of the message stream returns from OnNext: the
     * anti-flood pipeline does not when its RecordArrival ends in WindowFault (Peek on an
     * empty queue throws InvalidOperationException, which Rx rethrows to the publisher, as
     * the subscription has no error callback). Then the message is logged and published but
     * never delivered.
     */
    method OnMessageReceived(peer: Peer, text: string, now: Instant, clock: int, handlers: seq<MessageHandler>,
                             streamOk: bool)
      returns (r: Result<ReceiveContext, ChatError>)
      requires Valid()
      modifies this`trace
      ensures peer !in connected ==> r == Failure(Raised(ClientException, UserNotFound(peer.id))) && trace == old(trace)
      ensures peer in connected ==>
        var run := RunFrom(handlers, 0, InitialContext(peer, connected[peer], text, now, clock));
        match run
        case Failure(k) =>
          r == Failure(Raised(ClientException, HandlerFailed)) && trace == old(trace) + HandlerCalls(k + 1)
        case Success(c) =>
          if streamOk then
            r == Success(c)
            && trace == old(trace) + HandlerCalls(|handlers|)
                       + [LogAppended(c.message), Published(c.message), Delivered(c.dto, c.destination)]
          else
            r == Failure(Raised(InvalidOperationException, SubscriberFailed))
            && trace == old(trace) + HandlerCalls(|handlers|) + [LogAppended(c.message), Published(c.message)]
    {
      if peer !in connected {
        return Failure(Raised(ClientException, UserNotFound(peer.id)));
      }
      var run := RunHandlers(handlers, InitialContext(peer, connected[peer], text, now, clock));
      if run.Failure? {
        return Failure(Raised(ClientException, HandlerFailed));
      }
      var ctx := run.value;
      trace := trace + [LogAppended(ctx.message)];
      trace := trace + [Published(ctx.message)];
      if !streamOk {
        return Failure(Raised(InvalidOperationException, SubscriberFailed));
      }
      trace := trace + [Delivered(ctx.dto, ctx.destination)];
      r := Success(ctx);
    }

    /** The RunEventHandler loop: each handler's call is recorded before it runs. */
    method RunHandlers(handlers: seq<MessageHandler>, c0: ReceiveContext) returns (run: Result<ReceiveContext, nat>)
      modifies this`trace
      ensures run == RunFrom(handlers, 0, c0)
      ensures run.Failure? ==> trace == old(trace) + HandlerCalls(run.error + 1)
      ensures run.Success? ==> trace == old(trace) + HandlerCalls(|handlers|)
    {
      var ctx := c0;
      var i := 0;
      while i < |handlers|
        invariant 0 <= i <= |handlers|
        invariant RunFrom(handlers, i, ctx) == RunFrom(handlers, 0, c0)
        invariant trace == old(trace) + HandlerCalls(i)
      {
        trace := trace + [MessageHandlerCalled(i)];
        var next := handlers[i](ctx);
        if next.None? {
          return Failure(i);
        }
        ctx := next.value;
        i := i + 1;
      }
      run := Success(ctx);
    }

    /** LoadHistory: refused while history is disabled, else the repository's answer `history`. */
    method LoadHistory(channel: string, start: Instant, end: Instant, history: Result<seq<ChatMessage>, ChatError>)
      returns (r: Result<seq<ChatMessage>, ChatError>)
      modifies this`trace
      ensures !loadHistory ==> r == Failure(Raised(ClientException, HistoryDisabled)) && trace == old(trace)
      ensures loadHistory ==> r == history && trace == old(trace) + [HistoryRequested(channel, start, end)]
    {
      if loadHistory {
        trace := trace + [HistoryRequested(channel, start, end)];
        return history;
      }
      return Failure(Raised(ClientException, HistoryDisabled));
    }

    /** GetConnectedUser: every presence entry once, in no particular order. */
    method GetConnectedUser() returns (users: seq<ChatUserInfoDto>)
      requires Valid()
      ensures |users| == |connected.Keys|
      ensures forall u :: u in users <==> u in connected.Values
      ensures forall i, j :: 0 <= i < j < |users| ==> users[i] != users[j]
    {
      users := [];
      var rest := connected.Keys;
      while rest != {}
        invariant rest <= connected.Keys
        invariant |users| + |rest| == |connected.Keys|
        invariant forall u :: u in users <==> exists p :: p in connected.Keys - rest && connected[p] == u
        invariant forall i, j :: 0 <= i < j < |users| ==> users[i] != users[j]
        invariant forall i :: 0 <= i < |users| ==> forall p :: p in rest ==> connected[p] != users[i]
        decreases |rest|
      {
        var p :| p in rest;
        forall i | 0 <= i < |users|
          ensures users[i] != connected[p]
        {
        }
        users := users + [connected[p]];
        rest := rest - {p};
      }
    }
  }

  /** The index of the first false entry at or after i, or |ok| when there is none. */
  function FirstFailure(ok: seq<bool>, i: nat): (n: nat)
    requires i <= |ok|
    ensures i <= n <= |ok|
    ensures n < |ok| ==> !ok[n]
    ensures forall k :: i <= k < n ==> ok[k]
    decreases |ok| - i
  {
    if i == |ok| then |ok| else if !ok[i] then i else FirstFailure(ok, i + 1)
  }

  /**
   * A peer whose id is not yet present connects and then leaves: the presence map is as it
   * was, and the user announced as gone is the one that connected, now Disconnected, unless
   * a disconnect handler throws.
   */
  method ConnectThenDisconnect(chat: ChatService, peer: Peer, userId: string, data: string, handlerOk: seq<bool>)
    returns (r: Result<ChatUserInfoDto, ChatError>)
    requires chat.Valid()
    modifies chat`connected, chat`trace
    ensures chat.Valid()
    ensures !PeerIdTaken(old(chat.connected), peer.id) ==>
      && chat.connected == old(chat.connected)
      && (FirstFailure(handlerOk, 0) == |handlerOk| ==> r == Success(ChatUserInfoDto(userId, peer.id, Disconnected, data)))
      && (FirstFailure(handlerOk, 0) < |handlerOk| ==> r == Failure(Raised(ClientException, HandlerFailed)))
  {
    ghost var before := chat.connected;
    assert peer in before ==> PeerIdTaken(before, peer.id) by {
      if peer in before {
        assert before[peer].peerId == peer.id;
      }
    }
    chat.OnConnected(peer, userId, data);
    r := chat.OnDisconnected(peer, handlerOk);
    if !PeerIdTaken(before, peer.id) {
      assert chat.connected == before[peer := ChatUserInfoDto(userId, peer.id, Connected, data)] - {peer};
      assert chat.connected == before;
    }
  }

  /** The anti-flood handler as a message handler, given the jail at the time of the call. */
  function AntiFloodHandler(jail: AntiFlood.Jail, now: Instant): MessageHandler {
    (c: ReceiveContext) => Some(if AntiFlood.InJail(jail, c.message.userInfo.userId, now) then AntiFlood.FloodTag(c) else c)
  }

  /**
   * The jail `jail2` of the second message is the one RecordArrival leaves when the first
   * message's count crosses the threshold: Banned of the jail after the handler's check, with
   * `release` standing for now + jailDuration seconds. The lemma takes it as given rather than
   * from a call, since a lemma cannot run the method.
   *
   * The jail is checked by the handlers before the message is published to the rate limiter:
   * the message whose arrival bans its sender is still delivered to All, and the sender's next
   * message, up to the release tick, comes back to the sender alone.
   */
  lemma CrossingMessageDelivered(jail: AntiFlood.Jail, peer: Peer, info: ChatUserInfoDto, text: string,
                                 now: Instant, clock: int, release: int, text2: string, later: Instant, clock2: int)
    requires !AntiFlood.InJail(jail, info.userId, now)
    requires now <= later <= release
    ensures RunFrom([AntiFloodHandler(jail, now)], 0, InitialContext(peer, info, text, now, clock)).Success?
    ensures RunFrom([AntiFloodHandler(jail, now)], 0, InitialContext(peer, info, text, now, clock)).value.destination == All
    ensures var jail2 := AntiFlood.Banned(AntiFlood.AfterJailCheck(jail, info.userId, now), info.userId, release);
      var run := RunFrom([AntiFloodHandler(jail2, later)], 0, InitialContext(peer, info, text2, later, clock2));
      run.Success? && run.value.destination == Self
  {
    var c := InitialContext(peer, info, text, now, clock);
    assert AntiFloodHandler(jail, now)(c) == Some(c);
    assert RunFrom([AntiFloodHandler(jail, now)], 1, c) == Success(c);
    var jail2 := AntiFlood.Banned(AntiFlood.AfterJailCheck(jail, info.userId, now), info.userId, release);
    var c2 := InitialContext(peer, info, text2, later, clock2);
    assert AntiFlood.InJail(jail2, c2.message.userInfo.userId, later);
    assert AntiFloodHandler(jail2, later)(c2) == Some(AntiFlood.FloodTag(c2));
    assert RunFrom([AntiFloodHandler(jail2, later)], 1, AntiFlood.FloodTag(c2)) == Success(AntiFlood.FloodTag(c2));
  }
}
