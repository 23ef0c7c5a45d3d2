/**
 * The anti-flood event handler: a sliding window of arrival times per user, a jail of
 * release times, and the handler that keeps a jailed user's messages to themselves.
 * Durations are configured in seconds; all times are ticks.
 */
module AntiFlood {
  import opened Wrappers
  import opened ChatTypes

  const DefaultJailDuration: int := 3
  const DefaultWindowDuration: int := 5
  const DefaultWindowNumberOfMessages: int := 10

  /** The three settings the handler keeps, in seconds and messages. */
  datatype FloodSettings = FloodSettings(jailDuration: int, windowDuration: int, windowNumberOfMessages: int)

  /**
   * OnSettingsChange: each setting falls back to its default, and the message threshold is
   * read from the windowDuration key, so the windowNumberOfMessages key is never consulted.
   */
  function ReadSettings(c: ChatConfiguration): (s: FloodSettings)
    ensures s.jailDuration == c.jailDuration.GetOr(DefaultJailDuration)
    ensures s.windowDuration == c.windowDuration.GetOr(DefaultWindowDuration)
    ensures c.windowDuration.Some? ==> s.windowNumberOfMessages == s.windowDuration
    ensures c.windowDuration.None? ==> s.windowNumberOfMessages == DefaultWindowNumberOfMessages
  {
    FloodSettings(
      c.jailDuration.GetOr(DefaultJailDuration),
      c.windowDuration.GetOr(DefaultWindowDuration),
      c.windowDuration.GetOr(DefaultWindowNumberOfMessages))
  }

  /** Whatever the windowNumberOfMessages key says, the settings come out the same. */
  lemma ThresholdKeyIgnored(c: ChatConfiguration, n: Option<int>)
    ensures ReadSettings(c.(windowNumberOfMessages := n)) == ReadSettings(c)
  {
  }

  /** The settings of an empty configuration are 3 s, 5 s and 10 messages. */
  lemma DefaultSettings()
    ensures ReadSettings(ChatConfiguration(None, None, None, None, None, None)) == FloodSettings(3, 5, 10)
  {
  }

  // ---------------------------------------------------------------------------
  // The jail
  // ---------------------------------------------------------------------------

  /** User id to release time (ticks). */
  type Jail = map<string, int>

  /** The jail check is inclusive: a user is jailed up to and including the release tick. */
  predicate InJail(jail: Jail, user: string, now: int) {
    user in jail && jail[user] >= now
  }

  /** The release time Ban stores: a new ban never shortens a running one. */
  function BanRelease(jail: Jail, user: string, release: int): (r: int)
    ensures r >= release
    ensures user in jail ==> r >= jail[user]
    ensures r == release || (user in jail && r == jail[user])
  {
    if user in jail && release < jail[user] then jail[user] else release
  }

  /** The jail after banning `user` until `release`. */
  function Banned(jail: Jail, user: string, release: int): Jail {
    jail[user := BanRelease(jail, user, release)]
  }

  /** The jail after a check at `now`: an expired entry of `user` is removed, nothing else. */
  function AfterJailCheck(jail: Jail, user: string, now: int): Jail {
    if user in jail && jail[user] < now then jail - {user} else jail
  }

  /** A ban keeps every other user's entry, and the banned user's release only grows. */
  lemma BanNeverShortens(jail: Jail, user: string, release: int)
    ensures user in Banned(jail, user, release)
    ensures user in jail ==> Banned(jail, user, release)[user] >= jail[user]
    ensures forall u :: u != user ==> (u in Banned(jail, user, release) <==> u in jail)
    ensures forall u :: u != user && u in jail ==> Banned(jail, user, release)[u] == jail[u]
  {
  }

  /** A banned user stays jailed from the ban until its release tick, inclusive. */
  lemma BannedUntilRelease(jail: Jail, user: string, release: int, t: int)
    requires t <= release
    ensures InJail(Banned(jail, user, release), user, t)
  {
  }

  /** Bans of 1 s, then 10 s, then 1 s at the same instant leave the 10 s release time. */
  lemma BanSequenceKeepsLongest(jail: Jail, user: string, now: int)
    ensures Banned(Banned(Banned(jail, user, now + 1 * TicksPerSecond), user, now + 10 * TicksPerSecond),
                   user, now + 1 * TicksPerSecond)[user]
         == BanRelease(jail, user, now + 10 * TicksPerSecond)
  {
    var j1 := Banned(jail, user, now + 1 * TicksPerSecond);
    var j2 := Banned(j1, user, now + 10 * TicksPerSecond);
    assert j2[user] == BanRelease(jail, user, now + 10 * TicksPerSecond);
  }

  /** The lazy removal is invisible: no check at a later instant can tell it happened. */
  lemma LazyRemovalInvisible(jail: Jail, user: string, now: int, u: string, t: int)
    requires t >= now
    ensures InJail(AfterJailCheck(jail, user, now), u, t) <==> InJail(jail, u, t)
  {
  }

  /** The check removes an entry exactly when it has expired, and only that user's. */
  lemma JailCheckRemovesExpired(jail: Jail, user: string, now: int)
    ensures user in AfterJailCheck(jail, user, now) <==> InJail(jail, user, now)
    ensures forall u :: u != user ==> (u in AfterJailCheck(jail, user, now) <==> u in jail)
  {
  }

  // ---------------------------------------------------------------------------
  // The sliding window
  // ---------------------------------------------------------------------------

  /** A user's arrival queue; a user seen for the first time gets an empty one. */
  function Window(windows: map<string, seq<Instant>>, user: string): seq<Instant> {
    if user in windows then windows[user] else []
  }

  /** The dequeue loop: drop from the front while the front is more than `window` older than `newest`. */
  function Trim(q: seq<Instant>, newest: Instant, window: int): (r: seq<Instant>)
    ensures |r| <= |q|
    ensures |r| > 0 ==> newest - r[0] <= window
  {
    if |q| > 0 && newest - q[0] > window then Trim(q[1..], newest, window) else q
  }

  predicate NonDecreasing(q: seq<Instant>) {
    forall i, j :: 0 <= i <= j < |q| ==> q[i] <= q[j]
  }

  /** Appending an arrival no earlier than every queued one keeps the queue in time order. */
  lemma SnocNonDecreasing(q: seq<Instant>, x: Instant)
    requires NonDecreasing(q)
    requires forall i :: 0 <= i < |q| ==> q[i] <= x
    ensures NonDecreasing(q + [x])
  {
    var s := q + [x];
    forall i, j | 0 <= i <= j < |s| ensures s[i] <= s[j] {
      if j < |q| {
        assert s[i] == q[i] && s[j] == q[j];
      }
    }
  }

  /** A suffix of a queue in time order is in time order. */
  lemma SuffixNonDecreasing(q: seq<Instant>, k: nat)
    requires NonDecreasing(q) && k <= |q|
    ensures NonDecreasing(q[k..])
  {
    forall i, j | 0 <= i <= j < |q[k..]| ensures q[k..][i] <= q[k..][j] {
      assert q[k..][i] == q[k + i] && q[k..][j] == q[k + j];
    }
  }

  /** Trimming keeps a suffix, and stops at an entry within the window (or at the empty queue). */
  lemma {:induction false} TrimSuffix(q: seq<Instant>, newest: Instant, window: int)
    ensures var r := Trim(q, newest, window);
      && |r| <= |q| && r == q[|q| - |r|..]
      && (|r| > 0 ==> newest - r[0] <= window)
      && (forall i :: 0 <= i < |q| - |r| ==> newest - q[i] > window)
    decreases |q|
  {
    if |q| > 0 && newest - q[0] > window {
      TrimSuffix(q[1..], newest, window);
      var r := Trim(q, newest, window);
      assert r == Trim(q[1..], newest, window);
      assert q[1..][|q| - 1 - |r|..] == q[|q| - |r|..];
      forall i | 0 <= i < |q| - |r|
        ensures newest - q[i] > window
      {
        if i > 0 {
          assert q[i] == q[1..][i - 1];
        }
      }
    }
  }

  /** With a non-negative window, the newest arrival is never dropped. */
  lemma TrimKeepsNewest(q: seq<Instant>, newest: Instant, window: int)
    requires window >= 0
    ensures var r := Trim(q + [newest], newest, window);
      |r| > 0 && r[|r| - 1] == newest && |r| <= |q| + 1
  {
    var s := q + [newest];
    TrimSuffix(s, newest, window);
    var r := Trim(s, newest, window);
    assert newest - s[|s| - 1] <= window;
    assert r[|r| - 1] == s[|s| - 1];
  }

  /** With a negative window even the newest arrival is dropped: the queue ends up empty. */
  lemma TrimNegativeEmpties(q: seq<Instant>, newest: Instant, window: int)
    requires window < 0
    requires forall i :: 0 <= i < |q| ==> q[i] <= newest
    ensures Trim(q, newest, window) == []
  {
    TrimSuffix(q, newest, window);
  }

  /** The arrivals at most `window` ticks older than `newest`, in order. */
  function WithinWindow(q: seq<Instant>, newest: Instant, window: int): (r: seq<Instant>)
    ensures forall x :: x in r <==> x in q && newest - x <= window
    ensures |r| <= |q|
  {
    if q == [] then []
    else (if newest - q[0] <= window then [q[0]] else []) + WithinWindow(q[1..], newest, window)
  }

  /** For arrivals in time order, the trimmed queue holds exactly those within the window. */
  lemma {:induction false} TrimIsWithinWindow(q: seq<Instant>, newest: Instant, window: int)
    requires NonDecreasing(q)
    requires forall i :: 0 <= i < |q| ==> q[i] <= newest
    ensures Trim(q, newest, window) == WithinWindow(q, newest, window)
    decreases |q|
  {
    if q != [] {
      assert NonDecreasing(q[1..]) by {
        forall i, j | 0 <= i <= j < |q[1..]|
          ensures q[1..][i] <= q[1..][j]
        {
          assert q[1..][i] == q[i + 1] && q[1..][j] == q[j + 1];
        }
      }
      if newest - q[0] > window {
        TrimIsWithinWindow(q[1..], newest, window);
      } else {
        AllWithinWindow(q, newest, window);
      }
    }
  }

  /** Once the front is within the window, so is every later arrival. */
  lemma {:induction false} AllWithinWindow(q: seq<Instant>, newest: Instant, window: int)
    requires NonDecreasing(q)
    requires |q| > 0 && newest - q[0] <= window
    ensures WithinWindow(q, newest, window) == q
    decreases |q|
  {
    if |q| > 1 {
      assert q[1..][0] == q[1];
      assert NonDecreasing(q[1..]) by {
        forall i, j | 0 <= i <= j < |q[1..]|
          ensures q[1..][i] <= q[1..][j]
        {
          assert q[1..][i] == q[i + 1] && q[1..][j] == q[j + 1];
        }
      }
      AllWithinWindow(q[1..], newest, window);
      assert [q[0]] + q[1..] == q;
    } else {
      assert q[1..] == [];
      assert [q[0]] == q;
    }
  }

  /** Every queue holds arrivals in time order, none later than `last`. */
  ghost predicate WindowsOrdered(windows: map<string, seq<Instant>>, last: Instant) {
    forall u :: u in windows ==>
      NonDecreasing(windows[u]) && forall i :: 0 <= i < |windows[u]| ==> windows[u][i] <= last
  }

  /**
   * An arrival at or after every queued one: the trimmed queue is the reference window, in
   * time order, and each entry lies within the window of the arrival.
   */
  lemma ArrivalWindow(q0: seq<Instant>, now: Instant, window: int)
    requires NonDecreasing(q0)
    requires forall i :: 0 <= i < |q0| ==> q0[i] <= now
    ensures var q := Trim(q0 + [now], now, window);
      && q == WithinWindow(q0 + [now], now, window)
      && NonDecreasing(q)
      && (forall i :: 0 <= i < |q| ==> now - window <= q[i] <= now)
  {
    var s := q0 + [now];
    SnocNonDecreasing(q0, now);
    TrimIsWithinWindow(s, now, window);
    TrimSuffix(s, now, window);
    var q := Trim(s, now, window);
    SuffixNonDecreasing(s, |s| - |q|);
    forall i | 0 <= i < |q| ensures now - window <= q[i] <= now {
      assert q[i] in WithinWindow(s, now, window);
    }
  }

  lemma WindowOf(windows: map<string, seq<Instant>>, last: Instant, user: string)
    requires WindowsOrdered(windows, last)
    ensures NonDecreasing(Window(windows, user))
    ensures forall i :: 0 <= i < |Window(windows, user)| ==> Window(windows, user)[i] <= last
  {
  }

  /** Replacing one user's queue by an ordered one no later than `now` keeps the queues ordered. */
  lemma WindowsOrderedUpdate(windows: map<string, seq<Instant>>, last: Instant, user: string, q: seq<Instant>, now: Instant)
    requires WindowsOrdered(windows, last) && last <= now
    requires NonDecreasing(q) && forall i :: 0 <= i < |q| ==> q[i] <= now
    ensures WindowsOrdered(windows[user := q], now)
  {
    var w := windows[user := q];
    forall u | u in w
      ensures NonDecreasing(w[u]) && forall i :: 0 <= i < |w[u]| ==> w[u][i] <= now
    {
      if u != user {
        assert w[u] == windows[u];
      }
    }
  }

  // ---------------------------------------------------------------------------
  // The context rewrite
  // ---------------------------------------------------------------------------

  /** What OnMessageReceived makes of a jailed user's context. */
  function FloodTag(c: ReceiveContext): (r: ReceiveContext)
    ensures r.dto.metadata == Some(JsonText(r.message.metadata))
    ensures r.message.(metadata := c.message.metadata) == c.message
    ensures r.dto.(metadata := c.dto.metadata) == c.dto
  {
    var meta := c.message.metadata["flood" := JBool(true)];
    ReceiveContext(c.message.(metadata := meta), c.dto.(metadata := Some(JsonText(meta))), Self)
  }

  /** A flagged message goes back to its sender only, and flagging twice changes nothing more. */
  lemma FloodTagProperties(c: ReceiveContext)
    ensures HasFlag(FloodTag(c).destination, Self) && !HasFlag(FloodTag(c).destination, Others)
    ensures FloodTag(c).message.metadata["flood"] == JBool(true)
    ensures forall k :: k in c.message.metadata && k != "flood" ==>
      k in FloodTag(c).message.metadata && FloodTag(c).message.metadata[k] == c.message.metadata[k]
    ensures FloodTag(FloodTag(c)) == FloodTag(c)
  {
    var r := FloodTag(c);
    assert r.message.metadata["flood" := JBool(true)] == r.message.metadata;
    AllIsSelfAndOthers();
  }

  /** The outcome of one arrival on the rate limiter's stream. */
  datatype Arrival =
    | NotSubscribed                       // no pipeline is listening: the arrival is not seen
    | Counted(count: nat, banned: bool)   // the window now holds `count` arrivals
    | WindowFault                         // the loop emptied the queue and Peek threw

  class ChatAntiFlood {
    var jail: Jail
    /** The per-user queues of the live SpamHandler pipeline. */
    var windows: map<string, seq<Instant>>
    var jailDuration: int
    var windowDuration: int
    var windowNumberOfMessages: int
    /** Whether _subscription holds a live pipeline. */
    var subscribed: bool
    var disposed: bool
    /** The timestamp of the latest arrival the pipeline has seen. */
    ghost var lastSeen: Instant

    ghost predicate Valid()
      reads this
    {
      WindowsOrdered(windows, lastSeen)
    }

    function Settings(): FloodSettings
      reads this
    {
      FloodSettings(jailDuration, windowDuration, windowNumberOfMessages)
    }

    constructor (settings: ChatConfiguration)
      ensures Valid()
      ensures Settings() == ReadSettings(settings)
      ensures jail == map[] && windows == map[] && !subscribed && !disposed
    {
      var s := ReadSettings(settings);
      jailDuration, windowDuration, windowNumberOfMessages := s.jailDuration, s.windowDuration, s.windowNumberOfMessages;
      jail, windows := map[], map[];
      subscribed, disposed := false, false;
      lastSeen := 0;
    }

    method OnSettingsChange(settings: ChatConfiguration)
      modifies this`jailDuration, this`windowDuration, this`windowNumberOfMessages
      ensures Settings() == ReadSettings(settings)
      ensures jail == old(jail) && windows == old(windows)
      ensures subscribed == old(subscribed) && disposed == old(disposed)
    {
      var s := ReadSettings(settings);
      jailDuration, windowDuration, windowNumberOfMessages := s.jailDuration, s.windowDuration, s.windowNumberOfMessages;
    }

    /** OnInit: SpamHandler subscribes a new pipeline, whose queues start empty. */
    method OnInit()
      modifies this`subscribed, this`windows
      ensures Valid()
      ensures subscribed && windows == map[]
      ensures jail == old(jail) && Settings() == old(Settings()) && disposed == old(disposed)
    {
      subscribed := true;
      windows := map[];
    }

    /** Ban(user, jailDuration) at `now`: the release time becomes the later of the old and the new one. */
    method Ban(user: string, now: Instant)
      modifies this`jail
      ensures jail == Banned(old(jail), user, now + jailDuration * TicksPerSecond)
    {
      var release := now + jailDuration * TicksPerSecond;
      if user in jail && release < jail[user] {
        jail := jail[user := jail[user]];
      } else {
        jail := jail[user := release];
      }
    }

    /** UserIsInJail: inclusive check at `now`, removing the user's entry if it has expired. */
    method UserIsInJail(user: string, now: Instant) returns (inJail: bool)
      modifies this`jail
      ensures inJail == InJail(old(jail), user, now)
      ensures jail == AfterJailCheck(old(jail), user, now)
    {
      inJail := false;
      if user in jail {
        if jail[user] >= now {
          inJail := true;
        } else {
          jail := jail - {user};
        }
      }
    }

    /** The Enqueue and the dequeue loop of one arrival on the user's queue. */
    method EnqueueAndTrim(user: string, now: Instant, window: int) returns (q: seq<Instant>)
      requires Valid()
      requires lastSeen <= now
      modifies this`windows, this`lastSeen
      ensures Valid() && lastSeen == now
      ensures q == Trim(Window(old(windows), user) + [now], now, window)
      ensures windows == old(windows)[user := q]
      ensures q == WithinWindow(Window(old(windows), user) + [now], now, window)
      ensures forall i :: 0 <= i < |q| ==> now - window <= q[i] <= now
    {
      var q0 := Window(windows, user) + [now];
      q := q0;
      while |q| > 0 && now - q[0] > window
        invariant Trim(q, now, window) == Trim(q0, now, window)
        decreases |q|
      {
        q := q[1..];
      }
      WindowOf(windows, lastSeen, user);
      ArrivalWindow(Window(windows, user), now, window);
      WindowsOrderedUpdate(windows, lastSeen, user, q, now);
      windows := windows[user := q];
      lastSeen := now;
    }

    /**
     * One message of `user` reaching the SpamHandler pipeline at `now`: enqueue, run the
     * dequeue loop, and ban the user when the queue holds more than the threshold. A loop
     * that empties the queue makes Peek throw, which ends the pipeline. Arrivals are stamped
     * by the scheduler's clock, so none is earlier than the last one seen; the user's queue
     * then holds exactly their arrivals within the window of this one.
     */
    method RecordArrival(user: string, now: Instant) returns (r: Arrival)
      requires Valid()
      requires lastSeen <= now
      modifies this`windows, this`jail, this`subscribed, this`lastSeen
      ensures Valid()
      ensures old(subscribed) ==>
        && lastSeen == now
        && user in windows
        && windows[user] == WithinWindow(Window(old(windows), user) + [now], now, windowDuration * TicksPerSecond)
        && forall i :: 0 <= i < |windows[user]| ==> now - windowDuration * TicksPerSecond <= windows[user][i] <= now
      ensures !old(subscribed) ==> r == NotSubscribed && windows == old(windows) && jail == old(jail) && !subscribed
      ensures old(subscribed) ==>
        var q := Trim(Window(old(windows), user) + [now], now, windowDuration * TicksPerSecond);
        && windows == old(windows)[user := q]
        && if |q| == 0 then r == WindowFault && jail == old(jail) && !subscribed
           else
             && r == Counted(|q|, |q| > windowNumberOfMessages)
             && jail == (if |q| > windowNumberOfMessages
                         then Banned(old(jail), user, now + jailDuration * TicksPerSecond)
                         else old(jail))
             && subscribed
      ensures old(subscribed) && windowDuration >= 0 ==> r.Counted? && r.count > 0
    {
      if !subscribed {
        return NotSubscribed;
      }
      var window := windowDuration * TicksPerSecond;
      var q := EnqueueAndTrim(user, now, window);
      if windowDuration >= 0 {
        TrimKeepsNewest(Window(old(windows), user), now, window);
      }
      r := CountAndBan(user, now, q);
    }

    /** Peek on the trimmed queue, then the count check and the ban. */
    method CountAndBan(user: string, now: Instant, q: seq<Instant>) returns (r: Arrival)
      modifies this`jail, this`subscribed
      ensures |q| == 0 ==> r == WindowFault && jail == old(jail) && !subscribed
      ensures |q| > 0 ==>
        && r == Counted(|q|, |q| > windowNumberOfMessages)
        && jail == (if |q| > windowNumberOfMessages
                    then Banned(old(jail), user, now + jailDuration * TicksPerSecond)
                    else old(jail))
        && subscribed == old(subscribed)
    {
      if |q| == 0 {
        subscribed := false;
        return WindowFault;
      }
      var count := |q|;
      if count > windowNumberOfMessages {
        Ban(user, now);
      }
      r := Counted(count, count > windowNumberOfMessages);
    }

    /** OnMessageReceived: a jailed sender's message goes back to them alone, tagged as flood. */
    method OnMessageReceived(ctx: MessageContext, now: Instant)
      modifies this`jail, ctx
      ensures jail == AfterJailCheck(old(jail), old(ctx.message.userInfo.userId), now)
      ensures ctx.Value() == if InJail(old(jail), old(ctx.message.userInfo.userId), now)
                             then FloodTag(old(ctx.Value())) else old(ctx.Value())
    {
      var inJail := UserIsInJail(ctx.message.userInfo.userId, now);
      if inJail {
        ctx.destination := Self;
        var meta := ctx.message.metadata["flood" := JBool(true)];
        ctx.message := ctx.message.(metadata := meta);
        ctx.dto := ctx.dto.(metadata := Some(JsonText(meta)));
      }
    }

    /** OnDisconnected: the user's ban is lifted; their window is kept. */
    method OnDisconnected(user: string)
      modifies this`jail
      ensures jail == old(jail) - {user}
      ensures forall t :: !InJail(jail, user, t)
      ensures forall u, t :: u != user ==> (InJail(jail, u, t) <==> InJail(old(jail), u, t))
    {
      jail := jail - {user};
    }

    /** OnShutDown: the subscription is disposed and released; calling it again changes nothing. */
    method OnShutDown()
      modifies this`subscribed
      ensures !subscribed
    {
      subscribed := false;
    }

    /** Dispose: the first call disposes the subscription; later calls do nothing at all. */
    method Dispose()
      modifies this`subscribed, this`disposed
      ensures disposed
      ensures old(disposed) ==> subscribed == old(subscribed)
      ensures !old(disposed) ==> !subscribed
    {
      if !disposed {
        subscribed := false;
        disposed := true;
      }
    }
  }
}
