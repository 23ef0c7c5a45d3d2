/**
 * The write-behind message log: a FIFO cache of messages, drained by a single-flight
 * flush into an abstract store in batches, and read back by the history query.
 */
module ChatLog {
  import opened Wrappers
  import opened ChatTypes
  import opened Batching
  import opened History

  const DefaultBatchSize: int := 1000
  const DefaultMaxChatLogSize: int := 1000

  /** The current flush task: completed, or still writing the batches it dequeued. */
  datatype FlushState = Completed | Writing(week: int, batches: seq<seq<ChatMessage>>)

  /** Messages a running flush has taken out of the cache and not yet handed to the store. */
  function InFlight(f: FlushState): seq<ChatMessage> {
    match f
    case Completed => []
    case Writing(_, batches) => Flatten(batches)
  }

  /** Whether the store accepted batch i of a flush. */
  predicate AcceptedAt(accepted: seq<bool>, i: nat) {
    i < |accepted| && accepted[i]
  }

  /** The batches among the first n that the store accepted, in order, as stored batches. */
  function Written(week: int, batches: seq<seq<ChatMessage>>, accepted: seq<bool>, n: nat): seq<StoredBatch>
    requires n <= |batches|
  {
    if n == 0 then []
    else if AcceptedAt(accepted, n - 1) then Written(week, batches, accepted, n - 1) + [StoredBatch(week, batches[n - 1])]
    else Written(week, batches, accepted, n - 1)
  }

  /** The messages of the rejected batches among the first n: they are not re-queued. */
  function Dropped(batches: seq<seq<ChatMessage>>, accepted: seq<bool>, n: nat): seq<ChatMessage>
    requires n <= |batches|
  {
    if n == 0 then []
    else if AcceptedAt(accepted, n - 1) then Dropped(batches, accepted, n - 1)
    else Dropped(batches, accepted, n - 1) + batches[n - 1]
  }

  /** Every dequeued message ends up either in the store or among the dropped ones, exactly once. */
  lemma {:induction false} WrittenOrDropped(week: int, batches: seq<seq<ChatMessage>>, accepted: seq<bool>, n: nat)
    requires n <= |batches|
    ensures multiset(StoreMessages(Written(week, batches, accepted, n))) + multiset(Dropped(batches, accepted, n))
         == multiset(FlattenPrefix(batches, n))
  {
    if n > 0 {
      WrittenOrDropped(week, batches, accepted, n - 1);
      if AcceptedAt(accepted, n - 1) {
        AcceptedStep(week, batches, accepted, n);
      }
      MultisetStep(StoreMessages(Written(week, batches, accepted, n - 1)), Dropped(batches, accepted, n - 1),
                   FlattenPrefix(batches, n - 1), batches[n - 1],
                   StoreMessages(Written(week, batches, accepted, n)), Dropped(batches, accepted, n));
    }
  }

  /** An accepted batch adds its messages to the stored ones and nothing to the dropped ones. */
  lemma AcceptedStep(week: int, batches: seq<seq<ChatMessage>>, accepted: seq<bool>, n: nat)
    requires 0 < n <= |batches| && AcceptedAt(accepted, n - 1)
    ensures StoreMessages(Written(week, batches, accepted, n))
         == StoreMessages(Written(week, batches, accepted, n - 1)) + batches[n - 1]
  {
    var tail := [StoredBatch(week, batches[n - 1])];
    StoreMessagesConcat(Written(week, batches, accepted, n - 1), tail);
    assert StoreMessages(tail) == batches[n - 1] + StoreMessages([]);
  }

  /** One more batch, stored or dropped, adds its messages to exactly one side of the count. */
  lemma MultisetStep<T>(stored0: seq<T>, dropped0: seq<T>, taken0: seq<T>, b: seq<T>, stored: seq<T>, dropped: seq<T>)
    requires multiset(stored0) + multiset(dropped0) == multiset(taken0)
    requires (stored == stored0 + b && dropped == dropped0) || (stored == stored0 && dropped == dropped0 + b)
    ensures multiset(stored) + multiset(dropped) == multiset(taken0 + b)
  {
    assert multiset(taken0 + b) == multiset(taken0) + multiset(b);
    if stored == stored0 + b {
      assert multiset(stored) == multiset(stored0) + multiset(b);
    } else {
      assert multiset(dropped) == multiset(dropped0) + multiset(b);
    }
  }

  /** Adding f to the drained messages keeps the count when f went to the store (w) or was dropped (dr). */
  lemma Conserve<T>(stored: seq<T>, lost: seq<T>, pre: seq<T>, drained: seq<T>, w: seq<T>, dr: seq<T>, f: seq<T>)
    requires multiset(stored) + multiset(lost) == multiset(pre) + multiset(drained)
    requires multiset(w) + multiset(dr) == multiset(f)
    ensures multiset(stored + w) + multiset(lost + dr) == multiset(pre) + multiset(drained + f)
  {
    var a, b, c, d := multiset(stored), multiset(lost), multiset(pre), multiset(drained);
    var e, g, h := multiset(w), multiset(dr), multiset(f);
    assert multiset(stored + w) == a + e;
    assert multiset(lost + dr) == b + g;
    assert multiset(drained + f) == d + h;
    assert (a + e) + (b + g) == (a + b) + (e + g);
    assert (c + d) + h == c + (d + h);
  }

  /** A completed flush keeps the count: what it took is now either stored or lost. */
  lemma FlushConserves(stored: seq<ChatMessage>, lost: seq<ChatMessage>, pre: seq<ChatMessage>, drained: seq<ChatMessage>,
                       store: seq<StoredBatch>, week: int, batches: seq<seq<ChatMessage>>, accepted: seq<bool>)
    requires stored == StoreMessages(store)
    requires multiset(stored) + multiset(lost) == multiset(pre) + multiset(drained)
    ensures multiset(StoreMessages(store + Written(week, batches, accepted, |batches|)))
          + multiset(lost + Dropped(batches, accepted, |batches|))
         == multiset(pre) + multiset(drained + Flatten(batches))
  {
    var written := Written(week, batches, accepted, |batches|);
    WrittenOrDropped(week, batches, accepted, |batches|);
    FlattenPrefixAll(batches);
    StoreMessagesConcat(store, written);
    Conserve(stored, lost, pre, drained, StoreMessages(written), Dropped(batches, accepted, |batches|), Flatten(batches));
  }

  /** What the store and the cache hold together is bounded by what existed and what was appended. */
  lemma StoredOrQueuedBound<T>(stored: seq<T>, lost: seq<T>, pre: seq<T>, drained: seq<T>, inFlight: seq<T>,
                               cache: seq<T>, appended: seq<T>)
    requires appended == drained + inFlight + cache
    requires multiset(stored) + multiset(lost) == multiset(pre) + multiset(drained)
    ensures multiset(stored) + multiset(cache) <= multiset(pre) + multiset(appended)
  {
    var s, l, p, d, f, c := multiset(stored), multiset(lost), multiset(pre), multiset(drained), multiset(inFlight), multiset(cache);
    assert multiset(appended) == d + f + c;
    assert s <= s + l;
    assert s + c <= (p + d) + c;
    assert (p + d) + c <= p + (d + f + c);
  }

  /** Cutting the queue into a taken prefix and the rest keeps the appended order. */
  lemma KeepsOrder<T>(appended: seq<T>, drained: seq<T>, queue: seq<T>, taken: seq<T>, rest: seq<T>, k: nat)
    requires appended == drained + [] + queue
    requires k <= |queue| && taken == queue[..k] && rest == queue[k..]
    ensures appended == drained + taken + rest
  {
    assert queue == taken + rest;
  }

  /** Moving the in-flight messages f to the drained ones leaves the whole sequence as it was. */
  lemma Regroup<T>(d: seq<T>, f: seq<T>, c: seq<T>)
    ensures d + f + c == (d + f) + [] + c
  {
  }

  /** When the store accepts every batch, they are written one after another in list order. */
  lemma {:induction false} WrittenAllInOrder(week: int, batches: seq<seq<ChatMessage>>, accepted: seq<bool>, n: nat)
    requires n <= |batches|
    requires forall i :: 0 <= i < n ==> AcceptedAt(accepted, i)
    ensures Written(week, batches, accepted, n) == AsStored(week, batches[..n])
    ensures StoreMessages(Written(week, batches, accepted, n)) == Flatten(batches[..n])
    ensures Dropped(batches, accepted, n) == []
  {
    if n > 0 {
      WrittenAllInOrder(week, batches, accepted, n - 1);
    }
    StoreMessagesAsStored(week, batches[..n]);
  }

  class ESChatLogRepository {
    /** _messagesCache: oldest message first. */
    var cache: seq<ChatMessage>
    var batchSize: int
    var maxChatLogSize: int
    /** _flushTask: its identity (0 is Task.CompletedTask) and its progress. */
    var flushTask: nat
    var flush: FlushState
    /** The abstract store: every bulk-written batch with the week index it went to. */
    var store: seq<StoredBatch>

    /** What the store held before this repository wrote anything. */
    ghost const preexisting: seq<ChatMessage>
    /** Every message ever appended, every message a completed flush took, and those it lost. */
    ghost var appended: seq<ChatMessage>
    ghost var drained: seq<ChatMessage>
    ghost var lost: seq<ChatMessage>

    /** FIFO conservation: nothing is duplicated, reordered or forgotten between cache, flush and store. */
    ghost predicate Valid()
      reads this
    {
      && appended == drained + InFlight(flush) + cache
      && multiset(StoreMessages(store)) + multiset(lost) == multiset(preexisting) + multiset(drained)
    }

    constructor (settings: ChatConfiguration, existing: seq<StoredBatch>)
      ensures Valid()
      ensures cache == [] && flush == Completed && flushTask == 0 && store == existing
      ensures batchSize == settings.batchSize.GetOr(DefaultBatchSize)
      ensures maxChatLogSize == settings.maxChatLogSize.GetOr(DefaultMaxChatLogSize)
      ensures appended == [] && preexisting == StoreMessages(existing)
    {
      cache := [];
      batchSize := settings.batchSize.GetOr(DefaultBatchSize);
      maxChatLogSize := settings.maxChatLogSize.GetOr(DefaultMaxChatLogSize);
      flushTask := 0;
      flush := Completed;
      store := existing;
      preexisting := StoreMessages(existing);
      appended, drained, lost := [], [], [];
    }

    /** A settings change: missing keys fall back to 1000; nothing else changes. */
    method OnSettingsChange(settings: ChatConfiguration)
      requires Valid()
      modifies this
      ensures Valid()
      ensures batchSize == settings.batchSize.GetOr(DefaultBatchSize)
      ensures maxChatLogSize == settings.maxChatLogSize.GetOr(DefaultMaxChatLogSize)
      ensures cache == old(cache) && flush == old(flush) && flushTask == old(flushTask) && store == old(store)
      ensures appended == old(appended) && drained == old(drained) && lost == old(lost)
    {
      batchSize := settings.batchSize.GetOr(DefaultBatchSize);
      maxChatLogSize := settings.maxChatLogSize.GetOr(DefaultMaxChatLogSize);
    }

    /**
     * The state a call to Flush at `now` leaves behind when it found the queue `c`, the
     * flush state `f` and the task `task`: a running flush is returned as it is; otherwise a
     * new task starts, which divides by zero at once for a zero batch size, and else takes
     * its batches off the front of the queue.
     */
    ghost predicate FlushedFrom(c: seq<ChatMessage>, f: FlushState, task: nat, now: Instant)
      reads this
    {
      if f.Writing? then cache == c && flush == f && flushTask == task
      else if batchSize == 0 then cache == c && flush == Completed && flushTask == task + 1
      else
        && cache == c[DequeueCount(|c|, batchSize)..]
        && flush == Writing(GetWeek(now), SplitBatches(c, batchSize))
        && flushTask == task + 1
    }

    /** Appends at the tail; asks for a flush exactly when the queue then holds maxChatLogSize or more. */
    method AddMessageLog(message: ChatMessage, now: Instant)
      requires Valid()
      modifies this
      ensures Valid()
      ensures appended == old(appended) + [message]
      ensures store == old(store) && batchSize == old(batchSize) && maxChatLogSize == old(maxChatLogSize)
      ensures var c := old(cache) + [message];
        if maxChatLogSize <= |c| then FlushedFrom(c, old(flush), old(flushTask), now)
        else cache == c && flush == old(flush) && flushTask == old(flushTask)
    {
      cache := cache + [message];
      appended := appended + [message];
      if maxChatLogSize <= |cache| {
        var _, _ := Flush(now);
      }
    }

    /**
     * Single-flight flush: while the current task is running it is returned and nothing
     * is drained; once it has completed, a new task takes the batches for this flush.
     */
    method Flush(now: Instant) returns (task: nat, faulted: bool)
      requires Valid()
      modifies this
      ensures Valid()
      ensures FlushedFrom(old(cache), old(flush), old(flushTask), now)
      ensures task == flushTask
      ensures faulted <==> old(flush).Completed? && batchSize == 0
      ensures store == old(store) && batchSize == old(batchSize) && maxChatLogSize == old(maxChatLogSize)
      ensures appended == old(appended)
    {
      faulted := false;
      if flush.Completed? {
        flushTask := flushTask + 1;
        if batchSize == 0 {
          faulted := true;
        } else {
          ghost var c0 := cache;
          var batches := TakeBatches();
          flush := Writing(GetWeek(now), batches);
          FlattenSplitBatches(c0, batchSize);
          KeepsOrder(appended, drained, c0, Flatten(batches), cache, DequeueCount(|c0|, batchSize));
        }
      }
      task := flushTask;
    }

    /**
     * The synchronous part of FlushImpl: reads the count once, dequeues the full batches
     * with nested loops, then the remainder batch, which is added even when empty.
     */
    method TakeBatches() returns (batches: seq<seq<ChatMessage>>)
      requires batchSize != 0
      modifies this`cache
      ensures batches == SplitBatches(old(cache), batchSize)
      ensures cache == old(cache)[DequeueCount(|old(cache)|, batchSize)..]
    {
      ghost var c0 := cache;
      var n := |cache|;
      var iteration: int := if batchSize > 0 then n / batchSize else -(n / -batchSize);
      var scrap: int := n - iteration * batchSize;
      TruncatedQuotientCounts(n, batchSize);
      assert iteration == TruncatedQuotient(n, batchSize);
      batches := DequeueFullBatches(iteration);
      ghost var off := FullBatchCount(n, batchSize) * FullWidth(batchSize);
      assert off + scrap == DequeueCount(n, batchSize) <= n;
      SuffixSlices(c0, off, scrap);
      var last := DequeueMany(scrap);
      batches := batches + [last];
    }

    /** The outer loop of FlushImpl: `iteration` rounds of batchSize dequeues each. */
    method DequeueFullBatches(iteration: int) returns (batches: seq<seq<ChatMessage>>)
      requires batchSize != 0
      requires iteration == TruncatedQuotient(|cache|, batchSize)
      modifies this`cache
      ensures var q, w := FullBatchCount(|old(cache)|, batchSize), FullWidth(batchSize);
        q * w <= |old(cache)| && batches == FullBatches(old(cache), q, w) && cache == old(cache)[q * w..]
    {
      ghost var c0 := cache;
      ghost var n := |cache|;
      TruncatedQuotientCounts(n, batchSize);
      ghost var w := FullWidth(batchSize);
      ghost var q := FullBatchCount(n, batchSize);
      LessThanAfterFull(n, batchSize);
      batches := [];
      var i := 0;
      while i < iteration
        invariant iteration > 0 ==> 0 <= i <= iteration == q && w == batchSize
        invariant iteration <= 0 ==> i == 0
        invariant i * w <= n
        invariant batches == FullBatches(c0, i, w)
        invariant cache == c0[i * w..]
      {
        MulMono(i + 1, q, w);
        FullBatchesSnoc(c0, i, w);
        SuffixSlices(c0, i * w, w);
        var batch := DequeueMany(batchSize);
        batches := batches + [batch];
        i := i + 1;
      }
    }

    /** The inner loop of FlushImpl: count TryDequeue calls, oldest first. */
    method DequeueMany(count: int) returns (taken: seq<ChatMessage>)
      requires count <= |cache|
      modifies this`cache
      ensures var k := if count < 0 then 0 else count;
        taken == old(cache)[..k] && cache == old(cache)[k..]
    {
      ghost var c0 := cache;
      taken := [];
      var j := 0;
      while j < count
        invariant if count < 0 then j == 0 else 0 <= j <= count
        invariant j <= |c0|
        invariant taken == c0[..j]
        invariant cache == c0[j..]
      {
        TakeOne(c0, 0, j, taken, cache);
        taken := taken + [cache[0]];
        cache := cache[1..];
        j := j + 1;
      }
    }

    /**
     * The asynchronous rest of FlushImpl: each batch is bulk-written in turn, into the index
     * of the week the flush started in; `accepted` says which writes the store took. A
     * rejected batch is not re-queued. The task then completes.
     */
    method CompleteFlush(accepted: seq<bool>)
      requires Valid()
      modifies this
      ensures Valid()
      ensures cache == old(cache) && flushTask == old(flushTask) && flush == Completed
      ensures batchSize == old(batchSize) && maxChatLogSize == old(maxChatLogSize)
      ensures appended == old(appended)
      ensures old(flush).Completed? ==> store == old(store) && lost == old(lost)
      ensures old(flush).Writing? ==>
        && store == old(store) + Written(old(flush).week, old(flush).batches, accepted, |old(flush).batches|)
        && lost == old(lost) + Dropped(old(flush).batches, accepted, |old(flush).batches|)
    {
      if flush.Writing? {
        var week, batches := flush.week, flush.batches;
        ghost var store0, lost0 := store, lost;
        WriteBatches(week, batches, accepted);
        FlushConserves(StoreMessages(store0), lost0, preexisting, drained, store0, week, batches, accepted);
        Regroup(drained, Flatten(batches), cache);
        drained := drained + Flatten(batches);
        flush := Completed;
      }
    }

    /** The bulk writes of one flush, one per batch in list order; a rejected batch is lost. */
    method WriteBatches(week: int, batches: seq<seq<ChatMessage>>, accepted: seq<bool>)
      modifies this`store, this`lost
      ensures store == old(store) + Written(week, batches, accepted, |batches|)
      ensures lost == old(lost) + Dropped(batches, accepted, |batches|)
    {
      var i := 0;
      while i < |batches|
        invariant 0 <= i <= |batches|
        invariant store == old(store) + Written(week, batches, accepted, i)
        invariant lost == old(lost) + Dropped(batches, accepted, i)
      {
        if i < |accepted| && accepted[i] {
          store := store + [StoredBatch(week, batches[i])];
        } else {
          lost := lost + batches[i];
        }
        i := i + 1;
      }
    }

    /**
     * SeekHistoryMessage over the current cache and store; whatever it returns was appended
     * here or was in the store beforehand, and no message comes back more often than it
     * was appended or stored.
     */
    method SeekHistoryMessage(channel: string, start: Instant, end: Instant, now: Instant, storeReachable: bool)
      returns (r: Result<seq<ChatMessage>, ChatError>)
      requires Valid()
      ensures r == SeekHistoryAsWritten(store, cache, channel, start, end, now, storeReachable)
      ensures r.Success? ==> multiset(r.value) <= multiset(preexisting) + multiset(appended)
    {
      r := SeekHistoryAsWritten(store, cache, channel, start, end, now, storeReachable);
      SeekHistoryAsWrittenSound(store, cache, channel, start, end, now, storeReachable);
      StoredOrQueuedBound(StoreMessages(store), lost, preexisting, drained, InFlight(flush), cache, appended);
    }
  }
}
