/**
 * The history query: weekly index buckets, the date/channel filters, the abstract
 * Elasticsearch store and the merge of store results with the in-memory cache.
 */
module History {
  import opened Wrappers
  import opened ChatTypes
  import opened Batching

  const WeekTicks: nat := 7 * TicksPerDay

  /** Week number of an instant: its ticks divided by the ticks of seven days. */
  function GetWeek(d: Instant): (w: nat)
    ensures w * WeekTicks <= d < (w + 1) * WeekTicks
  {
    d / WeekTicks
  }

  lemma WeekMonotone(a: Instant, b: Instant)
    requires a <= b
    ensures GetWeek(a) <= GetWeek(b)
  {
  }

  /**
   * The week indexes searched for [start, end] as the source computes them:
   * Range(week(start), count) with count = week(end) - week(start), or 1 when that is 0.
   * (Range throws on a negative count; its only caller passes start <= end.)
   */
  function GetWeeksAsWritten(start: Instant, end: Instant): (weeks: seq<int>)
    requires start <= end
    ensures |weeks| >= 1 && weeks[0] == GetWeek(start)
    ensures |weeks| == if GetWeek(end) == GetWeek(start) then 1 else GetWeek(end) - GetWeek(start)
    ensures forall i :: 0 <= i < |weeks| ==> weeks[i] == GetWeek(start) + i
  {
    WeekMonotone(start, end);
    var count := GetWeek(end) - GetWeek(start);
    seq(if count == 0 then 1 else count, i => GetWeek(start) + i)
  }

  /** Every week from week(start) to week(end), both included. */
  function GetWeeks(start: Instant, end: Instant): (weeks: seq<int>)
    requires start <= end
    ensures |weeks| == GetWeek(end) - GetWeek(start) + 1
    ensures forall i :: 0 <= i < |weeks| ==> weeks[i] == GetWeek(start) + i
  {
    WeekMonotone(start, end);
    seq(GetWeek(end) - GetWeek(start) + 1, i => GetWeek(start) + i)
  }

  /** The corrected list names exactly the weeks the range touches. */
  lemma GetWeeksCovers(start: Instant, end: Instant, w: int)
    requires start <= end
    ensures w in GetWeeks(start, end) <==> GetWeek(start) <= w <= GetWeek(end)
  {
    var weeks := GetWeeks(start, end);
    if GetWeek(start) <= w <= GetWeek(end) {
      assert weeks[w - GetWeek(start)] == w;
    }
  }

  /** As written, a range that crosses into a later week never searches the week of its end. */
  lemma GetWeeksAsWrittenMissesLastWeek(start: Instant, end: Instant)
    requires start <= end
    requires GetWeek(start) < GetWeek(end)
    ensures GetWeek(end) !in GetWeeksAsWritten(start, end)
  {
  }

  /** The filter of ESQuery and Memory: same channel and lo <= date <= hi. */
  predicate InRange(m: ChatMessage, channel: string, lo: Instant, hi: Instant) {
    m.channel == channel && lo <= m.date <= hi
  }

  function Select(msgs: seq<ChatMessage>, channel: string, lo: Instant, hi: Instant): (r: seq<ChatMessage>)
    ensures |r| <= |msgs|
    ensures forall m :: m in r ==> InRange(m, channel, lo, hi)
  {
    if msgs == [] then []
    else (if InRange(msgs[0], channel, lo, hi) then [msgs[0]] else []) + Select(msgs[1..], channel, lo, hi)
  }

  /** The filter keeps exactly the messages in range, each as often as in its input. */
  lemma {:induction false} SelectSpec(msgs: seq<ChatMessage>, channel: string, lo: Instant, hi: Instant)
    ensures forall m :: m in Select(msgs, channel, lo, hi) <==> m in msgs && InRange(m, channel, lo, hi)
    ensures multiset(Select(msgs, channel, lo, hi)) <= multiset(msgs)
    ensures forall m :: InRange(m, channel, lo, hi) ==>
      multiset(Select(msgs, channel, lo, hi))[m] == multiset(msgs)[m]
  {
    if msgs != [] {
      SelectSpec(msgs[1..], channel, lo, hi);
      assert msgs == [msgs[0]] + msgs[1..];
    }
  }

  /** A batch as the store holds it: the week index it was written to and its documents. */
  datatype StoredBatch = StoredBatch(week: int, messages: seq<ChatMessage>)

  function StoreMessages(store: seq<StoredBatch>): seq<ChatMessage> {
    if store == [] then [] else store[0].messages + StoreMessages(store[1..])
  }

  lemma {:induction false} StoreMessagesConcat(a: seq<StoredBatch>, b: seq<StoredBatch>)
    ensures StoreMessages(a + b) == StoreMessages(a) + StoreMessages(b)
    decreases |a|
  {
    if a == [] {
      assert a + b == b;
    } else {
      assert (a + b)[1..] == a[1..] + b;
      StoreMessagesConcat(a[1..], b);
    }
  }

  /** One bulk write per batch, all into the index of `week`. */
  function AsStored(week: int, batches: seq<seq<ChatMessage>>): (r: seq<StoredBatch>)
    ensures |r| == |batches|
    ensures forall i :: 0 <= i < |r| ==> r[i] == StoredBatch(week, batches[i])
  {
    if batches == [] then [] else [StoredBatch(week, batches[0])] + AsStored(week, batches[1..])
  }

  lemma {:induction false} StoreMessagesAsStored(week: int, batches: seq<seq<ChatMessage>>)
    ensures StoreMessages(AsStored(week, batches)) == Flatten(batches)
    decreases |batches|
  {
    if batches != [] {
      StoreMessagesAsStored(week, batches[1..]);
    }
  }

  /** The term query on channel.keyword: the documents of one channel, in store order. */
  function OnChannel(msgs: seq<ChatMessage>, channel: string): seq<ChatMessage> {
    if msgs == [] then []
    else (if msgs[0].channel == channel then [msgs[0]] else []) + OnChannel(msgs[1..], channel)
  }

  /** The search over the listed week indexes; indexes that do not exist are ignored. */
  function IndexedDocuments(store: seq<StoredBatch>, channel: string, weeks: seq<int>): seq<ChatMessage> {
    if store == [] then []
    else
      (if store[0].week in weeks then OnChannel(store[0].messages, channel) else [])
      + IndexedDocuments(store[1..], channel, weeks)
  }

  lemma {:induction false} OnChannelSpec(msgs: seq<ChatMessage>, channel: string)
    ensures forall m :: m in OnChannel(msgs, channel) <==> m in msgs && m.channel == channel
    ensures multiset(OnChannel(msgs, channel)) <= multiset(msgs)
  {
    if msgs != [] {
      OnChannelSpec(msgs[1..], channel);
      assert msgs == [msgs[0]] + msgs[1..];
    }
  }

  /** Whatever the search returns was stored, on that channel, and at most as often as stored. */
  lemma {:induction false} IndexedDocumentsSound(store: seq<StoredBatch>, channel: string, weeks: seq<int>)
    ensures forall m :: m in IndexedDocuments(store, channel, weeks) ==> m in StoreMessages(store) && m.channel == channel
    ensures multiset(IndexedDocuments(store, channel, weeks)) <= multiset(StoreMessages(store))
  {
    if store != [] {
      IndexedDocumentsSound(store[1..], channel, weeks);
      OnChannelSpec(store[0].messages, channel);
    }
  }

  /** Each batch sits in the index of the week of its messages' dates. */
  ghost predicate IndexedByDate(store: seq<StoredBatch>) {
    forall i, m :: 0 <= i < |store| && m in store[i].messages ==> store[i].week == GetWeek(m.date)
  }

  lemma {:induction false} IndexedDocumentsComplete(store: seq<StoredBatch>, channel: string, weeks: seq<int>, m: ChatMessage)
    requires IndexedByDate(store)
    requires m in StoreMessages(store) && m.channel == channel && GetWeek(m.date) in weeks
    ensures m in IndexedDocuments(store, channel, weeks)
  {
    assert store != [];
    OnChannelSpec(store[0].messages, channel);
    if m !in store[0].messages {
      assert IndexedByDate(store[1..]) by {
        forall i, x | 0 <= i < |store[1..]| && x in store[1..][i].messages
          ensures store[1..][i].week == GetWeek(x.date)
        {
          assert store[1..][i] == store[i + 1];
        }
      }
      IndexedDocumentsComplete(store[1..], channel, weeks, m);
    } else {
      assert store[0].week == GetWeek(m.date);
    }
  }

  /** The store side of a history request over [lo, hi], for a given list of week indexes. */
  function StoreQueryOver(store: seq<StoredBatch>, channel: string, weeks: seq<int>, lo: Instant, hi: Instant): seq<ChatMessage> {
    Select(IndexedDocuments(store, channel, weeks), channel, lo, hi)
  }

  /** ESQuery with every week of [lo, hi] searched. */
  function StoreQuery(store: seq<StoredBatch>, channel: string, lo: Instant, hi: Instant): seq<ChatMessage>
    requires lo <= hi
  {
    StoreQueryOver(store, channel, GetWeeks(lo, hi), lo, hi)
  }

  /** ESQuery as written, searching GetWeeksAsWritten(lo, hi). */
  function StoreQueryAsWritten(store: seq<StoredBatch>, channel: string, lo: Instant, hi: Instant): seq<ChatMessage>
    requires lo <= hi
  {
    StoreQueryOver(store, channel, GetWeeksAsWritten(lo, hi), lo, hi)
  }

  /**
   * With batches indexed by their messages' week, the store query returns exactly the
   * stored messages of the channel dated within [lo, hi].
   */
  lemma StoreQueryComplete(store: seq<StoredBatch>, channel: string, lo: Instant, hi: Instant)
    requires lo <= hi
    requires IndexedByDate(store)
    ensures forall m :: m in StoreQuery(store, channel, lo, hi) <==> m in StoreMessages(store) && InRange(m, channel, lo, hi)
  {
    var weeks := GetWeeks(lo, hi);
    var docs := IndexedDocuments(store, channel, weeks);
    SelectSpec(docs, channel, lo, hi);
    IndexedDocumentsSound(store, channel, weeks);
    forall m | m in StoreMessages(store) && InRange(m, channel, lo, hi)
      ensures m in StoreQuery(store, channel, lo, hi)
    {
      WeekMonotone(lo, m.date);
      WeekMonotone(m.date, hi);
      GetWeeksCovers(lo, hi, GetWeek(m.date));
      IndexedDocumentsComplete(store, channel, weeks, m);
    }
  }

  /** The date of the oldest cached message, or now when the cache is empty. */
  function Boundary(cache: seq<ChatMessage>, now: Instant): Instant {
    if cache == [] then now else cache[0].date
  }

  function Min(a: Instant, b: Instant): Instant { if a <= b then a else b }
  function Max(a: Instant, b: Instant): Instant { if a <= b then b else a }

  // ----- ordering by date (LINQ OrderBy is a stable sort) -----

  ghost predicate SortedByDate(s: seq<ChatMessage>) {
    forall i, j :: 0 <= i < j < |s| ==> s[i].date <= s[j].date
  }

  /** Puts x before the first element dated at or after it. */
  function Insert(x: ChatMessage, t: seq<ChatMessage>): (r: seq<ChatMessage>)
    ensures |r| == |t| + 1
  {
    if t == [] || x.date <= t[0].date then [x] + t else [t[0]] + Insert(x, t[1..])
  }

  function SortByDate(s: seq<ChatMessage>): (r: seq<ChatMessage>)
    ensures |r| == |s|
  {
    if s == [] then [] else Insert(s[0], SortByDate(s[1..]))
  }

  /** The messages of s dated d, in their order in s. */
  function AtDate(s: seq<ChatMessage>, d: Instant): seq<ChatMessage> {
    if s == [] then []
    else if s[0].date == d then [s[0]] + AtDate(s[1..], d)
    else AtDate(s[1..], d)
  }

  lemma {:induction false} InsertMultiset(x: ChatMessage, t: seq<ChatMessage>)
    ensures multiset(Insert(x, t)) == multiset{x} + multiset(t)
    decreases |t|
  {
    if t != [] && x.date > t[0].date {
      InsertMultiset(x, t[1..]);
      assert t == [t[0]] + t[1..];
    }
  }

  lemma SortedCons(h: ChatMessage, r: seq<ChatMessage>)
    requires SortedByDate(r)
    requires r == [] || h.date <= r[0].date
    ensures SortedByDate([h] + r)
  {
    var s := [h] + r;
    forall i, j | 0 <= i < j < |s| ensures s[i].date <= s[j].date {
      if i == 0 && j > 1 {
        assert s[j] == r[j - 1] && r[0].date <= r[j - 1].date;
      }
    }
  }

  lemma {:induction false} InsertSorted(x: ChatMessage, t: seq<ChatMessage>)
    requires SortedByDate(t)
    ensures SortedByDate(Insert(x, t))
    ensures Insert(x, t)[0] == x || Insert(x, t)[0] == t[0]
    decreases |t|
  {
    if t == [] || x.date <= t[0].date {
      SortedCons(x, t);
    } else {
      InsertSorted(x, t[1..]);
      SortedCons(t[0], Insert(x, t[1..]));
    }
  }

  /** Inserting x adds x to the messages of its own date and to no other date's. */
  lemma {:induction false} InsertAtDate(x: ChatMessage, t: seq<ChatMessage>, d: Instant)
    ensures AtDate(Insert(x, t), d) == if x.date == d then [x] + AtDate(t, d) else AtDate(t, d)
    decreases |t|
  {
    if t == [] || x.date <= t[0].date {
      assert ([x] + t)[1..] == t;
    } else {
      var rest := Insert(x, t[1..]);
      InsertAtDate(x, t[1..], d);
      assert ([t[0]] + rest)[1..] == rest;
    }
  }

  /** The sort orders by date, keeps every message, and keeps equal dates in input order. */
  lemma {:induction false} SortByDateProperties(s: seq<ChatMessage>)
    ensures SortedByDate(SortByDate(s))
    ensures multiset(SortByDate(s)) == multiset(s)
    ensures forall d :: AtDate(SortByDate(s), d) == AtDate(s, d)
  {
    if s != [] {
      SortByDateProperties(s[1..]);
      InsertSorted(s[0], SortByDate(s[1..]));
      InsertMultiset(s[0], SortByDate(s[1..]));
      assert s == [s[0]] + s[1..];
      forall d ensures AtDate(SortByDate(s), d) == AtDate(s, d) {
        InsertAtDate(s[0], SortByDate(s[1..]), d);
      }
    }
  }

  /** Input that is already in date order comes out unchanged. */
  lemma {:induction false} SortByDateOfSorted(s: seq<ChatMessage>)
    requires SortedByDate(s)
    ensures SortByDate(s) == s
  {
    if s != [] {
      SortByDateOfSorted(s[1..]);
      assert s == [s[0]] + s[1..];
    }
  }

  // ----- SeekHistoryMessage -----

  /** Lower and upper end of a range given in either order. */
  function Lo(start: Instant, end: Instant): Instant { if end < start then end else start }
  function Hi(start: Instant, end: Instant): Instant { if end < start then start else end }

  /** The cache scan: taken when boundary <= hi, over [max(lo, boundary), hi]. */
  function CachePart(cache: seq<ChatMessage>, channel: string, lo: Instant, hi: Instant, boundary: Instant): (r: seq<ChatMessage>)
    ensures boundary > hi ==> r == []
    ensures forall m :: m in r ==> InRange(m, channel, lo, hi) && boundary <= m.date
  {
    if boundary <= hi then Select(cache, channel, Max(lo, boundary), hi) else []
  }

  /** The store side as written: asked only when boundary > lo, over [lo, min(hi, boundary)]. */
  function StorePartAsWritten(store: seq<StoredBatch>, channel: string, lo: Instant, hi: Instant, boundary: Instant): (r: seq<ChatMessage>)
    requires lo <= hi
    ensures boundary <= lo ==> r == []
    ensures forall m :: m in r ==> InRange(m, channel, lo, hi) && m.date <= boundary
  {
    if boundary > lo then StoreQueryAsWritten(store, channel, lo, Min(hi, boundary)) else []
  }

  /** The store side with both corrections: asked when boundary >= lo, over every week of the range. */
  function StorePart(store: seq<StoredBatch>, channel: string, lo: Instant, hi: Instant, boundary: Instant): (r: seq<ChatMessage>)
    requires lo <= hi
    ensures boundary < lo ==> r == []
    ensures forall m :: m in r ==> InRange(m, channel, lo, hi) && m.date <= boundary
  {
    if boundary >= lo then StoreQuery(store, channel, lo, Min(hi, boundary)) else []
  }

  /** SeekHistoryMessage exactly as written (week list and store guard included). */
  function SeekHistoryAsWritten(store: seq<StoredBatch>, cache: seq<ChatMessage>, channel: string,
                                start: Instant, end: Instant, now: Instant, storeReachable: bool): (r: Result<seq<ChatMessage>, ChatError>)
    ensures r.Failure? ==> r.error == Raised(ClientException, DatabaseNotFound)
    ensures r.Success? ==> SortedByDate(r.value)
  {
    var lo, hi, b := Lo(start, end), Hi(start, end), Boundary(cache, now);
    if b > lo && !storeReachable then Failure(Raised(ClientException, DatabaseNotFound))
    else
      var parts := StorePartAsWritten(store, channel, lo, hi, b) + CachePart(cache, channel, lo, hi, b);
      SortByDateProperties(parts);
      Success(SortByDate(parts))
  }

  /** SeekHistoryMessage with the corrected week list and the inclusive store guard. */
  function SeekHistory(store: seq<StoredBatch>, cache: seq<ChatMessage>, channel: string,
                       start: Instant, end: Instant, now: Instant, storeReachable: bool): (r: Result<seq<ChatMessage>, ChatError>)
    ensures r.Failure? ==> r.error == Raised(ClientException, DatabaseNotFound)
    ensures r.Success? ==> SortedByDate(r.value)
  {
    var lo, hi, b := Lo(start, end), Hi(start, end), Boundary(cache, now);
    if b >= lo && !storeReachable then Failure(Raised(ClientException, DatabaseNotFound))
    else
      var parts := StorePart(store, channel, lo, hi, b) + CachePart(cache, channel, lo, hi, b);
      SortByDateProperties(parts);
      Success(SortByDate(parts))
  }

  // ----- properties of the query as written -----

  /** As written, a reversed range gives the same answer. */
  lemma SeekHistoryAsWrittenSymmetric(store: seq<StoredBatch>, cache: seq<ChatMessage>, channel: string,
                                      start: Instant, end: Instant, now: Instant, storeReachable: bool)
    ensures SeekHistoryAsWritten(store, cache, channel, start, end, now, storeReachable)
         == SeekHistoryAsWritten(store, cache, channel, end, start, now, storeReachable)
  {
  }

  /**
   * As written, the query fails only when the cache boundary is strictly after the range's
   * lower end and the store cannot answer; otherwise the answer is the store part followed by
   * the cache part, stably sorted by date.
   */
  lemma SeekHistoryAsWrittenMerge(store: seq<StoredBatch>, cache: seq<ChatMessage>, channel: string,
                                  start: Instant, end: Instant, now: Instant, storeReachable: bool)
    ensures var r := SeekHistoryAsWritten(store, cache, channel, start, end, now, storeReachable);
      var lo, hi, b := Lo(start, end), Hi(start, end), Boundary(cache, now);
      var parts := StorePartAsWritten(store, channel, lo, hi, b) + CachePart(cache, channel, lo, hi, b);
      && (r.Failure? <==> !storeReachable && b > lo)
      && (r.Success? ==>
            && multiset(r.value) == multiset(parts)
            && (forall d :: AtDate(r.value, d) == AtDate(parts, d)))
  {
    var lo, hi, b := Lo(start, end), Hi(start, end), Boundary(cache, now);
    SortByDateProperties(StorePartAsWritten(store, channel, lo, hi, b) + CachePart(cache, channel, lo, hi, b));
  }

  lemma StorePartAsWrittenSound(store: seq<StoredBatch>, channel: string, lo: Instant, hi: Instant, b: Instant)
    requires lo <= hi
    ensures forall m :: m in StorePartAsWritten(store, channel, lo, hi, b) ==> m in StoreMessages(store)
    ensures multiset(StorePartAsWritten(store, channel, lo, hi, b)) <= multiset(StoreMessages(store))
  {
    if b > lo {
      var weeks := GetWeeksAsWritten(lo, Min(hi, b));
      IndexedDocumentsSound(store, channel, weeks);
      SelectSpec(IndexedDocuments(store, channel, weeks), channel, lo, Min(hi, b));
    }
  }

  /**
   * As written, every message returned was stored or cached, lies in the normalised range on
   * the channel, and no message is returned more often than it is held.
   */
  lemma SeekHistoryAsWrittenSound(store: seq<StoredBatch>, cache: seq<ChatMessage>, channel: string,
                                  start: Instant, end: Instant, now: Instant, storeReachable: bool)
    ensures var r := SeekHistoryAsWritten(store, cache, channel, start, end, now, storeReachable);
      r.Success? ==>
        && (forall m :: m in r.value ==>
              (m in StoreMessages(store) || m in cache) && InRange(m, channel, Lo(start, end), Hi(start, end)))
        && multiset(r.value) <= multiset(StoreMessages(store)) + multiset(cache)
  {
    var lo, hi, b := Lo(start, end), Hi(start, end), Boundary(cache, now);
    var sp, cp := StorePartAsWritten(store, channel, lo, hi, b), CachePart(cache, channel, lo, hi, b);
    SortByDateProperties(sp + cp);
    StorePartAsWrittenSound(store, channel, lo, hi, b);
    CachePartSound(cache, channel, lo, hi, b);
    var r := SortByDate(sp + cp);
    assert multiset(r) == multiset(sp) + multiset(cp);
    forall m | m in r ensures m in sp || m in cp {
      assert m in multiset(r);
    }
  }

  /** Searching more week indexes never finds fewer documents. */
  lemma {:induction false} IndexedDocumentsMonotone(store: seq<StoredBatch>, channel: string, w1: seq<int>, w2: seq<int>)
    requires forall w :: w in w1 ==> w in w2
    ensures multiset(IndexedDocuments(store, channel, w1)) <= multiset(IndexedDocuments(store, channel, w2))
  {
    if store != [] {
      IndexedDocumentsMonotone(store[1..], channel, w1, w2);
    }
  }

  /** Filtering keeps the sub-multiset order between two inputs. */
  lemma SelectMonotone(a: seq<ChatMessage>, b: seq<ChatMessage>, channel: string, lo: Instant, hi: Instant)
    requires multiset(a) <= multiset(b)
    ensures multiset(Select(a, channel, lo, hi)) <= multiset(Select(b, channel, lo, hi))
  {
    SelectSpec(a, channel, lo, hi);
    SelectSpec(b, channel, lo, hi);
    forall m ensures multiset(Select(a, channel, lo, hi))[m] <= multiset(Select(b, channel, lo, hi))[m] {
      if !InRange(m, channel, lo, hi) {
        assert m !in Select(a, channel, lo, hi);
      }
    }
  }

  /** Every week the source lists is one the corrected list also names. */
  lemma GetWeeksAsWrittenWithin(start: Instant, end: Instant)
    requires start <= end
    ensures forall w :: w in GetWeeksAsWritten(start, end) ==> w in GetWeeks(start, end)
  {
    WeekMonotone(start, end);
    forall w | w in GetWeeksAsWritten(start, end) ensures w in GetWeeks(start, end) {
      GetWeeksCovers(start, end, w);
    }
  }

  /**
   * The two faults only lose messages: whenever the corrected query answers, the query as
   * written answers too, with a sub-multiset of the corrected answer.
   */
  lemma SeekHistoryAsWrittenWithinCorrected(store: seq<StoredBatch>, cache: seq<ChatMessage>, channel: string,
                                            start: Instant, end: Instant, now: Instant, storeReachable: bool)
    ensures var ra := SeekHistoryAsWritten(store, cache, channel, start, end, now, storeReachable);
      var rc := SeekHistory(store, cache, channel, start, end, now, storeReachable);
      rc.Success? ==> ra.Success? && multiset(ra.value) <= multiset(rc.value)
  {
    var lo, hi, b := Lo(start, end), Hi(start, end), Boundary(cache, now);
    var sa, sc := StorePartAsWritten(store, channel, lo, hi, b), StorePart(store, channel, lo, hi, b);
    var cp := CachePart(cache, channel, lo, hi, b);
    if b > lo {
      var h := Min(hi, b);
      GetWeeksAsWrittenWithin(lo, h);
      IndexedDocumentsMonotone(store, channel, GetWeeksAsWritten(lo, h), GetWeeks(lo, h));
      SelectMonotone(IndexedDocuments(store, channel, GetWeeksAsWritten(lo, h)),
                     IndexedDocuments(store, channel, GetWeeks(lo, h)), channel, lo, h);
    }
    assert multiset(sa) <= multiset(sc);
    SortByDateProperties(sa + cp);
    SortByDateProperties(sc + cp);
  }

  /** A reversed range gives the same answer. */
  lemma SeekHistorySymmetric(store: seq<StoredBatch>, cache: seq<ChatMessage>, channel: string,
                             start: Instant, end: Instant, now: Instant, storeReachable: bool)
    ensures SeekHistory(store, cache, channel, start, end, now, storeReachable)
         == SeekHistory(store, cache, channel, end, start, now, storeReachable)
  {
  }

  /**
   * The query fails only when the store had to be asked and could not answer; otherwise
   * the answer is the store part followed by the cache part, stably sorted by date.
   */
  lemma SeekHistoryMerge(store: seq<StoredBatch>, cache: seq<ChatMessage>, channel: string,
                         start: Instant, end: Instant, now: Instant, storeReachable: bool)
    ensures var r := SeekHistory(store, cache, channel, start, end, now, storeReachable);
      var lo, hi, b := Lo(start, end), Hi(start, end), Boundary(cache, now);
      var parts := StorePart(store, channel, lo, hi, b) + CachePart(cache, channel, lo, hi, b);
      && (r.Failure? <==> !storeReachable && b >= lo)
      && (r.Failure? ==> r.error == Raised(ClientException, DatabaseNotFound))
      && (r.Success? ==>
            && SortedByDate(r.value)
            && multiset(r.value) == multiset(parts)
            && (forall d :: AtDate(r.value, d) == AtDate(parts, d)))
  {
    var lo, hi, b := Lo(start, end), Hi(start, end), Boundary(cache, now);
    SortByDateProperties(StorePart(store, channel, lo, hi, b) + CachePart(cache, channel, lo, hi, b));
  }

  lemma StorePartSound(store: seq<StoredBatch>, channel: string, lo: Instant, hi: Instant, b: Instant)
    requires lo <= hi
    ensures forall m :: m in StorePart(store, channel, lo, hi, b) ==> m in StoreMessages(store) && InRange(m, channel, lo, hi)
    ensures multiset(StorePart(store, channel, lo, hi, b)) <= multiset(StoreMessages(store))
  {
    if b >= lo {
      var weeks := GetWeeks(lo, Min(hi, b));
      IndexedDocumentsSound(store, channel, weeks);
      SelectSpec(IndexedDocuments(store, channel, weeks), channel, lo, Min(hi, b));
    }
  }

  lemma CachePartSound(cache: seq<ChatMessage>, channel: string, lo: Instant, hi: Instant, b: Instant)
    ensures forall m :: m in CachePart(cache, channel, lo, hi, b) ==> m in cache && InRange(m, channel, lo, hi)
    ensures multiset(CachePart(cache, channel, lo, hi, b)) <= multiset(cache)
  {
    if b <= hi {
      SelectSpec(cache, channel, Max(lo, b), hi);
    }
  }

  /**
   * Every message returned was stored or cached, lies in the normalised range on the
   * channel, and no message is returned more often than it is held.
   */
  lemma SeekHistorySound(store: seq<StoredBatch>, cache: seq<ChatMessage>, channel: string,
                         start: Instant, end: Instant, now: Instant, storeReachable: bool)
    ensures var r := SeekHistory(store, cache, channel, start, end, now, storeReachable);
      r.Success? ==>
        && (forall m :: m in r.value ==>
              (m in StoreMessages(store) || m in cache) && InRange(m, channel, Lo(start, end), Hi(start, end)))
        && multiset(r.value) <= multiset(StoreMessages(store)) + multiset(cache)
  {
    var lo, hi, b := Lo(start, end), Hi(start, end), Boundary(cache, now);
    var sp, cp := StorePart(store, channel, lo, hi, b), CachePart(cache, channel, lo, hi, b);
    SortByDateProperties(sp + cp);
    StorePartSound(store, channel, lo, hi, b);
    CachePartSound(cache, channel, lo, hi, b);
    var r := SortByDate(sp + cp);
    assert multiset(r) == multiset(sp) + multiset(cp);
    forall m | m in r ensures m in sp || m in cp {
      assert m in multiset(r);
    }
  }

  lemma {:induction false} SelectSame(msgs: seq<ChatMessage>, channel: string, lo1: Instant, hi1: Instant, lo2: Instant, hi2: Instant)
    requires forall m :: m in msgs ==> (InRange(m, channel, lo1, hi1) <==> InRange(m, channel, lo2, hi2))
    ensures Select(msgs, channel, lo1, hi1) == Select(msgs, channel, lo2, hi2)
  {
    if msgs != [] {
      SelectSame(msgs[1..], channel, lo1, hi1, lo2, hi2);
    }
  }

  /** When the cache is in date order, its part holds every cached message of the range. */
  lemma CachePartWhole(cache: seq<ChatMessage>, channel: string, lo: Instant, hi: Instant, now: Instant)
    requires SortedByDate(cache)
    ensures forall m :: m in CachePart(cache, channel, lo, hi, Boundary(cache, now)) <==> m in cache && InRange(m, channel, lo, hi)
  {
    var b := Boundary(cache, now);
    assert forall m :: m in cache ==> b <= m.date by {
      forall m | m in cache ensures b <= m.date {
        var k :| 0 <= k < |cache| && cache[k] == m;
        assert cache[0].date <= cache[k].date;
      }
    }
    if b <= hi {
      SelectSame(cache, channel, Max(lo, b), hi, lo, hi);
    }
    SelectSpec(cache, channel, lo, hi);
  }

  /**
   * History merge correctness: if batches are indexed by their messages' week, the cache
   * is in date order and nothing stored is dated after the cache boundary, the answer holds
   * exactly the stored or cached messages of the range, sorted by date.
   */
  lemma SeekHistoryComplete(store: seq<StoredBatch>, cache: seq<ChatMessage>, channel: string,
                            start: Instant, end: Instant, now: Instant)
    requires IndexedByDate(store)
    requires SortedByDate(cache)
    requires forall m :: m in StoreMessages(store) ==> m.date <= Boundary(cache, now)
    ensures var r := SeekHistory(store, cache, channel, start, end, now, true);
      && r.Success?
      && SortedByDate(r.value)
      && (forall m :: m in r.value <==>
            (m in StoreMessages(store) || m in cache) && InRange(m, channel, Lo(start, end), Hi(start, end)))
  {
    var lo, hi, b := Lo(start, end), Hi(start, end), Boundary(cache, now);
    var sp, cp := StorePart(store, channel, lo, hi, b), CachePart(cache, channel, lo, hi, b);
    SeekHistoryMerge(store, cache, channel, start, end, now, true);
    CachePartWhole(cache, channel, lo, hi, now);
    if b >= lo {
      StoreQueryComplete(store, channel, lo, Min(hi, b));
    }
    assert forall m :: m in sp <==> m in StoreMessages(store) && InRange(m, channel, lo, hi);
    var r := SeekHistory(store, cache, channel, start, end, now, true).value;
    forall m ensures m in r <==> m in sp + cp {
      assert m in r <==> m in multiset(r);
    }
  }

  /** A range [0, week + 1 tick] over a message stored, by its own week, in week 1. */
  lemma SeekHistoryAsWrittenMissesLastWeek()
    ensures var m := ChatMessage("lobby", WeekTicks, "hi", map[], UserInfo("u", "{}"));
      var c := ChatMessage("lobby", WeekTicks + 1, "there", map[], UserInfo("u", "{}"));
      var store := [StoredBatch(1, [m])];
      && IndexedByDate(store)
      && SeekHistoryAsWritten(store, [c], "lobby", 0, WeekTicks + 1, 0, true) == Success([c])
      && SeekHistory(store, [c], "lobby", 0, WeekTicks + 1, 0, true) == Success([m, c])
  {
    var m := ChatMessage("lobby", WeekTicks, "hi", map[], UserInfo("u", "{}"));
    var c := ChatMessage("lobby", WeekTicks + 1, "there", map[], UserInfo("u", "{}"));
    var store := [StoredBatch(1, [m])];
    assert GetWeeksAsWritten(0, WeekTicks + 1) == [0];
    assert GetWeeks(0, WeekTicks + 1) == [0, 1];
    assert OnChannel([m], "lobby") == [m];
    assert store[1..] == [];
    assert IndexedDocuments(store, "lobby", [0]) == [];
    assert IndexedDocuments(store, "lobby", [0, 1]) == [m];
    assert Select([m], "lobby", 0, WeekTicks + 1) == [m];
    assert StoreQueryAsWritten(store, "lobby", 0, WeekTicks + 1) == [];
    assert StoreQuery(store, "lobby", 0, WeekTicks + 1) == [m];
    assert Select([c], "lobby", WeekTicks + 1, WeekTicks + 1) == [c];
    assert SortByDate([c]) == [c];
    assert SortByDate([m, c]) == [m, c];
    assert IndexedByDate(store) by {
      assert forall i, x :: 0 <= i < |store| && x in store[i].messages ==> i == 0 && x == m;
    }
    assert StorePartAsWritten(store, "lobby", 0, WeekTicks + 1, WeekTicks + 1) == [];
    assert CachePart([c], "lobby", 0, WeekTicks + 1, WeekTicks + 1) == [c];
    assert [] + [c] == [c];
    assert SeekHistoryAsWritten(store, [c], "lobby", 0, WeekTicks + 1, 0, true) == Success([c]);
    assert SeekHistory(store, [c], "lobby", 0, WeekTicks + 1, 0, true) == Success([m, c]);
  }

  /** A message stored at the very tick of the cache head, asked from that tick on. */
  lemma SeekHistoryAsWrittenMissesBoundaryTick()
    ensures var m := ChatMessage("lobby", 5, "stored", map[], UserInfo("u", "{}"));
      var c := ChatMessage("lobby", 5, "cached", map[], UserInfo("v", "{}"));
      var store := [StoredBatch(0, [m])];
      && IndexedByDate(store)
      && SeekHistoryAsWritten(store, [c], "lobby", 5, 10, 0, true) == Success([c])
      && SeekHistory(store, [c], "lobby", 5, 10, 0, true) == Success([m, c])
  {
    var m := ChatMessage("lobby", 5, "stored", map[], UserInfo("u", "{}"));
    var c := ChatMessage("lobby", 5, "cached", map[], UserInfo("v", "{}"));
    var store := [StoredBatch(0, [m])];
    assert GetWeeks(5, 5) == [0];
    assert OnChannel([m], "lobby") == [m];
    assert store[1..] == [];
    assert IndexedDocuments(store, "lobby", [0]) == [m];
    assert Select([m], "lobby", 5, 5) == [m];
    assert StoreQuery(store, "lobby", 5, 5) == [m];
    assert Select([c], "lobby", 5, 10) == [c];
    assert SortByDate([c]) == [c];
    assert SortByDate([m, c]) == [m, c];
    assert IndexedByDate(store) by {
      assert forall i, x :: 0 <= i < |store| && x in store[i].messages ==> i == 0 && x == m;
    }
    assert StorePartAsWritten(store, "lobby", 5, 10, 5) == [];
    assert CachePart([c], "lobby", 5, 10, 5) == [c];
    assert [] + [c] == [c];
    assert SeekHistoryAsWritten(store, [c], "lobby", 5, 10, 0, true) == Success([c]);
    assert SeekHistory(store, [c], "lobby", 5, 10, 0, true) == Success([m, c]);
  }
}
