/**
 * `src/commands.js`: the analytics helpers over the in-memory `stats`
 * object (seven-day sums, server rank, top channels), the per-user rate
 * limiter, and the `/stats me` and `/stats server` replies.
 *
 * The helpers only read `stats`; they take its value. Numbers that the
 * reply renders are kept as numbers: the embed, the chart and their text
 * are not modelled.
 */
module Commands {
  import opened Common
  import opened MapSums
  import opened Aggregates
  import opened StatsManager

  // ---------------------------------------------------------------------
  // Sums over a list of days

  /** Messages `u` sent on the listed days, a missing user or day counting 0. */
  function MessagesOn(s: Store, u: UserId, days: seq<Day>): int
  {
    if days == [] then 0
    else MessagesOn(s, u, days[..|days| - 1]) + DayOf(s, u, days[|days| - 1]).messages
  }

  /** Voice seconds of `u` on the listed days. */
  function VoiceOn(s: Store, u: UserId, days: seq<Day>): real
  {
    if days == [] then 0.0
    else VoiceOn(s, u, days[..|days| - 1]) + DayOf(s, u, days[|days| - 1]).voiceTime
  }

  /** `getLast7DaysMessagesLocal(userId)` */
  function WindowMessages(s: Store, u: UserId, today: Day): int
  {
    MessagesOn(s, u, Last7(today))
  }

  /** `getLast7DaysVoiceTimeLocal(userId)` */
  function WindowVoice(s: Store, u: UserId, today: Day): real
  {
    VoiceOn(s, u, Last7(today))
  }

  /** `getLast7DaysMessagesLocal`: a loop over `getLast7Dates()`. */
  method GetLast7DaysMessagesLocal(s: Store, u: UserId, today: Day) returns (sum: int)
    ensures sum == WindowMessages(s, u, today)
  {
    var dates := GetLast7Dates(today);
    sum := 0;
    for i := 0 to |dates|
      invariant sum == MessagesOn(s, u, dates[..i])
    {
      if u in s && dates[i] in s[u].daily {
        sum := sum + s[u].daily[dates[i]].messages;
      }
      assert dates[..i + 1][..i] == dates[..i];
    }
    assert dates[..|dates|] == dates;
  }

  /** `getLast7DaysVoiceTimeLocal` */
  method GetLast7DaysVoiceTimeLocal(s: Store, u: UserId, today: Day) returns (sum: real)
    ensures sum == WindowVoice(s, u, today)
  {
    var dates := GetLast7Dates(today);
    sum := 0.0;
    for i := 0 to |dates|
      invariant sum == VoiceOn(s, u, dates[..i])
    {
      if u in s && dates[i] in s[u].daily {
        sum := sum + s[u].daily[dates[i]].voiceTime;
      }
      assert dates[..i + 1][..i] == dates[..i];
    }
    assert dates[..|dates|] == dates;
  }

  // ---------------------------------------------------------------------
  // What the window sums mean

  /** A user with no entry has nothing in any window. */
  lemma {:induction false} AbsentUserOn(s: Store, u: UserId, days: seq<Day>)
    requires u !in s
    ensures MessagesOn(s, u, days) == 0 && VoiceOn(s, u, days) == 0.0
  {
    if days != [] {
      AbsentUserOn(s, u, days[..|days| - 1]);
    }
  }

  lemma AbsentUserWindow(s: Store, u: UserId, today: Day)
    requires u !in s
    ensures WindowMessages(s, u, today) == 0 && WindowVoice(s, u, today) == 0.0
  {
    AbsentUserOn(s, u, Last7(today));
  }

  /** How often `d` occurs in `days`. */
  function Occurrences(days: seq<Day>, d: Day): (n: nat)
    ensures n == multiset(days)[d]
  {
    if days == [] then 0
    else
      assert days == days[..|days| - 1] + [days[|days| - 1]];
      Occurrences(days[..|days| - 1], d) + (if days[|days| - 1] == d then 1 else 0)
  }

  /** Today occurs exactly once in the window. */
  lemma TodayOnceInWindow(today: Day)
    ensures Occurrences(Last7(today), today) == 1
  {
    var r := Last7(today);
    assert Distinct(r);
    DistinctHasSmallCounts(r);
    assert today in multiset(r);
  }

  /** A recorded message counts once per listed occurrence of its day, for its author only. */
  lemma {:induction false} MessageOn(s: Store, u: UserId, c: ChannelId, today: Day, v: UserId, days: seq<Day>)
    ensures MessagesOn(WithMessage(s, u, c, today), v, days)
         == MessagesOn(s, v, days) + (if v == u then Occurrences(days, today) else 0)
    ensures VoiceOn(WithMessage(s, u, c, today), v, days) == VoiceOn(s, v, days)
  {
    if days != [] {
      MessageOn(s, u, c, today, v, days[..|days| - 1]);
      var r := WithMessage(s, u, c, today);
      var d := days[|days| - 1];
      assert DayOf(r, v, d).messages == DayOf(s, v, d).messages + (if v == u && d == today then 1 else 0);
      assert DayOf(r, v, d).voiceTime == DayOf(s, v, d).voiceTime;
    }
  }

  /** `n` copies of `x` added up. */
  function Repeated(n: nat, x: real): real
  {
    if n == 0 then 0.0 else Repeated(n - 1, x) + x
  }

  /** Recorded voice time counts once per listed occurrence of its day, for its member only. */
  lemma {:induction false} VoiceTimeOn(s: Store, u: UserId, seconds: real, today: Day, v: UserId, days: seq<Day>)
    ensures VoiceOn(WithVoice(s, u, seconds, today), v, days)
         == VoiceOn(s, v, days) + (if v == u then Repeated(Occurrences(days, today), seconds) else 0.0)
    ensures MessagesOn(WithVoice(s, u, seconds, today), v, days) == MessagesOn(s, v, days)
  {
    if days != [] {
      VoiceTimeOn(s, u, seconds, today, v, days[..|days| - 1]);
      var r := WithVoice(s, u, seconds, today);
      var d := days[|days| - 1];
      assert DayOf(r, v, d).voiceTime == DayOf(s, v, d).voiceTime + (if v == u && d == today then seconds else 0.0);
      assert DayOf(r, v, d).messages == DayOf(s, v, d).messages;
    }
  }

  /** A message recorded today adds exactly one to its author's window and nothing elsewhere. */
  lemma MessageWindow(s: Store, u: UserId, c: ChannelId, today: Day, v: UserId)
    ensures WindowMessages(WithMessage(s, u, c, today), v, today)
         == WindowMessages(s, v, today) + (if v == u then 1 else 0)
    ensures WindowVoice(WithMessage(s, u, c, today), v, today) == WindowVoice(s, v, today)
  {
    MessageOn(s, u, c, today, v, Last7(today));
    TodayOnceInWindow(today);
  }

  /** Voice time recorded today adds exactly its seconds to its member's window. */
  lemma VoiceWindow(s: Store, u: UserId, seconds: real, today: Day, v: UserId)
    ensures WindowVoice(WithVoice(s, u, seconds, today), v, today)
         == WindowVoice(s, v, today) + (if v == u then seconds else 0.0)
    ensures WindowMessages(WithVoice(s, u, seconds, today), v, today) == WindowMessages(s, v, today)
  {
    VoiceTimeOn(s, u, seconds, today, v, Last7(today));
    TodayOnceInWindow(today);
    assert Repeated(1, seconds) == seconds;
  }

  /** The message sum over listed days is the day-by-day counts summed along them. */
  lemma {:induction false} MessagesOnAlong(s: Store, u: UserId, days: seq<Day>)
    ensures MessagesOn(s, u, days) == SumAlong(MessagesByDay(UserOf(s, u).daily), days)
  {
    if days != [] {
      MessagesOnAlong(s, u, days[..|days| - 1]);
    }
  }

  /** In a consistent store, no window holds more messages than the lifetime total. */
  lemma WindowAtMostTotal(s: Store, u: UserId, today: Day)
    requires Consistent(s)
    ensures 0 <= WindowMessages(s, u, today) <= UserOf(s, u).totalMessages
  {
    var user := UserOf(s, u);
    UserOfConsistent(s, u, today);
    var m := MessagesByDay(user.daily);
    forall d | d in m
      ensures m[d] >= 0
    {
      DayMessagesNonNegative(user.daily[d]);
    }
    var days := Last7(today);
    assert Distinct(days);
    MessagesOnAlong(s, u, days);
    SumAlongAtMost(m, days);
    WindowNonNegative(m, days);
  }

  lemma {:induction false} WindowNonNegative(m: map<Day, int>, days: seq<Day>)
    requires forall d :: d in m ==> m[d] >= 0
    ensures SumAlong(m, days) >= 0
  {
    if days != [] {
      WindowNonNegative(m, days[..|days| - 1]);
    }
  }

  // ---------------------------------------------------------------------
  // Server rank

  /** The sort key of `getUserRankLocal`: a user's seven-day message count. */
  function WindowKey(s: Store, today: Day): UserId -> int
  {
    v => WindowMessages(s, v, today)
  }

  /**
   * `userIds.sort((a, b) => f(b) - f(a))` with `f` the seven-day message
   * count: the user ids, most active first, ties in key order.
   */
  function ByActivity(s: Store, order: seq<UserId>, today: Day): (r: seq<UserId>)
    ensures multiset(r) == multiset(order) && |r| == |order|
    ensures NonIncreasing(r, WindowKey(s, today))
  {
    SortDescSorted(order, WindowKey(s, today));
    SortDesc(order, WindowKey(s, today))
  }

  /** `getUserRankLocal(userId)`: `sorted.indexOf(userId) + 1`. */
  function Rank(s: Store, order: seq<UserId>, u: UserId, today: Day): (r: int)
    ensures 0 <= r <= |order|
    ensures r == 0 <==> u !in order
  {
    var sorted := ByActivity(s, order, today);
    MultisetMembership(order, sorted, u);
    IndexOf(sorted, u) + 1
  }

  /** A ranked user sits at position `rank - 1` of the activity order. */
  lemma RankPosition(s: Store, order: seq<UserId>, u: UserId, today: Day)
    requires Distinct(order) && u in order
    ensures var sorted := ByActivity(s, order, today);
      Distinct(sorted) && sorted[Rank(s, order, u, today) - 1] == u
  {
    PermutationDistinct(order, ByActivity(s, order, today));
  }

  /** Everyone ranked above a user sent at least as many messages in the window. */
  lemma RankedAboveSentAtLeast(s: Store, order: seq<UserId>, u: UserId, v: UserId, today: Day)
    requires KeyOrder(order, s) && u in s && v in s
    requires Rank(s, order, v, today) < Rank(s, order, u, today)
    ensures WindowMessages(s, v, today) >= WindowMessages(s, u, today)
  {
    var sorted := ByActivity(s, order, today);
    RankPosition(s, order, u, today);
    RankPosition(s, order, v, today);
    var i, j := Rank(s, order, v, today) - 1, Rank(s, order, u, today) - 1;
    assert WindowKey(s, today)(sorted[j]) <= WindowKey(s, today)(sorted[i]);
  }

  /** Strictly more messages in the window means a strictly better rank. */
  lemma MoreMessagesBetterRank(s: Store, order: seq<UserId>, u: UserId, v: UserId, today: Day)
    requires KeyOrder(order, s) && u in s && v in s
    requires WindowMessages(s, u, today) > WindowMessages(s, v, today)
    ensures 1 <= Rank(s, order, u, today) < Rank(s, order, v, today)
  {
    RankPosition(s, order, u, today);
    RankPosition(s, order, v, today);
    if Rank(s, order, v, today) < Rank(s, order, u, today) {
      RankedAboveSentAtLeast(s, order, u, v, today);
    }
  }

  /** Users with entries get distinct ranks from 1 to the number of users. */
  lemma RanksDistinct(s: Store, order: seq<UserId>, u: UserId, v: UserId, today: Day)
    requires KeyOrder(order, s) && u in s && v in s && u != v
    ensures 1 <= Rank(s, order, u, today) <= |order|
    ensures Rank(s, order, u, today) != Rank(s, order, v, today)
  {
    RankPosition(s, order, u, today);
    RankPosition(s, order, v, today);
  }

  /** The unique most active user is ranked first. */
  lemma MostActiveRanksFirst(s: Store, order: seq<UserId>, u: UserId, today: Day)
    requires KeyOrder(order, s) && u in s
    requires forall v :: v in s && v != u ==> WindowMessages(s, v, today) < WindowMessages(s, u, today)
    ensures Rank(s, order, u, today) == 1
  {
    var sorted := ByActivity(s, order, today);
    RankPosition(s, order, u, today);
    var w := sorted[0];
    assert w in multiset(order);
    assert w in s;
    assert WindowKey(s, today)(sorted[Rank(s, order, u, today) - 1]) <= WindowKey(s, today)(w);
  }

  // ---------------------------------------------------------------------
  // Top channels

  /** One row of `Object.entries(channelCounts)`. */
  datatype ChannelEntry = ChannelEntry(channelId: ChannelId, count: int)

  function EntryCount(e: ChannelEntry): int
  {
    e.count
  }

  /** `channelCounts` after the loop over the listed days. */
  function ChannelTotals(s: Store, u: UserId, days: seq<Day>): map<ChannelId, int>
  {
    if days == [] then map[]
    else AddInto(ChannelTotals(s, u, days[..|days| - 1]), DayOf(s, u, days[|days| - 1]).channels)
  }

  /** Messages `u` sent in channel `c` on the listed days. */
  function ChannelOn(s: Store, u: UserId, days: seq<Day>, c: ChannelId): int
  {
    if days == [] then 0
    else ChannelOn(s, u, days[..|days| - 1], c) + ChannelCount(DayOf(s, u, days[|days| - 1]), c)
  }

  /**
   * A channel is counted exactly when the user posted in it on one of the
   * days, and its count is what they posted there on those days.
   */
  lemma {:induction false} ChannelTotalsAt(s: Store, u: UserId, days: seq<Day>, c: ChannelId)
    ensures c in ChannelTotals(s, u, days)
        <==> exists i :: 0 <= i < |days| && c in DayOf(s, u, days[i]).channels
    ensures GetInt(ChannelTotals(s, u, days), c) == ChannelOn(s, u, days, c)
  {
    if days != [] {
      var init, d := days[..|days| - 1], days[|days| - 1];
      ChannelTotalsAt(s, u, init, c);
      if c in DayOf(s, u, d).channels {
        assert days[|days| - 1] == d;
      }
      if exists i :: 0 <= i < |days| && c in DayOf(s, u, days[i]).channels {
        var i :| 0 <= i < |days| && c in DayOf(s, u, days[i]).channels;
        if i < |init| {
          assert init[i] == days[i];
        }
      }
      if exists i :: 0 <= i < |init| && c in DayOf(s, u, init[i]).channels {
        var i :| 0 <= i < |init| && c in DayOf(s, u, init[i]).channels;
        assert days[i] == init[i];
      }
    }
  }

  /** In a consistent store the channel counts add up to the message count of the days. */
  lemma {:induction false} ChannelTotalsSum(s: Store, u: UserId, days: seq<Day>)
    requires Consistent(s)
    ensures SumInts(ChannelTotals(s, u, days)) == MessagesOn(s, u, days)
  {
    if days == [] {
      var none: map<ChannelId, int> := map[];
      AddIntoEmpty(none, none);
    } else {
      var init, d := days[..|days| - 1], days[|days| - 1];
      ChannelTotalsSum(s, u, init);
      SumAddInto(ChannelTotals(s, u, init), DayOf(s, u, d).channels);
      UserOfConsistent(s, u, d);
    }
  }

  /**
   * The inner `for (const channelId in channels)` loop: adds one day's
   * counts into `channelCounts`, a key that is new going to the end of the
   * object's key order.
   */
  method AddDayChannels(acc: map<ChannelId, int>, keys: seq<ChannelId>, channels: map<ChannelId, int>)
    returns (counts: map<ChannelId, int>, keys': seq<ChannelId>)
    requires Distinct(keys) && forall c :: c in acc <==> c in keys
    ensures counts == AddInto(acc, channels)
    ensures Distinct(keys') && forall c :: c in counts <==> c in keys'
  {
    counts, keys' := acc, keys;
    var todo := channels.Keys;
    ghost var done: set<ChannelId> := {};
    AddIntoBounds(acc, channels);
    while todo != {}
      invariant done + todo == channels.Keys && done !! todo
      invariant counts == AddInto(acc, Restrict(channels, done))
      invariant Distinct(keys') && forall c :: c in counts <==> c in keys'
      decreases |todo|
    {
      var c := Choose(todo);
      AddIntoNext(acc, channels, done, c, counts);
      if c !in counts {
        DistinctAppend(keys', c);
        keys' := keys' + [c];
      }
      counts := counts[c := GetInt(counts, c) + channels[c]];
      todo := todo - {c};
      done := done + {c};
    }
  }

  lemma AddIntoNext(acc: map<ChannelId, int>, channels: map<ChannelId, int>, done: set<ChannelId>, c: ChannelId, counts: map<ChannelId, int>)
    requires c in channels && c !in done
    requires counts == AddInto(acc, Restrict(channels, done))
    ensures counts[c := GetInt(counts, c) + channels[c]] == AddInto(acc, Restrict(channels, done + {c}))
  {
    AddIntoStep(acc, channels, done, c);
  }

  /** The outer loop of `getTopChannelsLocal`: `channelCounts` and its key order. */
  method ChannelCountsLocal(s: Store, u: UserId, dates: seq<Day>)
    returns (counts: map<ChannelId, int>, keys: seq<ChannelId>)
    ensures counts == ChannelTotals(s, u, dates)
    ensures Distinct(keys) && forall c :: c in counts <==> c in keys
  {
    counts, keys := map[], [];
    for i := 0 to |dates|
      invariant counts == ChannelTotals(s, u, dates[..i])
      invariant Distinct(keys) && forall c :: c in counts <==> c in keys
    {
      ChannelTotalsStep(s, u, dates, i);
      if u in s && dates[i] in s[u].daily {
        counts, keys := AddDayChannels(counts, keys, s[u].daily[dates[i]].channels);
      } else {
        AddIntoEmpty(counts, DayOf(s, u, dates[i]).channels);
      }
    }
    assert dates[..|dates|] == dates;
  }

  lemma ChannelTotalsStep(s: Store, u: UserId, dates: seq<Day>, i: int)
    requires 0 <= i < |dates|
    ensures ChannelTotals(s, u, dates[..i + 1])
         == AddInto(ChannelTotals(s, u, dates[..i]), DayOf(s, u, dates[i]).channels)
  {
    assert dates[..i + 1][..i] == dates[..i];
  }

  /**
   * `getTopChannelsLocal(userId)`: channel totals over the last seven days,
   * as entries sorted by count, largest first.
   */
  method GetTopChannelsLocal(s: Store, u: UserId, today: Day) returns (sorted: seq<ChannelEntry>)
    ensures RankedChannels(sorted, ChannelTotals(s, u, Last7(today)))
  {
    var dates := GetLast7Dates(today);
    var counts, keys := ChannelCountsLocal(s, u, dates);
    var entries := seq(|keys|, j requires 0 <= j < |keys| => ChannelEntry(keys[j], GetInt(counts, keys[j])));
    sorted := SortDesc(entries, EntryCount);
    EntriesRanked(entries, sorted, counts, keys);
  }

  /** Channel rows with the given totals, most messages first, each channel once. */
  ghost predicate RankedChannels(es: seq<ChannelEntry>, totals: map<ChannelId, int>)
  {
    && NonIncreasing(es, EntryCount)
    && (forall e :: e in es <==> e.channelId in totals && e.count == totals[e.channelId])
    && (forall i, j :: 0 <= i < j < |es| ==> es[i].channelId != es[j].channelId)
  }

  lemma EntriesRanked(entries: seq<ChannelEntry>, sorted: seq<ChannelEntry>, counts: map<ChannelId, int>, keys: seq<ChannelId>)
    requires Distinct(keys) && forall c :: c in counts <==> c in keys
    requires |entries| == |keys|
    requires forall j :: 0 <= j < |keys| ==> entries[j] == ChannelEntry(keys[j], GetInt(counts, keys[j]))
    requires sorted == SortDesc(entries, EntryCount)
    ensures RankedChannels(sorted, counts)
  {
    SortDescSorted(entries, EntryCount);
    EntriesMembers(entries, counts, keys);
    assert Distinct(entries);
    PermutationDistinct(entries, sorted);
    SortedMembers(entries, sorted, counts);
  }

  /** The entries built from the key order are exactly the totals. */
  lemma EntriesMembers(entries: seq<ChannelEntry>, counts: map<ChannelId, int>, keys: seq<ChannelId>)
    requires forall c :: c in counts <==> c in keys
    requires |entries| == |keys|
    requires forall j :: 0 <= j < |keys| ==> entries[j] == ChannelEntry(keys[j], GetInt(counts, keys[j]))
    ensures forall e :: e in entries <==> e.channelId in counts && e.count == counts[e.channelId]
  {
    forall e
      ensures e in entries <==> e.channelId in counts && e.count == counts[e.channelId]
    {
      if e.channelId in counts && e.count == counts[e.channelId] {
        var j :| 0 <= j < |keys| && keys[j] == e.channelId;
        assert entries[j] == e;
      }
      if e in entries {
        var j :| 0 <= j < |keys| && entries[j] == e;
        assert keys[j] in keys;
      }
    }
  }

  lemma SortedMembers(entries: seq<ChannelEntry>, sorted: seq<ChannelEntry>, counts: map<ChannelId, int>)
    requires multiset(entries) == multiset(sorted) && Distinct(sorted)
    requires forall e :: e in entries <==> e.channelId in counts && e.count == counts[e.channelId]
    ensures forall e :: e in sorted <==> e.channelId in counts && e.count == counts[e.channelId]
    ensures forall i, j :: 0 <= i < j < |sorted| ==> sorted[i].channelId != sorted[j].channelId
  {
    forall e
      ensures e in sorted <==> e in entries
    {
      MultisetMembership(entries, sorted, e);
    }
    forall i, j | 0 <= i < j < |sorted|
      ensures sorted[i].channelId != sorted[j].channelId
    {
      assert sorted[i] in entries && sorted[j] in entries;
    }
  }

  /**
   * `top` lists the `n` busiest channels: at most `n` rows with the
   * totals, most messages first, each channel once, and a channel is left
   * out only when `n` rows are shown, none with fewer messages than it.
   */
  ghost predicate TopOf(top: seq<ChannelEntry>, totals: map<ChannelId, int>, n: nat)
  {
    && |top| <= n
    && NonIncreasing(top, EntryCount)
    && (forall e :: e in top ==> e.channelId in totals && e.count == totals[e.channelId])
    && (forall i, j :: 0 <= i < j < |top| ==> top[i].channelId != top[j].channelId)
    && (forall c :: c in totals && ChannelEntry(c, totals[c]) !in top ==>
          |top| == n && forall e :: e in top ==> totals[c] <= e.count)
  }

  /** `.slice(0, n)` of a ranking gives the `n` busiest channels. */
  lemma TakeTop(sorted: seq<ChannelEntry>, totals: map<ChannelId, int>, n: nat)
    requires RankedChannels(sorted, totals)
    ensures TopOf(sorted[..Min(n, |sorted|)], totals, n)
  {
    var top := sorted[..Min(n, |sorted|)];
    forall c | c in totals && ChannelEntry(c, totals[c]) !in top
      ensures |top| == n && forall e :: e in top ==> totals[c] <= e.count
    {
      var k :| 0 <= k < |sorted| && sorted[k] == ChannelEntry(c, totals[c]);
      assert k >= |top|;
      forall e | e in top
        ensures totals[c] <= e.count
      {
        var i :| 0 <= i < |top| && top[i] == e;
        assert sorted[i] == e;
      }
    }
  }

  // ---------------------------------------------------------------------
  // Rate limiter

  /** `commandTimestamps` lets a command through unless the user's last one is under `limitMs` old. */
  function Admits(last: map<UserId, int>, limitMs: int, u: UserId, now: int): bool
  {
    !(u in last && now - last[u] < limitMs)
  }

  /** `commandTimestamps` with `RATE_LIMIT_MS`. */
  class RateLimiter {
    /** User id to the time of their last command that was let through. */
    var lastAccepted: map<UserId, int>
    const limitMs: int

    constructor (limitMs: int)
      ensures this.limitMs == limitMs && lastAccepted == map[]
    {
      this.limitMs := limitMs;
      lastAccepted := map[];
    }

    /**
     * The check at the start of the `interactionCreate` handler: a
     * rejected command leaves the timestamps alone, an accepted one
     * records `now` for its user.
     */
    method Admit(u: UserId, now: int) returns (accepted: bool)
      modifies this
      ensures accepted == Admits(old(lastAccepted), limitMs, u, now)
      ensures lastAccepted == if accepted then old(lastAccepted)[u := now] else old(lastAccepted)
    {
      accepted := true;
      if u in lastAccepted {
        var last := lastAccepted[u];
        if now - last < limitMs {
          accepted := false;
        }
      }
      if accepted {
        lastAccepted := lastAccepted[u := now];
      }
    }
  }

  datatype Request = Request(user: UserId, time: int)

  /** The requests a limiter starting from `last` lets through, in order. */
  function Admitted(last: map<UserId, int>, limitMs: int, reqs: seq<Request>): (r: seq<Request>)
    ensures |r| <= |reqs|
    decreases |reqs|
  {
    if reqs == [] then []
    else
      var q := reqs[0];
      if Admits(last, limitMs, q.user, q.time) then [q] + Admitted(last[q.user := q.time], limitMs, reqs[1..])
      else Admitted(last, limitMs, reqs[1..])
  }

  /** The times of `u`'s requests, in order. */
  function TimesOf(reqs: seq<Request>, u: UserId): seq<int>
  {
    if reqs == [] then []
    else (if reqs[0].user == u then [reqs[0].time] else []) + TimesOf(reqs[1..], u)
  }

  /** Each time is at least `gap` after the one before it. */
  ghost predicate Spaced(ts: seq<int>, gap: int)
  {
    forall i :: 0 < i < |ts| ==> ts[i] - ts[i - 1] >= gap
  }

  /** The time already on record for `u`, if any. */
  function OnRecord(last: map<UserId, int>, u: UserId): seq<int>
  {
    if u in last then [last[u]] else []
  }

  /**
   * The commands a user gets through are each at least `limitMs` after
   * the previous one, the first of them after the time already on record.
   */
  lemma {:induction false} AdmittedSpaced(last: map<UserId, int>, limitMs: int, reqs: seq<Request>, u: UserId)
    ensures Spaced(OnRecord(last, u) + TimesOf(Admitted(last, limitMs, reqs), u), limitMs)
    decreases |reqs|
  {
    if reqs != [] {
      var q := reqs[0];
      if Admits(last, limitMs, q.user, q.time) {
        var last' := last[q.user := q.time];
        var rest := Admitted(last', limitMs, reqs[1..]);
        AdmittedSpaced(last', limitMs, reqs[1..], u);
        assert ([q] + rest)[1..] == rest;
        if q.user == u {
          assert OnRecord(last', u) == [q.time];
          SpacedPrepend(OnRecord(last, u), [q.time] + TimesOf(rest, u), limitMs);
          assert OnRecord(last, u) + TimesOf([q] + rest, u) == OnRecord(last, u) + ([q.time] + TimesOf(rest, u));
        } else {
          assert OnRecord(last', u) == OnRecord(last, u);
          assert TimesOf([q] + rest, u) == TimesOf(rest, u);
        }
      } else {
        AdmittedSpaced(last, limitMs, reqs[1..], u);
      }
    }
  }

  /** Each time is at least `gap` after every earlier one. */
  ghost predicate Apart(ts: seq<int>, gap: int)
  {
    forall i, j :: 0 <= i < j < |ts| ==> ts[j] - ts[i] >= gap
  }

  /**
   * With a limit that is not negative (the default is 5000 ms), a user's
   * accepted commands are each at least the limit after every earlier one,
   * and after the time already on record.
   */
  lemma AdmittedApart(last: map<UserId, int>, limitMs: int, reqs: seq<Request>, u: UserId)
    requires limitMs >= 0
    ensures Apart(OnRecord(last, u) + TimesOf(Admitted(last, limitMs, reqs), u), limitMs)
  {
    var ts := OnRecord(last, u) + TimesOf(Admitted(last, limitMs, reqs), u);
    AdmittedSpaced(last, limitMs, reqs, u);
    forall i, j | 0 <= i < j < |ts|
      ensures ts[j] - ts[i] >= limitMs
    {
      SpacedChain(ts, limitMs, i, j);
    }
  }

  /** Consecutive gaps of at least `gap >= 0` add up to at least `gap` between any two times. */
  lemma {:induction false} SpacedChain(ts: seq<int>, gap: int, i: int, j: int)
    requires gap >= 0 && Spaced(ts, gap) && 0 <= i < j < |ts|
    ensures ts[j] - ts[i] >= gap
    decreases j - i
  {
    if j > i + 1 {
      SpacedChain(ts, gap, i, j - 1);
    }
  }

  lemma SpacedPrepend(pre: seq<int>, ts: seq<int>, gap: int)
    requires |pre| <= 1 && ts != [] && Spaced(ts, gap)
    requires pre != [] ==> ts[0] - pre[0] >= gap
    ensures Spaced(pre + ts, gap)
  {
    var all := pre + ts;
    forall i | 0 < i < |all|
      ensures all[i] - all[i - 1] >= gap
    {
      if pre != [] && i >= 2 {
        assert all[i] == ts[i - 1] && all[i - 1] == ts[i - 2];
      }
    }
  }

  // ---------------------------------------------------------------------
  // Server totals and the top five

  /** `totalMsg` after the loops over `users` and the last seven days. */
  function ServerMessages(s: Store, users: seq<UserId>, today: Day): int
  {
    if users == [] then 0
    else ServerMessages(s, users[..|users| - 1], today) + WindowMessages(s, users[|users| - 1], today)
  }

  /** `totalVoice` after the same loops. */
  function ServerVoice(s: Store, users: seq<UserId>, today: Day): real
  {
    if users == [] then 0.0
    else ServerVoice(s, users[..|users| - 1], today) + WindowVoice(s, users[|users| - 1], today)
  }

  /** The inner `dates.forEach` of `/stats server` for one user. */
  method AddUserWindow(s: Store, uid: UserId, dates: seq<Day>, msg0: int, voice0: real)
    returns (totalMsg: int, totalVoice: real)
    ensures totalMsg == msg0 + MessagesOn(s, uid, dates)
    ensures totalVoice == voice0 + VoiceOn(s, uid, dates)
  {
    totalMsg, totalVoice := msg0, voice0;
    for j := 0 to |dates|
      invariant totalMsg == msg0 + MessagesOn(s, uid, dates[..j])
      invariant totalVoice == voice0 + VoiceOn(s, uid, dates[..j])
    {
      if uid in s && dates[j] in s[uid].daily {
        totalMsg := totalMsg + s[uid].daily[dates[j]].messages;
        totalVoice := totalVoice + s[uid].daily[dates[j]].voiceTime;
      }
      assert dates[..j + 1][..j] == dates[..j];
    }
    assert dates[..|dates|] == dates;
  }

  /** The nested loops of `/stats server` over `users` and `getLast7Dates()`. */
  method ServerTotals(s: Store, users: seq<UserId>, today: Day) returns (totalMsg: int, totalVoice: real)
    ensures totalMsg == ServerMessages(s, users, today)
    ensures totalVoice == ServerVoice(s, users, today)
  {
    totalMsg, totalVoice := 0, 0.0;
    var dates := GetLast7Dates(today);
    for i := 0 to |users|
      invariant totalMsg == ServerMessages(s, users[..i], today)
      invariant totalVoice == ServerVoice(s, users[..i], today)
    {
      totalMsg, totalVoice := AddUserWindow(s, users[i], dates, totalMsg, totalVoice);
      assert users[..i + 1][..i] == users[..i];
    }
    assert users[..|users|] == users;
  }

  /** Each user's seven-day message count. */
  ghost function ActivityByUser(s: Store, today: Day): map<UserId, int>
  {
    map u | u in s :: WindowMessages(s, u, today)
  }

  lemma {:induction false} ServerMessagesAlong(s: Store, users: seq<UserId>, today: Day)
    ensures ServerMessages(s, users, today) == SumAlong(ActivityByUser(s, today), users)
  {
    if users != [] {
      ServerMessagesAlong(s, users[..|users| - 1], today);
      var u := users[|users| - 1];
      if u !in s {
        AbsentUserWindow(s, u, today);
      }
    }
  }

  /**
   * The server total is the sum of every user's seven-day count, whatever
   * order the user ids are visited in.
   */
  lemma ServerTotalAnyOrder(s: Store, users: seq<UserId>, today: Day)
    requires KeyOrder(users, s)
    ensures ServerMessages(s, users, today) == SumInts(ActivityByUser(s, today))
  {
    ServerMessagesAlong(s, users, today);
    var m := ActivityByUser(s, today);
    forall u
      ensures u in m <==> u in users
    {
      assert u in m <==> u in s;
    }
    SumAlongAll(m, users);
  }

  /** Sorting the ids by activity keeps them a key order of the store. */
  lemma ByActivityKeyOrder(s: Store, order: seq<UserId>, today: Day)
    requires KeyOrder(order, s)
    ensures KeyOrder(ByActivity(s, order, today), s)
  {
    var sorted := ByActivity(s, order, today);
    PermutationDistinct(order, sorted);
    forall u
      ensures u in s <==> u in sorted
    {
      MultisetMembership(order, sorted, u);
    }
  }

  /** One line of the top five: `**#${idx + 1}** ${id}: ${count} messages`. */
  datatype RankLine = RankLine(position: int, userId: UserId, messages: int)

  /** `sorted.slice(0, n)` with each id's seven-day count. */
  function TopUsers(s: Store, order: seq<UserId>, today: Day, n: nat): seq<RankLine>
  {
    var sorted := ByActivity(s, order, today);
    seq(Min(n, |sorted|), i requires 0 <= i < Min(n, |sorted|) =>
      RankLine(i + 1, sorted[i], WindowMessages(s, sorted[i], today)))
  }

  /**
   * The top lines are the `n` most active users, numbered from 1 with
   * their server rank, and nobody left out sent more than anyone listed.
   */
  lemma TopUsersAreTop(s: Store, order: seq<UserId>, today: Day, n: nat)
    requires KeyOrder(order, s)
    ensures var top := TopUsers(s, order, today, n);
      && |top| == Min(n, |order|)
      && (forall i :: 0 <= i < |top| ==>
            top[i].userId in s && top[i].position == i + 1
            && top[i].messages == WindowMessages(s, top[i].userId, today)
            && Rank(s, order, top[i].userId, today) == top[i].position)
      && (forall v, i :: v in s && 0 <= i < |top| && (forall j :: 0 <= j < |top| ==> top[j].userId != v) ==>
            WindowMessages(s, v, today) <= top[i].messages)
  {
    ByActivityKeyOrder(s, order, today);
    TopLinesRanked(s, order, today, n);
    TopLinesAbove(s, order, today, n);
  }

  lemma TopLinesRanked(s: Store, order: seq<UserId>, today: Day, n: nat)
    requires KeyOrder(order, s) && KeyOrder(ByActivity(s, order, today), s)
    ensures var top := TopUsers(s, order, today, n);
      forall i :: 0 <= i < |top| ==> top[i].userId in s && Rank(s, order, top[i].userId, today) == top[i].position
  {
    var top := TopUsers(s, order, today, n);
    var sorted := ByActivity(s, order, today);
    forall i | 0 <= i < |top|
      ensures top[i].userId in s && Rank(s, order, top[i].userId, today) == top[i].position
    {
      assert sorted[i] in sorted;
      IndexOfDistinct(sorted, i);
    }
  }

  lemma TopLinesAbove(s: Store, order: seq<UserId>, today: Day, n: nat)
    requires KeyOrder(ByActivity(s, order, today), s)
    ensures var top := TopUsers(s, order, today, n);
      forall v, i :: v in s && 0 <= i < |top| && (forall j :: 0 <= j < |top| ==> top[j].userId != v) ==>
        WindowMessages(s, v, today) <= top[i].messages
  {
    var top := TopUsers(s, order, today, n);
    var sorted := ByActivity(s, order, today);
    forall v, i | v in s && 0 <= i < |top| && (forall j :: 0 <= j < |top| ==> top[j].userId != v)
      ensures WindowMessages(s, v, today) <= top[i].messages
    {
      var k :| 0 <= k < |sorted| && sorted[k] == v;
      UnlistedBelow(top, sorted, v, k);
      assert WindowKey(s, today)(sorted[k]) <= WindowKey(s, today)(sorted[i]);
    }
  }

  /** A user missing from the first lines of a listing sits below them. */
  lemma UnlistedBelow(top: seq<RankLine>, sorted: seq<UserId>, v: UserId, k: int)
    requires |top| <= |sorted| && forall j :: 0 <= j < |top| ==> top[j].userId == sorted[j]
    requires forall j :: 0 <= j < |top| ==> top[j].userId != v
    requires 0 <= k < |sorted| && sorted[k] == v
    ensures k >= |top|
  {
  }

  // ---------------------------------------------------------------------
  // The `/stats` replies

  /** `Math.round(x)`: the nearest integer, a half rounded up. */
  function Round(x: real): (r: int)
    ensures x - 0.5 < r as real <= x + 0.5
  {
    (x + 0.5).Floor
  }

  /** `Math.floor(seconds / 60)`: the whole minutes in `seconds`. */
  function WholeMinutes(seconds: real): (r: int)
    ensures r as real * 60.0 <= seconds < (r + 1) as real * 60.0
  {
    (seconds / 60.0).Floor
  }

  /** A day's point on the voice chart: the seconds rounded, then rounded to minutes. */
  function ChartMinutes(seconds: real): int
  {
    Round(Round(seconds) as real / 60.0)
  }

  /** The numbers `/stats me` shows. */
  datatype MeReply = MeReply(
    rank: int,
    messages7d: int,
    /** `None` is "No Data". */
    voice7dMinutes: Option<int>,
    messagesByDay: seq<int>,
    voiceMinutesByDay: seq<int>,
    topChannels: seq<ChannelEntry>)

  datatype Reply =
    | NoReply
    | TooFast
    | Me(me: MeReply)
    | NoStatsYet
    | ServerSummary(totalMessages: int, totalVoiceMinutes: int, top5: seq<RankLine>)

  /** The messages of each of the listed days. */
  function DailyMessages(s: Store, u: UserId, days: seq<Day>): seq<int>
  {
    seq(|days|, i requires 0 <= i < |days| => DayOf(s, u, days[i]).messages)
  }

  function Total(xs: seq<int>): int
  {
    if xs == [] then 0 else Total(xs[..|xs| - 1]) + xs[|xs| - 1]
  }

  /** The chart's points add up to the seven-day count shown beside it. */
  lemma {:induction false} ChartAddsUp(s: Store, u: UserId, days: seq<Day>)
    ensures Total(DailyMessages(s, u, days)) == MessagesOn(s, u, days)
  {
    if days != [] {
      var init := days[..|days| - 1];
      ChartAddsUp(s, u, init);
      assert DailyMessages(s, u, days)[..|days| - 1] == DailyMessages(s, u, init);
    }
  }

  /** What `/stats me` shows `u`. */
  ghost predicate MeReplyFor(r: MeReply, s: Store, order: seq<UserId>, u: UserId, today: Day)
  {
    var days := Last7(today);
    && r.rank == Rank(s, order, u, today)
    && r.messages7d == WindowMessages(s, u, today)
    && r.voice7dMinutes == (if WindowVoice(s, u, today) > 0.0 then Some(WholeMinutes(WindowVoice(s, u, today))) else None)
    && r.messagesByDay == DailyMessages(s, u, days)
    && r.voiceMinutesByDay == seq(7, i requires 0 <= i < 7 => ChartMinutes(DayOf(s, u, days[i]).voiceTime))
    && TopOf(r.topChannels, ChannelTotals(s, u, days), 3)
  }

  /** The `"me"` branch of the handler. */
  method StatsMe(s: Store, order: seq<UserId>, u: UserId, today: Day) returns (r: MeReply)
    ensures MeReplyFor(r, s, order, u, today)
  {
    var last7Msg := GetLast7DaysMessagesLocal(s, u, today);
    var last7Voice := GetLast7DaysVoiceTimeLocal(s, u, today);
    var rank := Rank(s, order, u, today);
    var dates := GetLast7Dates(today);
    var messagesArr := seq(7, i requires 0 <= i < 7 => DayOf(s, u, dates[i]).messages);
    var voiceArr := seq(7, i requires 0 <= i < 7 => Round(DayOf(s, u, dates[i]).voiceTime));
    var chartVoice := seq(7, i requires 0 <= i < 7 => Round(voiceArr[i] as real / 60.0));
    var sorted := GetTopChannelsLocal(s, u, today);
    var top := sorted[..Min(3, |sorted|)];
    TakeTop(sorted, ChannelTotals(s, u, dates), 3);
    var voiceField := if last7Voice > 0.0 then Some(WholeMinutes(last7Voice)) else None;
    r := MeReply(rank, last7Msg, voiceField, messagesArr, chartVoice, top);
  }

  /** What `/stats server` shows. */
  function ServerReply(s: Store, order: seq<UserId>, today: Day): Reply
  {
    if |order| == 0 then NoStatsYet
    else
      var sorted := ByActivity(s, order, today);
      ServerSummary(ServerMessages(s, sorted, today), WholeMinutes(ServerVoice(s, sorted, today)), TopUsers(s, order, today, 5))
  }

  /** The `"server"` branch of the handler. */
  method StatsServer(s: Store, order: seq<UserId>, today: Day) returns (r: Reply)
    ensures r == ServerReply(s, order, today)
  {
    if |order| == 0 {
      return NoStatsYet;
    }
    var sorted := ByActivity(s, order, today);
    var top5 := TopUsers(s, order, today, 5);
    var totalMsg, totalVoice := ServerTotals(s, sorted, today);
    r := ServerSummary(totalMsg, WholeMinutes(totalVoice), top5);
  }

  /**
   * `/stats server` answers "No stats available yet." exactly when no user
   * has an entry; otherwise its total is every user's seven-day count added
   * up and its five lines are the five most active users.
   */
  lemma ServerReplyMeaning(s: Store, order: seq<UserId>, today: Day)
    requires KeyOrder(order, s)
    ensures ServerReply(s, order, today) == NoStatsYet <==> |s| == 0
    ensures |s| > 0 ==> ServerReply(s, order, today).totalMessages == SumInts(ActivityByUser(s, today))
    ensures |s| > 0 ==> |ServerReply(s, order, today).top5| == Min(5, |order|)
  {
    if |s| > 0 {
      var u := Pick(s);
      assert u in order;
      ByActivityKeyOrder(s, order, today);
      ServerTotalAnyOrder(s, ByActivity(s, order, today), today);
      TopUsersAreTop(s, order, today, 5);
    }
  }

  /** The `interactionCreate` fields the handler reads. */
  datatype Interaction = Interaction(isChatInputCommand: bool, commandName: string, user: UserId, subcommand: string)

  /** The `interactionCreate` handler registered by `registerCommands`. */
  method HandleInteraction(limiter: RateLimiter, store: StatsStore, i: Interaction, now: int, today: Day)
    returns (reply: Reply)
    modifies limiter
    ensures !i.isChatInputCommand || i.commandName != "stats" ==>
      reply == NoReply && limiter.lastAccepted == old(limiter.lastAccepted)
    ensures i.isChatInputCommand && i.commandName == "stats" ==>
      var ok := Admits(old(limiter.lastAccepted), limiter.limitMs, i.user, now);
      && limiter.lastAccepted == (if ok then old(limiter.lastAccepted)[i.user := now] else old(limiter.lastAccepted))
      && (!ok ==> reply == TooFast)
      && (ok && i.subcommand == "me" ==> reply.Me? && MeReplyFor(reply.me, store.stats, store.order, i.user, today))
      && (ok && i.subcommand == "server" ==> reply == ServerReply(store.stats, store.order, today))
      && (ok && i.subcommand != "me" && i.subcommand != "server" ==> reply == NoReply)
  {
    if !i.isChatInputCommand || i.commandName != "stats" {
      return NoReply;
    }
    var accepted := limiter.Admit(i.user, now);
    if !accepted {
      return TooFast;
    }
    if i.subcommand == "me" {
      var me := StatsMe(store.stats, store.order, i.user, today);
      reply := Me(me);
    } else if i.subcommand == "server" {
      reply := StatsServer(store.stats, store.order, today);
    } else {
      reply := NoReply;
    }
  }
}
