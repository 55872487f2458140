/**
 * The in-memory activity aggregate store, as values: one `UserStats` per
 * user (lifetime totals and a map from day to `DayStats`), the lazy
 * creation of entries, the two recording operations, and the counter
 * invariants they keep. The imperative store in module StatsManager is
 * specified by these functions.
 *
 * A UTC calendar day ("YYYY-MM-DD") is an integer day number; voice time is
 * an exact real number of seconds.
 */
module Aggregates {
  import opened MapSums

  type UserId = int
  type ChannelId = int
  type Day = int

  datatype DayStats = DayStats(messages: int, voiceTime: real, channels: map<ChannelId, int>)
  datatype UserStats = UserStats(totalMessages: int, totalVoiceTime: real, daily: map<Day, DayStats>)

  /** The `stats` object: user id to aggregates. */
  type Store = map<UserId, UserStats>

  /** `{ totalMessages: 0, totalVoiceTime: 0, daily: {} }` */
  const NewUser := UserStats(0, 0.0, map[])
  /** `{ messages: 0, voiceTime: 0, channels: {} }` */
  const NewDay := DayStats(0, 0.0, map[])

  /** A user's entry, reading an absent one as zero. */
  function UserOf(s: Store, u: UserId): UserStats
  {
    if u in s then s[u] else NewUser
  }

  /** A user's entry for one day, reading an absent day as zero. */
  function DayOfUser(user: UserStats, d: Day): DayStats
  {
    if d in user.daily then user.daily[d] else NewDay
  }

  /** A user's entry for one day, reading an absent user or day as zero. */
  function DayOf(s: Store, u: UserId, d: Day): DayStats
  {
    DayOfUser(UserOf(s, u), d)
  }

  /** `channels[channelId] || 0` */
  function ChannelCount(day: DayStats, c: ChannelId): int
  {
    GetInt(day.channels, c)
  }

  /** `getLast7Dates`: the seven days ending today, oldest first. */
  function Last7(today: Day): (r: seq<Day>)
    ensures |r| == 7 && r[6] == today
    ensures forall i :: 0 <= i < 6 ==> r[i + 1] == r[i] + 1
    ensures forall i, j :: 0 <= i < j < 7 ==> r[i] < r[j]
    ensures forall d :: d in r <==> today - 6 <= d <= today
  {
    var r := seq(7, i => today - 6 + i);
    assert forall d :: today - 6 <= d <= today ==> d in r by {
      forall d | today - 6 <= d <= today
        ensures d in r
      {
        assert r[d - (today - 6)] == d;
      }
    }
    r
  }

  /** `initUserStats`: creates a zeroed entry only for an absent user. */
  function EnsureUser(s: Store, u: UserId): (r: Store)
    ensures r.Keys == s.Keys + {u}
    ensures r[u] == UserOf(s, u)
    ensures forall v :: v in s ==> r[v] == s[v]
  {
    if u in s then s else s[u := NewUser]
  }

  /**
   * `initUserDateStats`: makes sure the user and the day exist; an existing
   * day is never reset.
   */
  function EnsureDay(s: Store, u: UserId, d: Day): (r: Store)
    ensures r.Keys == s.Keys + {u}
    ensures forall v :: v in s && v != u ==> r[v] == s[v]
    ensures r[u].totalMessages == UserOf(s, u).totalMessages
    ensures r[u].totalVoiceTime == UserOf(s, u).totalVoiceTime
    ensures r[u].daily.Keys == UserOf(s, u).daily.Keys + {d}
    ensures r[u].daily[d] == DayOf(s, u, d)
    ensures forall e :: e in UserOf(s, u).daily ==> r[u].daily[e] == UserOf(s, u).daily[e]
  {
    var s1 := EnsureUser(s, u);
    if d in s1[u].daily then s1
    else s1[u := s1[u].(daily := s1[u].daily[d := NewDay])]
  }

  /** One day's entry after one message in channel `c`. */
  function DayMessage(day: DayStats, c: ChannelId): DayStats
  {
    DayStats(day.messages + 1, day.voiceTime, day.channels[c := ChannelCount(day, c) + 1])
  }

  /** One user's entry after one message in channel `c` on day `today`. */
  function AddMessage(user: UserStats, c: ChannelId, today: Day): UserStats
  {
    UserStats(user.totalMessages + 1, user.totalVoiceTime,
              user.daily[today := DayMessage(DayOfUser(user, today), c)])
  }

  /** One user's entry after `seconds` of voice time credited to day `today`. */
  function AddVoice(user: UserStats, seconds: real, today: Day): UserStats
  {
    var day := DayOfUser(user, today);
    UserStats(user.totalMessages, user.totalVoiceTime + seconds,
              user.daily[today := day.(voiceTime := day.voiceTime + seconds)])
  }

  /**
   * `recordMessage(userId, channelId)` on day `today`: exactly the user's
   * total, that day's count and that day's count for the channel go up by
   * one; nothing else changes.
   */
  function WithMessage(s: Store, u: UserId, c: ChannelId, today: Day): (r: Store)
    ensures r.Keys == s.Keys + {u}
    ensures r[u].daily.Keys == UserOf(s, u).daily.Keys + {today}
    ensures r[u].daily[today].channels.Keys == DayOf(s, u, today).channels.Keys + {c}
    ensures forall v :: v in s && v != u ==> r[v] == s[v]
    ensures forall v {:trigger UserOf(r, v)} :: UserOf(r, v).totalMessages == UserOf(s, v).totalMessages + (if v == u then 1 else 0)
    ensures forall v {:trigger UserOf(r, v)} :: UserOf(r, v).totalVoiceTime == UserOf(s, v).totalVoiceTime
    ensures forall v, d {:trigger DayOf(r, v, d)} :: DayOf(r, v, d).messages == DayOf(s, v, d).messages + (if v == u && d == today then 1 else 0)
    ensures forall v, d {:trigger DayOf(r, v, d)} :: DayOf(r, v, d).voiceTime == DayOf(s, v, d).voiceTime
    ensures forall v, d, k {:trigger ChannelCount(DayOf(r, v, d), k)} ::
      ChannelCount(DayOf(r, v, d), k) == ChannelCount(DayOf(s, v, d), k) + (if v == u && d == today && k == c then 1 else 0)
    ensures forall d {:trigger DayOf(r, u, d)} :: d != today ==> DayOf(r, u, d) == DayOf(s, u, d)
  {
    s[u := AddMessage(UserOf(s, u), c, today)]
  }

  /**
   * `recordVoiceTime(userId, seconds)` on day `today`: `seconds` is added,
   * unclamped, to the user's total and to that day's voice time; message
   * counters and channel maps do not change.
   */
  function WithVoice(s: Store, u: UserId, seconds: real, today: Day): (r: Store)
    ensures r.Keys == s.Keys + {u}
    ensures r[u].daily.Keys == UserOf(s, u).daily.Keys + {today}
    ensures forall v :: v in s && v != u ==> r[v] == s[v]
    ensures forall v {:trigger UserOf(r, v)} :: UserOf(r, v).totalMessages == UserOf(s, v).totalMessages
    ensures forall v {:trigger UserOf(r, v)} :: UserOf(r, v).totalVoiceTime == UserOf(s, v).totalVoiceTime + (if v == u then seconds else 0.0)
    ensures forall v, d {:trigger DayOf(r, v, d)} :: DayOf(r, v, d).messages == DayOf(s, v, d).messages
    ensures forall v, d {:trigger DayOf(r, v, d)} :: DayOf(r, v, d).channels == DayOf(s, v, d).channels
    ensures forall v, d {:trigger DayOf(r, v, d)} :: DayOf(r, v, d).voiceTime == DayOf(s, v, d).voiceTime + (if v == u && d == today then seconds else 0.0)
  {
    s[u := AddVoice(UserOf(s, u), seconds, today)]
  }

  // ---------------------------------------------------------------------
  // Counter invariants

  ghost function MessagesByDay(daily: map<Day, DayStats>): map<Day, int>
  {
    map d | d in daily :: daily[d].messages
  }

  ghost function VoiceByDay(daily: map<Day, DayStats>): map<Day, real>
  {
    map d | d in daily :: daily[d].voiceTime
  }

  /** A day's channel counts are non-negative and add up to its message count. */
  ghost predicate DayConsistent(day: DayStats)
  {
    && (forall c :: c in day.channels ==> day.channels[c] >= 0)
    && SumInts(day.channels) == day.messages
  }

  /** The days add up to the lifetime totals. */
  ghost predicate UserConsistent(user: UserStats)
  {
    && (forall d :: d in user.daily ==> DayConsistent(user.daily[d]))
    && SumInts(MessagesByDay(user.daily)) == user.totalMessages
    && SumReals(VoiceByDay(user.daily)) == user.totalVoiceTime
  }

  ghost predicate Consistent(s: Store)
  {
    forall u :: u in s ==> UserConsistent(s[u])
  }

  lemma EmptyStoreConsistent()
    ensures Consistent(map[])
  {
  }

  lemma NewEntriesConsistent()
    ensures UserConsistent(NewUser) && DayConsistent(NewDay)
  {
    assert MessagesByDay(map[]) == map[];
    assert VoiceByDay(map[]) == map[];
  }

  /** The entry read for a user of a consistent store is consistent, present or not. */
  lemma UserOfConsistent(s: Store, u: UserId, d: Day)
    requires Consistent(s)
    ensures UserConsistent(UserOf(s, u)) && DayConsistent(DayOf(s, u, d))
  {
    NewEntriesConsistent();
  }

  /** A consistent day never has a negative message count. */
  lemma DayMessagesNonNegative(day: DayStats)
    requires DayConsistent(day)
    ensures day.messages >= 0
  {
    assert forall k :: k in day.channels ==> day.channels[k] >= 0;
    SumIntsNonNegative(day.channels);
  }

  lemma ReplaceDayMessages(daily: map<Day, DayStats>, d: Day, day: DayStats)
    ensures SumInts(MessagesByDay(daily[d := day]))
         == SumInts(MessagesByDay(daily)) - (if d in daily then daily[d].messages else 0) + day.messages
  {
    SumIntsUpdate(MessagesByDay(daily), d, day.messages);
    MessagesByDayUpdate(daily, d, day);
  }

  lemma MessagesByDayUpdate(daily: map<Day, DayStats>, d: Day, day: DayStats)
    ensures MessagesByDay(daily[d := day]) == MessagesByDay(daily)[d := day.messages]
  {
  }

  lemma ReplaceDayVoice(daily: map<Day, DayStats>, d: Day, day: DayStats)
    ensures SumReals(VoiceByDay(daily[d := day]))
         == SumReals(VoiceByDay(daily)) - (if d in daily then daily[d].voiceTime else 0.0) + day.voiceTime
  {
    SumRealsUpdate(VoiceByDay(daily), d, day.voiceTime);
    VoiceByDayUpdate(daily, d, day);
  }

  lemma VoiceByDayUpdate(daily: map<Day, DayStats>, d: Day, day: DayStats)
    ensures VoiceByDay(daily[d := day]) == VoiceByDay(daily)[d := day.voiceTime]
  {
  }

  /**
   * Replacing one day of a consistent user by a consistent day, with the
   * totals moved by the same differences, gives a consistent user.
   */
  lemma ReplaceDayConsistent(user: UserStats, d: Day, day: DayStats, totalMessages: int, totalVoiceTime: real)
    requires UserConsistent(user) && DayConsistent(day)
    requires totalMessages == user.totalMessages - (if d in user.daily then user.daily[d].messages else 0) + day.messages
    requires totalVoiceTime == user.totalVoiceTime - (if d in user.daily then user.daily[d].voiceTime else 0.0) + day.voiceTime
    ensures UserConsistent(UserStats(totalMessages, totalVoiceTime, user.daily[d := day]))
  {
    ReplaceDayMessages(user.daily, d, day);
    ReplaceDayVoice(user.daily, d, day);
  }

  /** Creating the user and the day on demand keeps the invariants. */
  lemma EnsureDayPreservesConsistency(s: Store, u: UserId, d: Day)
    requires Consistent(s)
    ensures Consistent(EnsureDay(s, u, d))
  {
    var user := UserOf(s, u);
    UserOfConsistent(s, u, d);
    var r := EnsureDay(s, u, d);
    if d !in user.daily {
      ReplaceDayConsistent(user, d, NewDay, user.totalMessages, user.totalVoiceTime);
      assert r[u] == UserStats(user.totalMessages, user.totalVoiceTime, user.daily[d := NewDay]);
    } else {
      assert r[u] == user;
    }
  }

  /** Overwriting the day `initUserDateStats` made sure of gives the same days as overwriting it directly. */
  lemma EnsureDayThenSet(s: Store, u: UserId, d: Day, day: DayStats)
    ensures EnsureDay(s, u, d)[u].daily[d := day] == UserOf(s, u).daily[d := day]
  {
    if u in s && d !in s[u].daily {
      UpdateTwice(s[u].daily, d, NewDay, day);
    } else if u !in s {
      UpdateTwice(NewUser.daily, d, NewDay, day);
    }
  }

  /** Replacing one user of a consistent store by a consistent entry keeps the store consistent. */
  lemma ReplaceUserConsistent(s: Store, u: UserId, user: UserStats)
    requires Consistent(s) && UserConsistent(user)
    ensures Consistent(s[u := user])
  {
  }

  /** Counting one message in a consistent day keeps the day consistent. */
  lemma DayMessageConsistent(day: DayStats, c: ChannelId)
    requires DayConsistent(day)
    ensures DayConsistent(DayMessage(day, c))
  {
    SumIntsUpdate(day.channels, c, ChannelCount(day, c) + 1);
    DayMessagesNonNegative(day);
  }

  /** The entry `recordMessage` makes of a consistent user is consistent. */
  lemma UserMessageStep(user: UserStats, c: ChannelId, today: Day)
    requires UserConsistent(user)
    ensures UserConsistent(AddMessage(user, c, today))
  {
    var day := DayOfUser(user, today);
    assert DayConsistent(day) by {
      NewEntriesConsistent();
    }
    DayMessageConsistent(day, c);
    ReplaceDayConsistent(user, today, DayMessage(day, c), user.totalMessages + 1, user.totalVoiceTime);
  }

  /** The entry `recordVoiceTime` makes of a consistent user is consistent. */
  lemma UserVoiceStep(user: UserStats, seconds: real, today: Day)
    requires UserConsistent(user)
    ensures UserConsistent(AddVoice(user, seconds, today))
  {
    var day := DayOfUser(user, today);
    assert DayConsistent(day) by {
      NewEntriesConsistent();
    }
    var day' := day.(voiceTime := day.voiceTime + seconds);
    assert DayConsistent(day');
    ReplaceDayConsistent(user, today, day', user.totalMessages, user.totalVoiceTime + seconds);
    assert AddVoice(user, seconds, today) == UserStats(user.totalMessages, user.totalVoiceTime + seconds, user.daily[today := day']);
  }

  /** `recordMessage` keeps both message invariants and the voice invariant. */
  lemma MessagePreservesConsistency(s: Store, u: UserId, c: ChannelId, today: Day)
    requires Consistent(s)
    ensures Consistent(WithMessage(s, u, c, today))
  {
    UserOfConsistent(s, u, today);
    UserMessageStep(UserOf(s, u), c, today);
    ReplaceUserConsistent(s, u, AddMessage(UserOf(s, u), c, today));
  }

  /** `recordVoiceTime` keeps the voice invariant (and leaves the message ones alone). */
  lemma VoicePreservesConsistency(s: Store, u: UserId, seconds: real, today: Day)
    requires Consistent(s)
    ensures Consistent(WithVoice(s, u, seconds, today))
  {
    UserOfConsistent(s, u, today);
    UserVoiceStep(UserOf(s, u), seconds, today);
    ReplaceUserConsistent(s, u, AddVoice(UserOf(s, u), seconds, today));
  }
}
