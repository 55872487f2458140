/**
 * `src/statsManager.js` (and its copy at the top of `bot.js`): the module-level
 * `stats` object, updated in place by the lazy initialisers and the two
 * recording operations, the seven-day window, and the flush into the
 * durable tables.
 *
 * `stats` is a JavaScript object, so besides its entries it has a key order
 * (`Object.keys`, `for ... in`): insertion order, since Discord ids are not
 * array indices. The class keeps that order in `order`.
 */
module StatsManager {
  import opened Common
  import opened Aggregates
  import opened Durable
  import opened MapSums

  /** `order` lists each key of `s` exactly once. */
  ghost predicate KeyOrder(order: seq<UserId>, s: Store)
  {
    Distinct(order) && forall u :: u in s <==> u in order
  }

  /** The key order after `u` has been made present in `s`. */
  function OrderWith(order: seq<UserId>, s: Store, u: UserId): (r: seq<UserId>)
    ensures u in s ==> r == order
    ensures u !in s ==> |r| == |order| + 1 && r[..|order|] == order && r[|order|] == u
  {
    if u in s then order else order + [u]
  }

  lemma OrderWithKeeps(order: seq<UserId>, s: Store, u: UserId, s': Store)
    requires KeyOrder(order, s) && s'.Keys == s.Keys + {u}
    ensures KeyOrder(OrderWith(order, s, u), s')
  {
  }

  // ---------------------------------------------------------------------
  // Flush: the rows a store is written as

  /** The `user_stats` rows of a store: one per user. */
  function UserRowsOf(s: Store): (r: map<UserId, UserRow>)
  {
    map u | u in s :: RowOf(s[u])
  }

  /** The `daily_stats` rows of a store. */
  function DailyRowsOf(s: Store): (r: map<(UserId, Day), DayStats>)
  {
    map u, d | u in s && d in s[u].daily :: (u, d) := s[u].daily[d]
  }

  /** The `daily_stats` rows of the days `ds` of user `u`. */
  function DayRowsFor(s: Store, u: UserId, ds: set<Day>): (r: map<(UserId, Day), DayStats>)
  {
    map d | d in ds && d in UserOf(s, u).daily :: (u, d) := UserOf(s, u).daily[d]
  }

  /** The `user_stats` rows written for the first `i` users of `order`. */
  function UserRowsUpTo(s: Store, order: seq<UserId>, i: nat): map<UserId, UserRow>
    requires i <= |order|
  {
    if i == 0 then map[]
    else UserRowsUpTo(s, order, i - 1)[order[i - 1] := RowOf(UserOf(s, order[i - 1]))]
  }

  /** The `daily_stats` rows written for the first `i` users of `order`. */
  function DailyRowsUpTo(s: Store, order: seq<UserId>, i: nat): map<(UserId, Day), DayStats>
    requires i <= |order|
  {
    if i == 0 then map[]
    else DailyRowsUpTo(s, order, i - 1) + DayRowsFor(s, order[i - 1], UserOf(s, order[i - 1]).daily.Keys)
  }

  /** Some write for user `u` throws: its `user_stats` row or one of its `daily_stats` rows. */
  ghost predicate UserFails(failing: set<RowKey>, s: Store, u: UserId)
  {
    UserKey(u) in failing || exists d :: d in UserOf(s, u).daily && DailyKey(u, d) in failing
  }

  /**
   * The days of user `u` whose rows the inner loop writes before it stops,
   * visiting the days in date order: those with no failing row on or before
   * them (all of them when none fails).
   */
  ghost function DaysBefore(failing: set<RowKey>, s: Store, u: UserId): set<Day>
  {
    set d | d in UserOf(s, u).daily && forall e :: e in UserOf(s, u).daily && e <= d ==> DailyKey(u, e) !in failing
  }

  /** The days of `u` a pass writes before it stops at `u`: none when its totals write throws. */
  ghost function WrittenDays(failing: set<RowKey>, s: Store, u: UserId): set<Day>
  {
    if UserKey(u) in failing then {} else DaysBefore(failing, s, u)
  }

  /** The position, from `i` on, of the first user of `order` with a failing write (`|order|` if none). */
  ghost function FirstFailingFrom(failing: set<RowKey>, s: Store, order: seq<UserId>, i: nat): (r: nat)
    requires i <= |order|
    ensures i <= r <= |order|
    ensures forall j :: i <= j < r ==> !UserFails(failing, s, order[j])
    ensures r < |order| ==> UserFails(failing, s, order[r])
    decreases |order| - i
  {
    if i == |order| || UserFails(failing, s, order[i]) then i else FirstFailingFrom(failing, s, order, i + 1)
  }

  /** The position of the first user of `order` with a failing write, where a pass stops. */
  ghost function FirstFailing(failing: set<RowKey>, s: Store, order: seq<UserId>): (r: nat)
    ensures r <= |order|
    ensures forall j :: 0 <= j < r ==> !UserFails(failing, s, order[j])
    ensures r < |order| ==> UserFails(failing, s, order[r])
  {
    FirstFailingFrom(failing, s, order, 0)
  }

  /** A pass that wrote the first `k` users without a failure and stops at `k` stopped at the first failing user. */
  lemma FirstFailingIs(failing: set<RowKey>, s: Store, order: seq<UserId>, k: nat)
    requires k <= |order| && NoneFail(failing, s, order, k)
    requires k < |order| ==> UserFails(failing, s, order[k])
    ensures FirstFailing(failing, s, order) == k
  {
    var r := FirstFailing(failing, s, order);
    if r < k {
      NoneFailAt(failing, s, order, k, r);
    }
  }

  /** The `user_stats` table after one pass of the flush over `s` in the order `order`. */
  ghost function FlushedUserRows(users: map<UserId, UserRow>, failing: set<RowKey>, s: Store, order: seq<UserId>): map<UserId, UserRow>
  {
    var k := FirstFailing(failing, s, order);
    if k < |order| && UserKey(order[k]) !in failing then users + UserRowsUpTo(s, order, k + 1)
    else users + UserRowsUpTo(s, order, k)
  }

  /** The `daily_stats` table after one pass of the flush over `s` in the order `order`. */
  ghost function FlushedDailyRows(days: map<(UserId, Day), DayStats>, failing: set<RowKey>, s: Store, order: seq<UserId>): map<(UserId, Day), DayStats>
  {
    var k := FirstFailing(failing, s, order);
    if k == |order| then days + DailyRowsUpTo(s, order, k)
    else days + DailyRowsUpTo(s, order, k) + DayRowsFor(s, order[k], WrittenDays(failing, s, order[k]))
  }

  /** No write for the first `i` users of `order` throws. */
  ghost predicate NoneFail(failing: set<RowKey>, s: Store, order: seq<UserId>, i: nat)
    requires i <= |order|
  {
    i == 0 || (NoneFail(failing, s, order, i - 1) && !UserFails(failing, s, order[i - 1]))
  }

  lemma {:induction false} NoneFailAt(failing: set<RowKey>, s: Store, order: seq<UserId>, i: nat, j: nat)
    requires i <= |order|
    requires NoneFail(failing, s, order, i) && j < i
    ensures !UserFails(failing, s, order[j])
  {
    if j < i - 1 {
      NoneFailAt(failing, s, order, i - 1, j);
    }
  }

  lemma DailyRowsStep(base: map<(UserId, Day), DayStats>, s: Store, order: seq<UserId>, i: nat)
    requires i < |order| && order[i] in s
    ensures base + DailyRowsUpTo(s, order, i) + DayRowsFor(s, order[i], s[order[i]].daily.Keys) == base + DailyRowsUpTo(s, order, i + 1)
  {
    PlusAssoc(base, DailyRowsUpTo(s, order, i), DayRowsFor(s, order[i], s[order[i]].daily.Keys));
  }

  lemma UserRowsStep(base: map<UserId, UserRow>, s: Store, order: seq<UserId>, i: nat)
    requires i < |order| && order[i] in s
    ensures (base + UserRowsUpTo(s, order, i))[order[i] := RowOf(s[order[i]])] == base + UserRowsUpTo(s, order, i + 1)
  {
    PlusUpdate(base, UserRowsUpTo(s, order, i), order[i], RowOf(s[order[i]]));
  }

  lemma {:induction false} UserRowsUpToAt(s: Store, order: seq<UserId>, i: nat, u: UserId)
    requires i <= |order|
    ensures u in UserRowsUpTo(s, order, i) <==> u in order[..i]
    ensures u in UserRowsUpTo(s, order, i) ==> UserRowsUpTo(s, order, i)[u] == RowOf(UserOf(s, u))
  {
    if i > 0 {
      UserRowsUpToAt(s, order, i - 1, u);
      assert order[..i] == order[..i - 1] + [order[i - 1]];
    }
  }

  lemma {:induction false} DailyRowsUpToAt(s: Store, order: seq<UserId>, i: nat, k: (UserId, Day))
    requires i <= |order|
    ensures k in DailyRowsUpTo(s, order, i) <==> k.0 in UserRowsUpTo(s, order, i) && k.1 in UserOf(s, k.0).daily
  {
    if i > 0 {
      var u := order[i - 1];
      RowsUpToStep(s, order, i, k);
      DailyRowsUpToAt(s, order, i - 1, k);
      DayRowsForAt(s, u, UserOf(s, u).daily.Keys, k);
    }
  }

  /** The rows written for the first `i` users are those for the first `i - 1` and those of user `i - 1`. */
  lemma RowsUpToStep(s: Store, order: seq<UserId>, i: nat, k: (UserId, Day))
    requires 0 < i <= |order|
    ensures k in DailyRowsUpTo(s, order, i)
        <==> k in DailyRowsUpTo(s, order, i - 1) || k in DayRowsFor(s, order[i - 1], UserOf(s, order[i - 1]).daily.Keys)
    ensures k.0 in UserRowsUpTo(s, order, i) <==> k.0 in UserRowsUpTo(s, order, i - 1) || k.0 == order[i - 1]
  {
  }

  lemma {:induction false} DailyRowsUpToValue(s: Store, order: seq<UserId>, i: nat, k: (UserId, Day))
    requires i <= |order|
    requires k in DailyRowsUpTo(s, order, i)
    ensures k.1 in UserOf(s, k.0).daily && DailyRowsUpTo(s, order, i)[k] == UserOf(s, k.0).daily[k.1]
  {
    var u := order[i - 1];
    var last := DayRowsFor(s, u, UserOf(s, u).daily.Keys);
    DayRowsForAt(s, u, UserOf(s, u).daily.Keys, k);
    if k !in last {
      DailyRowsUpToValue(s, order, i - 1, k);
    }
  }

  lemma KeyOrderMembers(order: seq<UserId>, s: Store)
    requires KeyOrder(order, s)
    ensures forall j :: 0 <= j < |order| ==> order[j] in s
  {
    forall j | 0 <= j < |order|
      ensures order[j] in s
    {
      var u := order[j];
      assert u in order;
      assert u in s <==> u in order;
    }
  }

  /** Once every user of the key order is written, the totals rows are those of the whole store. */
  lemma UserRowsUpToAll(s: Store, order: seq<UserId>)
    requires KeyOrder(order, s)
    ensures UserRowsUpTo(s, order, |order|) == UserRowsOf(s)
  {
    assert order[..|order|] == order;
    forall u
      ensures u in UserRowsUpTo(s, order, |order|) <==> u in UserRowsOf(s)
      ensures u in UserRowsOf(s) ==> UserRowsUpTo(s, order, |order|)[u] == UserRowsOf(s)[u]
    {
      UserRowsUpToAt(s, order, |order|, u);
    }
  }

  /** Once every user of the key order is written, the daily rows are those of the whole store. */
  lemma DailyRowsUpToAll(s: Store, order: seq<UserId>)
    requires KeyOrder(order, s)
    ensures DailyRowsUpTo(s, order, |order|) == DailyRowsOf(s)
  {
    assert order[..|order|] == order;
    forall k: (UserId, Day)
      ensures k in DailyRowsUpTo(s, order, |order|) <==> k in DailyRowsOf(s)
      ensures k in DailyRowsOf(s) ==> DailyRowsUpTo(s, order, |order|)[k] == DailyRowsOf(s)[k]
    {
      DailyRowsUpToAt(s, order, |order|, k);
      UserRowsUpToAt(s, order, |order|, k.0);
      DailyRowsOfAt(s, k);
      if k in DailyRowsOf(s) {
        DailyRowsUpToValue(s, order, |order|, k);
      }
    }
  }

  lemma DailyRowsOfAt(s: Store, k: (UserId, Day))
    ensures k in DailyRowsOf(s) <==> k.0 in s && k.1 in s[k.0].daily
  {
    if k.0 in s && k.1 in s[k.0].daily {
      var u, d := k.0, k.1;
      assert u in s && d in s[u].daily && (u, d) == k;
      assert exists u', d' :: u' in s && d' in s[u'].daily && (u', d') == k;
    }
  }

  lemma DayRowsForAt(s: Store, u: UserId, ds: set<Day>, k: (UserId, Day))
    ensures k in DayRowsFor(s, u, ds) <==> k.0 == u && k.1 in ds && k.1 in UserOf(s, u).daily
    ensures k in DayRowsFor(s, u, ds) ==> DayRowsFor(s, u, ds)[k] == UserOf(s, u).daily[k.1]
  {
    if k.0 == u && k.1 in ds && k.1 in UserOf(s, u).daily {
      var d := k.1;
      assert (u, d) in DayRowsFor(s, u, ds) && k == (u, d);
    }
  }

  lemma AddDayRow(base: map<(UserId, Day), DayStats>, s: Store, u: UserId, ws: set<Day>, d: Day)
    requires d in UserOf(s, u).daily
    ensures (base + DayRowsFor(s, u, ws))[(u, d) := UserOf(s, u).daily[d]] == base + DayRowsFor(s, u, ws + {d})
  {
  }

  /**
   * The steps of `recordMessage` (create the user, count the message in the
   * total, create the day, count it in the day and its channel) add up to
   * `WithMessage`.
   */
  lemma MessageSteps(s: Store, u: UserId, c: ChannelId, today: Day, s2: Store, s3: Store)
    requires s2 == EnsureUser(s, u)[u := EnsureUser(s, u)[u].(totalMessages := EnsureUser(s, u)[u].totalMessages + 1)]
    requires s3 == EnsureDay(s2, u, today)
    ensures s3[u := s3[u].(daily := s3[u].daily[today := DayMessage(s3[u].daily[today], c)])] == WithMessage(s, u, c, today)
  {
    EnsureDayThenSet(s2, u, today, DayMessage(DayOf(s, u, today), c));
  }

  /** The steps of `recordVoiceTime` add up to `WithVoice`. */
  lemma VoiceSteps(s: Store, u: UserId, seconds: real, today: Day, s2: Store, s3: Store)
    requires s2 == EnsureUser(s, u)[u := EnsureUser(s, u)[u].(totalVoiceTime := EnsureUser(s, u)[u].totalVoiceTime + seconds)]
    requires s3 == EnsureDay(s2, u, today)
    ensures var day := s3[u].daily[today];
      s3[u := s3[u].(daily := s3[u].daily[today := day.(voiceTime := day.voiceTime + seconds)])] == WithVoice(s, u, seconds, today)
  {
    var day := DayOf(s, u, today);
    EnsureDayThenSet(s2, u, today, day.(voiceTime := day.voiceTime + seconds));
  }

  class StatsStore {
    /** `stats`: user id to aggregates. */
    var stats: Store
    /** `Object.keys(stats)`. */
    var order: seq<UserId>

    ghost predicate Valid()
      reads this
    {
      KeyOrder(order, stats)
    }

    /** `const stats = {}` */
    constructor ()
      ensures Valid() && stats == map[] && order == []
      ensures Consistent(stats)
    {
      stats := map[];
      order := [];
      EmptyStoreConsistent();
    }

    /** `initUserStats(userId)` */
    method InitUserStats(u: UserId)
      requires Valid()
      modifies this
      ensures Valid()
      ensures stats == EnsureUser(old(stats), u)
      ensures order == OrderWith(old(order), old(stats), u)
    {
      if u !in stats {
        stats := stats[u := NewUser];
        order := order + [u];
      }
    }

    /** `initUserDateStats(userId, date)` */
    method InitUserDateStats(u: UserId, d: Day)
      requires Valid()
      modifies this
      ensures Valid()
      ensures stats == EnsureDay(old(stats), u, d)
      ensures order == OrderWith(old(order), old(stats), u)
    {
      InitUserStats(u);
      if d !in stats[u].daily {
        stats := stats[u := stats[u].(daily := stats[u].daily[d := NewDay])];
      }
    }

    /** `recordMessage(userId, channelId)`, with `today` the day the clock reads. */
    method RecordMessage(u: UserId, c: ChannelId, today: Day)
      requires Valid()
      modifies this
      ensures Valid()
      ensures stats == WithMessage(old(stats), u, c, today)
      ensures order == OrderWith(old(order), old(stats), u)
    {
      ghost var s0 := stats;
      InitUserStats(u);
      stats := stats[u := stats[u].(totalMessages := stats[u].totalMessages + 1)];
      ghost var s2 := stats;
      InitUserDateStats(u, today);
      ghost var s3 := stats;
      var day := stats[u].daily[today];
      stats := stats[u := stats[u].(daily := stats[u].daily[today := DayMessage(day, c)])];
      MessageSteps(s0, u, c, today, s2, s3);
    }

    /** `recordVoiceTime(userId, seconds)`, with `today` the day the clock reads. */
    method RecordVoiceTime(u: UserId, seconds: real, today: Day)
      requires Valid()
      modifies this
      ensures Valid()
      ensures stats == WithVoice(old(stats), u, seconds, today)
      ensures order == OrderWith(old(order), old(stats), u)
    {
      ghost var s0 := stats;
      InitUserStats(u);
      stats := stats[u := stats[u].(totalVoiceTime := stats[u].totalVoiceTime + seconds)];
      ghost var s2 := stats;
      InitUserDateStats(u, today);
      ghost var s3 := stats;
      var day := stats[u].daily[today];
      stats := stats[u := stats[u].(daily := stats[u].daily[today := day.(voiceTime := day.voiceTime + seconds)])];
      VoiceSteps(s0, u, seconds, today, s2, s3);
    }

    /**
     * `flushStatsToDB()`: for each user in key order, upsert the totals row
     * and then each day's row. The first write that throws ends the pass
     * (the error is logged); `stats` is never written.
     */
    method FlushStatsToDB(db: Database) returns (ok: bool, ghost stoppedAt: int, ghost written: set<Day>)
      requires Valid()
      modifies db
      ensures 0 <= stoppedAt <= |order|
      ensures ok <==> stoppedAt == |order|
      ensures forall j :: 0 <= j < stoppedAt ==> !UserFails(db.failing, stats, order[j])
      ensures !ok ==> UserFails(db.failing, stats, order[stoppedAt])
      ensures !ok ==> written == WrittenDays(db.failing, stats, order[stoppedAt])
      ensures ok ==> db.userRows == old(db.userRows) + UserRowsOf(stats)
      ensures ok ==> db.dailyRows == old(db.dailyRows) + DailyRowsOf(stats)
      ensures !ok && UserKey(order[stoppedAt]) in db.failing ==> db.userRows == old(db.userRows) + UserRowsUpTo(stats, order, stoppedAt)
      ensures !ok && UserKey(order[stoppedAt]) !in db.failing ==> db.userRows == old(db.userRows) + UserRowsUpTo(stats, order, stoppedAt + 1)
      ensures !ok ==> db.dailyRows == old(db.dailyRows) + DailyRowsUpTo(stats, order, stoppedAt) + DayRowsFor(stats, order[stoppedAt], written)
      ensures !ok && UserKey(order[stoppedAt]) in db.failing ==> written == {}
      ensures stoppedAt == FirstFailing(db.failing, stats, order)
      ensures db.userRows == FlushedUserRows(old(db.userRows), db.failing, stats, order)
      ensures db.dailyRows == FlushedDailyRows(old(db.dailyRows), db.failing, stats, order)
    {
      KeyOrderMembers(order, stats);
      ok, stoppedAt, written := FlushUsers(db, stats, order);
      forall j | 0 <= j < stoppedAt
        ensures !UserFails(db.failing, stats, order[j])
      {
        NoneFailAt(db.failing, stats, order, stoppedAt, j);
      }
      UserRowsUpToAll(stats, order);
      DailyRowsUpToAll(stats, order);
    }

    /**
     * Two passes of `flushStatsToDB` over an unchanged store, as the flush
     * timer and the exit handler can run them: the second pass repeats the
     * writes of the first and stops at the same failing row, so the tables
     * end as after one pass.
     */
    method FlushTwice(db: Database) returns (ok1: bool, ok2: bool)
      requires Valid()
      modifies db
      ensures ok1 == ok2
      ensures db.userRows == FlushedUserRows(old(db.userRows), db.failing, stats, order)
      ensures db.dailyRows == FlushedDailyRows(old(db.dailyRows), db.failing, stats, order)
      ensures (forall u :: u in stats ==> !UserFails(db.failing, stats, u)) ==>
        && ok1 && ok2
        && db.userRows == old(db.userRows) + UserRowsOf(stats)
        && db.dailyRows == old(db.dailyRows) + DailyRowsOf(stats)
    {
      KeyOrderMembers(order, stats);
      ghost var users0, days0 := db.userRows, db.dailyRows;
      ghost var at1, at2, ws;
      ok1, at1, ws := FlushStatsToDB(db);
      ghost var users1, days1 := db.userRows, db.dailyRows;
      ok2, at2, ws := FlushStatsToDB(db);
      FlushTwiceSameAsOnce(users0, days0, db.failing, stats, order);
      if forall u :: u in stats ==> !UserFails(db.failing, stats, u) {
        PlusAgain(users0, UserRowsOf(stats));
        PlusAgain(days0, DailyRowsOf(stats));
      }
    }
  }

  /**
   * The loop of `flushStatsToDB` over the users of `s` in the order `order`.
   * `stoppedAt` is the position of the user whose write threw (`|order|`
   * when none did), and `written` the days of that user already written.
   */
  method FlushUsers(db: Database, s: Store, order: seq<UserId>) returns (ok: bool, ghost stoppedAt: int, ghost written: set<Day>)
    requires forall j :: 0 <= j < |order| ==> order[j] in s
    modifies db
    ensures 0 <= stoppedAt <= |order|
    ensures ok <==> stoppedAt == |order|
    ensures NoneFail(db.failing, s, order, stoppedAt)
    ensures !ok ==> UserFails(db.failing, s, order[stoppedAt])
    ensures !ok ==> written == WrittenDays(db.failing, s, order[stoppedAt])
    ensures ok ==> db.userRows == old(db.userRows) + UserRowsUpTo(s, order, |order|)
    ensures ok ==> db.dailyRows == old(db.dailyRows) + DailyRowsUpTo(s, order, |order|)
    ensures !ok && UserKey(order[stoppedAt]) in db.failing ==> db.userRows == old(db.userRows) + UserRowsUpTo(s, order, stoppedAt)
    ensures !ok && UserKey(order[stoppedAt]) !in db.failing ==> db.userRows == old(db.userRows) + UserRowsUpTo(s, order, stoppedAt + 1)
    ensures !ok ==> db.dailyRows == old(db.dailyRows) + DailyRowsUpTo(s, order, stoppedAt) + DayRowsFor(s, order[stoppedAt], written)
    ensures !ok && UserKey(order[stoppedAt]) in db.failing ==> written == {}
  {
    ghost var users0, days0 := db.userRows, db.dailyRows;
    var i := 0;
    while i < |order|
      invariant 0 <= i <= |order|
      invariant NoneFail(db.failing, s, order, i)
      invariant db.userRows == users0 + UserRowsUpTo(s, order, i)
      invariant db.dailyRows == days0 + DailyRowsUpTo(s, order, i)
    {
      var u := order[i];
      ok, written := FlushUser(db, s, u);
      UserRowsStep(users0, s, order, i);
      if !ok {
        stoppedAt := i;
        return;
      }
      DailyRowsStep(days0, s, order, i);
      i := i + 1;
    }
    ok, stoppedAt, written := true, |order|, {};
  }

  /** One user's pass of `flushStatsToDB`: the totals row, then each day's row. */
  method FlushUser(db: Database, s: Store, u: UserId) returns (ok: bool, ghost written: set<Day>)
    requires u in s
    modifies db
    ensures ok <==> !UserFails(db.failing, s, u)
    ensures db.userRows == if UserKey(u) in db.failing then old(db.userRows) else old(db.userRows)[u := RowOf(s[u])]
    ensures db.dailyRows == old(db.dailyRows) + DayRowsFor(s, u, written)
    ensures written == WrittenDays(db.failing, s, u)
    ensures ok ==> written == s[u].daily.Keys
    ensures UserKey(u) in db.failing ==> written == {}
  {
    ok := db.UpsertUser(u, RowOf(s[u]));
    if !ok {
      written := {};
      PlusEmpty(db.dailyRows, DayRowsFor(s, u, {}));
      return;
    }
    ok, written := FlushDays(db, s, u);
  }

  /**
   * The inner `for (const date in userData.daily)` loop of `flushStatsToDB`,
   * visiting the days in date order (their insertion order when days are
   * created from the clock). It stops at the first failing row.
   */
  method FlushDays(db: Database, s: Store, u: UserId) returns (ok: bool, ghost written: set<Day>)
    requires u in s
    modifies db
    ensures written == DaysBefore(db.failing, s, u)
    ensures ok <==> forall d :: d in s[u].daily ==> DailyKey(u, d) !in db.failing
    ensures ok ==> written == s[u].daily.Keys
    ensures db.userRows == old(db.userRows)
    ensures db.dailyRows == old(db.dailyRows) + DayRowsFor(s, u, written)
  {
    var days := s[u].daily.Keys;
    written := {};
    PlusEmpty(db.dailyRows, DayRowsFor(s, u, {}));
    while days != {}
      invariant days + written == s[u].daily.Keys && days !! written
      invariant forall a, b :: a in written && b in days ==> a < b
      invariant written <= DaysBefore(db.failing, s, u)
      invariant db.userRows == old(db.userRows)
      invariant db.dailyRows == old(db.dailyRows) + DayRowsFor(s, u, written)
      decreases days
    {
      var d := Earliest(days);
      ok := db.UpsertDaily(u, d, s[u].daily[d]);
      if !ok {
        StopsAtFailingDay(db.failing, s, u, written, days, d);
        return;
      }
      AddDayRow(old(db.dailyRows), s, u, written, d);
      WrittenGrows(db.failing, s, u, written, days, d);
      days := days - {d};
      written := written + {d};
    }
    ok := true;
    AllWritten(db.failing, s, u, written);
  }

  /** The next day the inner loop visits: the earliest one not yet written. */
  method Earliest(days: set<Day>) returns (d: Day)
    requires days != {}
    ensures d in days && forall e :: e in days ==> d <= e
  {
    d := Choose(days);
    var rest := days - {d};
    while rest != {}
      invariant d in days && rest <= days
      invariant forall e :: e in days && e !in rest ==> d <= e
      decreases rest
    {
      var e := Choose(rest);
      if e < d {
        d := e;
      }
      rest := rest - {e};
    }
  }

  /** Writing the earliest unwritten day, which did not fail, keeps the written days clean. */
  lemma WrittenGrows(failing: set<RowKey>, s: Store, u: UserId, written: set<Day>, days: set<Day>, d: Day)
    requires u in s
    requires days + written == s[u].daily.Keys && days !! written
    requires forall a, b :: a in written && b in days ==> a < b
    requires written <= DaysBefore(failing, s, u)
    requires d in days && (forall e :: e in days ==> d <= e) && DailyKey(u, d) !in failing
    ensures written + {d} <= DaysBefore(failing, s, u)
    ensures forall a, b :: a in written + {d} && b in days - {d} ==> a < b
  {
    forall e | e in s[u].daily && e <= d
      ensures DailyKey(u, e) !in failing
    {
      if e != d {
        assert e in written;
      }
    }
  }

  /** When the earliest unwritten day fails, the days written so far are exactly the days before it. */
  lemma StopsAtFailingDay(failing: set<RowKey>, s: Store, u: UserId, written: set<Day>, days: set<Day>, d: Day)
    requires u in s
    requires days + written == s[u].daily.Keys && days !! written
    requires written <= DaysBefore(failing, s, u)
    requires d in days && (forall e :: e in days ==> d <= e) && DailyKey(u, d) in failing
    ensures written == DaysBefore(failing, s, u)
    ensures !forall e :: e in s[u].daily ==> DailyKey(u, e) !in failing
  {
    forall x | x in DaysBefore(failing, s, u)
      ensures x in written
    {
    }
  }

  /** When every day was written, none of them failed. */
  lemma AllWritten(failing: set<RowKey>, s: Store, u: UserId, written: set<Day>)
    requires u in s
    requires written == s[u].daily.Keys && written <= DaysBefore(failing, s, u)
    ensures written == DaysBefore(failing, s, u)
    ensures forall d :: d in s[u].daily ==> DailyKey(u, d) !in failing
  {
    forall d | d in s[u].daily
      ensures DailyKey(u, d) !in failing
    {
      assert d in DaysBefore(failing, s, u);
    }
    assert UserOf(s, u) == s[u];
  }

  /** `getLast7Dates()`: prepends today, yesterday, ... six days back. */
  method GetLast7Dates(today: Day) returns (dates: seq<Day>)
    ensures dates == Last7(today)
  {
    dates := [];
    var i := 0;
    while i < 7
      invariant 0 <= i <= 7
      invariant dates == Last7(today)[7 - i..]
    {
      dates := [today - i] + dates;
      i := i + 1;
    }
  }

  /** `initUserStats` is idempotent and never touches an existing entry. */
  lemma EnsureUserIdempotent(s: Store, u: UserId)
    ensures EnsureUser(EnsureUser(s, u), u) == EnsureUser(s, u)
    ensures u in s ==> EnsureUser(s, u) == s
  {
  }

  /**
   * A second pass of the flush over the same store and the tables the first
   * one left writes nothing new: every upsert overwrites all non-key
   * columns, and the pass stops at the same failing row.
   */
  lemma FlushTwiceSameAsOnce(users: map<UserId, UserRow>, days: map<(UserId, Day), DayStats>,
                             failing: set<RowKey>, s: Store, order: seq<UserId>)
    ensures FlushedUserRows(FlushedUserRows(users, failing, s, order), failing, s, order) == FlushedUserRows(users, failing, s, order)
    ensures FlushedDailyRows(FlushedDailyRows(days, failing, s, order), failing, s, order) == FlushedDailyRows(days, failing, s, order)
  {
    var k := FirstFailing(failing, s, order);
    var us := if k < |order| && UserKey(order[k]) !in failing then UserRowsUpTo(s, order, k + 1) else UserRowsUpTo(s, order, k);
    PlusAgain(users, us);
    var ds := if k == |order| then DailyRowsUpTo(s, order, k)
      else DailyRowsUpTo(s, order, k) + DayRowsFor(s, order[k], WrittenDays(failing, s, order[k]));
    if k < |order| {
      var a, b := DailyRowsUpTo(s, order, k), DayRowsFor(s, order[k], WrittenDays(failing, s, order[k]));
      PlusAssoc(days, a, b);
      PlusAssoc(days + a + b, a, b);
    }
    PlusAgain(days, ds);
  }
}
