/**
 * `bot.js`: the single-file version of the bot. Its lazy initialisers, the
 * two recording operations, the flush, the seven-day message sum and the
 * rank are the same code as in `src/` and are modelled once, in modules
 * StatsManager, Events and Commands. What differs is modelled here: loading
 * the store from the durable tables at start-up, the one-day and hour
 * figures, the top three channels, `/stats me` (which creates the caller's
 * entry first) and the voice handler, whose leave branch writes the store
 * without creating entries.
 */
module Bot {
  import opened Common
  import opened MapSums
  import opened Aggregates
  import opened Durable
  import opened StatsManager
  import opened Events
  import opened Commands

  // ---------------------------------------------------------------------
  // loadStatsFromDB

  /** The users with at least one `daily_stats` row. */
  function RowUsers(rows: map<(UserId, Day), DayStats>): set<UserId>
  {
    set k | k in rows :: k.0
  }

  /** The days of user `u`'s `daily_stats` rows. */
  function RowDates(rows: map<(UserId, Day), DayStats>, u: UserId): set<Day>
  {
    set k | k in rows && k.0 == u :: k.1
  }

  /** The `daily_stats` rows of user `u`, by day. */
  function RowDays(rows: map<(UserId, Day), DayStats>, u: UserId): map<Day, DayStats>
  {
    map d | d in RowDates(rows, u) && (u, d) in rows :: rows[(u, d)]
  }

  /** One `daily_stats` row loaded: the user is created with zero totals if absent, then the day is set. */
  function LoadDailyRow(s: Store, u: UserId, d: Day, row: DayStats): Store
  {
    var user := UserOf(s, u);
    s[u := user.(daily := user.daily[d := row])]
  }

  /** One `user_stats` row loaded: the totals are set, the days kept (none for a new user). */
  function LoadUserRow(s: Store, u: UserId, row: UserRow): Store
  {
    s[u := UserStats(row.totalMessages, row.totalVoiceTime, UserOf(s, u).daily)]
  }

  /** `s` after all `daily_stats` rows, in any order: each (user, day) key occurs once. */
  function WithDailyRows(s: Store, rows: map<(UserId, Day), DayStats>): Store
  {
    map u | u in s.Keys + RowUsers(rows) :: LoadedUser(s, rows, u)
  }

  /** One user's entry after the `daily_stats` rows: their days added to (or replacing) the ones in `s`. */
  function LoadedUser(s: Store, rows: map<(UserId, Day), DayStats>, u: UserId): UserStats
  {
    UserOf(s, u).(daily := UserOf(s, u).daily + RowDays(rows, u))
  }

  /** `s` after all `user_stats` rows, in any order: each user occurs once. */
  function WithUserRows(s: Store, rows: map<UserId, UserRow>): Store
  {
    map u | u in s.Keys + rows.Keys ::
      if u in rows then UserStats(rows[u].totalMessages, rows[u].totalVoiceTime, UserOf(s, u).daily) else s[u]
  }

  /**
   * What `loadStatsFromDB` leaves in `stats`: nothing is loaded when the
   * first query throws, only the days when the second one does (the error is
   * logged, not raised).
   */
  function Loaded(s: Store, dailyRows: map<(UserId, Day), DayStats>, userRows: map<UserId, UserRow>,
                  dailyQueryOk: bool, userQueryOk: bool): Store
  {
    if !dailyQueryOk then s
    else if !userQueryOk then WithDailyRows(s, dailyRows)
    else WithUserRows(WithDailyRows(s, dailyRows), userRows)
  }

  /** `dailyRows.forEach(...)`, starting from `s0` with key order `order0`. */
  method LoadDailyRows(s0: Store, order0: seq<UserId>, rows: map<(UserId, Day), DayStats>)
    returns (s: Store, order: seq<UserId>)
    requires KeyOrder(order0, s0)
    ensures s == WithDailyRows(s0, rows)
    ensures KeyOrder(order, s)
    ensures |order| >= |order0| && order[..|order0|] == order0
  {
    s, order := s0, order0;
    var todo := rows.Keys;
    ghost var done: set<(UserId, Day)> := {};
    DailyRowsNone(s0, rows);
    while todo != {}
      invariant done <= rows.Keys && todo == rows.Keys - done
      invariant s == WithDailyRows(s0, Restrict(rows, done))
      invariant KeyOrder(order, s)
      invariant |order| >= |order0| && order[..|order0|] == order0
      decreases |todo|
    {
      var k := Choose(todo);
      s, order := PutDailyRow(s, order, k.0, k.1, rows[k]);
      DailyRowStep(s0, rows, done, k);
      todo := todo - {k};
      done := done + {k};
    }
    assert Restrict(rows, done) == rows;
  }

  /** `userRows.forEach(...)`, starting from `s0` with key order `order0`. */
  method LoadUserRows(s0: Store, order0: seq<UserId>, rows: map<UserId, UserRow>)
    returns (s: Store, order: seq<UserId>)
    requires KeyOrder(order0, s0)
    ensures s == WithUserRows(s0, rows)
    ensures KeyOrder(order, s)
    ensures |order| >= |order0| && order[..|order0|] == order0
  {
    s, order := s0, order0;
    var todo := rows.Keys;
    ghost var done: set<UserId> := {};
    UserRowsNone(s0, rows);
    while todo != {}
      invariant done <= rows.Keys && todo == rows.Keys - done
      invariant s == WithUserRows(s0, Restrict(rows, done))
      invariant KeyOrder(order, s)
      invariant |order| >= |order0| && order[..|order0|] == order0
      decreases |todo|
    {
      var u := Choose(todo);
      var row := rows[u];
      if u !in s {
        s := s[u := UserStats(row.totalMessages, row.totalVoiceTime, map[])];
        order := order + [u];
      } else {
        s := s[u := s[u].(totalMessages := row.totalMessages, totalVoiceTime := row.totalVoiceTime)];
      }
      UserRowStep(s0, rows, done, u);
      todo := todo - {u};
      done := done + {u};
    }
    assert Restrict(rows, done) == rows;
  }

  /** The body of `dailyRows.forEach`: create the user if absent, then set the day. */
  method PutDailyRow(s0: Store, order0: seq<UserId>, u: UserId, d: Day, row: DayStats)
    returns (s: Store, order: seq<UserId>)
    requires KeyOrder(order0, s0)
    ensures s == LoadDailyRow(s0, u, d, row)
    ensures KeyOrder(order, s)
    ensures |order| >= |order0| && order[..|order0|] == order0
  {
    s, order := s0, order0;
    if u !in s {
      s := s[u := NewUser];
      order := order + [u];
    }
    s := s[u := s[u].(daily := s[u].daily[d := row])];
  }

  lemma DailyRowsNone(s: Store, rows: map<(UserId, Day), DayStats>)
    ensures WithDailyRows(s, Restrict(rows, {})) == s
  {
    var none := Restrict(rows, {});
    assert none == map[];
    assert RowUsers(none) == {};
    forall u | u in s
      ensures LoadedUser(s, none, u) == s[u]
    {
      assert RowDays(none, u) == map[];
    }
  }

  lemma UserRowsNone(s: Store, rows: map<UserId, UserRow>)
    ensures WithUserRows(s, Restrict(rows, {})) == s
  {
    assert Restrict(rows, {}) == map[];
  }

  /** Loading one more `daily_stats` row is one `LoadDailyRow`. */
  lemma DailyRowStep(s0: Store, rows: map<(UserId, Day), DayStats>, done: set<(UserId, Day)>, k: (UserId, Day))
    requires k in rows && k !in done
    ensures WithDailyRows(s0, Restrict(rows, done + {k}))
         == LoadDailyRow(WithDailyRows(s0, Restrict(rows, done)), k.0, k.1, rows[k])
  {
    var a := Restrict(rows, done);
    assert Restrict(rows, done + {k}) == a[k := rows[k]];
    DailyRowAdded(s0, a, k, rows[k]);
  }

  lemma DailyRowAdded(s0: Store, a: map<(UserId, Day), DayStats>, k: (UserId, Day), row: DayStats)
    ensures WithDailyRows(s0, a[k := row]) == LoadDailyRow(WithDailyRows(s0, a), k.0, k.1, row)
  {
    var lhs, rhs := WithDailyRows(s0, a[k := row]), LoadDailyRow(WithDailyRows(s0, a), k.0, k.1, row);
    RowUsersUpdate(a, k, row);
    assert lhs.Keys == rhs.Keys;
    forall v | v in lhs
      ensures lhs[v] == rhs[v]
    {
      DailyRowAddedAt(s0, a, k, row, v);
    }
  }

  lemma DailyRowAddedAt(s0: Store, a: map<(UserId, Day), DayStats>, k: (UserId, Day), row: DayStats, v: UserId)
    requires v in WithDailyRows(s0, a[k := row]) && v in LoadDailyRow(WithDailyRows(s0, a), k.0, k.1, row)
    ensures WithDailyRows(s0, a[k := row])[v] == LoadDailyRow(WithDailyRows(s0, a), k.0, k.1, row)[v]
  {
    LoadedUserStep(s0, a, k, row, v);
    if v == k.0 {
      BeforeUser(s0, a, v);
    }
  }

  /** Reading a user from the store loaded so far gives their loaded entry. */
  lemma BeforeUser(s0: Store, a: map<(UserId, Day), DayStats>, u: UserId)
    ensures UserOf(WithDailyRows(s0, a), u) == LoadedUser(s0, a, u)
  {
    if u !in s0 && u !in RowUsers(a) {
      forall d
        ensures d !in RowDays(a, u)
      {
        RowDaysAt(a, u, d);
        RowUsersHas(a, (u, d));
      }
      assert RowDays(a, u) == map[];
    }
  }

  lemma RowUsersHas(rows: map<(UserId, Day), DayStats>, k: (UserId, Day))
    ensures k in rows ==> k.0 in RowUsers(rows)
  {
  }

  /** One more row changes only its own user's entry, by setting its day. */
  lemma LoadedUserStep(s0: Store, a: map<(UserId, Day), DayStats>, k: (UserId, Day), row: DayStats, v: UserId)
    ensures LoadedUser(s0, a[k := row], v)
         == if v == k.0 then LoadedUser(s0, a, v).(daily := LoadedUser(s0, a, v).daily[k.1 := row]) else LoadedUser(s0, a, v)
  {
    RowDaysUpdate(a, k, row, v);
    if v == k.0 {
      PlusUpdate(UserOf(s0, v).daily, RowDays(a, v), k.1, row);
    }
  }

  lemma RowUsersUpdate(rows: map<(UserId, Day), DayStats>, k: (UserId, Day), row: DayStats)
    ensures RowUsers(rows[k := row]) == RowUsers(rows) + {k.0}
  {
    forall v | v in RowUsers(rows)
      ensures v in RowUsers(rows[k := row])
    {
      var j :| j in rows && j.0 == v;
      assert j in rows[k := row];
    }
  }

  /** A day belongs to `u`'s rows exactly when its (user, day) key has a row. */
  lemma RowDaysAt(rows: map<(UserId, Day), DayStats>, u: UserId, d: Day)
    ensures d in RowDays(rows, u) <==> (u, d) in rows
    ensures d in RowDays(rows, u) ==> RowDays(rows, u)[d] == rows[(u, d)]
  {
    if (u, d) in rows {
      assert (u, d).1 in RowDates(rows, u);
    }
  }

  lemma RowDaysUpdate(rows: map<(UserId, Day), DayStats>, k: (UserId, Day), row: DayStats, v: UserId)
    ensures RowDays(rows[k := row], v) == if v == k.0 then RowDays(rows, v)[k.1 := row] else RowDays(rows, v)
  {
    var b := rows[k := row];
    var lhs := RowDays(b, v);
    var rhs := if v == k.0 then RowDays(rows, v)[k.1 := row] else RowDays(rows, v);
    forall d
      ensures d in lhs <==> d in rhs
      ensures d in lhs ==> lhs[d] == rhs[d]
    {
      RowDaysAt(b, v, d);
      RowDaysAt(rows, v, d);
    }
    assert lhs == rhs;
  }

  /** Loading one more `user_stats` row is one `LoadUserRow`. */
  lemma UserRowStep(s0: Store, rows: map<UserId, UserRow>, done: set<UserId>, u: UserId)
    requires u in rows && u !in done
    ensures WithUserRows(s0, Restrict(rows, done + {u})) == LoadUserRow(WithUserRows(s0, Restrict(rows, done)), u, rows[u])
  {
    var a, b := Restrict(rows, done), Restrict(rows, done + {u});
    assert b == a[u := rows[u]];
    var lhs, rhs := WithUserRows(s0, b), LoadUserRow(WithUserRows(s0, a), u, rows[u]);
    assert lhs.Keys == rhs.Keys;
    assert UserOf(WithUserRows(s0, a), u).daily == UserOf(s0, u).daily;
  }

  /**
   * `loadStatsFromDB()`: the daily rows first, then the user rows; a query
   * that throws ends the load, which is otherwise silent. `dailyQueryOk` and
   * `userQueryOk` say whether each `SELECT` succeeds.
   */
  method LoadStatsFromDB(store: StatsStore, db: Database, dailyQueryOk: bool, userQueryOk: bool)
    requires store.Valid()
    modifies store
    ensures store.Valid()
    ensures store.stats == Loaded(old(store.stats), db.dailyRows, db.userRows, dailyQueryOk, userQueryOk)
  {
    if !dailyQueryOk {
      return;
    }
    var s, order := LoadDailyRows(store.stats, store.order, db.dailyRows);
    store.stats, store.order := s, order;
    if !userQueryOk {
      return;
    }
    s, order := LoadUserRows(store.stats, store.order, db.userRows);
    store.stats, store.order := s, order;
  }

  /**
   * At start-up (`stats` empty) a successful load gives each user with a
   * `user_stats` row the totals of that row and every other user with
   * `daily_stats` rows zero totals; each user's days are exactly their
   * `daily_stats` rows.
   */
  lemma LoadedTotals(dailyRows: map<(UserId, Day), DayStats>, userRows: map<UserId, UserRow>, u: UserId)
    ensures var r := Loaded(map[], dailyRows, userRows, true, true);
      && (u in r <==> u in userRows || exists d :: (u, d) in dailyRows)
      && (u in r ==> r[u].totalMessages == (if u in userRows then userRows[u].totalMessages else 0))
      && (u in r ==> r[u].totalVoiceTime == (if u in userRows then userRows[u].totalVoiceTime else 0.0))
      && (u in r ==> forall d :: (d in r[u].daily <==> (u, d) in dailyRows))
      && (u in r ==> forall d :: d in r[u].daily ==> r[u].daily[d] == dailyRows[(u, d)])
  {
    var r := Loaded(map[], dailyRows, userRows, true, true);
    if exists d :: (u, d) in dailyRows {
      var d :| (u, d) in dailyRows;
      assert u in RowUsers(dailyRows);
    }
    if u in RowUsers(dailyRows) {
      var k :| k in dailyRows && k.0 == u;
      assert (u, k.1) in dailyRows;
    }
    if u in r {
      forall d
        ensures d in r[u].daily <==> (u, d) in dailyRows
        ensures d in r[u].daily ==> r[u].daily[d] == dailyRows[(u, d)]
      {
        if (u, d) in dailyRows {
          assert (u, d).1 == d;
        }
      }
    }
  }

  /**
   * Flushing a store into empty tables and loading them into an empty
   * `stats` gives the store back: the two directions of the transfer are
   * inverse.
   */
  lemma FlushThenLoad(s: Store)
    ensures Loaded(map[], DailyRowsOf(s), UserRowsOf(s), true, true) == s
  {
    var r := Loaded(map[], DailyRowsOf(s), UserRowsOf(s), true, true);
    FlushedRowUsers(s);
    assert r.Keys == s.Keys;
    forall u | u in s
      ensures r[u] == s[u]
    {
      FlushThenLoadAt(s, u);
    }
  }

  /** Every user with a flushed day row has an entry. */
  lemma FlushedRowUsers(s: Store)
    ensures RowUsers(DailyRowsOf(s)) <= s.Keys
  {
    forall u | u in RowUsers(DailyRowsOf(s))
      ensures u in s
    {
      var k :| k in DailyRowsOf(s) && k.0 == u;
      DailyRowsOfAt(s, k);
    }
  }

  lemma FlushThenLoadAt(s: Store, u: UserId)
    requires u in s
    ensures u in Loaded(map[], DailyRowsOf(s), UserRowsOf(s), true, true)
    ensures Loaded(map[], DailyRowsOf(s), UserRowsOf(s), true, true)[u] == s[u]
  {
    var rows := DailyRowsOf(s);
    BeforeUser(map[], rows, u);
    FlushedRowDays(s, u);
  }

  /** A user's flushed day rows are their days. */
  lemma FlushedRowDays(s: Store, u: UserId)
    requires u in s
    ensures RowDays(DailyRowsOf(s), u) == s[u].daily
  {
    var rows := DailyRowsOf(s);
    forall d
      ensures d in RowDays(rows, u) <==> d in s[u].daily
      ensures d in s[u].daily ==> RowDays(rows, u)[d] == s[u].daily[d]
    {
      RowDaysAt(rows, u, d);
      DailyRowsOfAt(s, (u, d));
    }
  }

  // ---------------------------------------------------------------------
  // The figures of `/stats me`

  /** `get1DayMessages(userId)` */
  function Get1DayMessages(s: Store, u: UserId, today: Day): int
  {
    if u in s && today in s[u].daily then s[u].daily[today].messages else 0
  }

  /** `Math.floor(seconds / 3600)`: the whole hours in `seconds`. */
  function WholeHours(seconds: real): (r: int)
    ensures r as real * 3600.0 <= seconds < (r + 1) as real * 3600.0
  {
    (seconds / 3600.0).Floor
  }

  /** `get1DayVoiceHours(userId)` */
  function Get1DayVoiceHours(s: Store, u: UserId, today: Day): int
  {
    if u in s && today in s[u].daily then WholeHours(s[u].daily[today].voiceTime) else 0
  }

  /** A missing user or day reads as a zeroed day, in any store. */
  lemma OneDayFigures(s: Store, u: UserId, today: Day)
    ensures Get1DayMessages(s, u, today) == DayOf(s, u, today).messages
    ensures Get1DayVoiceHours(s, u, today) == WholeHours(DayOf(s, u, today).voiceTime)
  {
  }

  /** In a consistent store, today's count is part of the week's. */
  lemma OneDayWithinWindow(s: Store, u: UserId, today: Day)
    requires Consistent(s)
    ensures 0 <= Get1DayMessages(s, u, today) <= WindowMessages(s, u, today)
  {
    var user := UserOf(s, u);
    UserOfConsistent(s, u, today);
    var m := MessagesByDay(user.daily);
    forall d | d in m
      ensures m[d] >= 0
    {
      DayMessagesNonNegative(user.daily[d]);
    }
    DayMessagesNonNegative(DayOf(s, u, today));
    MessagesOnAlong(s, u, Last7(today));
    SumAlongAtLeast(m, Last7(today), today);
  }

  /** With no negative value, a sum along keys holds the value of each key visited. */
  lemma {:induction false} SumAlongAtLeast(m: map<Day, int>, ks: seq<Day>, k: Day)
    requires forall j :: j in m ==> m[j] >= 0
    requires k in ks
    ensures GetInt(m, k) <= SumAlong(m, ks)
  {
    var init := ks[..|ks| - 1];
    if k == ks[|ks| - 1] {
      WindowNonNegative(m, init);
    } else {
      assert ks == init + [ks[|ks| - 1]];
      SumAlongAtLeast(m, init, k);
    }
  }

  /** `get7DayVoiceHours(userId)` */
  method Get7DayVoiceHours(s: Store, u: UserId, today: Day) returns (hours: int)
    ensures hours as real * 3600.0 <= WindowVoice(s, u, today) < (hours + 1) as real * 3600.0
  {
    var sum := GetLast7DaysVoiceTimeLocal(s, u, today);
    hours := WholeHours(sum);
  }

  /** `getTopChannels(userId)`: the ranking of `getTopChannelsLocal` cut to three rows. */
  method GetTopChannels(s: Store, u: UserId, today: Day) returns (top: seq<ChannelEntry>)
    ensures TopOf(top, ChannelTotals(s, u, Last7(today)), 3)
  {
    var sorted := GetTopChannelsLocal(s, u, today);
    top := sorted[..Min(3, |sorted|)];
    TakeTop(sorted, ChannelTotals(s, u, Last7(today)), 3);
  }

  /** The figures drawn on the `/stats me` panel. */
  datatype Panel = Panel(rank: int, msg1d: int, msg7d: int, voice1d: int, voice7d: int, topChannels: seq<ChannelEntry>)

  datatype BotReply = Ignored | MePanel(panel: Panel) | ServerPlaceholder

  /** The `interactionCreate` fields the handler reads. */
  datatype BotInteraction = BotInteraction(isChatInputCommand: bool, commandName: string, user: UserId, subcommand: string)

  /**
   * The `interactionCreate` handler of `bot.js`: no rate limit; `/stats me`
   * creates the caller's entry before ranking, so the rank is always
   * between 1 and the number of users; `/stats server` is a fixed
   * placeholder.
   */
  method HandleInteraction(store: StatsStore, i: BotInteraction, today: Day) returns (reply: BotReply)
    requires store.Valid()
    modifies store
    ensures store.Valid()
    ensures !(i.isChatInputCommand && i.commandName == "stats" && i.subcommand == "me") ==>
      store.stats == old(store.stats) && store.order == old(store.order)
    ensures !i.isChatInputCommand || i.commandName != "stats" ==> reply == Ignored
    ensures i.isChatInputCommand && i.commandName == "stats" && i.subcommand == "server" ==> reply == ServerPlaceholder
    ensures i.isChatInputCommand && i.commandName == "stats" && i.subcommand != "me" && i.subcommand != "server" ==>
      reply == Ignored
    ensures i.isChatInputCommand && i.commandName == "stats" && i.subcommand == "me" ==>
      && store.stats == EnsureUser(old(store.stats), i.user)
      && store.order == OrderWith(old(store.order), old(store.stats), i.user)
      && reply.MePanel?
      && 1 <= reply.panel.rank <= |store.order|
      && reply.panel.rank == Rank(store.stats, store.order, i.user, today)
      && reply.panel.msg1d == Get1DayMessages(store.stats, i.user, today)
      && reply.panel.msg7d == WindowMessages(store.stats, i.user, today)
      && reply.panel.voice1d == Get1DayVoiceHours(store.stats, i.user, today)
      && reply.panel.voice7d == WholeHours(WindowVoice(store.stats, i.user, today))
      && TopOf(reply.panel.topChannels, ChannelTotals(store.stats, i.user, Last7(today)), 3)
  {
    if !i.isChatInputCommand || i.commandName != "stats" {
      return Ignored;
    }
    if i.subcommand == "me" {
      var u := i.user;
      store.InitUserStats(u);
      var s := store.stats;
      var rank := Rank(s, store.order, u, today);
      var msg1d := Get1DayMessages(s, u, today);
      var msg7d := GetLast7DaysMessagesLocal(s, u, today);
      var voice1d := Get1DayVoiceHours(s, u, today);
      var voice7d := Get7DayVoiceHours(s, u, today);
      var top := GetTopChannels(s, u, today);
      reply := MePanel(Panel(rank, msg1d, msg7d, voice1d, voice7d, top));
    } else if i.subcommand == "server" {
      reply := ServerPlaceholder;
    } else {
      reply := Ignored;
    }
  }

  // ---------------------------------------------------------------------
  // The voice handler of `bot.js`

  /**
   * `client.on("voiceStateUpdate", ...)` in `bot.js`, on values. Join only
   * opens the session; switch goes through `recordVoiceTime`; leave adds the
   * elapsed time straight into `stats[userId]` and its day for today. When
   * the user has no entry the first write throws and nothing changes; when
   * today has no entry the second write throws after the total was raised.
   * Either way the session is not closed (the error is logged).
   */
  function BotVoiceUpdate(v: Voice, member: Option<UserId>, oldCh: Option<ChannelId>, newCh: Option<ChannelId>,
                          now: int, today: Day): (r: Voice)
    ensures member.None? ==> r == v
  {
    match member
    case None => v
    case Some(u) =>
      match Classify(oldCh, newCh)
      case Join => Voice(v.stats, v.sessions[u := now])
      case Switch =>
        if u in v.sessions then Voice(WithVoice(v.stats, u, Elapsed(v.sessions[u], now), today), v.sessions[u := now])
        else v
      case Leave =>
        if u !in v.sessions || u !in v.stats then v
        else
          var t := Elapsed(v.sessions[u], now);
          var user := v.stats[u];
          var raised := user.(totalVoiceTime := user.totalVoiceTime + t);
          if today !in user.daily then Voice(v.stats[u := raised], v.sessions)
          else
            var day := user.daily[today];
            Voice(v.stats[u := raised.(daily := user.daily[today := day.(voiceTime := day.voiceTime + t)])], v.sessions - {u})
      case Stay => v
  }

  /**
   * When the user already has an entry for today, the handler of `bot.js`
   * does exactly what the handler of `src/events.js` does.
   */
  lemma BotVoiceAgrees(v: Voice, u: UserId, oldCh: Option<ChannelId>, newCh: Option<ChannelId>, now: int, today: Day)
    requires u in v.stats && today in v.stats[u].daily
    ensures BotVoiceUpdate(v, Some(u), oldCh, newCh, now, today) == VoiceUpdate(v, Some(u), oldCh, newCh, now, today)
  {
    EnsureDayPresent(v.stats, u, today);
  }

  /**
   * A member without an entry who joins and then leaves: no voice time is
   * recorded anywhere and the session stays open.
   */
  lemma BotJoinLeaveWithoutEntry(v: Voice, u: UserId, c: ChannelId, t0: int, t1: int, today: Day)
    requires u !in v.stats
    ensures var v1 := BotVoiceUpdate(v, Some(u), None, Some(c), t0, today);
      var v2 := BotVoiceUpdate(v1, Some(u), Some(c), None, t1, today);
      v2.stats == v.stats && u in v2.sessions && v2.sessions[u] == t0
  {
  }

  /**
   * A member whose entry has no day for today leaves: the lifetime total
   * goes up, the days do not, and the session stays open.
   */
  lemma BotLeaveWithoutToday(v: Voice, u: UserId, c: ChannelId, now: int, today: Day)
    requires u in v.stats && today !in v.stats[u].daily && u in v.sessions
    ensures var r := BotVoiceUpdate(v, Some(u), Some(c), None, now, today);
      && r.stats[u].totalVoiceTime == v.stats[u].totalVoiceTime + Elapsed(v.sessions[u], now)
      && r.stats[u].daily == v.stats[u].daily
      && r.sessions == v.sessions
  {
  }

  /**
   * A concrete case: a consistent store whose only user has no day yet and
   * an open session of one second; the leave makes the store inconsistent
   * (lifetime voice time 1, days adding up to 0).
   */
  lemma BotLeaveBreaksConsistency()
    ensures var v := Voice(map[1 := NewUser], map[1 := 0]);
      var r := BotVoiceUpdate(v, Some(1), Some(5), None, 1000, 0);
      Consistent(v.stats) && !Consistent(r.stats)
  {
    var v := Voice(map[1 := NewUser], map[1 := 0]);
    var r := BotVoiceUpdate(v, Some(1), Some(5), None, 1000, 0);
    NewEntriesConsistent();
    assert r.stats[1] == UserStats(0, 1.0, map[]);
    assert VoiceByDay(r.stats[1].daily) == map[];
    assert !UserConsistent(r.stats[1]);
  }
}
