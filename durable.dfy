/**
 * The durable side of the store: the `user_stats` and `daily_stats` tables,
 * as two maps keyed by their primary keys. A write is an upsert (insert, or
 * on a primary-key conflict overwrite every non-key column). Which writes
 * fail is fixed when the database is opened; a failing write changes
 * nothing and is reported to the caller, who sees it as a thrown error.
 */
module Durable {
  import opened Aggregates

  /** A `user_stats` row without its key. */
  datatype UserRow = UserRow(totalMessages: int, totalVoiceTime: real)

  /** The primary key of a row of either table. */
  datatype RowKey = UserKey(user: UserId) | DailyKey(user: UserId, day: Day)

  /** The `user_stats` row that stores a user's totals. */
  function RowOf(user: UserStats): (r: UserRow)
    ensures r.totalMessages == user.totalMessages && r.totalVoiceTime == user.totalVoiceTime
  {
    UserRow(user.totalMessages, user.totalVoiceTime)
  }

  class Database {
    /** `user_stats`: user id to totals. */
    var userRows: map<UserId, UserRow>
    /** `daily_stats`: (user id, day) to that day's counters and channel map. */
    var dailyRows: map<(UserId, Day), DayStats>
    /** The rows whose writes throw. */
    const failing: set<RowKey>

    /** An empty database whose writes to `failing` throw. */
    constructor (failing: set<RowKey>)
      ensures userRows == map[] && dailyRows == map[]
      ensures this.failing == failing
    {
      userRows := map[];
      dailyRows := map[];
      this.failing := failing;
    }

    /** `INSERT INTO user_stats ... ON CONFLICT(user_id) DO UPDATE SET ...` */
    method UpsertUser(u: UserId, row: UserRow) returns (ok: bool)
      modifies this
      ensures ok <==> UserKey(u) !in failing
      ensures userRows == if ok then old(userRows)[u := row] else old(userRows)
      ensures dailyRows == old(dailyRows)
    {
      ok := UserKey(u) !in failing;
      if ok {
        userRows := userRows[u := row];
      }
    }

    /** `INSERT INTO daily_stats ... ON CONFLICT(user_id, date) DO UPDATE SET ...` */
    method UpsertDaily(u: UserId, d: Day, row: DayStats) returns (ok: bool)
      modifies this
      ensures ok <==> DailyKey(u, d) !in failing
      ensures dailyRows == if ok then old(dailyRows)[(u, d) := row] else old(dailyRows)
      ensures userRows == old(userRows)
    {
      ok := DailyKey(u, d) !in failing;
      if ok {
        dailyRows := dailyRows[(u, d) := row];
      }
    }
  }
}
