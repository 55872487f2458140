/**
 * `src/events.js`: the two gateway event handlers. `messageCreate` counts a
 * message for every author that is not a bot; `voiceStateUpdate` runs a
 * per-user voice session state machine over the map `voiceJoinTimes`
 * (user id to the millisecond timestamp the current session started at).
 *
 * The Discord event objects are reduced to what the handlers read: the
 * member (`newState.member || oldState.member`, absent when neither
 * resolves), the old and new channel ids (absent when the user is not in a
 * voice channel), the clock reading `now` in milliseconds and the UTC day
 * `today`.
 */
module Events {
  import opened Common
  import opened Aggregates
  import opened StatsManager

  /** Which branch of `voiceStateUpdate` an update takes. */
  datatype Transition = Join | Switch | Leave | Stay

  /** The branch conditions of `voiceStateUpdate`, in the order the handler checks them. */
  function Classify(oldCh: Option<ChannelId>, newCh: Option<ChannelId>): (t: Transition)
    ensures t == Join <==> oldCh.None? && newCh.Some?
    ensures t == Switch <==> oldCh.Some? && newCh.Some? && oldCh != newCh
    ensures t == Leave <==> oldCh.Some? && newCh.None?
    ensures t == Stay <==> oldCh == newCh
  {
    if oldCh.None? && newCh.Some? then Join
    else if oldCh.Some? && newCh.Some? && oldCh.value != newCh.value then Switch
    else if oldCh.Some? && newCh.None? then Leave
    else Stay
  }

  /** `(Date.now() - joinTime) / 1000`: seconds between two clock readings. */
  function Elapsed(joinTime: int, now: int): real
  {
    (now - joinTime) as real / 1000.0
  }

  /** The state the voice handler works on: the store and the open sessions. */
  datatype Voice = Voice(stats: Store, sessions: map<UserId, int>)

  /** Every open session belongs to a user that has an entry in the store. */
  ghost predicate SessionsTracked(v: Voice)
  {
    v.sessions.Keys <= v.stats.Keys
  }

  /** `voiceStateUpdate(oldState, newState)` on values. */
  function VoiceUpdate(v: Voice, member: Option<UserId>, oldCh: Option<ChannelId>, newCh: Option<ChannelId>,
                       now: int, today: Day): (r: Voice)
    ensures member.None? ==> r == v
    ensures member.Some? ==> r.stats.Keys == v.stats.Keys + {member.value}
    ensures member.Some? ==> today in r.stats[member.value].daily
  {
    match member
    case None => v
    case Some(u) =>
      var s := EnsureDay(v.stats, u, today);
      match Classify(oldCh, newCh)
      case Join => Voice(s, v.sessions[u := now])
      case Switch =>
        if u in v.sessions then Voice(WithVoice(s, u, Elapsed(v.sessions[u], now), today), v.sessions[u := now])
        else Voice(s, v.sessions)
      case Leave =>
        if u in v.sessions then Voice(WithVoice(s, u, Elapsed(v.sessions[u], now), today), v.sessions - {u})
        else Voice(s, v.sessions)
      case Stay => Voice(s, v.sessions)
  }

  /**
   * Switch or leave without an open session, and an update that changes no
   * channel, record no voice time and leave the sessions alone; only the
   * user's entry and today's day entry are created.
   */
  lemma NoSessionNoVoice(v: Voice, u: UserId, oldCh: Option<ChannelId>, newCh: Option<ChannelId>, now: int, today: Day)
    requires Classify(oldCh, newCh) == Stay || (Classify(oldCh, newCh) != Join && u !in v.sessions)
    ensures VoiceUpdate(v, Some(u), oldCh, newCh, now, today) == Voice(EnsureDay(v.stats, u, today), v.sessions)
  {
  }

  /** A join opens a session at `now` and credits no voice time. */
  lemma JoinOpensSession(v: Voice, u: UserId, c: ChannelId, now: int, today: Day)
    ensures var r := VoiceUpdate(v, Some(u), None, Some(c), now, today);
      r.sessions == v.sessions[u := now] && r.stats == EnsureDay(v.stats, u, today)
      && UserOf(r.stats, u).totalVoiceTime == UserOf(v.stats, u).totalVoiceTime
  {
  }

  /**
   * A session that joins at `t0` (on day `d0`), switches channel at `t1`
   * (on day `d1`) and leaves at `t2` (on day `d2`) credits `(t2 - t0) / 1000`
   * seconds to the user's lifetime total and closes the session: a switch
   * is continuous. Each span is credited to the day of the update that ends
   * it, so a session across midnight splits at the switch, and no other
   * day's voice time changes.
   */
  lemma {:induction false} JoinSwitchLeave(v: Voice, u: UserId, c1: ChannelId, c2: ChannelId,
                                           t0: int, t1: int, t2: int, d0: Day, d1: Day, d2: Day)
    requires c1 != c2
    ensures var v1 := VoiceUpdate(v, Some(u), None, Some(c1), t0, d0);
      var v2 := VoiceUpdate(v1, Some(u), Some(c1), Some(c2), t1, d1);
      var v3 := VoiceUpdate(v2, Some(u), Some(c2), None, t2, d2);
      && UserOf(v3.stats, u).totalVoiceTime == UserOf(v.stats, u).totalVoiceTime + Elapsed(t0, t2)
      && UserOf(v3.stats, u).totalMessages == UserOf(v.stats, u).totalMessages
      && (d1 != d2 ==>
            && DayOf(v3.stats, u, d1).voiceTime == DayOf(v.stats, u, d1).voiceTime + Elapsed(t0, t1)
            && DayOf(v3.stats, u, d2).voiceTime == DayOf(v.stats, u, d2).voiceTime + Elapsed(t1, t2))
      && (d1 == d2 ==> DayOf(v3.stats, u, d2).voiceTime == DayOf(v.stats, u, d2).voiceTime + Elapsed(t0, t2))
      && (forall e :: e != d1 && e != d2 ==> DayOf(v3.stats, u, e).voiceTime == DayOf(v.stats, u, e).voiceTime)
      && u !in v3.sessions
  {
    var v1 := VoiceUpdate(v, Some(u), None, Some(c1), t0, d0);
    var v2 := VoiceUpdate(v1, Some(u), Some(c1), Some(c2), t1, d1);
    var v3 := VoiceUpdate(v2, Some(u), Some(c2), None, t2, d2);
    var a, b := Elapsed(t0, t1), Elapsed(t1, t2);
    JoinStep(v, u, c1, t0, d0);
    SwitchStep(v1, u, c1, c2, t1, d1);
    LeaveStep(v2, u, c2, t2, d2);
    EnsureDayKeepsFigures(v.stats, u, d0);
    Credit(v1.stats, u, a, d1);
    Credit(v2.stats, u, b, d2);
    assert a + b == Elapsed(t0, t2);
  }

  /**
   * A member who joins at `t0` (on day `d0`) and leaves at `t1` (on day
   * `d1`) is credited `(t1 - t0) / 1000` seconds, in the lifetime total and
   * in day `d1`, no other day changes, and the session is closed, whether
   * or not the member had an entry.
   */
  lemma JoinLeave(v: Voice, u: UserId, c: ChannelId, t0: int, t1: int, d0: Day, d1: Day)
    ensures var v1 := VoiceUpdate(v, Some(u), None, Some(c), t0, d0);
      var v2 := VoiceUpdate(v1, Some(u), Some(c), None, t1, d1);
      && UserOf(v2.stats, u).totalVoiceTime == UserOf(v.stats, u).totalVoiceTime + Elapsed(t0, t1)
      && DayOf(v2.stats, u, d1).voiceTime == DayOf(v.stats, u, d1).voiceTime + Elapsed(t0, t1)
      && (forall e :: e != d1 ==> DayOf(v2.stats, u, e).voiceTime == DayOf(v.stats, u, e).voiceTime)
      && u !in v2.sessions
  {
    var v1 := VoiceUpdate(v, Some(u), None, Some(c), t0, d0);
    var v2 := VoiceUpdate(v1, Some(u), Some(c), None, t1, d1);
    JoinStep(v, u, c, t0, d0);
    LeaveStep(v1, u, c, t1, d1);
    EnsureDayKeepsFigures(v.stats, u, d0);
    Credit(v1.stats, u, Elapsed(t0, t1), d1);
  }

  /** The state after a join. */
  lemma JoinStep(v: Voice, u: UserId, c: ChannelId, now: int, d: Day)
    ensures VoiceUpdate(v, Some(u), None, Some(c), now, d) == Voice(EnsureDay(v.stats, u, d), v.sessions[u := now])
  {
  }

  /** The state after a switch with an open session. */
  lemma SwitchStep(v: Voice, u: UserId, c1: ChannelId, c2: ChannelId, now: int, d: Day)
    requires u in v.sessions && c1 != c2
    ensures VoiceUpdate(v, Some(u), Some(c1), Some(c2), now, d)
         == Voice(WithVoice(EnsureDay(v.stats, u, d), u, Elapsed(v.sessions[u], now), d), v.sessions[u := now])
  {
  }

  /** The state after a leave with an open session. */
  lemma LeaveStep(v: Voice, u: UserId, c: ChannelId, now: int, d: Day)
    requires u in v.sessions
    ensures VoiceUpdate(v, Some(u), Some(c), None, now, d)
         == Voice(WithVoice(EnsureDay(v.stats, u, d), u, Elapsed(v.sessions[u], now), d), v.sessions - {u})
  {
  }

  /** Crediting `x` seconds on day `d`, after creating the entries, moves only the total and that day. */
  lemma Credit(s: Store, u: UserId, x: real, d: Day)
    ensures var r := WithVoice(EnsureDay(s, u, d), u, x, d);
      && UserOf(r, u).totalVoiceTime == UserOf(s, u).totalVoiceTime + x
      && UserOf(r, u).totalMessages == UserOf(s, u).totalMessages
      && forall e :: DayOf(r, u, e).voiceTime == DayOf(s, u, e).voiceTime + (if e == d then x else 0.0)
  {
    EnsureDayKeepsFigures(s, u, d);
  }

  /** Creating an entry leaves every total and every day's figures as they read before. */
  lemma EnsureDayKeepsFigures(s: Store, u: UserId, d: Day)
    ensures forall w :: UserOf(EnsureDay(s, u, d), w).totalVoiceTime == UserOf(s, w).totalVoiceTime
    ensures forall w :: UserOf(EnsureDay(s, u, d), w).totalMessages == UserOf(s, w).totalMessages
    ensures forall w, e :: DayOf(EnsureDay(s, u, d), w, e) == DayOf(s, w, e)
  {
  }

  /** Creating an entry that is already there changes nothing. */
  lemma EnsureDayPresent(s: Store, u: UserId, d: Day)
    requires u in s && d in s[u].daily
    ensures EnsureDay(s, u, d) == s
  {
  }

  /** The voice handler keeps the counter invariants of the store. */
  lemma VoiceUpdateConsistent(v: Voice, member: Option<UserId>, oldCh: Option<ChannelId>, newCh: Option<ChannelId>,
                              now: int, today: Day)
    requires Consistent(v.stats)
    ensures Consistent(VoiceUpdate(v, member, oldCh, newCh, now, today).stats)
  {
    if member.Some? {
      var u := member.value;
      var s := EnsureDay(v.stats, u, today);
      EnsureDayPreservesConsistency(v.stats, u, today);
      VoiceUpdateStats(v, u, oldCh, newCh, now, today);
      if u in v.sessions {
        VoicePreservesConsistency(s, u, Elapsed(v.sessions[u], now), today);
      }
    }
  }

  /** The store after an update: today's entry made sure of, plus the elapsed time of an open session or nothing. */
  lemma VoiceUpdateStats(v: Voice, u: UserId, oldCh: Option<ChannelId>, newCh: Option<ChannelId>, now: int, today: Day)
    ensures var r := VoiceUpdate(v, Some(u), oldCh, newCh, now, today).stats;
      r == EnsureDay(v.stats, u, today)
      || (u in v.sessions && r == WithVoice(EnsureDay(v.stats, u, today), u, Elapsed(v.sessions[u], now), today))
  {
  }

  /** The voice handler only opens sessions for users it has just given an entry. */
  lemma VoiceUpdateTracked(v: Voice, member: Option<UserId>, oldCh: Option<ChannelId>, newCh: Option<ChannelId>,
                           now: int, today: Day)
    requires SessionsTracked(v)
    ensures SessionsTracked(VoiceUpdate(v, member, oldCh, newCh, now, today))
  {
  }

  // ---------------------------------------------------------------------
  // Event sequences

  /** The gateway events the handlers consume. */
  datatype Event =
    | Message(author: UserId, bot: bool, channel: ChannelId, today: Day)
    | VoiceState(member: Option<UserId>, oldChannel: Option<ChannelId>, newChannel: Option<ChannelId>, now: int, today: Day)

  /** One event, handled. */
  function Step(v: Voice, e: Event): Voice
  {
    match e
    case Message(author, bot, c, today) =>
      if bot then v else Voice(WithMessage(v.stats, author, c, today), v.sessions)
    case VoiceState(member, oldCh, newCh, now, today) => VoiceUpdate(v, member, oldCh, newCh, now, today)
  }

  /** A sequence of events, handled in order. */
  function Replay(v: Voice, evs: seq<Event>): Voice
    decreases |evs|
  {
    if evs == [] then v else Replay(Step(v, evs[0]), evs[1..])
  }

  /** The number of messages by `u` from authors that are not bots. */
  function MessagesBy(evs: seq<Event>, u: UserId): (n: nat)
    ensures n <= |evs|
  {
    if evs == [] then 0
    else (if evs[0].Message? && !evs[0].bot && evs[0].author == u then 1 else 0) + MessagesBy(evs[1..], u)
  }

  lemma StepConsistent(v: Voice, e: Event)
    requires Consistent(v.stats)
    ensures Consistent(Step(v, e).stats)
  {
    match e
    case Message(author, bot, c, today) =>
      if !bot {
        MessagePreservesConsistency(v.stats, author, c, today);
      }
    case VoiceState(member, oldCh, newCh, now, today) =>
      VoiceUpdateConsistent(v, member, oldCh, newCh, now, today);
  }

  /**
   * Starting from any consistent store (the empty one in particular), any
   * sequence of events leaves it consistent: each user's total messages and
   * voice time are the sums over their days, and each day's messages are
   * the sum over its channels.
   */
  lemma {:induction false} ReplayConsistent(v: Voice, evs: seq<Event>)
    requires Consistent(v.stats)
    ensures Consistent(Replay(v, evs).stats)
    decreases |evs|
  {
    if evs != [] {
      StepConsistent(v, evs[0]);
      ReplayConsistent(Step(v, evs[0]), evs[1..]);
    }
  }

  lemma {:induction false} ReplayTracked(v: Voice, evs: seq<Event>)
    requires SessionsTracked(v)
    ensures SessionsTracked(Replay(v, evs))
    decreases |evs|
  {
    if evs != [] {
      var e := evs[0];
      if e.VoiceState? {
        VoiceUpdateTracked(v, e.member, e.oldChannel, e.newChannel, e.now, e.today);
      }
      ReplayTracked(Step(v, e), evs[1..]);
    }
  }

  lemma StepMessages(v: Voice, e: Event, u: UserId)
    ensures UserOf(Step(v, e).stats, u).totalMessages
         == UserOf(v.stats, u).totalMessages + (if e.Message? && !e.bot && e.author == u then 1 else 0)
  {
    match e
    case Message(author, bot, c, today) =>
    case VoiceState(member, oldCh, newCh, now, today) =>
      if member.Some? {
        var m := member.value;
        var s := EnsureDay(v.stats, m, today);
        assert UserOf(s, u).totalMessages == UserOf(v.stats, u).totalMessages;
        if m in v.sessions {
          assert UserOf(WithVoice(s, m, Elapsed(v.sessions[m], now), today), u).totalMessages == UserOf(s, u).totalMessages;
        }
      }
  }

  /** Each user's total message count goes up by exactly their non-bot messages. */
  lemma {:induction false} ReplayCountsMessages(v: Voice, evs: seq<Event>, u: UserId)
    ensures UserOf(Replay(v, evs).stats, u).totalMessages == UserOf(v.stats, u).totalMessages + MessagesBy(evs, u)
    decreases |evs|
  {
    if evs != [] {
      StepMessages(v, evs[0], u);
      ReplayCountsMessages(Step(v, evs[0]), evs[1..], u);
    }
  }

  // ---------------------------------------------------------------------
  // The handlers

  /** `client.on("messageCreate", ...)`: bot authors are skipped. */
  method MessageCreate(store: StatsStore, author: UserId, bot: bool, c: ChannelId, today: Day)
    requires store.Valid()
    modifies store
    ensures store.Valid()
    ensures store.stats == Step(Voice(old(store.stats), map[]), Message(author, bot, c, today)).stats
    ensures store.order == if bot then old(store.order) else OrderWith(old(store.order), old(store.stats), author)
  {
    if bot {
      return;
    }
    store.RecordMessage(author, c, today);
  }

  class VoiceTracker {
    /** `voiceJoinTimes`: user id to the start of the open session. */
    var joinTimes: map<UserId, int>

    /** `const voiceJoinTimes = new Map()` */
    constructor ()
      ensures joinTimes == map[]
    {
      joinTimes := map[];
    }

    /** `client.on("voiceStateUpdate", ...)` */
    method VoiceStateUpdate(store: StatsStore, member: Option<UserId>, oldCh: Option<ChannelId>, newCh: Option<ChannelId>,
                            now: int, today: Day)
      requires store.Valid()
      modifies this, store
      ensures store.Valid()
      ensures Voice(store.stats, joinTimes) == VoiceUpdate(Voice(old(store.stats), old(joinTimes)), member, oldCh, newCh, now, today)
      ensures store.order == if member.None? then old(store.order) else OrderWith(old(store.order), old(store.stats), member.value)
    {
      if member.None? {
        return;
      }
      var u := member.value;
      ghost var s0 := store.stats;
      store.InitUserStats(u);
      store.InitUserDateStats(u, today);
      EnsureDayAfterEnsureUser(s0, u, today);
      var t := Classify(oldCh, newCh);
      if t == Join {
        joinTimes := joinTimes[u := now];
      } else if t == Switch {
        if u in joinTimes {
          var joinTime := joinTimes[u];
          store.RecordVoiceTime(u, Elapsed(joinTime, now), today);
          joinTimes := joinTimes[u := now];
        }
      } else if t == Leave {
        if u in joinTimes {
          var joinTime := joinTimes[u];
          store.RecordVoiceTime(u, Elapsed(joinTime, now), today);
          joinTimes := joinTimes - {u};
        }
      }
    }
  }

  /** `initUserDateStats` after `initUserStats` is just `initUserDateStats`. */
  lemma EnsureDayAfterEnsureUser(s: Store, u: UserId, d: Day)
    ensures EnsureDay(EnsureUser(s, u), u, d) == EnsureDay(s, u, d)
  {
  }
}
