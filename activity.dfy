/**
 * The `voice_activity` table: one row per (user, guild) holding the
 * accumulated seconds and the start of the open voice session, if any.
 * Voice-state updates join and leave sessions; the stats command reads
 * a row and adds the live time of a session still in progress.
 */
module VoiceActivity {
  import opened Wrappers
  import opened Clock
  import opened Duration

  type UserId = int
  type GuildId = int
  type ChannelId = int

  /** The table's primary key: (user_id, guild_id). */
  type Key = (UserId, GuildId)

  /** A row: `total_seconds` and the nullable `last_join_time`. */
  datatype Row = Row(total: int, joined: Option<Micros>)

  type Table = map<Key, Row>

  /** A voice-state notification: who, the channel before and after, and when it was handled. */
  datatype Event = Event(user: UserId, guild: GuildId, before: Option<ChannelId>, after: Option<ChannelId>, now: Micros)

  function KeyOf(e: Event): Key
  {
    (e.user, e.guild)
  }

  /** What the handler makes of a before/after pair. */
  datatype Transition = Join | Leave | Ignored

  /** Joining is "no channel, then a channel"; leaving is the reverse; everything else is ignored. */
  function Classify(before: Option<ChannelId>, after: Option<ChannelId>): (tr: Transition)
    ensures tr == Join <==> before.None? && after.Some?
    ensures tr == Leave <==> before.Some? && after.None?
  {
    if before.None? && after.Some? then Join
    else if before.Some? && after.None? then Leave
    else Ignored
  }

  /** The key has a row whose session is open. */
  predicate Open(t: Table, key: Key)
  {
    key in t && t[key].joined.Some?
  }

  /** The table after one transition on `key` handled at time `now`. */
  function Step(t: Table, key: Key, tr: Transition, now: Micros): (r: Table)
    // only the event's own row can change, and no row disappears
    ensures forall k :: k != key ==> (k in r <==> k in t)
    ensures forall k :: k != key && k in t ==> r[k] == t[k]
    ensures key in t ==> key in r
    // join: upsert, keeping the total of an existing row and starting one at 0
    ensures tr == Join ==> key in r && r[key] == Row(if key in t then t[key].total else 0, Some(now))
    // leave with an open session: bank the truncated elapsed seconds and close it
    ensures tr == Leave && Open(t, key) ==>
              key in r && r[key] == Row(t[key].total + ElapsedSeconds(t[key].joined.value, now), None)
    // leave without an open session, and every other transition: nothing changes
    ensures tr == Leave && !Open(t, key) ==> r == t
    ensures tr == Ignored ==> r == t
  {
    match tr
    case Join =>
      var total := if key in t then t[key].total else 0;
      t[key := Row(total, Some(now))]
    case Leave =>
      if Open(t, key) then
        var row := t[key];
        t[key := Row(row.total + ElapsedSeconds(row.joined.value, now), None)]
      else t
    case Ignored => t
  }

  /** The table after handling one notification. */
  function Apply(t: Table, e: Event): (r: Table)
    // a row is created only by a join, and only for the event's own key
    ensures r.Keys == if e.before.None? && e.after.Some? then t.Keys + {KeyOf(e)} else t.Keys
    ensures forall k :: k in t && k != KeyOf(e) ==> r[k] == t[k]
    // a pair with a channel on both sides or on neither (a move, a mute) changes nothing
    ensures e.before.None? == e.after.None? ==> r == t
  {
    Step(t, KeyOf(e), Classify(e.before, e.after), e.now)
  }

  /** The seconds the stats command reports for `key` at time `now`. */
  function VoiceSeconds(t: Table, key: Key, now: Micros): (s: int)
    ensures key !in t ==> s == 0
    ensures key in t && t[key].joined.None? ==> s == t[key].total
    ensures Open(t, key) ==> s == t[key].total + ElapsedSeconds(t[key].joined.value, now)
  {
    if key !in t then 0
    else match t[key].joined
      case None => t[key].total
      case Some(j) => t[key].total + ElapsedSeconds(j, now)
  }

  /** The live figure is what the next leave at the same moment banks. */
  lemma VoiceSecondsIsBankedOnLeave(t: Table, key: Key, now: Micros)
    requires key in t
    ensures VoiceSeconds(t, key, now) == Step(t, key, Leave, now)[key].total
    ensures VoiceSeconds(Step(t, key, Leave, now), key, now) == VoiceSeconds(t, key, now)
  {
  }

  /** Every open session started no later than `clock`. */
  ghost predicate StartedBy(t: Table, clock: Micros)
  {
    forall k :: k in t && t[k].joined.Some? ==> t[k].joined.value <= clock
  }

  /** With a clock that does not run backwards the reported figure never drops. */
  lemma VoiceSecondsMonotone(t: Table, key: Key, now: Micros, later: Micros)
    requires StartedBy(t, now) && now <= later
    ensures 0 <= VoiceSeconds(t, key, later) - VoiceSeconds(t, key, now)
    ensures key in t ==> t[key].total <= VoiceSeconds(t, key, now)
  {
    if Open(t, key) {
      var j := t[key].joined.value;
      TruncSecondsMonotone(now - j, later - j);
    }
  }

  /** The in-memory `voice_activity` table that the bot's handlers share. */
  class ActivityTable {
    var rows: Table

    /** A fresh database: `CREATE TABLE` leaves the table empty. */
    constructor ()
      ensures rows == map[]
    {
      rows := map[];
    }

    /**
     * `on_voice_state_update`: the join upsert or the leave update on this member's row.
     * The two frame clauses after the first follow from it and from `Step`; they are
     * spelled out for the reader.
     */
    method VoiceStateUpdate(user: UserId, guild: GuildId, before: Option<ChannelId>, after: Option<ChannelId>, now: Micros)
      modifies this
      ensures rows == Apply(old(rows), Event(user, guild, before, after, now))
      ensures forall k :: k != (user, guild) && k in old(rows) ==> k in rows && rows[k] == old(rows)[k]
      ensures forall k :: k != (user, guild) ==> (k in rows <==> k in old(rows))
    {
      var key := (user, guild);
      if before.None? && after.Some? {
        if key in rows {
          rows := rows[key := rows[key].(joined := Some(now))];
        } else {
          rows := rows[key := Row(0, Some(now))];
        }
      } else if before.Some? && after.None? {
        if key in rows && rows[key].joined.Some? {
          var row := rows[key];
          var total := row.total + ElapsedSeconds(row.joined.value, now);
          rows := rows[key := Row(total, None)];
        }
      }
    }

    /**
     * The `stats` command: read the row, add any live session, split into h/m/s.
     * The second clause follows from `Split`'s contract and is spelled out for the reader.
     */
    method Stats(user: UserId, guild: GuildId, now: Micros) returns (d: Hms)
      ensures d == Split(VoiceSeconds(rows, (user, guild), now))
      ensures ToSeconds(d) == VoiceSeconds(rows, (user, guild), now)
    {
      var key := (user, guild);
      var total := 0;
      if key in rows {
        total := rows[key].total;
        if rows[key].joined.Some? {
          total := total + ElapsedSeconds(rows[key].joined.value, now);
        }
      }
      var hours := total / 3600;
      var minutes := (total % 3600) / 60;
      var seconds := total % 60;
      d := Hms(hours, minutes, seconds);
    }
  }
}
