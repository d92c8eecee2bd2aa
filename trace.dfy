/**
 * Sequences of voice-state notifications handled one after another, as
 * the bot's single event loop does.  Here the table's promises are
 * stated over whole histories: rows persist, other members' rows stay
 * untouched, totals only grow while the clock runs forward, and the
 * open-session column tracks who is connected when the platform reports
 * every change.
 */
module VoiceTrace {
  import opened Wrappers
  import opened Clock
  import opened VoiceActivity

  /** The table after handling `evs` in order. */
  function Replay(t: Table, evs: seq<Event>): Table
    decreases |evs|
  {
    if evs == [] then t else Replay(Apply(t, evs[0]), evs[1..])
  }

  /** No handler deletes a row. */
  lemma {:induction false} RowsPersist(t: Table, evs: seq<Event>)
    ensures t.Keys <= Replay(t, evs).Keys
    decreases |evs|
  {
    if evs != [] {
      RowsPersist(Apply(t, evs[0]), evs[1..]);
    }
  }

  /** A history that never names `key` leaves its row as it was. */
  lemma {:induction false} OthersUntouched(t: Table, evs: seq<Event>, key: Key)
    requires forall i :: 0 <= i < |evs| ==> KeyOf(evs[i]) != key
    ensures key in Replay(t, evs) <==> key in t
    ensures key in t ==> Replay(t, evs)[key] == t[key]
    decreases |evs|
  {
    if evs != [] {
      OthersUntouched(Apply(t, evs[0]), evs[1..], key);
    }
  }

  /** The notifications are handled at non-decreasing times, none before `clock`. */
  ghost predicate Chronological(clock: Micros, evs: seq<Event>)
    decreases |evs|
  {
    evs == [] || (clock <= evs[0].now && Chronological(evs[0].now, evs[1..]))
  }

  /** One notification at or after `clock` keeps every total and every session start bounded. */
  lemma ApplyGrows(t: Table, clock: Micros, e: Event)
    requires StartedBy(t, clock) && clock <= e.now
    ensures StartedBy(Apply(t, e), e.now)
    ensures forall k :: k in t ==> k in Apply(t, e) && t[k].total <= Apply(t, e)[k].total
  {
    var key := KeyOf(e);
    if Classify(e.before, e.after) == Leave && Open(t, key) {
      assert t[key].joined.value <= e.now;
    }
  }

  /** With a clock that does not run backwards no total ever decreases. */
  lemma {:induction false} TotalsGrow(t: Table, clock: Micros, evs: seq<Event>)
    requires StartedBy(t, clock) && Chronological(clock, evs)
    ensures forall k :: k in t ==> k in Replay(t, evs) && t[k].total <= Replay(t, evs)[k].total
    decreases |evs|
  {
    if evs != [] {
      var t' := Apply(t, evs[0]);
      ApplyGrows(t, clock, evs[0]);
      TotalsGrow(t', evs[0].now, evs[1..]);
    }
  }

  /** Who the platform says is in a voice channel, and which one. */
  type Presence = map<Key, ChannelId>

  function ChannelOf(p: Presence, key: Key): Option<ChannelId>
  {
    if key in p then Some(p[key]) else None
  }

  /** The platform's view after the notification `e`. */
  function Move(p: Presence, e: Event): Presence
  {
    match e.after
    case Some(c) => p[KeyOf(e) := c]
    case None => p - {KeyOf(e)}
  }

  function Travel(p: Presence, evs: seq<Event>): Presence
    decreases |evs|
  {
    if evs == [] then p else Travel(Move(p, evs[0]), evs[1..])
  }

  /** Every notification's "before" is the channel the member was really in. */
  ghost predicate Delivered(p: Presence, evs: seq<Event>)
    decreases |evs|
  {
    evs == [] || (ChannelOf(p, KeyOf(evs[0])) == evs[0].before && Delivered(Move(p, evs[0]), evs[1..]))
  }

  /** The open-session column is set exactly for the members who are connected. */
  ghost predicate Tracks(t: Table, p: Presence)
  {
    (forall k :: k in p ==> Open(t, k)) && (forall k :: Open(t, k) ==> k in p)
  }

  /** One correctly reported notification keeps the column in step, moves between channels included. */
  lemma ApplyTracks(t: Table, p: Presence, e: Event)
    requires Tracks(t, p) && ChannelOf(p, KeyOf(e)) == e.before
    ensures Tracks(Apply(t, e), Move(p, e))
  {
    var t', p' := Apply(t, e), Move(p, e);
    forall k | k in p'
      ensures Open(t', k)
    {
      if k != KeyOf(e) {
        assert k in p;
      }
    }
    forall k | Open(t', k)
      ensures k in p'
    {
      if k != KeyOf(e) {
        assert Open(t, k);
      }
    }
  }

  /** Over any correctly reported history, `last_join_time` is non-null exactly while the member is connected. */
  lemma {:induction false} SessionsTrackPresence(t: Table, p: Presence, evs: seq<Event>)
    requires Tracks(t, p) && Delivered(p, evs)
    ensures Tracks(Replay(t, evs), Travel(p, evs))
    decreases |evs|
  {
    if evs != [] {
      ApplyTracks(t, p, evs[0]);
      SessionsTrackPresence(Apply(t, evs[0]), Move(p, evs[0]), evs[1..]);
    }
  }

  /** A join at `start` then a leave at `stop` banks the truncated length of that session. */
  lemma JoinThenLeave(t: Table, user: UserId, guild: GuildId, c: ChannelId, start: Micros, stop: Micros)
    ensures var r := Replay(t, [Event(user, guild, None, Some(c), start), Event(user, guild, Some(c), None, stop)]);
      var base := if (user, guild) in t then t[(user, guild)].total else 0;
      (user, guild) in r && r[(user, guild)] == Row(base + TruncSeconds(stop - start), None)
    ensures start <= stop ==> TruncSeconds(stop - start) == (stop - start) / MicrosPerSecond
  {
    var key := (user, guild);
    var e0, e1 := Event(user, guild, None, Some(c), start), Event(user, guild, Some(c), None, stop);
    var t1 := Apply(t, e0);
    assert Replay(t, [e0, e1]) == Replay(t1, [e1]) by {
      assert [e0, e1][1..] == [e1];
    }
    assert Replay(t1, [e1]) == Apply(t1, e1) by {
      assert [e1][1..] == [];
    }
  }

  /** A move between channels neither closes the session nor restarts it: the leave counts from the first join. */
  lemma JoinMoveLeave(t: Table, user: UserId, guild: GuildId, c: ChannelId, c': ChannelId, start: Micros, move: Micros, stop: Micros)
    ensures var r := Replay(t, [Event(user, guild, None, Some(c), start), Event(user, guild, Some(c), Some(c'), move),
                                Event(user, guild, Some(c'), None, stop)]);
      var base := if (user, guild) in t then t[(user, guild)].total else 0;
      (user, guild) in r && r[(user, guild)] == Row(base + TruncSeconds(stop - start), None)
  {
    var e0, e1, e2 := Event(user, guild, None, Some(c), start), Event(user, guild, Some(c), Some(c'), move),
                      Event(user, guild, Some(c'), None, stop);
    var t1 := Apply(t, e0);
    assert Apply(t1, e1) == t1;
    assert Replay(t, [e0, e1, e2]) == Replay(t1, [e1, e2]) by {
      assert [e0, e1, e2][1..] == [e1, e2];
    }
    assert Replay(t1, [e1, e2]) == Replay(t1, [e2]) by {
      assert [e1, e2][1..] == [e2];
    }
    assert Replay(t1, [e2]) == Apply(t1, e2) by {
      assert [e2][1..] == [];
    }
  }

  /** A second join while a session is open restarts it: the earlier time is never banked. */
  lemma JoinWhileOpen(t: Table, e: Event)
    requires Open(t, KeyOf(e)) && e.before.None? && e.after.Some?
    ensures Apply(t, e)[KeyOf(e)] == Row(t[KeyOf(e)].total, Some(e.now))
  {
  }
}
