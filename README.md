# Voice-time ledger of the dexbot chat bot

The bot records, per (user, guild), how many seconds a member has spent in
voice channels. Its `voice_activity` table has one row per
`(user_id, guild_id)` holding `total_seconds` (default 0) and the nullable
`last_join_time` of the session in progress. A voice-state notification
either joins (no channel before, a channel after), leaves (a channel
before, none after) or is ignored (a move between channels, a mute or
deafen in the same channel, no channel either side). The `dx.s` command
reports the stored total plus the live time of an open session, split
into hours, minutes and seconds.

This project models that ledger in Dafny:

- `wrappers.dfy` — `Option`, used for the nullable column and for channels.
- `clock.dfy` (`Clock`) — timestamps as integer microseconds, and the
  conversion of a duration to whole seconds, truncated toward zero as
  Python's `int()` does (negative durations included).
- `duration.dfy` (`Duration`) — the hours/minutes/seconds split. Python's
  `//` and `%` by a positive constant agree with Dafny's Euclidean `/` and
  `%` on every integer, so the split is stated and proved for all totals.
- `activity.dfy` (`VoiceActivity`) — rows, the table as a
  `map<Key, Row>`, the classification of a before/after pair, the
  transition function `Step` that specifies each notification, the
  reported figure `VoiceSeconds`, and the class `ActivityTable` whose field
  `rows` is the shared table. Its method `VoiceStateUpdate` updates `rows`
  in place and is proved equal to `Step`. Its method `Stats` computes the
  reply's figure step by step and is proved equal to the specification.
- `trace.dfy` (`VoiceTrace`) — whole histories of notifications. Rows are
  never deleted. A member's row is untouched by other members' events.
  Totals only grow while the clock runs forward. When the platform reports
  every change faithfully, `last_join_time` is set exactly while the member
  is connected, moves between channels included.

The current time is a parameter (`now`) of every operation. The clock is
not modelled. No operation requires `now >= joined`: a clock that runs
backwards makes the truncated elapsed time negative, as it would in the
bot. The lemmas that promise growth assume a forward-running clock instead.

## Model

| member | source | states |
|---|---|---|
| `Clock.TruncSeconds` | dex.py:61-62 | a duration of d microseconds yields the integer r with r seconds <= d < r+1 seconds when d >= 0, and the mirror bounds (truncation toward zero) when d < 0 |
| `Clock.TruncSecondsOdd` | dex.py:62 | truncation is odd: a negative duration loses exactly the seconds the positive one gains |
| `Clock.TruncSecondsMonotone` | dex.py:61-62 | a longer duration never yields fewer whole seconds |
| `Clock.ElapsedSeconds` | dex.py:60-62 | the whole seconds from the join to now: for a forward clock the non-negative r with r seconds <= now - joined < r+1 seconds, for a backwards clock a non-positive value |
| `Duration.Split` | dex.py:98-100 | hours*3600 + minutes*60 + seconds equals the total, minutes and seconds lie in 0..59, hours is non-negative exactly when the total is |
| `Duration.SplitUnique` | dex.py:98-100 | any breakdown of the total with minutes and seconds in 0..59 is the one the reply prints |
| `Duration.SplitToSeconds` | dex.py:98-100 | splitting the seconds of an in-range breakdown gives that breakdown back |
| `Duration.SplitZero` | dex.py:91 | a total of 0 prints as 0h 0m 0s |
| `VoiceActivity.Classify` | dex.py:46-55 | a pair is a join exactly when there is no channel before and one after, and a leave exactly when there is one before and none after |
| `VoiceActivity.Step` | dex.py:46-64 | a join upserts the row with the join time, keeping an existing total or starting at 0; a leave with an open session adds the truncated elapsed seconds and clears the join time; a leave without a row or session and every other pair change nothing; no other key changes and no row disappears |
| `VoiceActivity.Apply` | dex.py:42-65 | one notification adds a row only on a join and only for its own key, leaves every other row as it was, and changes nothing when there is a channel on both sides (a move) or on neither |
| `VoiceActivity.VoiceSeconds` | dex.py:88-96 | no row reports 0, a closed row its total, an open row its total plus the truncated seconds since the join |
| `VoiceActivity.VoiceSecondsIsBankedOnLeave` | dex.py:57-64 | the live figure equals the total that a leave at the same moment stores, and that leave does not change the figure |
| `VoiceActivity.VoiceSecondsMonotone` | dex.py:92-96 | with open sessions started no later than now, the figure is at least the stored total and does not drop at a later time |
| `VoiceActivity.ActivityTable.constructor` | dex.py:25-33 | a newly created table has no rows |
| `VoiceActivity.ActivityTable.VoiceStateUpdate` | dex.py:42-65 | the new table is the transition function applied to the old one for this member's key, and every other key keeps its row |
| `VoiceActivity.ActivityTable.Stats` | dex.py:84-100 | the reply's hours, minutes and seconds are the split of the reported figure for the caller's key, and add up to it |
| `VoiceTrace.RowsPersist` | dex.py:46-64 | after any history every row that existed still exists |
| `VoiceTrace.OthersUntouched` | dex.py:48-52 | a history of other members' notifications leaves a row, or its absence, as it was |
| `VoiceTrace.ApplyGrows` | dex.py:55-64 | one notification handled no earlier than every session start keeps all totals from decreasing and all session starts no later than its time |
| `VoiceTrace.TotalsGrow` | dex.py:55-64 | over a history handled at non-decreasing times no total decreases |
| `VoiceTrace.ApplyTracks` | dex.py:46-64 | one faithfully reported notification keeps the join time set exactly for the connected members |
| `VoiceTrace.SessionsTrackPresence` | dex.py:46-64 | over any faithfully reported history the join time is set exactly while the member is connected |
| `VoiceTrace.JoinThenLeave` | dex.py:46-64 | a join then a leave adds the truncated session length to the total (0 for a new row) and closes the session; for a forward clock this is the floor of the elapsed seconds |
| `VoiceTrace.JoinMoveLeave` | dex.py:46-64 | a join, a move to another channel and a leave bank the time from the first join |
| `VoiceTrace.JoinWhileOpen` | dex.py:48-51 | a join on a row whose session is already open restarts the session and keeps the total, so the earlier open time is never banked |

## Left out

- Bot setup, intents, the token from the environment and `bot.run`: third-party client library, networking and environment I/O.
- The `ping` and help commands: constant replies with no logic.
- `on_command_error`: dispatch of exceptions to the host runtime.
- SQLite: connection, schema text and commits; the table is an in-memory map and persistence across restarts (a table that already holds rows at start) is not modelled.
- The clock, ISO-8601 formatting and parsing of `last_join_time`: the time is an integer count of microseconds passed as `now`, and the stored text is that integer.
- Clock.TruncSeconds: `total_seconds()` returns a float; the model uses exact truncation of the microsecond count, which differs only for durations of several centuries, where float rounding can reach the next whole second.
- The `stats` command used outside a server (a direct message): `ctx.guild` is then absent and the bot raises an error before reading the table; `Stats` always receives a guild id.
- The asynchronous event loop and the reply text with the mention and emoji; `Stats` returns the three numbers the reply prints.
- 64-bit bounds of SQLite `INTEGER` columns and ids: totals and ids are unbounded integers.
