# Discord moderation bot — verified model of its state core

This project models, in Dafny, the in-memory core of a Discord bot
(`bot.py`): per-user command usage counters, XP and levels, the duration
parser used by `/timeout`, the XP leaderboard, the permission and argument
gating of the slash and text commands, and the trigger chain of
`on_message`. Discord itself (kicks, bans, timeouts, purges, channel
permission changes, message sending) is an oracle: a command handler is told
whether its platform call succeeded.

Modules:

- `Common` — user ids, `Option`, `Min`/`Max`.
- `Duration` — `parse_duration` on the full-match pattern `(\d+)([mhd])`.
- `Usage` — `command_usage` as a nested map and `track_command` as a pure update.
- `Progression` — one user's XP/level record, `add_xp` on it and on the whole
  table (`user_xp` with its key order, `user_levels`), `xp_to_next_level`.
- `Ranking` — the stable descending sort of `user_xp.items()` and its first ten entries.
- `Triggers` — the `if/elif` trigger chain of `on_message`.
- `Commands` — the commands, their required capabilities, argument checks and
  the decision of what each invocation does.
- `Bot` — class `BotState` holding the three module-level dictionaries; its
  methods update them in place and are proved against the pure functions above.

Policies as the code has them: XP is floored at 0; the stored level is a
high-water mark (raised when `xp // 500` exceeds it, never lowered); a
message is worth 5 XP; a level is 500 XP.

Behaviours of `bot.py` worth noting:

- `parse_duration` has no seconds unit: `"5s"` is rejected (bot.py:52).
- `/purge` never records usage (bot.py:177-184).
- `!say` records usage after the delete and the echo, so a failed platform
  call leaves it unrecorded (bot.py:244-246).
- The trigger chain compares the lowercased content without trimming it (bot.py:108-126).
- A refused permission check produces no reply from the handler; it is
  modelled as the status `PermissionDenied` with no effect.
- A `/timeout` whose end time `utcnow() + timedelta(seconds=…)` cannot be
  represented raises `OverflowError` inside the `try`, so it is reported as
  failed without any call to Discord and without a usage record (bot.py:160-166).
- A failing `channel.send` in `on_message` (the level-up congratulation or a
  trigger's answer) ends the handler before the message reaches text-command
  processing; the XP award has already happened (bot.py:104-129).
- Right after a level-up the XP still needed is between 1 and 500, and
  exactly 500 only when the XP sits on a multiple of 500 (bot.py:74-77).

## Model

| member | source | states |
|---|---|---|
| `Duration.ParseDuration` | bot.py:51-62 | a value exactly for strings that are digits followed by one of `m`, `h`, `d` in full; the value is the digits times 60, 3600 or 86400; `None` otherwise |
| `Duration.DigitsRoundTrip` | bot.py:55 | reading back the decimal rendering of any natural number gives that number |
| `Duration.ParseRendered` | bot.py:51-62 | every rendered `<n><unit>` token parses to `n` times the unit's seconds |
| `Duration.ParseExamples` | bot.py:51-62 | `5m`=300, `2h`=7200, `1d`=86400, `007m`=420; `5s`, `10x`, `m5`, `m`, empty, `5m `, ` 5m` are rejected |
| `Usage.Record` | bot.py:46-49 | the tracked (user, command) count rises by exactly 1 from 0 if absent, every other count is unchanged, any command name is accepted, and no empty map or zero count ever appears |
| `Usage.StatsOf` | bot.py:189 | the stats shown for a user hold exactly that user's non-zero counts, each equal to the tracked count, and no zero entries on a well-formed usage map |
| `Usage.RecordAllCounts` | bot.py:46-49 | after a sequence of tracked commands each count is its start value plus the number of times its pair occurs |
| `Usage.RecordAllMonotone` | bot.py:46-49 | counts never decrease |
| `Usage.RecordUnseenName` | bot.py:46-49 | a never-seen command name `foo` for a new user ends with the stats `{foo: 1}` |
| `Progression.Gain` | bot.py:64-72 | XP becomes `max(0, xp + amount)`; the level becomes `max(level, xp // 500)`; the level-up signal is present exactly when the level rose and then carries the new level, at least 1 |
| `Progression.XpToNext` | bot.py:74-77 | the XP still needed is at most the next threshold and at least 1 whenever the level covers `xp // 500` |
| `Progression.GainKeepsHighWater` | bot.py:68-72 | the level never drops and afterwards is at least `xp // 500` |
| `Progression.XpToNextAfterLevelUp` | bot.py:74-77 | right after a level-up the XP still needed is in 1..500, and 500 exactly when XP is a multiple of 500 |
| `Progression.XpToNextFresh` | bot.py:74-77 | a user never seen needs 500 XP |
| `Progression.GainAllSums` | bot.py:64-67 | over any run of non-negative amounts XP is the start plus the sum |
| `Progression.GainAllHighWater` | bot.py:64-72 | over any run of amounts, negative included, the level never decreases and covers `xp // 500` |
| `Progression.EmptyTable` | bot.py:40-42 | the empty dictionaries form a consistent XP state |
| `Progression.AddXp` | bot.py:64-72 | the target's record follows `Gain`, every other user's XP and level are unchanged, a new user is appended to the key order, and consistency (distinct keys, levels at least 1, level covers XP) is preserved |
| `Progression.XpToNextLevel` | bot.py:74-77 | on a consistent state the result is at least 1, and 500 for an unknown user |
| `Progression.AddXpThenXpToNext` | bot.py:64-77 | right after `add_xp` reports a level-up, `xp_to_next_level` is in 1..500 |
| `Ranking.EntriesOf` | bot.py:219 | `user_xp.items()`: one entry per key, in key order |
| `Ranking.InsertPermutes` | bot.py:219 | inserting an entry adds exactly that entry to the multiset of entries |
| `Ranking.InsertSorted` | bot.py:219 | inserting into a descending list keeps it descending |
| `Ranking.SortDesc` | bot.py:219 | the sort is a permutation of its input and ordered by non-increasing XP |
| `Ranking.SortDescStable` | bot.py:219 | entries of equal XP keep their input order (stability) |
| `Ranking.Top` | bot.py:219 | the first `n`: `min(n, len)` entries, non-increasing XP, drawn from the input |
| `Ranking.TopDominates` | bot.py:219 | no entry left out has more XP than an entry kept |
| `Ranking.TopStable` | bot.py:219 | among equal-XP entries the kept ones are the earliest-inserted, in order |
| `Ranking.Leaderboard` | bot.py:219-224 | `min(10, len)` rows with non-increasing XP; none for no data |
| `Ranking.TopExample` | bot.py:219 | users A, B, C, D in that order with XP like 100, 300, 300, 50: the top three are B, C, A |
| `Ranking.LeaderboardEmpty` | bot.py:219 | an empty XP table gives an empty leaderboard |
| `Triggers.Lower` | bot.py:108-126 | lowercasing keeps the length, turns every ASCII upper-case letter into its lower-case letter, leaves every other character alone, and leaves no ASCII upper-case letter |
| `Triggers.SelectTrigger` | bot.py:108-127 | each trigger fires exactly when its own condition holds on the lowercased content and no earlier one does: `level?` prefix, then exactly `xp left`, then exactly `what commands` or a bot mention, then exactly `key` without a bot mention; nothing fires exactly when no condition holds |
| `Triggers.SelectCaseInsensitive` | bot.py:108-126 | the trigger depends only on the lowercased content |
| `Triggers.TriggerExamples` | bot.py:108-126 | case is ignored: `Level? please`, `XP Left`, `What Commands` and `KEY` fire their triggers |
| `Triggers.TriggerPrecedenceExamples` | bot.py:108-126 | surrounding spaces are not ignored, and earlier triggers take precedence over a bot mention |
| `Commands.RequiredCapability` | bot.py:133-246 | `cmdstats` and `leaderboard` need nothing; `addxp`, `removexp` and `say` need administrator; `timeout` and `untimeout` need moderate-members; `lock` and `unlock` need manage-channels; `kick` kick-members, `ban` ban-members, `purge` manage-messages |
| `Commands.ArgumentsValid` | bot.py:155-212 | `purge` accepts exactly 1..100, `addxp`/`removexp` exactly positive amounts, `timeout` exactly durations of the form digits then `m`, `h` or `d`; every other command has no argument check |
| `Commands.Name` | bot.py:138-246 | each command is recorded under the literal its handler passes to `track_command`; the contract itself only says these are lower-case ASCII words of at least three letters |
| `Commands.NamesDistinct` | bot.py:138-246 | two invocations share a usage counter exactly when they are of the same command, so `/cmdstats` never merges two commands |
| `Commands.Decide` | bot.py:133-246 | a missing capability or a bad argument (`purge` outside 1..100, `addxp`/`removexp` amount not positive, unparsable `timeout` duration) stops the command before any platform call, usage record or XP change; `kick`, `ban`, `timeout` and `say` are recorded only after their platform call succeeds; `untimeout`, `purge`, `lock`, `unlock` and the queries are never recorded; `addxp`/`removexp` are recorded whenever they pass the checks and change XP by `+amount`/`-amount`; kick/ban/timeout/untimeout failures are reported, the others propagate; a `timeout` whose end time overflows is reported as failed with no platform call and no record |
| `Commands.XpCommandsIgnorePlatform` | bot.py:195-215 | `addxp` and `removexp` do not depend on any platform outcome |
| `Commands.PurgeExamples` | bot.py:177-184 | purging 0 or 150 is refused with no deletion; 50 goes through and is not recorded |
| `Commands.KickDenied` | bot.py:133-141 | a kick without the kick capability makes no platform call and records nothing |
| `Commands.TimeoutOverflowFails` | bot.py:156-166 | a parsable duration longer than the time left before the largest representable date fails inside the `try`: reported, no platform call, no record |
| `Commands.TimeoutBeyondDeltaFails` | bot.py:156-166 | a duration of more than 999999999 days fails the same way whatever the clock says |
| `Bot.Respond` | bot.py:108-127 | no answer exactly when no trigger fired; `level?` answers about the first mentioned user or else the author, with a level covering their XP; `xp left` answers with at least 1 |
| `Bot.BotState.constructor` | bot.py:39-42 | all three dictionaries start empty |
| `Bot.BotState.TrackCommand` | bot.py:46-49 | the usage map becomes `Usage.Record` of the old one; XP state is unchanged |
| `Bot.BotState.AddXp` | bot.py:64-72 | the XP state and the returned level-up become `Progression.AddXp` of the old state; usage is unchanged |
| `Bot.BotState.OnMessage` | bot.py:99-129 | a bot author changes nothing; otherwise the author gains 5 XP first; when sends succeed, exactly the trigger chosen by `SelectTrigger` answers with values read after that award and the message is forwarded to text-command processing; when sends fail, nothing is answered and the message is forwarded only if there was neither a level-up nor a trigger to announce |
| `Bot.BotState.Dispatch` | bot.py:133-246 | status, platform call, usage record and XP change are exactly those of `Commands.Decide` for the given clock headroom; `cmdstats` returns the member's (or invoker's) counts, `leaderboard` the top ten of the XP table, `purge` the deletion count, `addxp` its level-up, `say` its text |

## Left out

- The Flask keep-alive server and its thread (bot.py:22-34, 250): HTTP and concurrency.
- Process start-up: the token from the environment, `bot.run` and `tree.sync` (bot.py:11, 81-84, 251).
- The member join and leave greetings (bot.py:86-96): message sending only.
- Every Discord call (kick, ban, timeout, purge, channel permissions, message delete and send): each handler receives one success flag for its platform call, and `purge` the count the platform reports.
- The `until` timestamp of `/timeout` (bot.py:161): the clock is an input, given as the whole seconds left before the largest representable `datetime`; only whether the end time can be represented is modelled, not the timestamp itself.
- Bot.BotState.OnMessage: each event handler runs to completion with no other handler interleaved at its `await`s. In `bot.py` another message or an `/addxp` / `/removexp` can run while the level-up congratulation is being sent (bot.py:105-106), so a trigger answer sent after it (bot.py:110-111, 115) can show those other events' updates; the model reads the values right after this message's own award.
- Bot.BotState.OnMessage: one flag stands for every `channel.send` of a message, so a congratulation that is sent followed by a trigger answer that fails is not distinguished.
- Failures of the reply itself (`send_message` raising after a successful action), which would re-enter the handler's `except` branch.
- The internals of `has_permissions`: the invoker's capabilities are a given set.
- Parsing of `!`-prefixed text commands by the framework (`process_commands`): `OnMessage` reports that the message is forwarded, and the text commands are invoked through `Dispatch`.
- Message texts, embeds, emoji, the order of lines in `/cmdstats`, and display-name lookup with its fallback label in the leaderboard (bot.py:222-223).
- Voice presence: `bot.py` has no voice-state handler.
- Triggers.Lower / Triggers.SelectTrigger: lowercases ASCII letters only, whereas Python's `str.lower()` also folds other Unicode letters (`É` to `é`, the Kelvin sign U+212A to `k`), so a message such as "\u212Aey" fires the `key` trigger in `bot.py` and no trigger in the model.
- Duration.ParseDuration: accepts ASCII digits only, whereas Python's `\d` and `int()` also accept other Unicode decimal digits.
