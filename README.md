# Giveaway bot: engagement tracking and winner selection

A model of the logic of a single-file Discord giveaway bot (`main.py`), without any of the Discord calls.

The bot keeps three process-wide dictionaries:
- `message_count`: messages per user;
- `vc_join_time`: the start of each open voice session;
- `vc_minutes`: the voice minutes of closed sessions.

It also keeps a giveaway counter that starts at 1 and a dictionary of giveaway records keyed by id. Messages and voice-state updates change the dictionaries.

The `!giveaway` command then runs in two halves around its sleep:
- The first half clears the tracker, opens a session for everyone already in voice, takes the next id and stores the record.
- The second half filters the non-bot 🎉 reactors by an OR-combined message/voice threshold and draws `min(winners, |valid|)` distinct winners.

`!reroll` draws one winner from the record's current reactors, with no threshold.

Files:
- `wrappers.dfy`: `Option` and map lookup.
- `engagement.dfy` (module `Engagement`): the tracker as a value (`Counters`) and the pure transitions that specify each event. It also holds lemmas over sequences of events.
- `selection.dfy` (module `Selection`): the requirement test, the order-preserving filter, and the draws standing in for `random.sample` and `random.choice`.
- `bot.dfy` (module `GiveawayBot`): class `Bot`, whose fields are the module-level globals. Its methods are the handlers and update those fields in place. Each method's `ensures` ties the new state to the pure transition, or its result to the selection functions.

Modelling choices:
- Timestamps are whole seconds.
- Voice minutes are exact `real`s, `(now - join) / 60`.
- Randomness is an input: `picks` for the sample and `pick` for the choice.
- The reactors of a message are inputs, already filtered for bots.
- "Is 🎉 still on the message" is a boolean input.

Behaviours of the code worth knowing:
- There is no flush of still-open voice sessions at expiry. The help text promises "VC time counts even if user joined before" (main.py:67), but a member who stays in voice through the whole window is credited 0 minutes (`Engagement.StayingInVoiceEarnsNothing`); only a member who leaves before the end is credited from the giveaway's start.
- Thresholds are plain integers, tested with `> 0`. A negative threshold therefore counts as "not required", and the OR form proved for `Selection.Passed` uses `<= 0`.
- The winner count may be 0. A giveaway with eligible entrants then ends with an empty winner list.
- Records are never removed, so `!reroll` works on any id ever issued, including a giveaway still running.

## Model

| member | source | states |
|---|---|---|
| `Engagement.AfterMessage` | main.py:34-39 | a bot's message changes nothing; a human's message raises its author's count by exactly 1 (missing reads as 0) and leaves every other user's entries and the voice maps untouched |
| `Engagement.AfterVoiceStateUpdate` | main.py:42-52 | a join overwrites the user's session start with `now`; a switch or any update with the same in-voice status changes nothing; a leave with an open session removes it and adds its minutes to the user's total (missing read as 0); a leave with no open session changes nothing; other users never change |
| `Engagement.Members` | main.py:84-86 | the set gathered channel by channel holds exactly the users who are a member of some voice channel |
| `Engagement.WindowStart` | main.py:79-86 | at giveaway start the message counts and voice minutes are empty and the open sessions are exactly the present voice members, each stamped with the start time |
| `Engagement.VoiceMinutesNeverDecrease` | main.py:49-52 | over any event sequence with non-decreasing voice timestamps, starting with no session opened in the future, no user's accumulated voice minutes decrease |
| `Engagement.MinutesNeedALeave` | main.py:46-52 | a user's voice minutes change only through that user's leave events; joins, switches and messages leave them as they were |
| `Engagement.StayingInVoiceEarnsNothing` | main.py:133-134 | a user with no leave event during the giveaway, such as a member in voice at the start who never leaves, has 0 voice minutes at resolution: open sessions are not counted |
| `Selection.Passed` | main.py:136-144 | the cascade of requirement cases is equivalent to `(M <= 0 && V <= 0) \|\| (M > 0 && m >= M) \|\| (V > 0 && v >= V)` |
| `Selection.Filter` | main.py:130-147 | the valid users are exactly the entrants that pass the test on their tracked message count and voice minutes; the list is no longer than the entrant list and has no repeats when the entrants have none |
| `Selection.Sample` | main.py:153 | a sample of `k <= \|pool\|` has exactly `k` entries, is a sub-multiset of the pool (drawn without replacement), contains only pool members, and has no repeats when the pool has none |
| `Selection.Choice` | main.py:179 | the chosen winner is an entry of the list, and every entry is chosen by some draw |
| `Selection.TwoMessagesQualify` | main.py:132-153 | with a two-message requirement and no voice requirement, an entrant who sent two messages qualifies and one who sent none does not, so a one-winner draw names the first for every random source |
| `GiveawayBot.Bot.constructor` | main.py:22-27 | the counter starts at 1 and the record store and the three tracker maps start empty |
| `GiveawayBot.Bot.OnMessage` | main.py:34-39 | updates the message map in place as `Engagement.AfterMessage` specifies; the counter and records are unchanged |
| `GiveawayBot.Bot.OnVoiceStateUpdate` | main.py:42-52 | updates the voice maps in place as `Engagement.AfterVoiceStateUpdate` specifies; the counter and records are unchanged |
| `GiveawayBot.Bot.StartGiveaway` | main.py:79-118 | clears the three maps and primes them with a `setdefault` loop to `Engagement.WindowStart`. The returned id is the old counter, so it is above every stored id. The counter grows by exactly 1. The only new record is stored under that id and holds exactly the submitted message id, channel id, message and voice requirements and winner count |
| `GiveawayBot.Bot.ValidUsers` | main.py:130-147 | the loop, applying `Selection.Passed` to each reactor's tracked counts, builds exactly `Selection.Filter` of the reactors, in order; a user is in the result iff it reacted and passes the test |
| `GiveawayBot.Bot.Resolve` | main.py:122-153 | the giveaway is cancelled iff the 🎉 reaction is missing. The outcome is "no one met the requirements" iff the reaction is present and no reactor is eligible. Otherwise it returns `min(winners, \|valid\|)` winners, each drawn without replacement from the eligible reactors, with no repeats when the reactors are distinct (Discord lists each reactor once); a negative winner count is accepted on the two early exits |
| `GiveawayBot.Bot.Reroll` | main.py:164-179 | an unknown id gives "invalid id"; a known id whose message has no non-bot reactors gives "no participants"; otherwise the one winner is the draw `Selection.Choice` makes from all current reactors of the recorded message, with no threshold applied, so every reactor, eligible or not, is drawn by some `pick` and the same `pick` gives the same winner; no state changes |

## Left out

- Discord client plumbing is not modelled: intents, bot construction, the token, embeds, message texts, `add_reaction`, `fetch_message`, `get_channel`, and the async iteration over reactors. These are I/O and stand in the model as inputs.
- `bot.process_commands` after counting a message is not modelled: command dispatch is library code.
- The help command is not modelled: it is static text.
- `asyncio.sleep` is the point between `StartGiveaway` and `Resolve`, where events keep arriving.
- Coroutine scheduling is not modelled. In the source another `!giveaway` started during the sleep clears the same maps; the model does not bound this, since each handler runs as one step.
- `GiveawayBot.Bot.StartGiveaway` treats issuing the id (main.py:88-89) and storing the record (main.py:112) as one step, though the awaits at main.py:109-110 lie between them. Three effects of that gap are not captured: a `!reroll` of the just-issued id answers "invalid id"; a second `!giveaway` takes the next id and stores its record first; an exception from sending the announcement or adding the reaction leaves the id used with no record stored.
- `Selection.Sample`, `Selection.Choice`: the random source is an input. Uniformity of `random.sample` and `random.choice` is not stated.
- Floating point in `delta.total_seconds() / 60` is not modelled. Timestamps are whole seconds and minutes are exact reals.
- `GiveawayBot.Bot.Resolve` requires `winners >= 0` only on the path that draws. There a negative count makes `random.sample` raise, and the source does not handle it; the cancelled and "no one met the requirements" exits accept any count.
- `GiveawayBot.Bot.Reroll` does not model the case where the 🎉 reaction was removed from the recorded message. The source then fails on `reaction.users()` with no handling; the model's reactor list is that of a message that still carries the reaction.
- `GiveawayBot.Bot.Reroll` does not model a recorded message or channel that no longer exists. The source fails inside the fetch, which is I/O here.
- The duration argument only sets the sleep; it is not stored, so it does not appear in the model.
- The prize text appears only in the embed, so it is not modelled either.
