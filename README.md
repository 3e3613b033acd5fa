# time-to-bot: the gather sequencer, modelled in Dafny

time-to-bot is a small Discord bot. Its `/gather` slash command plays a
fixed script in the channel it was invoked from:

- it sleeps;
- it "types" (shows the typing indicator for 100 ms per UTF-8 byte of the text) and sends a message;
- it reacts with 😴 to the newest message.

The first failing send or reaction ends the run, and the error is then
posted to the channel as "Encountered an error: …". `/ping` answers
"Hey, I'm alive!". Any other command gets no answer.

This project models `src/events/interaction_create.rs`:

- the `GatherAction` script and `GatherSequence::run`;
- `say`, `sleep_millis` and `say_with_typing`;
- the typing delay;
- `start_gathering`, `get_guild_channel` and the command dispatch of `handle_interaction_create`.

## How the model is built

- `wrappers.dfy`: the `Option` and `Result` datatypes.
- `typing.dfy` (module `TypingDelay`):
  - `Delay(content)` is `ByteLen(content) * MS_PER_CHAR`, where `ByteLen` is the UTF-8 byte length. Rust's `str::len` counts bytes.
  - For ASCII text the delay is 100 ms per character and grows with the length.
  - The delays of concatenated texts add up.
- `channel.dfy` (module `Channels`): the Discord channel as a class `Channel`.
  - Every call that succeeds appends an `Effect` to an ordered `log`: posted text, reaction on message *i*, pause, typing started, typing stopped.
  - A failed send, react or typing-start call appends nothing: it only increments its counter. `Messages` and `Reactions` therefore hold only what Discord accepted.
  - The channel counts the send, react and typing-start calls made so far.
  - Whether call number *n* of each kind fails comes from an `Outcomes` value: three sets of failing call numbers. That is how the model injects network failures.
  - A message is identified by its index among the posted messages.
  - Pure step functions (`SendStep`, `ReactStep`, …) give each call's meaning. Every method is proved to follow its step function.
  - `Messages`, `Reactions`, `Pauses` and `Visible` project the log. `Visible` drops the typing indicator.
- `gather.dfy` (module `Gather`):
  - the 12-action `Script`, exactly as in the source;
  - `SayWithTypingStep` and `ActionStep`;
  - `Play`, the meaning of a run: the actions from a position on, stopping at the first error;
  - the imperative `SayWithTyping` and `GatherSequence.Run`. `Run` is a `for` loop that updates `last_message` and returns early on an error. Its contract says the channel ends exactly as `Play` says, with the same result.
- `gather_properties.dfy` (module `GatherProperties`): properties of `Play` for any script and any outcomes:
  - fail-fast on a send error;
  - the exact messages and pauses when nothing fails;
  - reactions always land on the newest message;
  - `AddReaction` does nothing before the first message;
  - the typing indicator never changes the outcome.
- `gather_script.dfy` (module `GatherScript`): the same properties for the concrete script, from a fresh channel.
  - the five texts, in order;
  - one 😴 on the third message;
  - 6 s of scripted sleep plus 9.6 s of typing;
  - the send-failure case;
  - the reaction-failure case.
- `interaction.dfy` (module `Interactions`):
  - the routing of command names;
  - `get_guild_channel`'s two error messages;
  - `start_gathering`, which answers the interaction, runs the script and posts a failure report;
  - `handle_interaction_create`;
  - the messages a failed run leaves in the channel.

### Details of the script that the model keeps

- The reaction is a separate `AddReaction('😴')` step, after `Sleep(500)` (`interaction_create.rs:46-48`). It reacts to `last_message`, which is then the third message. A failed reaction ends the run.
- The script has six sleeps: 1000, 1000, 1000, 500, 2000 and 500 ms, 6000 ms in total.
- `say_with_typing` calls `stop` only when the typing indicator started **and** the send succeeded. On a failed send, `?` returns before the stop (`:142-146`).
- An `AddReaction` before any message makes no react call (`:64`). The model therefore counts react *calls* (`ReactCalls`, `ReactCallsBefore`), not scripted reactions.

## Model

| member | source | states |
|---|---|---|
| TypingDelay.Delay | src/events/interaction_create.rs:78 | the delay is between 100 ms and 400 ms per character, since a character takes 1 to 4 UTF-8 bytes |
| TypingDelay.ByteLen | src/events/interaction_create.rs:78 | the byte length of a text is at least its character count and at most four times it |
| TypingDelay.Utf8Width | src/events/interaction_create.rs:78 | a character takes 1 to 4 bytes, and exactly 1 iff it is below U+0080 |
| TypingDelay.ByteLenAscii | src/events/interaction_create.rs:78 | the byte length equals the character count iff the text is ASCII, both directions |
| TypingDelay.DelayAsciiMonotone | src/events/interaction_create.rs:12 | for ASCII text the delay is `MS_PER_CHAR` (100) per character and is monotone in length |
| TypingDelay.DelayAppend | src/events/interaction_create.rs:78 | the delay of a concatenation is the sum of the delays, so appending never shortens it |
| Channels.Channel.Say | src/events/interaction_create.rs:139-142 | a send either posts the text as the next message and returns its index, or fails and posts nothing |
| Channels.Channel.React | src/events/interaction_create.rs:64-68 | a reaction on a message is recorded unless that react call fails |
| Channels.Channel.StartTyping | src/events/interaction_create.rs:137 | the typing indicator starts unless that start fails; the outcome is reported back |
| Channels.Channel.StopTyping | src/events/interaction_create.rs:144-146 | stopping the indicator is recorded and cannot fail |
| Channels.Channel.Sleep | src/events/interaction_create.rs:82-84 | a sleep is recorded as its duration |
| Channels.ProjectionsOfVisible | src/events/interaction_create.rs:137-146 | messages, reactions and pauses are unaffected by removing the typing indicator from the log |
| Gather.SayWithTyping | src/events/interaction_create.rs:131-149 | the channel and result are exactly those of `SayWithTypingStep` (start typing, sleep, send, stop if started and sent) |
| Gather.GatherSequence.Run | src/events/interaction_create.rs:37-75 | the loop leaves the channel exactly as `Play` of the script from the old state says, and returns its outcome |
| Gather.GatherSequence.Say | src/events/interaction_create.rs:77-80 | `say` is `say_with_typing` with the delay of its text |
| Gather.GatherSequence.SleepMillis | src/events/interaction_create.rs:82-84 | `sleep_millis` records one pause of that length |
| GatherProperties.SayWithTypingEffects | src/events/interaction_create.rs:137-148 | the result is Ok iff the send succeeds, whatever the typing indicator does; the error is "Unable to send message in channel"; the log grows by: typing start if it started, the pause, the message if sent, and the stop only if it started and the message was sent |
| GatherProperties.SayWithTypingProjections | src/events/interaction_create.rs:137-146 | `say_with_typing` adds one pause, the message if sent, and no reaction |
| GatherProperties.SayIgnoresTyping | src/events/interaction_create.rs:137 | a failed typing start never changes the result or anything visible in the channel |
| GatherProperties.PlayIgnoresTyping | src/events/interaction_create.rs:57-72 | runs that differ only in which typing starts fail have the same outcome, `last_message` and visible channel |
| GatherProperties.StepSucceeds | src/events/interaction_create.rs:58-71 | one action whose calls succeed: a `Say` posts its text and becomes `last_message`, an `AddReaction` reacts to `last_message` if any, a `Sleep` only pauses |
| GatherProperties.PlaySplit | src/events/interaction_create.rs:57-72 | a run is its first part followed, unless that failed, by the rest from the same point |
| GatherProperties.PlayAllSucceed | src/events/interaction_create.rs:57-74 | if no send or react call fails, the run returns Ok. It posts exactly the `Say` texts in order, pauses exactly `Waits`, and makes exactly `ReactCalls` react calls. `last_message` ends on the newest message |
| GatherProperties.WaitsTotal | src/events/interaction_create.rs:59-61 | without failures the pauses sum to the scripted sleeps plus the typing delay of every text sent |
| GatherProperties.StepSendFails | src/events/interaction_create.rs:61 | a `Say` whose send fails ends the step with the send error; it posts nothing, reacts to nothing, and records only its typing pause |
| GatherProperties.PlaySendFails | src/events/interaction_create.rs:57-72 | if the k-th send fails and every send and react call made before it succeeded, the run returns the send error. The channel holds exactly the first k texts. The pauses are exactly those up to the failed `Say`'s typing. The react calls are exactly those made before that `Say`, and no later send is attempted |
| GatherProperties.PausesThroughPrefix | src/events/interaction_create.rs:57-72 | the pauses of a run stopped by a failed send are a prefix of the pauses of the failure-free run |
| GatherProperties.ReactCallsBeforeBound | src/events/interaction_create.rs:63-70 | the react calls made before a failing send are at most those of the failure-free run |
| GatherProperties.NoReactionWithoutMessage | src/events/interaction_create.rs:63-70 | before any message, `AddReaction` does nothing and never fails |
| GatherProperties.StepReactsOnLatest | src/events/interaction_create.rs:58-71 | each action keeps every reaction on the message posted just before it and `last_message` on the newest message |
| GatherProperties.PlayReactsOnLatest | src/events/interaction_create.rs:55-72 | a whole run keeps every reaction on the newest message at the time it was made |
| GatherScript.ShapedTexts | src/events/interaction_create.rs:40-53 | the script's `Say` texts are its five texts in order; the last two come after the reaction |
| GatherScript.ShapedCounts | src/events/interaction_create.rs:40-53 | a run of the script makes exactly one react call, none after its eighth action, and the script's own sleeps total 6000 ms |
| GatherScript.ScriptWaits | src/events/interaction_create.rs:40-53 | without failures the pauses are 1000, 400, 1000, 2100, 1000, 2700, 500, 2000, 2600, 500, 1800 ms |
| GatherScript.EarlyTextDelays | src/events/interaction_create.rs:42-46 | the first three texts are typed for 400, 2100 and 2700 ms |
| GatherScript.LateTextDelays | src/events/interaction_create.rs:50-52 | the last two texts are typed for 2600 and 1800 ms |
| GatherScript.TextsTypingTime | src/events/interaction_create.rs:40-53 | typing all five texts takes 9600 ms |
| GatherScript.RunAllSucceed | src/events/interaction_create.rs:40-74 | from a fresh channel with no failure, the run returns Ok; the channel receives exactly "Hey!", "What's going on here?", "Why is @everyone asleep!?!?", "Come on come one! Wake up!", "It's Time to Game!"; `last_message` is the fifth |
| GatherScript.RunPausesAllSucceed | src/events/interaction_create.rs:40-74 | with no failure the recorded pauses are 6000 ms of scripted sleep plus 9600 ms of typing |
| GatherScript.RunReactsOnce | src/events/interaction_create.rs:46-48 | with no failure exactly one reaction is recorded: 😴 on the third message |
| GatherScript.ReactionReached | src/events/interaction_create.rs:40-48 | if the first three sends and the reaction succeed, the first eight actions send the first three texts, take the first seven pauses and put 😴 on the third message. The run continues from there |
| GatherScript.RunSendFails | src/events/interaction_create.rs:57-72 | if the k-th send fails and every call before it succeeded, the run returns "Unable to send message in channel". The channel holds exactly the first k texts, k+1 sends were made, and the pauses are `RunPauses` up to the failed send's typing delay. There is no reaction when k < 3, and exactly 😴 on the third message otherwise |
| GatherScript.RunReactFails | src/events/interaction_create.rs:63-68 | if the reaction fails, the run returns "Failed to react to message" with exactly the first three messages, no reaction and no fourth send |
| GatherScript.RunIgnoresTyping | src/events/interaction_create.rs:137-146 | failed typing starts never change the run's outcome, messages, reactions or pauses |
| GatherScript.RunReactsOnLatest | src/events/interaction_create.rs:55-72 | whatever fails, every reaction of the run is on the message posted just before it |
| Interactions.Route | src/events/interaction_create.rs:17-21 | "gather" and only it routes to the gather sequence, "ping" and only it to the ping reply, anything else is unimplemented |
| Interactions.GuildChannel | src/events/interaction_create.rs:116-129 | a channel is found iff it is a server channel; otherwise the error is "Internal error: could not find the originating channel." or "This command can only be used in a server channel." |
| Interactions.GatherResponse | src/events/interaction_create.rs:87-113 | the interaction is answered with the greeting if the channel resolves, else with the lookup error |
| Interactions.Reply | src/events/interaction_create.rs:15-23 | an interaction gets a response iff it is the "gather" or "ping" command; "ping" yields "Hey, I'm alive!" |
| Interactions.Responder.Respond | src/events/interaction_create.rs:151-169 | a response is appended to the responses given |
| Interactions.StartGathering | src/events/interaction_create.rs:87-114 | answers exactly once; in a server channel the channel ends as the run leaves it, plus the failure report if the run failed |
| Interactions.HandleInteractionCreate | src/events/interaction_create.rs:15-23 | the responses grow by exactly `Reply`; only "gather" touches the channel |
| Interactions.GatheringReportsFailure | src/events/interaction_create.rs:104-109 | a successful run adds nothing; a failed run is followed by one send of "Encountered an error: " plus the error, which appears if that send succeeds |
| Interactions.GatheringSendFails | src/events/interaction_create.rs:104-109 | if send k fails, the channel ends with the first k texts and then "Encountered an error: Unable to send message in channel" |
| Interactions.GatheringReactFails | src/events/interaction_create.rs:104-109 | if the reaction fails, the channel ends with the first three texts and then "Encountered an error: Failed to react to message" |

## Left out

- Real time and the tokio scheduler: a sleep is only recorded as a duration.
- The Discord HTTP API and serenity's `Http`, `GuildChannel`, `Message` and `Typing` types:
  - a channel is the `Channel` class;
  - a message is its index among the posted messages;
  - whether each call succeeds comes from the injected `Outcomes`.
- `get_guild_channel`'s network fetch: its result enters `StartGathering` as a `Lookup` value (unreachable, not a server channel, or the channel).
- `respond_to_interaction`'s network behaviour: a response is only recorded. A failure to respond is only logged by the bot and has no other effect.
- `tracing` logging (`warn!`, `error!`) is not modelled.
- TypingDelay.Delay: uses unbounded integers. It does not model a `u64` overflow of `len * 100`, which no text of the script can reach.
- `src/main.rs`, `src/events/ready.rs` and `src/events/mod.rs` are not part of this model. They cover start-up, command registration and event forwarding.
- The order of the interaction response relative to the channel's effects is not captured. `start_gathering` answers the interaction (`:95`) before the run starts (`:97-102`), and Discord shows that response in the channel ahead of the first message. The model records the responses in a separate `Responder`, so no contract states this order.
- Concurrent runs in different channels are not modelled. They share no state in the source.
