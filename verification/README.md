# Per-guild playback bookkeeping of a Discord text-to-speech bot

The bot (`src/main/kotlin/Main.kt`) reads chat messages aloud in a voice channel. For each message
it decides whether the message is eligible, has it synthesized, loads the clip as an audio track
and queues the track on the guild's scheduler. The scheduler keeps one track playing on the
guild's lavaplayer `AudioPlayer` and holds the others in a FIFO queue. A send handler gives the
voice connection one 20 ms frame per poll.

This project models that bookkeeping in Dafny. It has five modules:

- `Wrappers`: the `Option` type, standing for Kotlin's nullable references.
- `Lavaplayer`: the assumptions made about the library, whose code is not part of this model.
  - A player is one slot for the active track plus the frames it has decoded and not yet handed out.
  - `startTrack(track, noInterrupt)` leaves a busy slot alone when `noInterrupt` is set and answers
    false. Otherwise the slot takes `track` (null empties it) and the answer is whether a track was given.
  - When the active track ends, the player empties the slot and sends a `TrackEndEvent` to its listeners.
  - `mayStartNext` is a boolean carried by each end reason and left free. Every lemma therefore holds
    whichever reasons the library marks as allowing the next track.
- `Schedule`: the scheduler as values. A `State` is the active slot plus the pending queue.
  - `Queue`, `NextTrack`, `OnTrackEnd` and `OnEvent` mirror the Kotlin methods.
  - `Step` and `Run` describe a guild over time: clips are queued, and active tracks end.
  - The lemmas state what playback order results from these operations.
- `Playback`: `TrackScheduler`, `GuildMusicManager` and `AudioPlayerSendHandler` as classes.
  - Their fields are the ones the source updates.
  - Each method of `TrackScheduler`, and `GuildMusicManager.TrackEnds`, is proved to take the
    object to the state that `Schedule` prescribes. The send handler's methods are proved against
    the frame sequence of the player.
- `Bot`: the listener `MyListener`.
  - The guild registry is a `map` field filled lazily, as `computeIfAbsent` does.
  - The listening channel is a `string` field.
  - Its message and slash-command handlers are modelled as methods.
  - The load-result callbacks are modelled as queueing the loaded tracks.

In several places the bot behaves in ways worth stating explicitly; the model follows the code:

- A track that ends for a reason without `mayStartNext` leaves the pending queue in place; it is not
  cleared. The player is then idle while tracks wait. The next queued track starts at once, ahead of
  them (`Schedule.QueueStalls`, `Schedule.StalledQueueIsOvertaken`). FIFO order is therefore proved
  only while every track end allows the next track (`Schedule.FifoOrder`).
- `queue()` runs on lavaplayer's loader thread and a track end on the audio thread, and they can
  interleave between `startTrack` answering false and `offer`. A track can then be left pending
  behind an idle player whatever the end reason, and the next track queued overtakes it
  (`Schedule.InterleavedQueueStalls`). `Schedule.FifoOrder` and `Schedule.PlaybackFollowsQueueOrder`
  therefore hold only when each scheduler call runs whole.
- `/leave` only clears the listening channel. It does not clear the guild's scheduler.
- The listening channel is one field of the listener, shared by all guilds, not one per guild.
- Only a `!join` chat message sets the listening channel. The `/join` slash command connects but
  leaves it unchanged.
- `/leave` and `/join` from a user outside any voice channel end with an exception before anything
  changes, so in that case `/leave` does not clear the listening channel.
- A `!join` message from someone in a voice channel is itself read aloud, because the listening
  channel is set before the eligibility checks run.

## Model

| member | source | states |
|---|---|---|
| `Lavaplayer.StartTrackResult` | src/main/kotlin/Main.kt:210-216 | assumed `startTrack` semantics: a busy player asked not to interrupt keeps its track and answers false; otherwise the slot takes the given track and the answer is whether one was given |
| `Lavaplayer.EndTrackResult` | src/main/kotlin/Main.kt:219-221 | assumed track ending: the slot is emptied, and a `TrackEnd` event for the active track with the given reason is produced exactly when a track was active |
| `Lavaplayer.AudioPlayer.constructor` | src/main/kotlin/Main.kt:194 | a new player is idle and has no frames |
| `Lavaplayer.AudioPlayer.StartTrack` | src/main/kotlin/Main.kt:210-216 | the player's slot and answer are those of `StartTrackResult`; its frames are untouched |
| `Lavaplayer.AudioPlayer.SupplyFrames` | src/main/kotlin/Main.kt:236 | decoded frames are added behind those still waiting; the slot is untouched |
| `Playback.SuppliedFrameIsSent` | src/main/kotlin/Main.kt:232-245 | once a track is queued on a new guild, a frame supplied to its player is exactly what its send handler sends on the first poll, and the track is still playing |
| `Lavaplayer.AudioPlayer.Provide` | src/main/kotlin/Main.kt:236 | `provide()` hands out the first waiting frame and removes it, or null when nothing waits; the slot is untouched |
| `Lavaplayer.AudioPlayer.EndActive` | src/main/kotlin/Main.kt:219-221 | the slot and the event sent to the listeners are those of `EndTrackResult` |
| `Schedule.Queue` | src/main/kotlin/Main.kt:209-213 | an idle player starts the track and the pending queue is unchanged; a busy player keeps its track and the track is appended to the pending queue |
| `Schedule.QueueAddsExactlyOne` | src/main/kotlin/Main.kt:209-213 | after `queue(t)` the guild's tracks (active and pending) are the old ones plus exactly `t`, as multisets |
| `Schedule.QueuedOnce` | src/main/kotlin/Main.kt:209-213 | a track new to the guild appears exactly once across the slot and the pending queue after `queue` |
| `Schedule.QueueAppends` | src/main/kotlin/Main.kt:209-213 | when nothing waits behind an idle player, `queue(t)` puts `t` last in the lineup and keeps that property |
| `Schedule.NextTrack` | src/main/kotlin/Main.kt:215-217 | the head of the pending queue becomes active and exactly it is removed; an empty queue leaves the player idle; an idle player's lineup is unchanged |
| `Schedule.OnTrackEnd` | src/main/kotlin/Main.kt:225-229 | a reason with `mayStartNext` advances by one `nextTrack`; any other reason changes nothing |
| `Schedule.OnEvent` | src/main/kotlin/Main.kt:219-223 | only a `TrackEndEvent` whose reason has `mayStartNext` changes the state, by exactly one `nextTrack`; the pending queue is never cleared, at most its head is taken |
| `Schedule.QueueAll` | src/main/kotlin/Main.kt:119-121 | queueing no track changes nothing; after queueing any track the player is busy |
| `Schedule.QueueAllConserves` | src/main/kotlin/Main.kt:119-121 | queueing a playlist adds exactly its tracks to the guild, in any state |
| `Schedule.QueueAllAppends` | src/main/kotlin/Main.kt:119-121 | on a settled queue the playlist's tracks line up behind the guild's tracks in playlist order |
| `Schedule.Step` | src/main/kotlin/Main.kt:206-229 | one queue call or one track end starts at most one track; a started track is the active one; a busy slot changes only by starting a track or becoming idle |
| `Schedule.StepConserves` | src/main/kotlin/Main.kt:206-229 | the tracks a step starts plus those left pending are exactly the old pending tracks plus the new arrival, for any end reason |
| `Schedule.StepKeepsOrder` | src/main/kotlin/Main.kt:206-229 | from a settled state, a queue call or a track end with `mayStartNext` starts tracks in arrival order and stays settled |
| `Schedule.StepStalls` | src/main/kotlin/Main.kt:225-229 | an end reason without `mayStartNext` leaves the player idle and the pending queue exactly as it was |
| `Schedule.Conservation` | src/main/kotlin/Main.kt:206-229 | over any sequence of queue calls and track ends, the tracks started plus those pending are exactly the tracks queued, none lost or duplicated |
| `Schedule.FifoOrder` | src/main/kotlin/Main.kt:206-229 | starting from a settled state (nothing pending while the player is idle) and while every track end has `mayStartNext` (`AllMayStartNext`), the tracks started followed by those pending are exactly the queued tracks in queue order, and the queue stays settled |
| `Schedule.PlaybackFollowsQueueOrder` | src/main/kotlin/Main.kt:206-229 | from an idle guild and only while every track end has `mayStartNext` (`AllMayStartNext`), the tracks started so far are a prefix of the queued tracks, and the active track is the last started |
| `Schedule.RunActiveWasStarted` | src/main/kotlin/Main.kt:206-229 | from an idle guild, whenever a track is active it is the last track started |
| `Schedule.QueueTwo` | src/main/kotlin/Main.kt:209-212 | two tracks queued on an idle guild: the first plays, the second waits |
| `Schedule.QueueStalls` | src/main/kotlin/Main.kt:225-229 | the stalled state is reachable: after a track end without `mayStartNext` the player is idle while a track still waits |
| `Schedule.InterleavedQueueStalls` | src/main/kotlin/Main.kt:209-229 | when a track end that allows the next track falls between `queue`'s refused `startTrack` and its `offer`, the player goes idle and the track waits behind it, unsettled, and the next track queued starts ahead of it |
| `Schedule.StalledQueueIsOvertaken` | src/main/kotlin/Main.kt:209-229 | a track queued onto a stalled queue starts immediately, ahead of the track that was already waiting |
| `Playback.TrackScheduler.constructor` | src/main/kotlin/Main.kt:206-207 | a new scheduler drives the given player and has an empty queue |
| `Playback.TrackScheduler.Queue` | src/main/kotlin/Main.kt:209-213 | the player's slot and the queue become `Schedule.Queue` of the old ones; frames untouched |
| `Playback.TrackScheduler.NextTrack` | src/main/kotlin/Main.kt:215-217 | the player's slot and the queue become `Schedule.NextTrack` of the old ones |
| `Playback.TrackScheduler.OnEvent` | src/main/kotlin/Main.kt:219-223 | the player's slot and the queue become `Schedule.OnEvent` of the old ones |
| `Playback.TrackScheduler.OnTrackEnd` | src/main/kotlin/Main.kt:225-229 | the player's slot and the queue become `Schedule.OnTrackEnd` of the old ones |
| `Playback.GuildMusicManager.constructor` | src/main/kotlin/Main.kt:193-201 | a new manager has a fresh idle player and a fresh scheduler driving that player |
| `Playback.GuildMusicManager.TrackEnds` | src/main/kotlin/Main.kt:198 | the player's active track ending, with the event delivered to the registered scheduler, is one `Schedule.Step` with `Finish` |
| `Playback.GuildMusicManager.GetSendHandler` | src/main/kotlin/Main.kt:203 | a fresh send handler reading from this manager's player, with no frame cached |
| `Playback.AudioPlayerSendHandler.constructor` | src/main/kotlin/Main.kt:232-233 | a new handler reads from the given player and has no cached frame |
| `Playback.AudioPlayerSendHandler.CanProvide` | src/main/kotlin/Main.kt:235-238 | pulls exactly one frame from the player into `lastFrame` and answers true iff that frame is non-null |
| `Playback.AudioPlayerSendHandler.Provide20MsAudio` | src/main/kotlin/Main.kt:240-243 | returns exactly the cached frame's bytes, or null when the last pull was empty, without pulling again |
| `Playback.AudioPlayerSendHandler.IsOpus` | src/main/kotlin/Main.kt:245-247 | the payload is always declared as Opus |
| `Playback.AudioPlayerSendHandler.Tick` | src/main/kotlin/Main.kt:235-243 | one poll by the voice connection takes the next frame from the player, keeps it as the last frame (none when the player had nothing) and sends exactly its bytes, or nothing; the player's active track is untouched |
| `Bot.ComputeIfAbsent` | src/main/kotlin/Main.kt:74 | the key ends up bound; an existing binding is returned and the map is unchanged; otherwise the new value is bound and returned; other keys keep their values |
| `Bot.ComputeIfAbsentIsStable` | src/main/kotlin/Main.kt:73-75 | a second lookup of the same guild returns the same manager and changes nothing |
| `Bot.IsJoinCommand` | src/main/kotlin/Main.kt:88 | a message is a join command exactly when its text starts with the five characters `!join` |
| `Bot.Speaks` | src/main/kotlin/Main.kt:86-96 | a message goes to synthesis exactly when its author is not a bot, a listening channel is set, the message is in that channel and its author is in voice |
| `Bot.JoinedAfter` | src/main/kotlin/Main.kt:88-91 | a `!join` message from a person makes its channel the listening channel; any other message leaves it alone |
| `Bot.GateIsExact` | src/main/kotlin/Main.kt:86-96 | a message is synthesized iff its author is not a bot, is in a voice channel, and the message is in the listening channel or is itself `!join` (with a non-empty channel id) |
| `Bot.SilentAfterLeave` | src/main/kotlin/Main.kt:175 | with the listening channel cleared, only a `!join` message from a person can be synthesized |
| `Bot.TrackLoaded` | src/main/kotlin/Main.kt:115-117 | a loaded clip is queued: the scheduler moves to `Schedule.Queue` of its old state, and the player's frame output is untouched |
| `Bot.PlaylistLoaded` | src/main/kotlin/Main.kt:119-121 | every playlist track is queued in order: the scheduler moves to `Schedule.QueueAll` of its old state, and the player's frame output is untouched |
| `Bot.MyListener.constructor` | src/main/kotlin/Main.kt:63-65 | no managers yet and no listening channel |
| `Bot.MyListener.GetGuildAudioPlayer` | src/main/kotlin/Main.kt:73-75 | the registry and the answer are `ComputeIfAbsent` of the old registry; a manager is created, fresh and idle, only when the guild had none; the listening channel is unchanged |
| `Bot.MyListener.HandleJoinMessage` | src/main/kotlin/Main.kt:154-169 | the guild is registered (created only if absent, other guilds unchanged); the listening channel is unchanged |
| `Bot.MyListener.OnMessageReceived` | src/main/kotlin/Main.kt:85-98 | the listening channel becomes `JoinedAfter` of the old one; synthesis is launched exactly when the gate holds; the registry changes only by registering this guild, and only for a spoken or `!join` message |
| `Bot.MyListener.HandleJoin` | src/main/kotlin/Main.kt:137-152 | a user outside voice gets the exception and nothing changes; otherwise the guild, if any, is registered; the listening channel is never changed |
| `Bot.MyListener.HandleLeave` | src/main/kotlin/Main.kt:171-179 | a user outside voice gets the exception and nothing changes; otherwise the listening channel becomes empty; the registry and every scheduler are untouched |
| `Bot.MyListener.OnSlashCommandInteraction` | src/main/kotlin/Main.kt:77-83 | `join`, `leave` and `help` are dispatched; only `leave` changes the listening channel and only `join` the registry; `join` registers the guild exactly when the member is in voice and the command comes from a guild, and otherwise leaves the registry alone |

## Left out

- `main()`, the JDA builder, intents and slash-command registration (Main.kt:33-57). These are
  process bootstrap and library configuration.
- Speech synthesis, writing the clip to a file and deleting the output directory on `/leave`. These
  are an HTTP client and filesystem I/O. `OnMessageReceived` answers whether synthesis is launched
  instead of launching it.
- `playerManager.loadItem`, the source-manager registration, the frame-buffer duration and the
  volume. Decoding and loading belong to lavaplayer. Only the two callbacks that queue tracks are
  modelled; `noMatches` and `loadFailed` only send a chat message.
- The coroutine launched per message. Synthesis completions run concurrently, so clips can be
  queued in any order. The model takes the queue calls in whatever order they happen, each one run
  whole; a call split by a track end is covered by `Schedule.InterleavedQueueStalls`.
- Opening and closing the audio connection, installing the send handler on it, and every reply and
  chat message. These are transport and UI plumbing.
- Messages that do not come from a guild. The model gives every message a guild id.
- Events the player itself raises inside `startTrack` are not delivered to the scheduler. These are
  a start event; a `REPLACED` end when `nextTrack` interrupts a playing track; and a `STOPPED` end
  when `nextTrack` runs on an empty queue while a track plays, since `startTrack(null, false)` then
  stops it (src/main/kotlin/Main.kt:216). With lavaplayer's usual flags neither `REPLACED` nor
  `STOPPED` allows the next track, so a delivery would not change the state.
- The `player` argument of the track-end event. `onTrackEnd` ignores it and uses the scheduler's own
  player, and so does the model.
- Tick, Provide: lavaplayer detects the end of a track inside `provide()`. On reading the last frame
  it empties the slot and delivers a `FINISHED` (or `LOAD_FAILED`) end to the scheduler, so
  `nextTrack()` runs within the same `canProvide()` call. The model splits such a poll into
  `GuildMusicManager.TrackEnds` followed by `Tick`, which is why `Tick` keeps the active track.
  Frames are not tied to the active track: the frame sequence is independent of which track plays,
  and an idle player with frames supplied would hand them out where lavaplayer returns null.
- Frame contents beyond their bytes (timecode, format, volume). Frames come from a sequence given
  to the player instead of from decoding.
- Lavaplayer refuses to start the same track instance twice. Tracks are values here, so queueing
  one twice is allowed; `Schedule.QueuedOnce` covers the case the bot produces, a fresh track per clip.
- Concurrency between `queue()` (src/main/kotlin/Main.kt:209-213, on the loader thread) and the
  track-end callback (src/main/kotlin/Main.kt:219-229, on the audio thread). The model runs each
  scheduler call whole, but the two can interleave between `startTrack` and `offer`, which can leave
  a track pending behind an idle player whatever the end reason; `Schedule.FifoOrder` and
  `Schedule.PlaybackFollowsQueueOrder` therefore hold only when each scheduler call runs whole.
  `Schedule.InterleavedQueueStalls` spells out the interleaving step by step.
