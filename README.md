# MusicPlayer session model

This project models the `MusicPlayer` class in `src/MusicPlayer.ts`, written in Dafny. A
`MusicPlayer` object plays audio in one Discord voice channel. Its model has these parts:

- It holds a voice connection and an audio player.
- It keeps a queue of track metadata, a history of played URLs, two loop flags, a `playing`
  flag, a volume multiplier and an optional auto-leave timer.
- It emits events to its listeners.
- Its public methods are `search`, `play`, `pause`, `resume`, `setVolume`, `skip`,
  `previous`, `shuffle`, the loop toggles, `stop`, `disconnect` and the query methods. The audio
  player's idle, playing and error notifications drive the rest.

The model is in five files:

- `types.dfy` (module `MusicTypes`) holds the values:
  - JavaScript's `undefined`, written as `Option.None`;
  - URLs as `Option<string>`, since a failed search or an empty history gives
    `undefined`;
  - `TrackMetadata` and the emitted events;
  - `Math.round`, and reading and popping the end of an array.
- `urls.dfy` (module `Resolution`) holds how input becomes a URL and a URL becomes
  metadata:
  - the URL-shape tests are prefix predicates, each proved to accept exactly the
    strings that begin with one alternative of its regular expression;
  - the search, metadata and stream providers are oracles: functions handed in as
    parameters.
- `session.dfy` (module `Session`) describes each method as a function from the state before
  the call to the state after it. The state includes the list of events emitted so far.
- `player.dfy` (module `Player`) is the class itself:
  - its fields are the state;
  - its methods update them step by step;
  - each method is proved to produce exactly the state its `Session` function describes.
  The `find` loop of `previous` and the Fisher-Yates loop of `shuffle` are real loops with
  invariants.
- `properties.dfy` (module `SessionProperties`) proves properties of the state machine:
  - idempotence;
  - what a sequence of idle notifications does to the queue;
  - that every run of operations only appends events and keeps the volume in range;
  - the `previous` finding below.

The following choices fix how the model reads:

- **Atomic methods.** Every public method is taken to run to completion before the next one
  starts.
- **Exceptions.** An exception ends the operation with the state it had reached. For
  example, if no stream opens, `playUrl` has already set `playing` and pushed the URL, and
  it emits no `Start`. Only the throws inside `play` and in `previous`'s own `find` reach a
  caller that awaits them; the others are unhandled rejections (see "## Left out").
  Likewise, when the search providers reject the input, `play` ends after connecting, with
  nothing queued or played.
- **Event payloads.** They are the objects the code passes to `emit`. For example, `Start`
  carries `{url, history, metadata}` and `Finish` carries `{history}`. The payload
  interfaces in `src/types.ts` differ from these.
- **Silent operations.** `shuffle` and the loop toggles emit no event.
- **Initial volume.** The constructor does not clamp the initial volume.

## Model

| member | source | states |
|---|---|---|
| MusicTypes.Round | src/MusicPlayer.ts:297 | `Math.round`: the result is the integer within one half of the argument, halves rounding up |
| MusicTypes.Last | src/MusicPlayer.ts:301 | `a[a.length - 1]` is `undefined` on an empty array and the last element otherwise |
| MusicTypes.Pop | src/MusicPlayer.ts:340 | `pop` on an empty array leaves it empty; otherwise it removes exactly the last element |
| Resolution.Search | src/MusicPlayer.ts:108-133 | http(s) input is returned unchanged and never reaches the search providers (so `SearchRejects` cannot hold for it); any other input is what the search providers answer, possibly `undefined` |
| Resolution.SchemelessYouTubeIsSearched | src/MusicPlayer.ts:109 | the `^https?://` test rejects a scheme-less `youtu.be/<id>` link, which the YouTube pattern accepts, so `search` hands that link to the search providers as text |
| Resolution.YouTubeShape | src/MusicPlayer.ts:164 | the YouTube test accepts exactly the strings that begin with an optional `http://` or `https://`, an optional `www.`, and `youtube.com/` or `youtu.be/` |
| Resolution.SoundCloudShape | src/MusicPlayer.ts:196 | the SoundCloud test accepts exactly the strings that begin with `http://` or `https://` followed by `soundcloud.com/` or `snd.sc/` |
| Resolution.SpotifyShape | src/MusicPlayer.ts:240 | the Spotify test accepts exactly the strings that begin with `http://` or `https://` followed by `open.spotify.com/` and `track/`, `album/` or `playlist/` |
| Resolution.ShapesDisjoint | src/MusicPlayer.ts:236-246 | no URL has two of the three shapes, so `playUrl` offers a URL to at most one stream provider, and the order of the shape tests here and in `fetchMetadata` decides nothing |
| Resolution.Placeholder | src/MusicPlayer.ts:220-227 | the record every failing branch of `fetchMetadata` returns keeps the URL, is tagged `unknown`, and has no title, author, duration or thumbnail |
| Resolution.SourceOf | src/MusicPlayer.ts:164-216 | the source tag is `youtube` exactly for YouTube-shaped URLs; it is `soundcloud` exactly for SoundCloud URLs that are not YouTube-shaped; it is never `spotify` or `deezer` |
| Resolution.FetchMetadata | src/MusicPlayer.ts:161-229 | never fails and always keeps the URL; when the URL is `undefined` or the providers fail, the result is the all-`undefined` placeholder tagged `unknown`; otherwise it carries the provider's fields and the URL's source tag |
| Resolution.StreamOpens | src/MusicPlayer.ts:236-248 | a stream can only exist for a SoundCloud, Spotify or YouTube URL |
| Session.ConfigOf | src/MusicPlayer.ts:54-55 | auto-leave on an empty queue is on unless it is explicitly false; the idle delay defaults to 300000 ms |
| Session.Init | src/MusicPlayer.ts:44-55 | the initial volume is `initialVolume / 100` rounded to a whole multiplier and not clamped; the player starts unconnected, not playing, with no loops and no timer, and has empty queue, history and trace |
| Player.MusicPlayer.constructor | src/MusicPlayer.ts:44-62 | the new object is in the `Init` state with the `ConfigOf` options |
| Session.Emit | src/MusicPlayer.ts:31 | `emit` appends exactly one event to the trace and changes nothing else |
| Player.MusicPlayer.Emit | src/MusicPlayer.ts:31 | appends exactly the given event to `events` and changes no other field |
| Session.StartIdleTimer | src/MusicPlayer.ts:64-74 | a timer is pending afterwards iff one was pending before, or idle auto-leave is enabled and nothing plays; nothing else changes |
| Player.MusicPlayer.StartIdleTimer | src/MusicPlayer.ts:64-74 | updates the object exactly as `Session.StartIdleTimer` |
| Session.ClearIdleTimer | src/MusicPlayer.ts:76-84 | no timer is pending afterwards; nothing else changes |
| Player.MusicPlayer.ClearIdleTimer | src/MusicPlayer.ts:76-84 | updates the object exactly as `Session.ClearIdleTimer` |
| Session.EnsureConnection | src/MusicPlayer.ts:86-106 | an existing connection is kept; otherwise a ready attempt connects, and a failed one stays unconnected and emits one `Error` with the connect prefix |
| Player.MusicPlayer.EnsureConnection | src/MusicPlayer.ts:86-106 | updates the object exactly as `Session.EnsureConnection` |
| Session.PlayUrl | src/MusicPlayer.ts:231-256 | marks the player playing and appends the URL to the history; `Start` with the new history is emitted iff a stream opens; nothing else changes |
| Player.MusicPlayer.PlayUrl | src/MusicPlayer.ts:231-256 | updates the object exactly as `Session.PlayUrl` |
| Session.Play | src/MusicPlayer.ts:258-272 | after connecting, a rejected search ends the call in the connected state. Otherwise it does one of two things. While playing, it appends the fetched metadata to the queue and emits `QueueAdd`, leaving the history alone. Otherwise it plays the URL. In both cases the player is playing afterwards. The volume, loop flags and timer are always unchanged. |
| Session.PlayResolved | src/MusicPlayer.ts:263-271 | once the URL and its metadata are known: while playing, exactly one queue entry and one `QueueAdd`; otherwise the URL is played; the player is playing afterwards |
| Player.MusicPlayer.Play | src/MusicPlayer.ts:258-272 | updates the object exactly as `Session.Play` |
| Session.Pause | src/MusicPlayer.ts:274-277 | only emits `Pause` |
| Player.MusicPlayer.Pause | src/MusicPlayer.ts:274-277 | updates the object exactly as `Session.Pause` |
| Session.Resume | src/MusicPlayer.ts:279-282 | only emits `Resume` |
| Player.MusicPlayer.Resume | src/MusicPlayer.ts:279-282 | updates the object exactly as `Session.Resume` |
| Session.SetVolume | src/MusicPlayer.ts:284-298 | the volume ends in [0, 2]: a percentage in [0, 200] is taken exactly and anything else gives 2; it emits `VolumeChange` with the rounded percentage; nothing else changes |
| Player.MusicPlayer.SetVolume | src/MusicPlayer.ts:284-298 | updates the object exactly as `Session.SetVolume`, leaving the volume in [0, 2] |
| Session.OnIdle | src/MusicPlayer.ts:300-325 | with `loopTrack`, it replays the last history entry and leaves the queue alone. When a track is played, `Start` is emitted iff its stream opens, and the connection and timer are unchanged. Otherwise it shifts the queue head, putting it back at the tail under `loopQueue`, and plays it. An `undefined` head changes only the queue. An empty queue finishes: the player stops playing and emits `Finish`. It then either disconnects with two `Disconnect` events or arms the idle timer. Volume and loop flags are kept. |
| Player.MusicPlayer.OnIdle | src/MusicPlayer.ts:300-325 | updates the object exactly as `Session.OnIdle` |
| Session.PlayNext | src/MusicPlayer.ts:306-311 | the head is shifted off the queue, and pushed back under `loopQueue`. A defined head is played, with `Start` iff its stream opens. An `undefined` head changes only the queue. |
| Player.MusicPlayer.PlayNext | src/MusicPlayer.ts:306-311 | updates the object exactly as `Session.PlayNext` |
| Session.FinishQueue | src/MusicPlayer.ts:314-323 | not playing afterwards; with auto-leave it emits `Finish` and two `Disconnect`s and disconnects; otherwise it emits only `Finish`, keeps the connection, history and queue, and arms the timer iff the idle delay is positive or one was pending |
| Player.MusicPlayer.FinishQueue | src/MusicPlayer.ts:314-323 | updates the object exactly as `Session.FinishQueue` |
| Session.Skip | src/MusicPlayer.ts:327-330 | only emits `Skip` with the current history |
| Player.MusicPlayer.Skip | src/MusicPlayer.ts:327-330 | updates the object exactly as `Session.Skip` |
| Session.FindPop | src/MusicPlayer.ts:339 | `find` pops one history entry per queue entry examined. What remains is a prefix of the history, shorter by at most the queue length. A hit is a queue entry. A miss has popped once for every queue entry. |
| Session.FindPopSearches | src/MusicPlayer.ts:339 | `find` stops at the first entry that is `undefined` (a throw) or whose URL equals the URL popped for it (a hit). Every entry before it was defined and did not match. A miss means no entry matched. The history keeps exactly what that many pops leave. |
| Player.MusicPlayer.FindPoppingHistory | src/MusicPlayer.ts:339 | the loop leaves the outcome and history that `Session.FindPop` gives |
| Session.Previous | src/MusicPlayer.ts:332-344 | with fewer than two history entries, it only emits the `No track to previous.` error. Otherwise it emits `Previous` and runs the popping `find`. It then puts the hit (or `undefined`) at the queue head, pops one more entry and plays it, emitting after `Previous` only a `Start`, iff that entry's stream opens. If `find` throws, the only changes are the `Previous` event and the popped history. The connection, timer, volume and loop flags are unchanged. |
| Player.MusicPlayer.Previous | src/MusicPlayer.ts:332-344 | updates the object exactly as `Session.Previous` |
| Session.PlayFound | src/MusicPlayer.ts:339-343 | after `find`: its result (`undefined` on a miss) goes to the queue head, one more history entry is popped and played, and the only event emitted is `Start`, iff that entry's stream opens |
| Player.MusicPlayer.PlayFound | src/MusicPlayer.ts:339-343 | updates the object exactly as `Session.PlayFound` |
| Session.Pick | src/MusicPlayer.ts:348 | the random index chosen at step `i` is at most `i` |
| Session.Swap | src/MusicPlayer.ts:349 | keeps the length and exchanges the entries at positions `i` and `j` |
| Session.SwapKeepsOthers | src/MusicPlayer.ts:349 | every position other than `i` and `j` keeps its entry |
| Session.SwapPermutes | src/MusicPlayer.ts:349 | a swap keeps the multiset of entries |
| Session.ShuffleDown | src/MusicPlayer.ts:347-350 | the loop keeps the queue length |
| Session.ShuffleDownUnfold | src/MusicPlayer.ts:347-350 | one iteration is the in-place exchange of positions `i` and `Pick(i)`, followed by the loop from `i - 1` |
| Session.ShuffleDownPermutes | src/MusicPlayer.ts:347-350 | for every sequence of random choices, the loop only permutes the queue |
| Session.Shuffle | src/MusicPlayer.ts:346-351 | `shuffle` changes only the queue, and keeps its length |
| Session.ShufflePermutes | src/MusicPlayer.ts:346-351 | `shuffle` keeps the queue's length and multiset of entries, and changes nothing else |
| Player.MusicPlayer.Shuffle | src/MusicPlayer.ts:346-351 | the in-place loop leaves the object exactly as `Session.Shuffle`, which is a permutation by `Session.ShufflePermutes` |
| Session.ToggleLoopQueue | src/MusicPlayer.ts:353-355 | flips `loopQueue` and nothing else |
| Player.MusicPlayer.ToggleLoopQueue | src/MusicPlayer.ts:353-355 | updates the object exactly as `Session.ToggleLoopQueue` |
| Player.MusicPlayer.IsLoopQueue | src/MusicPlayer.ts:356-358 | answers the `loopQueue` flag |
| Session.ToggleLoopTrack | src/MusicPlayer.ts:360-362 | flips `loopTrack` and nothing else |
| Player.MusicPlayer.ToggleLoopTrack | src/MusicPlayer.ts:360-362 | updates the object exactly as `Session.ToggleLoopTrack` |
| Player.MusicPlayer.IsLoopTrack | src/MusicPlayer.ts:363-365 | answers the `loopTrack` flag |
| Session.Disconnect | src/MusicPlayer.ts:367-379 | unconnected, not playing, no timer, and empty queue and history; emits one `Disconnect`; keeps the volume and loop flags |
| Player.MusicPlayer.Disconnect | src/MusicPlayer.ts:367-379 | updates the object exactly as `Session.Disconnect` |
| Session.Stop | src/MusicPlayer.ts:381-392 | not playing, no timer, and empty queue and history. It keeps the connection iff `noLeave`. It emits `Stop`, plus `Disconnect` when leaving. The volume and loop flags are kept. |
| Player.MusicPlayer.Stop | src/MusicPlayer.ts:381-392 | updates the object exactly as `Session.Stop` |
| Session.IdleTimerFires | src/MusicPlayer.ts:66-69 | the pending timer's callback is `disconnect` with `Disconnect` emitted twice |
| Player.MusicPlayer.IdleTimerFires | src/MusicPlayer.ts:66-69 | updates the object exactly as `Session.IdleTimerFires` |
| Session.PlayerPlaying | src/MusicPlayer.ts:61 | the `Playing` notification only cancels the pending timer |
| Player.MusicPlayer.PlayerPlaying | src/MusicPlayer.ts:61 | updates the object exactly as `Session.PlayerPlaying` |
| Session.PlayerError | src/MusicPlayer.ts:57-59 | an audio player error is re-emitted as `Error` with the `Player have error => ` prefix; nothing else changes |
| Player.MusicPlayer.PlayerError | src/MusicPlayer.ts:57-59 | updates the object exactly as `Session.PlayerError` |
| Player.MusicPlayer.GetQueue | src/MusicPlayer.ts:394-396 | the copy has the queue's entries in order |
| Player.MusicPlayer.GetVolume | src/MusicPlayer.ts:398-408 | the recorded multiplier as a percentage, within one half; it lies in 0..200 whenever the multiplier is in [0, 2] |
| Player.MusicPlayer.IsPlaying | src/MusicPlayer.ts:410-412 | answers the `playing` flag |
| SessionProperties.ClearIdleTimerIdempotent | src/MusicPlayer.ts:76-84 | clearing twice is clearing once |
| SessionProperties.StartIdleTimerIdempotent | src/MusicPlayer.ts:64-74 | starting twice is starting once, so at most one timer is ever pending |
| SessionProperties.PlayLeavesTimerToPlayingNotification | src/MusicPlayer.ts:258-272 | `play` does not cancel a pending auto-leave timer; only the audio player's `Playing` notification does (line 61). The player is playing afterwards unless it was idle and the search rejected. |
| SessionProperties.DisconnectTwice | src/MusicPlayer.ts:367-379 | a second `disconnect` changes nothing but adding a second `Disconnect` event |
| SessionProperties.StopLeavingIsStopThenDisconnect | src/MusicPlayer.ts:381-392 | `stop(false)` equals `stop(true)` followed by `disconnect` |
| SessionProperties.StopThenIdleLeaves | src/MusicPlayer.ts:314-320 | with auto-leave on, the idle notification after `stop()` finishes with an empty history and leaves. The trace gains `Stop`, `Finish`, then two `Disconnect`s. |
| SessionProperties.StopThenIdleWaits | src/MusicPlayer.ts:314-323 | with auto-leave off, the same notification keeps the connection, emits `Stop` and `Finish`, and arms the timer iff the idle delay is positive |
| SessionProperties.FirstPlayStarts | src/MusicPlayer.ts:258-272 | a fresh player's first `play` of an http(s) URL whose stream opens does four things. It connects and plays. It records one history entry. It emits exactly one `Start`. |
| SessionProperties.PlayWhilePlayingQueues | src/MusicPlayer.ts:258-267 | `play` while playing and connected appends exactly one queue entry, keeps the history and emits exactly one `QueueAdd`; if the search rejects, nothing changes |
| SessionProperties.FailedStreamStillPlaying | src/MusicPlayer.ts:231-256 | when no stream opens, the player is still marked playing with the URL in its history and no `Start`. Every later `play` only queues. |
| SessionProperties.NegativeVolumeIsMaximum | src/MusicPlayer.ts:284-287 | a negative percentage sets the maximum volume 2 and reports 200 |
| SessionProperties.VolumeChangeReportsPercent | src/MusicPlayer.ts:284-297 | an in-range percentage is reported back rounded |
| SessionProperties.InitialVolumes | src/MusicPlayer.ts:46-52 | the default initial volume gives multiplier 1, and 1000 gives an unclamped 10 |
| SessionProperties.LoopTrackRepeats | src/MusicPlayer.ts:300-304 | under `loopTrack`, `n` idle notifications append the last URL `n` times and leave the queue alone |
| SessionProperties.LoopQueueRotates | src/MusicPlayer.ts:306-311 | under `loopQueue`, `k` idle notifications rotate any queue, `undefined` entries included, left by `k`; when every entry is defined the player is playing afterwards |
| SessionProperties.LoopQueueCycles | src/MusicPlayer.ts:306-311 | one idle notification per entry brings any looped queue back to its original order |
| SessionProperties.PlainQueueDrains | src/MusicPlayer.ts:306-311 | without loops, `k` idle notifications drop exactly the first `k` entries of any queue, `undefined` entries included |
| SessionProperties.PlainQueuePlaysInOrder | src/MusicPlayer.ts:306-311 | without loops, `k` idle notifications on a queue whose entries are all defined append the URLs of the first `k` entries to the history, in queue order (an `undefined` head is dropped without playing anything) |
| SessionProperties.PlayUrlAppends | src/MusicPlayer.ts:231-256 | `playUrl` only appends to the event trace, and never a `Shuffle`, `LoopQueue` or `LoopTrack` event |
| SessionProperties.DisconnectAppends | src/MusicPlayer.ts:367-379 | `disconnect` only appends, and never an unemitted kind of event |
| SessionProperties.PlayAppends | src/MusicPlayer.ts:258-272 | `play` only appends, and never an unemitted kind of event |
| SessionProperties.OnIdleAppends | src/MusicPlayer.ts:300-325 | the idle notification only appends, and never an unemitted kind of event |
| SessionProperties.PreviousAppends | src/MusicPlayer.ts:332-344 | `previous` only appends, and never an unemitted kind of event |
| SessionProperties.StepFacts | src/MusicPlayer.ts:258-392 | any single operation appends to the trace. Only `setVolume` changes the volume, into [0, 2]. A timer is only ever armed with a positive idle delay. |
| SessionProperties.RunAppendsEvents | src/MusicPlayer.ts:258-392 | over any run of operations, events are only appended; `Shuffle`, `LoopQueue` and `LoopTrack` are never emitted |
| SessionProperties.RunKeepsVolumeInRange | src/MusicPlayer.ts:284-290 | a volume in [0, 2] stays there over any run of operations |
| SessionProperties.RunNeverArmsDisabledTimer | src/MusicPlayer.ts:64-69 | with idle auto-leave disabled, no run of operations ever arms the timer |
| SessionProperties.PreviousWithEmptyQueueReplaysCurrent | src/MusicPlayer.ts:332-343 | as written, `previous` with history `[a, b]` and an empty queue plays `b` again. It leaves the history `[a, b]` and the queue `[undefined]`. |
| SessionProperties.UndefinedHeadStallsQueue | src/MusicPlayer.ts:306-311 | an `undefined` queue head is consumed by the idle notification without playing or finishing |
| SessionProperties.PreviousPutsFirstMatchAtHead | src/MusicPlayer.ts:339 | as written, `previous` puts at the queue head the first entry whose URL equals the URL popped for it. If every entry was passed over, it puts `undefined` there. If it reaches an `undefined` entry first, it throws and leaves the queue as it was. |
| SessionProperties.PreviousWithTwoQueuedGoesBackTwo | src/MusicPlayer.ts:339-340 | as written, from history `[h0, h1, h2, h3]` with two non-matching queue entries, `previous` pops three entries and replays `h1`, two tracks back instead of one; it leaves the history `[h0, h1]` and the queue `[undefined, x, y]` |
| SessionProperties.FindByUrl | src/MusicPlayer.ts:339 | a found entry is the first defined queue entry with the URL asked for; a miss means no defined entry has that URL |
| SessionProperties.PreviousIntendedGoesBackOne | src/MusicPlayer.ts:332-344 | the corrected `previous` removes exactly the current history entry and plays the one before it. It puts one defined entry for the track it left in front of the unchanged queue. |

## Left out

- Concurrency: the methods are `async`, and their awaits can interleave. Each call is modelled as atomic. The `playUrl` that `previous` starts without awaiting it is taken to finish within `previous`.
- The voice connection: `joinVoiceChannel`, the 20-second ready timeout, `subscribe` and `destroy`. What remains is a connected flag and a `ConnectAttempt` outcome passed in.
- The search, metadata and stream providers are oracles (`Resolution.Oracles`). Their fallback chains and field conversions (`parseInt`, `Math.floor(duration / 1000)`, thumbnail choice) happen inside those oracles.
- The audio resource and the audio player's own state are left out. This covers `createAudioResource`, `player.play`, `pause`, `unpause`, `stop`, inline volume and the `state.resource` patch. The player's idle, playing and error notifications are separate operations. The caller decides when they happen.
- Player.MusicPlayer.GetVolume: only the branch without a live audio resource is modelled. The resource's own volume is not part of the model.
- Floating point: volumes are real numbers. `NaN` and rounding of `percent / 100` are not modelled.
- Timers: the timer is a flag. The delay's length and the clock are left out, so the timer can fire at any moment after it was armed.
- `createError`: an error is an `Error` event carrying its message. The `Discord-Player` error class name is left out.
- The channel object: the player holds it only to connect.
- The listener side of `EventEmitter`: emitting is appending to the `events` trace.
- An `error` listener is taken to be attached. Without one, Node's `EventEmitter` throws on `emit("error")`. A failed connection (line 103) would then abort `play` before the search, and `previous` with fewer than two history entries (line 334) would throw. The model does not capture either throw.
- The `dist/` build output is an older compiled copy. It is not part of this model.
- The event payload interfaces in `src/types.ts` are not checked against the code. The model follows the payloads the code emits.
- There is no undo for `shuffle`, and no `Shuffle`, `LoopQueue` or `LoopTrack` event is ever emitted. The source has neither.
- Unhandled rejections. The idle listener calls `onIdle` without awaiting it (line 60), and `previous` calls `playUrl` without awaiting it (line 343). A throw there reaches no caller. That covers `next.url` on an `undefined` queue head (line 310), and `createAudioResource` with no stream during a loop replay, a queue advance or `previous` (line 248). Under Node's default policy an unhandled rejection ends the process unless the host installs a handler. The model assumes the host survives it. The operation then ends with the state it had reached, and the player goes on taking calls. `UndefinedHeadStallsQueue` and the loop-replay case below rely on this.
- Session.OnIdle: with `loopTrack` and an empty history it plays `undefined`. No stream opens for it, so the model records `undefined` and emits nothing, under the assumption above.

## Findings

| source | as written | input that shows it | evidently intended | confidence | as-written member | corrected member |
|---|---|---|---|---|---|---|
| src/MusicPlayer.ts:339-340 | `history.pop()` is inside the `find` callback. It runs once per queue entry examined, and not at all on an empty queue. `undefined` is unshifted when nothing matches. | history `[a, b]` with an empty queue replays `b` and leaves queue `[undefined]`. History `[h0, h1, h2, h3]` with two non-matching entries goes back to `h1` and leaves `[h0, h1]`. | pop the current URL once, then pop and play the one before it. Put the current track back at the queue head: as its queue entry if there is one, which is what the `find` reaches for, and otherwise as its fetched metadata. The older build in `dist/MusicPlayer.js:222` always requeued the current track. | not executed | SessionProperties.PreviousWithTwoQueuedGoesBackTwo | SessionProperties.PreviousIntendedGoesBackOne |

`SessionProperties.PreviousWithEmptyQueueReplaysCurrent` shows the empty-queue case of the same line. `SessionProperties.UndefinedHeadStallsQueue` shows what the unshifted `undefined` does next. The corrected operation is `SessionProperties.PreviousIntended`. The class `Player.MusicPlayer` and the `Session` functions keep the behaviour as written, since they model the program.
