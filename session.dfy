/** The `MusicPlayer` session as a state machine: one `State` value holds
    everything the player's methods change, and each method is a function
    from the state before the call to the state after it. Every public
    method is taken to run to completion before the next one starts. */
module Session {
  import opened MusicTypes
  import opened Resolution

  /** `MusicPlayerOptions`: both fields may be left out. */
  datatype Options = Options(autoLeaveOnEmptyQueue: Option<bool>, autoLeaveOnIdleMs: Option<int>)

  /** The configuration fixed at construction. */
  datatype Config = Config(autoLeaveOnEmptyQueue: bool, autoLeaveOnIdleMs: int)

  const DefaultInitialVolume: real := 100.0
  const DefaultIdleMs: int := 5 * 60_000

  const ConnectErrorPrefix: string := "Can't connect to the voice channel. => "
  const NoPreviousMessage: string := "No track to previous."
  const PlayerErrorPrefix: string := "Player have error => "

  /** The outcome of waiting for the voice connection to become ready. */
  datatype ConnectAttempt = Ready | Failed(reason: string)

  datatype State = State(
    connected: bool,          // a voice connection is held
    volume: real,             // the recorded volume multiplier
    queue: seq<QueueEntry>,
    history: seq<Url>,        // played URLs, most recent last
    loopQueue: bool,
    loopTrack: bool,
    playing: bool,
    idleTimerArmed: bool,     // an auto-leave timer is pending
    events: seq<Event>)       // everything emitted so far, in order

  /** `options.x ?? default` for both options. */
  function ConfigOf(opts: Options): (c: Config)
    ensures c.autoLeaveOnEmptyQueue == (opts.autoLeaveOnEmptyQueue != Some(false))
    ensures opts.autoLeaveOnIdleMs.None? ==> c.autoLeaveOnIdleMs == 300_000
    ensures opts.autoLeaveOnIdleMs.Some? ==> c.autoLeaveOnIdleMs == opts.autoLeaveOnIdleMs.value
  {
    Config(opts.autoLeaveOnEmptyQueue.GetOr(true), opts.autoLeaveOnIdleMs.GetOr(DefaultIdleMs))
  }

  /** The state right after construction. The initial volume is divided by
      100 and rounded to a whole multiplier; it is not clamped. */
  function Init(initialVolume: real): (s: State)
    ensures s.volume == Round(initialVolume / 100.0) as real
    ensures initialVolume / 100.0 - 0.5 < s.volume <= initialVolume / 100.0 + 0.5
    ensures !s.connected && !s.playing && !s.loopQueue && !s.loopTrack && !s.idleTimerArmed
    ensures s.queue == [] && s.history == [] && s.events == []
  {
    State(false, Round(initialVolume / 100.0) as real, [], [], false, false, false, false, [])
  }

  function Emit(s: State, e: Event): (t: State)
    ensures t == s.(events := s.events + [e])
  {
    s.(events := s.events + [e])
  }

  // ---------------------------------------------------------------------
  // Idle timer

  /** `startIdleTimer`: a timer is armed only when idle auto-leave is on,
      none is armed yet and nothing is playing. Since the flag is a single
      boolean, at most one timer is ever pending. */
  function StartIdleTimer(s: State, c: Config): (t: State)
    ensures t.idleTimerArmed <==> s.idleTimerArmed || (c.autoLeaveOnIdleMs > 0 && !s.playing)
    ensures !s.idleTimerArmed && t.idleTimerArmed ==> c.autoLeaveOnIdleMs > 0 && !s.playing
    ensures t == s.(idleTimerArmed := t.idleTimerArmed)
  {
    if c.autoLeaveOnIdleMs > 0 && !s.idleTimerArmed && !s.playing then s.(idleTimerArmed := true)
    else s
  }

  /** `clearIdleTimer`: afterwards no timer is pending. */
  function ClearIdleTimer(s: State): (t: State)
    ensures !t.idleTimerArmed
    ensures t == s.(idleTimerArmed := false)
  {
    if s.idleTimerArmed then s.(idleTimerArmed := false) else s
  }

  // ---------------------------------------------------------------------
  // Connection and playback start

  /** `ensureConnection`: connects when no connection is held; a failed
      attempt is reported with one `Error` event and leaves the player
      unconnected, and the caller carries on either way. */
  function EnsureConnection(s: State, attempt: ConnectAttempt): (t: State)
    ensures s.connected ==> t == s
    ensures !s.connected && attempt.Ready? ==> t == s.(connected := true)
    ensures !s.connected && attempt.Failed? ==>
      t == s.(events := s.events + [Error(ConnectErrorPrefix + attempt.reason)])
    ensures t == s.(connected := t.connected, events := t.events)
  {
    if s.connected then s
    else match attempt
      case Ready => s.(connected := true)
      case Failed(reason) => Emit(s, Error(ConnectErrorPrefix + reason))
  }

  /** `playUrl`: marks the player as playing and records `url` as the newest
      history entry before any stream is looked for. `Start` is emitted only
      when a stream was obtained; otherwise building the audio resource
      throws and the call ends there. */
  function PlayUrl(s: State, url: Url, metadata: TrackMetadata, o: Oracles): (t: State)
    ensures t.playing
    ensures t.history == s.history + [url] && Last(t.history) == url
    ensures t.events == s.events + (if StreamOpens(url, o) then [Start(url.value, t.history, metadata)] else [])
    ensures t == s.(playing := true, history := t.history, events := t.events)
  {
    var h := s.history + [url];
    var t := s.(playing := true, history := h);
    if StreamOpens(url, o) then Emit(t, Start(url.value, h, metadata)) else t
  }

  /** `play(input)`: connect if needed, resolve the input, fetch its
      metadata, then queue the track if something is playing and play it
      otherwise. A rejected search ends the call right after connecting. */
  function Play(s: State, input: string, attempt: ConnectAttempt, o: Oracles): (t: State)
    ensures SearchRejects(input, o) ==> t == EnsureConnection(s, attempt)
    ensures !SearchRejects(input, o) ==>
      t.playing && t.connected == EnsureConnection(s, attempt).connected
    ensures !SearchRejects(input, o) && s.playing ==>
      var url := Search(input, o);
      t.queue == s.queue + [Some(FetchMetadata(url, o))] && t.history == s.history &&
      t.events == EnsureConnection(s, attempt).events + [QueueAdd(url, t.queue)]
    ensures !SearchRejects(input, o) && !s.playing ==>
      var url := Search(input, o);
      t.queue == s.queue && t.history == s.history + [url] &&
      t.events == EnsureConnection(s, attempt).events +
        (if StreamOpens(url, o) then [Start(url.value, t.history, FetchMetadata(url, o))] else [])
    ensures t.volume == s.volume && t.loopQueue == s.loopQueue && t.loopTrack == s.loopTrack
    ensures t.idleTimerArmed == s.idleTimerArmed
  {
    var c := EnsureConnection(s, attempt);
    if SearchRejects(input, o) then c
    else
      var url := Search(input, o);
      PlayResolved(c, url, FetchMetadata(url, o), o)
  }

  /** The rest of `play` once the URL and its metadata are known. */
  function PlayResolved(c: State, url: Url, m: TrackMetadata, o: Oracles): (t: State)
    ensures t.playing && t.connected == c.connected
    ensures c.playing ==>
      t.queue == c.queue + [Some(m)] && t.history == c.history &&
      t.events == c.events + [QueueAdd(url, t.queue)]
    ensures !c.playing ==>
      t.queue == c.queue && t.history == c.history + [url] &&
      t.events == c.events + (if StreamOpens(url, o) then [Start(url.value, t.history, m)] else [])
    ensures t.volume == c.volume && t.loopQueue == c.loopQueue && t.loopTrack == c.loopTrack
    ensures t.idleTimerArmed == c.idleTimerArmed
  {
    if c.playing then
      var q := c.queue + [Some(m)];
      Emit(c.(queue := q), QueueAdd(url, q))
    else
      PlayUrl(c, url, m, o)
  }

  // ---------------------------------------------------------------------
  // Playback controls

  function Pause(s: State): (t: State)
    ensures t == s.(events := s.events + [Event.Pause])
  {
    Emit(s, Event.Pause)
  }

  function Resume(s: State): (t: State)
    ensures t == s.(events := s.events + [Event.Resume])
  {
    Emit(s, Event.Resume)
  }

  /** `setVolume(percent)`: a percentage from 0 to 200 is taken as it is;
      anything outside that range, negative values included, becomes 200%.
      The event carries the resulting percentage, rounded. */
  function SetVolume(s: State, percent: real): (t: State)
    ensures 0.0 <= t.volume <= 2.0
    ensures 0.0 <= percent <= 200.0 ==> t.volume * 100.0 == percent
    ensures percent < 0.0 || percent > 200.0 ==> t.volume == 2.0
    ensures t.events == s.events + [VolumeChange(Round(t.volume * 100.0))]
    ensures t == s.(volume := t.volume, events := t.events)
  {
    var p := percent / 100.0;
    var v := if p < 0.0 || p > 2.0 then 2.0 else p;
    Emit(s.(volume := v), VolumeChange(Round(v * 100.0)))
  }

  /** `disconnect`: clears the timer, drops the connection, empties queue and
      history, stops playing and emits `Disconnect`. Volume and the loop
      flags survive. */
  function Disconnect(s: State): (t: State)
    ensures !t.connected && !t.playing && !t.idleTimerArmed
    ensures t.queue == [] && t.history == []
    ensures t.events == s.events + [Event.Disconnect]
    ensures t.volume == s.volume && t.loopQueue == s.loopQueue && t.loopTrack == s.loopTrack
  {
    var c := ClearIdleTimer(s);
    Emit(c.(connected := false, playing := false, queue := [], history := []), Event.Disconnect)
  }

  /** `stop(noLeave)`: emits `Stop` and resets playback like `disconnect`,
      but keeps the connection unless `noLeave` is false. */
  function Stop(s: State, noLeave: bool): (t: State)
    ensures !t.playing && !t.idleTimerArmed && t.queue == [] && t.history == []
    ensures t.connected == (s.connected && noLeave)
    ensures t.events == s.events + [Event.Stop] + (if noLeave then [] else [Event.Disconnect])
    ensures t.volume == s.volume && t.loopQueue == s.loopQueue && t.loopTrack == s.loopTrack
  {
    var t := ClearIdleTimer(Emit(s, Event.Stop).(playing := false, queue := [], history := []));
    if noLeave then t else Disconnect(t)
  }

  /** The auto-leave timer goes off: `Disconnect` is emitted, then
      `disconnect` runs and emits it again. */
  function IdleTimerFires(s: State): (t: State)
    requires s.idleTimerArmed
    ensures t == Disconnect(s).(events := s.events + [Event.Disconnect, Event.Disconnect])
  {
    Disconnect(Emit(s, Event.Disconnect))
  }

  /** The audio player reports `Playing`. */
  function PlayerPlaying(s: State): (t: State)
    ensures !t.idleTimerArmed && t == s.(idleTimerArmed := false)
  {
    ClearIdleTimer(s)
  }

  /** The audio player reports an error. */
  function PlayerError(s: State, message: string): (t: State)
    ensures t == s.(events := s.events + [Error(PlayerErrorPrefix + message)])
  {
    Emit(s, Error(PlayerErrorPrefix + message))
  }

  /** `skip`: emits `Skip` and stops the audio player; the idle notification
      that follows, `OnIdle`, picks what plays next. */
  function Skip(s: State): (t: State)
    ensures t == s.(events := s.events + [Event.Skip(s.history)])
  {
    Emit(s, Event.Skip(s.history))
  }

  function ToggleLoopQueue(s: State): (t: State)
    ensures t.loopQueue != s.loopQueue && t == s.(loopQueue := t.loopQueue)
  {
    s.(loopQueue := !s.loopQueue)
  }

  function ToggleLoopTrack(s: State): (t: State)
    ensures t.loopTrack != s.loopTrack && t == s.(loopTrack := t.loopTrack)
  {
    s.(loopTrack := !s.loopTrack)
  }

  // ---------------------------------------------------------------------
  // What plays next

  /** The audio player went idle. With `loopTrack` the last history entry is
      played again and the queue is not touched. Otherwise the queue head is
      taken off (and put back at the tail under `loopQueue`) and played; an
      `undefined` head makes `next.url` throw after the queue has been
      updated. With nothing queued the player finishes, and then either
      leaves (emitting `Disconnect` twice) or arms the idle timer. */
  function OnIdle(s: State, c: Config, o: Oracles): (t: State)
    ensures s.loopTrack ==>
      t.queue == s.queue && t.playing && t.history == s.history + [Last(s.history)]
    ensures s.loopTrack ==>
      var u := Last(s.history);
      t.connected == s.connected && t.idleTimerArmed == s.idleTimerArmed &&
      t.events == s.events + (if StreamOpens(u, o) then [Start(u.value, t.history, FetchMetadata(u, o))] else [])
    ensures !s.loopTrack && |s.queue| > 0 ==>
      t.queue == s.queue[1..] + (if s.loopQueue then [s.queue[0]] else [])
    ensures !s.loopTrack && |s.queue| > 0 && s.queue[0].Some? ==>
      t.playing && t.history == s.history + [s.queue[0].value.url]
    ensures !s.loopTrack && |s.queue| > 0 && s.queue[0].Some? ==>
      var u := s.queue[0].value.url;
      t.connected == s.connected && t.idleTimerArmed == s.idleTimerArmed &&
      t.events == s.events + (if StreamOpens(u, o) then [Start(u.value, t.history, FetchMetadata(u, o))] else [])
    ensures !s.loopTrack && |s.queue| > 0 && s.queue[0].None? ==>
      t == s.(queue := t.queue)
    ensures !s.loopTrack && s.queue == [] ==> !t.playing
    ensures !s.loopTrack && s.queue == [] && c.autoLeaveOnEmptyQueue ==>
      t == Disconnect(s).(events := s.events + [Finish(s.history), Event.Disconnect, Event.Disconnect])
    ensures !s.loopTrack && s.queue == [] && !c.autoLeaveOnEmptyQueue ==>
      t.connected == s.connected && t.history == s.history && t.queue == [] &&
      t.events == s.events + [Finish(s.history)] &&
      (t.idleTimerArmed <==> s.idleTimerArmed || c.autoLeaveOnIdleMs > 0)
    ensures t.volume == s.volume && t.loopQueue == s.loopQueue && t.loopTrack == s.loopTrack
  {
    var url := Last(s.history);
    if s.loopTrack then PlayUrl(s, url, FetchMetadata(url, o), o)
    else if |s.queue| > 0 then PlayNext(s, o)
    else FinishQueue(s, c)
  }

  /** The queue branch of the idle notification. */
  function PlayNext(s: State, o: Oracles): (t: State)
    requires |s.queue| > 0
    ensures t.queue == s.queue[1..] + (if s.loopQueue then [s.queue[0]] else [])
    ensures s.queue[0].Some? ==> t.playing && t.history == s.history + [s.queue[0].value.url]
    ensures s.queue[0].Some? ==>
      var u := s.queue[0].value.url;
      t.connected == s.connected && t.idleTimerArmed == s.idleTimerArmed &&
      t.events == s.events + (if StreamOpens(u, o) then [Start(u.value, t.history, FetchMetadata(u, o))] else [])
    ensures s.queue[0].None? ==> t == s.(queue := t.queue)
    ensures t.volume == s.volume && t.loopQueue == s.loopQueue && t.loopTrack == s.loopTrack
  {
    var next := s.queue[0];
    var q := s.queue[1..] + (if s.loopQueue then [next] else []);
    match next
    case None => s.(queue := q)
    case Some(n) => PlayUrl(s.(queue := q), n.url, FetchMetadata(n.url, o), o)
  }

  /** The empty-queue branch of the idle notification. */
  function FinishQueue(s: State, c: Config): (t: State)
    ensures !t.playing
    ensures c.autoLeaveOnEmptyQueue ==>
      t == Disconnect(s).(events := s.events + [Finish(s.history), Event.Disconnect, Event.Disconnect])
    ensures !c.autoLeaveOnEmptyQueue ==>
      t.connected == s.connected && t.history == s.history && t.queue == s.queue &&
      t.events == s.events + [Finish(s.history)] &&
      (t.idleTimerArmed <==> s.idleTimerArmed || c.autoLeaveOnIdleMs > 0)
    ensures t.volume == s.volume && t.loopQueue == s.loopQueue && t.loopTrack == s.loopTrack
  {
    var f := Emit(s.(playing := false), Finish(s.history));
    if c.autoLeaveOnEmptyQueue then Disconnect(Emit(f, Event.Disconnect))
    else StartIdleTimer(f, c)
  }

  // ---------------------------------------------------------------------
  // previous()

  /** What `queue.find(a => a.url === history.pop())` did. */
  datatype FindOutcome = Hit(entry: TrackMetadata) | Miss | Threw

  /** The outcome of the `find`, with the history it left behind. */
  datatype Found = Found(outcome: FindOutcome, history: seq<Url>)

  /** `queue.find(a => a.url === history.pop())`, as written: the callback
      runs once per queue element, so every element examined pops one more
      history entry. Reading `.url` of an `undefined` element throws before
      the pop. */
  function FindPop(q: seq<QueueEntry>, h: seq<Url>): (r: Found)
    ensures |r.history| <= |h| && r.history == h[..|r.history|]
    ensures |h| - |r.history| <= |q|
    ensures r.outcome.Hit? ==> Some(r.outcome.entry) in q
    ensures r.outcome.Miss? ==> r.history == h[..if |h| >= |q| then |h| - |q| else 0]
    decreases |q|
  {
    if |q| == 0 then Found(Miss, h)
    else match q[0]
      case None => Found(Threw, h)
      case Some(a) =>
        if a.url == Last(h) then Found(Hit(a), Pop(h))
        else FindPop(q[1..], Pop(h))
  }

  /** The history entry that the `k`-th run of the `find` callback pops,
      counting from 0: `undefined` once the history has run out. */
  function Popped(h: seq<Url>, k: nat): Url {
    if k < |h| then h[|h| - 1 - k] else None
  }

  /** What is left of the history after `k` pops. */
  function AfterPops(h: seq<Url>, k: nat): seq<Url> {
    h[..if k < |h| then |h| - k else 0]
  }

  /** The callback ran on each of the first `k` entries without stopping:
      every one was defined, and its URL differed from the URL popped for
      it. */
  predicate PassedOver(q: seq<QueueEntry>, h: seq<Url>, k: nat)
    requires k <= |q|
  {
    forall i :: 0 <= i < k ==> q[i].Some? && q[i].value.url != Popped(h, i)
  }

  /** Popping once and then `i` times pops what `i + 1` pops would. */
  lemma PopShifts(h: seq<Url>)
    ensures forall i: nat :: Popped(Pop(h), i) == Popped(h, i + 1)
    ensures forall i: nat :: AfterPops(Pop(h), i) == AfterPops(h, i + 1)
  {
  }

  /** `find` as a search: it stops at the first entry that is `undefined`
      (and throws) or whose URL equals the URL popped for it (a hit);
      every entry before that was passed over, and the history has lost
      one entry per callback run. A miss passed over the whole queue. */
  lemma {:induction false} FindPopSearches(q: seq<QueueEntry>, h: seq<Url>)
    ensures var r := FindPop(q, h);
      (r.outcome.Hit? ==>
         (exists k :: 0 <= k < |q| && PassedOver(q, h, k) &&
            q[k] == Some(r.outcome.entry) && r.outcome.entry.url == Popped(h, k) &&
            r.history == AfterPops(h, k + 1))) &&
      (r.outcome.Threw? ==>
         (exists k :: 0 <= k < |q| && PassedOver(q, h, k) &&
            q[k].None? && r.history == AfterPops(h, k))) &&
      (r.outcome.Miss? ==> PassedOver(q, h, |q|) && r.history == AfterPops(h, |q|))
    decreases |q|
  {
    if |q| == 0 {
      assert FindPop(q, h) == Found(Miss, h);
      assert AfterPops(h, 0) == h;
    } else if q[0].None? {
      assert FindPop(q, h) == Found(Threw, h);
      assert AfterPops(h, 0) == h;
      assert PassedOver(q, h, 0);
    } else if q[0].value.url == Last(h) {
      assert FindPop(q, h) == Found(Hit(q[0].value), Pop(h));
      assert Pop(h) == AfterPops(h, 1) && Popped(h, 0) == Last(h);
      assert PassedOver(q, h, 0);
    } else {
      var q', h' := q[1..], Pop(h);
      var r := FindPop(q', h');
      assert FindPop(q, h) == r;
      assert q[0].value.url != Popped(h, 0);
      FindPopSearches(q', h');
      PopShifts(h);
      if r.outcome.Hit? {
        var k :| 0 <= k < |q'| && PassedOver(q', h', k) &&
          q'[k] == Some(r.outcome.entry) && r.outcome.entry.url == Popped(h', k) &&
          r.history == AfterPops(h', k + 1);
        PassedOverOneMore(q, h, k);
        assert q[k + 1] == q'[k];
      } else if r.outcome.Threw? {
        var k :| 0 <= k < |q'| && PassedOver(q', h', k) && q'[k].None? && r.history == AfterPops(h', k);
        PassedOverOneMore(q, h, k);
        assert q[k + 1] == q'[k];
      } else {
        PassedOverOneMore(q, h, |q'|);
      }
    }
  }

  /** Passing over the head and then `k` entries of the rest, against the
      history left by one pop, is passing over `k + 1` entries. */
  lemma PassedOverOneMore(q: seq<QueueEntry>, h: seq<Url>, k: nat)
    requires 0 < |q| && k < |q| && q[0].Some? && q[0].value.url != Popped(h, 0)
    requires PassedOver(q[1..], Pop(h), k)
    ensures PassedOver(q, h, k + 1)
  {
    PopShifts(h);
    forall i | 0 <= i < k + 1
      ensures q[i].Some? && q[i].value.url != Popped(h, i)
    {
      if i > 0 {
        assert q[i] == q[1..][i - 1];
      }
    }
  }

  /** `previous`: with fewer than two history entries it only reports an
      error. Otherwise it emits `Previous`, runs the `find` above, puts its
      result (possibly `undefined`) at the head of the queue, pops one more
      history entry and plays it. */
  function Previous(s: State, o: Oracles): (t: State)
    ensures |s.history| < 2 ==> t == s.(events := s.events + [Error(NoPreviousMessage)])
    ensures |s.history| >= 2 ==>
      var f := FindPop(s.queue, s.history);
      (f.outcome.Threw? ==> t == s.(history := f.history, events := s.events + [Event.Previous(s.history)])) &&
      (f.outcome.Miss? ==> t.queue == [None] + s.queue) &&
      (f.outcome.Hit? ==> t.queue == [Some(f.outcome.entry)] + s.queue) &&
      (!f.outcome.Threw? ==> t.playing && t.history == Pop(f.history) + [Last(f.history)])
    ensures |s.history| >= 2 && !FindPop(s.queue, s.history).outcome.Threw? ==>
      var u := Last(FindPop(s.queue, s.history).history);
      t.events == s.events + [Event.Previous(s.history)] +
        (if StreamOpens(u, o) then [Start(u.value, t.history, FetchMetadata(u, o))] else [])
    ensures t.volume == s.volume && t.loopQueue == s.loopQueue && t.loopTrack == s.loopTrack
    ensures t.connected == s.connected && t.idleTimerArmed == s.idleTimerArmed
  {
    if |s.history| < 2 then Emit(s, Error(NoPreviousMessage))
    else
      var f := FindPop(s.queue, s.history);
      var p := Emit(s, Event.Previous(s.history)).(history := f.history);
      assert |p.events| == |s.events| + 1 && p.events == s.events + [Event.Previous(s.history)];
      if f.outcome.Threw? then p
      else PlayFound(p, f.outcome, o)
  }

  /** The rest of `previous` once `find` has returned: unshift its result,
      pop the track to go back to and play it. */
  function PlayFound(p: State, outcome: FindOutcome, o: Oracles): (t: State)
    requires !outcome.Threw?
    ensures t.playing && t.history == Pop(p.history) + [Last(p.history)]
    ensures outcome.Miss? ==> t.queue == [None] + p.queue
    ensures outcome.Hit? ==> t.queue == [Some(outcome.entry)] + p.queue
    ensures var u := Last(p.history);
      t.events == p.events + (if StreamOpens(u, o) then [Start(u.value, t.history, FetchMetadata(u, o))] else [])
    ensures t.volume == p.volume && t.loopQueue == p.loopQueue && t.loopTrack == p.loopTrack
    ensures t.connected == p.connected && t.idleTimerArmed == p.idleTimerArmed
  {
    var head: QueueEntry := if outcome.Hit? then Some(outcome.entry) else None;
    var prev := Last(p.history);
    PlayUrl(p.(queue := [head] + p.queue, history := Pop(p.history)), prev, FetchMetadata(prev, o), o)
  }

  // ---------------------------------------------------------------------
  // shuffle()

  /** `Math.floor(Math.random() * (i + 1))`: the oracle `random` may answer
      any natural number for index `i`; reduced modulo `i + 1` it can name
      every index from 0 to `i`, and no other. */
  function Pick(random: nat -> nat, i: nat): (j: nat)
    ensures j <= i
  {
    random(i) % (i + 1)
  }

  /** `[q[i], q[j]] = [q[j], q[i]]`. */
  function Swap<T>(q: seq<T>, i: nat, j: nat): (r: seq<T>)
    requires i < |q| && j < |q|
    ensures |r| == |q| && r[i] == q[j] && r[j] == q[i]
  {
    q[i := q[j]][j := q[i]]
  }

  /** A swap leaves every position other than `i` and `j` alone. */
  lemma SwapKeepsOthers<T>(q: seq<T>, i: nat, j: nat)
    requires i < |q| && j < |q|
    ensures forall k :: 0 <= k < |q| && k != i && k != j ==> Swap(q, i, j)[k] == q[k]
  {
  }

  /** A swap moves two entries and loses or adds none. */
  lemma SwapPermutes<T>(q: seq<T>, i: nat, j: nat)
    requires i < |q| && j < |q|
    ensures multiset(Swap(q, i, j)) == multiset(q)
  {
    assert multiset(q[i := q[j]]) == multiset(q) - multiset{q[i]} + multiset{q[j]};
  }

  /** The Fisher-Yates loop from index `i` down to 1. */
  function ShuffleDown<T>(q: seq<T>, random: nat -> nat, i: int): (r: seq<T>)
    requires i < |q|
    ensures |r| == |q|
    decreases i
  {
    if i <= 0 then q else ShuffleDown(Swap(q, i, Pick(random, i)), random, i - 1)
  }

  /** One iteration of the loop: it swaps position `i` with the picked
      index, which keeps the entries, and continues from `i - 1`. */
  lemma ShuffleStep<T>(q: seq<T>, random: nat -> nat, i: int)
    requires 0 < i < |q|
    ensures var r := Swap(q, i, Pick(random, i));
      ShuffleDown(q, random, i) == ShuffleDown(r, random, i - 1) && multiset(r) == multiset(q)
  {
    SwapPermutes(q, i, Pick(random, i));
  }

  /** One iteration of the loop, written as the in-place exchange of
      positions `i` and `j`. */
  lemma ShuffleDownUnfold<T>(q: seq<T>, random: nat -> nat, i: int, j: nat)
    requires 0 < i < |q| && j == Pick(random, i)
    ensures ShuffleDown(q, random, i) == ShuffleDown(q[i := q[j]][j := q[i]], random, i - 1)
  {
  }

  /** Whatever the random choices, the loop only permutes the queue. */
  lemma {:induction false} ShuffleDownPermutes<T>(q: seq<T>, random: nat -> nat, i: int)
    requires i < |q|
    ensures multiset(ShuffleDown(q, random, i)) == multiset(q)
    decreases i
  {
    if i > 0 {
      ShuffleStep(q, random, i);
      ShuffleDownPermutes(Swap(q, i, Pick(random, i)), random, i - 1);
    }
  }

  /** `shuffle`: permutes the queue in place and emits nothing. */
  function Shuffle(s: State, random: nat -> nat): (t: State)
    ensures |t.queue| == |s.queue| && t == s.(queue := t.queue)
  {
    s.(queue := ShuffleDown(s.queue, random, |s.queue| - 1))
  }

  /** The shuffled queue has the same length and the same entries, each as
      often as before, for every sequence of random choices. */
  lemma ShufflePermutes(s: State, random: nat -> nat)
    ensures |Shuffle(s, random).queue| == |s.queue|
    ensures multiset(Shuffle(s, random).queue) == multiset(s.queue)
    ensures Shuffle(s, random) == s.(queue := Shuffle(s, random).queue)
  {
    ShuffleDownPermutes(s.queue, random, |s.queue| - 1);
  }
}
