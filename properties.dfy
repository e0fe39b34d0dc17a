/** Properties of the session that span several calls: repeated idle
    notifications under the loop flags, the ways of leaving, and
    invariants kept by every sequence of operations. */
module SessionProperties {
  import opened MusicTypes
  import opened Resolution
  import opened Session

  // ---------------------------------------------------------------------
  // Idle timer

  /** Clearing twice is clearing once. */
  lemma ClearIdleTimerIdempotent(s: State)
    ensures ClearIdleTimer(ClearIdleTimer(s)) == ClearIdleTimer(s)
  {
  }

  /** A second `startIdleTimer` never arms a second timer. */
  lemma StartIdleTimerIdempotent(s: State, c: Config)
    ensures StartIdleTimer(StartIdleTimer(s, c), c) == StartIdleTimer(s, c)
  {
  }

  /** `play` alone does not cancel a pending auto-leave: only the audio
      player's `Playing` notification does. When no stream could be opened
      that notification never comes, and the timer stays armed while the
      session claims to be playing. */
  lemma PlayLeavesTimerToPlayingNotification(s: State, input: string, attempt: ConnectAttempt, o: Oracles)
    requires s.idleTimerArmed
    ensures Play(s, input, attempt, o).idleTimerArmed
    ensures Play(s, input, attempt, o).playing == (s.playing || !SearchRejects(input, o))
    ensures !PlayerPlaying(Play(s, input, attempt, o)).idleTimerArmed
  {
  }

  // ---------------------------------------------------------------------
  // Leaving

  /** `disconnect` twice leaves the same state as once, apart from a
      second `Disconnect` event. */
  lemma DisconnectTwice(s: State)
    ensures Session.Disconnect(Session.Disconnect(s)) == Session.Disconnect(s).(events := s.events + [Event.Disconnect, Event.Disconnect])
  {
  }

  /** `stop(false)` is `stop(true)` followed by `disconnect`. */
  lemma StopLeavingIsStopThenDisconnect(s: State)
    ensures Session.Stop(s, false) == Session.Disconnect(Session.Stop(s, true))
  {
  }

  /** `stop()` keeps the connection, but the audio player's idle
      notification that its `player.stop()` causes finds an empty queue:
      with auto-leave on an empty queue the player then leaves anyway. */
  lemma StopThenIdleLeaves(s: State, c: Config, o: Oracles)
    requires !s.loopTrack && c.autoLeaveOnEmptyQueue
    ensures
      var t := OnIdle(Session.Stop(s, true), c, o);
      !t.connected && !t.playing && t.queue == [] && t.history == [] &&
      t.events == s.events + [Event.Stop, Finish([]), Event.Disconnect, Event.Disconnect]
  {
  }

  /** With auto-leave off, the same notification arms the idle timer
      instead, if idle auto-leave is on. */
  lemma StopThenIdleWaits(s: State, c: Config, o: Oracles)
    requires !s.loopTrack && !c.autoLeaveOnEmptyQueue
    ensures
      var t := OnIdle(Session.Stop(s, true), c, o);
      t.connected == s.connected && !t.playing &&
      t.idleTimerArmed == (c.autoLeaveOnIdleMs > 0) &&
      t.events == s.events + [Event.Stop, Finish([])]
  {
  }

  // ---------------------------------------------------------------------
  // play

  /** The first `play` of a fresh player on an http(s) URL whose stream
      opens: connected, playing, one history entry and exactly one event,
      `Start`. */
  lemma FirstPlayStarts(initialVolume: real, url: string, o: Oracles)
    requires IsHttpUrl(url) && StreamOpens(Some(url), o)
    ensures
      var t := Play(Init(initialVolume), url, Ready, o);
      t.connected && t.playing && t.queue == [] && t.history == [Some(url)] &&
      t.events == [Start(url, [Some(url)], FetchMetadata(Some(url), o))]
  {
  }

  /** A `play` while playing adds one queue entry, leaves the history
      alone and emits exactly one `QueueAdd` and no `Start`; if the search
      rejects, nothing changes at all. */
  lemma PlayWhilePlayingQueues(s: State, input: string, attempt: ConnectAttempt, o: Oracles)
    requires s.playing && s.connected
    ensures SearchRejects(input, o) ==> Play(s, input, attempt, o) == s
    ensures !SearchRejects(input, o) ==>
      var t := Play(s, input, attempt, o);
      |t.queue| == |s.queue| + 1 && t.queue[..|s.queue|] == s.queue &&
      t.history == s.history && t.events == s.events + [QueueAdd(Search(input, o), t.queue)]
  {
  }

  /** When no stream opens, `play` on an idle player records the URL and
      marks the player as playing without any `Start`; every later `play`
      only queues, since no idle notification will come. */
  lemma FailedStreamStillPlaying(s: State, input: string, input2: string, attempt: ConnectAttempt, o: Oracles)
    requires !s.playing && !SearchRejects(input, o) && !StreamOpens(Search(input, o), o)
    ensures
      var c := EnsureConnection(s, attempt);
      var t := Play(s, input, attempt, o);
      t.playing && t.events == c.events && t.history == s.history + [Search(input, o)] &&
      Play(t, input2, attempt, o).history == t.history
  {
  }

  // ---------------------------------------------------------------------
  // setVolume

  /** A negative percentage sets the maximum, 200%, not the minimum. */
  lemma NegativeVolumeIsMaximum(s: State, percent: real)
    requires percent < 0.0
    ensures SetVolume(s, percent).volume == 2.0
    ensures SetVolume(s, percent).events == s.events + [VolumeChange(200)]
  {
  }

  /** An in-range percentage is reported back, rounded. */
  lemma VolumeChangeReportsPercent(s: State, percent: real)
    requires 0.0 <= percent <= 200.0
    ensures SetVolume(s, percent).events == s.events + [VolumeChange(Round(percent))]
  {
    assert SetVolume(s, percent).volume * 100.0 == percent;
  }

  /** The default initial volume of 100% is the multiplier 1; the
      constructor does not clamp, so 1000% gives 10. */
  lemma InitialVolumes()
    ensures Init(DefaultInitialVolume).volume == 1.0
    ensures Init(1000.0).volume == 10.0
  {
    assert Round(1.0) == 1;
    assert Round(10.0) == 10;
  }

  // ---------------------------------------------------------------------
  // Repeated idle notifications

  /** `n` idle notifications in a row, with nothing else in between. */
  function IdleN(s: State, c: Config, o: Oracles, n: nat): State
    decreases n
  {
    if n == 0 then s else IdleN(OnIdle(s, c, o), c, o, n - 1)
  }

  function Repeat(u: Url, n: nat): (r: seq<Url>)
    ensures |r| == n && forall i :: 0 <= i < n ==> r[i] == u
  {
    if n == 0 then [] else Repeat(u, n - 1) + [u]
  }

  /** Under `loopTrack` every idle notification replays the newest history
      entry, whatever the queue holds, and the queue never shrinks. */
  lemma {:induction false} LoopTrackRepeats(s: State, c: Config, o: Oracles, n: nat)
    requires s.loopTrack
    ensures IdleN(s, c, o, n).queue == s.queue
    ensures IdleN(s, c, o, n).history == s.history + Repeat(Last(s.history), n)
    ensures n > 0 ==> IdleN(s, c, o, n).playing
    decreases n
  {
    if n > 0 {
      var u := Last(s.history);
      var s1 := OnIdle(s, c, o);
      assert IdleN(s, c, o, n) == IdleN(s1, c, o, n - 1);
      assert s1.history == s.history + [u] && Last(s1.history) == u;
      LoopTrackRepeats(s1, c, o, n - 1);
      assert Repeat(u, n) == [u] + Repeat(u, n - 1);
      assert s.history + Repeat(u, n) == s1.history + Repeat(u, n - 1);
    }
  }

  predicate AllDefined(q: seq<QueueEntry>) {
    forall i :: 0 <= i < |q| ==> q[i].Some?
  }

  /** Rotating by one and then by `k - 1` is rotating by `k`. */
  lemma RotateOnce<T>(q: seq<T>, k: nat)
    requires 0 < k <= |q|
    ensures var r := q[1..] + [q[0]]; r[k - 1..] + r[..k - 1] == q[k..] + q[..k]
  {
    var r := q[1..] + [q[0]];
    assert r[k - 1..] == q[k..] + [q[0]];
    assert r[..k - 1] == q[1..k];
    assert q[..k] == [q[0]] + q[1..k];
  }

  /** One idle notification on a looped queue whose entries are all
      defined: the head moves to the tail and is played. */
  lemma LoopIdleStep(s: State, c: Config, o: Oracles)
    requires s.loopQueue && !s.loopTrack && AllDefined(s.queue) && |s.queue| > 0
    ensures var t := OnIdle(s, c, o);
      t.queue == s.queue[1..] + [s.queue[0]] && t.playing &&
      t.loopQueue && !t.loopTrack && AllDefined(t.queue)
  {
  }

  /** One idle notification on any non-empty looped queue: the head moves
      to the tail, and a fully defined queue stays fully defined and plays. */
  lemma LoopIdleShift(s: State, c: Config, o: Oracles)
    requires s.loopQueue && !s.loopTrack && |s.queue| > 0
    ensures var t := OnIdle(s, c, o);
      t.queue == s.queue[1..] + [s.queue[0]] && t.loopQueue && !t.loopTrack &&
      (AllDefined(s.queue) ==> t.playing && AllDefined(t.queue))
  {
    if AllDefined(s.queue) {
      LoopIdleStep(s, c, o);
    }
  }

  /** Under `loopQueue` (and no `loopTrack`) each idle notification rotates
      the queue by one, `undefined` entries included: after `k` of them the
      first `k` entries have moved to the tail, in order, and the length
      never changes. When every entry is defined, each step also plays. */
  lemma {:induction false} LoopQueueRotates(s: State, c: Config, o: Oracles, k: nat)
    requires s.loopQueue && !s.loopTrack && k <= |s.queue|
    ensures IdleN(s, c, o, k).queue == s.queue[k..] + s.queue[..k]
    ensures k > 0 && AllDefined(s.queue) ==> IdleN(s, c, o, k).playing
    decreases k
  {
    if k > 0 {
      var s1 := OnIdle(s, c, o);
      assert IdleN(s, c, o, k) == IdleN(s1, c, o, k - 1);
      LoopIdleShift(s, c, o);
      LoopQueueRotates(s1, c, o, k - 1);
      RotateOnce(s.queue, k);
    }
  }

  /** So a looped queue cycles through all its entries and comes back
      to where it started. */
  lemma LoopQueueCycles(s: State, c: Config, o: Oracles)
    requires s.loopQueue && !s.loopTrack
    ensures IdleN(s, c, o, |s.queue|).queue == s.queue
  {
    LoopQueueRotates(s, c, o, |s.queue|);
    assert s.queue[|s.queue|..] + s.queue[..|s.queue|] == s.queue;
  }

  /** The URLs of the queue entries, in order; `undefined` for an
      `undefined` entry. */
  function UrlsOf(q: seq<QueueEntry>): (urls: seq<Url>)
    ensures |urls| == |q|
  {
    if q == [] then [] else [if q[0].Some? then q[0].value.url else None] + UrlsOf(q[1..])
  }

  /** One idle notification on a plain queue whose head is defined. */
  lemma PlainIdleStep(s: State, c: Config, o: Oracles)
    requires !s.loopQueue && !s.loopTrack && AllDefined(s.queue) && |s.queue| > 0
    ensures var t := OnIdle(s, c, o);
      t.queue == s.queue[1..] && t.history == s.history + [s.queue[0].value.url] &&
      !t.loopQueue && !t.loopTrack && AllDefined(t.queue)
  {
  }

  lemma DropAfterDrop<T>(q: seq<T>, k: nat)
    requires 0 < k <= |q|
    ensures q[1..][k - 1..] == q[k..]
  {
  }

  lemma AppendAssoc<T>(a: seq<T>, b: seq<T>, c: seq<T>)
    ensures a + (b + c) == (a + b) + c
  {
  }

  lemma UrlsOfHead(q: seq<QueueEntry>, k: nat)
    requires 0 < k <= |q| && q[0].Some?
    ensures UrlsOf(q[..k]) == [q[0].value.url] + UrlsOf(q[1..][..k - 1])
  {
    assert q[..k][1..] == q[1..][..k - 1];
  }

  /** Without either loop flag, each idle notification drops the queue
      head, `undefined` or not: after `k` of them the first `k` entries are
      gone. */
  lemma {:induction false} PlainQueueDrains(s: State, c: Config, o: Oracles, k: nat)
    requires !s.loopQueue && !s.loopTrack && k <= |s.queue|
    ensures IdleN(s, c, o, k).queue == s.queue[k..]
    decreases k
  {
    if k > 0 {
      var s1 := OnIdle(s, c, o);
      assert IdleN(s, c, o, k) == IdleN(s1, c, o, k - 1);
      PlainQueueDrains(s1, c, o, k - 1);
      DropAfterDrop(s.queue, k);
    }
  }

  /** ... and the URLs of those `k` entries have been played in order. */
  lemma {:induction false} PlainQueuePlaysInOrder(s: State, c: Config, o: Oracles, k: nat)
    requires !s.loopQueue && !s.loopTrack && AllDefined(s.queue) && k <= |s.queue|
    ensures IdleN(s, c, o, k).history == s.history + UrlsOf(s.queue[..k])
    decreases k
  {
    if k > 0 {
      var s1 := OnIdle(s, c, o);
      assert IdleN(s, c, o, k) == IdleN(s1, c, o, k - 1);
      PlainIdleStep(s, c, o);
      PlainQueuePlaysInOrder(s1, c, o, k - 1);
      UrlsOfHead(s.queue, k);
      AppendAssoc(s.history, [s.queue[0].value.url], UrlsOf(s1.queue[..k - 1]));
    }
  }

  // ---------------------------------------------------------------------
  // Every sequence of operations

  /** One call into the player: a public method, or a notification from
      the audio player or the timer. */
  datatype Op =
    | PlayOp(input: string, attempt: ConnectAttempt, o: Oracles)
    | PauseOp
    | ResumeOp
    | SetVolumeOp(percent: real)
    | SkipOp
    | PreviousOp(o: Oracles)
    | ShuffleOp(random: nat -> nat)
    | ToggleLoopQueueOp
    | ToggleLoopTrackOp
    | DisconnectOp
    | StopOp(noLeave: bool)
    | IdleOp(o: Oracles)
    | PlayingOp
    | PlayerErrorOp(message: string)
    | TimerFiresOp

  /** A cancelled timer never fires, so `TimerFiresOp` does nothing unless a
      timer is armed. */
  function Step(s: State, c: Config, op: Op): State {
    match op
    case PlayOp(input, attempt, o) => Play(s, input, attempt, o)
    case PauseOp => Session.Pause(s)
    case ResumeOp => Session.Resume(s)
    case SetVolumeOp(percent) => SetVolume(s, percent)
    case SkipOp => Session.Skip(s)
    case PreviousOp(o) => Session.Previous(s, o)
    case ShuffleOp(random) => Session.Shuffle(s, random)
    case ToggleLoopQueueOp => ToggleLoopQueue(s)
    case ToggleLoopTrackOp => ToggleLoopTrack(s)
    case DisconnectOp => Session.Disconnect(s)
    case StopOp(noLeave) => Session.Stop(s, noLeave)
    case IdleOp(o) => OnIdle(s, c, o)
    case PlayingOp => PlayerPlaying(s)
    case PlayerErrorOp(message) => PlayerError(s, message)
    case TimerFiresOp => if s.idleTimerArmed then IdleTimerFires(s) else s
  }

  function Run(s: State, c: Config, ops: seq<Op>): State
    decreases |ops|
  {
    if ops == [] then s else Run(Step(s, c, ops[0]), c, ops[1..])
  }

  /** The events the player declares but never emits. */
  predicate Unemitted(e: Event) {
    e.Shuffle? || e.LoopQueue? || e.LoopTrack?
  }

  predicate NoUnemitted(events: seq<Event>) {
    forall i :: 0 <= i < |events| ==> !Unemitted(events[i])
  }

  /** `t`'s trace is `s`'s with events appended, none of them one that is
      never emitted. */
  predicate Appends(s: State, t: State) {
    |s.events| <= |t.events| && t.events[..|s.events|] == s.events &&
    NoUnemitted(t.events[|s.events|..])
  }

  lemma AppendsTransitive(s: State, t: State, u: State)
    requires Appends(s, t) && Appends(t, u)
    ensures Appends(s, u)
  {
    assert u.events[|s.events|..] == t.events[|s.events|..] + u.events[|t.events|..];
  }

  lemma PlayUrlAppends(s: State, url: Url, m: TrackMetadata, o: Oracles)
    ensures Appends(s, PlayUrl(s, url, m, o))
  {
  }

  lemma DisconnectAppends(s: State)
    ensures Appends(s, Session.Disconnect(s))
  {
  }

  lemma PlayAppends(s: State, input: string, attempt: ConnectAttempt, o: Oracles)
    ensures Appends(s, Play(s, input, attempt, o))
  {
    var c := EnsureConnection(s, attempt);
    assert Appends(s, c);
    var url := Search(input, o);
    var m := FetchMetadata(url, o);
    if !c.playing {
      PlayUrlAppends(c, url, m, o);
    }
    AppendsTransitive(s, c, Play(s, input, attempt, o));
  }

  lemma OnIdleAppends(s: State, c: Config, o: Oracles)
    ensures Appends(s, OnIdle(s, c, o))
  {
    var url := Last(s.history);
    if s.loopTrack {
      PlayUrlAppends(s, url, FetchMetadata(url, o), o);
    } else if |s.queue| > 0 {
      PlayNextAppends(s, o);
    } else {
      FinishQueueAppends(s, c);
    }
  }

  lemma PlayNextAppends(s: State, o: Oracles)
    requires |s.queue| > 0
    ensures Appends(s, PlayNext(s, o))
  {
    var q := s.queue[1..] + (if s.loopQueue then [s.queue[0]] else []);
    if s.queue[0].Some? {
      var n := s.queue[0].value;
      PlayUrlAppends(s.(queue := q), n.url, FetchMetadata(n.url, o), o);
    } else {
      SameTraceAppends(s, PlayNext(s, o));
    }
  }

  lemma FinishQueueAppends(s: State, c: Config)
    ensures Appends(s, FinishQueue(s, c))
  {
    var f := Emit(s.(playing := false), Finish(s.history));
    SingleEventAppends(s, f);
    if c.autoLeaveOnEmptyQueue {
      var d := Emit(f, Event.Disconnect);
      SingleEventAppends(f, d);
      DisconnectAppends(d);
      AppendsTransitive(s, f, d);
      AppendsTransitive(s, d, FinishQueue(s, c));
    } else {
      SameTraceAppends(f, FinishQueue(s, c));
      AppendsTransitive(s, f, FinishQueue(s, c));
    }
  }

  lemma PreviousAppends(s: State, o: Oracles)
    ensures Appends(s, Session.Previous(s, o))
  {
    if |s.history| < 2 {
      SingleEventAppends(s, Session.Previous(s, o));
    } else {
      var f := FindPop(s.queue, s.history);
      var p := Emit(s, Event.Previous(s.history)).(history := f.history);
      SingleEventAppends(s, p);
      if !f.outcome.Threw? {
        PlayFoundAppends(p, f.outcome, o);
        AppendsTransitive(s, p, Session.Previous(s, o));
      }
    }
  }

  lemma PlayFoundAppends(p: State, outcome: FindOutcome, o: Oracles)
    requires !outcome.Threw?
    ensures Appends(p, PlayFound(p, outcome, o))
  {
    var head: QueueEntry := if outcome.Hit? then Some(outcome.entry) else None;
    var prev := Last(p.history);
    PlayUrlAppends(p.(queue := [head] + p.queue, history := Pop(p.history)), prev, FetchMetadata(prev, o), o);
  }

  lemma StepFacts(s: State, c: Config, op: Op)
    ensures Appends(s, Step(s, c, op))
    ensures !op.SetVolumeOp? ==> Step(s, c, op).volume == s.volume
    ensures op.SetVolumeOp? ==> 0.0 <= Step(s, c, op).volume <= 2.0
    ensures !s.idleTimerArmed && Step(s, c, op).idleTimerArmed ==> c.autoLeaveOnIdleMs > 0
  {
    StepAppends(s, c, op);
  }

  lemma StopAppends(s: State, noLeave: bool)
    ensures Appends(s, Session.Stop(s, noLeave))
  {
    var u := Session.Stop(s, true);
    SingleEventAppends(s, u);
    if !noLeave {
      DisconnectAppends(u);
      AppendsTransitive(s, u, Session.Disconnect(u));
      StopLeavingIsStopThenDisconnect(s);
    }
  }

  lemma TimerFiresAppends(s: State)
    requires s.idleTimerArmed
    ensures Appends(s, IdleTimerFires(s))
  {
    var d := Emit(s, Event.Disconnect);
    SingleEventAppends(s, d);
    DisconnectAppends(d);
    AppendsTransitive(s, d, Session.Disconnect(d));
  }

  lemma StepAppends(s: State, c: Config, op: Op)
    ensures Appends(s, Step(s, c, op))
  {
    var t := Step(s, c, op);
    match op
    case PlayOp(input, attempt, o) => PlayAppends(s, input, attempt, o);
    case PreviousOp(o) => PreviousAppends(s, o);
    case IdleOp(o) => OnIdleAppends(s, c, o);
    case DisconnectOp => DisconnectAppends(s);
    case StopOp(noLeave) => StopAppends(s, noLeave);
    case TimerFiresOp =>
      if s.idleTimerArmed {
        TimerFiresAppends(s);
      } else {
        SameTraceAppends(s, t);
      }
    case PauseOp => SingleEventAppends(s, t);
    case ResumeOp => SingleEventAppends(s, t);
    case SetVolumeOp(_) => SingleEventAppends(s, t);
    case SkipOp => SingleEventAppends(s, t);
    case PlayerErrorOp(_) => SingleEventAppends(s, t);
    case ShuffleOp(_) => SameTraceAppends(s, t);
    case ToggleLoopQueueOp => SameTraceAppends(s, t);
    case ToggleLoopTrackOp => SameTraceAppends(s, t);
    case PlayingOp => SameTraceAppends(s, t);
  }

  lemma SingleEventAppends(s: State, t: State)
    requires |t.events| == |s.events| + 1 && t.events[..|s.events|] == s.events
    requires !Unemitted(t.events[|s.events|])
    ensures Appends(s, t)
  {
  }

  lemma SameTraceAppends(s: State, t: State)
    requires t.events == s.events
    ensures Appends(s, t)
  {
  }

  /** Events are only ever appended, and never one of those the player
      declares but does not emit: neither `shuffle` nor the loop toggles
      emit anything. */
  lemma {:induction false} RunAppendsEvents(s: State, c: Config, ops: seq<Op>)
    ensures Appends(s, Run(s, c, ops))
    decreases |ops|
  {
    if ops != [] {
      var t := Step(s, c, ops[0]);
      StepFacts(s, c, ops[0]);
      RunAppendsEvents(t, c, ops[1..]);
      AppendsTransitive(s, t, Run(s, c, ops));
    }
  }

  /** Once the volume lies in [0, 2] it stays there. */
  lemma {:induction false} RunKeepsVolumeInRange(s: State, c: Config, ops: seq<Op>)
    requires 0.0 <= s.volume <= 2.0
    ensures 0.0 <= Run(s, c, ops).volume <= 2.0
    decreases |ops|
  {
    if ops != [] {
      StepFacts(s, c, ops[0]);
      RunKeepsVolumeInRange(Step(s, c, ops[0]), c, ops[1..]);
    }
  }

  /** With idle auto-leave switched off (a duration of 0 or less) no timer
      is ever armed. */
  lemma {:induction false} RunNeverArmsDisabledTimer(s: State, c: Config, ops: seq<Op>)
    requires c.autoLeaveOnIdleMs <= 0 && !s.idleTimerArmed
    ensures !Run(s, c, ops).idleTimerArmed
    decreases |ops|
  {
    if ops != [] {
      StepFacts(s, c, ops[0]);
      RunNeverArmsDisabledTimer(Step(s, c, ops[0]), c, ops[1..]);
    }
  }

  // ---------------------------------------------------------------------
  // previous(): as written and as intended

  /** As written, `previous` on an empty queue calls the `find` callback
      zero times, so the only pop is the one that picks the track to play:
      the CURRENT track is replayed, and `undefined` is put at the head of
      the queue. */
  lemma PreviousWithEmptyQueueReplaysCurrent(s: State, a: string, b: string, o: Oracles)
    requires s.queue == [] && s.history == [Some(a), Some(b)]
    ensures Session.Previous(s, o).history == [Some(a), Some(b)]
    ensures Last(Session.Previous(s, o).history) == Some(b)
    ensures Session.Previous(s, o).queue == [None]
  {
    var f := FindPop(s.queue, s.history);
    assert f == Found(Miss, s.history);
  }

  /** The `undefined` entry it leaves then stops the queue: the next idle
      notification throws on it without playing or finishing. */
  lemma UndefinedHeadStallsQueue(s: State, c: Config, o: Oracles)
    requires !s.loopTrack && !s.loopQueue && s.queue == [None]
    ensures OnIdle(s, c, o) == s.(queue := [])
  {
  }

  /** As written, `previous` puts at the head of the queue the first entry
      whose URL equals the URL popped for it, and `undefined` when every
      entry was passed over; reaching an `undefined` entry first makes it
      throw before the queue changes. `k` is where the search stops. */
  lemma {:induction false} PreviousPutsFirstMatchAtHead(s: State, o: Oracles, k: nat)
    requires |s.history| >= 2 && k <= |s.queue| && PassedOver(s.queue, s.history, k)
    ensures k == |s.queue| ==> Session.Previous(s, o).queue == [None] + s.queue
    ensures k < |s.queue| && s.queue[k].Some? && s.queue[k].value.url == Popped(s.history, k) ==>
      Session.Previous(s, o).queue == [s.queue[k]] + s.queue
    ensures k < |s.queue| && s.queue[k].None? ==> Session.Previous(s, o).queue == s.queue
  {
    var q, h := s.queue, s.history;
    var r := FindPop(q, h);
    FindPopSearches(q, h);
    var stops := k == |q| || q[k].None? || q[k].value.url == Popped(h, k);
    if stops {
      if r.outcome.Hit? {
        var j :| 0 <= j < |q| && PassedOver(q, h, j) &&
          q[j] == Some(r.outcome.entry) && r.outcome.entry.url == Popped(h, j) &&
          r.history == AfterPops(h, j + 1);
        assert j == k;
      } else if r.outcome.Threw? {
        var j :| 0 <= j < |q| && PassedOver(q, h, j) && q[j].None? && r.history == AfterPops(h, j);
        assert j == k;
      } else {
        assert k == |q|;
      }
    }
  }

  /** Two queue entries that match neither of the two URLs they are
      compared with pop two history entries and find nothing. */
  lemma TwoMissesPopTwice(h: seq<Url>, x: TrackMetadata, y: TrackMetadata)
    requires |h| == 4 && x.url != h[3] && y.url != h[2]
    ensures FindPop([Some(x), Some(y)], h) == Found(Miss, h[..2])
  {
    assert Pop(h) == h[..3] && Last(h) == h[3];
    assert Pop(h[..3]) == h[..2] && Last(h[..3]) == h[2];
    assert [Some(x), Some(y)][1..] == [Some(y)];
    assert FindPop([Some(y)], h[..3]) == FindPop([], h[..2]);
  }

  /** As written, each queue entry examined pops a history entry: with
      two non-matching entries queued, `previous` pops three entries and
      replays the track two before the current one, instead of the one
      just before it. */
  lemma PreviousWithTwoQueuedGoesBackTwo(s: State, h: seq<Url>, x: TrackMetadata, y: TrackMetadata, o: Oracles)
    requires |h| == 4 && s.history == h && s.queue == [Some(x), Some(y)]
    requires x.url != h[3] && y.url != h[2]
    ensures Session.Previous(s, o).history == [h[0], h[1]]
    ensures Last(Session.Previous(s, o).history) == h[1]
    ensures Session.Previous(s, o).queue == [None, Some(x), Some(y)]
  {
    TwoMissesPopTwice(h, x, y);
    assert Pop(h[..2]) + [Last(h[..2])] == [h[0], h[1]];
  }

  /** The first queue entry for `url`, if any; `undefined` entries are
      skipped rather than read. */
  function FindByUrl(q: seq<QueueEntry>, url: Url): (r: Option<TrackMetadata>)
    ensures r.Some? ==> r.value.url == url
    ensures r.Some? ==>
      exists k :: 0 <= k < |q| && q[k] == Some(r.value) &&
        forall i :: 0 <= i < k && q[i].Some? ==> q[i].value.url != url
    ensures r.None? ==> forall i :: 0 <= i < |q| && q[i].Some? ==> q[i].value.url != url
    decreases |q|
  {
    if |q| == 0 then None
    else if q[0].Some? && q[0].value.url == url then q[0]
    else
      var r := FindByUrl(q[1..], url);
      assert forall i :: 1 <= i < |q| ==> q[i] == q[1..][i - 1];
      r
  }

  /** `previous` as evidently intended: pop the current URL, pop the one
      before it and play that, and put the current track at the head of
      the queue. */
  function PreviousIntended(s: State, o: Oracles): State {
    if |s.history| < 2 then Emit(s, Error(NoPreviousMessage))
    else
      var current := s.history[|s.history| - 1];
      var prev := s.history[|s.history| - 2];
      var p := Emit(s, Event.Previous(s.history)).(queue := RequeueCurrent(s.queue, current, o), history := s.history[..|s.history| - 2]);
      PlayUrl(p, prev, FetchMetadata(prev, o), o)
  }

  /** The queue after the intended `previous`: the current track goes to
      the head, as its first queue entry if the queue has one and as its
      fetched metadata otherwise; the rest of the queue is kept. */
  function RequeueCurrent(q: seq<QueueEntry>, current: Url, o: Oracles): (r: seq<QueueEntry>)
    ensures |r| == |q| + 1 && r[1..] == q
    ensures r[0].Some? && r[0].value.url == current
    ensures AllDefined(q) ==> AllDefined(r)
  {
    var m := match FindByUrl(q, current)
      case Some(m) => m
      case None => FetchMetadata(current, o);
    [Some(m)] + q
  }

  /** The intended `previous` goes back exactly one track, never touches
      more than two history entries, and puts the track it left, never
      `undefined`, in front of the queue it found. */
  lemma PreviousIntendedGoesBackOne(s: State, o: Oracles)
    requires |s.history| >= 2
    ensures
      var t := PreviousIntended(s, o);
      t.playing &&
      t.history == s.history[..|s.history| - 1] &&
      Last(t.history) == s.history[|s.history| - 2] &&
      |t.queue| == |s.queue| + 1 && t.queue[1..] == s.queue &&
      t.queue[0].Some? && t.queue[0].value.url == s.history[|s.history| - 1] &&
      (AllDefined(s.queue) ==> AllDefined(t.queue))
  {
    var h := s.history;
    var prev := h[|h| - 2];
    var p := Emit(s, Event.Previous(h)).(queue := RequeueCurrent(s.queue, h[|h| - 1], o), history := h[..|h| - 2]);
    var t := PlayUrl(p, prev, FetchMetadata(prev, o), o);
    assert PreviousIntended(s, o) == t;
    assert h[..|h| - 2] + [prev] == h[..|h| - 1];
  }
}
