/** The `MusicPlayer` class: one object per voice channel, whose methods
    update its fields step by step. Every method is proved to leave the
    object in the state the matching `Session` function describes. The
    voice connection, the audio player and the timer handle are reduced to
    the flags `connected`, `playing` and `idleTimerArmed`; `emit` appends to
    `events`. */
module Player {
  import opened MusicTypes
  import opened Resolution
  import Session

  class MusicPlayer {
    var connected: bool
    var volume: real
    var queue: seq<QueueEntry>
    var history: seq<Url>
    var loopQueue: bool
    var loopTrack: bool
    var playing: bool
    var idleTimerArmed: bool
    var events: seq<Event>
    const autoLeaveOnEmptyQueue: bool
    const autoLeaveOnIdleMs: int

    /** Everything the methods change, as one value. */
    function State(): Session.State
      reads this
    {
      Session.State(connected, volume, queue, history, loopQueue, loopTrack, playing, idleTimerArmed, events)
    }

    function Config(): Session.Config {
      Session.Config(autoLeaveOnEmptyQueue, autoLeaveOnIdleMs)
    }

    /** `new MusicPlayer(channel, initialVolume, options)`; the default
        arguments are `Session.DefaultInitialVolume` and empty options. */
    constructor (initialVolume: real, options: Session.Options)
      ensures State() == Session.Init(initialVolume)
      ensures Config() == Session.ConfigOf(options)
    {
      connected := false;
      volume := Round(initialVolume / 100.0) as real;
      queue := [];
      history := [];
      loopQueue := false;
      loopTrack := false;
      playing := false;
      idleTimerArmed := false;
      events := [];
      autoLeaveOnEmptyQueue := options.autoLeaveOnEmptyQueue.GetOr(true);
      autoLeaveOnIdleMs := options.autoLeaveOnIdleMs.GetOr(Session.DefaultIdleMs);
    }

    method Emit(e: Event)
      modifies this
      ensures State() == old(State()).(events := old(events) + [e])
    {
      events := events + [e];
    }

    method StartIdleTimer()
      modifies this
      ensures State() == Session.StartIdleTimer(old(State()), Config())
    {
      if autoLeaveOnIdleMs > 0 && !idleTimerArmed && !playing {
        idleTimerArmed := true;
      }
    }

    method ClearIdleTimer()
      modifies this
      ensures State() == Session.ClearIdleTimer(old(State()))
    {
      if idleTimerArmed {
        idleTimerArmed := false;
      }
    }

    method EnsureConnection(attempt: Session.ConnectAttempt)
      modifies this
      ensures State() == Session.EnsureConnection(old(State()), attempt)
    {
      if !connected {
        match attempt
        case Ready =>
          connected := true;
        case Failed(reason) =>
          Emit(Error(Session.ConnectErrorPrefix + reason));
      }
    }

    method PlayUrl(url: Url, metadata: TrackMetadata, o: Oracles)
      modifies this
      ensures State() == Session.PlayUrl(old(State()), url, metadata, o)
    {
      playing := true;
      history := history + [url];
      if StreamOpens(url, o) {
        Emit(Start(url.value, history, metadata));
      }
    }

    method Play(input: string, attempt: Session.ConnectAttempt, o: Oracles)
      modifies this
      ensures State() == Session.Play(old(State()), input, attempt, o)
    {
      EnsureConnection(attempt);
      if SearchRejects(input, o) {
        return;
      }
      var url := Search(input, o);
      var metadata := FetchMetadata(url, o);
      if playing {
        queue := queue + [Some(metadata)];
        Emit(QueueAdd(url, queue));
      } else {
        PlayUrl(url, metadata, o);
      }
    }

    method Pause()
      modifies this
      ensures State() == Session.Pause(old(State()))
    {
      Emit(Event.Pause);
    }

    method Resume()
      modifies this
      ensures State() == Session.Resume(old(State()))
    {
      Emit(Event.Resume);
    }

    method SetVolume(percent: real)
      modifies this
      ensures State() == Session.SetVolume(old(State()), percent)
      ensures 0.0 <= volume <= 2.0
    {
      var p := percent / 100.0;
      if p < 0.0 || p > 2.0 {
        volume := 2.0;
      } else {
        volume := p;
      }
      Emit(VolumeChange(Round(volume * 100.0)));
    }

    /** The audio player's idle notification. */
    method OnIdle(o: Oracles)
      modifies this
      ensures State() == Session.OnIdle(old(State()), Config(), o)
    {
      var url := Last(history);
      var metadata := FetchMetadata(url, o);
      if loopTrack {
        PlayUrl(url, metadata, o);
        return;
      }
      if |queue| > 0 {
        PlayNext(o);
      } else {
        FinishQueue();
      }
    }

    /** The queue branch of the idle notification. */
    method PlayNext(o: Oracles)
      requires |queue| > 0
      modifies this
      ensures State() == Session.PlayNext(old(State()), o)
    {
      var next := queue[0];
      queue := queue[1..];
      if loopQueue {
        queue := queue + [next];
      }
      if next.Some? {
        var metadata := FetchMetadata(next.value.url, o);
        PlayUrl(next.value.url, metadata, o);
      }
      // otherwise `next.url` throws on `undefined`
    }

    /** The empty-queue branch of the idle notification. */
    method FinishQueue()
      modifies this
      ensures State() == Session.FinishQueue(old(State()), Config())
    {
      playing := false;
      Emit(Finish(history));
      if autoLeaveOnEmptyQueue {
        Emit(Event.Disconnect);
        Disconnect();
        return;
      }
      StartIdleTimer();
    }

    method Skip()
      modifies this
      ensures State() == Session.Skip(old(State()))
    {
      Emit(Event.Skip(history));
    }

    /** `queue.find(a => a.url === history.pop())`: one pop per element
        examined. */
    method FindPoppingHistory() returns (outcome: Session.FindOutcome)
      modifies this`history
      ensures Session.Found(outcome, history) == Session.FindPop(queue, old(history))
    {
      var k := 0;
      outcome := Session.Miss;
      while k < |queue| && outcome.Miss?
        invariant 0 <= k <= |queue|
        invariant outcome.Miss? ==>
          Session.FindPop(queue, old(history)) == Session.FindPop(queue[k..], history)
        invariant !outcome.Miss? ==>
          Session.FindPop(queue, old(history)) == Session.Found(outcome, history)
        decreases |queue| - k
      {
        var a := queue[k];
        if a.None? {
          outcome := Session.Threw;  // `a.url` throws on `undefined`
        } else {
          var popped := Last(history);
          history := Pop(history);
          if a.value.url == popped {
            outcome := Session.Hit(a.value);
          }
        }
        k := k + 1;
      }
    }

    method Previous(o: Oracles)
      modifies this
      ensures State() == Session.Previous(old(State()), o)
    {
      if |history| < 2 {
        Emit(Error(Session.NoPreviousMessage));
        return;
      }
      Emit(Event.Previous(history));
      var outcome := FindPoppingHistory();
      if !outcome.Threw? {
        PlayFound(outcome, o);
      }
    }

    /** The rest of `previous` once `find` has returned. */
    method PlayFound(outcome: Session.FindOutcome, o: Oracles)
      requires !outcome.Threw?
      modifies this
      ensures State() == Session.PlayFound(old(State()), outcome, o)
    {
      var head: QueueEntry := if outcome.Hit? then Some(outcome.entry) else None;
      var prev := Last(history);
      queue := [head] + queue;
      history := Pop(history);
      ghost var before := State();
      assert before == old(State()).(queue := [head] + old(queue), history := Pop(old(history)));
      var metadata := FetchMetadata(prev, o);
      PlayUrl(prev, metadata, o);
    }

    method Shuffle(random: nat -> nat)
      modifies this
      ensures State() == Session.Shuffle(old(State()), random)
    {
      ghost var goal := Session.ShuffleDown(queue, random, |queue| - 1);
      var i := |queue| - 1;
      while i > 0
        modifies this`queue
        invariant i < |queue|
        invariant Session.ShuffleDown(queue, random, i) == goal
      {
        var j := Session.Pick(random, i);
        Session.ShuffleDownUnfold(queue, random, i, j);
        queue := queue[i := queue[j]][j := queue[i]];
        i := i - 1;
      }
    }

    method ToggleLoopQueue()
      modifies this
      ensures State() == Session.ToggleLoopQueue(old(State()))
    {
      loopQueue := !loopQueue;
    }

    method ToggleLoopTrack()
      modifies this
      ensures State() == Session.ToggleLoopTrack(old(State()))
    {
      loopTrack := !loopTrack;
    }

    method Disconnect()
      modifies this
      ensures State() == Session.Disconnect(old(State()))
    {
      ClearIdleTimer();
      connected := false;
      playing := false;
      queue := [];
      history := [];
      Emit(Event.Disconnect);
    }

    method Stop(noLeave: bool)
      modifies this
      ensures State() == Session.Stop(old(State()), noLeave)
    {
      Emit(Event.Stop);
      playing := false;
      queue := [];
      history := [];
      ClearIdleTimer();
      if !noLeave {
        Disconnect();
      }
    }

    /** The callback of the pending auto-leave timer. */
    method IdleTimerFires()
      requires idleTimerArmed
      modifies this
      ensures State() == Session.IdleTimerFires(old(State()))
    {
      Emit(Event.Disconnect);
      Disconnect();
    }

    /** The audio player's `Playing` notification. */
    method PlayerPlaying()
      modifies this
      ensures State() == Session.PlayerPlaying(old(State()))
    {
      ClearIdleTimer();
    }

    /** The audio player's `error` notification. */
    method PlayerError(message: string)
      modifies this
      ensures State() == Session.PlayerError(old(State()), message)
    {
      Emit(Error(Session.PlayerErrorPrefix + message));
    }

    /** `getQueue`: a copy of the queue, in order. */
    function GetQueue(): (q: seq<QueueEntry>)
      reads this
      ensures |q| == |queue| && forall i :: 0 <= i < |q| ==> q[i] == queue[i]
    {
      queue
    }

    /** `getVolume`, when no live audio resource answers: the recorded
        volume as a rounded percentage. */
    function GetVolume(): (percent: int)
      reads this
      ensures volume * 100.0 - 0.5 < percent as real <= volume * 100.0 + 0.5
      ensures 0.0 <= volume <= 2.0 ==> 0 <= percent <= 200
    {
      Round(volume * 100.0)
    }

    function IsPlaying(): (b: bool)
      reads this
      ensures b <==> playing
    {
      playing
    }

    function IsLoopQueue(): (b: bool)
      reads this
      ensures b <==> loopQueue
    {
      loopQueue
    }

    function IsLoopTrack(): (b: bool)
      reads this
      ensures b <==> loopTrack
    {
      loopTrack
    }
  }
}
