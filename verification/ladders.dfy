/** The per-file state machines behind the MP3 paths of the audio manager.
    Each `new Audio(url)` of the source has closure variables and one-shot
    listeners; here they are a state value and a step function per event.
    The outcome of a step tells the manager what the listener does to the
    shared queue: move on to the next file, release the speaking flag, or
    push a playback task. */
module Ladders {

  /** The closure variables of one character attempt in `tryPlayUrl`:
      `finishedOrFailed`, `retried`, and whether the 1200 ms timer is still
      pending. */
  datatype AttemptState = AttemptState(finishedOrFailed: bool, retried: bool, timerArmed: bool)

  /** A freshly created attempt: its timer starts with the element. */
  const FreshAttempt := AttemptState(false, false, true)

  datatype ClipEvent =
    | Timeout         // the 1200 ms timer fires
    | Stalled | Abort | LoadError
    | CanPlayThrough
    | PlayResolved    // the promise of `audio.play()` resolves
    | PlayRejected    // the promise of `audio.play()` rejects
    | Ended

  /** Stay: only the closure variables change. Advance: `failAndNext` runs,
      which tries the next URL, clears the flag and processes the queue.
      Finished: the `ended` listener clears the flag and processes. */
  datatype Outcome = Stay | Advance | Finished

  /** `failAndNext`: effective only the first time. */
  function Fail(s: AttemptState): (AttemptState, Outcome) {
    if s.finishedOrFailed then (s, Stay) else (s.(finishedOrFailed := true), Advance)
  }

  function StepAttempt(s: AttemptState, e: ClipEvent): (r: (AttemptState, Outcome))
    ensures r.1 == Advance ==> !s.finishedOrFailed && r.0.finishedOrFailed
    ensures r.1 == Finished ==> !s.finishedOrFailed && e == Ended
    ensures s.finishedOrFailed ==> r.0.finishedOrFailed
    ensures r.0.finishedOrFailed && !s.finishedOrFailed ==> r.1 == Advance
  {
    match e
    case Timeout =>
      if s.timerArmed then Fail(s.(timerArmed := false)) else (s, Stay)
    case Stalled => Fail(s)
    case Abort => Fail(s)
    case LoadError => Fail(s)
    case CanPlayThrough => (s.(timerArmed := false), Stay)
    case PlayResolved => (s.(timerArmed := false), Stay)
    case PlayRejected =>
      // the first rejection schedules a reload and one more `play()`
      if !s.retried then (s.(retried := true), Stay) else Fail(s)
    case Ended =>
      if s.finishedOrFailed then (s, Stay) else (s, Finished)
  }

  datatype AttemptTrace = AttemptTrace(final: AttemptState, outcomes: seq<Outcome>)

  function RunAttempt(s: AttemptState, es: seq<ClipEvent>): (t: AttemptTrace)
    ensures |t.outcomes| == |es|
    decreases |es|
  {
    if es == [] then AttemptTrace(s, [])
    else
      var r := StepAttempt(s, es[0]);
      var rest := RunAttempt(r.0, es[1..]);
      AttemptTrace(rest.final, [r.1] + rest.outcomes)
  }

  function CountOutcome(os: seq<Outcome>, o: Outcome): nat
    decreases |os|
  {
    if os == [] then 0 else (if os[0] == o then 1 else 0) + CountOutcome(os[1..], o)
  }

  /** Whatever events arrive, in whatever order and however often, one
      attempt moves on to the next URL at most once, and exactly when it ends
      up failed. */
  lemma {:induction false} AttemptAdvancesAtMostOnce(s: AttemptState, es: seq<ClipEvent>)
    ensures CountOutcome(RunAttempt(s, es).outcomes, Advance) <= (if s.finishedOrFailed then 0 else 1)
    ensures RunAttempt(s, es).final.finishedOrFailed
            <==> s.finishedOrFailed || CountOutcome(RunAttempt(s, es).outcomes, Advance) == 1
    decreases |es|
  {
    if es != [] {
      var r := StepAttempt(s, es[0]);
      AttemptAdvancesAtMostOnce(r.0, es[1..]);
    }
  }

  /** After a failure the `ended` listener is inert: a failed attempt never
      clears the flag by finishing. */
  lemma {:induction false} NoFinishAfterFailure(s: AttemptState, es: seq<ClipEvent>)
    requires s.finishedOrFailed
    ensures CountOutcome(RunAttempt(s, es).outcomes, Finished) == 0
    ensures CountOutcome(RunAttempt(s, es).outcomes, Advance) == 0
    decreases |es|
  {
    if es != [] {
      var r := StepAttempt(s, es[0]);
      NoFinishAfterFailure(r.0, es[1..]);
    }
  }

  /** One rejected `play()` is retried; the second rejection fails the attempt. */
  lemma SecondRejectionFails()
    ensures RunAttempt(FreshAttempt, [PlayRejected]).outcomes == [Stay]
    ensures RunAttempt(FreshAttempt, [PlayRejected, PlayRejected]).outcomes == [Stay, Advance]
  {
    var s1 := StepAttempt(FreshAttempt, PlayRejected).0;
    assert s1.retried && !s1.finishedOrFailed;
    assert [PlayRejected, PlayRejected][1..] == [PlayRejected];
  }

  /** Once the element can play through, or `play()` has resolved, the timer
      no longer fails the attempt. */
  lemma TimerClearedBy(s: AttemptState, e: ClipEvent)
    requires e == CanPlayThrough || e == PlayResolved
    ensures StepAttempt(StepAttempt(s, e).0, Timeout).1 == Stay
  {
  }

  /** The closure variables of one praise or encouragement fallback file
      (`done`) and which of its one-shot listeners have fired. */
  datatype FallbackState = FallbackState(done: bool, canPlaySeen: bool, errorSeen: bool, endedSeen: bool)

  const FreshFallback := FallbackState(false, false, false, false)

  datatype FallbackEvent = FCanPlay | FError | FPlayRejected | FEnded

  /** What a listener does to the manager: push a playback task and process,
      try the next file, and clear the flag and process. */
  datatype Effects = Effects(enqueue: bool, advance: bool, release: bool)

  const NoEffect := Effects(false, false, false)

  /** `fail` of the fallback ladder: effective only the first time. */
  function FallbackFail(s: FallbackState): (FallbackState, bool) {
    if s.done then (s, false) else (s.(done := true), true)
  }

  function StepFallback(s: FallbackState, e: FallbackEvent): (r: (FallbackState, Effects))
    ensures r.1.advance ==> !s.done && r.0.done
    ensures r.1.enqueue ==> !s.canPlaySeen && r.0.canPlaySeen
    ensures s.done ==> r.0.done
    ensures s.canPlaySeen ==> r.0.canPlaySeen
    ensures r.0.done && !s.done ==> r.1.advance
    ensures r.0.canPlaySeen && !s.canPlaySeen ==> r.1.enqueue
  {
    match e
    case FCanPlay =>
      if s.canPlaySeen then (s, NoEffect)
      else (s.(canPlaySeen := true), Effects(true, false, false))
    case FError =>
      if s.errorSeen then (s, NoEffect)
      else
        var f := FallbackFail(s.(errorSeen := true));
        (f.0, Effects(false, f.1, false))
    case FPlayRejected =>
      var f := FallbackFail(s);
      (f.0, Effects(false, f.1, true))
    case FEnded =>
      if s.endedSeen then (s, NoEffect)
      else (s.(endedSeen := true), Effects(false, false, true))
  }

  datatype FallbackTrace = FallbackTrace(final: FallbackState, effects: seq<Effects>)

  function RunFallback(s: FallbackState, es: seq<FallbackEvent>): (t: FallbackTrace)
    ensures |t.effects| == |es|
    decreases |es|
  {
    if es == [] then FallbackTrace(s, [])
    else
      var r := StepFallback(s, es[0]);
      var rest := RunFallback(r.0, es[1..]);
      FallbackTrace(rest.final, [r.1] + rest.effects)
  }

  function Advances(fx: seq<Effects>): nat
    decreases |fx|
  {
    if fx == [] then 0 else (if fx[0].advance then 1 else 0) + Advances(fx[1..])
  }

  function Enqueues(fx: seq<Effects>): nat
    decreases |fx|
  {
    if fx == [] then 0 else (if fx[0].enqueue then 1 else 0) + Enqueues(fx[1..])
  }

  /** A fallback file pushes at most one playback task and hands over to the
      next file at most once, whatever events arrive. */
  lemma {:induction false} FallbackAtMostOnce(s: FallbackState, es: seq<FallbackEvent>)
    ensures Advances(RunFallback(s, es).effects) <= (if s.done then 0 else 1)
    ensures Enqueues(RunFallback(s, es).effects) <= (if s.canPlaySeen then 0 else 1)
    ensures RunFallback(s, es).final.done <==> s.done || Advances(RunFallback(s, es).effects) == 1
    decreases |es|
  {
    if es != [] {
      var r := StepFallback(s, es[0]);
      FallbackAtMostOnce(r.0, es[1..]);
    }
  }

  /** A file that loaded and was queued can still fail over to the next file,
      which then loads and queues too: two files of the same praise end up
      queued. */
  lemma LoadedFileCanStillAdvance()
    ensures var t := RunFallback(FreshFallback, [FCanPlay, FError]);
            t.effects == [Effects(true, false, false), Effects(false, true, false)]
  {
    var s1 := StepFallback(FreshFallback, FCanPlay).0;
    assert [FCanPlay, FError][1..] == [FError];
    assert StepFallback(s1, FError).1 == Effects(false, true, false);
  }
}
