/** The speech queue of the audio manager as a value: the `isSpeaking` flag
    and the pending tasks. In the source each task is a closure; here it is a
    `Task` naming what the closure does when `processSpeechQueue` runs it. */
module Scheduler {
  import opened Wrappers

  datatype Task =
    | ClipTask(attempt: nat)            // play one MP3 attempt of a character
    | SpeakCharacter(text: string)      // `speakNow`
    | SpeakPraise(text: string)         // `speakPraiseNow`
    | SpeakEncouragement(text: string)  // `speakEncouragementNow`
    | FallbackClipTask(load: nat)       // play a praise or encouragement MP3

  datatype QueueState = QueueState(busy: bool, pending: seq<Task>)

  datatype Stepped = Stepped(next: QueueState, started: Option<Task>)

  /** `processSpeechQueue`: when the flag is clear and a task waits, set the
      flag and start the oldest task; otherwise do nothing. */
  function Process(q: QueueState): (r: Stepped)
    ensures r.started.None? <==> q.busy || q.pending == []
    ensures r.started.None? ==> r.next == q
    ensures r.started.Some? ==> r.next.busy && [r.started.value] + r.next.pending == q.pending
  {
    if q.busy || q.pending == [] then Stepped(q, None)
    else Stepped(QueueState(true, q.pending[1..]), Some(q.pending[0]))
  }

  /** `speechQueue.push(task)`. */
  function Push(q: QueueState, t: Task): QueueState {
    q.(pending := q.pending + [t])
  }

  /** `isSpeaking = false`. */
  function Release(q: QueueState): QueueState {
    q.(busy := false)
  }

  /** The queue part of `stopAll`. */
  function Clear(q: QueueState): QueueState {
    QueueState(false, [])
  }

  /** Tasks never wait while the flag is clear. Push-then-process and
      release-then-process restore this; a release without a process (the end
      of an utterance, before its 100 ms re-processing) may break it. */
  predicate Settled(q: QueueState) {
    q.busy || q.pending == []
  }

  /** Push followed by process, and release followed by process, both leave a
      settled queue. */
  lemma ProcessSettles(q: QueueState, t: Task)
    requires Settled(q)
    ensures Settled(Process(Push(q, t)).next)
    ensures Settled(Process(Release(q)).next)
    ensures Settled(Process(q).next)
  {
  }

  /** One step of the queue's life: a task pushed, a `processSpeechQueue`
      call, or the end (or failure) of whatever holds the flag. */
  datatype Op = Enqueue(t: Task) | Drain | Finish

  datatype Trace = Trace(final: QueueState, started: seq<Task>)

  /** The effect of one operation. */
  function Step(q: QueueState, op: Op): Stepped {
    match op
    case Enqueue(t) => Stepped(Push(q, t), None)
    case Drain => Process(q)
    case Finish => Stepped(Release(q), None)
  }

  function Run(q: QueueState, ops: seq<Op>): Trace
    decreases |ops|
  {
    if ops == [] then Trace(q, [])
    else
      var s := Step(q, ops[0]);
      var rest := Run(s.next, ops[1..]);
      Trace(rest.final, ToSeq(s.started) + rest.started)
  }

  function Enqueued(ops: seq<Op>): seq<Task>
    decreases |ops|
  {
    if ops == [] then []
    else (if ops[0].Enqueue? then [ops[0].t] else []) + Enqueued(ops[1..])
  }

  function Finishes(ops: seq<Op>): nat
    decreases |ops|
  {
    if ops == [] then 0 else (if ops[0].Finish? then 1 else 0) + Finishes(ops[1..])
  }

  /** The queue is first-in first-out and loses nothing: over any sequence of
      operations, the started tasks followed by those still waiting are the
      tasks that were waiting followed by those pushed, in order. */
  lemma {:induction false} RunIsFifo(q: QueueState, ops: seq<Op>)
    ensures Run(q, ops).started + Run(q, ops).final.pending == q.pending + Enqueued(ops)
    decreases |ops|
  {
    if ops != [] {
      var s := Step(q, ops[0]);
      var rest := Run(s.next, ops[1..]);
      var pushed := if ops[0].Enqueue? then [ops[0].t] else [];
      assert rest.started + rest.final.pending == s.next.pending + Enqueued(ops[1..]) by {
        RunIsFifo(s.next, ops[1..]);
      }
      assert ToSeq(s.started) + s.next.pending == q.pending + pushed by {
        StepIsFifo(q, ops[0]);
      }
      assert Enqueued(ops) == pushed + Enqueued(ops[1..]);
      Regroup(ToSeq(s.started), s.next.pending, Enqueued(ops[1..]), q.pending, pushed);
    }
  }

  /** Moving the boundary between two concatenated parts. */
  lemma Regroup<T>(a: seq<T>, b: seq<T>, c: seq<T>, x: seq<T>, y: seq<T>)
    requires a + b == x + y
    ensures a + (b + c) == x + (y + c)
  {
    assert a + (b + c) == (a + b) + c;
    assert x + (y + c) == (x + y) + c;
  }

  /** One operation neither loses nor reorders tasks. */
  lemma StepIsFifo(q: QueueState, op: Op)
    ensures ToSeq(Step(q, op).started) + Step(q, op).next.pending
            == q.pending + (if op.Enqueue? then [op.t] else [])
  {
  }

  /** The flag serialises the queue: a task starts only when the flag is clear,
      so the number of tasks started never exceeds one more than the number of
      releases (none more when the flag is already set). */
  lemma {:induction false} StartsBoundedByReleases(q: QueueState, ops: seq<Op>)
    ensures |Run(q, ops).started| <= Finishes(ops) + (if q.busy then 0 else 1)
    decreases |ops|
  {
    if ops != [] {
      StartsBoundedByReleases(Step(q, ops[0]).next, ops[1..]);
    }
  }

  /** After `stopAll` nothing starts until something is pushed again. */
  lemma {:induction false} ClearedStaysIdle(q: QueueState, ops: seq<Op>)
    requires forall k | 0 <= k < |ops| :: !ops[k].Enqueue?
    ensures Run(Clear(q), ops).started == []
    ensures Run(Clear(q), ops).final.pending == []
    decreases |ops|
  {
    if ops != [] {
      var c := Clear(q);
      assert Step(c, ops[0]).next == c;
      ClearedStaysIdle(q, ops[1..]);
    }
  }
}
