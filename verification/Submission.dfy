/**
  The submission queue between Scheme threads and the loop thread, at the granularity of its lock
  sections and of the wakeup. `uv_async_send` only sets a flag, so many sends may lead to one callback;
  the loop clears the flag before it runs the callback, and the callback swaps the whole queue out.
 */
module Submission {
  import opened Common

  type TaskId = nat

  /** `Entered`: the flag is cleared and the swap has not happened yet. */
  datatype LoopAt = Waiting | Entered | Draining

  /**
    `submitted` and `dispatched` record the tasks in the order they were pushed and dispatched;
    `sending` counts the producers that have pushed and not yet called uv_async_send.
   */
  datatype State = State(submitted: seq<TaskId>, queue: seq<TaskId>, sending: nat, wakeup: bool,
                         at: LoopAt, local: seq<TaskId>, dispatched: seq<TaskId>)

  const INIT := State([], [], 0, false, Waiting, [], [])

  datatype Step =
    | Push(t: TaskId)   // Submit: the lock section
    | Send              // Submit: uv_async_send
    | Wake              // the loop clears the flag and enters OnAsync
    | Swap              // Drain: the lock section
    | Dispatch          // Drain: one turn of the loop over the batch
    | Return            // Drain: the batch is done

  predicate Enabled(s: State, e: Step) {
    match e
    case Push(_) => true
    case Send => s.sending > 0
    case Wake => s.at.Waiting? && s.wakeup
    case Swap => s.at.Entered?
    case Dispatch => s.at.Draining? && s.local != []
    case Return => s.at.Draining? && s.local == []
  }

  function Next(s: State, e: Step): State
    requires Enabled(s, e)
  {
    match e
    case Push(t) => s.(submitted := s.submitted + [t], queue := s.queue + [t], sending := s.sending + 1)
    case Send => s.(sending := s.sending - 1, wakeup := true)
    case Wake => s.(wakeup := false, at := Entered)
    case Swap => s.(queue := [], local := s.queue, at := Draining)
    case Dispatch => s.(local := s.local[1..], dispatched := s.dispatched + [s.local[0]])
    case Return => s.(at := Waiting)
  }

  /** The state after a run of steps from `s`, or None when some step was not enabled. */
  function After(s: State, run: seq<Step>): Option<State>
    decreases |run|
  {
    if run == [] then Some(s)
    else if !Enabled(s, run[0]) then None
    else After(Next(s, run[0]), run[1..])
  }

  /** Nothing is lost, duplicated or reordered, and a queued task always has a wakeup on its way. */
  predicate Inv(s: State) {
    && s.dispatched + s.local + s.queue == s.submitted
    && (s.queue != [] ==> s.wakeup || s.sending > 0 || s.at.Entered?)
    && (!s.at.Draining? ==> s.local == [])
  }

  lemma StepKeeps(s: State, e: Step)
    requires Inv(s) && Enabled(s, e)
    ensures Inv(Next(s, e))
  {
    match e
    case Push(t) =>
      assert s.dispatched + s.local + (s.queue + [t]) == s.dispatched + s.local + s.queue + [t];
    case Swap =>
      assert s.dispatched + s.queue + [] == s.dispatched + s.local + s.queue;
    case Dispatch =>
      assert s.dispatched + [s.local[0]] + s.local[1..] + s.queue == s.dispatched + s.local + s.queue;
    case _ =>
  }

  /** Over every interleaving of producers and loop, from any state that is in order. */
  lemma {:induction false} RunKeeps(s: State, run: seq<Step>)
    requires Inv(s) && After(s, run).Some?
    ensures Inv(After(s, run).value)
    decreases |run|
  {
    if run != [] {
      StepKeeps(s, run[0]);
      RunKeeps(Next(s, run[0]), run[1..]);
    }
  }

  /** The tasks pushed in a run, in order. */
  function Pushed(run: seq<Step>): seq<TaskId> {
    if run == [] then [] else (if run[0].Push? then [run[0].t] else []) + Pushed(run[1..])
  }

  lemma {:induction false} SubmittedIsPushed(s: State, run: seq<Step>)
    requires After(s, run).Some?
    ensures After(s, run).value.submitted == s.submitted + Pushed(run)
    decreases |run|
  {
    if run != [] {
      SubmittedIsPushed(Next(s, run[0]), run[1..]);
    }
  }

  /** In every reachable state: dispatched, rest of the batch and shared queue are the tasks pushed, in order. */
  lemma {:induction false} InOrder(run: seq<Step>)
    requires After(INIT, run).Some?
    ensures var s := After(INIT, run).value; s.dispatched + s.local + s.queue == Pushed(run)
    ensures var s := After(INIT, run).value; s.queue != [] ==> s.wakeup || s.sending > 0 || s.at.Entered?
  {
    RunKeeps(INIT, run);
    SubmittedIsPushed(INIT, run);
  }

  // --- No wakeup is lost ---------------------------------------------------------------------------

  /** Nothing can happen any more unless somebody submits. */
  ghost predicate Idle(s: State) { forall e | Enabled(s, e) :: e.Push? }

  /** When everything has come to rest, every submitted task has been dispatched. */
  lemma {:induction false} IdleIsDrained(run: seq<Step>)
    requires After(INIT, run).Some? && Idle(After(INIT, run).value)
    ensures After(INIT, run).value.dispatched == Pushed(run)
  {
    InOrder(run);
    RunKeeps(INIT, run);
    var s := After(INIT, run).value;
    assert !Enabled(s, Send) && !Enabled(s, Wake) && !Enabled(s, Swap) && !Enabled(s, Dispatch) && !Enabled(s, Return);
  }

  /** Work left: every step but a push brings it down. */
  function Work(s: State): nat {
    4 * s.sending + (if s.wakeup then 3 else 0) + (match s.at case Waiting => 0 case Entered => 2 case Draining => 1)
    + |s.local| + |s.queue|
  }

  lemma {:induction false} QuietRunsEnd(s: State, run: seq<Step>)
    requires Inv(s) && After(s, run).Some? && Pushed(run) == []
    ensures |run| + Work(After(s, run).value) <= Work(s)
    decreases |run|
  {
    if run != [] {
      StepKeeps(s, run[0]);
      QuietRunsEnd(Next(s, run[0]), run[1..]);
    }
  }

  /** From every state the steps already due, in whatever order, dispatch all that was submitted. */
  lemma {:induction false} Drains(s: State) returns (rest: seq<Step>)
    requires Inv(s)
    ensures Pushed(rest) == [] && |rest| <= Work(s) && After(s, rest).Some?
    ensures Idle(After(s, rest).value) && After(s, rest).value.dispatched == s.submitted
    decreases Work(s)
  {
    if Idle(s) {
      assert !Enabled(s, Send) && !Enabled(s, Wake) && !Enabled(s, Swap) && !Enabled(s, Dispatch)
        && !Enabled(s, Return);
      rest := [];
    } else {
      var e :| Enabled(s, e) && !e.Push?;
      StepKeeps(s, e);
      var tail := Drains(Next(s, e));
      rest := [e] + tail;
      assert rest[1..] == tail;
    }
  }
}
