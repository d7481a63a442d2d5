/**
  The cross-thread handoff: completing tasks post to one reference-counted completion queue while
  the consumer pops, reads and frees tasks and the creator drops its reference.

  Each step is one lock section or one atomic operation, and any interleaving is allowed; tasks may
  even complete concurrently with each other. Touching a freed task or a deleted queue is the error.
 */
module Handoff {
  import opened Common

  /** How far `Task::Complete` has got. Up to `Woken` the task holds a reference to the queue. */
  datatype Stage =
    | Submitted         // allocated, reference taken, not completed yet
    | Cached(arg: int)  // Complete(arg) called, queue pointer read from the task
    | Done              // result stored under the task lock
    | Signalled         // the task's own condition variable notified
    | Posted            // pushed under the queue lock
    | Woken             // the queue's condition variable notified
    | Dropping          // the decrement found the last reference: about to delete the queue
    | Released

  datatype Task = Task(stage: Stage, result: Option<int>, popped: bool, freed: bool)

  datatype Creator = Holding | Deleting | Gone

  /**
    Tasks are named by submission order; `deletes` counts deletions of the queue object. `posts`, `pops`
    and `taken` record the tasks posted and popped and what the consumer read, in order.
   */
  datatype State = State(tasks: seq<Task>, q: seq<nat>, refs: int, creator: Creator, deletes: nat,
                         posts: seq<nat>, pops: seq<nat>, taken: seq<(nat, int)>)

  datatype Step =
    | Submit                 // new task on the queue (Retain)
    | Call(t: nat, r: int)   // Complete(r) is called on task t and reads the queue pointer
    | Advance(t: nat)        // next step of Complete on task t
    | Pop                    // WaitOne or TryPop under the queue lock
    | Read(t: nat)           // consumer reads the result of a popped task
    | Free(t: nat)           // consumer deletes a popped task
    | Release                // creator drops its reference
    | Delete                 // creator deletes the queue, having dropped the last reference

  const INIT := State([], [], 1, Holding, 0, [], [], [])

  predicate Enabled(s: State, e: Step) {
    match e
    case Submit => s.creator.Holding?
    case Call(t, _) => t < |s.tasks| && s.tasks[t].stage.Submitted?
    case Advance(t) => t < |s.tasks| && !s.tasks[t].stage.Submitted? && !s.tasks[t].stage.Released?
    case Pop => s.creator.Holding? && s.q != [] && s.q[0] < |s.tasks|
    case Read(t) => t < |s.tasks| && s.tasks[t].popped && !s.tasks[t].freed
    case Free(t) => t < |s.tasks| && s.tasks[t].popped && !s.tasks[t].freed
    case Release => s.creator.Holding?
    case Delete => s.creator.Deleting?
  }

  /** The task object a step dereferences. */
  function TouchesTask(s: State, e: Step): Option<nat> {
    match e
    case Call(t, _) => Some(t)
    case Advance(t) => if t < |s.tasks| && (s.tasks[t].stage.Cached? || s.tasks[t].stage.Done?) then Some(t) else None
    case Read(t) => Some(t)
    case Free(t) => Some(t)
    case _ => None
  }

  /** Whether a step dereferences the queue object. */
  predicate TouchesQueue(s: State, e: Step) {
    match e
    case Call(_, _) => false
    case Advance(t) => t < |s.tasks| && s.tasks[t].stage in {Signalled, Posted, Woken, Dropping}
    case Read(_) => false
    case Free(_) => false
    case _ => true
  }

  function AdvanceTask(s: State, t: nat): State
    requires t < |s.tasks| && !s.tasks[t].stage.Submitted? && !s.tasks[t].stage.Released?
  {
    var k := s.tasks[t];
    match k.stage
    case Cached(r) => s.(tasks := s.tasks[t := k.(stage := Done, result := Some(r))])
    case Done => s.(tasks := s.tasks[t := k.(stage := Signalled)])
    case Signalled => s.(tasks := s.tasks[t := k.(stage := Posted)], q := s.q + [t], posts := s.posts + [t])
    case Posted => s.(tasks := s.tasks[t := k.(stage := Woken)])
    case Woken => s.(tasks := s.tasks[t := k.(stage := if s.refs == 1 then Dropping else Released)], refs := s.refs - 1)
    case Dropping => s.(tasks := s.tasks[t := k.(stage := Released)], deletes := s.deletes + 1)
  }

  function Next(s: State, e: Step): State
    requires Enabled(s, e)
  {
    match e
    case Submit => s.(tasks := s.tasks + [Task(Submitted, None, false, false)], refs := s.refs + 1)
    case Call(t, r) => s.(tasks := s.tasks[t := s.tasks[t].(stage := Cached(r))])
    case Advance(t) => AdvanceTask(s, t)
    case Pop =>
      s.(q := s.q[1..], tasks := s.tasks[s.q[0] := s.tasks[s.q[0]].(popped := true)], pops := s.pops + [s.q[0]])
    case Read(t) =>
      if s.tasks[t].result.Some? then s.(taken := s.taken + [(t, s.tasks[t].result.value)]) else s
    case Free(t) => s.(tasks := s.tasks[t := s.tasks[t].(freed := true)])
    case Release => s.(creator := if s.refs == 1 then Deleting else Gone, refs := s.refs - 1)
    case Delete => s.(creator := Gone, deletes := s.deletes + 1)
  }

  /** The state after a run, or None when some step of it was not enabled. */
  function After(run: seq<Step>): Option<State> {
    if run == [] then Some(INIT) else
    var last := |run| - 1;
    match After(run[..last])
    case None => None
    case Some(s) => if Enabled(s, run[last]) then Some(Next(s, run[last])) else None
  }

  // --- Invariant ---------------------------------------------------------------------------------

  predicate Holds(k: Task) { !k.stage.Dropping? && !k.stage.Released? }

  predicate HasPosted(k: Task) { k.stage in {Posted, Woken, Dropping, Released} }

  /** Number of tasks that have not released their reference. */
  function Holders(tasks: seq<Task>): nat {
    if tasks == [] then 0
    else Holders(tasks[..|tasks| - 1]) + (if Holds(tasks[|tasks| - 1]) then 1 else 0)
  }

  function Droppers(tasks: seq<Task>): nat {
    if tasks == [] then 0
    else Droppers(tasks[..|tasks| - 1]) + (if tasks[|tasks| - 1].stage.Dropping? then 1 else 0)
  }

  function One(b: bool): nat { if b then 1 else 0 }

  ghost predicate TaskOk(s: State, t: nat)
    requires t < |s.tasks|
  {
    var k := s.tasks[t];
    && (k.freed ==> k.popped)
    && (k.popped ==> HasPosted(k))
    && (k.result.Some? <==> !k.stage.Submitted? && !k.stage.Cached?)
    && (HasPosted(k) && !k.popped <==> t in s.q)
  }

  /**
    The count equals the creator's hold plus the tasks that have not released; whoever takes it to
    zero, and nobody else, is about to delete the queue or has done so.
   */
  ghost predicate Counted(s: State) {
    && s.refs == One(s.creator.Holding?) + Holders(s.tasks)
    && s.deletes + One(s.creator.Deleting?) + Droppers(s.tasks) == One(s.refs == 0)
  }

  ghost predicate Inv(s: State) {
    && Counted(s)
    && (forall t | 0 <= t < |s.tasks| :: TaskOk(s, t))
    && (forall i | 0 <= i < |s.q| :: s.q[i] < |s.tasks|)
    && (forall i, j | 0 <= i < j < |s.q| :: s.q[i] != s.q[j])
    && s.pops + s.q == s.posts
  }

  lemma {:induction false} CountUpdate(tasks: seq<Task>, t: nat, k: Task)
    requires t < |tasks|
    ensures Holders(tasks[t := k]) == Holders(tasks) - One(Holds(tasks[t])) + One(Holds(k))
    ensures Droppers(tasks[t := k]) == Droppers(tasks) - One(tasks[t].stage.Dropping?) + One(k.stage.Dropping?)
  {
    var last := |tasks| - 1;
    if t == last {
      assert tasks[t := k][..last] == tasks[..last];
    } else {
      assert tasks[t := k][..last] == tasks[..last][t := k];
      CountUpdate(tasks[..last], t, k);
    }
  }

  lemma {:induction false} CountAppend(tasks: seq<Task>, k: Task)
    ensures Holders(tasks + [k]) == Holders(tasks) + One(Holds(k))
    ensures Droppers(tasks + [k]) == Droppers(tasks) + One(k.stage.Dropping?)
  {
    assert (tasks + [k])[..|tasks|] == tasks;
  }

  /** A task that holds a reference keeps the count above zero; one about to delete shows in the sum. */
  lemma {:induction false} CountAt(tasks: seq<Task>, t: nat)
    requires t < |tasks|
    ensures Holds(tasks[t]) ==> Holders(tasks) > 0
    ensures tasks[t].stage.Dropping? ==> Droppers(tasks) > 0
  {
    if t < |tasks| - 1 {
      CountAt(tasks[..|tasks| - 1], t);
    }
  }

  lemma AdvanceCounts(s: State, t: nat)
    requires Counted(s) && Enabled(s, Advance(t))
    ensures Counted(AdvanceTask(s, t))
  {
    var s' := AdvanceTask(s, t);
    CountUpdate(s.tasks, t, s'.tasks[t]);
    CountAt(s.tasks, t);
    if s.tasks[t].stage.Woken? || s.tasks[t].stage.Dropping? {
      assert s'.tasks == s.tasks[t := s'.tasks[t]];
    } else {
      assert Holds(s'.tasks[t]) && Holders(s'.tasks) == Holders(s.tasks) && Droppers(s'.tasks) == Droppers(s.tasks);
    }
  }

  lemma AdvanceTasks(s: State, t: nat, t': nat)
    requires Enabled(s, Advance(t)) && t' < |s.tasks| && TaskOk(s, t) && TaskOk(s, t')
    ensures TaskOk(AdvanceTask(s, t), t')
  {
  }

  lemma CallKeeps(s: State, t: nat, r: int)
    requires Inv(s) && Enabled(s, Call(t, r))
    ensures Inv(Next(s, Call(t, r)))
  {
    CountUpdate(s.tasks, t, s.tasks[t].(stage := Cached(r)));
    forall t' | 0 <= t' < |s.tasks| ensures TaskOk(Next(s, Call(t, r)), t') {
      assert TaskOk(s, t');
    }
  }

  lemma AdvanceKeeps(s: State, t: nat)
    requires Inv(s) && Enabled(s, Advance(t))
    ensures Inv(AdvanceTask(s, t))
  {
    AdvanceCounts(s, t);
    assert TaskOk(s, t);
    forall t' | 0 <= t' < |s.tasks| ensures TaskOk(AdvanceTask(s, t), t') {
      AdvanceTasks(s, t, t');
    }
  }

  lemma PopKeeps(s: State)
    requires Inv(s) && Enabled(s, Pop)
    ensures Inv(Next(s, Pop))
  {
    var s', t := Next(s, Pop), s.q[0];
    CountUpdate(s.tasks, t, s'.tasks[t]);
    forall t' | 0 <= t' < |s.tasks| ensures TaskOk(s', t') {
      assert TaskOk(s, t');
      assert s.q == [t] + s'.q;
    }
  }

  lemma SubmitKeeps(s: State)
    requires Inv(s) && Enabled(s, Submit)
    ensures Inv(Next(s, Submit))
  {
    CountAppend(s.tasks, Task(Submitted, None, false, false));
    forall t | 0 <= t < |s.tasks| + 1 ensures TaskOk(Next(s, Submit), t) {
      assert t < |s.tasks| ==> TaskOk(s, t);
    }
  }

  lemma ReadKeeps(s: State, t: nat)
    requires Inv(s) && Enabled(s, Read(t))
    ensures Inv(Next(s, Read(t)))
  {
    forall t' | 0 <= t' < |s.tasks| ensures TaskOk(Next(s, Read(t)), t') {
      assert TaskOk(s, t');
    }
  }

  lemma FreeKeeps(s: State, t: nat)
    requires Inv(s) && Enabled(s, Free(t))
    ensures Inv(Next(s, Free(t)))
  {
    CountUpdate(s.tasks, t, s.tasks[t].(freed := true));
    forall t' | 0 <= t' < |s.tasks| ensures TaskOk(Next(s, Free(t)), t') {
      assert TaskOk(s, t');
    }
  }

  lemma CreatorKeeps(s: State, e: Step)
    requires Inv(s) && Enabled(s, e) && (e.Release? || e.Delete?)
    ensures Inv(Next(s, e))
  {
    forall t | 0 <= t < |s.tasks| ensures TaskOk(Next(s, e), t) {
      assert TaskOk(s, t);
    }
  }

  lemma NextKeeps(s: State, e: Step)
    requires Inv(s) && Enabled(s, e)
    ensures Inv(Next(s, e))
  {
    match e
    case Submit => SubmitKeeps(s);
    case Call(t, r) => CallKeeps(s, t, r);
    case Advance(t) => AdvanceKeeps(s, t);
    case Pop => PopKeeps(s);
    case Read(t) => ReadKeeps(s, t);
    case Free(t) => FreeKeeps(s, t);
    case Release => CreatorKeeps(s, e);
    case Delete => CreatorKeeps(s, e);
  }

  lemma FirstKeeps(s: State)
    requires |s.tasks| == |s.q| == |s.posts| == |s.pops| == 0 && s.refs == 1 && s.creator.Holding? && s.deletes == 0
    ensures Inv(s)
  {
  }

  lemma {:induction false} RunKeeps(run: seq<Step>)
    requires After(run).Some?
    ensures Inv(After(run).value)
    decreases |run|
  {
    if run == [] {
      FirstKeeps(INIT);
    } else {
      var init, e := run[..|run| - 1], run[|run| - 1];
      RunKeeps(init);
      NextKeeps(After(init).value, e);
    }
  }

  // --- Theorems ----------------------------------------------------------------------------------

  /** Under every interleaving no step touches a freed task or a deleted queue. */
  lemma {:induction false} NoUseAfterFree(run: seq<Step>, e: Step)
    requires After(run).Some? && Enabled(After(run).value, e)
    ensures var s := After(run).value;
            && (TouchesTask(s, e).Some? ==> !s.tasks[TouchesTask(s, e).value].freed)
            && (TouchesQueue(s, e) ==> s.deletes == 0)
  {
    var s := After(run).value;
    RunKeeps(run);
    if e.Call? || e.Advance? {
      assert TaskOk(s, e.t);
      CountAt(s.tasks, e.t);
    }
  }

  /**
    The reference count is the creator's hold plus the tasks not yet released; the queue is deleted
    at most once, never while that sum is positive, and once everyone is finished it has been deleted.
   */
  lemma {:induction false} DeletedExactlyOnce(run: seq<Step>)
    requires After(run).Some?
    ensures var s := After(run).value;
            && s.refs == One(s.creator.Holding?) + Holders(s.tasks)
            && s.deletes <= 1
            && (s.deletes == 1 ==> s.refs == 0)
            && (s.creator.Gone? && (forall t | 0 <= t < |s.tasks| :: s.tasks[t].stage.Released?) ==> s.deletes == 1)
  {
    var s := After(run).value;
    RunKeeps(run);
    if forall t | 0 <= t < |s.tasks| :: s.tasks[t].stage.Released? {
      AllReleased(s.tasks);
    }
  }

  lemma {:induction false} AllReleased(tasks: seq<Task>)
    requires forall t | 0 <= t < |tasks| :: tasks[t].stage.Released?
    ensures Holders(tasks) == 0 && Droppers(tasks) == 0
  {
    if tasks != [] {
      AllReleased(tasks[..|tasks| - 1]);
    }
  }

  /** Tasks are popped in the order they were posted, and a posted task is in the queue until it is popped. */
  lemma {:induction false} NothingLost(run: seq<Step>, t: nat)
    requires After(run).Some? && t < |After(run).value.tasks|
    ensures var s := After(run).value;
            && s.pops + s.q == s.posts
            && (s.tasks[t].popped ==> s.tasks[t].result.Some?)
            && (HasPosted(s.tasks[t]) && !s.tasks[t].popped <==> t in s.q)
  {
    RunKeeps(run);
    assert TaskOk(After(run).value, t);
  }

  // --- Results -----------------------------------------------------------------------------------

  /** Whatever stands for a result of task `t` comes from a call of `Complete` on it. */
  ghost predicate FromCall(run: seq<Step>, s: State, t: nat)
    requires t < |s.tasks|
  {
    && (s.tasks[t].stage.Cached? ==> Call(t, s.tasks[t].stage.arg) in run)
    && (s.tasks[t].result.Some? ==> Call(t, s.tasks[t].result.value) in run)
    && (s.tasks[t].stage.Submitted? ==> forall r :: Call(t, r) !in run)
  }

  ghost predicate Called(run: seq<Step>, s: State) {
    && (forall t | 0 <= t < |s.tasks| :: FromCall(run, s, t))
    && (forall t: nat, r | Call(t, r) in run :: t < |s.tasks|)
    && (forall i | 0 <= i < |s.taken| :: Call(s.taken[i].0, s.taken[i].1) in run)
  }

  lemma CalledStep(run: seq<Step>, s: State, e: Step, t: nat)
    requires Called(run, s) && Enabled(s, e) && t < |Next(s, e).tasks|
    ensures FromCall(run + [e], Next(s, e), t)
  {
    if t < |s.tasks| {
      assert FromCall(run, s, t);
    }
  }

  lemma {:induction false} RunCalled(run: seq<Step>)
    requires After(run).Some?
    ensures Called(run, After(run).value)
    decreases |run|
  {
    if run != [] {
      var init, e := run[..|run| - 1], run[|run| - 1];
      var s := After(init).value;
      RunCalled(init);
      assert run == init + [e];
      forall t | 0 <= t < |Next(s, e).tasks| ensures FromCall(run, Next(s, e), t) {
        CalledStep(init, s, e, t);
      }
      if e.Read? {
        assert FromCall(init, s, e.t);
      }
    }
  }

  /** `Complete` is called once on a task. */
  lemma {:induction false} CalledOnce(run: seq<Step>, t: nat, r: int, r': int)
    requires After(run).Some? && Call(t, r) in run && Call(t, r') in run
    ensures r == r'
    decreases |run|
  {
    var init, e := run[..|run| - 1], run[|run| - 1];
    assert run == init + [e];
    RunCalled(init);
    if e.Call? && e.t == t {
      assert FromCall(init, After(init).value, t);
    } else {
      CalledOnce(init, t, r, r');
    }
  }

  /**
    Under every interleaving the result of a completed task is the argument of the one call of `Complete`
    on it, and that is what the consumer reads: `Complete` has stored it before the task can be popped.
   */
  lemma {:induction false} OwnResult(run: seq<Step>, t: nat)
    requires After(run).Some? && t < |After(run).value.tasks| && After(run).value.tasks[t].popped
    ensures var s := After(run).value;
            && s.tasks[t].result.Some?
            && forall r :: Call(t, r) in run <==> s.tasks[t].result == Some(r)
  {
    var s := After(run).value;
    RunKeeps(run);
    assert TaskOk(s, t);
    RunCalled(run);
    assert FromCall(run, s, t);
    forall r | Call(t, r) in run ensures s.tasks[t].result == Some(r) {
      CalledOnce(run, t, r, s.tasks[t].result.value);
    }
  }

  /** The consumer reads what its own task was completed with, once for each read. */
  lemma {:induction false} ReadsOwnResult(run: seq<Step>, i: nat)
    requires After(run).Some? && i < |After(run).value.taken|
    ensures var (t, v) := After(run).value.taken[i]; Call(t, v) in run && forall r | Call(t, r) in run :: r == v
  {
    RunCalled(run);
    var (t, v) := After(run).value.taken[i];
    forall r | Call(t, r) in run ensures r == v {
      CalledOnce(run, t, r, v);
    }
  }

  /** The reads of a run, as the consumer asked for them. */
  function Asked(run: seq<Step>): seq<nat> {
    if run == [] then []
    else Asked(run[..|run| - 1]) + if run[|run| - 1].Read? then [run[|run| - 1].t] else []
  }

  /** Every read of a popped task returns a value. */
  lemma {:induction false} EveryReadReturns(run: seq<Step>)
    requires After(run).Some?
    ensures var s := After(run).value;
            |s.taken| == |Asked(run)| && forall i | 0 <= i < |s.taken| :: s.taken[i].0 == Asked(run)[i]
    decreases |run|
  {
    if run != [] {
      var init, e := run[..|run| - 1], run[|run| - 1];
      EveryReadReturns(init);
      RunKeeps(init);
      if e.Read? {
        assert TaskOk(After(init).value, e.t);
      }
    }
  }
}
