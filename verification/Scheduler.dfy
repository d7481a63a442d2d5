/**
  The scheduler object: a reversed ready list, two tables keyed by task handle, and the future
  records, updated in place. Every method is proved against the state machine; `RunAsync` then
  inherits its theorems: for every allocator and every arrival order it terminates and answers what
  the reference evaluator answers.
 */
module Scheduler {
  import opened Common
  import opened Fibers
  import opened Families
  import opened DirectStyle
  import opened SchedulerSpec
  import opened SchedulerInvariant
  import opened SchedulerSteps
  import opened SchedulerTheorems

  function Reverse<T>(s: seq<T>): (r: seq<T>)
    ensures |r| == |s|
  {
    if s == [] then [] else Reverse(s[1..]) + [s[0]]
  }

  /** What the running fiber may rely on. */
  lemma {:induction false} RunningOk(oracle: int -> int, root: Prog, run: seq<Event>)
    requires After(oracle, root, run).Some? && After(oracle, root, run).value.running.Some?
    ensures var s := After(oracle, root, run).value;
            && s.running.value.fib < |s.futs|
            && forall i | 0 <= i < |s.running.value.frame.env| :: s.running.value.frame.env[i] < |s.futs|
  {
    var L := RunKeeps(oracle, root, run);
    var s := After(oracle, root, run).value;
    assert FiberOk(oracle, s, L, s.running.value.fib);
  }

  /** An awaited task is in flight and in-flight tasks are live, so the loop never blocks in vain. */
  lemma {:induction false} AwaitedInFlight(oracle: int -> int, root: Prog, run: seq<Event>)
    requires After(oracle, root, run).Some?
    ensures var s := After(oracle, root, run).value; s.waiters.Keys <= s.inflight <= s.live.Keys
  {
    HandleReuse(oracle, root, run);
  }

  /** How `run-async` ends. */
  datatype Result = Returned(v: int) | Raised(e: int) | Deadlocked

  /** The result is what the reference evaluator gives; a deadlock means that it gives nothing. */
  ghost predicate Answers(oracle: int -> int, root: Prog, res: Result) {
    match res
    case Returned(v) => exists refs :: Means(oracle, RootRef(root), Ok(v, refs))
    case Raised(e) => Means(oracle, RootRef(root), Err(e))
    case Deadlocked => Diverges(oracle, RootRef(root))
  }

  class Scheduler {
    var futs: seq<Fut>
    var ready: seq<Item>              // newest first
    var waiters: map<Handle, Wake>    // parked under a task handle
    var completed: map<Handle, int>   // results that arrived before their await
    var inflight: set<Handle>         // native side: submitted, not yet reaped
    var live: map<Handle, int>        // native side: allocated tasks and their operations
    const oracle: int -> int          // native side: the result of each operation

    ghost const root: Prog
    ghost var batch: seq<Item>        // rest of the batch being run
    ghost var running: Option<Wake>
    ghost var run: seq<Event>         // everything that has happened

    ghost function Abs(): State
      reads this
    {
      State(futs, batch + Reverse(ready), running, waiters, completed, inflight, live)
    }

    ghost predicate Valid()
      reads this
    {
      After(oracle, root, run) == Some(Abs())
    }

    /** A fresh scheduler with the root fiber enqueued. */
    constructor (oracle: int -> int, root: Prog)
      ensures Valid() && running.None? && batch == [] && run == []
      ensures this.oracle == oracle && this.root == root
    {
      this.oracle, this.root := oracle, root;
      futs := [Fut(RootRef(root), None, [])];
      ready := [Item(ROOT, Frame(root, [], [], []), None)];
      waiters, completed, inflight, live := map[], map[], {}, map[];
      batch, running, run := [], None, [];
      new;
      assert Reverse(ready) == Reverse(ready[1..]) + ready && Reverse(ready[1..]) == [];
      assert Abs() == Init(root);
    }

    method EnqueueReady(it: Item)
      modifies this`ready
      ensures Reverse(ready) == Reverse(old(ready)) + [it]
    {
      ready := [it] + ready;
      assert ready[1..] == old(ready);
    }

    /** Record the outcome and wake every waiter, in list order. */
    method SettleFuture(f: FutId, o: Outcome<FutId>)
      requires f < |futs|
      modifies this`futs, this`ready, this`running
      ensures Abs() == Settle(old(Abs()), f, o)
    {
      var ws := futs[f].waiters;
      futs := futs[f := futs[f].(st := Some(o), waiters := [])];
      running := None;
      var i := 0;
      while i < |ws|
        invariant 0 <= i <= |ws|
        invariant futs == old(futs)[f := old(futs[f]).(st := Some(o), waiters := [])]
        invariant running == None
        invariant Reverse(ready) == Reverse(old(ready)) + WakeAll(ws)[..i]
      {
        EnqueueReady(Item(ws[i].fib, ws[i].frame, None));
        i := i + 1;
      }
      assert WakeAll(ws)[..i] == WakeAll(ws);
      assert Abs().queue == old(Abs().queue) + WakeAll(ws);
    }

    /** `async` for each member of a letrec group. */
    method Spawn(f: FutId, fr: Frame) returns (fr': Frame)
      requires fr.p.Spawn? && f < |futs| && forall i | 0 <= i < |fr.env| :: fr.env[i] < |futs|
      modifies this`futs, this`ready, this`running
      ensures Abs() == SpawnAll(old(Abs()), f, fr) && running == Some(Wake(f, fr'))
    {
      var base, n := |futs|, |fr.p.children|;
      var env' := fr.env + NewIds(base, n);
      var refs := Siblings(fr.p.children, Codes(futs, fr.env), fr.regs);
      ghost var items := NewItems(base, fr.p.children, env', fr.regs);
      var i := 0;
      while i < n
        invariant 0 <= i <= n && running == old(running)
        invariant futs == old(futs) + NewFuts(refs)[..i]
        invariant Reverse(ready) == Reverse(old(ready)) + items[..i]
      {
        futs := futs + [Fut(refs[i], None, [])];
        EnqueueReady(Item(base + i, Frame(fr.p.children[i], env', [], fr.regs), None));
        i := i + 1;
      }
      assert NewFuts(refs)[..n] == NewFuts(refs) && items[..n] == items;
      fr' := Frame(fr.p.next, env', fr.outs, fr.regs);
      running := Some(Wake(f, fr'));
      assert Abs().queue == old(Abs().queue) + items;
    }

    /** Await a task handle: consume an early completion, or park. */
    method JoinTask(f: FutId, fr: Frame) returns (active: bool, fr': Frame)
      requires AtTask(fr)
      modifies this`completed, this`waiters, this`live, this`running
      ensures Abs() == AwaitTask(old(Abs()), f, fr)
      ensures running == if active then Some(Wake(f, fr')) else None
    {
      var h := fr.outs[fr.p.slot].h;
      active, fr' := h in completed, fr;
      if active {
        fr' := Frame(fr.p.next, fr.env, Remove(fr.outs, fr.p.slot), fr.regs + [completed[h]]);
        completed := completed - {h};
        live := live - {h};
        running := Some(Wake(f, fr'));
      } else {
        waiters := waiters[h := Wake(f, fr)];
        running := None;
      }
    }

    /** Await a future: go on with its outcome, or park in its waiter list. */
    method JoinFuture(f: FutId, fr: Frame) returns (active: bool, fr': Frame)
      requires AtFuture(fr) && fr.env[fr.p.fut] < |futs|
      modifies this`futs, this`running
      ensures Abs() == AwaitFuture(old(Abs()), f, fr)
      ensures running == if active then Some(Wake(f, fr')) else None
    {
      var g := fr.env[fr.p.fut];
      active, fr' := futs[g].st.Some?, fr;
      match futs[g].st {
        case None =>
          futs := futs[g := futs[g].(waiters := [Wake(f, fr)] + futs[g].waiters)];
          running := None;
        case Some(Ok(v, fs)) =>
          fr' := Frame(fr.p.ok, fr.env + fs, fr.outs, fr.regs + [v]);
          running := Some(Wake(f, fr'));
        case Some(Err(e)) =>
          fr' := Frame(fr.p.err, fr.env, fr.outs, fr.regs + [e]);
          running := Some(Wake(f, fr'));
      }
    }

    /** Submit an operation; the allocator may return any handle that is not live. */
    method SubmitTask(f: FutId, fr: Frame) returns (h: Handle, fr': Frame)
      requires fr.p.Submit?
      modifies this`live, this`inflight, this`running
      ensures h != 0 && h !in old(live) && running == Some(Wake(f, fr'))
      ensures old(running) == Some(Wake(f, fr)) && f < |futs|
              && (forall i | 0 <= i < |fr.env| :: fr.env[i] < |futs|)
              ==> Abs() == ExecOne(old(Abs()), h)
    {
      ghost var _ := DeadHandle(live.Keys, 0);
      h :| h != 0 && h !in live;
      var sub := Sub(h, fr.p.op(fr.regs));
      live := live[h := sub.op];
      inflight := inflight + {h};
      fr' := Frame(fr.p.next, fr.env, fr.outs + [sub], fr.regs);
      running := Some(Wake(f, fr'));
    }

    /** One instruction of the running fiber. */
    method Instruction(f: FutId, fr: Frame) returns (active: bool, fr': Frame)
      requires Valid() && running == Some(Wake(f, fr))
      modifies this
      ensures Valid() && batch == old(batch) && |run| == |old(run)| + 1
      ensures running == if active then Some(Wake(f, fr')) else None
    {
      RunningOk(oracle, root, run);
      ghost var s := Abs();
      ghost var alloc := DeadHandle(live.Keys, 0);
      active, fr' := false, fr;
      match fr.p {
        case Return(result, give) => SettleFuture(f, Ok(result(fr.regs), Pick(fr.env, give)));
        case Raise(condition) => SettleFuture(f, Err(condition(fr.regs)));
        case Submit(_, _) =>
          var h;
          h, fr' := SubmitTask(f, fr);
          alloc, active := h, true;
        case Join(slot, _) =>
          if slot < |fr.outs| {
            active, fr' := JoinTask(f, fr);
          } else {
            SettleFuture(f, Err(NOT_AWAITABLE));
          }
        case Spawn(_, _) =>
          active := true;
          fr' := Spawn(f, fr);
        case Await(fut, _, _) =>
          if fut < |fr.env| {
            active, fr' := JoinFuture(f, fr);
          } else {
            SettleFuture(f, Err(NOT_AWAITABLE));
          }
        case If(test, yes, no) =>
          active, fr' := true, fr.(p := if test(fr.regs) then yes else no);
          running := Some(Wake(f, fr'));
      }
      assert Abs() == ExecOne(s, alloc);
      AfterSnoc(oracle, root, run, Exec(alloc));
      run := run + [Exec(alloc)];
    }

    /** Resume the first fiber of the batch; after a task await, free the task and go on with its result. */
    method Resume(it: Item) returns (fr: Frame)
      requires Valid() && running.None? && |batch| > 0 && batch[0] == it
      modifies this
      ensures Valid() && running == Some(Wake(it.fib, fr)) && batch == old(batch)[1..] && |run| == |old(run)| + 1
    {
      ghost var s := Abs();
      assert s.queue[0] == it && s.queue[1..] == batch[1..] + Reverse(ready);
      fr := it.frame;
      if it.value.Some? && AtTask(fr) {
        live := live - {fr.outs[fr.p.slot].h};
        fr := Frame(fr.p.next, fr.env, Remove(fr.outs, fr.p.slot), fr.regs + [it.value.value]);
      }
      batch := batch[1..];
      running := Some(Wake(it.fib, fr));
      assert Abs() == TakeNext(s);
      AfterSnoc(oracle, root, run, Take);
      run := run + [Take];
    }

    /** Run the first fiber of the batch until it suspends or settles. */
    method RunFiber(it: Item)
      requires Valid() && running.None? && |batch| > 0 && batch[0] == it
      modifies this
      ensures Valid() && running.None? && batch == old(batch)[1..] && |run| > |old(run)|
    {
      var fr := Resume(it);
      var active := true;
      RunBound(oracle, root, run);
      while active
        invariant Valid() && batch == old(batch)[1..] && |old(run)| < |run| <= Bound(root)
        invariant running == if active then Some(Wake(it.fib, fr)) else None
        decreases Bound(root) - |run|
      {
        active, fr := Instruction(it.fib, fr);
        RunBound(oracle, root, run);
      }
    }

    /** Reap one completion: resume its waiter, or stash the result. */
    method DeliverOne(h: Handle)
      requires Valid() && running.None? && batch == [] && h in inflight
      modifies this
      ensures Valid() && running.None? && batch == [] && |run| == |old(run)| + 1
      ensures inflight == old(inflight) - {h}
    {
      AwaitedInFlight(oracle, root, run);
      ghost var s := Abs();
      var r := oracle(live[h]);
      inflight := inflight - {h};
      if h in waiters {
        var w := waiters[h];
        waiters := waiters - {h};
        EnqueueReady(Item(w.fib, w.frame, Some(r)));
      } else {
        completed := completed[h := r];
      }
      assert Abs() == SchedulerSpec.DeliverOne(oracle, s, h);
      AfterSnoc(oracle, root, run, Deliver(h));
      run := run + [Deliver(h)];
    }

    /** Run the ready fibers as one batch, oldest first. */
    method RunBatch()
      requires Valid() && running.None? && batch == []
      modifies this
      ensures Valid() && running.None? && batch == [] && |run| >= |old(run)|
      ensures if |old(ready)| > 0 then |run| > |old(run)| else |ready| == 0
    {
      var items := Reverse(ready);
      ready, batch := [], items;
      assert Abs() == old(Abs());
      var i := 0;
      while i < |items|
        invariant 0 <= i <= |items| && batch == items[i..]
        invariant Valid() && running.None? && |run| >= |old(run)| + i && (i == 0 ==> |ready| == 0)
      {
        RunFiber(items[i]);
        i := i + 1;
      }
    }

    /** Block until a task has been posted; the environment chooses which. */
    method WaitOne() returns (h: Handle)
      requires Valid() && |waiters| > 0
      ensures h in inflight
    {
      AwaitedInFlight(oracle, root, run);
      ghost var w :| w in waiters;
      assert w in waiters.Keys;
      h :| h in inflight;
    }

    /** Drain whatever has been posted, in any order, without blocking. */
    method Poll()
      requires Valid() && running.None? && batch == []
      modifies this
      ensures Valid() && running.None? && batch == [] && |run| >= |old(run)|
    {
      var posted := true;
      while posted && inflight != {}
        invariant Valid() && running.None? && batch == [] && |run| >= |old(run)|
        decreases inflight, posted
      {
        if * {
          posted := false;
        } else {
          var h :| h in inflight;
          DeliverOne(h);
        }
      }
    }

    /** Block for one completion, then drain the rest. */
    method Reap()
      requires Valid() && running.None? && batch == [] && |waiters| > 0
      modifies this
      ensures Valid() && running.None? && batch == [] && |run| > |old(run)|
    {
      var h := WaitOne();
      DeliverOne(h);
      Poll();
    }

    /** The scheduler loop. It returns exactly when nothing is ready and no task is awaited. */
    method Loop()
      requires Valid() && running.None? && batch == []
      modifies this
      ensures Valid() && Quiet(Abs())
    {
      var more := true;
      RunBound(oracle, root, run);
      while more
        invariant Valid() && running.None? && batch == [] && |run| <= Bound(root)
        invariant !more ==> |ready| == 0 && |waiters| == 0
        decreases Bound(root) - |run|, more
      {
        RunBatch();
        RunBound(oracle, root, run);
        if |ready| == 0 {
          if |waiters| > 0 {
            Reap();
            RunBound(oracle, root, run);
          } else {
            more := false;
          }
        }
      }
    }
  }

  /** An outcome as `run-async` reports it. */
  function Report(o: Outcome<Ref>): Result {
    match o
    case Ok(v, _) => Returned(v)
    case Err(e) => Raised(e)
  }

  /** An answer of the evaluator decides the result. */
  lemma {:induction false} AnswerDecides(oracle: int -> int, root: Prog, res: Result, o: Outcome<Ref>)
    requires Answers(oracle, root, res) && Means(oracle, RootRef(root), o)
    ensures res == Report(o)
  {
    match res
    case Returned(v) =>
      var refs :| Means(oracle, RootRef(root), Ok(v, refs));
      MeansUnique(oracle, RootRef(root), Ok(v, refs), o);
    case Raised(e) => MeansUnique(oracle, RootRef(root), Err(e), o);
    case Deadlocked =>
  }

  /** Results for the kinds of program whose outcome is known without the evaluator. */
  lemma {:induction false} ResultsKnown(oracle: int -> int, root: Prog, res: Result)
    requires Answers(oracle, root, res)
    ensures Sequential(root) ==> res == Report(Blocking(oracle, root, [], []))
    ensures Structured(root, 0, {}) ==> res == Report(Direct(oracle, root, 0, map[], [], []))
    ensures IsCall(root) ==> res == Report(CallOutcome(oracle, root))
    ensures IsHandOver(root) ==> res == Report(HandOverOutcome(oracle, root))
  {
    if Sequential(root) {
      BlockingIsRun(oracle, 0, root, [], []);
      assert Start(RootRef(root)) == Point(root, [], [], []);
      assert Eval(oracle, 1, RootRef(root)) == Some(Blocking(oracle, root, [], []));
      AnswerDecides(oracle, root, res, Blocking(oracle, root, [], []));
    }
    if Structured(root, 0, {}) {
      DirectMeans(oracle, root);
      AnswerDecides(oracle, root, res, Direct(oracle, root, 0, map[], [], []));
    }
    if IsCall(root) {
      var o := AsyncAwaitIsCall(oracle, root);
      AnswerDecides(oracle, root, res, o);
    }
    if IsHandOver(root) {
      var o := HandOverIsCall(oracle, root);
      AnswerDecides(oracle, root, res, o);
    }
  }

  /**
    `run-async`: for every allocator and every completion order the call terminates, and returns,
    raises or reports deadlock exactly as the reference evaluator of the program says. A program without
    futures ends as in blocking mode, a structured one as if every `async` were a call made on the spot.
   */
  method RunAsync(oracle: int -> int, root: Prog) returns (res: Result)
    ensures Answers(oracle, root, res)
    ensures Sequential(root) ==> res == Report(Blocking(oracle, root, [], []))
    ensures Structured(root, 0, {}) ==> res == Report(Direct(oracle, root, 0, map[], [], []))
    ensures IsCall(root) ==> res == Report(CallOutcome(oracle, root))
    ensures IsHandOver(root) ==> res == Report(HandOverOutcome(oracle, root))
  {
    var sch := new Scheduler(oracle, root);
    sch.Loop();
    RootKeepsCode(oracle, root, sch.run);
    DeadlockExact(oracle, root, sch.run, ROOT);
    if sch.futs[ROOT].st.Some? {
      SettledMeans(oracle, root, sch.run, ROOT);
    }
    match sch.futs[ROOT].st {
      case None => res := Deadlocked;
      case Some(Ok(v, fs)) =>
        assert Means(oracle, RootRef(root), Ok(v, Codes(sch.futs, fs)));
        res := Returned(v);
      case Some(Err(e)) => res := Raised(e);
    }
    ResultsKnown(oracle, root, res);
  }
}
