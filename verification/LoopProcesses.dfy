/** Waiting for a process: when a wait is answered, and when it never can be. */
module LoopProcesses {
  import opened Common
  import opened Ownership
  import opened LoopSpec
  import opened LoopInvariant
  import opened LoopOwnership
  import opened LoopFrames
  import opened LoopTheorems

  /** Exit status and end of a process stand. */
  ghost predicate ProcessGoesOn(s: State, s': State, p: nat)
    requires p < |s.processes|
  {
    && p < |s'.processes| && s'.processes[p].exited == s.processes[p].exited
    && (Ending(s.processes[p].phase) ==> Ending(s'.processes[p].phase))
  }

  lemma ProcessStep(s: State, e: Event, p: nat)
    requires Enabled(s, e) && p < |s.processes| && !(e.ProcExited? && e.p == p)
    ensures ProcessGoesOn(s, Next(s, e), p)
  {
    if !ProcessEvent(e) {
      FieldFrame(s, e);
    } else {
      match e
      case Dispatch(_, _) =>
      case ProcExited(_, _) =>
      case Closed(_) =>
    }
  }

  // --- What a wait gets --------------------------------------------------------------------------

  /** The wait task `t` was forgotten, or has the exit status of `p`, or waits alone for it. */
  ghost predicate Waited(s: State, t: TaskId, p: nat) {
    && p < |s.processes|
    && (t in s.core.dropped
        || match s.processes[p].exited
           case Some(status) => t in s.core.done && s.core.done[t] == status
           case None => In(s.core, Waiter(p)) == [t])
  }

  lemma WaitedByDispatch(s: State, e: Event, t: TaskId, p: nat)
    requires Objects(s) && Enabled(s, e) && e.Dispatch? && Waited(s, t, p) && DoneGrows(s.core, Next(s, e).core)
    ensures Waited(Next(s, e), t, p)
  {
    DroppedStep(s, e);
    ProcessStep(s, e, p);
    if e.op == ProcWait(p) {
      assert In(s.core, Waiter(p)) == [t] ==> t in Elements(In(s.core, Waiter(p)));
    } else {
      SlotFrame(s, e, Waiter(p));
    }
  }

  lemma WaitedByCallback(s: State, e: Event, t: TaskId, p: nat)
    requires Enabled(s, e) && !e.Dispatch? && Waited(s, t, p) && DoneGrows(s.core, Next(s, e).core)
    ensures Waited(Next(s, e), t, p)
  {
    DroppedByCallback(s, e);
    if !(e.ProcExited? && e.p == p) {
      ProcessStep(s, e, p);
      if e == Closed(AProcess(p)) {
        assert In(s.core, Waiter(p)) == [t] ==> t in Elements(In(s.core, Waiter(p)));
      } else {
        SlotFrame(s, e, Waiter(p));
      }
    }
  }

  lemma {:induction false} WaitGoesOn(run: seq<Event>, s: State, e: Event, t: TaskId, p: nat)
    requires Reaches(run, s) && Enabled(s, e) && Waited(s, t, p)
    ensures Waited(Next(s, e), t, p)
  {
    var owner := RunKeeps(run, s);
    var _ := NextLinear(s, owner, e);
    if e.Dispatch? {
      WaitedByDispatch(s, e, t, p);
    } else {
      WaitedByCallback(s, e, t, p);
    }
  }

  /** The exit status on record is the one the exit callback brought. */
  lemma {:induction false} ExitHistory(run: seq<Event>, s: State, p: nat, status: int)
    requires Reaches(run, s)
    ensures p < |s.processes| && s.processes[p].exited == Some(status) <==> ProcExited(p, status) in run
  {
    if run != [] {
      var s0, e := LastStep(run, s);
      ExitHistory(run[..|run| - 1], s0, p, status);
      ExitRecorded(s0, e, p, status);
    }
  }

  lemma ExitRecorded(s: State, e: Event, p: nat, status: int)
    requires Enabled(s, e)
    ensures p < |Next(s, e).processes| && Next(s, e).processes[p].exited == Some(status)
            <==> (p < |s.processes| && s.processes[p].exited == Some(status)) || e == ProcExited(p, status)
  {
    if !ProcessEvent(e) {
      FieldFrame(s, e);
    } else {
      match e
      case Dispatch(_, _) =>
      case ProcExited(_, _) =>
      case Closed(_) =>
    }
  }

  /**
    Every wait that is not forgotten, by being overwritten or by the deletion of its process, completes
    with the exit status, whether the process exits before or after the wait; until then it is alone in
    the wait slot of a process that has not been deleted.
   */
  lemma {:induction false} WaitAnswered(run: seq<Event>, s: State, t: TaskId, p: nat)
    requires Reaches(run, s) && Dispatch(t, ProcWait(p)) in run
    ensures p < |s.processes|
    ensures t in Lost(run)
            || match s.processes[p].exited
               case Some(status) => t in s.core.done && s.core.done[t] == status
               case None => In(s.core, Waiter(p)) == [t] && !s.processes[p].phase.Deleted?
    ensures forall status :: s.processes[p].exited == Some(status) <==> ProcExited(p, status) in run
  {
    forall status ensures p < |s.processes| && s.processes[p].exited == Some(status) <==> ProcExited(p, status) in run {
      ExitHistory(run, s, p, status);
    }
    WaitIsWaited(run, s, t, p);
    DroppedIsLost(run, s);
    RunInv(run, s);
    assert ProcessOk(s, p);
  }

  lemma {:induction false} WaitIsWaited(run: seq<Event>, s: State, t: TaskId, p: nat)
    requires Reaches(run, s) && Dispatch(t, ProcWait(p)) in run
    ensures Waited(s, t, p)
  {
    var last := |run| - 1;
    var s0 := After(run[..last]).value;
    if run[last] != Dispatch(t, ProcWait(p)) {
      assert run == run[..last] + [run[last]];
      WaitIsWaited(run[..last], s0, t, p);
      WaitGoesOn(run[..last], s0, run[last], t, p);
    }
  }

  // --- Closing a process that is waited for --------------------------------------------------------

  /** A wait for a process whose close has begun: still in its slot, or forgotten with it. */
  ghost predicate Stranded(s: State, u: TaskId, p: nat) {
    && p < |s.processes| && Ending(s.processes[p].phase)
    && (u in In(s.core, Waiter(p)) || u in s.core.dropped)
  }

  lemma StrandedStep(s: State, e: Event, u: TaskId, p: nat)
    requires Objects(s) && Enabled(s, e) && Stranded(s, u, p)
    ensures Stranded(Next(s, e), u, p)
  {
    DroppedStep(s, e);
    ProcessStep(s, e, p);
    if e == Closed(AProcess(p)) {
      assert u in In(s.core, Waiter(p)) ==> u in Elements(In(s.core, Waiter(p)));
    } else {
      SlotFrame(s, e, Waiter(p));
    }
  }

  lemma {:induction false} StrandedGoesOn(run: seq<Event>, s: State, e: Event, u: TaskId, p: nat)
    requires Reaches(run, s) && Enabled(s, e) && Stranded(s, u, p)
    ensures Stranded(Next(s, e), u, p)
  {
    RunInv(run, s);
    StrandedStep(s, e, u, p);
  }

  lemma {:induction false} StrandedNotDone(run: seq<Event>, s: State, u: TaskId, p: nat)
    requires Reaches(run, s) && Stranded(s, u, p)
    ensures u !in s.core.done
  {
    var owner := RunLinear(run, s);
    assert Owned(s.core, owner, Waiter(p));
  }

  /** No continuation of the run, of any length, completes it. */
  lemma {:induction false} StrandedForever(run: seq<Event>, more: seq<Event>, s: State, s': State, u: TaskId, p: nat)
    requires Reaches(run, s) && Reaches(run + more, s') && Stranded(s, u, p)
    ensures Stranded(s', u, p) && u !in s'.core.done
    decreases |more|
  {
    if more == [] {
      assert run + more == run;
    } else {
      var init := more[..|more| - 1];
      var s1, e := LastStep(run + more, s');
      assert (run + more)[..|run + more| - 1] == run + init;
      StrandedForever(run, init, s, s1, u, p);
      StrandedGoesOn(run + init, s1, e, u, p);
    }
    StrandedNotDone(run + more, s', u, p);
  }

  /** Some continuation of the run completes the task. */
  ghost predicate Answerable(run: seq<Event>, u: TaskId) {
    exists more, s :: Reaches(run + more, s) && u in s.core.done
  }

  lemma {:induction false} ExitAnswers(run: seq<Event>, s: State, u: TaskId, p: nat)
    requires Reaches(run, s) && !s.exited && p < |s.processes| && u in In(s.core, Waiter(p))
    requires s.processes[p].phase.Open?
    ensures Answerable(run, u)
  {
    RunInv(run, s);
    assert ProcessOk(s, p);
    var e := ProcExited(p, 0);
    Extend(run, s, e);
    assert In(s.core, Waiter(p)) == [u];
    assert Reaches(run + [e], Next(s, e)) && u in Next(s, e).core.done;
  }

  /** A pending wait can still be answered exactly when the close of its process has not begun. */
  lemma {:induction false} AnswerableIff(run: seq<Event>, s: State, u: TaskId, p: nat)
    requires Reaches(run, s) && !s.exited && p < |s.processes| && u in In(s.core, Waiter(p))
    ensures Answerable(run, u) <==> s.processes[p].phase.Open?
  {
    if s.processes[p].phase.Open? {
      ExitAnswers(run, s, u, p);
    } else {
      RunInv(run, s);
      assert ProcessOk(s, p);
      forall more, s' | Reaches(run + more, s') ensures u !in s'.core.done {
        StrandedForever(run, more, s, s', u, p);
      }
    }
  }

  /** Closing a process keeps every wait for it answerable exactly when there is none. */
  lemma {:induction false} CloseStrandsIff(run: seq<Event>, s: State, t: TaskId, p: nat)
    requires Reaches(run, s) && Enabled(s, Dispatch(t, ProcClose(p)))
    ensures (forall u | u in In(s.core, Waiter(p)) :: Answerable(run + [Dispatch(t, ProcClose(p))], u))
            <==> In(s.core, Waiter(p)) == []
  {
    var e := Dispatch(t, ProcClose(p));
    var s' := Next(s, e);
    Extend(run, s, e);
    if In(s.core, Waiter(p)) != [] {
      var u := In(s.core, Waiter(p))[0];
      SlotFrame(s, e, Waiter(p));
      AnswerableIff(run + [e], s', u, p);
    }
  }

  /** A process has been spawned and is waited for. */
  lemma SpawnAndWait() returns (run: seq<Event>, s: State)
    ensures run == [Dispatch(0, ProcSpawn(false, 0)), Dispatch(1, ProcWait(0))] && Reaches(run, s) && !s.exited
    ensures |s.processes| == 1 && s.processes[0].phase.Open? && s.processes[0].exited.None?
    ensures In(s.core, Waiter(0)) == [1] && s.core.seen == {0, 1}
  {
    var spawn, wait := Dispatch(0, ProcSpawn(false, 0)), Dispatch(1, ProcWait(0));
    var s1 := DoSpawn(INIT, 0, false, 0);
    Extend([], INIT, spawn);
    s := DoWait(s1, 1, 0);
    Extend([] + [spawn], s1, wait);
    run := [] + [spawn] + [wait];
  }

  /** A run that strands a wait: spawn, wait, close. */
  lemma StrandedExample() returns (run: seq<Event>, s: State)
    ensures run == [Dispatch(0, ProcSpawn(false, 0)), Dispatch(1, ProcWait(0)), Dispatch(2, ProcClose(0))]
    ensures Reaches(run, s) && In(s.core, Waiter(0)) == [1] && !Answerable(run, 1)
    ensures !s.exited && PhaseOf(s, AProcess(0)) == Some(Closing)
  {
    var run2, s2 := SpawnAndWait();
    var e := Dispatch(2, ProcClose(0));
    Extend(run2, s2, e);
    run, s := run2 + [e], DoProcClose(s2, 2, 0);
    AnswerableIff(run, s, 1, 0);
  }

  /** The same run up to the end of the close: with the process object the wait is forgotten. */
  lemma ForgottenWaitExample() returns (run: seq<Event>, s: State)
    ensures run == [Dispatch(0, ProcSpawn(false, 0)), Dispatch(1, ProcWait(0)), Dispatch(2, ProcClose(0)),
                    Closed(AProcess(0))]
    ensures Reaches(run, s) && s.processes[0].phase.Deleted? && 1 in Lost(run) && !Kept(s.core, 1)
  {
    var run3, s3 := StrandedExample();
    var e := Closed(AProcess(0));
    Extend(run3, s3, e);
    run, s := run3 + [e], OnClosed(s3, AProcess(0));
    assert 1 in Elements(In(s3.core, Waiter(0)));
    DroppedIsLost(run, s);
    TaskLinearity(run, s);
  }

  /** A run in which a second wait overwrites the first: the first task is forgotten for good. */
  lemma SecondWaitExample() returns (run: seq<Event>, s: State)
    ensures run == [Dispatch(0, ProcSpawn(false, 0)), Dispatch(1, ProcWait(0)), Dispatch(2, ProcWait(0))]
    ensures Reaches(run, s) && 1 in Lost(run) && !Kept(s.core, 1)
  {
    var run2, s2 := SpawnAndWait();
    var e := Dispatch(2, ProcWait(0));
    Extend(run2, s2, e);
    run, s := run2 + [e], DoWait(s2, 2, 0);
    assert 1 in Elements(In(s2.core, Waiter(0)));
    DroppedIsLost(run, s);
    TaskLinearity(run, s);
  }
}
