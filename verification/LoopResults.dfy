/** Which result each task completes with, told by the events of the run alone. */
module LoopResults {
  import opened Common
  import opened Ownership
  import opened LoopSpec
  import opened LoopInvariant
  import opened LoopOwnership
  import opened LoopFrames
  import opened LoopTheorems
  import opened LoopGivers

  // --- What completes a task -----------------------------------------------------------------------

  predicate AtFront(c: Core, slot: Slot, t: TaskId) { In(c, slot) != [] && In(c, slot)[0] == t }

  /** The operation completes its own task at its dispatch, with `r`. */
  predicate AtOnce(s: State, op: Op, r: int) {
    match op
    case StartRequest(q) => q < 0 && r == q
    case TcpConnect(q) => q < 0 && r == q
    case TcpListen(q) => r == if q < 0 then q else Handle(|s.listeners|)
    case TcpAccept(l) =>
      l < |s.listeners| && s.listeners[l].accepted != [] && r == Handle(s.listeners[l].accepted[0])
    case StreamRead(x, _, q) =>
      if s.signaled then r == ECANCELED else x < |s.streams| && !s.streams[x].active && q < 0 && r == q
    case ListenerClose(l) => l !in s.registry && r == 0
    case ProcSpawn(_, q) => r == if q < 0 then q else Handle(|s.processes|)
    case ProcWait(p) => p < |s.processes| && s.processes[p].exited == Some(r)
    case ProcKill(_, q) => r == q
    case WatchOpen(q) => r == if q < 0 then q else Handle(|s.watchers|)
    case WatchNext(w) =>
      && w < |s.watchers|
      && if In(s.core, NextEvent(w)) != [] then r == EBUSY
         else s.watchers[w].events != [] && r == s.watchers[w].events[0].flags
    case StdioOpen(streamable, q) => r == if !streamable then 0 else if q < 0 then q else Handle(|s.streams|)
    case _ => false
  }

  /** The close operation cancels `t`. */
  predicate Cancels(s: State, op: Op, t: TaskId) {
    match op
    case StreamClose(x) => t in In(s.core, Readers(x))
    case ListenerClose(l) => l in s.registry && t in In(s.core, Acceptors(l))
    case WatchClose(w) => t in In(s.core, NextEvent(w))
    case _ => false
  }

  ghost predicate ReadsOrAccepts(c: Core, t: TaskId) {
    exists slot: Slot :: (slot.Readers? || slot.Acceptors?) && t in In(c, slot)
  }

  /** The event, taken in state `s`, completes `t` with `r`. */
  ghost predicate Cause(s: State, e: Event, t: TaskId, r: int) {
    match e
    case Dispatch(u, op) => if t == u then AtOnce(s, op, r) else Cancels(s, op, t) && r == ECANCELED
    case RequestDone(i, q) => At(s.core, t, Request, i) && r == q
    case TimerFired(_) => false
    case TimerClosed(i) => At(s.core, t, TimerClosing, i) && r == 0
    case Connected(x, status) => AtFront(s.core, Connecting(x), t) && r == if status < 0 then status else Handle(x)
    case Connection(l, status, ok) =>
      status >= 0 && ok && AtFront(s.core, Acceptors(l), t) && r == Handle(|s.streams|)
    case Data(x, chunk) => AtFront(s.core, Readers(x), t) && r == |chunk|
    case Ended(x, q) => t in In(s.core, Readers(x)) && r == q
    case ProcExited(p, status) => AtFront(s.core, Waiter(p), t) && r == status
    case FsChanged(w, ev) => AtFront(s.core, NextEvent(w), t) && r == ev.flags
    case Closed(obj) => AtFront(s.core, CloserSlot(obj), t) && r == 0
    case Signal => Graceful(s) && ReadsOrAccepts(s.core, t) && r == ECANCELED
  }

  /** `t` has newly completed with `r`. */
  predicate Completes(c: Core, c': Core, t: TaskId, r: int) {
    t !in c.done && t in c'.done && c'.done[t] == r
  }

  lemma HeldNotDone(c: Core, owner: map<TaskId, Slot>, slot: Slot, t: TaskId)
    requires Linear(c, owner) && t in In(c, slot)
    ensures t !in c.done && t in c.seen && t in owner && owner[t] == slot
  {
    assert Owned(c, owner, slot);
  }

  lemma AnswerResults(c: Core, t: TaskId, q: int, u: TaskId, r: int)
    requires t !in c.done
    ensures Completes(c, Answer(c, t, q), u, r) <==> u == t && r == q
  {
  }

  predicate Makes(op: Op) { op.TcpConnect? || op.TcpListen? || op.ProcSpawn? || op.WatchOpen? || op.StdioOpen? }

  /** The core after an operation that makes a handle: its task is answered, or its connect is in flight. */
  lemma MakeCore(s: State, t: TaskId, op: Op, q: int)
    requires Makes(op)
    ensures AtOnce(s, op, q) ==> DoDispatch(s, t, op).core == Answer(s.core, t, q)
    ensures op.TcpConnect? && op.r >= 0 ==> DoDispatch(s, t, op).core == Hold(s.core, Connecting(|s.streams|), t)
  {
    match op
    case TcpConnect(_) =>
    case TcpListen(_) =>
    case ProcSpawn(_, _) =>
    case WatchOpen(_) =>
    case StdioOpen(_, _) =>
  }

  lemma MakeResults(s: State, t: TaskId, op: Op, u: TaskId, r: int)
    requires Makes(op) && t !in s.core.done
    ensures Completes(s.core, DoDispatch(s, t, op).core, u, r) <==> u == t && AtOnce(s, op, r)
  {
    var q := match op
      case TcpListen(q) => if q < 0 then q else Handle(|s.listeners|)
      case ProcSpawn(_, q) => if q < 0 then q else Handle(|s.processes|)
      case WatchOpen(q) => if q < 0 then q else Handle(|s.watchers|)
      case StdioOpen(streamable, q) => if !streamable then 0 else if q < 0 then q else Handle(|s.streams|)
      case TcpConnect(q) => q;
    MakeCore(s, t, op, q);
    AnswerResults(s.core, t, q, u, r);
  }

  lemma NextResults(s: State, t: TaskId, w: nat, u: TaskId, r: int)
    requires w < |s.watchers| && t !in s.core.done
    ensures Completes(s.core, DoWatchNext(s, t, w).core, u, r) <==> u == t && AtOnce(s, WatchNext(w), r)
  {
  }

  lemma ReadResults(s: State, t: TaskId, x: nat, n: nat, q: int, u: TaskId, r: int)
    requires x < |s.streams| && t !in s.core.done
    ensures Completes(s.core, DoRead(s, t, x, n, q).core, u, r) <==> u == t && AtOnce(s, StreamRead(x, n, q), r)
  {
  }

  lemma AcceptResults(s: State, t: TaskId, l: nat, u: TaskId, r: int)
    requires OpEnabled(s, TcpAccept(l)) && t !in s.core.done
    ensures Completes(s.core, DoAccept(s, t, l).core, u, r) <==> u == t && AtOnce(s, TcpAccept(l), r)
  {
  }

  lemma StartResults(s: State, t: TaskId, op: Op, u: TaskId, r: int)
    requires OpEnabled(s, op) && !Closes(op) && t !in s.core.done
    ensures Completes(s.core, DoDispatch(s, t, op).core, u, r) <==> u == t && AtOnce(s, op, r)
  {
    match op
    case TcpAccept(l) => AcceptResults(s, t, l, u, r);
    case StreamRead(x, n, q) => ReadResults(s, t, x, n, q, u, r);
    case WatchNext(w) => NextResults(s, t, w, u, r);
    case FsRequest(_) =>
    case StartRequest(_) =>
    case StartTimer =>
    case ProcWait(_) =>
    case ProcKill(_, _) =>
    case _ => MakeResults(s, t, op, u, r);
  }

  /** Completing whole slots completes their tasks with the given result, and no others. */
  lemma FinishResults(c: Core, owner: map<TaskId, Slot>, slots: set<Slot>, q: int, u: TaskId, r: int)
    requires Linear(c, owner)
    ensures Completes(c, FinishSlots(c, slots, q), u, r) <==> HeldIn(c, slots, u) && r == q
  {
    HeldIffOwned(c, owner, slots, u);
    DoneFinished(c, owner, slots, q, u);
  }

  lemma CloseResults(s: State, owner: map<TaskId, Slot>, t: TaskId, op: Op, u: TaskId, r: int)
    requires Linear(s.core, owner) && OpEnabled(s, op) && Closes(op) && t !in s.core.seen
    ensures Completes(s.core, DoDispatch(s, t, op).core, u, r)
            <==> if u == t then AtOnce(s, op, r) else Cancels(s, op, u) && r == ECANCELED
  {
    match op
    case StreamClose(x) => CancelResults(s.core, owner, Readers(x), {Readers(x)}, t, u, r);
    case ListenerClose(l) => CancelResults(s.core, owner, Acceptors(l), AcceptorSlots({l}), t, u, r);
    case ProcClose(_) =>
    case WatchClose(w) => CancelResults(s.core, owner, NextEvent(w), {NextEvent(w)}, t, u, r);
  }

  lemma CancelResults(
    c: Core, owner: map<TaskId, Slot>, slot: Slot, slots: set<Slot>, t: TaskId, u: TaskId, r: int
  )
    requires Linear(c, owner) && t !in c.seen && slots == {slot}
    ensures Completes(c, FinishSlots(c, slots, ECANCELED), u, r) <==> u != t && u in In(c, slot) && r == ECANCELED
  {
    FinishResults(c, owner, slots, ECANCELED, u, r);
    assert HeldIn(c, slots, u) <==> u in In(c, slot) by {
      assert slot in slots;
    }
    assert Owned(c, owner, slot);
  }

  lemma ConnectionResults(s: State, owner: map<TaskId, Slot>, l: nat, status: int, ok: bool, u: TaskId, r: int)
    requires Linear(s.core, owner) && l < |s.listeners|
    ensures Completes(s.core, OnConnection(s, l, status, ok).core, u, r)
            <==> Cause(s, Connection(l, status, ok), u, r)
  {
    assert Owned(s.core, owner, Acceptors(l));
  }

  lemma FinishAtResults(c: Core, owner: map<TaskId, Slot>, slot: Slot, i: nat, q: int, u: TaskId, r: int)
    requires Linear(c, owner) && i < |In(c, slot)|
    ensures Completes(c, FinishAt(c, slot, i, q), u, r) <==> At(c, u, slot, i) && r == q
  {
    assert Owned(c, owner, slot);
  }

  lemma DataResults(s: State, owner: map<TaskId, Slot>, x: nat, chunk: seq<byte>, u: TaskId, r: int)
    requires Linear(s.core, owner) && x < |s.streams|
    ensures Completes(s.core, OnData(s, x, chunk).core, u, r) <==> Cause(s, Data(x, chunk), u, r)
  {
    assert Owned(s.core, owner, Readers(x));
  }

  lemma ChangedResults(s: State, owner: map<TaskId, Slot>, w: nat, ev: FsEvent, u: TaskId, r: int)
    requires Linear(s.core, owner) && w < |s.watchers|
    ensures Completes(s.core, OnFsEvent(s, w, ev).core, u, r) <==> Cause(s, FsChanged(w, ev), u, r)
  {
    assert Owned(s.core, owner, NextEvent(w));
  }

  lemma SingleResults(s: State, owner: map<TaskId, Slot>, e: Event, u: TaskId, r: int)
    requires Linear(s.core, owner) && Enabled(s, e) && Single(e)
    ensures Completes(s.core, Next(s, e).core, u, r) <==> Cause(s, e, u, r)
  {
    match e
    case RequestDone(i, q) => FinishAtResults(s.core, owner, Request, i, q, u, r);
    case TimerClosed(i) => FinishAtResults(s.core, owner, TimerClosing, i, 0, u, r);
    case Connected(x, status) =>
      FinishAtResults(s.core, owner, Connecting(x), 0, if status < 0 then status else Handle(x), u, r);
    case Connection(l, status, ok) => ConnectionResults(s, owner, l, status, ok, u, r);
    case Data(x, chunk) => DataResults(s, owner, x, chunk, u, r);
    case ProcExited(p, status) =>
      if In(s.core, Waiter(p)) != [] {
        FinishAtResults(s.core, owner, Waiter(p), 0, status, u, r);
      }
    case FsChanged(w, ev) => ChangedResults(s, owner, w, ev, u, r);
    case Closed(obj) =>
      if In(s.core, CloserSlot(obj)) != [] {
        FinishAtResults(s.core, owner, CloserSlot(obj), 0, 0, u, r);
      }
  }

  lemma ProcessGoneResults(s: State, owner: map<TaskId, Slot>, p: nat, u: TaskId, r: int)
    requires Linear(s.core, owner) && PhaseOf(s, AProcess(p)).Some?
    ensures Completes(s.core, OnClosed(s, AProcess(p)).core, u, r) <==> AtFront(s.core, ProcessCloser(p), u) && r == 0
  {
    assert Owned(s.core, owner, ProcessCloser(p));
  }

  lemma EndedResults(s: State, owner: map<TaskId, Slot>, x: nat, q: int, u: TaskId, r: int)
    requires Linear(s.core, owner) && x < |s.streams|
    ensures Completes(s.core, OnEnded(s, x, q).core, u, r) <==> u in In(s.core, Readers(x)) && r == q
  {
    FinishResults(s.core, owner, {Readers(x)}, q, u, r);
    assert HeldIn(s.core, {Readers(x)}, u) <==> u in In(s.core, Readers(x)) by {
      assert Readers(x) in {Readers(x)};
    }
  }

  lemma SweepResults(c: Core, owner: map<TaskId, Slot>, a: set<Slot>, b: set<Slot>, u: TaskId, r: int)
    requires Linear(c, owner)
    requires forall slot | slot in a + b :: slot.Readers? || slot.Acceptors?
    requires forall slot: Slot | (slot.Readers? || slot.Acceptors?) && In(c, slot) != [] :: slot in a + b
    ensures Completes(c, FinishSlots(FinishSlots(c, a, ECANCELED), b, ECANCELED), u, r)
            <==> ReadsOrAccepts(c, u) && r == ECANCELED
  {
    var c1 := FinishSlots(c, a, ECANCELED);
    FinishResults(c, owner, a, ECANCELED, u, r);
    FinishSlotsLinear(c, owner, a, ECANCELED);
    FinishResults(c1, Without(owner, a), b, ECANCELED, u, r);
    HeldIffOwned(c, owner, a, u);
    HeldIffOwned(c1, Without(owner, a), b, u);
    OwnedIsParked(c, owner, u);
    DoneFinished(c, owner, a, ECANCELED, u);
    DoneFinished(c1, Without(owner, a), b, ECANCELED, u);
  }

  lemma OwnedIsParked(c: Core, owner: map<TaskId, Slot>, u: TaskId)
    requires Linear(c, owner)
    ensures ReadsOrAccepts(c, u) <==> u in owner && (owner[u].Readers? || owner[u].Acceptors?)
    ensures u in owner ==> In(c, owner[u]) != [] && u !in c.done
  {
    if ReadsOrAccepts(c, u) {
      var slot: Slot :| (slot.Readers? || slot.Acceptors?) && u in In(c, slot);
      assert Owned(c, owner, slot);
    }
  }

  lemma SignalResults(s: State, owner: map<TaskId, Slot>, u: TaskId, r: int)
    requires Linear(s.core, owner) && Objects(s) && Enabled(s, Signal)
    ensures Completes(s.core, OnSignal(s).core, u, r) <==> Graceful(s) && ReadsOrAccepts(s.core, u) && r == ECANCELED
  {
    if Graceful(s) {
      SweptSlots(s);
      SweepCore(s);
      SweepResults(s.core, owner, AcceptorSlots(s.registry), ReaderSlots(s.reading), u, r);
    }
  }

  /** An event completes a task with a result exactly when it is the cause of that result. */
  lemma ResultStep(s: State, owner: map<TaskId, Slot>, e: Event, u: TaskId, r: int)
    requires Linear(s.core, owner) && Objects(s) && Enabled(s, e)
    ensures Completes(s.core, Next(s, e).core, u, r) <==> Cause(s, e, u, r)
  {
    if Single(e) {
      SingleResults(s, owner, e, u, r);
    } else {
      match e
      case Dispatch(t, op) =>
        if Closes(op) {
          CloseResults(s, owner, t, op, u, r);
        } else {
          StartResults(s, t, op, u, r);
        }
      case TimerFired(_) =>
      case Ended(x, q) => EndedResults(s, owner, x, q, u, r);
      case Closed(obj) => ProcessGoneResults(s, owner, obj.id, u, r);
      case Signal => SignalResults(s, owner, u, r);
    }
  }

  // --- Over runs -----------------------------------------------------------------------------------

  /** The i-th event of the run is the cause of the result. */
  ghost predicate CauseAt(run: seq<Event>, i: nat, t: TaskId, r: int) {
    i < |run| && After(run[..i]).Some? && Cause(After(run[..i]).value, run[i], t, r)
  }

  ghost predicate Caused(run: seq<Event>, t: TaskId, r: int) {
    exists i: nat :: CauseAt(run, i, t, r)
  }

  lemma {:induction false} CausedSnoc(run: seq<Event>, s: State, e: Event, t: TaskId, r: int)
    requires Reaches(run, s)
    ensures Caused(run + [e], t, r) <==> Caused(run, t, r) || Cause(s, e, t, r)
  {
    var run' := run + [e];
    assert run'[..|run|] == run;
    forall i: nat | i < |run| ensures CauseAt(run', i, t, r) <==> CauseAt(run, i, t, r) {
      assert run'[..i] == run[..i];
    }
    assert CauseAt(run', |run|, t, r) <==> Cause(s, e, t, r);
    if Caused(run', t, r) {
      var i: nat :| CauseAt(run', i, t, r);
      assert i < |run| ==> CauseAt(run, i, t, r);
    }
    if Caused(run, t, r) {
      var i: nat :| CauseAt(run, i, t, r);
      assert CauseAt(run', i, t, r);
    }
  }

  lemma {:induction false} RunResultStep(run: seq<Event>, s: State, e: Event, t: TaskId, r: int)
    requires Reaches(run, s) && Enabled(s, e)
    ensures Completes(s.core, Next(s, e).core, t, r) <==> Cause(s, e, t, r)
    ensures DoneGrows(s.core, Next(s, e).core)
  {
    var owner := RunKeeps(run, s);
    ResultStep(s, owner, e, t, r);
    var _ := NextLinear(s, owner, e);
  }

  /** A task has completed with `r` exactly when an event of the run is the cause of that result. */
  lemma {:induction false} ResultHistory(run: seq<Event>, s: State, t: TaskId, r: int)
    requires Reaches(run, s)
    ensures t in s.core.done && s.core.done[t] == r <==> Caused(run, t, r)
  {
    if run != [] {
      var s0, e := LastStep(run, s);
      var init := run[..|run| - 1];
      ResultHistory(init, s0, t, r);
      CausedSnoc(init, s0, e, t, r);
      RunResultStep(init, s0, e, t, r);
    }
  }

  /** The code an operation is told at its dispatch whatever the state: its own refusal, mostly. */
  function OwnCode(op: Op): Option<int> {
    match op
    case StartRequest(r) => if r < 0 then Some(r) else None
    case TcpConnect(r) => if r < 0 then Some(r) else None
    case TcpListen(r) => if r < 0 then Some(r) else None
    case ProcSpawn(_, r) => if r < 0 then Some(r) else None
    case ProcKill(_, r) => Some(r)
    case WatchOpen(r) => if r < 0 then Some(r) else None
    case StdioOpen(streamable, r) => if !streamable then Some(0) else if r < 0 then Some(r) else None
    case _ => None
  }

  /** An operation that libuv refuses, a kill, and the opening of something that is no stream are told at once. */
  lemma {:induction false} RefusedIsTold(run: seq<Event>, s: State, t: TaskId, op: Op)
    requires Reaches(run, s) && Dispatch(t, op) in run && OwnCode(op).Some?
    ensures t in s.core.done && s.core.done[t] == OwnCode(op).value
  {
    var i :| 0 <= i < |run| && run[i] == Dispatch(t, op);
    PrefixReached(run, s, i);
    assert CauseAt(run, i, t, OwnCode(op).value);
    ResultHistory(run, s, t, OwnCode(op).value);
  }

  lemma {:induction false} PrefixReached(run: seq<Event>, s: State, i: nat)
    requires Reaches(run, s) && i <= |run|
    ensures After(run[..i]).Some?
  {
    if i == |run| {
      assert run[..i] == run;
    } else {
      var s0, e := LastStep(run, s);
      var init := run[..|run| - 1];
      assert init[..i] == run[..i];
      PrefixReached(init, s0, i);
    }
  }

  // --- Requests --------------------------------------------------------------------------------------

  /** The i-th event of the run finds the task at position `k` of the slot. */
  ghost predicate Finds(run: seq<Event>, i: nat, t: TaskId, slot: Slot, k: nat) {
    i < |run| && After(run[..i]).Some? && At(After(run[..i]).value.core, t, slot, k)
  }

  lemma {:induction false} FindsMore(run: seq<Event>, e: Event, i: nat, t: TaskId, slot: Slot, k: nat)
    ensures Finds(run, i, t, slot, k) ==> Finds(run + [e], i, t, slot, k)
  {
    if i < |run| {
      assert (run + [e])[..i] == run[..i];
    }
  }

  lemma {:induction false} FindsNow(run: seq<Event>, s: State, e: Event, t: TaskId, slot: Slot, k: nat)
    requires Reaches(run, s) && At(s.core, t, slot, k)
    ensures Finds(run + [e], |run|, t, slot, k)
  {
    assert (run + [e])[..|run|] == run;
  }

  /** A file operation, a DNS lookup or a write that libuv accepted. */
  predicate Accepted(op: Op) { (op.FsRequest? || op.StartRequest?) && op.r >= 0 }

  /** The callback of the task's own request brought `r`. */
  ghost predicate Answered(run: seq<Event>, i: nat, t: TaskId, r: int) {
    i < |run| && run[i].RequestDone? && run[i].r == r && Finds(run, i, t, Request, run[i].i)
  }

  lemma InRequests(s: State, owner: map<TaskId, Slot>, e: Event, t: TaskId)
    requires Linear(s.core, owner) && Enabled(s, e) && t in In(s.core, Request)
    ensures || t in In(Next(s, e).core, Request)
            || (e.RequestDone? && At(s.core, t, Request, e.i)
                && t in Next(s, e).core.done && Next(s, e).core.done[t] == e.r)
  {
    if !Touches(s, e, Request) {
      SlotFrame(s, e, Request);
    } else if e.RequestDone? {
      assert Owned(s.core, owner, Request);
      RemoveMembers(In(s.core, Request), e.i);
    } else {
      var _ := StartCore(s, e.t, e.op);
    }
  }

  /**
    Every file operation, DNS lookup and write that libuv accepted is in flight, or the callback of its
    own request came and it completed with what that callback brought.
   */
  lemma {:induction false} RequestAnswered(run: seq<Event>, s: State, t: TaskId, op: Op) returns (i: nat)
    requires Reaches(run, s) && Dispatch(t, op) in run && Accepted(op)
    ensures if t in s.core.done then Answered(run, i, t, s.core.done[t]) else t in In(s.core, Request)
  {
    var s0, e := LastStep(run, s);
    var init := run[..|run| - 1];
    var owner := RunLinear(init, s0);
    var _ := NextLinear(s0, owner, e);
    i := |init|;
    if e == Dispatch(t, op) {
      return;
    }
    var i0 := RequestAnswered(init, s0, t, op);
    if t in s0.core.done {
      i := i0;
      FindsMore(init, e, i, t, Request, init[i].i);
    } else {
      InRequests(s0, owner, e, t);
      if e.RequestDone? && At(s0.core, t, Request, e.i) {
        FindsNow(init, s0, e, t, Request, e.i);
      } else {
        HeldIsPending(run, s, Request, t);
      }
    }
  }

  lemma {:induction false} HeldIsPending(run: seq<Event>, s: State, slot: Slot, t: TaskId)
    requires Reaches(run, s) && t in In(s.core, slot)
    ensures t !in s.core.done
  {
    UnservedPending(run, s, slot);
  }

  // --- Timers ----------------------------------------------------------------------------------------

  /** The task's own timer fired. */
  ghost predicate Fired(run: seq<Event>, i: nat, t: TaskId) {
    i < |run| && run[i].TimerFired? && Finds(run, i, t, Timer, run[i].i)
  }

  /** The close of the task's own timer handle ended. */
  ghost predicate Released(run: seq<Event>, i: nat, t: TaskId) {
    i < |run| && run[i].TimerClosed? && Finds(run, i, t, TimerClosing, run[i].i)
  }

  lemma InTimers(s: State, owner: map<TaskId, Slot>, e: Event, t: TaskId)
    requires Linear(s.core, owner) && Enabled(s, e) && t in In(s.core, Timer)
    ensures || t in In(Next(s, e).core, Timer)
            || (e.TimerFired? && At(s.core, t, Timer, e.i) && t in In(Next(s, e).core, TimerClosing))
  {
    if !Touches(s, e, Timer) {
      SlotFrame(s, e, Timer);
    } else if e.TimerFired? {
      assert Owned(s.core, owner, Timer);
      RemoveMembers(In(s.core, Timer), e.i);
    } else {
      var _ := StartCore(s, e.t, e.op);
    }
  }

  lemma InClosing(s: State, owner: map<TaskId, Slot>, e: Event, t: TaskId)
    requires Linear(s.core, owner) && Enabled(s, e) && t in In(s.core, TimerClosing)
    ensures || t in In(Next(s, e).core, TimerClosing)
            || (e.TimerClosed? && At(s.core, t, TimerClosing, e.i)
                && t in Next(s, e).core.done && Next(s, e).core.done[t] == 0)
  {
    if !Touches(s, e, TimerClosing) {
      SlotFrame(s, e, TimerClosing);
    } else if e.TimerClosed? {
      assert Owned(s.core, owner, TimerClosing);
      RemoveMembers(In(s.core, TimerClosing), e.i);
    }
  }

  /** Where a timer task is, with the events that brought it there. */
  ghost predicate Timed(run: seq<Event>, c: Core, t: TaskId, i: nat, j: nat) {
    || (t in In(c, Timer) && t !in c.done)
    || (Fired(run, i, t) && t in In(c, TimerClosing) && t !in c.done)
    || (Fired(run, i, t) && i < j && Released(run, j, t) && t in c.done && c.done[t] == 0)
  }

  lemma {:induction false} FiredMore(run: seq<Event>, e: Event, i: nat, t: TaskId)
    ensures Fired(run, i, t) ==> Fired(run + [e], i, t)
    ensures Released(run, i, t) ==> Released(run + [e], i, t)
  {
    if i < |run| && (run[i].TimerFired? || run[i].TimerClosed?) {
      FindsMore(run, e, i, t, Timer, run[i].i);
      FindsMore(run, e, i, t, TimerClosing, run[i].i);
    }
  }

  lemma {:induction false} TimerStep(run: seq<Event>, s: State, e: Event, t: TaskId, i: nat, j: nat)
    returns (i': nat, j': nat)
    requires Reaches(run, s) && Enabled(s, e) && Timed(run, s.core, t, i, j)
    ensures Timed(run + [e], Next(s, e).core, t, i', j')
  {
    var run' := run + [e];
    var owner := RunLinear(run, s);
    var _ := NextLinear(s, owner, e);
    Extend(run, s, e);
    FiredMore(run, e, i, t);
    FiredMore(run, e, j, t);
    i', j' := i, j;
    if t in In(s.core, Timer) {
      InTimers(s, owner, e, t);
      if t in In(Next(s, e).core, Timer) {
        HeldIsPending(run', Next(s, e), Timer, t);
      } else {
        i' := |run|;
        FindsNow(run, s, e, t, Timer, e.i);
        HeldIsPending(run', Next(s, e), TimerClosing, t);
      }
    } else if t in In(s.core, TimerClosing) {
      InClosing(s, owner, e, t);
      if t in In(Next(s, e).core, TimerClosing) {
        HeldIsPending(run', Next(s, e), TimerClosing, t);
      } else {
        j' := |run|;
        FindsNow(run, s, e, t, TimerClosing, e.i);
      }
    }
  }

  /** Only the end of the close of its handle completes a timer task. */
  lemma {:induction false} TimerCause(run: seq<Event>, s: State, e: Event, t: TaskId, i: nat, j: nat, r: int)
    requires Reaches(run, s) && Enabled(s, e) && Timed(run, s.core, t, i, j) && Cause(s, e, t, r)
    ensures r == 0 && Released(run + [e], |run|, t)
  {
    var owner := RunLinear(run, s);
    RunResultStep(run, s, e, t, r);
    Extend(run, s, e);
    if t in In(s.core, Timer) {
      InTimers(s, owner, e, t);
      UnservedPending(run + [e], Next(s, e), Timer);
      UnservedPending(run + [e], Next(s, e), TimerClosing);
    } else {
      InClosing(s, owner, e, t);
      UnservedPending(run + [e], Next(s, e), TimerClosing);
      FindsNow(run, s, e, t, TimerClosing, e.i);
    }
  }

  lemma {:induction false} CauseBefore(run: seq<Event>, e: Event, k: nat, t: TaskId, r: int)
    requires k < |run|
    ensures CauseAt(run + [e], k, t, r) <==> CauseAt(run, k, t, r)
  {
    assert (run + [e])[..k] == run[..k];
  }

  lemma {:induction false} NotYetCaused(run: seq<Event>, s: State, k: nat, t: TaskId, r: int)
    requires Reaches(run, s) && t !in s.core.seen
    ensures !CauseAt(run, k, t, r)
  {
    var _ := RunLinear(run, s);
    ResultHistory(run, s, t, r);
  }

  /**
    A timer task completes only when libuv has let go of the handle inside it: it waits for its timer;
    or the timer fired and its handle is closing; or the handle has been released since, and only that
    event completed the task, with 0.
   */
  lemma {:induction false} TimerAnswered(run: seq<Event>, s: State, t: TaskId) returns (i: nat, j: nat)
    requires Reaches(run, s) && Dispatch(t, StartTimer) in run
    ensures Timed(run, s.core, t, i, j)
    ensures forall k: nat, r | CauseAt(run, k, t, r) :: r == 0 && Released(run, k, t)
  {
    var s0, e := LastStep(run, s);
    var init := run[..|run| - 1];
    if e == Dispatch(t, StartTimer) {
      i, j := 0, 0;
      UnservedPending(run, s, Timer);
      forall k: nat, r ensures !CauseAt(run, k, t, r) {
        if k < |init| {
          NotYetCaused(init, s0, k, t, r);
          CauseBefore(init, e, k, t, r);
        } else {
          assert run[..|init|] == init;
        }
      }
    } else {
      var i0, j0 := TimerAnswered(init, s0, t);
      i, j := TimerStep(init, s0, e, t, i0, j0);
      forall k: nat, r | CauseAt(run, k, t, r) ensures r == 0 && Released(run, k, t) {
        if k < |init| {
          CauseBefore(init, e, k, t, r);
          FiredMore(init, e, k, t);
        } else {
          assert run[..|init|] == init;
          TimerCause(init, s0, e, t, i0, j0, r);
        }
      }
    }
  }

  // --- Reads and their buffers -------------------------------------------------------------------------

  /** The read is queued with its buffer size, or has completed with no more than fits. */
  ghost predicate ReadOk(s: State, t: TaskId, x: nat, n: nat) {
    && x < |s.streams|
    && if t in s.core.done then s.core.done[t] <= n
       else t in In(s.core, Readers(x)) && t in s.streams[x].room && s.streams[x].room[t] == n
  }

  lemma ReadBegins(s: State, t: TaskId, x: nat, n: nat, q: int)
    requires x < |s.streams| && t !in s.core.done
    ensures ReadOk(DoRead(s, t, x, n, q), t, x, n)
  {
  }

  lemma ReadCause(s: State, owner: map<TaskId, Slot>, e: Event, t: TaskId, x: nat, n: nat, r: int)
    requires Linear(s.core, owner) && Enabled(s, e) && ReadOk(s, t, x, n) && Cause(s, e, t, r) && t !in s.core.done
    ensures r <= n
  {
    HeldNotDone(s.core, owner, Readers(x), t);
    match e
    case RequestDone(_, _) => OneSlot(s.core, owner, Readers(x), Request, t);
    case TimerClosed(_) => OneSlot(s.core, owner, Readers(x), TimerClosing, t);
    case Connected(y, _) => OneSlot(s.core, owner, Readers(x), Connecting(y), t);
    case Connection(l, _, _) => OneSlot(s.core, owner, Readers(x), Acceptors(l), t);
    case Data(y, _) => OneSlot(s.core, owner, Readers(x), Readers(y), t);
    case Ended(_, _) =>
    case ProcExited(p, _) => OneSlot(s.core, owner, Readers(x), Waiter(p), t);
    case FsChanged(w, _) => OneSlot(s.core, owner, Readers(x), NextEvent(w), t);
    case Closed(obj) => OneSlot(s.core, owner, Readers(x), CloserSlot(obj), t);
    case Dispatch(_, _) =>
    case Signal =>
  }

  lemma OneSlot(c: Core, owner: map<TaskId, Slot>, a: Slot, b: Slot, t: TaskId)
    requires Linear(c, owner) && t in In(c, a) && t in In(c, b)
    ensures a == b
  {
    assert Owned(c, owner, a) && Owned(c, owner, b);
  }

  lemma RoomKept(s: State, e: Event, t: TaskId, x: nat)
    requires Enabled(s, e) && x < |s.streams| && t in s.streams[x].room && t in s.core.seen
    ensures x < |Next(s, e).streams| && t in Next(s, e).streams[x].room
    ensures Next(s, e).streams[x].room[t] == s.streams[x].room[t]
  {
    if !StreamEvent(e) {
      FieldFrame(s, e);
    } else if e.Dispatch? {
      RoomByDispatch(s, e.t, e.op, t, x);
    } else {
      RoomByCallback(s, e, t, x);
    }
  }

  lemma RoomAtConnection(s: State, l: nat, status: int, ok: bool, t: TaskId, x: nat)
    requires l < |s.listeners| && x < |s.streams| && t in s.streams[x].room
    ensures var st := OnConnection(s, l, status, ok).streams;
            x < |st| && t in st[x].room && st[x].room[t] == s.streams[x].room[t]
  {
  }

  lemma RoomAtSignal(s: State, t: TaskId, x: nat)
    requires x < |s.streams| && t in s.streams[x].room
    ensures var st := OnSignal(s).streams; x < |st| && t in st[x].room && st[x].room[t] == s.streams[x].room[t]
  {
  }

  lemma RoomByCallback(s: State, e: Event, t: TaskId, x: nat)
    requires Enabled(s, e) && StreamEvent(e) && !e.Dispatch? && x < |s.streams| && t in s.streams[x].room
    ensures x < |Next(s, e).streams| && t in Next(s, e).streams[x].room
    ensures Next(s, e).streams[x].room[t] == s.streams[x].room[t]
  {
    match e
    case Connected(_, _) =>
    case Connection(l, status, ok) => RoomAtConnection(s, l, status, ok, t, x);
    case Data(_, _) =>
    case Ended(_, _) =>
    case Closed(_) =>
    case Signal => RoomAtSignal(s, t, x);
  }

  lemma RoomByDispatch(s: State, u: TaskId, op: Op, t: TaskId, x: nat)
    requires OpEnabled(s, op) && StreamEvent(Dispatch(u, op)) && u != t && x < |s.streams| && t in s.streams[x].room
    ensures x < |DoDispatch(s, u, op).streams| && t in DoDispatch(s, u, op).streams[x].room
    ensures DoDispatch(s, u, op).streams[x].room[t] == s.streams[x].room[t]
  {
    match op
    case TcpConnect(_) =>
    case TcpAccept(_) =>
    case StreamRead(_, _, _) =>
    case StreamClose(_) =>
    case ListenerClose(_) =>
    case ProcSpawn(_, _) =>
    case StdioOpen(_, _) =>
  }

  lemma ReadWaitsAtStart(s: State, u: TaskId, op: Op, t: TaskId, x: nat)
    requires OpEnabled(s, op) && !Closes(op) && t in In(s.core, Readers(x))
    requires ParkSlot(s, op) == Readers(x)
    ensures t in In(DoDispatch(s, u, op).core, Readers(x))
  {
    assert DoDispatch(s, u, op) == DoRead(s, u, x, op.n, op.r);
  }

  lemma ReadWaitsAtData(s: State, owner: map<TaskId, Slot>, chunk: seq<byte>, t: TaskId, x: nat)
    requires Linear(s.core, owner) && x < |s.streams| && t in In(s.core, Readers(x))
    ensures var c := OnData(s, x, chunk).core; t in c.done || t in In(c, Readers(x))
  {
    assert Owned(s.core, owner, Readers(x));
    RemoveMembers(In(s.core, Readers(x)), 0);
  }

  lemma ReadWaitsAtEnd(c: Core, owner: map<TaskId, Slot>, r: int, t: TaskId, x: nat)
    requires Linear(c, owner) && t in In(c, Readers(x))
    ensures t in FinishSlots(c, {Readers(x)}, r).done
  {
    HeldNotDone(c, owner, Readers(x), t);
    DoneFinished(c, owner, {Readers(x)}, r, t);
  }

  lemma {:induction false} ReadWaitsAtSignal(run: seq<Event>, s: State, t: TaskId, x: nat)
    requires Reaches(run, s) && Enabled(s, Signal) && t in In(s.core, Readers(x))
    ensures var c := Next(s, Signal).core; t in c.done || t in In(c, Readers(x))
  {
    if Graceful(s) {
      SweepIsExact(run, s);
      SweptRead(s.core, Next(s, Signal).core, t, x);
    } else {
      HardSignal(s);
    }
  }

  lemma SweptRead(c: Core, c': Core, t: TaskId, x: nat)
    requires Swept(c, c') && t in In(c, Readers(x))
    ensures t in c'.done
  {
  }

  /** A queued read stays queued until it completes. */
  lemma {:induction false} ReadWaits(run: seq<Event>, s: State, e: Event, t: TaskId, x: nat)
    requires Reaches(run, s) && Enabled(s, e) && t in In(s.core, Readers(x))
    ensures t in Next(s, e).core.done || t in In(Next(s, e).core, Readers(x))
  {
    var owner := RunLinear(run, s);
    if !Touches(s, e, Readers(x)) {
      SlotFrame(s, e, Readers(x));
    } else {
      match e
      case Dispatch(u, op) =>
        if Closes(op) {
          ReadWaitsAtEnd(s.core, owner, ECANCELED, t, x);
        } else {
          ReadWaitsAtStart(s, u, op, t, x);
        }
      case Data(_, chunk) => ReadWaitsAtData(s, owner, chunk, t, x);
      case Ended(_, r) => ReadWaitsAtEnd(s.core, owner, r, t, x);
      case Signal => ReadWaitsAtSignal(run, s, t, x);
    }
  }

  /** No read task is told of more bytes than it asked for. */
  lemma {:induction false} ReadFits(run: seq<Event>, s: State, t: TaskId, x: nat, n: nat, q: int)
    requires Reaches(run, s) && Dispatch(t, StreamRead(x, n, q)) in run
    ensures ReadOk(s, t, x, n)
  {
    var s0, e := LastStep(run, s);
    var init := run[..|run| - 1];
    var owner := RunLinear(init, s0);
    if e == Dispatch(t, StreamRead(x, n, q)) {
      ReadBegins(s0, t, x, n, q);
    } else {
      ReadFits(init, s0, t, x, n, q);
      ReadStep(init, s0, e, t, x, n);
    }
  }

  lemma {:induction false} ReadStep(run: seq<Event>, s: State, e: Event, t: TaskId, x: nat, n: nat)
    requires Reaches(run, s) && Enabled(s, e) && ReadOk(s, t, x, n)
    ensures ReadOk(Next(s, e), t, x, n)
  {
    var owner := RunLinear(run, s);
    var s' := Next(s, e);
    var _ := NextLinear(s, owner, e);
    if t in s.core.done {
      StreamsKept(run, s, e, x);
    } else {
      HeldNotDone(s.core, owner, Readers(x), t);
      RoomKept(s, e, t, x);
      ReadWaits(run, s, e, t, x);
      if t in s'.core.done {
        RunResultStep(run, s, e, t, s'.core.done[t]);
        ReadCause(s, owner, e, t, x, n, s'.core.done[t]);
      }
    }
  }

  lemma {:induction false} StreamsKept(run: seq<Event>, s: State, e: Event, x: nat)
    requires Reaches(run, s) && Enabled(s, e) && x < |s.streams|
    ensures x < |Next(s, e).streams|
  {
    RunInv(run, s);
    GrowsStep(s, e, x);
  }
}
