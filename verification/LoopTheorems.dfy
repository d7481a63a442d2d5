/** What the loop thread guarantees over every run, whatever callbacks the environment chooses. */
module LoopTheorems {
  import opened Common
  import opened Ownership
  import opened LoopSpec
  import opened LoopInvariant
  import opened LoopOwnership
  import opened LoopFrames
  import opened LoopSteps

  /** The state is reached by some run. */
  ghost predicate Reaches(run: seq<Event>, s: State) { After(run) == Some(s) }

  lemma {:induction false} Extend(run: seq<Event>, s: State, e: Event)
    requires Reaches(run, s) && Enabled(s, e)
    ensures Reaches(run + [e], Next(s, e))
  {
    assert (run + [e])[..|run|] == run;
  }

  /** The last event of a run and the state before it. */
  lemma {:induction false} LastStep(run: seq<Event>, s: State) returns (s0: State, e: Event)
    requires Reaches(run, s) && run != []
    ensures e == run[|run| - 1] && run == run[..|run| - 1] + [e]
    ensures Reaches(run[..|run| - 1], s0) && Enabled(s0, e) && s == Next(s0, e)
  {
    s0, e := After(run[..|run| - 1]).value, run[|run| - 1];
  }

  lemma InitOk()
    ensures Inv(INIT) && Linear(INIT.core, map[])
  {
    assert forall slot :: In(INIT.core, slot) == [];
  }

  lemma {:induction false} RunKeeps(run: seq<Event>, s: State) returns (owner: map<TaskId, Slot>)
    requires Reaches(run, s)
    ensures Inv(s) && Linear(s.core, owner)
  {
    if run == [] {
      InitOk();
      owner := map[];
    } else {
      var last := |run| - 1;
      var s0 := After(run[..last]).value;
      var owner0 := RunKeeps(run[..last], s0);
      owner := NextKeeps(s0, owner0, run[last]);
    }
  }

  lemma {:induction false} RunInv(run: seq<Event>, s: State)
    requires Reaches(run, s)
    ensures Inv(s)
  {
    var _ := RunKeeps(run, s);
  }

  lemma {:induction false} RunLinear(run: seq<Event>, s: State) returns (owner: map<TaskId, Slot>)
    requires Reaches(run, s)
    ensures Linear(s.core, owner)
  {
    owner := RunKeeps(run, s);
  }

  // --- Task linearity ------------------------------------------------------------------------------

  /** The tasks dispatched in a run. */
  function Dispatched(run: seq<Event>): set<TaskId> {
    if run == [] then {} else
    var last := run[|run| - 1];
    Dispatched(run[..|run| - 1]) + if last.Dispatch? then {last.t} else {}
  }

  lemma SeenStep(s: State, e: Event)
    requires Enabled(s, e)
    ensures Next(s, e).core.seen == s.core.seen + if e.Dispatch? then {e.t} else {}
  {
    if !e.Dispatch? {
      DroppedByCallback(s, e);
    } else if Closes(e.op) {
      match e.op
      case ListenerClose(_) =>
      case _ =>
    } else {
      var _ := StartCore(s, e.t, e.op);
    }
  }

  lemma {:induction false} SeenIsDispatched(run: seq<Event>, s: State)
    requires Reaches(run, s)
    ensures s.core.seen == Dispatched(run)
  {
    if run != [] {
      var last := |run| - 1;
      var s0 := After(run[..last]).value;
      SeenIsDispatched(run[..last], s0);
      SeenStep(s0, run[last]);
    }
  }

  /**
    The tasks the code forgets at an event: a refused file operation, a wait that is overwritten, or a
    wait that is pending when the process object is deleted.
   */
  function LostBy(s: State, e: Event): set<TaskId> {
    match e
    case Dispatch(t, FsRequest(r)) => if r < 0 then {t} else {}
    case Dispatch(_, ProcWait(p)) =>
      if p < |s.processes| && s.processes[p].exited.None? then Elements(In(s.core, Waiter(p))) else {}
    case Closed(AProcess(p)) => Elements(In(s.core, Waiter(p)))
    case _ => {}
  }

  /** The same as a guard: file calls are accepted, one wait at a time, none when the process goes. */
  predicate Loses(s: State, e: Event) {
    match e
    case Dispatch(_, FsRequest(r)) => r < 0
    case Dispatch(_, ProcWait(p)) =>
      p < |s.processes| && s.processes[p].exited.None? && In(s.core, Waiter(p)) != []
    case Closed(AProcess(p)) => In(s.core, Waiter(p)) != []
    case _ => false
  }

  lemma LosesIff(s: State, e: Event)
    ensures Loses(s, e) <==> LostBy(s, e) != {}
  {
    if Loses(s, e) {
      match e
      case Dispatch(_, op) =>
        assert op.ProcWait? ==> In(s.core, Waiter(op.p))[0] in LostBy(s, e);
      case Closed(obj) => assert In(s.core, Waiter(obj.id))[0] in LostBy(s, e);
    }
  }

  lemma DroppedByClose(s: State, t: TaskId, op: Op)
    requires Objects(s) && OpEnabled(s, op) && Closes(op)
    ensures DoDispatch(s, t, op).core.dropped == s.core.dropped
  {
    match op
    case StreamClose(x) => assert StreamOk(s, x);
    case ListenerClose(l) => assert ListenerOk(s, l);
    case ProcClose(p) => assert ProcessOk(s, p);
    case WatchClose(w) => assert WatcherOk(s, w);
  }

  lemma DroppedByStart(s: State, t: TaskId, op: Op)
    requires OpEnabled(s, op) && !Closes(op)
    ensures DoDispatch(s, t, op).core.dropped == s.core.dropped + LostBy(s, Dispatch(t, op))
  {
    match op
    case FsRequest(_) =>
    case StreamRead(_, _, _) =>
    case ProcWait(_) =>
    case WatchNext(_) =>
    case _ =>
  }

  lemma DroppedByCallback(s: State, e: Event)
    requires Enabled(s, e) && !e.Dispatch?
    ensures Next(s, e).core.dropped == s.core.dropped + LostBy(s, e) && Next(s, e).core.seen == s.core.seen
  {
    if Single(e) {
      var _, _ := SingleCore(s, e);
    }
  }

  lemma DroppedStep(s: State, e: Event)
    requires Objects(s) && Enabled(s, e)
    ensures Next(s, e).core.dropped == s.core.dropped + LostBy(s, e)
  {
    if !e.Dispatch? {
      DroppedByCallback(s, e);
    } else if Closes(e.op) {
      DroppedByClose(s, e.t, e.op);
    } else {
      DroppedByStart(s, e.t, e.op);
    }
  }

  /** The tasks forgotten in a run. */
  ghost function Lost(run: seq<Event>): set<TaskId> {
    if run == [] then {} else
    var before := After(run[..|run| - 1]);
    Lost(run[..|run| - 1]) + if before.Some? then LostBy(before.value, run[|run| - 1]) else {}
  }

  lemma {:induction false} DroppedIsLost(run: seq<Event>, s: State)
    requires Reaches(run, s)
    ensures s.core.dropped == Lost(run)
  {
    if run != [] {
      var last := |run| - 1;
      var s0 := After(run[..last]).value;
      DroppedIsLost(run[..last], s0);
      RunInv(run[..last], s0);
      DroppedStep(s0, run[last]);
    }
  }

  /** Position `i` of a slot holds the task. */
  ghost predicate At(c: Core, t: TaskId, slot: Slot, i: nat) {
    i < |In(c, slot)| && In(c, slot)[i] == t
  }

  ghost predicate Held(c: Core, t: TaskId) { exists slot, i: nat :: At(c, t, slot, i) }

  ghost predicate Kept(c: Core, t: TaskId) { t in c.done || Held(c, t) }

  lemma HeldIsOwned(c: Core, owner: map<TaskId, Slot>, t: TaskId)
    requires Linear(c, owner)
    ensures Held(c, t) <==> t in owner
  {
    if Held(c, t) {
      var slot, i: nat :| At(c, t, slot, i);
      assert Owned(c, owner, slot);
    }
    if t in owner {
      var i: nat :| i < |In(c, owner[t])| && In(c, owner[t])[i] == t;
      assert At(c, t, owner[t], i);
    }
  }

  lemma OnePosition(c: Core, owner: map<TaskId, Slot>, t: TaskId, a: Slot, i: nat, b: Slot, j: nat)
    requires Linear(c, owner) && At(c, t, a, i) && At(c, t, b, j)
    ensures a == b && i == j
  {
    assert Owned(c, owner, a) && Owned(c, owner, b);
    assert t in In(c, a) && t in In(c, b);
  }

  /** The object a slot is part of. */
  function OwnerOf(slot: Slot): Option<Object> {
    match slot
    case Connecting(x) => Some(AStream(x))
    case Readers(x) => Some(AStream(x))
    case StreamCloser(x) => Some(AStream(x))
    case Acceptors(l) => Some(AListener(l))
    case ListenerCloser(l) => Some(AListener(l))
    case Waiter(p) => Some(AProcess(p))
    case ProcessCloser(p) => Some(AProcess(p))
    case NextEvent(w) => Some(AWatcher(w))
    case WatcherCloser(w) => Some(AWatcher(w))
    case _ => None
  }

  /** The slot is part of no object, or of one that exists and has not been deleted. */
  ghost predicate Alive(s: State, slot: Slot) {
    OwnerOf(slot).None? || (PhaseOf(s, OwnerOf(slot).value).Some? && !PhaseOf(s, OwnerOf(slot).value).value.Deleted?)
  }

  lemma HeldIsAlive(s: State, slot: Slot)
    requires Objects(s) && In(s.core, slot) != []
    ensures Alive(s, slot)
  {
    match OwnerOf(slot)
    case Some(AStream(x)) => assert StreamOk(s, x);
    case Some(AListener(l)) => assert ListenerOk(s, l);
    case Some(AProcess(p)) => assert ProcessOk(s, p);
    case Some(AWatcher(w)) => assert WatcherOk(s, w);
    case None =>
  }

  /**
    Every dispatched task is in exactly one position of one slot, or has completed, or was forgotten by
    one of the three events that forget tasks; never two of these, and nothing else is held. No slot of
    a deleted object holds a task.
   */
  lemma {:induction false} TaskLinearity(run: seq<Event>, s: State)
    requires Reaches(run, s)
    ensures forall t :: t in Dispatched(run) <==> t in s.core.done || Held(s.core, t) || t in Lost(run)
    ensures forall t | Held(s.core, t) :: t !in s.core.done && t !in Lost(run)
    ensures s.core.done.Keys !! Lost(run)
    ensures forall t, a, i: nat, b, j: nat | At(s.core, t, a, i) && At(s.core, t, b, j) :: a == b && i == j
    ensures forall slot | In(s.core, slot) != [] :: Alive(s, slot)
  {
    forall slot | In(s.core, slot) != [] ensures Alive(s, slot) {
      RunInv(run, s);
      HeldIsAlive(s, slot);
    }
    var owner := RunLinear(run, s);
    SeenIsDispatched(run, s);
    DroppedIsLost(run, s);
    forall t ensures Held(s.core, t) <==> t in owner {
      HeldIsOwned(s.core, owner, t);
    }
    forall t, a, i: nat, b, j: nat | At(s.core, t, a, i) && At(s.core, t, b, j) ensures a == b && i == j {
      OnePosition(s.core, owner, t, a, i, b, j);
    }
  }

  /** Every dispatched task has completed or is held. */
  ghost predicate AllKept(c: Core) { forall t | t in c.seen :: Kept(c, t) }

  lemma AllKeptIff(c: Core, owner: map<TaskId, Slot>)
    requires Linear(c, owner)
    ensures AllKept(c) <==> c.dropped == {}
  {
    forall t ensures Held(c, t) <==> t in owner {
      HeldIsOwned(c, owner, t);
    }
    if c.dropped != {} {
      var t :| t in c.dropped;
      assert t in c.seen && !Kept(c, t);
    }
  }

  /**
    The exact condition for keeping every task. A file operation is kept iff libuv accepts it, a wait
    drops another task iff one is pending for a running process, and the end of the close of a process
    drops a task iff one is waiting for it; no other event drops any.
   */
  lemma {:induction false} KeptIff(run: seq<Event>, s: State, e: Event)
    requires Reaches(run, s) && Enabled(s, e) && AllKept(s.core)
    ensures AllKept(Next(s, e).core) <==> !Loses(s, e)
  {
    var owner := RunKeeps(run, s);
    var owner' := NextLinear(s, owner, e);
    AllKeptIff(s.core, owner);
    AllKeptIff(Next(s, e).core, owner');
    DroppedStep(s, e);
    LosesIff(s, e);
  }

  lemma {:induction false} LostGrows(run: seq<Event>, more: seq<Event>)
    ensures Lost(run) <= Lost(run + more)
    decreases |more|
  {
    if more == [] {
      assert run + more == run;
    } else {
      assert (run + more)[..|run + more| - 1] == run + more[..|more| - 1];
      LostGrows(run, more[..|more| - 1]);
    }
  }

  /** A forgotten task never completes, however the run goes on. */
  lemma {:induction false} LostForGood(run: seq<Event>, more: seq<Event>, s': State, t: TaskId)
    requires Reaches(run + more, s') && t in Lost(run)
    ensures !Kept(s'.core, t)
  {
    LostGrows(run, more);
    TaskLinearity(run + more, s');
  }

  /** A file operation that libuv refuses: dispatched, and forgotten. */
  lemma RefusedFileIsLost() returns (run: seq<Event>, s: State)
    ensures run == [Dispatch(0, FsRequest(-2))] && Reaches(run, s)
    ensures 0 in Dispatched(run) && 0 in Lost(run) && !Kept(s.core, 0)
  {
    run := [Dispatch(0, FsRequest(-2))];
    assert run[..0] == [];
    s := Next(INIT, run[0]);
    LostForGood(run, [], s, 0);
    assert run + [] == run;
  }

  /** A completed task is never completed again: its result stands whatever happens later. */
  lemma {:induction false} CompletedForGood(run: seq<Event>, more: seq<Event>, s: State, s': State)
    requires Reaches(run, s) && Reaches(run + more, s')
    ensures DoneGrows(s.core, s'.core) && s.core.done.Keys <= s'.core.done.Keys
    decreases |more|
  {
    if more == [] {
      assert run + more == run;
    } else {
      var last := |more| - 1;
      assert (run + more)[..|run + more| - 1] == run + more[..last];
      var s1 := After(run + more[..last]).value;
      CompletedForGood(run, more[..last], s, s1);
      var owner := RunKeeps(run + more[..last], s1);
      var _ := NextKeeps(s1, owner, more[last]);
    }
  }

  // --- Read demultiplexing -------------------------------------------------------------------------

  /** The bytes that arrived on stream `x` in a run. */
  function Arrived(run: seq<Event>, x: nat): seq<byte> {
    if run == [] then [] else
    var last := run[|run| - 1];
    Arrived(run[..|run| - 1], x) + if last.Data? && last.s == x then last.chunk else []
  }

  /** A read that is neither refused by uv_read_start nor failed fast after a signal. */
  predicate Queues(s: State, e: Event, x: nat) {
    e.Dispatch? && e.op.StreamRead? && e.op.s == x && x < |s.streams| && !s.signaled
      && (s.streams[x].active || e.op.r >= 0)
  }

  /** The reads queued on stream `x` in a run, in dispatch order. */
  ghost function QueuedReads(run: seq<Event>, x: nat): seq<TaskId> {
    if run == [] then [] else
    var last := run[|run| - 1];
    var before := After(run[..|run| - 1]);
    QueuedReads(run[..|run| - 1], x) + if before.Some? && Queues(before.value, last, x) then [last.t] else []
  }

  /** The reads and bytes of stream `x` grow by what is given. */
  ghost predicate Grows(s: State, s': State, x: nat, asked: seq<TaskId>, bytes: seq<byte>) {
    && |s.streams| <= |s'.streams|
    && (x < |s.streams| ==>
          && s'.streams[x].asked == s.streams[x].asked + asked
          && s'.streams[x].incoming == s.streams[x].incoming + bytes)
    && (|s.streams| <= x < |s'.streams| ==> s'.streams[x].asked == asked && s'.streams[x].incoming == bytes)
    && (|s.streams| <= x ==> asked == [] && bytes == [])
  }

  lemma GrowsByRead(s: State, t: TaskId, y: nat, k: nat, r: int, x: nat)
    requires y < |s.streams|
    ensures Grows(s, DoRead(s, t, y, k, r), x, if Queues(s, Dispatch(t, StreamRead(y, k, r)), x) then [t] else [], [])
  {
  }

  lemma GrowsByAccept(s: State, t: TaskId, l: nat, x: nat)
    requires OpEnabled(s, TcpAccept(l))
    ensures Grows(s, DoAccept(s, t, l), x, [], [])
  {
  }

  lemma GrowsByDispatch(s: State, t: TaskId, op: Op, x: nat)
    requires OpEnabled(s, op) && StreamEvent(Dispatch(t, op)) && !Closes(op)
    ensures Grows(s, DoDispatch(s, t, op), x, if Queues(s, Dispatch(t, op), x) then [t] else [], [])
  {
    match op
    case TcpConnect(_) =>
    case TcpAccept(l) => GrowsByAccept(s, t, l, x);
    case StreamRead(y, k, r) => GrowsByRead(s, t, y, k, r, x);
    case ProcSpawn(_, _) =>
    case StdioOpen(_, _) =>
  }

  lemma GrowsByClose(s: State, t: TaskId, op: Op, x: nat)
    requires OpEnabled(s, op) && (op.StreamClose? || op.ListenerClose?)
    ensures Grows(s, DoDispatch(s, t, op), x, [], [])
  {
    match op
    case StreamClose(_) =>
    case ListenerClose(_) =>
  }

  lemma GrowsByData(s: State, y: nat, chunk: seq<byte>, x: nat)
    requires y < |s.streams| && In(s.core, Readers(y)) != []
    ensures Grows(s, OnData(s, y, chunk), x, [], if y == x then chunk else [])
  {
  }

  lemma GrowsByConnection(s: State, l: nat, status: int, ok: bool, x: nat)
    requires l < |s.listeners|
    ensures Grows(s, OnConnection(s, l, status, ok), x, [], [])
  {
  }

  lemma GrowsBySignal(s: State, x: nat)
    ensures Grows(s, OnSignal(s), x, [], [])
  {
  }

  lemma GrowsByCallback(s: State, e: Event, x: nat)
    requires Enabled(s, e) && !e.Dispatch? && StreamEvent(e) && (e.Data? ==> In(s.core, Readers(e.s)) != [])
    ensures Grows(s, Next(s, e), x, [], if e.Data? && e.s == x then e.chunk else [])
  {
    match e
    case Connected(_, _) =>
    case Connection(l, status, ok) => GrowsByConnection(s, l, status, ok, x);
    case Data(y, chunk) => GrowsByData(s, y, chunk, x);
    case Ended(_, _) =>
    case Closed(_) =>
    case Signal => GrowsBySignal(s, x);
  }

  lemma GrowsStep(s: State, e: Event, x: nat)
    requires Inv(s) && Enabled(s, e)
    ensures Grows(s, Next(s, e), x, if Queues(s, e, x) then [e.t] else [], if e.Data? && e.s == x then e.chunk else [])
  {
    if !StreamEvent(e) {
      FieldFrame(s, e);
    } else if !e.Dispatch? {
      assert e.Data? ==> StreamOk(s, e.s);
      GrowsByCallback(s, e, x);
    } else if Closes(e.op) {
      GrowsByClose(s, e.t, e.op, x);
    } else {
      GrowsByDispatch(s, e.t, e.op, x);
    }
  }

  lemma {:induction false} ReadHistory(run: seq<Event>, s: State, x: nat)
    requires Reaches(run, s)
    ensures if x < |s.streams|
            then s.streams[x].asked == QueuedReads(run, x) && s.streams[x].incoming == Arrived(run, x)
            else QueuedReads(run, x) == [] && Arrived(run, x) == []
  {
    if run != [] {
      var last := |run| - 1;
      var s0 := After(run[..last]).value;
      ReadHistory(run[..last], s0, x);
      RunInv(run[..last], s0);
      GrowsStep(s0, run[last], x);
    }
  }

  /**
    Reads are served in dispatch order and share out the arriving bytes exactly: with `k` reads served,
    the buffers of the first `k` queued reads concatenate to everything that arrived. A read that got
    bytes completed with their number, within its buffer; any other completed with 0 or an error.
   */
  lemma {:induction false} ReadsShareBytes(run: seq<Event>, s: State, x: nat) returns (k: nat)
    requires Reaches(run, s) && x < |s.streams|
    ensures var tasks, st := QueuedReads(run, x), s.streams[x];
            && k <= |tasks| && In(s.core, Readers(x)) == tasks[k..]
            && Bytes(st.got, tasks[..k]) == Arrived(run, x)
            && (forall i | 0 <= i < k :: tasks[i] in s.core.done && ReadResult(st, tasks[i], s.core.done[tasks[i]]))
            && (forall i | k <= i < |tasks| :: tasks[i] !in st.got && tasks[i] !in s.core.done)
  {
    ReadHistory(run, s, x);
    UnservedPending(run, s, Readers(x));
    RunInv(run, s);
    assert StreamOk(s, x);
    k := Shares(s.core, x, s.streams[x]);
  }

  lemma {:induction false} UnservedPending(run: seq<Event>, s: State, slot: Slot)
    requires Reaches(run, s)
    ensures forall t | t in In(s.core, slot) :: t !in s.core.done
  {
    var owner := RunLinear(run, s);
    assert Owned(s.core, owner, slot);
  }

  lemma {:induction false} Shares(c: Core, x: nat, st: Stream) returns (k: nat)
    requires Served(c, x, st) && forall t | t in In(c, Readers(x)) :: t !in c.done
    ensures k <= |st.asked| && In(c, Readers(x)) == st.asked[k..] && Bytes(st.got, st.asked[..k]) == st.incoming
    ensures forall i | 0 <= i < k :: st.asked[i] in c.done && ReadResult(st, st.asked[i], c.done[st.asked[i]])
    ensures forall i | k <= i < |st.asked| :: st.asked[i] !in st.got && st.asked[i] !in c.done
  {
    k := ServedCount(c, x, st);
    forall i | k <= i < |st.asked| ensures st.asked[i] !in st.got && st.asked[i] !in c.done {
      assert st.asked[i] == In(c, Readers(x))[i - k];
    }
  }

  /** EOF or an error completes every queued reader with it. */
  lemma {:induction false} EndReachesAll(run: seq<Event>, s: State, x: nat, r: int)
    requires Reaches(run, s) && Enabled(s, Ended(x, r))
    ensures var s' := Next(s, Ended(x, r));
            && In(s'.core, Readers(x)) == [] && !s'.streams[x].active
            && forall t | t in In(s.core, Readers(x)) :: t in s'.core.done && s'.core.done[t] == r
  {
    var owner := RunLinear(run, s);
    FinishSlotsEffect(s.core, owner, {Readers(x)}, r);
  }

  // --- Reading streams and the graceful signal -------------------------------------------------------

  /** A stream is being read exactly while it has queued reads, and it is registered exactly then. */
  lemma {:induction false} ReadingExact(run: seq<Event>, s: State, x: nat)
    requires Reaches(run, s) && x < |s.streams|
    ensures s.streams[x].active <==> In(s.core, Readers(x)) != []
    ensures s.streams[x].active <==> x in s.reading
    ensures s.streams[x].active ==> s.streams[x].phase.Open?
  {
    RunInv(run, s);
    assert StreamOk(s, x);
  }

  lemma {:induction false} SignaledIff(run: seq<Event>, s: State)
    requires Reaches(run, s)
    ensures s.signaled <==> Signal in run
  {
    if run != [] {
      var last := |run| - 1;
      var s0 := After(run[..last]).value;
      SignaledIff(run[..last], s0);
      FieldFrame(s0, run[last]);
      assert run == run[..last] + [run[last]];
    }
  }

  /** Once a signal has been handled no read is queued, ever again. */
  lemma {:induction false} NoReadsAfterSignal(run: seq<Event>, s: State)
    requires Reaches(run, s) && Signal in run && !s.exited
    ensures s.reading == {} && forall x: nat :: In(s.core, Readers(x)) == []
    ensures forall x | 0 <= x < |s.streams| :: !s.streams[x].active
  {
    RunInv(run, s);
    SignaledIff(run, s);
    forall x: nat ensures In(s.core, Readers(x)) == [] && (x < |s.streams| ==> !s.streams[x].active) {
      assert StreamOk(s, x);
    }
  }

  /** The first signal with open listeners. */
  ghost predicate Graceful(s: State) { Enabled(s, Signal) && !s.signaled && s.registry != {} }

  /** Every reader and acceptor has completed with ECANCELED, and no other task has moved. */
  ghost predicate Swept(c: Core, c': Core) {
    && (forall slot :: In(c', slot) == if slot.Readers? || slot.Acceptors? then [] else In(c, slot))
    && (forall x: nat, t | t in In(c, Readers(x)) :: t in c'.done && c'.done[t] == ECANCELED)
    && (forall l: nat, t | t in In(c, Acceptors(l)) :: t in c'.done && c'.done[t] == ECANCELED)
  }

  lemma SweepCore(s: State)
    requires Graceful(s)
    ensures Next(s, Signal).core
         == FinishSlots(FinishSlots(s.core, AcceptorSlots(s.registry), ECANCELED), ReaderSlots(s.reading), ECANCELED)
  {
  }

  /**
    The sweep cancels every queued read and every parked accept, and moves no other task: writes,
    timers, connects, waits and closes go on.
   */
  lemma {:induction false} SweepIsExact(run: seq<Event>, s: State)
    requires Reaches(run, s) && Graceful(s)
    ensures Swept(s.core, Next(s, Signal).core)
  {
    var owner := RunLinear(run, s);
    RunInv(run, s);
    SweptSlots(s);
    SweepEffect(s.core, owner, s.registry, s.reading);
    SweepCore(s);
  }

  lemma SweepEffect(c: Core, owner: map<TaskId, Slot>, ls: set<nat>, xs: set<nat>)
    requires Linear(c, owner)
    requires forall x: nat :: In(c, Readers(x)) == [] || Readers(x) in ReaderSlots(xs)
    requires forall l: nat :: In(c, Acceptors(l)) == [] || Acceptors(l) in AcceptorSlots(ls)
    ensures Swept(c, FinishSlots(FinishSlots(c, AcceptorSlots(ls), ECANCELED), ReaderSlots(xs), ECANCELED))
  {
    TwoSweeps(c, owner, AcceptorSlots(ls), ReaderSlots(xs));
  }

  lemma SweptSlots(s: State)
    requires Objects(s)
    ensures forall x: nat :: In(s.core, Readers(x)) == [] || Readers(x) in ReaderSlots(s.reading)
    ensures forall l: nat :: In(s.core, Acceptors(l)) == [] || Acceptors(l) in AcceptorSlots(s.registry)
  {
    forall x: nat ensures In(s.core, Readers(x)) == [] || Readers(x) in ReaderSlots(s.reading) {
      assert StreamOk(s, x);
    }
    forall l: nat ensures In(s.core, Acceptors(l)) == [] || Acceptors(l) in AcceptorSlots(s.registry) {
      assert ListenerOk(s, l);
    }
  }

  lemma TwoSweeps(c: Core, owner: map<TaskId, Slot>, a: set<Slot>, b: set<Slot>)
    requires Linear(c, owner)
    ensures var c' := FinishSlots(FinishSlots(c, a, ECANCELED), b, ECANCELED);
            && (forall slot :: In(c', slot) == if slot in a || slot in b then [] else In(c, slot))
            && (forall slot, t | (slot in a || slot in b) && t in In(c, slot) ::
                 t in c'.done && c'.done[t] == ECANCELED)
  {
    FinishSlotsEffect(c, owner, a, ECANCELED);
    FinishSlotsLinear(c, owner, a, ECANCELED);
    FinishSlotsEffect(FinishSlots(c, a, ECANCELED), Without(owner, a), b, ECANCELED);
  }

  /** The sweep closes every open listener and every stream waiting in a backlog, and no other handle. */
  lemma {:induction false} SweepCloses(run: seq<Event>, s: State)
    requires Reaches(run, s) && Graceful(s)
    ensures var s' := Next(s, Signal);
            && s'.registry == {} && !s'.exited && |s'.listeners| == |s.listeners| && |s'.streams| == |s.streams|
            && (forall l | 0 <= l < |s.listeners| ::
                  var li := s.listeners[l];
                  s'.listeners[l] == if li.phase.Open? then CloseListener(li) else li)
            && (forall x | 0 <= x < |s.streams| ::
                  var st := s.streams[x];
                  s'.streams[x] == if st.phase.Backlog? then CloseOne(st) else st.(active := false))
  {
    RunInv(run, s);
    var s1 := s.(signaled := true);
    forall l | 0 <= l < |s.listeners| ensures l in s.registry <==> s.listeners[l].phase.Open? {
      assert ListenerOk(s, l);
    }
    forall x | 0 <= x < |s.streams|
      ensures x in AllBacklog(s1, s.registry) <==> s.streams[x].phase.Backlog?
      ensures x in s.reading <==> s.streams[x].active
      ensures s.streams[x].active ==> s.streams[x].phase.Open?
    {
      BacklogIsClosed(s, x);
    }
  }

  lemma BacklogIsClosed(s: State, x: nat)
    requires Objects(s) && x < |s.streams|
    ensures x in AllBacklog(s.(signaled := true), s.registry) <==> s.streams[x].phase.Backlog?
    ensures x in s.reading <==> s.streams[x].active
    ensures s.streams[x].active ==> s.streams[x].phase.Open?
  {
    assert StreamOk(s, x);
    if s.streams[x].phase.Backlog? {
      assert ListenerOk(s, s.streams[x].phase.listener);
    }
    forall l | l in s.registry && l < |s.listeners| && x in s.listeners[l].accepted
      ensures s.streams[x].phase.Backlog?
    {
      assert ListenerOk(s, l);
    }
  }

  // --- The signal that exits -------------------------------------------------------------------------

  ghost predicate ListenersOpen(s: State) {
    exists l: nat :: PhaseOf(s, AListener(l)) == Some(Open)
  }

  lemma ExitedByDispatch(s: State, t: TaskId, op: Op)
    requires OpEnabled(s, op)
    ensures DoDispatch(s, t, op).exited == s.exited
  {
    match op
    case StreamRead(_, _, _) =>
    case ListenerClose(_) =>
    case WatchNext(_) =>
    case _ =>
  }

  lemma ExitedStep(s: State, e: Event)
    requires Enabled(s, e)
    ensures Next(s, e).exited <==> e.Signal? && (s.signaled || s.registry == {})
  {
    match e
    case Dispatch(t, op) => ExitedByDispatch(s, t, op);
    case Connection(_, _, _) =>
    case Closed(_) =>
    case _ =>
  }

  lemma {:induction false} RegistryIsOpen(run: seq<Event>, s: State)
    requires Reaches(run, s)
    ensures ListenersOpen(s) <==> s.registry != {}
  {
    RunInv(run, s);
    if ListenersOpen(s) {
      var l: nat :| PhaseOf(s, AListener(l)) == Some(Open);
      assert ListenerOk(s, l);
    }
    if s.registry != {} {
      var l :| l in s.registry;
      assert ListenerOk(s, l);
      assert PhaseOf(s, AListener(l)) == Some(Open);
    }
  }

  /** The last event is a signal, and an earlier one was there or no listener was open. */
  ghost predicate EndsHard(run: seq<Event>) {
    && run != [] && run[|run| - 1] == Signal
    && After(run[..|run| - 1]).Some?
    && (Signal in run[..|run| - 1] || !ListenersOpen(After(run[..|run| - 1]).value))
  }

  /**
    The process exits exactly at a signal that is not the first, or that finds no listener open, and
    nothing happens after it.
   */
  lemma {:induction false} ExitIff(run: seq<Event>, s: State)
    requires Reaches(run, s)
    ensures s.exited <==> EndsHard(run)
    ensures forall i | 0 <= i < |run| :: !EndsHard(run[..i])
  {
    if run != [] {
      var s0, e := LastStep(run, s);
      var init := run[..|run| - 1];
      ExitIff(init, s0);
      SignaledIff(init, s0);
      RegistryIsOpen(init, s0);
      ExitedStep(s0, e);
      forall i | 0 <= i < |run| ensures !EndsHard(run[..i]) {
        if i < |init| {
          assert run[..i] == init[..i];
        }
      }
    }
  }
}
