/** Every event of the loop thread keeps the invariant and the linear ownership of tasks. */
module LoopSteps {
  import opened Ownership
  import opened LoopSpec
  import opened LoopInvariant
  import opened LoopOwnership
  import opened LoopStreams
  import opened LoopListeners
  import opened LoopHandles

  // --- The graceful signal -----------------------------------------------------------------------

  /** All readers of the reading streams have completed with ECANCELED; no other slot changed. */
  ghost predicate Cancelled(c: Core, c': Core, xs: set<nat>) {
    && DoneGrows(c, c')
    && (forall slot :: In(c', slot) == if slot.Readers? && slot.stream in xs then [] else In(c, slot))
    && (forall x: nat, i | x in xs && 0 <= i < |In(c, Readers(x))| ::
          In(c, Readers(x))[i] in c'.done && c'.done[In(c, Readers(x))[i]] == ECANCELED)
  }

  lemma CancelSlots(s: State, s': State)
    requires s' == CancelReads(s) && Cancelled(s.core, s'.core, s.reading)
    ensures ListenersSame(s, s') && WatchersSame(s, s') && ProcessesSame(s, s')
  {
  }

  lemma CancelStream(s: State, s': State, x: nat)
    requires StreamOk(s, x) && s' == CancelReads(s) && Cancelled(s.core, s'.core, s.reading)
    ensures StreamOk(s', x) || StreamSame(s, s', x)
  {
    if x in s.reading {
      CancelOthers(s, x, s');
    } else {
      assert StreamSame(s, s', x);
    }
  }

  lemma CancelListener(s: State, s': State, l: nat)
    requires ListenerOk(s, l) && s' == CancelReads(s) && ListenersSame(s, s')
    ensures ListenerSame(s, s', l)
  {
  }

  lemma CancelKeeps(s: State)
    requires Objects(s) && Cancelled(s.core, CancelReads(s).core, s.reading)
    ensures Inv(CancelReads(s))
  {
    var s' := CancelReads(s);
    CancelSlots(s, s');
    forall x: nat ensures StreamOk(s', x) || StreamSame(s, s', x) {
      assert StreamOk(s, x);
      CancelStream(s, s', x);
    }
    forall l: nat ensures ListenerSame(s, s', l) {
      assert ListenerOk(s, l);
      CancelListener(s, s', l);
    }
    Assemble(s, s');
  }

  lemma CancelOthers(s: State, x: nat, s': State)
    requires StreamOk(s, x) && x in s.reading && s' == CancelReads(s) && Cancelled(s.core, s'.core, s.reading)
    ensures StreamOk(s', x)
  {
    ServedDrain(s.core, x, s.streams[x], s'.core, s'.streams[x], ECANCELED);
  }

  lemma SignalKeeps(s: State, owner: map<TaskId, Slot>)
    requires Inv(s) && Linear(s.core, owner) && Enabled(s, Signal)
    ensures Inv(OnSignal(s))
  {
    if s.signaled || s.registry == {} {
      HardExit(s, OnSignal(s));
    } else {
      var s1 := s.(signaled := true);
      var s2 := AbortListeners(s1, s.registry);
      SignaledObjects(s);
      SweepAborts(s1, owner, s.registry);
      AbortKeeps(s1, s.registry);
      FinishSlotsLinear(s.core, owner, AcceptorSlots(s.registry), ECANCELED);
      SweepCancels(s2, Without(owner, AcceptorSlots(s.registry)));
      CancelKeeps(s2);
    }
  }

  lemma SignaledObjects(s: State)
    requires Objects(s)
    ensures Objects(s.(signaled := true))
    ensures forall x: nat | x in s.reading :: x < |s.streams|
  {
    Assemble(s, s.(signaled := true));
    forall x: nat | x in s.reading ensures x < |s.streams| {
      assert StreamOk(s, x);
    }
  }

  lemma HardExit(s: State, s': State)
    requires Objects(s) && s' == s.(signaled := true, exited := true)
    ensures Objects(s')
  {
    Assemble(s, s');
  }

  lemma SweepAborts(s: State, owner: map<TaskId, Slot>, ls: set<nat>)
    requires Linear(s.core, owner)
    ensures Aborted(s.core, AbortListeners(s, ls).core, ls)
  {
    FinishSlotsEffect(s.core, owner, AcceptorSlots(ls), ECANCELED);
  }

  lemma SweepCancels(s: State, owner: map<TaskId, Slot>)
    requires Linear(s.core, owner)
    ensures Cancelled(s.core, CancelReads(s).core, s.reading)
  {
    FinishSlotsEffect(s.core, owner, ReaderSlots(s.reading), ECANCELED);
  }

  // --- The end of a close ------------------------------------------------------------------------

  lemma StreamGone(s: State, x: nat, s': State)
    requires StreamOk(s, x) && x < |s.streams| && s.streams[x].phase.Closing? && s' == OnClosed(s, AStream(x))
    requires DoneGrows(s.core, s'.core)
    ensures OneStream(s, s', x) && StreamOk(s', x)
  {
    assert In(s'.core, StreamCloser(x)) == [];
    assert forall slot | slot != StreamCloser(x) :: In(s'.core, slot) == In(s.core, slot);
    ServedKept(s.core, s'.core, x, s.streams[x], s'.streams[x]);
  }

  lemma ListenerGone(s: State, l: nat, s': State)
    requires ListenerOk(s, l) && l < |s.listeners| && s.listeners[l].phase.Closing? && s' == OnClosed(s, AListener(l))
    requires DoneGrows(s.core, s'.core)
    ensures OnlyNet(s, s', {}, {l}) && BacklogsKept(s, s', {}, {l}) && ListenerOk(s', l)
  {
    assert In(s'.core, ListenerCloser(l)) == [];
    assert forall slot | slot != ListenerCloser(l) :: In(s'.core, slot) == In(s.core, slot);
  }

  lemma ClosedKeeps(s: State, obj: Object)
    requires Inv(s) && Enabled(s, Closed(obj)) && DoneGrows(s.core, OnClosed(s, obj).core)
    ensures Inv(OnClosed(s, obj))
  {
    var s' := OnClosed(s, obj);
    match obj
    case AStream(x) =>
      assert StreamOk(s, x);
      StreamGone(s, x, s');
      OneStreamKeeps(s, s', x);
    case AListener(l) =>
      assert ListenerOk(s, l);
      ListenerGone(s, l, s');
      NetKeepsOne(s, s', {}, l);
    case AProcess(p) => ProcessClosed(s, p, s');
    case AWatcher(w) => WatcherClosed(s, w, s');
  }

  lemma ProcessGone(s: State, p: nat, s': State)
    requires ProcessOk(s, p) && p < |s.processes| && s.processes[p].phase.Closing? && s' == OnClosed(s, AProcess(p))
    ensures OnlyProcess(s, s', p) && ProcessOk(s', p)
  {
    assert In(s'.core, ProcessCloser(p)) == [] && In(s'.core, Waiter(p)) == [];
  }

  lemma ProcessClosed(s: State, p: nat, s': State)
    requires Inv(s) && Enabled(s, Closed(AProcess(p))) && s' == OnClosed(s, AProcess(p)) && DoneGrows(s.core, s'.core)
    ensures Inv(s')
  {
    assert ProcessOk(s, p);
    ProcessGone(s, p, s');
    OneProcess(s, s', p);
  }

  lemma WatcherGone(s: State, w: nat, s': State)
    requires WatcherOk(s, w) && w < |s.watchers| && s.watchers[w].phase.Closing? && s' == OnClosed(s, AWatcher(w))
    ensures OnlyWatcher(s, s', w) && WatcherOk(s', w)
  {
    assert In(s'.core, WatcherCloser(w)) == [];
  }

  lemma WatcherClosed(s: State, w: nat, s': State)
    requires Inv(s) && Enabled(s, Closed(AWatcher(w))) && s' == OnClosed(s, AWatcher(w)) && DoneGrows(s.core, s'.core)
    ensures Inv(s')
  {
    assert WatcherOk(s, w);
    WatcherGone(s, w, s');
    OneWatcher(s, s', w);
  }

  // --- Every event -------------------------------------------------------------------------------

  lemma Front(c: Core, owner: map<TaskId, Slot>, slot: Slot)
    requires Linear(c, owner)
    ensures In(c, slot) != [] ==>
              && In(c, slot)[0] in c.seen && In(c, slot)[0] !in c.done
              && forall i | 0 < i < |In(c, slot)| :: In(c, slot)[i] != In(c, slot)[0]
  {
    assert Owned(c, owner, slot);
  }

  lemma DrainEffect(c: Core, owner: map<TaskId, Slot>, x: nat, r: int)
    requires Linear(c, owner)
    ensures Drained(c, FinishSlots(c, {Readers(x)}, r), x, r)
    ensures In(FinishSlots(c, {Readers(x)}, r), Connecting(x)) == In(c, Connecting(x))
    ensures In(FinishSlots(c, {Readers(x)}, r), StreamCloser(x)) == In(c, StreamCloser(x))
  {
    FinishSlotsEffect(c, owner, {Readers(x)}, r);
  }

  lemma CloseKeeps(s: State, owner: map<TaskId, Slot>, t: TaskId, op: Op)
    requires Inv(s) && Linear(s.core, owner) && t !in s.core.seen && OpEnabled(s, op) && Closes(op)
    requires DoneGrows(s.core, DoDispatch(s, t, op).core)
    ensures Inv(DoDispatch(s, t, op)) || (op.ListenerClose? && op.l !in s.registry)
  {
    match op
    case StreamClose(x) =>
      DrainEffect(s.core, owner, x, ECANCELED);
      StreamCloseKeeps(s, t, x);
    case ListenerClose(l) =>
      if l in s.registry {
        SweepAborts(s, owner, {l});
        ListenerCloseKeeps(s, t, l);
      }
    case ProcClose(p) => ProcCloseKeeps(s, t, p);
    case WatchClose(w) => WatchCloseKeeps(s, t, w);
  }

  lemma DispatchKeeps(s: State, t: TaskId, op: Op)
    requires Inv(s) && t !in s.core.seen && s.core.done.Keys <= s.core.seen && OpEnabled(s, op)
    requires !Closes(op) && (op.StreamRead? ==> !s.signaled)
    requires DoneGrows(s.core, DoDispatch(s, t, op).core)
    ensures Inv(DoDispatch(s, t, op)) || Plain(s, Dispatch(t, op))
  {
    match op
    case TcpConnect(r) => ConnectKeeps(s, t, r);
    case TcpListen(r) => ListenKeeps(s, t, r);
    case TcpAccept(l) => if s.listeners[l].accepted != [] { AcceptServed(s, t, l); } else { AcceptQueued(s, t, l); }
    case StreamRead(x, n, r) => ReadKeeps(s, t, x, n, r);
    case ProcSpawn(capture, r) => SpawnKeeps(s, t, capture, r);
    case ProcWait(p) => WaitKeeps(s, t, p);
    case WatchOpen(r) => WatchOpenKeeps(s, t, r);
    case WatchNext(w) => WatchNextKeeps(s, t, w);
    case StdioOpen(streamable, r) => if streamable { StdioKeeps(s, t, r); }
    case _ =>
  }

  lemma CallbackKeeps(s: State, owner: map<TaskId, Slot>, e: Event)
    requires Inv(s) && Linear(s.core, owner) && Enabled(s, e) && !e.Dispatch? && DoneGrows(s.core, Next(s, e).core)
    ensures Inv(Next(s, e)) || Plain(s, e)
  {
    match e
    case Connected(x, status) => ConnectedKeeps(s, x, status);
    case Connection(l, status, ok) =>
      if status >= 0 {
        if ok { ConnectionKeeps(s, l); } else { ConnectionRefused(s, l); }
      }
    case Data(x, chunk) =>
      Front(s.core, owner, Readers(x));
      DataKeeps(s, x, chunk, if In(s.core, Readers(x)) != [] then In(s.core, Readers(x))[0] else 0);
    case Ended(x, r) =>
      DrainEffect(s.core, owner, x, r);
      EndedKeeps(s, x, r);
    case ProcExited(p, status) => ExitKeeps(s, p, status);
    case FsChanged(w, ev) =>
      Front(s.core, owner, NextEvent(w));
      FsEventKeeps(s, w, ev);
    case Closed(obj) => ClosedKeeps(s, obj);
    case Signal => SignalKeeps(s, owner);
    case _ =>
  }

  /** Every event keeps the invariant and linear ownership, and completed tasks keep their results. */
  lemma NextKeeps(s: State, owner: map<TaskId, Slot>, e: Event) returns (owner': map<TaskId, Slot>)
    requires Inv(s) && Linear(s.core, owner) && Enabled(s, e)
    ensures Inv(Next(s, e)) && Linear(Next(s, e).core, owner') && DoneGrows(s.core, Next(s, e).core)
  {
    owner' := NextLinear(s, owner, e);
    if Plain(s, e) {
      PlainKeeps(s, e);
    } else if e.Dispatch? {
      if Closes(e.op) {
        CloseKeeps(s, owner, e.t, e.op);
      } else {
        DispatchKeeps(s, e.t, e.op);
      }
    } else {
      CallbackKeeps(s, owner, e);
    }
  }
}
