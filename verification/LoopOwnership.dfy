/** Every event of the loop thread keeps task ownership linear. */
module LoopOwnership {
  import opened Ownership
  import opened LoopSpec

  lemma StoreAfterFinish(c: Core, owner: map<TaskId, Slot>, slots: set<Slot>, slot: Slot, t: TaskId)
    returns (owner': map<TaskId, Slot>)
    requires Linear(c, owner) && t !in c.seen
    ensures Linear(Store(FinishSlots(c, slots, ECANCELED), slot, t), owner')
    ensures DoneGrows(c, Store(FinishSlots(c, slots, ECANCELED), slot, t))
  {
    FinishSlotsLinear(c, owner, slots, ECANCELED);
    FinishSlotsEffect(c, owner, slots, ECANCELED);
    StoreLinear(FinishSlots(c, slots, ECANCELED), Without(owner, slots), slot, t);
    owner' := Without(Without(owner, slots), {slot})[t := slot];
  }

  /** What its own dispatch can do to a task when nothing else completes. */
  predicate Begun(c: Core, t: TaskId, c': Core, slot: Slot, r: int) {
    c' == Answer(c, t, r) || c' == Hold(c, slot, t) || c' == Store(c, slot, t) || c' == Drop(c, t)
  }

  lemma BegunLinear(c: Core, owner: map<TaskId, Slot>, t: TaskId, c': Core, slot: Slot, r: int)
    returns (owner': map<TaskId, Slot>)
    requires Linear(c, owner) && t !in c.seen && Begun(c, t, c', slot, r)
    ensures Linear(c', owner') && DoneGrows(c, c')
  {
    if c' == Answer(c, t, r) {
      AnswerLinear(c, owner, t, r);
      owner' := owner;
    } else if c' == Hold(c, slot, t) {
      HoldLinear(c, owner, slot, t);
      owner' := owner[t := slot];
    } else if c' == Store(c, slot, t) {
      StoreLinear(c, owner, slot, t);
      owner' := Without(owner, {slot})[t := slot];
    } else {
      DropLinear(c, owner, t);
      owner' := owner;
    }
  }

  predicate Closes(op: Op) {
    op.StreamClose? || op.ListenerClose? || op.ProcClose? || op.WatchClose?
  }

  /** Where a task may be parked by its own dispatch. */
  function ParkSlot(s: State, op: Op): Slot {
    match op
    case StartTimer => Timer
    case TcpConnect(_) => Connecting(|s.streams|)
    case TcpAccept(l) => Acceptors(l)
    case StreamRead(x, _, _) => Readers(x)
    case ProcWait(p) => Waiter(p)
    case WatchNext(w) => NextEvent(w)
    case _ => Request
  }

  lemma StartCore(s: State, t: TaskId, op: Op) returns (r: int)
    requires OpEnabled(s, op) && !Closes(op)
    ensures Begun(s.core, t, DoDispatch(s, t, op).core, ParkSlot(s, op), r)
  {
    r := match op
      case StartRequest(r) => r
      case TcpConnect(r) => r
      case TcpListen(r) => if r < 0 then r else Handle(|s.listeners|)
      case TcpAccept(l) => if s.listeners[l].accepted != [] then Handle(s.listeners[l].accepted[0]) else 0
      case StreamRead(_, _, r) => if s.signaled then ECANCELED else r
      case ProcSpawn(_, r) => if r < 0 then r else Handle(|s.processes|)
      case ProcWait(p) => if s.processes[p].exited.Some? then s.processes[p].exited.value else 0
      case ProcKill(_, r) => r
      case WatchOpen(r) => if r < 0 then r else Handle(|s.watchers|)
      case WatchNext(w) =>
        if In(s.core, NextEvent(w)) != [] then EBUSY
        else if s.watchers[w].events != [] then s.watchers[w].events[0].flags else 0
      case StdioOpen(streamable, r) => if !streamable then 0 else if r < 0 then r else Handle(|s.streams|)
      case _ => 0;
  }

  lemma StartLinear(s: State, owner: map<TaskId, Slot>, t: TaskId, op: Op) returns (owner': map<TaskId, Slot>)
    requires Linear(s.core, owner) && t !in s.core.seen && OpEnabled(s, op) && !Closes(op)
    ensures Linear(DoDispatch(s, t, op).core, owner') && DoneGrows(s.core, DoDispatch(s, t, op).core)
  {
    var r := StartCore(s, t, op);
    owner' := BegunLinear(s.core, owner, t, DoDispatch(s, t, op).core, ParkSlot(s, op), r);
  }

  lemma CloseLinear(s: State, owner: map<TaskId, Slot>, t: TaskId, op: Op) returns (owner': map<TaskId, Slot>)
    requires Linear(s.core, owner) && t !in s.core.seen && OpEnabled(s, op) && Closes(op)
    ensures Linear(DoDispatch(s, t, op).core, owner') && DoneGrows(s.core, DoDispatch(s, t, op).core)
  {
    var c, c' := s.core, DoDispatch(s, t, op).core;
    match op
    case StreamClose(x) => owner' := StoreAfterFinish(c, owner, {Readers(x)}, StreamCloser(x), t);
    case ListenerClose(l) =>
      if l in s.registry {
        owner' := StoreAfterFinish(c, owner, AcceptorSlots({l}), ListenerCloser(l), t);
      } else {
        owner' := BegunLinear(c, owner, t, c', Request, 0);
      }
    case ProcClose(p) => owner' := BegunLinear(c, owner, t, c', ProcessCloser(p), 0);
    case WatchClose(w) => owner' := StoreAfterFinish(c, owner, {NextEvent(w)}, WatcherCloser(w), t);
  }

  /** Callbacks about one slot, in which at most one task completes. */
  predicate Single(e: Event) {
    !e.Dispatch? && !e.TimerFired? && !e.Ended? && !e.Signal? && !(e.Closed? && e.obj.AProcess?)
  }

  function SingleSlot(e: Event): Slot
    requires Single(e)
  {
    match e
    case RequestDone(_, _) => Request
    case TimerClosed(_) => TimerClosing
    case Connected(x, _) => Connecting(x)
    case Connection(l, _, _) => Acceptors(l)
    case Data(x, _) => Readers(x)
    case ProcExited(p, _) => Waiter(p)
    case FsChanged(w, _) => NextEvent(w)
    case Closed(obj) => CloserSlot(obj)
  }

  /** Nothing completes, or the i-th task of the slot does. */
  predicate Finished(c: Core, slot: Slot, i: nat, r: int, c': Core) {
    c' == c || (i < |In(c, slot)| && c' == FinishAt(c, slot, i, r))
  }

  lemma SingleCore(s: State, e: Event) returns (i: nat, r: int)
    requires Enabled(s, e) && Single(e)
    ensures Finished(s.core, SingleSlot(e), i, r, Next(s, e).core)
  {
    i := if e.RequestDone? || e.TimerClosed? then e.i else 0;
    r := match e
      case RequestDone(_, r) => r
      case Connected(x, status) => if status < 0 then status else Handle(x)
      case Connection(_, _, _) => Handle(|s.streams|)
      case Data(_, chunk) => |chunk|
      case ProcExited(_, status) => status
      case FsChanged(_, ev) => ev.flags
      case _ => 0;
  }

  lemma FinishedLinear(c: Core, owner: map<TaskId, Slot>, slot: Slot, i: nat, r: int, c': Core)
    returns (owner': map<TaskId, Slot>)
    requires Linear(c, owner) && Finished(c, slot, i, r, c')
    ensures Linear(c', owner') && DoneGrows(c, c')
  {
    owner' := owner;
    if c' != c {
      FinishAtLinear(c, owner, slot, i, r);
      owner' := owner - {In(c, slot)[i]};
    }
  }

  lemma SignalLinear(s: State, owner: map<TaskId, Slot>) returns (owner': map<TaskId, Slot>)
    requires Linear(s.core, owner)
    ensures Linear(OnSignal(s).core, owner') && DoneGrows(s.core, OnSignal(s).core)
  {
    owner' := owner;
    if !s.signaled && s.registry != {} {
      var a, b := AcceptorSlots(s.registry), ReaderSlots(s.reading);
      var c1 := FinishSlots(s.core, a, ECANCELED);
      FinishSlotsLinear(s.core, owner, a, ECANCELED);
      FinishSlotsEffect(s.core, owner, a, ECANCELED);
      FinishSlotsLinear(c1, Without(owner, a), b, ECANCELED);
      FinishSlotsEffect(c1, Without(owner, a), b, ECANCELED);
      owner' := Without(Without(owner, a), b);
    }
  }

  lemma SingleLinear(s: State, owner: map<TaskId, Slot>, e: Event) returns (owner': map<TaskId, Slot>)
    requires Linear(s.core, owner) && Enabled(s, e) && Single(e)
    ensures Linear(Next(s, e).core, owner') && DoneGrows(s.core, Next(s, e).core)
  {
    var i, r := SingleCore(s, e);
    owner' := FinishedLinear(s.core, owner, SingleSlot(e), i, r, Next(s, e).core);
  }

  /** The end of the close of a process: a pending wait is forgotten, the close task completes. */
  lemma ProcessGoneLinear(s: State, owner: map<TaskId, Slot>, p: nat) returns (owner': map<TaskId, Slot>)
    requires Linear(s.core, owner) && PhaseOf(s, AProcess(p)).Some?
    ensures Linear(OnClosed(s, AProcess(p)).core, owner') && DoneGrows(s.core, OnClosed(s, AProcess(p)).core)
  {
    var c := Forget(s.core, Waiter(p));
    ForgetLinear(s.core, owner, Waiter(p));
    owner' := FinishedLinear(c, Without(owner, {Waiter(p)}), ProcessCloser(p), 0, 0, OnClosed(s, AProcess(p)).core);
  }

  /** Every event keeps ownership linear and leaves completed tasks as they are. */
  lemma NextLinear(s: State, owner: map<TaskId, Slot>, e: Event) returns (owner': map<TaskId, Slot>)
    requires Linear(s.core, owner) && Enabled(s, e)
    ensures Linear(Next(s, e).core, owner') && DoneGrows(s.core, Next(s, e).core)
  {
    var c := s.core;
    if Single(e) {
      owner' := SingleLinear(s, owner, e);
    } else {
      match e
      case Dispatch(t, op) =>
        if Closes(op) {
          owner' := CloseLinear(s, owner, t, op);
        } else {
          owner' := StartLinear(s, owner, t, op);
        }
      case TimerFired(i) =>
        ShiftLinear(c, owner, Timer, i, TimerClosing);
        owner' := owner[In(c, Timer)[i] := TimerClosing];
      case Ended(x, r) =>
        FinishSlotsLinear(c, owner, {Readers(x)}, r);
        FinishSlotsEffect(c, owner, {Readers(x)}, r);
        owner' := Without(owner, {Readers(x)});
      case Signal => owner' := SignalLinear(s, owner);
      case Closed(obj) => owner' := ProcessGoneLinear(s, owner, obj.id);
    }
  }
}
