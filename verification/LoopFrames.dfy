/** What an event of the loop thread leaves alone: slots, and whole groups of handles. */
module LoopFrames {
  import opened Ownership
  import opened LoopSpec
  import opened LoopOwnership

  // --- Slots -------------------------------------------------------------------------------------

  /** The slots a close operation may change. */
  predicate CloseTouches(s: State, op: Op, slot: Slot) {
    match op
    case StreamClose(x) => slot == Readers(x) || slot == StreamCloser(x)
    case ListenerClose(l) => l in s.registry && (slot == Acceptors(l) || slot == ListenerCloser(l))
    case ProcClose(p) => slot == ProcessCloser(p)
    case WatchClose(w) => slot == NextEvent(w) || slot == WatcherCloser(w)
    case _ => false
  }

  /** The slots an event may change. */
  predicate Touches(s: State, e: Event, slot: Slot) {
    match e
    case Dispatch(_, op) => if Closes(op) then CloseTouches(s, op, slot) else slot == ParkSlot(s, op)
    case RequestDone(_, _) => slot == Request
    case TimerFired(_) => slot == Timer || slot == TimerClosing
    case TimerClosed(_) => slot == TimerClosing
    case Connected(x, _) => slot == Connecting(x)
    case Connection(l, _, _) => slot == Acceptors(l)
    case Data(x, _) => slot == Readers(x)
    case Ended(x, _) => slot == Readers(x)
    case ProcExited(p, _) => slot == Waiter(p)
    case FsChanged(w, _) => slot == NextEvent(w)
    case Closed(obj) => slot == CloserSlot(obj) || (obj.AProcess? && slot == Waiter(obj.id))
    case Signal => slot.Readers? || slot.Acceptors?
  }

  lemma SlotByClose(s: State, t: TaskId, op: Op, slot: Slot)
    requires OpEnabled(s, op) && Closes(op) && !CloseTouches(s, op, slot)
    ensures In(DoDispatch(s, t, op).core, slot) == In(s.core, slot)
  {
    match op
    case StreamClose(x) => InFinished(s.core, {Readers(x)}, ECANCELED, slot);
    case ListenerClose(l) => InFinished(s.core, AcceptorSlots({l}), ECANCELED, slot);
    case ProcClose(_) =>
    case WatchClose(w) => InFinished(s.core, {NextEvent(w)}, ECANCELED, slot);
  }

  lemma SlotByStart(s: State, t: TaskId, op: Op, slot: Slot)
    requires OpEnabled(s, op) && !Closes(op) && slot != ParkSlot(s, op)
    ensures In(DoDispatch(s, t, op).core, slot) == In(s.core, slot)
  {
    var _ := StartCore(s, t, op);
  }

  lemma SlotBySignal(s: State, slot: Slot)
    requires !slot.Readers? && !slot.Acceptors?
    ensures In(OnSignal(s).core, slot) == In(s.core, slot)
  {
    var a, b := AcceptorSlots(s.registry), ReaderSlots(s.reading);
    InFinished(s.core, a, ECANCELED, slot);
    InFinished(FinishSlots(s.core, a, ECANCELED), b, ECANCELED, slot);
  }

  lemma SlotBySingle(s: State, e: Event, slot: Slot)
    requires Enabled(s, e) && Single(e) && slot != SingleSlot(e)
    ensures In(Next(s, e).core, slot) == In(s.core, slot)
  {
    var _, _ := SingleCore(s, e);
  }

  lemma SlotByProcessGone(s: State, p: nat, slot: Slot)
    requires PhaseOf(s, AProcess(p)).Some? && slot != Waiter(p) && slot != ProcessCloser(p)
    ensures In(OnClosed(s, AProcess(p)).core, slot) == In(s.core, slot)
  {
  }

  lemma SlotFrame(s: State, e: Event, slot: Slot)
    requires Enabled(s, e) && !Touches(s, e, slot)
    ensures In(Next(s, e).core, slot) == In(s.core, slot)
  {
    if Single(e) {
      SlotBySingle(s, e, slot);
    } else if e.Signal? {
      SlotBySignal(s, slot);
    } else if e.Ended? {
      InFinished(s.core, {Readers(e.s)}, e.r, slot);
    } else if e.Closed? {
      SlotByProcessGone(s, e.obj.id, slot);
    } else if e.TimerFired? {
    } else if Closes(e.op) {
      SlotByClose(s, e.t, e.op, slot);
    } else {
      SlotByStart(s, e.t, e.op, slot);
    }
  }

  // --- Handles -----------------------------------------------------------------------------------

  predicate StreamEvent(e: Event) {
    match e
    case Dispatch(_, op) =>
      op.TcpConnect? || op.TcpAccept? || op.StreamRead? || op.StreamClose? || op.ListenerClose? || op.ProcSpawn?
        || op.StdioOpen?
    case Closed(obj) => obj.AStream?
    case _ => e.Connected? || e.Connection? || e.Data? || e.Ended? || e.Signal?
  }

  predicate ListenerEvent(e: Event) {
    match e
    case Dispatch(_, op) => op.TcpListen? || op.TcpAccept? || op.ListenerClose?
    case Closed(obj) => obj.AListener?
    case _ => e.Connection? || e.Signal?
  }

  predicate ProcessEvent(e: Event) {
    match e
    case Dispatch(_, op) => op.ProcSpawn? || op.ProcClose?
    case Closed(obj) => obj.AProcess?
    case _ => e.ProcExited?
  }

  predicate WatcherEvent(e: Event) {
    match e
    case Dispatch(_, op) => op.WatchOpen? || op.WatchNext? || op.WatchClose?
    case Closed(obj) => obj.AWatcher?
    case _ => e.FsChanged?
  }

  ghost predicate FieldsKept(s: State, e: Event, s': State) {
    && (!StreamEvent(e) ==> s'.streams == s.streams)
    && (!ListenerEvent(e) ==> s'.listeners == s.listeners)
    && (!ProcessEvent(e) ==> s'.processes == s.processes)
    && (!WatcherEvent(e) ==> s'.watchers == s.watchers)
    && s'.signaled == (s.signaled || e.Signal?)
  }

  lemma FieldsByClose(s: State, t: TaskId, op: Op)
    requires OpEnabled(s, op) && Closes(op)
    ensures FieldsKept(s, Dispatch(t, op), DoDispatch(s, t, op))
  {
    match op
    case StreamClose(_) =>
    case ListenerClose(_) =>
    case ProcClose(_) =>
    case WatchClose(_) =>
  }

  lemma FieldsByStart(s: State, t: TaskId, op: Op)
    requires OpEnabled(s, op) && !Closes(op)
    ensures FieldsKept(s, Dispatch(t, op), DoDispatch(s, t, op))
  {
    match op
    case TcpConnect(_) =>
    case TcpListen(_) =>
    case TcpAccept(_) =>
    case StreamRead(_, _, _) =>
    case ProcWait(_) =>
    case WatchNext(_) =>
    case _ =>
  }

  lemma FieldsByCallback(s: State, e: Event)
    requires Enabled(s, e) && !e.Dispatch?
    ensures FieldsKept(s, e, Next(s, e))
  {
    match e
    case Connection(_, _, _) =>
    case Closed(_) =>
    case Signal =>
    case _ =>
  }

  lemma FieldFrame(s: State, e: Event)
    requires Enabled(s, e)
    ensures FieldsKept(s, e, Next(s, e))
  {
    if !e.Dispatch? {
      FieldsByCallback(s, e);
    } else if Closes(e.op) {
      FieldsByClose(s, e.t, e.op);
    } else {
      FieldsByStart(s, e.t, e.op);
    }
  }
}
