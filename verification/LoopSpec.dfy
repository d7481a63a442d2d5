/**
  The loop thread of the native runtime as a transition system: `Dispatch` translates one task, and
  libuv callbacks arrive as the environment chooses. Everything runs on one thread, so each event is
  atomic; a chunk of stream data is one event because libuv calls alloc and read back to back.

  `Enabled` states what is asked of callers: no operation on a handle whose close has begun, except
  closing a listener again.
 */
module LoopSpec {
  import opened Common
  import opened Ownership

  const ECANCELED := -125
  const EBUSY := -16

  datatype Phase = Opening | Backlog(listener: nat) | Open | Closing | Deleted

  /** How Scheme learned of a stream: as the result of a task, or as a pipe of the process a task spawned. */
  datatype Giver = Nobody | AsResult(t: TaskId) | AsPipe(t: TaskId, p: nat)

  /**
    `closes` counts uv_close calls; `asked` and `incoming` record the queued reads and the bytes read.
    `room` and `got` are fields of the stream's read tasks: buffer size and bytes in the buffer.
   */
  datatype Stream = Stream(phase: Phase, closes: nat, giver: Giver, active: bool,
                           asked: seq<TaskId>, incoming: seq<byte>,
                           room: map<TaskId, nat>, got: map<TaskId, seq<byte>>)

  /** `asks` and `conns` record the accept tasks and the accepted connections, in order. */
  datatype Listener = Listener(phase: Phase, closes: nat, accepted: seq<nat>, asks: seq<TaskId>, conns: seq<nat>)

  datatype Process = Process(phase: Phase, closes: nat, exited: Option<int>)

  datatype FsEvent = FsEvent(name: string, flags: int)

  /**
    `asks` and `arrived` record the next-tasks that were not refused and the events, in order;
    `names` is the `str_out` field of the watcher's next-tasks.
   */
  datatype Watcher = Watcher(phase: Phase, closes: nat, events: seq<FsEvent>, asks: seq<TaskId>, arrived: seq<FsEvent>,
                             names: map<TaskId, string>)

  datatype State = State(
    core: Core,
    streams: seq<Stream>, reading: set<nat>,
    listeners: seq<Listener>, registry: set<nat>,
    processes: seq<Process>, watchers: seq<Watcher>,
    signaled: bool, exited: bool)

  const INIT := State(NO_TASKS, [], {}, [], {}, [], [], false, false)

  /** A handle as a task result: never 0. */
  function Handle(id: nat): int { id + 1 }

  const NEW_STREAM := Stream(Opening, 0, Nobody, false, [], [], map[], map[])

  const NEW_WATCHER := Watcher(Open, 0, [], [], [], map[])

  // --- Operations, with the answers libuv gives when they are started -----------------------------

  datatype Op =
    | FsRequest(r: int)               // r < 0: refused at once, which the code does not notice
    | StartRequest(r: int)            // DNS, write; r < 0: refused at once
    | StartTimer
    | TcpConnect(r: int)
    | TcpListen(r: int)
    | TcpAccept(l: nat)
    | StreamRead(s: nat, n: nat, r: int)
    | StreamClose(s: nat)
    | ListenerClose(l: nat)
    | ProcSpawn(capture: bool, r: int)
    | ProcWait(p: nat)
    | ProcKill(p: nat, r: int)
    | ProcClose(p: nat)
    | WatchOpen(r: int)
    | WatchNext(w: nat)
    | WatchClose(w: nat)
    | StdioOpen(streamable: bool, r: int)

  datatype Object = AStream(id: nat) | AListener(id: nat) | AProcess(id: nat) | AWatcher(id: nat)

  datatype Event =
    | Dispatch(t: TaskId, op: Op)
    | RequestDone(i: nat, r: int)
    | TimerFired(i: nat)
    | TimerClosed(i: nat)
    | Connected(s: nat, status: int)
    | Connection(l: nat, status: int, accepted: bool)
    | Data(s: nat, chunk: seq<byte>)
    | Ended(s: nat, r: int)           // EOF (0) or a read error (negative)
    | ProcExited(p: nat, status: int)
    | FsChanged(w: nat, ev: FsEvent)
    | Closed(obj: Object)
    | Signal

  // --- Closing -----------------------------------------------------------------------------------

  function CloseOne(s: Stream): Stream { s.(phase := Closing, closes := s.closes + 1) }

  /** uv_close on each stream of a set. */
  function CloseStreams(streams: seq<Stream>, xs: set<nat>): (r: seq<Stream>)
    ensures |r| == |streams|
  {
    seq(|streams|, i requires 0 <= i < |streams| => if i in xs then CloseOne(streams[i]) else streams[i])
  }

  ghost function AllBacklog(s: State, ls: set<nat>): set<nat> {
    set x, l | l in ls && l < |s.listeners| && x in s.listeners[l].accepted :: x
  }

  function AcceptorSlots(ls: set<nat>): set<Slot> { set l | l in ls :: Acceptors(l) }

  function ReaderSlots(ss: set<nat>): set<Slot> { set s | s in ss :: Readers(s) }

  function CloseListener(l: Listener): Listener {
    l.(phase := Closing, closes := l.closes + 1, accepted := [])
  }

  /** `abort_listener` on every listener of a set: drop backlogs, cancel acceptors, begin the closes. */
  ghost function AbortListeners(s: State, ls: set<nat>): State {
    s.(core := FinishSlots(s.core, AcceptorSlots(ls), ECANCELED),
       streams := CloseStreams(s.streams, AllBacklog(s, ls)),
       listeners := seq(|s.listeners|, i requires 0 <= i < |s.listeners| =>
                          if i in ls then CloseListener(s.listeners[i]) else s.listeners[i]),
       registry := s.registry - ls)
  }

  /** `cancel_pending_reads`. */
  ghost function CancelReads(s: State): State {
    s.(core := FinishSlots(s.core, ReaderSlots(s.reading), ECANCELED),
       streams := seq(|s.streams|, i requires 0 <= i < |s.streams| =>
                        if i in s.reading then s.streams[i].(active := false) else s.streams[i]),
       reading := {})
  }

  // --- Dispatch ----------------------------------------------------------------------------------

  function ToAnswer(s: State, t: TaskId, r: int): State { s.(core := Answer(s.core, t, r)) }

  function DoConnect(s: State, t: TaskId, r: int): State {
    var x := |s.streams|;
    if r < 0 then ToAnswer(s.(streams := s.streams + [CloseOne(NEW_STREAM)]), t, r)
    else s.(streams := s.streams + [NEW_STREAM], core := Hold(s.core, Connecting(x), t))
  }

  function DoListen(s: State, t: TaskId, r: int): State {
    var l := |s.listeners|;
    if r < 0 then ToAnswer(s.(listeners := s.listeners + [Listener(Closing, 1, [], [], [])]), t, r)
    else ToAnswer(s.(listeners := s.listeners + [Listener(Open, 0, [], [], [])], registry := s.registry + {l}),
                  t, Handle(l))
  }

  function DoAccept(s: State, t: TaskId, l: nat): State
    requires l < |s.listeners|
    requires s.listeners[l].accepted != [] ==> s.listeners[l].accepted[0] < |s.streams|
  {
    var li := s.listeners[l].(asks := s.listeners[l].asks + [t]);
    if li.accepted != [] then
      var x := li.accepted[0];
      ToAnswer(s.(listeners := s.listeners[l := li.(accepted := li.accepted[1..])],
                  streams := s.streams[x := s.streams[x].(phase := Open, giver := AsResult(t))]), t, Handle(x))
    else s.(listeners := s.listeners[l := li], core := Hold(s.core, Acceptors(l), t))
  }

  /** Queue the read and start reading if need be; fail fast once a signal has been seen. */
  function DoRead(s: State, t: TaskId, x: nat, n: nat, r: int): State
    requires x < |s.streams|
  {
    if s.signaled then ToAnswer(s, t, ECANCELED)
    else if !s.streams[x].active && r < 0 then
      // pushed, refused by uv_read_start, popped again
      ToAnswer(s.(reading := if In(s.core, Readers(x)) != [] then s.reading + {x} else s.reading), t, r)
    else
      s.(core := Hold(s.core, Readers(x), t),
         streams := s.streams[x := s.streams[x].(active := true, asked := s.streams[x].asked + [t],
                                                 room := s.streams[x].room[t := n])],
         reading := s.reading + {x})
  }

  ghost function DoStreamClose(s: State, t: TaskId, x: nat): State
    requires x < |s.streams|
  {
    s.(core := Store(FinishSlots(s.core, {Readers(x)}, ECANCELED), StreamCloser(x), t),
       streams := s.streams[x := CloseOne(s.streams[x].(active := false))],
       reading := s.reading - {x})
  }

  ghost function DoListenerClose(s: State, t: TaskId, l: nat): State {
    if l !in s.registry then ToAnswer(s, t, 0)
    else
      var s1 := AbortListeners(s, {l});
      s1.(core := Store(s1.core, ListenerCloser(l), t))
  }

  /** Three pipe streams when stdio is captured; on failure they and the process are closed. */
  function DoSpawn(s: State, t: TaskId, capture: bool, r: int): State {
    var pipe := if r < 0 then CloseOne(NEW_STREAM) else NEW_STREAM.(phase := Open, giver := AsPipe(t, |s.processes|));
    ToAnswer(s.(streams := s.streams + (if capture then [pipe, pipe, pipe] else []),
                processes := s.processes + [if r < 0 then Process(Closing, 1, None) else Process(Open, 0, None)]),
             t, if r < 0 then r else Handle(|s.processes|))
  }

  function DoWait(s: State, t: TaskId, p: nat): State
    requires p < |s.processes|
  {
    match s.processes[p].exited
    case Some(status) => ToAnswer(s, t, status)
    case None => s.(core := Store(s.core, Waiter(p), t))
  }

  function DoProcClose(s: State, t: TaskId, p: nat): State
    requires p < |s.processes|
  {
    s.(core := Store(s.core, ProcessCloser(p), t),
       processes := s.processes[p := s.processes[p].(phase := Closing, closes := s.processes[p].closes + 1)])
  }

  function DoWatchOpen(s: State, t: TaskId, r: int): State {
    if r < 0 then ToAnswer(s.(watchers := s.watchers + [NEW_WATCHER.(phase := Closing, closes := 1)]), t, r)
    else ToAnswer(s.(watchers := s.watchers + [NEW_WATCHER]), t, Handle(|s.watchers|))
  }

  function DoWatchNext(s: State, t: TaskId, w: nat): State
    requires w < |s.watchers|
  {
    var wa := s.watchers[w];
    if In(s.core, NextEvent(w)) != [] then ToAnswer(s, t, EBUSY)
    else if wa.events != [] then
      ToAnswer(s.(watchers := s.watchers[w := wa.(events := wa.events[1..], asks := wa.asks + [t],
                                                  names := wa.names[t := wa.events[0].name])]), t, wa.events[0].flags)
    else s.(watchers := s.watchers[w := wa.(asks := wa.asks + [t])], core := Store(s.core, NextEvent(w), t))
  }

  ghost function DoWatchClose(s: State, t: TaskId, w: nat): State
    requires w < |s.watchers|
  {
    s.(core := Store(FinishSlots(s.core, {NextEvent(w)}, ECANCELED), WatcherCloser(w), t),
       watchers := s.watchers[w := s.watchers[w].(phase := Closing, closes := s.watchers[w].closes + 1)])
  }

  function DoStdioOpen(s: State, t: TaskId, streamable: bool, r: int): State {
    if !streamable then ToAnswer(s, t, 0)
    else if r < 0 then ToAnswer(s.(streams := s.streams + [CloseOne(NEW_STREAM)]), t, r)
    else ToAnswer(s.(streams := s.streams + [NEW_STREAM.(phase := Open, giver := AsResult(t))]), t, Handle(|s.streams|))
  }

  predicate OpEnabled(s: State, op: Op) {
    match op
    case TcpAccept(l) =>
      && l < |s.listeners| && s.listeners[l].phase.Open?
      && (s.listeners[l].accepted != [] ==> s.listeners[l].accepted[0] < |s.streams|)
    case StreamRead(x, _, _) => x < |s.streams| && s.streams[x].phase.Open?
    case StreamClose(x) => x < |s.streams| && s.streams[x].phase.Open?
    case ListenerClose(l) => l < |s.listeners|
    case ProcWait(p) => p < |s.processes| && s.processes[p].phase.Open?
    case ProcKill(p, _) => p < |s.processes| && s.processes[p].phase.Open?
    case ProcClose(p) => p < |s.processes| && s.processes[p].phase.Open?
    case WatchNext(w) => w < |s.watchers| && s.watchers[w].phase.Open?
    case WatchClose(w) => w < |s.watchers| && s.watchers[w].phase.Open?
    case _ => true
  }

  ghost function DoDispatch(s: State, t: TaskId, op: Op): State
    requires OpEnabled(s, op)
  {
    match op
    case FsRequest(r) => s.(core := if r < 0 then Drop(s.core, t) else Hold(s.core, Request, t))
    case StartRequest(r) => if r < 0 then ToAnswer(s, t, r) else s.(core := Hold(s.core, Request, t))
    case StartTimer => s.(core := Hold(s.core, Timer, t))
    case TcpConnect(r) => DoConnect(s, t, r)
    case TcpListen(r) => DoListen(s, t, r)
    case TcpAccept(l) => DoAccept(s, t, l)
    case StreamRead(x, n, r) => DoRead(s, t, x, n, r)
    case StreamClose(x) => DoStreamClose(s, t, x)
    case ListenerClose(l) => DoListenerClose(s, t, l)
    case ProcSpawn(capture, r) => DoSpawn(s, t, capture, r)
    case ProcWait(p) => DoWait(s, t, p)
    case ProcKill(_, r) => ToAnswer(s, t, r)
    case ProcClose(p) => DoProcClose(s, t, p)
    case WatchOpen(r) => DoWatchOpen(s, t, r)
    case WatchNext(w) => DoWatchNext(s, t, w)
    case WatchClose(w) => DoWatchClose(s, t, w)
    case StdioOpen(streamable, r) => DoStdioOpen(s, t, streamable, r)
  }

  // --- Callbacks ---------------------------------------------------------------------------------

  /** `on_connect`: hand the stream over, or discard it. */
  function OnConnect(s: State, x: nat, status: int): State
    requires x < |s.streams| && In(s.core, Connecting(x)) != []
  {
    if status < 0 then
      s.(streams := s.streams[x := CloseOne(s.streams[x])], core := FinishAt(s.core, Connecting(x), 0, status))
    else
      s.(streams := s.streams[x := s.streams[x].(phase := Open, giver := AsResult(In(s.core, Connecting(x))[0]))],
         core := FinishAt(s.core, Connecting(x), 0, Handle(x)))
  }

  /** `on_connection`: the new stream goes to the first acceptor, or to the backlog. */
  function OnConnection(s: State, l: nat, status: int, ok: bool): State
    requires l < |s.listeners|
  {
    var x, li := |s.streams|, s.listeners[l];
    if status < 0 then s
    else if !ok then s.(streams := s.streams + [CloseOne(NEW_STREAM)])
    else if In(s.core, Acceptors(l)) != [] then
      s.(streams := s.streams + [NEW_STREAM.(phase := Open, giver := AsResult(In(s.core, Acceptors(l))[0]))],
         listeners := s.listeners[l := li.(conns := li.conns + [x])],
         core := FinishAt(s.core, Acceptors(l), 0, Handle(x)))
    else
      s.(streams := s.streams + [NEW_STREAM.(phase := Backlog(l))],
         listeners := s.listeners[l := li.(conns := li.conns + [x], accepted := li.accepted + [x])])
  }

  /** `on_alloc` and `on_read` with data: the front reader gets the chunk in its buffer. */
  function OnData(s: State, x: nat, chunk: seq<byte>): State
    requires x < |s.streams|
  {
    var q, st := In(s.core, Readers(x)), s.streams[x];
    if q == [] then s.(streams := s.streams[x := st.(active := false)], reading := s.reading - {x})
    else
      s.(core := FinishAt(s.core, Readers(x), 0, |chunk|),
         streams := s.streams[x := st.(active := |q| > 1, incoming := st.incoming + chunk,
                                       got := st.got[q[0] := chunk])],
         reading := if |q| > 1 then s.reading else s.reading - {x})
  }

  /** `on_read` with EOF or an error: every queued reader gets it. */
  ghost function OnEnded(s: State, x: nat, r: int): State
    requires x < |s.streams|
  {
    s.(core := FinishSlots(s.core, {Readers(x)}, r),
       streams := s.streams[x := s.streams[x].(active := false)],
       reading := s.reading - {x})
  }

  function OnExit(s: State, p: nat, status: int): State
    requires p < |s.processes|
  {
    var s1 := s.(processes := s.processes[p := s.processes[p].(exited := Some(status))]);
    if In(s.core, Waiter(p)) != [] then s1.(core := FinishAt(s.core, Waiter(p), 0, status)) else s1
  }

  function OnFsEvent(s: State, w: nat, ev: FsEvent): State
    requires w < |s.watchers|
  {
    var wa := s.watchers[w].(arrived := s.watchers[w].arrived + [ev]);
    if In(s.core, NextEvent(w)) != [] then
      s.(watchers := s.watchers[w := wa.(names := wa.names[In(s.core, NextEvent(w))[0] := ev.name])],
         core := FinishAt(s.core, NextEvent(w), 0, ev.flags))
    else s.(watchers := s.watchers[w := wa.(events := wa.events + [ev])])
  }

  function CloserSlot(obj: Object): Slot {
    match obj
    case AStream(x) => StreamCloser(x)
    case AListener(l) => ListenerCloser(l)
    case AProcess(p) => ProcessCloser(p)
    case AWatcher(w) => WatcherCloser(w)
  }

  function PhaseOf(s: State, obj: Object): Option<Phase> {
    match obj
    case AStream(x) => if x < |s.streams| then Some(s.streams[x].phase) else None
    case AListener(l) => if l < |s.listeners| then Some(s.listeners[l].phase) else None
    case AProcess(p) => if p < |s.processes| then Some(s.processes[p].phase) else None
    case AWatcher(w) => if w < |s.watchers| then Some(s.watchers[w].phase) else None
  }

  /** Deleting a process destroys its pointer to a pending wait task. */
  function WithoutObject(c: Core, obj: Object): Core {
    if obj.AProcess? then Forget(c, Waiter(obj.id)) else c
  }

  /** `OnClosed`: the object is deleted, then its close task, if any, completes. */
  function OnClosed(s: State, obj: Object): State
    requires PhaseOf(s, obj).Some?
  {
    var s1 := match obj
      case AStream(x) => s.(streams := s.streams[x := s.streams[x].(phase := Deleted)])
      case AListener(l) => s.(listeners := s.listeners[l := s.listeners[l].(phase := Deleted)])
      case AProcess(p) => s.(processes := s.processes[p := s.processes[p].(phase := Deleted)])
      case AWatcher(w) => s.(watchers := s.watchers[w := s.watchers[w].(phase := Deleted)]);
    var c := WithoutObject(s.core, obj);
    s1.(core := if In(c, CloserSlot(obj)) != [] then FinishAt(c, CloserSlot(obj), 0, 0) else c)
  }

  /** SIGINT or SIGTERM: the first with open listeners shuts down gracefully, any other exits. */
  ghost function OnSignal(s: State): State {
    if s.signaled || s.registry == {} then s.(signaled := true, exited := true)
    else CancelReads(AbortListeners(s.(signaled := true), s.registry))
  }

  predicate Enabled(s: State, e: Event) {
    && !s.exited
    && match e
       case Dispatch(t, op) => t !in s.core.seen && OpEnabled(s, op)
       case RequestDone(i, _) => i < |In(s.core, Request)|
       case TimerFired(i) => i < |In(s.core, Timer)|
       case TimerClosed(i) => i < |In(s.core, TimerClosing)|
       case Connected(x, _) => x < |s.streams| && In(s.core, Connecting(x)) != []
       case Connection(l, _, _) => l < |s.listeners| && s.listeners[l].phase.Open?
       case Data(x, chunk) =>
         // libuv reads only while started, and at most what alloc offered
         && x < |s.streams| && s.streams[x].active && chunk != []
         && (In(s.core, Readers(x)) != [] ==>
               var t := In(s.core, Readers(x))[0];
               t in s.streams[x].room && |chunk| <= s.streams[x].room[t])
       case Ended(x, r) => x < |s.streams| && s.streams[x].active && r <= 0
       case ProcExited(p, _) => p < |s.processes| && s.processes[p].phase.Open? && s.processes[p].exited.None?
       case FsChanged(w, _) => w < |s.watchers| && s.watchers[w].phase.Open?
       case Closed(obj) => PhaseOf(s, obj) == Some(Closing)
       case Signal => true
  }

  ghost function Next(s: State, e: Event): State
    requires Enabled(s, e)
  {
    match e
    case Dispatch(t, op) => DoDispatch(s, t, op)
    case RequestDone(i, r) => s.(core := FinishAt(s.core, Request, i, r))
    case TimerFired(i) => s.(core := Shift(s.core, Timer, i, TimerClosing))
    case TimerClosed(i) => s.(core := FinishAt(s.core, TimerClosing, i, 0))
    case Connected(x, status) => OnConnect(s, x, status)
    case Connection(l, status, ok) => OnConnection(s, l, status, ok)
    case Data(x, chunk) => OnData(s, x, chunk)
    case Ended(x, r) => OnEnded(s, x, r)
    case ProcExited(p, status) => OnExit(s, p, status)
    case FsChanged(w, ev) => OnFsEvent(s, w, ev)
    case Closed(obj) => OnClosed(s, obj)
    case Signal => OnSignal(s)
  }

  /** The state after a run, or None when some event of it was not enabled. */
  ghost function After(run: seq<Event>): Option<State> {
    if run == [] then Some(INIT) else
    var last := |run| - 1;
    match After(run[..last])
    case None => None
    case Some(s) => if Enabled(s, run[last]) then Some(Next(s, run[last])) else None
  }
}
