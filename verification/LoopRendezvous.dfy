/** Listeners, watchers and closes over every run: who is paired with what, and what each close request gets. */
module LoopRendezvous {
  import opened Common
  import opened Ownership
  import opened LoopSpec
  import opened LoopInvariant
  import opened LoopOwnership
  import opened LoopFrames
  import opened LoopListeners
  import opened LoopSteps
  import opened LoopTheorems

  // --- Accepts and connections -----------------------------------------------------------------------

  /** The accept tasks of listener `l`, in dispatch order. */
  function AcceptTasks(run: seq<Event>, l: nat): seq<TaskId> {
    if run == [] then [] else
    var last := run[|run| - 1];
    AcceptTasks(run[..|run| - 1], l) + if last.Dispatch? && last.op == TcpAccept(l) then [last.t] else []
  }

  predicate Accepts(e: Event, l: nat) { e.Connection? && e.l == l && e.status >= 0 && e.accepted }

  /** The streams accepted on listener `l`, in order. */
  ghost function Connections(run: seq<Event>, l: nat): seq<nat> {
    if run == [] then [] else
    var before := After(run[..|run| - 1]);
    Connections(run[..|run| - 1], l)
    + if before.Some? && Accepts(run[|run| - 1], l) then [|before.value.streams|] else []
  }

  ghost predicate ListenerGrows(s: State, s': State, l: nat, asks: seq<TaskId>, conns: seq<nat>) {
    && |s.listeners| <= |s'.listeners|
    && (l < |s.listeners| ==>
          && s'.listeners[l].asks == s.listeners[l].asks + asks
          && s'.listeners[l].conns == s.listeners[l].conns + conns)
    && (|s.listeners| <= l < |s'.listeners| ==> s'.listeners[l].asks == asks && s'.listeners[l].conns == conns)
    && (|s.listeners| <= l ==> asks == [] && conns == [])
  }

  lemma ListenerGrowsByDispatch(s: State, t: TaskId, op: Op, l: nat)
    requires OpEnabled(s, op) && ListenerEvent(Dispatch(t, op))
    ensures ListenerGrows(s, DoDispatch(s, t, op), l, if op == TcpAccept(l) then [t] else [], [])
  {
    match op
    case TcpListen(_) =>
    case TcpAccept(_) =>
    case ListenerClose(_) =>
  }

  lemma ListenerGrowsByCallback(s: State, e: Event, l: nat)
    requires Enabled(s, e) && !e.Dispatch? && ListenerEvent(e)
    ensures ListenerGrows(s, Next(s, e), l, [], if Accepts(e, l) then [|s.streams|] else [])
  {
    match e
    case Connection(_, _, _) =>
    case Closed(_) =>
    case Signal =>
  }

  lemma ListenerGrowsStep(s: State, e: Event, l: nat)
    requires Enabled(s, e)
    ensures ListenerGrows(s, Next(s, e), l, if e.Dispatch? && e.op == TcpAccept(l) then [e.t] else [],
                          if Accepts(e, l) then [|s.streams|] else [])
  {
    if !ListenerEvent(e) {
      FieldFrame(s, e);
    } else if e.Dispatch? {
      ListenerGrowsByDispatch(s, e.t, e.op, l);
    } else {
      ListenerGrowsByCallback(s, e, l);
    }
  }

  lemma {:induction false} ListenerHistory(run: seq<Event>, s: State, l: nat)
    requires Reaches(run, s)
    ensures if l < |s.listeners|
            then s.listeners[l].asks == AcceptTasks(run, l) && s.listeners[l].conns == Connections(run, l)
            else AcceptTasks(run, l) == [] && Connections(run, l) == []
  {
    if run != [] {
      var last := |run| - 1;
      var s0, e := After(run[..last]).value, run[last];
      ListenerHistory(run[..last], s0, l);
      ListenerGrowsStep(s0, e, l);
    }
  }

  function Min(a: nat, b: nat): nat { if a <= b then a else b }

  /**
    While a listener is open its k-th accept task completes with its k-th connection, and no
    connection is paired twice. What is left over is parked acceptors or a backlog, never both.
   */
  lemma {:induction false} AcceptRendezvous(run: seq<Event>, s: State, l: nat)
    requires Reaches(run, s) && l < |s.listeners| && s.listeners[l].phase.Open?
    ensures var asks, conns := AcceptTasks(run, l), Connections(run, l);
            var n := Min(|asks|, |conns|);
            && (forall k | 0 <= k < n :: asks[k] in s.core.done && s.core.done[asks[k]] == Handle(conns[k]))
            && (forall i, j | 0 <= i < j < |conns| :: conns[i] != conns[j])
            && In(s.core, Acceptors(l)) == asks[n..] && s.listeners[l].accepted == conns[n..]
            && (In(s.core, Acceptors(l)) == [] || s.listeners[l].accepted == [])
  {
    RunInv(run, s);
    ListenerHistory(run, s, l);
    assert ListenerOk(s, l);
  }

  /** The acceptors of `l` have been cancelled and `t` is in its close slot; no other task has moved. */
  ghost predicate AcceptorsCancelled(c: Core, c': Core, t: TaskId, l: nat) {
    && (forall u | u in In(c, Acceptors(l)) :: u in c'.done && c'.done[u] == ECANCELED)
    && (forall slot :: In(c', slot) ==
          if slot == Acceptors(l) then [] else if slot == ListenerCloser(l) then [t] else In(c, slot))
  }

  /** Closing a listener cancels every parked acceptor. */
  lemma {:induction false} AbortCancels(run: seq<Event>, s: State, t: TaskId, l: nat)
    requires Reaches(run, s) && Enabled(s, Dispatch(t, ListenerClose(l))) && l in s.registry
    ensures AcceptorsCancelled(s.core, Next(s, Dispatch(t, ListenerClose(l))).core, t, l)
  {
    var owner := RunLinear(run, s);
    CloseEffect(s.core, owner, t, l);
    assert Next(s, Dispatch(t, ListenerClose(l))).core
      == Store(FinishSlots(s.core, AcceptorSlots({l}), ECANCELED), ListenerCloser(l), t);
  }

  lemma CloseEffect(c: Core, owner: map<TaskId, Slot>, t: TaskId, l: nat)
    requires Linear(c, owner)
    ensures AcceptorsCancelled(c, Store(FinishSlots(c, AcceptorSlots({l}), ECANCELED), ListenerCloser(l), t), t, l)
  {
    FinishSlotsEffect(c, owner, AcceptorSlots({l}), ECANCELED);
    assert Acceptors(l) in AcceptorSlots({l});
  }

  /** Closing a listener closes exactly the streams of its backlog. */
  lemma {:induction false} AbortCloses(run: seq<Event>, s: State, t: TaskId, l: nat)
    requires Reaches(run, s) && Enabled(s, Dispatch(t, ListenerClose(l))) && l in s.registry
    ensures var s' := Next(s, Dispatch(t, ListenerClose(l)));
            && |s'.streams| == |s.streams| && s'.registry == s.registry - {l}
            && s'.listeners == s.listeners[l := CloseListener(s.listeners[l])]
            && forall x | 0 <= x < |s.streams| ::
                 s'.streams[x] == if s.streams[x].phase == Backlog(l) then CloseOne(s.streams[x]) else s.streams[x]
  {
    RunInv(run, s);
    assert ListenerOk(s, l);
    forall x: nat | x < |s.streams| ensures x in AllBacklog(s, {l}) <==> s.streams[x].phase == Backlog(l) {
      BacklogMembers(s, {l}, x);
    }
  }

  // --- The registry and close requests ---------------------------------------------------------------

  /** The registry holds the open listeners, and uv_close has been called once on every other. */
  lemma {:induction false} RegistryExact(run: seq<Event>, s: State, l: nat)
    requires Reaches(run, s)
    ensures l in s.registry <==> l < |s.listeners| && s.listeners[l].phase.Open?
    ensures l < |s.listeners| ==> s.listeners[l].closes == (if l in s.registry then 0 else 1)
  {
    RunInv(run, s);
    assert ListenerOk(s, l);
  }

  /** The operation that closes a handle. */
  function CloseOf(obj: Object): Op {
    match obj
    case AStream(x) => StreamClose(x)
    case AListener(l) => ListenerClose(l)
    case AProcess(p) => ProcClose(p)
    case AWatcher(w) => WatchClose(w)
  }

  /** The close request `t` has been answered, or will be when libuv has closed the handle. */
  ghost predicate Settling(s: State, t: TaskId, obj: Object) {
    || (t in s.core.done && s.core.done[t] == 0)
    || (In(s.core, CloserSlot(obj)) == [t] && PhaseOf(s, obj) == Some(Closing))
  }

  lemma CloserOfClosing(s: State, obj: Object)
    requires Objects(s)
    ensures In(s.core, CloserSlot(obj)) != [] ==> PhaseOf(s, obj) == Some(Closing)
  {
    match obj
    case AStream(x) => assert StreamOk(s, x);
    case AListener(l) => assert ListenerOk(s, l);
    case AProcess(p) => assert ProcessOk(s, p);
    case AWatcher(w) => assert WatcherOk(s, w);
  }

  /** While a handle is closing only the end of the close changes its close slot. */
  lemma NoSecondClose(s: State, e: Event, obj: Object)
    requires Objects(s) && Enabled(s, e) && PhaseOf(s, obj) == Some(Closing) && e != Closed(obj)
    ensures !Touches(s, e, CloserSlot(obj))
  {
    if obj.AListener? {
      assert ListenerOk(s, obj.id);
    }
  }

  lemma SettlingStep(s: State, owner: map<TaskId, Slot>, e: Event, t: TaskId, obj: Object)
    requires Inv(s) && Linear(s.core, owner) && Enabled(s, e) && Settling(s, t, obj)
    ensures Settling(Next(s, e), t, obj)
  {
    var _ := NextKeeps(s, owner, e);
    if !(t in s.core.done && s.core.done[t] == 0) && e != Closed(obj) {
      NoSecondClose(s, e, obj);
      SlotFrame(s, e, CloserSlot(obj));
      CloserOfClosing(Next(s, e), obj);
    }
  }

  lemma {:induction false} SettlingGoesOn(run: seq<Event>, s: State, e: Event, t: TaskId, obj: Object)
    requires Reaches(run, s) && Enabled(s, e) && Settling(s, t, obj)
    ensures Settling(Next(s, e), t, obj)
  {
    var owner := RunKeeps(run, s);
    SettlingStep(s, owner, e, t, obj);
  }

  lemma {:induction false} SettlingBegins(run: seq<Event>, s: State, t: TaskId, obj: Object)
    requires Reaches(run, s) && Enabled(s, Dispatch(t, CloseOf(obj)))
    ensures Settling(Next(s, Dispatch(t, CloseOf(obj))), t, obj)
  {
    RunInv(run, s);
    if obj.AListener? {
      assert ListenerOk(s, obj.id);
    }
  }

  lemma {:induction false} CloseSettles(run: seq<Event>, s: State, t: TaskId, obj: Object)
    requires Reaches(run, s) && Dispatch(t, CloseOf(obj)) in run
    ensures Settling(s, t, obj)
  {
    var last := |run| - 1;
    var s0 := After(run[..last]).value;
    if run[last] == Dispatch(t, CloseOf(obj)) {
      SettlingBegins(run[..last], s0, t, obj);
    } else {
      assert run == run[..last] + [run[last]];
      CloseSettles(run[..last], s0, t, obj);
      SettlingGoesOn(run[..last], s0, run[last], t, obj);
    }
  }

  /**
    Every close request completes with 0, whatever the handle: it has, or the handle is closing with
    this request in its close slot, and the end of that close, which is possible now, completes it.
   */
  lemma {:induction false} CloseAnswered(run: seq<Event>, s: State, t: TaskId, obj: Object)
    requires Reaches(run, s) && Dispatch(t, CloseOf(obj)) in run && !s.exited
    ensures || (t in s.core.done && s.core.done[t] == 0)
            || (&& Enabled(s, Closed(obj))
                && var c' := Next(s, Closed(obj)).core; t in c'.done && c'.done[t] == 0)
  {
    CloseSettles(run, s, t, obj);
  }

  // --- Watchers ------------------------------------------------------------------------------------

  /** The events of watcher `w`, in order. */
  function Events(run: seq<Event>, w: nat): seq<FsEvent> {
    if run == [] then [] else
    var last := run[|run| - 1];
    Events(run[..|run| - 1], w) + if last.FsChanged? && last.w == w then [last.ev] else []
  }

  /** A next-task that is not refused. */
  predicate Waits(s: State, e: Event, w: nat) {
    e.Dispatch? && e.op == WatchNext(w) && In(s.core, NextEvent(w)) == []
  }

  ghost function NextTasks(run: seq<Event>, w: nat): seq<TaskId> {
    if run == [] then [] else
    var before := After(run[..|run| - 1]);
    NextTasks(run[..|run| - 1], w)
    + if before.Some? && Waits(before.value, run[|run| - 1], w) then [run[|run| - 1].t] else []
  }

  ghost predicate WatcherGrows(s: State, s': State, w: nat, asks: seq<TaskId>, arrived: seq<FsEvent>) {
    && |s.watchers| <= |s'.watchers|
    && (w < |s.watchers| ==>
          && s'.watchers[w].asks == s.watchers[w].asks + asks
          && s'.watchers[w].arrived == s.watchers[w].arrived + arrived)
    && (|s.watchers| <= w < |s'.watchers| ==> s'.watchers[w].asks == asks && s'.watchers[w].arrived == arrived)
    && (|s.watchers| <= w ==> asks == [] && arrived == [])
  }

  lemma WatcherGrowsByDispatch(s: State, t: TaskId, op: Op, w: nat)
    requires OpEnabled(s, op) && (op.WatchOpen? || op.WatchNext? || op.WatchClose?)
    ensures WatcherGrows(s, DoDispatch(s, t, op), w, if Waits(s, Dispatch(t, op), w) then [t] else [], [])
  {
    match op
    case WatchOpen(_) =>
    case WatchNext(_) =>
    case WatchClose(_) =>
  }

  lemma WatcherGrowsStep(s: State, e: Event, w: nat)
    requires Enabled(s, e)
    ensures WatcherGrows(s, Next(s, e), w, if Waits(s, e, w) then [e.t] else [],
                         if e.FsChanged? && e.w == w then [e.ev] else [])
  {
    if !WatcherEvent(e) {
      FieldFrame(s, e);
    } else if e.Dispatch? {
      WatcherGrowsByDispatch(s, e.t, e.op, w);
    } else {
      match e
      case FsChanged(_, _) =>
      case Closed(_) =>
    }
  }

  lemma {:induction false} WatcherHistory(run: seq<Event>, s: State, w: nat)
    requires Reaches(run, s)
    ensures if w < |s.watchers| then s.watchers[w].asks == NextTasks(run, w) && s.watchers[w].arrived == Events(run, w)
            else NextTasks(run, w) == [] && Events(run, w) == []
  {
    if run != [] {
      var last := |run| - 1;
      var s0, e := After(run[..last]).value, run[last];
      WatcherHistory(run[..last], s0, w);
      WatcherGrowsStep(s0, e, w);
    }
  }

  lemma RefusedNow(s: State, t: TaskId, w: nat)
    requires Enabled(s, Dispatch(t, WatchNext(w))) && In(s.core, NextEvent(w)) != []
    ensures var c := Next(s, Dispatch(t, WatchNext(w))).core; t in c.done && c.done[t] == EBUSY
  {
  }

  lemma {:induction false} RefusedStays(run: seq<Event>, s: State, e: Event, t: TaskId)
    requires Reaches(run, s) && Enabled(s, e) && t in s.core.done && s.core.done[t] == EBUSY
    ensures var c := Next(s, e).core; t in c.done && c.done[t] == EBUSY
  {
    var owner := RunLinear(run, s);
    var _ := NextLinear(s, owner, e);
  }

  lemma {:induction false} NotAmongTasks(run: seq<Event>, s0: State, w: nat, t: TaskId)
    requires run != [] && Reaches(run[..|run| - 1], s0) && t !in NextTasks(run, w)
    ensures t !in NextTasks(run[..|run| - 1], w)
    ensures run[|run| - 1] == Dispatch(t, WatchNext(w)) ==> In(s0.core, NextEvent(w)) != []
  {
  }

  lemma {:induction false} RefusedWaiter(run: seq<Event>, s: State, w: nat, t: TaskId)
    requires Reaches(run, s) && Dispatch(t, WatchNext(w)) in run && t !in NextTasks(run, w)
    ensures t in s.core.done && s.core.done[t] == EBUSY
  {
    var s0, e := LastStep(run, s);
    NotAmongTasks(run, s0, w, t);
    if e == Dispatch(t, WatchNext(w)) {
      RefusedNow(s0, t, w);
    } else {
      RefusedWaiter(run[..|run| - 1], s0, w, t);
      RefusedStays(run[..|run| - 1], s0, e, t);
    }
  }

  /**
    While a watcher is open every event is delivered once, in arrival order, name and flags together:
    the k-th next-task that was not refused gets the k-th event. A parked task means no queued event.
    Every other next-task was told EBUSY, without disturbing this pairing.
   */
  lemma {:induction false} WatchRendezvous(run: seq<Event>, s: State, w: nat)
    requires Reaches(run, s) && w < |s.watchers| && s.watchers[w].phase.Open?
    ensures var tasks, events, wa := NextTasks(run, w), Events(run, w), s.watchers[w];
            var n := Min(|tasks|, |events|);
            && (forall k | 0 <= k < n ::
                  && tasks[k] in s.core.done && s.core.done[tasks[k]] == events[k].flags
                  && tasks[k] in wa.names && wa.names[tasks[k]] == events[k].name)
            && In(s.core, NextEvent(w)) == tasks[n..] && wa.events == events[n..]
            && |In(s.core, NextEvent(w))| <= 1 && (In(s.core, NextEvent(w)) == [] || wa.events == [])
    ensures forall t | Dispatch(t, WatchNext(w)) in run && t !in NextTasks(run, w) ::
              t in s.core.done && s.core.done[t] == EBUSY
  {
    RunInv(run, s);
    WatcherHistory(run, s, w);
    assert WatcherOk(s, w);
    forall t | Dispatch(t, WatchNext(w)) in run && t !in NextTasks(run, w)
      ensures t in s.core.done && s.core.done[t] == EBUSY
    {
      RefusedWaiter(run, s, w, t);
    }
  }

  // --- The stream ledger -----------------------------------------------------------------------------

  ghost predicate InBacklog(s: State, l: nat, x: nat) {
    l in s.registry && l < |s.listeners| && x in s.listeners[l].accepted
  }

  lemma BacklogMark(s: State, l: nat, x: nat)
    requires StreamOk(s, x) && ListenerOk(s, l) && x < |s.streams|
    ensures s.streams[x].phase == Backlog(l) <==> InBacklog(s, l, x)
  {
  }

  /** Phases only go forward. */
  function Rank(p: Phase): nat {
    match p
    case Opening => 0
    case Backlog(_) => 0
    case Open => 1
    case Closing => 2
    case Deleted => 3
  }

  /** A stream moves forward, is handed over once, and is not touched once it has been deleted. */
  predicate Forward(a: Stream, b: Stream) {
    && Rank(a.phase) <= Rank(b.phase)
    && (a.phase.Opening? ==> !b.phase.Backlog?) && (a.phase.Backlog? ==> !b.phase.Opening?)
    && (a.phase.Deleted? ==> b == a)
    && (!a.giver.Nobody? ==> b.giver == a.giver)
  }

  lemma ForwardAccept(s: State, t: TaskId, l: nat, x: nat)
    requires OpEnabled(s, TcpAccept(l)) && ListenerOk(s, l) && StreamOk(s, x) && x < |s.streams|
    ensures |DoAccept(s, t, l).streams| == |s.streams| && Forward(s.streams[x], DoAccept(s, t, l).streams[x])
  {
  }

  lemma ForwardShut(s: State, t: TaskId, l: nat, x: nat)
    requires Objects(s) && x < |s.streams|
    ensures |DoListenerClose(s, t, l).streams| == |s.streams|
    ensures Forward(s.streams[x], DoListenerClose(s, t, l).streams[x])
  {
    if l in s.registry {
      BacklogMembers(s, {l}, x);
    }
  }

  lemma ForwardRead(s: State, t: TaskId, y: nat, n: nat, r: int, x: nat)
    requires x < |s.streams| && y < |s.streams| && s.streams[y].phase.Open?
    ensures |DoRead(s, t, y, n, r).streams| == |s.streams| && Forward(s.streams[x], DoRead(s, t, y, n, r).streams[x])
  {
  }

  lemma ForwardClose(s: State, t: TaskId, y: nat, x: nat)
    requires x < |s.streams| && y < |s.streams| && s.streams[y].phase.Open?
    ensures |DoStreamClose(s, t, y).streams| == |s.streams| && Forward(s.streams[x], DoStreamClose(s, t, y).streams[x])
  {
  }

  /** Operations that make streams leave the others alone. */
  lemma ForwardMake(s: State, t: TaskId, op: Op, x: nat)
    requires x < |s.streams| && (op.TcpConnect? || op.ProcSpawn? || op.StdioOpen?)
    ensures x < |DoDispatch(s, t, op).streams| && DoDispatch(s, t, op).streams[x] == s.streams[x]
  {
    match op
    case TcpConnect(_) =>
    case ProcSpawn(_, _) =>
    case StdioOpen(_, _) =>
  }

  lemma ForwardByDispatch(s: State, t: TaskId, op: Op, x: nat)
    requires Objects(s) && OpEnabled(s, op) && x < |s.streams| && StreamEvent(Dispatch(t, op))
    ensures x < |DoDispatch(s, t, op).streams| && Forward(s.streams[x], DoDispatch(s, t, op).streams[x])
  {
    match op
    case TcpAccept(l) =>
      assert ListenerOk(s, l) && StreamOk(s, x);
      ForwardAccept(s, t, l, x);
    case StreamRead(y, n, r) => ForwardRead(s, t, y, n, r, x);
    case StreamClose(y) => ForwardClose(s, t, y, x);
    case ListenerClose(l) => ForwardShut(s, t, l, x);
    case _ => ForwardMake(s, t, op, x);
  }

  lemma ForwardConnect(s: State, y: nat, status: int, x: nat)
    requires StreamOk(s, x) && x < |s.streams| && y < |s.streams| && In(s.core, Connecting(y)) != []
    ensures Forward(s.streams[x], OnConnect(s, y, status).streams[x])
  {
  }

  lemma ForwardData(s: State, y: nat, chunk: seq<byte>, x: nat)
    requires StreamOk(s, x) && x < |s.streams| && y < |s.streams| && s.streams[y].active
    ensures Forward(s.streams[x], OnData(s, y, chunk).streams[x])
  {
  }

  lemma ForwardEnded(s: State, y: nat, r: int, x: nat)
    requires StreamOk(s, x) && x < |s.streams| && y < |s.streams| && s.streams[y].active
    ensures Forward(s.streams[x], OnEnded(s, y, r).streams[x])
  {
  }

  lemma ForwardConnection(s: State, l: nat, status: int, ok: bool, x: nat)
    requires x < |s.streams| && l < |s.listeners|
    ensures x < |OnConnection(s, l, status, ok).streams|
    ensures OnConnection(s, l, status, ok).streams[x] == s.streams[x]
  {
  }

  lemma ForwardClosed(s: State, y: nat, x: nat)
    requires x < |s.streams| && PhaseOf(s, AStream(y)) == Some(Closing)
    ensures |OnClosed(s, AStream(y)).streams| == |s.streams|
    ensures Forward(s.streams[x], OnClosed(s, AStream(y)).streams[x])
  {
  }

  lemma ForwardByCallback(s: State, e: Event, x: nat)
    requires StreamOk(s, x) && Enabled(s, e) && StreamEvent(e) && !e.Dispatch? && !e.Signal? && x < |s.streams|
    ensures x < |Next(s, e).streams| && Forward(s.streams[x], Next(s, e).streams[x])
  {
    match e
    case Connected(y, status) => ForwardConnect(s, y, status, x);
    case Connection(l, status, ok) => ForwardConnection(s, l, status, ok, x);
    case Data(y, chunk) => ForwardData(s, y, chunk, x);
    case Ended(y, r) => ForwardEnded(s, y, r, x);
    case Closed(obj) => ForwardClosed(s, obj.id, x);
  }

  lemma ForwardBySignal(s: State, x: nat)
    requires Objects(s) && x < |s.streams|
    ensures x < |OnSignal(s).streams| && Forward(s.streams[x], OnSignal(s).streams[x])
  {
    assert StreamOk(s, x);
    BacklogIsClosed(s, x);
  }

  /** No event touches a deleted stream, and none brings a stream back to an earlier phase. */
  lemma {:induction false} StreamsGoForward(run: seq<Event>, s: State, e: Event, x: nat)
    requires Reaches(run, s) && Enabled(s, e) && x < |s.streams|
    ensures x < |Next(s, e).streams| && Forward(s.streams[x], Next(s, e).streams[x])
  {
    RunInv(run, s);
    if !StreamEvent(e) {
      FieldFrame(s, e);
    } else if e.Dispatch? {
      ForwardByDispatch(s, e.t, e.op, x);
    } else if e.Signal? {
      ForwardBySignal(s, x);
    } else {
      assert StreamOk(s, x);
      ForwardByCallback(s, e, x);
    }
  }

  // --- Opening ---------------------------------------------------------------------------------------

  /** The event opens a handle of this kind, and libuv agrees. */
  predicate Opens(e: Event, obj: Object) {
    && e.Dispatch?
    && match obj
       case AStream(_) => false
       case AListener(_) => e.op.TcpListen? && e.op.r >= 0
       case AProcess(_) => e.op.ProcSpawn? && e.op.r >= 0
       case AWatcher(_) => e.op.WatchOpen? && e.op.r >= 0
  }

  /** The handle is the result of the task that opened it. */
  predicate OpenedBy(c: Core, e: Event, obj: Object) {
    Opens(e, obj) && e.t in c.done && c.done[e.t] == Handle(obj.id)
  }

  lemma OpenListenerByDispatch(s: State, t: TaskId, op: Op, l: nat)
    requires OpEnabled(s, op) && (op.TcpListen? || op.TcpAccept? || op.ListenerClose?)
    requires PhaseOf(DoDispatch(s, t, op), AListener(l)) == Some(Open)
    ensures PhaseOf(s, AListener(l)) == Some(Open) || OpenedBy(DoDispatch(s, t, op).core, Dispatch(t, op), AListener(l))
  {
    match op
    case TcpListen(_) =>
    case TcpAccept(_) =>
    case ListenerClose(_) =>
  }

  lemma OpenListener(s: State, e: Event, l: nat)
    requires Enabled(s, e) && PhaseOf(Next(s, e), AListener(l)) == Some(Open)
    ensures PhaseOf(s, AListener(l)) == Some(Open) || OpenedBy(Next(s, e).core, e, AListener(l))
  {
    if !ListenerEvent(e) {
      FieldFrame(s, e);
    } else if e.Dispatch? {
      OpenListenerByDispatch(s, e.t, e.op, l);
    } else {
      match e
      case Connection(_, _, _) =>
      case Closed(_) =>
      case Signal =>
    }
  }

  lemma OpenProcess(s: State, e: Event, p: nat)
    requires Enabled(s, e) && PhaseOf(Next(s, e), AProcess(p)) == Some(Open)
    ensures PhaseOf(s, AProcess(p)) == Some(Open) || OpenedBy(Next(s, e).core, e, AProcess(p))
  {
    if !ProcessEvent(e) {
      FieldFrame(s, e);
    } else {
      match e
      case Dispatch(_, _) =>
      case ProcExited(_, _) =>
      case Closed(_) =>
    }
  }

  lemma OpenWatcher(s: State, e: Event, w: nat)
    requires Enabled(s, e) && PhaseOf(Next(s, e), AWatcher(w)) == Some(Open)
    ensures PhaseOf(s, AWatcher(w)) == Some(Open) || OpenedBy(Next(s, e).core, e, AWatcher(w))
  {
    if !WatcherEvent(e) {
      FieldFrame(s, e);
    } else {
      match e
      case Dispatch(_, op) =>
        match op {
          case WatchOpen(_) =>
          case WatchNext(_) =>
          case WatchClose(_) =>
        }
      case FsChanged(_, _) =>
      case Closed(_) =>
    }
  }

  lemma OpenStep(s: State, e: Event, obj: Object)
    requires Enabled(s, e) && !obj.AStream? && PhaseOf(Next(s, e), obj) == Some(Open)
    ensures PhaseOf(s, obj) == Some(Open) || OpenedBy(Next(s, e).core, e, obj)
  {
    match obj
    case AListener(l) => OpenListener(s, e, l);
    case AProcess(p) => OpenProcess(s, e, p);
    case AWatcher(w) => OpenWatcher(s, e, w);
  }

  lemma {:induction false} OpenGoesOn(run: seq<Event>, s: State, e: Event, opener: Event, obj: Object)
    requires Reaches(run, s) && Enabled(s, e) && OpenedBy(s.core, opener, obj)
    ensures OpenedBy(Next(s, e).core, opener, obj)
  {
    var owner := RunLinear(run, s);
    var _ := NextLinear(s, owner, e);
  }

  /**
    Every open listener, process and watcher was opened by a task of the run that libuv did not refuse,
    and that task completed with its handle: a failed open leaves nothing behind.
   */
  lemma {:induction false} OpenIsKnown(run: seq<Event>, s: State, obj: Object) returns (opener: Event)
    requires Reaches(run, s) && !obj.AStream? && PhaseOf(s, obj) == Some(Open)
    ensures opener in run && OpenedBy(s.core, opener, obj)
  {
    var last := |run| - 1;
    var s0, e := After(run[..last]).value, run[last];
    OpenStep(s0, e, obj);
    if PhaseOf(s0, obj) == Some(Open) {
      opener := OpenIsKnown(run[..last], s0, obj);
      OpenGoesOn(run[..last], s0, e, opener, obj);
      assert opener in run[..last];
    } else {
      opener := e;
    }
  }
}
