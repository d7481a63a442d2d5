/**
  The loop thread as an object: `Dispatch` and the callbacks update deques, slots and registries in
  place, popping queues until they are empty and walking the registries handle by handle. Each of them
  is proved to do what `LoopSpec` says, so every state of the object is one a run reaches, and all that
  is proved about runs holds of it.
 */
module LoopThread {
  import opened Common
  import opened Ownership
  import opened LoopSpec
  import opened LoopInvariant
  import opened LoopOwnership
  import opened LoopSteps
  import opened LoopTheorems
  import opened LoopSweeps

  class Runtime {
    var held: map<Slot, seq<TaskId>>
    var done: map<TaskId, int>
    var streams: seq<Stream>
    var reading: set<nat>
    var listeners: seq<Listener>
    var registry: set<nat>
    var processes: seq<Process>
    var watchers: seq<Watcher>
    var signaled: bool
    var exited: bool
    ghost var seen: set<TaskId>
    ghost var dropped: set<TaskId>
    ghost var trace: seq<Event>

    ghost function View(): State
      reads this
    {
      State(Core(held, done, seen, dropped), streams, reading, listeners, registry, processes, watchers, signaled,
        exited)
    }

    /** The state is the one the events so far lead to. */
    ghost predicate Valid()
      reads this
    {
      Reaches(trace, View())
    }

    constructor ()
      ensures Valid() && trace == []
    {
      held, done, streams, reading, listeners := map[], map[], [], {}, [];
      registry, processes, watchers, signaled, exited := {}, [], [], false, false;
      seen, dropped, trace := {}, {}, [];
    }

    // --- Tasks ---------------------------------------------------------------------------------------

    function Queue(slot: Slot): (q: seq<TaskId>)
      reads this
      ensures q == In(View().core, slot)
    {
      if slot in held then held[slot] else []
    }

    /** `Task::Complete`, which must happen once per task. */
    method Complete(t: TaskId, r: int)
      requires t !in done
      modifies this`done
      ensures done == old(done)[t := r]
    {
      done := done[t := r];
    }

    /** The loop `while (!queue.empty())` that the source writes at every teardown. */
    method CompleteAll(slot: Slot, r: int)
      requires Pending(View().core, slot)
      modifies this`held, this`done
      ensures View() == old(View()).(core := FinishSlots(old(View().core), {slot}, r))
    {
      ghost var c, k := View().core, 0;
      var q := Queue(slot);
      while q != []
        invariant k <= |In(c, slot)| && q == In(c, slot)[k..] && View().core == Popped(c, slot, k, r)
        decreases |q|
      {
        PopOne(c, slot, k, r);
        held := held[slot := q[1..]];
        Complete(q[0], r);
        k, q := k + 1, q[1..];
      }
      PoppedAll(c, slot, r);
    }

    // --- Sweeps --------------------------------------------------------------------------------------

    /** Stop one stream and wake its readers. */
    method CancelStream(x: nat)
      requires x < |streams| && Pending(View().core, Readers(x))
      modifies this`held, this`done, this`streams
      ensures View() == old(View()).(core := FinishSlots(old(View().core), {Readers(x)}, ECANCELED),
                                     streams := old(streams)[x := old(streams)[x].(active := false)])
    {
      if streams[x].active {
        streams := streams[x := streams[x].(active := false)];
      }
      CompleteAll(Readers(x), ECANCELED);
    }

    method CancelPendingReads(ghost owner: map<TaskId, Slot>)
      requires forall x: nat | x in reading :: x < |streams|
      requires Linear(View().core, owner)
      modifies this`held, this`done, this`streams, this`reading
      ensures View() == CancelReads(old(View()))
    {
      ghost var s, past := View(), {};
      NothingYet(s);
      var todo := reading;
      while todo != {}
        invariant past !! todo && past + todo == s.reading && View() == CancelSome(s, past)
        decreases todo
      {
        var x :| x in todo;
        CancelReady(s, owner, past, x);
        CancelStream(x);
        todo, past := todo - {x}, past + {x};
      }
      reading := {};
    }

    method AbortListener(l: nat)
      requires BacklogDistinct(View(), l) && Pending(View().core, Acceptors(l))
      modifies this`held, this`done, this`streams, this`listeners
      ensures View() == AbortSome(old(View()), {l})
    {
      ghost var s := View();
      AbortStep(s, l);
      var backlog, i := listeners[l].accepted, 0;
      while i < |backlog|
        invariant i <= |backlog| && View() == s.(streams := CloseStreams(s.streams, Elements(backlog[..i])))
      {
        CloseOneMore(s.streams, backlog, i);
        streams := streams[backlog[i] := CloseOne(streams[backlog[i]])];
        i := i + 1;
      }
      assert backlog[..i] == backlog;
      CompleteAll(Acceptors(l), ECANCELED);
      listeners := listeners[l := CloseListener(listeners[l])];
    }

    method AbortAll(ghost owner: map<TaskId, Slot>)
      requires Objects(View()) && Linear(View().core, owner)
      modifies this`held, this`done, this`streams, this`listeners
      ensures View() == AbortSome(old(View()), registry)
    {
      ghost var s, past := View(), {};
      NothingYet(s);
      var todo := registry;
      while todo != {}
        invariant past !! todo && past + todo == registry && View() == AbortSome(s, past)
        decreases todo
      {
        var l :| l in todo;
        AbortReady(s, owner, past, l);
        AbortListener(l);
        todo, past := todo - {l}, past + {l};
      }
    }

    /** The first signal with open listeners closes them and cancels the parked reads; any other exits. */
    method OnSignal()
      requires Valid() && Enabled(View(), Signal)
      modifies this`held, this`done, this`streams, this`listeners, this`registry, this`reading, this`signaled,
        this`exited
      ensures View() == Next(old(View()), Signal)
    {
      ghost var s := View();
      ghost var owner := RunKeeps(trace, s);
      if signaled || registry == {} {
        signaled := true;
        exited := true;
        return;
      }
      signaled := true;
      SignaledObjects(s);
      AbortAll(owner);
      registry := {};
      FinishSlotsLinear(s.core, owner, AcceptorSlots(s.registry), ECANCELED);
      CancelPendingReads(Without(owner, AcceptorSlots(s.registry)));
    }

    // --- Other callbacks -----------------------------------------------------------------------------

    /** A task leaves its slot and completes: `on_fs_done`, `on_write`, `on_getaddrinfo`, `on_timer_closed`. */
    method Finish(slot: Slot, i: nat, r: int)
      requires i < |Queue(slot)| && Queue(slot)[i] !in done
      modifies this`held, this`done
      ensures View() == old(View()).(core := FinishAt(old(View().core), slot, i, r))
    {
      var t := Queue(slot)[i];
      held := held[slot := Remove(Queue(slot), i)];
      Complete(t, r);
    }

    method OnTimer(i: nat)
      requires i < |Queue(Timer)|
      modifies this`held
      ensures View() == old(View()).(core := Shift(old(View().core), Timer, i, TimerClosing))
    {
      var t := Queue(Timer)[i];
      held := held[Timer := Remove(Queue(Timer), i)][TimerClosing := Queue(TimerClosing) + [t]];
    }

    method OnConnect(x: nat, status: int)
      requires x < |streams| && Queue(Connecting(x)) != [] && Pending(View().core, Connecting(x))
      modifies this`held, this`done, this`streams
      ensures View() == LoopSpec.OnConnect(old(View()), x, status)
    {
      var t := Queue(Connecting(x))[0];
      if status < 0 {
        streams := streams[x := CloseOne(streams[x])];
        Finish(Connecting(x), 0, status);
      } else {
        streams := streams[x := streams[x].(phase := Open, giver := AsResult(t))];
        Finish(Connecting(x), 0, Handle(x));
      }
    }

    method OnConnection(l: nat, status: int, ok: bool)
      requires l < |listeners| && Pending(View().core, Acceptors(l))
      modifies this`held, this`done, this`streams, this`listeners
      ensures View() == LoopSpec.OnConnection(old(View()), l, status, ok)
    {
      if status < 0 {
        return;
      }
      var x := |streams|;
      if !ok {
        streams := streams + [CloseOne(NEW_STREAM)];
        return;
      }
      listeners := listeners[l := listeners[l].(conns := listeners[l].conns + [x])];
      if Queue(Acceptors(l)) != [] {
        streams := streams + [NEW_STREAM.(phase := Open, giver := AsResult(Queue(Acceptors(l))[0]))];
        Finish(Acceptors(l), 0, Handle(x));
      } else {
        streams := streams + [NEW_STREAM.(phase := Backlog(l))];
        listeners := listeners[l := listeners[l].(accepted := listeners[l].accepted + [x])];
      }
    }

    /** uv_read_stop and the bookkeeping around it. */
    method StopReading(x: nat)
      requires x < |streams|
      modifies this`streams, this`reading
      ensures streams == old(streams)[x := old(streams)[x].(active := false)] && reading == old(reading) - {x}
    {
      streams := streams[x := streams[x].(active := false)];
      reading := reading - {x};
    }

    /** `on_read` with a chunk: the front reader gets it; reading goes on while more are queued. */
    method OnData(x: nat, chunk: seq<byte>)
      requires x < |streams| && streams[x].active && Pending(View().core, Readers(x))
      modifies this`held, this`done, this`streams, this`reading
      ensures View() == LoopSpec.OnData(old(View()), x, chunk)
    {
      if Queue(Readers(x)) == [] {
        StopReading(x);
        return;
      }
      var t, more := Queue(Readers(x))[0], |Queue(Readers(x))| > 1;
      streams := streams[x := streams[x].(incoming := streams[x].incoming + chunk, got := streams[x].got[t := chunk])];
      if !more {
        StopReading(x);
      }
      Finish(Readers(x), 0, |chunk|);
    }

    /** `on_read` with EOF or an error: every queued reader gets it. */
    method OnEnded(x: nat, r: int)
      requires x < |streams| && Pending(View().core, Readers(x))
      modifies this`held, this`done, this`streams, this`reading
      ensures View() == LoopSpec.OnEnded(old(View()), x, r)
    {
      StopReading(x);
      CompleteAll(Readers(x), r);
    }

    method OnExit(p: nat, status: int)
      requires p < |processes| && Pending(View().core, Waiter(p))
      modifies this`held, this`done, this`processes
      ensures View() == LoopSpec.OnExit(old(View()), p, status)
    {
      processes := processes[p := processes[p].(exited := Some(status))];
      if Queue(Waiter(p)) != [] {
        Finish(Waiter(p), 0, status);
      }
    }

    method OnFsEvent(w: nat, ev: FsEvent)
      requires w < |watchers| && Pending(View().core, NextEvent(w))
      modifies this`held, this`done, this`watchers
      ensures View() == LoopSpec.OnFsEvent(old(View()), w, ev)
    {
      watchers := watchers[w := watchers[w].(arrived := watchers[w].arrived + [ev])];
      if Queue(NextEvent(w)) != [] {
        watchers := watchers[w := watchers[w].(names := watchers[w].names[Queue(NextEvent(w))[0] := ev.name])];
        Finish(NextEvent(w), 0, ev.flags);
      } else {
        watchers := watchers[w := watchers[w].(events := watchers[w].events + [ev])];
      }
    }

    method OnClosed(obj: Object)
      requires PhaseOf(View(), obj).Some? && Pending(View().core, CloserSlot(obj))
      modifies this`held, this`done, this`dropped, this`streams, this`listeners, this`processes, this`watchers
      ensures View() == LoopSpec.OnClosed(old(View()), obj)
    {
      match obj {
        case AStream(x) => streams := streams[x := streams[x].(phase := Deleted)];
        case AListener(l) => listeners := listeners[l := listeners[l].(phase := Deleted)];
        case AProcess(p) =>
          processes := processes[p := processes[p].(phase := Deleted)];
          dropped := dropped + Elements(Queue(Waiter(p)));
          held := held[Waiter(p) := []];
        case AWatcher(w) => watchers := watchers[w := watchers[w].(phase := Deleted)];
      }
      if Queue(CloserSlot(obj)) != [] {
        Finish(CloserSlot(obj), 0, 0);
      }
    }

    /** A callback of the environment's choosing. */
    method Callback(e: Event)
      requires Valid() && Enabled(View(), e) && !e.Dispatch?
      modifies this
      ensures View() == Next(old(View()), e) && Valid() && trace == old(trace) + [e]
    {
      ghost var s := View();
      ghost var owner := RunLinear(trace, s);
      forall slot ensures Pending(s.core, slot) {
        LinearPending(s.core, owner, slot);
      }
      match e {
        case RequestDone(i, r) =>
          assert Pending(s.core, Slot.Request) && s.core == View().core;
          Finish(Slot.Request, i, r);
        case TimerFired(i) => OnTimer(i);
        case TimerClosed(i) =>
          assert Pending(s.core, TimerClosing) && s.core == View().core;
          Finish(TimerClosing, i, 0);
        case Connected(x, status) => OnConnect(x, status);
        case Connection(l, status, ok) => OnConnection(l, status, ok);
        case Data(x, chunk) => OnData(x, chunk);
        case Ended(x, r) => OnEnded(x, r);
        case ProcExited(p, status) => OnExit(p, status);
        case FsChanged(w, ev) => OnFsEvent(w, ev);
        case Closed(obj) => OnClosed(obj);
        case Signal => OnSignal();
      }
      Extend(trace, s, e);
      trace := trace + [e];
    }

    // --- Dispatch ------------------------------------------------------------------------------------

    method Reply(t: TaskId, r: int)
      requires t !in seen && t !in done
      modifies this`done, this`seen
      ensures View() == ToAnswer(old(View()), t, r)
    {
      seen := seen + {t};
      Complete(t, r);
    }

    method Park(slot: Slot, t: TaskId)
      requires t !in seen
      modifies this`held, this`seen
      ensures View() == old(View()).(core := Hold(old(View().core), slot, t))
    {
      seen := seen + {t};
      held := held[slot := Queue(slot) + [t]];
    }

    /** A pointer slot is set, whatever it held. */
    method SetSlot(slot: Slot, t: TaskId)
      requires t !in seen
      modifies this`held, this`seen, this`dropped
      ensures View() == old(View()).(core := Store(old(View().core), slot, t))
    {
      seen := seen + {t};
      dropped := dropped + Elements(Queue(slot));
      held := held[slot := [t]];
    }

    method Accept(t: TaskId, l: nat)
      requires t !in seen && t !in done && l < |listeners|
      requires listeners[l].accepted != [] ==> listeners[l].accepted[0] < |streams|
      modifies this`held, this`done, this`seen, this`streams, this`listeners
      ensures View() == DoAccept(old(View()), t, l)
    {
      listeners := listeners[l := listeners[l].(asks := listeners[l].asks + [t])];
      if listeners[l].accepted != [] {
        var x := listeners[l].accepted[0];
        listeners := listeners[l := listeners[l].(accepted := listeners[l].accepted[1..])];
        streams := streams[x := streams[x].(phase := Open, giver := AsResult(t))];
        Reply(t, Handle(x));
      } else {
        Park(Acceptors(l), t);
      }
    }

    /** Push the read; if reading has to be started and cannot be, pop it again and fail it. */
    method Read(t: TaskId, x: nat, n: nat, r: int)
      requires t !in seen && t !in done && x < |streams|
      modifies this`held, this`done, this`seen, this`streams, this`reading
      ensures View() == DoRead(old(View()), t, x, n, r)
    {
      if signaled {
        Reply(t, ECANCELED);
        return;
      }
      if !streams[x].active && r < 0 {
        Reply(t, r);
        if Queue(Readers(x)) != [] {
          reading := reading + {x};
        }
        return;
      }
      Park(Readers(x), t);
      streams := streams[x := streams[x].(active := true, asked := streams[x].asked + [t],
        room := streams[x].room[t := n])];
      reading := reading + {x};
    }

    method CloseStream(t: TaskId, x: nat)
      requires t !in seen && x < |streams| && Pending(View().core, Readers(x))
      modifies this`held, this`done, this`seen, this`dropped, this`streams, this`reading
      ensures View() == DoStreamClose(old(View()), t, x)
    {
      CompleteAll(Readers(x), ECANCELED);
      StopReading(x);
      streams := streams[x := CloseOne(streams[x])];
      SetSlot(StreamCloser(x), t);
    }

    /** A listener that is not registered is closing or gone: answer without touching it. */
    method ShutListener(t: TaskId, l: nat)
      requires t !in seen && t !in done
      requires l in registry ==>
                 BacklogDistinct(View(), l) && Pending(View().core, Acceptors(l))
      modifies this`held, this`done, this`seen, this`dropped, this`streams, this`listeners, this`registry
      ensures View() == DoListenerClose(old(View()), t, l)
    {
      if l !in registry {
        Reply(t, 0);
        return;
      }
      AbortListener(l);
      registry := registry - {l};
      SetSlot(ListenerCloser(l), t);
    }

    method Connect(t: TaskId, r: int)
      requires t !in seen && t !in done
      modifies this`held, this`done, this`seen, this`streams
      ensures View() == DoConnect(old(View()), t, r)
    {
      var x := |streams|;
      streams := streams + [NEW_STREAM];
      if r < 0 {
        streams := streams[x := CloseOne(streams[x])];
        assert streams == old(streams) + [CloseOne(NEW_STREAM)];
        Reply(t, r);
      } else {
        Park(Connecting(x), t);
      }
    }

    method Listen(t: TaskId, r: int)
      requires t !in seen && t !in done
      modifies this`done, this`seen, this`listeners, this`registry
      ensures View() == DoListen(old(View()), t, r)
    {
      var l := |listeners|;
      if r < 0 {
        listeners := listeners + [Listener(Closing, 1, [], [], [])];
        Reply(t, r);
      } else {
        listeners := listeners + [Listener(Open, 0, [], [], [])];
        registry := registry + {l};
        Reply(t, Handle(l));
      }
    }

    /** Three pipes when stdio is captured; a failed spawn closes them and the process. */
    method Spawn(t: TaskId, capture: bool, r: int)
      requires t !in seen && t !in done
      modifies this`done, this`seen, this`streams, this`processes
      ensures View() == DoSpawn(old(View()), t, capture, r)
    {
      var p, first := |processes|, |streams|;
      var pipe := if r < 0 then CloseOne(NEW_STREAM) else NEW_STREAM.(phase := Open, giver := AsPipe(t, p));
      if capture {
        var i := 0;
        while i < 3
          invariant i <= 3 && View() == old(View()).(streams := old(streams) + seq(i, _ => pipe))
        {
          streams := streams + [pipe];
          i := i + 1;
        }
        assert seq(3, _ => pipe) == [pipe, pipe, pipe];
      }
      processes := processes + [if r < 0 then Process(Closing, 1, None) else Process(Open, 0, None)];
      Reply(t, if r < 0 then r else Handle(p));
    }

    method Wait(t: TaskId, p: nat)
      requires t !in seen && t !in done && p < |processes|
      modifies this`held, this`done, this`seen, this`dropped
      ensures View() == DoWait(old(View()), t, p)
    {
      if processes[p].exited.Some? {
        Reply(t, processes[p].exited.value);
      } else {
        SetSlot(Waiter(p), t);
      }
    }

    method NextOf(t: TaskId, w: nat)
      requires t !in seen && t !in done && w < |watchers|
      modifies this`held, this`done, this`seen, this`dropped, this`watchers
      ensures View() == DoWatchNext(old(View()), t, w)
    {
      if Queue(NextEvent(w)) != [] {
        Reply(t, EBUSY);
        return;
      }
      watchers := watchers[w := watchers[w].(asks := watchers[w].asks + [t])];
      if watchers[w].events != [] {
        var ev := watchers[w].events[0];
        watchers := watchers[w := watchers[w].(events := watchers[w].events[1..],
          names := watchers[w].names[t := ev.name])];
        Reply(t, ev.flags);
      } else {
        SetSlot(NextEvent(w), t);
      }
    }

    method CloseWatcher(t: TaskId, w: nat)
      requires t !in seen && w < |watchers| && Pending(View().core, NextEvent(w))
      modifies this`held, this`done, this`seen, this`dropped, this`watchers
      ensures View() == DoWatchClose(old(View()), t, w)
    {
      CompleteAll(NextEvent(w), ECANCELED);
      watchers := watchers[w := watchers[w].(phase := Closing, closes := watchers[w].closes + 1)];
      SetSlot(WatcherCloser(w), t);
    }

    /** Operations without a persistent handle, or with none that changes. */
    method Request(t: TaskId, op: Op)
      requires t !in seen && t !in done && (op.FsRequest? || op.StartRequest? || op.StartTimer? || op.ProcKill?)
      requires OpEnabled(View(), op)
      modifies this`held, this`done, this`seen, this`dropped
      ensures View() == DoDispatch(old(View()), t, op)
    {
      match op {
        case FsRequest(r) =>
          // the result of the uv_fs_* call is ignored
          if r < 0 {
            seen, dropped := seen + {t}, dropped + {t};
          } else {
            Park(Slot.Request, t);
          }
        case StartRequest(r) => if r < 0 { Reply(t, r); } else { Park(Slot.Request, t); }
        case StartTimer => Park(Timer, t);
        case ProcKill(_, r) => Reply(t, r);
      }
    }

    method OpenWatcher(t: TaskId, r: int)
      requires t !in seen && t !in done
      modifies this`done, this`seen, this`watchers
      ensures View() == DoWatchOpen(old(View()), t, r)
    {
      watchers := watchers + [if r < 0 then NEW_WATCHER.(phase := Closing, closes := 1) else NEW_WATCHER];
      Reply(t, if r < 0 then r else Handle(|watchers| - 1));
    }

    method OpenStdio(t: TaskId, streamable: bool, r: int)
      requires t !in seen && t !in done
      modifies this`done, this`seen, this`streams
      ensures View() == DoStdioOpen(old(View()), t, streamable, r)
    {
      if streamable {
        streams := streams + [if r < 0 then CloseOne(NEW_STREAM) else NEW_STREAM.(phase := Open, giver := AsResult(t))];
      }
      Reply(t, if !streamable then 0 else if r < 0 then r else Handle(|streams| - 1));
    }

    /** Operations that make a handle. */
    method Make(t: TaskId, op: Op)
      requires t !in seen && t !in done && OpEnabled(View(), op)
      requires op.TcpConnect? || op.TcpListen? || op.ProcSpawn? || op.WatchOpen? || op.StdioOpen?
      modifies this`held, this`done, this`seen, this`streams, this`listeners, this`registry, this`processes,
        this`watchers
      ensures View() == DoDispatch(old(View()), t, op)
    {
      match op {
        case TcpConnect(r) => Connect(t, r);
        case TcpListen(r) => Listen(t, r);
        case ProcSpawn(capture, r) => Spawn(t, capture, r);
        case WatchOpen(r) => OpenWatcher(t, r);
        case StdioOpen(streamable, r) => OpenStdio(t, streamable, r);
      }
    }

    /** Operations on an open handle. */
    method Use(t: TaskId, op: Op)
      requires t !in seen && t !in done && OpEnabled(View(), op)
      requires op.TcpAccept? || op.StreamRead? || op.ProcWait? || op.WatchNext?
      modifies this`held, this`done, this`seen, this`dropped, this`streams, this`reading, this`listeners, this`watchers
      ensures View() == DoDispatch(old(View()), t, op)
    {
      match op {
        case TcpAccept(l) => Accept(t, l);
        case StreamRead(x, n, r) => Read(t, x, n, r);
        case ProcWait(p) => Wait(t, p);
        case WatchNext(w) => NextOf(t, w);
      }
    }

    /** Operations that close a handle. */
    method Close(t: TaskId, op: Op)
      requires t !in seen && t !in done && OpEnabled(View(), op) && Closes(op)
      requires forall slot :: Pending(View().core, slot)
      requires op.ListenerClose? && op.l in registry ==> BacklogDistinct(View(), op.l)
      modifies this`held, this`done, this`seen, this`dropped, this`streams, this`reading, this`listeners,
               this`registry, this`processes, this`watchers
      ensures View() == DoDispatch(old(View()), t, op)
    {
      match op {
        case StreamClose(x) =>
          assert Pending(View().core, Readers(x));
          CloseStream(t, x);
        case ListenerClose(l) =>
          assert Pending(View().core, Acceptors(l));
          ShutListener(t, l);
        case ProcClose(p) =>
          processes := processes[p := processes[p].(phase := Closing, closes := processes[p].closes + 1)];
          SetSlot(ProcessCloser(p), t);
        case WatchClose(w) =>
          assert Pending(View().core, NextEvent(w));
          CloseWatcher(t, w);
      }
    }

    /** `Dispatch`: every task that Scheme submits. */
    method DispatchTask(t: TaskId, op: Op)
      requires Valid() && Enabled(View(), Dispatch(t, op))
      modifies this
      ensures View() == Next(old(View()), Dispatch(t, op)) && Valid() && trace == old(trace) + [Dispatch(t, op)]
    {
      ghost var s, e := View(), Dispatch(t, op);
      DispatchReady(trace, s, t, op);
      if Closes(op) {
        Close(t, op);
      } else if op.TcpAccept? || op.StreamRead? || op.ProcWait? || op.WatchNext? {
        Use(t, op);
      } else if op.FsRequest? || op.StartRequest? || op.StartTimer? || op.ProcKill? {
        Request(t, op);
      } else {
        Make(t, op);
      }
      Extend(trace, s, e);
      trace := trace + [e];
    }
  }

  /** In a reachable state a dispatched task is new and the slots its operation relies on are in order. */
  lemma DispatchReady(run: seq<Event>, s: State, t: TaskId, op: Op)
    requires Reaches(run, s) && Enabled(s, Dispatch(t, op))
    ensures t !in s.core.done && forall slot :: Pending(s.core, slot)
    ensures op.ListenerClose? && op.l in s.registry ==> BacklogDistinct(s, op.l)
  {
    var owner := RunLinear(run, s);
    forall slot ensures Pending(s.core, slot) {
      LinearPending(s.core, owner, slot);
    }
    if op.ListenerClose? {
      RunInv(run, s);
      assert ListenerOk(s, op.l);
      BacklogIsDistinct(s, op.l);
    }
  }
}
