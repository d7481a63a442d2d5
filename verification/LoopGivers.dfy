/** Who hands each stream over to Scheme, and what becomes of the streams of a run. */
module LoopGivers {
  import opened Ownership
  import opened LoopSpec
  import opened LoopInvariant
  import opened LoopOwnership
  import opened LoopFrames
  import opened LoopSteps
  import opened LoopTheorems
  import opened LoopRendezvous

  // --- Connecting ------------------------------------------------------------------------------------

  /** Of connect task `t` and the stream `x` made for it: in flight; failed and closed; or handed over. */
  ghost predicate ConnectOk(s: State, t: TaskId, x: nat) {
    && x < |s.streams|
    && if t in s.core.done then
         if s.core.done[t] < 0 then Ending(s.streams[x].phase)
         else s.core.done[t] == Handle(x) && s.streams[x].giver == AsResult(t)
       else In(s.core, Connecting(x)) == [t]
  }

  lemma ConnectWaits(s: State, e: Event, t: TaskId, x: nat, owner': map<TaskId, Slot>)
    requires Enabled(s, e) && !(e.Connected? && e.s == x) && x < |s.streams| && x < |Next(s, e).streams|
    requires In(s.core, Connecting(x)) == [t] && Linear(Next(s, e).core, owner')
    ensures ConnectOk(Next(s, e), t, x)
  {
    SlotFrame(s, e, Connecting(x));
    Front(Next(s, e).core, owner', Connecting(x));
  }

  lemma ConnectFires(s: State, status: int, t: TaskId, x: nat)
    requires Enabled(s, Connected(x, status)) && In(s.core, Connecting(x)) == [t]
    ensures ConnectOk(Next(s, Connected(x, status)), t, x)
  {
  }

  lemma ConnectStays(s: State, s': State, t: TaskId, x: nat)
    requires ConnectOk(s, t, x) && t in s.core.done && DoneGrows(s.core, s'.core)
    requires x < |s'.streams| && Forward(s.streams[x], s'.streams[x])
    ensures ConnectOk(s', t, x)
  {
  }

  lemma ConnectStep(s: State, owner: map<TaskId, Slot>, e: Event, t: TaskId, x: nat)
    requires Linear(s.core, owner) && Enabled(s, e) && ConnectOk(s, t, x)
    requires x < |Next(s, e).streams| && Forward(s.streams[x], Next(s, e).streams[x])
    ensures ConnectOk(Next(s, e), t, x)
  {
    var owner' := NextLinear(s, owner, e);
    if t in s.core.done {
      ConnectStays(s, Next(s, e), t, x);
    } else if e.Connected? && e.s == x {
      ConnectFires(s, e.status, t, x);
    } else {
      ConnectWaits(s, e, t, x, owner');
    }
  }

  lemma {:induction false} ConnectGoesOn(run: seq<Event>, s: State, e: Event, t: TaskId, x: nat)
    requires Reaches(run, s) && Enabled(s, e) && ConnectOk(s, t, x)
    ensures ConnectOk(Next(s, e), t, x)
  {
    var owner := RunLinear(run, s);
    StreamsGoForward(run, s, e, x);
    ConnectStep(s, owner, e, t, x);
  }

  lemma {:induction false} ConnectBegins(run: seq<Event>, s: State, t: TaskId, r: int)
    requires Reaches(run, s) && t !in s.core.seen
    ensures ConnectOk(DoConnect(s, t, r), t, |s.streams|)
  {
    var owner := RunKeeps(run, s);
    assert StreamOk(s, |s.streams|);
  }

  /**
    Every connect task is in flight, has failed with its stream closed, or has got its stream. The
    stream is the one made at the dispatch of the task.
   */
  lemma {:induction false} ConnectAnswered(run: seq<Event>, s: State, t: TaskId, r: int) returns (i: nat, x: nat)
    requires Reaches(run, s) && Dispatch(t, TcpConnect(r)) in run
    ensures i < |run| && run[i] == Dispatch(t, TcpConnect(r))
    ensures After(run[..i]).Some? && x == |After(run[..i]).value.streams|
    ensures ConnectOk(s, t, x)
  {
    var last := |run| - 1;
    var s0, e := LastStep(run, s);
    if e == Dispatch(t, TcpConnect(r)) {
      i, x := last, |s0.streams|;
      ConnectBegins(run[..last], s0, t, r);
    } else {
      i, x := ConnectAnswered(run[..last], s0, t, r);
      assert run[..last][..i] == run[..i] && run[..last][i] == run[i];
      ConnectGoesOn(run[..last], s0, e, t, x);
    }
  }

  // --- Accepting -------------------------------------------------------------------------------------

  /** A task that has completed got no stream, or one that was handed to it and to nobody else. */
  ghost predicate GotStream(s: State, t: TaskId) {
    && t in s.core.done
    && (s.core.done[t] <= 0 || HandedTo(s, t, s.core.done[t] - 1))
  }

  ghost predicate HandedTo(s: State, t: TaskId, x: nat) { x < |s.streams| && s.streams[x].giver == AsResult(t) }

  /** An accept task is parked, or has completed without a stream or with its stream. */
  ghost predicate AcceptOk(s: State, t: TaskId, l: nat) {
    if t in s.core.done then GotStream(s, t) else t in In(s.core, Acceptors(l))
  }

  lemma {:induction false} GotStays(run: seq<Event>, s: State, e: Event, t: TaskId)
    requires Reaches(run, s) && Enabled(s, e) && GotStream(s, t)
    ensures GotStream(Next(s, e), t)
  {
    var owner := RunLinear(run, s);
    var _ := NextLinear(s, owner, e);
    if s.core.done[t] > 0 {
      StreamsGoForward(run, s, e, s.core.done[t] - 1);
    }
  }

  lemma AcceptAtConnection(s: State, l: nat, status: int, ok: bool, t: TaskId, owner: map<TaskId, Slot>)
    requires Linear(s.core, owner) && l < |s.listeners| && t in In(s.core, Acceptors(l))
    ensures AcceptOk(OnConnection(s, l, status, ok), t, l)
  {
    var q := In(s.core, Acceptors(l));
    assert Owned(s.core, owner, Acceptors(l));
    if t != q[0] {
      RemoveMembers(q, 0);
    }
  }

  lemma {:induction false} AcceptAtAbort(run: seq<Event>, s: State, u: TaskId, l: nat, t: TaskId)
    requires Reaches(run, s) && Enabled(s, Dispatch(u, ListenerClose(l))) && t in In(s.core, Acceptors(l))
    ensures AcceptOk(Next(s, Dispatch(u, ListenerClose(l))), t, l)
  {
    RunInv(run, s);
    assert ListenerOk(s, l);
    AbortCancels(run, s, u, l);
  }

  lemma HardSignal(s: State)
    requires Enabled(s, Signal) && !Graceful(s)
    ensures Next(s, Signal).core == s.core
  {
  }

  lemma SweptAccept(s: State, s': State, t: TaskId, l: nat)
    requires Swept(s.core, s'.core) && t in In(s.core, Acceptors(l))
    ensures AcceptOk(s', t, l)
  {
  }

  lemma {:induction false} AcceptAtSignal(run: seq<Event>, s: State, l: nat, t: TaskId)
    requires Reaches(run, s) && Enabled(s, Signal) && t in In(s.core, Acceptors(l))
    ensures AcceptOk(Next(s, Signal), t, l)
  {
    if Graceful(s) {
      SweepIsExact(run, s);
      SweptAccept(s, Next(s, Signal), t, l);
    } else {
      UnservedPending(run, s, Acceptors(l));
      HardSignal(s);
    }
  }

  lemma AcceptAtAccept(s: State, u: TaskId, l: nat, t: TaskId)
    requires OpEnabled(s, TcpAccept(l)) && t in In(s.core, Acceptors(l)) && t !in s.core.done && u != t
    ensures AcceptOk(DoAccept(s, u, l), t, l)
  {
  }

  lemma AcceptElsewhere(s: State, e: Event, l: nat, t: TaskId, owner': map<TaskId, Slot>)
    requires Enabled(s, e) && !Touches(s, e, Acceptors(l)) && t in In(s.core, Acceptors(l))
    requires Linear(Next(s, e).core, owner')
    ensures AcceptOk(Next(s, e), t, l)
  {
    SlotFrame(s, e, Acceptors(l));
    assert Owned(Next(s, e).core, owner', Acceptors(l));
  }

  lemma {:induction false} ParkedAccept(run: seq<Event>, s: State, e: Event, t: TaskId, l: nat)
    requires Reaches(run, s) && Enabled(s, e) && t in In(s.core, Acceptors(l))
    ensures AcceptOk(Next(s, e), t, l)
  {
    var owner := RunLinear(run, s);
    assert Owned(s.core, owner, Acceptors(l));
    if !Touches(s, e, Acceptors(l)) {
      var owner' := NextLinear(s, owner, e);
      AcceptElsewhere(s, e, l, t, owner');
    } else {
      match e
      case Dispatch(u, op) =>
        if op.ListenerClose? {
          AcceptAtAbort(run, s, u, l, t);
        } else {
          AcceptAtAccept(s, u, l, t);
        }
      case Connection(_, status, ok) => AcceptAtConnection(s, l, status, ok, t, owner);
      case Signal => AcceptAtSignal(run, s, l, t);
    }
  }

  lemma AcceptBegins(s: State, t: TaskId, l: nat)
    requires Enabled(s, Dispatch(t, TcpAccept(l))) && t !in s.core.done
    ensures AcceptOk(Next(s, Dispatch(t, TcpAccept(l))), t, l)
  {
  }

  /** Every accept task is parked with its listener, or has completed without a stream or with its own. */
  lemma {:induction false} AcceptAnswered(run: seq<Event>, s: State, t: TaskId, l: nat)
    requires Reaches(run, s) && Dispatch(t, TcpAccept(l)) in run
    ensures AcceptOk(s, t, l)
  {
    var s0, e := LastStep(run, s);
    var init := run[..|run| - 1];
    if e == Dispatch(t, TcpAccept(l)) {
      FreshTask(init, s0, t);
      AcceptBegins(s0, t, l);
    } else {
      AcceptAnswered(init, s0, t, l);
      if t in s0.core.done {
        GotStays(init, s0, e, t);
      } else {
        ParkedAccept(init, s0, e, t, l);
      }
    }
  }

  lemma {:induction false} FreshTask(run: seq<Event>, s: State, t: TaskId)
    requires Reaches(run, s) && t !in s.core.seen
    ensures t !in s.core.done
  {
    var _ := RunLinear(run, s);
  }

  lemma StdioBegins(s: State, t: TaskId, streamable: bool, r: int)
    ensures GotStream(DoStdioOpen(s, t, streamable, r), t)
  {
  }

  lemma {:induction false} StdioAnswered(run: seq<Event>, s: State, t: TaskId, streamable: bool, r: int)
    requires Reaches(run, s) && Dispatch(t, StdioOpen(streamable, r)) in run
    ensures GotStream(s, t)
  {
    var s0, e := LastStep(run, s);
    if e == Dispatch(t, StdioOpen(streamable, r)) {
      StdioBegins(s0, t, streamable, r);
    } else {
      StdioAnswered(run[..|run| - 1], s0, t, streamable, r);
      GotStays(run[..|run| - 1], s0, e, t);
    }
  }

  // --- One task per stream -----------------------------------------------------------------------------

  /** Operations that complete with a stream. */
  predicate Gives(op: Op) { op.TcpConnect? || op.TcpAccept? || op.StdioOpen? }

  /** A task that asked for a stream and completed with a handle was handed that stream. */
  lemma {:induction false} ResultIsHanded(run: seq<Event>, s: State, t: TaskId, op: Op)
    requires Reaches(run, s) && Dispatch(t, op) in run && Gives(op) && t in s.core.done
    ensures GotStream(s, t)
  {
    match op
    case TcpConnect(r) =>
      var _, x := ConnectAnswered(run, s, t, r);
    case TcpAccept(l) => AcceptAnswered(run, s, t, l);
    case StdioOpen(streamable, r) => StdioAnswered(run, s, t, streamable, r);
  }

  /** No two tasks are given the same stream, whichever way they asked for one. */
  lemma {:induction false} OneTaskPerStream(run: seq<Event>, s: State, t: TaskId, op: Op, u: TaskId, op': Op)
    requires Reaches(run, s) && Dispatch(t, op) in run && Dispatch(u, op') in run && Gives(op) && Gives(op')
    requires t in s.core.done && u in s.core.done && s.core.done[t] == s.core.done[u] > 0
    ensures t == u
  {
    ResultIsHanded(run, s, t, op);
    ResultIsHanded(run, s, u, op');
  }

  // --- Every stream has a giver ------------------------------------------------------------------------

  /** The event hands the stream over. */
  ghost predicate HandsOver(s: State, e: Event, x: nat, g: Giver) {
    match g
    case Nobody => false
    case AsResult(t) =>
      || (e.Dispatch? && e.t == t && (e.op.TcpAccept? || (e.op.StdioOpen? && e.op.streamable && e.op.r >= 0)))
      || (e.Connected? && e.s == x && t in In(s.core, Connecting(x)))
      || (e.Connection? && t in In(s.core, Acceptors(e.l)))
    case AsPipe(t, _) => e.Dispatch? && e.t == t && e.op.ProcSpawn? && e.op.capture && e.op.r >= 0
  }

  /** The giver of a stream changes only by a hand-over. */
  ghost predicate GiverMoves(s: State, e: Event, x: nat, s': State) {
    && |s.streams| <= |s'.streams|
    && (x < |s'.streams| ==>
          || s'.streams[x].giver.Nobody?
          || (x < |s.streams| && s'.streams[x].giver == s.streams[x].giver)
          || (HandsOver(s, e, x, s'.streams[x].giver) && s'.streams[x].phase.Open?))
  }

  lemma GiverByDispatch(s: State, t: TaskId, op: Op, x: nat)
    requires OpEnabled(s, op) && StreamEvent(Dispatch(t, op)) && !Closes(op)
    ensures GiverMoves(s, Dispatch(t, op), x, DoDispatch(s, t, op))
  {
    match op
    case TcpConnect(_) =>
    case TcpAccept(_) =>
    case StreamRead(_, _, _) =>
    case ProcSpawn(_, _) =>
    case StdioOpen(_, _) =>
  }

  lemma GiverByClose(s: State, t: TaskId, op: Op, x: nat)
    requires OpEnabled(s, op) && (op.StreamClose? || op.ListenerClose?)
    ensures GiverMoves(s, Dispatch(t, op), x, DoDispatch(s, t, op))
  {
    match op
    case StreamClose(_) =>
    case ListenerClose(_) =>
  }

  lemma GiverByCallback(s: State, e: Event, x: nat)
    requires Enabled(s, e) && StreamEvent(e) && !e.Dispatch?
    ensures GiverMoves(s, e, x, Next(s, e))
  {
    match e
    case Connected(_, _) =>
    case Connection(_, _, _) =>
    case Data(_, _) =>
    case Ended(_, _) =>
    case Closed(_) =>
    case Signal =>
  }

  lemma GiverStep(s: State, e: Event, x: nat)
    requires Enabled(s, e)
    ensures GiverMoves(s, e, x, Next(s, e))
  {
    if !StreamEvent(e) {
      FieldFrame(s, e);
    } else if !e.Dispatch? {
      GiverByCallback(s, e, x);
    } else if Closes(e.op) {
      GiverByClose(s, e.t, e.op, x);
    } else {
      GiverByDispatch(s, e.t, e.op, x);
    }
  }

  lemma ConnectingStep(s: State, e: Event, x: nat, t: TaskId)
    requires StreamOk(s, |s.streams|) && Enabled(s, e) && t in In(Next(s, e).core, Connecting(x))
    ensures t in In(s.core, Connecting(x)) || (e.Dispatch? && e.t == t && e.op.TcpConnect?)
  {
    if !Touches(s, e, Connecting(x)) {
      SlotFrame(s, e, Connecting(x));
    } else {
      match e
      case Dispatch(u, op) => assert DoDispatch(s, u, op) == DoConnect(s, u, op.r);
      case Connected(_, _) =>
    }
  }

  /** A task in a connect request was dispatched to connect. */
  lemma {:induction false} ConnectHistory(run: seq<Event>, s: State, x: nat, t: TaskId) returns (e: Event)
    requires Reaches(run, s) && t in In(s.core, Connecting(x))
    ensures e in run && e.Dispatch? && e.t == t && e.op.TcpConnect?
  {
    var s0, last := LastStep(run, s);
    RunInv(run[..|run| - 1], s0);
    assert StreamOk(s0, |s0.streams|);
    ConnectingStep(s0, last, x, t);
    if t in In(s0.core, Connecting(x)) {
      e := ConnectHistory(run[..|run| - 1], s0, x, t);
    } else {
      e := last;
    }
  }

  lemma {:induction false} InAcceptTasks(run: seq<Event>, l: nat, t: TaskId)
    requires t in AcceptTasks(run, l)
    ensures Dispatch(t, TcpAccept(l)) in run
  {
    var last := |run| - 1;
    if run[last] != Dispatch(t, TcpAccept(l)) {
      InAcceptTasks(run[..last], l, t);
      assert Dispatch(t, TcpAccept(l)) in run[..last];
    }
  }

  /** A parked acceptor was dispatched to accept. */
  lemma {:induction false} AcceptHistory(run: seq<Event>, s: State, l: nat, t: TaskId)
    requires Reaches(run, s) && t in In(s.core, Acceptors(l))
    ensures Dispatch(t, TcpAccept(l)) in run
  {
    RunInv(run, s);
    assert ListenerOk(s, l);
    AcceptRendezvous(run, s, l);
    InAcceptTasks(run, l, t);
  }

  /** The event asked for the stream, and its task completed with it, or with the process it is a pipe of. */
  predicate GivenBy(c: Core, e: Event, x: nat, g: Giver) {
    && e.Dispatch?
    && match g
       case Nobody => false
       case AsResult(t) =>
         && e.t == t && t in c.done && c.done[t] == Handle(x)
         && (e.op.TcpConnect? || e.op.TcpAccept? || (e.op.StdioOpen? && e.op.streamable && e.op.r >= 0))
       case AsPipe(t, p) =>
         && e.t == t && t in c.done && c.done[t] == Handle(p)
         && e.op.ProcSpawn? && e.op.capture && e.op.r >= 0
  }

  /** The event that asked for a stream that is handed over now. */
  lemma {:induction false} HandOverHistory(run: seq<Event>, s: State, e: Event, x: nat, g: Giver) returns (asker: Event)
    requires Reaches(run, s) && Enabled(s, e) && HandsOver(s, e, x, g)
    ensures asker in run + [e] && asker.Dispatch?
    ensures match g
            case Nobody => false
            case AsResult(t) =>
              && asker.t == t
              && (asker.op.TcpConnect? || asker.op.TcpAccept?
                   || (asker.op.StdioOpen? && asker.op.streamable && asker.op.r >= 0))
            case AsPipe(t, _) => asker.t == t && asker.op.ProcSpawn? && asker.op.capture && asker.op.r >= 0
  {
    asker := e;
    if e.Connected? {
      asker := ConnectHistory(run, s, x, g.t);
    } else if e.Connection? {
      AcceptHistory(run, s, e.l, g.t);
      asker := Dispatch(g.t, TcpAccept(e.l));
    }
  }

  lemma {:induction false} HandedNow(run: seq<Event>, s: State, x: nat)
    requires Reaches(run, s) && x < |s.streams| && !s.streams[x].giver.Nobody?
    ensures Handed(s.core, x, s.streams[x])
  {
    RunInv(run, s);
    assert StreamOk(s, x);
  }

  /** Every stream that was ever handed over was asked for by a task of the run that completed with it. */
  lemma {:induction false} StreamGiven(run: seq<Event>, s: State, x: nat) returns (e: Event)
    requires Reaches(run, s) && x < |s.streams| && !s.streams[x].giver.Nobody?
    ensures e in run && GivenBy(s.core, e, x, s.streams[x].giver)
  {
    var s0, last := LastStep(run, s);
    var init, g := run[..|run| - 1], s.streams[x].giver;
    HandedNow(run, s, x);
    GiverStep(s0, last, x);
    if x < |s0.streams| && s0.streams[x].giver == g {
      e := StreamGiven(init, s0, x);
      assert e in init;
    } else {
      e := HandOverHistory(init, s0, last, x, g);
    }
  }

  // --- The ledger --------------------------------------------------------------------------------------

  /**
    Every stream ever created is in one place: connecting with its request in flight; in the backlog of
    an open listener; open and handed over, by a task of the run that asked for it; or closed exactly
    once.
   */
  lemma {:induction false} StreamLedger(run: seq<Event>, s: State, x: nat)
    requires Reaches(run, s) && x < |s.streams|
    ensures s.streams[x].phase.Opening? <==> In(s.core, Connecting(x)) != []
    ensures forall l: nat :: s.streams[x].phase == Backlog(l) <==> InBacklog(s, l, x)
    ensures s.streams[x].phase.Open? ==> exists e :: e in run && GivenBy(s.core, e, x, s.streams[x].giver)
    ensures s.streams[x].closes == if Ending(s.streams[x].phase) then 1 else 0
  {
    RunInv(run, s);
    assert StreamOk(s, x);
    forall l: nat ensures s.streams[x].phase == Backlog(l) <==> InBacklog(s, l, x) {
      assert ListenerOk(s, l);
      BacklogMark(s, l, x);
    }
    if s.streams[x].phase.Open? {
      var e := StreamGiven(run, s, x);
    }
  }
}
