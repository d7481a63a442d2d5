/** The life of a handle, told by the events of the run: how it opens, why it closes, when it is deleted. */
module LoopLifetimes {
  import opened Common
  import opened Ownership
  import opened LoopSpec
  import opened LoopInvariant
  import opened LoopOwnership
  import opened LoopFrames
  import opened LoopTheorems
  import opened LoopRendezvous
  import opened LoopGivers
  import opened LoopResults

  // --- Why an open handle closes ---------------------------------------------------------------------

  /** The event asks for the close of the handle; a signal asks for the close of every listener. */
  predicate AsksClose(e: Event, obj: Object) {
    match obj
    case AStream(x) => e.Dispatch? && e.op == StreamClose(x)
    case AListener(l) => (e.Dispatch? && e.op == ListenerClose(l)) || e.Signal?
    case AProcess(p) => e.Dispatch? && e.op == ProcClose(p)
    case AWatcher(w) => e.Dispatch? && e.op == WatchClose(w)
  }

  predicate IsOpen(s: State, obj: Object) { PhaseOf(s, obj) == Some(Open) }

  lemma StreamByDispatch(s: State, t: TaskId, op: Op, x: nat)
    requires Objects(s) && OpEnabled(s, op) && StreamEvent(Dispatch(t, op)) && op != StreamClose(x)
    requires IsOpen(s, AStream(x))
    ensures IsOpen(DoDispatch(s, t, op), AStream(x))
  {
    match op
    case TcpAccept(l) => assert ListenerOk(s, l);
    case StreamRead(_, _, _) =>
    case StreamClose(_) =>
    case ListenerClose(l) => StreamByAbort(s, t, l, x);
    case _ => ForwardMake(s, t, op, x);
  }

  lemma StreamByAbort(s: State, t: TaskId, l: nat, x: nat)
    requires Objects(s) && IsOpen(s, AStream(x))
    ensures IsOpen(DoListenerClose(s, t, l), AStream(x))
  {
    assert ListenerOk(s, l);
    if l in s.registry && x in AllBacklog(s, {l}) {
      assert false;
    }
  }

  lemma StreamByCallback(s: State, e: Event, x: nat)
    requires Objects(s) && Enabled(s, e) && StreamEvent(e) && !e.Dispatch? && IsOpen(s, AStream(x))
    ensures IsOpen(Next(s, e), AStream(x))
  {
    match e
    case Connected(y, _) => assert StreamOk(s, y);
    case Connection(_, _, _) =>
    case Data(_, _) =>
    case Ended(_, _) =>
    case Closed(_) =>
    case Signal => BacklogIsClosed(s, x);
  }

  lemma ListenerStays(s: State, e: Event, l: nat)
    requires Enabled(s, e) && ListenerEvent(e) && !AsksClose(e, AListener(l)) && IsOpen(s, AListener(l))
    ensures IsOpen(Next(s, e), AListener(l))
  {
    match e
    case Dispatch(_, op) =>
      match op {
        case TcpListen(_) =>
        case TcpAccept(_) =>
        case ListenerClose(_) =>
      }
    case Connection(_, _, _) =>
    case Closed(_) =>
  }

  lemma ProcessStays(s: State, e: Event, p: nat)
    requires Enabled(s, e) && ProcessEvent(e) && !AsksClose(e, AProcess(p)) && IsOpen(s, AProcess(p))
    ensures IsOpen(Next(s, e), AProcess(p))
  {
    match e
    case Dispatch(_, _) =>
    case ProcExited(_, _) =>
    case Closed(_) =>
  }

  lemma WatcherStays(s: State, e: Event, w: nat)
    requires Enabled(s, e) && WatcherEvent(e) && !AsksClose(e, AWatcher(w)) && IsOpen(s, AWatcher(w))
    ensures IsOpen(Next(s, e), AWatcher(w))
  {
    match e
    case Dispatch(_, op) =>
      match op {
        case WatchOpen(_) =>
        case WatchNext(_) =>
        case WatchClose(_) =>
      }
    case FsChanged(_, _) =>
    case Closed(_) =>
  }

  lemma OpenStays(s: State, e: Event, obj: Object)
    requires Objects(s) && Enabled(s, e) && IsOpen(s, obj) && !AsksClose(e, obj)
    ensures IsOpen(Next(s, e), obj)
  {
    FieldFrame(s, e);
    match obj
    case AStream(x) =>
      if StreamEvent(e) {
        if e.Dispatch? {
          StreamByDispatch(s, e.t, e.op, x);
        } else {
          StreamByCallback(s, e, x);
        }
      }
    case AListener(l) =>
      if ListenerEvent(e) {
        ListenerStays(s, e, l);
      }
    case AProcess(p) =>
      if ProcessEvent(e) {
        ProcessStays(s, e, p);
      }
    case AWatcher(w) =>
      if WatcherEvent(e) {
        WatcherStays(s, e, w);
      }
  }

  /** An open handle stays open, however the run goes on, until its close is asked for. */
  lemma {:induction false} StaysOpen(run: seq<Event>, more: seq<Event>, s: State, s': State, obj: Object)
    requires Reaches(run, s) && Reaches(run + more, s') && IsOpen(s, obj)
    ensures IsOpen(s', obj) || exists e :: e in more && AsksClose(e, obj)
    decreases |more|
  {
    if more == [] {
      assert run + more == run;
    } else {
      var init := more[..|more| - 1];
      var s1, e := LastStep(run + more, s');
      assert (run + more)[..|run + more| - 1] == run + init;
      assert e == more[|more| - 1];
      StaysOpen(run, init, s, s1, obj);
      if IsOpen(s1, obj) {
        RunInv(run + init, s1);
        if !AsksClose(e, obj) {
          OpenStays(s1, e, obj);
        }
      } else {
        var e' :| e' in init && AsksClose(e', obj);
        assert e' in more;
      }
    }
  }

  // --- What is opened is open ------------------------------------------------------------------------

  /** The number the next handle of this kind gets. */
  function NextId(s: State, obj: Object): nat {
    match obj
    case AStream(_) => |s.streams|
    case AListener(_) => |s.listeners|
    case AProcess(_) => |s.processes|
    case AWatcher(_) => |s.watchers|
  }

  lemma OpensNow(s: State, e: Event, obj: Object)
    requires Enabled(s, e) && Opens(e, obj) && obj.id == NextId(s, obj)
    ensures IsOpen(Next(s, e), obj) && OpenedBy(Next(s, e).core, e, obj)
  {
    match obj
    case AListener(_) =>
    case AProcess(_) =>
    case AWatcher(_) =>
  }

  /**
    An open that libuv accepts gives its task the next handle of its kind, and that handle is open
    until its close is asked for.
   */
  lemma {:induction false} OpenedStays(run: seq<Event>, s: State, i: nat, obj: Object)
    requires Reaches(run, s) && i < |run| && After(run[..i]).Some?
    requires Opens(run[i], obj) && obj.id == NextId(After(run[..i]).value, obj)
    ensures OpenedBy(s.core, run[i], obj)
    ensures IsOpen(s, obj) || exists e :: e in run[i + 1..] && AsksClose(e, obj)
  {
    PrefixReached(run, s, i + 1);
    assert run[..i + 1] == run[..i] + [run[i]] && run[..i + 1] + run[i + 1..] == run;
    var s1, e := LastStep(run[..i + 1], After(run[..i + 1]).value);
    assert run[..i + 1][..i] == run[..i];
    OpensNow(s1, e, obj);
    StaysOpen(run[..i + 1], run[i + 1..], Next(s1, e), s, obj);
    CompletedForGood(run[..i + 1], run[i + 1..], Next(s1, e), s);
  }

  /** A stream that was handed over is open until its close is asked for. */
  lemma {:induction false} GivenStays(run: seq<Event>, s: State, x: nat)
    requires Reaches(run, s) && x < |s.streams| && !s.streams[x].giver.Nobody?
    ensures s.streams[x].phase.Open? || exists e :: e in run && AsksClose(e, AStream(x))
  {
    var s0, e := LastStep(run, s);
    var init := run[..|run| - 1];
    GiverStep(s0, e, x);
    if x < |s0.streams| && s0.streams[x].giver == s.streams[x].giver {
      GivenStays(init, s0, x);
      if s0.streams[x].phase.Open? {
        RunInv(init, s0);
        if !AsksClose(e, AStream(x)) {
          OpenStays(s0, e, AStream(x));
        }
      } else {
        var e' :| e' in init && AsksClose(e', AStream(x));
        assert e' in run;
      }
    }
  }

  // --- Pipes -----------------------------------------------------------------------------------------

  /** The pipes of a process: three if its spawn captured them and libuv spawned it, and none otherwise. */
  predicate IsPipe(n: nat, p: nat, op: Op, x: nat, p': nat)
    requires op.ProcSpawn?
  {
    op.capture && op.r >= 0 && n <= x < n + 3 && p' == p
  }

  predicate HasGiver(s: State, x: nat, g: Giver) { x < |s.streams| && s.streams[x].giver == g }

  lemma {:induction false} NoPipesYet(run: seq<Event>, s: State, t: TaskId, x: nat, p: nat)
    requires Reaches(run, s) && t !in s.core.seen
    ensures !HasGiver(s, x, AsPipe(t, p))
  {
    FreshTask(run, s, t);
    if HasGiver(s, x, AsPipe(t, p)) {
      HandedNow(run, s, x);
    }
  }

  lemma PipesMade(s: State, t: TaskId, op: Op, x: nat, p: nat)
    requires op.ProcSpawn? && !HasGiver(s, x, AsPipe(t, p))
    ensures HasGiver(DoDispatch(s, t, op), x, AsPipe(t, p)) <==> IsPipe(|s.streams|, |s.processes|, op, x, p)
  {
  }

  lemma {:induction false} PipesStay(run: seq<Event>, s: State, e: Event, t: TaskId, x: nat, p: nat)
    requires Reaches(run, s) && Enabled(s, e) && t in s.core.seen
    ensures HasGiver(Next(s, e), x, AsPipe(t, p)) <==> HasGiver(s, x, AsPipe(t, p))
  {
    GiverStep(s, e, x);
    if x < |s.streams| {
      StreamsGoForward(run, s, e, x);
    }
  }

  /** The streams that a spawn hands over as pipes of its process are its three new ones, and no others ever. */
  lemma {:induction false} SpawnGivesPipes(run: seq<Event>, s: State, i: nat, t: TaskId, op: Op, x: nat, p: nat)
    requires Reaches(run, s) && i < |run| && run[i] == Dispatch(t, op) && op.ProcSpawn? && After(run[..i]).Some?
    ensures var s0 := After(run[..i]).value;
            HasGiver(s, x, AsPipe(t, p)) <==> IsPipe(|s0.streams|, |s0.processes|, op, x, p)
  {
    var s0, e := LastStep(run, s);
    var init := run[..|run| - 1];
    if i == |init| {
      NoPipesYet(init, s0, t, x, p);
      PipesMade(s0, t, op, x, p);
    } else {
      assert init[..i] == run[..i] && init[i] == run[i];
      SpawnGivesPipes(init, s0, i, t, op, x, p);
      SeenIsDispatched(init, s0);
      InDispatched(init, t, op);
      PipesStay(init, s0, e, t, x, p);
    }
  }

  lemma {:induction false} InDispatched(run: seq<Event>, t: TaskId, op: Op)
    requires Dispatch(t, op) in run
    ensures t in Dispatched(run)
  {
    var last := |run| - 1;
    if run[last] != Dispatch(t, op) {
      InDispatched(run[..last], t, op);
    }
  }

  // --- Deletion --------------------------------------------------------------------------------------

  predicate IsDeleted(s: State, obj: Object) { PhaseOf(s, obj) == Some(Deleted) }

  lemma StreamGoneByAccept(s: State, t: TaskId, l: nat, x: nat)
    requires OpEnabled(s, TcpAccept(l)) && IsDeleted(DoAccept(s, t, l), AStream(x))
    ensures IsDeleted(s, AStream(x))
  {
  }

  lemma StreamGoneByDispatch(s: State, t: TaskId, op: Op, x: nat)
    requires OpEnabled(s, op) && StreamEvent(Dispatch(t, op)) && IsDeleted(DoDispatch(s, t, op), AStream(x))
    ensures IsDeleted(s, AStream(x))
  {
    match op
    case TcpConnect(_) =>
    case TcpAccept(l) => StreamGoneByAccept(s, t, l, x);
    case StreamRead(_, _, _) =>
    case StreamClose(_) =>
    case ListenerClose(_) =>
    case ProcSpawn(_, _) =>
    case StdioOpen(_, _) =>
  }

  lemma StreamGone(s: State, e: Event, x: nat)
    requires Enabled(s, e) && StreamEvent(e) && IsDeleted(Next(s, e), AStream(x))
    ensures IsDeleted(s, AStream(x)) || e == Closed(AStream(x))
  {
    match e
    case Dispatch(t, op) => StreamGoneByDispatch(s, t, op, x);
    case Connected(_, _) =>
    case Connection(_, _, _) =>
    case Data(_, _) =>
    case Ended(_, _) =>
    case Closed(_) =>
    case Signal =>
  }

  lemma ListenerGoneByDispatch(s: State, t: TaskId, op: Op, l: nat)
    requires ListenerOk(s, l) && OpEnabled(s, op) && ListenerEvent(Dispatch(t, op))
    ensures IsDeleted(DoDispatch(s, t, op), AListener(l)) <==> IsDeleted(s, AListener(l))
  {
    match op
    case TcpListen(_) =>
    case TcpAccept(_) =>
    case ListenerClose(_) =>
  }

  lemma ListenerGone(s: State, e: Event, l: nat)
    requires ListenerOk(s, l) && Enabled(s, e) && ListenerEvent(e)
    ensures IsDeleted(Next(s, e), AListener(l)) <==> IsDeleted(s, AListener(l)) || e == Closed(AListener(l))
  {
    match e
    case Dispatch(t, op) => ListenerGoneByDispatch(s, t, op, l);
    case Connection(_, _, _) =>
    case Closed(_) =>
    case Signal =>
  }

  lemma ProcessGone(s: State, e: Event, p: nat)
    requires Enabled(s, e) && ProcessEvent(e)
    ensures IsDeleted(Next(s, e), AProcess(p)) <==> IsDeleted(s, AProcess(p)) || e == Closed(AProcess(p))
  {
    match e
    case Dispatch(_, _) =>
    case ProcExited(_, _) =>
    case Closed(_) =>
  }

  lemma WatcherGone(s: State, e: Event, w: nat)
    requires Enabled(s, e) && WatcherEvent(e)
    ensures IsDeleted(Next(s, e), AWatcher(w)) <==> IsDeleted(s, AWatcher(w)) || e == Closed(AWatcher(w))
  {
    match e
    case Dispatch(_, op) =>
      match op {
        case WatchOpen(_) =>
        case WatchNext(_) =>
        case WatchClose(_) =>
      }
    case FsChanged(_, _) =>
    case Closed(_) =>
  }

  lemma {:induction false} StreamDeletion(run: seq<Event>, s: State, e: Event, x: nat)
    requires Reaches(run, s) && Enabled(s, e) && StreamEvent(e)
    ensures IsDeleted(Next(s, e), AStream(x)) <==> IsDeleted(s, AStream(x)) || e == Closed(AStream(x))
  {
    if IsDeleted(s, AStream(x)) {
      StreamsGoForward(run, s, e, x);
    }
    if IsDeleted(Next(s, e), AStream(x)) {
      StreamGone(s, e, x);
    }
  }

  lemma {:induction false} DeletionStep(run: seq<Event>, s: State, e: Event, obj: Object)
    requires Reaches(run, s) && Enabled(s, e)
    ensures IsDeleted(Next(s, e), obj) <==> IsDeleted(s, obj) || e == Closed(obj)
  {
    FieldFrame(s, e);
    match obj
    case AStream(x) =>
      if StreamEvent(e) {
        StreamDeletion(run, s, e, x);
      }
    case AListener(l) =>
      if ListenerEvent(e) {
        RunInv(run, s);
        assert ListenerOk(s, l);
        ListenerGone(s, e, l);
      }
    case AProcess(p) =>
      if ProcessEvent(e) {
        ProcessGone(s, e, p);
      }
    case AWatcher(w) =>
      if WatcherEvent(e) {
        WatcherGone(s, e, w);
      }
  }

  /** A handle is deleted exactly when its close callback has come, and that comes once. */
  lemma {:induction false} DeletedIff(run: seq<Event>, s: State, obj: Object)
    requires Reaches(run, s)
    ensures IsDeleted(s, obj) <==> Closed(obj) in run
    ensures forall i, j | 0 <= i < j < |run| :: !(run[i] == run[j] == Closed(obj))
  {
    if run != [] {
      var s0, e := LastStep(run, s);
      DeletedIff(run[..|run| - 1], s0, obj);
      DeletionStep(run[..|run| - 1], s0, e, obj);
    }
  }
}
