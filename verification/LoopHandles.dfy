/** Events that change a process or a watcher keep the invariant. */
module LoopHandles {
  import opened Ownership
  import opened LoopSpec
  import opened LoopInvariant

  /** Only process `p` changes. */
  ghost predicate OnlyProcess(s: State, s': State, p: nat) {
    && s' == s.(core := s'.core, processes := s'.processes) && |s'.processes| == |s.processes|
    && (forall q | 0 <= q < |s.processes| && q != p :: s'.processes[q] == s.processes[q])
    && (forall slot | slot != Waiter(p) && slot != ProcessCloser(p) :: In(s'.core, slot) == In(s.core, slot))
  }

  lemma OneProcess(s: State, s': State, p: nat)
    requires Inv(s) && DoneGrows(s.core, s'.core) && OnlyProcess(s, s', p) && ProcessOk(s', p)
    ensures Inv(s')
  {
    assert StreamsSame(s, s') && ListenersSame(s, s') && WatchersSame(s, s');
    forall q: nat ensures ProcessOk(s', q) || ProcessSame(s, s', q) {
      assert q != p ==> ProcessSame(s, s', q);
    }
    OthersKeep(s, s');
  }

  lemma WaitProcess(s: State, t: TaskId, p: nat)
    requires p < |s.processes| && ProcessOk(s, p) && s.processes[p].phase.Open?
    ensures OnlyProcess(s, DoWait(s, t, p), p) && ProcessOk(DoWait(s, t, p), p)
  {
  }

  lemma WaitKeeps(s: State, t: TaskId, p: nat)
    requires Inv(s) && OpEnabled(s, ProcWait(p)) && DoneGrows(s.core, DoWait(s, t, p).core)
    ensures Inv(DoWait(s, t, p))
  {
    assert ProcessOk(s, p);
    WaitProcess(s, t, p);
    OneProcess(s, DoWait(s, t, p), p);
  }

  lemma ProcCloseProcess(s: State, t: TaskId, p: nat)
    requires p < |s.processes| && ProcessOk(s, p) && s.processes[p].phase.Open?
    ensures OnlyProcess(s, DoProcClose(s, t, p), p) && ProcessOk(DoProcClose(s, t, p), p)
  {
  }

  lemma ProcCloseKeeps(s: State, t: TaskId, p: nat)
    requires Inv(s) && OpEnabled(s, ProcClose(p)) && DoneGrows(s.core, DoProcClose(s, t, p).core)
    ensures Inv(DoProcClose(s, t, p))
  {
    assert ProcessOk(s, p);
    ProcCloseProcess(s, t, p);
    OneProcess(s, DoProcClose(s, t, p), p);
  }

  lemma ExitProcess(s: State, p: nat, status: int)
    requires p < |s.processes| && ProcessOk(s, p) && s.processes[p].phase.Open?
    ensures OnlyProcess(s, OnExit(s, p, status), p) && ProcessOk(OnExit(s, p, status), p)
  {
  }

  lemma ExitKeeps(s: State, p: nat, status: int)
    requires Inv(s) && Enabled(s, ProcExited(p, status)) && DoneGrows(s.core, OnExit(s, p, status).core)
    ensures Inv(OnExit(s, p, status))
  {
    assert ProcessOk(s, p);
    ExitProcess(s, p, status);
    OneProcess(s, OnExit(s, p, status), p);
  }

  /** Only watcher `w` changes, or is new. */
  ghost predicate OnlyWatcher(s: State, s': State, w: nat) {
    && s' == s.(core := s'.core, watchers := s'.watchers)
    && (|s'.watchers| == |s.watchers| || (w == |s.watchers| && |s'.watchers| == w + 1))
    && (forall v | 0 <= v < |s.watchers| && v != w :: s'.watchers[v] == s.watchers[v])
    && (forall slot | slot != NextEvent(w) && slot != WatcherCloser(w) :: In(s'.core, slot) == In(s.core, slot))
  }

  lemma OneWatcher(s: State, s': State, w: nat)
    requires Inv(s) && DoneGrows(s.core, s'.core) && OnlyWatcher(s, s', w) && WatcherOk(s', w)
    ensures Inv(s')
  {
    assert StreamsSame(s, s') && ListenersSame(s, s') && ProcessesSame(s, s');
    forall v: nat ensures WatcherOk(s', v) || WatcherSame(s, s', v) {
      assert v != w ==> WatcherSame(s, s', v);
    }
    OthersKeep(s, s');
  }

  lemma WatchOpenKeeps(s: State, t: TaskId, r: int)
    requires Inv(s) && DoneGrows(s.core, DoWatchOpen(s, t, r).core)
    ensures Inv(DoWatchOpen(s, t, r))
  {
    assert WatcherOk(s, |s.watchers|);
    OneWatcher(s, DoWatchOpen(s, t, r), |s.watchers|);
  }

  lemma NextServed(c: Core, w: nat, wa: Watcher, t: TaskId, c': Core)
    requires EventsPaired(c, w, wa) && wa.events != [] && t !in c.done && c' == Answer(c, t, wa.events[0].flags)
    ensures EventsPaired(c', w,
              wa.(events := wa.events[1..], asks := wa.asks + [t], names := wa.names[t := wa.events[0].name]))
  {
    var n := |wa.asks|;
    assert n < |wa.arrived| && wa.events[0] == wa.arrived[n] && wa.events[1..] == wa.arrived[n + 1..];
  }

  lemma NextParked(c: Core, w: nat, wa: Watcher, t: TaskId, c': Core)
    requires EventsPaired(c, w, wa) && wa.events == [] && In(c, NextEvent(w)) == [] && c' == Store(c, NextEvent(w), t)
    ensures EventsPaired(c', w, wa.(asks := wa.asks + [t]))
  {
    var n := |wa.arrived|;
    assert n <= |wa.asks| && (wa.asks + [t])[n..] == wa.asks[n..] + [t];
  }

  lemma NextFrame(s: State, t: TaskId, w: nat)
    requires w < |s.watchers|
    ensures OnlyWatcher(s, DoWatchNext(s, t, w), w)
  {
  }

  lemma EventFrame(s: State, w: nat, ev: FsEvent)
    requires w < |s.watchers|
    ensures OnlyWatcher(s, OnFsEvent(s, w, ev), w)
  {
  }

  lemma NextWatcher(s: State, t: TaskId, w: nat, s': State)
    requires WatcherOk(s, w) && OpEnabled(s, WatchNext(w)) && t !in s.core.done
    requires s' == DoWatchNext(s, t, w) && DoneGrows(s.core, s'.core)
    ensures WatcherOk(s', w)
  {
    var wa := s.watchers[w];
    if In(s.core, NextEvent(w)) == [] {
      if wa.events != [] {
        NextServed(s.core, w, wa, t, s'.core);
      } else {
        NextParked(s.core, w, wa, t, s'.core);
      }
    }
  }

  lemma WatchNextKeeps(s: State, t: TaskId, w: nat)
    requires Inv(s) && OpEnabled(s, WatchNext(w)) && t !in s.core.done && DoneGrows(s.core, DoWatchNext(s, t, w).core)
    ensures Inv(DoWatchNext(s, t, w))
  {
    assert WatcherOk(s, w);
    NextFrame(s, t, w);
    NextWatcher(s, t, w, DoWatchNext(s, t, w));
    OneWatcher(s, DoWatchNext(s, t, w), w);
  }

  lemma WatchCloseKeeps(s: State, t: TaskId, w: nat)
    requires Inv(s) && OpEnabled(s, WatchClose(w)) && DoneGrows(s.core, DoWatchClose(s, t, w).core)
    ensures Inv(DoWatchClose(s, t, w))
  {
    var s' := DoWatchClose(s, t, w);
    assert WatcherOk(s, w);
    assert WatcherOk(s', w);
    OneWatcher(s, s', w);
  }

  lemma EventWatcher(s: State, w: nat, ev: FsEvent, s': State)
    requires WatcherOk(s, w) && w < |s.watchers| && s.watchers[w].phase.Open?
    requires In(s.core, NextEvent(w)) != [] ==> In(s.core, NextEvent(w))[0] !in s.core.done
    requires s' == OnFsEvent(s, w, ev) && DoneGrows(s.core, s'.core)
    ensures WatcherOk(s', w)
  {
    var wa, wa' := s.watchers[w], s'.watchers[w];
    if In(s.core, NextEvent(w)) != [] {
      var n := |wa.arrived|;
      assert n < |wa.asks| && In(s.core, NextEvent(w))[0] == wa.asks[n]
        && In(s'.core, NextEvent(w)) == wa.asks[n + 1..];
      assert wa'.arrived[..n] == wa.arrived && wa'.arrived[n] == ev;
      assert EventsPaired(s'.core, w, wa');
    } else {
      var n := |wa.asks|;
      assert n <= |wa.arrived| && wa'.arrived[n..] == wa.arrived[n..] + [ev];
      assert EventsPaired(s'.core, w, wa');
    }
  }

  lemma FsEventKeeps(s: State, w: nat, ev: FsEvent)
    requires Inv(s) && Enabled(s, FsChanged(w, ev)) && DoneGrows(s.core, OnFsEvent(s, w, ev).core)
    requires In(s.core, NextEvent(w)) != [] ==> In(s.core, NextEvent(w))[0] !in s.core.done
    ensures Inv(OnFsEvent(s, w, ev))
  {
    assert WatcherOk(s, w);
    EventFrame(s, w, ev);
    EventWatcher(s, w, ev, OnFsEvent(s, w, ev));
    OneWatcher(s, OnFsEvent(s, w, ev), w);
  }
}
