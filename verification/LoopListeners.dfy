/** Events that change listeners and their backlogs keep the invariant. */
module LoopListeners {
  import opened Ownership
  import opened LoopSpec
  import opened LoopInvariant
  import opened LoopStreams

  /** At most the listed listeners and streams change. */
  ghost predicate OnlyNet(s: State, s': State, xs: set<nat>, ls: set<nat>) {
    && s' == s.(core := s'.core, streams := s'.streams, reading := s'.reading, listeners := s'.listeners,
         registry := s'.registry)
    && |s.streams| <= |s'.streams| && |s.listeners| <= |s'.listeners|
    && (forall x: nat | x !in xs ::
          && (x < |s'.streams| <==> x < |s.streams|)
          && (x < |s.streams| ==> s'.streams[x] == s.streams[x])
          && (x in s'.reading <==> x in s.reading))
    && (forall l: nat | l !in ls ::
          && (l < |s'.listeners| <==> l < |s.listeners|)
          && (l < |s.listeners| ==> s'.listeners[l] == s.listeners[l])
          && (l in s'.registry <==> l in s.registry))
    && (forall slot :: In(s'.core, slot) == In(s.core, slot)
          || (slot.Acceptors? && slot.listener in ls) || (slot.ListenerCloser? && slot.listener in ls)
          || (slot.Readers? && slot.stream in xs))
  }

  lemma NetFrame(s: State, s': State, xs: set<nat>, ls: set<nat>)
    requires OnlyNet(s, s', xs, ls)
    ensures ProcessesSame(s, s') && WatchersSame(s, s')
    ensures forall x: nat :: SlotSame(s, s', Connecting(x)) && SlotSame(s, s', StreamCloser(x))
    ensures forall x: nat | x !in xs :: SlotSame(s, s', Readers(x))
    ensures forall l: nat | l !in ls :: SlotSame(s, s', Acceptors(l)) && SlotSame(s, s', ListenerCloser(l))
  {
  }

  /** Streams outside `xs` see the same listeners, except those of `ls`, whose backlog only loses `xs`. */
  lemma NetStreams(s: State, s': State, xs: set<nat>, ls: set<nat>, x: nat)
    requires OnlyNet(s, s', xs, ls) && StreamOk(s, x) && x !in xs
    requires forall l | l in ls && l < |s.listeners| && x in s.listeners[l].accepted :: x in s'.listeners[l].accepted
    ensures StreamSame(s, s', x)
  {
    NetFrame(s, s', xs, ls);
  }

  /** Listeners outside `ls` see the same backlog streams, if the changed streams are not theirs. */
  lemma NetListeners(s: State, s': State, xs: set<nat>, ls: set<nat>, l: nat)
    requires OnlyNet(s, s', xs, ls) && ListenerOk(s, l) && l !in ls
    requires forall x | x in xs && x < |s.streams| ::
               s.streams[x].phase != Backlog(l) || s'.streams[x].phase == Backlog(l)
    ensures ListenerSame(s, s', l)
  {
    NetFrame(s, s', xs, ls);
    if l < |s.listeners| {
      forall i | 0 <= i < |s.listeners[l].accepted|
        ensures s.listeners[l].accepted[i] < |s'.streams|
        ensures s'.streams[s.listeners[l].accepted[i]].phase == s.streams[s.listeners[l].accepted[i]].phase
      {
        var x := s.listeners[l].accepted[i];
        assert s.streams[x].phase == Backlog(l);
      }
    }
  }

  /** The changed listeners lose no other stream, and the changed streams are in no other backlog. */
  ghost predicate BacklogsKept(s: State, s': State, xs: set<nat>, ls: set<nat>) {
    && (forall l, x: nat | l in ls && l < |s.listeners| && x !in xs && x in s.listeners[l].accepted ::
          l < |s'.listeners| && x in s'.listeners[l].accepted)
    && (forall l: nat, x | l !in ls && x in xs && x < |s.streams| && s.streams[x].phase == Backlog(l) ::
          x < |s'.streams| && s'.streams[x].phase == Backlog(l))
  }

  lemma NetKeeps(s: State, s': State, xs: set<nat>, ls: set<nat>)
    requires Objects(s) && DoneGrows(s.core, s'.core) && OnlyNet(s, s', xs, ls) && BacklogsKept(s, s', xs, ls)
    requires forall x: nat | x in xs :: StreamOk(s', x)
    requires forall l: nat | l in ls :: ListenerOk(s', l)
    ensures Objects(s')
  {
    NetFrame(s, s', xs, ls);
    forall x: nat ensures StreamOk(s', x) || StreamSame(s, s', x) {
      if x !in xs {
        assert StreamOk(s, x);
        NetStreams(s, s', xs, ls, x);
      }
    }
    forall l: nat ensures ListenerOk(s', l) || ListenerSame(s, s', l) {
      if l !in ls {
        assert ListenerOk(s, l);
        NetListeners(s, s', xs, ls, l);
      }
    }
    forall p: nat ensures ProcessSame(s, s', p) {
    }
    forall w: nat ensures WatcherSame(s, s', w) {
    }
    Assemble(s, s');
  }

  /** Listener `l` and the listed streams have changed and are in order; the rest is untouched. */
  ghost predicate NetReady(s: State, s': State, xs: set<nat>, l: nat) {
    && DoneGrows(s.core, s'.core) && OnlyNet(s, s', xs, {l}) && BacklogsKept(s, s', xs, {l})
    && ListenerOk(s', l) && forall x: nat | x in xs :: StreamOk(s', x)
  }

  lemma NetKeepsOne(s: State, s': State, xs: set<nat>, l: nat)
    requires Objects(s) && NetReady(s, s', xs, l)
    ensures Objects(s')
  {
    NetKeeps(s, s', xs, {l});
  }

  lemma NewListener(s: State, t: TaskId, r: int, s': State)
    requires s' == DoListen(s, t, r) && ListenerOk(s, |s.listeners|)
    ensures OnlyNet(s, s', {}, {|s.listeners|}) && BacklogsKept(s, s', {}, {|s.listeners|})
    ensures ListenerOk(s', |s.listeners|)
  {
    forall slot ensures In(s'.core, slot) == In(s.core, slot) {
    }
  }

  lemma ListenKeeps(s: State, t: TaskId, r: int)
    requires Inv(s) && DoneGrows(s.core, DoListen(s, t, r).core)
    ensures Inv(DoListen(s, t, r))
  {
    var s', n := DoListen(s, t, r), |s.listeners|;
    assert ListenerOk(s, n);
    NewListener(s, t, r, s');
    NetKeepsOne(s, s', {}, n);
  }

  lemma PairAskServed(c: Core, l: nat, li: Listener, t: TaskId, c': Core)
    requires AcceptsPaired(c, l, li) && li.accepted != [] && c' == Answer(c, t, Handle(li.accepted[0]))
    requires DoneGrows(c, c')
    ensures AcceptsPaired(c', l, li.(asks := li.asks + [t], accepted := li.accepted[1..]))
  {
    var n := |li.asks|;
    assert n < |li.conns| && (li.asks + [t])[..n] == li.asks && li.conns[n] == li.accepted[0];
  }

  lemma PairAskQueued(c: Core, l: nat, li: Listener, t: TaskId, c': Core)
    requires AcceptsPaired(c, l, li) && li.accepted == [] && c' == Hold(c, Acceptors(l), t)
    ensures AcceptsPaired(c', l, li.(asks := li.asks + [t]))
  {
    var n := |li.conns|;
    assert n <= |li.asks| && (li.asks + [t])[n..] == li.asks[n..] + [t];
  }

  lemma PairConnServed(c: Core, l: nat, li: Listener, x: nat, c': Core)
    requires AcceptsPaired(c, l, li) && In(c, Acceptors(l)) != [] && c' == FinishAt(c, Acceptors(l), 0, Handle(x))
    requires DoneGrows(c, c')
    ensures AcceptsPaired(c', l, li.(conns := li.conns + [x]))
  {
    var n, q := |li.conns|, In(c, Acceptors(l));
    assert n < |li.asks| && q[0] == li.asks[n] && In(c', Acceptors(l)) == q[1..] == li.asks[n + 1..];
    assert (li.conns + [x])[..n] == li.conns && (li.conns + [x])[n] == x;
  }

  lemma PairConnQueued(c: Core, l: nat, li: Listener, x: nat)
    requires AcceptsPaired(c, l, li) && In(c, Acceptors(l)) == []
    ensures AcceptsPaired(c, l, li.(conns := li.conns + [x], accepted := li.accepted + [x]))
  {
    var n := |li.asks|;
    assert n <= |li.conns| && (li.conns + [x])[n..] == li.conns[n..] + [x]
      && (li.conns + [x])[..|li.conns|] == li.conns;
  }

  lemma AcceptStream(s: State, t: TaskId, l: nat, x: nat, s': State)
    requires StreamOk(s, x) && x < |s.streams| && s.streams[x].phase == Backlog(l) && DoneGrows(s.core, s'.core)
    requires x < |s'.streams| && s'.streams[x] == s.streams[x].(phase := Open, giver := AsResult(t))
    requires s'.reading == s.reading
    requires t in s'.core.done && s'.core.done[t] == Handle(x)
    requires SlotSame(s, s', Readers(x)) && SlotSame(s, s', Connecting(x)) && SlotSame(s, s', StreamCloser(x))
    ensures StreamOk(s', x)
  {
    ServedKept(s.core, s'.core, x, s.streams[x], s'.streams[x]);
  }

  lemma AcceptServedSlots(s: State, t: TaskId, l: nat, slot: Slot)
    requires l < |s.listeners| && s.listeners[l].accepted != [] && s.listeners[l].accepted[0] < |s.streams|
    ensures In(DoAccept(s, t, l).core, slot) == In(s.core, slot)
  {
  }

  lemma AcceptServedFrame(s: State, t: TaskId, l: nat, x: nat, s': State)
    requires l < |s.listeners| && x < |s.streams| && s.listeners[l].accepted != [] && x == s.listeners[l].accepted[0]
    requires s' == DoAccept(s, t, l)
    ensures OnlyNet(s, s', {x}, {l})
  {
    forall slot ensures In(s'.core, slot) == In(s.core, slot) {
      AcceptServedSlots(s, t, l, slot);
    }
  }

  lemma AcceptServedBacklogs(s: State, t: TaskId, l: nat, x: nat, s': State)
    requires l < |s.listeners| && x < |s.streams| && s.listeners[l].accepted != [] && x == s.listeners[l].accepted[0]
    requires s.streams[x].phase == Backlog(l) && s' == DoAccept(s, t, l)
    ensures BacklogsKept(s, s', {x}, {l})
  {
    assert s.listeners[l].accepted == [x] + s'.listeners[l].accepted;
  }

  lemma AcceptServedListener(s: State, t: TaskId, l: nat, s': State)
    requires ListenerOk(s, l) && l < |s.listeners| && s.listeners[l].phase.Open? && s.listeners[l].accepted != []
    requires s' == DoAccept(s, t, l) && DoneGrows(s.core, s'.core)
    ensures ListenerOk(s', l)
  {
    AcceptServedSlots(s, t, l, Acceptors(l));
    AcceptServedSlots(s, t, l, ListenerCloser(l));
    PairAskServed(s.core, l, s.listeners[l], t, s'.core);
    assert forall i | 0 <= i < |s'.listeners[l].accepted| ::
      s'.listeners[l].accepted[i] == s.listeners[l].accepted[i + 1];
    assert BacklogOk(s', l, s'.listeners[l]);
  }

  lemma AcceptServedStream(s: State, t: TaskId, l: nat, x: nat, s': State)
    requires StreamOk(s, x) && x < |s.streams| && s.streams[x].phase == Backlog(l) && l < |s.listeners|
    requires s.listeners[l].accepted != [] && x == s.listeners[l].accepted[0]
    requires s' == DoAccept(s, t, l) && DoneGrows(s.core, s'.core)
    ensures StreamOk(s', x)
  {
    AcceptServedSlots(s, t, l, Readers(x));
    AcceptServedSlots(s, t, l, Connecting(x));
    AcceptServedSlots(s, t, l, StreamCloser(x));
    AcceptStream(s, t, l, x, s');
  }

  lemma BacklogFront(s: State, l: nat)
    requires ListenerOk(s, l) && l < |s.listeners| && s.listeners[l].accepted != []
    ensures var x := s.listeners[l].accepted[0]; x < |s.streams| && s.streams[x].phase == Backlog(l)
  {
  }

  lemma AcceptServedReady(s: State, t: TaskId, l: nat, x: nat, s': State)
    requires Objects(s) && l < |s.listeners| && s.listeners[l].phase.Open? && s.listeners[l].accepted != []
    requires x == s.listeners[l].accepted[0] && x < |s.streams| && s' == DoAccept(s, t, l) && DoneGrows(s.core, s'.core)
    ensures NetReady(s, s', {x}, l)
  {
    assert ListenerOk(s, l) && StreamOk(s, x);
    BacklogFront(s, l);
    AcceptServedFrame(s, t, l, x, s');
    AcceptServedBacklogs(s, t, l, x, s');
    AcceptServedListener(s, t, l, s');
    AcceptServedStream(s, t, l, x, s');
  }

  lemma AcceptServed(s: State, t: TaskId, l: nat)
    requires Objects(s) && OpEnabled(s, TcpAccept(l)) && DoneGrows(s.core, DoAccept(s, t, l).core)
    requires s.listeners[l].accepted != []
    ensures Objects(DoAccept(s, t, l))
  {
    var x := s.listeners[l].accepted[0];
    AcceptServedReady(s, t, l, x, DoAccept(s, t, l));
    NetKeepsOne(s, DoAccept(s, t, l), {x}, l);
  }

  lemma AcceptQueuedListener(s: State, t: TaskId, l: nat, s': State)
    requires ListenerOk(s, l) && l < |s.listeners| && s.listeners[l].phase.Open? && s.listeners[l].accepted == []
    requires s' == DoAccept(s, t, l)
    ensures OnlyNet(s, s', {}, {l}) && BacklogsKept(s, s', {}, {l}) && ListenerOk(s', l)
  {
    PairAskQueued(s.core, l, s.listeners[l], t, s'.core);
  }

  lemma AcceptQueued(s: State, t: TaskId, l: nat)
    requires Objects(s) && OpEnabled(s, TcpAccept(l)) && DoneGrows(s.core, DoAccept(s, t, l).core)
    requires s.listeners[l].accepted == []
    ensures Objects(DoAccept(s, t, l))
  {
    var s' := DoAccept(s, t, l);
    assert ListenerOk(s, l);
    AcceptQueuedListener(s, t, l, s');
    NetKeepsOne(s, s', {}, l);
  }

  lemma ConnectionFrame(s: State, l: nat, s': State)
    requires l < |s.listeners| && s' == OnConnection(s, l, 0, true)
    ensures OnlyNet(s, s', {|s.streams|}, {l}) && BacklogsKept(s, s', {|s.streams|}, {l})
    ensures SlotSame(s, s', ListenerCloser(l)) && SlotSame(s, s', Readers(|s.streams|))
  {
  }

  lemma ConnsNewSnoc(conns: seq<nat>, n: nat)
    requires ConnsNew(conns, n)
    ensures ConnsNew(conns + [n], n + 1)
  {
  }

  /** New streams at the end do not change a backlog. */
  lemma BacklogStays(s: State, l: nat, li: Listener, s': State, li': Listener)
    requires BacklogOk(s, l, li) && li'.accepted == li.accepted && |s.streams| <= |s'.streams|
    requires forall x | 0 <= x < |s.streams| :: s'.streams[x] == s.streams[x]
    ensures BacklogOk(s', l, li')
  {
  }

  lemma ServedListener(s: State, l: nat, s': State)
    requires ListenerOk(s, l) && l < |s.listeners| && s.listeners[l].phase.Open? && In(s.core, Acceptors(l)) != []
    requires s' == OnConnection(s, l, 0, true) && DoneGrows(s.core, s'.core) && SlotSame(s, s', ListenerCloser(l))
    ensures ListenerOk(s', l)
  {
    PairConnServed(s.core, l, s.listeners[l], |s.streams|, s'.core);
    BacklogStays(s, l, s.listeners[l], s', s'.listeners[l]);
    ConnsNewSnoc(s.listeners[l].conns, |s.streams|);
  }

  lemma QueuedListener(s: State, l: nat, s': State)
    requires ListenerOk(s, l) && l < |s.listeners| && s.listeners[l].phase.Open? && In(s.core, Acceptors(l)) == []
    requires s' == OnConnection(s, l, 0, true) && SlotSame(s, s', ListenerCloser(l))
    ensures ListenerOk(s', l) && |s.streams| in s'.listeners[l].accepted
  {
    var n := |s.streams|;
    PairConnQueued(s.core, l, s.listeners[l], n);
    assert s'.listeners[l].accepted[|s.listeners[l].accepted|] == n;
    BacklogStays(s, l, s.listeners[l], s', s.listeners[l]);
    ConnsNewSnoc(s.listeners[l].conns, n);
  }

  lemma ConnectionStream(s: State, l: nat, s': State)
    requires StreamOk(s, |s.streams|) && l < |s.listeners| && s' == OnConnection(s, l, 0, true)
    requires SlotSame(s, s', Readers(|s.streams|))
    requires In(s.core, Acceptors(l)) == [] ==> |s.streams| in s'.listeners[l].accepted
    ensures StreamOk(s', |s.streams|)
  {
    var n := |s.streams|;
    assert SlotSame(s, s', Connecting(n)) && SlotSame(s, s', StreamCloser(n));
    UnreadOk(s', n);
  }

  lemma ConnectionKeeps(s: State, l: nat)
    requires Objects(s) && l < |s.listeners| && s.listeners[l].phase.Open?
    requires DoneGrows(s.core, OnConnection(s, l, 0, true).core)
    ensures Objects(OnConnection(s, l, 0, true))
  {
    var s' := OnConnection(s, l, 0, true);
    assert StreamOk(s, |s.streams|) && ListenerOk(s, l);
    ConnectionFrame(s, l, s');
    if In(s.core, Acceptors(l)) != [] {
      ServedListener(s, l, s');
    } else {
      QueuedListener(s, l, s');
    }
    ConnectionStream(s, l, s');
    NetKeepsOne(s, s', {|s.streams|}, l);
  }

  lemma ConnectionRefused(s: State, l: nat)
    requires Objects(s) && l < |s.listeners|
    ensures Objects(OnConnection(s, l, 0, false))
  {
    var s', n := OnConnection(s, l, 0, false), |s.streams|;
    assert StreamOk(s, n);
    UnreadOk(s', n);
    NetKeeps(s, s', {n}, {});
  }

  // --- Aborting listeners ------------------------------------------------------------------------

  /** The streams dropped with the listeners `ls` are those marked as their backlog. */
  lemma BacklogMembers(s: State, ls: set<nat>, x: nat)
    requires Objects(s)
    ensures x in AllBacklog(s, ls) <==>
              x < |s.streams| && s.streams[x].phase.Backlog? && s.streams[x].phase.listener in ls
  {
    if x in AllBacklog(s, ls) {
      var l :| l in ls && l < |s.listeners| && x in s.listeners[l].accepted;
      assert ListenerOk(s, l);
    }
    assert StreamOk(s, x);
  }

  ghost predicate Aborted(c: Core, c': Core, ls: set<nat>) {
    && DoneGrows(c, c')
    && (forall slot :: In(c', slot) == if slot.Acceptors? && slot.listener in ls then [] else In(c, slot))
  }

  lemma AbortedStream(s: State, ls: set<nat>, x: nat, s': State)
    requires StreamOk(s, x) && x < |s.streams| && s.streams[x].phase.Backlog? && s' == AbortListeners(s, ls)
    requires Aborted(s.core, s'.core, ls) && x in AllBacklog(s, ls)
    ensures StreamOk(s', x)
  {
    ServedKept(s.core, s'.core, x, s.streams[x], s'.streams[x]);
  }

  lemma AbortedListener(s: State, ls: set<nat>, l: nat, s': State)
    requires ListenerOk(s, l) && l in ls && ls <= s.registry && s' == AbortListeners(s, ls)
    requires Aborted(s.core, s'.core, ls)
    ensures l < |s.listeners| && ListenerOk(s', l)
  {
  }

  /** Exactly the backlogs of `ls` are emptied. */
  lemma AbortFrame(s: State, ls: set<nat>, s': State)
    requires Objects(s) && ls <= s.registry && s' == AbortListeners(s, ls) && Aborted(s.core, s'.core, ls)
    ensures OnlyNet(s, s', AllBacklog(s, ls), ls) && BacklogsKept(s, s', AllBacklog(s, ls), ls)
  {
    forall l: nat, x | l !in ls && x in AllBacklog(s, ls) && x < |s.streams| ensures s.streams[x].phase != Backlog(l) {
      BacklogMembers(s, ls, x);
    }
  }

  lemma AbortKeeps(s: State, ls: set<nat>)
    requires Objects(s) && ls <= s.registry && Aborted(s.core, AbortListeners(s, ls).core, ls)
    ensures Objects(AbortListeners(s, ls))
  {
    var s', xs := AbortListeners(s, ls), AllBacklog(s, ls);
    AbortFrame(s, ls, s');
    forall l: nat | l in ls ensures ListenerOk(s', l) {
      assert ListenerOk(s, l);
      AbortedListener(s, ls, l, s');
    }
    forall x: nat | x in xs ensures StreamOk(s', x) {
      assert StreamOk(s, x);
      BacklogMembers(s, ls, x);
      AbortedStream(s, ls, x, s');
    }
    NetKeeps(s, s', xs, ls);
  }

  lemma ListenerCloseKeeps(s: State, t: TaskId, l: nat)
    requires Inv(s) && l in s.registry && Aborted(s.core, AbortListeners(s, {l}).core, {l})
    ensures Inv(DoListenerClose(s, t, l))
  {
    var s1, s' := AbortListeners(s, {l}), DoListenerClose(s, t, l);
    assert ListenerOk(s, l);
    AbortKeeps(s, {l});
    assert ListenerOk(s1, l);
    CloserStored(s1, t, l, s');
    NetKeepsOne(s1, s', {}, l);
  }

  lemma CloserStored(s: State, t: TaskId, l: nat, s': State)
    requires s' == s.(core := Store(s.core, ListenerCloser(l), t))
    requires ListenerOk(s, l) && l < |s.listeners| && s.listeners[l].phase.Closing?
    ensures DoneGrows(s.core, s'.core) && OnlyNet(s, s', {}, {l}) && BacklogsKept(s, s', {}, {l}) && ListenerOk(s', l)
  {
  }
}
