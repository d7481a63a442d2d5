/** The invariant of the loop thread, object by object. */
module LoopInvariant {
  import opened Common
  import opened Ownership
  import opened LoopSpec

  predicate Ending(p: Phase) { p.Closing? || p.Deleted? }

  /** uv_close is called once on a handle that is closing or gone, and never on another. */
  predicate ClosedOnce(phase: Phase, closes: nat) { closes == if Ending(phase) then 1 else 0 }

  /** A close task waits only while the handle is closing. */
  ghost predicate CloserOk(c: Core, slot: Slot, phase: Phase) {
    |In(c, slot)| <= if phase.Closing? then 1 else 0
  }

  // --- Streams -----------------------------------------------------------------------------------

  /** Scheme has been told of the stream. */
  predicate Handed(c: Core, x: nat, st: Stream) {
    match st.giver
    case Nobody => false
    case AsResult(t) => t in c.done && c.done[t] == Handle(x)
    case AsPipe(t, p) => t in c.done && c.done[t] == Handle(p)
  }

  /** An open stream has been handed over; a stream that has been handed over is open or closed. */
  predicate GiverOk(c: Core, x: nat, st: Stream) {
    if st.giver.Nobody? then !st.phase.Open? else Handed(c, x, st) && (st.phase.Open? || Ending(st.phase))
  }

  /** The bytes in the buffers of a list of read tasks, in list order. */
  function Bytes(got: map<TaskId, seq<byte>>, ts: seq<TaskId>): seq<byte> {
    if ts == [] then []
    else Bytes(got, ts[..|ts| - 1]) + (if ts[|ts| - 1] in got then got[ts[|ts| - 1]] else [])
  }

  /** Number of queued reads that have been served. */
  ghost function ServedCount(c: Core, x: nat, st: Stream): int { |st.asked| - |In(c, Readers(x))| }

  /** Reads are served in the order they were queued: the queue is what is left of `asked`. */
  ghost predicate ReadOrder(c: Core, x: nat, st: Stream) {
    && 0 <= ServedCount(c, x, st)
    && In(c, Readers(x)) == st.asked[ServedCount(c, x, st)..]
  }

  /** Served reads have completed with what is in their buffer; queued ones have an empty buffer. */
  ghost predicate ReadAnswers(c: Core, x: nat, st: Stream) {
    && (forall i | 0 <= i < ServedCount(c, x, st) && i < |st.asked| ::
          st.asked[i] in c.done && ReadResult(st, st.asked[i], c.done[st.asked[i]]))
    && (forall i | 0 <= i < |In(c, Readers(x))| ::
          In(c, Readers(x))[i] !in st.got && In(c, Readers(x))[i] in st.room)
    && st.got.Keys <= c.seen
  }

  /** The buffers of the served reads, one after the other, are the bytes that came in. */
  ghost predicate Served(c: Core, x: nat, st: Stream) {
    && ReadOrder(c, x, st)
    && ReadAnswers(c, x, st)
    && st.incoming == Bytes(st.got, st.asked[..ServedCount(c, x, st)])
  }

  /** A read completes with its byte count, or with 0 (EOF) or an error and no bytes. */
  predicate ReadResult(st: Stream, t: TaskId, r: int) {
    if t in st.got then t in st.room && r == |st.got[t]| && 0 < r <= st.room[t] else r <= 0
  }

  ghost predicate StreamOk(s: State, x: nat) {
    if x >= |s.streams| then
      In(s.core, Readers(x)) == [] && In(s.core, Connecting(x)) == [] && In(s.core, StreamCloser(x)) == []
        && x !in s.reading
    else
      var st := s.streams[x];
      && ClosedOnce(st.phase, st.closes)
      && CloserOk(s.core, StreamCloser(x), st.phase)
      && |In(s.core, Connecting(x))| == (if st.phase.Opening? then 1 else 0)
      && (st.active <==> In(s.core, Readers(x)) != [])
      && (st.active <==> x in s.reading)
      && (st.active ==> st.phase.Open?)
      && GiverOk(s.core, x, st)
      && (st.phase.Backlog? ==> st.phase.listener < |s.listeners| && x in s.listeners[st.phase.listener].accepted)
      && Served(s.core, x, st)
  }

  // --- Listeners ---------------------------------------------------------------------------------

  /** The k-th accept task gets the k-th connection; acceptors and backlog are what is left over. */
  ghost predicate AcceptsPaired(c: Core, l: nat, li: Listener) {
    var q, n := In(c, Acceptors(l)), if |li.asks| <= |li.conns| then |li.asks| else |li.conns|;
    && q == li.asks[n..] && li.accepted == li.conns[n..]
    && (forall k | 0 <= k < n :: li.asks[k] in c.done && c.done[li.asks[k]] == Handle(li.conns[k]))
  }

  ghost predicate BacklogOk(s: State, l: nat, li: Listener) {
    forall i | 0 <= i < |li.accepted| ::
      li.accepted[i] < |s.streams| && s.streams[li.accepted[i]].phase == Backlog(l)
  }

  /** Connections are new streams, so none is paired twice. */
  ghost predicate ConnsNew(conns: seq<nat>, bound: nat) {
    && (forall i | 0 <= i < |conns| :: conns[i] < bound)
    && (forall i, j | 0 <= i < j < |conns| :: conns[i] < conns[j])
  }

  ghost predicate ListenerOk(s: State, l: nat) {
    if l >= |s.listeners| then
      In(s.core, Acceptors(l)) == [] && In(s.core, ListenerCloser(l)) == [] && l !in s.registry
    else
      var li := s.listeners[l];
      && ClosedOnce(li.phase, li.closes)
      && CloserOk(s.core, ListenerCloser(l), li.phase)
      && (l in s.registry <==> li.phase.Open?)
      && (li.phase.Open? || (Ending(li.phase) && In(s.core, Acceptors(l)) == [] && li.accepted == []))
      && (li.phase.Open? ==> AcceptsPaired(s.core, l, li))
      && BacklogOk(s, l, li)
      && ConnsNew(li.conns, |s.streams|)
  }

  // --- Processes and watchers ----------------------------------------------------------------------

  ghost predicate ProcessOk(s: State, p: nat) {
    if p >= |s.processes| then In(s.core, Waiter(p)) == [] && In(s.core, ProcessCloser(p)) == []
    else
      var pr := s.processes[p];
      && ClosedOnce(pr.phase, pr.closes)
      && CloserOk(s.core, ProcessCloser(p), pr.phase)
      && (pr.phase.Open? || Ending(pr.phase))
      && (In(s.core, Waiter(p)) != [] ==> pr.exited.None? && !pr.phase.Deleted?)
      && |In(s.core, Waiter(p))| <= 1
  }

  /** The k-th next-task that was not refused gets the k-th event: same name, same flags. */
  ghost predicate EventsPaired(c: Core, w: nat, wa: Watcher) {
    var q, n := In(c, NextEvent(w)), if |wa.asks| <= |wa.arrived| then |wa.asks| else |wa.arrived|;
    && q == wa.asks[n..] && wa.events == wa.arrived[n..]
    && (forall k | 0 <= k < n ::
          && wa.asks[k] in c.done && c.done[wa.asks[k]] == wa.arrived[k].flags
          && wa.asks[k] in wa.names && wa.names[wa.asks[k]] == wa.arrived[k].name)
  }

  ghost predicate WatcherOk(s: State, w: nat) {
    if w >= |s.watchers| then In(s.core, NextEvent(w)) == [] && In(s.core, WatcherCloser(w)) == []
    else
      var wa := s.watchers[w];
      && ClosedOnce(wa.phase, wa.closes)
      && CloserOk(s.core, WatcherCloser(w), wa.phase)
      && (In(s.core, NextEvent(w)) != [] ==> wa.phase.Open?)
      && |In(s.core, NextEvent(w))| <= 1
      && (wa.phase.Open? ==> EventsPaired(s.core, w, wa))
  }

  ghost predicate Objects(s: State) {
    && (forall x: nat :: StreamOk(s, x))
    && (forall l: nat :: ListenerOk(s, l))
    && (forall p: nat :: ProcessOk(s, p))
    && (forall w: nat :: WatcherOk(s, w))
  }

  /** Every object is in order, and after the first signal nobody is reading. */
  ghost predicate Inv(s: State) {
    Objects(s) && (s.signaled && !s.exited ==> s.reading == {})
  }

  // --- Objects an event does not touch -----------------------------------------------------------

  ghost predicate SlotSame(s: State, s': State, slot: Slot) { In(s'.core, slot) == In(s.core, slot) }

  ghost predicate StreamSame(s: State, s': State, x: nat) {
    && (x < |s'.streams| <==> x < |s.streams|)
    && (x < |s.streams| ==>
          && s'.streams[x] == s.streams[x]
          && (s.streams[x].phase.Backlog? ==>
                var l := s.streams[x].phase.listener;
                l < |s.listeners| ==>
                  l < |s'.listeners| && (x in s.listeners[l].accepted ==> x in s'.listeners[l].accepted)))
    && (x in s'.reading <==> x in s.reading)
    && SlotSame(s, s', Readers(x)) && SlotSame(s, s', Connecting(x)) && SlotSame(s, s', StreamCloser(x))
  }

  lemma StreamKept(s: State, s': State, x: nat)
    requires StreamOk(s, x) && StreamSame(s, s', x) && DoneGrows(s.core, s'.core)
    ensures StreamOk(s', x)
  {
  }

  ghost predicate ListenerSame(s: State, s': State, l: nat) {
    && (l < |s'.listeners| <==> l < |s.listeners|)
    && (l < |s.listeners| ==>
          && s'.listeners[l] == s.listeners[l]
          && forall i | 0 <= i < |s.listeners[l].accepted| && s.listeners[l].accepted[i] < |s.streams| ::
               && s.listeners[l].accepted[i] < |s'.streams|
               && s'.streams[s.listeners[l].accepted[i]].phase == s.streams[s.listeners[l].accepted[i]].phase)
    && |s.streams| <= |s'.streams|
    && (l in s'.registry <==> l in s.registry)
    && SlotSame(s, s', Acceptors(l)) && SlotSame(s, s', ListenerCloser(l))
  }

  lemma ListenerKept(s: State, s': State, l: nat)
    requires ListenerOk(s, l) && ListenerSame(s, s', l) && DoneGrows(s.core, s'.core)
    ensures ListenerOk(s', l)
  {
  }

  ghost predicate ProcessSame(s: State, s': State, p: nat) {
    && (p < |s'.processes| <==> p < |s.processes|)
    && (p < |s.processes| ==> s'.processes[p] == s.processes[p])
    && SlotSame(s, s', Waiter(p)) && SlotSame(s, s', ProcessCloser(p))
  }

  ghost predicate WatcherSame(s: State, s': State, w: nat) {
    && (w < |s'.watchers| <==> w < |s.watchers|)
    && (w < |s.watchers| ==> s'.watchers[w] == s.watchers[w])
    && SlotSame(s, s', NextEvent(w)) && SlotSame(s, s', WatcherCloser(w))
  }

  lemma ProcessKept(s: State, s': State, p: nat)
    requires ProcessOk(s, p) && ProcessSame(s, s', p)
    ensures ProcessOk(s', p)
  {
  }

  lemma WatcherKept(s: State, s': State, w: nat)
    requires WatcherOk(s, w) && WatcherSame(s, s', w) && DoneGrows(s.core, s'.core)
    ensures WatcherOk(s', w)
  {
  }

  /** Every object is untouched or in order. */
  lemma Assemble(s: State, s': State)
    requires Objects(s) && DoneGrows(s.core, s'.core)
    requires forall x: nat :: StreamOk(s', x) || StreamSame(s, s', x)
    requires forall l: nat :: ListenerOk(s', l) || ListenerSame(s, s', l)
    requires forall p: nat :: ProcessOk(s', p) || ProcessSame(s, s', p)
    requires forall w: nat :: WatcherOk(s', w) || WatcherSame(s, s', w)
    ensures Objects(s')
  {
    forall x: nat ensures StreamOk(s', x) {
      if StreamSame(s, s', x) { StreamKept(s, s', x); }
    }
    forall l: nat ensures ListenerOk(s', l) {
      if ListenerSame(s, s', l) { ListenerKept(s, s', l); }
    }
    forall p: nat ensures ProcessOk(s', p) {
      if ProcessSame(s, s', p) { ProcessKept(s, s', p); }
    }
    forall w: nat ensures WatcherOk(s', w) {
      if WatcherSame(s, s', w) { WatcherKept(s, s', w); }
    }
  }

  // --- Groups of objects an event does not touch -------------------------------------------------

  ghost predicate StreamsSame(s: State, s': State) {
    && s'.streams == s.streams && s'.reading == s.reading
    && (forall x: nat ::
         SlotSame(s, s', Readers(x)) && SlotSame(s, s', Connecting(x)) && SlotSame(s, s', StreamCloser(x)))
  }

  ghost predicate ListenersSame(s: State, s': State) {
    && s'.listeners == s.listeners && s'.registry == s.registry
    && (forall l: nat :: SlotSame(s, s', Acceptors(l)) && SlotSame(s, s', ListenerCloser(l)))
  }

  ghost predicate ProcessesSame(s: State, s': State) {
    && s'.processes == s.processes
    && (forall p: nat :: SlotSame(s, s', Waiter(p)) && SlotSame(s, s', ProcessCloser(p)))
  }

  ghost predicate WatchersSame(s: State, s': State) {
    && s'.watchers == s.watchers
    && (forall w: nat :: SlotSame(s, s', NextEvent(w)) && SlotSame(s, s', WatcherCloser(w)))
  }

  /** An event that changes at most one process and one watcher, neither streams nor listeners. */
  lemma OthersKeep(s: State, s': State)
    requires Inv(s) && DoneGrows(s.core, s'.core) && StreamsSame(s, s') && ListenersSame(s, s')
    requires forall p: nat :: ProcessOk(s', p) || ProcessSame(s, s', p)
    requires forall w: nat :: WatcherOk(s', w) || WatcherSame(s, s', w)
    requires s'.signaled == s.signaled && s'.exited == s.exited
    ensures Inv(s')
  {
    forall x: nat ensures StreamSame(s, s', x) {
    }
    forall l: nat ensures ListenerSame(s, s', l) {
    }
    Assemble(s, s');
  }
}
