/** Events that change one stream, or no handle at all, keep the invariant. */
module LoopStreams {
  import opened Common
  import opened Ownership
  import opened LoopSpec
  import opened LoopInvariant

  // --- Events that touch no persistent handle ------------------------------------------------------

  predicate Plain(s: State, e: Event) {
    match e
    case Dispatch(_, op) =>
      op.FsRequest? || op.StartRequest? || op.StartTimer? || op.ProcKill? || (op.StdioOpen? && !op.streamable)
      || (op.ListenerClose? && op.l !in s.registry) || (op.StreamRead? && s.signaled)
    case RequestDone(_, _) => true
    case TimerFired(_) => true
    case TimerClosed(_) => true
    case Connection(_, status, _) => status < 0
    case _ => false
  }

  predicate Loose(slot: Slot) { slot.Request? || slot.Timer? || slot.TimerClosing? }

  lemma LooseKeeps(s: State, c': Core)
    requires Inv(s) && DoneGrows(s.core, c') && forall slot | !Loose(slot) :: In(c', slot) == In(s.core, slot)
    ensures Inv(s.(core := c'))
  {
    var s' := s.(core := c');
    assert forall slot | !Loose(slot) :: SlotSame(s, s', slot);
    OthersKeep(s, s');
  }

  lemma PlainKeeps(s: State, e: Event)
    requires Inv(s) && Enabled(s, e) && Plain(s, e) && DoneGrows(s.core, Next(s, e).core)
    ensures Inv(Next(s, e))
  {
    var c, c' := s.core, Next(s, e).core;
    assert Next(s, e) == s.(core := c');
    forall slot | !Loose(slot) ensures In(c', slot) == In(c, slot) {
    }
    LooseKeeps(s, c');
  }

  // --- Streams -----------------------------------------------------------------------------------

  /** Only streams change: new ones at the end, or one of the old ones. */
  lemma StreamsKeep(s: State, s': State)
    requires Inv(s) && DoneGrows(s.core, s'.core)
    requires forall x: nat :: StreamOk(s', x) || StreamSame(s, s', x)
    requires |s.streams| <= |s'.streams| && forall x | 0 <= x < |s.streams| ::
               s.streams[x].phase.Backlog? ==> s'.streams[x].phase == s.streams[x].phase
    requires ListenersSame(s, s') && WatchersSame(s, s') && s'.signaled == s.signaled && s'.exited == s.exited
    requires forall p: nat :: ProcessOk(s', p) || ProcessSame(s, s', p)
    requires s.signaled && !s.exited ==> s'.reading == {}
    ensures Inv(s')
  {
    forall l: nat ensures ListenerSame(s, s', l) {
      assert ListenerOk(s, l);
    }
    Assemble(s, s');
  }

  /** A stream that has never been read, in any phase but backlog. */
  lemma UnreadOk(s: State, x: nat)
    requires x < |s.streams| && In(s.core, Readers(x)) == [] && x !in s.reading
    requires var st := s.streams[x];
             && st == NEW_STREAM.(phase := st.phase, closes := st.closes, giver := st.giver)
             && ClosedOnce(st.phase, st.closes)
             && |In(s.core, Connecting(x))| == (if st.phase.Opening? then 1 else 0)
             && In(s.core, StreamCloser(x)) == [] && GiverOk(s.core, x, st)
             && (st.phase.Backlog? ==>
                   st.phase.listener < |s.listeners| && x in s.listeners[st.phase.listener].accepted)
    ensures StreamOk(s, x)
  {
  }

  /** One new stream at the end, and nothing else but a task answered or a connect request started. */
  lemma NewStreamKeeps(s: State, s': State)
    requires Inv(s) && DoneGrows(s.core, s'.core) && s' == s.(core := s'.core, streams := s'.streams)
    requires |s'.streams| == |s.streams| + 1 && s'.streams[..|s.streams|] == s.streams
    requires forall slot | slot != Connecting(|s.streams|) :: In(s'.core, slot) == In(s.core, slot)
    requires StreamOk(s', |s.streams|)
    ensures Inv(s')
  {
    assert ListenersSame(s, s') && WatchersSame(s, s') && ProcessesSame(s, s');
    forall x: nat ensures StreamOk(s', x) || StreamSame(s, s', x) {
      assert x < |s.streams| ==> s'.streams[x] == s'.streams[..|s.streams|][x];
      assert x != |s.streams| ==> StreamSame(s, s', x);
    }
    assert forall x | 0 <= x < |s.streams| :: s'.streams[x] == s'.streams[..|s.streams|][x];
    StreamsKeep(s, s');
  }

  lemma ConnectNew(s: State, t: TaskId, r: int, s': State)
    requires StreamOk(s, |s.streams|) && s' == DoConnect(s, t, r)
    ensures StreamOk(s', |s.streams|)
    ensures forall slot | slot != Connecting(|s.streams|) :: In(s'.core, slot) == In(s.core, slot)
  {
    var n := |s.streams|;
    assert s'.streams[n] == if r < 0 then CloseOne(NEW_STREAM) else NEW_STREAM;
    assert In(s'.core, Connecting(n)) == if r < 0 then [] else [t];
    assert SlotSame(s, s', Readers(n)) && SlotSame(s, s', StreamCloser(n));
    UnreadOk(s', n);
  }

  lemma ConnectKeeps(s: State, t: TaskId, r: int)
    requires Inv(s) && DoneGrows(s.core, DoConnect(s, t, r).core)
    ensures Inv(DoConnect(s, t, r))
  {
    assert StreamOk(s, |s.streams|);
    ConnectNew(s, t, r, DoConnect(s, t, r));
    NewStreamKeeps(s, DoConnect(s, t, r));
  }

  lemma StdioNew(s: State, t: TaskId, r: int, s': State)
    requires StreamOk(s, |s.streams|) && s' == DoStdioOpen(s, t, true, r)
    ensures StreamOk(s', |s.streams|) && forall slot :: In(s'.core, slot) == In(s.core, slot)
  {
    var n := |s.streams|;
    assert s'.streams[n] == if r < 0 then CloseOne(NEW_STREAM) else NEW_STREAM.(phase := Open, giver := AsResult(t));
    assert SlotSame(s, s', Readers(n)) && SlotSame(s, s', Connecting(n)) && SlotSame(s, s', StreamCloser(n));
    UnreadOk(s', n);
  }

  lemma StdioKeeps(s: State, t: TaskId, r: int)
    requires Inv(s) && DoneGrows(s.core, DoStdioOpen(s, t, true, r).core)
    ensures Inv(DoStdioOpen(s, t, true, r))
  {
    assert StreamOk(s, |s.streams|);
    StdioNew(s, t, r, DoStdioOpen(s, t, true, r));
    NewStreamKeeps(s, DoStdioOpen(s, t, true, r));
  }

  lemma SpawnKeeps(s: State, t: TaskId, capture: bool, r: int)
    requires Inv(s) && DoneGrows(s.core, DoSpawn(s, t, capture, r).core)
    ensures Inv(DoSpawn(s, t, capture, r))
  {
    var s', n := DoSpawn(s, t, capture, r), |s.streams|;
    assert ListenersSame(s, s') && WatchersSame(s, s');
    forall p: nat ensures ProcessOk(s', p) || ProcessSame(s, s', p) {
      assert ProcessOk(s, p);
    }
    forall x: nat ensures StreamOk(s', x) || StreamSame(s, s', x) {
      if n <= x < |s'.streams| {
        assert StreamOk(s, x);
        UnreadOk(s', x);
      } else {
        assert StreamSame(s, s', x);
      }
    }
    StreamsKeep(s, s');
  }

  predicate StreamSlot(slot: Slot, x: nat) {
    slot == Readers(x) || slot == Connecting(x) || slot == StreamCloser(x)
  }

  ghost predicate OneStream(s: State, s': State, x: nat) {
    && x < |s.streams| && x < |s'.streams|
    && s' == s.(core := s'.core, streams := s.streams[x := s'.streams[x]], reading := s'.reading)
    && (forall slot | !StreamSlot(slot, x) :: In(s'.core, slot) == In(s.core, slot))
    && (forall y | y != x :: y in s'.reading <==> y in s.reading)
  }

  lemma OneStreamFrame(s: State, s': State, x: nat)
    requires OneStream(s, s', x)
    ensures ListenersSame(s, s') && WatchersSame(s, s') && ProcessesSame(s, s')
    ensures forall y: nat | y != x :: StreamSame(s, s', y)
  {
  }

  /** One stream changes, and it was not in a backlog. */
  lemma OneStreamKeeps(s: State, s': State, x: nat)
    requires Inv(s) && DoneGrows(s.core, s'.core) && OneStream(s, s', x) && StreamOk(s', x)
    requires !s.streams[x].phase.Backlog? && (s.signaled && !s.exited ==> s'.reading == {})
    ensures Inv(s')
  {
    OneStreamFrame(s, s', x);
    forall y: nat ensures StreamOk(s', y) || StreamSame(s, s', y) {
      if y != x {
        assert StreamSame(s, s', y);
      }
    }
    forall p: nat ensures ProcessSame(s, s', p) {
    }
    StreamsKeep(s, s');
  }

  /** The same reads, seen from a later state. */
  lemma ServedKept(c: Core, c': Core, x: nat, st: Stream, st': Stream)
    requires Served(c, x, st) && DoneGrows(c, c') && In(c', Readers(x)) == In(c, Readers(x))
    requires st' == st.(phase := st'.phase, closes := st'.closes, giver := st'.giver, active := st'.active)
    ensures Served(c', x, st')
  {
  }

  lemma ConnectedStream(s: State, x: nat, status: int, s': State)
    requires StreamOk(s, x) && x < |s.streams| && In(s.core, Connecting(x)) != [] && s' == OnConnect(s, x, status)
    requires DoneGrows(s.core, s'.core)
    ensures StreamOk(s', x)
  {
    assert In(s'.core, Connecting(x)) == [];
    assert SlotSame(s, s', Readers(x)) && SlotSame(s, s', StreamCloser(x));
    ServedKept(s.core, s'.core, x, s.streams[x], s'.streams[x]);
  }

  lemma ConnectedFrame(s: State, x: nat, status: int)
    requires x < |s.streams| && In(s.core, Connecting(x)) != []
    ensures OneStream(s, OnConnect(s, x, status), x)
  {
  }

  lemma ConnectedKeeps(s: State, x: nat, status: int)
    requires Inv(s) && Enabled(s, Connected(x, status)) && DoneGrows(s.core, OnConnect(s, x, status).core)
    ensures Inv(OnConnect(s, x, status))
  {
    var s' := OnConnect(s, x, status);
    assert StreamOk(s, x);
    ConnectedFrame(s, x, status);
    ConnectedStream(s, x, status, s');
    OneStreamKeeps(s, s', x);
  }

  // --- Reads -------------------------------------------------------------------------------------

  lemma BytesSnoc(got: map<TaskId, seq<byte>>, ts: seq<TaskId>, t: TaskId)
    ensures Bytes(got, ts + [t]) == Bytes(got, ts) + (if t in got then got[t] else [])
  {
    assert (ts + [t])[..|ts|] == ts;
  }

  lemma {:induction false} BytesOther(got: map<TaskId, seq<byte>>, ts: seq<TaskId>, t: TaskId, chunk: seq<byte>)
    requires t !in ts
    ensures Bytes(got[t := chunk], ts) == Bytes(got, ts)
  {
    if ts != [] {
      BytesOther(got, ts[..|ts| - 1], t, chunk);
    }
  }

  lemma {:induction false} BytesEmpty(got: map<TaskId, seq<byte>>, ts: seq<TaskId>, q: seq<TaskId>)
    requires forall t | t in q :: t !in got
    ensures Bytes(got, ts + q) == Bytes(got, ts)
    decreases |q|
  {
    if q == [] {
      assert ts + q == ts;
    } else {
      var init := q[..|q| - 1];
      BytesEmpty(got, ts, init);
      BytesSnoc(got, ts + init, q[|q| - 1]);
      assert ts + q == ts + init + [q[|q| - 1]];
    }
  }

  lemma QueueAnswers(c: Core, x: nat, st: Stream, t: TaskId, n: nat)
    requires ReadOrder(c, x, st) && ReadAnswers(c, x, st) && t !in c.seen && c.done.Keys <= c.seen
    ensures ReadAnswers(Hold(c, Readers(x), t), x,
              st.(active := true, asked := st.asked + [t], room := st.room[t := n]))
  {
    var c', st' := Hold(c, Readers(x), t), st.(active := true, asked := st.asked + [t], room := st.room[t := n]);
    assert In(c', Readers(x)) == In(c, Readers(x)) + [t];
    forall i | 0 <= i < ServedCount(c, x, st)
      ensures st'.asked[i] in c'.done && ReadResult(st', st'.asked[i], c'.done[st'.asked[i]])
    {
      assert st.asked[i] in c.done && ReadResult(st, st.asked[i], c.done[st.asked[i]]);
    }
  }

  lemma ServedQueue(c: Core, x: nat, st: Stream, t: TaskId, n: nat)
    requires Served(c, x, st) && t !in c.seen && c.done.Keys <= c.seen
    ensures Served(Hold(c, Readers(x), t), x, st.(active := true, asked := st.asked + [t], room := st.room[t := n]))
  {
    QueueAnswers(c, x, st, t, n);
    var k := ServedCount(c, x, st);
    assert In(Hold(c, Readers(x), t), Readers(x)) == (st.asked + [t])[k..];
    assert (st.asked + [t])[..k] == st.asked[..k];
  }

  lemma ReadStream(s: State, t: TaskId, x: nat, n: nat, s': State)
    requires StreamOk(s, x) && x < |s.streams| && s.streams[x].phase.Open? && x < |s'.streams|
    requires t !in s.core.seen && s.core.done.Keys <= s.core.seen && s'.core == Hold(s.core, Readers(x), t)
    requires s'.streams[x]
               == s.streams[x].(active := true, asked := s.streams[x].asked + [t], room := s.streams[x].room[t := n])
    requires x in s'.reading
    ensures StreamOk(s', x)
  {
    assert SlotSame(s, s', Connecting(x)) && SlotSame(s, s', StreamCloser(x));
    assert In(s'.core, Readers(x)) == In(s.core, Readers(x)) + [t];
    ServedQueue(s.core, x, s.streams[x], t, n);
  }

  lemma ReadFrame(s: State, t: TaskId, x: nat, n: nat, r: int)
    requires x < |s.streams| && !s.signaled && !(!s.streams[x].active && r < 0)
    ensures OneStream(s, DoRead(s, t, x, n, r), x)
  {
  }

  lemma ReadKeeps(s: State, t: TaskId, x: nat, n: nat, r: int)
    requires Inv(s) && t !in s.core.seen && s.core.done.Keys <= s.core.seen
    requires OpEnabled(s, StreamRead(x, n, r)) && !s.signaled && DoneGrows(s.core, DoRead(s, t, x, n, r).core)
    ensures Inv(DoRead(s, t, x, n, r))
  {
    var s' := DoRead(s, t, x, n, r);
    assert StreamOk(s, x);
    if !s.streams[x].active && r < 0 {
      LooseKeeps(s, s'.core);
    } else {
      ReadFrame(s, t, x, n, r);
      ReadStream(s, t, x, n, s');
      OneStreamKeeps(s, s', x);
    }
  }

  lemma DataAnswers(c: Core, x: nat, st: Stream, chunk: seq<byte>, t: TaskId, c': Core, st': Stream)
    requires ReadOrder(c, x, st) && ReadAnswers(c, x, st) && chunk != []
    requires In(c, Readers(x)) != [] && t == In(c, Readers(x))[0] && t in st.room && |chunk| <= st.room[t]
    requires t in c.seen
    requires c' == FinishAt(c, Readers(x), 0, |chunk|) && DoneGrows(c, c') && t !in c.done
    requires forall i | 0 < i < |In(c, Readers(x))| :: In(c, Readers(x))[i] != t
    requires st' == st.(active := st'.active, incoming := st'.incoming, got := st.got[t := chunk])
    ensures ReadAnswers(c', x, st')
  {
    var k := ServedCount(c, x, st);
    assert In(c', Readers(x)) == In(c, Readers(x))[1..] && st.asked[k] == t;
    forall i | 0 <= i < k + 1 ensures st.asked[i] in c'.done && ReadResult(st', st.asked[i], c'.done[st.asked[i]]) {
      assert i < k ==> st.asked[i] in c.done && ReadResult(st, st.asked[i], c.done[st.asked[i]]);
    }
  }

  lemma ServedData(c: Core, x: nat, st: Stream, chunk: seq<byte>, t: TaskId, c': Core, st': Stream)
    requires Served(c, x, st) && chunk != []
    requires In(c, Readers(x)) != [] && t == In(c, Readers(x))[0] && t in st.room && |chunk| <= st.room[t]
    requires t in c.seen
    requires c' == FinishAt(c, Readers(x), 0, |chunk|) && DoneGrows(c, c') && t !in c.done
    requires forall i | 0 < i < |In(c, Readers(x))| :: In(c, Readers(x))[i] != t
    requires st' == st.(active := st'.active, incoming := st.incoming + chunk, got := st.got[t := chunk])
    ensures Served(c', x, st')
  {
    var k := ServedCount(c, x, st);
    DataAnswers(c, x, st, chunk, t, c', st');
    assert In(c', Readers(x)) == In(c, Readers(x))[1..] == st.asked[k + 1..] && st.asked[k] == t;
    assert st.asked[..k + 1] == st.asked[..k] + [t];
    assert forall i | 0 <= i < k :: st.asked[..k][i] in c.done;
    BytesOther(st.got, st.asked[..k], t, chunk);
    BytesSnoc(st'.got, st.asked[..k], t);
  }

  lemma DataKeeps(s: State, x: nat, chunk: seq<byte>, t: TaskId)
    requires Inv(s) && Enabled(s, Data(x, chunk)) && DoneGrows(s.core, OnData(s, x, chunk).core)
    requires In(s.core, Readers(x)) != [] ==>
               && t == In(s.core, Readers(x))[0] && t in s.core.seen && t !in s.core.done
               && forall i | 0 < i < |In(s.core, Readers(x))| :: In(s.core, Readers(x))[i] != t
    ensures Inv(OnData(s, x, chunk))
  {
    assert StreamOk(s, x);
    var s' := OnData(s, x, chunk);
    ServedData(s.core, x, s.streams[x], chunk, t, s'.core, s'.streams[x]);
    assert StreamOk(s', x);
    OneStreamKeeps(s, s', x);
  }

  lemma DrainAnswers(c: Core, x: nat, st: Stream, c': Core, st': Stream, r: int)
    requires ReadOrder(c, x, st) && ReadAnswers(c, x, st) && DoneGrows(c, c') && r <= 0 && In(c', Readers(x)) == []
    requires forall i | 0 <= i < |In(c, Readers(x))| ::
               In(c, Readers(x))[i] in c'.done && c'.done[In(c, Readers(x))[i]] == r
    requires st' == st.(phase := st'.phase, closes := st'.closes, giver := st'.giver, active := st'.active)
    ensures ReadAnswers(c', x, st')
  {
    var k := ServedCount(c, x, st);
    forall i | 0 <= i < |st.asked|
      ensures st.asked[i] in c'.done && ReadResult(st', st.asked[i], c'.done[st.asked[i]])
    {
      if i >= k {
        assert st.asked[i] == In(c, Readers(x))[i - k];
      } else {
        assert st.asked[i] in c.done && ReadResult(st, st.asked[i], c.done[st.asked[i]]);
      }
    }
  }

  lemma {:induction false} DrainBytes(c: Core, x: nat, st: Stream)
    requires ReadOrder(c, x, st) && ReadAnswers(c, x, st)
    ensures Bytes(st.got, st.asked) == Bytes(st.got, st.asked[..ServedCount(c, x, st)])
  {
    var q, k := In(c, Readers(x)), ServedCount(c, x, st);
    assert forall t | t in q :: t !in st.got;
    BytesEmpty(st.got, st.asked[..k], q);
    assert st.asked[..k] + q == st.asked;
  }

  /** Cancelling, failing or ending all queued reads leaves no reader and loses no byte. */
  lemma {:induction false} ServedDrain(c: Core, x: nat, st: Stream, c': Core, st': Stream, r: int)
    requires Served(c, x, st) && DoneGrows(c, c') && r <= 0 && In(c', Readers(x)) == []
    requires forall i | 0 <= i < |In(c, Readers(x))| ::
               In(c, Readers(x))[i] in c'.done && c'.done[In(c, Readers(x))[i]] == r
    requires st' == st.(phase := st'.phase, closes := st'.closes, giver := st'.giver, active := st'.active)
    ensures Served(c', x, st')
  {
    DrainAnswers(c, x, st, c', st', r);
    DrainBytes(c, x, st);
    assert ServedCount(c', x, st') == |st.asked| && st.asked[..|st.asked|] == st.asked && st.asked[|st.asked|..] == [];
  }

  /** The readers of `x` have all completed with `r`, and otherwise at most its close task changed. */
  ghost predicate Drained(c: Core, c': Core, x: nat, r: int) {
    && DoneGrows(c, c') && In(c', Readers(x)) == []
    && (forall slot | !StreamSlot(slot, x) :: In(c', slot) == In(c, slot))
    && (forall i | 0 <= i < |In(c, Readers(x))| ::
         In(c, Readers(x))[i] in c'.done && c'.done[In(c, Readers(x))[i]] == r)
  }

  lemma EndedKeeps(s: State, x: nat, r: int)
    requires Inv(s) && Enabled(s, Ended(x, r)) && Drained(s.core, OnEnded(s, x, r).core, x, r)
    requires SlotSame(s, OnEnded(s, x, r), Connecting(x)) && SlotSame(s, OnEnded(s, x, r), StreamCloser(x))
    ensures Inv(OnEnded(s, x, r))
  {
    var s' := OnEnded(s, x, r);
    assert StreamOk(s, x);
    ServedDrain(s.core, x, s.streams[x], s'.core, s'.streams[x], r);
    assert StreamOk(s', x);
    OneStreamKeeps(s, s', x);
  }

  lemma StreamCloseKeeps(s: State, t: TaskId, x: nat)
    requires Inv(s) && OpEnabled(s, StreamClose(x)) && Drained(s.core, DoStreamClose(s, t, x).core, x, ECANCELED)
    requires SlotSame(s, DoStreamClose(s, t, x), Connecting(x))
    ensures Inv(DoStreamClose(s, t, x))
  {
    var s' := DoStreamClose(s, t, x);
    assert StreamOk(s, x);
    ServedDrain(s.core, x, s.streams[x], s'.core, s'.streams[x], ECANCELED);
    assert StreamOk(s', x);
    OneStreamKeeps(s, s', x);
  }
}
