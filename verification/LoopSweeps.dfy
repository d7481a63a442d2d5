/** Emptying slots and walking registries step by step comes to what `FinishSlots` and the sweeps say. */
module LoopSweeps {
  import opened Common
  import opened Ownership
  import opened LoopSpec
  import opened LoopInvariant
  import opened LoopListeners

  // --- Whole slots, one task at a time -----------------------------------------------------------

  /** All the listed tasks complete with `r`. */
  function Answered(done: map<TaskId, int>, ts: seq<TaskId>, r: int): map<TaskId, int> {
    done + map t | t in ts :: r
  }

  lemma AnsweredSnoc(done: map<TaskId, int>, ts: seq<TaskId>, t: TaskId, r: int)
    ensures Answered(done, ts + [t], r) == Answered(done, ts, r)[t := r]
  {
  }

  /** The first `k` tasks of a slot have been popped and completed with `r`. */
  ghost function Popped(c: Core, slot: Slot, k: nat, r: int): Core
    requires k <= |In(c, slot)|
  {
    if k == 0 then c
    else c.(held := c.held[slot := In(c, slot)[k..]], done := Answered(c.done, In(c, slot)[..k], r))
  }

  /** The tasks of a slot are distinct, dispatched and not completed. */
  ghost predicate Pending(c: Core, slot: Slot) {
    && (forall t | t in In(c, slot) :: t in c.seen && t !in c.done)
    && Distinct(In(c, slot))
  }

  lemma LinearPending(c: Core, owner: map<TaskId, Slot>, slot: Slot)
    requires Linear(c, owner)
    ensures Pending(c, slot)
  {
    assert Owned(c, owner, slot);
  }

  lemma StillPending(c: Core, owner: map<TaskId, Slot>, a: set<Slot>, slot: Slot, r: int)
    requires Linear(c, owner)
    ensures Pending(FinishSlots(c, a, r), slot)
  {
    FinishSlotsLinear(c, owner, a, r);
    LinearPending(FinishSlots(c, a, r), Without(owner, a), slot);
  }

  lemma FinishOneAt(c: Core, slot: Slot, r: int, t: TaskId)
    requires Pending(c, slot)
    ensures SameAt(FinishSlots(c, {slot}, r).done, Answered(c.done, In(c, slot), r), t)
  {
    DoneAt(c, {slot}, r, t);
    HeldInMore(c, {}, slot, t);
    assert {} + {slot} == {slot};
  }

  lemma FinishOne(c: Core, slot: Slot, r: int)
    requires Pending(c, slot)
    ensures FinishSlots(c, {slot}, r).done == Answered(c.done, In(c, slot), r)
    ensures FinishSlots(c, {slot}, r).held == if slot in c.held then c.held[slot := []] else c.held
  {
    forall t ensures SameAt(FinishSlots(c, {slot}, r).done, Answered(c.done, In(c, slot), r), t) {
      FinishOneAt(c, slot, r, t);
    }
    SameEverywhere(FinishSlots(c, {slot}, r).done, Answered(c.done, In(c, slot), r));
  }

  lemma PoppedAll(c: Core, slot: Slot, r: int)
    requires Pending(c, slot)
    ensures Popped(c, slot, |In(c, slot)|, r) == FinishSlots(c, {slot}, r)
  {
    FinishOne(c, slot, r);
    var q := In(c, slot);
    assert q[..|q|] == q && q[|q|..] == [];
    if q == [] {
      assert Answered(c.done, q, r) == c.done;
      assert slot in c.held ==> c.held[slot := []] == c.held;
    }
  }

  lemma PopOne(c: Core, slot: Slot, k: nat, r: int)
    requires Pending(c, slot) && k < |In(c, slot)|
    ensures var c1, t := Popped(c, slot, k, r), In(c, slot)[k];
            && In(c1, slot) == In(c, slot)[k..] && t !in c1.done
            && Popped(c, slot, k + 1, r) == c1.(held := c1.held[slot := In(c1, slot)[1..]], done := c1.done[t := r])
  {
    var q, c1 := In(c, slot), Popped(c, slot, k, r);
    assert q[..k + 1] == q[..k] + [q[k]] && q[k..][1..] == q[k + 1..];
    AnsweredSnoc(c.done, q[..k], q[k], r);
    assert k == 0 ==> q[..k] == [] && Answered(c.done, [], r) == c.done;
  }

  lemma HeldTwice(c: Core, a: set<Slot>, slot: Slot, r: int)
    ensures FinishSlots(FinishSlots(c, a, r), {slot}, r).held == FinishSlots(c, a + {slot}, r).held
  {
  }

  predicate SameAt(d: map<TaskId, int>, d': map<TaskId, int>, t: TaskId) {
    (t in d <==> t in d') && (t in d ==> d[t] == d'[t])
  }

  lemma SameEverywhere(d: map<TaskId, int>, d': map<TaskId, int>)
    requires forall t :: SameAt(d, d', t)
    ensures d == d'
  {
    forall t ensures t in d <==> t in d' {
      assert SameAt(d, d', t);
    }
    forall t | t in d ensures d[t] == d'[t] {
      assert SameAt(d, d', t);
    }
  }

  lemma DoneTwiceAt(c: Core, c1: Core, a: set<Slot>, slot: Slot, r: int, t: TaskId)
    requires c1 == FinishSlots(c, a, r) && In(c1, slot) == In(c, slot)
    ensures SameAt(FinishSlots(c1, {slot}, r).done, FinishSlots(c, a + {slot}, r).done, t)
  {
    DoneAt(c, a, r, t);
    DoneAt(c1, {slot}, r, t);
    DoneAt(c, a + {slot}, r, t);
    HeldInMore(c, a, slot, t);
    HeldInMore(c1, {}, slot, t);
    assert {} + {slot} == {slot};
  }

  /** Completing the tasks of two groups of slots one group after the other. */
  lemma FinishTwice(c: Core, a: set<Slot>, slot: Slot, r: int)
    requires slot !in a
    ensures FinishSlots(FinishSlots(c, a, r), {slot}, r) == FinishSlots(c, a + {slot}, r)
  {
    HeldTwice(c, a, slot, r);
    var c1, d := FinishSlots(c, a, r), FinishSlots(c, a + {slot}, r).done;
    forall t ensures SameAt(FinishSlots(c1, {slot}, r).done, d, t) {
      DoneTwiceAt(c, c1, a, slot, r, t);
    }
    SameEverywhere(FinishSlots(c1, {slot}, r).done, d);
  }

  lemma HeldInMore(c: Core, a: set<Slot>, slot: Slot, t: TaskId)
    ensures HeldIn(c, a + {slot}, t) <==> HeldIn(c, a, t) || t in In(c, slot)
  {
    if t in In(c, slot) {
      assert slot in a + {slot} && t in In(c, slot);
    }
    if HeldIn(c, a, t) {
      var b :| b in a && t in In(c, b);
      assert b in a + {slot} && t in In(c, b);
    }
  }

  lemma FinishNone(c: Core, r: int)
    ensures FinishSlots(c, {}, r) == c
  {
    assert FinishSlots(c, {}, r).held == c.held;
    assert FinishSlots(c, {}, r).done == c.done;
  }

  // --- Registries, one handle at a time ------------------------------------------------------------

  /** `cancel_pending_reads` has visited the streams `xs`. */
  ghost function CancelSome(s: State, xs: set<nat>): State {
    s.(core := FinishSlots(s.core, ReaderSlots(xs), ECANCELED),
       streams := seq(|s.streams|, i requires 0 <= i < |s.streams| =>
                        if i in xs then s.streams[i].(active := false) else s.streams[i]))
  }

  lemma CancelOneMore(s: State, xs: set<nat>, x: nat)
    requires x < |s.streams| && x !in xs
    ensures var s1 := CancelSome(s, xs);
            CancelSome(s, xs + {x}) == s1.(core := FinishSlots(s1.core, {Readers(x)}, ECANCELED),
                                           streams := s1.streams[x := s1.streams[x].(active := false)])
  {
    FinishTwice(s.core, ReaderSlots(xs), Readers(x), ECANCELED);
    assert ReaderSlots(xs + {x}) == ReaderSlots(xs) + {Readers(x)};
    var s1 := CancelSome(s, xs);
    assert CancelSome(s, xs + {x}).streams == s1.streams[x := s1.streams[x].(active := false)];
  }

  /** `abort_listener` has been called on the listeners `ls`, which are still registered. */
  ghost function AbortSome(s: State, ls: set<nat>): State {
    AbortListeners(s, ls).(registry := s.registry)
  }

  lemma AbortOneMore(s: State, ls: set<nat>, l: nat)
    requires l < |s.listeners| && l !in ls && AllBacklog(s, ls) !! AllBacklog(s, {l})
    ensures AbortSome(s, ls + {l}) == AbortSome(AbortSome(s, ls), {l})
  {
    var s1 := AbortSome(s, ls);
    FinishTwice(s.core, AcceptorSlots(ls), Acceptors(l), ECANCELED);
    assert AcceptorSlots(ls + {l}) == AcceptorSlots(ls) + {Acceptors(l)} && AcceptorSlots({l}) == {Acceptors(l)};
    assert s1.listeners[l] == s.listeners[l] && AllBacklog(s1, {l}) == AllBacklog(s, {l});
    assert AllBacklog(s, ls + {l}) == AllBacklog(s, ls) + AllBacklog(s, {l});
    assert AbortSome(s, ls + {l}).streams == AbortSome(s1, {l}).streams;
    assert AbortSome(s, ls + {l}).listeners == AbortSome(s1, {l}).listeners;
  }

  lemma BacklogsDisjoint(s: State, ls: set<nat>, l: nat)
    requires Objects(s) && l !in ls
    ensures AllBacklog(s, ls) !! AllBacklog(s, {l})
  {
    forall x | x in AllBacklog(s, ls) ensures x !in AllBacklog(s, {l}) {
      BacklogMembers(s, ls, x);
      BacklogMembers(s, {l}, x);
    }
  }

  lemma NothingYet(s: State)
    ensures AbortSome(s, {}) == s && CancelSome(s, {}) == s
  {
    FinishNone(s.core, ECANCELED);
    assert AcceptorSlots({}) == {} && ReaderSlots({}) == {} && AllBacklog(s, {}) == {};
    assert AbortSome(s, {}).streams == s.streams && AbortSome(s, {}).listeners == s.listeners;
    assert CancelSome(s, {}).streams == s.streams;
  }

  // --- A backlog, one stream at a time -------------------------------------------------------------

  lemma CloseOneMore(streams: seq<Stream>, xs: seq<nat>, k: nat)
    requires k < |xs| && xs[k] < |streams| && xs[k] !in xs[..k]
    ensures var ss := CloseStreams(streams, Elements(xs[..k]));
            CloseStreams(streams, Elements(xs[..k + 1])) == ss[xs[k] := CloseOne(ss[xs[k]])]
  {
    assert xs[..k + 1] == xs[..k] + [xs[k]];
    var ss := CloseStreams(streams, Elements(xs[..k]));
    assert CloseStreams(streams, Elements(xs[..k + 1])) == ss[xs[k] := CloseOne(ss[xs[k]])];
  }

  /** The backlog of a listener holds existing streams, each once. */
  ghost predicate BacklogDistinct(s: State, l: nat) {
    && l < |s.listeners|
    && (forall i | 0 <= i < |s.listeners[l].accepted| :: s.listeners[l].accepted[i] < |s.streams|)
    && (forall i, j | 0 <= i < j < |s.listeners[l].accepted| ::
         s.listeners[l].accepted[i] != s.listeners[l].accepted[j])
  }

  lemma BacklogIsDistinct(s: State, l: nat)
    requires ListenerOk(s, l) && l < |s.listeners|
    ensures BacklogDistinct(s, l)
  {
    var li := s.listeners[l];
    if li.phase.Open? {
      var n := |li.conns| - |li.accepted|;
      assert forall i | 0 <= i < |li.accepted| :: li.accepted[i] == li.conns[n + i];
    }
  }

  lemma AbortStep(s: State, l: nat)
    requires l < |s.listeners|
    ensures AbortSome(s, {l}) ==
              s.(core := FinishSlots(s.core, {Acceptors(l)}, ECANCELED),
                 streams := CloseStreams(s.streams, Elements(s.listeners[l].accepted)),
                 listeners := s.listeners[l := CloseListener(s.listeners[l])])
  {
    assert AcceptorSlots({l}) == {Acceptors(l)};
    assert AllBacklog(s, {l}) == Elements(s.listeners[l].accepted);
    assert AbortSome(s, {l}).listeners == s.listeners[l := CloseListener(s.listeners[l])];
  }

  /** With the listeners `past` aborted, `l` is ready to be. */
  lemma AbortReady(s: State, owner: map<TaskId, Slot>, past: set<nat>, l: nat)
    requires Objects(s) && Linear(s.core, owner) && l in s.registry && l !in past
    ensures BacklogDistinct(AbortSome(s, past), l) && Pending(AbortSome(s, past).core, Acceptors(l))
    ensures AbortSome(s, past + {l}) == AbortSome(AbortSome(s, past), {l})
  {
    assert ListenerOk(s, l);
    BacklogIsDistinct(s, l);
    StillPending(s.core, owner, AcceptorSlots(past), Acceptors(l), ECANCELED);
    BacklogsDisjoint(s, past, l);
    AbortOneMore(s, past, l);
  }

  /** With the streams `past` cancelled, `x` is ready to be. */
  lemma CancelReady(s: State, owner: map<TaskId, Slot>, past: set<nat>, x: nat)
    requires Linear(s.core, owner) && x < |s.streams| && x !in past
    ensures var s1 := CancelSome(s, past);
            && Pending(s1.core, Readers(x))
            && CancelSome(s, past + {x}) == s1.(core := FinishSlots(s1.core, {Readers(x)}, ECANCELED),
                                                streams := s1.streams[x := s1.streams[x].(active := false)])
  {
    StillPending(s.core, owner, ReaderSlots(past), Readers(x), ECANCELED);
    CancelOneMore(s, past, x);
  }
}
