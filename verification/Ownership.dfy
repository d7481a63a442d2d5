/**
  Ownership of tasks on the loop thread.

  Every deque, pointer slot and libuv request that can hold a `Task*` is a slot. The loop only moves
  tasks between slots and completes them; `Linear` says that a task is never in two positions and
  never both held and completed. A task that the code forgets is recorded as dropped.
 */
module Ownership {
  import opened Common

  type TaskId = nat

  datatype Slot =
    | Request                     // libuv fs, DNS and write requests in flight
    | Timer                       // started timer handles (embedded in their task)
    | TimerClosing                // timer handles being closed
    | Connecting(stream: nat)     // connect request of a stream
    | Readers(stream: nat)        // Stream::read_queue
    | Acceptors(listener: nat)    // Listener::pending_accepts
    | Waiter(process: nat)        // Process::wait_task
    | NextEvent(watcher: nat)     // Watcher::pending_next
    | StreamCloser(stream: nat)   // close_task_ of each kind of handle
    | ListenerCloser(listener: nat)
    | ProcessCloser(process: nat)
    | WatcherCloser(watcher: nat)

  /** Tasks held, results of completed tasks, all tasks ever dispatched, and those that were dropped. */
  datatype Core = Core(held: map<Slot, seq<TaskId>>, done: map<TaskId, int>, seen: set<TaskId>, dropped: set<TaskId>)

  const NO_TASKS := Core(map[], map[], {}, {})

  function In(c: Core, slot: Slot): seq<TaskId> {
    if slot in c.held then c.held[slot] else []
  }

  /** A new task goes to the end of a slot. */
  function Hold(c: Core, slot: Slot, t: TaskId): Core {
    c.(held := c.held[slot := In(c, slot) + [t]], seen := c.seen + {t})
  }

  /** A new task is stored in a pointer slot; what the slot held before is lost. */
  function Store(c: Core, slot: Slot, t: TaskId): Core {
    c.(held := c.held[slot := [t]], seen := c.seen + {t}, dropped := c.dropped + Elements(In(c, slot)))
  }

  /** A new task completes at once. */
  function Answer(c: Core, t: TaskId, r: int): Core {
    c.(done := c.done[t := r], seen := c.seen + {t})
  }

  /** A new task is neither stored nor completed. */
  function Drop(c: Core, t: TaskId): Core {
    c.(seen := c.seen + {t}, dropped := c.dropped + {t})
  }

  /** A slot is destroyed with the object it is part of; what it held is lost. */
  function Forget(c: Core, slot: Slot): Core {
    c.(held := c.held[slot := []], dropped := c.dropped + Elements(In(c, slot)))
  }

  /** The i-th task of a slot completes. */
  function FinishAt(c: Core, slot: Slot, i: nat, r: int): Core
    requires i < |In(c, slot)|
  {
    c.(held := c.held[slot := Remove(In(c, slot), i)], done := c.done[In(c, slot)[i] := r])
  }

  /** The i-th task of a slot moves to the end of another. */
  function Shift(c: Core, src: Slot, i: nat, dst: Slot): Core
    requires i < |In(c, src)| && src != dst
  {
    c.(held := c.held[src := Remove(In(c, src), i)][dst := In(c, dst) + [In(c, src)[i]]])
  }

  ghost predicate HeldIn(c: Core, slots: set<Slot>, t: TaskId) {
    exists slot :: slot in slots && t in In(c, slot)
  }

  /** Every task held in one of the slots completes with `r`. */
  ghost function FinishSlots(c: Core, slots: set<Slot>, r: int): Core {
    c.(held := map slot | slot in c.held :: if slot in slots then [] else c.held[slot],
       done := c.done + map t | t in c.seen && HeldIn(c, slots, t) :: r)
  }

  // --- Linearity ---------------------------------------------------------------------------------

  ghost predicate Distinct(q: seq<TaskId>) {
    forall i, j | 0 <= i < j < |q| :: q[i] != q[j]
  }

  /** The tasks of a slot are distinct and the owner map says where they are. */
  ghost predicate Owned(c: Core, owner: map<TaskId, Slot>, slot: Slot) {
    Distinct(In(c, slot)) && forall t | t in In(c, slot) :: t in owner && owner[t] == slot
  }

  /** Held, completed and dropped tasks are different ones, and there are no others. */
  ghost predicate Partition(c: Core, owner: map<TaskId, Slot>) {
    && owner.Keys !! c.done.Keys && owner.Keys !! c.dropped && c.done.Keys !! c.dropped
    && owner.Keys + c.done.Keys + c.dropped == c.seen
  }

  /** `owner` names the slot of every task that is held. */
  ghost predicate Linear(c: Core, owner: map<TaskId, Slot>) {
    && (forall slot :: Owned(c, owner, slot))
    && (forall t | t in owner :: t in In(c, owner[t]))
    && Partition(c, owner)
  }

  /** Completed tasks keep their results, and no task is forgotten. */
  ghost predicate DoneGrows(c: Core, c': Core) {
    c.seen <= c'.seen && forall t | t in c.done :: t in c'.done && c'.done[t] == c.done[t]
  }

  /** Linearity from three facts: one slot changed, the others have their tasks, and the sums are right. */
  lemma LinearAfter(c: Core, owner: map<TaskId, Slot>, slot: Slot, c': Core, owner': map<TaskId, Slot>)
    requires Linear(c, owner) && Partition(c', owner') && Owned(c', owner', slot)
    requires forall a | a != slot :: In(c', a) == In(c, a)
    requires forall t | t in owner && owner[t] != slot :: t in owner' && owner'[t] == owner[t]
    requires forall t | t in owner' && owner'[t] != slot :: t in owner && owner[t] == owner'[t]
    requires forall t | t in owner' && owner'[t] == slot :: t in In(c', slot)
    ensures Linear(c', owner')
  {
    forall a ensures Owned(c', owner', a) {
      assert Owned(c, owner, a);
    }
  }

  lemma HoldLinear(c: Core, owner: map<TaskId, Slot>, slot: Slot, t: TaskId)
    requires Linear(c, owner) && t !in c.seen
    ensures Linear(Hold(c, slot, t), owner[t := slot])
  {
    var c', owner' := Hold(c, slot, t), owner[t := slot];
    assert Owned(c, owner, slot);
    assert In(c', slot) == In(c, slot) + [t];
    assert t !in In(c, slot);
    assert owner'.Keys == owner.Keys + {t};
    LinearAfter(c, owner, slot, c', owner');
  }

  lemma AnswerLinear(c: Core, owner: map<TaskId, Slot>, t: TaskId, r: int)
    requires Linear(c, owner) && t !in c.seen
    ensures Linear(Answer(c, t, r), owner) && DoneGrows(c, Answer(c, t, r))
  {
    var c' := Answer(c, t, r);
    forall slot ensures Owned(c', owner, slot) {
      assert Owned(c, owner, slot);
    }
    assert c'.done.Keys == c.done.Keys + {t};
  }

  lemma DropLinear(c: Core, owner: map<TaskId, Slot>, t: TaskId)
    requires Linear(c, owner) && t !in c.seen
    ensures Linear(Drop(c, t), owner) && DoneGrows(c, Drop(c, t))
  {
    forall slot ensures Owned(Drop(c, t), owner, slot) {
      assert Owned(c, owner, slot);
    }
  }

  lemma {:induction false} RemoveMembers(s: seq<TaskId>, i: nat)
    requires i < |s| && Distinct(s)
    ensures forall t :: t in Remove(s, i) <==> t in s && t != s[i]
    ensures Distinct(Remove(s, i))
  {
    forall t | t in s && t != s[i] ensures t in Remove(s, i) {
      var k :| 0 <= k < |s| && s[k] == t;
      assert Remove(s, i)[if k < i then k else k - 1] == t;
    }
  }

  lemma FinishAtLinear(c: Core, owner: map<TaskId, Slot>, slot: Slot, i: nat, r: int)
    requires Linear(c, owner) && i < |In(c, slot)|
    ensures DoneGrows(c, FinishAt(c, slot, i, r))
    ensures Linear(FinishAt(c, slot, i, r), owner - {In(c, slot)[i]})
  {
    var c', t := FinishAt(c, slot, i, r), In(c, slot)[i];
    assert Owned(c, owner, slot);
    RemoveMembers(In(c, slot), i);
    assert In(c', slot) == Remove(In(c, slot), i);
    assert c'.done.Keys == c.done.Keys + {t};
    LinearAfter(c, owner, slot, c', owner - {t});
  }

  /** A task taken out of its slot: linear but for the task itself. */
  lemma TakeOutLinear(c: Core, owner: map<TaskId, Slot>, src: Slot, i: nat, c1: Core)
    requires Linear(c, owner) && i < |In(c, src)|
    requires c1 == c.(held := c.held[src := Remove(In(c, src), i)], seen := c.seen - {In(c, src)[i]})
    ensures Linear(c1, owner - {In(c, src)[i]})
  {
    var t := In(c, src)[i];
    assert Owned(c, owner, src);
    RemoveMembers(In(c, src), i);
    assert In(c1, src) == Remove(In(c, src), i);
    LinearAfter(c, owner, src, c1, owner - {t});
  }

  lemma ShiftLinear(c: Core, owner: map<TaskId, Slot>, src: Slot, i: nat, dst: Slot)
    requires Linear(c, owner) && i < |In(c, src)| && src != dst
    ensures Linear(Shift(c, src, i, dst), owner[In(c, src)[i] := dst])
  {
    var t := In(c, src)[i];
    var c1 := c.(held := c.held[src := Remove(In(c, src), i)], seen := c.seen - {t});
    TakeOutLinear(c, owner, src, i, c1);
    HoldLinear(c1, owner - {t}, dst, t);
    assert Owned(c, owner, src);
    assert (owner - {t})[t := dst] == owner[t := dst];
    assert c1.seen + {t} == c.seen;
    assert Shift(c, src, i, dst) == Hold(c1, dst, t);
  }

  lemma HeldIffOwned(c: Core, owner: map<TaskId, Slot>, slots: set<Slot>, t: TaskId)
    requires Linear(c, owner)
    ensures HeldIn(c, slots, t) <==> t in owner && owner[t] in slots
  {
    if HeldIn(c, slots, t) {
      var slot :| slot in slots && t in In(c, slot);
      assert Owned(c, owner, slot);
    }
    if t in owner && owner[t] in slots {
      assert owner[t] in slots && t in In(c, owner[t]);
    }
  }

  ghost function Without(owner: map<TaskId, Slot>, slots: set<Slot>): map<TaskId, Slot> {
    map t | t in owner && owner[t] !in slots :: owner[t]
  }

  /** Storing over a pending task drops that task and nothing else. */
  lemma StoreLinear(c: Core, owner: map<TaskId, Slot>, slot: Slot, t: TaskId)
    requires Linear(c, owner) && t !in c.seen
    ensures Linear(Store(c, slot, t), Without(owner, {slot})[t := slot])
  {
    var c', rest := Store(c, slot, t), Without(owner, {slot});
    assert Owned(c, owner, slot);
    forall u ensures u in Elements(In(c, slot)) <==> u in owner && owner[u] == slot {
    }
    assert rest.Keys + Elements(In(c, slot)) == owner.Keys;
    assert rest[t := slot].Keys == rest.Keys + {t};
    LinearAfter(c, owner, slot, c', rest[t := slot]);
  }

  lemma ForgetLinear(c: Core, owner: map<TaskId, Slot>, slot: Slot)
    requires Linear(c, owner)
    ensures Linear(Forget(c, slot), Without(owner, {slot}))
  {
    var c', rest := Forget(c, slot), Without(owner, {slot});
    assert Owned(c, owner, slot);
    forall u ensures u in Elements(In(c, slot)) <==> u in owner && owner[u] == slot {
    }
    assert rest.Keys + Elements(In(c, slot)) == owner.Keys;
    LinearAfter(c, owner, slot, c', rest);
  }

  // --- Whole slots -------------------------------------------------------------------------------

  /** What completing whole slots does to one task's result. */
  lemma DoneAt(c: Core, slots: set<Slot>, r: int, t: TaskId)
    ensures var d := FinishSlots(c, slots, r).done;
            if t in c.seen && HeldIn(c, slots, t) then t in d && d[t] == r
            else (t in d <==> t in c.done) && (t in c.done ==> d[t] == c.done[t])
  {
  }

  lemma InFinished(c: Core, slots: set<Slot>, r: int, slot: Slot)
    ensures In(FinishSlots(c, slots, r), slot) == if slot in slots then [] else In(c, slot)
  {
  }

  lemma DoneFinished(c: Core, owner: map<TaskId, Slot>, slots: set<Slot>, r: int, t: TaskId)
    requires Linear(c, owner)
    ensures var d := FinishSlots(c, slots, r).done;
            if t in owner && owner[t] in slots then t in d && d[t] == r
            else (t in d <==> t in c.done) && (t in c.done ==> d[t] == c.done[t])
  {
    HeldIffOwned(c, owner, slots, t);
    DoneAt(c, slots, r, t);
  }

  /** What completing whole slots does, seen from each slot and each task. */
  lemma FinishSlotsEffect(c: Core, owner: map<TaskId, Slot>, slots: set<Slot>, r: int)
    requires Linear(c, owner)
    ensures var c' := FinishSlots(c, slots, r);
            && (forall slot :: In(c', slot) == if slot in slots then [] else In(c, slot))
            && (forall slot, t | slot in slots && t in In(c, slot) :: t in c'.done && c'.done[t] == r)
            && DoneGrows(c, c')
  {
    var c' := FinishSlots(c, slots, r);
    forall slot ensures In(c', slot) == if slot in slots then [] else In(c, slot) {
      InFinished(c, slots, r, slot);
    }
    forall t | t in c.done ensures t in c'.done && c'.done[t] == c.done[t] {
      DoneFinished(c, owner, slots, r, t);
    }
    forall slot, t | slot in slots && t in In(c, slot) ensures t in c'.done && c'.done[t] == r {
      assert Owned(c, owner, slot);
      DoneFinished(c, owner, slots, r, t);
    }
  }

  lemma FinishSlotsPartition(c: Core, owner: map<TaskId, Slot>, slots: set<Slot>, r: int)
    requires Linear(c, owner)
    ensures Partition(FinishSlots(c, slots, r), Without(owner, slots))
  {
    var c', rest := FinishSlots(c, slots, r), Without(owner, slots);
    forall t ensures t in c'.done.Keys <==> t in c.done.Keys + (owner.Keys - rest.Keys) {
      DoneFinished(c, owner, slots, r, t);
    }
    assert c'.done.Keys == c.done.Keys + (owner.Keys - rest.Keys);
  }

  lemma FinishSlotsLinear(c: Core, owner: map<TaskId, Slot>, slots: set<Slot>, r: int)
    requires Linear(c, owner)
    ensures Linear(FinishSlots(c, slots, r), Without(owner, slots))
  {
    var c', rest := FinishSlots(c, slots, r), Without(owner, slots);
    FinishSlotsPartition(c, owner, slots, r);
    forall slot ensures Owned(c', rest, slot) {
      InFinished(c, slots, r, slot);
      assert Owned(c, owner, slot);
    }
    forall t | t in rest ensures t in In(c', rest[t]) {
      InFinished(c, slots, r, rest[t]);
    }
  }
}
