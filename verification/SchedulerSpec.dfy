/**
  The fiber scheduler as a state machine.

  The scheduler is one thread, so every event below is atomic. The environment chooses two things
  freely: which handle the allocator returns for a submission (any handle that is not live) and
  which in-flight task is reaped next (completions arrive in any order, at any time).
 */
module SchedulerSpec {
  import opened Common
  import opened Fibers

  type FutId = nat
  type Handle = nat

  /** A submitted task: its handle, and the operation the fiber asked for. */
  datatype Sub = Sub(h: Handle, op: int)

  /** A captured continuation: program point, known futures, outstanding tasks, registers. */
  datatype Frame = Frame(p: Prog, env: seq<FutId>, outs: seq<Sub>, regs: Registers)

  /** The `wake` procedure made by `park!`: it re-queues `fib` to resume at `frame`. */
  datatype Wake = Wake(fib: FutId, frame: Frame)

  /** An entry of the ready list; `value` is what the continuation is resumed with, if anything. */
  datatype Item = Item(fib: FutId, frame: Frame, value: Option<int>)

  /** A future record; `code` is the thunk it was made from. Waiters are newest first. */
  datatype Fut = Fut(code: Ref, st: Option<Outcome<FutId>>, waiters: seq<Wake>)

  /**
    `queue` is the order in which ready fibers run: the rest of the current batch followed by the
    fibers made ready since. `live` holds the allocated tasks and `inflight` those not yet reaped.
   */
  datatype State = State(
    futs: seq<Fut>,
    queue: seq<Item>,
    running: Option<Wake>,
    waiters: map<Handle, Wake>,
    completed: map<Handle, int>,
    inflight: set<Handle>,
    live: map<Handle, int>)

  const ROOT: FutId := 0

  function RootRef(root: Prog): Ref { Ref(root, [], [], []) }

  /** `async` of the root thunk on a fresh scheduler. */
  function Init(root: Prog): State {
    State([Fut(RootRef(root), None, [])], [Item(ROOT, Frame(root, [], [], []), None)], None,
          map[], map[], {}, map[])
  }

  /** The closures named by a list of future ids. */
  function Codes(futs: seq<Fut>, env: seq<FutId>): (refs: seq<Ref>)
    requires forall i | 0 <= i < |env| :: env[i] < |futs|
    ensures |refs| == |env|
  {
    seq(|env|, i requires 0 <= i < |env| => futs[env[i]].code)
  }

  function Ops(outs: seq<Sub>): (ops: seq<int>)
    ensures |ops| == |outs|
  {
    seq(|outs|, i requires 0 <= i < |outs| => outs[i].op)
  }

  function PointOf(futs: seq<Fut>, fr: Frame): Point
    requires forall i | 0 <= i < |fr.env| :: fr.env[i] < |futs|
  {
    Point(fr.p, Codes(futs, fr.env), Ops(fr.outs), fr.regs)
  }

  function OutcomeOf(futs: seq<Fut>, o: Outcome<FutId>): Outcome<Ref>
    requires o.Ok? ==> forall i | 0 <= i < |o.futs| :: o.futs[i] < |futs|
  {
    match o
    case Ok(v, fs) => Ok(v, Codes(futs, fs))
    case Err(e) => Err(e)
  }

  // --- Events ------------------------------------------------------------------------------------

  datatype Event =
    | Take                  // the loop takes the next ready fiber and resumes it
    | Exec(alloc: Handle)   // the running fiber executes one instruction
    | Deliver(h: Handle)    // a completion is reaped

  /** Take the head of the queue. Resuming a task await frees the task and binds its result. */
  function TakeNext(s: State): State
    requires s.running.None? && s.queue != []
  {
    var it := s.queue[0];
    var s1 := s.(queue := s.queue[1..]);
    if it.value.Some? && it.frame.p.Join? && it.frame.p.slot < |it.frame.outs| then
      ResumeJoin(s1, it.fib, it.frame, it.value.value)
    else s1.(running := Some(Wake(it.fib, it.frame)))
  }

  /** The second half of `task-run`: free the task, go on with its result. */
  function ResumeJoin(s: State, f: FutId, fr: Frame, r: int): State
    requires fr.p.Join? && fr.p.slot < |fr.outs|
  {
    s.(live := s.live - {fr.outs[fr.p.slot].h},
       running := Some(Wake(f, Frame(fr.p.next, fr.env, Remove(fr.outs, fr.p.slot), fr.regs + [r]))))
  }

  /** `settle!`: record the outcome, then wake the waiters in list order. */
  function Settle(s: State, f: FutId, o: Outcome<FutId>): State
    requires f < |s.futs|
  {
    s.(futs := s.futs[f := s.futs[f].(st := Some(o), waiters := [])],
       queue := s.queue + WakeAll(s.futs[f].waiters),
       running := None)
  }

  function WakeAll(ws: seq<Wake>): (items: seq<Item>)
    ensures |items| == |ws|
    ensures forall i | 0 <= i < |ws| :: items[i] == Item(ws[i].fib, ws[i].frame, None)
  {
    seq(|ws|, i requires 0 <= i < |ws| => Item(ws[i].fib, ws[i].frame, None))
  }

  /** The ids of a group of `n` futures made next. */
  function NewIds(base: nat, n: nat): (ids: seq<FutId>)
    ensures |ids| == n && forall i | 0 <= i < n :: ids[i] == base + i
  {
    seq(n, i => base + i)
  }

  function NewFuts(refs: seq<Ref>): (futs: seq<Fut>)
    ensures |futs| == |refs| && forall i | 0 <= i < |refs| :: futs[i] == Fut(refs[i], None, [])
  {
    seq(|refs|, i requires 0 <= i < |refs| => Fut(refs[i], None, []))
  }

  function NewItems(base: nat, children: seq<Prog>, env: seq<FutId>, regs: Registers): (items: seq<Item>)
    ensures |items| == |children|
    ensures forall i | 0 <= i < |children| :: items[i] == Item(base + i, Frame(children[i], env, [], regs), None)
  {
    seq(|children|, i requires 0 <= i < |children| => Item(base + i, Frame(children[i], env, [], regs), None))
  }

  /** A letrec group of `async` calls by the running fiber. */
  function SpawnAll(s: State, f: FutId, fr: Frame): State
    requires fr.p.Spawn? && forall i | 0 <= i < |fr.env| :: fr.env[i] < |s.futs|
  {
    var env' := fr.env + NewIds(|s.futs|, |fr.p.children|);
    s.(futs := s.futs + NewFuts(Siblings(fr.p.children, Codes(s.futs, fr.env), fr.regs)),
       queue := s.queue + NewItems(|s.futs|, fr.p.children, env', fr.regs),
       running := Some(Wake(f, Frame(fr.p.next, env', fr.outs, fr.regs))))
  }

  /** `scheduler-await`: consume an early completion, or park under the handle. */
  function AwaitTask(s: State, f: FutId, fr: Frame): State
    requires fr.p.Join? && fr.p.slot < |fr.outs|
  {
    var h := fr.outs[fr.p.slot].h;
    if h in s.completed then
      ResumeJoin(s.(completed := s.completed - {h}), f, fr, s.completed[h])
    else s.(waiters := s.waiters[h := Wake(f, fr)], running := None)
  }

  /** `await-future`: park on a pending future, otherwise go on with its outcome. */
  function AwaitFuture(s: State, f: FutId, fr: Frame): State
    requires fr.p.Await? && fr.p.fut < |fr.env| && fr.env[fr.p.fut] < |s.futs|
  {
    var g := fr.env[fr.p.fut];
    match s.futs[g].st
    case None =>
      s.(futs := s.futs[g := s.futs[g].(waiters := [Wake(f, fr)] + s.futs[g].waiters)], running := None)
    case Some(Ok(v, fs)) =>
      s.(running := Some(Wake(f, Frame(fr.p.ok, fr.env + fs, fr.outs, fr.regs + [v]))))
    case Some(Err(e)) =>
      s.(running := Some(Wake(f, Frame(fr.p.err, fr.env, fr.outs, fr.regs + [e]))))
  }

  /** One instruction of the running fiber; `alloc` is what the allocator returns to a submission. */
  function ExecOne(s: State, alloc: Handle): State
    requires s.running.Some? && s.running.value.fib < |s.futs|
    requires forall i | 0 <= i < |s.running.value.frame.env| :: s.running.value.frame.env[i] < |s.futs|
  {
    var Wake(f, fr) := s.running.value;
    match fr.p
    case Return(result, give) => Settle(s, f, Ok(result(fr.regs), Pick(fr.env, give)))
    case Raise(condition) => Settle(s, f, Err(condition(fr.regs)))
    case Submit(op, next) =>
      var sub := Sub(alloc, op(fr.regs));
      s.(live := s.live[alloc := sub.op], inflight := s.inflight + {alloc},
         running := Some(Wake(f, Frame(next, fr.env, fr.outs + [sub], fr.regs))))
    case Join(slot, _) => if slot < |fr.outs| then AwaitTask(s, f, fr) else Settle(s, f, Err(NOT_AWAITABLE))
    case Spawn(_, _) => SpawnAll(s, f, fr)
    case Await(fut, _, _) => if fut < |fr.env| then AwaitFuture(s, f, fr) else Settle(s, f, Err(NOT_AWAITABLE))
    case If(test, yes, no) =>
      s.(running := Some(Wake(f, fr.(p := if test(fr.regs) then yes else no))))
  }

  /** `deliver-one!`: wake the waiter with the task's result, or stash the result for a later await. */
  function DeliverOne(oracle: int -> int, s: State, h: Handle): State
    requires h in s.live
  {
    var r := oracle(s.live[h]);
    var s1 := s.(inflight := s.inflight - {h});
    if h in s.waiters then
      var w := s.waiters[h];
      s1.(waiters := s.waiters - {h}, queue := s.queue + [Item(w.fib, w.frame, Some(r))])
    else s1.(completed := s.completed[h := r])
  }

  predicate Enabled(s: State, e: Event) {
    match e
    case Take => s.running.None? && s.queue != []
    case Exec(alloc) =>
      && s.running.Some?
      && s.running.value.fib < |s.futs|
      && (forall i | 0 <= i < |s.running.value.frame.env| :: s.running.value.frame.env[i] < |s.futs|)
      && alloc != 0 && alloc !in s.live
    case Deliver(h) => s.running.None? && h in s.inflight && h in s.live
  }

  function Next(oracle: int -> int, s: State, e: Event): State
    requires Enabled(s, e)
  {
    match e
    case Take => TakeNext(s)
    case Exec(alloc) => ExecOne(s, alloc)
    case Deliver(h) => DeliverOne(oracle, s, h)
  }

  /** The state after a run, or None when some event of it was not enabled. */
  function After(oracle: int -> int, root: Prog, run: seq<Event>): Option<State> {
    if run == [] then Some(Init(root)) else
    var last := |run| - 1;
    match After(oracle, root, run[..last])
    case None => None
    case Some(s) => if Enabled(s, run[last]) then Some(Next(oracle, s, run[last])) else None
  }

  /** The condition on which `scheduler-loop` returns. */
  predicate Quiet(s: State) {
    s.running.None? && s.queue == [] && |s.waiters| == 0
  }
}
