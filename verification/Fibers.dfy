/**
  Fiber programs and their reference meaning.

  A fiber is a finite program over local registers. The reference evaluator reads `async` as
  "make a closure" and `await` as "call it": synchronous code, no scheduler, no queue, no handles.
  Everything the scheduler does is later compared with this evaluator.
 */
module Fibers {

  import opened Common

  /** Values a fiber has received so far: task results, awaited values and caught conditions. */
  type Registers = seq<int>

  /** Condition raised by awaiting something that is neither a future nor a task handle. */
  const NOT_AWAITABLE := -1

  /**
    A fiber program. `Await(i, ..)` names the i-th future the fiber knows, `Join(i, ..)` its i-th
    outstanding task (await, then free). `Spawn` is a letrec group of `async` calls: every child
    knows its parent's futures, its siblings and itself. `Return` may hand out known futures.
   */
  datatype Prog =
    | Return(result: Registers -> int, give: seq<nat>)
    | Raise(condition: Registers -> int)
    | Submit(op: Registers -> int, next: Prog)
    | Join(slot: nat, next: Prog)
    | Spawn(children: seq<Prog>, next: Prog)
    | Await(fut: nat, ok: Prog, err: Prog)
    | If(test: Registers -> bool, yes: Prog, no: Prog)

  datatype Outcome<+F> = Ok(v: int, futs: seq<F>) | Err(e: int)

  /** A future as a closure: its program, its letrec group and what the group captured. */
  datatype Ref = Ref(self: Prog, group: seq<Prog>, env: seq<Ref>, regs: Registers)

  /** A program point together with the values it runs on. */
  datatype Point = Point(p: Prog, env: seq<Ref>, ops: seq<int>, regs: Registers)

  function Siblings(group: seq<Prog>, env: seq<Ref>, regs: Registers): (refs: seq<Ref>)
    ensures |refs| == |group|
  {
    seq(|group|, i requires 0 <= i < |group| => Ref(group[i], group, env, regs))
  }

  /** The known futures picked by the indices in `give`; indices out of range pick nothing. */
  function Pick<F>(env: seq<F>, give: seq<nat>): (picked: seq<F>)
    ensures forall i | 0 <= i < |picked| :: picked[i] in env
    ensures env == [] ==> picked == []
  {
    if give == [] then []
    else if give[0] < |env| then [env[give[0]]] + Pick(env, give[1..])
    else Pick(env, give[1..])
  }

  /** Indices in range pick the futures they name, in order. */
  lemma {:induction false} PickInRange<F>(env: seq<F>, give: seq<nat>)
    requires forall i | 0 <= i < |give| :: give[i] < |env|
    ensures |Pick(env, give)| == |give| && forall i | 0 <= i < |give| :: Pick(env, give)[i] == env[give[i]]
  {
    if give != [] {
      PickInRange(env, give[1..]);
    }
  }

  function Start(r: Ref): Point {
    Point(r.self, r.env + Siblings(r.group, r.env, r.regs), [], r.regs)
  }

  /** Continue past an `Await` whose future has the outcome `o`. */
  function Answer(a: Point, o: Outcome<Ref>): (b: Point)
    requires a.p.Await?
  {
    match o
    case Ok(v, fs) => Point(a.p.ok, a.env + fs, a.ops, a.regs + [v])
    case Err(e) => Point(a.p.err, a.env, a.ops, a.regs + [e])
  }

  // --- The reference evaluator ---------------------------------------------------------------

  /** Outcome of a future, with `fuel` bounding the depth of nested awaits; None when it runs out. */
  function Eval(oracle: int -> int, fuel: nat, r: Ref): Option<Outcome<Ref>>
    decreases fuel, 0
  {
    if fuel == 0 then None else Run(oracle, fuel - 1, Start(r))
  }

  /** Outcome of a program point. The oracle fixes the result of every task operation. */
  function Run(oracle: int -> int, fuel: nat, a: Point): Option<Outcome<Ref>>
    decreases fuel, 1, a.p
  {
    match a.p
    case Return(result, give) => Some(Ok(result(a.regs), Pick(a.env, give)))
    case Raise(condition) => Some(Err(condition(a.regs)))
    case Submit(op, next) => Run(oracle, fuel, Point(next, a.env, a.ops + [op(a.regs)], a.regs))
    case Join(slot, next) =>
      if slot < |a.ops| then
        Run(oracle, fuel, Point(next, a.env, Remove(a.ops, slot), a.regs + [oracle(a.ops[slot])]))
      else Some(Err(NOT_AWAITABLE))
    case Spawn(children, next) =>
      Run(oracle, fuel, Point(next, a.env + Siblings(children, a.env, a.regs), a.ops, a.regs))
    case Await(fut, ok, err) =>
      if fut < |a.env| then
        match Eval(oracle, fuel, a.env[fut])
        case None => None
        case Some(o) => Run(oracle, fuel, Answer(a, o))
      else Some(Err(NOT_AWAITABLE))
    case If(test, yes, no) =>
      Run(oracle, fuel, Point(if test(a.regs) then yes else no, a.env, a.ops, a.regs))
  }

  /** The future `r` means `o`: with enough fuel the evaluator answers `o`. */
  ghost predicate Means(oracle: int -> int, r: Ref, o: Outcome<Ref>) {
    exists fuel: nat :: Eval(oracle, fuel, r) == Some(o)
  }

  ghost predicate Diverges(oracle: int -> int, r: Ref) {
    forall fuel: nat :: Eval(oracle, fuel, r) == None
  }

  lemma {:induction false} RunMonotone(oracle: int -> int, m: nat, n: nat, a: Point)
    requires m <= n && Run(oracle, m, a).Some?
    ensures Run(oracle, n, a) == Run(oracle, m, a)
    decreases m, 1, a.p
  {
    match a.p
    case Return(_, _) =>
    case Raise(_) =>
    case Submit(op, next) =>
      RunMonotone(oracle, m, n, Point(next, a.env, a.ops + [op(a.regs)], a.regs));
    case Join(slot, next) =>
      if slot < |a.ops| {
        RunMonotone(oracle, m, n, Point(next, a.env, Remove(a.ops, slot), a.regs + [oracle(a.ops[slot])]));
      }
    case Spawn(children, next) =>
      RunMonotone(oracle, m, n, Point(next, a.env + Siblings(children, a.env, a.regs), a.ops, a.regs));
    case Await(fut, _, _) =>
      if fut < |a.env| {
        EvalMonotone(oracle, m, n, a.env[fut]);
        RunMonotone(oracle, m, n, Answer(a, Eval(oracle, m, a.env[fut]).value));
      }
    case If(test, yes, no) =>
      RunMonotone(oracle, m, n, Point(if test(a.regs) then yes else no, a.env, a.ops, a.regs));
  }

  /** More fuel never changes an answer. */
  lemma {:induction false} EvalMonotone(oracle: int -> int, m: nat, n: nat, r: Ref)
    requires m <= n && Eval(oracle, m, r).Some?
    ensures Eval(oracle, n, r) == Eval(oracle, m, r)
    decreases m, 0
  {
    RunMonotone(oracle, m - 1, n - 1, Start(r));
  }

  /** A future has at most one meaning. */
  lemma MeansUnique(oracle: int -> int, r: Ref, o: Outcome<Ref>, o': Outcome<Ref>)
    requires Means(oracle, r, o) && Means(oracle, r, o')
    ensures o == o'
  {
    var m: nat :| Eval(oracle, m, r) == Some(o);
    var n: nat :| Eval(oracle, n, r) == Some(o');
    EvalMonotone(oracle, if m <= n then m else n, if m <= n then n else m, r);
  }

  // --- One program step preserves the meaning --------------------------------------------------

  /** `b` is a later point of the computation `a`: same answers, and never needing more fuel. */
  ghost predicate Leads(oracle: int -> int, a: Point, b: Point) {
    && (forall n: nat :: Run(oracle, n, a).Some? ==> Run(oracle, n, b) == Run(oracle, n, a))
    && (forall n: nat :: Run(oracle, n, b).Some? ==> Reproduces(oracle, a, Run(oracle, n, b)))
  }

  ghost predicate Reproduces(oracle: int -> int, a: Point, o: Option<Outcome<Ref>>) {
    exists m: nat :: Run(oracle, m, a) == o
  }

  lemma LeadsTransitive(oracle: int -> int, a: Point, b: Point, c: Point)
    requires Leads(oracle, a, b) && Leads(oracle, b, c)
    ensures Leads(oracle, a, c)
  {
    forall n: nat | Run(oracle, n, c).Some? ensures Reproduces(oracle, a, Run(oracle, n, c)) {
      assert Reproduces(oracle, b, Run(oracle, n, c));
      var m: nat :| Run(oracle, m, b) == Run(oracle, n, c);
      assert Reproduces(oracle, a, Run(oracle, m, b));
    }
  }

  /** The point after one step that needs no other fiber. */
  function LocalStep(oracle: int -> int, a: Point): Point
    requires a.p.Submit? || a.p.Spawn? || a.p.If? || (a.p.Join? && a.p.slot < |a.ops|)
  {
    match a.p
    case Submit(op, next) => Point(next, a.env, a.ops + [op(a.regs)], a.regs)
    case Join(slot, next) => Point(next, a.env, Remove(a.ops, slot), a.regs + [oracle(a.ops[slot])])
    case Spawn(children, next) => Point(next, a.env + Siblings(children, a.env, a.regs), a.ops, a.regs)
    case If(test, yes, no) => Point(if test(a.regs) then yes else no, a.env, a.ops, a.regs)
  }

  lemma LocalStepLeads(oracle: int -> int, a: Point)
    requires a.p.Submit? || a.p.Spawn? || a.p.If? || (a.p.Join? && a.p.slot < |a.ops|)
    ensures Leads(oracle, a, LocalStep(oracle, a))
  {
    var b := LocalStep(oracle, a);
    forall n: nat ensures Run(oracle, n, a) == Run(oracle, n, b) {
    }
  }

  /** Answering an await with the meaning of the awaited future preserves the meaning. */
  lemma AnswerLeads(oracle: int -> int, a: Point, o: Outcome<Ref>)
    requires a.p.Await? && a.p.fut < |a.env| && Means(oracle, a.env[a.p.fut], o)
    ensures Leads(oracle, a, Answer(a, o))
  {
    var r, b := a.env[a.p.fut], Answer(a, o);
    var k: nat :| Eval(oracle, k, r) == Some(o);
    forall n: nat | Run(oracle, n, a).Some? ensures Run(oracle, n, b) == Run(oracle, n, a) {
      EvalMonotone(oracle, if k <= n then k else n, if k <= n then n else k, r);
    }
    forall n: nat | Run(oracle, n, b).Some? ensures Reproduces(oracle, a, Run(oracle, n, b)) {
      var m := if k <= n then n else k;
      EvalMonotone(oracle, k, m, r);
      RunMonotone(oracle, n, m, b);
      assert Run(oracle, m, a) == Run(oracle, n, b);
    }
  }

  /** A future whose computation leads to a finished point means that point's outcome. */
  lemma LeadsToMeaning(oracle: int -> int, r: Ref, b: Point, n: nat)
    requires Leads(oracle, Start(r), b) && Run(oracle, n, b).Some?
    ensures Means(oracle, r, Run(oracle, n, b).value)
  {
    assert Reproduces(oracle, Start(r), Run(oracle, n, b));
    var m: nat :| Run(oracle, m, Start(r)) == Run(oracle, n, b);
    assert Eval(oracle, m + 1, r) == Run(oracle, n, b);
  }

  // --- Blocking mode -----------------------------------------------------------------------------

  /** A program that only does I/O: it neither spawns nor awaits futures. */
  predicate Sequential(p: Prog) {
    match p
    case Return(_, _) => true
    case Raise(_) => true
    case Submit(_, next) => Sequential(next)
    case Join(_, next) => Sequential(next)
    case Spawn(_, _) => false
    case Await(_, _, _) => false
    case If(_, yes, no) => Sequential(yes) && Sequential(no)
  }

  /** Blocking mode: the calling thread waits for each task on the spot. */
  function Blocking(oracle: int -> int, p: Prog, ops: seq<int>, regs: Registers): Outcome<Ref>
    requires Sequential(p)
  {
    match p
    case Return(result, _) => Ok(result(regs), [])
    case Raise(condition) => Err(condition(regs))
    case Submit(op, next) => Blocking(oracle, next, ops + [op(regs)], regs)
    case Join(slot, next) =>
      if slot < |ops| then Blocking(oracle, next, Remove(ops, slot), regs + [oracle(ops[slot])])
      else Err(NOT_AWAITABLE)
    case If(test, yes, no) => Blocking(oracle, if test(regs) then yes else no, ops, regs)
  }

  lemma {:induction false} BlockingIsRun(oracle: int -> int, fuel: nat, p: Prog, ops: seq<int>, regs: Registers)
    requires Sequential(p)
    ensures Run(oracle, fuel, Point(p, [], ops, regs)) == Some(Blocking(oracle, p, ops, regs))
    decreases p
  {
    match p
    case Return(_, _) =>
    case Raise(_) =>
    case Submit(op, next) => BlockingIsRun(oracle, fuel, next, ops + [op(regs)], regs);
    case Join(slot, next) =>
      if slot < |ops| {
        BlockingIsRun(oracle, fuel, next, Remove(ops, slot), regs + [oracle(ops[slot])]);
      }
    case If(test, yes, no) => BlockingIsRun(oracle, fuel, if test(regs) then yes else no, ops, regs);
  }
}
