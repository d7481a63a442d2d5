/**
  Direct style: `async` runs its body on the spot, as a call, and `await` looks the answer up.

  No closures, no environments of futures, no fuel: a future is the answer of a call that has been
  made already. Structured programs are those for which this works, and the direct answer is what
  the reference evaluator, and so the scheduler, gives.
 */
module DirectStyle {
  import opened Common
  import opened Fibers
  import opened Families

  /** The answers of the calls made so far, by the index under which the fiber knows the future. */
  type Known = map<nat, Outcome<Ref>>

  /**
    Evaluate a program that knows `n` futures, with the answers in `known`. In a structured program
    the answer of every future it awaits is there.
   */
  function Direct(oracle: int -> int, p: Prog, n: nat, known: Known, ops: seq<int>, regs: Registers): (o: Outcome<Ref>)
    ensures Plain(o)
    decreases p, 1, 0
  {
    match p
    case Return(result, _) => Ok(result(regs), [])
    case Raise(condition) => Err(condition(regs))
    case Submit(op, next) => Direct(oracle, next, n, known, ops + [op(regs)], regs)
    case Join(slot, next) =>
      if slot < |ops| then Direct(oracle, next, n, known, Remove(ops, slot), regs + [oracle(ops[slot])])
      else Err(NOT_AWAITABLE)
    case Spawn(children, next) =>
      Direct(oracle, next, n + |children|, CallFirst(oracle, p, n, known, regs, |children|), ops, regs)
    case Await(fut, ok, err) =>
      if fut !in known then Err(NOT_AWAITABLE)
      else if known[fut].Ok? then Direct(oracle, ok, n, known, ops, regs + [known[fut].v])
      else Direct(oracle, err, n, known, ops, regs + [known[fut].e])
    case If(test, yes, no) => Direct(oracle, if test(regs) then yes else no, n, known, ops, regs)
  }

  /** Call the first `k` members of a spawned group, in order; each knows the answers of those before it. */
  function CallFirst(oracle: int -> int, p: Prog, n: nat, known: Known, regs: Registers, k: nat): Known
    requires p.Spawn? && k <= |p.children|
    decreases p, 0, k
  {
    if k == 0 then known else
    var before := CallFirst(oracle, p, n, known, regs, k - 1);
    before[n + (k - 1) := Direct(oracle, p.children[k - 1], n + |p.children|, before, [], regs)]
  }

  // --- The direct answer is the meaning ----------------------------------------------------------

  /** The evaluator gives no other answer for the future. */
  ghost predicate Only(oracle: int -> int, r: Ref, o: Outcome<Ref>) {
    Plain(o) && forall fuel: nat :: Eval(oracle, fuel, r) == None || Eval(oracle, fuel, r) == Some(o)
  }

  /** The answers looked up are those of the futures they stand for, and those of the safe futures are there. */
  ghost predicate Knows(oracle: int -> int, env: seq<Ref>, known: Known, safe: set<nat>) {
    && (forall i | i in known :: i < |env| && Only(oracle, env[i], known[i]))
    && (forall i | i in safe :: i in known)
  }

  /** Futures not called yet change nothing. */
  lemma {:induction false} KnowsLonger(
    oracle: int -> int, env: seq<Ref>, known: Known, safe: set<nat>, more: seq<Ref>, next: nat
  )
    requires Knows(oracle, env, known, safe) && next == |env|
    ensures Knows(oracle, env + more, known, safe + Below(|env|, next))
  {
  }

  /** One more answer. */
  lemma {:induction false} KnowsOne(
    oracle: int -> int, env: seq<Ref>, known: Known, safe: set<nat>, n: nat, i: nat, next: nat, o: Outcome<Ref>
  ) returns (known': Known)
    requires Knows(oracle, env, known, safe + Below(n, i)) && n <= i && next == i + 1
    requires i < |env| && Only(oracle, env[i], o)
    ensures known' == known[i := o] && Knows(oracle, env, known', safe + Below(n, next))
  {
    known' := known[i := o];
  }

  // Numbers of futures are passed as variables below, so that no equation between sums has to be found.

  /** The direct answer of a member of a group is the only one of its future. */
  lemma {:induction false} MemberOnly(
    oracle: int -> int, a: Point, known: Known, safe: set<nat>, group: seq<Ref>, j: nat, m: nat
  ) returns (o: Outcome<Ref>)
    requires a.p.Spawn? && group == Siblings(a.p.children, a.env, a.regs) && j < |group| && m == |a.env| + |group|
    requires Structured(a.p.children[j], m, safe) && Knows(oracle, a.env + group, known, safe)
    ensures o == Direct(oracle, a.p.children[j], m, known, [], a.regs) && Only(oracle, group[j], o)
    decreases a.p, 0
  {
    var b := Point(a.p.children[j], a.env + group, [], a.regs);
    o := Direct(oracle, b.p, m, known, b.ops, b.regs);
    forall fuel: nat ensures Eval(oracle, fuel, group[j]) == None || Eval(oracle, fuel, group[j]) == Some(o) {
      assert Start(group[j]) == b;
      if fuel > 0 && Run(oracle, fuel - 1, b).Some? {
        DirectIsRun(oracle, fuel - 1, b, known, safe);
      }
    }
  }

  /** What the check of the program text says of a member of a group. */
  lemma {:induction false} MemberStructured(p: Prog, n: nat, safe: set<nat>, j: nat, i: nat, m: nat)
    requires p.Spawn? && Structured(p, n, safe) && j < |p.children| && i == n + j && m == n + |p.children|
    ensures Structured(p.children[j], m, safe + Below(n, i))
  {
  }

  /** And of what follows the group. */
  lemma {:induction false} NextStructured(p: Prog, n: nat, safe: set<nat>, m: nat)
    requires p.Spawn? && Structured(p, n, safe) && m == n + |p.children|
    ensures Structured(p.next, m, safe + Below(n, m))
  {
  }

  lemma {:induction false} CallFirstStep(
    oracle: int -> int, p: Prog, n: nat, known: Known, regs: Registers, j: nat, k: nat, i: nat, m: nat
  )
    requires p.Spawn? && k == j + 1 <= |p.children| && i == n + j && m == n + |p.children|
    ensures var before := CallFirst(oracle, p, n, known, regs, j);
            CallFirst(oracle, p, n, known, regs, k)
            == before[i := Direct(oracle, p.children[j], m, before, [], regs)]
  {
  }

  /** Calling the members of a group one by one finds the answers of their futures. */
  lemma {:induction false} CallFirstKnows(
    oracle: int -> int, a: Point, known: Known, safe: set<nat>, group: seq<Ref>, k: nat, i: nat, m: nat
  ) returns (known': Known)
    requires a.p.Spawn? && Structured(a.p, |a.env|, safe) && Knows(oracle, a.env, known, safe)
    requires group == Siblings(a.p.children, a.env, a.regs) && m == |a.env| + |a.p.children|
    requires k <= |a.p.children| && i == |a.env| + k
    ensures known' == CallFirst(oracle, a.p, |a.env|, known, a.regs, k)
    ensures Knows(oracle, a.env + group, known', safe + Below(|a.env|, i))
    decreases a.p, 1, k
  {
    if k == 0 {
      KnowsLonger(oracle, a.env, known, safe, group, i);
      known' := known;
    } else {
      var j, i0 := k - 1, i - 1;
      var before := CallFirstKnows(oracle, a, known, safe, group, j, i0, m);
      CallFirstStep(oracle, a.p, |a.env|, known, a.regs, j, k, i0, m);
      MemberStructured(a.p, |a.env|, safe, j, i0, m);
      var o := MemberOnly(oracle, a, before, safe + Below(|a.env|, i0), group, j, m);
      known' := KnowsOne(oracle, a.env + group, before, safe, |a.env|, i0, i, o);
    }
  }

  lemma {:induction false} DirectSpawn(
    oracle: int -> int, p: Prog, n: nat, known: Known, ops: seq<int>, regs: Registers, m: nat
  )
    requires p.Spawn? && m == n + |p.children|
    ensures Direct(oracle, p, n, known, ops, regs)
         == Direct(oracle, p.next, m, CallFirst(oracle, p, n, known, regs, |p.children|), ops, regs)
  {
  }

  lemma {:induction false} SpawnIsRun(oracle: int -> int, fuel: nat, a: Point, known: Known, safe: set<nat>)
    requires a.p.Spawn? && Structured(a.p, |a.env|, safe) && Knows(oracle, a.env, known, safe)
    requires Run(oracle, fuel, a).Some?
    ensures Run(oracle, fuel, a) == Some(Direct(oracle, a.p, |a.env|, known, a.ops, a.regs))
    decreases a.p, 2
  {
    var group, m := Siblings(a.p.children, a.env, a.regs), |a.env| + |a.p.children|;
    var known' := CallFirstKnows(oracle, a, known, safe, group, |a.p.children|, m, m);
    NextStructured(a.p, |a.env|, safe, m);
    DirectSpawn(oracle, a.p, |a.env|, known, a.ops, a.regs, m);
    NextIsRun(oracle, fuel, a, known', safe + Below(|a.env|, m), group, m);
  }

  lemma {:induction false} NextIsRun(
    oracle: int -> int, fuel: nat, a: Point, known: Known, safe: set<nat>, group: seq<Ref>, m: nat
  )
    requires a.p.Spawn? && group == Siblings(a.p.children, a.env, a.regs) && m == |a.env| + |group|
    requires Structured(a.p.next, m, safe) && Knows(oracle, a.env + group, known, safe)
    requires Run(oracle, fuel, a).Some?
    ensures Run(oracle, fuel, a) == Some(Direct(oracle, a.p.next, m, known, a.ops, a.regs))
    decreases a.p, 1
  {
    DirectIsRun(oracle, fuel, Point(a.p.next, a.env + group, a.ops, a.regs), known, safe);
  }

  /** When the evaluator answers a structured program point, it answers as the direct style does. */
  lemma {:induction false} DirectIsRun(oracle: int -> int, fuel: nat, a: Point, known: Known, safe: set<nat>)
    requires Structured(a.p, |a.env|, safe) && Knows(oracle, a.env, known, safe)
    requires Run(oracle, fuel, a).Some?
    ensures Run(oracle, fuel, a) == Some(Direct(oracle, a.p, |a.env|, known, a.ops, a.regs))
    decreases a.p, 3
  {
    match a.p
    case Return(_, _) =>
    case Raise(_) =>
    case Submit(op, next) =>
      DirectIsRun(oracle, fuel, Point(next, a.env, a.ops + [op(a.regs)], a.regs), known, safe);
    case Join(slot, next) =>
      if slot < |a.ops| {
        var b := Point(next, a.env, Remove(a.ops, slot), a.regs + [oracle(a.ops[slot])]);
        DirectIsRun(oracle, fuel, b, known, safe);
      }
    case Spawn(_, _) => SpawnIsRun(oracle, fuel, a, known, safe);
    case Await(fut, _, _) =>
      if fut < |a.env| {
        assert Only(oracle, a.env[fut], known[fut]);
        assert Answer(a, known[fut]).env == a.env;
        DirectIsRun(oracle, fuel, Answer(a, known[fut]), known, safe);
      }
    case If(test, yes, no) =>
      DirectIsRun(oracle, fuel, Point(if test(a.regs) then yes else no, a.env, a.ops, a.regs), known, safe);
  }

  /** A structured program means its direct answer. */
  lemma {:induction false} DirectMeans(oracle: int -> int, root: Prog)
    requires Structured(root, 0, {})
    ensures Means(oracle, Ref(root, [], [], []), Direct(oracle, root, 0, map[], [], []))
  {
    var a := Start(Ref(root, [], [], []));
    assert a == Point(root, [], [], []);
    var m, o := Terminates(oracle, a, {});
    DirectIsRun(oracle, m, a, map[], {});
    assert Eval(oracle, m + 1, Ref(root, [], [], [])) == Run(oracle, m, a);
  }

  // --- Futures and calls -------------------------------------------------------------------------

  /** The same value or the same condition, whatever futures come with it. */
  predicate SameCall(o: Outcome<Ref>, o': Outcome<Ref>) {
    match o
    case Ok(v, _) => o'.Ok? && o'.v == v
    case Err(e) => o' == Err(e)
  }

  /** A program without futures answers as in blocking mode whatever futures it knows. */
  lemma {:induction false} SequentialRun(oracle: int -> int, fuel: nat, a: Point)
    requires Sequential(a.p)
    ensures var o := Run(oracle, fuel, a); o.Some? && SameCall(Blocking(oracle, a.p, a.ops, a.regs), o.value)
    decreases a.p
  {
    match a.p
    case Return(_, _) =>
    case Raise(_) =>
    case Submit(op, next) => SequentialRun(oracle, fuel, Point(next, a.env, a.ops + [op(a.regs)], a.regs));
    case Join(slot, next) =>
      if slot < |a.ops| {
        SequentialRun(oracle, fuel, Point(next, a.env, Remove(a.ops, slot), a.regs + [oracle(a.ops[slot])]));
      }
    case If(test, yes, no) =>
      SequentialRun(oracle, fuel, Point(if test(a.regs) then yes else no, a.env, a.ops, a.regs));
  }

  /** `async` then `await`: one body, and what follows its value or its condition, all without futures. */
  predicate IsCall(p: Prog) {
    && p.Spawn? && |p.children| == 1 && Sequential(p.children[0])
    && p.next.Await? && p.next.fut == 0 && Sequential(p.next.ok) && Sequential(p.next.err)
  }

  /** The call: run the body, then go on with its value, or with its condition in the handler. */
  function CallOutcome(oracle: int -> int, p: Prog): Outcome<Ref>
    requires IsCall(p)
  {
    match Blocking(oracle, p.children[0], [], [])
    case Ok(v, _) => Blocking(oracle, p.next.ok, [], [v])
    case Err(e) => Blocking(oracle, p.next.err, [], [e])
  }

  /** The evaluator goes through an await whose future it has evaluated. */
  lemma {:induction false} AwaitStep(oracle: int -> int, n: nat, a: Point, o: Outcome<Ref>)
    requires Awaiting(a) && Eval(oracle, n, a.env[a.p.fut]) == Some(o)
    ensures Run(oracle, n, a) == Run(oracle, n, Answer(a, o))
  {
  }

  /** The value or the condition of an outcome, as an await delivers it. */
  function Payload(o: Outcome<Ref>): int {
    match o case Ok(v, _) => v case Err(e) => e
  }

  /** Past an await of a body without futures, what follows without futures goes on with its outcome. */
  lemma {:induction false} AwaitSequential(oracle: int -> int, n: nat, a: Point, o: Outcome<Ref>)
    returns (x: Outcome<Ref>)
    requires Awaiting(a) && Eval(oracle, n, a.env[a.p.fut]) == Some(o)
    requires Sequential(a.p.ok) && Sequential(a.p.err)
    ensures Run(oracle, n, a) == Some(x)
    ensures SameCall(Blocking(oracle, if o.Ok? then a.p.ok else a.p.err, a.ops, a.regs + [Payload(o)]), x)
  {
    AwaitStep(oracle, n, a, o);
    SequentialRun(oracle, n, Answer(a, o));
    x := Run(oracle, n, Answer(a, o)).value;
  }

  lemma {:induction false} BodyMeans(oracle: int -> int, n: nat, r: Ref) returns (o: Outcome<Ref>)
    requires Sequential(r.self) && n > 0
    ensures Eval(oracle, n, r) == Some(o) && SameCall(Blocking(oracle, r.self, [], r.regs), o)
  {
    SequentialRun(oracle, n - 1, Start(r));
    o := Eval(oracle, n, r).value;
  }

  /** A program that starts with a spawn means what follows the spawn. */
  lemma {:induction false} RootSpawns(oracle: int -> int, n: nat, p: Prog, o: Outcome<Ref>)
    requires p.Spawn? && Run(oracle, n, Point(p.next, Siblings(p.children, [], []), [], [])) == Some(o)
    ensures Means(oracle, Ref(p, [], [], []), o)
  {
    var r := Ref(p, [], [], []);
    assert Start(r) == Point(p, [], [], []);
    assert [] + Siblings(p.children, [], []) == Siblings(p.children, [], []);
    assert Eval(oracle, n + 1, r) == Some(o);
  }

  /** `async` then `await` is a call. */
  lemma {:induction false} AsyncAwaitIsCall(oracle: int -> int, p: Prog) returns (o: Outcome<Ref>)
    requires IsCall(p)
    ensures Means(oracle, Ref(p, [], [], []), o) && SameCall(CallOutcome(oracle, p), o)
  {
    var group := Siblings(p.children, [], []);
    var a := Point(p.next, group, [], []);
    var x := BodyMeans(oracle, 1, group[0]);
    o := AwaitSequential(oracle, 1, a, x);
    assert a.regs + [Payload(x)] == [Payload(x)];
    RootSpawns(oracle, 1, p, o);
  }

  /**
    A fiber makes a future and returns it unawaited; whoever awaits the fiber then awaits the future
    it was handed.
   */
  predicate IsHandOver(p: Prog) {
    && p.Spawn? && |p.children| == 1 && p.next.Await? && p.next.fut == 0
    && (var maker := p.children[0];
        maker.Spawn? && |maker.children| == 1 && Sequential(maker.children[0])
        && maker.next.Return? && maker.next.give == [1])
    && p.next.ok.Await? && p.next.ok.fut == 1 && Sequential(p.next.ok.ok) && Sequential(p.next.ok.err)
  }

  /** The maker's own value, then the outcome of the body it made. */
  function HandOverOutcome(oracle: int -> int, p: Prog): Outcome<Ref>
    requires IsHandOver(p)
  {
    var made := p.children[0].next.result([]);
    match Blocking(oracle, p.children[0].children[0], [], [])
    case Ok(v, _) => Blocking(oracle, p.next.ok.ok, [], [made, v])
    case Err(e) => Blocking(oracle, p.next.ok.err, [], [made, e])
  }

  lemma {:induction false} MakerMeans(oracle: int -> int, outer: seq<Ref>, maker: Prog)
    requires maker.Spawn? && |maker.children| == 1 && maker.next.Return? && maker.next.give == [1]
    requires outer == Siblings([maker], [], [])
    ensures Eval(oracle, 2, outer[0]) == Some(Ok(maker.next.result([]), [Siblings(maker.children, outer, [])[0]]))
  {
    var inner := Siblings(maker.children, outer, []);
    assert [] + outer == outer;
    assert Start(outer[0]) == Point(maker, outer, [], []);
    assert Pick(outer + inner, [1]) == [inner[0]];
    assert Run(oracle, 1, Start(outer[0])) == Run(oracle, 1, Point(maker.next, outer + inner, [], []));
  }

  /** Past the first await the program knows the maker and the future it made. */
  lemma {:induction false} HandOverNext(oracle: int -> int, p: Prog, outer: seq<Ref>, inner: seq<Ref>)
    requires IsHandOver(p) && outer == Siblings(p.children, [], [])
    requires inner == Siblings(p.children[0].children, outer, [])
    ensures Run(oracle, 2, Point(p.next, outer, [], []))
         == Run(oracle, 2, Point(p.next.ok, [outer[0], inner[0]], [], [p.children[0].next.result([])]))
  {
    var maker := p.children[0];
    assert p.children == [maker];
    MakerMeans(oracle, outer, maker);
    var a, made := Point(p.next, outer, [], []), Ok(maker.next.result([]), [inner[0]]);
    AwaitStep(oracle, 2, a, made);
    assert Answer(a, made).env == [outer[0], inner[0]] && Answer(a, made).regs == [made.v];
  }

  /** The future handed out is the one that was made. */
  lemma {:induction false} HandOverIsCall(oracle: int -> int, p: Prog) returns (o: Outcome<Ref>)
    requires IsHandOver(p)
    ensures Means(oracle, Ref(p, [], [], []), o) && SameCall(HandOverOutcome(oracle, p), o)
  {
    var outer := Siblings(p.children, [], []);
    var inner := Siblings(p.children[0].children, outer, []);
    var b := Point(p.next.ok, [outer[0], inner[0]], [], [p.children[0].next.result([])]);
    HandOverNext(oracle, p, outer, inner);
    var x := BodyMeans(oracle, 2, inner[0]);
    o := AwaitSequential(oracle, 2, b, x);
    assert b.regs + [Payload(x)] == [p.children[0].next.result([]), Payload(x)];
    RootSpawns(oracle, 2, p, o);
  }

  // --- Structured programs are common ------------------------------------------------------------

  /** A program that hands out no futures. */
  predicate Keeps(p: Prog) {
    match p
    case Return(_, give) => give == []
    case Raise(_) => true
    case Submit(_, next) => Keeps(next)
    case Join(_, next) => Keeps(next)
    case Spawn(children, next) => (forall i | 0 <= i < |children| :: Keeps(children[i])) && Keeps(next)
    case Await(_, ok, err) => Keeps(ok) && Keeps(err)
    case If(_, yes, no) => Keeps(yes) && Keeps(no)
  }

  lemma {:induction false} SequentialStructured(p: Prog, n: nat, safe: set<nat>)
    requires Sequential(p) && Keeps(p)
    ensures Structured(p, n, safe)
  {
    match p
    case Return(_, _) =>
    case Raise(_) =>
    case Submit(_, next) => SequentialStructured(next, n, safe);
    case Join(_, next) => SequentialStructured(next, n, safe);
    case If(_, yes, no) =>
      SequentialStructured(yes, n, safe);
      SequentialStructured(no, n, safe);
  }

  /** Calls are structured, so their direct answer is the call's. */
  lemma {:induction false} CallStructured(p: Prog)
    requires IsCall(p) && Keeps(p)
    ensures Structured(p, 0, {})
  {
    SequentialStructured(p.children[0], 1, {} + Below(0, 0));
    SequentialStructured(p.next.ok, 1, {} + Below(0, 1));
    SequentialStructured(p.next.err, 1, {} + Below(0, 1));
    assert 0 in {} + Below(0, 1);
  }
}
