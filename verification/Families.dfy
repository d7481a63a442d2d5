/**
  The fibers a program will ever make, told without a scheduler.

  The reference evaluator reads `async` as "make a closure". `Made` lists the closures made on the way,
  and a fiber is named by its path: which child it is of which fiber, from the root on. A program is
  structured when a fiber awaits only futures that come before it in the order children, earlier
  siblings, parent; then every fiber has a meaning.
 */
module Families {
  import opened Common
  import opened Fibers

  /** A point with a next point that depends on no other fiber. */
  predicate Local(a: Point) {
    a.p.Submit? || a.p.Spawn? || a.p.If? || (a.p.Join? && a.p.slot < |a.ops|)
  }

  predicate Awaiting(a: Point) { a.p.Await? && a.p.fut < |a.env| }

  /** The closures made by one step, in order. */
  function MadeHere(a: Point): seq<Ref> {
    if a.p.Spawn? then Siblings(a.p.children, a.env, a.regs) else []
  }

  /** The closures made from a point on, in order, as far as awaits are answered with the given fuel. */
  function Made(oracle: int -> int, n: nat, a: Point): seq<Ref>
    decreases a.p
  {
    if Local(a) then MadeHere(a) + Made(oracle, n, LocalStep(oracle, a))
    else if Awaiting(a) then
      match Eval(oracle, n, a.env[a.p.fut])
      case None => []
      case Some(o) => Made(oracle, n, Answer(a, o))
    else []
  }

  /** The closure of the fiber with the given path: child by child from the root on. */
  function FiberAt(oracle: int -> int, n: nat, root: Ref, path: seq<nat>): Option<Ref> {
    if path == [] then Some(root) else
    var last := |path| - 1;
    match FiberAt(oracle, n, root, path[..last])
    case None => None
    case Some(parent) =>
      var made := Made(oracle, n, Start(parent));
      if path[last] < |made| then Some(made[path[last]]) else None
  }

  /** The program has a fiber with this path and this closure. */
  ghost predicate Fiber(oracle: int -> int, root: Ref, path: seq<nat>, r: Ref) {
    exists n: nat :: FiberAt(oracle, n, root, path) == Some(r)
  }

  /** `r` is the closure of a fiber of the program. */
  ghost predicate Kin(oracle: int -> int, root: Ref, r: Ref) {
    exists path :: Fiber(oracle, root, path, r)
  }

  // --- Fuel --------------------------------------------------------------------------------------

  lemma {:induction false} MadeMonotone(oracle: int -> int, m: nat, n: nat, a: Point)
    requires m <= n
    ensures Made(oracle, m, a) <= Made(oracle, n, a)
    decreases a.p
  {
    if Local(a) {
      MadeMonotone(oracle, m, n, LocalStep(oracle, a));
    } else if Awaiting(a) && Eval(oracle, m, a.env[a.p.fut]).Some? {
      EvalMonotone(oracle, m, n, a.env[a.p.fut]);
      MadeMonotone(oracle, m, n, Answer(a, Eval(oracle, m, a.env[a.p.fut]).value));
    }
  }

  lemma {:induction false} ParentOf(oracle: int -> int, n: nat, root: Ref, path: seq<nat>, r: Ref) returns (parent: Ref)
    requires path != [] && FiberAt(oracle, n, root, path) == Some(r)
    ensures FiberAt(oracle, n, root, path[..|path| - 1]) == Some(parent)
    ensures var made, j := Made(oracle, n, Start(parent)), path[|path| - 1]; j < |made| && made[j] == r
  {
    parent := FiberAt(oracle, n, root, path[..|path| - 1]).value;
  }

  lemma {:induction false} ChildAt(oracle: int -> int, n: nat, root: Ref, path: seq<nat>, parent: Ref, j: nat)
    requires FiberAt(oracle, n, root, path) == Some(parent) && j < |Made(oracle, n, Start(parent))|
    ensures FiberAt(oracle, n, root, path + [j]) == Some(Made(oracle, n, Start(parent))[j])
  {
    assert (path + [j])[..|path|] == path;
  }

  lemma {:induction false} FiberMonotone(oracle: int -> int, m: nat, n: nat, root: Ref, path: seq<nat>, r: Ref)
    requires m <= n && FiberAt(oracle, m, root, path) == Some(r)
    ensures FiberAt(oracle, n, root, path) == Some(r)
    decreases |path|
  {
    if path != [] {
      var last := |path| - 1;
      var parent := ParentOf(oracle, m, root, path, r);
      FiberMonotone(oracle, m, n, root, path[..last], parent);
      MadeMonotone(oracle, m, n, Start(parent));
      ChildAt(oracle, n, root, path[..last], parent, path[last]);
      assert path == path[..last] + [path[last]];
    }
  }

  /** A path names at most one closure. */
  lemma {:induction false} FiberUnique(oracle: int -> int, root: Ref, path: seq<nat>, r: Ref, r': Ref)
    requires Fiber(oracle, root, path, r) && Fiber(oracle, root, path, r')
    ensures r == r'
  {
    var m: nat :| FiberAt(oracle, m, root, path) == Some(r);
    var n: nat :| FiberAt(oracle, n, root, path) == Some(r');
    if m <= n {
      FiberMonotone(oracle, m, n, root, path, r);
    } else {
      FiberMonotone(oracle, n, m, root, path, r');
    }
  }

  /** With enough fuel, answering an await with the meaning of its future changes nothing about what is made. */
  lemma {:induction false} MadeByAnswer(oracle: int -> int, a: Point, o: Outcome<Ref>) returns (k: nat)
    requires Awaiting(a) && Means(oracle, a.env[a.p.fut], o)
    ensures forall n: nat | n >= k :: Made(oracle, n, a) == Made(oracle, n, Answer(a, o))
  {
    var r := a.env[a.p.fut];
    k :| Eval(oracle, k, r) == Some(o);
    forall n: nat | n >= k ensures Made(oracle, n, a) == Made(oracle, n, Answer(a, o)) {
      EvalMonotone(oracle, k, n, r);
    }
  }

  // --- Structured programs -----------------------------------------------------------------------

  function Below(lo: nat, hi: nat): (r: set<nat>)
    ensures forall i :: i in r <==> lo <= i < hi
  {
    if lo >= hi then {} else Below(lo, hi - 1) + {hi - 1}
  }

  /**
    With `n` futures known, those in `safe` come before this fiber: a child may await what its parent
    may await and its earlier siblings, a parent also its children. No futures are handed out.
   */
  predicate Structured(p: Prog, n: nat, safe: set<nat>) {
    match p
    case Return(_, give) => give == []
    case Raise(_) => true
    case Submit(_, next) => Structured(next, n, safe)
    case Join(_, next) => Structured(next, n, safe)
    case Spawn(children, next) =>
      && (forall i | 0 <= i < |children| ::
            Structured(children[i], n + |children|, safe + Below(n, n + i)))
      && Structured(next, n + |children|, safe + Below(n, n + |children|))
    case Await(fut, ok, err) => (fut < n ==> fut in safe) && Structured(ok, n, safe) && Structured(err, n, safe)
    case If(_, yes, no) => Structured(yes, n, safe) && Structured(no, n, safe)
  }

  /** An outcome that hands out no futures. */
  predicate Plain(o: Outcome<Ref>) { o.Ok? ==> o.futs == [] }

  /** The future has a meaning that hands out no futures. */
  ghost predicate Good(oracle: int -> int, r: Ref) {
    exists o :: Plain(o) && Means(oracle, r, o)
  }

  ghost predicate GoodAll(oracle: int -> int, env: seq<Ref>, safe: set<nat>) {
    forall i | i in safe :: i < |env| && Good(oracle, env[i])
  }

  /** A point of a structured program whose safe futures are good. */
  ghost predicate WellPlaced(oracle: int -> int, a: Point, safe: set<nat>) {
    Structured(a.p, |a.env|, safe) && GoodAll(oracle, a.env, safe)
  }

  lemma {:induction false} GoodMore(oracle: int -> int, env: seq<Ref>, safe: set<nat>, more: seq<Ref>, k: nat)
    requires GoodAll(oracle, env, safe) && k <= |more| && forall i | 0 <= i < k :: Good(oracle, more[i])
    ensures GoodAll(oracle, env + more, safe + Below(|env|, |env| + k))
  {
    forall i | i in safe + Below(|env|, |env| + k) ensures i < |env + more| && Good(oracle, (env + more)[i]) {
      if i in safe {
        assert (env + more)[i] == env[i];
      } else {
        assert (env + more)[i] == more[i - |env|];
      }
    }
  }

  /** The i-th child is well placed once its earlier siblings are good. */
  lemma {:induction false} ChildPlaced(oracle: int -> int, a: Point, safe: set<nat>, i: nat)
    requires a.p.Spawn? && WellPlaced(oracle, a, safe) && i < |a.p.children|
    requires forall j | 0 <= j < i :: Good(oracle, Siblings(a.p.children, a.env, a.regs)[j])
    ensures WellPlaced(oracle, Start(Siblings(a.p.children, a.env, a.regs)[i]), safe + Below(|a.env|, |a.env| + i))
  {
    var group := Siblings(a.p.children, a.env, a.regs);
    GoodMore(oracle, a.env, safe, group, i);
    assert Start(group[i]) == Point(a.p.children[i], a.env + group, [], a.regs);
    assert Structured(a.p.children[i], |a.env| + |a.p.children|, safe + Below(|a.env|, |a.env| + i));
  }

  lemma {:induction false} GoodBy(oracle: int -> int, r: Ref, n: nat, o: Outcome<Ref>)
    requires Run(oracle, n, Start(r)) == Some(o) && Plain(o)
    ensures Good(oracle, r)
  {
    assert Eval(oracle, n + 1, r) == Some(o);
  }

  lemma {:induction false} ChildGood(oracle: int -> int, a: Point, safe: set<nat>, group: seq<Ref>, i: nat)
    requires a.p.Spawn? && WellPlaced(oracle, a, safe) && group == Siblings(a.p.children, a.env, a.regs) && i < |group|
    requires forall j | 0 <= j < i :: Good(oracle, group[j])
    ensures Good(oracle, group[i])
    decreases a.p, 1, 0
  {
    ChildPlaced(oracle, a, safe, i);
    var n, o := Terminates(oracle, Start(group[i]), safe + Below(|a.env|, |a.env| + i));
    GoodBy(oracle, group[i], n, o);
  }

  /** The children of a well placed spawn are good, first to last. */
  lemma {:induction false} ChildrenGood(oracle: int -> int, a: Point, safe: set<nat>, group: seq<Ref>, k: nat)
    requires a.p.Spawn? && WellPlaced(oracle, a, safe) && group == Siblings(a.p.children, a.env, a.regs) && k <= |group|
    ensures forall i | 0 <= i < k :: Good(oracle, group[i])
    decreases a.p, 1, k
  {
    if k > 0 {
      ChildrenGood(oracle, a, safe, group, k - 1);
      ChildGood(oracle, a, safe, group, k - 1);
    }
  }

  /** The next point of a well placed local step is well placed. */
  lemma {:induction false} LocalPlaced(oracle: int -> int, a: Point, safe: set<nat>) returns (safe': set<nat>)
    requires Local(a) && WellPlaced(oracle, a, safe)
    requires a.p.Spawn? ==> forall i | 0 <= i < |a.p.children| :: Good(oracle, Siblings(a.p.children, a.env, a.regs)[i])
    ensures WellPlaced(oracle, LocalStep(oracle, a), safe')
  {
    safe' := safe;
    if a.p.Spawn? {
      var group := Siblings(a.p.children, a.env, a.regs);
      GoodMore(oracle, a.env, safe, group, |group|);
      safe' := safe + Below(|a.env|, |a.env| + |group|);
    }
  }

  /** So is the point after an await, whose answer hands out nothing. */
  lemma {:induction false} AnswerPlaced(oracle: int -> int, a: Point, safe: set<nat>, o: Outcome<Ref>)
    requires Awaiting(a) && WellPlaced(oracle, a, safe) && Plain(o)
    ensures WellPlaced(oracle, Answer(a, o), safe)
  {
    assert Answer(a, o).env == a.env;
  }

  /** A well placed point runs to its end. */
  lemma {:induction false} Terminates(oracle: int -> int, a: Point, safe: set<nat>) returns (n: nat, o: Outcome<Ref>)
    requires WellPlaced(oracle, a, safe)
    ensures Run(oracle, n, a) == Some(o) && Plain(o)
    decreases a.p, 2
  {
    if Local(a) {
      if a.p.Spawn? {
        ChildrenGood(oracle, a, safe, Siblings(a.p.children, a.env, a.regs), |a.p.children|);
      }
      var safe' := LocalPlaced(oracle, a, safe);
      n, o := Terminates(oracle, LocalStep(oracle, a), safe');
    } else if Awaiting(a) {
      n, o := AwaitTerminates(oracle, a, safe);
    } else {
      n := 0;
      o := Run(oracle, 0, a).value;
    }
  }

  lemma {:induction false} AwaitTerminates(oracle: int -> int, a: Point, safe: set<nat>)
    returns (n: nat, o: Outcome<Ref>)
    requires Awaiting(a) && WellPlaced(oracle, a, safe)
    ensures Run(oracle, n, a) == Some(o) && Plain(o)
    decreases a.p, 1
  {
    var r := a.env[a.p.fut];
    var x :| Plain(x) && Means(oracle, r, x);
    var k: nat :| Eval(oracle, k, r) == Some(x);
    AnswerPlaced(oracle, a, safe, x);
    var m;
    m, o := Terminates(oracle, Answer(a, x), safe);
    n := if k <= m then m else k;
    EvalMonotone(oracle, k, n, r);
    RunMonotone(oracle, m, n, Answer(a, x));
  }

  /** Every closure made from a well placed point starts well placed. */
  lemma {:induction false} MadePlaced(oracle: int -> int, n: nat, a: Point, safe: set<nat>, r: Ref)
    returns (safe': set<nat>)
    requires WellPlaced(oracle, a, safe) && r in Made(oracle, n, a)
    ensures WellPlaced(oracle, Start(r), safe')
    decreases a.p
  {
    if Local(a) {
      if a.p.Spawn? {
        ChildrenGood(oracle, a, safe, Siblings(a.p.children, a.env, a.regs), |a.p.children|);
      }
      if r in MadeHere(a) {
        var i :| 0 <= i < |a.p.children| && Siblings(a.p.children, a.env, a.regs)[i] == r;
        ChildPlaced(oracle, a, safe, i);
        safe' := safe + Below(|a.env|, |a.env| + i);
      } else {
        var next := LocalPlaced(oracle, a, safe);
        safe' := MadePlaced(oracle, n, LocalStep(oracle, a), next, r);
      }
    } else {
      var x :| Plain(x) && Means(oracle, a.env[a.p.fut], x);
      var o := Eval(oracle, n, a.env[a.p.fut]).value;
      MeansUnique(oracle, a.env[a.p.fut], x, o);
      AnswerPlaced(oracle, a, safe, o);
      safe' := MadePlaced(oracle, n, Answer(a, o), safe, r);
    }
  }

  lemma {:induction false} FiberPlaced(oracle: int -> int, n: nat, root: Ref, safe: set<nat>, path: seq<nat>, r: Ref)
    returns (safe': set<nat>)
    requires WellPlaced(oracle, Start(root), safe) && FiberAt(oracle, n, root, path) == Some(r)
    ensures WellPlaced(oracle, Start(r), safe')
    decreases |path|
  {
    if path == [] {
      safe' := safe;
    } else {
      var parent := ParentOf(oracle, n, root, path, r);
      var mid := FiberPlaced(oracle, n, root, safe, path[..|path| - 1], parent);
      safe' := MadePlaced(oracle, n, Start(parent), mid, r);
    }
  }

  /** Every fiber of a structured program has a meaning. */
  lemma {:induction false} StructuredMeans(oracle: int -> int, root: Prog, r: Ref)
    requires Structured(root, 0, {}) && Kin(oracle, Ref(root, [], [], []), r)
    ensures !Diverges(oracle, r)
  {
    var root' := Ref(root, [], [], []);
    var path :| Fiber(oracle, root', path, r);
    var n: nat :| FiberAt(oracle, n, root', path) == Some(r);
    assert Start(root').env == [];
    var safe := FiberPlaced(oracle, n, root', {}, path, r);
    var m, o := Terminates(oracle, Start(r), safe);
    assert Eval(oracle, m + 1, r) == Some(o);
  }
}
