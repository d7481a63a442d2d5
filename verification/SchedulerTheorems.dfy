/** What the scheduler promises, over every run. */
module SchedulerTheorems {
  import opened Common
  import opened Fibers
  import opened SchedulerSpec
  import opened SchedulerInvariant
  import opened SchedulerSteps

  lemma {:induction false} AfterSnoc(oracle: int -> int, root: Prog, run: seq<Event>, e: Event)
    requires After(oracle, root, run).Some? && Enabled(After(oracle, root, run).value, e)
    ensures After(oracle, root, run + [e]) == Some(Next(oracle, After(oracle, root, run).value, e))
  {
    assert (run + [e])[..|run|] == run;
  }

  // --- No fiber is lost or duplicated ------------------------------------------------------------

  /** One position in the scheduler's data that can hold a continuation. */
  datatype Spot = InQueue(i: nat) | UnderTask(h: Handle) | UnderFuture(g: FutId, j: nat) | IsRunning

  predicate At(s: State, f: FutId, spot: Spot) {
    match spot
    case InQueue(i) => i < |s.queue| && s.queue[i].fib == f
    case UnderTask(h) => h in s.waiters && s.waiters[h].fib == f
    case UnderFuture(g, j) => g < |s.futs| && j < |s.futs[g].waiters| && s.futs[g].waiters[j].fib == f
    case IsRunning => s.running.Some? && s.running.value.fib == f
  }

  lemma SpotExists(s: State, ps: seq<Place>, f: FutId) returns (spot: Spot)
    requires Agree(s, ps) && f < |ps| && s.futs[f].st.None?
    ensures At(s, f, spot)
  {
    match ps[f]
    case Ready(_, _) =>
      assert Among(s.queue, f);
      var i :| 0 <= i < |s.queue| && s.queue[i].fib == f;
      spot := InQueue(i);
    case OnTask(h, _) => spot := UnderTask(h);
    case OnFuture(g, fr) =>
      var j :| 0 <= j < |s.futs[g].waiters| && s.futs[g].waiters[j] == Wake(f, fr);
      spot := UnderFuture(g, j);
    case Active(_) => spot := IsRunning;
  }

  lemma SpotUnique(s: State, ps: seq<Place>, f: FutId, a: Spot, b: Spot)
    requires Agree(s, ps) && At(s, f, a) && At(s, f, b)
    ensures a == b && f < |s.futs| && s.futs[f].st.None?
  {
    assert a.UnderFuture? ==> WaitersAgree(s.futs[a.g].waiters, a.g, ps);
    assert b.UnderFuture? ==> WaitersAgree(s.futs[b.g].waiters, b.g, ps);
  }

  /**
    In every reachable state an unsettled fiber has its continuation in exactly one position of the
    ready queue, the task table, the waiter lists or the running slot; a settled fiber has none.
   */
  lemma {:induction false} NoFiberLost(oracle: int -> int, root: Prog, run: seq<Event>, f: FutId)
    requires After(oracle, root, run).Some? && f < |After(oracle, root, run).value.futs|
    ensures var s := After(oracle, root, run).value;
            && (s.futs[f].st.None? <==> exists spot :: At(s, f, spot))
            && (forall a, b | At(s, f, a) && At(s, f, b) :: a == b)
  {
    var s := After(oracle, root, run).value;
    var L := RunKeeps(oracle, root, run);
    if s.futs[f].st.None? {
      var spot := SpotExists(s, L.places, f);
    }
    forall a, b | At(s, f, a) && At(s, f, b) ensures a == b && s.futs[f].st.None? {
      SpotUnique(s, L.places, f, a, b);
    }
  }

  /** Every fiber that was somewhere is still somewhere. */
  ghost predicate NobodyDropped(s: State, s': State) {
    forall f, spot | At(s, f, spot) :: Somewhere(s', f)
  }

  ghost predicate Somewhere(s: State, f: FutId) { exists spot :: At(s, f, spot) }

  lemma ParkKeepsSpot(s: State, f: FutId, fr: Frame, g: FutId, spot: Spot)
    requires s.running == Some(Wake(f, fr)) && AtTask(fr) && fr.outs[fr.p.slot].h !in s.completed
    requires At(s, g, spot) && spot != UnderTask(fr.outs[fr.p.slot].h)
    ensures Somewhere(AwaitTask(s, f, fr), g)
  {
    var s', h := AwaitTask(s, f, fr), fr.outs[fr.p.slot].h;
    assert At(s', g, if spot.IsRunning? then UnderTask(h) else spot);
  }

  lemma OverwrittenIsDropped(s: State, ps: seq<Place>, f: FutId, fr: Frame)
    requires Agree(s, ps) && s.running == Some(Wake(f, fr)) && AtTask(fr) && fr.outs[fr.p.slot].h !in s.completed
    requires fr.outs[fr.p.slot].h in s.waiters
    ensures !NobodyDropped(s, AwaitTask(s, f, fr))
  {
    var s', h := AwaitTask(s, f, fr), fr.outs[fr.p.slot].h;
    var g := s.waiters[h].fib;
    assert At(s, g, UnderTask(h)) && At(s, f, IsRunning);
    forall spot ensures !At(s', g, spot) {
      if At(s, g, spot) {
        SpotUnique(s, ps, g, spot, UnderTask(h));
      }
      if g == f {
        SpotUnique(s, ps, g, IsRunning, UnderTask(h));
      }
    }
    assert !Somewhere(s', g);
  }

  /**
    Why a handle may be awaited once: parking under a handle keeps every fiber exactly when nobody is
    parked there. A second await of one handle would drop the first fiber.
   */
  lemma OneAwaitExact(s: State, ps: seq<Place>, f: FutId, fr: Frame)
    requires Agree(s, ps) && s.running == Some(Wake(f, fr)) && AtTask(fr) && fr.outs[fr.p.slot].h !in s.completed
    ensures NobodyDropped(s, AwaitTask(s, f, fr)) <==> fr.outs[fr.p.slot].h !in s.waiters
  {
    if fr.outs[fr.p.slot].h in s.waiters {
      OverwrittenIsDropped(s, ps, f, fr);
    } else {
      forall g, spot | At(s, g, spot) ensures Somewhere(AwaitTask(s, f, fr), g) {
        ParkKeepsSpot(s, f, fr, g, spot);
      }
    }
  }

  /** A state in order in which two fibers share a handle: fiber 0 is parked under it, fiber 1 runs. */
  lemma SecondAwaitExample() returns (s: State, ps: seq<Place>, fr: Frame)
    ensures Agree(s, ps) && s.running == Some(Wake(1, fr)) && AtTask(fr) && fr.outs[fr.p.slot].h !in s.completed
    ensures fr.outs[fr.p.slot].h in s.waiters && s.waiters[fr.outs[fr.p.slot].h].fib == 0
    ensures !NobodyDropped(s, AwaitTask(s, 1, fr))
  {
    var p := Join(0, Return(_ => 0, []));
    fr := Frame(p, [], [Sub(5, 0)], []);
    var fut := Fut(RootRef(p), None, []);
    s := State([fut, fut], [], Some(Wake(1, fr)), map[5 := Wake(0, fr)], map[], {5}, map[5 := 0]);
    ps := [OnTask(5, fr), Active(fr)];
    OneAwaitExact(s, ps, 1, fr);
  }

  // --- Handles -----------------------------------------------------------------------------------

  /** Queued resumptions and stashed results carry the result of the submission they answer. */
  ghost predicate OwnResults(oracle: int -> int, s: State) {
    && (forall i | 0 <= i < |s.queue| && s.queue[i].value.Some? ::
          var fr := s.queue[i].frame;
          && AtTask(fr) && s.queue[i].value.value == oracle(fr.outs[fr.p.slot].op)
          && fr.outs[fr.p.slot].h in s.live)
    && (s.running.Some? ==>
          var fr := s.running.value.frame;
          forall i | 0 <= i < |fr.outs| && fr.outs[i].h in s.completed ::
            s.completed[fr.outs[i].h] == oracle(fr.outs[i].op))
  }

  lemma QueueResults(oracle: int -> int, s: State, L: Ledger, i: nat)
    requires Inv(oracle, s, L) && i < |s.queue| && s.queue[i].value.Some?
    ensures var fr := s.queue[i].frame;
            && AtTask(fr) && s.queue[i].value.value == oracle(fr.outs[fr.p.slot].op)
            && fr.outs[fr.p.slot].h in s.live
  {
    assert FiberOk(oracle, s, L, s.queue[i].fib);
  }

  lemma RunningResults(oracle: int -> int, s: State, L: Ledger, i: nat)
    requires Inv(oracle, s, L) && s.running.Some? && i < |s.running.value.frame.outs|
    requires s.running.value.frame.outs[i].h in s.completed
    ensures var sub := s.running.value.frame.outs[i]; s.completed[sub.h] == oracle(sub.op)
  {
    assert FiberOk(oracle, s, L, s.running.value.fib);
  }

  lemma WaitersInFlight(oracle: int -> int, s: State, L: Ledger)
    requires Inv(oracle, s, L)
    ensures s.waiters.Keys <= s.inflight
  {
    forall h | h in s.waiters ensures h in s.inflight {
      assert FiberOk(oracle, s, L, s.waiters[h].fib);
    }
  }

  /**
    Handle reuse is harmless: although the allocator may return any dead handle, the tables only
    name live tasks, a handle is never in both tables, and no await gets another task's result.
   */
  lemma {:induction false} HandleReuse(oracle: int -> int, root: Prog, run: seq<Event>)
    requires After(oracle, root, run).Some?
    ensures var s := After(oracle, root, run).value;
            && s.waiters.Keys <= s.inflight <= s.live.Keys
            && s.completed.Keys <= s.live.Keys
            && s.completed.Keys !! s.inflight
            && OwnResults(oracle, s)
            && (forall h | h in s.completed :: s.completed[h] == oracle(s.live[h]))
  {
    var s := After(oracle, root, run).value;
    var L := RunKeeps(oracle, root, run);
    WaitersInFlight(oracle, s, L);
    forall i | 0 <= i < |s.queue| && s.queue[i].value.Some?
      ensures var fr := s.queue[i].frame;
              && AtTask(fr) && s.queue[i].value.value == oracle(fr.outs[fr.p.slot].op)
              && fr.outs[fr.p.slot].h in s.live
    {
      QueueResults(oracle, s, L, i);
    }
    if s.running.Some? {
      var fr := s.running.value.frame;
      forall i | 0 <= i < |fr.outs| && fr.outs[i].h in s.completed
        ensures s.completed[fr.outs[i].h] == oracle(fr.outs[i].op)
      {
        RunningResults(oracle, s, L, i);
      }
    }
  }

  // --- Determinacy -------------------------------------------------------------------------------

  /** A settled fiber has the outcome its program means. */
  lemma {:induction false} SettledMeans(oracle: int -> int, root: Prog, run: seq<Event>, f: FutId)
    requires After(oracle, root, run).Some? && f < |After(oracle, root, run).value.futs|
    requires After(oracle, root, run).value.futs[f].st.Some?
    ensures var s := After(oracle, root, run).value;
            OutcomeIds(s, s.futs[f].st.value)
            && Means(oracle, s.futs[f].code, OutcomeOf(s.futs, s.futs[f].st.value))
  {
    var L := RunKeeps(oracle, root, run);
    assert SettledOk(oracle, After(oracle, root, run).value, f);
  }

  /** A future keeps its code; unless it is the running one, it keeps its state and at most gains a waiter. */
  ghost predicate FutKept(s: State, s': State, g: FutId) {
    && g < |s.futs| && g < |s'.futs| && s'.futs[g].code == s.futs[g].code
    && (!At(s, g, IsRunning) ==>
          && s'.futs[g].st == s.futs[g].st
          && (s'.futs[g].waiters == s.futs[g].waiters
              || (|s'.futs[g].waiters| > 0 && s'.futs[g].waiters[1..] == s.futs[g].waiters)))
  }

  lemma AwaitedKept(s: State, f: FutId, fr: Frame, g: FutId)
    requires AtFuture(fr) && fr.env[fr.p.fut] < |s.futs| && g < |s.futs|
    ensures FutKept(s, AwaitFuture(s, f, fr), g)
  {
    var s' := AwaitFuture(s, f, fr);
    if s.futs[fr.env[fr.p.fut]].st.None? && g == fr.env[fr.p.fut] {
      assert s'.futs[g].waiters[1..] == s.futs[g].waiters;
    }
  }

  lemma FutureKept(oracle: int -> int, s: State, e: Event, g: FutId)
    requires Enabled(s, e) && g < |s.futs|
    ensures FutKept(s, Next(oracle, s, e), g)
  {
    if e.Exec? && AtFuture(s.running.value.frame) {
      AwaitedKept(s, s.running.value.fib, s.running.value.frame, g);
    }
  }

  lemma {:induction false} RootKeepsCode(oracle: int -> int, root: Prog, run: seq<Event>)
    requires After(oracle, root, run).Some?
    ensures var s := After(oracle, root, run).value; |s.futs| > 0 && s.futs[ROOT].code == RootRef(root)
    decreases |run|
  {
    if run != [] {
      var last := |run| - 1;
      RootKeepsCode(oracle, root, run[..last]);
      FutureKept(oracle, After(oracle, root, run[..last]).value, run[last], ROOT);
    }
  }

  /** Whatever the arrival order and the handles, all runs that settle the root agree on its outcome. */
  lemma {:induction false} Determinacy(oracle: int -> int, root: Prog, run: seq<Event>, run': seq<Event>)
    requires After(oracle, root, run).Some? && After(oracle, root, run').Some?
    requires var s, s' := After(oracle, root, run).value, After(oracle, root, run').value;
             |s.futs| > 0 && |s'.futs| > 0 && s.futs[ROOT].st.Some? && s'.futs[ROOT].st.Some?
    ensures var o, o' := After(oracle, root, run).value.futs[ROOT].st.value,
              After(oracle, root, run').value.futs[ROOT].st.value;
            (o.Ok? && o'.Ok? && o.v == o'.v) || (o.Err? && o == o')
  {
    var s, s' := After(oracle, root, run).value, After(oracle, root, run').value;
    SettledMeans(oracle, root, run, ROOT);
    SettledMeans(oracle, root, run', ROOT);
    RootKeepsCode(oracle, root, run);
    RootKeepsCode(oracle, root, run');
    MeansUnique(oracle, RootRef(root), OutcomeOf(s.futs, s.futs[ROOT].st.value),
      OutcomeOf(s'.futs, s'.futs[ROOT].st.value));
  }

  /** A program that only does I/O settles with exactly what blocking mode returns. */
  lemma {:induction false} BlockingMode(oracle: int -> int, root: Prog, run: seq<Event>)
    requires After(oracle, root, run).Some? && Sequential(root)
    requires var s := After(oracle, root, run).value; |s.futs| > 0 && s.futs[ROOT].st.Some?
    ensures var o := After(oracle, root, run).value.futs[ROOT].st.value;
            OutcomeIds(After(oracle, root, run).value, o)
            && OutcomeOf(After(oracle, root, run).value.futs, o) == Blocking(oracle, root, [], [])
  {
    var s := After(oracle, root, run).value;
    SettledMeans(oracle, root, run, ROOT);
    RootKeepsCode(oracle, root, run);
    BlockingIsRun(oracle, 0, root, [], []);
    assert Start(RootRef(root)) == Point(root, [], [], []);
    assert Eval(oracle, 1, RootRef(root)) == Some(Blocking(oracle, root, [], []));
    MeansUnique(oracle, RootRef(root), OutcomeOf(s.futs, s.futs[ROOT].st.value), Blocking(oracle, root, [], []));
  }

  // --- Progress ----------------------------------------------------------------------------------

  function Bound(root: Prog): nat { 5 * Size(root) + 5 }

  /** Every run is finite, with an explicit bound. */
  lemma {:induction false} RunBound(oracle: int -> int, root: Prog, run: seq<Event>)
    requires After(oracle, root, run).Some?
    ensures |run| <= Bound(root)
  {
    var L := RunKeeps(oracle, root, run);
  }

  lemma {:induction false} DeadHandle(live: set<Handle>, n: nat) returns (h: Handle)
    ensures h > n && h !in live
    decreases |live|
  {
    if live == {} {
      h := n + 1;
    } else {
      var x :| x in live;
      h := DeadHandle(live - {x}, if x > n then x else n);
    }
  }

  /**
    A state in which nothing can happen is quiet. When the loop is about to block, some task is awaited
    and every awaited task is in flight, so that its completion can arrive.
   */
  lemma {:induction false} Progress(oracle: int -> int, root: Prog, run: seq<Event>) returns (e: Event)
    requires After(oracle, root, run).Some? && !Quiet(After(oracle, root, run).value)
    ensures Enabled(After(oracle, root, run).value, e)
    ensures var s := After(oracle, root, run).value;
            s.running.None? && s.queue == [] ==>
              |s.waiters| > 0 && forall h | h in s.waiters :: Enabled(s, Deliver(h))
  {
    var s := After(oracle, root, run).value;
    var L := RunKeeps(oracle, root, run);
    HandleReuse(oracle, root, run);
    if s.running.Some? {
      assert FiberOk(oracle, s, L, s.running.value.fib);
      var h := DeadHandle(s.live.Keys, 0);
      e := Exec(h);
    } else if |s.queue| > 0 {
      e := Take;
    } else {
      var h :| h in s.waiters;
      e := Deliver(h);
    }
  }

  // --- Deadlock ----------------------------------------------------------------------------------

  ghost predicate Awaits(s: State, f: FutId, g: FutId) {
    && f < |s.futs| && g < |s.futs| && s.futs[g].st.None?
    && exists j | 0 <= j < |s.futs[g].waiters| :: s.futs[g].waiters[j].fib == f
  }

  /** A walk along await edges that starts at `f` and comes back to a future it has visited. */
  ghost predicate Lasso(s: State, f: FutId, path: seq<FutId>) {
    && |path| >= 2 && path[0] == f
    && (forall i | 0 <= i < |path| - 1 :: Awaits(s, path[i], path[i + 1]))
    && path[|path| - 1] in path[..|path| - 1]
  }

  lemma ParkedAwaits(s: State, ps: seq<Place>, f: FutId)
    requires Agree(s, ps) && f < |ps| && ps[f].OnFuture?
    ensures Awaits(s, f, ps[f].g)
  {
    var j :| 0 <= j < |s.futs[ps[f].g].waiters| && s.futs[ps[f].g].waiters[j] == Wake(f, ps[f].frame);
    assert s.futs[ps[f].g].waiters[j].fib == f;
  }

  lemma AwaitsParked(s: State, ps: seq<Place>, f: FutId, g: FutId)
    requires Agree(s, ps) && Awaits(s, f, g)
    ensures f < |ps| && ps[f].OnFuture? && ps[f].g == g
  {
    assert WaitersAgree(s.futs[g].waiters, g, ps);
  }

  /** When the loop has gone quiet, every unsettled fiber is parked on an unsettled future. */
  lemma QuietParked(oracle: int -> int, s: State, L: Ledger, f: FutId)
    requires Inv(oracle, s, L) && Quiet(s) && f < |s.futs| && s.futs[f].st.None?
    ensures L.places[f].OnFuture? && L.places[f].g < |s.futs| && s.futs[L.places[f].g].st.None?
  {
    assert !Among(s.queue, f);
    assert s.waiters.Keys == {};
  }

  /** ... so its await leads on to another one. */
  lemma QuietStep(oracle: int -> int, s: State, L: Ledger, f: FutId) returns (g: FutId)
    requires Inv(oracle, s, L) && Quiet(s) && f < |s.futs| && s.futs[f].st.None?
    ensures g < |s.futs| && s.futs[g].st.None? && Awaits(s, f, g)
  {
    QuietParked(oracle, s, L, f);
    ParkedAwaits(s, L.places, f);
    g := L.places[f].g;
  }

  /** A walk along await edges, `n` of them. */
  ghost predicate Walks(s: State, f: FutId, n: nat, path: seq<FutId>) {
    && |path| == n + 1 && path[0] == f
    && (forall i | 0 <= i < |path| :: path[i] < |s.futs|)
    && (forall i | 0 <= i < n :: Awaits(s, path[i], path[i + 1]))
  }

  lemma WalkOn(s: State, f: FutId, g: FutId, n: nat, rest: seq<FutId>)
    requires f < |s.futs| && Awaits(s, f, g) && Walks(s, g, n, rest)
    ensures Walks(s, f, n + 1, [f] + rest)
  {
  }

  lemma {:induction false} Walk(oracle: int -> int, s: State, L: Ledger, f: FutId, n: nat) returns (path: seq<FutId>)
    requires Inv(oracle, s, L) && Quiet(s) && f < |s.futs| && s.futs[f].st.None?
    ensures Walks(s, f, n, path)
    decreases n
  {
    if n == 0 {
      path := [f];
    } else {
      var g := QuietStep(oracle, s, L, f);
      var rest := Walk(oracle, s, L, g, n - 1);
      WalkOn(s, f, g, n - 1, rest);
      path := [f] + rest;
    }
  }

  lemma {:induction false} DistinctCount(s: seq<nat>)
    requires forall i, j | 0 <= i < j < |s| :: s[i] != s[j]
    ensures |Elements(s)| == |s|
  {
    if s == [] {
      assert Elements(s) == {};
    } else {
      var rest := s[..|s| - 1];
      DistinctCount(rest);
      assert Elements(s) == Elements(rest) + {s[|s| - 1]};
    }
  }

  lemma {:induction false} BelowCount(n: nat, xs: set<nat>)
    requires forall x | x in xs :: x < n
    ensures |xs| <= n
  {
    if n == 0 {
      assert xs == {};
    } else {
      BelowCount(n - 1, xs - {n - 1});
    }
  }

  /** Pigeonhole: n + 1 numbers below n repeat. */
  lemma Repeats(s: seq<nat>, n: nat) returns (i: nat, j: nat)
    requires |s| == n + 1 && forall k | 0 <= k < |s| :: s[k] < n
    ensures i < j < |s| && s[i] == s[j]
  {
    if a, b :| 0 <= a < b < |s| && s[a] == s[b] {
      i, j := a, b;
    } else {
      DistinctCount(s);
      BelowCount(n, Elements(s));
      assert false;
    }
  }

  lemma LassoOf(s: State, f: FutId, walk: seq<FutId>, i: nat, j: nat)
    requires i < j < |walk| && walk[i] == walk[j] && walk[0] == f
    requires forall k | 0 <= k < |walk| - 1 :: Awaits(s, walk[k], walk[k + 1])
    ensures Lasso(s, f, walk[..j + 1])
  {
    var path := walk[..j + 1];
    forall k | 0 <= k < |path| - 1 ensures Awaits(s, path[k], path[k + 1]) {
      assert Awaits(s, walk[k], walk[k + 1]);
    }
    assert path[..j][i] == path[j];
  }

  /** When the loop has gone quiet, an unsettled fiber has run into a cycle of awaits. */
  lemma PendingHasLasso(oracle: int -> int, s: State, L: Ledger, f: FutId) returns (path: seq<FutId>)
    requires Inv(oracle, s, L) && Quiet(s) && f < |s.futs| && s.futs[f].st.None?
    ensures Lasso(s, f, path)
  {
    var walk := Walk(oracle, s, L, f, |s.futs|);
    var i, j := Repeats(walk, |s.futs|);
    path := walk[..j + 1];
    LassoOf(s, f, walk, i, j);
  }

  /** If the awaited future has no answer with some fuel, the awaiter has none with one more. */
  lemma StuckOn(oracle: int -> int, s: State, L: Ledger, f: FutId, fuel: nat)
    requires f < |s.futs| && f < |L.places| && L.places[f].OnFuture? && L.places[f].g < |s.futs|
    requires FiberOk(oracle, s, L, f) && Eval(oracle, fuel, s.futs[L.places[f].g].code) == None
    ensures Eval(oracle, fuel + 1, s.futs[f].code) == None
  {
    var a := PointOf(s.futs, L.places[f].frame);
    assert a.env[a.p.fut] == s.futs[L.places[f].g].code;
    assert Run(oracle, fuel, a) == None;
    assert Run(oracle, fuel, Start(s.futs[f].code)) == None;
  }

  lemma PendingOn(oracle: int -> int, s: State, L: Ledger, f: FutId) returns (g: FutId)
    requires Inv(oracle, s, L) && Quiet(s) && f < |s.futs| && s.futs[f].st.None?
    ensures f < |L.places| && L.places[f].OnFuture? && L.places[f].g == g && FiberOk(oracle, s, L, f)
    ensures g < |s.futs| && s.futs[g].st.None?
  {
    QuietParked(oracle, s, L, f);
    g := L.places[f].g;
  }

  /** ... and the reference evaluator has no answer for it: no fuel is enough. */
  lemma {:induction false} PendingDiverges(oracle: int -> int, s: State, L: Ledger, f: FutId, fuel: nat)
    requires Inv(oracle, s, L) && Quiet(s) && f < |s.futs| && s.futs[f].st.None?
    ensures Eval(oracle, fuel, s.futs[f].code) == None
    decreases fuel
  {
    if fuel > 0 {
      var g := PendingOn(oracle, s, L, f);
      PendingDiverges(oracle, s, L, g, fuel - 1);
      StuckOn(oracle, s, L, f, fuel - 1);
    }
  }

  /**
    The deadlock report is exact. When the loop returns, for every fiber: it is unsettled, iff its
    awaits run into a cycle, iff its program has no meaning.
   */
  lemma {:induction false} DeadlockExact(oracle: int -> int, root: Prog, run: seq<Event>, f: FutId)
    requires After(oracle, root, run).Some? && Quiet(After(oracle, root, run).value)
    requires f < |After(oracle, root, run).value.futs|
    ensures var s := After(oracle, root, run).value;
            && (s.futs[f].st.None? <==> exists path :: Lasso(s, f, path))
            && (s.futs[f].st.None? <==> Diverges(oracle, s.futs[f].code))
  {
    var s := After(oracle, root, run).value;
    var L := RunKeeps(oracle, root, run);
    forall path | Lasso(s, f, path) ensures s.futs[f].st.None? {
      LassoPending(s, L.places, f, path);
    }
    if s.futs[f].st.None? {
      var path := PendingHasLasso(oracle, s, L, f);
      forall fuel: nat ensures Eval(oracle, fuel, s.futs[f].code) == None {
        PendingDiverges(oracle, s, L, f, fuel);
      }
    } else {
      SettledMeans(oracle, root, run, f);
    }
  }

  lemma LassoPending(s: State, ps: seq<Place>, f: FutId, path: seq<FutId>)
    requires Agree(s, ps) && Lasso(s, f, path)
    ensures f < |s.futs| && s.futs[f].st.None?
  {
    assert Awaits(s, path[0], path[1]);
    AwaitsParked(s, ps, f, path[1]);
  }

  // --- A cycle is forever ------------------------------------------------------------------------

  /** A set of fibers each of which awaits a member of the set. */
  ghost predicate Knot(s: State, fs: set<FutId>) {
    forall f {:trigger AwaitsIn(s, f, fs)} | f in fs :: AwaitsIn(s, f, fs)
  }

  ghost predicate AwaitsIn(s: State, f: FutId, fs: set<FutId>) {
    exists g :: g in fs && Awaits(s, f, g)
  }

  lemma AwaitsKept(oracle: int -> int, s: State, e: Event, f: FutId, g: FutId)
    requires Enabled(s, e) && Awaits(s, f, g) && !At(s, g, IsRunning)
    ensures Awaits(Next(oracle, s, e), f, g)
  {
    FutureKept(oracle, s, e, f);
    FutureKept(oracle, s, e, g);
    var ws, ws' := s.futs[g].waiters, Next(oracle, s, e).futs[g].waiters;
    var j :| 0 <= j < |ws| && ws[j].fib == f;
    assert if ws' == ws then ws'[j].fib == f else ws'[j + 1] == ws'[1..][j];
  }

  lemma KnotPending(s: State, ps: seq<Place>, fs: set<FutId>, f: FutId) returns (g: FutId)
    requires Agree(s, ps) && Knot(s, fs) && f in fs
    ensures f < |s.futs| && s.futs[f].st.None? && !At(s, f, IsRunning) && g in fs && Awaits(s, f, g)
  {
    assert AwaitsIn(s, f, fs);
    g :| g in fs && Awaits(s, f, g);
    AwaitsParked(s, ps, f, g);
  }

  lemma KnotKept(oracle: int -> int, s: State, ps: seq<Place>, e: Event, fs: set<FutId>)
    requires Agree(s, ps) && Enabled(s, e) && Knot(s, fs)
    ensures Knot(Next(oracle, s, e), fs)
  {
    forall f | f in fs ensures AwaitsIn(Next(oracle, s, e), f, fs) {
      var g := KnotPending(s, ps, fs, f);
      var _ := KnotPending(s, ps, fs, g);
      AwaitsKept(oracle, s, e, f, g);
    }
  }

  /** Once a cycle of awaits has formed, no continuation of the run wakes or settles its fibers. */
  lemma {:induction false} CycleIsForever(oracle: int -> int, root: Prog, run: seq<Event>, run': seq<Event>,
                                          fs: set<FutId>)
    requires run <= run' && After(oracle, root, run).Some? && After(oracle, root, run').Some?
    requires Knot(After(oracle, root, run).value, fs)
    ensures Knot(After(oracle, root, run').value, fs)
    ensures forall f | f in fs ::
              f < |After(oracle, root, run').value.futs| && After(oracle, root, run').value.futs[f].st.None?
    decreases |run'|
  {
    if run' != run {
      var init := run'[..|run'| - 1];
      CycleIsForever(oracle, root, run, init, fs);
      var L := RunKeeps(oracle, root, init);
      KnotKept(oracle, After(oracle, root, init).value, L.places, run'[|run'| - 1], fs);
    }
    var L' := RunKeeps(oracle, root, run');
    forall f | f in fs
      ensures f < |After(oracle, root, run').value.futs| && After(oracle, root, run').value.futs[f].st.None?
    {
      var _ := KnotPending(After(oracle, root, run').value, L'.places, fs, f);
    }
  }

  /** A lasso is a knot: its fibers can never settle. */
  lemma LassoIsKnot(s: State, f: FutId, path: seq<FutId>)
    requires Lasso(s, f, path)
    ensures f in Elements(path) && Knot(s, Elements(path))
  {
    var fs := Elements(path);
    var last := |path| - 1;
    var k :| 0 <= k < last && path[..last][k] == path[last];
    forall x | x in fs ensures AwaitsIn(s, x, fs) {
      var i :| 0 <= i < |path| && path[i] == x;
      var m := if i == last then k else i;
      assert Awaits(s, path[m], path[m + 1]);
    }
  }

  // --- Order -------------------------------------------------------------------------------------

  function Takes(run: seq<Event>): nat {
    if run == [] then 0 else Takes(run[..|run| - 1]) + (if run[|run| - 1].Take? then 1 else 0)
  }

  lemma EndFifo(s: State, alloc: Handle)
    requires Enabled(s, Exec(alloc)) && Ends(s.running.value.frame)
    ensures s.queue <= ExecOne(s, alloc).queue
  {
  }

  lemma ExecFifo(s: State, alloc: Handle)
    requires Enabled(s, Exec(alloc)) && !Ends(s.running.value.frame)
    ensures s.queue <= ExecOne(s, alloc).queue
  {
  }

  lemma NextFifo(oracle: int -> int, s: State, e: Event)
    requires Enabled(s, e)
    ensures (if e.Take? then s.queue[1..] else s.queue) <= Next(oracle, s, e).queue
  {
    if e.Exec? {
      if Ends(s.running.value.frame) {
        EndFifo(s, e.alloc);
      } else {
        ExecFifo(s, e.alloc);
      }
    }
  }

  lemma PrefixStep(q: seq<Item>, mid: seq<Item>, q': seq<Item>, k: nat, take: nat)
    requires k + take <= |q| && take <= 1 && take <= |mid| && q[k..] <= mid && mid[take..] <= q'
    ensures q[k + take..] <= q'
  {
    assert q[k + take..] == q[k..][take..];
  }

  /**
    Ready fibers run first come, first served: after `k` more resumptions, what was queued from
    position `k` on still stands at the front, in the same order.
   */
  lemma {:induction false} ReadyIsFifo(oracle: int -> int, root: Prog, run: seq<Event>, run': seq<Event>)
    requires run <= run' && After(oracle, root, run).Some? && After(oracle, root, run').Some?
    ensures Takes(run) <= Takes(run')
    ensures var s, s', k := After(oracle, root, run).value, After(oracle, root, run').value, Takes(run') - Takes(run);
            k <= |s.queue| ==> s.queue[k..] <= s'.queue
    decreases |run'|
  {
    if run' != run {
      var last := |run'| - 1;
      ReadyIsFifo(oracle, root, run, run'[..last]);
      var s, mid := After(oracle, root, run).value, After(oracle, root, run'[..last]).value;
      NextFifo(oracle, mid, run'[last]);
      var k, take := Takes(run'[..last]) - Takes(run), if run'[last].Take? then 1 else 0;
      if k + take <= |s.queue| {
        PrefixStep(s.queue, mid.queue, Next(oracle, mid, run'[last]).queue, k, take);
      }
    }
  }

  // --- Awaiting a settled future -------------------------------------------------------------------

  lemma {:induction false} SettledStays(oracle: int -> int, root: Prog, run: seq<Event>, s: State, e: Event, f: FutId)
    requires After(oracle, root, run) == Some(s) && Enabled(s, e) && f < |s.futs| && s.futs[f].st.Some?
    ensures f < |Next(oracle, s, e).futs| && Next(oracle, s, e).futs[f].st == s.futs[f].st
  {
    var L := RunKeeps(oracle, root, run);
    FutureKept(oracle, s, e, f);
  }

  lemma {:induction false} SettledForever(oracle: int -> int, root: Prog, run: seq<Event>, run': seq<Event>, f: FutId)
    requires run <= run' && After(oracle, root, run).Some? && After(oracle, root, run').Some?
    requires f < |After(oracle, root, run).value.futs| && After(oracle, root, run).value.futs[f].st.Some?
    ensures f < |After(oracle, root, run').value.futs|
    ensures After(oracle, root, run').value.futs[f].st == After(oracle, root, run).value.futs[f].st
    decreases |run'|
  {
    if run' != run {
      var last := |run'| - 1;
      SettledForever(oracle, root, run, run'[..last], f);
      SettledStays(oracle, root, run'[..last], After(oracle, root, run'[..last]).value, run'[last], f);
    }
  }

  lemma SettledAnswers(s: State, alloc: Handle)
    requires Enabled(s, Exec(alloc)) && AtSettled(s.futs, s.running.value.frame)
    ensures At(ExecOne(s, alloc), s.running.value.fib, IsRunning)
  {
  }

  /** A future settles at most once, and a fiber that finds it settled goes on instead of parking. */
  lemma {:induction false} WokenGoesOn(oracle: int -> int, root: Prog, run: seq<Event>, run': seq<Event>, alloc: Handle)
    requires run <= run' && After(oracle, root, run).Some? && After(oracle, root, run').Some?
    requires Enabled(After(oracle, root, run').value, Exec(alloc))
    requires AtSettled(After(oracle, root, run).value.futs, After(oracle, root, run').value.running.value.frame)
    ensures var s' := After(oracle, root, run').value;
            At(ExecOne(s', alloc), s'.running.value.fib, IsRunning)
  {
    var fr := After(oracle, root, run').value.running.value.frame;
    SettledForever(oracle, root, run, run', fr.env[fr.p.fut]);
    SettledAnswers(After(oracle, root, run').value, alloc);
  }

  // --- What run-async does not wait for --------------------------------------------------------------

  /** A root that returns 7 after spawning a fiber that awaits itself. */
  function Orphaning(): Prog {
    Spawn([Await(0, Return(_ => 0, []), Raise(_ => 0))], Return(_ => 7, []))
  }

  /** `run-async` can return the root's value while a spawned fiber never settles. */
  lemma OrphanExample(oracle: int -> int) returns (run: seq<Event>)
    ensures After(oracle, Orphaning(), run).Some?
    ensures var s := After(oracle, Orphaning(), run).value;
            && Quiet(s) && |s.futs| == 2
            && s.futs[ROOT].st == Some(Ok(7, [])) && s.futs[1].st.None?
  {
    var p := Orphaning();
    var s1 := TakeNext(Init(p));
    AfterSnoc(oracle, p, [], Take);
    var s2 := ExecOne(s1, 1);
    AfterSnoc(oracle, p, [] + [Take], Exec(1));
    var s3 := ExecOne(s2, 1);
    AfterSnoc(oracle, p, [] + [Take] + [Exec(1)], Exec(1));
    assert [] + NewIds(1, 1) == [1] && s3.queue == [Item(1, Frame(p.children[0], [1], [], []), None)];
    run := OrphanTail(oracle, [] + [Take] + [Exec(1)] + [Exec(1)], s3);
  }

  lemma {:induction false} OrphanTail(oracle: int -> int, run: seq<Event>, s: State) returns (run': seq<Event>)
    requires After(oracle, Orphaning(), run) == Some(s) && |s.futs| == 2
    requires s.running.None? && |s.waiters| == 0 && 1 !in s.live && s.futs[1].st.None?
    requires s.queue == [Item(1, Frame(Orphaning().children[0], [1], [], []), None)]
    ensures After(oracle, Orphaning(), run').Some?
    ensures var s' := After(oracle, Orphaning(), run').value;
            Quiet(s') && |s'.futs| == 2 && s'.futs[ROOT].st == s.futs[ROOT].st && s'.futs[1].st.None?
  {
    AfterSnoc(oracle, Orphaning(), run, Take);
    var s1 := TakeNext(s);
    AfterSnoc(oracle, Orphaning(), run + [Take], Exec(1));
    run' := run + [Take] + [Exec(1)];
  }
}
