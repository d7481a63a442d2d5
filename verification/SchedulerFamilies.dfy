/**
  The scheduler makes the fibers of the program, no more and no fewer, each once. So what its runs make
  and settle does not depend on the arrival order, and whether all fibers settle can be told from the
  program.
 */
module SchedulerFamilies {
  import opened Common
  import opened Fibers
  import opened Families
  import opened SchedulerSpec
  import opened SchedulerInvariant
  import opened SchedulerSteps
  import opened SchedulerTheorems

  // --- Continuations and where they come from ------------------------------------------------------

  function FrameAt(s: State, f: FutId, spot: Spot): Frame
    requires At(s, f, spot)
  {
    match spot
    case InQueue(i) => s.queue[i].frame
    case UnderTask(h) => s.waiters[h].frame
    case UnderFuture(g, j) => s.futs[g].waiters[j].frame
    case IsRunning => s.running.value.frame
  }

  /** Some position holds `fr` for `f`. */
  ghost predicate Carries(s: State, f: FutId, fr: Frame) {
    exists spot :: At(s, f, spot) && FrameAt(s, f, spot) == fr
  }

  lemma CarriesAt(s: State, f: FutId, spot: Spot)
    requires At(s, f, spot)
    ensures Carries(s, f, FrameAt(s, f, spot))
  {
  }

  lemma TakeCarries(s: State, f: FutId, spot: Spot)
    requires Enabled(s, Take) && At(TakeNext(s), f, spot) && !spot.IsRunning?
    ensures Carries(s, f, FrameAt(TakeNext(s), f, spot))
  {
    CarriesAt(s, f, if spot.InQueue? then InQueue(spot.i + 1) else spot);
  }

  lemma SettleCarries(s: State, g: FutId, o: Outcome<FutId>, f: FutId, spot: Spot)
    requires g < |s.futs| && At(Settle(s, g, o), f, spot)
    ensures Carries(s, f, FrameAt(Settle(s, g, o), f, spot))
  {
    CarriesAt(s, f, if spot.InQueue? && spot.i >= |s.queue| then UnderFuture(g, spot.i - |s.queue|) else spot);
  }

  lemma SpawnCarries(s: State, g: FutId, fr: Frame, f: FutId, spot: Spot)
    requires fr.p.Spawn? && forall i | 0 <= i < |fr.env| :: fr.env[i] < |s.futs|
    requires At(SpawnAll(s, g, fr), f, spot) && !spot.IsRunning?
    ensures |s.futs| <= f || Carries(s, f, FrameAt(SpawnAll(s, g, fr), f, spot))
  {
    if f < |s.futs| {
      CarriesAt(s, f, spot);
    }
  }

  lemma ParkTaskCarries(s: State, g: FutId, fr: Frame, f: FutId, spot: Spot)
    requires s.running == Some(Wake(g, fr)) && AtTask(fr) && fr.outs[fr.p.slot].h !in s.completed
    requires At(AwaitTask(s, g, fr), f, spot)
    ensures Carries(s, f, FrameAt(AwaitTask(s, g, fr), f, spot))
  {
    CarriesAt(s, f, if spot == UnderTask(fr.outs[fr.p.slot].h) then IsRunning else spot);
  }

  lemma ParkFutureCarries(s: State, g: FutId, fr: Frame, f: FutId, spot: Spot)
    requires s.running == Some(Wake(g, fr)) && AtFuture(fr) && fr.env[fr.p.fut] < |s.futs|
    requires s.futs[fr.env[fr.p.fut]].st.None? && At(AwaitFuture(s, g, fr), f, spot)
    ensures Carries(s, f, FrameAt(AwaitFuture(s, g, fr), f, spot))
  {
    var t := fr.env[fr.p.fut];
    CarriesAt(s, f, if spot == UnderFuture(t, 0) then IsRunning
                    else if spot.UnderFuture? && spot.g == t then UnderFuture(t, spot.j - 1) else spot);
  }

  lemma DeliverCarries(oracle: int -> int, s: State, h: Handle, f: FutId, spot: Spot)
    requires Enabled(s, Deliver(h)) && At(DeliverOne(oracle, s, h), f, spot)
    ensures Carries(s, f, FrameAt(DeliverOne(oracle, s, h), f, spot))
  {
    CarriesAt(s, f, if spot.InQueue? && spot.i == |s.queue| then UnderTask(h) else spot);
  }

  // --- What the closures made so far say about a continuation ----------------------------------------

  /** With `k` or more fuel, what the fiber of `code` makes is `made` and then what is made from `a` on. */
  ghost predicate MadeThen(oracle: int -> int, k: nat, code: Ref, made: seq<Ref>, a: Point) {
    forall n: nat | n >= k :: Made(oracle, n, Start(code)) == made + Made(oracle, n, a)
  }

  ghost predicate Tracks(oracle: int -> int, code: Ref, made: seq<Ref>, a: Point) {
    exists k: nat :: MadeThen(oracle, k, code, made, a)
  }

  /** What the fiber of `code` makes is `made`. */
  ghost predicate MadeIs(oracle: int -> int, k: nat, code: Ref, made: seq<Ref>) {
    forall n: nat | n >= k :: Made(oracle, n, Start(code)) == made
  }

  ghost predicate MadeAll(oracle: int -> int, code: Ref, made: seq<Ref>) {
    exists k: nat :: MadeIs(oracle, k, code, made)
  }

  /** `b` is the next point after `a`. */
  ghost predicate Advances(oracle: int -> int, a: Point, b: Point) {
    if Local(a) then b == LocalStep(oracle, a)
    else Awaiting(a) && exists o :: Means(oracle, a.env[a.p.fut], o) && b == Answer(a, o)
  }

  lemma StartTracks(oracle: int -> int, code: Ref)
    ensures Tracks(oracle, code, [], Start(code))
  {
    assert MadeThen(oracle, 0, code, [], Start(code));
  }

  lemma MadeStep(oracle: int -> int, a: Point, b: Point) returns (k: nat)
    requires Advances(oracle, a, b)
    ensures forall n: nat | n >= k :: Made(oracle, n, a) == MadeHere(a) + Made(oracle, n, b)
  {
    k := 0;
    if !Local(a) {
      var o :| Means(oracle, a.env[a.p.fut], o) && b == Answer(a, o);
      k := MadeByAnswer(oracle, a, o);
    }
  }

  lemma TracksStep(oracle: int -> int, code: Ref, made: seq<Ref>, a: Point, b: Point)
    requires Tracks(oracle, code, made, a) && Advances(oracle, a, b)
    ensures Tracks(oracle, code, made + MadeHere(a), b)
  {
    var k: nat :| MadeThen(oracle, k, code, made, a);
    var m := MadeStep(oracle, a, b);
    var far := if k <= m then m else k;
    forall n: nat | n >= far ensures Made(oracle, n, Start(code)) == made + MadeHere(a) + Made(oracle, n, b) {
      assert Made(oracle, n, a) == MadeHere(a) + Made(oracle, n, b);
      assert made + (MadeHere(a) + Made(oracle, n, b)) == made + MadeHere(a) + Made(oracle, n, b);
    }
    assert MadeThen(oracle, far, code, made + MadeHere(a), b);
  }

  /** From a point where nothing more is made, the fiber has made all its closures. */
  lemma TracksEnd(oracle: int -> int, code: Ref, made: seq<Ref>, a: Point)
    requires Tracks(oracle, code, made, a) && forall n: nat :: Made(oracle, n, a) == []
    ensures MadeAll(oracle, code, made)
  {
    var k: nat :| MadeThen(oracle, k, code, made, a);
    forall n: nat | n >= k ensures Made(oracle, n, Start(code)) == made {
      assert Made(oracle, n, a) == [];
    }
    assert MadeIs(oracle, k, code, made);
  }

  // --- Every event -----------------------------------------------------------------------------------

  lemma GrowsNext(oracle: int -> int, s: State, L: Ledger, e: Event)
    requires Inv(oracle, s, L) && Enabled(s, e)
    ensures Grows(s, Next(oracle, s, e))
  {
    var s' := Next(oracle, s, e);
    forall g | 0 <= g < |s.futs|
      ensures g < |s'.futs| && s'.futs[g].code == s.futs[g].code
                && (s.futs[g].st.Some? ==> s'.futs[g].st == s.futs[g].st)
    {
      FutureKept(oracle, s, e, g);
    }
    FutsGrow(oracle, s, e);
  }

  lemma FutsGrow(oracle: int -> int, s: State, e: Event)
    requires Enabled(s, e)
    ensures |s.futs| <= |Next(oracle, s, e).futs|
  {
    if |s.futs| > 0 {
      FutureKept(oracle, s, e, |s.futs| - 1);
    }
  }

  /** A carried continuation is the one the ledger knows. */
  lemma CarriedOk(oracle: int -> int, s: State, L: Ledger, f: FutId, spot: Spot)
    requires Inv(oracle, s, L) && At(s, f, spot)
    ensures f < |s.futs| && FiberOk(oracle, s, L, f)
    ensures !L.places[f].Finished? && L.places[f].frame == FrameAt(s, f, spot)
  {
    SpotUnique(s, L.places, f, spot, spot);
    if spot.UnderFuture? {
      assert WaitersAgree(s.futs[spot.g].waiters, spot.g, L.places);
    }
  }

  ghost predicate Ids(s: State, fr: Frame) { forall i | 0 <= i < |fr.env| :: fr.env[i] < |s.futs| }

  lemma CarriedIds(oracle: int -> int, s: State, L: Ledger, f: FutId, fr: Frame)
    requires Inv(oracle, s, L) && Carries(s, f, fr)
    ensures f < |s.futs| && Ids(s, fr)
  {
    var spot :| At(s, f, spot) && FrameAt(s, f, spot) == fr;
    CarriedOk(oracle, s, L, f, spot);
  }

  /** From `fr` to `fr'` is one step. */
  ghost predicate Moves(oracle: int -> int, s: State, fr: Frame, s': State, fr': Frame) {
    Ids(s, fr) && Ids(s', fr') && Advances(oracle, PointOf(s.futs, fr), PointOf(s'.futs, fr'))
  }

  /** If `f` runs after the step, it has moved on from `fr`. */
  ghost predicate RunsOn(oracle: int -> int, s: State, f: FutId, fr: Frame, s': State) {
    s'.running.Some? ==> s'.running.value.fib == f && Moves(oracle, s, fr, s', s'.running.value.frame)
  }

  /** Resuming a task await is one step. */
  lemma ResumeMoves(oracle: int -> int, s: State, L: Ledger)
    requires Inv(oracle, s, L) && Enabled(s, Take) && s.queue[0].value.Some?
    ensures RunsOn(oracle, s, s.queue[0].fib, s.queue[0].frame, TakeNext(s))
  {
    var it := s.queue[0];
    CarriedOk(oracle, s, L, it.fib, InQueue(0));
    JoinIsLocalStep(oracle, s, it.frame, it.value.value);
  }

  lemma SpawnMoves(oracle: int -> int, s: State, f: FutId, fr: Frame)
    requires fr.p.Spawn? && Ids(s, fr)
    ensures RunsOn(oracle, s, f, fr, SpawnAll(s, f, fr))
  {
    var s' := SpawnAll(s, f, fr);
    SpawnCodes(s, f, fr, s', s'.running.value.frame.env);
  }

  lemma AnswerMoves(oracle: int -> int, s: State, f: FutId, fr: Frame)
    requires AtFuture(fr) && Ids(s, fr) && s.futs[fr.env[fr.p.fut]].st.Some? && SettledOk(oracle, s, fr.env[fr.p.fut])
    ensures RunsOn(oracle, s, f, fr, AwaitFuture(s, f, fr))
  {
    var g, s' := fr.env[fr.p.fut], AwaitFuture(s, f, fr);
    var o, fr' := s.futs[g].st.value, s'.running.value.frame;
    if o.Ok? {
      assert Codes(s.futs, fr.env + o.futs) == Codes(s.futs, fr.env) + Codes(s.futs, o.futs);
    }
    assert PointOf(s'.futs, fr') == Answer(PointOf(s.futs, fr), OutcomeOf(s.futs, o));
  }

  lemma SubmitMoves(oracle: int -> int, s: State, alloc: Handle, f: FutId, fr: Frame)
    requires Enabled(s, Exec(alloc)) && s.running == Some(Wake(f, fr)) && fr.p.Submit?
    ensures RunsOn(oracle, s, f, fr, ExecOne(s, alloc))
  {
    var s' := ExecOne(s, alloc);
    assert Ops(s'.running.value.frame.outs) == Ops(fr.outs) + [fr.p.op(fr.regs)];
  }

  lemma EarlyMoves(oracle: int -> int, s: State, L: Ledger, f: FutId, fr: Frame)
    requires TablesOk(oracle, s, L) && FrameOk(s, L, f, fr) && AtTask(fr) && fr.outs[fr.p.slot].h in s.completed
    ensures RunsOn(oracle, s, f, fr, AwaitTask(s, f, fr))
  {
    JoinIsLocalStep(oracle, s, fr, s.completed[fr.outs[fr.p.slot].h]);
  }

  lemma IfMoves(oracle: int -> int, s: State, alloc: Handle, f: FutId, fr: Frame)
    requires Enabled(s, Exec(alloc)) && s.running == Some(Wake(f, fr)) && fr.p.If?
    ensures RunsOn(oracle, s, f, fr, ExecOne(s, alloc))
  {
  }

  lemma JoinMoves(oracle: int -> int, s: State, L: Ledger, f: FutId, fr: Frame)
    requires TablesOk(oracle, s, L) && FrameOk(s, L, f, fr) && AtTask(fr)
    ensures RunsOn(oracle, s, f, fr, AwaitTask(s, f, fr))
  {
    if fr.outs[fr.p.slot].h in s.completed {
      EarlyMoves(oracle, s, L, f, fr);
    }
  }

  lemma AwaitMoves(oracle: int -> int, s: State, f: FutId, fr: Frame)
    requires AtFuture(fr) && Ids(s, fr) && SettledOk(oracle, s, fr.env[fr.p.fut])
    ensures RunsOn(oracle, s, f, fr, AwaitFuture(s, f, fr))
  {
    if s.futs[fr.env[fr.p.fut]].st.Some? {
      AnswerMoves(oracle, s, f, fr);
    }
  }

  /** If the running fiber is still running after an instruction, it has made one step. */
  lemma ExecMoves(oracle: int -> int, s: State, L: Ledger, alloc: Handle)
    requires Inv(oracle, s, L) && Enabled(s, Exec(alloc)) && !Ends(s.running.value.frame)
    ensures RunsOn(oracle, s, s.running.value.fib, s.running.value.frame, ExecOne(s, alloc))
  {
    var f, fr := s.running.value.fib, s.running.value.frame;
    CarriedOk(oracle, s, L, f, IsRunning);
    match fr.p
    case Submit(_, _) => SubmitMoves(oracle, s, alloc, f, fr);
    case Join(_, _) => JoinMoves(oracle, s, L, f, fr);
    case Spawn(_, _) => SpawnMoves(oracle, s, f, fr);
    case Await(fut, _, _) =>
      assert SettledOk(oracle, s, fr.env[fut]);
      AwaitMoves(oracle, s, f, fr);
    case If(_, _, _) => IfMoves(oracle, s, alloc, f, fr);
  }

  lemma EndStops(s: State, alloc: Handle)
    requires Enabled(s, Exec(alloc)) && Ends(s.running.value.frame)
    ensures ExecOne(s, alloc).running.None?
  {
  }

  /** The event makes fibers. */
  predicate Spawns(s: State, e: Event) { e.Exec? && s.running.Some? && s.running.value.frame.p.Spawn? }

  /** Where the continuation `fr'` of `f` comes from, after an event that makes no fibers. */
  ghost predicate Comes(oracle: int -> int, s: State, s': State, f: FutId, fr': Frame) {
    || (f < |s.futs| && Carries(s, f, fr'))
    || (f < |s.futs| && exists fr :: Carries(s, f, fr) && !fr.p.Spawn? && Moves(oracle, s, fr, s', fr'))
  }

  lemma TakeComes(oracle: int -> int, s: State, L: Ledger, f: FutId, spot: Spot)
    requires Inv(oracle, s, L) && Enabled(s, Take) && At(TakeNext(s), f, spot)
    ensures Comes(oracle, s, TakeNext(s), f, FrameAt(TakeNext(s), f, spot))
  {
    CarriedOk(oracle, s, L, s.queue[0].fib, InQueue(0));
    CarriesAt(s, s.queue[0].fib, InQueue(0));
    if !spot.IsRunning? {
      TakeCarries(s, f, spot);
      CarriedIds(oracle, s, L, f, FrameAt(TakeNext(s), f, spot));
    } else if s.queue[0].value.Some? {
      ResumeMoves(oracle, s, L);
    }
  }

  /** Positions hold fibers that exist. */
  lemma FibersExist(oracle: int -> int, s: State, L: Ledger)
    requires Inv(oracle, s, L)
    ensures forall i | 0 <= i < |s.queue| :: s.queue[i].fib < |s.futs|
    ensures forall h | h in s.waiters :: s.waiters[h].fib < |s.futs|
    ensures forall x, j | 0 <= x < |s.futs| && 0 <= j < |s.futs[x].waiters| :: s.futs[x].waiters[j].fib < |s.futs|
  {
    forall x, j | 0 <= x < |s.futs| && 0 <= j < |s.futs[x].waiters| ensures s.futs[x].waiters[j].fib < |s.futs| {
      assert WaitersAgree(s.futs[x].waiters, x, L.places);
    }
  }

  lemma ParkComes(oracle: int -> int, s: State, alloc: Handle, f: FutId, spot: Spot)
    requires Enabled(s, Exec(alloc)) && !Ends(s.running.value.frame) && ExecOne(s, alloc).running.None?
    requires At(ExecOne(s, alloc), f, spot)
    ensures Carries(s, f, FrameAt(ExecOne(s, alloc), f, spot))
  {
    var g, fr := s.running.value.fib, s.running.value.frame;
    match fr.p
    case Join(_, _) => ParkTaskCarries(s, g, fr, f, spot);
    case Await(_, _, _) => ParkFutureCarries(s, g, fr, f, spot);
  }

  lemma EndComes(s: State, alloc: Handle, f: FutId, spot: Spot)
    requires Enabled(s, Exec(alloc)) && Ends(s.running.value.frame) && At(ExecOne(s, alloc), f, spot)
    ensures Carries(s, f, FrameAt(ExecOne(s, alloc), f, spot))
  {
    var g, fr := s.running.value.fib, s.running.value.frame;
    match fr.p
    case Return(result, give) => SettleCarries(s, g, Ok(result(fr.regs), Pick(fr.env, give)), f, spot);
    case Raise(condition) => SettleCarries(s, g, Err(condition(fr.regs)), f, spot);
    case _ => SettleCarries(s, g, Err(NOT_AWAITABLE), f, spot);
  }

  lemma SamePositions(s: State, alloc: Handle)
    requires Enabled(s, Exec(alloc)) && !Ends(s.running.value.frame) && ExecOne(s, alloc).running.Some?
    requires !s.running.value.frame.p.Spawn?
    ensures var s' := ExecOne(s, alloc); s'.queue == s.queue && s'.waiters == s.waiters && s'.futs == s.futs
  {
  }

  lemma SameCarries(s: State, s': State, f: FutId, spot: Spot)
    requires s'.queue == s.queue && s'.waiters == s.waiters && s'.futs == s.futs && At(s', f, spot) && !spot.IsRunning?
    ensures Carries(s, f, FrameAt(s', f, spot))
  {
    CarriesAt(s, f, spot);
  }

  lemma ExecComes(oracle: int -> int, s: State, L: Ledger, alloc: Handle, f: FutId, spot: Spot)
    requires Inv(oracle, s, L) && Enabled(s, Exec(alloc)) && !s.running.value.frame.p.Spawn?
    requires At(ExecOne(s, alloc), f, spot)
    ensures Comes(oracle, s, ExecOne(s, alloc), f, FrameAt(ExecOne(s, alloc), f, spot))
  {
    var s', fr := ExecOne(s, alloc), s.running.value.frame;
    var fr' := FrameAt(s', f, spot);
    if spot.IsRunning? {
      if Ends(fr) {
        EndStops(s, alloc);
      }
      ExecMoves(oracle, s, L, alloc);
      CarriedOk(oracle, s, L, f, IsRunning);
      CarriesAt(s, f, IsRunning);
    } else {
      if Ends(fr) {
        EndComes(s, alloc, f, spot);
      } else if s'.running.None? {
        ParkComes(oracle, s, alloc, f, spot);
      } else {
        SamePositions(s, alloc);
        SameCarries(s, s', f, spot);
      }
      CarriedIds(oracle, s, L, f, fr');
    }
  }

  lemma NextComes(oracle: int -> int, s: State, L: Ledger, e: Event, f: FutId, spot: Spot)
    requires Inv(oracle, s, L) && Enabled(s, e) && !Spawns(s, e) && At(Next(oracle, s, e), f, spot)
    ensures Comes(oracle, s, Next(oracle, s, e), f, FrameAt(Next(oracle, s, e), f, spot))
  {
    match e
    case Take => TakeComes(oracle, s, L, f, spot);
    case Exec(alloc) => ExecComes(oracle, s, L, alloc, f, spot);
    case Deliver(h) =>
      DeliverCarries(oracle, s, h, f, spot);
      CarriedIds(oracle, s, L, f, FrameAt(DeliverOne(oracle, s, h), f, spot));
  }

  // --- The family tree -------------------------------------------------------------------------------

  /** The path of each future, and its children in the order they were made. */
  datatype Tree = Tree(paths: seq<seq<nat>>, kids: seq<seq<FutId>>)

  ghost predicate IsKid(T: Tree, g: FutId, f: FutId) {
    && f < |T.paths| && g < |T.paths| && g < |T.kids| && T.paths[f] != []
    && T.paths[f][..|T.paths[f]| - 1] == T.paths[g] && T.paths[f][|T.paths[f]| - 1] < |T.kids[g]|
  }

  ghost predicate KidsLinked(T: Tree, f: FutId)
    requires f < |T.paths| && f < |T.kids|
  {
    forall j | 0 <= j < |T.kids[f]| :: T.kids[f][j] < |T.paths| && T.paths[T.kids[f][j]] == T.paths[f] + [j]
  }

  ghost predicate DistinctPaths(paths: seq<seq<nat>>) {
    forall f, g | 0 <= f < g < |paths| :: paths[f] != paths[g]
  }

  /** Paths name futures, each once; every future but the root is a child of another. */
  ghost predicate Shape(T: Tree, n: nat) {
    && |T.paths| == |T.kids| == n && n > 0 && T.paths[ROOT] == [] && DistinctPaths(T.paths)
    && (forall f | 0 <= f < n :: KidsLinked(T, f))
    && (forall f | 0 < f < n :: HasParent(T, f))
  }

  ghost predicate HasParent(T: Tree, f: FutId) { exists g :: IsKid(T, g, f) }

  /** The tree after `g` has made `c` more children. */
  ghost function Grown(T: Tree, g: FutId, c: nat): Tree
    requires |T.paths| == |T.kids| && g < |T.paths|
  {
    var n, k := |T.paths|, |T.kids[g]|;
    Tree(T.paths + seq(c, i => T.paths[g] + [k + i]),
         T.kids[g := T.kids[g] + NewIds(n, c)] + seq(c, i => []))
  }

  /** No future has a path of the form `paths[g] + [j]` beyond the children of `g`. */
  lemma NoStranger(T: Tree, n: nat, g: FutId, f: FutId, j: nat)
    requires Shape(T, n) && g < n && f < n && T.paths[f] == T.paths[g] + [j]
    ensures j < |T.kids[g]|
  {
    assert HasParent(T, f);
    var h :| IsKid(T, h, f);
    assert T.paths[f][..|T.paths[f]| - 1] == T.paths[g];
    assert h == g;
  }

  lemma GrownDistinct(T: Tree, n: nat, g: FutId, c: nat)
    requires Shape(T, n) && g < n
    ensures DistinctPaths(Grown(T, g, c).paths)
  {
    var T', k := Grown(T, g, c), |T.kids[g]|;
    forall f, h | 0 <= f < h < |T'.paths| ensures T'.paths[f] != T'.paths[h] {
      if h >= n {
        assert T'.paths[h] == T.paths[g] + [k + h - n];
        if f < n {
          if T.paths[f] == T.paths[g] + [k + h - n] {
            NoStranger(T, n, g, f, k + h - n);
          }
        } else {
          assert T'.paths[f][|T.paths[g]|] != T'.paths[h][|T.paths[g]|];
        }
      }
    }
  }

  lemma GrownLinked(T: Tree, n: nat, g: FutId, c: nat, f: FutId)
    requires Shape(T, n) && g < n && f < n + c
    ensures KidsLinked(Grown(T, g, c), f)
  {
    var T', k := Grown(T, g, c), |T.kids[g]|;
    assert f < n ==> KidsLinked(T, f) && T'.paths[f] == T.paths[f];
    forall j | 0 <= j < |T'.kids[f]|
      ensures T'.kids[f][j] < |T'.paths| && T'.paths[T'.kids[f][j]] == T'.paths[f] + [j]
    {
      assert f < n;
      if f == g && j >= k {
        assert T'.kids[f][j] == n + (j - k);
      } else {
        assert T'.kids[f][j] == T.kids[f][j];
      }
    }
  }

  lemma GrownParent(T: Tree, n: nat, g: FutId, c: nat, f: FutId)
    requires Shape(T, n) && g < n && 0 < f < n + c
    ensures HasParent(Grown(T, g, c), f)
  {
    var T' := Grown(T, g, c);
    if f < n {
      assert HasParent(T, f);
      var h :| IsKid(T, h, f);
      assert IsKid(T', h, f);
    } else {
      var path := T.paths[g] + [|T.kids[g]| + f - n];
      assert T'.paths[f] == path && path[..|path| - 1] == T.paths[g];
      assert IsKid(T', g, f);
    }
  }

  lemma GrownShape(T: Tree, n: nat, g: FutId, c: nat)
    requires Shape(T, n) && g < n
    ensures Shape(Grown(T, g, c), n + c)
  {
    var T' := Grown(T, g, c);
    GrownDistinct(T, n, g, c);
    forall f | 0 <= f < n + c ensures KidsLinked(T', f) {
      GrownLinked(T, n, g, c, f);
    }
    forall f | 0 < f < n + c ensures HasParent(T', f) {
      GrownParent(T, n, g, c, f);
    }
  }

  /** The closures of the children of `f`. */
  ghost function KidCodes(s: State, T: Tree, f: FutId): seq<Ref>
    requires Shape(T, |s.futs|) && f < |s.futs|
  {
    assert KidsLinked(T, f);
    Codes(s.futs, T.kids[f])
  }

  // --- Every run -------------------------------------------------------------------------------------

  /** The continuation of an unsettled fiber is where the closures made so far say. */
  ghost predicate TrackedOk(oracle: int -> int, s: State, T: Tree, f: FutId, fr: Frame)
    requires Shape(T, |s.futs|)
  {
    f < |s.futs| && Ids(s, fr) && Tracks(oracle, s.futs[f].code, KidCodes(s, T, f), PointOf(s.futs, fr))
  }

  ghost predicate AllTracked(oracle: int -> int, s: State, T: Tree)
    requires Shape(T, |s.futs|)
  {
    forall f, fr | Carries(s, f, fr) :: TrackedOk(oracle, s, T, f, fr)
  }

  /** A settled fiber has made all its closures. */
  ghost predicate Complete(oracle: int -> int, s: State, T: Tree, f: FutId)
    requires Shape(T, |s.futs|) && f < |s.futs|
  {
    MadeAll(oracle, s.futs[f].code, KidCodes(s, T, f))
  }

  ghost predicate Family(oracle: int -> int, root: Prog, s: State, T: Tree) {
    && Shape(T, |s.futs|) && AllTracked(oracle, s, T)
    && (forall f | 0 <= f < |s.futs| && s.futs[f].st.Some? :: Complete(oracle, s, T, f))
    && (forall f | 0 <= f < |s.futs| :: Fiber(oracle, RootRef(root), T.paths[f], s.futs[f].code))
  }

  // --- An event that makes no fibers -------------------------------------------------------------------

  lemma KidCodesKept(s: State, s': State, T: Tree, f: FutId)
    requires Shape(T, |s.futs|) && |s'.futs| == |s.futs| && Grows(s, s') && f < |s.futs|
    ensures KidCodes(s', T, f) == KidCodes(s, T, f)
  {
    assert KidsLinked(T, f);
  }

  lemma TrackedNext(oracle: int -> int, s: State, s': State, T: Tree, f: FutId, fr': Frame)
    requires Shape(T, |s.futs|) && |s'.futs| == |s.futs| && Grows(s, s') && AllTracked(oracle, s, T)
    requires Comes(oracle, s, s', f, fr')
    ensures TrackedOk(oracle, s', T, f, fr')
  {
    KidCodesKept(s, s', T, f);
    if Carries(s, f, fr') {
      assert TrackedOk(oracle, s, T, f, fr');
      PointKept(s, s', fr');
    } else {
      var fr :| Carries(s, f, fr) && !fr.p.Spawn? && Moves(oracle, s, fr, s', fr');
      assert TrackedOk(oracle, s, T, f, fr);
      var a, b, made := PointOf(s.futs, fr), PointOf(s'.futs, fr'), KidCodes(s, T, f);
      TracksStep(oracle, s.futs[f].code, made, a, b);
      assert made + MadeHere(a) == made;
    }
  }

  /** Only an ending instruction of the running fiber settles it. */
  lemma SettlesByEnding(oracle: int -> int, s: State, e: Event, f: FutId)
    requires Enabled(s, e) && f < |s.futs| && s.futs[f].st.None?
    requires f < |Next(oracle, s, e).futs| && Next(oracle, s, e).futs[f].st.Some?
    ensures e.Exec? && s.running.value.fib == f && Ends(s.running.value.frame)
  {
    FutureKept(oracle, s, e, f);
  }

  /** A fiber that ends has made all its closures. */
  lemma EndComplete(oracle: int -> int, s: State, T: Tree, f: FutId, fr: Frame)
    requires Shape(T, |s.futs|) && TrackedOk(oracle, s, T, f, fr) && Ends(fr)
    ensures Complete(oracle, s, T, f)
  {
    TracksEnd(oracle, s.futs[f].code, KidCodes(s, T, f), PointOf(s.futs, fr));
  }

  lemma CompleteNext(oracle: int -> int, root: Prog, s: State, T: Tree, e: Event, f: FutId)
    requires Family(oracle, root, s, T) && Enabled(s, e)
    requires Grows(s, Next(oracle, s, e)) && |Next(oracle, s, e).futs| == |s.futs|
    requires f < |s.futs| && Next(oracle, s, e).futs[f].st.Some?
    ensures Complete(oracle, Next(oracle, s, e), T, f)
  {
    KidCodesKept(s, Next(oracle, s, e), T, f);
    if s.futs[f].st.None? {
      SettlesByEnding(oracle, s, e, f);
      CarriesAt(s, f, IsRunning);
      assert TrackedOk(oracle, s, T, f, s.running.value.frame);
      EndComplete(oracle, s, T, f, s.running.value.frame);
    } else {
      assert Complete(oracle, s, T, f);
    }
  }

  lemma SameFutures(oracle: int -> int, s: State, e: Event)
    requires Enabled(s, e) && !Spawns(s, e)
    ensures |Next(oracle, s, e).futs| == |s.futs|
  {
  }

  lemma PlainNext(oracle: int -> int, root: Prog, s: State, L: Ledger, T: Tree, e: Event)
    requires Inv(oracle, s, L) && Family(oracle, root, s, T) && Enabled(s, e) && !Spawns(s, e)
    ensures Family(oracle, root, Next(oracle, s, e), T)
  {
    var s' := Next(oracle, s, e);
    GrowsNext(oracle, s, L, e);
    SameFutures(oracle, s, e);
    forall f, fr | Carries(s', f, fr) ensures TrackedOk(oracle, s', T, f, fr) {
      var spot :| At(s', f, spot) && FrameAt(s', f, spot) == fr;
      NextComes(oracle, s, L, e, f, spot);
      TrackedNext(oracle, s, s', T, f, fr);
    }
    forall f | 0 <= f < |s'.futs| && s'.futs[f].st.Some? ensures Complete(oracle, s', T, f) {
      CompleteNext(oracle, root, s, T, e, f);
    }
  }

  // --- An event that makes fibers ----------------------------------------------------------------------

  lemma NewCodes(s: State, g: FutId, fr: Frame, s': State)
    requires fr.p.Spawn? && Ids(s, fr) && s' == SpawnAll(s, g, fr)
    ensures |s'.futs| == |s.futs| + |fr.p.children|
    ensures Codes(s'.futs, NewIds(|s.futs|, |fr.p.children|)) == MadeHere(PointOf(s.futs, fr))
  {
    var group := Siblings(fr.p.children, Codes(s.futs, fr.env), fr.regs);
    assert s'.futs == s.futs + NewFuts(group);
  }

  lemma OldCodes(s: State, g: FutId, fr: Frame, s': State, ids: seq<FutId>)
    requires fr.p.Spawn? && Ids(s, fr) && s' == SpawnAll(s, g, fr) && forall i | 0 <= i < |ids| :: ids[i] < |s.futs|
    ensures |s.futs| <= |s'.futs| && Codes(s'.futs, ids) == Codes(s.futs, ids)
  {
  }

  lemma CodesPlus(futs: seq<Fut>, ids: seq<FutId>, more: seq<FutId>)
    requires forall i | 0 <= i < |ids| :: ids[i] < |futs|
    requires forall i | 0 <= i < |more| :: more[i] < |futs|
    ensures forall i | 0 <= i < |ids + more| :: (ids + more)[i] < |futs|
    ensures Codes(futs, ids + more) == Codes(futs, ids) + Codes(futs, more)
  {
  }

  lemma GrownKids(T: Tree, g: FutId, c: nat, f: FutId)
    requires |T.paths| == |T.kids| && g < |T.paths| && f < |T.paths| + c
    ensures Grown(T, g, c).kids[f] ==
              if f == g then T.kids[g] + NewIds(|T.paths|, c) else if f < |T.paths| then T.kids[f] else []
  {
  }

  /** Only the running fiber gets children, and they are the closures made here. */
  lemma GrownCodes(s: State, g: FutId, fr: Frame, s': State, T: Tree, f: FutId)
    requires Shape(T, |s.futs|) && g < |s.futs| && fr.p.Spawn? && Ids(s, fr) && s' == SpawnAll(s, g, fr)
    requires f < |s'.futs| && Shape(Grown(T, g, |fr.p.children|), |s'.futs|)
    ensures KidCodes(s', Grown(T, g, |fr.p.children|), f)
         == if f == g then KidCodes(s, T, g) + MadeHere(PointOf(s.futs, fr))
            else if f < |s.futs| then KidCodes(s, T, f) else []
  {
    var n, c := |s.futs|, |fr.p.children|;
    NewCodes(s, g, fr, s');
    GrownKids(T, g, c, f);
    if f < n {
      assert KidsLinked(T, f);
      OldCodes(s, g, fr, s', T.kids[f]);
    }
    if f == g {
      CodesPlus(s'.futs, T.kids[g], NewIds(n, c));
    }
  }

  lemma NewStarts(s: State, g: FutId, fr: Frame, s': State, f: FutId, spot: Spot)
    requires fr.p.Spawn? && Ids(s, fr) && s' == SpawnAll(s, g, fr) && |s.futs| <= f < |s'.futs|
    requires At(s', f, spot) && !spot.IsRunning?
    requires forall i | 0 <= i < |s.queue| :: s.queue[i].fib < |s.futs|
    requires forall h | h in s.waiters :: s.waiters[h].fib < |s.futs|
    requires forall x, j | 0 <= x < |s.futs| && 0 <= j < |s.futs[x].waiters| :: s.futs[x].waiters[j].fib < |s.futs|
    ensures Ids(s', FrameAt(s', f, spot)) && PointOf(s'.futs, FrameAt(s', f, spot)) == Start(s'.futs[f].code)
  {
    SpawnCodes(s, g, fr, s', s'.running.value.frame.env);
  }

  lemma SpawnTracked(oracle: int -> int, s: State, L: Ledger, T: Tree, g: FutId, fr: Frame,
                     s': State, L': Ledger, f: FutId, spot: Spot)
    requires Inv(oracle, s, L) && Inv(oracle, s', L') && Shape(T, |s.futs|) && AllTracked(oracle, s, T)
    requires s.running == Some(Wake(g, fr)) && g < |s.futs| && fr.p.Spawn? && Ids(s, fr) && s' == SpawnAll(s, g, fr)
    requires Shape(Grown(T, g, |fr.p.children|), |s'.futs|) && Grows(s, s') && At(s', f, spot)
    ensures TrackedOk(oracle, s', Grown(T, g, |fr.p.children|), f, FrameAt(s', f, spot))
  {
    CarriedOk(oracle, s', L', f, spot);
    GrownCodes(s, g, fr, s', T, f);
    var fr' := FrameAt(s', f, spot);
    if f == g {
      SpotUnique(s', L'.places, g, spot, IsRunning);
      SpawnMoves(oracle, s, g, fr);
      CarriesAt(s, g, IsRunning);
      assert TrackedOk(oracle, s, T, g, fr);
      TracksStep(oracle, s.futs[g].code, KidCodes(s, T, g), PointOf(s.futs, fr), PointOf(s'.futs, fr'));
    } else if f < |s.futs| {
      SpawnCarries(s, g, fr, f, spot);
      assert TrackedOk(oracle, s, T, f, fr');
      PointKept(s, s', fr');
    } else {
      FibersExist(oracle, s, L);
      NewStarts(s, g, fr, s', f, spot);
      StartTracks(oracle, s'.futs[f].code);
    }
  }

  /** The children made here are the next ones of the running fiber. */
  lemma NewFiber(oracle: int -> int, root: Ref, path: seq<nat>, code: Ref, made: seq<Ref>, a: Point, i: nat)
    requires Fiber(oracle, root, path, code) && Tracks(oracle, code, made, a) && Local(a) && i < |MadeHere(a)|
    ensures Fiber(oracle, root, path + [|made| + i], MadeHere(a)[i])
  {
    var m: nat :| FiberAt(oracle, m, root, path) == Some(code);
    var k: nat :| MadeThen(oracle, k, code, made, a);
    var n := if k <= m then m else k;
    FiberMonotone(oracle, m, n, root, path, code);
    assert Made(oracle, n, Start(code)) == made + Made(oracle, n, a);
    assert Made(oracle, n, Start(code))[|made| + i] == MadeHere(a)[i];
    ChildAt(oracle, n, root, path, code, |made| + i);
  }

  lemma NewNames(s: State, T: Tree, g: FutId, fr: Frame, s': State, i: nat)
    requires Shape(T, |s.futs|) && g < |s.futs| && fr.p.Spawn? && Ids(s, fr) && s' == SpawnAll(s, g, fr)
    requires i < |fr.p.children|
    ensures |s'.futs| == |s.futs| + |fr.p.children|
    ensures s'.futs[|s.futs| + i].code == MadeHere(PointOf(s.futs, fr))[i]
    ensures Grown(T, g, |fr.p.children|).paths[|s.futs| + i] == T.paths[g] + [|KidCodes(s, T, g)| + i]
  {
  }

  lemma SpawnFiber(oracle: int -> int, root: Prog, s: State, T: Tree, g: FutId, fr: Frame, s': State, f: FutId)
    requires Family(oracle, root, s, T) && s.running == Some(Wake(g, fr)) && g < |s.futs|
    requires fr.p.Spawn? && Ids(s, fr) && s' == SpawnAll(s, g, fr) && |s.futs| <= f < |s'.futs|
    ensures Fiber(oracle, RootRef(root), Grown(T, g, |fr.p.children|).paths[f], s'.futs[f].code)
  {
    CarriesAt(s, g, IsRunning);
    assert TrackedOk(oracle, s, T, g, fr);
    var i := f - |s.futs|;
    NewFiber(oracle, RootRef(root), T.paths[g], s.futs[g].code, KidCodes(s, T, g), PointOf(s.futs, fr), i);
    NewNames(s, T, g, fr, s', i);
  }

  lemma SpawnComplete(oracle: int -> int, root: Prog, s: State, T: Tree, g: FutId, fr: Frame, s': State, f: FutId)
    requires Family(oracle, root, s, T) && s.running == Some(Wake(g, fr)) && g < |s.futs| && s.futs[g].st.None?
    requires fr.p.Spawn? && Ids(s, fr) && s' == SpawnAll(s, g, fr) && f < |s'.futs| && s'.futs[f].st.Some?
    requires Shape(Grown(T, g, |fr.p.children|), |s'.futs|)
    ensures Complete(oracle, s', Grown(T, g, |fr.p.children|), f)
  {
    GrownCodes(s, g, fr, s', T, f);
    assert f < |s.futs| && f != g;
    assert Complete(oracle, s, T, f);
  }

  lemma SpawnAllTracked(oracle: int -> int, s: State, L: Ledger, T: Tree, g: FutId, fr: Frame, s': State, L': Ledger)
    requires Inv(oracle, s, L) && Inv(oracle, s', L') && Shape(T, |s.futs|) && AllTracked(oracle, s, T)
    requires s.running == Some(Wake(g, fr)) && g < |s.futs| && fr.p.Spawn? && Ids(s, fr) && s' == SpawnAll(s, g, fr)
    requires Shape(Grown(T, g, |fr.p.children|), |s'.futs|) && Grows(s, s')
    ensures AllTracked(oracle, s', Grown(T, g, |fr.p.children|))
  {
    forall f, fr' | Carries(s', f, fr') ensures TrackedOk(oracle, s', Grown(T, g, |fr.p.children|), f, fr') {
      var spot :| At(s', f, spot) && FrameAt(s', f, spot) == fr';
      SpawnTracked(oracle, s, L, T, g, fr, s', L', f, spot);
    }
  }

  lemma SpawnFamily(oracle: int -> int, root: Prog, s: State, T: Tree, g: FutId, fr: Frame, s': State)
    requires Family(oracle, root, s, T) && s.running == Some(Wake(g, fr)) && g < |s.futs| && s.futs[g].st.None?
    requires fr.p.Spawn? && Ids(s, fr) && s' == SpawnAll(s, g, fr) && Grows(s, s')
    requires Shape(Grown(T, g, |fr.p.children|), |s'.futs|) && AllTracked(oracle, s', Grown(T, g, |fr.p.children|))
    ensures Family(oracle, root, s', Grown(T, g, |fr.p.children|))
  {
    var T' := Grown(T, g, |fr.p.children|);
    forall f | 0 <= f < |s'.futs| && s'.futs[f].st.Some? ensures Complete(oracle, s', T', f) {
      SpawnComplete(oracle, root, s, T, g, fr, s', f);
    }
    forall f | 0 <= f < |s'.futs| ensures Fiber(oracle, RootRef(root), T'.paths[f], s'.futs[f].code) {
      if f >= |s.futs| {
        SpawnFiber(oracle, root, s, T, g, fr, s', f);
      } else {
        assert T'.paths[f] == T.paths[f];
      }
    }
  }

  lemma SpawnReady(oracle: int -> int, s: State, L: Ledger, e: Event, g: FutId, fr: Frame)
    requires Inv(oracle, s, L) && Enabled(s, e) && Spawns(s, e) && s.running == Some(Wake(g, fr))
    ensures g < |s.futs| && s.futs[g].st.None? && Ids(s, fr)
    ensures Next(oracle, s, e) == SpawnAll(s, g, fr) && Grows(s, SpawnAll(s, g, fr))
  {
    CarriedOk(oracle, s, L, g, IsRunning);
    GrowsNext(oracle, s, L, e);
  }

  lemma SpawnNext(oracle: int -> int, root: Prog, s: State, L: Ledger, T: Tree, g: FutId, fr: Frame, s': State,
                  L': Ledger)
    requires Inv(oracle, s, L) && Inv(oracle, s', L') && Family(oracle, root, s, T)
    requires s.running == Some(Wake(g, fr)) && fr.p.Spawn? && g < |s.futs| && s.futs[g].st.None? && Ids(s, fr)
    requires s' == SpawnAll(s, g, fr) && Grows(s, s')
    ensures Family(oracle, root, s', Grown(T, g, |fr.p.children|))
  {
    NewCodes(s, g, fr, s');
    GrownShape(T, |s.futs|, g, |fr.p.children|);
    SpawnAllTracked(oracle, s, L, T, g, fr, s', L');
    SpawnFamily(oracle, root, s, T, g, fr, s');
  }

  lemma RootShape(T: Tree)
    requires T == Tree([[]], [[]])
    ensures Shape(T, 1)
  {
    assert KidsLinked(T, ROOT);
  }

  lemma RootTracked(oracle: int -> int, root: Prog, s: State, T: Tree)
    requires s == Init(root) && T == Tree([[]], [[]]) && Shape(T, |s.futs|)
    ensures AllTracked(oracle, s, T)
  {
    StartTracks(oracle, RootRef(root));
    assert KidCodes(s, T, ROOT) == [];
    forall f, fr | Carries(s, f, fr) ensures TrackedOk(oracle, s, T, f, fr) {
      assert fr == Frame(root, [], [], []) && f == ROOT;
      assert PointOf(s.futs, fr) == Start(RootRef(root));
    }
  }

  lemma FamilyInit(oracle: int -> int, root: Prog) returns (T: Tree)
    ensures Family(oracle, root, Init(root), T)
  {
    T := Tree([[]], [[]]);
    RootShape(T);
    RootTracked(oracle, root, Init(root), T);
    assert FiberAt(oracle, 0, RootRef(root), []) == Some(RootRef(root));
  }

  lemma {:induction false} RunFamily(oracle: int -> int, root: Prog, run: seq<Event>) returns (T: Tree)
    requires After(oracle, root, run).Some?
    ensures Family(oracle, root, After(oracle, root, run).value, T)
    decreases |run|
  {
    if run == [] {
      T := FamilyInit(oracle, root);
    } else {
      var init, e := run[..|run| - 1], run[|run| - 1];
      var s := After(oracle, root, init).value;
      T := RunFamily(oracle, root, init);
      var L := RunKeeps(oracle, root, init);
      if Spawns(s, e) {
        var g, fr := s.running.value.fib, s.running.value.frame;
        var L' := NextKeeps(oracle, s, L, e);
        SpawnReady(oracle, s, L, e, g, fr);
        SpawnNext(oracle, root, s, L, T, g, fr, SpawnAll(s, g, fr), L');
        T := Grown(T, g, |fr.p.children|);
      } else {
        PlainNext(oracle, root, s, L, T, e);
      }
    }
  }

  // --- What quiet runs have in common ------------------------------------------------------------------

  /** From an await that has no answer on, nothing is made. */
  lemma StuckComplete(oracle: int -> int, s: State, T: Tree, f: FutId, fr: Frame)
    requires Shape(T, |s.futs|) && TrackedOk(oracle, s, T, f, fr)
    requires AtFuture(fr) && Diverges(oracle, s.futs[fr.env[fr.p.fut]].code)
    ensures Complete(oracle, s, T, f)
  {
    var a := PointOf(s.futs, fr);
    forall n: nat ensures Made(oracle, n, a) == [] {
      assert Eval(oracle, n, s.futs[fr.env[fr.p.fut]].code) == None;
    }
    TracksEnd(oracle, s.futs[f].code, KidCodes(s, T, f), a);
  }

  /** When the loop returns, every fiber has made all its closures, settled or not. */
  lemma {:induction false} QuietComplete(oracle: int -> int, root: Prog, run: seq<Event>, s: State, T: Tree, f: FutId)
    requires After(oracle, root, run) == Some(s) && Quiet(s) && Family(oracle, root, s, T) && f < |s.futs|
    ensures Complete(oracle, s, T, f)
  {
    if s.futs[f].st.None? {
      var L := RunKeeps(oracle, root, run);
      QuietParked(oracle, s, L, f);
      var spot := SpotExists(s, L.places, f);
      CarriedOk(oracle, s, L, f, spot);
      CarriesAt(s, f, spot);
      var fr, g := L.places[f].frame, L.places[f].g;
      assert TrackedOk(oracle, s, T, f, fr);
      DeadlockExact(oracle, root, run, g);
      StuckComplete(oracle, s, T, f, fr);
    }
  }

  /** Future `f` is the fiber with this path and closure. */
  ghost predicate Names(s: State, paths: seq<seq<nat>>, f: FutId, path: seq<nat>, r: Ref) {
    f < |paths| && f < |s.futs| && paths[f] == path && s.futs[f].code == r
  }

  /** A child of a complete fiber is among the futures. */
  lemma ChildNamed(oracle: int -> int, s: State, T: Tree, f: FutId, n: nat, j: nat) returns (h: FutId)
    requires Shape(T, |s.futs|) && f < |s.futs| && Complete(oracle, s, T, f)
    requires j < |Made(oracle, n, Start(s.futs[f].code))|
    ensures Names(s, T.paths, h, T.paths[f] + [j], Made(oracle, n, Start(s.futs[f].code))[j])
  {
    var code := s.futs[f].code;
    var k: nat :| MadeIs(oracle, k, code, KidCodes(s, T, f));
    var m := if k <= n then n else k;
    MadeMonotone(oracle, n, m, Start(code));
    assert Made(oracle, m, Start(code)) == KidCodes(s, T, f);
    assert KidsLinked(T, f);
    h := T.kids[f][j];
  }

  ghost predicate AllComplete(oracle: int -> int, s: State, T: Tree) {
    Shape(T, |s.futs|) && forall f | 0 <= f < |s.futs| :: Complete(oracle, s, T, f)
  }

  lemma {:induction false} QuietAllComplete(oracle: int -> int, root: Prog, run: seq<Event>, s: State, T: Tree)
    requires After(oracle, root, run) == Some(s) && Quiet(s) && Family(oracle, root, s, T)
    ensures AllComplete(oracle, s, T) && s.futs[ROOT].code == RootRef(root)
  {
    RootKeepsCode(oracle, root, run);
    forall f | 0 <= f < |s.futs| ensures Complete(oracle, s, T, f) {
      QuietComplete(oracle, root, run, s, T, f);
    }
  }

  /** In a complete tree every path of the program leads to a future. */
  lemma {:induction false} PathNamed(oracle: int -> int, root: Ref, s: State, T: Tree, n: nat, path: seq<nat>, r: Ref)
    returns (f: FutId)
    requires AllComplete(oracle, s, T) && s.futs[ROOT].code == root && FiberAt(oracle, n, root, path) == Some(r)
    ensures Names(s, T.paths, f, path, r)
    decreases |path|
  {
    if path == [] {
      f := ROOT;
    } else {
      var init, j := path[..|path| - 1], path[|path| - 1];
      var parent := ParentOf(oracle, n, root, path, r);
      var g := PathNamed(oracle, root, s, T, n, init, parent);
      f := ChildNamed(oracle, s, T, g, n, j);
      assert path == init + [j];
    }
  }

  /** The futures are the fibers of the program, one for each path. */
  ghost predicate Roster(oracle: int -> int, root: Prog, s: State, paths: seq<seq<nat>>) {
    && |paths| == |s.futs| && DistinctPaths(paths)
    && (forall f | 0 <= f < |s.futs| :: Fiber(oracle, RootRef(root), paths[f], s.futs[f].code))
    && (forall path, r | Fiber(oracle, RootRef(root), path, r) :: exists f :: Names(s, paths, f, path, r))
  }

  /**
    The fibers made by a run that has gone quiet are those of the program, whatever the arrival order:
    one future for each path, with the closure of that path, and no other.
   */
  lemma {:induction false} FibersAreKin(oracle: int -> int, root: Prog, run: seq<Event>, s: State)
    returns (paths: seq<seq<nat>>)
    requires After(oracle, root, run) == Some(s) && Quiet(s)
    ensures Roster(oracle, root, s, paths)
  {
    var T := RunFamily(oracle, root, run);
    paths := T.paths;
    QuietAllComplete(oracle, root, run, s, T);
    forall path, r | Fiber(oracle, RootRef(root), path, r) ensures exists f :: Names(s, paths, f, path, r) {
      var n: nat :| FiberAt(oracle, n, RootRef(root), path) == Some(r);
      var f := PathNamed(oracle, RootRef(root), s, T, n, path, r);
    }
  }

  /** `m` sends each of the first `k` futures to the future with the same path and closure. */
  ghost predicate Matches(s: State, paths: seq<seq<nat>>, s': State, paths': seq<seq<nat>>, m: seq<FutId>) {
    && |m| <= |s.futs| && |paths| == |s.futs|
    && (forall f | 0 <= f < |m| :: Names(s', paths', m[f], paths[f], s.futs[f].code))
  }

  lemma {:induction false} MatchUp(oracle: int -> int, root: Prog, s: State, paths: seq<seq<nat>>,
                                   s': State, paths': seq<seq<nat>>, k: nat) returns (m: seq<FutId>)
    requires Roster(oracle, root, s, paths) && Roster(oracle, root, s', paths') && k <= |s.futs|
    ensures |m| == k && Matches(s, paths, s', paths', m)
    decreases k
  {
    if k == 0 {
      m := [];
    } else {
      m := MatchUp(oracle, root, s, paths, s', paths', k - 1);
      var f' :| Names(s', paths', f', paths[k - 1], s.futs[k - 1].code);
      m := m + [f'];
    }
  }

  /** A match is one to one, so there is room for it. */
  lemma MatchFits(s: State, paths: seq<seq<nat>>, s': State, paths': seq<seq<nat>>, m: seq<FutId>)
    requires DistinctPaths(paths) && Matches(s, paths, s', paths', m)
    ensures forall f, g | 0 <= f < g < |m| :: m[f] != m[g]
    ensures |m| <= |s'.futs|
  {
    forall f, g | 0 <= f < g < |m| ensures m[f] != m[g] {
      assert Names(s', paths', m[f], paths[f], s.futs[f].code) && Names(s', paths', m[g], paths[g], s.futs[g].code);
    }
    DistinctCount(m);
    forall x | x in Elements(m) ensures x < |s'.futs| {
      var f :| 0 <= f < |m| && m[f] == x;
    }
    BelowCount(|s'.futs|, Elements(m));
  }

  /**
    Two quiet runs make the same fibers, as many of each, and settle them alike: there is a one to one
    correspondence under which fibers have the same closure and the same outcome, or are both pending.
   */
  lemma {:induction false} QuietRunsAgree(oracle: int -> int, root: Prog, run: seq<Event>, s: State,
                                          run': seq<Event>, s': State) returns (m: seq<FutId>)
    requires After(oracle, root, run) == Some(s) && After(oracle, root, run') == Some(s') && Quiet(s) && Quiet(s')
    ensures |m| == |s.futs| == |s'.futs| && forall f, g | 0 <= f < g < |m| :: m[f] != m[g]
    ensures forall f | 0 <= f < |m| ::
              m[f] < |s'.futs| && s'.futs[m[f]].code == s.futs[f].code && SameOutcome(s, f, s', m[f])
  {
    var paths := FibersAreKin(oracle, root, run, s);
    var paths' := FibersAreKin(oracle, root, run', s');
    m := MatchUp(oracle, root, s, paths, s', paths', |s.futs|);
    MatchFits(s, paths, s', paths', m);
    var back := MatchUp(oracle, root, s', paths', s, paths, |s'.futs|);
    MatchFits(s', paths', s, paths, back);
    forall f | 0 <= f < |m|
      ensures m[f] < |s'.futs| && s'.futs[m[f]].code == s.futs[f].code && SameOutcome(s, f, s', m[f])
    {
      assert Names(s', paths', m[f], paths[f], s.futs[f].code);
      FibersAgree(oracle, root, run, s, f, run', s', m[f]);
    }
  }

  /** Both pending, or settled with the same value or condition and the same futures handed out. */
  ghost predicate SameOutcome(s: State, f: FutId, s': State, f': FutId)
    requires f < |s.futs| && f' < |s'.futs|
  {
    match (s.futs[f].st, s'.futs[f'].st)
    case (None, None) => true
    case (Some(o), Some(o')) =>
      OutcomeIds(s, o) && OutcomeIds(s', o') && OutcomeOf(s.futs, o) == OutcomeOf(s'.futs, o')
    case _ => false
  }

  lemma {:induction false} FibersAgree(oracle: int -> int, root: Prog, run: seq<Event>, s: State, f: FutId,
                                       run': seq<Event>, s': State, f': FutId)
    requires After(oracle, root, run) == Some(s) && After(oracle, root, run') == Some(s') && Quiet(s) && Quiet(s')
    requires f < |s.futs| && f' < |s'.futs| && s'.futs[f'].code == s.futs[f].code
    ensures SameOutcome(s, f, s', f')
  {
    DeadlockExact(oracle, root, run, f);
    DeadlockExact(oracle, root, run', f');
    if s.futs[f].st.Some? {
      SettledMeans(oracle, root, run, f);
      SettledMeans(oracle, root, run', f');
      MeansUnique(oracle, s.futs[f].code, OutcomeOf(s.futs, s.futs[f].st.value),
        OutcomeOf(s'.futs, s'.futs[f'].st.value));
    }
  }

  // --- When all fibers settle --------------------------------------------------------------------------

  ghost predicate AllSettled(s: State) { forall f | 0 <= f < |s.futs| :: s.futs[f].st.Some? }

  /** Every fiber of the program has a meaning. */
  ghost predicate AllMean(oracle: int -> int, root: Prog) {
    forall r | Kin(oracle, RootRef(root), r) :: !Diverges(oracle, r)
  }

  /**
    When the loop returns, all fibers have settled iff every fiber of the program has a meaning: a
    condition on the program and its I/O alone, the same for every run.
   */
  lemma {:induction false} AllSettleIff(oracle: int -> int, root: Prog, run: seq<Event>, s: State)
    requires After(oracle, root, run) == Some(s) && Quiet(s)
    ensures AllSettled(s) <==> AllMean(oracle, root)
  {
    forall f | 0 <= f < |s.futs| ensures s.futs[f].st.None? <==> Diverges(oracle, s.futs[f].code) {
      DeadlockExact(oracle, root, run, f);
    }
    var paths := FibersAreKin(oracle, root, run, s);
    forall f | 0 <= f < |s.futs| ensures Kin(oracle, RootRef(root), s.futs[f].code) {
      assert Fiber(oracle, RootRef(root), paths[f], s.futs[f].code);
    }
    forall r | Kin(oracle, RootRef(root), r) ensures exists f :: 0 <= f < |s.futs| && s.futs[f].code == r {
      var path :| Fiber(oracle, RootRef(root), path, r);
      var f :| Names(s, paths, f, path, r);
    }
  }

  /** In a structured program, which can be checked before the call, all fibers settle in every run. */
  lemma {:induction false} StructuredSettles(oracle: int -> int, root: Prog, run: seq<Event>, s: State)
    requires Structured(root, 0, {}) && After(oracle, root, run) == Some(s) && Quiet(s)
    ensures AllSettled(s)
  {
    forall r | Kin(oracle, RootRef(root), r) ensures !Diverges(oracle, r) {
      StructuredMeans(oracle, root, r);
    }
    AllSettleIff(oracle, root, run, s);
  }
}
