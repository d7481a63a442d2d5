/** Every event of the scheduler keeps the global invariant. */
module SchedulerSteps {
  import opened Common
  import opened Fibers
  import opened SchedulerSpec
  import opened SchedulerInvariant

  lemma LeadsReflexive(oracle: int -> int, a: Point)
    ensures Leads(oracle, a, a)
  {
    forall n: nat | Run(oracle, n, a).Some? ensures Reproduces(oracle, a, Run(oracle, n, a)) {
    }
  }

  // --- Take --------------------------------------------------------------------------------------

  lemma AgreeTake(s: State, ps: seq<Place>, s': State, f: FutId, fr': Frame)
    requires Agree(s, ps) && s.running.None? && |s.queue| > 0 && s.queue[0].fib == f
    requires s'.futs == s.futs && s'.queue == s.queue[1..] && s'.waiters == s.waiters
    requires s'.running == Some(Wake(f, fr')) && f < |ps|
    ensures Agree(s', ps[f := Active(fr')])
  {
    var ps' := ps[f := Active(fr')];
    forall f' | 0 <= f' < |ps'| && ps'[f'].Ready? ensures Among(s'.queue, f') {
      assert Among(s.queue, f');
      var i :| 0 <= i < |s.queue| && s.queue[i].fib == f';
      assert s'.queue[i - 1].fib == f';
    }
    TasksSame(s, ps, s', ps');
    FuturesSame(s, ps, s', ps');
  }

  lemma JoinIsLocalStep(oracle: int -> int, s: State, fr: Frame, r: int)
    requires AtTask(fr) && r == oracle(fr.outs[fr.p.slot].op)
    requires forall i | 0 <= i < |fr.env| :: fr.env[i] < |s.futs|
    ensures PointOf(s.futs, Frame(fr.p.next, fr.env, Remove(fr.outs, fr.p.slot), fr.regs + [r]))
         == LocalStep(oracle, PointOf(s.futs, fr))
  {
    assert Ops(Remove(fr.outs, fr.p.slot)) == Remove(Ops(fr.outs), fr.p.slot);
  }

  /** Freeing the joined task keeps the tables and the frame in order. */
  lemma FreeKeeps(oracle: int -> int, s: State, L: Ledger, f: FutId, fr: Frame, r: int, s': State)
    requires TablesOk(oracle, s, L) && FrameOk(s, L, f, fr) && AtTask(fr) && Owed(s, fr, fr.p.slot)
    requires fr.outs[fr.p.slot].h !in s.inflight && fr.outs[fr.p.slot].h !in s.completed
    requires s'.live == s.live - {fr.outs[fr.p.slot].h}
    requires s'.inflight == s.inflight && s'.completed == s.completed && s'.futs == s.futs
    ensures TablesOk(oracle, s', L)
    ensures var fr' := Frame(fr.p.next, fr.env, Remove(fr.outs, fr.p.slot), fr.regs + [r]);
            FrameOk(s', L, f, fr') && Owed(s', fr', -1)
    ensures forall L': Ledger, f': FutId | f' != f && L'.owner == L.owner :: HandlesKept(s, L, s', L', f')
  {
  }

  lemma TakePlain(oracle: int -> int, s: State, L: Ledger) returns (L': Ledger)
    requires Inv(oracle, s, L) && Enabled(s, Take) && s.queue[0].value.None?
    ensures Inv(oracle, TakeNext(s), L') && Measure(TakeNext(s), L') < Measure(s, L)
  {
    var f, fr := s.queue[0].fib, s.queue[0].frame;
    var s' := TakeNext(s);
    L' := L.(places := L.places[f := Active(fr)]);
    assert FiberOk(oracle, s, L, f);
    AgreeTake(s, L.places, s', f, fr);
    assert FiberOk(oracle, s', L', f);
    MoveKeeps(oracle, s, L, s', L', f);
  }

  lemma TakeResumed(oracle: int -> int, s: State, L: Ledger) returns (L': Ledger)
    requires Inv(oracle, s, L) && Enabled(s, Take) && s.queue[0].value.Some?
    ensures Inv(oracle, TakeNext(s), L') && Measure(TakeNext(s), L') < Measure(s, L)
  {
    var f, fr, r := s.queue[0].fib, s.queue[0].frame, s.queue[0].value.value;
    var s' := TakeNext(s);
    var fr' := s'.running.value.frame;
    L' := L.(places := L.places[f := Active(fr')]);
    assert FiberOk(oracle, s, L, f);
    AgreeTake(s, L.places, s', f, fr');
    FreeKeeps(oracle, s, L, f, fr, r, s');
    JoinIsLocalStep(oracle, s, fr, r);
    LocalStepLeads(oracle, PointOf(s.futs, fr));
    FiberAdvances(oracle, s, L, s', L', f, fr, fr');
    MoveKeeps(oracle, s, L, s', L', f);
  }

  // --- Settle ------------------------------------------------------------------------------------

  /** The ledger after `f` settles: its waiters are woken. */
  function Woken(ps: seq<Place>, f: FutId): (ps': seq<Place>)
    ensures |ps'| == |ps|
  {
    seq(|ps|, i requires 0 <= i < |ps| =>
      if i == f then Finished
      else if ps[i].OnFuture? && ps[i].g == f then Ready(ps[i].frame, None)
      else ps[i])
  }

  lemma QueueSettle(s: State, ps: seq<Place>, f: FutId, s': State)
    requires QueueAgrees(s, ps) && f < |ps| && ps[f].Active? && f < |s.futs|
    requires WaitersAgree(s.futs[f].waiters, f, ps) && s'.queue == s.queue + WakeAll(s.futs[f].waiters)
    requires forall f' | 0 <= f' < |ps| && ps[f'].OnFuture? && ps[f'].g == f ::
               Wake(f', ps[f'].frame) in s.futs[f].waiters
    ensures QueueAgrees(s', Woken(ps, f))
  {
    var ws := s.futs[f].waiters;
    forall f' | 0 <= f' < |ps| && ps[f'].OnFuture? && ps[f'].g == f ensures Among(WakeAll(ws), f') {
      var j :| 0 <= j < |ws| && ws[j] == Wake(f', ps[f'].frame);
      assert WakeAll(ws)[j].fib == f';
    }
    QueueGrows(s, ps, s', Woken(ps, f), WakeAll(ws));
  }

  lemma FuturesSettle(s: State, ps: seq<Place>, f: FutId, o: Outcome<FutId>)
    requires FuturesAgree(s, ps) && |ps| == |s.futs| && f < |ps| && ps[f].Active?
    ensures FuturesAgree(Settle(s, f, o), Woken(ps, f))
  {
    var s', ps' := Settle(s, f, o), Woken(ps, f);
    forall g | 0 <= g < |s'.futs| ensures WaitersAgree(s'.futs[g].waiters, g, ps') {
      assert WaitersAgree(s.futs[g].waiters, g, ps);
    }
  }

  lemma AgreeSettle(s: State, ps: seq<Place>, f: FutId, o: Outcome<FutId>)
    requires Agree(s, ps) && s.running.Some? && s.running.value.fib == f && f < |ps|
    ensures Agree(Settle(s, f, o), Woken(ps, f))
  {
    QueueSettle(s, ps, f, Settle(s, f, o));
    FuturesSettle(s, ps, f, o);
    TasksSame(s, ps, Settle(s, f, o), Woken(ps, f));
  }

  lemma WokenOk(oracle: int -> int, s: State, L: Ledger, f: FutId, o: Outcome<FutId>, f': FutId)
    requires f < |s.futs| && f' < |s.futs| && f' != f && |L.places| == |s.futs| && s.futs[f].st.None?
    requires FiberOk(oracle, s, L, f')
    ensures FiberOk(oracle, Settle(s, f, o), L.(places := Woken(L.places, f)), f')
  {
    var s', L' := Settle(s, f, o), L.(places := Woken(L.places, f));
    if L'.places[f'] == L.places[f'] {
      FiberKept(oracle, s, L, s', L', f');
    } else {
      PointKept(s, s', L.places[f'].frame);
    }
  }

  lemma SettleCost(oracle: int -> int, s: State, L: Ledger, f: FutId, o: Outcome<FutId>)
    requires |L.places| == |s.futs| && f < |s.futs| && L.places[f].Active? && s.futs[f].st.None?
    requires forall f' | 0 <= f' < |s.futs| :: FiberOk(oracle, s, L, f')
    ensures CostAll(Settle(s, f, o).futs, Woken(L.places, f)) < CostAll(s.futs, L.places)
  {
    var s', ps' := Settle(s, f, o), Woken(L.places, f);
    forall f' | 0 <= f' < |s.futs| && f' != f ensures Cost(s'.futs, ps'[f']) <= Cost(s.futs, L.places[f']) {
      assert FiberOk(oracle, s, L, f');
    }
    CostAllFalls(s.futs, L.places, s'.futs, ps', f, 1);
  }

  lemma SettleKeeps(oracle: int -> int, s: State, L: Ledger, f: FutId, fr: Frame, o: Outcome<FutId>)
    returns (L': Ledger)
    requires Inv(oracle, s, L) && s.running == Some(Wake(f, fr)) && f < |s.futs| && FrameOk(s, L, f, fr)
    requires OutcomeIds(s, o) && Run(oracle, 0, PointOf(s.futs, fr)) == Some(OutcomeOf(s.futs, o))
    ensures Inv(oracle, Settle(s, f, o), L') && Measure(Settle(s, f, o), L') < Measure(s, L)
  {
    var s' := Settle(s, f, o);
    L' := L.(places := Woken(L.places, f));
    AgreeSettle(s, L.places, f, o);
    SettleCost(oracle, s, L, f, o);
    forall f' | 0 <= f' < |s.futs| ensures FiberOk(oracle, s', L', f') {
      assert FiberOk(oracle, s, L, f');
      if f' != f {
        WokenOk(oracle, s, L, f, o, f');
      }
    }
    assert FiberOk(oracle, s, L, f);
    LeadsToMeaning(oracle, s.futs[f].code, PointOf(s.futs, fr), 0);
    forall f' | 0 <= f' < |s.futs| ensures SettledOk(oracle, s', f') {
      assert SettledOk(oracle, s, f');
      SettleSettled(oracle, s, f, o, f');
    }
  }

  lemma SettleSettled(oracle: int -> int, s: State, f: FutId, o: Outcome<FutId>, f': FutId)
    requires f < |s.futs| && f' < |s.futs| && SettledOk(oracle, s, f')
    requires s.futs[f].st.None? && OutcomeIds(s, o) && Means(oracle, s.futs[f].code, OutcomeOf(s.futs, o))
    ensures SettledOk(oracle, Settle(s, f, o), f')
  {
    var s' := Settle(s, f, o);
    if f' != f {
      SettledKept(oracle, s, s', f');
    } else if o.Ok? {
      assert Codes(s'.futs, o.futs) == Codes(s.futs, o.futs);
    }
  }

  lemma {:induction false} PickCodes(futs: seq<Fut>, env: seq<FutId>, give: seq<nat>)
    requires forall i | 0 <= i < |env| :: env[i] < |futs|
    ensures var picked := Pick(env, give); forall i | 0 <= i < |picked| :: picked[i] < |futs|
    ensures Codes(futs, Pick(env, give)) == Pick(Codes(futs, env), give)
  {
    if give != [] {
      PickCodes(futs, env, give[1..]);
    }
  }

  // --- Tasks -------------------------------------------------------------------------------------

  lemma SubmitTables(oracle: int -> int, s: State, L: Ledger, f: FutId, fr: Frame, alloc: Handle, s': State,
                     L': Ledger, fr': Frame)
    requires TablesOk(oracle, s, L) && FrameOk(s, L, f, fr) && Owed(s, fr, -1) && fr.p.Submit?
    requires alloc != 0 && alloc !in s.live && L'.owner == L.owner[alloc := f] && s'.futs == s.futs
    requires s'.live == s.live[alloc := fr.p.op(fr.regs)] && s'.inflight == s.inflight + {alloc}
    requires s'.completed == s.completed
    requires fr' == Frame(fr.p.next, fr.env, fr.outs + [Sub(alloc, fr.p.op(fr.regs))], fr.regs)
    ensures TablesOk(oracle, s', L') && FrameOk(s', L', f, fr') && Owed(s', fr', -1)
    ensures forall f' | f' != f :: HandlesKept(s, L, s', L', f')
    ensures PointOf(s.futs, fr') == LocalStep(oracle, PointOf(s.futs, fr))
  {
    assert Ops(fr'.outs) == Ops(fr.outs) + [fr.p.op(fr.regs)];
  }

  lemma SubmitKeeps(oracle: int -> int, s: State, L: Ledger, f: FutId, fr: Frame, alloc: Handle) returns (L': Ledger)
    requires Inv(oracle, s, L) && Enabled(s, Exec(alloc)) && s.running == Some(Wake(f, fr)) && fr.p.Submit?
    ensures Inv(oracle, ExecOne(s, alloc), L') && Measure(ExecOne(s, alloc), L') < Measure(s, L)
  {
    var s' := ExecOne(s, alloc);
    var fr' := s'.running.value.frame;
    L' := Ledger(L.places[f := Active(fr')], L.owner[alloc := f]);
    assert FiberOk(oracle, s, L, f);
    SubmitTables(oracle, s, L, f, fr, alloc, s', L', fr');
    LocalStepLeads(oracle, PointOf(s.futs, fr));
    AdvanceKeeps(oracle, s, L, s', L', f, fr, fr');
  }

  lemma EarlyKeeps(oracle: int -> int, s: State, L: Ledger, f: FutId, fr: Frame) returns (L': Ledger)
    requires Inv(oracle, s, L) && s.running == Some(Wake(f, fr)) && f < |s.futs| && FrameOk(s, L, f, fr)
    requires AtTask(fr) && fr.outs[fr.p.slot].h in s.completed
    ensures Inv(oracle, AwaitTask(s, f, fr), L') && Measure(AwaitTask(s, f, fr), L') < Measure(s, L)
  {
    var h := fr.outs[fr.p.slot].h;
    var s1, s' := s.(completed := s.completed - {h}), AwaitTask(s, f, fr);
    var fr' := s'.running.value.frame;
    L' := L.(places := L.places[f := Active(fr')]);
    assert FiberOk(oracle, s, L, f);
    FreeKeeps(oracle, s1, L, f, fr, s.completed[h], s');
    JoinIsLocalStep(oracle, s, fr, s.completed[h]);
    LocalStepLeads(oracle, PointOf(s.futs, fr));
    AdvanceKeeps(oracle, s, L, s', L', f, fr, fr');
  }

  lemma AgreeParkTask(s: State, ps: seq<Place>, f: FutId, fr: Frame, h: Handle)
    requires Agree(s, ps) && s.running == Some(Wake(f, fr)) && f < |ps|
    requires h !in s.waiters
    ensures Agree(s.(waiters := s.waiters[h := Wake(f, fr)], running := None), ps[f := OnTask(h, fr)])
  {
    var s', ps' := s.(waiters := s.waiters[h := Wake(f, fr)], running := None), ps[f := OnTask(h, fr)];
    QueueSame(s, ps, s', ps');
    FuturesSame(s, ps, s', ps');
  }

  /** Nobody else is parked under a handle of the running fiber. */
  lemma NobodyUnder(oracle: int -> int, s: State, L: Ledger, f: FutId, h: Handle)
    requires Inv(oracle, s, L) && f < |L.places| && L.places[f].Active? && h in L.owner && L.owner[h] == f
    ensures h !in s.waiters
  {
    forall h' | h' in s.waiters ensures h' != h {
      assert FiberOk(oracle, s, L, s.waiters[h'].fib);
    }
  }

  lemma ParkedOk(oracle: int -> int, s: State, L: Ledger, f: FutId, fr: Frame, s': State, L': Ledger)
    requires f < |s.futs| && f < |L.places| && f < |L'.places| && L.places[f] == Active(fr) && FiberOk(oracle, s, L, f)
    requires AtTask(fr) && fr.outs[fr.p.slot].h !in s.completed && L'.owner == L.owner
    requires s' == s.(waiters := s'.waiters, running := None) && L'.places[f] == OnTask(fr.outs[fr.p.slot].h, fr)
    ensures FiberOk(oracle, s', L', f)
  {
  }

  lemma ParkTaskKeeps(oracle: int -> int, s: State, L: Ledger, f: FutId, fr: Frame) returns (L': Ledger)
    requires Inv(oracle, s, L) && s.running == Some(Wake(f, fr)) && f < |s.futs| && FrameOk(s, L, f, fr)
    requires AtTask(fr) && fr.outs[fr.p.slot].h !in s.completed
    ensures Inv(oracle, AwaitTask(s, f, fr), L') && Measure(AwaitTask(s, f, fr), L') < Measure(s, L)
  {
    var h := fr.outs[fr.p.slot].h;
    var s' := AwaitTask(s, f, fr);
    L' := L.(places := L.places[f := OnTask(h, fr)]);
    assert FiberOk(oracle, s, L, f);
    NobodyUnder(oracle, s, L, f, h);
    AgreeParkTask(s, L.places, f, fr, h);
    ParkedOk(oracle, s, L, f, fr, s', L');
    MoveKeeps(oracle, s, L, s', L', f);
  }

  // --- Futures -----------------------------------------------------------------------------------

  lemma FuturesPark(s: State, ps: seq<Place>, f: FutId, fr: Frame, g: FutId)
    requires FuturesAgree(s, ps) && f < |ps| && ps[f].Active? && g < |s.futs| && s.futs[g].st.None?
    ensures FuturesAgree(s.(futs := s.futs[g := s.futs[g].(waiters := [Wake(f, fr)] + s.futs[g].waiters)],
                            running := None),
                         ps[f := OnFuture(g, fr)])
  {
    var s' := s.(futs := s.futs[g := s.futs[g].(waiters := [Wake(f, fr)] + s.futs[g].waiters)], running := None);
    var ps' := ps[f := OnFuture(g, fr)];
    forall g' | 0 <= g' < |s'.futs| ensures WaitersAgree(s'.futs[g'].waiters, g', ps') {
      assert WaitersAgree(s.futs[g'].waiters, g', ps);
    }
    forall f' | 0 <= f' < |ps'| && ps'[f'].OnFuture?
      ensures ps'[f'].g < |s'.futs| && Wake(f', ps'[f'].frame) in s'.futs[ps'[f'].g].waiters
    {
      if f' == f {
        assert s'.futs[g].waiters[0] == Wake(f, fr);
      }
    }
  }

  lemma AgreeParkFuture(s: State, ps: seq<Place>, f: FutId, fr: Frame, g: FutId)
    requires Agree(s, ps) && s.running == Some(Wake(f, fr)) && f < |ps| && g < |s.futs| && s.futs[g].st.None?
    ensures Agree(s.(futs := s.futs[g := s.futs[g].(waiters := [Wake(f, fr)] + s.futs[g].waiters)], running := None),
                  ps[f := OnFuture(g, fr)])
  {
    var s' := s.(futs := s.futs[g := s.futs[g].(waiters := [Wake(f, fr)] + s.futs[g].waiters)], running := None);
    var ps' := ps[f := OnFuture(g, fr)];
    QueueSame(s, ps, s', ps');
    TasksSame(s, ps, s', ps');
    FuturesPark(s, ps, f, fr, g);
  }

  lemma ParkFutureKeeps(oracle: int -> int, s: State, L: Ledger, f: FutId, fr: Frame) returns (L': Ledger)
    requires Inv(oracle, s, L) && s.running == Some(Wake(f, fr)) && f < |s.futs| && FrameOk(s, L, f, fr)
    requires AtFuture(fr) && s.futs[fr.env[fr.p.fut]].st.None?
    ensures Inv(oracle, AwaitFuture(s, f, fr), L') && Measure(AwaitFuture(s, f, fr), L') < Measure(s, L)
  {
    var g := fr.env[fr.p.fut];
    var s' := AwaitFuture(s, f, fr);
    L' := L.(places := L.places[f := OnFuture(g, fr)]);
    assert FiberOk(oracle, s, L, f);
    AgreeParkFuture(s, L.places, f, fr, g);
    PointKept(s, s', fr);
    assert FiberOk(oracle, s', L', f);
    MoveKeeps(oracle, s, L, s', L', f);
  }

  lemma AnswerPoint(oracle: int -> int, s: State, f: FutId, fr: Frame) returns (fr': Frame)
    requires AtFuture(fr) && forall i | 0 <= i < |fr.env| :: fr.env[i] < |s.futs|
    requires var g := fr.env[fr.p.fut]; s.futs[g].st.Some? && SettledOk(oracle, s, g)
    ensures AwaitFuture(s, f, fr) == s.(running := Some(Wake(f, fr'))) && fr'.outs == fr.outs
    ensures forall i | 0 <= i < |fr'.env| :: fr'.env[i] < |s.futs|
    ensures Leads(oracle, PointOf(s.futs, fr), PointOf(s.futs, fr')) && Size(fr'.p) < Size(fr.p)
  {
    var o := s.futs[fr.env[fr.p.fut]].st.value;
    fr' := AwaitFuture(s, f, fr).running.value.frame;
    if o.Ok? {
      assert Codes(s.futs, fr.env + o.futs) == Codes(s.futs, fr.env) + Codes(s.futs, o.futs);
    }
    AnswerLeads(oracle, PointOf(s.futs, fr), OutcomeOf(s.futs, o));
  }

  /** The running fiber goes on without touching a task. */
  lemma GoOnKeeps(oracle: int -> int, s: State, L: Ledger, f: FutId, fr: Frame, fr': Frame) returns (L': Ledger)
    requires Inv(oracle, s, L) && s.running == Some(Wake(f, fr)) && f < |s.futs| && FrameOk(s, L, f, fr)
    requires fr'.outs == fr.outs && forall i | 0 <= i < |fr'.env| :: fr'.env[i] < |s.futs|
    requires Leads(oracle, PointOf(s.futs, fr), PointOf(s.futs, fr')) && Size(fr'.p) < Size(fr.p)
    ensures Inv(oracle, s.(running := Some(Wake(f, fr'))), L')
    ensures Measure(s.(running := Some(Wake(f, fr'))), L') < Measure(s, L)
  {
    L' := L.(places := L.places[f := Active(fr')]);
    assert FiberOk(oracle, s, L, f);
    AdvanceKeeps(oracle, s, L, s.(running := Some(Wake(f, fr'))), L', f, fr, fr');
  }

  // --- Spawn -------------------------------------------------------------------------------------

  function Born(children: seq<Prog>, env: seq<FutId>, regs: Registers): (ps: seq<Place>)
    ensures |ps| == |children|
    ensures forall i | 0 <= i < |children| :: ps[i] == Ready(Frame(children[i], env, [], regs), None)
  {
    seq(|children|, i requires 0 <= i < |children| => Ready(Frame(children[i], env, [], regs), None))
  }

  lemma QueueSpawn(s: State, ps: seq<Place>, s': State, ps': seq<Place>, children: seq<Prog>, env: seq<FutId>,
                   regs: Registers)
    requires QueueAgrees(s, ps) && |ps'| == |ps| + |children|
    requires s'.queue == s.queue + NewItems(|ps|, children, env, regs)
    requires forall f | 0 <= f < |ps| && (ps[f].Ready? || ps'[f].Ready?) :: ps'[f] == ps[f]
    requires forall f | |ps| <= f < |ps'| :: ps'[f] == Ready(Frame(children[f - |ps|], env, [], regs), None)
    ensures QueueAgrees(s', ps')
  {
    var items := NewItems(|ps|, children, env, regs);
    forall f | |ps| <= f < |ps'| ensures Among(items, f) {
      assert items[f - |ps|].fib == f;
    }
    QueueGrows(s, ps, s', ps', items);
  }

  lemma AgreeSpawn(s: State, ps: seq<Place>, f: FutId, fr: Frame, s': State, ps': seq<Place>, env': seq<FutId>)
    requires Agree(s, ps) && s.running == Some(Wake(f, fr)) && f < |ps| && fr.p.Spawn?
    requires forall i | 0 <= i < |fr.env| :: fr.env[i] < |s.futs|
    requires s' == SpawnAll(s, f, fr) && env' == fr.env + NewIds(|s.futs|, |fr.p.children|)
    requires |ps'| == |ps| + |fr.p.children|
    requires forall f' | 0 <= f' < |ps| && f' != f :: ps'[f'] == ps[f']
    requires ps'[f] == Active(Frame(fr.p.next, env', fr.outs, fr.regs))
    requires forall f' | |ps| <= f' < |ps'| ::
               ps'[f'] == Ready(Frame(fr.p.children[f' - |ps|], env', [], fr.regs), None)
    ensures Agree(s', ps')
  {
    QueueSpawn(s, ps, s', ps', fr.p.children, env', fr.regs);
    TasksSame(s, ps, s', ps');
    FuturesSame(s, ps, s', ps');
  }

  /** The group's ids name exactly the closures the reference evaluator makes for the group. */
  lemma SpawnCodes(s: State, f: FutId, fr: Frame, s': State, env': seq<FutId>)
    requires fr.p.Spawn? && forall i | 0 <= i < |fr.env| :: fr.env[i] < |s.futs|
    requires s' == SpawnAll(s, f, fr) && env' == fr.env + NewIds(|s.futs|, |fr.p.children|)
    ensures forall i | 0 <= i < |env'| :: env'[i] < |s'.futs|
    ensures Codes(s'.futs, env') ==
            Codes(s.futs, fr.env) + Siblings(fr.p.children, Codes(s.futs, fr.env), fr.regs)
  {
    var group := Siblings(fr.p.children, Codes(s.futs, fr.env), fr.regs);
    forall i | 0 <= i < |env'|
      ensures env'[i] < |s'.futs| && s'.futs[env'[i]].code == (Codes(s.futs, fr.env) + group)[i]
    {
    }
  }

  lemma BornOk(oracle: int -> int, s: State, f: FutId, fr: Frame, s': State, L': Ledger, i: nat, env': seq<FutId>)
    requires fr.p.Spawn? && forall i | 0 <= i < |fr.env| :: fr.env[i] < |s.futs|
    requires s' == SpawnAll(s, f, fr) && env' == fr.env + NewIds(|s.futs|, |fr.p.children|)
    requires i < |fr.p.children| && |L'.places| == |s'.futs|
    requires L'.places[|s.futs| + i] == Ready(Frame(fr.p.children[i], env', [], fr.regs), None)
    ensures FiberOk(oracle, s', L', |s.futs| + i)
  {
    var child := Frame(fr.p.children[i], env', [], fr.regs);
    SpawnCodes(s, f, fr, s', env');
    assert Start(s'.futs[|s.futs| + i].code) == PointOf(s'.futs, child);
    LeadsReflexive(oracle, PointOf(s'.futs, child));
  }

  lemma SpawnerOk(oracle: int -> int, s: State, L: Ledger, f: FutId, fr: Frame, s': State, L': Ledger, env': seq<FutId>)
    requires f < |s.futs| && f < |L.places| && f < |L'.places| && fr.p.Spawn?
    requires !L.places[f].Finished? && L.places[f].frame == fr && FiberOk(oracle, s, L, f) && Owed(s, fr, -1)
    requires s' == SpawnAll(s, f, fr) && env' == fr.env + NewIds(|s.futs|, |fr.p.children|)
    requires L'.owner == L.owner && L'.places[f] == Active(Frame(fr.p.next, env', fr.outs, fr.regs))
    ensures FiberOk(oracle, s', L', f)
  {
    SpawnCodes(s, f, fr, s', env');
    var a, b := PointOf(s.futs, fr), PointOf(s'.futs, Frame(fr.p.next, env', fr.outs, fr.regs));
    assert b == LocalStep(oracle, a);
    LocalStepLeads(oracle, a);
    LeadsTransitive(oracle, Start(s.futs[f].code), a, b);
  }

  lemma SpawnFibers(oracle: int -> int, s: State, L: Ledger, f: FutId, fr: Frame, s': State, L': Ledger,
                    env': seq<FutId>)
    requires |L.places| == |s.futs| && forall f' | 0 <= f' < |s.futs| :: FiberOk(oracle, s, L, f')
    requires f < |s.futs| && L.places[f].Active? && L.places[f].frame == fr && fr.p.Spawn?
    requires FrameOk(s, L, f, fr)
    requires s' == SpawnAll(s, f, fr) && env' == fr.env + NewIds(|s.futs|, |fr.p.children|)
    requires L' == L.(places := L.places[f := Active(Frame(fr.p.next, env', fr.outs, fr.regs))]
                                + Born(fr.p.children, env', fr.regs))
    ensures forall f' | 0 <= f' < |s'.futs| :: FiberOk(oracle, s', L', f')
  {
    assert FiberOk(oracle, s, L, f);
    OthersKept(oracle, s, L, s', L', f);
    SpawnerOk(oracle, s, L, f, fr, s', L', env');
    forall f' | |s.futs| <= f' < |s'.futs| ensures FiberOk(oracle, s', L', f') {
      BornOk(oracle, s, f, fr, s', L', f' - |s.futs|, env');
    }
  }

  lemma {:induction false} BornCost(futs: seq<Fut>, ps: seq<Place>, children: seq<Prog>, env: seq<FutId>,
                                    regs: Registers)
    ensures CostAll(futs, ps + Born(children, env, regs)) <= CostAll(futs, ps) + 5 * SizeAll(children)
    decreases |children|
  {
    if children == [] {
      assert ps + Born(children, env, regs) == ps;
    } else {
      var first := Ready(Frame(children[0], env, [], regs), None);
      assert ps + Born(children, env, regs) == (ps + [first]) + Born(children[1..], env, regs);
      BornCost(futs, ps + [first], children[1..], env, regs);
      assert (ps + [first])[..|ps|] == ps;
    }
  }

  lemma {:induction false} SpawnCost(s: State, ps: seq<Place>, f: FutId, fr: Frame, env': seq<FutId>, s': State)
    requires |ps| == |s.futs| <= |s'.futs| && f < |ps| && ps[f] == Active(fr) && fr.p.Spawn?
    requires forall g | 0 <= g < |s.futs| :: s'.futs[g].st == s.futs[g].st
    requires forall g | |s.futs| <= g < |s'.futs| :: s'.futs[g].st.None?
    ensures CostAll(s'.futs,
              ps[f := Active(Frame(fr.p.next, env', fr.outs, fr.regs))] + Born(fr.p.children, env', fr.regs))
            < CostAll(s.futs, ps)
  {
    var ps1 := ps[f := Active(Frame(fr.p.next, env', fr.outs, fr.regs))];
    BornCost(s'.futs, ps1, fr.p.children, env', fr.regs);
    CostAllFalls(s.futs, ps, s'.futs, ps1, f, 5 * SizeAll(fr.p.children) + 1);
  }

  lemma AgreeSpawned(s: State, ps: seq<Place>, f: FutId, fr: Frame, s': State, env': seq<FutId>)
    requires Agree(s, ps) && s.running == Some(Wake(f, fr)) && f < |ps| && fr.p.Spawn?
    requires forall i | 0 <= i < |fr.env| :: fr.env[i] < |s.futs|
    requires s' == SpawnAll(s, f, fr) && env' == fr.env + NewIds(|s.futs|, |fr.p.children|)
    ensures Agree(s', ps[f := Active(Frame(fr.p.next, env', fr.outs, fr.regs))] + Born(fr.p.children, env', fr.regs))
  {
    var ps' := ps[f := Active(Frame(fr.p.next, env', fr.outs, fr.regs))] + Born(fr.p.children, env', fr.regs);
    AgreeSpawn(s, ps, f, fr, s', ps', env');
  }

  lemma SpawnGrows(oracle: int -> int, s: State, L: Ledger, f: FutId, fr: Frame, s': State, L': Ledger)
    requires fr.p.Spawn? && (forall i | 0 <= i < |fr.env| :: fr.env[i] < |s.futs|) && s' == SpawnAll(s, f, fr)
    requires TablesOk(oracle, s, L) && L'.owner == L.owner
    ensures Grows(s, s') && TablesOk(oracle, s', L')
    ensures forall g | 0 <= g < |s.futs| :: s'.futs[g].st == s.futs[g].st
    ensures forall g | |s.futs| <= g < |s'.futs| :: s'.futs[g].st.None?
  {
  }

  lemma SpawnKeeps(oracle: int -> int, s: State, L: Ledger, f: FutId, fr: Frame) returns (L': Ledger)
    requires Inv(oracle, s, L) && s.running == Some(Wake(f, fr)) && f < |s.futs| && FrameOk(s, L, f, fr) && fr.p.Spawn?
    ensures Inv(oracle, SpawnAll(s, f, fr), L') && Measure(SpawnAll(s, f, fr), L') < Measure(s, L)
  {
    var s', env' := SpawnAll(s, f, fr), fr.env + NewIds(|s.futs|, |fr.p.children|);
    L' := L.(places := L.places[f := Active(Frame(fr.p.next, env', fr.outs, fr.regs))]
                       + Born(fr.p.children, env', fr.regs));
    SpawnGrows(oracle, s, L, f, fr, s', L');
    AgreeSpawned(s, L.places, f, fr, s', env');
    SpawnFibers(oracle, s, L, f, fr, s', L', env');
    SpawnCost(s, L.places, f, fr, env', s');
    SettledSame(oracle, s, s');
  }

  // --- Deliver -----------------------------------------------------------------------------------

  lemma QueueDeliver(s: State, ps: seq<Place>, h: Handle, s': State, ps': seq<Place>, it: Item)
    requires QueueAgrees(s, ps) && it.fib < |ps| && ps[it.fib].OnTask? && s'.queue == s.queue + [it]
    requires ps' == ps[it.fib := Ready(it.frame, it.value)]
    ensures QueueAgrees(s', ps')
  {
    assert Among([it], it.fib) by {
      assert [it][0].fib == it.fib;
    }
    QueueGrows(s, ps, s', ps', [it]);
  }

  lemma TasksDeliver(s: State, ps: seq<Place>, h: Handle, s': State, ps': seq<Place>)
    requires TasksAgree(s, ps) && h in s.waiters && s.waiters[h].fib < |ps| && s'.waiters == s.waiters - {h}
    requires |ps'| == |ps| && !ps'[s.waiters[h].fib].OnTask?
    requires forall f | 0 <= f < |ps| && f != s.waiters[h].fib :: ps'[f] == ps[f]
    ensures TasksAgree(s', ps')
  {
  }

  lemma AgreeDeliver(s: State, ps: seq<Place>, h: Handle, s': State, r: int)
    requires Agree(s, ps) && h in s.waiters
    requires s'.futs == s.futs && s'.running == s.running && s'.waiters == s.waiters - {h}
    requires s'.queue == s.queue + [Item(s.waiters[h].fib, s.waiters[h].frame, Some(r))]
    ensures s.waiters[h].fib < |ps| && Agree(s', ps[s.waiters[h].fib := Ready(s.waiters[h].frame, Some(r))])
  {
    var f := s.waiters[h].fib;
    var ps' := ps[f := Ready(s.waiters[h].frame, Some(r))];
    QueueDeliver(s, ps, h, s', ps', Item(f, s.waiters[h].frame, Some(r)));
    TasksDeliver(s, ps, h, s', ps');
    FuturesSame(s, ps, s', ps');
  }

  lemma DeliveredOk(oracle: int -> int, s: State, L: Ledger, h: Handle, fr: Frame, s': State, L': Ledger, f: FutId)
    requires TablesOk(oracle, s, L) && h in s.live && f < |s.futs| && f < |L.places| && f < |L'.places|
    requires L.places[f] == OnTask(h, fr) && FiberOk(oracle, s, L, f) && L'.owner == L.owner
    requires s'.futs == s.futs && s'.live == s.live && s'.inflight == s.inflight - {h} && s'.completed == s.completed
    requires L'.places[f] == Ready(fr, Some(oracle(s.live[h])))
    ensures TablesOk(oracle, s', L') && FiberOk(oracle, s', L', f)
    ensures forall f' | 0 <= f' < |s.futs| && f' != f :: HandlesKept(s, L, s', L', f')
  {
  }

  lemma DeliverWakes(oracle: int -> int, s: State, L: Ledger, h: Handle) returns (L': Ledger)
    requires Inv(oracle, s, L) && Enabled(s, Deliver(h)) && h in s.waiters
    ensures Inv(oracle, DeliverOne(oracle, s, h), L') && Measure(DeliverOne(oracle, s, h), L') < Measure(s, L)
  {
    var s', r := DeliverOne(oracle, s, h), oracle(s.live[h]);
    var f, fr := s.waiters[h].fib, s.waiters[h].frame;
    L' := L.(places := L.places[f := Ready(fr, Some(r))]);
    assert FiberOk(oracle, s, L, f);
    DeliveredOk(oracle, s, L, h, fr, s', L', f);
    AgreeDeliver(s, L.places, h, s', r);
    MoveKeeps(oracle, s, L, s', L', f);
  }

  lemma AgreeStash(s: State, ps: seq<Place>, s': State)
    requires Agree(s, ps)
    requires s'.futs == s.futs && s'.running == s.running && s'.waiters == s.waiters && s'.queue == s.queue
    ensures Agree(s', ps)
  {
    QueueSame(s, ps, s', ps);
  }

  lemma StashOk(oracle: int -> int, s: State, L: Ledger, h: Handle, s': State, f: FutId)
    requires f < |s.futs| && f < |L.places| && FiberOk(oracle, s, L, f) && h in s.inflight
    requires L.places[f].OnTask? ==> L.places[f].h != h
    requires h in s'.completed
    requires s' == s.(inflight := s.inflight - {h}, completed := s.completed[h := s'.completed[h]])
    ensures FiberOk(oracle, s', L, f)
  {
  }

  lemma DeliverStashes(oracle: int -> int, s: State, L: Ledger, h: Handle)
    requires Inv(oracle, s, L) && Enabled(s, Deliver(h)) && h !in s.waiters
    ensures Inv(oracle, DeliverOne(oracle, s, h), L) && Measure(DeliverOne(oracle, s, h), L) < Measure(s, L)
  {
    var s' := DeliverOne(oracle, s, h);
    AgreeStash(s, L.places, s');
    CostAllFalls(s.futs, L.places, s'.futs, L.places, 0, 0);
    forall f | 0 <= f < |s.futs| ensures FiberOk(oracle, s', L, f) {
      assert FiberOk(oracle, s, L, f);
      StashOk(oracle, s, L, h, s', f);
    }
    SettledSame(oracle, s, s');
  }

  // --- All events --------------------------------------------------------------------------------

  lemma AwaitKeeps(oracle: int -> int, s: State, L: Ledger, f: FutId, fr: Frame) returns (L': Ledger)
    requires Inv(oracle, s, L) && s.running == Some(Wake(f, fr)) && f < |s.futs| && FiberOk(oracle, s, L, f)
    requires AtFuture(fr) && fr.env[fr.p.fut] < |s.futs|
    ensures Inv(oracle, AwaitFuture(s, f, fr), L') && Measure(AwaitFuture(s, f, fr), L') < Measure(s, L)
  {
    if s.futs[fr.env[fr.p.fut]].st.None? {
      L' := ParkFutureKeeps(oracle, s, L, f, fr);
    } else {
      var fr' := AnswerPoint(oracle, s, f, fr);
      L' := GoOnKeeps(oracle, s, L, f, fr, fr');
    }
  }

  /** Instructions that end the fiber: return, raise, or await something that is not there. */
  predicate Ends(fr: Frame) {
    fr.p.Return? || fr.p.Raise? || (fr.p.Join? && fr.p.slot >= |fr.outs|) || (fr.p.Await? && fr.p.fut >= |fr.env|)
  }

  lemma EndKeeps(oracle: int -> int, s: State, L: Ledger, alloc: Handle) returns (L': Ledger)
    requires Inv(oracle, s, L) && Enabled(s, Exec(alloc)) && Ends(s.running.value.frame)
    ensures Inv(oracle, ExecOne(s, alloc), L') && Measure(ExecOne(s, alloc), L') < Measure(s, L)
  {
    var f, fr := s.running.value.fib, s.running.value.frame;
    assert FiberOk(oracle, s, L, f);
    match fr.p
    case Return(result, give) =>
      PickCodes(s.futs, fr.env, give);
      L' := SettleKeeps(oracle, s, L, f, fr, Ok(result(fr.regs), Pick(fr.env, give)));
    case Raise(condition) => L' := SettleKeeps(oracle, s, L, f, fr, Err(condition(fr.regs)));
    case _ => L' := SettleKeeps(oracle, s, L, f, fr, Err(NOT_AWAITABLE));
  }

  lemma ExecKeeps(oracle: int -> int, s: State, L: Ledger, alloc: Handle) returns (L': Ledger)
    requires Inv(oracle, s, L) && Enabled(s, Exec(alloc)) && !Ends(s.running.value.frame)
    ensures Inv(oracle, ExecOne(s, alloc), L') && Measure(ExecOne(s, alloc), L') < Measure(s, L)
  {
    var f, fr := s.running.value.fib, s.running.value.frame;
    assert FiberOk(oracle, s, L, f);
    match fr.p
    case Submit(_, _) => L' := SubmitKeeps(oracle, s, L, f, fr, alloc);
    case Join(slot, _) =>
      if fr.outs[slot].h in s.completed {
        L' := EarlyKeeps(oracle, s, L, f, fr);
      } else {
        L' := ParkTaskKeeps(oracle, s, L, f, fr);
      }
    case Spawn(_, _) => L' := SpawnKeeps(oracle, s, L, f, fr);
    case Await(_, _, _) => L' := AwaitKeeps(oracle, s, L, f, fr);
    case If(test, yes, no) =>
      LocalStepLeads(oracle, PointOf(s.futs, fr));
      L' := GoOnKeeps(oracle, s, L, f, fr, fr.(p := if test(fr.regs) then yes else no));
  }

  lemma NextKeeps(oracle: int -> int, s: State, L: Ledger, e: Event) returns (L': Ledger)
    requires Inv(oracle, s, L) && Enabled(s, e)
    ensures Inv(oracle, Next(oracle, s, e), L') && Measure(Next(oracle, s, e), L') < Measure(s, L)
  {
    match e
    case Take =>
      if s.queue[0].value.None? {
        L' := TakePlain(oracle, s, L);
      } else {
        L' := TakeResumed(oracle, s, L);
      }
    case Exec(alloc) =>
      if Ends(s.running.value.frame) {
        L' := EndKeeps(oracle, s, L, alloc);
      } else {
        L' := ExecKeeps(oracle, s, L, alloc);
      }
    case Deliver(h) =>
      if h in s.waiters {
        L' := DeliverWakes(oracle, s, L, h);
      } else {
        DeliverStashes(oracle, s, L, h);
        L' := L;
      }
  }

  lemma InitFiber(oracle: int -> int, root: Prog, L: Ledger)
    requires L == Ledger([Ready(Frame(root, [], [], []), None)], map[])
    ensures FiberOk(oracle, Init(root), L, ROOT) && Agree(Init(root), L.places)
  {
    var s, fr := Init(root), Frame(root, [], [], []);
    assert Among(s.queue, ROOT) by {
      assert s.queue[0].fib == ROOT;
    }
    assert Start(RootRef(root)) == PointOf(s.futs, fr);
    LeadsReflexive(oracle, PointOf(s.futs, fr));
  }

  lemma InitInv(oracle: int -> int, root: Prog) returns (L: Ledger)
    ensures Inv(oracle, Init(root), L) && Measure(Init(root), L) <= 5 * Size(root) + 5
  {
    L := Ledger([Ready(Frame(root, [], [], []), None)], map[]);
    InitFiber(oracle, root, L);
    assert CostAll(Init(root).futs, L.places[..0]) == 0;
  }

  /** The invariant holds in every reachable state. */
  lemma {:induction false} RunKeeps(oracle: int -> int, root: Prog, run: seq<Event>) returns (L: Ledger)
    requires After(oracle, root, run).Some?
    ensures Inv(oracle, After(oracle, root, run).value, L)
    ensures |run| + Measure(After(oracle, root, run).value, L) <= 5 * Size(root) + 5
    decreases |run|
  {
    if run == [] {
      L := InitInv(oracle, root);
    } else {
      var last := |run| - 1;
      var L0 := RunKeeps(oracle, root, run[..last]);
      L := NextKeeps(oracle, After(oracle, root, run[..last]).value, L0, run[last]);
    }
  }
}
