/**
  The global invariant of the scheduler.

  A ledger says, for every fiber, where its one continuation is. The invariant says that the ready
  queue, the `waiters` table, the future waiter lists and the running slot hold exactly what the
  ledger says and nothing else, that handles in any table name live tasks of the right owner, and
  that each continuation still computes what the fiber's program means.
 */
module SchedulerInvariant {
  import opened Common
  import opened Fibers
  import opened SchedulerSpec

  /** Where a fiber is, with its continuation. */
  datatype Place =
    | Ready(frame: Frame, value: Option<int>)
    | OnTask(h: Handle, frame: Frame)
    | OnFuture(g: FutId, frame: Frame)
    | Active(frame: Frame)
    | Finished

  datatype Ledger = Ledger(places: seq<Place>, owner: map<Handle, FutId>)

  // --- The tables agree with the ledger ----------------------------------------------------------

  ghost predicate QueueAgrees(s: State, ps: seq<Place>) {
    && (forall i | 0 <= i < |s.queue| ::
          s.queue[i].fib < |ps| && ps[s.queue[i].fib] == Ready(s.queue[i].frame, s.queue[i].value))
    && (forall i, j | 0 <= i < j < |s.queue| :: s.queue[i].fib != s.queue[j].fib)
    && (forall f | 0 <= f < |ps| && ps[f].Ready? :: Among(s.queue, f))
  }

  ghost predicate Among(items: seq<Item>, f: FutId) {
    exists i | 0 <= i < |items| :: items[i].fib == f
  }

  ghost predicate TasksAgree(s: State, ps: seq<Place>) {
    && (forall h | h in s.waiters ::
          s.waiters[h].fib < |ps| && ps[s.waiters[h].fib] == OnTask(h, s.waiters[h].frame))
    && (forall f | 0 <= f < |ps| && ps[f].OnTask? ::
          ps[f].h in s.waiters && s.waiters[ps[f].h] == Wake(f, ps[f].frame))
  }

  ghost predicate WaitersAgree(ws: seq<Wake>, g: FutId, ps: seq<Place>) {
    && (forall j | 0 <= j < |ws| :: ws[j].fib < |ps| && ps[ws[j].fib] == OnFuture(g, ws[j].frame))
    && (forall i, j | 0 <= i < j < |ws| :: ws[i].fib != ws[j].fib)
  }

  ghost predicate FuturesAgree(s: State, ps: seq<Place>) {
    && (forall g | 0 <= g < |s.futs| :: WaitersAgree(s.futs[g].waiters, g, ps))
    && (forall g | 0 <= g < |s.futs| && s.futs[g].st.Some? :: s.futs[g].waiters == [])
    && (forall f | 0 <= f < |ps| && ps[f].OnFuture? ::
          ps[f].g < |s.futs| && Wake(f, ps[f].frame) in s.futs[ps[f].g].waiters)
  }

  ghost predicate RunningAgrees(s: State, ps: seq<Place>) {
    && (s.running.Some? ==>
          s.running.value.fib < |ps| && ps[s.running.value.fib] == Active(s.running.value.frame))
    && (forall f | 0 <= f < |ps| && ps[f].Active? :: s.running.Some? && s.running.value.fib == f)
  }

  ghost predicate Agree(s: State, ps: seq<Place>) {
    && |ps| == |s.futs|
    && QueueAgrees(s, ps) && TasksAgree(s, ps) && FuturesAgree(s, ps) && RunningAgrees(s, ps)
    && (forall f | 0 <= f < |ps| :: ps[f].Finished? <==> s.futs[f].st.Some?)
  }

  // --- Handles -----------------------------------------------------------------------------------

  /** Every handle in a table is live; an early result is the result of the handle's own task. */
  ghost predicate TablesOk(oracle: int -> int, s: State, L: Ledger) {
    && 0 !in s.live
    && s.inflight <= s.live.Keys <= L.owner.Keys
    && s.completed.Keys !! s.inflight
    && (forall h | h in s.completed :: h in s.live && s.completed[h] == oracle(s.live[h]))
  }

  ghost predicate FrameOk(s: State, L: Ledger, f: FutId, fr: Frame) {
    && (forall i | 0 <= i < |fr.env| :: fr.env[i] < |s.futs|)
    && (forall i | 0 <= i < |fr.outs| ::
          && fr.outs[i].h in s.live && s.live[fr.outs[i].h] == fr.outs[i].op
          && fr.outs[i].h in L.owner && L.owner[fr.outs[i].h] == f)
    && (forall i, j | 0 <= i < j < |fr.outs| :: fr.outs[i].h != fr.outs[j].h)
  }

  /** Each outstanding task, except the one in slot `but`, is in flight or has its result stashed. */
  ghost predicate Owed(s: State, fr: Frame, but: int) {
    forall i | 0 <= i < |fr.outs| && i != but :: fr.outs[i].h in s.inflight || fr.outs[i].h in s.completed
  }

  predicate AtTask(fr: Frame) { fr.p.Join? && fr.p.slot < |fr.outs| }

  predicate AtFuture(fr: Frame) { fr.p.Await? && fr.p.fut < |fr.env| }

  ghost predicate PlaceOk(oracle: int -> int, s: State, p: Place)
  {
    match p
    case Ready(fr, None) => Owed(s, fr, -1)
    case Ready(fr, Some(r)) =>
      && AtTask(fr) && Owed(s, fr, fr.p.slot)
      && r == oracle(fr.outs[fr.p.slot].op)
      && fr.outs[fr.p.slot].h !in s.inflight && fr.outs[fr.p.slot].h !in s.completed
    case OnTask(h, fr) => Owed(s, fr, -1) && AtTask(fr) && fr.outs[fr.p.slot].h == h && h in s.inflight
    case OnFuture(g, fr) => Owed(s, fr, -1) && AtFuture(fr) && fr.env[fr.p.fut] == g
    case Active(fr) => Owed(s, fr, -1)
    case Finished => true
  }

  /** The continuation of `f` is well formed and still computes what the program of `f` means. */
  ghost predicate FiberOk(oracle: int -> int, s: State, L: Ledger, f: FutId)
    requires f < |s.futs| && f < |L.places|
  {
    && PlaceOk(oracle, s, L.places[f])
    && (!L.places[f].Finished? ==>
          && FrameOk(s, L, f, L.places[f].frame)
          && Leads(oracle, Start(s.futs[f].code), PointOf(s.futs, L.places[f].frame)))
  }

  ghost predicate SettledOk(oracle: int -> int, s: State, f: FutId)
    requires f < |s.futs|
  {
    s.futs[f].st.Some? ==>
      && OutcomeIds(s, s.futs[f].st.value)
      && Means(oracle, s.futs[f].code, OutcomeOf(s.futs, s.futs[f].st.value))
  }

  ghost predicate OutcomeIds(s: State, o: Outcome<FutId>) {
    o.Ok? ==> forall i | 0 <= i < |o.futs| :: o.futs[i] < |s.futs|
  }

  ghost predicate Inv(oracle: int -> int, s: State, L: Ledger) {
    && Agree(s, L.places)
    && TablesOk(oracle, s, L)
    && (forall f | 0 <= f < |s.futs| :: FiberOk(oracle, s, L, f))
    && (forall f | 0 <= f < |s.futs| :: SettledOk(oracle, s, f))
  }

  // --- What is left to do ------------------------------------------------------------------------

  /** Instructions left in a program, those of its children included. */
  function Size(p: Prog): (n: nat)
    ensures n > 0
  {
    match p
    case Return(_, _) => 1
    case Raise(_) => 1
    case Submit(_, next) => 1 + Size(next)
    case Join(_, next) => 1 + Size(next)
    case Spawn(children, next) => 1 + SizeAll(children) + Size(next)
    case Await(_, ok, err) => 1 + Size(ok) + Size(err)
    case If(_, yes, no) => 1 + Size(yes) + Size(no)
  }

  function SizeAll(ps: seq<Prog>): nat {
    if ps == [] then 0 else 1 + Size(ps[0]) + SizeAll(ps[1..])
  }

  predicate AtSettled(futs: seq<Fut>, fr: Frame) {
    AtFuture(fr) && fr.env[fr.p.fut] < |futs| && futs[fr.env[fr.p.fut]].st.Some?
  }

  /** Events a fiber may still cause, by where it is. A fiber at a settled await cannot park again. */
  function Cost(futs: seq<Fut>, p: Place): nat {
    match p
    case Ready(fr, None) => 5 * Size(fr.p) + (if AtSettled(futs, fr) then 2 else 5)
    case Ready(fr, Some(_)) => 5 * Size(fr.p) + 2
    case OnTask(_, fr) => 5 * Size(fr.p) + 3
    case OnFuture(_, fr) => 5 * Size(fr.p) + 3
    case Active(fr) => 5 * Size(fr.p) + (if AtSettled(futs, fr) then 1 else 4)
    case Finished => 0
  }

  function CostAll(futs: seq<Fut>, ps: seq<Place>): nat {
    if ps == [] then 0 else CostAll(futs, ps[..|ps| - 1]) + Cost(futs, ps[|ps| - 1])
  }

  /** An upper bound on the number of events still to come. */
  function Measure(s: State, L: Ledger): nat {
    CostAll(s.futs, L.places) + |s.inflight|
  }

  /** Costs that fall at one fiber and rise nowhere fall in total. */
  lemma {:induction false} CostAllFalls(futs: seq<Fut>, ps: seq<Place>, futs': seq<Fut>, ps': seq<Place>, f: nat,
                                        d: int)
    requires |ps| == |ps'| && (f < |ps| ==> Cost(futs', ps'[f]) <= Cost(futs, ps[f]) - d)
    requires forall i | 0 <= i < |ps| && i != f :: Cost(futs', ps'[i]) <= Cost(futs, ps[i])
    ensures CostAll(futs', ps') <= CostAll(futs, ps) - (if f < |ps| then d else 0)
  {
    if ps != [] {
      CostAllFalls(futs, ps[..|ps| - 1], futs', ps'[..|ps| - 1], f, d);
    }
  }

  // --- Frame lemmas ------------------------------------------------------------------------------

  /** Futures keep their code and, once settled, their outcome. */
  ghost predicate Grows(s: State, s': State) {
    && |s.futs| <= |s'.futs|
    && (forall g | 0 <= g < |s.futs| ::
          && s'.futs[g].code == s.futs[g].code
          && (s.futs[g].st.Some? ==> s'.futs[g].st == s.futs[g].st))
  }

  /** The tasks owned by `f` stay as they are. */
  ghost predicate HandlesKept(s: State, L: Ledger, s': State, L': Ledger, f: FutId) {
    forall h | h in L.owner && L.owner[h] == f && h in s.live ::
      && h in L'.owner && L'.owner[h] == f
      && h in s'.live && s'.live[h] == s.live[h]
      && (h in s'.inflight <==> h in s.inflight)
      && (h in s'.completed <==> h in s.completed)
  }

  lemma PointKept(s: State, s': State, fr: Frame)
    requires Grows(s, s') && forall i | 0 <= i < |fr.env| :: fr.env[i] < |s.futs|
    ensures PointOf(s'.futs, fr) == PointOf(s.futs, fr)
  {
    assert Codes(s'.futs, fr.env) == Codes(s.futs, fr.env);
  }

  lemma FiberKept(oracle: int -> int, s: State, L: Ledger, s': State, L': Ledger, f: FutId)
    requires f < |s.futs| && f < |L.places| && f < |L'.places|
    requires FiberOk(oracle, s, L, f) && L'.places[f] == L.places[f]
    requires Grows(s, s') && HandlesKept(s, L, s', L', f)
    ensures FiberOk(oracle, s', L', f)
  {
    if !L.places[f].Finished? {
      PointKept(s, s', L.places[f].frame);
    }
  }

  lemma SettledKept(oracle: int -> int, s: State, s': State, f: FutId)
    requires f < |s.futs| && SettledOk(oracle, s, f) && Grows(s, s')
    requires s'.futs[f].st == s.futs[f].st
    ensures SettledOk(oracle, s', f)
  {
    if s.futs[f].st.Some? && s.futs[f].st.value.Ok? {
      assert Codes(s'.futs, s.futs[f].st.value.futs) == Codes(s.futs, s.futs[f].st.value.futs);
    }
  }

  /** Every fiber except `f` keeps its continuation. */
  lemma OthersKept(oracle: int -> int, s: State, L: Ledger, s': State, L': Ledger, f: FutId)
    requires |L.places| == |s.futs| <= |L'.places| && |L'.places| == |s'.futs|
    requires forall f' | 0 <= f' < |s.futs| :: FiberOk(oracle, s, L, f')
    requires forall f' | 0 <= f' < |s.futs| && f' != f :: L'.places[f'] == L.places[f']
    requires Grows(s, s') && forall f' | 0 <= f' < |s.futs| && f' != f :: HandlesKept(s, L, s', L', f')
    ensures forall f' | 0 <= f' < |s.futs| && f' != f :: FiberOk(oracle, s', L', f')
  {
    forall f' | 0 <= f' < |s.futs| && f' != f ensures FiberOk(oracle, s', L', f') {
      FiberKept(oracle, s, L, s', L', f');
    }
  }

  /** The items are those of fibers that become ready now, each once. */
  ghost predicate NewlyReady(ps: seq<Place>, ps': seq<Place>, items: seq<Item>) {
    && (forall i | 0 <= i < |items| ::
          && items[i].fib < |ps'| && (items[i].fib < |ps| ==> !ps[items[i].fib].Ready?)
          && ps'[items[i].fib] == Ready(items[i].frame, items[i].value))
    && (forall i, j | 0 <= i < j < |items| :: items[i].fib != items[j].fib)
  }

  lemma AmongAppended(q: seq<Item>, items: seq<Item>, f: FutId)
    requires Among(q, f) || Among(items, f)
    ensures Among(q + items, f)
  {
    if Among(q, f) {
      var i :| 0 <= i < |q| && q[i].fib == f;
      assert (q + items)[i].fib == f;
    } else {
      var i :| 0 <= i < |items| && items[i].fib == f;
      assert (q + items)[|q| + i].fib == f;
    }
  }

  lemma AppendedAgree(s: State, ps: seq<Place>, ps': seq<Place>, items: seq<Item>, i: nat)
    requires QueueAgrees(s, ps) && |ps| <= |ps'| && NewlyReady(ps, ps', items) && i < |s.queue + items|
    requires forall f | 0 <= f < |ps| && ps[f].Ready? :: ps'[f] == ps[f]
    ensures var it := (s.queue + items)[i]; it.fib < |ps'| && ps'[it.fib] == Ready(it.frame, it.value)
  {
    assert (s.queue + items)[i] == if i < |s.queue| then s.queue[i] else items[i - |s.queue|];
  }

  lemma AppendedDistinct(s: State, ps: seq<Place>, ps': seq<Place>, items: seq<Item>, i: nat, j: nat)
    requires QueueAgrees(s, ps) && |ps| <= |ps'| && NewlyReady(ps, ps', items) && i < j < |s.queue + items|
    ensures (s.queue + items)[i].fib != (s.queue + items)[j].fib
  {
    var q := s.queue + items;
    assert q[i] == if i < |s.queue| then s.queue[i] else items[i - |s.queue|];
    assert q[j] == if j < |s.queue| then s.queue[j] else items[j - |s.queue|];
  }

  /** Appending items keeps the queue in agreement when exactly their fibers become ready. */
  lemma QueueGrows(s: State, ps: seq<Place>, s': State, ps': seq<Place>, items: seq<Item>)
    requires QueueAgrees(s, ps) && s'.queue == s.queue + items && |ps| <= |ps'| && NewlyReady(ps, ps', items)
    requires forall f | 0 <= f < |ps| && ps[f].Ready? :: ps'[f] == ps[f]
    requires forall f | 0 <= f < |ps'| && ps'[f].Ready? :: (f < |ps| && ps[f].Ready?) || Among(items, f)
    ensures QueueAgrees(s', ps')
  {
    var q := s'.queue;
    forall i | 0 <= i < |q| ensures q[i].fib < |ps'| && ps'[q[i].fib] == Ready(q[i].frame, q[i].value) {
      AppendedAgree(s, ps, ps', items, i);
    }
    forall i, j | 0 <= i < j < |q| ensures q[i].fib != q[j].fib {
      AppendedDistinct(s, ps, ps', items, i, j);
    }
    forall f | 0 <= f < |ps'| && ps'[f].Ready? ensures Among(q, f) {
      assert f < |ps| && ps[f].Ready? ==> Among(s.queue, f);
      AmongAppended(s.queue, items, f);
    }
  }

  /** Same queue, same ready fibers. */
  lemma QueueSame(s: State, ps: seq<Place>, s': State, ps': seq<Place>)
    requires QueueAgrees(s, ps) && s'.queue == s.queue && |ps| == |ps'|
    requires forall f | 0 <= f < |ps| && (ps[f].Ready? || ps'[f].Ready?) :: ps'[f] == ps[f]
    ensures QueueAgrees(s', ps')
  {
    QueueGrows(s, ps, s', ps', []);
  }

  lemma TasksSame(s: State, ps: seq<Place>, s': State, ps': seq<Place>)
    requires TasksAgree(s, ps) && s'.waiters == s.waiters && |ps| <= |ps'|
    requires forall f | 0 <= f < |ps| && ps[f].OnTask? :: ps'[f] == ps[f]
    requires forall f | 0 <= f < |ps'| && ps'[f].OnTask? :: f < |ps| && ps'[f] == ps[f]
    ensures TasksAgree(s', ps')
  {
  }

  /** Waiter lists unchanged; futures made meanwhile have no waiters. */
  lemma FuturesSame(s: State, ps: seq<Place>, s': State, ps': seq<Place>)
    requires FuturesAgree(s, ps) && |s.futs| <= |s'.futs| && |ps| <= |ps'|
    requires forall g | 0 <= g < |s.futs| :: s'.futs[g].waiters == s.futs[g].waiters && s'.futs[g].st == s.futs[g].st
    requires forall g | |s.futs| <= g < |s'.futs| :: s'.futs[g].waiters == []
    requires forall f | 0 <= f < |ps| && ps[f].OnFuture? :: ps'[f] == ps[f]
    requires forall f | 0 <= f < |ps'| && ps'[f].OnFuture? :: f < |ps| && ps'[f] == ps[f]
    ensures FuturesAgree(s', ps')
  {
    forall g | 0 <= g < |s'.futs| ensures WaitersAgree(s'.futs[g].waiters, g, ps') {
      if g < |s.futs| {
        assert WaitersAgree(s.futs[g].waiters, g, ps);
      }
    }
  }

  lemma SettledSame(oracle: int -> int, s: State, s': State)
    requires forall f | 0 <= f < |s.futs| :: SettledOk(oracle, s, f)
    requires Grows(s, s') && forall f | 0 <= f < |s.futs| :: s'.futs[f].st == s.futs[f].st
    requires forall f | |s.futs| <= f < |s'.futs| :: s'.futs[f].st.None?
    ensures forall f | 0 <= f < |s'.futs| :: SettledOk(oracle, s', f)
  {
    forall f | 0 <= f < |s'.futs| ensures SettledOk(oracle, s', f) {
      if f < |s.futs| {
        SettledKept(oracle, s, s', f);
      }
    }
  }

  // --- The running fiber goes on -----------------------------------------------------------------

  /** Only the running slot changes: the running fiber is now at `fr'`. */
  lemma AgreeAdvance(s: State, ps: seq<Place>, s': State, f: FutId, fr': Frame)
    requires Agree(s, ps) && s.running.Some? && s.running.value.fib == f
    requires s'.futs == s.futs && s'.queue == s.queue && s'.waiters == s.waiters
    requires s'.running == Some(Wake(f, fr')) && f < |ps|
    ensures Agree(s', ps[f := Active(fr')])
  {
    var ps' := ps[f := Active(fr')];
    QueueSame(s, ps, s', ps');
    TasksSame(s, ps, s', ps');
    FuturesSame(s, ps, s', ps');
  }

  lemma MoveCost(s: State, L: Ledger, s': State, L': Ledger, f: FutId)
    requires |L'.places| == |L.places| && f < |L.places| && |s'.futs| == |s.futs|
    requires forall g | 0 <= g < |s.futs| :: s'.futs[g].st == s.futs[g].st
    requires forall f' | 0 <= f' < |L.places| && f' != f :: L'.places[f'] == L.places[f']
    requires Cost(s'.futs, L'.places[f]) + |s'.inflight| < Cost(s.futs, L.places[f]) + |s.inflight|
    ensures Measure(s', L') < Measure(s, L)
  {
    CostAllFalls(s.futs, L.places, s'.futs, L'.places, f, Cost(s.futs, L.places[f]) - Cost(s'.futs, L'.places[f]));
  }

  /** One fiber moves, settles nothing, and only its own tasks change. */
  lemma MoveKeeps(oracle: int -> int, s: State, L: Ledger, s': State, L': Ledger, f: FutId)
    requires Inv(oracle, s, L) && |s'.futs| == |s.futs| && Agree(s', L'.places) && TablesOk(oracle, s', L')
    requires f < |s.futs| && FiberOk(oracle, s', L', f)
    requires Grows(s, s') && forall g | 0 <= g < |s.futs| :: s'.futs[g].st == s.futs[g].st
    requires forall f' | 0 <= f' < |s.futs| && f' != f ::
               L'.places[f'] == L.places[f'] && HandlesKept(s, L, s', L', f')
    requires Cost(s'.futs, L'.places[f]) + |s'.inflight| < Cost(s.futs, L.places[f]) + |s.inflight|
    ensures Inv(oracle, s', L') && Measure(s', L') < Measure(s, L)
  {
    OthersKept(oracle, s, L, s', L', f);
    SettledSame(oracle, s, s');
    MoveCost(s, L, s', L', f);
  }

  /** A point further along the fiber's computation is a good continuation for it. */
  lemma FiberAdvances(oracle: int -> int, s: State, L: Ledger, s': State, L': Ledger, f: FutId, fr: Frame, fr': Frame)
    requires f < |s.futs| && f < |L.places| && f < |L'.places| && s'.futs == s.futs
    requires !L.places[f].Finished? && L.places[f].frame == fr && FiberOk(oracle, s, L, f)
    requires L'.places[f] == Active(fr') && FrameOk(s', L', f, fr') && Owed(s', fr', -1)
    requires Leads(oracle, PointOf(s.futs, fr), PointOf(s.futs, fr'))
    ensures FiberOk(oracle, s', L', f)
  {
    LeadsTransitive(oracle, Start(s.futs[f].code), PointOf(s.futs, fr), PointOf(s.futs, fr'));
  }

  /** The running fiber moves from `fr` to `fr'`, and only its own tasks change. */
  lemma AdvanceKeeps(oracle: int -> int, s: State, L: Ledger, s': State, L': Ledger, f: FutId, fr: Frame, fr': Frame)
    requires Inv(oracle, s, L) && s.running == Some(Wake(f, fr)) && f < |s.futs|
    requires s'.futs == s.futs && s'.queue == s.queue && s'.waiters == s.waiters
    requires s'.running == Some(Wake(f, fr'))
    requires L'.places == L.places[f := Active(fr')]
    requires TablesOk(oracle, s', L') && FrameOk(s', L', f, fr') && Owed(s', fr', -1)
    requires FrameOk(s, L, f, fr) && Leads(oracle, PointOf(s.futs, fr), PointOf(s.futs, fr'))
    requires forall f' | 0 <= f' < |s.futs| && f' != f :: HandlesKept(s, L, s', L', f')
    requires Size(fr'.p) < Size(fr.p) && |s'.inflight| <= |s.inflight| + 1
    ensures Inv(oracle, s', L') && Measure(s', L') < Measure(s, L)
  {
    AgreeAdvance(s, L.places, s', f, fr');
    FiberAdvances(oracle, s, L, s', L', f, fr, fr');
    MoveKeeps(oracle, s, L, s', L', f);
  }
}
