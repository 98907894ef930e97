/** Schedule independence: whatever the interleaving, whichever worker picks which
    work, a run shows exactly what the reference semantics shows. */
module Schedules {
  import opened Spans
  import opened Programs
  import opened Propagation
  import opened Scheduler

  predicate ContainedStack(k: Stack) {
    match k
    case Nil => true
    case Push(Run(p, _), rest) => Contained(p) && ContainedStack(rest)
    case Push(Catch(h, _), rest) => Contained(h) && ContainedStack(rest)
    case Push(_, rest) => ContainedStack(rest)
  }

  predicate TetheredStack(k: Stack) {
    match k
    case Nil => true
    case Push(Run(p, _), rest) => Tethered(p) && TetheredStack(rest)
    case Push(Catch(h, _), rest) => Tethered(h) && TetheredStack(rest)
    case Push(_, rest) => TetheredStack(rest)
  }

  /** Every busy worker will end up with its own base context, and nothing queued
      can disturb the worker that picks it. */
  ghost predicate Orderly(c: Config, base: Context) {
    && (forall i | 0 <= i < |c.workers| ::
          ContainedStack(c.workers[i].stack) && Remaining(c.workers[i], base).ctx == c.workers[i].base)
    && (forall j | 0 <= j < |c.pool| :: Sealed(c.pool[j].prog))
  }

  /** The workers are alike. */
  ghost predicate Uniform(c: Config, base: Context) {
    forall i | 0 <= i < |c.workers| :: c.workers[i].base == base
  }

  /** The workers differ, but no work looks at them. */
  ghost predicate Detached(c: Config) {
    && (forall i | 0 <= i < |c.workers| :: TetheredStack(c.workers[i].stack))
    && (forall j | 0 <= j < |c.pool| :: Anchored(c.pool[j].prog))
  }

  ghost predicate Steady(c: Config, base: Context) {
    Orderly(c, base) && (Uniform(c, base) || Detached(c))
  }

  lemma StepContained(w: Worker)
    requires w.stack.Push? && ContainedStack(w.stack)
    ensures var e := Step(w);
            && ContainedStack(e.worker.stack)
            && forall j | 0 <= j < |e.shipped| :: Sealed(e.shipped[j].prog)
  {
  }

  lemma StepTethered(w: Worker)
    requires w.stack.Push? && TetheredStack(w.stack)
    ensures var e := Step(w);
            && TetheredStack(e.worker.stack)
            && forall j | 0 <= j < |e.shipped| :: Anchored(e.shipped[j].prog)
  {
  }

  lemma Balance(log: multiset<Event>, emitted: multiset<Event>, busy: multiset<Event>, busy': multiset<Event>,
                before: multiset<Event>, after: multiset<Event>, pool: multiset<Event>, shipped: multiset<Event>)
    requires busy' + before == busy + after
    requires before == emitted + after + shipped
    ensures (log + emitted) + busy' + (pool + shipped) == log + busy + pool
  {
    assert busy == busy' + emitted + shipped by {
      forall e ensures busy[e] == (busy' + emitted + shipped)[e] {
        assert (busy' + before)[e] == (busy + after)[e];
      }
    }
  }

  /** The configuration after worker `i` took a step with effect `e`. */
  function Applied(c: Config, i: nat, e: Effect): Config
    requires i < |c.workers|
  {
    Config(c.workers[i := e.worker], c.pool + e.shipped, c.log + e.emitted)
  }

  lemma {:induction false} EffectTotal(c: Config, i: nat, e: Effect, base: Context)
    requires i < |c.workers| && Conserves(Remaining(c.workers[i], base), e, base)
    ensures Total(Applied(c, i, e), base) == Total(c, base)
  {
    SumUpdate(RemainingOn(base), c.workers, i, e.worker);
    SumConcat(TreeOn(base), c.pool, e.shipped);
    assert multiset(c.log + e.emitted) == multiset(c.log) + multiset(e.emitted);
    Balance(multiset(c.log), multiset(e.emitted),
            Remainders(c.workers, base), Remainders(c.workers[i := e.worker], base),
            Remaining(c.workers[i], base).events, Remaining(e.worker, base).events,
            Trees(c.pool, base), Trees(e.shipped, base));
  }

  /** An idle worker that takes on exactly the events of the item it picks. */
  lemma {:induction false} PickTotal(c: Config, i: nat, j: nat, w: Worker, base: Context)
    requires i < |c.workers| && j < |c.pool|
    requires Remaining(c.workers[i], base).events == multiset{}
    requires Remaining(w, base).events == Tree(c.pool[j], base)
    ensures Total(Config(c.workers[i := w], c.pool[..j] + c.pool[j + 1..], c.log), base) == Total(c, base)
  {
    SumUpdate(RemainingOn(base), c.workers, i, w);
    SumSplit(TreeOn(base), c.pool, j);
    assert Remainders(c.workers[i := w], base) == Remainders(c.workers, base) + Tree(c.pool[j], base);
    assert Trees(c.pool, base) == Tree(c.pool[j], base) + Trees(c.pool[..j] + c.pool[j + 1..], base);
  }

  lemma {:induction false} EffectOrderly(c: Config, i: nat, e: Effect, base: Context)
    requires Orderly(c, base) && i < |c.workers|
    requires ContainedStack(e.worker.stack) && e.worker.base == c.workers[i].base
    requires Remaining(e.worker, base).ctx == Remaining(c.workers[i], base).ctx
    requires forall j | 0 <= j < |e.shipped| :: Sealed(e.shipped[j].prog)
    ensures Orderly(Applied(c, i, e), base)
  {
    hide Eval, EvalStack, ContainedStack, Contained, Leaky;
  }

  lemma {:induction false} AdvanceOrderly(c: Config, i: nat, base: Context)
    requires Enabled(c, Advance(i)) && Orderly(c, base)
    ensures Orderly(Next(c, Advance(i)), base)
  {
    var w := c.workers[i];
    StepKeeps(w, base);
    StepContained(w);
    StepBase(w);
    hide Eval, EvalStack, Step, ContainedStack, Contained, Leaky;
    EffectOrderly(c, i, Step(w), base);
  }

  lemma {:induction false} AdvanceSteady(c: Config, i: nat, base: Context)
    requires Enabled(c, Advance(i)) && Steady(c, base)
    ensures Steady(Next(c, Advance(i)), base)
  {
    AdvanceOrderly(c, i, base);
    StepBase(c.workers[i]);
    if Detached(c) { StepTethered(c.workers[i]); }
    hide Eval, EvalStack, Step, TetheredStack, Tethered, Orderly;
  }

  lemma {:induction false} StepBase(w: Worker)
    requires w.stack.Push?
    ensures Step(w).worker.base == w.base
  {
  }

  /** An idle worker has its own context, and gets it back from the item it picks. */
  lemma {:induction false} PickRestores(c: Config, i: nat, j: nat, base: Context)
    requires Enabled(c, Pick(i, j)) && Orderly(c, base)
    ensures var w, item := c.workers[i], c.pool[j];
            w.current == w.base == Eval(item.prog, w.current, item.path, base).ctx
  {
    ContextRestored(c.pool[j].prog, c.workers[i].current, c.pool[j].path, base);
  }

  /** The item picked runs as if on a worker whose context is `base`. */
  lemma {:induction false} PickRuns(c: Config, i: nat, j: nat, base: Context)
    requires Enabled(c, Pick(i, j)) && Steady(c, base)
    ensures var w, item := c.workers[i], c.pool[j];
            Eval(item.prog, w.current, item.path, base).events == Tree(item, base)
  {
    var w, item := c.workers[i], c.pool[j];
    PickRestores(c, i, j, base);
    if w.base != base { AnchoredIrrelevant(item.prog, item.path, w.current, base, base, base); }
  }

  lemma {:induction false} PickOrderly(c: Config, i: nat, j: nat, base: Context)
    requires Enabled(c, Pick(i, j)) && Orderly(c, base)
    ensures Orderly(Next(c, Pick(i, j)), base)
  {
    var d, item := Next(c, Pick(i, j)), c.pool[j];
    PickRestores(c, i, j, base);
    assert Remaining(d.workers[i], base) == Chain(Eval(item.prog, c.workers[i].current, item.path, base), Nil, base);
    assert Sealed(item.prog) && ContainedStack(Nil) && ContainedStack(d.workers[i].stack);
    hide Eval, EvalStack, ContainedStack, Contained, Leaky;
  }

  lemma {:induction false} PickSteady(c: Config, i: nat, j: nat, base: Context)
    requires Enabled(c, Pick(i, j)) && Steady(c, base)
    ensures Steady(Next(c, Pick(i, j)), base)
  {
    PickOrderly(c, i, j, base);
    hide Eval, EvalStack, Orderly, Tethered;
    if Detached(c) {
      assert Anchored(c.pool[j].prog) && TetheredStack(Nil);
      assert TetheredStack(Next(c, Pick(i, j)).workers[i].stack);
    }
  }

  lemma {:induction false} PickKeeps(c: Config, i: nat, j: nat, base: Context)
    requires Enabled(c, Pick(i, j)) && Steady(c, base)
    ensures Steady(Next(c, Pick(i, j)), base)
    ensures Total(Next(c, Pick(i, j)), base) == Total(c, base)
  {
    var w := Next(c, Pick(i, j)).workers[i];
    PickRuns(c, i, j, base);
    assert Remaining(w, base) == Chain(Eval(c.pool[j].prog, w.current, c.pool[j].path, base), Nil, base);
    assert Remaining(c.workers[i], base).events == multiset{};
    hide Eval, EvalStack;
    PickTotal(c, i, j, w, base);
    PickSteady(c, i, j, base);
  }

  lemma {:induction false} RunKeeps(c: Config, moves: seq<Move>, base: Context)
    requires Steady(c, base) && Feasible(c, moves)
    ensures Steady(After(c, moves), base)
    ensures Total(After(c, moves), base) == Total(c, base)
    decreases |moves|
  {
    if moves != [] {
      match moves[0] {
        case Advance(i) =>
          StepKeeps(c.workers[i], base);
          EffectTotal(c, i, Step(c.workers[i]), base);
          AdvanceSteady(c, i, base);
        case Pick(i, j) => PickKeeps(c, i, j, base);
      }
      RunKeeps(Next(c, moves[0]), moves[1..], base);
    }
  }

  // ---- Whole runs ------------------------------------------------------------------------

  /** Idle workers, queued work, nothing observed yet. */
  ghost predicate Fresh(c: Config) {
    (forall i | 0 <= i < |c.workers| :: c.workers[i].stack.Nil?) && c.log == []
  }

  /** Besides, the workers have their own context, and the work is fit for shared workers. */
  ghost predicate Ready(c: Config) {
    && Fresh(c)
    && (forall i | 0 <= i < |c.workers| :: c.workers[i].current == c.workers[i].base)
    && (forall j | 0 <= j < |c.pool| :: Sealed(c.pool[j].prog))
  }

  ghost predicate Finished(c: Config) {
    (forall i | 0 <= i < |c.workers| :: c.workers[i].stack.Nil?) && c.pool == []
  }

  ghost predicate AllAnchored(pool: seq<Pending>) {
    forall j | 0 <= j < |pool| :: Anchored(pool[j].prog)
  }

  lemma {:induction false} IdleRemainder(workers: seq<Worker>, base: Context)
    requires forall i | 0 <= i < |workers| :: workers[i].stack.Nil?
    ensures Remainders(workers, base) == multiset{}
  {
    if workers != [] {
      IdleRemainder(workers[1..], base);
      assert RemainingOn(base)(workers[0]) == multiset{};
    }
  }

  /** A complete run shows exactly the reference semantics of the work it was given,
      however it was scheduled: parents, traces, kinds, ends and log stamps alike. */
  lemma {:induction false} ScheduleIndependence(c: Config, moves: seq<Move>, base: Context)
    requires Ready(c) && (Uniform(c, base) || AllAnchored(c.pool))
    requires Feasible(c, moves) && Finished(After(c, moves))
    ensures multiset(After(c, moves).log) == Trees(c.pool, base)
  {
    RunKeeps(c, moves, base);
    IdleRemainder(c.workers, base);
    IdleRemainder(After(c, moves).workers, base);
    var d := After(c, moves);
    assert Total(c, base) == Trees(c.pool, base);
    assert Trees(d.pool, base) == multiset{};
    assert Total(d, base) == multiset(d.log);
  }

  /** An unfinished run has shown nothing that the reference semantics does not show. */
  lemma {:induction false} NothingElseObserved(c: Config, moves: seq<Move>, base: Context)
    requires Ready(c) && (Uniform(c, base) || AllAnchored(c.pool)) && Feasible(c, moves)
    ensures multiset(After(c, moves).log) <= Trees(c.pool, base)
  {
    RunKeeps(c, moves, base);
    IdleRemainder(c.workers, base);
    var d := After(c, moves);
    assert Total(c, base) == Trees(c.pool, base);
    assert multiset(d.log) <= Total(d, base);
  }

  /** Two complete runs of anchored work agree, on any two sets of workers. */
  lemma {:induction false} RunsAgree(c: Config, d: Config, moves: seq<Move>, moves': seq<Move>)
    requires Ready(c) && Ready(d) && c.pool == d.pool && AllAnchored(c.pool)
    requires Feasible(c, moves) && Finished(After(c, moves))
    requires Feasible(d, moves') && Finished(After(d, moves'))
    ensures multiset(After(c, moves).log) == multiset(After(d, moves').log)
  {
    ScheduleIndependence(c, moves, Empty);
    ScheduleIndependence(d, moves', Empty);
  }

  lemma NextOrderly(c: Config, m: Move, base: Context)
    requires Orderly(c, base) && Enabled(c, m)
    ensures Orderly(Next(c, m), base) && SameBases(c, Next(c, m))
  {
    match m {
      case Advance(i) =>
        AdvanceOrderly(c, i, base);
        StepBase(c.workers[i]);
      case Pick(i, j) => PickOrderly(c, i, j, base);
    }
  }

  ghost predicate SameBases(c: Config, d: Config) {
    |d.workers| == |c.workers| && forall i | 0 <= i < |c.workers| :: d.workers[i].base == c.workers[i].base
  }

  lemma {:induction false} RunOrderly(c: Config, moves: seq<Move>, base: Context)
    requires Orderly(c, base) && Feasible(c, moves)
    ensures Orderly(After(c, moves), base) && SameBases(c, After(c, moves))
    decreases |moves|
  {
    if moves != [] {
      NextOrderly(c, moves[0], base);
      hide Orderly;
      RunOrderly(Next(c, moves[0]), moves[1..], base);
    }
  }

  /** At every moment of every run, on any workers, a worker with nothing to do has the
      context it started with, whatever ran on it, leaked on it or raised on it before. */
  lemma {:induction false} IdleWorkersRestored(c: Config, moves: seq<Move>, i: nat)
    requires Ready(c) && Feasible(c, moves)
    requires i < |After(c, moves).workers| && After(c, moves).workers[i].stack.Nil?
    ensures i < |c.workers| && After(c, moves).workers[i].current == c.workers[i].base
  {
    RunOrderly(c, moves, Empty);
    assert Remaining(After(c, moves).workers[i], Empty).ctx == After(c, moves).workers[i].current;
    hide Eval, EvalStack;
  }

  lemma {:induction false} TreeIn(pool: seq<Pending>, j: nat, base: Context)
    requires j < |pool|
    ensures Tree(pool[j], base) <= Trees(pool, base)
  {
    SumSplit(TreeOn(base), pool, j);
  }

  /** Pool isolation, one dispatch: whenever a worker picks a message, at any point of any
      run on any workers, the next that it shows is a consumer span under the message's own
      wire context, or under the context the worker had before its first message. */
  lemma {:induction false} DispatchIsolated(c: Config, moves: seq<Move>, i: nat, j: nat)
    requires Ready(c) && Feasible(c, moves) && Enabled(After(c, moves), Pick(i, j))
    requires After(c, moves).pool[j].prog.Consume?
    ensures i < |c.workers|
    ensures var d, item := After(c, moves), After(c, moves).pool[j];
            var next := [Pick(i, j), Advance(i), Advance(i)];
            && Feasible(d, next)
            && After(d, next).log
               == d.log + [StartEvent(item.path, ConsumerParent(item.prog.carrier, c.workers[i].base), Consumer)]
  {
    IdleWorkersRestored(c, moves, i);
    Dispatched(After(c, moves), i, j);
  }

  lemma {:induction false} Dispatched(d: Config, i: nat, j: nat)
    requires Enabled(d, Pick(i, j)) && d.pool[j].prog.Consume?
    ensures var next := [Pick(i, j), Advance(i), Advance(i)];
            && Feasible(d, next)
            && After(d, next).log
               == d.log + [StartEvent(d.pool[j].path, ConsumerParent(d.pool[j].prog.carrier, d.workers[i].current),
                                      Consumer)]
  {
    var m := [Pick(i, j), Advance(i), Advance(i)];
    var d1 := Next(d, m[0]);
    var d2 := Next(d1, m[1]);
    var d3 := Next(d2, m[2]);
    assert m[1..] == [Advance(i), Advance(i)] && m[1..][1..] == [Advance(i)] && m[1..][1..][1..] == [];
    assert Feasible(d3, []) && After(d3, []) == d3;
    assert Feasible(d2, [Advance(i)]) && After(d2, [Advance(i)]) == d3;
    assert Feasible(d1, m[1..]) && After(d1, m[1..]) == d3;
    assert d3.log == d2.log + [StartEvent(d.pool[j].path, d2.workers[i].current, Consumer)];
  }

  /** Pool isolation: among messages dispatched on shared workers, the consumer span of
      each is parented by its own wire context, or by the workers' context if it has none. */
  lemma {:induction false} PoolIsolation(c: Config, moves: seq<Move>, base: Context, j: nat)
    requires Ready(c) && Uniform(c, base) && Feasible(c, moves) && Finished(After(c, moves))
    requires j < |c.pool| && c.pool[j].prog.Consume?
    ensures StartEvent(c.pool[j].path, ConsumerParent(c.pool[j].prog.carrier, base), Consumer)
         in multiset(After(c, moves).log)
  {
    ScheduleIndependence(c, moves, base);
    TreeIn(c.pool, j, base);
    var start := StartEvent(c.pool[j].path, ConsumerParent(c.pool[j].prog.carrier, base), Consumer);
    assert start in Tree(c.pool[j], base);
  }

  // ---- Runs end, and end finished ----------------------------------------------------------

  function StackWork(k: Stack): nat {
    match k
    case Nil => 0
    case Push(Run(p, _), rest) => 10 * Size(p) + StackWork(rest)
    case Push(Catch(h, _), rest) => 1 + 10 * Size(h) + StackWork(rest)
    case Push(_, rest) => 1 + StackWork(rest)
  }

  function WorkOfWorker(): Worker -> nat { (w: Worker) => StackWork(w.stack) }

  function WorkOfItem(): Pending -> nat { (item: Pending) => 1 + 10 * Size(item.prog) }

  function Work(c: Config): nat { Tally(WorkOfWorker(), c.workers) + Tally(WorkOfItem(), c.pool) }

  lemma ProgWorks(w: Worker, p: Prog, path: Path, rest: Stack)
    ensures var e := StepProg(w, p, path, rest);
            && |e.shipped| <= 1
            && StackWork(e.worker.stack) + (if e.shipped == [] then 0 else WorkOfItem()(e.shipped[0]))
               < 10 * Size(p) + StackWork(rest)
  {
    hide Inject, Extract;
    var k := Push(Detach(w.current), Push(End(path), rest));
    assert StackWork(k) == 2 + StackWork(rest);
  }

  lemma {:induction false} StepWorks(w: Worker)
    requires w.stack.Push?
    ensures StackWork(Step(w).worker.stack) + Tally(WorkOfItem(), Step(w).shipped) < StackWork(w.stack)
  {
    hide StepProg, Tally;
    AtMostOne(WorkOfItem(), Step(w).shipped);
    if w.stack.top.Run? {
      ProgWorks(w, w.stack.top.prog, w.stack.top.path, w.stack.rest);
    }
  }

  lemma {:induction false} MoveWorks(c: Config, m: Move)
    requires Enabled(c, m)
    ensures Work(Next(c, m)) < Work(c)
  {
    match m
    case Advance(i) =>
      var e := Step(c.workers[i]);
      StepWorks(c.workers[i]);
      TallyUpdate(WorkOfWorker(), c.workers, i, e.worker);
      TallyConcat(WorkOfItem(), c.pool, e.shipped);
    case Pick(i, j) =>
      TallyUpdate(WorkOfWorker(), c.workers, i, Next(c, m).workers[i]);
      TallySplit(WorkOfItem(), c.pool, j);
  }

  /** No schedule goes on for ever. */
  lemma {:induction false} RunsAreBounded(c: Config, moves: seq<Move>)
    requires Feasible(c, moves)
    ensures |moves| + Work(After(c, moves)) <= Work(c)
    decreases |moves|
  {
    if moves != [] {
      MoveWorks(c, moves[0]);
      RunsAreBounded(Next(c, moves[0]), moves[1..]);
    }
  }

  /** A schedule that cannot be extended has finished all the work. */
  lemma {:induction false} StuckMeansFinished(c: Config)
    requires |c.workers| > 0
    ensures (forall m :: !Enabled(c, m)) <==> Finished(c)
  {
    if !Finished(c) {
      if i :| 0 <= i < |c.workers| && c.workers[i].stack.Push? {
        assert Enabled(c, Advance(i));
      } else {
        assert Enabled(c, Pick(0, 0));
      }
    }
  }
}
