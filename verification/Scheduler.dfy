/** Interleaved execution: any number of workers, each with its own context and
    stack of unfinished work, taking turns and picking queued work in any order. */
module Scheduler {
  import opened Spans
  import opened Programs

  /** What is left to do on a worker, innermost first.  `Detach` and `End` are the
      `finally` parts of the wrappers and run while an exception unwinds. */
  datatype Frame =
    | Run(prog: Prog, path: Path)
    | Detach(saved: Context)
    | End(id: Path)
    | Catch(handler: Prog, path: Path)

  datatype Stack = Nil | Push(top: Frame, rest: Stack)

  datatype Worker = Worker(base: Context, current: Context, outcome: Outcome, stack: Stack)

  /** Work waiting for a worker: a submitted task, a started thread, a message. */
  datatype Pending = Pending(prog: Prog, path: Path)

  datatype Config = Config(workers: seq<Worker>, pool: seq<Pending>, log: seq<Event>)

  datatype Move = Advance(worker: nat) | Pick(worker: nat, item: nat)

  /** One worker's step: its new state, what it lets an observer see, what it hands off. */
  datatype Effect = Effect(worker: Worker, emitted: seq<Event>, shipped: seq<Pending>)

  function Quiet(w: Worker): Effect { Effect(w, [], []) }

  /** Open a span under `parent` and make it current around `body`. */
  function Enter(w: Worker, rest: Stack, kind: Kind, parent: Context, body: Prog, path: Path): Effect {
    Effect(w.(current := Active(Open(path, parent)),
              stack := Push(Run(body, path + [0]), Push(Detach(w.current), Push(End(path), rest)))),
           [StartEvent(path, parent, kind)], [])
  }

  function Step(w: Worker): Effect
    requires w.stack.Push?
  {
    var rest := w.stack.rest;
    match w.stack.top
    case Detach(saved) => Quiet(w.(current := saved, stack := rest))
    case End(id) => Effect(w.(stack := rest), [Ended(id)], [])
    case Catch(h, path) =>
      if w.outcome.Done? then Quiet(w.(stack := rest))
      else Quiet(w.(outcome := Done, stack := Push(Run(h, path), rest)))
    case Run(p, path) =>
      if w.outcome.Threw? then Quiet(w.(stack := rest)) else StepProg(w, p, path, rest)
  }

  function StepProg(w: Worker, p: Prog, path: Path, rest: Stack): Effect {
    match p
    case Skip => Quiet(w.(stack := rest))
    case Seq(a, b) => Quiet(w.(stack := Push(Run(a, path + [0]), Push(Run(b, path + [1]), rest))))
    case Raise(e) => Quiet(w.(outcome := Threw(e), stack := rest))
    case Try(a, h) => Quiet(w.(stack := Push(Run(a, path + [0]), Push(Catch(h, path + [1]), rest))))
    case Leak(c) => Quiet(w.(current := c, stack := rest))
    case Log => Effect(w.(stack := rest), [Logged(path, w.current)], [])
    case InSpan(kind, b) => Enter(w, rest, kind, w.current, b, path)
    case Resume(None, b) => Quiet(w.(stack := Push(Run(b, path + [0]), rest)))
    case Resume(Some(c), b) =>
      Quiet(w.(current := c, stack := Push(Run(b, path + [0]), Push(Detach(w.current), rest))))
    case Consume(c, b) =>
      // attach the wire's context (or the current one again), then open the span under it
      var ctx := if Extract(c).Empty? then w.current else Extract(c);
      Quiet(w.(current := ctx,
               stack := Push(Run(InSpan(Consumer, b), path), Push(Detach(w.current), rest))))
    case Entry(h, b) =>
      if w.current.Active? then Enter(w, rest, Internal, w.current, b, path)
      else Enter(w, rest, Server, if h.Some? then Extract(h.value) else Empty, b, path)
    case Spawn(positional, b) =>
      Effect(w.(stack := rest), [],
             [Pending(if positional then Resume(Some(w.current), b) else Resume(None, b), path + [0])])
    case Post(c, via, fails, b) =>
      var span := Open(path, w.current);
      var items: Carrier := if c.Some? then c.value else map[];
      var carrier := if via.Http? || c.Some? then Inject(items, Active(span)) else items;
      Effect(w.(current := Active(span), outcome := Failing(fails),
                stack := Push(Detach(w.current), Push(End(path), rest))),
             [StartEvent(path, w.current, SeamKind(via))],
             [Pending(Arrival(via, carrier, b), path + [0])])
  }

  predicate Enabled(c: Config, m: Move) {
    match m
    case Advance(i) => i < |c.workers| && c.workers[i].stack.Push?
    case Pick(i, j) => i < |c.workers| && c.workers[i].stack.Nil? && j < |c.pool|
  }

  function Next(c: Config, m: Move): Config
    requires Enabled(c, m)
  {
    match m
    case Advance(i) =>
      var e := Step(c.workers[i]);
      Config(c.workers[i := e.worker], c.pool + e.shipped, c.log + e.emitted)
    case Pick(i, j) =>
      var item := c.pool[j];
      Config(c.workers[i := c.workers[i].(outcome := Done, stack := Push(Run(item.prog, item.path), Nil))],
             c.pool[..j] + c.pool[j + 1..], c.log)
  }

  /** `moves` is a schedule that `c` can follow. */
  predicate Feasible(c: Config, moves: seq<Move>)
    decreases |moves|
  {
    moves == [] || (Enabled(c, moves[0]) && Feasible(Next(c, moves[0]), moves[1..]))
  }

  function After(c: Config, moves: seq<Move>): Config
    requires Feasible(c, moves)
    decreases |moves|
  {
    if moves == [] then c else After(Next(c, moves[0]), moves[1..])
  }

  // ---- What a configuration still has to do, by the reference semantics -------------

  /** The reference semantics of the rest of a worker's stack. */
  function EvalStack(k: Stack, ctx: Context, outcome: Outcome, base: Context): Result
    decreases k, 0
  {
    match k
    case Nil => Result(ctx, outcome, multiset{})
    case Push(Run(p, path), rest) =>
      if outcome.Threw? then EvalStack(rest, ctx, outcome, base)
      else Chain(Eval(p, ctx, path, base), rest, base)
    case Push(Detach(saved), rest) => EvalStack(rest, saved, outcome, base)
    case Push(End(id), rest) =>
      var r := EvalStack(rest, ctx, outcome, base);
      Result(r.ctx, r.outcome, multiset{Ended(id)} + r.events)
    case Push(Catch(h, path), rest) =>
      if outcome.Done? then EvalStack(rest, ctx, outcome, base)
      else Chain(Eval(h, ctx, path, base), rest, base)
  }

  function Chain(r: Result, rest: Stack, base: Context): Result
    decreases rest, 1
  {
    var s := EvalStack(rest, r.ctx, r.outcome, base);
    Result(s.ctx, s.outcome, r.events + s.events)
  }

  function Remaining(w: Worker, base: Context): Result {
    EvalStack(w.stack, w.current, w.outcome, base)
  }

  function Tree(item: Pending, base: Context): multiset<Event> {
    Eval(item.prog, base, item.path, base).events
  }

  function TreeOn(base: Context): Pending -> multiset<Event> { item => Tree(item, base) }

  function RemainingOn(base: Context): Worker -> multiset<Event> { w => Remaining(w, base).events }

  function Sum<A>(f: A -> multiset<Event>, s: seq<A>): multiset<Event> {
    if s == [] then multiset{} else f(s[0]) + Sum(f, s[1..])
  }

  function Trees(pool: seq<Pending>, base: Context): multiset<Event> { Sum(TreeOn(base), pool) }

  function Remainders(workers: seq<Worker>, base: Context): multiset<Event> { Sum(RemainingOn(base), workers) }

  /** Everything observed so far together with everything still to come. */
  function Total(c: Config, base: Context): multiset<Event> {
    multiset(c.log) + Remainders(c.workers, base) + Trees(c.pool, base)
  }

  lemma {:induction false} SumConcat<A>(f: A -> multiset<Event>, a: seq<A>, b: seq<A>)
    ensures Sum(f, a + b) == Sum(f, a) + Sum(f, b)
  {
    if a == [] {
      assert a + b == b;
    } else {
      SumConcat(f, a[1..], b);
      assert (a + b)[1..] == a[1..] + b;
    }
  }

  lemma {:induction false} SumSplit<A>(f: A -> multiset<Event>, s: seq<A>, j: nat)
    requires j < |s|
    ensures Sum(f, s) == f(s[j]) + Sum(f, s[..j] + s[j + 1..])
  {
    assert s == s[..j] + ([s[j]] + s[j + 1..]);
    SumConcat(f, s[..j], [s[j]] + s[j + 1..]);
    SumConcat(f, s[..j], s[j + 1..]);
    assert ([s[j]] + s[j + 1..])[1..] == s[j + 1..];
  }

  lemma {:induction false} SumUpdate<A>(f: A -> multiset<Event>, s: seq<A>, i: nat, x: A)
    requires i < |s|
    ensures Sum(f, s[i := x]) + f(s[i]) == Sum(f, s) + f(x)
  {
    SumSplit(f, s, i);
    SumSplit(f, s[i := x], i);
    assert s[i := x][..i] == s[..i] && s[i := x][i + 1..] == s[i + 1..];
  }

  function Tally<A>(f: A -> nat, s: seq<A>): nat {
    if s == [] then 0 else f(s[0]) + Tally(f, s[1..])
  }

  lemma {:induction false} TallyConcat<A>(f: A -> nat, a: seq<A>, b: seq<A>)
    ensures Tally(f, a + b) == Tally(f, a) + Tally(f, b)
  {
    if a == [] {
      assert a + b == b;
    } else {
      TallyConcat(f, a[1..], b);
      assert (a + b)[1..] == a[1..] + b;
    }
  }

  lemma {:induction false} TallySplit<A>(f: A -> nat, s: seq<A>, j: nat)
    requires j < |s|
    ensures Tally(f, s) == f(s[j]) + Tally(f, s[..j] + s[j + 1..])
  {
    assert s == s[..j] + ([s[j]] + s[j + 1..]);
    TallyConcat(f, s[..j], [s[j]] + s[j + 1..]);
    TallyConcat(f, s[..j], s[j + 1..]);
    assert ([s[j]] + s[j + 1..])[1..] == s[j + 1..];
  }

  lemma {:induction false} TallyUpdate<A>(f: A -> nat, s: seq<A>, i: nat, x: A)
    requires i < |s|
    ensures Tally(f, s[i := x]) + f(s[i]) == Tally(f, s) + f(x)
  {
    TallySplit(f, s, i);
    TallySplit(f, s[i := x], i);
    assert s[i := x][..i] == s[..i] && s[i := x][i + 1..] == s[i + 1..];
  }

  lemma TallyOne<A>(f: A -> nat, x: A)
    ensures Tally(f, [x]) == f(x)
  {
    assert [x][1..] == [];
  }

  lemma AtMostOne<A>(f: A -> nat, s: seq<A>)
    ensures |s| <= 1 ==> Tally(f, s) == if s == [] then 0 else f(s[0])
  {
    if |s| == 1 {
      assert s == [s[0]];
      TallyOne(f, s[0]);
    }
  }

  /** What one step may not change: how the worker will finish, and the sum of what
      has been seen, what the worker will do and what it has handed off. */
  ghost predicate Conserves(before: Result, e: Effect, base: Context) {
    var after := Remaining(e.worker, base);
    && before.ctx == after.ctx
    && before.outcome == after.outcome
    && before.events == multiset(e.emitted) + after.events + Trees(e.shipped, base)
  }

  /** The `finally` frames of a span: restore the context, end the span, carry on. */
  lemma StackFinally(ctx: Context, outcome: Outcome, saved: Context, id: Path, rest: Stack, base: Context)
    ensures EvalStack(Push(Detach(saved), Push(End(id), rest)), ctx, outcome, base)
         == (var s := EvalStack(rest, saved, outcome, base);
             Result(s.ctx, s.outcome, multiset{Ended(id)} + s.events))
  {
    var k := Push(Detach(saved), Push(End(id), rest));
    assert EvalStack(k, ctx, outcome, base) == EvalStack(k.rest, saved, outcome, base);
  }

  lemma ChainFinally(r: Result, saved: Context, id: Path, rest: Stack, base: Context)
    ensures Chain(r, Push(Detach(saved), Push(End(id), rest)), base)
         == (var s := EvalStack(rest, saved, r.outcome, base);
             Result(s.ctx, s.outcome, r.events + (multiset{Ended(id)} + s.events)))
  {
    StackFinally(r.ctx, r.outcome, saved, id, rest, base);
  }

  lemma Regroup(start: Event, end: Event, body: multiset<Event>, rest: multiset<Event>)
    ensures (multiset{start} + multiset{end} + body) + rest
         == multiset([start]) + (body + (multiset{end} + rest))
  {
  }

  lemma {:induction false} ChainThen(r: Result, t: Result, rest: Stack, base: Context)
    ensures Chain(Then(r, t), rest, base).events == r.events + Chain(t, rest, base).events
  {
    var s := EvalStack(rest, t.ctx, t.outcome, base);
    assert r.events + (t.events + s.events) == (r.events + t.events) + s.events;
  }

  lemma {:induction false} ChainRun(r: Result, p: Prog, path: Path, rest: Stack, base: Context)
    ensures Chain(r, Push(Run(p, path), rest), base)
         == if r.outcome.Threw? then Chain(r, rest, base)
            else Chain(Then(r, Eval(p, r.ctx, path, base)), rest, base)
  {
    var k := Push(Run(p, path), rest);
    if r.outcome.Threw? {
      assert EvalStack(k, r.ctx, r.outcome, base) == EvalStack(rest, r.ctx, r.outcome, base);
    } else {
      ChainThen(r, Eval(p, r.ctx, path, base), rest, base);
      assert EvalStack(k, r.ctx, r.outcome, base) == Chain(Eval(p, r.ctx, path, base), rest, base);
    }
  }

  lemma {:induction false} ChainCatch(r: Result, h: Prog, path: Path, rest: Stack, base: Context)
    ensures Chain(r, Push(Catch(h, path), rest), base)
         == if r.outcome.Done? then Chain(r, rest, base)
            else Chain(Then(r, Eval(h, r.ctx, path, base)), rest, base)
  {
    var k := Push(Catch(h, path), rest);
    if r.outcome.Done? {
      assert EvalStack(k, r.ctx, r.outcome, base) == EvalStack(rest, r.ctx, r.outcome, base);
    } else {
      ChainThen(r, Eval(h, r.ctx, path, base), rest, base);
      assert EvalStack(k, r.ctx, r.outcome, base) == Chain(Eval(h, r.ctx, path, base), rest, base);
    }
  }

  lemma {:induction false} OneShipped(item: Pending, base: Context)
    ensures Trees([item], base) == Tree(item, base)
  {
    assert [item][1..] == [] && Sum(TreeOn(base), []) == multiset{};
    assert TreeOn(base)([item][0]) == Tree(item, base);
  }

  lemma SpawnEval(positional: bool, b: Prog, ctx: Context, path: Path, base: Context)
    ensures Eval(Spawn(positional, b), ctx, path, base)
         == Result(ctx, Done, Tree(Pending(Spawned(positional, ctx, b), path + [0]), base))
  {
  }

  lemma PostEval(c: Option<Carrier>, via: Seam, fails: Option<nat>, b: Prog, ctx: Context, path: Path, base: Context)
    ensures Eval(Post(c, via, fails, b), ctx, path, base)
         == Result(ctx, Failing(fails),
                   Bracket(path, ctx, SeamKind(via)) +
                   Tree(Pending(Arrival(via, Wire(via, c, Active(Open(path, ctx))), b), path + [0]), base))
  {
  }

  // ---- Each kind of step conserves -----------------------------------------------------

  lemma {:induction false} EnterKeeps(w: Worker, rest: Stack, kind: Kind, parent: Context, body: Prog,
                                      path: Path, base: Context)
    requires w.outcome.Done?
    ensures Conserves(Chain(Around(kind, parent, w.current, path,
                                   Eval(body, Active(Open(path, parent)), path + [0], base)), rest, base),
                      Enter(w, rest, kind, parent, body, path), base)
  {
    var span := Active(Open(path, parent));
    var k := Push(Detach(w.current), Push(End(path), rest));
    var r := Eval(body, span, path + [0], base);
    ChainFinally(r, w.current, path, rest, base);
    assert EvalStack(Push(Run(body, path + [0]), k), span, Done, base) == Chain(r, k, base);
    var s := EvalStack(rest, w.current, r.outcome, base);
    Regroup(StartEvent(path, parent, kind), Ended(path), r.events, s.events);
  }

  lemma {:induction false} SeqKeeps(w: Worker, a: Prog, b: Prog, path: Path, rest: Stack, base: Context)
    requires w.outcome.Done?
    ensures Conserves(Chain(Eval(Seq(a, b), w.current, path, base), rest, base),
                      StepProg(w, Seq(a, b), path, rest), base)
  {
    hide Eval;
    SequenceEval(Seq(a, b), a, b, w.current, path, base);
    var r := Eval(a, w.current, path + [0], base);
    var k := Push(Run(b, path + [1]), rest);
    assert EvalStack(Push(Run(a, path + [0]), k), w.current, Done, base) == Chain(r, k, base);
    ChainRun(r, b, path + [1], rest, base);
  }

  lemma {:induction false} TryKeeps(w: Worker, a: Prog, h: Prog, path: Path, rest: Stack, base: Context)
    requires w.outcome.Done?
    ensures Conserves(Chain(Eval(Try(a, h), w.current, path, base), rest, base),
                      StepProg(w, Try(a, h), path, rest), base)
  {
    hide Eval;
    SequenceEval(Try(a, h), a, h, w.current, path, base);
    var r := Eval(a, w.current, path + [0], base);
    var k := Push(Catch(h, path + [1]), rest);
    assert EvalStack(Push(Run(a, path + [0]), k), w.current, Done, base) == Chain(r, k, base);
    ChainCatch(r, h, path + [1], rest, base);
  }

  lemma {:induction false} ResumeKeeps(w: Worker, c: Context, b: Prog, path: Path, rest: Stack, base: Context)
    requires w.outcome.Done?
    ensures Conserves(Chain(Eval(Resume(Some(c), b), w.current, path, base), rest, base),
                      StepProg(w, Resume(Some(c), b), path, rest), base)
  {
    var k := Push(Detach(w.current), rest);
    var r := Eval(b, c, path + [0], base);
    assert EvalStack(Push(Run(b, path + [0]), k), c, Done, base) == Chain(r, k, base);
    assert EvalStack(k, r.ctx, r.outcome, base) == EvalStack(rest, w.current, r.outcome, base);
  }

  lemma {:induction false} ConsumeKeeps(w: Worker, c: Carrier, b: Prog, path: Path, rest: Stack, base: Context)
    requires w.outcome.Done?
    ensures Conserves(Chain(Eval(Consume(c, b), w.current, path, base), rest, base),
                      StepProg(w, Consume(c, b), path, rest), base)
  {
    hide Eval;
    var ctx := if Extract(c).Empty? then w.current else Extract(c);
    ConsumeEval(c, b, w.current, path, base);
    InSpanEval(Consumer, b, ctx, path, base);
    var q := Eval(InSpan(Consumer, b), ctx, path, base);
    var k := Push(Detach(w.current), rest);
    assert EvalStack(Push(Run(InSpan(Consumer, b), path), k), ctx, Done, base) == Chain(q, k, base);
    assert EvalStack(k, q.ctx, q.outcome, base) == EvalStack(rest, w.current, q.outcome, base);
  }

  lemma {:induction false} SpawnKeeps(w: Worker, positional: bool, b: Prog, path: Path, rest: Stack, base: Context)
    requires w.outcome.Done?
    ensures Conserves(Chain(Eval(Spawn(positional, b), w.current, path, base), rest, base),
                      StepProg(w, Spawn(positional, b), path, rest), base)
  {
    hide Eval;
    SpawnEval(positional, b, w.current, path, base);
    var item := Pending(Spawned(positional, w.current, b), path + [0]);
    assert StepProg(w, Spawn(positional, b), path, rest).shipped == [item];
    OneShipped(item, base);
  }

  lemma PostStep(w: Worker, c: Option<Carrier>, via: Seam, fails: Option<nat>, b: Prog, path: Path, rest: Stack)
    ensures var span := Active(Open(path, w.current));
            StepProg(w, Post(c, via, fails, b), path, rest)
            == Effect(w.(current := span, outcome := Failing(fails),
                         stack := Push(Detach(w.current), Push(End(path), rest))),
                      [StartEvent(path, w.current, SeamKind(via))],
                      [Pending(Arrival(via, Wire(via, c, span), b), path + [0])])
  {
  }

  lemma {:induction false} PostKeeps(w: Worker, c: Option<Carrier>, via: Seam, fails: Option<nat>, b: Prog,
                                     path: Path, rest: Stack, base: Context)
    requires w.outcome.Done?
    ensures Conserves(Chain(Eval(Post(c, via, fails, b), w.current, path, base), rest, base),
                      StepProg(w, Post(c, via, fails, b), path, rest), base)
  {
    hide Eval, StepProg, EvalStack, Wire, Trees;
    PostStep(w, c, via, fails, b, path, rest);
    PostEval(c, via, fails, b, w.current, path, base);
    var span := Active(Open(path, w.current));
    var item := Pending(Arrival(via, Wire(via, c, span), b), path + [0]);
    OneShipped(item, base);
    StackFinally(span, Failing(fails), w.current, path, rest, base);
    Regroup(StartEvent(path, w.current, SeamKind(via)), Ended(path), Tree(item, base),
            EvalStack(rest, w.current, Failing(fails), base).events);
  }

  predicate Simple(p: Prog) {
    p.Skip? || p.Raise? || p.Leak? || p.Log? || (p.Resume? && p.captured.None?)
  }

  lemma {:induction false} SimpleKeeps(w: Worker, p: Prog, path: Path, rest: Stack, base: Context)
    requires w.outcome.Done? && Simple(p)
    ensures Conserves(Chain(Eval(p, w.current, path, base), rest, base), StepProg(w, p, path, rest), base)
  {
    assert Trees([], base) == multiset{};
    if p.Log? {
      var s := EvalStack(rest, w.current, Done, base);
      assert Remaining(StepProg(w, p, path, rest).worker, base) == s;
    }
  }

  lemma {:induction false} ProgKeeps(w: Worker, p: Prog, path: Path, rest: Stack, base: Context)
    requires w.outcome.Done?
    ensures Conserves(Chain(Eval(p, w.current, path, base), rest, base), StepProg(w, p, path, rest), base)
  {
    hide Eval;
    if Simple(p) {
      SimpleKeeps(w, p, path, rest, base);
    } else {
      match p
      case Seq(a, b) => SeqKeeps(w, a, b, path, rest, base);
      case Try(a, h) => TryKeeps(w, a, h, path, rest, base);
      case InSpan(kind, b) =>
        InSpanEval(kind, b, w.current, path, base);
        EnterKeeps(w, rest, kind, w.current, b, path, base);
      case Resume(Some(c), b) => ResumeKeeps(w, c, b, path, rest, base);
      case Consume(c, b) => ConsumeKeeps(w, c, b, path, rest, base);
      case Entry(h, b) =>
        EntryEval(h, b, w.current, path, base);
        EnterKeeps(w, rest, EntryKind(w.current), EntryParent(h, w.current), b, path, base);
      case Spawn(positional, b) => SpawnKeeps(w, positional, b, path, rest, base);
      case Post(c, via, fails, b) => PostKeeps(w, c, via, fails, b, path, rest, base);
    }
  }

  /** Every step of every worker conserves the reference semantics. */
  lemma {:induction false} StepKeeps(w: Worker, base: Context)
    requires w.stack.Push?
    ensures Conserves(Remaining(w, base), Step(w), base)
  {
    match w.stack.top
    case Run(p, path) =>
      if w.outcome.Done? { ProgKeeps(w, p, path, w.stack.rest, base); }
    case Detach(_) =>
    case End(_) =>
    case Catch(_, _) =>
  }
}
