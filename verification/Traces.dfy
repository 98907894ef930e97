/** What keeps a request in one trace: through threads, pools, messages and HTTP, under any
    schedule, beside any other work. */
module Traces {
  import opened Spans
  import opened Programs
  import opened Scheduler
  import opened Schedules
  import opened Lifetimes

  /** A context of the request: some span is active, of trace `t` if one is given. */
  predicate Belongs(c: Context, t: Option<Path>) {
    c.Active? && (t.Some? ==> c.span.trace == t.value)
  }

  /** `p` keeps to its request: whatever contexts it attaches belong to it, and every
      hand-off carries its context.  `web` allows HTTP hops. */
  predicate Keeps(p: Prog, t: Option<Path>, web: bool) {
    match p
    case Seq(a, b) => Keeps(a, t, web) && Keeps(b, t, web)
    case Try(a, h) => Keeps(a, t, web) && Keeps(h, t, web)
    case Leak(c) => Belongs(c, t)
    case InSpan(_, b) => Keeps(b, t, web)
    case Resume(c, b) => Keeps(b, t, web) && (c.Some? ==> Belongs(c.value, t))
    case Consume(c, b) => Keeps(b, t, web) && (Extract(c).Active? ==> Belongs(Extract(c), t))
    case Entry(_, b) => Keeps(b, t, web)
    case Spawn(positional, b) => positional && Keeps(b, t, web)
    case Post(c, via, _, b) => (if via.Http? then web else c.Some?) && Keeps(b, t, web)
    case _ => true
  }

  /** A worker context that an HTTP entry point may prefer to the wire's without harm. */
  predicate Harmless(base: Context, t: Option<Path>) { base.Empty? || Belongs(base, t) }

  // ---- The reference semantics --------------------------------------------------------------

  ghost predicate Loyal(e: Event, t: Option<Path>) {
    match e
    case Started(_, parent, trace, _) => Belongs(parent, t) && trace == parent.span.trace
    case Logged(_, stamp) => Belongs(stamp, t)
    case Ended(_) => true
  }

  ghost predicate AllLoyal(events: multiset<Event>, t: Option<Path>) {
    forall e | e in events :: Loyal(e, t)
  }

  function ArrivalKind(via: Seam, base: Context): Kind {
    match via case Rpc => Consumer case Http => EntryKind(base)
  }

  function ArrivalParent(via: Seam, carrier: Carrier, base: Context): Context {
    match via case Rpc => ConsumerParent(carrier, base) case Http => EntryParent(Some(carrier), base)
  }

  /** What a traced send causes: a span, and a span of the receiver on a worker with context
      `base`, around the handler. */
  lemma PostEvents(c: Option<Carrier>, via: Seam, fails: Option<nat>, b: Prog, ctx: Context, path: Path, base: Context)
    ensures (var parent := ArrivalParent(via, Wire(via, c, Active(Open(path, ctx))), base);
             Eval(Post(c, via, fails, b), ctx, path, base).events
             == Bracket(path, ctx, SeamKind(via)) +
                (Bracket(path + [0], parent, ArrivalKind(via, base)) +
                 Eval(b, Active(Open(path + [0], parent)), path + [0] + [0], base).events))
  {
    PostEval(c, via, fails, b, ctx, path, base);
    var carrier := Wire(via, c, Active(Open(path, ctx)));
    match via
    case Rpc => ConsumeEval(carrier, b, base, path + [0], base);
    case Http => EntryEval(Some(carrier), b, base, path + [0], base);
  }

  /** Run in a context of the request, everything it causes belongs to the request: through
      threads, pools and messages, and through HTTP to servers with harmless workers. */
  lemma {:induction false} StaysInTrace(p: Prog, ctx: Context, path: Path, base: Context, t: Option<Path>, web: bool)
    requires Keeps(p, t, web) && Belongs(ctx, t) && (web ==> Harmless(base, t))
    ensures Belongs(Eval(p, ctx, path, base).ctx, t)
    ensures AllLoyal(Eval(p, ctx, path, base).events, t)
    decreases Size(p), 1
  {
    match p
    case Seq(a, b) => SequenceStays(p, a, b, ctx, path, base, t, web);
    case Try(a, h) => SequenceStays(p, a, h, ctx, path, base, t, web);
    case InSpan(kind, b) => SpanStays(kind, ctx, b, path, base, t, web);
    case Resume(None, b) => StaysInTrace(b, ctx, path + [0], base, t, web);
    case Resume(Some(c), b) => StaysInTrace(b, c, path + [0], base, t, web);
    case Consume(c, b) => SpanStays(Consumer, ConsumerParent(c, ctx), b, path, base, t, web);
    case Entry(h, b) => SpanStays(Internal, ctx, b, path, base, t, web);
    case Spawn(_, b) => StaysInTrace(b, ctx, path + [0] + [0], base, t, web);
    case Post(_, _, _, _) => PostStays(p, ctx, path, base, t, web);
    case _ =>
  }

  lemma {:induction false} SpanStays(kind: Kind, parent: Context, b: Prog, path: Path, base: Context,
                                     t: Option<Path>, web: bool)
    requires Keeps(b, t, web) && Belongs(parent, t) && (web ==> Harmless(base, t))
    ensures AllLoyal(Bracket(path, parent, kind) + Eval(b, Active(Open(path, parent)), path + [0], base).events, t)
    decreases Size(b), 2
  {
    StaysInTrace(b, Active(Open(path, parent)), path + [0], base, t, web);
  }

  lemma {:induction false} PostStays(p: Prog, ctx: Context, path: Path, base: Context, t: Option<Path>, web: bool)
    requires p.Post? && Keeps(p, t, web) && Belongs(ctx, t) && (web ==> Harmless(base, t))
    ensures AllLoyal(Eval(p, ctx, path, base).events, t)
    decreases Size(p), 0
  {
    PostEvents(p.ctxt, p.via, p.fails, p.body, ctx, path, base);
    var parent := ArrivalParent(p.via, Wire(p.via, p.ctxt, Active(Open(path, ctx))), base);
    assert Belongs(parent, t);
    hide Eval;
    SpanStays(ArrivalKind(p.via, base), parent, p.body, path + [0], base, t, web);
  }

  lemma {:induction false} SequenceStays(p: Prog, a: Prog, b: Prog, ctx: Context, path: Path, base: Context,
                                         t: Option<Path>, web: bool)
    requires p == Seq(a, b) || p == Try(a, b)
    requires Keeps(p, t, web) && Belongs(ctx, t) && (web ==> Harmless(base, t))
    ensures Belongs(Eval(p, ctx, path, base).ctx, t)
    ensures AllLoyal(Eval(p, ctx, path, base).events, t)
    decreases Size(p), 0
  {
    var r := Eval(a, ctx, path + [0], base);
    StaysInTrace(a, ctx, path + [0], base, t, web);
    StaysInTrace(b, r.ctx, path + [1], base, t, web);
  }

  // ---- Runs -----------------------------------------------------------------------------------

  /** Nothing that `e` shows is outside trace `t`. */
  predicate InTrace(e: Event, t: Path) {
    match e
    case Started(_, _, trace, _) => trace == t
    case Logged(_, stamp) => Belongs(stamp, Some(t))
    case Ended(_) => true
  }

  /** Work that brings its context of trace `t` along to whatever worker picks it. */
  predicate Travels(p: Prog, t: Path, web: bool) {
    match p
    case Resume(Some(c), b) => Belongs(c, Some(t)) && Keeps(b, Some(t), web)
    case Consume(c, b) => Belongs(Extract(c), Some(t)) && Keeps(b, Some(t), web)
    case Entry(Some(h), b) => web && Belongs(Extract(h), Some(t)) && Keeps(b, Some(t), web)
    case _ => false
  }

  /** Run at `path` in context `ctx`, `p` is in trace `t` from its first event on: it opens its
      first span there, or attaches a context of that trace, or starts in one. */
  predicate Begins(p: Prog, path: Path, ctx: Context, t: Path, web: bool) {
    match p
    case InSpan(_, b) => Open(path, ctx).trace == t && Keeps(b, Some(t), web)
    case Consume(c, b) => Open(path, ConsumerParent(c, ctx)).trace == t && Keeps(b, Some(t), web)
    case Entry(h, b) => Open(path, EntryParent(h, ctx)).trace == t && Keeps(b, Some(t), web)
    case Post(c, via, _, b) =>
      Open(path, ctx).trace == t && (if via.Http? then web else c.Some?) && Keeps(b, Some(t), web)
    case Resume(Some(c), b) => Belongs(c, Some(t)) && Keeps(b, Some(t), web)
    case _ => Belongs(ctx, Some(t)) && Keeps(p, Some(t), web)
  }

  /** Nothing on the stack is at or below position `root`, or above it. */
  ghost predicate Elsewhere(k: Stack, root: Path) {
    match k
    case Nil => true
    case Push(Run(_, path), rest) => Apart(path, root) && Elsewhere(rest, root)
    case Push(Catch(_, path), rest) => Apart(path, root) && Elsewhere(rest, root)
    case Push(_, rest) => Elsewhere(rest, root)
  }

  /** A stack that, resumed in a context of trace `t`, stays in it until nothing at or below
      `root` is left. */
  ghost predicate Loyalty(k: Stack, root: Path, t: Path, web: bool) {
    Elsewhere(k, root) ||
    match k
    case Nil => true
    case Push(Run(p, path), rest) => root <= path && Keeps(p, Some(t), web) && Loyalty(rest, root, t, web)
    case Push(Catch(h, path), rest) => root <= path && Keeps(h, Some(t), web) && Loyalty(rest, root, t, web)
    case Push(Detach(saved), rest) => Belongs(saved, Some(t)) && Loyalty(rest, root, t, web)
    case Push(End(_), rest) => Loyalty(rest, root, t, web)
  }

  /** What a stack is resumed in does not matter, or will do. */
  ghost predicate Rests(ctx: Context, k: Stack, root: Path, t: Path, web: bool) {
    Elsewhere(k, root) || (Belongs(ctx, Some(t)) && Loyalty(k, root, t, web))
  }

  ghost predicate WorksIn(w: Worker, root: Path, t: Path, web: bool) {
    || Rests(w.current, w.stack, root, t, web)
    || (&& w.stack.Push? && w.stack.top.Run? && root <= w.stack.top.path
        && Begins(w.stack.top.prog, w.stack.top.path, w.current, t, web)
        && Rests(w.current, w.stack.rest, root, t, web))
  }

  ghost predicate Fits(item: Pending, root: Path, t: Path, web: bool) {
    Apart(item.path, root) || (root <= item.path && Travels(item.prog, t, web))
  }

  /** Everything at or below `root`, seen or still to come, is in trace `t`. */
  ghost predicate Together(c: Config, root: Path, t: Path, web: bool) {
    && (forall i | 0 <= i < |c.workers| :: WorksIn(c.workers[i], root, t, web))
    && (forall j | 0 <= j < |c.pool| :: Fits(c.pool[j], root, t, web))
    && TogetherLog(c.log, root, t)
  }

  ghost predicate TogetherLog(log: seq<Event>, root: Path, t: Path) {
    forall e | e in log && root <= e.id :: InTrace(e, t)
  }

  lemma StillApart(path: Path, root: Path)
    ensures Apart(path, root) ==> Apart(path + [0], root) && Apart(path + [1], root)
  {
    if root <= path + [0] { PrefixesComparable(root, path, path + [0]); }
    if root <= path + [1] { PrefixesComparable(root, path, path + [1]); }
  }

  lemma ProgElsewhere(w: Worker, p: Prog, path: Path, rest: Stack, root: Path)
    requires Apart(path, root) && Elsewhere(rest, root)
    ensures var e := StepProg(w, p, path, rest);
            && Elsewhere(e.worker.stack, root)
            && (forall j | 0 <= j < |e.shipped| :: Apart(e.shipped[j].path, root))
            && (forall k | 0 <= k < |e.emitted| :: !(root <= e.emitted[k].id))
  {
    hide Inject, Extract, Apart;
    StillApart(path, root);
    assert !(root <= path) by { NotUnder(path, root); }
    assert Elsewhere(Push(Detach(w.current), Push(End(path), rest)), root);
    assert Elsewhere(Push(Detach(w.current), rest), root);
  }

  lemma NotUnder(path: Path, root: Path)
    requires Apart(path, root)
    ensures !(root <= path)
  {
  }

  lemma StepElsewhere(w: Worker, root: Path)
    requires w.stack.Push? && Elsewhere(w.stack, root)
    ensures var e := Step(w);
            && Elsewhere(e.worker.stack, root)
            && (forall j | 0 <= j < |e.shipped| :: Apart(e.shipped[j].path, root))
            && (forall k | 0 <= k < |e.emitted| :: !(root <= e.emitted[k].id) || e.emitted[k].Ended?)
  {
    hide StepProg, Apart;
    if w.stack.top.Run? { ProgElsewhere(w, w.stack.top.prog, w.stack.top.path, w.stack.rest, root); }
  }

  ghost predicate GoodEffect(e: Effect, root: Path, t: Path, web: bool) {
    && WorksIn(e.worker, root, t, web)
    && (forall j | 0 <= j < |e.shipped| :: Fits(e.shipped[j], root, t, web))
    && (forall k | 0 <= k < |e.emitted| :: root <= e.emitted[k].id ==> InTrace(e.emitted[k], t))
  }

  /** The frames that end a span do no harm to what is below them. */
  lemma FinallyRests(ctx: Context, saved: Context, path: Path, rest: Stack, root: Path, t: Path, web: bool)
    requires Belongs(ctx, Some(t)) && Rests(saved, rest, root, t, web)
    ensures Loyalty(Push(Detach(saved), Push(End(path), rest)), root, t, web)
    ensures Loyalty(Push(Detach(saved), rest), root, t, web)
    ensures Elsewhere(rest, root) ==> Elsewhere(Push(Detach(saved), rest), root)
  {
    if Elsewhere(rest, root) {
      assert Elsewhere(Push(End(path), rest), root);
      assert Elsewhere(Push(Detach(saved), Push(End(path), rest)), root);
    } else {
      assert Loyalty(Push(End(path), rest), root, t, web);
    }
  }

  lemma EnterWorks(w: Worker, rest: Stack, kind: Kind, parent: Context, b: Prog, path: Path,
                   root: Path, t: Path, web: bool)
    requires Open(path, parent).trace == t && Keeps(b, Some(t), web) && root <= path
    requires Rests(w.current, rest, root, t, web)
    ensures GoodEffect(Enter(w, rest, kind, parent, b, path), root, t, web)
  {
    hide Keeps, Elsewhere, Begins;
    FinallyRests(Active(Open(path, parent)), w.current, path, rest, root, t, web);
  }

  lemma ProgWorksIn(w: Worker, p: Prog, path: Path, rest: Stack, root: Path, t: Path, web: bool)
    requires root <= path && Begins(p, path, w.current, t, web) && Rests(w.current, rest, root, t, web)
    ensures GoodEffect(StepProg(w, p, path, rest), root, t, web)
  {
    hide StepProg, Begins, Rests, GoodEffect;
    if p.Post? {
      PostWorks(w, p.ctxt, p.via, p.fails, p.body, path, rest, root, t, web);
    } else if p.Consume? {
      ConsumeWorks(w, p.carrier, p.body, path, rest, root, t, web);
    } else {
      OtherWorks(w, p, path, rest, root, t, web);
    }
  }

  lemma OtherWorks(w: Worker, p: Prog, path: Path, rest: Stack, root: Path, t: Path, web: bool)
    requires root <= path && Begins(p, path, w.current, t, web) && Rests(w.current, rest, root, t, web)
    requires !p.Post? && !p.Consume?
    ensures GoodEffect(StepProg(w, p, path, rest), root, t, web)
  {
    hide Elsewhere;
    assert root <= path + [0] && root <= path + [1];
    assert Loyalty(rest, root, t, web);
    match p
    case InSpan(kind, b) => EnterWorks(w, rest, kind, w.current, b, path, root, t, web);
    case Entry(h, b) => EnterWorks(w, rest, EntryKind(w.current), EntryParent(h, w.current), b, path, root, t, web);
    case Seq(a, b) => assert Loyalty(Push(Run(b, path + [1]), rest), root, t, web);
    case Try(a, h) => assert Loyalty(Push(Catch(h, path + [1]), rest), root, t, web);
    case Resume(Some(c), b) =>
      FinallyRests(c, w.current, path, rest, root, t, web);
      assert Loyalty(Push(Run(b, path + [0]), Push(Detach(w.current), rest)), root, t, web);
    case Resume(None, b) => assert Loyalty(Push(Run(b, path + [0]), rest), root, t, web);
    case Spawn(positional, b) =>
      assert positional && Travels(Resume(Some(w.current), b), t, web);
      assert Rests(w.current, rest, root, t, web);
    case _ =>
  }

  lemma PostWorks(w: Worker, c: Option<Carrier>, via: Seam, fails: Option<nat>, b: Prog, path: Path, rest: Stack,
                  root: Path, t: Path, web: bool)
    requires root <= path && Begins(Post(c, via, fails, b), path, w.current, t, web)
    requires Rests(w.current, rest, root, t, web)
    ensures GoodEffect(StepProg(w, Post(c, via, fails, b), path, rest), root, t, web)
  {
    hide StepProg, Elsewhere, Keeps;
    var span := Active(Open(path, w.current));
    PostStep(w, c, via, fails, b, path, rest);
    FinallyRests(span, w.current, path, rest, root, t, web);
    assert Travels(Arrival(via, Wire(via, c, span), b), t, web);
  }

  lemma ConsumeWorks(w: Worker, c: Carrier, b: Prog, path: Path, rest: Stack, root: Path, t: Path, web: bool)
    requires root <= path && Begins(Consume(c, b), path, w.current, t, web) && Rests(w.current, rest, root, t, web)
    ensures GoodEffect(StepProg(w, Consume(c, b), path, rest), root, t, web)
  {
    hide Elsewhere, Keeps;
    var parent := ConsumerParent(c, w.current);
    assert Rests(parent, Push(Detach(w.current), rest), root, t, web) by {
      if Elsewhere(rest, root) { ElsewherePushed(w.current, rest, root); }
    }
    assert Begins(InSpan(Consumer, b), path, parent, t, web);
  }

  lemma ElsewherePushed(saved: Context, rest: Stack, root: Path)
    requires Elsewhere(rest, root)
    ensures Elsewhere(Push(Detach(saved), rest), root)
  {
  }

  lemma KeepsBegins(p: Prog, path: Path, ctx: Context, t: Path, web: bool)
    requires Belongs(ctx, Some(t)) && Keeps(p, Some(t), web)
    ensures Begins(p, path, ctx, t, web)
  {
  }

  lemma StepWorksIn(w: Worker, root: Path, t: Path, web: bool)
    requires w.stack.Push? && WorksIn(w, root, t, web)
    ensures GoodEffect(Step(w), root, t, web)
  {
    var rest := w.stack.rest;
    if Elsewhere(w.stack, root) {
      StepElsewhere(w, root);
      hide Step, Elsewhere, Travels;
      EndsInTrace(t);
    } else if w.stack.top.Run? {
      var p, path := w.stack.top.prog, w.stack.top.path;
      if Rests(w.current, w.stack, root, t, web) { KeepsBegins(p, path, w.current, t, web); }
      hide StepProg, Elsewhere, Begins, Keeps;
      if w.outcome.Done? { ProgWorksIn(w, p, path, rest, root, t, web); }
    } else if w.stack.top.Catch? {
      KeepsBegins(w.stack.top.handler, w.stack.top.path, w.current, t, web);
    }
  }

  /** An idle worker that picks work of the request starts in a context that will do. */
  ghost predicate Welcoming(c: Config, t: Path, web: bool) {
    web ==> Orderly(c, Empty) && forall i | 0 <= i < |c.workers| :: Harmless(c.workers[i].base, Some(t))
  }

  lemma AdvanceTogether(c: Config, i: nat, root: Path, t: Path, web: bool)
    requires Enabled(c, Advance(i)) && Together(c, root, t, web)
    ensures Together(Next(c, Advance(i)), root, t, web)
  {
    var w, e, d := c.workers[i], Step(c.workers[i]), Next(c, Advance(i));
    StepWorksIn(w, root, t, web);
    hide Step, WorksIn, Fits, InTrace;
    forall j | 0 <= j < |d.pool| ensures Fits(d.pool[j], root, t, web) {
      if j < |c.pool| { assert d.pool[j] == c.pool[j]; } else { assert d.pool[j] == e.shipped[j - |c.pool|]; }
    }
    assert forall x | x in d.log :: x in c.log || x in e.emitted;
  }

  lemma EndsInTrace(t: Path)
    ensures forall e: Event | e.Ended? :: InTrace(e, t)
  {
  }

  lemma PickTogether(c: Config, i: nat, j: nat, root: Path, t: Path, web: bool)
    requires Enabled(c, Pick(i, j)) && Together(c, root, t, web) && Welcoming(c, t, web)
    ensures Together(Next(c, Pick(i, j)), root, t, web)
  {
    var item, d := c.pool[j], Next(c, Pick(i, j));
    if web { assert Remaining(c.workers[i], Empty).ctx == c.workers[i].current; }
    assert WorksIn(d.workers[i], root, t, web) by {
      assert Elsewhere(Nil, root);
      if Apart(item.path, root) {
        assert Elsewhere(d.workers[i].stack, root);
      } else {
        assert Begins(item.prog, item.path, d.workers[i].current, t, web);
      }
    }
    hide WorksIn, Elsewhere, Fits, InTrace;
    forall k | 0 <= k < |d.pool| ensures Fits(d.pool[k], root, t, web) {
      assert d.pool[k] == if k < j then c.pool[k] else c.pool[k + 1];
    }
  }

  lemma NextWelcoming(c: Config, m: Move, t: Path, web: bool)
    requires Enabled(c, m) && Welcoming(c, t, web)
    ensures Welcoming(Next(c, m), t, web)
  {
    if web {
      NextOrderly(c, m, Empty);
      hide Orderly, Next;
    }
  }

  lemma {:induction false} RunTogether(c: Config, moves: seq<Move>, root: Path, t: Path, web: bool)
    requires Together(c, root, t, web) && Welcoming(c, t, web) && Feasible(c, moves)
    ensures Together(After(c, moves), root, t, web)
    decreases |moves|
  {
    if moves != [] {
      match moves[0] {
        case Advance(i) => AdvanceTogether(c, i, root, t, web);
        case Pick(i, j) => PickTogether(c, i, j, root, t, web);
      }
      NextWelcoming(c, moves[0], t, web);
      hide Together, Welcoming;
      RunTogether(Next(c, moves[0]), moves[1..], root, t, web);
    }
  }

  // ---- A position of its own ----------------------------------------------------------------

  /** No position is used, or can still be used, twice. */
  ghost predicate Single(d: Config) { forall x: Path :: Room(d, x) <= 1 }

  lemma ReachedSingle(c: Config, moves: seq<Move>)
    requires Fresh(c) && Distinct(c.pool) && Feasible(c, moves)
    ensures Single(After(c, moves))
  {
    forall x: Path ensures Room(After(c, moves), x) <= 1 {
      FreshRoom(c, x);
      RunRoom(c, moves, x);
    }
  }

  lemma NextSingle(d: Config, m: Move)
    requires Single(d) && Enabled(d, m)
    ensures Single(Next(d, m))
  {
    forall x: Path ensures Room(Next(d, m), x) <= 1 { NextRoom(d, m, x); }
  }

  /** Nothing at, below or above `root` but what worker `i` or item `j` has there. */
  ghost predicate Alone(d: Config, root: Path, i: int, j: int) {
    && (forall k | 0 <= k < |d.workers| && k != i :: Elsewhere(d.workers[k].stack, root))
    && (forall l | 0 <= l < |d.pool| && l != j :: Apart(d.pool[l].path, root))
    && (forall e | e in d.log && root <= e.id :: e.Ended?)
  }

  /** No claim of a stack is at or below `root`, or above it. */
  lemma {:induction false} UnclaimedElsewhere(k: Stack, root: Path)
    requires forall x: Path | root <= x :: Claims(k, x) == 0
    ensures Elsewhere(k, root)
  {
    if k.Push? {
      forall x: Path | root <= x ensures Claims(k.rest, x) == 0 { assert Claims(k, x) == 0; }
      UnclaimedElsewhere(k.rest, root);
      if k.top.Run? || k.top.Catch? {
        var path := k.top.path;
        assert Claims(k, root) == 0;
        if root <= path { assert Claims(k, path) == 0; }
      }
    }
  }

  lemma TallyTwo<A>(f: A -> nat, s: seq<A>, i: nat, j: nat)
    requires i < |s| && j < |s| && i != j
    ensures f(s[i]) + f(s[j]) <= Tally(f, s)
  {
    TallySplit(f, s, i);
    var rest := s[..i] + s[i + 1..];
    TallySplit(f, rest, if j < i then j else j - 1);
  }

  lemma UnusedLog(d: Config, root: Path)
    requires forall x: Path | root <= x :: Uses(d.log, x) == 0
    ensures forall e | e in d.log && root <= e.id :: e.Ended?
  {
    forall e | e in d.log && root <= e.id ensures e.Ended? {
      var k: nat :| k < |d.log| && d.log[k] == e;
      assert Uses(d.log, e.id) == 0;
      if !e.Ended? { UsedAt(d.log, k); }
    }
  }

  lemma ItemAlone(d: Config, j: nat)
    requires Single(d) && j < |d.pool|
    ensures Alone(d, d.pool[j].path, -1, j)
  {
    var root := d.pool[j].path;
    forall x: Path | root <= x
      ensures Uses(d.log, x) == 0 && Tally(ClaimsOfWorker(x), d.workers) == 0 && Tally(ClaimsOfItem(x), d.pool) == 1
    {
      TallySplit(ClaimsOfItem(x), d.pool, j);
      assert Room(d, x) <= 1;
    }
    UnusedLog(d, root);
    forall k | 0 <= k < |d.workers| ensures Elsewhere(d.workers[k].stack, root) {
      forall x: Path | root <= x ensures Claims(d.workers[k].stack, x) == 0 {
        TallySplit(ClaimsOfWorker(x), d.workers, k);
        assert Tally(ClaimsOfWorker(x), d.workers) == 0;
      }
      UnclaimedElsewhere(d.workers[k].stack, root);
    }
    forall l: nat | l < |d.pool| && l != j ensures Apart(d.pool[l].path, root) {
      OthersApart(d, j, l, root);
      OthersApart(d, j, l, d.pool[l].path);
    }
  }

  lemma OthersApart(d: Config, j: nat, l: nat, x: Path)
    requires j < |d.pool| && l < |d.pool| && l != j && Room(d, x) <= 1
    ensures Has(d.pool[j].path, x) + Has(d.pool[l].path, x) <= 1
  {
    TallyTwo(ClaimsOfItem(x), d.pool, j, l);
  }

  lemma WorkAlone(d: Config, i: nat)
    requires Single(d) && i < |d.workers| && d.workers[i].stack.Push? && d.workers[i].stack.top.Run?
    ensures Alone(d, d.workers[i].stack.top.path, i, -1)
    ensures Elsewhere(d.workers[i].stack.rest, d.workers[i].stack.top.path)
  {
    var k := d.workers[i].stack;
    var root := k.top.path;
    forall x: Path | root <= x
      ensures Uses(d.log, x) == 0 && Tally(ClaimsOfWorker(x), d.workers) == 1 == Claims(k, x)
      ensures Tally(ClaimsOfItem(x), d.pool) == 0 == Claims(k.rest, x)
    {
      TallySplit(ClaimsOfWorker(x), d.workers, i);
      assert Room(d, x) <= 1;
    }
    UnusedLog(d, root);
    UnclaimedElsewhere(k.rest, root);
    forall l: nat | l < |d.workers| && l != i ensures Elsewhere(d.workers[l].stack, root) {
      forall x: Path | root <= x ensures Claims(d.workers[l].stack, x) == 0 {
        TallyTwo(ClaimsOfWorker(x), d.workers, i, l);
        assert Tally(ClaimsOfWorker(x), d.workers) == 1 == Claims(k, x);
      }
      UnclaimedElsewhere(d.workers[l].stack, root);
    }
    forall l: nat | l < |d.pool| ensures Apart(d.pool[l].path, root) {
      ItemApart(d, i, l, root);
      ItemApart(d, i, l, d.pool[l].path);
    }
  }

  lemma ItemApart(d: Config, i: nat, l: nat, x: Path)
    requires i < |d.workers| && l < |d.pool| && Room(d, x) <= 1
    ensures Claims(d.workers[i].stack, x) + Has(d.pool[l].path, x) <= 1
  {
    TallySplit(ClaimsOfWorker(x), d.workers, i);
    TallySplit(ClaimsOfItem(x), d.pool, l);
  }

  /** From when a worker is about to run work that begins in trace `t`, everything at or below
      that work's position stays in `t`. */
  lemma RunningTogether(d: Config, moves: seq<Move>, i: nat, t: Path, web: bool)
    requires Single(d) && Welcoming(d, t, web) && Feasible(d, moves)
    requires i < |d.workers| && d.workers[i].stack.Push? && d.workers[i].stack.top.Run?
    requires Begins(d.workers[i].stack.top.prog, d.workers[i].stack.top.path, d.workers[i].current, t, web)
    ensures TogetherLog(After(d, moves).log, d.workers[i].stack.top.path, t)
  {
    var root := d.workers[i].stack.top.path;
    WorkAlone(d, i);
    hide Elsewhere, Begins, Apart, Single, InTrace;
    EndsInTrace(t);
    RunTogether(d, moves, root, t, web);
  }

  /** The same for queued work that brings its context along. */
  lemma QueuedTogether(d: Config, moves: seq<Move>, j: nat, t: Path, web: bool)
    requires Single(d) && Welcoming(d, t, web) && Feasible(d, moves)
    requires j < |d.pool| && Travels(d.pool[j].prog, t, web)
    ensures TogetherLog(After(d, moves).log, d.pool[j].path, t)
  {
    ItemAlone(d, j);
    hide Elsewhere, Travels, Apart, Single, InTrace;
    EndsInTrace(t);
    RunTogether(d, moves, d.pool[j].path, t, web);
  }
}
