/** Requests, end to end: one trace, one server span for each hop, and the hand-offs that
    keep it so. */
module Requests {
  import opened Spans
  import opened Programs
  import opened Propagation
  import opened Scheduler
  import opened Schedules
  import opened Lifetimes
  import opened Traces

  // ---- One request is one trace -----------------------------------------------------------

  /** The workers' contexts, if HTTP requests of trace `t` may reach them. */
  ghost predicate Reachable(c: Config, t: Path, web: bool) {
    web ==> Ready(c) && forall i | 0 <= i < |c.workers| :: Harmless(c.workers[i].base, Some(t))
  }

  lemma ReadyOrderly(c: Config)
    requires Ready(c)
    ensures Orderly(c, Empty)
  {
  }

  lemma ReachedWelcoming(c: Config, before: seq<Move>, t: Path, web: bool)
    requires Reachable(c, t, web) && Feasible(c, before)
    ensures Welcoming(After(c, before), t, web)
  {
    if web {
      ReadyOrderly(c);
      RunOrderly(c, before, Empty);
      hide Orderly, After;
    }
  }

  /** At any point of any run: when a worker is about to run work that begins in a trace,
      whether it opens a span there, attaches a context of it or is in one already, all that
      the work does and hands off stays in that trace: under any schedule, beside any other
      work, and, unless there are HTTP hops, whatever the workers' contexts are and whatever
      the other work does to them. */
  lemma RunningStays(c: Config, before: seq<Move>, after: seq<Move>, i: nat, t: Path, web: bool)
    requires Fresh(c) && Distinct(c.pool) && Reachable(c, t, web)
    requires Feasible(c, before) && Feasible(After(c, before), after)
    requires var d := After(c, before);
             && i < |d.workers| && d.workers[i].stack.Push? && d.workers[i].stack.top.Run?
             && Begins(d.workers[i].stack.top.prog, d.workers[i].stack.top.path, d.workers[i].current, t, web)
    ensures var d := After(c, before);
            TogetherLog(After(d, after).log, d.workers[i].stack.top.path, t)
  {
    ReachedSingle(c, before);
    ReachedWelcoming(c, before, t, web);
    RunningTogether(After(c, before), after, i, t, web);
  }

  /** The same for work in the queue that brings its context along, whenever it was queued. */
  lemma TravellersStay(c: Config, before: seq<Move>, after: seq<Move>, j: nat, t: Path, web: bool)
    requires Fresh(c) && Distinct(c.pool) && Reachable(c, t, web)
    requires Feasible(c, before) && Feasible(After(c, before), after)
    requires j < |After(c, before).pool| && Travels(After(c, before).pool[j].prog, t, web)
    ensures TogetherLog(After(After(c, before), after).log, After(c, before).pool[j].path, t)
  {
    ReachedSingle(c, before);
    ReachedWelcoming(c, before, t, web);
    QueuedTogether(After(c, before), after, j, t, web);
  }

  /** A message or HTTP request that arrives with a trace on the wire continues that trace. */
  lemma RemoteTraceContinues(c: Config, before: seq<Move>, after: seq<Move>, j: nat,
                             via: Seam, carrier: Carrier, p: Prog, web: bool)
    requires Fresh(c) && Distinct(c.pool) && Feasible(c, before) && Feasible(After(c, before), after)
    requires j < |After(c, before).pool| && After(c, before).pool[j].prog == Arrival(via, carrier, p)
    requires Extract(carrier).Active? && (via.Http? ==> web)
    requires Keeps(p, Some(Extract(carrier).span.trace), web) && Reachable(c, Extract(carrier).span.trace, web)
    ensures TogetherLog(After(After(c, before), after).log, After(c, before).pool[j].path, Extract(carrier).span.trace)
  {
    TravellersStay(c, before, after, j, Extract(carrier).span.trace, web);
  }

  /** Work that opens a span first: a client's, an entry point's or a consumer's. */
  predicate Opens(p: Prog) { p.InSpan? || p.Entry? || p.Consume? }

  /** The trace of that span, if it is opened at `root` in context `ctx`: that of the wire or of
      `ctx`, as the wrapper decides, or else one of its own. */
  function FirstTrace(p: Prog, root: Path, ctx: Context): Path
    requires Opens(p)
  {
    match p
    case Entry(h, _) => Open(root, EntryParent(h, ctx)).trace
    case Consume(c, _) => Open(root, ConsumerParent(c, ctx)).trace
    case _ => Open(root, ctx).trace
  }

  /** Whichever worker picks the request, its text keeps to the trace it will then have. */
  ghost predicate Suits(c: Config, p: Prog, root: Path, web: bool)
    requires Opens(p)
  {
    && |c.workers| > 0
    && (forall i | 0 <= i < |c.workers| :: Keeps(p.body, Some(FirstTrace(p, root, c.workers[i].base)), web))
    && (web ==> forall i, k | 0 <= i < |c.workers| && 0 <= k < |c.workers| ::
          Harmless(c.workers[k].base, Some(FirstTrace(p, root, c.workers[i].base))))
  }

  lemma SuitsSame(c: Config, d: Config, p: Prog, root: Path, web: bool)
    requires Opens(p) && Suits(c, p, root, web) && SameBases(c, d)
    ensures Suits(d, p, root, web)
  {
    forall i | 0 <= i < |d.workers| ensures Keeps(p.body, Some(FirstTrace(p, root, d.workers[i].base)), web) {
      assert Keeps(p.body, Some(FirstTrace(p, root, c.workers[i].base)), web);
    }
    forall i, k | web && 0 <= i < |d.workers| && 0 <= k < |d.workers|
      ensures Harmless(d.workers[k].base, Some(FirstTrace(p, root, d.workers[i].base)))
    {
      assert Harmless(c.workers[k].base, Some(FirstTrace(p, root, c.workers[i].base)));
    }
  }

  /** The worker that picks the request begins it in its own context. */
  lemma PickedStays(d: Config, k: nat, j: nat, moves: seq<Move>, web: bool)
    requires Single(d) && Orderly(d, Empty) && Enabled(d, Pick(k, j)) && Feasible(Next(d, Pick(k, j)), moves)
    requires Opens(d.pool[j].prog) && Suits(d, d.pool[j].prog, d.pool[j].path, web)
    ensures TogetherLog(After(Next(d, Pick(k, j)), moves).log, d.pool[j].path,
                        FirstTrace(d.pool[j].prog, d.pool[j].path, d.workers[k].base))
  {
    var p, root, e := d.pool[j].prog, d.pool[j].path, Next(d, Pick(k, j));
    var t := FirstTrace(p, root, d.workers[k].base);
    assert Remaining(d.workers[k], Empty).ctx == d.workers[k].current;
    NextSingle(d, Pick(k, j));
    NextOrderly(d, Pick(k, j), Empty);
    SuitsSame(d, e, p, root, web);
    assert FirstTrace(p, root, e.workers[k].base) == t;
    assert Begins(p, root, e.workers[k].current, t, web);
    RunningTogether(e, moves, k, t, web);
  }

  lemma {:induction false} RequestRuns(d: Config, moves: seq<Move>, j: nat, web: bool) returns (i: nat)
    requires Single(d) && Orderly(d, Empty) && j < |d.pool| && Feasible(d, moves)
    requires Opens(d.pool[j].prog) && Suits(d, d.pool[j].prog, d.pool[j].path, web)
    ensures i < |d.workers|
    ensures TogetherLog(After(d, moves).log, d.pool[j].path,
                        FirstTrace(d.pool[j].prog, d.pool[j].path, d.workers[i].base))
    decreases |moves|
  {
    i := 0;
    var p, root := d.pool[j].prog, d.pool[j].path;
    if moves == [] {
      ItemAlone(d, j);
      EndsInTrace(FirstTrace(p, root, d.workers[0].base));
    } else if moves[0].Pick? && moves[0].item == j {
      i := moves[0].worker;
      PickedStays(d, i, j, moves[1..], web);
    } else {
      var e := Next(d, moves[0]);
      var j' := if moves[0].Pick? && moves[0].item < j then j - 1 else j;
      assert e.pool[j'] == d.pool[j];
      NextSingle(d, moves[0]);
      NextOrderly(d, moves[0], Empty);
      SuitsSame(d, e, p, root, web);
      hide Single, Orderly, Suits, Next, TogetherLog;
      i := RequestRuns(e, moves[1..], j', web);
    }
  }

  /** A request that starts anywhere, in a client, at an entry point or at a consumer, with or
      without a trace on the wire, is one trace: under every schedule and beside any other
      work, every span and every log record of it, over any number of thread, pool, message
      and HTTP hops.  Its trace is the one its first span gets from the worker that picks it;
      on workers without a context, the wire's or one of its own. */
  lemma {:induction false} RequestIsOneTrace(c: Config, before: seq<Move>, after: seq<Move>, j: nat, web: bool)
    requires Ready(c) && Distinct(c.pool) && Feasible(c, before) && Feasible(After(c, before), after)
    requires j < |After(c, before).pool|
    requires var item := After(c, before).pool[j]; Opens(item.prog) && Suits(c, item.prog, item.path, web)
    ensures var d, item := After(c, before), After(c, before).pool[j];
            exists i: nat :: i < |c.workers|
              && TogetherLog(After(d, after).log, item.path, FirstTrace(item.prog, item.path, c.workers[i].base))
    ensures var d, item := After(c, before), After(c, before).pool[j];
            Uniform(c, Empty) ==> TogetherLog(After(d, after).log, item.path, FirstTrace(item.prog, item.path, Empty))
  {
    var d, item := After(c, before), After(c, before).pool[j];
    ReachedSingle(c, before);
    ReadyOrderly(c);
    RunOrderly(c, before, Empty);
    SuitsSame(c, d, item.prog, item.path, web);
    var i := RequestRuns(d, after, j, web);
    assert d.workers[i].base == c.workers[i].base;
  }

  /** A request that brings no trace along. */
  predicate StartsTrace(p: Prog) {
    match p
    case InSpan(_, _) => true
    case Entry(h, _) => h.None? || "traceparent" !in h.value
    case Consume(c, _) => "traceparent" !in c
    case _ => false
  }

  /** The trace that an event is seen in. */
  function SeenIn(e: Event): Option<Path> {
    match e
    case Started(_, _, trace, _) => Some(trace)
    case Logged(_, stamp) => if stamp.Active? then Some(stamp.span.trace) else None
    case Ended(_) => None
  }

  /** Two requests that bring no trace along, on workers without a context, share no trace:
      nothing at or below the one is seen in a trace that anything at or below the other is
      seen in. */
  lemma {:induction false} RequestsSeparate(c: Config, before: seq<Move>, after: seq<Move>, i: nat, j: nat, web: bool)
    requires Ready(c) && Uniform(c, Empty) && |c.workers| > 0 && Distinct(c.pool)
    requires Feasible(c, before) && Feasible(After(c, before), after)
    requires i < |After(c, before).pool| && j < |After(c, before).pool| && i != j
    requires forall k | k in {i, j} ::
               var item := After(c, before).pool[k];
               StartsTrace(item.prog) && Keeps(item.prog.body, Some(item.path), web)
    ensures var d := After(c, before);
            var log := After(d, after).log;
            forall e, f | e in log && f in log && d.pool[i].path <= e.id && d.pool[j].path <= f.id
                          && SeenIn(e).Some? && SeenIn(f).Some? ::
              SeenIn(e) != SeenIn(f)
  {
    var d := After(c, before);
    StartsOwnTrace(c, before, after, i, web);
    StartsOwnTrace(c, before, after, j, web);
    ReachedSingle(c, before);
    ItemAlone(d, i);
    var log := After(d, after).log;
    forall e, f | e in log && f in log && d.pool[i].path <= e.id && d.pool[j].path <= f.id
                  && SeenIn(e).Some? && SeenIn(f).Some?
      ensures SeenIn(e) != SeenIn(f)
    {
      assert InTrace(e, d.pool[i].path) && InTrace(f, d.pool[j].path);
    }
  }

  lemma StartsOwnTrace(c: Config, before: seq<Move>, after: seq<Move>, j: nat, web: bool)
    requires Ready(c) && Uniform(c, Empty) && |c.workers| > 0 && Distinct(c.pool)
    requires Feasible(c, before) && Feasible(After(c, before), after) && j < |After(c, before).pool|
    requires var item := After(c, before).pool[j]; StartsTrace(item.prog) && Keeps(item.prog.body, Some(item.path), web)
    ensures var item := After(c, before).pool[j]; TogetherLog(After(After(c, before), after).log, item.path, item.path)
  {
    var item := After(c, before).pool[j];
    assert FirstTrace(item.prog, item.path, Empty) == item.path;
    hide After, Feasible, TogetherLog, Keeps;
    assert Suits(c, item.prog, item.path, web);
    RequestIsOneTrace(c, before, after, j, web);
  }

  // ---- The request of the documentation ---------------------------------------------------

  /** The SDK over the session over HTTP to a service, whose handler sends a message to another;
      both log. */
  function Documented(): Prog {
    InSpan(Client, Post(Some(map[]), Http, None,
      Entry(None, Seq(Log, Post(Some(map[]), Rpc, None, Seq(Log, Spawn(true, Log)))))))
  }

  /** It is one trace, from the client's span to the last record of the last service. */
  lemma DocumentedIsOneTrace(c: Config, before: seq<Move>, after: seq<Move>, j: nat, e: Event)
    requires Ready(c) && Uniform(c, Empty) && |c.workers| > 0 && Distinct(c.pool)
    requires Feasible(c, before) && Feasible(After(c, before), after) && j < |After(c, before).pool|
    requires After(c, before).pool[j].prog == Documented()
    requires e in After(After(c, before), after).log && After(c, before).pool[j].path <= e.id
    ensures !e.Ended? ==> SeenIn(e) == Some(After(c, before).pool[j].path)
  {
    var path := After(c, before).pool[j].path;
    assert Keeps(Documented().body, Some(path), true) by { KeepsDocumented(path); }
    StartsOwnTrace(c, before, after, j, true);
    assert InTrace(e, path);
  }

  lemma KeepsDocumented(t: Path)
    ensures Keeps(Documented(), Some(t), true)
  {
    assert Keeps(Spawn(true, Log), Some(t), true);
    var last := Seq(Log, Spawn(true, Log));
    assert Keeps(last, Some(t), true);
    var send := Post(Some(map[]), Rpc, None, last);
    assert Keeps(send, Some(t), true);
    assert Keeps(Seq(Log, send), Some(t), true);
    var serve := Entry(None, Seq(Log, send));
    assert Keeps(serve, Some(t), true);
    assert Keeps(Post(Some(map[]), Http, None, serve), Some(t), true);
  }

  // ---- HTTP hops --------------------------------------------------------------------------

  ghost predicate OneTrace(events: multiset<Event>, t: Path) {
    forall e | e in events :: InTrace(e, t)
  }

  /** An HTTP request continues its client's trace exactly if the worker that serves it has
      no span current, or one of that trace. */
  lemma {:induction false} HttpContinuesIff(c: Option<Carrier>, fails: Option<nat>, b: Prog, ctx: Context, path: Path,
                                            base: Context)
    requires Keeps(b, Some(Open(path, ctx).trace), true)
    ensures var t := Open(path, ctx).trace;
            OneTrace(Eval(Post(c, Http, fails, b), ctx, path, base).events, t) <==> Harmless(base, Some(t))
  {
    hide Eval, Keeps, Wire, Extract, Loyal;
    var t, wire := Open(path, ctx).trace, Wire(Http, c, Active(Open(path, ctx)));
    var parent, kind := ArrivalParent(Http, wire, base), ArrivalKind(Http, base);
    var inner := Eval(b, Active(Open(path + [0], parent)), path + [0] + [0], base).events;
    PostEvents(c, Http, fails, b, ctx, path, base);
    WireCarries(c, Open(path, ctx));
    if Harmless(base, Some(t)) {
      SpanStays(kind, parent, b, path + [0], base, Some(t), true);
      LoyalInTrace(Bracket(path + [0], parent, kind) + inner, t);
    } else {
      var start := StartEvent(path + [0], base, Internal);
      assert start in Bracket(path + [0], parent, kind) && !InTrace(start, t);
    }
  }

  lemma WireCarries(c: Option<Carrier>, span: SpanRef)
    ensures Extract(Wire(Http, c, Active(span))) == Active(span)
  {
  }

  lemma LoyalInTrace(events: multiset<Event>, t: Path)
    requires AllLoyal(events, Some(t))
    ensures OneTrace(events, t)
  {
    forall e | e in events ensures InTrace(e, t) { assert Loyal(e, Some(t)); }
  }

  lemma EntryStarts(d: Config, i: nat, j: nat)
    requires Enabled(d, Pick(i, j)) && d.pool[j].prog.Entry?
    ensures var next, ctx := [Pick(i, j)] + [Advance(i)], d.workers[i].current;
            && Feasible(d, next)
            && After(d, next).log
               == d.log + [StartEvent(d.pool[j].path, EntryParent(d.pool[j].prog.headers, ctx), EntryKind(ctx))]
  {
    var m := [Pick(i, j)] + [Advance(i)];
    var d1 := Next(d, m[0]);
    var d2 := Next(d1, m[1]);
    assert m[1..] == [Advance(i)] && m[1..][1..] == [];
    assert Feasible(d2, []) && After(d2, []) == d2;
    assert Feasible(d1, m[1..]) && After(d1, m[1..]) == d2;
  }

  lemma Picked(d: Config, m: Move, moves: seq<Move>)
    ensures Feasible(d, [m] + moves) <==> Enabled(d, m) && Feasible(Next(d, m), moves)
    ensures Feasible(d, [m] + moves) ==> After(d, [m] + moves) == After(Next(d, m), moves)
  {
    assert ([m] + moves)[1..] == moves;
  }

  lemma PickedContinues(c: Config, before: seq<Move>, after: seq<Move>, i: nat, j: nat, t: Path, web: bool)
    requires Ready(c) && Distinct(c.pool) && Feasible(c, before) && Enabled(After(c, before), Pick(i, j))
    requires After(c, before).pool[j].prog.Entry? && EntryParent(After(c, before).pool[j].prog.headers, Empty).Active?
    requires t == EntryParent(After(c, before).pool[j].prog.headers, Empty).span.trace
    requires Keeps(After(c, before).pool[j].prog.body, Some(t), web) && Reachable(c, t, web)
    requires i < |c.workers| && Harmless(c.workers[i].base, Some(t)) && Feasible(After(c, before), [Pick(i, j)] + after)
    ensures TogetherLog(After(After(c, before), [Pick(i, j)] + after).log, After(c, before).pool[j].path, t)
  {
    var d := After(c, before);
    var e := Next(d, Pick(i, j));
    IdleWorkersRestored(c, before, i);
    ReachedSingle(c, before);
    NextSingle(d, Pick(i, j));
    ReachedWelcoming(c, before, t, web);
    NextWelcoming(d, Pick(i, j), t, web);
    Picked(d, Pick(i, j), after);
    assert Begins(d.pool[j].prog, d.pool[j].path, e.workers[i].current, t, web);
    RunningTogether(e, after, i, t, web);
  }

  /** In runs: an HTTP request that a worker picks continues the trace on its wire, in all that
      may come of it, exactly if that worker's own context is empty or of that trace. */
  lemma {:induction false} PickedRequestContinuesIff(c: Config, before: seq<Move>, i: nat, j: nat, t: Path, web: bool)
    requires Ready(c) && Distinct(c.pool) && Feasible(c, before) && Enabled(After(c, before), Pick(i, j))
    requires After(c, before).pool[j].prog.Entry? && EntryParent(After(c, before).pool[j].prog.headers, Empty).Active?
    requires t == EntryParent(After(c, before).pool[j].prog.headers, Empty).span.trace
    requires Keeps(After(c, before).pool[j].prog.body, Some(t), web)
    requires web ==> forall k | 0 <= k < |c.workers| && k != i :: Harmless(c.workers[k].base, Some(t))
    ensures i < |c.workers|
    ensures var d := After(c, before);
            Harmless(c.workers[i].base, Some(t)) <==>
            (forall after | Feasible(d, [Pick(i, j)] + after) ::
              TogetherLog(After(d, [Pick(i, j)] + after).log, d.pool[j].path, t))
  {
    var d := After(c, before);
    IdleWorkersRestored(c, before, i);
    if Harmless(c.workers[i].base, Some(t)) {
      forall after | Feasible(d, [Pick(i, j)] + after)
        ensures TogetherLog(After(d, [Pick(i, j)] + after).log, d.pool[j].path, t)
      {
        PickedContinues(c, before, after, i, j, t, web);
      }
    } else {
      EntryStarts(d, i, j);
      var start := StartEvent(d.pool[j].path, d.workers[i].current, Internal);
      assert start in After(d, [Pick(i, j)] + [Advance(i)]).log && !InTrace(start, t);
      assert !TogetherLog(After(d, [Pick(i, j)] + [Advance(i)]).log, d.pool[j].path, t);
    }
  }

  /** A worker that a leaked span has got hold of takes the request into that span's trace. */
  lemma LeakedWorkerTakesOver()
    ensures var leaked := Active(SpanRef([7], [7]));
            !OneTrace(Eval(Post(Some(map[]), Http, None, Log), Empty, [], leaked).events, [])
  {
    HttpContinuesIff(Some(map[]), None, Log, Empty, [], Active(SpanRef([7], [7])));
  }

  // ---- Server spans -------------------------------------------------------------------------

  ghost predicate Under(path: Path, events: multiset<Event>) {
    forall e | e in events :: path <= e.id
  }

  lemma Deeper(path: Path, i: nat, m: multiset<Event>)
    requires Under(path + [i], m)
    ensures Under(path, m)
  {
    forall e | e in m ensures path <= e.id { assert path <= path + [i] <= e.id; }
  }

  lemma {:induction false} EvalUnder(p: Prog, ctx: Context, path: Path, base: Context)
    ensures Under(path, Eval(p, ctx, path, base).events)
    decreases Size(p), 1
  {
    hide Eval, Under;
    match p
    case Seq(a, b) => SequenceUnder(p, a, b, ctx, path, base);
    case Try(a, h) => SequenceUnder(p, a, h, ctx, path, base);
    case InSpan(kind, b) =>
      InSpanEval(kind, b, ctx, path, base);
      SpanUnder(kind, ctx, b, Active(Open(path, ctx)), path, base);
    case Resume(c, b) =>
      ResumeEval(c, b, ctx, path, base);
      ChildUnder(b, if c.Some? then c.value else ctx, path, base);
    case Consume(c, b) =>
      ConsumeEval(c, b, ctx, path, base);
      var parent := if Extract(c).Empty? then ctx else Extract(c);
      SpanUnder(Consumer, parent, b, Active(Open(path, parent)), path, base);
    case Entry(h, b) =>
      EntryEval(h, b, ctx, path, base);
      SpanUnder(EntryKind(ctx), EntryParent(h, ctx), b, Active(Open(path, EntryParent(h, ctx))), path, base);
    case Spawn(positional, b) =>
      SpawnEval(positional, b, ctx, path, base);
      ChildUnder(Spawned(positional, ctx, b), base, path, base);
    case Post(c, via, fails, b) =>
      PostEval(c, via, fails, b, ctx, path, base);
      SpanUnder(SeamKind(via), ctx, Arrival(via, Wire(via, c, Active(Open(path, ctx))), b), base, path, base);
    case _ =>
      BasicEval(p, ctx, path, base);
      BasicUnder(path, ctx);
  }

  lemma BasicUnder(path: Path, ctx: Context)
    ensures Under(path, multiset{}) && Under(path, multiset{Logged(path, ctx)})
  {
  }

  lemma {:induction false} ChildUnder(b: Prog, ctx: Context, path: Path, base: Context)
    ensures Under(path, Eval(b, ctx, path + [0], base).events)
    decreases Size(b), 2
  {
    EvalUnder(b, ctx, path + [0], base);
    Deeper(path, 0, Eval(b, ctx, path + [0], base).events);
  }

  lemma {:induction false} SpanUnder(kind: Kind, parent: Context, b: Prog, ctx: Context, path: Path, base: Context)
    ensures Under(path, Bracket(path, parent, kind) + Eval(b, ctx, path + [0], base).events)
    decreases Size(b), 3
  {
    ChildUnder(b, ctx, path, base);
    hide Eval;
  }

  lemma {:induction false} SequenceUnder(p: Prog, a: Prog, b: Prog, ctx: Context, path: Path, base: Context)
    requires p == Seq(a, b) || p == Try(a, b)
    ensures Under(path, Eval(p, ctx, path, base).events)
    decreases Size(p), 0
  {
    var r := Eval(a, ctx, path + [0], base);
    var s := Eval(b, r.ctx, path + [1], base);
    SequenceEval(p, a, b, ctx, path, base);
    EvalUnder(a, ctx, path + [0], base);
    EvalUnder(b, r.ctx, path + [1], base);
    hide Eval;
    Deeper(path, 0, r.events);
    Deeper(path, 1, s.events);
  }

  /** The application opens no server spans itself. */
  predicate OnlyEntriesServe(p: Prog) {
    match p
    case Seq(a, b) => OnlyEntriesServe(a) && OnlyEntriesServe(b)
    case Try(a, h) => OnlyEntriesServe(a) && OnlyEntriesServe(h)
    case InSpan(kind, b) => kind != Server && OnlyEntriesServe(b)
    case Resume(_, b) => OnlyEntriesServe(b)
    case Consume(_, b) => OnlyEntriesServe(b)
    case Entry(_, b) => OnlyEntriesServe(b)
    case Spawn(_, b) => OnlyEntriesServe(b)
    case Post(_, _, _, b) => OnlyEntriesServe(b)
    case _ => true
  }

  /** `e` is the receiving end of an HTTP hop: its parent is a client span of `events`, which
      is its own sender and no other's. */
  ghost predicate Hop(events: multiset<Event>, e: Event)
    requires e.Started?
  {
    exists client ::
      && client in events && client.Started? && client.kind == Client
      && e.id == client.id + [0] && e.parent == Active(SpanRef(client.id, client.trace)) && e.trace == client.trace
  }

  ghost predicate HopsOnly(events: multiset<Event>, web: bool) {
    forall e | e in events && e.Started? && e.kind == Server :: web && Hop(events, e)
  }

  lemma HopsUnion(m: multiset<Event>, n: multiset<Event>, web: bool)
    requires HopsOnly(m, web) && HopsOnly(n, web)
    ensures HopsOnly(m + n, web)
  {
    forall e | e in m + n && e.Started? && e.kind == Server ensures web && Hop(m + n, e) {
      if e in m { assert Hop(m, e); } else { assert Hop(n, e); }
      var client :| client in m + n && client.Started? && client.kind == Client
        && e.id == client.id + [0] && e.parent == Active(SpanRef(client.id, client.trace)) && e.trace == client.trace;
    }
  }

  lemma HopsBracket(path: Path, parent: Context, kind: Kind, web: bool)
    requires kind != Server
    ensures HopsOnly(Bracket(path, parent, kind), web)
  {
  }

  lemma HopItself(path: Path, ctx: Context, parent: Context, kind: Kind)
    requires kind == Server ==> parent == Active(Open(path, ctx))
    ensures HopsOnly(Bracket(path, ctx, Client) + Bracket(path + [0], parent, kind), true)
  {
    var events := Bracket(path, ctx, Client) + Bracket(path + [0], parent, kind);
    assert StartEvent(path, ctx, Client) in events;
  }

  lemma {:induction false} ServesByHops(p: Prog, ctx: Context, path: Path, base: Context, web: bool)
    requires Keeps(p, None, web) && OnlyEntriesServe(p) && ctx.Active?
    ensures HopsOnly(Eval(p, ctx, path, base).events, web)
    decreases Size(p), 1
  {
    hide Eval, HopsOnly;
    match p
    case Seq(a, b) => SequenceServes(p, a, b, ctx, path, base, web);
    case Try(a, h) => SequenceServes(p, a, h, ctx, path, base, web);
    case InSpan(kind, b) =>
      InSpanEval(kind, b, ctx, path, base);
      SpanServes(kind, ctx, b, path, base, web);
    case Resume(c, b) =>
      ResumeEval(c, b, ctx, path, base);
      ServesByHops(b, if c.Some? then c.value else ctx, path + [0], base, web);
    case Consume(c, b) =>
      ConsumeEval(c, b, ctx, path, base);
      SpanServes(Consumer, if Extract(c).Empty? then ctx else Extract(c), b, path, base, web);
    case Entry(h, b) =>
      EntryEval(h, b, ctx, path, base);
      SpanServes(Internal, ctx, b, path, base, web);
    case Spawn(positional, b) =>
      SpawnEval(positional, b, ctx, path, base);
      ResumeEval(Some(ctx), b, base, path + [0], base);
      ServesByHops(b, ctx, path + [0] + [0], base, web);
    case Post(_, _, _, _) => PostServes(p, ctx, path, base, web);
    case _ =>
      BasicEval(p, ctx, path, base);
      BasicServes(path, ctx, web);
  }

  lemma BasicServes(path: Path, ctx: Context, web: bool)
    ensures HopsOnly(multiset{}, web) && HopsOnly(multiset{Logged(path, ctx)}, web)
  {
  }

  lemma {:induction false} SpanServes(kind: Kind, parent: Context, b: Prog, path: Path, base: Context, web: bool)
    requires Keeps(b, None, web) && OnlyEntriesServe(b) && kind != Server
    ensures HopsOnly(Bracket(path, parent, kind) + Eval(b, Active(Open(path, parent)), path + [0], base).events, web)
    decreases Size(b), 2
  {
    ServesByHops(b, Active(Open(path, parent)), path + [0], base, web);
    hide Eval, HopsOnly;
    HopsBracket(path, parent, kind, web);
    HopsUnion(Bracket(path, parent, kind), Eval(b, Active(Open(path, parent)), path + [0], base).events, web);
  }

  lemma {:induction false} PostServes(p: Prog, ctx: Context, path: Path, base: Context, web: bool)
    requires p.Post? && Keeps(p, None, web) && OnlyEntriesServe(p)
    ensures HopsOnly(Eval(p, ctx, path, base).events, web)
    decreases Size(p), 0
  {
    var parent := ArrivalParent(p.via, Wire(p.via, p.ctxt, Active(Open(path, ctx))), base);
    var kind := ArrivalKind(p.via, base);
    var inner := Eval(p.body, Active(Open(path + [0], parent)), path + [0] + [0], base).events;
    PostEvents(p.ctxt, p.via, p.fails, p.body, ctx, path, base);
    ServesByHops(p.body, Active(Open(path + [0], parent)), path + [0] + [0], base, web);
    hide Eval, HopsOnly;
    var m, n := Bracket(path, ctx, SeamKind(p.via)), Bracket(path + [0], parent, kind);
    if p.via.Http? {
      HopItself(path, ctx, parent, kind);
    } else {
      HopsBracket(path, ctx, Producer, web);
      HopsBracket(path + [0], parent, Consumer, web);
      HopsUnion(m, n, web);
    }
    HopsUnion(m + n, inner, web);
    assert m + (n + inner) == m + n + inner;
  }

  lemma {:induction false} SequenceServes(p: Prog, a: Prog, b: Prog, ctx: Context, path: Path, base: Context, web: bool)
    requires p == Seq(a, b) || p == Try(a, b)
    requires Keeps(p, None, web) && OnlyEntriesServe(p) && ctx.Active?
    ensures HopsOnly(Eval(p, ctx, path, base).events, web)
    decreases Size(p), 0
  {
    var r := Eval(a, ctx, path + [0], base);
    var s := Eval(b, r.ctx, path + [1], base);
    SequenceEval(p, a, b, ctx, path, base);
    StaysInTrace(a, ctx, path + [0], base, None, web);
    ServesByHops(a, ctx, path + [0], base, web);
    ServesByHops(b, r.ctx, path + [1], base, web);
    hide Eval, HopsOnly;
    HopsUnion(r.events, s.events, web);
  }

  /** An entry point opens one span: a server span exactly when nothing was active before.
      Every other span that the request opens, at any depth of nested entry points and over
      any hops, is opened under an active span; and it is a server span only as the receiving
      end of an HTTP hop, under the client span that sent it. */
  lemma {:induction false} OneServerSpan(headers: Option<Carrier>, b: Prog, ambient: Context, path: Path,
                                         base: Context, web: bool)
    requires Keeps(b, None, web) && OnlyEntriesServe(b)
    ensures var events := Eval(Entry(headers, b), ambient, path, base).events;
            var parent := if ambient.Active? || headers.None? then ambient else Extract(headers.value);
            && (exists e :: events[e] == 1 && IsStartOf(e, path, parent, if ambient.Active? then Internal else Server))
            && (forall e, f | e in events && f in events && e.Started? && f.Started? && e.id == path == f.id :: e == f)
            && (forall e | e in events && e.Started? && e.id != path ::
                  e.parent.Active? && (e.kind == Server ==> web && Hop(events, e)))
  {
    var parent, kind := EntryParent(headers, ambient), EntryKind(ambient);
    var inner := Eval(b, Active(Open(path, parent)), path + [0], base).events;
    EntryEval(headers, b, ambient, path, base);
    StaysInTrace(b, Active(Open(path, parent)), path + [0], base, None, web);
    ServesByHops(b, Active(Open(path, parent)), path + [0], base, web);
    EvalUnder(b, Active(Open(path, parent)), path + [0], base);
    hide Eval;
    OneOutsider(path, parent, kind, inner, web);
    var start := StartEvent(path, parent, kind);
    assert (Bracket(path, parent, kind) + inner)[start] == 1;
    assert IsStartOf(start, path, parent, if ambient.Active? then Internal else Server);
  }

  lemma OneOutsider(path: Path, parent: Context, kind: Kind, inner: multiset<Event>, web: bool)
    requires AllLoyal(inner, None) && HopsOnly(inner, web) && Under(path + [0], inner)
    ensures var events := Bracket(path, parent, kind) + inner;
            && events[StartEvent(path, parent, kind)] == 1
            && (forall e | e in events && e.Started? && e.id == path :: e == StartEvent(path, parent, kind))
            && (forall e | e in events && e.Started? && e.id != path ::
                  e.parent.Active? && (e.kind == Server ==> web && Hop(events, e)))
  {
    var events, start := Bracket(path, parent, kind) + inner, StartEvent(path, parent, kind);
    forall e | e in inner ensures e.id != path { assert path + [0] <= e.id; }
    forall e | e in events && e.Started? && e.id != path
      ensures e.parent.Active? && (e.kind == Server ==> web && Hop(events, e))
    {
      assert e in inner && Loyal(e, None);
      if e.kind == Server {
        assert Hop(inner, e);
        var client :| client in inner && client.Started? && client.kind == Client
          && e.id == client.id + [0] && e.parent == Active(SpanRef(client.id, client.trace)) && e.trace == client.trace;
        assert client in events;
      }
    }
  }

  // ---- Nested entry points ------------------------------------------------------------------

  lemma {:induction false} InsideUnder(wrappers: seq<Wrapper>, ctx: Context, path: Path)
    ensures path <= Inside(wrappers, ctx, path).1
    ensures wrappers != [] ==> path + [0] <= Inside(wrappers, ctx, path).1
    decreases |wrappers|
  {
    if wrappers != [] { InsideUnder(wrappers[1..], Within(wrappers[0], ctx, path), path + [0]); }
  }

  /** In any nesting of wrappers, each opens exactly one span: of its kind and under its
      parent, as the context at its own depth decides. */
  lemma {:induction false} NestStarts(wrappers: seq<Wrapper>, p: Prog, ctx: Context, path: Path, base: Context, k: nat)
    requires k < |wrappers| && !wrappers[k].Resuming?
    ensures var (c, q) := Inside(wrappers[..k], ctx, path);
            var start := StartEvent(q, ParentOf(wrappers[k], c), KindOf(wrappers[k], c));
            Eval(Nest(wrappers, p), ctx, path, base).events[start] == 1
    decreases |wrappers|
  {
    var w, rest, within := wrappers[0], Nest(wrappers[1..], p), Within(wrappers[0], ctx, path);
    var inner := Eval(rest, within, path + [0], base).events;
    WrapEval(w, rest, ctx, path, base);
    if k == 0 {
      EvalUnder(rest, within, path + [0], base);
      hide Eval, Wrap;
      OneStart(path, ParentOf(w, ctx), KindOf(w, ctx), inner);
    } else {
      assert wrappers[..k][1..] == wrappers[1..][..k - 1] && wrappers[..k][0] == w;
      NestStarts(wrappers[1..], p, within, path + [0], base, k - 1);
      InsideUnder(wrappers[1..][..k - 1], within, path + [0]);
      hide Eval, Wrap, Within;
      var (c, q) := Inside(wrappers[..k], ctx, path);
      if !w.Resuming? {
        OtherStarts(path, ParentOf(w, ctx), KindOf(w, ctx), inner,
                    StartEvent(q, ParentOf(wrappers[k], c), KindOf(wrappers[k], c)));
      }
    }
  }

  lemma OneStart(path: Path, parent: Context, kind: Kind, inner: multiset<Event>)
    requires Under(path + [0], inner)
    ensures (Bracket(path, parent, kind) + inner)[StartEvent(path, parent, kind)] == 1
  {
    assert StartEvent(path, parent, kind) !in inner by { assert !(path + [0] <= path); }
  }

  lemma OtherStarts(path: Path, parent: Context, kind: Kind, inner: multiset<Event>, e: Event)
    requires e.id != path
    ensures (Bracket(path, parent, kind) + inner)[e] == inner[e]
  {
  }

  lemma {:induction false} InsideLast(wrappers: seq<Wrapper>, w: Wrapper, ctx: Context, path: Path)
    ensures var (c, q) := Inside(wrappers, ctx, path);
            Inside(wrappers + [w], ctx, path) == (Within(w, c, q), q + [0])
    decreases |wrappers|
  {
    if wrappers == [] {
      assert Inside([w], ctx, path) == Inside([], Within(w, ctx, path), path + [0]);
    } else {
      assert (wrappers + [w])[1..] == wrappers[1..] + [w];
      InsideLast(wrappers[1..], w, Within(wrappers[0], ctx, path), path + [0]);
    }
  }

  /** An entry point inside another wrapper opens one INTERNAL span, under the very span that
      the wrapper around it opened. */
  lemma {:induction false} InnerEntryIsInternal(wrappers: seq<Wrapper>, p: Prog, ctx: Context, path: Path,
                                                base: Context, k: nat)
    requires 0 < k < |wrappers| && wrappers[k].Entering? && !wrappers[k - 1].Resuming?
    ensures var (c, q) := Inside(wrappers[..k - 1], ctx, path);
            var outer := Open(q, ParentOf(wrappers[k - 1], c));
            var start := StartEvent(q + [0], Active(outer), Internal);
            && Eval(Nest(wrappers, p), ctx, path, base).events[start] == 1
            && start == Started(q + [0], Active(outer), outer.trace, Internal)
  {
    NestStarts(wrappers, p, ctx, path, base, k);
    assert wrappers[..k] == wrappers[..k - 1] + [wrappers[k - 1]];
    InsideLast(wrappers[..k - 1], wrappers[k - 1], ctx, path);
  }

  // ---- Which hand-offs keep the context ------------------------------------------------

  predicate Carries(p: Prog) {
    match p
    case Spawn(positional, _) => positional
    case Post(ctxt, via, _, _) => ctxt.Some? && via.Rpc?
    case _ => true
  }

  /** What the span opened first by handed-off work looks like on a worker with context `base`. */
  function FirstStart(p: Prog, ctx: Context, path: Path, base: Context): Event
    requires (p.Spawn? && p.body.InSpan?) || p.Post?
  {
    match p
    case Spawn(positional, b) => StartEvent(path + [0] + [0], if positional then ctx else base, b.kind)
    case Post(c, via, _, b) =>
      StartEvent(path + [0], ArrivalParent(via, Wire(via, c, Active(Open(path, ctx))), base), ArrivalKind(via, base))
  }

  /** It is seen, and nothing else with its id is started. */
  lemma {:induction false} FirstStartSeen(p: Prog, ctx: Context, path: Path, base: Context)
    requires (p.Spawn? && p.body.InSpan?) || p.Post?
    ensures var first := FirstStart(p, ctx, path, base);
            forall e: Event | e.Started? && e.id == first.id :: e in Eval(p, ctx, path, base).events <==> e == first
  {
    match p
    case Spawn(positional, b) =>
      var parent := if positional then ctx else base;
      SpawnEval(positional, b, ctx, path, base);
      ResumeEval(if positional then Some(ctx) else None, b, base, path + [0], base);
      InSpanEval(b.kind, b.body, parent, path + [0] + [0], base);
      EvalUnder(b.body, Active(Open(path + [0] + [0], parent)), path + [0] + [0] + [0], base);
      hide Eval;
      StartedOnce(path + [0] + [0], parent, b.kind,
                  Eval(b.body, Active(Open(path + [0] + [0], parent)), path + [0] + [0] + [0], base).events);
    case Post(c, via, fails, b) =>
      var parent := ArrivalParent(via, Wire(via, c, Active(Open(path, ctx))), base);
      PostEvents(c, via, fails, b, ctx, path, base);
      EvalUnder(b, Active(Open(path + [0], parent)), path + [0] + [0], base);
      hide Eval;
      StartedOnce(path + [0], parent, ArrivalKind(via, base),
                  Eval(b, Active(Open(path + [0], parent)), path + [0] + [0], base).events);
      assert path + [0] != path;
  }

  lemma StartedOnce(path: Path, parent: Context, kind: Kind, inner: multiset<Event>)
    requires Under(path + [0], inner)
    ensures forall e: Event | e.Started? && e.id == path ::
              e in Bracket(path, parent, kind) + inner <==> e == StartEvent(path, parent, kind)
  {
    forall e | e in inner ensures e.id != path { assert path + [0] <= e.id; }
  }

  /** Every HTTP hop to a worker with no span current opens exactly one span there: a server
      span under the client span that sent it. */
  lemma {:induction false} EachHopServed(c: Option<Carrier>, fails: Option<nat>, b: Prog, ctx: Context, path: Path)
    ensures var events := Eval(Post(c, Http, fails, b), ctx, path, Empty).events;
            var server := StartEvent(path + [0], Active(Open(path, ctx)), Server);
            && Hop(events, server) && server.kind == Server
            && forall e: Event | e.Started? && e.id == server.id :: e in events <==> e == server
  {
    FirstStartSeen(Post(c, Http, fails, b), ctx, path, Empty);
    PostEvents(c, Http, fails, b, ctx, path, Empty);
    assert StartEvent(path, ctx, Client) in Eval(Post(c, Http, fails, b), ctx, path, Empty).events;
  }

  lemma WorkerShows(p: Prog, ctx: Context, path: Path, b1: Context, b2: Context)
    requires (p.Spawn? && p.body.InSpan?) || p.Post?
    requires !Carries(p) && b1.Empty? && b2 == Active(SpanRef(path + [0], path))
    ensures Eval(p, ctx, path, b1) != Eval(p, ctx, path, b2)
  {
    hide Eval;
    FirstStartSeen(p, ctx, path, b1);
    FirstStartSeen(p, ctx, path, b2);
    assert path + [0] != path;
    assert FirstStart(p, ctx, path, b1).parent != FirstStart(p, ctx, path, b2).parent;
    assert FirstStart(p, ctx, path, b1) in Eval(p, ctx, path, b1).events;
    assert FirstStart(p, ctx, path, b1) !in Eval(p, ctx, path, b2).events;
  }

  /** A hand-off of traced work is independent of the worker exactly when its guard holds:
      the callable is positional, or the message context is a mapping and the receiver is
      a message dispatcher. */
  lemma {:induction false} HandoffIndependentIff(p: Prog, ctx: Context, path: Path)
    requires (p.Spawn? && p.body.InSpan?) || p.Post?
    requires Tethered(p.body)
    ensures Carries(p) <==> forall b1, b2 :: Eval(p, ctx, path, b1) == Eval(p, ctx, path, b2)
  {
    if Carries(p) {
      forall b1, b2 ensures Eval(p, ctx, path, b1) == Eval(p, ctx, path, b2) {
        BaseIrrelevant(p, ctx, path, b1, b2);
      }
    } else {
      WorkerShows(p, ctx, path, Empty, Active(SpanRef(path + [0], path)));
    }
  }
}
