/** Which programs keep their context to themselves, and which hand-offs carry it. */
module Propagation {
  import opened Spans
  import opened Programs

  /** Running `p` can leave an attach behind on its own thread. */
  predicate Leaky(p: Prog) {
    match p
    case Leak(_) => true
    case Seq(a, b) => Leaky(a) || Leaky(b)
    case Try(a, h) => Leaky(a) || Leaky(h)
    case Resume(None, b) => Leaky(b)
    case _ => false
  }

  /** No callable that escapes the wrapper (passed by keyword) leaves an attach behind. */
  predicate Contained(p: Prog) {
    match p
    case Seq(a, b) => Contained(a) && Contained(b)
    case Try(a, h) => Contained(a) && Contained(h)
    case InSpan(_, b) => Contained(b)
    case Resume(_, b) => Contained(b)
    case Consume(_, b) => Contained(b)
    case Entry(_, b) => Contained(b)
    case Spawn(positional, b) => Contained(b) && (!positional ==> !Leaky(b))
    case Post(_, _, _, b) => Contained(b)
    case _ => true
  }

  /** A unit of work fit for a shared worker: it returns the worker as it found it. */
  predicate Sealed(p: Prog) {
    Contained(p) && !Leaky(p)
  }

  /** Every hand-off in `p` carries the context across by itself: the callable is
      positional, the message context is a mapping, and the receiver is a message
      dispatcher (a WSGI server prefers an already active span to the wire's). */
  predicate Tethered(p: Prog) {
    match p
    case Seq(a, b) => Tethered(a) && Tethered(b)
    case Try(a, h) => Tethered(a) && Tethered(h)
    case InSpan(_, b) => Tethered(b)
    case Resume(_, b) => Tethered(b)
    case Consume(_, b) => Tethered(b)
    case Entry(_, b) => Tethered(b)
    case Spawn(positional, b) => positional && Tethered(b)
    case Post(c, via, _, b) => c.Some? && via.Rpc? && Tethered(b)
    case _ => true
  }

  /** Queued work that does not look at the context of the worker that picks it. */
  predicate Anchored(p: Prog) {
    Tethered(p) && ((p.Resume? && p.captured.Some?) || (p.Consume? && Extract(p.carrier).Active?))
  }

  /** A program that is not leaky gives the context back, whatever it does, leaks or
      raises inside its wrappers. */
  lemma {:induction false} ContextRestored(p: Prog, ctx: Context, path: Path, base: Context)
    requires !Leaky(p)
    ensures Eval(p, ctx, path, base).ctx == ctx
  {
    match p
    case Seq(a, b) =>
      ContextRestored(a, ctx, path + [0], base);
      ContextRestored(b, ctx, path + [1], base);
    case Try(a, h) =>
      ContextRestored(a, ctx, path + [0], base);
      ContextRestored(h, ctx, path + [1], base);
    case Resume(None, b) => ContextRestored(b, ctx, path + [0], base);
    case _ =>
  }

  /** The base context of the workers is irrelevant to a tethered program. */
  lemma {:induction false} BaseIrrelevant(p: Prog, ctx: Context, path: Path, b1: Context, b2: Context)
    requires Tethered(p)
    ensures Eval(p, ctx, path, b1) == Eval(p, ctx, path, b2)
    decreases Size(p)
  {
    match p
    case Seq(a, b) =>
      var r := Eval(a, ctx, path + [0], b1);
      BaseIrrelevant(a, ctx, path + [0], b1, b2);
      BaseIrrelevant(b, r.ctx, path + [1], b1, b2);
    case Try(a, h) =>
      var r := Eval(a, ctx, path + [0], b1);
      BaseIrrelevant(a, ctx, path + [0], b1, b2);
      BaseIrrelevant(h, r.ctx, path + [1], b1, b2);
    case InSpan(_, b) => BaseIrrelevant(b, Active(Open(path, ctx)), path + [0], b1, b2);
    case Resume(None, b) => BaseIrrelevant(b, ctx, path + [0], b1, b2);
    case Resume(Some(c), b) => BaseIrrelevant(b, c, path + [0], b1, b2);
    case Consume(c, b) => BaseIrrelevant(b, Active(Open(path, ConsumerParent(c, ctx))), path + [0], b1, b2);
    case Entry(h, b) => BaseIrrelevant(b, Active(Open(path, EntryParent(h, ctx))), path + [0], b1, b2);
    case Spawn(_, b) => AnchoredIrrelevant(Spawned(true, ctx, b), path + [0], b1, b2, b1, b2);
    case Post(Some(c), via, _, b) =>
      AnchoredIrrelevant(Consume(Inject(c, Active(Open(path, ctx))), b), path + [0], b1, b2, b1, b2);
    case _ =>
  }

  /** Nor does anchored work depend on the context of the worker that picks it. */
  lemma {:induction false} AnchoredIrrelevant(p: Prog, path: Path, c1: Context, c2: Context, b1: Context, b2: Context)
    requires Anchored(p)
    ensures Eval(p, c1, path, b1).events == Eval(p, c2, path, b2).events
    decreases Size(p)
  {
    match p
    case Resume(Some(c), b) => BaseIrrelevant(b, c, path + [0], b1, b2);
    case Consume(c, b) => BaseIrrelevant(b, Active(Open(path, Extract(c))), path + [0], b1, b2);
  }

  // ---- Nested wrappers --------------------------------------------------------------------

  datatype Wrapper =
    | Resuming(captured: Context)               // spawned callable, Thread.run, atom body
    | Consuming(carrier: Carrier)               // RPC / notification dispatch
    | Entering(headers: Option<Carrier>)        // auth_token __call__ / process_request
    | Spanning(kind: Kind)

  function Wrap(w: Wrapper, p: Prog): Prog {
    match w
    case Resuming(captured) => Resume(Some(captured), p)
    case Consuming(carrier) => Consume(carrier, p)
    case Entering(headers) => Entry(headers, p)
    case Spanning(kind) => InSpan(kind, p)
  }

  function Nest(wrappers: seq<Wrapper>, p: Prog): Prog {
    if wrappers == [] then p else Wrap(wrappers[0], Nest(wrappers[1..], p))
  }

  /** Kind and parent of the span that a wrapper opens. */
  function KindOf(w: Wrapper, ctx: Context): Kind
    requires !w.Resuming?
  {
    match w case Consuming(_) => Consumer case Entering(_) => EntryKind(ctx) case Spanning(kind) => kind
  }

  function ParentOf(w: Wrapper, ctx: Context): Context
    requires !w.Resuming?
  {
    match w
    case Consuming(carrier) => ConsumerParent(carrier, ctx)
    case Entering(headers) => EntryParent(headers, ctx)
    case Spanning(_) => ctx
  }

  /** The context a wrapper makes current for what it wraps. */
  function Within(w: Wrapper, ctx: Context, path: Path): Context {
    if w.Resuming? then w.captured else Active(Open(path, ParentOf(w, ctx)))
  }

  function Inside(wrappers: seq<Wrapper>, ctx: Context, path: Path): (r: (Context, Path))
    decreases |wrappers|
  {
    if wrappers == [] then (ctx, path) else Inside(wrappers[1..], Within(wrappers[0], ctx, path), path + [0])
  }

  lemma WrapEval(w: Wrapper, p: Prog, ctx: Context, path: Path, base: Context)
    ensures var body := Eval(p, Within(w, ctx, path), path + [0], base);
            Eval(Wrap(w, p), ctx, path, base)
            == Result(ctx, body.outcome,
                      (if w.Resuming? then multiset{} else Bracket(path, ParentOf(w, ctx), KindOf(w, ctx)))
                      + body.events)
  {
    hide Eval;
    match w
    case Resuming(captured) => ResumeEval(Some(captured), p, ctx, path, base);
    case Consuming(carrier) => ConsumeEval(carrier, p, ctx, path, base);
    case Entering(headers) => EntryEval(headers, p, ctx, path, base);
    case Spanning(kind) => InSpanEval(kind, p, ctx, path, base);
  }

  /** However many wrappers are nested around a body, and whether it returns, raises or
      leaks attaches: the context on exit is the context on entry, the body's outcome is
      the outcome, and the body runs in the innermost wrapper's context. */
  lemma {:induction false} NestTransparent(wrappers: seq<Wrapper>, p: Prog, ctx: Context, path: Path, base: Context)
    ensures var (innermost, at) := Inside(wrappers, ctx, path);
            var body, r := Eval(p, innermost, at, base), Eval(Nest(wrappers, p), ctx, path, base);
            && r.outcome == body.outcome && body.events <= r.events
            && r.ctx == if wrappers == [] then body.ctx else ctx
    decreases |wrappers|
  {
    hide Eval, Wrap, Within;
    if wrappers != [] {
      WrapEval(wrappers[0], Nest(wrappers[1..], p), ctx, path, base);
      NestTransparent(wrappers[1..], p, Within(wrappers[0], ctx, path), path + [0], base);
    }
  }
}
