/** What instrumented code does, as a tree, and what it should observably do.

    `Eval` is the reference semantics: a recursion over the program in which work
    that is handed off simply runs as a subtree.  It says nothing of threads,
    queues, attach tokens or unwinding; Scheduler and Runtime have those. */
module Programs {
  import opened Spans

  /** How a sent message is received: by a message dispatcher or by a WSGI server. */
  datatype Seam = Rpc | Http

  datatype Prog =
    | Skip
    | Seq(first: Prog, second: Prog)
    | Raise(error: nat)
    | Try(body: Prog, handler: Prog)
    | Leak(ctx: Context)                                  // attach, never detached
    | Log                                                 // create a log record
    | InSpan(kind: Kind, body: Prog)                      // start_as_current_span
    | Resume(captured: Option<Context>, body: Prog)       // spawned callable, Thread.run, atom body
    | Consume(carrier: Carrier, body: Prog)               // RPC / notification dispatch
    | Entry(headers: Option<Carrier>, body: Prog)         // auth_token __call__ / process_request
    | Spawn(positional: bool, body: Prog)                 // spawn / submit / Thread.start
    | Post(ctxt: Option<Carrier>, via: Seam, fails: Option<nat>, body: Prog) // traced send

  datatype Outcome = Done | Threw(error: nat)

  datatype Result = Result(ctx: Context, outcome: Outcome, events: multiset<Event>)

  function Size(p: Prog): nat {
    match p
    case Skip => 1
    case Seq(a, b) => 1 + Size(a) + Size(b)
    case Raise(_) => 1
    case Try(a, h) => 1 + Size(a) + Size(h)
    case Leak(_) => 1
    case Log => 1
    case InSpan(_, b) => 1 + Size(b)
    case Resume(_, b) => 1 + Size(b)
    case Consume(_, b) => 2 + Size(b)
    case Entry(_, b) => 1 + Size(b)
    case Spawn(_, b) => 2 + Size(b)
    case Post(_, _, _, b) => 3 + Size(b)
  }

  /** The unit of work that `Spawn` hands to a worker: only a callable passed
      positionally is wrapped to re-attach the context captured here. */
  function Spawned(positional: bool, ctx: Context, body: Prog): Prog {
    Resume(if positional then Some(ctx) else None, body)
  }

  /** What is put on the wire.  Only a mapping can carry the injected header; request
      headers default to an empty one, a message context does not. */
  function Wire(via: Seam, ctxt: Option<Carrier>, ctx: Context): Carrier {
    match ctxt
    case None => if via.Http? then Inject(map[], ctx) else map[]
    case Some(c) => Inject(c, ctx)
  }

  /** The unit of work a receiver runs for a message. */
  function Arrival(via: Seam, carrier: Carrier, body: Prog): Prog {
    match via
    case Rpc => Consume(carrier, body)
    case Http => Entry(Some(carrier), body)
  }

  function SeamKind(via: Seam): Kind {
    match via case Rpc => Producer case Http => Client
  }

  function Failing(fails: Option<nat>): Outcome {
    match fails case None => Done case Some(e) => Threw(e)
  }

  /** Parent of a consumer span: the wire's span, else whatever the worker has. */
  function ConsumerParent(ctxt: Carrier, ambient: Context): Context {
    if Extract(ctxt).Active? then Extract(ctxt) else ambient
  }

  /** Kind and parent of an entry span: internal work under an active span, else
      the server side of the caller's span. */
  function EntryKind(ambient: Context): Kind {
    if ambient.Active? then Internal else Server
  }

  function EntryParent(headers: Option<Carrier>, ambient: Context): Context {
    if ambient.Active? then ambient
    else match headers case None => Empty case Some(h) => Extract(h)
  }

  /** A span that is opened and ended. */
  function Bracket(id: Path, parent: Context, kind: Kind): multiset<Event> {
    multiset{StartEvent(id, parent, kind)} + multiset{Ended(id)}
  }

  /** Result `r` of a body that ran inside a new span, with `ctx` current around it. */
  function Around(kind: Kind, parent: Context, ctx: Context, path: Path, r: Result): Result {
    Result(ctx, r.outcome, Bracket(path, parent, kind) + r.events)
  }

  /** Runs `p` at `path` with `ctx` current.  Handed-off work runs on a worker whose
      own context is `base`. */
  function Eval(p: Prog, ctx: Context, path: Path, base: Context): Result
    decreases Size(p)
  {
    match p
    case Skip => Result(ctx, Done, multiset{})
    case Seq(a, b) =>
      var r := Eval(a, ctx, path + [0], base);
      if r.outcome.Threw? then r
      else
        var s := Eval(b, r.ctx, path + [1], base);
        Result(s.ctx, s.outcome, r.events + s.events)
    case Raise(e) => Result(ctx, Threw(e), multiset{})
    case Try(a, h) =>
      var r := Eval(a, ctx, path + [0], base);
      if r.outcome.Done? then r
      else
        var s := Eval(h, r.ctx, path + [1], base);
        Result(s.ctx, s.outcome, r.events + s.events)
    case Leak(c) => Result(c, Done, multiset{})
    case Log => Result(ctx, Done, multiset{Logged(path, ctx)})
    case InSpan(kind, b) => Around(kind, ctx, ctx, path, Eval(b, Active(Open(path, ctx)), path + [0], base))
    case Resume(None, b) => Eval(b, ctx, path + [0], base)
    case Resume(Some(c), b) =>
      var r := Eval(b, c, path + [0], base);
      Result(ctx, r.outcome, r.events)
    case Consume(c, b) =>
      var parent := ConsumerParent(c, ctx);
      Around(Consumer, parent, ctx, path, Eval(b, Active(Open(path, parent)), path + [0], base))
    case Entry(h, b) =>
      var parent := EntryParent(h, ctx);
      Around(EntryKind(ctx), parent, ctx, path, Eval(b, Active(Open(path, parent)), path + [0], base))
    case Spawn(positional, b) =>
      Result(ctx, Done, Eval(Spawned(positional, ctx, b), base, path + [0], base).events)
    case Post(c, via, fails, b) =>
      var s := Open(path, ctx);
      Result(ctx, Failing(fails),
             Bracket(path, ctx, SeamKind(via)) +
             Eval(Arrival(via, Wire(via, c, Active(s)), b), base, path + [0], base).events)
  }

  function Then(r: Result, t: Result): Result { Result(t.ctx, t.outcome, r.events + t.events) }

  // ---- The reference semantics of each construct, unfolded once -------------------------

  lemma ResumeEval(captured: Option<Context>, b: Prog, ctx: Context, path: Path, base: Context)
    ensures Eval(Resume(captured, b), ctx, path, base)
         == match captured
            case None => Eval(b, ctx, path + [0], base)
            case Some(c) => Eval(b, c, path + [0], base).(ctx := ctx)
  {
  }

  lemma ConsumeEval(c: Carrier, b: Prog, ctx: Context, path: Path, base: Context)
    ensures Eval(Consume(c, b), ctx, path, base)
         == var parent := if Extract(c).Empty? then ctx else Extract(c);
            Around(Consumer, parent, ctx, path, Eval(b, Active(Open(path, parent)), path + [0], base))
  {
  }

  lemma EntryEval(h: Option<Carrier>, b: Prog, ctx: Context, path: Path, base: Context)
    ensures Eval(Entry(h, b), ctx, path, base)
         == var parent := EntryParent(h, ctx);
            Around(EntryKind(ctx), parent, ctx, path, Eval(b, Active(Open(path, parent)), path + [0], base))
  {
  }

  lemma InSpanEval(kind: Kind, b: Prog, ctx: Context, path: Path, base: Context)
    ensures Eval(InSpan(kind, b), ctx, path, base)
         == Around(kind, ctx, ctx, path, Eval(b, Active(Open(path, ctx)), path + [0], base))
  {
  }

  lemma SequenceEval(p: Prog, a: Prog, b: Prog, ctx: Context, path: Path, base: Context)
    requires p == Seq(a, b) || p == Try(a, b)
    ensures (var r := Eval(a, ctx, path + [0], base);
             Eval(p, ctx, path, base)
             == (if r.outcome.Done? == p.Seq? then Then(r, Eval(b, r.ctx, path + [1], base)) else r))
  {
  }

  lemma BasicEval(p: Prog, ctx: Context, path: Path, base: Context)
    requires p.Skip? || p.Raise? || p.Leak? || p.Log?
    ensures Eval(p, ctx, path, base)
         == Result(if p.Leak? then p.ctx else ctx, if p.Raise? then Threw(p.error) else Done,
                   if p.Log? then multiset{Logged(path, ctx)} else multiset{})
  {
  }
}
