/** The wrappers as they run on one thread: attach, call, detach, over objects that are
    updated in place.  Every method is proved against the reference semantics. */
module Runtime {
  import opened Spans
  import opened Programs
  import opened Propagation
  import opened Scheduler

  /** A mutable dictionary owned by some caller: a message context, request headers. */
  class Dict {
    var items: Carrier

    constructor (items: Carrier)
      ensures this.items == items
    {
      this.items := items;
    }
  }

  /** A thread object; the context captured at `start` is an attribute of it. */
  class ThreadObject {
    var stash: Option<Context>

    constructor ()
      ensures stash == None
    {
      stash := None;
    }
  }

  /** A TaskFlow atom; the listener leaves the context of the atom's span on it. */
  class Atom {
    var stash: Option<Context>

    constructor ()
      ensures stash == None
    {
      stash := None;
    }
  }

  /** The `headers` argument of a client call. */
  datatype Headers = Absent | NoneGiven | Given(dict: Dict)

  /** The two client layers: `Proxy.request` over `Session.request`. */
  datatype Layer = Sdk | Session

  const TYPE_ERROR: nat := 1

  /** Copying an explicit `None` raises; only the session layer guards against it. */
  predicate Rejects(layer: Layer, given: Option<Carrier>) {
    layer.Sdk? && given.None?
  }

  function Items(given: Option<Carrier>): Carrier { if given.Some? then given.value else map[] }

  /** What a call through `layers` amounts to: nested client spans, and one injection of
      the innermost of them into the caller's own headers.  `given` is `None` for an
      explicit `headers=None`. */
  function Requested(layers: seq<Layer>, given: Option<Carrier>, fails: Option<nat>, body: Prog): Prog
    requires layers != []
  {
    if Rejects(layers[0], given) then InSpan(Client, Raise(TYPE_ERROR))
    else
      if |layers| == 1 then Post(Some(Items(given)), Http, fails, body)
      else InSpan(Client, Requested(layers[1..], Some(Items(given)), fails, body))
  }

  /** The span of the innermost of `n` nested layers entered at `path` under `ctx`. */
  function Innermost(n: nat, path: Path, ctx: Context): SpanRef
    requires n > 0
    decreases n
  {
    var span := Open(path, ctx);
    if n == 1 then span else Innermost(n - 1, path + [0], Active(span))
  }

  /** Headers that already carry an outer layer's span make no difference: the innermost
      span is what goes on the wire. */
  lemma {:induction false} OuterInjectionInvisible(layers: seq<Layer>, items: Carrier, outer: Context,
      fails: Option<nat>, body: Prog, ctx: Context, path: Path, base: Context)
    requires layers != []
    ensures Eval(Requested(layers, Some(Inject(items, outer)), fails, body), ctx, path, base)
         == Eval(Requested(layers, Some(items), fails, body), ctx, path, base)
  {
    var span := Active(Open(path, ctx));
    if |layers| == 1 {
      assert Wire(Http, Some(Inject(items, outer)), span) == Wire(Http, Some(items), span);
    } else {
      OuterInjectionInvisible(layers[1..], items, outer, fails, body, span, path + [0], base);
    }
  }

  /** What happens inside the outermost of `layers`, whose span is `span`. */
  function Forwarded(layers: seq<Layer>, given: Option<Carrier>, fails: Option<nat>, b: Prog,
                     span: Context, path: Path, base: Context): Result
    requires layers != []
  {
    var items := Items(given);
    if Rejects(layers[0], given) then Result(span, Threw(TYPE_ERROR), multiset{})
    else if |layers| == 1 then
      Result(span, Failing(fails), Tree(Pending(Arrival(Http, Inject(items, span), b), path + [0]), base))
    else Eval(Requested(layers[1..], Some(items), fails, b), span, path + [0], base)
  }

  /** The headers a server receives: the caller's, with the innermost span. */
  function Sent(layers: seq<Layer>, given: Option<Carrier>, path: Path, ctx: Context): Option<Carrier>
    requires layers != []
  {
    if Rejects(layers[0], given) then None
    else Some(Items(given)[TRACEPARENT := Traceparent(Innermost(|layers|, path, ctx))])
  }

  /** The same, from inside the outermost layer. */
  function Relayed(layers: seq<Layer>, given: Option<Carrier>, path: Path, span: Context): Option<Carrier>
    requires layers != []
  {
    if Rejects(layers[0], given) then None
    else if |layers| == 1 then Some(Inject(Items(given), span))
    else Sent(layers[1..], Some(Items(given)), path + [0], span)
  }

  lemma SentEval(layers: seq<Layer>, given: Option<Carrier>, path: Path, ctx: Context)
    requires layers != []
    ensures Sent(layers, given, path, ctx) == Relayed(layers, given, path, Active(Open(path, ctx)))
  {
  }

  /** Nothing is sent exactly if the outermost layer is the SDK's and the caller passed an
      explicit `headers=None`. */
  lemma SentIff(layers: seq<Layer>, given: Option<Carrier>, path: Path, ctx: Context)
    requires layers != []
    ensures Sent(layers, given, path, ctx) == None <==> layers[0].Sdk? && given == None
  {
  }

  lemma OuterInjectionUnsent(layers: seq<Layer>, items: Carrier, outer: Context, path: Path, ctx: Context)
    requires layers != []
    ensures Sent(layers, Some(Inject(items, outer)), path, ctx) == Sent(layers, Some(items), path, ctx)
  {
    var span := Traceparent(Innermost(|layers|, path, ctx));
    assert Inject(items, outer)[TRACEPARENT := span] == items[TRACEPARENT := span];
  }

  lemma RequestedEval(layers: seq<Layer>, given: Option<Carrier>, fails: Option<nat>, b: Prog,
                      ctx: Context, path: Path, base: Context)
    requires layers != []
    ensures Eval(Requested(layers, given, fails, b), ctx, path, base)
         == Around(Client, ctx, ctx, path, Forwarded(layers, given, fails, b, Active(Open(path, ctx)), path, base))
  {
    hide Eval, Tree;
    var span := Active(Open(path, ctx));
    if Rejects(layers[0], given) {
      InSpanEval(Client, Raise(TYPE_ERROR), ctx, path, base);
      BasicEval(Raise(TYPE_ERROR), span, path + [0], base);
    } else if |layers| == 1 {
      PostEval(Some(Items(given)), Http, fails, b, ctx, path, base);
    } else {
      InSpanEval(Client, Requested(layers[1..], Some(Items(given)), fails, b), ctx, path, base);
    }
  }

  /** `Proxy.request(url, "GET", headers=None)` raises, and nothing goes out; without the
      argument, or through a bare session, it does. */
  lemma NoneHeaders(b: Prog, ctx: Context, path: Path, base: Context)
    ensures var r := Eval(Requested([Sdk, Session], None, None, b), ctx, path, base);
            r.outcome == Threw(TYPE_ERROR) && r.events == Bracket(path, ctx, Client)
    ensures Sent([Sdk, Session], None, path, ctx) == None
    ensures Sent([Sdk, Session], Some(map[]), path, ctx).Some? && Sent([Session], None, path, ctx).Some?
  {
    RequestedEval([Sdk, Session], None, None, b, ctx, path, base);
  }

  lemma ForwardedCases(layers: seq<Layer>, given: Option<Carrier>, fails: Option<nat>, b: Prog,
                       span: Context, path: Path, base: Context)
    requires layers != []
    ensures var items := Inject(Items(given), span);
            var item := Pending(Arrival(Http, items, b), path + [0]);
            && Forwarded(layers, given, fails, b, span, path, base)
               == (if Rejects(layers[0], given) then Result(span, Threw(TYPE_ERROR), multiset{})
                   else if |layers| == 1 then Result(span, Failing(fails), Tree(item, base))
                   else Eval(Requested(layers[1..], Some(items), fails, b), span, path + [0], base))
            && Relayed(layers, given, path, span)
               == (if Rejects(layers[0], given) then None
                   else if |layers| == 1 then Some(items)
                   else Sent(layers[1..], Some(items), path + [0], span))
  {
    if |layers| > 1 {
      OuterInjectionUnsent(layers[1..], Items(given), span, path + [0], span);
      OuterInjectionInvisible(layers[1..], Items(given), span, fails, b, span, path + [0], base);
    }
  }

  /** A session call with no headers is one with empty headers. */
  lemma SessionEval(c: Option<Carrier>, fails: Option<nat>, b: Prog, ctx: Context, path: Path, base: Context)
    ensures Eval(Requested([Session], Some(Items(c)), fails, b), ctx, path, base)
         == Eval(Post(c, Http, fails, b), ctx, path, base)
  {
    PostEval(c, Http, fails, b, ctx, path, base);
    PostEval(Some(Items(c)), Http, fails, b, ctx, path, base);
  }

  // ---- What a thread shows, in order -------------------------------------------------------

  /** From `before` to `after`, span `id` was started first and ended last. */
  ghost predicate Encloses(before: seq<Event>, after: seq<Event>, id: Path, parent: Context, kind: Kind) {
    && |before| + 2 <= |after| && before <= after
    && IsStartOf(after[|before|], id, parent, kind) && after[|after| - 1] == Ended(id)
  }

  lemma Enclosed(before: seq<Event>, during: seq<Event>, id: Path, parent: Context, kind: Kind)
    requires before + [StartEvent(id, parent, kind)] <= during
    ensures Encloses(before, during + [Ended(id)], id, parent, kind)
  {
    assert during[|before|] == (before + [StartEvent(id, parent, kind)])[|before|];
    assert before <= during;
  }

  /** The ends of spans that were started in this order, one inside the other. */
  function EndsOf(starts: seq<Event>): seq<Event> {
    if starts == [] then [] else EndsOf(starts[1..]) + [Ended(starts[0].id)]
  }

  ghost predicate Clients(starts: seq<Event>) {
    forall i | 0 <= i < |starts| :: starts[i].Started? && starts[i].kind == Client
  }

  lemma OneMoreLayer(before: seq<Event>, start: Event, inner: seq<Event>)
    requires start.Started? && start.kind == Client && Clients(inner)
    ensures Clients([start] + inner)
    ensures before + [start] + inner + EndsOf(inner) + [Ended(start.id)]
         == before + ([start] + inner) + EndsOf([start] + inner)
  {
    assert ([start] + inner)[1..] == inner;
  }

  /** The same headers, but for `traceparent`. */
  ghost predicate Agree(sent: Carrier, given: Carrier) {
    && (forall key | key in sent && key != "traceparent" :: key in given && sent[key] == given[key])
    && (forall key | key in given && key != "traceparent" :: key in sent)
  }

  lemma AgreeAlong(sent: Carrier, copy: Carrier, given: Carrier)
    requires Agree(sent, copy) && Agree(copy, given)
    ensures Agree(sent, given)
  {
  }

  lemma NoLayers()
    ensures EndsOf([]) == [] && Clients([])
  {
  }

  ghost predicate Carries(carrier: Carrier, ctx: Context) {
    ctx.Active? ==> "traceparent" in carrier && carrier["traceparent"] == Traceparent(ctx.span)
  }

  /** `carrier` has the span of the start `e` as its trace context. */
  ghost predicate Carried(carrier: Carrier, e: Event) {
    e.Started? && "traceparent" in carrier && carrier["traceparent"] == Traceparent(SpanRef(e.id, e.trace))
  }

  lemma CarriesStart(carrier: Carrier, id: Path, parent: Context, kind: Kind)
    requires Carries(carrier, Active(Open(id, parent)))
    ensures Carried(carrier, StartEvent(id, parent, kind))
  {
  }

  class Thread {
    var current: Context
    var log: seq<Event>
    var pool: seq<Pending>

    constructor (ctx: Context)
      ensures current == ctx && log == [] && pool == []
    {
      current, log, pool := ctx, [], [];
    }

    /** What has been observed, with all that handed-off work will add to it. */
    ghost function Seen(base: Context): multiset<Event>
      reads `log, `pool
    {
      multiset(log) + Trees(pool, base)
    }

    method Attach(ctx: Context) returns (token: Context)
      modifies `current
      ensures current == ctx && token == old(current)
    {
      token := current;
      current := ctx;
    }

    /** Restores what was current at the matching attach, whatever was attached since. */
    method Detach(token: Context)
      modifies `current
      ensures current == token
    {
      current := token;
    }

    method StartSpan(id: Path, parent: Context, kind: Kind, ghost base: Context) returns (span: Context)
      modifies `log
      ensures span == Active(Open(id, parent))
      ensures Seen(base) == old(Seen(base)) + multiset{StartEvent(id, parent, kind)}
      ensures log == old(log) + [StartEvent(id, parent, kind)]
    {
      span := Active(Open(id, parent));
      log := log + [StartEvent(id, parent, kind)];
    }

    method EndSpan(id: Path, ghost base: Context)
      modifies `log
      ensures Seen(base) == old(Seen(base)) + multiset{Ended(id)}
      ensures log == old(log) + [Ended(id)]
    {
      log := log + [Ended(id)];
    }

    /** The end of a span around `body`: detach, then end the span. */
    method LeaveSpan(token: Context, id: Path, ghost parent: Context, ghost kind: Kind, ghost before: multiset<Event>,
                     ghost body: multiset<Event>, ghost base: Context)
      requires Seen(base) == before + multiset{StartEvent(id, parent, kind)} + body
      modifies `current, `log
      ensures current == token
      ensures Seen(base) == before + (Bracket(id, parent, kind) + body)
      ensures log == old(log) + [Ended(id)]
    {
      Detach(token);
      EndSpan(id, base);
    }

    method Queue(item: Pending, ghost base: Context)
      modifies `pool
      ensures Seen(base) == old(Seen(base)) + Tree(item, base)
      ensures pool == old(pool) + [item]
    {
      OneShipped(item, base);
      SumConcat(TreeOn(base), pool, [item]);
      pool := pool + [item];
    }

    /** `start_as_current_span(context=parent)` and `use_span(end_on_exit)` around a call. */
    method SpanAround(kind: Kind, parent: Context, body: Prog, path: Path, ghost base: Context)
      returns (o: Outcome)
      modifies this
      ensures var r := Eval(body, Active(Open(path, parent)), path + [0], base);
              && o == r.outcome && current == old(current)
              && Seen(base) == old(Seen(base)) + (Bracket(path, parent, kind) + r.events)
      ensures Encloses(old(log), log, path, parent, kind) && old(pool) <= pool
      decreases Size(body), 2
    {
      hide Eval, Seen, Bracket, Encloses;
      var span := StartSpan(path, parent, kind, base);
      var token := Attach(span);
      o := Call(body, path + [0], base);
      Enclosed(old(log), log, path, parent, kind);
      LeaveSpan(token, path, parent, kind, old(Seen(base)),
                Eval(body, Active(Open(path, parent)), path + [0], base).events, base);
    }

    /** A spawned callable, or `Thread.run`: re-attach what was captured, if anything. */
    method RunCaptured(captured: Option<Context>, body: Prog, path: Path, ghost base: Context)
      returns (o: Outcome)
      modifies this
      ensures var r := Eval(Resume(captured, body), old(current), path, base);
              && o == r.outcome && current == r.ctx && Seen(base) == old(Seen(base)) + r.events
      ensures captured.Some? ==> current == old(current)
      ensures old(log) <= log && old(pool) <= pool
      decreases Size(body), 2
    {
      ResumeEval(captured, body, current, path, base);
      hide Eval;
      match captured {
        case None => o := Call(body, path + [0], base);
        case Some(ctx) =>
          var token := Attach(ctx);
          o := Call(body, path + [0], base);
          Detach(token);
      }
    }

    /** `Thread.start`: leave the current context on the thread object, then start it. */
    method ThreadStart(t: ThreadObject, body: Prog, path: Path, ghost base: Context)
      modifies this`pool, t
      ensures t.stash == Some(current)
      ensures Seen(base) == old(Seen(base)) + Eval(Spawn(true, body), current, path, base).events
      ensures pool == old(pool) + [Pending(Resume(Some(current), body), path + [0])]
    {
      SpawnEval(true, body, current, path, base);
      hide Eval;
      t.stash := Some(current);
      Queue(Pending(Resume(t.stash, body), path + [0]), base);
    }

    /** `Thread.run`: re-attach what `start` left, or run as is if it left nothing. */
    method ThreadRun(t: ThreadObject, body: Prog, path: Path, ghost base: Context) returns (o: Outcome)
      modifies this
      ensures var r := Eval(Resume(t.stash, body), old(current), path, base);
              && o == r.outcome && current == r.ctx && Seen(base) == old(Seen(base)) + r.events
      ensures t.stash.Some? || !Leaky(body) ==> current == old(current)
    {
      hide Eval;
      o := RunCaptured(t.stash, body, path, base);
      if !Leaky(body) { ContextRestored(Resume(t.stash, body), old(current), path, base); }
    }

    /** An atom body: take the context off the atom, so nothing outlives the run. */
    method AtomBody(atom: Atom, body: Prog, path: Path, ghost base: Context) returns (o: Outcome)
      modifies this, atom
      ensures atom.stash == None
      ensures var r := Eval(Resume(old(atom.stash), body), old(current), path, base);
              && o == r.outcome && current == r.ctx && Seen(base) == old(Seen(base)) + r.events
      ensures old(atom.stash).Some? || !Leaky(body) ==> current == old(current)
    {
      hide Eval;
      var context := atom.stash;
      atom.stash := None;
      o := RunCaptured(context, body, path, base);
      if !Leaky(body) { ContextRestored(Resume(context, body), old(current), path, base); }
    }

    /** A spawn or submit: the callable is wrapped if it was passed positionally. */
    method SpawnWrapper(positional: bool, func: Prog, path: Path, ghost base: Context)
      modifies `pool
      ensures Seen(base) == old(Seen(base)) + Eval(Spawn(positional, func), current, path, base).events
      ensures pool == old(pool) + [Pending(Resume(if positional then Some(current) else None, func), path + [0])]
    {
      SpawnEval(positional, func, current, path, base);
      hide Eval;
      if !positional {
        Queue(Pending(Resume(None, func), path + [0]), base);
      } else {
        var captured := current;
        Queue(Pending(Resume(Some(captured), func), path + [0]), base);
      }
    }

    /** RPC and notification dispatch. */
    method Dispatch(ctxt: Carrier, handler: Prog, path: Path, ghost base: Context) returns (o: Outcome)
      modifies this
      ensures var r := Eval(Consume(ctxt, handler), old(current), path, base);
              && o == r.outcome && current == old(current) == r.ctx && Seen(base) == old(Seen(base)) + r.events
      ensures Encloses(old(log), log, path, if Extract(ctxt).Active? then Extract(ctxt) else old(current), Consumer)
      ensures old(pool) <= pool
      decreases Size(handler), 3
    {
      ConsumeEval(ctxt, handler, current, path, base);
      hide Eval;
      var spanCtx := Extract(ctxt);
      if spanCtx.Empty? { spanCtx := current; }
      var token := Attach(spanCtx);
      o := SpanAround(Consumer, current, handler, path, base);
      Detach(token);
    }

    /** The WSGI entry point and token validation. */
    method EntryWrapper(headers: Option<Carrier>, wrapped: Prog, path: Path, ghost base: Context) returns (o: Outcome)
      modifies this
      ensures var r := Eval(Entry(headers, wrapped), old(current), path, base);
              && o == r.outcome && current == old(current) == r.ctx && Seen(base) == old(Seen(base)) + r.events
      ensures Encloses(old(log), log, path,
                       if old(current).Active? || headers.None? then old(current) else Extract(headers.value),
                       if old(current).Active? then Internal else Server)
      ensures old(pool) <= pool
      decreases Size(wrapped), 3
    {
      EntryEval(headers, wrapped, current, path, base);
      hide Eval;
      var parent, kind;
      if current.Active? {
        parent, kind := current, Internal;
      } else if headers.None? {
        parent, kind := current, Server;
      } else {
        parent, kind := Extract(headers.value), Server;
      }
      o := SpanAround(kind, parent, wrapped, path, base);
    }

    method InjectInto(ctxt: Dict?) returns (wire: Carrier)
      modifies ctxt
      ensures ctxt != null ==> ctxt.items == Inject(old(ctxt.items), current)
      ensures ctxt != null && current.Active? ==>
                ctxt.items == old(ctxt.items)[TRACEPARENT := Traceparent(current.span)]
      ensures ctxt != null ==> Agree(ctxt.items, old(ctxt.items)) && Carries(ctxt.items, current)
      ensures wire == Wire(Rpc, if ctxt == null then None else Some(old(ctxt.items)), current)
      ensures wire == if ctxt == null then map[] else ctxt.items
    {
      wire := map[];
      if ctxt != null {
        ctxt.items := Inject(ctxt.items, current);
        wire := ctxt.items;
      }
    }

    /** `Transport._send`: inject into the very dictionary that goes on the wire, which
        is possible only if it is one. */
    method InjectWrapper(ctxt: Dict?, fails: Option<nat>, handler: Prog, path: Path, ghost base: Context)
      returns (o: Outcome)
      modifies this, ctxt
      ensures ctxt != null ==> ctxt.items == old(ctxt.items)[TRACEPARENT := Traceparent(Open(path, old(current)))]
      ensures var mapping := if ctxt == null then None else Some(old(ctxt.items));
              var r := Eval(Post(mapping, Rpc, fails, handler), old(current), path, base);
              && o == r.outcome && current == old(current) == r.ctx && Seen(base) == old(Seen(base)) + r.events
      ensures Encloses(old(log), log, path, old(current), Producer) && |log| == |old(log)| + 2
      ensures ctxt != null ==> Agree(ctxt.items, old(ctxt.items)) && Carried(ctxt.items, log[|old(log)|])
      ensures pool == old(pool) + [Pending(Consume(if ctxt != null then ctxt.items else map[], handler), path + [0])]
      ensures o == match fails case None => Done case Some(e) => Threw(e)
    {
      hide Eval, Seen, Tree, Bracket, Encloses, Agree, Carries, Carried, Inject, Wire, Open;
      PostEval(if ctxt == null then None else Some(ctxt.items), Rpc, fails, handler, current, path, base);
      ghost var start := StartEvent(path, current, Producer);
      Enclosed(log, log + [start], path, current, Producer);
      var span := StartSpan(path, current, Producer, base);
      var token := Attach(span);
      var wire := InjectInto(ctxt);
      if ctxt != null { CarriesStart(ctxt.items, path, token, Producer); }
      var item := Pending(Arrival(Rpc, wire, handler), path + [0]);
      Queue(item, base);
      o := Failing(fails);
      LeaveSpan(token, path, token, Producer, old(Seen(base)), Tree(item, base), base);
      assert log[|old(log)|] == start;
    }

    /** Stacked client wrappers.  Each copies the headers before it injects into them. */
    method Request(layers: seq<Layer>, headers: Headers, fails: Option<nat>, handler: Prog, path: Path,
                   ghost base: Context) returns (o: Outcome, sent: Option<Carrier>, ghost starts: seq<Event>)
      requires layers != []
      modifies this
      ensures headers.Given? ==> headers.dict.items == old(headers.dict.items)
      ensures sent == Sent(layers, Argument(headers), path, old(current))
      ensures sent == None <==> layers[0].Sdk? && headers.NoneGiven?
      ensures sent.Some? && headers.Given? ==> Agree(sent.value, old(headers.dict.items))
      ensures sent.Some? && !headers.Given? ==> Agree(sent.value, map[])
      ensures log == old(log) + starts + EndsOf(starts) && Clients(starts)
      ensures |starts| == if sent.Some? then |layers| else 1
      ensures sent.Some? ==> Carried(sent.value, starts[|layers| - 1])
      ensures sent.Some? ==>
                && |pool| == |old(pool)| + 1 && old(pool) <= pool
                && pool[|old(pool)|].prog == Entry(Some(sent.value), handler)
      ensures sent.None? ==> pool == old(pool)
      ensures sent.Some? ==> o == match fails case None => Done case Some(e) => Threw(e)
      ensures var r := Eval(Requested(layers, Argument(headers), fails, handler), old(current), path, base);
              && o == r.outcome && current == old(current) == r.ctx && Seen(base) == old(Seen(base)) + r.events
      decreases |layers|, 1
    {
      hide Eval, Requested, Seen, Tree, Bracket, Forwarded, Sent, Relayed, Innermost, Inject, Items, Agree,
        EndsOf, Clients;
      RequestedEval(layers, Argument(headers), fails, handler, current, path, base);
      SentEval(layers, Argument(headers), path, current);
      SentIff(layers, Argument(headers), path, current);
      ghost var body;
      var span := StartSpan(path, current, Client, base);
      ghost var start := StartEvent(path, current, Client);
      var token := Attach(span);
      o, sent, body, starts := Forward(layers, headers, Argument(headers), fails, handler, path, base);
      OneMoreLayer(old(log), start, starts);
      LeaveSpan(token, path, token, Client, old(Seen(base)), body, base);
      starts := [start] + starts;
    }

    /** A copy of the headers, empty if there are none, with the current span written into it. */
    method InjectedCopy(headers: Headers) returns (copy: Dict)
      ensures fresh(copy) && copy.items == Inject(Items(Argument(headers)), current)
      ensures headers.Given? ==> Agree(copy.items, headers.dict.items)
      ensures !headers.Given? ==> Agree(copy.items, map[])
      ensures Carries(copy.items, current)
    {
      copy := new Dict(if headers.Given? then headers.dict.items else map[]);
      copy.items := Inject(copy.items, current);
    }

    /** The part of a client wrapper that runs inside its span. */
    method Forward(layers: seq<Layer>, headers: Headers, ghost given: Option<Carrier>, fails: Option<nat>,
                   handler: Prog, path: Path, ghost base: Context)
      returns (o: Outcome, sent: Option<Carrier>, ghost body: multiset<Event>, ghost starts: seq<Event>)
      requires layers != [] && current.Active? && given == Argument(headers)
      modifies this
      ensures current == old(current)
      ensures var r := Forwarded(layers, given, fails, handler, old(current), path, base);
              o == r.outcome && body == r.events
      ensures Seen(base) == old(Seen(base)) + body
      ensures sent == Relayed(layers, given, path, old(current))
      ensures sent.Some? && headers.Given? ==> Agree(sent.value, old(headers.dict.items))
      ensures sent.Some? && !headers.Given? ==> Agree(sent.value, map[])
      ensures log == old(log) + starts + EndsOf(starts) && Clients(starts)
      ensures |starts| == if sent.Some? then |layers| - 1 else 0
      ensures sent.Some? && |layers| == 1 ==> Carries(sent.value, old(current))
      ensures sent.Some? && |layers| > 1 ==> Carried(sent.value, starts[|layers| - 2])
      ensures sent.None? ==> pool == old(pool)
      ensures sent.Some? ==>
                && |pool| == |old(pool)| + 1 && old(pool) <= pool
                && pool[|old(pool)|].prog == Entry(Some(sent.value), handler)
      ensures sent.Some? ==> o == match fails case None => Done case Some(e) => Threw(e)
      decreases |layers|, 0
    {
      hide Eval, Requested, Seen, Tree, Bracket, Sent, Innermost, Inject, Items, Forwarded, Relayed, Carried, Carries,
        Clients, EndsOf, Agree;
      NoLayers();
      ForwardedCases(layers, given, fails, handler, current, path, base);
      if layers[0].Sdk? && headers.NoneGiven? {
        o, sent, body, starts := Threw(TYPE_ERROR), None, multiset{}, [];
      } else {
        var copy := InjectedCopy(headers);
        if |layers| == 1 {
          var item := Pending(Arrival(Http, copy.items, handler), path + [0]);
          Queue(item, base);
          o, sent, body, starts := Failing(fails), Some(copy.items), Tree(item, base), [];
        } else {
          ghost var inner := Eval(Requested(layers[1..], Some(copy.items), fails, handler), current, path + [0], base);
          o, sent, starts := Request(layers[1..], Given(copy), fails, handler, path + [0], base);
          body := inner.events;
          if sent.Some? { AgreeAlong(sent.value, copy.items, if headers.Given? then headers.dict.items else map[]); }
        }
      }
    }

    static function Argument(headers: Headers): Option<Carrier>
      reads if headers.Given? then {headers.dict} else {}
    {
      match headers
      case Absent => Some(map[])
      case NoneGiven => None
      case Given(dict) => Some(dict.items)
    }

    /** Runs a program on this thread. */
    method Call(p: Prog, path: Path, ghost base: Context) returns (o: Outcome)
      modifies this
      ensures var r := Eval(p, old(current), path, base);
              && o == r.outcome && current == r.ctx && Seen(base) == old(Seen(base)) + r.events
      ensures old(log) <= log && old(pool) <= pool
      decreases Size(p), 1
    {
      hide Eval;
      match p
      case Seq(a, b) =>
        SequenceEval(p, a, b, current, path, base);
        o := Call(a, path + [0], base);
        if o.Done? { o := Call(b, path + [1], base); }
      case Try(a, h) =>
        SequenceEval(p, a, h, current, path, base);
        o := Call(a, path + [0], base);
        if o.Threw? { o := Call(h, path + [1], base); }
      case InSpan(kind, b) =>
        InSpanEval(kind, b, current, path, base);
        o := SpanAround(kind, current, b, path, base);
      case Resume(captured, b) => o := RunCaptured(captured, b, path, base);
      case Consume(c, b) => o := Dispatch(c, b, path, base);
      case Entry(h, b) => o := EntryWrapper(h, b, path, base);
      case Spawn(positional, b) =>
        SpawnEval(positional, b, current, path, base);
        SpawnWrapper(positional, b, path, base);
        o := Done;
      case Post(_, _, _, _) => o := Send(p, path, base);
      case _ => o := Basic(p, path, base);
    }

    method Basic(p: Prog, path: Path, ghost base: Context) returns (o: Outcome)
      requires p.Skip? || p.Raise? || p.Leak? || p.Log?
      modifies this
      ensures var r := Eval(p, old(current), path, base);
              && o == r.outcome && current == r.ctx && Seen(base) == old(Seen(base)) + r.events
      ensures old(log) <= log && pool == old(pool)
    {
      BasicEval(p, current, path, base);
      hide Eval;
      o := Done;
      match p
      case Raise(e) => o := Threw(e);
      case Leak(c) => var _ := Attach(c);
      case Log => log := log + [Logged(path, current)];
      case Skip =>
    }

    method Send(p: Prog, path: Path, ghost base: Context) returns (o: Outcome)
      requires p.Post?
      modifies this
      ensures var r := Eval(p, old(current), path, base);
              && o == r.outcome && current == r.ctx && Seen(base) == old(Seen(base)) + r.events
      ensures old(log) <= log && old(pool) <= pool
    {
      hide Eval;
      match p.via
      case Rpc =>
        var ctxt: Dict? := null;
        if p.ctxt.Some? { ctxt := new Dict(p.ctxt.value); }
        o := InjectWrapper(ctxt, p.fails, p.body, path, base);
      case Http =>
        SessionEval(p.ctxt, p.fails, p.body, current, path, base);
        hide Requested;
        var sent;
        ghost var starts;
        var dict := new Dict(if p.ctxt.Some? then p.ctxt.value else map[]);
        o, sent, starts := Request([Session], Given(dict), p.fails, p.body, path, base);
    }
  }
}
