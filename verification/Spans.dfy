/** Trace context as the instrumentations see it: spans, the current context, what
    a log or an exporter observes, and the carriers that cross a wire.

    A span id is the position, in the tree of everything one request causes, of the
    operation that opened it, so ids are unique without a random generator.  The
    wire encoding of a span is a value of its own, which makes it injective. */
module Spans {

  datatype Option<+T> = None | Some(value: T)

  type Path = seq<nat>

  datatype SpanRef = SpanRef(id: Path, trace: Path)

  /** A context holds at most one span; the empty context holds none. */
  datatype Context = Empty | Active(span: SpanRef)

  datatype Kind = Internal | Server | Client | Producer | Consumer

  /** What an observer can see of a run. */
  datatype Event =
    | Started(id: Path, parent: Context, trace: Path, kind: Kind)
    | Ended(id: Path)
    | Logged(id: Path, stamp: Context)

  /** The span that `start_span` opens as `id` when `parent` is the parent context:
      it joins the parent's trace, or starts one of its own. */
  function Open(id: Path, parent: Context): (s: SpanRef)
    ensures s.id == id && (parent.Active? ==> s.trace == parent.span.trace)
  {
    SpanRef(id, if parent.Active? then parent.span.trace else id)
  }

  /** `e` is the start of span `id`, of this kind, under `parent` and in its trace. */
  predicate IsStartOf(e: Event, id: Path, parent: Context, kind: Kind) {
    && e.Started? && e.id == id && e.parent == parent && e.kind == kind
    && (parent.Active? ==> e.trace == parent.span.trace)
  }

  function StartEvent(id: Path, parent: Context, kind: Kind): (e: Event)
    ensures IsStartOf(e, id, parent, kind)
  {
    Started(id, parent, Open(id, parent).trace, kind)
  }

  datatype HeaderValue = Text(text: string) | Traceparent(span: SpanRef)

  type Carrier = map<string, HeaderValue>

  const TRACEPARENT := "traceparent"

  /** The global propagator writes nothing when no span is current. */
  function Inject(carrier: Carrier, ctx: Context): Carrier {
    if ctx.Active? then carrier[TRACEPARENT := Traceparent(ctx.span)] else carrier
  }

  /** A missing or malformed header gives the empty context. */
  function Extract(carrier: Carrier): Context {
    if TRACEPARENT in carrier && carrier[TRACEPARENT].Traceparent?
    then Active(carrier[TRACEPARENT].span)
    else Empty
  }
}
