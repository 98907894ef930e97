/** Parents come before children, parent links have no cycle, and traces are inherited. */
module Causality {
  import opened Spans
  import opened Programs
  import opened Scheduler
  import opened Schedules
  import opened Lifetimes

  // ---- Every span named anywhere has been started --------------------------------------

  function ContextRefs(c: Context): set<SpanRef> { if c.Active? then {c.span} else {} }

  /** The spans that a program names: in contexts it attaches and carriers it holds. */
  function Refs(p: Prog): set<SpanRef> {
    match p
    case Seq(a, b) => Refs(a) + Refs(b)
    case Try(a, h) => Refs(a) + Refs(h)
    case Leak(c) => ContextRefs(c)
    case InSpan(_, b) => Refs(b)
    case Resume(c, b) => (if c.Some? then ContextRefs(c.value) else {}) + Refs(b)
    case Consume(c, b) => ContextRefs(Extract(c)) + Refs(b)
    case Entry(h, b) => (if h.Some? then ContextRefs(Extract(h.value)) else {}) + Refs(b)
    case Spawn(_, b) => Refs(b)
    case Post(c, _, _, b) => (if c.Some? then ContextRefs(Extract(c.value)) else {}) + Refs(b)
    case _ => {}
  }

  function StackRefs(k: Stack): set<SpanRef> {
    match k
    case Nil => {}
    case Push(Run(p, _), rest) => Refs(p) + StackRefs(rest)
    case Push(Catch(h, _), rest) => Refs(h) + StackRefs(rest)
    case Push(Detach(c), rest) => ContextRefs(c) + StackRefs(rest)
    case Push(End(_), rest) => StackRefs(rest)
  }

  function WorkerRefs(w: Worker): set<SpanRef> { ContextRefs(w.current) + StackRefs(w.stack) }

  function Known(log: seq<Event>): set<SpanRef> {
    set e | e in log && e.Started? :: SpanRef(e.id, e.trace)
  }

  /** What an event refers to was known, and a new span is in its parent's trace. */
  ghost predicate WellCaused(e: Event, known: set<SpanRef>) {
    match e
    case Started(id, parent, trace, _) => ContextRefs(parent) <= known && trace == Open(id, parent).trace
    case Logged(_, stamp) => ContextRefs(stamp) <= known
    case Ended(_) => true
  }

  ghost predicate CausedInOrder(log: seq<Event>, ext: set<SpanRef>) {
    forall k | 0 <= k < |log| :: WellCaused(log[k], ext + Known(log[..k]))
  }

  /** `ext` are the spans known before the run: those of remote callers, say. */
  ghost predicate Grounded(c: Config, ext: set<SpanRef>) {
    && (forall i | 0 <= i < |c.workers| :: WorkerRefs(c.workers[i]) <= ext + Known(c.log))
    && (forall j | 0 <= j < |c.pool| :: Refs(c.pool[j].prog) <= ext + Known(c.log))
    && CausedInOrder(c.log, ext)
  }

  lemma {:induction false} StepCaused(w: Worker)
    requires w.stack.Push?
    ensures var e := Step(w);
            && |e.emitted| <= 1
            && WorkerRefs(e.worker) <= WorkerRefs(w) + Known(e.emitted)
            && (forall j | 0 <= j < |e.shipped| :: Refs(e.shipped[j].prog) <= WorkerRefs(w) + Known(e.emitted))
            && (forall k | 0 <= k < |e.emitted| :: WellCaused(e.emitted[k], WorkerRefs(w)))
  {
    var e := Step(w);
    if |e.emitted| == 1 && e.emitted[0].Started? {
      var path, start := w.stack.top.path, e.emitted[0];
      assert SpanRef(start.id, start.trace) in Known(e.emitted);
      assert e.worker.current == Active(SpanRef(start.id, start.trace));
      var k := Push(Detach(w.current), Push(End(path), w.stack.rest));
      assert StackRefs(k) == ContextRefs(w.current) + StackRefs(w.stack.rest);
    } else if w.stack.top.Run? {
      var path, rest := w.stack.top.path, w.stack.rest;
      match w.stack.top.prog
      case Seq(a, b) => assert StackRefs(Push(Run(b, path + [1]), rest)) == Refs(b) + StackRefs(rest);
      case Try(a, h) => assert StackRefs(Push(Catch(h, path + [1]), rest)) == Refs(h) + StackRefs(rest);
      case Resume(Some(c), b) =>
        assert StackRefs(Push(Detach(w.current), rest)) == ContextRefs(w.current) + StackRefs(rest);
      case Consume(c, b) =>
        assert Refs(InSpan(Consumer, b)) == Refs(b);
        assert StackRefs(Push(Detach(w.current), rest)) == ContextRefs(w.current) + StackRefs(rest);
      case _ =>
    }
  }

  lemma KnownGrows(log: seq<Event>, more: seq<Event>)
    ensures Known(log + more) == Known(log) + Known(more)
  {
  }

  lemma {:induction false} CausedAppend(log: seq<Event>, more: seq<Event>, known: set<SpanRef>, ext: set<SpanRef>)
    requires CausedInOrder(log, ext) && |more| <= 1 && known <= ext + Known(log)
    requires forall k | 0 <= k < |more| :: WellCaused(more[k], known)
    ensures CausedInOrder(log + more, ext)
  {
    hide Known;
    forall k | 0 <= k < |log + more| ensures WellCaused((log + more)[k], ext + Known((log + more)[..k])) {
      if k < |log| {
        assert (log + more)[..k] == log[..k];
      } else {
        assert (log + more)[..k] == log && (log + more)[k] == more[k - |log|];
      }
    }
  }

  lemma {:induction false} EffectGrounded(c: Config, i: nat, e: Effect, ext: set<SpanRef>)
    requires i < |c.workers| && Grounded(c, ext)
    requires |e.emitted| <= 1 && WorkerRefs(e.worker) <= WorkerRefs(c.workers[i]) + Known(e.emitted)
    requires forall j | 0 <= j < |e.shipped| :: Refs(e.shipped[j].prog) <= WorkerRefs(c.workers[i]) + Known(e.emitted)
    requires forall k | 0 <= k < |e.emitted| :: WellCaused(e.emitted[k], WorkerRefs(c.workers[i]))
    ensures Grounded(Applied(c, i, e), ext)
  {
    KnownGrows(c.log, e.emitted);
    CausedAppend(c.log, e.emitted, WorkerRefs(c.workers[i]), ext);
    hide Refs, Known, WorkerRefs, CausedInOrder, WellCaused;
    var d := Applied(c, i, e);
    forall k | 0 <= k < |d.workers| ensures WorkerRefs(d.workers[k]) <= ext + Known(d.log) {
      if k != i { assert WorkerRefs(d.workers[k]) == WorkerRefs(c.workers[k]); }
    }
    forall j | 0 <= j < |d.pool| ensures Refs(d.pool[j].prog) <= ext + Known(d.log) {
      if j < |c.pool| { assert d.pool[j] == c.pool[j]; } else { assert d.pool[j] == e.shipped[j - |c.pool|]; }
    }
  }

  lemma {:induction false} NextGrounded(c: Config, m: Move, ext: set<SpanRef>)
    requires Enabled(c, m) && Grounded(c, ext)
    ensures Grounded(Next(c, m), ext)
  {
    match m
    case Advance(i) =>
      StepCaused(c.workers[i]);
      hide Step;
      EffectGrounded(c, i, Step(c.workers[i]), ext);
    case Pick(i, j) =>
      assert StackRefs(Next(c, m).workers[i].stack) == Refs(c.pool[j].prog) + StackRefs(Nil);
  }

  lemma {:induction false} RunGrounded(c: Config, moves: seq<Move>, ext: set<SpanRef>)
    requires Grounded(c, ext) && Feasible(c, moves)
    ensures Grounded(After(c, moves), ext)
    decreases |moves|
  {
    if moves != [] {
      NextGrounded(c, moves[0], ext);
      RunGrounded(Next(c, moves[0]), moves[1..], ext);
    }
  }

  /** No span known from outside has an id that the run could use. */
  ghost predicate Unclaimed(c: Config, ext: set<SpanRef>) {
    forall r, j | r in ext && 0 <= j < |c.pool| :: !(c.pool[j].path <= r.id)
  }

  lemma {:induction false} NotLater(c: Config, moves: seq<Move>, ext: set<SpanRef>, k: nat, m: nat)
    requires Fresh(c) && Distinct(c.pool) && Unclaimed(c, ext) && Grounded(c, ext) && Feasible(c, moves)
    requires k <= m < |After(c, moves).log|
    requires var log := After(c, moves).log;
             log[k].Started? && log[m].Started? && log[k].parent.Active?
    ensures After(c, moves).log[m].id != After(c, moves).log[k].parent.span.id
  {
    var log := After(c, moves).log;
    var parent := log[k].parent.span;
    RunGrounded(c, moves, ext);
    assert WellCaused(log[k], ext + Known(log[..k]));
    FreshRoom(c, parent.id);
    RunRoom(c, moves, parent.id);
    if log[m].id == parent.id {
      UsedAt(log, m);
      assert parent !in ext;
      var e :| e in log[..k] && e.Started? && SpanRef(e.id, e.trace) == parent;
      var j: nat :| j < k && log[j] == e;
      UsedOnce(log, parent.id, j, m);
    }
  }

  /** In every reachable state: each span's parent was started earlier in the log, or was
      known before the run; it is never started again or later; each span has its parent's
      trace; and log records are stamped with spans that exist. */
  lemma {:induction false} ParentsPrecede(c: Config, moves: seq<Move>, ext: set<SpanRef>)
    requires Fresh(c) && Distinct(c.pool) && Unclaimed(c, ext) && Grounded(c, ext) && Feasible(c, moves)
    ensures CausedInOrder(After(c, moves).log, ext)
    ensures var log := After(c, moves).log;
            forall k: nat, m: nat | k <= m < |log| && log[k].Started? && log[m].Started? && log[k].parent.Active? ::
              log[m].id != log[k].parent.span.id
  {
    RunGrounded(c, moves, ext);
    var log := After(c, moves).log;
    forall k: nat, m: nat | k <= m < |log| && log[k].Started? && log[m].Started? && log[k].parent.Active?
      ensures log[m].id != log[k].parent.span.id
    {
      NotLater(c, moves, ext, k, m);
    }
  }

  /** Every span without a parent starts a trace that no other such span is in. */
  lemma {:induction false} RootsSeparate(c: Config, moves: seq<Move>, ext: set<SpanRef>, k: nat, m: nat)
    requires Fresh(c) && Distinct(c.pool) && Unclaimed(c, ext) && Grounded(c, ext) && Feasible(c, moves)
    requires k < |After(c, moves).log| && m < |After(c, moves).log| && k != m
    requires var log := After(c, moves).log;
             log[k].Started? && log[k].parent.Empty? && log[m].Started? && log[m].parent.Empty?
    ensures After(c, moves).log[k].trace != After(c, moves).log[m].trace
  {
    var log := After(c, moves).log;
    RunGrounded(c, moves, ext);
    assert WellCaused(log[k], ext + Known(log[..k])) && WellCaused(log[m], ext + Known(log[..m]));
    FreshRoom(c, log[k].id);
    RunRoom(c, moves, log[k].id);
    StartsAreUses(log, log[k].id);
    if log[k].id == log[m].id { UsedOnce(log, log[k].id, k, m); }
  }

  /** `n` parent links lead from the span started at `k` to the span started at `j`. */
  ghost predicate Above(log: seq<Event>, k: nat, j: nat, n: nat)
    requires k < |log| && j < |log|
    decreases n
  {
    && n > 0 && log[k].Started? && log[k].parent.Active? && log[j].Started?
    && if n == 1 then log[k].parent.span.id == log[j].id
       else exists m: nat :: m < |log| && log[m].Started? && log[k].parent.span.id == log[m].id
                             && Above(log, m, j, n - 1)
  }

  /** Ancestors are strictly earlier, so no span is its own ancestor. */
  lemma {:induction false} NoCycles(c: Config, moves: seq<Move>, ext: set<SpanRef>, k: nat, j: nat, n: nat)
    requires Fresh(c) && Distinct(c.pool) && Unclaimed(c, ext) && Grounded(c, ext) && Feasible(c, moves)
    requires k < |After(c, moves).log| && j < |After(c, moves).log| && Above(After(c, moves).log, k, j, n)
    ensures j < k
    decreases n
  {
    var log := After(c, moves).log;
    ParentsPrecede(c, moves, ext);
    if n > 1 {
      var m: nat :| m < |log| && log[m].Started? && log[k].parent.span.id == log[m].id && Above(log, m, j, n - 1);
      NoCycles(c, moves, ext, m, j, n - 1);
    }
  }

  /** The span at `log[k]` is `root` or descends from it through parent links. */
  ghost predicate Descends(log: seq<Event>, k: nat, root: SpanRef)
    requires k < |log|
    decreases k
  {
    && log[k].Started?
    && (|| SpanRef(log[k].id, log[k].trace) == root
        || log[k].parent == Active(root)
        || exists j :: 0 <= j < k && Descends(log, j, root)
                       && log[j].Started? && log[k].parent == Active(SpanRef(log[j].id, log[j].trace)))
  }

  /** Everything downstream of a span, over any number of hops, is in its trace. */
  lemma {:induction false} DescendantsShareTrace(log: seq<Event>, ext: set<SpanRef>, k: nat, root: SpanRef)
    requires CausedInOrder(log, ext) && k < |log| && Descends(log, k, root)
    ensures log[k].trace == root.trace
    decreases k
  {
    assert WellCaused(log[k], ext + Known(log[..k]));
    if SpanRef(log[k].id, log[k].trace) != root && log[k].parent != Active(root) {
      var j :| 0 <= j < k && Descends(log, j, root) && log[j].Started?
               && log[k].parent == Active(SpanRef(log[j].id, log[j].trace));
      DescendantsShareTrace(log, ext, j, root);
    }
  }
}
