/** oslo.log: the life of the exporting handler and of the record factory, and the stamps
    that the factory puts on records. */
module OsloLog {
  import opened Spans
  import opened Programs
  import opened Scheduler
  import opened Schedules
  import opened Lifetimes
  import opened Traces
  import opened Requests

  // ---- The root logger's handlers --------------------------------------------------------

  datatype Handler = Exporter(serial: nat) | Console | Configured(name: nat)

  /** `Logger.addHandler` */
  function Added(handlers: seq<Handler>, h: Handler): seq<Handler> {
    if h in handlers then handlers else handlers + [h]
  }

  /** `Logger.removeHandler` */
  function Removed(handlers: seq<Handler>, h: Handler): seq<Handler> {
    if handlers == [] then []
    else if handlers[0] == h then handlers[1..]
    else [handlers[0]] + Removed(handlers[1..], h)
  }

  /** What oslo.log's `setup` leaves on the root logger. */
  function Rebuilt(names: seq<nat>): seq<Handler> {
    if names == [] then [] else Added(Rebuilt(names[..|names| - 1]), Configured(names[|names| - 1]))
  }

  function Times(handlers: seq<Handler>, h: Handler): nat {
    if handlers == [] then 0 else (if handlers[0] == h then 1 else 0) + Times(handlers[1..], h)
  }

  /** The handlers that are not ours. */
  function Foreigners(handlers: seq<Handler>): seq<Handler> {
    if handlers == [] then []
    else (if handlers[0].Exporter? then [] else [handlers[0]]) + Foreigners(handlers[1..])
  }

  lemma {:induction false} Appended(handlers: seq<Handler>, h: Handler, k: Handler)
    ensures Times(handlers + [h], k) == Times(handlers, k) + if h == k then 1 else 0
    ensures Foreigners(handlers + [h]) == Foreigners(handlers) + if h.Exporter? then [] else [h]
  {
    var all := handlers + [h];
    if handlers == [] {
      assert all == [h] && all[1..] == [] && Times([], k) == 0 && Foreigners([]) == [];
    } else {
      assert all[0] == handlers[0] && all[1..] == handlers[1..] + [h];
      Appended(handlers[1..], h, k);
      hide Times, Foreigners;
      FirstHandler(all, k);
      FirstHandler(handlers, k);
    }
  }

  lemma FirstHandler(handlers: seq<Handler>, k: Handler)
    requires handlers != []
    ensures Times(handlers, k) == (if handlers[0] == k then 1 else 0) + Times(handlers[1..], k)
    ensures Foreigners(handlers) == (if handlers[0].Exporter? then [] else [handlers[0]]) + Foreigners(handlers[1..])
  {
  }

  lemma {:induction false} Present(handlers: seq<Handler>, h: Handler)
    ensures h in handlers <==> Times(handlers, h) > 0
    ensures !h.Exporter? ==> (h in handlers <==> h in Foreigners(handlers))
  {
    if handlers != [] { Present(handlers[1..], h); }
  }

  lemma {:induction false} Dropped(handlers: seq<Handler>, h: Handler, k: Handler)
    ensures Times(Removed(handlers, h), k) == Times(handlers, k) - if h == k && h in handlers then 1 else 0
    ensures h.Exporter? ==> Foreigners(Removed(handlers, h)) == Foreigners(handlers)
  {
    if handlers != [] {
      Present(handlers, h);
      if handlers[0] != h {
        assert ([handlers[0]] + Removed(handlers[1..], h))[1..] == Removed(handlers[1..], h);
        Dropped(handlers[1..], h, k);
      }
    }
  }

  lemma {:induction false} RebuiltForeign(names: seq<nat>, k: Handler)
    ensures Foreigners(Rebuilt(names)) == Rebuilt(names)
    ensures k.Exporter? ==> Times(Rebuilt(names), k) == 0
  {
    if names != [] {
      RebuiltForeign(names[..|names| - 1], k);
      Appended(Rebuilt(names[..|names| - 1]), Configured(names[|names| - 1]), k);
    }
  }

  /** After `setup` the application's handlers are the configured ones, each once. */
  lemma {:induction false} RebuiltHas(names: seq<nat>, h: Handler)
    ensures h in Rebuilt(names) <==> h.Configured? && h.name in names
    ensures Times(Rebuilt(names), h) <= 1
  {
    if names != [] {
      var n := |names| - 1;
      RebuiltHas(names[..n], h);
      assert names == names[..n] + [names[n]];
      Present(Rebuilt(names[..n]), h);
      Appended(Rebuilt(names[..n]), Configured(names[n]), h);
    }
  }

  // ---- What a sequence of operations should leave behind ---------------------------------

  datatype Factory = Original | Replacement(at: nat) | Stamping(inner: Factory)

  /** `Setup` drops every handler, adds those named, and may raise after that.  `AddHandler`
      and `SetFactory` are the application's; `SetFactory` at position `i` of a sequence
      installs `Replacement(i)`. */
  datatype Op =
    | Instrument(format: bool)
    | Uninstrument
    | Setup(names: seq<nat>, raises: bool)
    | AddHandler(name: nat)
    | SetFactory

  function Init(ops: seq<Op>): seq<Op>
    requires ops != []
  {
    ops[..|ops| - 1]
  }

  function Last(ops: seq<Op>): Op
    requires ops != []
  {
    ops[|ops| - 1]
  }

  /** Instrumented after `ops`. */
  predicate On(ops: seq<Op>) {
    ops != [] && if Last(ops).Instrument? then true else !Last(ops).Uninstrument? && On(Init(ops))
  }

  /** Instrumented is what the last instrumenting or uninstrumenting operation decides. */
  lemma {:induction false} OnIff(ops: seq<Op>)
    ensures On(ops) <==>
              exists i :: 0 <= i < |ops| && ops[i].Instrument? && forall k | i < k < |ops| :: !ops[k].Uninstrument?
  {
    if ops != [] {
      var n := |ops| - 1;
      OnIff(Init(ops));
      if On(Init(ops)) && !ops[n].Uninstrument? {
        var i :| 0 <= i < n && Init(ops)[i].Instrument? && forall k | i < k < n :: !Init(ops)[k].Uninstrument?;
        assert ops[i].Instrument? && forall k | i < k < |ops| :: k < n ==> ops[k] == Init(ops)[k];
      }
      if i :| 0 <= i < n && ops[i].Instrument? && forall k | i < k < |ops| :: !ops[k].Uninstrument? {
        assert Init(ops)[i].Instrument? && forall k | i < k < n :: Init(ops)[k] == ops[k];
      }
    }
  }

  /** The handlers the application would have without this instrumentation, except for the
      console handler that `basicConfig` adds to a bare root logger. */
  function OwnHandlers(ops: seq<Op>): seq<Handler> {
    if ops == [] then []
    else
      var before := OwnHandlers(Init(ops));
      match Last(ops)
      case Instrument(format) => if format && !On(Init(ops)) && before == [] then [Console] else before
      case Setup(names, _) => Rebuilt(names)
      case AddHandler(name) => Added(before, Configured(name))
      case _ => before
  }

  /** The last `setup` since the instrumentation went on raised. */
  predicate Interrupted(ops: seq<Op>) {
    ops != [] && On(ops) && On(Init(ops)) &&
    if Last(ops).Setup? then Last(ops).raises else Interrupted(Init(ops))
  }

  /** That is: a `setup` raised while instrumented, and since then no other `setup` was called
      and the instrumentation was not taken off. */
  lemma {:induction false} InterruptedIff(ops: seq<Op>)
    ensures Interrupted(ops) <==>
              exists i :: 0 <= i < |ops| && ops[i].Setup? && ops[i].raises && On(ops[..i])
                          && forall k | i < k < |ops| :: !ops[k].Setup? && !ops[k].Uninstrument?
  {
    if ops != [] {
      var n := |ops| - 1;
      var before := Init(ops);
      InterruptedIff(before);
      if Interrupted(ops) {
        if !ops[n].Setup? {
          var i :| 0 <= i < n && before[i].Setup? && before[i].raises && On(before[..i])
                   && forall k | i < k < n :: !before[k].Setup? && !before[k].Uninstrument?;
          assert ops[..i] == before[..i] && ops[i] == before[i];
          assert forall k | i < k < n :: ops[k] == before[k];
        }
      }
      if i :| 0 <= i < |ops| && ops[i].Setup? && ops[i].raises && On(ops[..i])
              && forall k | i < k < |ops| :: !ops[k].Setup? && !ops[k].Uninstrument?
      {
        StaysOn(ops, i);
        if i < n {
          assert before[..i] == ops[..i] && before[i] == ops[i];
          assert forall k | i < k < n :: before[k] == ops[k];
          StaysOn(before, i);
        }
      }
    }
  }

  lemma {:induction false} StaysOn(ops: seq<Op>, i: nat)
    requires i <= |ops| && On(ops[..i]) && forall k | i <= k < |ops| :: !ops[k].Uninstrument?
    ensures On(ops)
    decreases |ops|
  {
    if i < |ops| {
      assert Init(ops)[..i] == ops[..i];
      StaysOn(Init(ops), i);
    } else {
      assert ops[..i] == ops;
    }
  }

  /** The last factory that the application installed while not instrumented. */
  function OwnFactory(ops: seq<Op>): Factory {
    if ops == [] then Original
    else if Last(ops).SetFactory? && !On(Init(ops)) then Replacement(|ops| - 1)
    else OwnFactory(Init(ops))
  }

  /** The application installed a factory during the instrumentation that is still on. */
  predicate Overridden(ops: seq<Op>) {
    ops != [] && On(ops) && On(Init(ops)) && (Last(ops).SetFactory? || Overridden(Init(ops)))
  }

  lemma {:induction false} OwnFactoryIff(ops: seq<Op>, i: nat)
    ensures OwnFactory(ops) == Replacement(i) <==>
              i < |ops| && ops[i].SetFactory? && !On(ops[..i])
              && forall k | i < k < |ops| && ops[k].SetFactory? :: On(ops[..k])
  {
    if ops != [] {
      var n := |ops| - 1;
      OwnFactoryIff(Init(ops), i);
      assert ops[..n] == Init(ops);
      assert forall k | 0 <= k < n :: Init(ops)[k] == ops[k] && Init(ops)[..k] == ops[..k];
    }
  }

  /** The last factory that the application installed at all. */
  function NewestFactory(ops: seq<Op>): Factory {
    if ops == [] then Original
    else if Last(ops).SetFactory? then Replacement(|ops| - 1)
    else NewestFactory(Init(ops))
  }

  /** No factory was installed during an instrumentation, or a later one was outside. */
  predicate NewestOutside(ops: seq<Op>) {
    ops == [] || if Last(ops).SetFactory? then !On(Init(ops)) else NewestOutside(Init(ops))
  }

  lemma FactoriesBounded(ops: seq<Op>)
    ensures OwnFactory(ops).Original? || (OwnFactory(ops).Replacement? && OwnFactory(ops).at < |ops|)
  {
  }

  /** Taking the instrumentation off keeps the application's newest factory exactly when
      it was installed outside: one installed during an instrumentation is lost. */
  lemma {:induction false} NewestKeptIff(ops: seq<Op>)
    ensures OwnFactory(ops) == NewestFactory(ops) <==> NewestOutside(ops)
  {
    if ops != [] {
      FactoriesBounded(Init(ops));
      NewestKeptIff(Init(ops));
    }
  }

  /** One such run. */
  lemma FactoryLost()
    ensures var ops := [Instrument(false), SetFactory, Uninstrument];
            !On(ops) && NewestFactory(ops) == Replacement(1) && OwnFactory(ops) == Original
  {
    var ops := [Instrument(false), SetFactory, Uninstrument];
    assert Init(ops) == [Instrument(false), SetFactory];
    assert Init(Init(ops)) == [Instrument(false)];
  }

  class OsloLogInstrumentor {
    var instrumented: bool
    var handler: Option<Handler>
    var oldFactory: Option<Factory>
    var setupWrapped: bool
    var made: nat
    var rootHandlers: seq<Handler>
    var factory: Factory

    constructor ()
      ensures After([])
    {
      instrumented, handler, oldFactory, setupWrapped, made := false, None, None, false, 0;
      rootHandlers, factory := [], Original;
    }

    /** No exporter is on the root logger but the current one, `times` times. */
    ghost predicate OnlyCurrent(times: nat)
      reads this
    {
      && (handler.Some? ==> handler.value.Exporter? && handler.value.serial < made)
      && forall n: nat :: Times(rootHandlers, Exporter(n)) == if handler == Some(Exporter(n)) then times else 0
    }

    /** The state that the operations `ops` should leave. */
    ghost predicate After(ops: seq<Op>)
      reads this
    {
      && instrumented == On(ops) == handler.Some? == oldFactory.Some? == setupWrapped
      && OnlyCurrent(if Interrupted(ops) then 0 else 1)
      && Foreigners(rootHandlers) == OwnHandlers(ops)
      && (instrumented ==> oldFactory == Some(OwnFactory(ops)))
      && (if !instrumented then factory == OwnFactory(ops)
          else if Overridden(ops) then factory.Replacement?
          else factory == Stamping(OwnFactory(ops)))
    }

    /** Records are exported exactly while instrumented and not interrupted. */
    lemma ExportsIff(ops: seq<Op>)
      requires After(ops)
      ensures (exists n: nat :: Exporter(n) in rootHandlers) <==> On(ops) && !Interrupted(ops)
    {
      forall n: nat ensures Exporter(n) in rootHandlers <==> Times(rootHandlers, Exporter(n)) > 0 {
        Present(rootHandlers, Exporter(n));
      }
      if On(ops) && !Interrupted(ops) { assert handler == Some(Exporter(handler.value.serial)); }
    }

    /** After a `setup` that raises, nothing is exported, though instrumented. */
    lemma ExportLost()
      ensures var ops := [Instrument(false), Setup([], true)];
              On(ops) && (After(ops) ==> forall n: nat :: Exporter(n) !in rootHandlers)
    {
      var ops := [Instrument(false), Setup([], true)];
      assert Init(ops) == [Instrument(false)] && Interrupted(ops);
      if After(ops) { ExportsIff(ops); }
    }

    method AttachHandler()
      requires OnlyCurrent(0) || OnlyCurrent(1)
      modifies `rootHandlers
      ensures OnlyCurrent(1)
      ensures Foreigners(rootHandlers) == old(Foreigners(rootHandlers))
    {
      if handler.Some? {
        Present(rootHandlers, handler.value);
        if handler.value !in rootHandlers {
          forall k { Appended(rootHandlers, handler.value, k); }
          rootHandlers := rootHandlers + [handler.value];
        }
      }
    }

    method DoInstrument(format: bool, ghost ops: seq<Op>)
      requires After(ops)
      modifies this
      ensures After(ops + [Instrument(format)])
      ensures !old(instrumented) && format && old(rootHandlers) == [] ==> Console in rootHandlers
      ensures !(!old(instrumented) && format && old(rootHandlers) == []) ==>
                Foreigners(rootHandlers) == old(Foreigners(rootHandlers))
      ensures !old(instrumented) ==> exists n: nat :: Exporter(n) in rootHandlers
    {
      assert Init(ops + [Instrument(format)]) == ops;
      if instrumented { return; }
      NoExporter();
      if format && rootHandlers == [] { rootHandlers := [Console]; }
      oldFactory := Some(factory);
      factory := Stamping(factory);
      handler := Some(Exporter(made));
      made := made + 1;
      assert OnlyCurrent(0);
      AttachHandler();
      Present(rootHandlers, handler.value);
      Present(rootHandlers, Console);
      setupWrapped := true;
      instrumented := true;
    }

    lemma NoExporter()
      requires OnlyCurrent(1) && handler.None?
      ensures Foreigners(rootHandlers) == rootHandlers
    {
      forall n: nat ensures Exporter(n) !in rootHandlers { Present(rootHandlers, Exporter(n)); }
      AllForeign(rootHandlers);
    }

    static lemma {:induction false} AllForeign(handlers: seq<Handler>)
      requires forall n: nat :: Exporter(n) !in handlers
      ensures Foreigners(handlers) == handlers
    {
      if handlers != [] {
        assert handlers[0] in handlers && !handlers[0].Exporter?;
        AllForeign(handlers[1..]);
      }
    }

    method DoUninstrument(ghost ops: seq<Op>)
      requires After(ops)
      modifies this
      ensures After(ops + [Uninstrument])
    {
      assert Init(ops + [Uninstrument]) == ops;
      if !instrumented { return; }
      if oldFactory.Some? {
        factory := oldFactory.value;
        oldFactory := None;
      }
      setupWrapped := false;
      if handler.Some? {
        forall k { Dropped(rootHandlers, handler.value, k); }
        Present(rootHandlers, handler.value);
        rootHandlers := Removed(rootHandlers, handler.value);
        handler := None;
      }
      instrumented := false;
    }

    /** oslo.log's `setup`, guarded while instrumented. */
    method DoSetup(names: seq<nat>, raises: bool, ghost ops: seq<Op>)
      requires After(ops)
      modifies this
      ensures After(ops + [Setup(names, raises)])
    {
      hide Times, Foreigners, Rebuilt;
      assert Init(ops + [Setup(names, raises)]) == ops;
      RebuiltForeign(names, Console);
      forall k { RebuiltForeign(names, k); }
      rootHandlers := Rebuilt(names);
      if setupWrapped && !raises {
        assert OnlyCurrent(0);
        AttachHandler();
      }
    }

    method DoAddHandler(name: nat, ghost ops: seq<Op>)
      requires After(ops)
      modifies this
      ensures After(ops + [AddHandler(name)])
    {
      assert Init(ops + [AddHandler(name)]) == ops;
      Present(rootHandlers, Configured(name));
      forall k { Appended(rootHandlers, Configured(name), k); }
      rootHandlers := Added(rootHandlers, Configured(name));
    }

    method DoSetFactory(ghost ops: seq<Op>, at: nat)
      requires After(ops) && at == |ops|
      modifies this
      ensures After(ops + [SetFactory])
    {
      assert Init(ops + [SetFactory]) == ops;
      factory := Replacement(at);
    }

    /** After any sequence of operations from a fresh start: the exporter is on the root
        logger exactly once while instrumented, unless the last `setup` raised, and none is
        otherwise; the application's
        handlers are what they would be anyway; and the factory is the application's own
        whenever not instrumented. */
    method Run(ops: seq<Op>)
      requires After([])
      modifies this
      ensures After(ops)
    {
      for i := 0 to |ops|
        invariant After(ops[..i])
      {
        assert ops[..i + 1] == ops[..i] + [ops[i]];
        match ops[i]
        case Instrument(format) => DoInstrument(format, ops[..i]);
        case Uninstrument => DoUninstrument(ops[..i]);
        case Setup(names, raises) => DoSetup(names, raises, ops[..i]);
        case AddHandler(name) => DoAddHandler(name, ops[..i]);
        case SetFactory => DoSetFactory(ops[..i], i);
      }
      assert ops[..|ops|] == ops;
    }
  }

  // ---- Stamps on records -------------------------------------------------------------------

  /** `None` is the "0" of a record made outside any span. */
  datatype Record = Record(serviceName: string, traceId: Option<Path>, spanId: Option<Path>)

  const SERVICE_NAME := "service.name"

  /** The provider's service name at the moment; empty if there is none. */
  function Resolve(resource: Option<map<string, string>>): string {
    if resource.Some? && SERVICE_NAME in resource.value then resource.value[SERVICE_NAME] else ""
  }

  function Stamped(serviceName: string, current: Context): Record {
    if current.Active? then Record(serviceName, Some(current.span.trace), Some(current.span.id))
    else Record(serviceName, None, None)
  }

  /** What a record is made in: the provider's resource, the current context, and whether
      the log hook, if there is one, raises. */
  datatype Moment = Moment(resource: Option<map<string, string>>, current: Context, hookRaises: Option<bool>)

  class RecordFactory {
    var serviceName: Option<string>
    var hookCalls: nat

    constructor ()
      ensures serviceName == None && hookCalls == 0
    {
      serviceName, hookCalls := None, 0;
    }

    method ResolveServiceName(resource: Option<map<string, string>>) returns (name: string)
      modifies `serviceName
      ensures serviceName == Some(name)
      ensures name == if old(serviceName).Some? then old(serviceName).value else Resolve(resource)
    {
      if serviceName.None? { serviceName := Some(Resolve(resource)); }
      name := serviceName.value;
    }

    method MakeRecord(m: Moment) returns (record: Record)
      modifies this
      ensures serviceName == Some(record.serviceName)
      ensures old(serviceName).Some? ==> serviceName == old(serviceName)
      ensures old(serviceName).None? ==> record.serviceName == Resolve(m.resource)
      ensures record == Stamped(record.serviceName, m.current)
      ensures m.current.Active? ==>
                record.traceId == Some(m.current.span.trace) && record.spanId == Some(m.current.span.id)
      ensures m.current.Empty? ==> record.traceId == None && record.spanId == None
      ensures hookCalls == old(hookCalls) + if m.current.Active? && m.hookRaises.Some? then 1 else 0
    {
      var name := ResolveServiceName(m.resource);
      record := Record(name, None, None);
      if m.current.Active? {
        record := record.(spanId := Some(m.current.span.id), traceId := Some(m.current.span.trace));
        if m.hookRaises.Some? { hookCalls := hookCalls + 1; }
      }
    }

    /** Every record of one installation carries the service name that the first resolved,
        whatever the provider says later, and the span current when it was made. */
    method MakeRecords(moments: seq<Moment>) returns (records: seq<Record>)
      requires serviceName == None
      modifies this
      ensures |records| == |moments|
      ensures forall i | 0 <= i < |moments| ::
                records[i] == Stamped(Resolve(moments[0].resource), moments[i].current)
      ensures forall i | 0 <= i < |moments| ::
                && records[i].serviceName == (match moments[0].resource
                                              case None => ""
                                              case Some(attributes) =>
                                                if "service.name" in attributes then attributes["service.name"] else "")
                && (moments[i].current.Active? ==>
                      && records[i].traceId == Some(moments[i].current.span.trace)
                      && records[i].spanId == Some(moments[i].current.span.id))
                && (moments[i].current.Empty? ==> records[i].traceId == None && records[i].spanId == None)
    {
      records := [];
      for i := 0 to |moments|
        invariant |records| == i
        invariant serviceName == if i == 0 then None else Some(Resolve(moments[0].resource))
        invariant forall j | 0 <= j < i :: records[j] == Stamped(Resolve(moments[0].resource), moments[j].current)
      {
        var record := MakeRecord(moments[i]);
        records := records + [record];
      }
    }
  }

  /** At any point of any run, when a worker hands off a callable: under any schedule from
      there, on any workers and beside any other work, every record made in the callable, and
      in whatever it hands off in turn, is stamped with the trace current at the hand-off. */
  lemma {:induction false} HandedOffRecordsCorrelated(c: Config, before: seq<Move>, after: seq<Move>, i: nat, b: Prog,
                                                      web: bool, e: Event, serviceName: string)
    requires Fresh(c) && Distinct(c.pool) && Feasible(c, before) && Feasible(After(c, before), after)
    requires var d := After(c, before);
             && i < |d.workers| && d.workers[i].stack.Push? && d.workers[i].stack.top.Run?
             && d.workers[i].stack.top.prog == Spawn(true, b) && d.workers[i].current.Active?
    requires var t := After(c, before).workers[i].current.span.trace; Keeps(b, Some(t), web) && Reachable(c, t, web)
    requires e in After(After(c, before), after).log && e.Logged?
    requires After(c, before).workers[i].stack.top.path + [0] <= e.id
    ensures Stamped(serviceName, e.stamp).traceId == Some(After(c, before).workers[i].current.span.trace)
  {
    var w := After(c, before).workers[i];
    RunningStays(c, before, after, i, w.current.span.trace, web);
    assert w.stack.top.path <= w.stack.top.path + [0] <= e.id;
    assert InTrace(e, w.current.span.trace);
  }
}
