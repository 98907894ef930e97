/** One engine's trace listener, as an object updated in place.

    Each receiver is proved to do to this engine's slots what the lock section of the
    notification does to the tables of TaskflowHistory, and to record the same spans. */
module TaskflowListener {
  import opened Spans
  import opened TaskflowHistory
  import opened TaskflowNames
  import Runtime

  type Atom = Runtime.Atom

  /** What the tracer records of a listener. */
  datatype Record = Begun(span: SpanRef, parent: Context) | Over(span: SpanRef, failed: bool)

  /** The span of key `k` in the tables. */
  ghost function SpanOf(s: Tracker, k: Key): Option<SpanRef> {
    if k in s.open && s.open[k] in s.spans then Some(Open([s.open[k]], s.spans[s.open[k]].parent)) else None
  }

  /** What the tracer records for a notification. */
  ghost function Recorded(s: Tracker, n: Notice): seq<Record> {
    if Starts(n).Some? && Starts(n).value !in s.open then
      [Begun(Open([|s.history|], ParentFor(s, n)), ParentFor(s, n))]
    else if Finishes(n).Some? && SpanOf(s, Finishes(n).value).Some? then
      [Over(SpanOf(s, Finishes(n).value).value, Fails(n))]
    else []
  }

  function EndedAs(span: Option<SpanRef>, failed: bool): seq<Record> {
    if span.Some? then [Over(span.value, failed)] else []
  }

  class TraceListener {
    const engine: nat
    const graph: Option<seq<Node<Atom>>>
    var flowSpan: Option<SpanRef>
    var flowContext: Option<Context>
    var atomSpans: map<(string, Method), SpanRef>
    var atomsByName: Option<map<string, Atom>>
    var recorded: seq<Record>

    constructor (engine: nat, graph: Option<seq<Node<Atom>>>)
      ensures this.engine == engine && this.graph == graph && recorded == []
      ensures Cached() && Matches(NOTHING_YET)
    {
      this.engine, this.graph := engine, graph;
      flowSpan, flowContext, atomSpans, atomsByName, recorded := None, None, map[], None, [];
    }

    /** This listener holds what the tables hold for its engine. */
    ghost predicate Matches(s: Tracker)
      reads `flowSpan, `flowContext, `atomSpans
    {
      && flowSpan == SpanOf(s, Flow(engine))
      && flowContext == (if engine in s.flows then Some(s.flows[engine]) else None)
      && (forall u, m :: (u, m) in atomSpans <==> Phase(engine, u, m) in s.open)
      && (forall u, m | (u, m) in atomSpans :: SpanOf(s, Phase(engine, u, m)) == Some(atomSpans[(u, m)]))
    }

    /** The flow's span, if it is open, and else what is current. */
    function ParentNow(ambient: Context): Context
      reads `flowContext
    {
      if flowContext.Some? then flowContext.value else ambient
    }

    /** `key` has a span, and if it had none before, one just begun under `parent`. */
    ghost predicate OpenNow(spans: map<(string, Method), SpanRef>, before: seq<Record>, key: (string, Method),
                            parent: Context)
      reads `atomSpans, `recorded
    {
      && key in atomSpans && atomSpans == spans[key := atomSpans[key]]
      && if key in spans then atomSpans == spans && recorded == before
         else recorded == before + [Begun(atomSpans[key], parent)]
    }

    /** `key` has no span, and if it had one before, that was ended with this mark. */
    ghost predicate ShutNow(spans: map<(string, Method), SpanRef>, before: seq<Record>, key: (string, Method),
                            failed: bool)
      reads `atomSpans, `recorded
    {
      && atomSpans == spans - {key}
      && recorded == before + EndedAs(if key in spans then Some(spans[key]) else None, failed)
    }

    /** The names of the graph are resolved once and kept, as is a miss. */
    ghost predicate Cached()
      reads `atomsByName
    {
      atomsByName.Some? ==> atomsByName.value == if graph.Some? then Names(graph.value) else map[]
    }

    ghost function Resolved(name: string): Option<Atom> {
      if graph.Some? && name in Names(graph.value) then Some(Names(graph.value)[name]) else None
    }

    ghost function Atoms(): set<Atom> {
      if graph.Some? then set n | n in graph.value && n.AtomNode? :: n.atom else {}
    }

    method AtomByName(name: string) returns (atom: Option<Atom>)
      requires Cached()
      modifies `atomsByName
      ensures Cached() && atomsByName.Some?
      ensures atom == Resolved(name)
      ensures forall i: nat | graph.Some? && LastOfName(graph.value, i, name) :: atom == Some(graph.value[i].atom)
      ensures graph.None? || (forall i: nat :: !LastOfName(graph.value, i, name)) ==> atom == None
    {
      if graph.Some? { NamesResolve(graph.value, name); }
      if atomsByName.None? {
        if graph.None? {
          atomsByName := Some(map[]);
        } else {
          var names: map<string, Atom> := map[];
          for i := 0 to |graph.value|
            invariant names == Names(graph.value[..i])
          {
            assert graph.value[..i + 1][..i] == graph.value[..i];
            if graph.value[i].AtomNode? { names := names[graph.value[i].name := graph.value[i].atom]; }
          }
          assert graph.value[..|graph.value|] == graph.value;
          atomsByName := Some(names);
        }
      }
      atom := if name in atomsByName.value then Some(atomsByName.value[name]) else None;
    }

    method FlowReceiver(state: State, ambient: Context, newId: nat, ghost s: Tracker, ghost t: nat)
      requires s in SoundStates() && Matches(s) && newId == |s.history|
      modifies `flowSpan, `flowContext, `recorded
      ensures Matches(Notified(s, t, FlowNotice(engine, state, ambient)))
      ensures recorded == old(recorded) + Recorded(s, FlowNotice(engine, state, ambient))
      ensures state == RUNNING ==> flowSpan.Some? && flowContext == Some(Active(flowSpan.value))
      ensures state == RUNNING && old(flowSpan).None? ==> recorded == old(recorded) + [Begun(flowSpan.value, ambient)]
      ensures state in {SUCCESS, FAILURE, REVERTED, REVERT_FAILURE, SUSPENDED} ==>
                && flowSpan == None && flowContext == None
                && recorded == old(recorded) + EndedAs(old(flowSpan), state in {FAILURE, REVERTED, REVERT_FAILURE})
      ensures state == RUNNING && old(flowSpan).Some? ==> unchanged(this)
      ensures state !in {RUNNING, SUCCESS, FAILURE, REVERTED, REVERT_FAILURE, SUSPENDED} ==> unchanged(this)
    {
      hide SoundStates, Notified, SpanOf;
      TablesPaired(s);
      SlotsAfter(s, t, FlowNotice(engine, state, ambient));
      if state == RUNNING {
        StartFlow(ambient, newId, s, t);
      } else if FlowFinish(state).Some? {
        FinishFlow(state, ambient, s, t);
      }
    }

    method StartFlow(ambient: Context, newId: nat, ghost s: Tracker, ghost t: nat)
      requires s in SoundStates() && Matches(s) && newId == |s.history|
      modifies `flowSpan, `flowContext, `recorded
      ensures Matches(Notified(s, t, FlowNotice(engine, RUNNING, ambient)))
      ensures recorded == old(recorded) + Recorded(s, FlowNotice(engine, RUNNING, ambient))
      ensures flowSpan.Some? && flowContext == Some(Active(flowSpan.value))
      ensures old(flowSpan).None? ==> recorded == old(recorded) + [Begun(flowSpan.value, ambient)]
      ensures old(flowSpan).Some? ==> unchanged(this)
    {
      hide SoundStates, Notified, SpanOf;
      TablesPaired(s);
      SlotsAfter(s, t, FlowNotice(engine, RUNNING, ambient));
      if flowSpan.Some? { return; }
      var span := Open([newId], ambient);
      recorded := recorded + [Begun(span, ambient)];
      flowSpan := Some(span);
      flowContext := Some(Active(span));
    }

    method FinishFlow(state: State, ambient: Context, ghost s: Tracker, ghost t: nat)
      requires s in SoundStates() && Matches(s) && FlowFinish(state).Some?
      modifies `flowSpan, `flowContext, `recorded
      ensures Matches(Notified(s, t, FlowNotice(engine, state, ambient)))
      ensures recorded == old(recorded) + Recorded(s, FlowNotice(engine, state, ambient))
      ensures flowSpan == None && flowContext == None
      ensures recorded == old(recorded) + EndedAs(old(flowSpan), FlowFinish(state).value)
    {
      hide SoundStates, Notified, SpanOf;
      TablesPaired(s);
      SlotsAfter(s, t, FlowNotice(engine, state, ambient));
      var span := flowSpan;
      flowSpan := None;
      flowContext := None;
      if span.None? { return; }
      recorded := recorded + [Over(span.value, FlowFinish(state).value)];
    }

    method AtomReceiver(name: string, uuid: string, state: State, ambient: Context, newId: nat,
                        ghost s: Tracker, ghost t: nat)
      requires s in SoundStates() && Matches(s) && Cached() && newId == |s.history|
      modifies `atomSpans, `atomsByName, `recorded, Atoms()
      ensures Cached() && Matches(Notified(s, t, AtomNotice(engine, uuid, state, ambient)))
      ensures recorded == old(recorded) + Recorded(s, AtomNotice(engine, uuid, state, ambient))
      ensures state == RUNNING ==> OpenNow(old(atomSpans), old(recorded), (uuid, Execute), ParentNow(ambient))
      ensures state == REVERTING ==> OpenNow(old(atomSpans), old(recorded), (uuid, Revert), ParentNow(ambient))
      ensures state == SUCCESS ==> ShutNow(old(atomSpans), old(recorded), (uuid, Execute), false)
      ensures state == FAILURE ==> ShutNow(old(atomSpans), old(recorded), (uuid, Execute), true)
      ensures state == REVERTED ==> ShutNow(old(atomSpans), old(recorded), (uuid, Revert), false)
      ensures state == REVERT_FAILURE ==> ShutNow(old(atomSpans), old(recorded), (uuid, Revert), true)
      ensures state !in {RUNNING, REVERTING, SUCCESS, FAILURE, REVERTED, REVERT_FAILURE} ==> unchanged(this)
      ensures var n := AtomNotice(engine, uuid, state, ambient);
              forall a | a in Atoms() ::
                a.stash == if Starts(n).Some? && Starts(n).value !in s.open && Resolved(name) == Some(a)
                           then Some(ContextOf(newId, ParentFor(s, n))) else old(a.stash)
    {
      hide SoundStates, Notified, SpanOf, OpenNow, ShutNow;
      TablesPaired(s);
      SlotsAfter(s, t, AtomNotice(engine, uuid, state, ambient));
      if AtomStart(state).Some? {
        StartAtom(name, uuid, state, ambient, newId, s, t);
      } else if AtomFinish(state).Some? {
        FinishAtom(uuid, state, ambient, s, t);
      }
    }

    method StartAtom(name: string, uuid: string, state: State, ambient: Context, newId: nat,
                     ghost s: Tracker, ghost t: nat)
      requires s in SoundStates() && Matches(s) && Cached() && newId == |s.history| && AtomStart(state).Some?
      modifies `atomSpans, `atomsByName, `recorded, Atoms()
      ensures Cached() && Matches(Notified(s, t, AtomNotice(engine, uuid, state, ambient)))
      ensures recorded == old(recorded) + Recorded(s, AtomNotice(engine, uuid, state, ambient))
      ensures OpenNow(old(atomSpans), old(recorded), (uuid, AtomStart(state).value), ParentNow(ambient))
      ensures var n := AtomNotice(engine, uuid, state, ambient);
              forall a | a in Atoms() ::
                a.stash == if Starts(n).value !in s.open && Resolved(name) == Some(a)
                           then Some(ContextOf(newId, ParentFor(s, n))) else old(a.stash)
    {
      hide SoundStates, Notified, SpanOf, Recorded;
      var span := NotePhase(uuid, state, ambient, newId, s, t);
      if span.None? { return; }
      var atom := AtomByName(name);
      if graph.Some? { NamesAreAtoms(graph.value); }
      if atom.Some? { atom.value.stash := Some(Active(span.value)); }
    }

    /** The lock section of a start; no span if the phase is open already. */
    method NotePhase(uuid: string, state: State, ambient: Context, newId: nat, ghost s: Tracker, ghost t: nat)
      returns (span: Option<SpanRef>)
      requires s in SoundStates() && Matches(s) && newId == |s.history| && AtomStart(state).Some?
      modifies `atomSpans, `recorded
      ensures Matches(Notified(s, t, AtomNotice(engine, uuid, state, ambient)))
      ensures recorded == old(recorded) + Recorded(s, AtomNotice(engine, uuid, state, ambient))
      ensures OpenNow(old(atomSpans), old(recorded), (uuid, AtomStart(state).value), ParentNow(ambient))
      ensures var n := AtomNotice(engine, uuid, state, ambient);
              span == if Starts(n).value in s.open then None else Some(Open([newId], ParentFor(s, n)))
    {
      hide SoundStates, Notified, SpanOf;
      TablesPaired(s);
      SlotsAfter(s, t, AtomNotice(engine, uuid, state, ambient));
      var key := (uuid, AtomStart(state).value);
      var parent := flowContext;
      if key in atomSpans { return None; }
      var under := if parent.Some? then parent.value else ambient;
      recorded := recorded + [Begun(Open([newId], under), under)];
      atomSpans := atomSpans[key := Open([newId], under)];
      return Some(Open([newId], under));
    }

    method FinishAtom(uuid: string, state: State, ambient: Context, ghost s: Tracker, ghost t: nat)
      requires s in SoundStates() && Matches(s) && AtomFinish(state).Some?
      modifies `atomSpans, `recorded
      ensures Matches(Notified(s, t, AtomNotice(engine, uuid, state, ambient)))
      ensures recorded == old(recorded) + Recorded(s, AtomNotice(engine, uuid, state, ambient))
      ensures ShutNow(old(atomSpans), old(recorded), (uuid, AtomFinish(state).value.0), AtomFinish(state).value.1)
    {
      hide SoundStates, Notified, SpanOf;
      TablesPaired(s);
      SlotsAfter(s, t, AtomNotice(engine, uuid, state, ambient));
      var key := (uuid, AtomFinish(state).value.0);
      if key !in atomSpans { return; }
      var span := atomSpans[key];
      atomSpans := atomSpans - {key};
      recorded := recorded + [Over(span, AtomFinish(state).value.1)];
    }

    /** Another engine's notification does not concern this listener. */
    lemma OtherEngines(s: Tracker, t: nat, n: Notice)
      requires s in SoundStates() && Matches(s) && n.engine != engine
      ensures Matches(Notified(s, t, n))
    {
      hide SoundStates, Notified, SpanOf;
      TablesPaired(s);
      SlotsAfter(s, t, n);
    }
  }

  /** What soundness of the tables means for single slots. */
  lemma TablesPaired(s: Tracker)
    requires s in SoundStates()
    ensures forall k | k in s.open :: s.open[k] in s.spans
    ensures forall k :: k in s.open <==> SpanOf(s, k).Some?
    ensures forall i | i in s.spans :: i < |s.history|
    ensures forall e :: Flow(e) in s.open <==> e in s.flows
    ensures forall e | e in s.flows :: SpanOf(s, Flow(e)).Some? && s.flows[e] == Active(SpanOf(s, Flow(e)).value)
  {
  }

  /** What a lock section does to single slots. */
  lemma SlotAfter(s: Tracker, t: nat, n: Notice, k: Key)
    requires s in SoundStates()
    ensures var d := Notified(s, t, n);
            && (k in d.open <==> SpanOf(d, k).Some?)
            && SpanOf(d, k) == if Starts(n) == Some(k) && k !in s.open then Some(Open([|s.history|], ParentFor(s, n)))
                               else if Finishes(n) == Some(k) then None
                               else SpanOf(s, k)
  {
    hide SoundStates, Notified;
    TablesPaired(s);
    NotifiedParts(s, t, n);
  }

  lemma FlowAfter(s: Tracker, t: nat, n: Notice, e: nat)
    requires s in SoundStates()
    ensures var d := Notified(s, t, n);
            && (e in d.flows <==> SpanOf(d, Flow(e)).Some?)
            && (e in d.flows ==> d.flows[e] == Active(SpanOf(d, Flow(e)).value))
  {
    hide SoundStates;
    TablesPaired(s);
    SlotAfter(s, t, n, Flow(e));
  }

  lemma SlotsAfter(s: Tracker, t: nat, n: Notice)
    requires s in SoundStates()
    ensures var d := Notified(s, t, n);
            && (forall k :: k in d.open <==> SpanOf(d, k).Some?)
            && (forall k :: SpanOf(d, k) ==
                  if Starts(n) == Some(k) && k !in s.open then Some(Open([|s.history|], ParentFor(s, n)))
                  else if Finishes(n) == Some(k) then None
                  else SpanOf(s, k))
            && (forall e :: e in d.flows <==> SpanOf(d, Flow(e)).Some?)
            && (forall e | e in d.flows :: d.flows[e] == Active(SpanOf(d, Flow(e)).value))
  {
    hide SoundStates, Notified, SpanOf;
    forall k { SlotAfter(s, t, n, k); }
    forall e { FlowAfter(s, t, n, e); }
  }
}
