/** From the engine thread to the thread that runs the body: the context of an atom's span
    travels as an attribute of the atom, which the engine's listener finds by its name.

    Atoms of any number of engines go through their phases in any interleaving; each phase
    goes start notification, body, finish notification.  After the lock section of a start
    the notifying thread still has to leave the context on the atom; other atoms' steps may
    come in between. */
module TaskflowHandoff {
  import opened Spans
  import opened TaskflowHistory
  import opened TaskflowNames
  import opened Programs
  import opened Traces

  datatype AtomInfo = AtomInfo(engine: nat, uuid: string, name: string)

  /** The atoms, and the compiled graph of each engine that has one; its nodes say which atom
      object they are. */
  datatype World = World(atoms: seq<AtomInfo>, graphs: map<nat, seq<Node<nat>>>)

  /** The atom that the listener finds under the name of atom `a`. */
  function Found(w: World, a: nat): Option<nat>
    requires a < |w.atoms|
  {
    var info := w.atoms[a];
    if info.engine in w.graphs && info.name in Names(w.graphs[info.engine])
    then Some(Names(w.graphs[info.engine])[info.name]) else None
  }

  /** Graphs are made of their engine's atoms, under their own names. */
  ghost predicate WellNamed(w: World) {
    forall e | e in w.graphs :: forall n | n in w.graphs[e] && n.AtomNode? ::
      n.atom < |w.atoms| && w.atoms[n.atom].engine == e && w.atoms[n.atom].name == n.name
  }

  /** No name leads to an atom other than the one that has it. */
  ghost predicate OwnNames(w: World) {
    forall a: nat | a < |w.atoms| :: Found(w, a) == None || Found(w, a) == Some(a)
  }

  predicate Known(w: World, a: nat)
    requires a < |w.atoms|
  {
    Found(w, a) == Some(a)
  }

  /** How far an atom's current phase has come; `at` is its start notification. */
  datatype Progress =
    | Idle
    | Noted(call: Method, at: nat)      // lock section done, context not yet on the atom
    | Handed(call: Method, at: nat)     // body may run
    | Running(call: Method, at: nat)
    | Ran(call: Method, at: nat)

  /** A body that began, and the span whose context it found on its atom. */
  datatype Beginning = Beginning(atom: nat, call: Method, at: nat, seen: Option<nat>)

  datatype System = System(
    core: Tracker,
    stash: map<nat, nat>,
    progress: seq<Progress>,
    latest: map<nat, nat>,       // start of each atom's most recent phase
    elsewhere: set<nat>,         // atoms whose most recent body ran in another process
    begun: seq<Beginning>)

  datatype Act =
    | FlowState(thread: nat, engine: nat, state: State, ambient: Context)
    | Start(thread: nat, atom: nat, call: Method, ambient: Context)
    | HandOver(atom: nat)
    | Body(atom: nat)
    | BodyElsewhere(atom: nat)
    | BodyDone(atom: nat)
    | Finish(thread: nat, atom: nat, state: State, ambient: Context)
    | EndSpan(thread: nat)

  function StartState(call: Method): State { match call case Execute => RUNNING case Revert => REVERTING }

  function KeyOf(a: AtomInfo, call: Method): Key { Phase(a.engine, a.uuid, call) }

  predicate Allowed(w: World, s: System, act: Act)
    requires |s.progress| == |w.atoms|
  {
    match act
    case FlowState(t, _, _, _) => t !in s.core.held
    case Start(t, a, _, _) => t !in s.core.held && a < |w.atoms| && s.progress[a].Idle?
    case HandOver(a) => a < |w.atoms| && s.progress[a].Noted?
    case Body(a) => a < |w.atoms| && s.progress[a].Handed?
    case BodyElsewhere(a) => a < |w.atoms| && s.progress[a].Handed?
    case BodyDone(a) => a < |w.atoms| && s.progress[a].Running?
    case Finish(t, a, state, _) =>
      && t !in s.core.held && a < |w.atoms| && s.progress[a].Ran?
      && AtomFinish(state).Some? && AtomFinish(state).value.0 == s.progress[a].call
    case EndSpan(t) => t in s.core.held
  }

  function Perform(w: World, s: System, act: Act): System
    requires |s.progress| == |w.atoms| && Allowed(w, s, act)
  {
    match act
    case FlowState(t, e, state, ambient) => s.(core := Notified(s.core, t, FlowNotice(e, state, ambient)))
    case Start(t, a, call, ambient) =>
      var at := |s.core.history|;
      var n := AtomNotice(w.atoms[a].engine, w.atoms[a].uuid, StartState(call), ambient);
      // a start that the listener ignores returns before it touches the atom
      var next := if KeyOf(w.atoms[a], call) in s.core.open then Handed(call, at) else Noted(call, at);
      s.(core := Notified(s.core, t, n), progress := s.progress[a := next], latest := s.latest[a := at])
    case HandOver(a) =>
      s.(stash := if Found(w, a).Some? then s.stash[Found(w, a).value := s.progress[a].at] else s.stash,
         progress := s.progress[a := Handed(s.progress[a].call, s.progress[a].at)])
    case Body(a) =>
      s.(stash := s.stash - {a},
         progress := s.progress[a := Running(s.progress[a].call, s.progress[a].at)],
         elsewhere := s.elsewhere - {a},
         begun := s.begun + [Beginning(a, s.progress[a].call, s.progress[a].at,
                                       if a in s.stash then Some(s.stash[a]) else None)])
    case BodyElsewhere(a) =>
      s.(progress := s.progress[a := Ran(s.progress[a].call, s.progress[a].at)], elsewhere := s.elsewhere + {a})
    case BodyDone(a) => s.(progress := s.progress[a := Ran(s.progress[a].call, s.progress[a].at)])
    case Finish(t, a, state, ambient) =>
      s.(core := Notified(s.core, t, AtomNotice(w.atoms[a].engine, w.atoms[a].uuid, state, ambient)),
         progress := s.progress[a := Idle])
    case EndSpan(t) => s.(core := Released(s.core, t))
  }

  /** Atoms are told apart by engine and uuid. */
  ghost predicate DistinctAtoms(w: World) {
    forall a, b | 0 <= a < b < |w.atoms| :: w.atoms[a].engine != w.atoms[b].engine || w.atoms[a].uuid != w.atoms[b].uuid
  }

  /** The phase under way is open under its own key, and no other phase of the atom is. */
  ghost predicate PhaseOpen(a: AtomInfo, p: Progress, open: map<Key, nat>) {
    && (forall m | KeyOf(a, m) in open :: !p.Idle? && m == p.call && open[KeyOf(a, m)] == p.at)
    && (!p.Idle? ==> KeyOf(a, p.call) in open)
  }

  /** What the atom carries belongs to its most recent start, unless the listener has not
      got round to replacing it; it carries something exactly when it should. */
  ghost predicate StashRight(w: World, a: nat, s: System)
    requires a < |w.atoms| && a < |s.progress|
  {
    match s.progress[a]
    case Handed(_, at) => if Known(w, a) then a in s.stash && s.stash[a] == at else a !in s.stash
    case Noted(_, _) => a in s.stash <==> Known(w, a) && a in s.elsewhere
    case Running(_, _) => a !in s.stash && a !in s.elsewhere
    case _ =>
      && (a in s.stash <==> Known(w, a) && a in s.elsewhere)
      && (a in s.stash ==> a in s.latest && s.stash[a] == s.latest[a])
  }

  /** Whatever an atom carries is a span of that atom. */
  ghost predicate StashOwn(w: World, a: nat, s: System)
    requires a < |w.atoms|
  {
    a in s.stash ==> s.stash[a] in s.core.spans && exists m :: s.core.spans[s.stash[a]].key == KeyOf(w.atoms[a], m)
  }

  ghost predicate AtomRight(w: World, a: nat, s: System)
    requires a < |w.atoms| && a < |s.progress|
  {
    && PhaseOpen(w.atoms[a], s.progress[a], s.core.open)
    && (!s.progress[a].Idle? ==> a in s.latest && s.latest[a] == s.progress[a].at)
    && StashRight(w, a, s)
    && StashOwn(w, a, s)
  }

  ghost predicate BeganRight(w: World, spans: map<nat, Opening>, b: Beginning) {
    && b.atom < |w.atoms| && b.at in spans && spans[b.at].key == KeyOf(w.atoms[b.atom], b.call)
    && b.seen == if Known(w, b.atom) then Some(b.at) else None
  }

  ghost predicate Handover(w: World, s: System) {
    && |s.progress| == |w.atoms|
    && s.core in SoundStates()
    && (forall a | 0 <= a < |w.atoms| :: AtomRight(w, a, s))
    && (forall j | 0 <= j < |s.begun| :: BeganRight(w, s.core.spans, s.begun[j]))
  }

  ghost function Handovers(w: World): iset<System> { iset s: System | Handover(w, s) }

  ghost predicate Grows(spans: map<nat, Opening>, spans': map<nat, Opening>) {
    forall i | i in spans :: i in spans' && spans'[i] == spans[i]
  }

  /** Nothing that concerns atom `b` differs between `s` and `d`. */
  ghost predicate SameFor(w: World, b: nat, s: System, d: System)
    requires b < |w.atoms| && b < |s.progress| && b < |d.progress|
  {
    && d.progress[b] == s.progress[b]
    && (b in d.stash <==> b in s.stash) && (b in s.stash ==> d.stash[b] == s.stash[b])
    && (b in d.latest <==> b in s.latest) && (b in s.latest ==> d.latest[b] == s.latest[b])
    && (b in d.elsewhere <==> b in s.elsewhere)
    && (forall m :: KeyOf(w.atoms[b], m) in d.core.open <==> KeyOf(w.atoms[b], m) in s.core.open)
    && (forall m | KeyOf(w.atoms[b], m) in s.core.open ::
          d.core.open[KeyOf(w.atoms[b], m)] == s.core.open[KeyOf(w.atoms[b], m)])
  }

  lemma AtomFrame(w: World, b: nat, s: System, d: System)
    requires b < |w.atoms| && b < |s.progress| && b < |d.progress| && AtomRight(w, b, s)
    requires SameFor(w, b, s, d) && Grows(s.core.spans, d.core.spans)
    ensures AtomRight(w, b, d)
  {
    if b in s.stash {
      var m :| s.core.spans[s.stash[b]].key == KeyOf(w.atoms[b], m);
      assert d.core.spans[d.stash[b]].key == KeyOf(w.atoms[b], m);
    }
  }

  lemma BegunFrame(w: World, s: System, d: System)
    requires Grows(s.core.spans, d.core.spans) && d.begun == s.begun
    requires forall j | 0 <= j < |s.begun| :: BeganRight(w, s.core.spans, s.begun[j])
    ensures forall j | 0 <= j < |d.begun| :: BeganRight(w, d.core.spans, d.begun[j])
  {
    forall j | 0 <= j < |d.begun| ensures BeganRight(w, d.core.spans, d.begun[j]) {
      assert BeganRight(w, s.core.spans, s.begun[j]);
    }
  }

  lemma SpansLogged(s: Tracker)
    requires s in SoundStates()
    ensures forall i | i in s.spans :: i < |s.history|
  {
  }

  /** A lock section adds spans and changes none. */
  lemma SpansGrow(s: Tracker, t: nat, n: Notice)
    requires s in SoundStates()
    ensures Grows(s.spans, Notified(s, t, n).spans)
  {
    hide Notified, Bracketed, Parented;
    NotifiedParts(s, t, n);
    SpansLogged(s);
  }

  /** A step that concerns at most atom `a`. */
  lemma OneAtomMoves(w: World, s: System, d: System, a: nat)
    requires s in Handovers(w) && d.core in SoundStates() && |d.progress| == |w.atoms|
    requires Grows(s.core.spans, d.core.spans) && d.begun == s.begun
    requires forall b | 0 <= b < |w.atoms| && b != a :: SameFor(w, b, s, d)
    requires a < |w.atoms| ==> AtomRight(w, a, d)
    ensures d in Handovers(w)
  {
    hide SoundStates;
    forall b | 0 <= b < |w.atoms| && b != a { AtomFrame(w, b, s, d); }
    BegunFrame(w, s, d);
  }

  lemma OtherKeys(w: World, a: nat, b: nat, m: Method, call: Method)
    requires DistinctAtoms(w) && a < |w.atoms| && b < |w.atoms| && a != b
    ensures KeyOf(w.atoms[b], m) != KeyOf(w.atoms[a], call)
  {
  }

  lemma StartKeeps(w: World, s: System, t: nat, a: nat, call: Method, ambient: Context)
    requires DistinctAtoms(w) && s in Handovers(w) && Allowed(w, s, Start(t, a, call, ambient))
    ensures Perform(w, s, Start(t, a, call, ambient)) in Handovers(w)
  {
    hide SoundStates;
    var n := AtomNotice(w.atoms[a].engine, w.atoms[a].uuid, StartState(call), ambient);
    var key := KeyOf(w.atoms[a], call);
    var d := Perform(w, s, Start(t, a, call, ambient));
    StepSound(s.core, Notify(t, n));
    SpansGrow(s.core, t, n);
    assert AtomRight(w, a, s);
    assert Starts(n) == Some(key) && d.core == Began(s.core, n, key);
    forall b, m | 0 <= b < |w.atoms| && b != a { OtherKeys(w, a, b, m, call); }
    OneAtomMoves(w, s, d, a);
  }

  lemma FinishKeeps(w: World, s: System, t: nat, a: nat, state: State, ambient: Context)
    requires DistinctAtoms(w) && s in Handovers(w) && Allowed(w, s, Finish(t, a, state, ambient))
    ensures Perform(w, s, Finish(t, a, state, ambient)) in Handovers(w)
  {
    hide SoundStates;
    var n := AtomNotice(w.atoms[a].engine, w.atoms[a].uuid, state, ambient);
    var key := KeyOf(w.atoms[a], s.progress[a].call);
    var d := Perform(w, s, Finish(t, a, state, ambient));
    StepSound(s.core, Notify(t, n));
    SpansGrow(s.core, t, n);
    assert AtomRight(w, a, s);
    assert Starts(n) == None && Finishes(n) == Some(key) && d.core == TakenOut(s.core, t, n, key);
    forall b, m | 0 <= b < |w.atoms| && b != a { OtherKeys(w, a, b, m, s.progress[a].call); }
    OneAtomMoves(w, s, d, a);
  }

  /** The phase under way has a span of its own. */
  lemma PhaseSpan(w: World, s: System, a: nat)
    requires s in Handovers(w) && a < |w.atoms| && !s.progress[a].Idle?
    ensures var p := s.progress[a];
            p.at in s.core.spans && s.core.spans[p.at].key == KeyOf(w.atoms[a], p.call)
  {
    assert AtomRight(w, a, s);
    assert StillOpen(s.core.history, s.progress[a].at, KeyOf(w.atoms[a], s.progress[a].call));
  }

  /** Leaving the context on the atom, running the body elsewhere, returning from it. */
  lemma LocalKeeps(w: World, s: System, act: Act)
    requires OwnNames(w) && s in Handovers(w) && Allowed(w, s, act)
    requires act.HandOver? || act.BodyElsewhere? || act.BodyDone?
    ensures Perform(w, s, act) in Handovers(w)
  {
    hide SoundStates;
    var a := act.atom;
    var d := Perform(w, s, act);
    assert AtomRight(w, a, s);
    PhaseSpan(w, s, a);
    OneAtomMoves(w, s, d, a);
  }

  lemma BodyKeeps(w: World, s: System, a: nat)
    requires s in Handovers(w) && Allowed(w, s, Body(a))
    ensures Perform(w, s, Body(a)) in Handovers(w)
  {
    hide SoundStates;
    var d := Perform(w, s, Body(a));
    assert AtomRight(w, a, s);
    PhaseSpan(w, s, a);
    OneAtomMoves(w, s, d.(begun := s.begun), a);
    assert forall b | 0 <= b < |w.atoms| :: AtomRight(w, b, d.(begun := s.begun)) ==> AtomRight(w, b, d);
    assert BeganRight(w, d.core.spans, d.begun[|s.begun|]);
  }

  lemma FlowStateKeeps(w: World, s: System, t: nat, n: Notice)
    requires s in Handovers(w) && t !in s.core.held && n.FlowNotice?
    ensures s.(core := Notified(s.core, t, n)) in Handovers(w)
  {
    hide SoundStates;
    StepSound(s.core, Notify(t, n));
    SpansGrow(s.core, t, n);
    assert |s.progress| == |w.atoms|;
    OneAtomMoves(w, s, s.(core := Notified(s.core, t, n)), |w.atoms|);
  }

  lemma EndSpanKeeps(w: World, s: System, t: nat)
    requires s in Handovers(w) && t in s.core.held
    ensures s.(core := Released(s.core, t)) in Handovers(w)
  {
    hide SoundStates;
    StepSound(s.core, Release(t));
    assert |s.progress| == |w.atoms|;
    OneAtomMoves(w, s, s.(core := Released(s.core, t)), |w.atoms|);
  }

  lemma {:induction false} ActKeeps(w: World, s: System, act: Act)
    requires DistinctAtoms(w) && OwnNames(w) && s in Handovers(w) && Allowed(w, s, act)
    ensures Perform(w, s, act) in Handovers(w)
  {
    hide Handovers, Notified, Released, DistinctAtoms, OwnNames;
    match act
    case FlowState(t, e, state, ambient) => FlowStateKeeps(w, s, t, FlowNotice(e, state, ambient));
    case Start(t, a, call, ambient) => StartKeeps(w, s, t, a, call, ambient);
    case Finish(t, a, state, ambient) => FinishKeeps(w, s, t, a, state, ambient);
    case Body(a) => BodyKeeps(w, s, a);
    case EndSpan(t) => EndSpanKeeps(w, s, t);
    case _ => LocalKeeps(w, s, act);
  }

  // ---- Whole runs -----------------------------------------------------------------------------

  predicate Runnable(w: World, s: System, acts: seq<Act>)
    requires |s.progress| == |w.atoms|
    decreases |acts|
  {
    acts == [] || (Allowed(w, s, acts[0]) && Runnable(w, Perform(w, s, acts[0]), acts[1..]))
  }

  function Outcome(w: World, s: System, acts: seq<Act>): (d: System)
    requires |s.progress| == |w.atoms| && Runnable(w, s, acts)
    ensures |d.progress| == |w.atoms|
    decreases |acts|
  {
    if acts == [] then s else Outcome(w, Perform(w, s, acts[0]), acts[1..])
  }

  function Initially(w: World): System {
    System(NOTHING_YET, map[], seq(|w.atoms|, _ => Idle), map[], {}, [])
  }

  lemma {:induction false} RunKeeps(w: World, s: System, acts: seq<Act>)
    requires DistinctAtoms(w) && OwnNames(w) && s in Handovers(w) && Runnable(w, s, acts)
    ensures Outcome(w, s, acts) in Handovers(w)
    decreases |acts|
  {
    if acts != [] {
      ActKeeps(w, s, acts[0]);
      hide Handovers, Perform, Allowed;
      RunKeeps(w, Perform(w, s, acts[0]), acts[1..]);
    }
  }

  lemma InitiallyKeeps(w: World)
    ensures Initially(w) in Handovers(w)
  {
    StartsSound();
  }

  /** If no name leads to another atom, every body began with the span that its own phase's
      start notification opened, and with no other; or with nothing, exactly if its name
      leads nowhere. */
  lemma BodiesSeeTheirSpan(w: World, acts: seq<Act>, j: nat)
    requires DistinctAtoms(w) && OwnNames(w) && Runnable(w, Initially(w), acts)
    requires j < |Outcome(w, Initially(w), acts).begun|
    ensures var s := Outcome(w, Initially(w), acts);
            var b := s.begun[j];
            && b.atom < |w.atoms|
            && OpensAt(s.core.history, b.at, KeyOf(w.atoms[b.atom], b.call))
            && b.seen == if Known(w, b.atom) then Some(b.at) else None
  {
    InitiallyKeeps(w);
    RunKeeps(w, Initially(w), acts);
    var s := Outcome(w, Initially(w), acts);
    assert BeganRight(w, s.core.spans, s.begun[j]);
  }

  /** The context that a body finds on its atom. */
  function SeenContext(s: System, b: Beginning): Option<Context> {
    if b.seen.Some? && b.seen.value in s.core.spans
    then Some(ContextOf(b.seen.value, s.core.spans[b.seen.value].parent)) else None
  }

  /** A body that runs under what it finds on its atom is, with all that it does and hands off,
      in the trace of the flow span that was open when the atom started; and it leaves the
      thread's context as it was. */
  lemma BodiesJoinTheFlow(w: World, acts: seq<Act>, j: nat, f: nat, body: Prog, ctx: Context, path: Path,
                          base: Context, t: Path, web: bool)
    requires DistinctAtoms(w) && OwnNames(w) && Runnable(w, Initially(w), acts)
    requires j < |Outcome(w, Initially(w), acts).begun|
    requires var s := Outcome(w, Initially(w), acts);
             var b := s.begun[j];
             && b.atom < |w.atoms| && Known(w, b.atom) && b.at <= |s.core.history|
             && StillOpen(s.core.history[..b.at], f, Flow(w.atoms[b.atom].engine))
             && f in s.core.spans && t == Open([f], s.core.spans[f].parent).trace
    requires Keeps(body, Some(t), web) && (web ==> Harmless(base, Some(t)))
    ensures var s := Outcome(w, Initially(w), acts);
            var r := Eval(Resume(SeenContext(s, s.begun[j]), body), ctx, path, base);
            AllLoyal(r.events, Some(t)) && r.ctx == ctx
  {
    InitiallyKeeps(w);
    RunKeeps(w, Initially(w), acts);
    var s := Outcome(w, Initially(w), acts);
    var b := s.begun[j];
    assert BeganRight(w, s.core.spans, b);
    assert ParentRight(s.core.history, s.core.spans, b.at);
    assert s.core.spans[b.at].key == KeyOf(w.atoms[b.atom], b.call);
    hide Eval, Keeps, Handovers, Outcome, Runnable;
    var seen := ContextOf(b.at, s.core.spans[b.at].parent);
    assert Belongs(seen, Some(t));
    ResumeEval(Some(seen), body, ctx, path, base);
    StaysInTrace(body, seen, path + [0], base, Some(t), web);
  }

  /** In every state, what an atom carries is a span of that atom; and it is the one of its
      most recent start, unless the body of the phase before ran elsewhere. */
  lemma StashIsOwn(w: World, acts: seq<Act>, a: nat)
    requires DistinctAtoms(w) && OwnNames(w) && Runnable(w, Initially(w), acts) && a < |w.atoms|
    requires a in Outcome(w, Initially(w), acts).stash
    ensures var s := Outcome(w, Initially(w), acts);
            && s.stash[a] in s.core.spans
            && (exists m :: s.core.spans[s.stash[a]].key == KeyOf(w.atoms[a], m))
            && (a !in s.elsewhere ==> a in s.latest && s.stash[a] == s.latest[a])
  {
    InitiallyKeeps(w);
    RunKeeps(w, Initially(w), acts);
    assert AtomRight(w, a, Outcome(w, Initially(w), acts));
  }

  /** Between phases, an atom carries a context exactly if its name leads to it and its last
      body ran elsewhere; then the context is that of its most recent start. */
  lemma NoStashLeftBehind(w: World, acts: seq<Act>, a: nat)
    requires DistinctAtoms(w) && OwnNames(w) && Runnable(w, Initially(w), acts) && a < |w.atoms|
    requires Outcome(w, Initially(w), acts).progress[a].Idle?
    ensures var s := Outcome(w, Initially(w), acts);
            && (a in s.stash <==> Known(w, a) && a in s.elsewhere)
            && (a in s.stash ==> a in s.latest && s.stash[a] == s.latest[a])
  {
    InitiallyKeeps(w);
    RunKeeps(w, Initially(w), acts);
    assert AtomRight(w, a, Outcome(w, Initially(w), acts));
  }

  // ---- Why names have to be unique ------------------------------------------------------------

  ghost predicate UniqueNames(w: World) {
    forall a, b | 0 <= a < b < |w.atoms| :: w.atoms[a].engine != w.atoms[b].engine || w.atoms[a].name != w.atoms[b].name
  }

  lemma FoundHasTheName(w: World, a: nat)
    requires WellNamed(w) && a < |w.atoms| && Found(w, a).Some?
    ensures var b := Found(w, a).value;
            b < |w.atoms| && w.atoms[b].engine == w.atoms[a].engine && w.atoms[b].name == w.atoms[a].name
  {
    NamesAreAtoms(w.graphs[w.atoms[a].engine]);
  }

  lemma UniqueNamesAreOwn(w: World)
    requires WellNamed(w) && UniqueNames(w)
    ensures OwnNames(w)
  {
    forall a: nat | a < |w.atoms| && Found(w, a).Some? ensures Found(w, a) == Some(a) {
      FoundHasTheName(w, a);
    }
  }

  /** The atom is a node of its engine's graph. */
  ghost predicate InGraph(w: World, a: nat)
    requires a < |w.atoms|
  {
    w.atoms[a].engine in w.graphs && AtomNode(w.atoms[a].name, a) in w.graphs[w.atoms[a].engine]
  }

  lemma KnownIff(w: World, a: nat)
    requires WellNamed(w) && UniqueNames(w) && a < |w.atoms|
    ensures Known(w, a) <==> InGraph(w, a)
  {
    var info := w.atoms[a];
    if info.engine in w.graphs {
      NamesAreAtoms(w.graphs[info.engine]);
      AtomsAreNamed(w.graphs[info.engine], info.name);
      UniqueNamesAreOwn(w);
    }
  }

  /** In terms of the graphs alone, with names that are unique: a body begins with the span of
      its own phase's start exactly if its atom is a node of its engine's compiled graph, and
      with nothing otherwise; and between phases its atom carries something exactly if it is
      such a node and its last body ran elsewhere. */
  lemma NodesSeeTheirSpan(w: World, acts: seq<Act>)
    requires DistinctAtoms(w) && WellNamed(w) && UniqueNames(w) && Runnable(w, Initially(w), acts)
    ensures var s := Outcome(w, Initially(w), acts);
            && (forall j | 0 <= j < |s.begun| ::
                  && s.begun[j].atom < |w.atoms|
                  && OpensAt(s.core.history, s.begun[j].at, KeyOf(w.atoms[s.begun[j].atom], s.begun[j].call))
                  && s.begun[j].seen == if InGraph(w, s.begun[j].atom) then Some(s.begun[j].at) else None)
            && (forall a | 0 <= a < |w.atoms| && s.progress[a].Idle? ::
                  a in s.stash <==> InGraph(w, a) && a in s.elsewhere)
  {
    UniqueNamesAreOwn(w);
    var s := Outcome(w, Initially(w), acts);
    forall j: nat | j < |s.begun|
      ensures s.begun[j].atom < |w.atoms|
      ensures OpensAt(s.core.history, s.begun[j].at, KeyOf(w.atoms[s.begun[j].atom], s.begun[j].call))
      ensures s.begun[j].seen == if InGraph(w, s.begun[j].atom) then Some(s.begun[j].at) else None
    {
      BodiesSeeTheirSpan(w, acts, j);
      KnownIff(w, s.begun[j].atom);
    }
    forall a: nat | a < |w.atoms| && s.progress[a].Idle? ensures a in s.stash <==> InGraph(w, a) && a in s.elsewhere {
      NoStashLeftBehind(w, acts, a);
      KnownIff(w, a);
    }
  }

  /** No body saw the span of a phase other than its own. */
  ghost predicate NoOthers(s: System) {
    forall j | 0 <= j < |s.begun| :: s.begun[j].seen.Some? ==> s.begun[j].seen.value == s.begun[j].at
  }

  lemma OneMore(w: World, s: System, act: Act, acts: seq<Act>)
    requires |s.progress| == |w.atoms| && Allowed(w, s, act) && Runnable(w, Perform(w, s, act), acts)
    ensures Runnable(w, s, [act] + acts)
    ensures Outcome(w, s, [act] + acts) == Outcome(w, Perform(w, s, act), acts)
  {
    assert ([act] + acts)[1..] == acts;
  }

  /** A start and its hand-over, on an atom that is idle and whose phases are not open. */
  lemma StartHandsOver(w: World, s: System, a: nat)
    requires |s.progress| == |w.atoms| && a < |w.atoms| && Found(w, a).Some? && s.progress[a].Idle?
    requires 0 !in s.core.held && KeyOf(w.atoms[a], Execute) !in s.core.open
    ensures var start := Start(0, a, Execute, Empty);
            && Allowed(w, s, start) && Allowed(w, Perform(w, s, start), HandOver(a))
            && var d := Perform(w, Perform(w, s, start), HandOver(a));
               && d.progress == s.progress[a := Handed(Execute, |s.core.history|)]
               && d.stash == s.stash[Found(w, a).value := |s.core.history|]
               && |d.core.history| == |s.core.history| + 1 && d.core.held == s.core.held && d.begun == s.begun
               && d.core.open == s.core.open[KeyOf(w.atoms[a], Execute) := |s.core.history|]
  {
    assert Starts(AtomNotice(w.atoms[a].engine, w.atoms[a].uuid, RUNNING, Empty)) == Some(KeyOf(w.atoms[a], Execute));
  }

  /** If the name of atom `a` leads to atom `b`, then `b` can begin with `a`'s span. */
  lemma OtherNameMisleads(w: World, a: nat, b: nat) returns (acts: seq<Act>)
    requires DistinctAtoms(w) && WellNamed(w) && a < |w.atoms| && Found(w, a) == Some(b) && a != b
    ensures Runnable(w, Initially(w), acts) && !NoOthers(Outcome(w, Initially(w), acts))
  {
    FoundHasTheName(w, a);
    var s0, startB, startA := Initially(w), Start(0, b, Execute, Empty), Start(0, a, Execute, Empty);
    assert KeyOf(w.atoms[a], Execute) != KeyOf(w.atoms[b], Execute) by { OtherKeys(w, a, b, Execute, Execute); }
    StartHandsOver(w, s0, b);
    var s2 := Perform(w, Perform(w, s0, startB), HandOver(b));
    StartHandsOver(w, s2, a);
    var s4 := Perform(w, Perform(w, s2, startA), HandOver(a));
    assert s4.stash[b] == 1 && s4.progress[b] == Handed(Execute, 0) && s4.begun == [];
    assert Perform(w, s4, Body(b)).begun[0] == Beginning(b, Execute, 0, Some(1));
    hide Perform, Allowed;
    acts := [Body(b)];
    OneMore(w, s4, Body(b), []);
    OneMore(w, Perform(w, s2, startA), HandOver(a), acts);
    acts := [HandOver(a)] + acts;
    OneMore(w, s2, startA, acts);
    acts := [startA] + acts;
    OneMore(w, Perform(w, s0, startB), HandOver(b), acts);
    acts := [HandOver(b)] + acts;
    OneMore(w, s0, startB, acts);
    acts := [startB] + acts;
  }

  /** Bodies never see another phase's span, in any run, if and only if no name leads to
      another atom. */
  lemma NamesDecide(w: World)
    requires DistinctAtoms(w) && WellNamed(w)
    ensures OwnNames(w) <==> forall acts | Runnable(w, Initially(w), acts) :: NoOthers(Outcome(w, Initially(w), acts))
  {
    if OwnNames(w) {
      forall acts | Runnable(w, Initially(w), acts) ensures NoOthers(Outcome(w, Initially(w), acts)) {
        forall j: nat | j < |Outcome(w, Initially(w), acts).begun| ensures
          var b := Outcome(w, Initially(w), acts).begun[j]; b.seen.Some? ==> b.seen.value == b.at
        {
          BodiesSeeTheirSpan(w, acts, j);
        }
      }
    } else {
      var a: nat :| a < |w.atoms| && !(Found(w, a) == None || Found(w, a) == Some(a));
      var acts := OtherNameMisleads(w, a, Found(w, a).value);
    }
  }
}
