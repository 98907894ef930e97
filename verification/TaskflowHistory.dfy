/** The TaskFlow trace listeners, one lock section at a time.

    Any number of engines notify their listeners from any number of threads.  A lock
    section is one step; what a thread does after releasing the lock (ending the span it
    took out) is another.  A span is identified by the position, in the order of lock
    sections, of the notification that started it. */
module TaskflowHistory {
  import opened Spans

  datatype State =
    | RUNNING | SUCCESS | FAILURE | REVERTING | REVERTED | REVERT_FAILURE | SUSPENDED
    | OTHER(name: string)

  datatype Method = Execute | Revert

  /** What a listener keeps a span for: its engine's flow run, or a phase of an atom. */
  datatype Key = Flow(engine: nat) | Phase(engine: nat, uuid: string, call: Method)

  datatype Notice =
    | FlowNotice(engine: nat, state: State, ambient: Context)
    | AtomNotice(engine: nat, uuid: string, state: State, ambient: Context)

  function AtomStart(state: State): Option<Method> {
    match state
    case RUNNING => Some(Execute)
    case REVERTING => Some(Revert)
    case _ => None
  }

  /** The phase an atom state closes, and whether the phase failed. */
  function AtomFinish(state: State): Option<(Method, bool)> {
    match state
    case SUCCESS => Some((Execute, false))
    case FAILURE => Some((Execute, true))
    case REVERTED => Some((Revert, false))
    case REVERT_FAILURE => Some((Revert, true))
    case _ => None
  }

  /** Whether a flow state closes the flow's span, as a failure or not. */
  function FlowFinish(state: State): Option<bool> {
    match state
    case SUCCESS => Some(false)
    case FAILURE => Some(true)
    case REVERTED => Some(true)
    case REVERT_FAILURE => Some(true)
    case SUSPENDED => Some(false)
    case _ => None
  }

  function Starts(n: Notice): Option<Key> {
    match n
    case FlowNotice(e, state, _) => if state.RUNNING? then Some(Flow(e)) else None
    case AtomNotice(e, uuid, state, _) =>
      if AtomStart(state).Some? then Some(Phase(e, uuid, AtomStart(state).value)) else None
  }

  function Finishes(n: Notice): Option<Key> {
    match n
    case FlowNotice(e, state, _) => if FlowFinish(state).Some? then Some(Flow(e)) else None
    case AtomNotice(e, uuid, state, _) =>
      if AtomFinish(state).Some? then Some(Phase(e, uuid, AtomFinish(state).value.0)) else None
  }

  predicate Fails(n: Notice)
    requires Finishes(n).Some?
  {
    match n
    case FlowNotice(_, state, _) => FlowFinish(state).value
    case AtomNotice(_, _, state, _) => AtomFinish(state).value.1
  }

  datatype Opening = Opening(key: Key, parent: Context)

  /** A span that a thread has taken out of a listener and not ended yet. */
  datatype Held = Held(span: nat, failed: bool)

  datatype Place = InTable(key: Key) | InHand(thread: nat) | Closed

  /** `open` joins the listeners' flow slots and atom tables; `flows` their flow contexts. */
  datatype Tracker = Tracker(
    history: seq<Notice>,
    open: map<Key, nat>,
    flows: map<nat, Context>,
    spans: map<nat, Opening>,
    held: map<nat, Held>,
    ended: seq<Held>,
    place: map<nat, Place>)

  const NOTHING_YET := Tracker([], map[], map[], map[], map[], [], map[])

  function ContextOf(id: nat, parent: Context): Context { Active(Open([id], parent)) }

  function ParentFor(s: Tracker, n: Notice): Context {
    if n.AtomNotice? && n.engine in s.flows then s.flows[n.engine] else n.ambient
  }

  function Began(s: Tracker, n: Notice, key: Key): Tracker {
    var id, parent := |s.history|, ParentFor(s, n);
    s.(history := s.history + [n],
       open := s.open[key := id],
       flows := if key.Flow? then s.flows[key.engine := ContextOf(id, parent)] else s.flows,
       spans := s.spans[id := Opening(key, parent)],
       place := s.place[id := InTable(key)])
  }

  function TakenOut(s: Tracker, thread: nat, n: Notice, key: Key): Tracker
    requires key in s.open && Finishes(n).Some?
  {
    s.(history := s.history + [n],
       open := s.open - {key},
       flows := if key.Flow? then s.flows - {key.engine} else s.flows,
       held := s.held[thread := Held(s.open[key], Fails(n))],
       place := s.place[s.open[key] := InHand(thread)])
  }

  /** The lock section of a notification: a start is ignored if its key is open, a finish
      if it is not. */
  function Notified(s: Tracker, thread: nat, n: Notice): Tracker {
    if Starts(n).Some? && Starts(n).value !in s.open then Began(s, n, Starts(n).value)
    else if Finishes(n).Some? && Finishes(n).value in s.open then TakenOut(s, thread, n, Finishes(n).value)
    else s.(history := s.history + [n])
  }

  /** After the lock: end the span taken out. */
  function Released(s: Tracker, thread: nat): Tracker
    requires thread in s.held
  {
    s.(held := s.held - {thread},
       ended := s.ended + [s.held[thread]],
       place := s.place[s.held[thread].span := Closed])
  }

  datatype Step = Notify(thread: nat, notice: Notice) | Release(thread: nat)

  /** A thread that holds a span ends it before it handles another notification. */
  predicate Possible(s: Tracker, step: Step) {
    match step
    case Notify(t, _) => t !in s.held
    case Release(t) => t in s.held
  }

  function Take(s: Tracker, step: Step): Tracker
    requires Possible(s, step)
  {
    match step
    case Notify(t, n) => Notified(s, t, n)
    case Release(t) => Released(s, t)
  }

  // ---- Conservation ---------------------------------------------------------------------

  ghost predicate TablePlaced(s: Tracker) {
    && (forall k | k in s.open :: s.open[k] in s.place && s.place[s.open[k]] == InTable(k))
    && (forall i | i in s.place && s.place[i].InTable? ::
          s.place[i].key in s.open && s.open[s.place[i].key] == i && i in s.spans && s.spans[i].key == s.place[i].key)
  }

  ghost predicate HandsPlaced(s: Tracker) {
    && (forall t | t in s.held :: s.held[t].span in s.place && s.place[s.held[t].span] == InHand(t))
    && (forall i | i in s.place && s.place[i].InHand? ::
          s.place[i].thread in s.held && s.held[s.place[i].thread].span == i)
  }

  ghost predicate AmongEnded(ended: seq<Held>, i: nat) {
    exists j :: 0 <= j < |ended| && ended[j].span == i
  }

  ghost predicate EndedPlaced(s: Tracker) {
    && (forall j | 0 <= j < |s.ended| :: s.ended[j].span in s.place && s.place[s.ended[j].span] == Closed)
    && (forall j, k | 0 <= j < k < |s.ended| :: s.ended[j].span != s.ended[k].span)
    && (forall i | i in s.place && s.place[i].Closed? :: AmongEnded(s.ended, i))
  }

  /** Every span ever started is in exactly one place: the flow slot or atom table under
      its key, the hands of one thread, or among the ended, where it occurs once. */
  ghost predicate Conserved(s: Tracker) {
    && s.place.Keys == s.spans.Keys
    && (forall i | i in s.spans :: i < |s.history|)
    && TablePlaced(s) && HandsPlaced(s) && EndedPlaced(s)
  }

  lemma {:induction false} BeganConserved(s: Tracker, n: Notice, key: Key)
    requires Conserved(s) && key !in s.open
    ensures Conserved(Began(s, n, key))
  {
  }

  lemma {:induction false} TakenConserved(s: Tracker, thread: nat, n: Notice, key: Key)
    requires Conserved(s) && key in s.open && Finishes(n).Some? && thread !in s.held
    ensures Conserved(TakenOut(s, thread, n, key))
  {
    TakenTable(s, thread, n, key);
    TakenHands(s, thread, n, key);
    hide HandsPlaced, TablePlaced;
    assert s.place[s.open[key]] == InTable(key) by { TableEntry(s, key); }
  }

  lemma TableEntry(s: Tracker, key: Key)
    requires TablePlaced(s) && key in s.open
    ensures s.open[key] in s.place && s.place[s.open[key]] == InTable(key)
  {
  }

  lemma TakenTable(s: Tracker, thread: nat, n: Notice, key: Key)
    requires TablePlaced(s) && key in s.open && Finishes(n).Some?
    ensures TablePlaced(TakenOut(s, thread, n, key))
  {
  }

  lemma TakenHands(s: Tracker, thread: nat, n: Notice, key: Key)
    requires TablePlaced(s) && HandsPlaced(s) && key in s.open && Finishes(n).Some? && thread !in s.held
    ensures HandsPlaced(TakenOut(s, thread, n, key))
  {
  }

  lemma {:induction false} ReleasedConserved(s: Tracker, thread: nat)
    requires Conserved(s) && thread in s.held
    ensures Conserved(Released(s, thread))
  {
    ReleasedPlaces(s, thread);
    ReleasedEnded(s, thread);
  }

  lemma ReleasedPlaces(s: Tracker, thread: nat)
    requires TablePlaced(s) && HandsPlaced(s) && thread in s.held
    ensures TablePlaced(Released(s, thread)) && HandsPlaced(Released(s, thread))
  {
  }

  lemma ReleasedEnded(s: Tracker, thread: nat)
    requires HandsPlaced(s) && EndedPlaced(s) && thread in s.held
    ensures EndedPlaced(Released(s, thread))
  {
    var d := Released(s, thread);
    var i := s.held[thread].span;
    assert d.ended[|s.ended|].span == i;
    forall k | k in d.place && d.place[k].Closed? ensures AmongEnded(d.ended, k) {
      if k != i {
        assert AmongEnded(s.ended, k);
        var j :| 0 <= j < |s.ended| && s.ended[j].span == k;
        assert d.ended[j].span == k;
      }
    }
  }

  lemma {:induction false} StepConserved(s: Tracker, step: Step)
    requires Conserved(s) && Possible(s, step)
    ensures Conserved(Take(s, step))
  {
    match step
    case Notify(t, n) =>
      if Starts(n).Some? && Starts(n).value !in s.open { BeganConserved(s, n, Starts(n).value); }
      else if Finishes(n).Some? && Finishes(n).value in s.open { TakenConserved(s, t, n, Finishes(n).value); }
    case Release(t) => ReleasedConserved(s, t);
  }

  // ---- What the log of notifications says -------------------------------------------------

  ghost predicate FinishIn(h: seq<Notice>, key: Key, lo: nat, hi: nat)
    requires hi <= |h|
  {
    exists m :: lo <= m < hi && Finishes(h[m]) == Some(key)
  }

  ghost predicate StartsAt(h: seq<Notice>, i: nat, key: Key) {
    i < |h| && Starts(h[i]) == Some(key)
  }

  /** The notification at `i` opens a phase: it is a start, and every earlier start of the
      same key was followed by a finish. */
  ghost predicate OpensAt(h: seq<Notice>, i: nat, key: Key) {
    StartsAt(h, i, key) && forall j: nat | j < i && StartsAt(h, j, key) :: FinishIn(h, key, j + 1, i)
  }

  /** The phase opened at `i` is closed by the first finish after it. */
  ghost predicate ClosesAt(h: seq<Notice>, i: nat, j: nat, key: Key) {
    OpensAt(h, i, key) && i < j < |h| && Finishes(h[j]) == Some(key) && !FinishIn(h, key, i + 1, j)
  }

  ghost predicate StillOpen(h: seq<Notice>, i: nat, key: Key) {
    OpensAt(h, i, key) && !FinishIn(h, key, i + 1, |h|)
  }

  /** The span taken out (and perhaps ended) is one the log closes, with the log's mark. */
  ghost predicate ClosedAs(h: seq<Notice>, spans: map<nat, Opening>, held: Held) {
    held.span in spans &&
    exists j: nat :: ClosesAt(h, held.span, j, spans[held.span].key) && held.failed == Fails(h[j])
  }

  ghost predicate TableOpen(s: Tracker) {
    forall k | k in s.open :: StillOpen(s.history, s.open[k], k)
  }

  ghost predicate StartsCovered(s: Tracker) {
    forall j: nat, k | StartsAt(s.history, j, k) && !FinishIn(s.history, k, j + 1, |s.history|) ::
      k in s.open && s.open[k] <= j
  }

  ghost predicate SpansOpened(s: Tracker) {
    && (forall i: nat, k | OpensAt(s.history, i, k) :: i in s.spans && s.spans[i].key == k)
    && (forall i | i in s.spans :: OpensAt(s.history, i, s.spans[i].key))
  }

  ghost predicate MarksRight(s: Tracker) {
    && (forall t | t in s.held :: ClosedAs(s.history, s.spans, s.held[t]))
    && (forall j | 0 <= j < |s.ended| :: ClosedAs(s.history, s.spans, s.ended[j]))
  }

  /** The listeners' tables, kept up incrementally, are what matching the starts and
      finishes of each key over the whole log gives. */
  ghost predicate Bracketed(s: Tracker) {
    TableOpen(s) && StartsCovered(s) && SpansOpened(s) && MarksRight(s)
  }

  lemma FinishGrows(h: seq<Notice>, n: Notice, key: Key, lo: nat, hi: nat)
    requires hi <= |h|
    ensures FinishIn(h + [n], key, lo, hi) == FinishIn(h, key, lo, hi)
    ensures lo <= |h| ==>
              (FinishIn(h + [n], key, lo, |h| + 1) <==> FinishIn(h, key, lo, |h|) || Finishes(n) == Some(key))
  {
    var g := h + [n];
    if FinishIn(h, key, lo, hi) {
      var m :| lo <= m < hi && Finishes(h[m]) == Some(key);
      assert g[m] == h[m];
    }
    if FinishIn(h, key, lo, |h|) {
      var m :| lo <= m < |h| && Finishes(h[m]) == Some(key);
      assert g[m] == h[m];
    }
    assert g[|h|] == n;
  }

  lemma OpensGrows(h: seq<Notice>, n: Notice, i: nat, key: Key)
    requires i < |h|
    ensures StartsAt(h + [n], i, key) == StartsAt(h, i, key)
    ensures OpensAt(h + [n], i, key) == OpensAt(h, i, key)
  {
    var g := h + [n];
    forall j: nat | j <= i ensures StartsAt(g, j, key) == StartsAt(h, j, key) { assert g[j] == h[j]; }
    forall j: nat | j < i
      ensures StartsAt(h, j, key) ==> FinishIn(g, key, j + 1, i) == FinishIn(h, key, j + 1, i)
    {
      FinishGrows(h, n, key, j + 1, i);
    }
  }

  lemma StillOpenGrows(h: seq<Notice>, n: Notice, i: nat, key: Key)
    requires i < |h|
    ensures StillOpen(h + [n], i, key) <==> StillOpen(h, i, key) && Finishes(n) != Some(key)
  {
    OpensGrows(h, n, i, key);
    FinishGrows(h, n, key, i + 1, |h|);
  }

  lemma ClosesGrows(h: seq<Notice>, n: Notice, i: nat, j: nat, key: Key)
    requires j < |h|
    ensures ClosesAt(h + [n], i, j, key) == ClosesAt(h, i, j, key)
  {
    if i < j {
      OpensGrows(h, n, i, key);
      FinishGrows(h, n, key, i + 1, j);
      assert (h + [n])[j] == h[j];
    }
  }

  lemma ClosedAsGrows(h: seq<Notice>, n: Notice, spans: map<nat, Opening>, spans': map<nat, Opening>, held: Held)
    requires ClosedAs(h, spans, held) && held.span in spans' && spans'[held.span] == spans[held.span]
    ensures ClosedAs(h + [n], spans', held)
  {
    var key := spans[held.span].key;
    var j: nat :| ClosesAt(h, held.span, j, key) && held.failed == Fails(h[j]);
    ClosesGrows(h, n, held.span, j, key);
    assert (h + [n])[j] == h[j];
  }

  lemma FinishedBetween(h: seq<Notice>, i: nat, j: nat, key: Key)
    ensures StartsAt(h, i, key) && i < j && OpensAt(h, j, key) ==> FinishIn(h, key, i + 1, |h|)
  {
  }

  /** A key is open for the span that the log leaves open, and for no other. */
  lemma OpenIff(s: Tracker, k: Key, i: nat)
    requires Bracketed(s)
    ensures (k in s.open && s.open[k] == i) <==> StillOpen(s.history, i, k)
  {
    if k in s.open { FinishedBetween(s.history, s.open[k], i, k); }
  }

  /** A start opens a phase exactly when the listener does not ignore it. */
  lemma NewOpens(s: Tracker, n: Notice, key: Key)
    requires Bracketed(s)
    ensures OpensAt(s.history + [n], |s.history|, key) <==> Starts(n) == Some(key) && key !in s.open
  {
    var h := s.history;
    var g := h + [n];
    assert g[|h|] == n;
    forall j: nat | j < |h| ensures StartsAt(g, j, key) == StartsAt(h, j, key) { assert g[j] == h[j]; }
    forall j: nat | j < |h|
      ensures StartsAt(h, j, key) ==> FinishIn(g, key, j + 1, |h|) == FinishIn(h, key, j + 1, |h|)
    {
      FinishGrows(h, n, key, j + 1, |h|);
    }
    if key in s.open {
      assert StillOpen(h, s.open[key], key);
      assert StartsAt(g, s.open[key], key);
    }
  }

  /** What the lock section does to each part of the state. */
  lemma NotifiedParts(s: Tracker, thread: nat, n: Notice)
    ensures var d := Notified(s, thread, n);
            && d.history == s.history + [n] && d.ended == s.ended
            && (forall k :: k in d.open <==>
                  if Starts(n) == Some(k) then true
                  else k in s.open && Finishes(n) != Some(k))
            && (forall k | k in d.open :: d.open[k] == if k in s.open then s.open[k] else |s.history|)
            && d.spans == (if Starts(n).Some? && Starts(n).value !in s.open
                           then s.spans[|s.history| := Opening(Starts(n).value, ParentFor(s, n))] else s.spans)
            && d.held == (if Finishes(n).Some? && Finishes(n).value in s.open
                          then s.held[thread := Held(s.open[Finishes(n).value], Fails(n))] else s.held)
  {
    assert Starts(n).None? || Finishes(n).None?;
  }

  lemma NotifiedTable(s: Tracker, thread: nat, n: Notice)
    requires Bracketed(s)
    ensures TableOpen(Notified(s, thread, n))
  {
    hide Notified, FinishIn;
    NotifiedParts(s, thread, n);
    var h, d := s.history, Notified(s, thread, n);
    forall k | k in d.open ensures StillOpen(d.history, d.open[k], k) {
      if k !in s.open {
        NewOpens(s, n, k);
        NothingAfter(d.history, k);
      } else {
        assert StillOpen(h, s.open[k], k);
        StillOpenGrows(h, n, s.open[k], k);
      }
    }
  }

  lemma NothingAfter(h: seq<Notice>, key: Key)
    ensures !FinishIn(h, key, |h|, |h|)
  {
  }

  lemma NotifiedStarts(s: Tracker, thread: nat, n: Notice)
    requires Bracketed(s)
    ensures StartsCovered(Notified(s, thread, n))
  {
    hide Notified;
    NotifiedParts(s, thread, n);
    var h, d := s.history, Notified(s, thread, n);
    forall j: nat, k | StartsAt(d.history, j, k) && !FinishIn(d.history, k, j + 1, |d.history|)
      ensures k in d.open && d.open[k] <= j
    {
      if j < |h| {
        assert d.history == h + [n] && d.history[j] == h[j];
        FinishGrows(h, n, k, j + 1, |h|);
        assert StartsAt(h, j, k);
        assert k in s.open && s.open[k] <= j && Finishes(n) != Some(k);
      } else if k in s.open {
        assert StillOpen(h, s.open[k], k);
      }
    }
  }

  lemma NotifiedSpans(s: Tracker, thread: nat, n: Notice)
    requires Bracketed(s)
    ensures SpansOpened(Notified(s, thread, n))
  {
    hide Notified, FinishIn;
    NotifiedParts(s, thread, n);
    var h, d := s.history, Notified(s, thread, n);
    forall i: nat, k | i <= |h| ensures OpensAt(d.history, i, k) <==> i in d.spans && d.spans[i].key == k {
      NewOpens(s, n, k);
      if i < |h| { OpensGrows(h, n, i, k); }
    }
    forall i | i in d.spans ensures i <= |h| { if i in s.spans { assert OpensAt(h, i, s.spans[i].key); } }
  }

  lemma NotifiedMarks(s: Tracker, thread: nat, n: Notice)
    requires Bracketed(s) && thread !in s.held
    ensures MarksRight(Notified(s, thread, n))
  {
    hide Notified, FinishIn;
    NotifiedParts(s, thread, n);
    var h, d := s.history, Notified(s, thread, n);
    forall i | i in s.spans ensures d.spans[i] == s.spans[i] { assert OpensAt(h, i, s.spans[i].key); }
    forall t | t in d.held ensures ClosedAs(d.history, d.spans, d.held[t]) {
      if t in s.held {
        ClosedAsGrows(h, n, s.spans, d.spans, s.held[t]);
      } else {
        TakenCloses(s, n, Finishes(n).value);
      }
    }
    forall j | 0 <= j < |d.ended| ensures ClosedAs(d.history, d.spans, d.ended[j]) {
      ClosedAsGrows(h, n, s.spans, d.spans, s.ended[j]);
    }
  }

  lemma TakenCloses(s: Tracker, n: Notice, key: Key)
    requires Bracketed(s) && key in s.open && Finishes(n) == Some(key)
    ensures ClosedAs(s.history + [n], s.spans, Held(s.open[key], Fails(n)))
  {
    var h, i := s.history, s.open[key];
    assert StillOpen(h, i, key);
    OpensGrows(h, n, i, key);
    FinishGrows(h, n, key, i + 1, |h|);
    assert (h + [n])[|h|] == n;
    assert ClosesAt(h + [n], i, |h|, key);
  }

  lemma {:induction false} StepBracketed(s: Tracker, step: Step)
    requires Bracketed(s) && Possible(s, step)
    ensures Bracketed(Take(s, step))
  {
    match step
    case Notify(t, n) =>
      NotifiedTable(s, t, n);
      NotifiedStarts(s, t, n);
      NotifiedSpans(s, t, n);
      NotifiedMarks(s, t, n);
    case Release(t) =>
      assert TableOpen(Take(s, step)) && StartsCovered(Take(s, step)) && SpansOpened(Take(s, step));
  }

  // ---- Parents of flow and atom spans -------------------------------------------------------

  /** An atom span's parent is the flow span of its engine that was open when the atom
      started, and only if there was none, whatever was current on the notifying thread. */
  ghost predicate ParentRight(h: seq<Notice>, spans: map<nat, Opening>, i: nat)
    requires i in spans && i < |h|
  {
    match spans[i].key
    case Flow(_) => spans[i].parent == h[i].ambient
    case Phase(e, _, _) =>
      && (forall f: nat | StillOpen(h[..i], f, Flow(e)) ::
            f in spans && spans[i].parent == ContextOf(f, spans[f].parent))
      && ((forall f: nat :: !StillOpen(h[..i], f, Flow(e))) ==> spans[i].parent == h[i].ambient)
  }

  ghost predicate Parented(s: Tracker) {
    && FlowsPaired(s)
    && (forall i | i in s.spans :: i < |s.history| && ParentRight(s.history, s.spans, i))
  }

  lemma OldParent(s: Tracker, d: Tracker, n: Notice, i: nat)
    requires Parented(s) && i in s.spans && d.history == s.history + [n]
    requires forall k | k in s.spans :: k in d.spans && d.spans[k] == s.spans[k]
    ensures ParentRight(d.history, d.spans, i)
  {
    assert ParentRight(s.history, s.spans, i);
    assert d.history[..i] == s.history[..i] && d.history[i] == s.history[i];
  }

  lemma FlowOpen(s: Tracker, e: nat)
    requires Bracketed(s) && FlowsPaired(s)
    ensures forall f: nat :: StillOpen(s.history, f, Flow(e)) <==> e in s.flows && s.open[Flow(e)] == f
    ensures e in s.flows ==>
              && s.open[Flow(e)] in s.spans && s.open[Flow(e)] < |s.history|
              && s.flows[e] == ContextOf(s.open[Flow(e)], s.spans[s.open[Flow(e)]].parent)
  {
    forall f: nat ensures StillOpen(s.history, f, Flow(e)) <==> e in s.flows && s.open[Flow(e)] == f {
      OpenIff(s, Flow(e), f);
    }
  }

  lemma NewParent(s: Tracker, n: Notice, key: Key)
    requires Bracketed(s) && Parented(s) && Starts(n) == Some(key) && key !in s.open
    ensures ParentRight(s.history + [n], Began(s, n, key).spans, |s.history|)
  {
    hide StillOpen, FinishIn, TableOpen, StartsCovered, SpansOpened, MarksRight;
    var h, d := s.history, Began(s, n, key);
    assert d.history[..|h|] == h && d.history[|h|] == n;
    match key
    case Flow(_) =>
    case Phase(e, _, _) =>
      FlowOpen(s, e);
      if e in s.flows { assert StillOpen(h, s.open[Flow(e)], Flow(e)); }
  }

  /** The flow context is set and cleared together with the flow span. */
  ghost predicate FlowsPaired(s: Tracker) {
    && (forall e :: Flow(e) in s.open <==> e in s.flows)
    && (forall e | e in s.flows :: s.open[Flow(e)] in s.spans
          && s.flows[e] == ContextOf(s.open[Flow(e)], s.spans[s.open[Flow(e)]].parent))
  }

  lemma NotifiedFlows(s: Tracker, thread: nat, n: Notice)
    requires FlowsPaired(s) && forall i | i in s.spans :: i < |s.history|
    ensures FlowsPaired(Notified(s, thread, n))
  {
    if Starts(n).Some? && Starts(n).value !in s.open {
      BeganFlows(s, n, Starts(n).value);
    } else if Finishes(n).Some? && Finishes(n).value in s.open {
      TakenFlows(s, thread, n, Finishes(n).value);
    }
  }

  lemma BeganFlows(s: Tracker, n: Notice, key: Key)
    requires FlowsPaired(s) && key !in s.open && forall i | i in s.spans :: i < |s.history|
    ensures FlowsPaired(Began(s, n, key))
  {
    var d := Began(s, n, key);
    forall e | e in d.flows && Flow(e) != key
      ensures Flow(e) in s.open && d.open[Flow(e)] == s.open[Flow(e)] < |s.history|
    {
      assert e in s.flows;
    }
  }

  lemma TakenFlows(s: Tracker, thread: nat, n: Notice, key: Key)
    requires FlowsPaired(s) && key in s.open && Finishes(n).Some?
    ensures FlowsPaired(TakenOut(s, thread, n, key))
  {
    var d := TakenOut(s, thread, n, key);
    forall e ensures Flow(e) in d.open <==> e in d.flows { assert Flow(e) in s.open <==> e in s.flows; }
  }

  lemma SpansInLog(s: Tracker)
    requires SpansOpened(s)
    ensures forall i | i in s.spans :: i < |s.history|
  {
    forall i | i in s.spans ensures i < |s.history| { assert OpensAt(s.history, i, s.spans[i].key); }
  }

  lemma NotifiedParent(s: Tracker, thread: nat, n: Notice, i: nat)
    requires Bracketed(s) && Parented(s) && i in Notified(s, thread, n).spans
    ensures i <= |s.history| && ParentRight(Notified(s, thread, n).history, Notified(s, thread, n).spans, i)
  {
    hide Notified, ParentRight, FlowsPaired, StillOpen, FinishIn;
    NotifiedParts(s, thread, n);
    var d := Notified(s, thread, n);
    SpansInLog(s);
    if i in s.spans { OldParent(s, d, n, i); } else { NewParent(s, n, Starts(n).value); }
  }

  lemma NotifiedParented(s: Tracker, thread: nat, n: Notice)
    requires Bracketed(s) && Parented(s)
    ensures Parented(Notified(s, thread, n))
  {
    NotifiedFlows(s, thread, n);
    assert |Notified(s, thread, n).history| == |s.history| + 1;
    hide FlowsPaired, ParentRight, Bracketed, Notified;
    forall i | i in Notified(s, thread, n).spans
      ensures i < |Notified(s, thread, n).history|
              && ParentRight(Notified(s, thread, n).history, Notified(s, thread, n).spans, i)
    {
      NotifiedParent(s, thread, n, i);
    }
  }

  lemma ReleasedParented(s: Tracker, thread: nat)
    requires Parented(s) && thread in s.held
    ensures Parented(Released(s, thread))
  {
    hide ParentRight;
  }

  lemma {:induction false} StepParented(s: Tracker, step: Step)
    requires Bracketed(s) && Parented(s) && Possible(s, step)
    ensures Parented(Take(s, step))
  {
    match step
    case Notify(t, n) => NotifiedParented(s, t, n);
    case Release(t) => ReleasedParented(s, t);
  }

  // ---- Whole runs -----------------------------------------------------------------------------

  predicate Follows(s: Tracker, steps: seq<Step>)
    decreases |steps|
  {
    steps == [] || (Possible(s, steps[0]) && Follows(Take(s, steps[0]), steps[1..]))
  }

  function Reached(s: Tracker, steps: seq<Step>): Tracker
    requires Follows(s, steps)
    decreases |steps|
  {
    if steps == [] then s else Reached(Take(s, steps[0]), steps[1..])
  }

  ghost predicate Sound(s: Tracker) { Conserved(s) && Bracketed(s) && Parented(s) }

  ghost function SoundStates(): iset<Tracker> { iset s: Tracker | Sound(s) }

  lemma StartsSound()
    ensures NOTHING_YET in SoundStates()
  {
    assert TableOpen(NOTHING_YET) && StartsCovered(NOTHING_YET) && SpansOpened(NOTHING_YET) && MarksRight(NOTHING_YET);
  }

  lemma StepSound(s: Tracker, step: Step)
    requires s in SoundStates() && Possible(s, step)
    ensures Take(s, step) in SoundStates()
  {
    StepConserved(s, step);
    StepBracketed(s, step);
    StepParented(s, step);
  }

  /** In every state of every run: no span is lost, shared or ended twice; the tables match
      the log; and parents are right. */
  lemma {:induction false} RunsSound(s: Tracker, steps: seq<Step>)
    requires s in SoundStates() && Follows(s, steps)
    ensures Reached(s, steps) in SoundStates()
    decreases |steps|
  {
    if steps != [] {
      StepSound(s, steps[0]);
      hide SoundStates, Possible, Take;
      RunsSound(Take(s, steps[0]), steps[1..]);
    }
  }

  ghost predicate Tabled(s: Tracker, i: nat) { exists k :: k in s.open && s.open[k] == i }

  ghost predicate InHands(s: Tracker, i: nat) { exists t :: t in s.held && s.held[t].span == i }

  /** Conservation: in every reachable state each span ever started is in a listener, in one
      thread's hands, or ended once, and never in two of these. */
  lemma SpansConserved(steps: seq<Step>, i: nat)
    requires Follows(NOTHING_YET, steps)
    ensures var s := Reached(NOTHING_YET, steps);
            i in s.spans ==>
              && (Tabled(s, i) || InHands(s, i) || AmongEnded(s.ended, i))
              && !(Tabled(s, i) && InHands(s, i)) && !(Tabled(s, i) && AmongEnded(s.ended, i))
              && !(InHands(s, i) && AmongEnded(s.ended, i))
              && (forall t, u | t in s.held && u in s.held && s.held[t].span == i == s.held[u].span :: t == u)
              && (forall j, k | 0 <= j < |s.ended| && 0 <= k < |s.ended|
                                && s.ended[j].span == i == s.ended[k].span :: j == k)
  {
    StartsSound();
    RunsSound(NOTHING_YET, steps);
    var s := Reached(NOTHING_YET, steps);
    if i in s.spans {
      match s.place[i]
      case InTable(k) => assert s.open[k] == i;
      case InHand(t) => assert s.held[t].span == i;
      case Closed => assert AmongEnded(s.ended, i);
    }
  }

  ghost predicate TakenAs(s: Tracker, i: nat, failed: bool) {
    || (exists t :: t in s.held && s.held[t] == Held(i, failed))
    || (exists j :: 0 <= j < |s.ended| && s.ended[j] == Held(i, failed))
  }

  lemma FirstFinishUnique(h: seq<Notice>, i: nat, j: nat, k: nat, key: Key)
    requires ClosesAt(h, i, j, key) && ClosesAt(h, i, k, key)
    ensures j == k
  {
  }

  lemma ClosedTaken(s: Tracker, i: nat, j: nat, key: Key)
    requires Conserved(s) && Bracketed(s) && ClosesAt(s.history, i, j, key)
    ensures TakenAs(s, i, Fails(s.history[j]))
  {
    assert i in s.spans && s.spans[i].key == key;
    assert FinishIn(s.history, key, i + 1, |s.history|);
    var held;
    match s.place[i] {
      case InTable(k) => assert false;
      case InHand(t) => held := s.held[t];
      case Closed =>
        assert AmongEnded(s.ended, i);
        var m :| 0 <= m < |s.ended| && s.ended[m].span == i;
        held := s.ended[m];
    }
    assert ClosedAs(s.history, s.spans, held);
    var j': nat :| ClosesAt(s.history, i, j', key) && held.failed == Fails(s.history[j']);
    FirstFinishUnique(s.history, i, j, j', key);
  }

  /** After any notifications from any threads, the open phases are those the log leaves
      open, and the phases taken out, with their failure marks, are those it closes. */
  lemma TablesMatchLog(steps: seq<Step>)
    requires Follows(NOTHING_YET, steps)
    ensures var s := Reached(NOTHING_YET, steps);
            && (forall k, i: nat :: (k in s.open && s.open[k] == i) <==> StillOpen(s.history, i, k))
            && (forall i: nat, j: nat, k | ClosesAt(s.history, i, j, k) :: TakenAs(s, i, Fails(s.history[j])))
            && (forall t | t in s.held :: ClosedAs(s.history, s.spans, s.held[t]))
            && (forall j | 0 <= j < |s.ended| :: ClosedAs(s.history, s.spans, s.ended[j]))
  {
    StartsSound();
    RunsSound(NOTHING_YET, steps);
    var s := Reached(NOTHING_YET, steps);
    forall k, i: nat { OpenIff(s, k, i); }
    forall i: nat, j: nat, k | ClosesAt(s.history, i, j, k) ensures TakenAs(s, i, Fails(s.history[j])) {
      ClosedTaken(s, i, j, k);
    }
  }

  /** Atom spans hang under the flow span that was open when they started. */
  lemma FlowParentage(steps: seq<Step>, i: nat)
    requires Follows(NOTHING_YET, steps) && i in Reached(NOTHING_YET, steps).spans
    ensures var s := Reached(NOTHING_YET, steps);
            i < |s.history| && ParentRight(s.history, s.spans, i)
  {
    StartsSound();
    RunsSound(NOTHING_YET, steps);
  }

  /** An atom's span is in the trace of the flow span that is open when it starts, and a flow
      span is in the trace current when the flow runs, if there is one. */
  lemma SpansJoinTheTrace(steps: seq<Step>, i: nat, f: nat)
    requires Follows(NOTHING_YET, steps) && i in Reached(NOTHING_YET, steps).spans
    ensures var s := Reached(NOTHING_YET, steps);
            i < |s.history|
            && (s.spans[i].key.Phase? && StillOpen(s.history[..i], f, Flow(s.spans[i].key.engine)) ==>
                  f in s.spans && Open([i], s.spans[i].parent).trace == Open([f], s.spans[f].parent).trace)
            && (s.spans[i].key.Flow? && s.history[i].ambient.Active? ==>
                  Open([i], s.spans[i].parent).trace == s.history[i].ambient.span.trace)
  {
    FlowParentage(steps, i);
  }

  /** In notification `k`, after its closing state at `j`, the flow of engine `e` runs again
      for the first time. */
  ghost predicate ResumesAt(h: seq<Notice>, e: nat, j: nat, k: nat) {
    && j < k < |h| && Finishes(h[j]) == Some(Flow(e)) && StartsAt(h, k, Flow(e))
    && forall i: nat | j < i < k :: !StartsAt(h, i, Flow(e))
  }

  lemma ResumeOpens(h: seq<Notice>, e: nat, j: nat, k: nat)
    requires ResumesAt(h, e, j, k)
    ensures OpensAt(h, k, Flow(e))
    ensures forall i: nat | i < k && OpensAt(h, i, Flow(e)) :: FinishIn(h, Flow(e), i + 1, k)
  {
    forall i: nat | i < k && StartsAt(h, i, Flow(e)) ensures FinishIn(h, Flow(e), i + 1, k) {
      StartIsNoFinish(h[j]);
      assert i < j;
    }
  }

  lemma StartIsNoFinish(n: Notice)
    ensures Starts(n).None? || Finishes(n).None?
  {
  }

  lemma OpensInPrefix(h: seq<Notice>, k: nat, i: nat, key: Key)
    requires OpensAt(h, k, key) && k < i <= |h| && !FinishIn(h, key, k + 1, i)
    ensures StillOpen(h[..i], k, key)
  {
    var g := h[..i];
    assert forall m | 0 <= m < i :: g[m] == h[m];
    forall j: nat | j < k && StartsAt(g, j, key) ensures FinishIn(g, key, j + 1, k) {
      assert StartsAt(h, j, key) && FinishIn(h, key, j + 1, k);
      var m :| j + 1 <= m < k && Finishes(h[m]) == Some(key);
      assert Finishes(g[m]) == Some(key);
    }
  }

  /** In every run, a flow that was finished or suspended and runs again gets a span of its
      own, whatever came between: every earlier flow span of the engine is closed by then,
      and the atoms that start until the flow's next closing state are under the new one. */
  lemma ResumeOpensNewFlow(steps: seq<Step>, e: nat, j: nat, k: nat)
    requires Follows(NOTHING_YET, steps) && ResumesAt(Reached(NOTHING_YET, steps).history, e, j, k)
    ensures var s := Reached(NOTHING_YET, steps);
            && k in s.spans && s.spans[k] == Opening(Flow(e), s.history[k].ambient)
            && (forall i: nat | i < k && i in s.spans && s.spans[i].key == Flow(e) ::
                  FinishIn(s.history, Flow(e), i + 1, k))
            && (forall i: nat | k < i && i in s.spans && s.spans[i].key.Phase? && s.spans[i].key.engine == e
                                && i <= |s.history| && !FinishIn(s.history, Flow(e), k + 1, i) ::
                  s.spans[i].parent == ContextOf(k, s.spans[k].parent))
  {
    StartsSound();
    RunsSound(NOTHING_YET, steps);
    var s := Reached(NOTHING_YET, steps);
    ResumeOpens(s.history, e, j, k);
    assert k in s.spans && s.spans[k].key == Flow(e);
    assert ParentRight(s.history, s.spans, k);
    hide OpensAt, StillOpen, FinishIn, Conserved, Reached, Follows;
    forall i: nat | k < i && i in s.spans && s.spans[i].key.Phase? && s.spans[i].key.engine == e
                    && i <= |s.history| && !FinishIn(s.history, Flow(e), k + 1, i)
      ensures s.spans[i].parent == ContextOf(k, s.spans[k].parent)
    {
      assert ParentRight(s.history, s.spans, i);
      OpensInPrefix(s.history, k, i, Flow(e));
    }
  }

  // ---- What each state means ----------------------------------------------------------------

  ghost predicate SameElsewhere(s: Tracker, d: Tracker, key: Key) {
    forall k | k != key :: (k in d.open <==> k in s.open) && (k in s.open ==> d.open[k] == s.open[k])
  }

  /** `key` is open now: still, or with a new span. */
  ghost predicate Opened(s: Tracker, d: Tracker, key: Key) {
    && key in d.open && d.held == s.held && d.ended == s.ended && SameElsewhere(s, d, key)
    && (if key in s.open then d.open[key] == s.open[key] && d.spans == s.spans
        else d.open[key] == |s.history| && d.spans.Keys == s.spans.Keys + {|s.history|})
  }

  /** `key` is not open now; its span, if it was, is in the hands of `thread`, marked `failed`. */
  ghost predicate Shut(s: Tracker, d: Tracker, thread: nat, key: Key, failed: bool) {
    && key !in d.open && d.ended == s.ended && d.spans == s.spans && SameElsewhere(s, d, key)
    && d.held == if key in s.open then s.held[thread := Held(s.open[key], failed)] else s.held
  }

  lemma StartOpens(s: Tracker, thread: nat, n: Notice, key: Key)
    requires Starts(n) == Some(key) && |s.history| !in s.spans && (forall e :: Flow(e) in s.open <==> e in s.flows)
    ensures Opened(s, Notified(s, thread, n), key)
    ensures key.Flow? ==> key.engine in Notified(s, thread, n).flows
  {
    if key in s.open { StartIsNoFinish(n); }
  }

  lemma FinishShuts(s: Tracker, thread: nat, n: Notice, key: Key)
    requires Finishes(n) == Some(key) && (forall e :: Flow(e) in s.open <==> e in s.flows)
    ensures Shut(s, Notified(s, thread, n), thread, key, Fails(n))
    ensures key.Flow? ==> key.engine !in Notified(s, thread, n).flows
  {
    StartIsNoFinish(n);
  }

  lemma OnlyNoted(s: Tracker, thread: nat, n: Notice)
    requires Starts(n) == None && Finishes(n) == None
    ensures Notified(s, thread, n) == s.(history := s.history + [n])
  {
  }

  /** In every reachable state, what a flow's states do to its span. */
  lemma FlowStates(steps: seq<Step>, thread: nat, e: nat, state: State, ambient: Context)
    requires Follows(NOTHING_YET, steps) && thread !in Reached(NOTHING_YET, steps).held
    ensures var s := Reached(NOTHING_YET, steps);
            var d := Take(s, Notify(thread, FlowNotice(e, state, ambient)));
            && (state == RUNNING ==> Opened(s, d, Flow(e)) && e in d.flows)
            && (state in {SUCCESS, SUSPENDED} ==> Shut(s, d, thread, Flow(e), false) && e !in d.flows)
            && (state in {FAILURE, REVERTED, REVERT_FAILURE} ==> Shut(s, d, thread, Flow(e), true) && e !in d.flows)
            && (state !in {RUNNING, SUCCESS, SUSPENDED, FAILURE, REVERTED, REVERT_FAILURE} ==>
                  d == s.(history := s.history + [FlowNotice(e, state, ambient)]))
  {
    StartsSound();
    RunsSound(NOTHING_YET, steps);
    hide SoundStates, Reached, Follows, Opened, Shut, Notified;
    var s, n := Reached(NOTHING_YET, steps), FlowNotice(e, state, ambient);
    FlowsFollow(s);
    if state == RUNNING {
      StartOpens(s, thread, n, Flow(e));
    } else if state in {SUCCESS, SUSPENDED, FAILURE, REVERTED, REVERT_FAILURE} {
      FinishShuts(s, thread, n, Flow(e));
    } else {
      OnlyNoted(s, thread, n);
    }
  }

  lemma FlowsFollow(s: Tracker)
    requires s in SoundStates()
    ensures forall e :: Flow(e) in s.open <==> e in s.flows
    ensures |s.history| !in s.spans
  {
  }

  /** In every reachable state, what an atom's states do to the spans of its phases. */
  lemma AtomStates(steps: seq<Step>, thread: nat, e: nat, uuid: string, state: State, ambient: Context)
    requires Follows(NOTHING_YET, steps) && thread !in Reached(NOTHING_YET, steps).held
    ensures var s := Reached(NOTHING_YET, steps);
            var d := Take(s, Notify(thread, AtomNotice(e, uuid, state, ambient)));
            && (state == RUNNING ==> Opened(s, d, Phase(e, uuid, Execute)))
            && (state == REVERTING ==> Opened(s, d, Phase(e, uuid, Revert)))
            && (state == SUCCESS ==> Shut(s, d, thread, Phase(e, uuid, Execute), false))
            && (state == FAILURE ==> Shut(s, d, thread, Phase(e, uuid, Execute), true))
            && (state == REVERTED ==> Shut(s, d, thread, Phase(e, uuid, Revert), false))
            && (state == REVERT_FAILURE ==> Shut(s, d, thread, Phase(e, uuid, Revert), true))
            && (state !in {RUNNING, REVERTING, SUCCESS, FAILURE, REVERTED, REVERT_FAILURE} ==>
                  d == s.(history := s.history + [AtomNotice(e, uuid, state, ambient)]))
  {
    StartsSound();
    RunsSound(NOTHING_YET, steps);
    hide SoundStates, Reached, Follows, Opened, Shut, Notified;
    var s, n := Reached(NOTHING_YET, steps), AtomNotice(e, uuid, state, ambient);
    FlowsFollow(s);
    if state in {RUNNING, REVERTING} {
      StartOpens(s, thread, n, Starts(n).value);
    } else if state in {SUCCESS, FAILURE, REVERTED, REVERT_FAILURE} {
      FinishShuts(s, thread, n, Finishes(n).value);
    } else {
      OnlyNoted(s, thread, n);
    }
  }

  ghost predicate About(n: Notice, key: Key) {
    n.engine == key.engine && if key.Flow? then n.FlowNotice? else n.AtomNotice? && n.uuid == key.uuid
  }

  /** A state of `opening` was notified, and none of `closing` since. */
  ghost predicate LastWord(h: seq<Notice>, key: Key, opening: set<State>, closing: set<State>) {
    exists j :: 0 <= j < |h| && About(h[j], key) && h[j].state in opening
                && forall k | j < k < |h| && About(h[k], key) :: h[k].state !in closing
  }

  lemma OpenByStates(s: Tracker, key: Key, opening: set<State>, closing: set<State>)
    requires s in SoundStates()
    requires forall n :: Starts(n) == Some(key) <==> About(n, key) && n.state in opening
    requires forall n :: Finishes(n) == Some(key) <==> About(n, key) && n.state in closing
    ensures key in s.open <==> LastWord(s.history, key, opening, closing)
  {
    var h := s.history;
    if key in s.open {
      assert StillOpen(h, s.open[key], key);
      assert StartsAt(h, s.open[key], key);
    }
    if LastWord(h, key, opening, closing) {
      var j: nat :| j < |h| && About(h[j], key) && h[j].state in opening
                    && forall k | j < k < |h| && About(h[k], key) :: h[k].state !in closing;
      assert StartsAt(h, j, key) && !FinishIn(h, key, j + 1, |h|);
    }
  }

  lemma FlowByStates(s: Tracker, e: nat)
    requires s in SoundStates()
    ensures Flow(e) in s.open <==>
              LastWord(s.history, Flow(e), {RUNNING}, {SUCCESS, FAILURE, REVERTED, REVERT_FAILURE, SUSPENDED})
  {
    hide SoundStates, LastWord;
    OpenByStates(s, Flow(e), {RUNNING}, {SUCCESS, FAILURE, REVERTED, REVERT_FAILURE, SUSPENDED});
  }

  lemma PhasesByStates(s: Tracker, e: nat, uuid: string)
    requires s in SoundStates()
    ensures Phase(e, uuid, Execute) in s.open <==>
              LastWord(s.history, Phase(e, uuid, Execute), {RUNNING}, {SUCCESS, FAILURE})
    ensures Phase(e, uuid, Revert) in s.open <==>
              LastWord(s.history, Phase(e, uuid, Revert), {REVERTING}, {REVERTED, REVERT_FAILURE})
  {
    hide SoundStates, LastWord;
    OpenByStates(s, Phase(e, uuid, Execute), {RUNNING}, {SUCCESS, FAILURE});
    OpenByStates(s, Phase(e, uuid, Revert), {REVERTING}, {REVERTED, REVERT_FAILURE});
  }

  /** In every run, with the states written out: what is open now is decided by the last
      relevant state notified. */
  lemma OpenByLastWord(steps: seq<Step>, e: nat, uuid: string)
    requires Follows(NOTHING_YET, steps)
    ensures var s := Reached(NOTHING_YET, steps);
            && (Flow(e) in s.open <==>
                  LastWord(s.history, Flow(e), {RUNNING}, {SUCCESS, FAILURE, REVERTED, REVERT_FAILURE, SUSPENDED}))
            && (Phase(e, uuid, Execute) in s.open <==>
                  LastWord(s.history, Phase(e, uuid, Execute), {RUNNING}, {SUCCESS, FAILURE}))
            && (Phase(e, uuid, Revert) in s.open <==>
                  LastWord(s.history, Phase(e, uuid, Revert), {REVERTING}, {REVERTED, REVERT_FAILURE}))
  {
    StartsSound();
    RunsSound(NOTHING_YET, steps);
    var s := Reached(NOTHING_YET, steps);
    hide SoundStates, LastWord;
    FlowByStates(s, e);
    PhasesByStates(s, e, uuid);
  }

  /** A flow that was suspended is no longer open, and opens anew when it runs again. */
  lemma SuspendedResumes(ambient: Context)
    ensures var run, rest := FlowNotice(0, RUNNING, ambient), FlowNotice(0, SUSPENDED, ambient);
            var s := Notified(Notified(NOTHING_YET, 0, run), 0, rest);
            && Flow(0) !in s.open && s.held == map[0 := Held(0, false)]
            && Notified(Released(s, 0), 0, run).open == map[Flow(0) := 2]
  {
  }
}
