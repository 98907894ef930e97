/** A span lasts as long as its body: in every run, all that happens inside a span, except in
    work that is handed off there, happens after its start and before its end. */
module Enclosure {
  import opened Spans
  import opened Programs
  import opened Scheduler
  import opened Schedules
  import opened Lifetimes
  import opened Traces

  /** The positions of the work that a run hands off. */
  function HandedOff(c: Config, moves: seq<Move>): set<Path>
    requires Feasible(c, moves)
    decreases |moves|
  {
    if moves == [] then {} else NewlyOff(c, moves[0]) + HandedOff(Next(c, moves[0]), moves[1..])
  }

  function NewlyOff(c: Config, m: Move): set<Path>
    requires Enabled(c, m)
  {
    if m.Pick? then {} else set item | item in Step(c.workers[m.worker]).shipped :: item.path
  }

  /** `p` is inside `x`, and not in or below work handed off inside `x`. */
  ghost predicate Inside(off: set<Path>, x: Path, p: Path) {
    x < p && forall h | h in off :: !(x < h <= p)
  }

  lemma InsideParent(off: set<Path>, x: Path, path: Path, i: nat)
    ensures Inside(off, x, path + [i]) && x != path ==> Inside(off, x, path)
  {
    if x < path + [i] && x != path {
      assert x == path[..|x|];
      forall h | h in off && x < h <= path ensures h <= path + [i] {}
    }
  }

  function At(f: Frame): Path
    requires !f.Detach?
  {
    match f case Run(_, path) => path case Catch(_, path) => path case End(id) => id
  }

  /** No frame is inside `x`. */
  ghost predicate NoneInside(k: Stack, off: set<Path>, x: Path) {
    k.Nil? || ((k.top.Detach? || !Inside(off, x, At(k.top))) && NoneInside(k.rest, off, x))
  }

  /** `x` is still to be ended by a frame of the stack, and nothing inside `x` is below that. */
  ghost predicate Guards(k: Stack, off: set<Path>, x: Path) {
    k.Push? && if k.top == End(x) then NoneInside(k.rest, off, x) else Guards(k.rest, off, x)
  }

  ghost predicate Encloses(k: Stack, off: set<Path>, x: Path) { NoneInside(k, off, x) || Guards(k, off, x) }

  lemma {:induction false} MoreOff(k: Stack, off: set<Path>, more: set<Path>, x: Path)
    ensures NoneInside(k, off, x) ==> NoneInside(k, off + more, x)
    ensures Guards(k, off, x) ==> Guards(k, off + more, x)
  {
    if k.Push? { MoreOff(k.rest, off, more, x); }
  }

  lemma {:induction false} GuardsOwes(k: Stack, off: set<Path>, x: Path)
    requires Guards(k, off, x)
    ensures Owed(k, x) > 0
  {
    if k.top != End(x) { GuardsOwes(k.rest, off, x); }
  }

  // ---- Before a span starts, its position is clear ----------------------------------------

  ghost predicate Clear(k: Stack, x: Path) {
    k.Nil? || ((k.top.Detach? || !(x <= At(k.top))) && Clear(k.rest, x))
  }

  lemma {:induction false} ClearNoneInside(k: Stack, off: set<Path>, x: Path)
    requires Clear(k, x)
    ensures NoneInside(k, off, x)
  {
    if k.Push? { ClearNoneInside(k.rest, off, x); }
  }

  ghost predicate AllBalanced(d: Config) { forall x: Path :: Balanced(d, x) }

  lemma {:induction false} ElsewhereClear(k: Stack, x: Path)
    requires Elsewhere(k, x) && forall y: Path | x <= y :: Owed(k, y) == 0
    ensures Clear(k, x)
  {
    if k.Push? {
      forall y: Path | x <= y ensures Owed(k.rest, y) == 0 { assert Owed(k, y) == 0; }
      ElsewhereClear(k.rest, x);
      if k.top.End? { assert x <= k.top.id ==> Owed(k, k.top.id) == 0; }
    }
  }

  /** What a worker is about to run is the only thing at or below its position. */
  lemma WorkClear(d: Config, i: nat)
    requires Single(d) && AllBalanced(d)
    requires i < |d.workers| && d.workers[i].stack.Push? && d.workers[i].stack.top.Run?
    ensures var path := d.workers[i].stack.top.path;
            && Clear(d.workers[i].stack.rest, path)
            && (forall k | 0 <= k < |d.workers| && k != i :: Clear(d.workers[k].stack, path))
            && (forall j | 0 <= j < |d.pool| :: !(path <= d.pool[j].path))
            && (forall e | e in d.log :: !(path <= e.id))
  {
    var path := d.workers[i].stack.top.path;
    WorkAlone(d, i);
    forall y: Path | path <= y ensures Ends(d.log, y) == 0 && Tally(OwedByWorker(y), d.workers) == 0 {
      NothingAt(d, i, y);
    }
    forall k | 0 <= k < |d.workers| ensures forall y: Path | path <= y :: Owed(d.workers[k].stack, y) == 0 {
      forall y: Path | path <= y ensures Owed(d.workers[k].stack, y) == 0 {
        TallySplit(OwedByWorker(y), d.workers, k);
      }
    }
    forall y: Path | path <= y ensures Owed(d.workers[i].stack.rest, y) == 0 {
      assert Owed(d.workers[i].stack, y) == 0;
    }
    ElsewhereClear(d.workers[i].stack.rest, path);
    forall k | 0 <= k < |d.workers| && k != i ensures Clear(d.workers[k].stack, path) {
      ElsewhereClear(d.workers[k].stack, path);
    }
    forall e | e in d.log ensures !(path <= e.id) {
      if path <= e.id {
        assert e.Ended? && Ends(d.log, e.id) == 0;
        EndedAt(d.log, e);
      }
    }
  }

  lemma EndedAt(log: seq<Event>, e: Event)
    requires e in log && e.Ended?
    ensures Ends(log, e.id) >= 1
  {
    var k: nat :| k < |log| && log[k] == e;
    TallySplit(IsEnd(e.id), log, k);
  }

  lemma NothingAt(d: Config, i: nat, y: Path)
    requires Single(d) && AllBalanced(d)
    requires i < |d.workers| && d.workers[i].stack.Push? && d.workers[i].stack.top.Run?
    requires d.workers[i].stack.top.path <= y
    ensures Starts(d.log, y) == 0 == Ends(d.log, y) && Tally(OwedByWorker(y), d.workers) == 0
  {
    assert Room(d, y) <= 1 && Balanced(d, y);
    TallySplit(ClaimsOfWorker(y), d.workers, i);
    StartsAreUses(d.log, y);
  }

  // ---- The invariant --------------------------------------------------------------------------

  ghost predicate Enclosing(d: Config, off: set<Path>, x: Path) {
    Starts(d.log, x) >= 1 ==>
      && (forall i | 0 <= i < |d.workers| :: Encloses(d.workers[i].stack, off, x))
      && (forall j | 0 <= j < |d.pool| :: !Inside(off, x, d.pool[j].path))
  }

  /** Nothing inside `x` is shown after its end, and nothing at or below it before its start. */
  ghost predicate Ordered(log: seq<Event>, off: set<Path>, x: Path) {
    forall j, k | 0 <= j < k < |log| ::
      && (log[j] == Ended(x) ==> !Inside(off, x, log[k].id))
      && (log[k].Started? && log[k].id == x ==> !(x <= log[j].id))
  }

  ghost predicate Sound(d: Config, off: set<Path>, x: Path) {
    Single(d) && AllBalanced(d) && Enclosing(d, off, x) && Ordered(d.log, off, x)
  }

  lemma Popped(k: Stack, off: set<Path>, x: Path)
    requires k.Push? && Encloses(k, off, x)
    ensures Encloses(k.rest, off, x)
  {
  }

  /** A step puts nothing inside a span that has started already. */
  lemma ProgEncloses(w: Worker, p: Prog, path: Path, rest: Stack, off: set<Path>, x: Path)
    requires Encloses(Push(Run(p, path), rest), off, x) && x != path
    ensures Encloses(StepProg(w, p, path, rest).worker.stack, off, x)
  {
    InsideParent(off, x, path, 0);
    InsideParent(off, x, path, 1);
    if Guards(rest, off, x) {
      GuardsAfter(w, p, path, rest, off, x);
    } else {
      NoneInsideAfter(w, p, path, rest, off, x);
    }
  }

  lemma NoneInsideAfter(w: Worker, p: Prog, path: Path, rest: Stack, off: set<Path>, x: Path)
    requires NoneInside(rest, off, x)
    requires !Inside(off, x, path) && !Inside(off, x, path + [0]) && !Inside(off, x, path + [1])
    ensures NoneInside(StepProg(w, p, path, rest).worker.stack, off, x)
  {
    hide Inside;
    assert NoneInside(Push(Detach(w.current), Push(End(path), rest)), off, x);
    assert NoneInside(Push(Detach(w.current), rest), off, x);
  }

  lemma GuardsAfter(w: Worker, p: Prog, path: Path, rest: Stack, off: set<Path>, x: Path)
    requires Guards(rest, off, x) && x != path
    ensures Guards(StepProg(w, p, path, rest).worker.stack, off, x)
  {
    hide Inside;
    assert Guards(Push(Detach(w.current), Push(End(path), rest)), off, x);
    assert Guards(Push(Detach(w.current), rest), off, x);
  }

  /** Where a span starts, its body is above the frame that ends it, and nothing is below. */
  lemma StartEncloses(w: Worker, p: Prog, path: Path, rest: Stack, off: set<Path>)
    requires Clear(rest, path)
    ensures Encloses(StepProg(w, p, path, rest).worker.stack, off, path)
            || Starts(StepProg(w, p, path, rest).emitted, path) == 0
  {
    ClearNoneInside(rest, off, path);
    hide Inside;
    assert Guards(Push(End(path), rest), off, path);
    assert Guards(Push(Detach(w.current), Push(End(path), rest)), off, path);
    if p.Log? { TallyOne(IsStart(path), Logged(path, w.current)); }
  }

  lemma StepEncloses(w: Worker, off: set<Path>, x: Path)
    requires w.stack.Push? && Encloses(w.stack, off, x) && (w.stack.top.Run? ==> w.stack.top.path != x)
    ensures Encloses(Step(w).worker.stack, off, x)
  {
    hide StepProg, Inside;
    Popped(w.stack, off, x);
    if w.stack.top.Run? && w.outcome.Done? {
      ProgEncloses(w, w.stack.top.prog, w.stack.top.path, w.stack.rest, off, x);
    }
  }

  /** What a step shows is at the position of the frame it takes off. */
  lemma EmittedAt(w: Worker)
    requires w.stack.Push?
    ensures |Step(w).emitted| <= 1
    ensures |Step(w).emitted| == 1 ==> !w.stack.top.Detach? && Step(w).emitted[0].id == At(w.stack.top)
    ensures |Step(w).emitted| == 1 && Step(w).emitted[0].Started? ==> w.stack.top.Run? && w.outcome.Done?
  {
  }

  lemma AdvanceEnclosing(d: Config, i: nat, off: set<Path>, x: Path)
    requires Sound(d, off, x) && Enabled(d, Advance(i))
    ensures Enclosing(Next(d, Advance(i)), off + NewlyOff(d, Advance(i)), x)
  {
    var w, e, n := d.workers[i], Step(d.workers[i]), Next(d, Advance(i));
    var more := off + NewlyOff(d, Advance(i));
    TallyConcat(IsStart(x), d.log, e.emitted);
    if Starts(n.log, x) >= 1 {
      if Starts(d.log, x) >= 1 {
        if w.stack.top.Run? && w.stack.top.path == x { NothingAt(d, i, x); }
        StepEncloses(w, off, x);
        MoreOff(e.worker.stack, off, NewlyOff(d, Advance(i)), x);
      } else {
        StartsAtRun(w, x);
        WorkClear(d, i);
        StartEncloses(w, w.stack.top.prog, x, w.stack.rest, more);
      }
      hide Step, Inside, Encloses, Starts;
      forall k | 0 <= k < |n.workers| ensures Encloses(n.workers[k].stack, more, x) {
        if k != i { OthersEnclose(d, i, k, off, NewlyOff(d, Advance(i)), x); }
      }
      forall j | 0 <= j < |n.pool| ensures !Inside(more, x, n.pool[j].path) {
        PoolOutside(d, i, j, off, x);
      }
    }
  }

  lemma StartsAtRun(w: Worker, x: Path)
    requires w.stack.Push? && Starts(Step(w).emitted, x) >= 1
    ensures w.stack.top.Run? && w.stack.top.path == x && w.outcome.Done?
  {
    EmittedAt(w);
    AtMostOne(IsStart(x), Step(w).emitted);
    hide Step, Tally;
  }

  lemma OthersEnclose(d: Config, i: nat, k: nat, off: set<Path>, more: set<Path>, x: Path)
    requires Sound(d, off, x) && Enabled(d, Advance(i)) && k < |d.workers| && k != i
    requires Starts(d.log, x) >= 1 || Starts(Step(d.workers[i]).emitted, x) >= 1
    ensures Encloses(d.workers[k].stack, off + more, x)
  {
    if Starts(d.log, x) >= 1 {
      MoreOff(d.workers[k].stack, off, more, x);
    } else {
      StartsAtRun(d.workers[i], x);
      WorkClear(d, i);
      ClearNoneInside(d.workers[k].stack, off + more, x);
    }
  }

  lemma PoolOutside(d: Config, i: nat, j: nat, off: set<Path>, x: Path)
    requires Sound(d, off, x) && Enabled(d, Advance(i)) && j < |Next(d, Advance(i)).pool|
    requires Starts(d.log, x) >= 1 || Starts(Step(d.workers[i]).emitted, x) >= 1
    ensures !Inside(off + NewlyOff(d, Advance(i)), x, Next(d, Advance(i)).pool[j].path)
  {
    var e := Step(d.workers[i]);
    if j >= |d.pool| {
      var item := e.shipped[j - |d.pool|];
      assert item in e.shipped && item.path in NewlyOff(d, Advance(i));
    } else if Starts(d.log, x) >= 1 {
      assert !Inside(off, x, d.pool[j].path);
    } else {
      StartsAtRun(d.workers[i], x);
      WorkClear(d, i);
    }
  }

  lemma AdvanceOrdered(d: Config, i: nat, off: set<Path>, x: Path)
    requires Sound(d, off, x) && Enabled(d, Advance(i))
    ensures Ordered(Next(d, Advance(i)).log, off + NewlyOff(d, Advance(i)), x)
  {
    var w, e, n := d.workers[i], Step(d.workers[i]), Next(d, Advance(i));
    EmittedAt(w);
    forall j, k | 0 <= j < k < |n.log|
      ensures n.log[j] == Ended(x) ==> !Inside(off + NewlyOff(d, Advance(i)), x, n.log[k].id)
      ensures n.log[k].Started? && n.log[k].id == x ==> !(x <= n.log[j].id)
    {
      if k < |d.log| {
        assert n.log[j] == d.log[j] && n.log[k] == d.log[k];
      } else {
        assert n.log[j] == d.log[j] && n.log[k] == e.emitted[0];
        if n.log[j] == Ended(x) {
          EndedMeansNone(d, i, off, x, j);
          NoneAtTop(w.stack, off, x);
        }
        if n.log[k].Started? && n.log[k].id == x {
          WorkClear(d, i);
          assert d.log[j] in d.log;
        }
      }
    }
  }

  lemma NoneAtTop(k: Stack, off: set<Path>, x: Path)
    requires NoneInside(k, off, x) && k.Push? && !k.top.Detach?
    ensures !Inside(off, x, At(k.top))
  {
  }

  /** Once a span has ended, nothing inside it is left on any stack or in the queue. */
  lemma EndedMeansNone(d: Config, i: nat, off: set<Path>, x: Path, j: nat)
    requires Sound(d, off, x) && i < |d.workers| && j < |d.log| && d.log[j] == Ended(x)
    ensures NoneInside(d.workers[i].stack, off, x) && Starts(d.log, x) >= 1
  {
    EndedAt(d.log, d.log[j]);
    assert Room(d, x) <= 1 && Balanced(d, x);
    StartsAreUses(d.log, x);
    TallySplit(OwedByWorker(x), d.workers, i);
    if Guards(d.workers[i].stack, off, x) { GuardsOwes(d.workers[i].stack, off, x); }
  }

  lemma PickSound(d: Config, i: nat, j: nat, off: set<Path>, x: Path)
    requires Sound(d, off, x) && Enabled(d, Pick(i, j))
    ensures Enclosing(Next(d, Pick(i, j)), off, x)
  {
    var n := Next(d, Pick(i, j));
    if Starts(d.log, x) >= 1 {
      assert NoneInside(Nil, off, x);
      assert !Inside(off, x, d.pool[j].path);
      hide Inside;
      forall k | 0 <= k < |n.pool| ensures !Inside(off, x, n.pool[k].path) {
        assert n.pool[k] == d.pool[if k < j then k else k + 1];
      }
    }
  }

  lemma NextSound(d: Config, m: Move, off: set<Path>, x: Path)
    requires Sound(d, off, x) && Enabled(d, m)
    ensures Sound(Next(d, m), off + NewlyOff(d, m), x)
  {
    NextSingle(d, m);
    forall y: Path ensures Balanced(Next(d, m), y) { NextBalanced(d, m, y); }
    match m {
      case Advance(i) =>
        AdvanceEnclosing(d, i, off, x);
        AdvanceOrdered(d, i, off, x);
      case Pick(i, j) =>
        PickSound(d, i, j, off, x);
        assert off + {} == off;
    }
  }

  lemma {:induction false} RunSound(d: Config, moves: seq<Move>, off: set<Path>, x: Path)
    requires Sound(d, off, x) && Feasible(d, moves)
    ensures Sound(After(d, moves), off + HandedOff(d, moves), x)
    decreases |moves|
  {
    if moves == [] {
      assert off + {} == off;
    } else {
      NextSound(d, moves[0], off, x);
      hide Sound, NewlyOff;
      RunSound(Next(d, moves[0]), moves[1..], off + NewlyOff(d, moves[0]), x);
      assert off + NewlyOff(d, moves[0]) + HandedOff(Next(d, moves[0]), moves[1..]) == off + HandedOff(d, moves);
    }
  }

  // ---- Whole runs -----------------------------------------------------------------------------

  /** In every run, whatever raises, leaks or is interleaved: once a span has ended, nothing
      that it encloses is left to do, and everything at or below its position that has been
      shown came after its start and, unless it was handed off inside the span, before its
      end. */
  lemma SpansEncloseTheirWork(c: Config, moves: seq<Move>, x: Path)
    requires Fresh(c) && Distinct(c.pool) && Feasible(c, moves)
    ensures var d, off := After(c, moves), HandedOff(c, moves);
            && (Ended(x) in d.log ==> forall i | 0 <= i < |d.workers| :: NoneInside(d.workers[i].stack, off, x))
            && (Ended(x) in d.log ==> forall j | 0 <= j < |d.pool| :: !Inside(off, x, d.pool[j].path))
            && (forall j, k | 0 <= j < k < |d.log| && d.log[j] == Ended(x) :: !Inside(off, x, d.log[k].id))
            && (forall j, k | 0 <= j < k < |d.log| && d.log[k].Started? && d.log[k].id == x :: !(x <= d.log[j].id))
  {
    var d, off := After(c, moves), HandedOff(c, moves);
    FreshSound(c, x);
    RunSound(c, moves, {}, x);
    assert {} + off == off;
    if Ended(x) in d.log {
      var j: nat :| j < |d.log| && d.log[j] == Ended(x);
      EndedAt(d.log, d.log[j]);
      assert Balanced(d, x);
      forall i | 0 <= i < |d.workers| ensures NoneInside(d.workers[i].stack, off, x) {
        EndedMeansNone(d, i, off, x, j);
      }
    }
  }

  lemma FreshSound(c: Config, x: Path)
    requires Fresh(c) && Distinct(c.pool)
    ensures Sound(c, {}, x)
  {
    forall y: Path ensures Room(c, y) <= 1 && Balanced(c, y) {
      FreshRoom(c, y);
      NoneOwed(c.workers, y);
    }
  }
}
