/** Every span of a run has its own id, and is ended exactly once, after it started:
    on any workers, whatever their contexts, and whatever leaks or raises on them. */
module Lifetimes {
  import opened Spans
  import opened Programs
  import opened Scheduler
  import opened Schedules

  ghost predicate Apart(a: Path, b: Path) { !(a <= b) && !(b <= a) }

  /** The queued items sit at positions of their own. */
  ghost predicate Distinct(pool: seq<Pending>) {
    forall i, j | 0 <= i < j < |pool| :: Apart(pool[i].path, pool[j].path)
  }

  lemma PrefixesComparable(a: Path, b: Path, s: Path)
    requires a <= s && b <= s
    ensures a <= b || b <= a
  {
    if |a| <= |b| { assert a == s[..|a|] == b[..|a|]; } else { assert b == s[..|b|] == a[..|b|]; }
  }

  // ---- Every position is used at most once ------------------------------------------------

  function Has(path: Path, x: Path): nat { if path <= x then 1 else 0 }

  /** How many pieces of unfinished work on a stack could still use position `x`. */
  function Claims(k: Stack, x: Path): nat {
    match k
    case Nil => 0
    case Push(Run(_, path), rest) => Has(path, x) + Claims(rest, x)
    case Push(Catch(_, path), rest) => Has(path, x) + Claims(rest, x)
    case Push(_, rest) => Claims(rest, x)
  }

  function ClaimsOfWorker(x: Path): Worker -> nat { (w: Worker) => Claims(w.stack, x) }

  function ClaimsOfItem(x: Path): Pending -> nat { (item: Pending) => Has(item.path, x) }

  function IsUse(x: Path): Event -> nat { (e: Event) => if !e.Ended? && e.id == x then 1 else 0 }

  /** How often `x` names a span or a record of the log. */
  function Uses(log: seq<Event>, x: Path): nat { Tally(IsUse(x), log) }

  /** Uses of `x` so far and still possible. */
  function Room(c: Config, x: Path): nat {
    Uses(c.log, x) + Tally(ClaimsOfWorker(x), c.workers) + Tally(ClaimsOfItem(x), c.pool)
  }

  lemma ChildClaims(path: Path, x: Path)
    ensures Has(path + [0], x) + Has(path + [1], x) + (if x == path then 1 else 0) <= Has(path, x)
  {
    if path + [0] <= x || path + [1] <= x { assert path <= x && x[|path|] in {0, 1}; }
  }

  lemma ProgRoom(w: Worker, p: Prog, path: Path, rest: Stack, x: Path)
    ensures var e := StepProg(w, p, path, rest);
            && |e.emitted| <= 1 && |e.shipped| <= 1
            && (if e.emitted == [] then 0 else IsUse(x)(e.emitted[0])) + Claims(e.worker.stack, x)
               + (if e.shipped == [] then 0 else ClaimsOfItem(x)(e.shipped[0])) <= Has(path, x) + Claims(rest, x)
  {
    hide Inject, Extract;
    ChildClaims(path, x);
    assert Claims(Push(Detach(w.current), Push(End(path), rest)), x) == Claims(rest, x);
    assert Claims(Push(Detach(w.current), rest), x) == Claims(rest, x);
  }

  lemma {:induction false} StepRoom(w: Worker, x: Path)
    requires w.stack.Push?
    ensures var e := Step(w);
            Uses(e.emitted, x) + Claims(e.worker.stack, x) + Tally(ClaimsOfItem(x), e.shipped) <= Claims(w.stack, x)
  {
    hide StepProg, Tally;
    AtMostOne(IsUse(x), Step(w).emitted);
    AtMostOne(ClaimsOfItem(x), Step(w).shipped);
    if w.stack.top.Run? { ProgRoom(w, w.stack.top.prog, w.stack.top.path, w.stack.rest, x); }
  }

  lemma NextRoom(c: Config, m: Move, x: Path)
    requires Enabled(c, m)
    ensures Room(Next(c, m), x) <= Room(c, x)
  {
    hide Step, Claims;
    match m {
      case Advance(i) =>
        var e := Step(c.workers[i]);
        StepRoom(c.workers[i], x);
        TallyUpdate(ClaimsOfWorker(x), c.workers, i, e.worker);
        TallyConcat(ClaimsOfItem(x), c.pool, e.shipped);
        TallyConcat(IsUse(x), c.log, e.emitted);
      case Pick(i, j) =>
        TallyUpdate(ClaimsOfWorker(x), c.workers, i, Next(c, m).workers[i]);
        TallySplit(ClaimsOfItem(x), c.pool, j);
        PickedClaims(c.pool[j], x);
    }
  }

  lemma {:induction false} RunRoom(c: Config, moves: seq<Move>, x: Path)
    requires Feasible(c, moves)
    ensures Room(After(c, moves), x) <= Room(c, x)
    decreases |moves|
  {
    if moves != [] {
      NextRoom(c, moves[0], x);
      RunRoom(Next(c, moves[0]), moves[1..], x);
    }
  }

  lemma PickedClaims(item: Pending, x: Path)
    ensures Claims(Push(Run(item.prog, item.path), Nil), x) == Has(item.path, x)
  {
    assert Claims(Nil, x) == 0;
  }

  lemma {:induction false} IdleClaims(workers: seq<Worker>, x: Path)
    requires forall i | 0 <= i < |workers| :: workers[i].stack.Nil?
    ensures Tally(ClaimsOfWorker(x), workers) == 0
  {
    if workers != [] { IdleClaims(workers[1..], x); }
  }

  lemma {:induction false} NoClaims(pool: seq<Pending>, x: Path)
    requires forall j | 0 <= j < |pool| :: !(pool[j].path <= x)
    ensures Tally(ClaimsOfItem(x), pool) == 0
  {
    if pool != [] { NoClaims(pool[1..], x); }
  }

  lemma {:induction false} DistinctClaims(pool: seq<Pending>, x: Path)
    requires Distinct(pool)
    ensures Tally(ClaimsOfItem(x), pool) <= 1
  {
    if pool != [] {
      if pool[0].path <= x {
        forall j | 0 <= j < |pool[1..]| ensures !(pool[1..][j].path <= x) {
          assert Apart(pool[0].path, pool[j + 1].path);
          if pool[j + 1].path <= x { PrefixesComparable(pool[0].path, pool[j + 1].path, x); }
        }
        NoClaims(pool[1..], x);
      } else {
        forall i, j | 0 <= i < j < |pool[1..]| ensures Apart(pool[1..][i].path, pool[1..][j].path) {
          assert Apart(pool[i + 1].path, pool[j + 1].path);
        }
        DistinctClaims(pool[1..], x);
      }
    }
  }

  lemma {:induction false} FreshRoom(c: Config, x: Path)
    requires Fresh(c)
    ensures Distinct(c.pool) ==> Room(c, x) <= 1
    ensures (forall j | 0 <= j < |c.pool| :: !(c.pool[j].path <= x)) ==> Room(c, x) == 0
  {
    IdleClaims(c.workers, x);
    if Distinct(c.pool) { DistinctClaims(c.pool, x); }
    if forall j | 0 <= j < |c.pool| :: !(c.pool[j].path <= x) { NoClaims(c.pool, x); }
  }

  // ---- Starts and ends balance --------------------------------------------------------------

  /** How many frames of a stack still have to end span `x`. */
  function Owed(k: Stack, x: Path): nat {
    match k
    case Nil => 0
    case Push(End(id), rest) => (if id == x then 1 else 0) + Owed(rest, x)
    case Push(_, rest) => Owed(rest, x)
  }

  function OwedByWorker(x: Path): Worker -> nat { (w: Worker) => Owed(w.stack, x) }

  function IsStart(x: Path): Event -> nat { (e: Event) => if e.Started? && e.id == x then 1 else 0 }

  function IsEnd(x: Path): Event -> nat { (e: Event) => if e.Ended? && e.id == x then 1 else 0 }

  function Starts(log: seq<Event>, x: Path): nat { Tally(IsStart(x), log) }

  function Ends(log: seq<Event>, x: Path): nat { Tally(IsEnd(x), log) }

  /** Each start of `x` has its end, or a frame that will end it; and no end comes first. */
  ghost predicate Balanced(c: Config, x: Path) {
    && Starts(c.log, x) == Ends(c.log, x) + Tally(OwedByWorker(x), c.workers)
    && forall k | 0 <= k <= |c.log| :: Ends(c.log[..k], x) <= Starts(c.log[..k], x)
  }

  lemma ProgOwed(w: Worker, p: Prog, path: Path, rest: Stack, x: Path)
    ensures var e := StepProg(w, p, path, rest);
            && |e.emitted| <= 1
            && (if e.emitted == [] then 0 else IsStart(x)(e.emitted[0])) + Owed(rest, x)
               == (if e.emitted == [] then 0 else IsEnd(x)(e.emitted[0])) + Owed(e.worker.stack, x)
  {
    hide Inject, Extract;
    assert Owed(Push(Detach(w.current), Push(End(path), rest)), x) == (if path == x then 1 else 0) + Owed(rest, x);
    match p
    case Seq(_, b) => assert Owed(Push(Run(b, path + [1]), rest), x) == Owed(rest, x);
    case Try(_, h) => assert Owed(Push(Catch(h, path + [1]), rest), x) == Owed(rest, x);
    case _ => assert Owed(Push(Detach(w.current), rest), x) == Owed(rest, x);
  }

  lemma {:induction false} StepOwed(w: Worker, x: Path)
    requires w.stack.Push?
    ensures var e := Step(w);
            && |e.emitted| <= 1
            && Starts(e.emitted, x) + Owed(w.stack, x) == Ends(e.emitted, x) + Owed(e.worker.stack, x)
  {
    hide StepProg, Tally;
    AtMostOne(IsStart(x), Step(w).emitted);
    AtMostOne(IsEnd(x), Step(w).emitted);
    if w.stack.top.Run? { ProgOwed(w, w.stack.top.prog, w.stack.top.path, w.stack.rest, x); }
  }

  lemma NextBalanced(c: Config, m: Move, x: Path)
    requires Balanced(c, x) && Enabled(c, m)
    ensures Balanced(Next(c, m), x)
  {
    var d := Next(c, m);
    hide Step, Owed;
    match m {
      case Advance(i) =>
        var e := Step(c.workers[i]);
        StepOwed(c.workers[i], x);
        TallyUpdate(OwedByWorker(x), c.workers, i, e.worker);
        TallyConcat(IsStart(x), c.log, e.emitted);
        TallyConcat(IsEnd(x), c.log, e.emitted);
        forall k | 0 <= k <= |d.log| ensures Ends(d.log[..k], x) <= Starts(d.log[..k], x) {
          if k <= |c.log| { assert d.log[..k] == c.log[..k]; } else { assert d.log[..k] == d.log; }
        }
      case Pick(i, j) =>
        TallyUpdate(OwedByWorker(x), c.workers, i, d.workers[i]);
        PickedOwed(c.pool[j], x);
    }
  }

  lemma {:induction false} RunBalanced(c: Config, moves: seq<Move>, x: Path)
    requires Balanced(c, x) && Feasible(c, moves)
    ensures Balanced(After(c, moves), x)
    decreases |moves|
  {
    if moves != [] {
      NextBalanced(c, moves[0], x);
      hide Balanced;
      RunBalanced(Next(c, moves[0]), moves[1..], x);
    }
  }

  lemma PickedOwed(item: Pending, x: Path)
    ensures Owed(Push(Run(item.prog, item.path), Nil), x) == 0 == Owed(Nil, x)
  {
  }

  lemma {:induction false} NoneOwed(workers: seq<Worker>, x: Path)
    requires forall i | 0 <= i < |workers| :: workers[i].stack.Nil?
    ensures Tally(OwedByWorker(x), workers) == 0
  {
    if workers != [] { NoneOwed(workers[1..], x); }
  }

  // ---- Whole runs -----------------------------------------------------------------------------

  /** At every moment of every run, each position names at most one span or record; each span
      started has ended once, or has one frame on a stack that will end it; and no span has
      ended before it started.  When a run is complete, all have ended. */
  lemma {:induction false} SpansCloseOnce(c: Config, moves: seq<Move>, x: Path)
    requires Fresh(c) && Distinct(c.pool) && Feasible(c, moves)
    ensures var d := After(c, moves);
            && Starts(d.log, x) <= Uses(d.log, x) <= 1
            && Starts(d.log, x) == Ends(d.log, x) + Tally(OwedByWorker(x), d.workers)
            && (forall k | 0 <= k <= |d.log| :: Ends(d.log[..k], x) <= Starts(d.log[..k], x))
            && (Finished(d) ==> Starts(d.log, x) == Ends(d.log, x))
  {
    var d := After(c, moves);
    FreshRoom(c, x);
    RunRoom(c, moves, x);
    StartsAreUses(d.log, x);
    NoneOwed(c.workers, x);
    RunBalanced(c, moves, x);
    if Finished(d) { NoneOwed(d.workers, x); }
  }

  lemma {:induction false} StartsAreUses(log: seq<Event>, x: Path)
    ensures Starts(log, x) <= Uses(log, x)
  {
    if log != [] { StartsAreUses(log[1..], x); }
  }

  lemma UsedAt(log: seq<Event>, k: nat)
    requires k < |log| && !log[k].Ended?
    ensures Uses(log, log[k].id) >= 1
  {
    TallySplit(IsUse(log[k].id), log, k);
  }

  /** Two starts at different places of a log with one use of `x` cannot both be of `x`. */
  lemma {:induction false} UsedOnce(log: seq<Event>, x: Path, j: nat, k: nat)
    requires Uses(log, x) <= 1 && j < |log| && k < |log|
    requires !log[j].Ended? && !log[k].Ended? && log[j].id == x == log[k].id
    ensures j == k
  {
    TallySplit(IsUse(x), log, j);
    var rest := log[..j] + log[j + 1..];
    if j != k {
      TallySplit(IsUse(x), rest, if k < j then k else k - 1);
      assert false;
    }
  }
}
