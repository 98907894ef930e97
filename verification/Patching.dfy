/** Putting wrappers in place and taking them off again, exactly. */
module Patching {
  import opened Spans

  datatype Owner = Ours | Other(name: nat)

  /** A wrapper: whose it is, and whether it is a proxy that `unwrap` recognises. */
  datatype Layer = Layer(owner: Owner, proxy: bool)

  /** A function with the wrappers on it, innermost first. */
  datatype Fn = Fn(name: string, layers: seq<Layer>) {
    function Under(layer: Layer): Fn { this.(layers := layers + [layer]) }
  }

  const PROXY := Layer(Ours, true)
  const CLOSURE := Layer(Ours, false)

  // ---- Concurrency entry points (threads, greenthreads, pools) ---------------------------

  /** An owner and the name of one of its attributes. */
  datatype Target = Target(owner: string, name: string)

  type Attributes = map<Target, Fn>

  /** `unwrap` takes the outermost wrapper off, whosever it is, if it is a proxy. */
  function Unwrapped(f: Fn): Fn {
    var n := |f.layers|;
    if n > 0 && f.layers[n - 1].proxy then f.(layers := f.layers[..n - 1]) else f
  }

  predicate AllIn(targets: seq<Target>, m: Attributes) {
    forall i | 0 <= i < |targets| :: targets[i] in m
  }

  function WrapAll(m: Attributes, targets: seq<Target>): (r: Attributes)
    requires AllIn(targets, m)
    ensures r.Keys == m.Keys
  {
    if targets == [] then m
    else
      var before, t := WrapAll(m, targets[..|targets| - 1]), targets[|targets| - 1];
      before[t := before[t].Under(PROXY)]
  }

  function UnwrapAll(m: Attributes, targets: seq<Target>): (r: Attributes)
    requires AllIn(targets, m)
    ensures r.Keys == m.Keys
  {
    if targets == [] then m
    else
      var before, t := UnwrapAll(m, targets[..|targets| - 1]), targets[|targets| - 1];
      before[t := Unwrapped(before[t])]
  }

  /** A wrapper that somebody else puts on an attribute. */
  datatype Foreign<K> = Foreign(target: K, name: nat, proxy: bool) {
    function Wrapper(): Layer { Layer(Other(name), proxy) }
  }

  predicate ForeignIn<K>(foreign: seq<Foreign<K>>, m: map<K, Fn>) {
    forall i | 0 <= i < |foreign| :: foreign[i].target in m
  }

  function CoverAll<K>(m: map<K, Fn>, foreign: seq<Foreign<K>>): (r: map<K, Fn>)
    requires ForeignIn(foreign, m)
    ensures r.Keys == m.Keys
  {
    if foreign == [] then m
    else
      var before, last := CoverAll(m, foreign[..|foreign| - 1]), foreign[|foreign| - 1];
      before[last.target := before[last.target].Under(last.Wrapper())]
  }

  /** The wrappers that `targets` and `foreign` put on `t`. */
  function OursOn(targets: seq<Target>, t: Target): seq<Layer> {
    if targets == [] then []
    else OursOn(targets[..|targets| - 1], t) + if targets[|targets| - 1] == t then [PROXY] else []
  }

  function ForeignOn<K(==)>(foreign: seq<Foreign<K>>, t: K): seq<Layer> {
    if foreign == [] then []
    else
      var last := foreign[|foreign| - 1];
      ForeignOn(foreign[..|foreign| - 1], t) + if last.target == t then [last.Wrapper()] else []
  }

  function Peeled(f: Fn, n: nat): Fn {
    if n == 0 then f else Unwrapped(Peeled(f, n - 1))
  }

  lemma {:induction false} WrapAllAt(m: Attributes, targets: seq<Target>, t: Target)
    requires AllIn(targets, m) && t in m
    ensures WrapAll(m, targets)[t] == Fn(m[t].name, m[t].layers + OursOn(targets, t))
  {
    if targets != [] {
      WrapAllAt(m, targets[..|targets| - 1], t);
    }
  }

  lemma {:induction false} CoverAllAt<K>(m: map<K, Fn>, foreign: seq<Foreign<K>>, t: K)
    requires ForeignIn(foreign, m) && t in m
    ensures CoverAll(m, foreign)[t] == Fn(m[t].name, m[t].layers + ForeignOn(foreign, t))
  {
    if foreign != [] {
      CoverAllAt(m, foreign[..|foreign| - 1], t);
    }
  }

  lemma {:induction false} UnwrapAllAt(m: Attributes, targets: seq<Target>, t: Target)
    requires AllIn(targets, m) && t in m
    ensures UnwrapAll(m, targets)[t] == Peeled(m[t], |OursOn(targets, t)|)
  {
    if targets != [] {
      UnwrapAllAt(m, targets[..|targets| - 1], t);
    }
  }

  lemma {:induction false} OursAreProxies(targets: seq<Target>, t: Target)
    ensures forall i | 0 <= i < |OursOn(targets, t)| :: OursOn(targets, t)[i] == PROXY
    ensures t in targets <==> OursOn(targets, t) != []
  {
    if targets != [] {
      OursAreProxies(targets[..|targets| - 1], t);
      assert targets == targets[..|targets| - 1] + [targets[|targets| - 1]];
    }
  }

  lemma {:induction false} ForeignAreForeign<K>(foreign: seq<Foreign<K>>, t: K)
    ensures forall i | 0 <= i < |ForeignOn(foreign, t)| :: ForeignOn(foreign, t)[i].owner.Other?
    ensures (exists i :: 0 <= i < |foreign| && foreign[i].target == t) <==> ForeignOn(foreign, t) != []
  {
    if foreign != [] {
      var n := |foreign| - 1;
      ForeignAreForeign(foreign[..n], t);
      if foreign[n].target != t {
        if i :| 0 <= i < |foreign| && foreign[i].target == t { assert foreign[..n][i].target == t; }
      }
    }
  }

  /** Peeling takes off at most so many, from the outside, and that many if all are proxies. */
  lemma {:induction false} PeeledPrefix(f: Fn, n: nat)
    ensures Peeled(f, n).name == f.name && Peeled(f, n).layers <= f.layers
    ensures |Peeled(f, n).layers| >= |f.layers| - n
    ensures n <= |f.layers| && (forall i | |f.layers| - n <= i < |f.layers| :: f.layers[i].proxy) ==>
              Peeled(f, n).layers == f.layers[..|f.layers| - n]
  {
    if n > 0 { PeeledPrefix(f, n - 1); }
  }

  /** What uninstalling leaves on `t`, if others wrapped it after we did. */
  lemma {:induction false} LeftOn(m: Attributes, targets: seq<Target>, foreign: seq<Foreign<Target>>, t: Target)
    requires AllIn(targets, m) && ForeignIn(foreign, m) && t in m
    ensures UnwrapAll(CoverAll(WrapAll(m, targets), foreign), targets)[t] == CoverAll(m, foreign)[t]
            <==> t !in targets || ForeignOn(foreign, t) == []
  {
    hide WrapAll, UnwrapAll, CoverAll, OursOn, ForeignOn, Peeled;
    var own, ours, theirs := m[t].layers, OursOn(targets, t), ForeignOn(foreign, t);
    var covered := CoverAll(WrapAll(m, targets), foreign);
    WrapAllAt(m, targets, t);
    CoverAllAt(WrapAll(m, targets), foreign, t);
    CoverAllAt(m, foreign, t);
    UnwrapAllAt(covered, targets, t);
    OursAreProxies(targets, t);
    ForeignAreForeign(foreign, t);
    PeeledPrefix(covered[t], |ours|);
    assert covered[t].layers == own + ours + theirs;
    if ours == [] {
      assert own + ours + theirs == own + theirs;
    } else if theirs == [] {
      assert (own + ours + theirs)[..|own|] == own && own + theirs == own;
    } else {
      var left := Peeled(covered[t], |ours|).layers;
      assert left[|own|] == PROXY && (own + theirs)[|own|] == theirs[0];
    }
  }

  /** Uninstalling takes off exactly our wrappers and leaves everybody else's if and only if
      nobody has wrapped one of our targets since: wrappers elsewhere do not matter. */
  lemma {:induction false} UninstallExactIff(m: Attributes, targets: seq<Target>, foreign: seq<Foreign<Target>>)
    requires AllIn(targets, m) && ForeignIn(foreign, m)
    ensures UnwrapAll(CoverAll(WrapAll(m, targets), foreign), targets) == CoverAll(m, foreign)
            <==> forall i | 0 <= i < |foreign| :: foreign[i].target !in targets
  {
    var left := UnwrapAll(CoverAll(WrapAll(m, targets), foreign), targets);
    forall t | t in m ensures left[t] == CoverAll(m, foreign)[t] <==> t !in targets || ForeignOn(foreign, t) == [] {
      LeftOn(m, targets, foreign, t);
    }
    forall t ensures (exists i :: 0 <= i < |foreign| && foreign[i].target == t) <==> ForeignOn(foreign, t) != [] {
      ForeignAreForeign(foreign, t);
    }
    if i :| 0 <= i < |foreign| && foreign[i].target in targets {
      assert left[foreign[i].target] != CoverAll(m, foreign)[foreign[i].target];
    } else {
      assert forall t | t in m :: left[t] == CoverAll(m, foreign)[t];
    }
  }

  /** If nobody has, every attribute is as it was, even if a target occurs twice and although
      wrappers come off in the order they went on. */
  lemma InstallThenUninstall(m: Attributes, targets: seq<Target>)
    requires AllIn(targets, m)
    ensures UnwrapAll(WrapAll(m, targets), targets) == m
  {
    UninstallExactIff(m, targets, []);
  }

  /** Somebody wraps a target of ours: if with a proxy, it comes off instead of ours; if not,
      ours stays on under it. */
  lemma CollidingWrappers(m: Attributes, t: Target, name: nat)
    requires t in m && m[t].layers == []
    ensures var theirs := Foreign(t, name, true);
            && CoverAll(m, [theirs])[t].layers == [theirs.Wrapper()]
            && UnwrapAll(CoverAll(WrapAll(m, [t]), [theirs]), [t])[t].layers == [PROXY]
    ensures var theirs := Foreign(t, name, false);
            UnwrapAll(CoverAll(WrapAll(m, [t]), [theirs]), [t])[t].layers == [PROXY, theirs.Wrapper()]
  {
    assert [t][..0] == [];
    assert [Foreign(t, name, true)][..0] == [] == [Foreign(t, name, false)][..0];
  }

  class EntryPoints {
    var attributes: Attributes

    constructor (attributes: Attributes)
      ensures this.attributes == attributes
    {
      this.attributes := attributes;
    }

    /** Wraps the thread methods, then the spawns and submits; returns what was wrapped. */
    method Install(threads: seq<Target>, spawns: seq<Target>) returns (wrapped: seq<Target>)
      requires AllIn(threads + spawns, attributes)
      modifies this
      ensures wrapped == threads + spawns
      ensures attributes == WrapAll(old(attributes), wrapped)
    {
      wrapped := [];
      var targets := threads + spawns;
      for i := 0 to |targets|
        invariant wrapped == targets[..i]
        invariant attributes == WrapAll(old(attributes), targets[..i])
      {
        assert targets[..i + 1][..i] == targets[..i];
        attributes := attributes[targets[i] := attributes[targets[i]].Under(PROXY)];
        wrapped := wrapped + [targets[i]];
      }
      assert targets[..|targets|] == targets;
    }

    method Uninstall(wrapped: seq<Target>)
      requires AllIn(wrapped, attributes)
      modifies this
      ensures attributes == UnwrapAll(old(attributes), wrapped)
    {
      for i := 0 to |wrapped|
        invariant attributes == UnwrapAll(old(attributes), wrapped[..i])
      {
        assert wrapped[..i + 1][..i] == wrapped[..i];
        attributes := attributes[wrapped[i] := Unwrapped(attributes[wrapped[i]])];
      }
      assert wrapped[..|wrapped|] == wrapped;
    }

    method InstallAndUninstall(threads: seq<Target>, spawns: seq<Target>)
      requires AllIn(threads + spawns, attributes)
      modifies this
      ensures attributes == old(attributes)
    {
      var wrapped := Install(threads, spawns);
      InstallThenUninstall(old(attributes), wrapped);
      Uninstall(wrapped);
    }
  }

  // ---- TaskFlow's engine and atom-body functions -------------------------------------------

  const ATOM_BODIES := ["_execute_task", "_revert_task", "_execute_retry", "_revert_retry"]

  type Module = map<string, Fn>

  predicate HasBodies(m: Module) { forall i | 0 <= i < |ATOM_BODIES| :: ATOM_BODIES[i] in m }

  /** The module with exactly its atom-body functions wrapped, each once. */
  function Traced(m: Module): Module
    requires HasBodies(m)
  {
    map name | name in m :: if name in ATOM_BODIES then m[name].Under(CLOSURE) else m[name]
  }

  /** The functions that `patch_atom_bodies` saves. */
  function Originals(m: Module): Module { map name | name in m && name in ATOM_BODIES :: m[name] }

  lemma RestoredAt(m: Module, foreign: seq<Foreign<string>>, t: string)
    requires HasBodies(m) && ForeignIn(foreign, m) && t in m
    ensures (CoverAll(Traced(m), foreign) + Originals(m))[t] == CoverAll(m, foreign)[t]
            <==> t !in ATOM_BODIES || ForeignOn(foreign, t) == []
  {
    hide CoverAll, ForeignOn;
    CoverAllAt(Traced(m), foreign, t);
    CoverAllAt(m, foreign, t);
    AddedLayers(m[t], ForeignOn(foreign, t));
  }

  lemma AddedLayers(f: Fn, layers: seq<Layer>)
    ensures f == Fn(f.name, f.layers + layers) <==> layers == []
  {
    assert layers == [] <==> |f.layers + layers| == |f.layers|;
  }

  /** Others wrap functions of the module, and the engine's initialiser, while they are patched:
      putting the originals back leaves everybody else's wrappers as they are if and only if
      none of them is on the initialiser or an atom body.  Those that are get dropped. */
  lemma {:induction false} RestoreExactIff(init: Fn, onInit: seq<Layer>, m: Module, foreign: seq<Foreign<string>>)
    requires HasBodies(m) && ForeignIn(foreign, m)
    ensures init == Fn(init.name, init.layers + onInit)
            && CoverAll(Traced(m), foreign) + Originals(m) == CoverAll(m, foreign)
            <==> onInit == [] && forall i | 0 <= i < |foreign| :: foreign[i].target !in ATOM_BODIES
  {
    hide CoverAll, ForeignOn;
    var left := CoverAll(Traced(m), foreign) + Originals(m);
    AddedLayers(init, onInit);
    forall t | t in m ensures left[t] == CoverAll(m, foreign)[t] <==> t !in ATOM_BODIES || ForeignOn(foreign, t) == [] {
      RestoredAt(m, foreign, t);
    }
    forall t ensures (exists i :: 0 <= i < |foreign| && foreign[i].target == t) <==> ForeignOn(foreign, t) != [] {
      ForeignAreForeign(foreign, t);
    }
    if i :| 0 <= i < |foreign| && foreign[i].target in ATOM_BODIES {
      assert left[foreign[i].target] != CoverAll(m, foreign)[foreign[i].target];
    } else {
      assert forall t | t in m :: left[t] == CoverAll(m, foreign)[t];
    }
  }

  class TaskflowInstrumentor {
    var originalEngineInit: Option<Fn>
    var originalAtomBodies: Option<Module>
    var engineInit: Fn
    var executor: Module
    ghost const pristineInit: Fn
    ghost const pristineExecutor: Module

    constructor (engineInit: Fn, executor: Module)
      requires HasBodies(executor)
      ensures Valid() && !Instrumented()
      ensures pristineInit == engineInit && pristineExecutor == executor
    {
      this.engineInit, this.executor := engineInit, executor;
      originalEngineInit, originalAtomBodies := None, None;
      pristineInit, pristineExecutor := engineInit, executor;
    }

    ghost predicate Instrumented()
      reads this
    {
      originalEngineInit.Some?
    }

    /** Either everything is as it was, or everything is wrapped exactly once. */
    ghost predicate Valid()
      reads this
    {
      && HasBodies(pristineExecutor)
      && match originalEngineInit
         case None =>
           originalAtomBodies == None && engineInit == pristineInit && executor == pristineExecutor
         case Some(init) =>
           && init == pristineInit && engineInit == pristineInit.Under(CLOSURE)
           && originalAtomBodies == Some(Originals(pristineExecutor))
           && executor == Traced(pristineExecutor)
    }

    /** What holds even if others have wrapped functions in between. */
    ghost predicate Saved()
      reads this
    {
      && HasBodies(executor)
      && (originalAtomBodies.Some? <==> originalEngineInit.Some?)
      && (originalAtomBodies.Some? ==> originalAtomBodies.value.Keys == set name | name in ATOM_BODIES)
    }

    lemma ValidSaved()
      requires Valid()
      ensures Saved()
    {
    }

    method PatchAtomBodies() returns (originals: Module)
      requires HasBodies(executor)
      modifies `executor
      ensures executor == Traced(old(executor))
      ensures originals == Originals(old(executor))
      ensures executor.Keys == old(executor).Keys
      ensures forall name | name in executor ::
                if name in {"_execute_task", "_revert_task", "_execute_retry", "_revert_retry"}
                then executor[name] == Fn(old(executor)[name].name, old(executor)[name].layers + [CLOSURE])
                     && name in originals && originals[name] == old(executor)[name]
                else executor[name] == old(executor)[name] && name !in originals
    {
      originals := map[];
      for i := 0 to |ATOM_BODIES|
        invariant executor.Keys == old(executor).Keys
        invariant forall name | name in executor ::
          executor[name] == if name in ATOM_BODIES[..i] then old(executor)[name].Under(CLOSURE) else old(executor)[name]
        invariant originals.Keys == set name | name in ATOM_BODIES[..i]
        invariant forall name | name in originals :: originals[name] == old(executor)[name]
      {
        var name := ATOM_BODIES[i];
        BodiesDistinct(i);
        originals := originals[name := executor[name]];
        executor := executor[name := executor[name].Under(CLOSURE)];
        assert ATOM_BODIES[..i + 1] == ATOM_BODIES[..i] + [name];
      }
      assert ATOM_BODIES[..|ATOM_BODIES|] == ATOM_BODIES;
    }

    static lemma BodiesDistinct(i: nat)
      requires i < |ATOM_BODIES|
      ensures ATOM_BODIES[i] !in ATOM_BODIES[..i]
    {
      assert |"_execute_task"| == 13 && |"_revert_task"| == 12 && |"_execute_retry"| == 14 && |"_revert_retry"| == 13;
      assert "_execute_task"[1] != "_revert_retry"[1];
    }

    method UnpatchAtomBodies(originals: Module)
      requires originals.Keys <= executor.Keys
      modifies `executor
      ensures executor == old(executor) + originals
    {
      var todo := originals.Keys;
      while todo != {}
        invariant todo <= originals.Keys
        invariant executor == old(executor) + (originals - todo)
        decreases |todo|
      {
        var name :| name in todo;
        todo := todo - {name};
        executor := executor[name := originals[name]];
      }
    }

    /** `available`: taskflow can be imported. */
    method Instrument(available: bool)
      requires Saved()
      modifies this
      ensures Saved() && (Instrumented() <==> old(Instrumented()) || available)
      ensures old(Instrumented()) || !available ==> unchanged(this)
      ensures !old(Instrumented()) && available ==>
                && originalEngineInit == Some(old(engineInit)) && engineInit == old(engineInit).Under(CLOSURE)
                && originalAtomBodies == Some(Originals(old(executor))) && executor == Traced(old(executor))
    {
      if originalEngineInit.Some? { return; }
      if !available { return; }
      var originals := PatchAtomBodies();
      originalAtomBodies := Some(originals);
      originalEngineInit := Some(engineInit);
      engineInit := engineInit.Under(CLOSURE);
      assert originals.Keys == set name | name in ATOM_BODIES;
    }

    method Uninstrument()
      requires Saved()
      modifies this
      ensures Saved() && !Instrumented()
      ensures !old(Instrumented()) ==> unchanged(this)
      ensures old(Instrumented()) ==>
                && engineInit == old(originalEngineInit).value
                && executor == old(executor) + old(originalAtomBodies).value
    {
      if originalEngineInit.None? { return; }
      engineInit := originalEngineInit.value;
      originalEngineInit := None;
      UnpatchAtomBodies(originalAtomBodies.value);
      originalAtomBodies := None;
    }

    /** One round, with others wrapping functions in the middle of it. */
    method AmongOthers(onInit: seq<Layer>, foreign: seq<Foreign<string>>)
      requires Saved() && !Instrumented() && ForeignIn(foreign, executor)
      modifies this
      ensures engineInit == old(engineInit)
      ensures old(engineInit) == Fn(old(engineInit).name, old(engineInit).layers + onInit)
              && executor == CoverAll(old(executor), foreign)
              <==> onInit == [] && forall i | 0 <= i < |foreign| :: foreign[i].target !in ATOM_BODIES
    {
      RestoreExactIff(engineInit, onInit, executor, foreign);
      Instrument(true);
      engineInit := Fn(engineInit.name, engineInit.layers + onInit);
      executor := CoverAll(executor, foreign);
      Uninstrument();
    }

    /** Over any sequence of calls (`true`: instrument), what is left is decided by the last. */
    method Cycle(calls: seq<bool>)
      requires Valid()
      modifies this
      ensures Valid()
      ensures calls != [] ==> (Instrumented() <==> calls[|calls| - 1])
      ensures calls != [] && !calls[|calls| - 1] ==> engineInit == pristineInit && executor == pristineExecutor
      ensures calls != [] && calls[|calls| - 1] ==>
                engineInit == pristineInit.Under(CLOSURE) && executor == Traced(pristineExecutor)
    {
      for i := 0 to |calls|
        invariant Valid()
        invariant i > 0 ==> (Instrumented() <==> calls[i - 1])
      {
        ValidSaved();
        if calls[i] {
          Instrument(true);
        } else {
          Uninstrument();
          assert executor == pristineExecutor;
        }
      }
    }
  }
}
