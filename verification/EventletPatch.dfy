/** Monkey-patching eventlet at start-up: hide this package's directory from `PYTHONPATH`
    while it happens, and put the variable back on every way out. */
module EventletPatch {
  import opened Spans
  import WsgiHeaders

  const PATHSEP := ':'
  const PYTHONPATH := "PYTHONPATH"
  const OPT_IN := "OTEL_PYTHON_EVENTLET_MONKEY_PATCH"
  const BACKEND := "OTEL_PYTHON_OSLO_SERVICE_BACKEND"

  // ---- str.split and str.join -----------------------------------------------------------

  function Split(s: string): (parts: seq<string>)
    ensures parts != []
  {
    if s == "" then [""]
    else
      var rest := Split(s[1..]);
      if s[0] == PATHSEP then [""] + rest else [[s[0]] + rest[0]] + rest[1..]
  }

  function Join(parts: seq<string>): string {
    if parts == [] then ""
    else if |parts| == 1 then parts[0]
    else parts[0] + [PATHSEP] + Join(parts[1..])
  }

  function Without(parts: seq<string>, entry: string): seq<string> {
    if parts == [] then []
    else (if parts[0] != entry then [parts[0]] else []) + Without(parts[1..], entry)
  }

  ghost predicate Plain(parts: seq<string>) {
    forall i | 0 <= i < |parts| :: PATHSEP !in parts[i]
  }

  lemma {:induction false} JoinOfSplit(s: string)
    ensures Join(Split(s)) == s && Plain(Split(s))
  {
    if s != "" {
      JoinOfSplit(s[1..]);
      var rest := Split(s[1..]);
      if s[0] == PATHSEP {
        assert ([""] + rest)[1..] == rest;
        assert Join(Split(s)) == "" + [PATHSEP] + Join(rest);
      } else {
        var parts := [[s[0]] + rest[0]] + rest[1..];
        assert parts[1..] == rest[1..];
        if |rest| > 1 {
          assert Join(parts) == [s[0]] + rest[0] + [PATHSEP] + Join(rest[1..]) == [s[0]] + Join(rest);
        }
      }
    }
  }

  lemma {:induction false} SplitPlain(s: string)
    requires PATHSEP !in s
    ensures Split(s) == [s]
  {
    if s != "" {
      SplitPlain(s[1..]);
      assert s == [s[0]] + s[1..];
    }
  }

  lemma {:induction false} SplitAfter(a: string, b: string)
    requires PATHSEP !in a
    ensures Split(a + [PATHSEP] + b) == [a] + Split(b)
  {
    var s := a + [PATHSEP] + b;
    if a == "" {
      assert s[1..] == b;
    } else {
      assert s[1..] == a[1..] + [PATHSEP] + b;
      SplitAfter(a[1..], b);
      assert a == [a[0]] + a[1..];
      assert ([a[1..]] + Split(b))[1..] == Split(b);
    }
  }

  lemma {:induction false} SplitOfJoin(parts: seq<string>)
    requires parts != [] && Plain(parts)
    ensures Split(Join(parts)) == parts
  {
    if |parts| == 1 {
      SplitPlain(parts[0]);
    } else {
      SplitOfJoin(parts[1..]);
      SplitAfter(parts[0], Join(parts[1..]));
    }
  }

  function Count(parts: seq<string>, entry: string): nat {
    if parts == [] then 0
    else Count(parts[..|parts| - 1], entry) + if parts[|parts| - 1] == entry then 1 else 0
  }

  /** `rest` is the other entries, all of them and in order: each moves up by the number of
      removed entries in front of it. */
  ghost predicate Others(parts: seq<string>, entry: string, rest: seq<string>) {
    && |rest| == |parts| - Count(parts, entry)
    && forall k: nat | k < |parts| && parts[k] != entry ::
         var j := k - Count(parts[..k], entry);
         0 <= j < |rest| && rest[j] == parts[k]
  }

  lemma {:induction false} WithoutLast(parts: seq<string>, last: string, entry: string)
    ensures Without(parts + [last], entry) == Without(parts, entry) + if last != entry then [last] else []
  {
    if parts != [] {
      WithoutLast(parts[1..], last, entry);
      assert (parts + [last])[1..] == parts[1..] + [last];
    }
  }

  lemma {:induction false} WithoutOthers(parts: seq<string>, entry: string)
    ensures Others(parts, entry, Without(parts, entry))
    decreases |parts|
  {
    if parts != [] {
      var init, last := parts[..|parts| - 1], parts[|parts| - 1];
      WithoutOthers(init, entry);
      WithoutLast(init, last, entry);
      assert parts == init + [last];
      OthersThen(init, last, entry, Without(init, entry));
    }
  }

  lemma CountThen(parts: seq<string>, last: string, entry: string)
    ensures Count(parts + [last], entry) == Count(parts, entry) + if last == entry then 1 else 0
  {
    assert (parts + [last])[..|parts|] == parts;
  }

  lemma OthersThen(parts: seq<string>, last: string, entry: string, rest: seq<string>)
    requires Others(parts, entry, rest)
    ensures Others(parts + [last], entry, rest + if last != entry then [last] else [])
  {
    CountThen(parts, last, entry);
    hide Count;
    var all, longer := parts + [last], rest + if last != entry then [last] else [];
    forall k: nat | k < |all| && all[k] != entry
      ensures var j := k - Count(all[..k], entry); 0 <= j < |longer| && longer[j] == all[k]
    {
      if k < |parts| {
        assert all[..k] == parts[..k] && parts[k] == all[k];
      } else {
        assert all[..k] == parts;
      }
    }
  }

  lemma {:induction false} WithoutEntry(parts: seq<string>, entry: string)
    ensures entry !in Without(parts, entry)
    ensures Plain(parts) ==> Plain(Without(parts, entry))
  {
    if parts != [] { WithoutEntry(parts[1..], entry); }
  }

  /** What a process started meanwhile finds in `PYTHONPATH`: exactly the other entries,
      or the empty entry if there are none; never this directory. */
  lemma StrippedPath(path: string, thisDir: string)
    requires thisDir != ""
    ensures var rest := Without(Split(path), thisDir);
            && Others(Split(path), thisDir, rest)
            && Split(Join(rest)) == (if rest == [] then [""] else rest)
            && thisDir !in Split(Join(rest))
  {
    JoinOfSplit(path);
    WithoutOthers(Split(path), thisDir);
    WithoutEntry(Split(path), thisDir);
    var rest := Without(Split(path), thisDir);
    if rest != [] { SplitOfJoin(rest); }
  }

  // ---- The process ------------------------------------------------------------------------

  type Vars = map<string, string>

  /** How patching goes: importing and patching eventlet may fail or raise, and so may, once
      the backend is pinned, the fork handler's registration and the unpatching of the SDK. */
  datatype Attempt =
    | Patched | NoEventlet | Crashed(error: nat) | HookCrashed(error: nat) | SdkCrashed(error: nat)
  {
    predicate Raises() { Crashed? || HookCrashed? || SdkCrashed? }
    predicate Pins() { Patched? || HookCrashed? || SdkCrashed? }
    predicate Hooks() { Patched? || SdkCrashed? }
  }

  function Lookup(vars: Vars, name: string): Option<string> {
    if name in vars then Some(vars[name]) else None
  }

  predicate IsSpace(c: char) { c == ' ' || '\t' <= c <= '\r' || '\U{1C}' <= c <= '\U{1F}' }

  function Strip(s: string): string {
    if s != "" && IsSpace(s[0]) then Strip(s[1..])
    else if s != "" && IsSpace(s[|s| - 1]) then Strip(s[..|s| - 1])
    else s
  }

  predicate OptedIn(vars: Vars) {
    OPT_IN in vars && WsgiHeaders.Each(c => WsgiHeaders.LowerChar(c), Strip(vars[OPT_IN])) == "true"
  }

  ghost predicate AllSpace(s: string) { forall i | 0 <= i < |s| :: IsSpace(s[i]) }

  lemma {:induction false} StripBetween(a: string, t: string, b: string)
    requires AllSpace(a) && AllSpace(b) && t != "" && !IsSpace(t[0]) && !IsSpace(t[|t| - 1])
    ensures Strip(a + t + b) == t
    decreases |a| + |b|
  {
    var s := a + t + b;
    if a != "" {
      assert s[0] == a[0] && s[1..] == a[1..] + t + b;
      StripBetween(a[1..], t, b);
    } else if b != "" {
      assert s[0] == t[0] && s[|s| - 1] == b[|b| - 1] && s[..|s| - 1] == a + t + b[..|b| - 1];
      StripBetween(a, t, b[..|b| - 1]);
    } else {
      assert s == t;
    }
  }

  lemma {:induction false} StripParts(s: string) returns (a: string, b: string)
    ensures s == a + Strip(s) + b && AllSpace(a) && AllSpace(b)
    decreases |s|
  {
    a, b := "", "";
    if s != "" && IsSpace(s[0]) {
      a, b := StripParts(s[1..]);
      Prepended(s[0], a, Strip(s[1..]), b);
      assert s == [s[0]] + s[1..];
      a := [s[0]] + a;
    } else if s != "" && IsSpace(s[|s| - 1]) {
      var n := |s| - 1;
      a, b := StripParts(s[..n]);
      Postponed(a, Strip(s[..n]), b, s[n]);
      assert s == s[..n] + [s[n]];
      b := b + [s[n]];
    }
  }

  lemma Prepended(c: char, a: string, m: string, b: string)
    ensures [c] + (a + m + b) == ([c] + a) + m + b
  {
  }

  lemma Postponed(a: string, m: string, b: string, c: char)
    ensures (a + m + b) + [c] == a + m + (b + [c])
  {
  }

  ghost predicate SaysTrue(t: string) {
    |t| == 4 && t[0] in "tT" && t[1] in "rR" && t[2] in "uU" && t[3] in "eE"
  }

  lemma LowerTrue(t: string)
    ensures WsgiHeaders.Each(c => WsgiHeaders.LowerChar(c), t) == "true" <==> SaysTrue(t)
  {
    var lower := WsgiHeaders.Each(c => WsgiHeaders.LowerChar(c), t);
    if |t| == 4 {
      assert forall i | 0 <= i < 4 :: lower[i] == WsgiHeaders.LowerChar(t[i]);
      assert lower == [lower[0], lower[1], lower[2], lower[3]];
      assert "true" == ['t', 'r', 'u', 'e'];
    }
  }

  /** Opted in: the variable says "true" in any case, with white space around it or not. */
  lemma OptedInIff(vars: Vars)
    ensures OptedIn(vars) <==>
              "OTEL_PYTHON_EVENTLET_MONKEY_PATCH" in vars
              && exists a, t, b :: vars["OTEL_PYTHON_EVENTLET_MONKEY_PATCH"] == a + t + b
                                   && AllSpace(a) && AllSpace(b) && SaysTrue(t)
  {
    hide Strip, AllSpace;
    if OPT_IN in vars {
      var s := vars[OPT_IN];
      LowerTrue(Strip(s));
      var a, b := StripParts(s);
      if a', t, b' :| s == a' + t + b' && AllSpace(a') && AllSpace(b') && SaysTrue(t) { StripBetween(a', t, b'); }
    }
  }

  /** The entries of `PYTHONPATH`; none if it is unset or empty. */
  function Entries(vars: Vars): seq<string> {
    if PYTHONPATH in vars && vars[PYTHONPATH] != "" then Split(vars[PYTHONPATH]) else []
  }

  class Process {
    var vars: Vars
    var forkhookInstalled: bool
    var forkHandlers: nat
    const canFork: bool

    constructor (vars: Vars, canFork: bool)
      ensures this.vars == vars && this.canFork == canFork && HooksRight() && forkHandlers == 0
    {
      this.vars, this.canFork, forkhookInstalled, forkHandlers := vars, canFork, false, 0;
    }

    /** The handler cannot be removed, so it is registered at most once. */
    ghost predicate HooksRight()
      reads `forkhookInstalled, `forkHandlers
    {
      forkHandlers == if forkhookInstalled then 1 else 0
    }

    method RegisterForkhook() returns (installed: bool)
      requires HooksRight()
      modifies `forkhookInstalled, `forkHandlers
      ensures HooksRight() && installed == forkhookInstalled
      ensures installed <==> canFork || old(forkhookInstalled)
    {
      if forkhookInstalled { return true; }
      if !canFork { return false; }
      forkHandlers := forkHandlers + 1;
      forkhookInstalled := true;
      return true;
    }

    /** Enter the block: `saved` is what the exit has to put back, if anything. */
    method HidePath(thisDir: string) returns (saved: Option<string>)
      modifies `vars
      ensures thisDir in Entries(old(vars)) ==>
                && saved == Some(old(vars)[PYTHONPATH])
                && vars == old(vars)[PYTHONPATH := Join(Without(Split(old(vars)[PYTHONPATH]), thisDir))]
      ensures thisDir !in Entries(old(vars)) ==> saved == None && vars == old(vars)
    {
      var original := Lookup(vars, PYTHONPATH);
      var entries := if original.Some? && original.value != "" then Split(original.value) else [];
      if thisDir !in entries { return None; }
      vars := vars[PYTHONPATH := Join(Without(entries, thisDir))];
      return original;
    }

    static lemma EmptyPath()
      ensures Split("") == [""]
    {
    }

    method RestorePath(saved: Option<string>)
      modifies `vars
      ensures vars == if saved.Some? then old(vars)[PYTHONPATH := saved.value] else old(vars)
    {
      if saved.Some? { vars := vars[PYTHONPATH := saved.value]; }
    }

    /** What is left to do in the block once eventlet has been imported and patched, or not. */
    method PinBackend(attempt: Attempt) returns (raised: Option<nat>)
      requires HooksRight()
      modifies this
      ensures HooksRight()
      ensures vars == if attempt.Pins() then old(vars)[BACKEND := "eventlet"] else old(vars)
      ensures raised == if attempt.Raises() then Some(attempt.error) else None
      ensures attempt.Hooks() ==> (forkhookInstalled <==> canFork || old(forkhookInstalled))
      ensures !attempt.Hooks() ==> forkHandlers == old(forkHandlers)
    {
      raised := None;
      match attempt {
        case NoEventlet =>
        case Crashed(error) => raised := Some(error);
        case HookCrashed(error) =>
          vars := vars[BACKEND := "eventlet"];
          raised := Some(error);
        case SdkCrashed(error) =>
          vars := vars[BACKEND := "eventlet"];
          var _ := RegisterForkhook();
          raised := Some(error);
        case Patched =>
          vars := vars[BACKEND := "eventlet"];
          var _ := RegisterForkhook();
      }
    }

    /** `attempt` is how patching goes and `during` what it does to the environment.  `seen` is
        the environment that anything started meanwhile inherits. */
    method TryPatch(thisDir: string, attempt: Attempt, during: Vars -> Vars)
      returns (seen: Option<Vars>, raised: Option<nat>)
      requires thisDir != "" && HooksRight()
      modifies this
      ensures HooksRight()
      ensures seen.None? <==> !OptedIn(old(vars))
      ensures seen.None? ==> vars == old(vars) && raised == None && forkHandlers == old(forkHandlers)
      ensures seen.Some? && "PYTHONPATH" in seen.value ==> thisDir !in Split(seen.value["PYTHONPATH"])
      ensures seen.Some? && "PYTHONPATH" in old(vars) && thisDir in Split(old(vars)["PYTHONPATH"]) ==>
                Lookup(vars, "PYTHONPATH") == Some(old(vars)["PYTHONPATH"])
      ensures seen.Some? && thisDir in Entries(old(vars)) ==>
                && seen.value == old(vars)[PYTHONPATH := Join(Without(Split(old(vars)[PYTHONPATH]), thisDir))]
                && Lookup(vars, PYTHONPATH) == Some(old(vars)[PYTHONPATH])
      ensures seen.Some? && thisDir !in Entries(old(vars)) ==>
                seen.value == old(vars) && Lookup(vars, PYTHONPATH) == Lookup(during(old(vars)), PYTHONPATH)
      ensures seen.Some? ==> forall name | name !in {PYTHONPATH, BACKEND} ::
                Lookup(vars, name) == Lookup(during(seen.value), name)
      ensures raised.Some? <==> seen.Some? && !attempt.Patched? && !attempt.NoEventlet?
      ensures raised.Some? ==> raised.value == attempt.error
      ensures seen.Some? && (attempt.Patched? || attempt.HookCrashed? || attempt.SdkCrashed?) ==>
                Lookup(vars, "OTEL_PYTHON_OSLO_SERVICE_BACKEND") == Some("eventlet")
      ensures seen.Some? && (attempt.NoEventlet? || attempt.Crashed?) ==>
                Lookup(vars, BACKEND) == Lookup(during(seen.value), BACKEND)
      ensures seen.Some? && (attempt.Patched? || attempt.SdkCrashed?) ==>
                (forkhookInstalled <==> canFork || old(forkhookInstalled))
      ensures !attempt.Patched? && !attempt.SdkCrashed? ==> forkHandlers == old(forkHandlers)
    {
      hide Split, Join, Without, Strip;
      EmptyPath();
      if !OptedIn(vars) { return None, None; }
      var saved := HidePath(thisDir);
      if saved.Some? { StrippedPath(saved.value, thisDir); }
      seen := Some(vars);
      vars := during(vars);
      raised := PinBackend(attempt);
      RestorePath(saved);
    }
  }
}
