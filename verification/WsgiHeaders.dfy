/** Header names in a WSGI environ (section 4.1.18 of RFC 3875): `traceparent` is stored as
    `HTTP_TRACEPARENT`.  Case folding is ASCII. */
module WsgiHeaders {
  import opened Spans

  function UpperChar(c: char): char {
    if 'a' <= c <= 'z' then (c as int - 32) as char else c
  }

  function LowerChar(c: char): char {
    if 'A' <= c <= 'Z' then (c as int + 32) as char else c
  }

  function Each(f: char -> char, s: string): string {
    seq(|s|, i requires 0 <= i < |s| => f(s[i]))
  }

  const PREFIX := "HTTP_"

  /** The environ key of a header: prefixed, upper-case, underscores for hyphens. */
  function EnvironKey(name: string): string {
    PREFIX + Each(c => if UpperChar(c) == '-' then '_' else UpperChar(c), name)
  }

  predicate IsHeader(key: string) { PREFIX <= key }

  /** The header name that a key stands for. */
  function ListedName(key: string): string
    requires IsHeader(key)
  {
    Each(c => LowerChar(if c == '_' then '-' else c), key[|PREFIX|..])
  }

  /** An environ: its keys in order, and the value of each, which may be `None`. */
  datatype Environ<V> = Environ(order: seq<string>, values: map<string, Option<V>>)

  ghost predicate WellFormed<V>(e: Environ<V>) {
    forall k :: k in e.order <==> k in e.values
  }

  function Get<V>(e: Environ<V>, name: string): Option<seq<V>> {
    if EnvironKey(name) in e.values && e.values[EnvironKey(name)].Some?
    then Some([e.values[EnvironKey(name)].value]) else None
  }

  function ListedNames(order: seq<string>): (names: seq<string>) {
    if order == [] then [] else
      var last := order[|order| - 1];
      ListedNames(order[..|order| - 1]) + if IsHeader(last) then [ListedName(last)] else []
  }

  method Keys<V>(e: Environ<V>) returns (names: seq<string>)
    ensures names == ListedNames(e.order)
    ensures forall n :: n in names <==> exists k :: k in e.order && IsHeader(k) && ListedName(k) == n
  {
    names := [];
    for i := 0 to |e.order|
      invariant names == ListedNames(e.order[..i])
    {
      assert e.order[..i + 1][..i] == e.order[..i];
      if IsHeader(e.order[i]) { names := names + [ListedName(e.order[i])]; }
    }
    assert e.order[..|e.order|] == e.order;
    NamesListed(e.order);
  }

  lemma {:induction false} NamesListed(order: seq<string>)
    ensures forall n :: n in ListedNames(order) <==> exists k :: k in order && IsHeader(k) && ListedName(k) == n
    decreases |order|
  {
    if order != [] {
      var init, last := order[..|order| - 1], order[|order| - 1];
      NamesListed(init);
      assert order == init + [last];
    }
  }

  /** Upper-case and hyphen-free after the prefix. */
  predicate CanonicalKey(key: string) {
    IsHeader(key) && forall i | |PREFIX| <= i < |key| :: !('a' <= key[i] <= 'z') && key[i] != '-'
  }

  /** Lower-case and underscore-free. */
  predicate CanonicalName(name: string) {
    forall i | 0 <= i < |name| :: !('A' <= name[i] <= 'Z') && name[i] != '_'
  }

  /** A listed name leads back to its key exactly when the key is canonical. */
  lemma KeyRoundTrip(key: string)
    requires IsHeader(key)
    ensures EnvironKey(ListedName(key)) == key <==> CanonicalKey(key)
    ensures CanonicalName(ListedName(key))
  {
    var back := EnvironKey(ListedName(key));
    assert |back| == |key|;
    forall i | |PREFIX| <= i < |key|
      ensures back[i] == key[i] <==> !('a' <= key[i] <= 'z') && key[i] != '-'
    {
      var c := key[|PREFIX|..][i - |PREFIX|];
      assert c == key[i];
      assert ListedName(key)[i - |PREFIX|] == LowerChar(if c == '_' then '-' else c);
    }
    assert forall i | 0 <= i < |PREFIX| :: back[i] == PREFIX[i] == key[i];
    if CanonicalKey(key) {
      assert forall i | 0 <= i < |key| :: back[i] == key[i];
    } else {
      var i :| |PREFIX| <= i < |key| && !(!('a' <= key[i] <= 'z') && key[i] != '-');
      assert back[i] != key[i];
    }
  }

  /** A name leads back to itself through its key exactly when the name is canonical. */
  lemma NameRoundTrip(name: string)
    ensures ListedName(EnvironKey(name)) == name <==> CanonicalName(name)
    ensures CanonicalKey(EnvironKey(name))
  {
    var key := EnvironKey(name);
    var back := ListedName(key);
    forall i | 0 <= i < |name|
      ensures back[i] == name[i] <==> !('A' <= name[i] <= 'Z') && name[i] != '_'
    {
      assert key[|PREFIX|..][i] == key[i + |PREFIX|];
    }
    if !CanonicalName(name) {
      var i :| 0 <= i < |name| && !(!('A' <= name[i] <= 'Z') && name[i] != '_');
      assert back[i] != name[i];
    } else {
      assert forall i | 0 <= i < |name| :: back[i] == name[i];
    }
  }

  /** No canonical key is listed twice. */
  lemma {:induction false} NamesDistinct(order: seq<string>)
    requires forall i, j | 0 <= i < j < |order| :: order[i] != order[j]
    requires forall k | k in order && IsHeader(k) :: CanonicalKey(k)
    ensures forall i, j | 0 <= i < j < |ListedNames(order)| :: ListedNames(order)[i] != ListedNames(order)[j]
    decreases |order|
  {
    if order != [] {
      var init, last := order[..|order| - 1], order[|order| - 1];
      assert order == init + [last];
      NamesDistinct(init);
      if IsHeader(last) && ListedName(last) in ListedNames(init) {
        NamesListed(init);
        var k :| k in init && IsHeader(k) && ListedName(k) == ListedName(last);
        KeyRoundTrip(k);
        KeyRoundTrip(last);
        assert false;
      }
    }
  }

  /** For an environ with canonical header keys and no `None` among their values, the names
      listed are exactly the canonical names that can be read, and reading one gives the
      value of the key it came from. */
  lemma HeadersReadBack<V>(e: Environ<V>)
    requires WellFormed(e)
    requires forall k | k in e.values && IsHeader(k) :: CanonicalKey(k) && e.values[k].Some?
    ensures forall n :: n in ListedNames(e.order) <==> CanonicalName(n) && Get(e, n).Some?
    ensures forall k | k in e.values && IsHeader(k) :: Get(e, ListedName(k)) == Some([e.values[k].value])
  {
    forall k | k in e.values && IsHeader(k) ensures Get(e, ListedName(k)) == Some([e.values[k].value]) {
      KeyRoundTrip(k);
    }
    NamesListed(e.order);
    forall n ensures n in ListedNames(e.order) <==> CanonicalName(n) && Get(e, n).Some? {
      NameRoundTrip(n);
      if n in ListedNames(e.order) {
        var k :| k in e.order && IsHeader(k) && ListedName(k) == n;
        KeyRoundTrip(k);
      }
      if CanonicalName(n) && Get(e, n).Some? {
        assert EnvironKey(n) in e.order && IsHeader(EnvironKey(n));
      }
    }
  }

  // ---- A trace on its way through an environ ------------------------------------------------

  /** What the propagator reads out of an environ. */
  function Extracted(e: Environ<HeaderValue>): Context {
    var values := Get(e, TRACEPARENT);
    if values.Some? then Extract(map[TRACEPARENT := values.value[0]]) else Empty
  }

  lemma TraceparentKey()
    ensures EnvironKey("traceparent") == "HTTP_TRACEPARENT"
  {
    var key := EnvironKey("traceparent");
    assert |key| == 16;
    assert forall i | 0 <= i < 16 :: key[i] == "HTTP_TRACEPARENT"[i];
  }

  /** What a client injects into its headers is what the service finds, if the server puts the
      header where section 4.1.18 of RFC 3875 says; and without it there is nothing. */
  lemma TraceArrives(sent: Carrier, ctx: Context, e: Environ<HeaderValue>)
    requires ctx.Active?
    requires "HTTP_TRACEPARENT" in e.values && "traceparent" in Inject(sent, ctx)
             ==> e.values["HTTP_TRACEPARENT"] == Some(Inject(sent, ctx)["traceparent"])
    ensures "HTTP_TRACEPARENT" in e.values ==> Extracted(e) == ctx
    ensures "HTTP_TRACEPARENT" !in e.values ==> Extracted(e) == Empty
    ensures "traceparent" in Inject(sent, ctx)
  {
    TraceparentKey();
  }
}
