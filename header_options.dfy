// applyHeaders, which every HTTP codec carries a copy of: one add-header
// request option per (name, value) pair of an http.Header. Go visits the
// names of a map in no fixed order, so the loop below picks the next
// name arbitrarily, and only what every order shares is promised: the
// number of options, and for each name its values in their original order.

module HeaderOptions {

  import opened Headers
  import opened RequestOptions

  /** Every option is an add-header option. */
  predicate AllHeaderAdds(opts: seq<RequestOption>)
  {
    forall i :: 0 <= i < |opts| ==> opts[i].WithHeaderAdd?
  }

  /** The values the add-header options give `key`, in option order. */
  function ValuesFor(opts: seq<RequestOption>, key: string): seq<string>
  {
    if opts == [] then []
    else
      var last := opts[|opts| - 1];
      ValuesFor(opts[..|opts| - 1], key) + (if last.WithHeaderAdd? && last.key == key then [last.value] else [])
  }

  lemma {:induction false} ValuesForAppend(a: seq<RequestOption>, b: seq<RequestOption>, key: string)
    ensures ValuesFor(a + b, key) == ValuesFor(a, key) + ValuesFor(b, key)
    decreases |b|
  {
    if b == [] {
      assert a + b == a;
    } else {
      assert (a + b)[..|a + b| - 1] == a + b[..|b| - 1];
      ValuesForAppend(a, b[..|b| - 1], key);
    }
  }

  /** The number of values under the names `ks` of a header table. */
  ghost function CountOver(h: Header, ks: set<string>): nat
    requires ks <= h.Keys
  {
    if ks == {} then 0
    else
      var k :| k in ks;
      |h[k]| + CountOver(h, ks - {k})
  }

  /** The total number of values in a header table. */
  ghost function ValueCount(h: Header): nat
  {
    CountOver(h, h.Keys)
  }

  /** The count does not depend on which name is taken first. */
  lemma {:induction false} CountOverRemove(h: Header, ks: set<string>, k: string)
    requires ks <= h.Keys && k in ks
    ensures CountOver(h, ks) == |h[k]| + CountOver(h, ks - {k})
  {
    var j :| j in ks && CountOver(h, ks) == |h[j]| + CountOver(h, ks - {j});
    if j != k {
      CountOverRemove(h, ks - {j}, k);
      CountOverRemove(h, ks - {k}, j);
      assert ks - {j} - {k} == ks - {k} - {j};
    }
  }

  /** The add-header options for one name and its values, in value order. */
  function AddsFor(key: string, vs: seq<string>): (opts: seq<RequestOption>)
    ensures |opts| == |vs|
    ensures AllHeaderAdds(opts)
    ensures forall i :: 0 <= i < |vs| ==> opts[i] == WithHeaderAdd(key, vs[i])
  {
    seq(|vs|, i requires 0 <= i < |vs| => WithHeaderAdd(key, vs[i]))
  }

  lemma {:induction false} ValuesForAdds(key: string, vs: seq<string>, other: string)
    ensures ValuesFor(AddsFor(key, vs), other) == if other == key then vs else []
    decreases |vs|
  {
    if vs != [] {
      assert AddsFor(key, vs)[..|vs| - 1] == AddsFor(key, vs[..|vs| - 1]);
      ValuesForAdds(key, vs[..|vs| - 1], other);
      assert vs[..|vs| - 1] + [vs[|vs| - 1]] == vs;
    }
  }

  /** The options a header table expands into, in some order of its names. */
  ghost predicate ExpandsHeaders(opts: seq<RequestOption>, h: Header)
  {
    AllHeaderAdds(opts)
    && |opts| == ValueCount(h)
    && forall k :: ValuesFor(opts, k) == Values(h, k)
  }

  lemma AddsForSnoc(key: string, vs: seq<string>, i: nat)
    requires i < |vs|
    ensures AddsFor(key, vs[..i + 1]) == AddsFor(key, vs[..i]) + [WithHeaderAdd(key, vs[i])]
  {
  }

  /** What the options built so far give when the names in `rest` are still to come. */
  ghost predicate PartlyExpanded(opts: seq<RequestOption>, headers: Header, rest: set<string>)
    requires rest <= headers.Keys
  {
    AllHeaderAdds(opts)
    && |opts| + CountOver(headers, rest) == ValueCount(headers)
    && forall k :: ValuesFor(opts, k) == if k in rest then [] else Values(headers, k)
  }

  /** After the options of name `k`, each name's values are those it had plus `k`'s own. */
  lemma ExpandStepValues(opts: seq<RequestOption>, headers: Header, rest: set<string>, k: string, other: string)
    requires rest <= headers.Keys && k in rest
    requires ValuesFor(opts, other) == if other in rest then [] else Values(headers, other)
    ensures ValuesFor(opts + AddsFor(k, headers[k]), other) == if other in rest - {k} then [] else Values(headers, other)
  {
    ValuesForAppend(opts, AddsFor(k, headers[k]), other);
    ValuesForAdds(k, headers[k], other);
  }

  /** Appending the options of one more name keeps the expansion consistent. */
  lemma ExpandStep(opts: seq<RequestOption>, headers: Header, rest: set<string>, k: string)
    requires rest <= headers.Keys && k in rest
    requires PartlyExpanded(opts, headers, rest)
    ensures PartlyExpanded(opts + AddsFor(k, headers[k]), headers, rest - {k})
  {
    var adds := AddsFor(k, headers[k]);
    var next := opts + adds;
    forall other
      ensures ValuesFor(next, other) == if other in rest - {k} then [] else Values(headers, other)
    {
      ExpandStepValues(opts, headers, rest, k, other);
    }
    assert AllHeaderAdds(next) by {
      forall i | 0 <= i < |next|
        ensures next[i].WithHeaderAdd?
      {
        if i >= |opts| {
          assert next[i] == adds[i - |opts|];
        }
      }
    }
    CountOverRemove(headers, rest, k);
    assert |next| == |opts| + |headers[k]|;
  }

  /** applyHeaders: one add-header option per value, for each name in turn. */
  method ApplyHeaders(headers: Header) returns (reqOpts: seq<RequestOption>)
    ensures ExpandsHeaders(reqOpts, headers)
  {
    reqOpts := [];
    var rest := headers.Keys;
    while rest != {}
      invariant rest <= headers.Keys
      invariant PartlyExpanded(reqOpts, headers, rest)
      decreases |rest|
    {
      var k :| k in rest;
      var vs := headers[k];
      ghost var before := reqOpts;
      var i := 0;
      while i < |vs|
        invariant 0 <= i <= |vs|
        invariant reqOpts == before + AddsFor(k, vs[..i])
      {
        AddsForSnoc(k, vs, i);
        reqOpts := reqOpts + [WithHeaderAdd(k, vs[i])];
        i := i + 1;
      }
      assert vs[..i] == vs;
      ExpandStep(before, headers, rest, k);
      rest := rest - {k};
    }
  }

  /** Expanding the same table twice gives the same values for every name, whatever order each run took. */
  lemma ExpansionsAgree(a: seq<RequestOption>, b: seq<RequestOption>, h: Header)
    requires ExpandsHeaders(a, h) && ExpandsHeaders(b, h)
    ensures |a| == |b|
    ensures forall k :: ValuesFor(a, k) == ValuesFor(b, k)
  {
  }

  /** An empty table expands to no options. */
  lemma EmptyTableNoOptions(opts: seq<RequestOption>)
    requires ExpandsHeaders(opts, map[])
    ensures opts == []
  {
  }

  /** A table with one name and one value expands to exactly its add-header option. */
  lemma SingleValueExpansion(opts: seq<RequestOption>, k: string, v: string)
    requires ExpandsHeaders(opts, map[k := [v]])
    ensures opts == [WithHeaderAdd(k, v)]
  {
    var h := map[k := [v]];
    CountOverRemove(h, h.Keys, k);
    assert h.Keys - {k} == {};
    assert |opts| == 1;
    assert ValuesFor(opts, k) == [v];
    assert opts[..|opts| - 1] == [];
    assert ValuesFor(opts, k) == (if opts[0].WithHeaderAdd? && opts[0].key == k then [opts[0].value] else []);
    assert opts[0] == WithHeaderAdd(k, v);
    assert opts == [opts[0]];
  }
}
