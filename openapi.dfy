/** `preprocess_exclude_clientless_routes` (kl_authentication/openapi.py): the
    schema-generation hook that keeps only the endpoints whose path has the
    client-id path parameter. */
module OpenApi {
  import opened Text
  import opened Config

  /** One `(path, path_regex, method, callback)` tuple of the endpoint list. */
  datatype Endpoint<C> = Endpoint(path: string, pathRegex: string, httpMethod: string, callback: C)

  /** `f'{{{settings.CLIENT_ID_VARIABLE}}}'`: the variable name in braces. */
  function ClientIdPath(settings: Settings): string {
    "{" + settings.clientIdVariable + "}"
  }

  /** The list comprehension: the endpoints whose path contains `marker`, in
      their original order. */
  function KeepWithMarker<C>(endpoints: seq<Endpoint<C>>, marker: string): (r: seq<Endpoint<C>>)
    ensures |r| <= |endpoints|
    ensures forall e :: e in r ==> e in endpoints && Contains(e.path, marker)
    ensures forall e :: e in endpoints && Contains(e.path, marker) ==> e in r
  {
    if endpoints == [] then []
    else
      var rest := KeepWithMarker(endpoints[1..], marker);
      if Contains(endpoints[0].path, marker) then [endpoints[0]] + rest else rest
  }

  /** `preprocess_exclude_clientless_routes(endpoints)`. */
  function PreprocessExcludeClientlessRoutes<C>(settings: Settings, endpoints: seq<Endpoint<C>>)
    : (r: seq<Endpoint<C>>)
    ensures forall e :: e in r ==> Contains(e.path, ClientIdPath(settings))
    ensures forall e :: e in endpoints && Contains(e.path, ClientIdPath(settings)) ==> e in r
  {
    KeepWithMarker(endpoints, ClientIdPath(settings))
  }

  /** `sub` is `s` with some elements left out, the rest kept in order. */
  ghost predicate IsSubsequence<T>(sub: seq<T>, s: seq<T>)
    decreases |s|
  {
    if sub == [] then true
    else if s == [] then false
    else (sub[0] == s[0] && IsSubsequence(sub[1..], s[1..])) || IsSubsequence(sub, s[1..])
  }

  /** The filter keeps order: its output is a subsequence of its input. */
  lemma {:induction false} KeepIsSubsequence<C>(endpoints: seq<Endpoint<C>>, marker: string)
    ensures IsSubsequence(KeepWithMarker(endpoints, marker), endpoints)
  {
    if endpoints != [] {
      KeepIsSubsequence(endpoints[1..], marker);
      var r := KeepWithMarker(endpoints, marker);
      var rest := KeepWithMarker(endpoints[1..], marker);
      if Contains(endpoints[0].path, marker) {
        assert r[1..] == rest;
      }
    }
  }

  /** Each endpoint occurs in the output as many times as in the input when its
      path has the marker, and never otherwise: the tuples are neither altered,
      duplicated nor lost. */
  lemma {:induction false} KeepMultiplicity<C>(endpoints: seq<Endpoint<C>>, marker: string, e: Endpoint<C>)
    ensures multiset(KeepWithMarker(endpoints, marker))[e] ==
            if Contains(e.path, marker) then multiset(endpoints)[e] else 0
  {
    if endpoints != [] {
      KeepMultiplicity(endpoints[1..], marker, e);
      assert endpoints == [endpoints[0]] + endpoints[1..];
    }
  }

  /** The filter distributes over concatenation of endpoint lists. */
  lemma {:induction false} KeepAppend<C>(a: seq<Endpoint<C>>, b: seq<Endpoint<C>>, marker: string)
    ensures KeepWithMarker(a + b, marker) == KeepWithMarker(a, marker) + KeepWithMarker(b, marker)
  {
    if a != [] {
      assert (a + b)[1..] == a[1..] + b;
      KeepAppend(a[1..], b, marker);
    } else {
      assert a + b == b;
    }
  }

  /** Applying the filter twice equals applying it once. */
  lemma {:induction false} KeepIdempotent<C>(endpoints: seq<Endpoint<C>>, marker: string)
    ensures KeepWithMarker(KeepWithMarker(endpoints, marker), marker) == KeepWithMarker(endpoints, marker)
  {
    if endpoints != [] {
      KeepIdempotent(endpoints[1..], marker);
      var rest := KeepWithMarker(endpoints[1..], marker);
      if Contains(endpoints[0].path, marker) {
        var r := [endpoints[0]] + rest;
        assert r[1..] == rest;
        assert r[0] == endpoints[0];
      }
    }
  }

  /** The hook is idempotent and order-preserving. */
  lemma PreprocessIdempotent<C>(settings: Settings, endpoints: seq<Endpoint<C>>)
    ensures var once := PreprocessExcludeClientlessRoutes(settings, endpoints);
            && PreprocessExcludeClientlessRoutes(settings, once) == once
            && IsSubsequence(once, endpoints)
  {
    KeepIdempotent(endpoints, ClientIdPath(settings));
    KeepIsSubsequence(endpoints, ClientIdPath(settings));
  }

  /** An endpoint whose path has `{<CLIENT_ID_VARIABLE>}` anywhere is kept. */
  lemma PathWithClientIdKept<C>(settings: Settings, before: string, after: string,
                                regex: string, httpMethod: string, callback: C)
    ensures var e := Endpoint(before + ClientIdPath(settings) + after, regex, httpMethod, callback);
            PreprocessExcludeClientlessRoutes(settings, [e]) == [e]
  {
    ContainsInfix(before, ClientIdPath(settings), after);
    var e := Endpoint(before + ClientIdPath(settings) + after, regex, httpMethod, callback);
    assert [e][1..] == [];
  }
}
