/** The two parameter objects that server.js hands to the Milanuncios
    scraper: the one built from a search request's body, and the one read
    off the query string of a direct URL. */
module MilanunciosParams {
  import opened Js

  /** Ordering used when the caller gives none (server.js:127-129). */
  const DefaultOrden := "relevance"

  /** The property name whose plain assignment changes an object's
      prototype instead of adding a property. */
  const ProtoKey := "__proto__"

  /** `const { s, type = 'fast', ...otherParams } = body;
      const searchParams = { s, ...otherParams };` followed by the
      `orden` default. `type` is taken out of the rest and never used, so it
      is dropped; every other key goes through unchanged. The spread copies
      own properties by definition, so even a `__proto__` key of the body is
      kept. */
  function SearchParams(body: map<string, JsValue>): (p: map<string, JsValue>)
    ensures p.Keys == body.Keys - {"type"} + {"s", "orden"}
    ensures p["s"] == Get(body, "s")
    ensures "type" !in p
    ensures forall k :: k in body && k != "s" && k != "type" && k != "orden" ==> k in p && p[k] == body[k]
    ensures Truthy(Get(body, "orden")) ==> p["orden"] == body["orden"]
    ensures !Truthy(Get(body, "orden")) ==> p["orden"] == Str(DefaultOrden)
  {
    var otherParams := body - {"s", "type"};
    var searchParams := otherParams["s" := Get(body, "s")];
    if !Truthy(Get(searchParams, "orden")) then
      searchParams["orden" := Str(DefaultOrden)]
    else
      searchParams
  }

  /** `target[key] = value` for a string `value`: a plain assignment to
      `__proto__` goes to the inherited `__proto__` setter, which ignores a
      value that is not an object (Annex B.2.2.1 of ECMA-262), so that key
      never becomes a property. */
  function AssignString(target: map<string, JsValue>, key: string, value: string): (r: map<string, JsValue>)
    ensures key == ProtoKey ==> r == target
    ensures key != ProtoKey ==> r.Keys == target.Keys + {key} && r[key] == Str(value)
    ensures forall k :: k in target && k != key ==> k in r && r[k] == target[k]
  {
    if key == ProtoKey then target else target[key := Str(value)]
  }

  /** The object filled by `urlObj.searchParams.forEach((value, key) =>
      { searchParams[key] = value; })`, starting from `{}`, as a fold over
      the query's (key, value) pairs in order. The object never gets a
      `__proto__` property, and every value in it is a string. */
  function QueryParams(pairs: seq<(string, string)>): (p: map<string, JsValue>)
    ensures ProtoKey !in p
    ensures forall k :: k in p ==> p[k].Str?
  {
    if |pairs| == 0 then map[]
    else
      var last := pairs[|pairs| - 1];
      AssignString(QueryParams(pairs[..|pairs| - 1]), last.0, last.1)
  }

  /** A key reaches the scraper exactly when it occurs in the query string
      (and is not `__proto__`), no key is invented (in particular no `orden`
      default), and its value is the value of its LAST occurrence: a later
      duplicate overwrites an earlier one. */
  lemma {:induction false} QueryParamsLastWins(pairs: seq<(string, string)>, k: string)
    ensures k in QueryParams(pairs) <==> k != ProtoKey && exists i :: 0 <= i < |pairs| && pairs[i].0 == k
    ensures k in QueryParams(pairs) ==>
      exists i :: 0 <= i < |pairs| && pairs[i].0 == k && QueryParams(pairs)[k] == Str(pairs[i].1) &&
        forall j :: i < j < |pairs| ==> pairs[j].0 != k
  {
    if |pairs| > 0 {
      var n := |pairs| - 1;
      var prefix := pairs[..n];
      QueryParamsLastWins(prefix, k);
      assert forall i :: 0 <= i < n ==> prefix[i] == pairs[i];
      if pairs[n].0 == k && k != ProtoKey {
        assert QueryParams(pairs)[k] == Str(pairs[n].1);
      } else if k in QueryParams(pairs) {
        var i :| 0 <= i < |prefix| && prefix[i].0 == k && QueryParams(prefix)[k] == Str(prefix[i].1) &&
          forall j :: i < j < |prefix| ==> prefix[j].0 != k;
        assert pairs[i].0 == k && QueryParams(pairs)[k] == Str(pairs[i].1);
      }
    }
  }

  /** The `forEach` loop of server.js:174-179, filling the parameter object
      one pair at a time. */
  method CollectQueryParams(pairs: seq<(string, string)>) returns (searchParams: map<string, JsValue>)
    ensures searchParams == QueryParams(pairs)
  {
    searchParams := map[];
    var i := 0;
    while i < |pairs|
      invariant 0 <= i <= |pairs|
      invariant searchParams == QueryParams(pairs[..i])
    {
      var (key, value) := pairs[i];
      assert pairs[..i + 1][..i] == pairs[..i];
      searchParams := AssignString(searchParams, key, value);
      i := i + 1;
    }
    assert pairs[..i] == pairs;
  }

  /** A sanity check on the model, not a property the server relies on (it
      builds the parameters once): building them a second time changes
      nothing, since `type` is already gone and `orden` already truthy. */
  lemma SearchParamsIdempotent(body: map<string, JsValue>)
    ensures SearchParams(SearchParams(body)) == SearchParams(body)
  {
  }
}
