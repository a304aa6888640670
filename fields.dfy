/**
 * Allowed-field checks on decoded request bodies and query strings, and the choice of body decoder
 * by Content-Type. A decoded body or query is represented by the set of its keys: Go's map iteration
 * order is unspecified, and the loops below pick the next key nondeterministically to match.
 */
module RequestFields {
  const ContentTypeJSON := "application/json"
  const ContentTypeFormURLEncoded := "application/x-www-form-urlencoded"

  /** The decoder `ParseRequestBody` picks, or its "unsupported content type" error. */
  datatype BodyKind = Json | Form | Unsupported

  /** The set of names a list of allowed fields admits. */
  function AllowedSet(allowedFields: seq<string>): (r: set<string>)
    ensures forall f :: f in r <==> f in allowedFields
  {
    set f | f in allowedFields
  }

  /** The JSON prefix is checked first, then the form prefix; anything else is unsupported. */
  function Dispatch(contentType: string): (r: BodyKind)
    ensures r == Json <==> ContentTypeJSON <= contentType
    ensures r == Form <==> !(ContentTypeJSON <= contentType) && ContentTypeFormURLEncoded <= contentType
    ensures r == Unsupported <==> !(ContentTypeJSON <= contentType) && !(ContentTypeFormURLEncoded <= contentType)
  {
    if ContentTypeJSON <= contentType then Json
    else if ContentTypeFormURLEncoded <= contentType then Form
    else Unsupported
  }

  /** Builds the lookup table of allowed names, one entry per listed field. */
  method AllowedMap(allowedFields: seq<string>) returns (m: map<string, bool>)
    ensures m.Keys == AllowedSet(allowedFields)
    ensures forall f :: f in m ==> m[f]
  {
    m := map[];
    var i := 0;
    while i < |allowedFields|
      invariant 0 <= i <= |allowedFields|
      invariant m.Keys == set f | f in allowedFields[..i]
      invariant forall f :: f in m ==> m[f]
    {
      assert allowedFields[..i + 1] == allowedFields[..i] + [allowedFields[i]];
      m := m[allowedFields[i] := true];
      i := i + 1;
    }
    assert allowedFields[..i] == allowedFields;
  }

  /**
   * `ValidateFields`: true (no error) exactly when every key of the body is an allowed field; the
   * error carries no field name. Only membership in the list matters, not its order or repeats.
   */
  method ValidateFields(dataKeys: set<string>, allowedFields: seq<string>) returns (ok: bool)
    ensures ok <==> dataKeys <= AllowedSet(allowedFields)
  {
    var allowedMap := AllowedMap(allowedFields);
    var remaining := dataKeys;
    while remaining != {}
      invariant remaining <= dataKeys
      invariant dataKeys - remaining <= AllowedSet(allowedFields)
      decreases remaining
    {
      var field :| field in remaining;
      if !(field in allowedMap && allowedMap[field]) {
        return false;
      }
      remaining := remaining - {field};
    }
    return true;
  }

  /** `AllowFields`: an empty query is allowed; otherwise every parameter name must be allowed. */
  method AllowFields(queryKeys: set<string>, allowedFields: seq<string>) returns (ok: bool)
    ensures queryKeys == {} ==> ok
    ensures ok <==> queryKeys <= AllowedSet(allowedFields)
  {
    var allowedMap := AllowedMap(allowedFields);
    if |queryKeys| == 0 {
      return true;
    }
    var remaining := queryKeys;
    while remaining != {}
      invariant remaining <= queryKeys
      invariant queryKeys - remaining <= AllowedSet(allowedFields)
      decreases remaining
    {
      var param :| param in remaining;
      if !(param in allowedMap && allowedMap[param]) {
        return false;
      }
      remaining := remaining - {param};
    }
    return true;
  }

  /** Reordering or repeating the allowed list changes neither check. */
  lemma AllowedSetIgnoresOrder(a: seq<string>, b: seq<string>)
    requires multiset(a) == multiset(b) || (forall f :: f in a <==> f in b)
    ensures AllowedSet(a) == AllowedSet(b)
  {
    if multiset(a) == multiset(b) {
      forall f ensures f in a <==> f in b {
        assert f in a <==> f in multiset(a);
        assert f in b <==> f in multiset(b);
      }
    }
  }
}
