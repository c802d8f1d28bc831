/** Attribute maps as JSON. `json.Marshal` refuses a tree holding a NaN or an infinity; the exporter
    then replaces those by null. The text of a JSON value is encoding/json's business and is not
    modelled: the result is the JSON value the text denotes. */
module Attributes {
  import opened GoNumbers
  import opened Options

  /** The Go values `AsRaw` yields. */
  datatype Raw =
    | Nil | Bool(b: bool) | Int(i: int) | Double(f: Float) | Text(s: string) | Blob(bytes: seq<int>)
    | List(items: seq<Raw>) | Dict(fields: map<string, Raw>)

  datatype Json =
    | JNull | JBool(b: bool) | JInt(i: int) | JNumber(bits: nat) | JText(s: string) | JBlob(bytes: seq<int>)
    | JList(items: seq<Json>) | JDict(fields: map<string, Json>)

  /** No float in the tree is NaN or infinite. */
  predicate AllFinite(v: Raw) {
    match v
    case Double(f) => f.Finite?
    case List(items) => forall i :: 0 <= i < |items| ==> AllFinite(items[i])
    case Dict(fields) => forall k :: k in fields ==> AllFinite(fields[k])
    case _ => true
  }

  /** The JSON of a tree that has one. */
  function ToJson(v: Raw): Json
    requires AllFinite(v)
  {
    match v
    case Nil => JNull
    case Bool(b) => JBool(b)
    case Int(i) => JInt(i)
    case Double(f) => JNumber(f.bits)
    case Text(s) => JText(s)
    case Blob(bytes) => JBlob(bytes)
    case List(items) => JList(seq(|items|, i requires 0 <= i < |items| => ToJson(items[i])))
    case Dict(fields) => JDict(map k | k in fields :: ToJson(fields[k]))
  }

  /** `json.Marshal`: fails exactly on a non-finite float. */
  function Marshal(v: Raw): Option<Json> {
    if AllFinite(v) then Some(ToJson(v)) else None
  }

  /** What `sanitizeForJSON` computes. */
  function Sanitized(v: Raw): Raw {
    match v
    case Double(f) => if f.Finite? then v else Nil
    case List(items) => List(seq(|items|, i requires 0 <= i < |items| => Sanitized(items[i])))
    case Dict(fields) => Dict(map k | k in fields :: Sanitized(fields[k]))
    case _ => v
  }

  /** `sanitizeForJSON`, filling fresh containers element by element; a map's entries come in any
      order. */
  method SanitizeForJSON(v: Raw) returns (r: Raw)
    ensures r == Sanitized(v)
    decreases v
  {
    match v
    case Double(f) =>
      if f.NaN? || f.Inf? { return Nil; }
      return v;
    case Dict(fields) =>
      var out: map<string, Raw> := map[];
      var left := fields.Keys;
      while left != {}
        invariant left <= fields.Keys
        invariant out.Keys == fields.Keys - left
        invariant forall k :: k in out ==> out[k] == Sanitized(fields[k])
        decreases left
      {
        var k :| k in left;
        var x := SanitizeForJSON(fields[k]);
        out := out[k := x];
        left := left - {k};
      }
      return Dict(out);
    case List(items) =>
      var out: seq<Raw> := [];
      for i := 0 to |items|
        invariant |out| == i && forall j :: 0 <= j < i ==> out[j] == Sanitized(items[j])
      {
        var x := SanitizeForJSON(items[i]);
        out := out + [x];
      }
      return List(out);
    case _ =>
      return v;
  }

  /** Two trees have the same shape: same keys, same lengths, same values everywhere, except that
      where one has a non-finite float the other has nil. */
  predicate SameButNonFinite(v: Raw, r: Raw) {
    match v
    case Double(f) => if f.Finite? then r == v else r == Nil
    case List(items) =>
      r.List? && |r.items| == |items| && forall i :: 0 <= i < |items| ==> SameButNonFinite(items[i], r.items[i])
    case Dict(fields) =>
      r.Dict? && r.fields.Keys == fields.Keys && forall k :: k in fields ==> SameButNonFinite(fields[k], r.fields[k])
    case _ => r == v
  }

  lemma {:induction false} SanitizedShape(v: Raw)
    ensures SameButNonFinite(v, Sanitized(v))
  {
    match v
    case List(items) => forall i | 0 <= i < |items| { SanitizedShape(items[i]); }
    case Dict(fields) => forall k | k in fields { SanitizedShape(fields[k]); }
    case _ =>
  }

  /** That relation leaves no choice, so it is what sanitizing means. */
  lemma {:induction false} ShapeIsSanitized(v: Raw, r: Raw)
    requires SameButNonFinite(v, r)
    ensures r == Sanitized(v)
  {
    match v
    case List(items) =>
      forall i | 0 <= i < |items| ensures r.items[i] == Sanitized(items[i]) {
        ShapeIsSanitized(items[i], r.items[i]);
      }
    case Dict(fields) =>
      forall k | k in fields ensures r.fields[k] == Sanitized(fields[k]) { ShapeIsSanitized(fields[k], r.fields[k]); }
      assert r.fields == Sanitized(v).fields;
    case _ =>
  }

  /** No non-finite float survives, at any depth. */
  lemma {:induction false} SanitizedIsFinite(v: Raw)
    ensures AllFinite(Sanitized(v))
  {
    match v
    case List(items) =>
      forall i | 0 <= i < |items| ensures AllFinite(Sanitized(v).items[i]) {
        SanitizedIsFinite(items[i]);
      }
    case Dict(fields) =>
      forall k | k in fields ensures AllFinite(Sanitized(v).fields[k]) {
        SanitizedIsFinite(fields[k]);
      }
    case _ =>
  }

  /** Sanitizing changes nothing if and only if there was nothing to remove. */
  lemma {:induction false} SanitizeIsIdentityIff(v: Raw)
    ensures Sanitized(v) == v <==> AllFinite(v)
  {
    match v
    case List(items) =>
      forall i | 0 <= i < |items| ensures Sanitized(items[i]) == items[i] <==> AllFinite(items[i]) {
        SanitizeIsIdentityIff(items[i]);
      }
      if AllFinite(v) { assert Sanitized(v).items == items; }
      if Sanitized(v) == v { assert forall i :: 0 <= i < |items| ==> Sanitized(v).items[i] == items[i]; }
    case Dict(fields) =>
      forall k | k in fields ensures Sanitized(fields[k]) == fields[k] <==> AllFinite(fields[k]) {
        SanitizeIsIdentityIff(fields[k]);
      }
      if AllFinite(v) { assert Sanitized(v).fields == fields; }
      if Sanitized(v) == v { assert forall k :: k in fields ==> Sanitized(v).fields[k] == fields[k]; }
    case _ =>
  }

  lemma SanitizeTwice(v: Raw)
    ensures Sanitized(Sanitized(v)) == Sanitized(v)
  {
    SanitizedIsFinite(v);
    SanitizeIsIdentityIff(Sanitized(v));
  }

  /** The simple form: sanitize, then marshal. */
  function AttributesJson(fields: map<string, Raw>): Json {
    SanitizedIsFinite(Dict(fields));
    ToJson(Sanitized(Dict(fields)))
  }

  /** `attributesToJSON`: marshal as is, and only if that fails sanitize and marshal again. It agrees
      with the simple form on every map; the last resort, an empty object, is never needed. */
  method AttributesToJSON(fields: map<string, Raw>) returns (j: Json)
    ensures j == AttributesJson(fields)
    ensures j == JDict(map[]) <==> fields == map[]
  {
    SanitizedIsFinite(Dict(fields));
    SanitizeIsIdentityIff(Dict(fields));
    EmptyOnlyIfEmpty(fields);
    if |fields| == 0 {
      return JDict(map[]);
    }
    var first := Marshal(Dict(fields));
    if first.Some? {
      return first.value;
    }
    var sanitized := SanitizeForJSON(Dict(fields));
    var second := Marshal(sanitized);
    if second.None? {
      return JDict(map[]);
    }
    return second.value;
  }

  lemma EmptyOnlyIfEmpty(fields: map<string, Raw>)
    ensures AttributesJson(fields) == JDict(map[]) <==> fields == map[]
  {
    var j := AttributesJson(fields);
    assert j.JDict? && j.fields.Keys == fields.Keys;
    if fields == map[] {
      assert j.fields == map[];
    }
  }
}
