/** The state-boundary service: the polygon check applied to a state's coordinates and
    the `_id` serialisation applied to records read back from the store. */
module Polygon {
  import opened Json
  import opened Documents

  /** Vertices a state boundary must have in this revision; other revisions use 8. */
  const VertexCount: nat := 16

  /** A list of exactly two entries. */
  predicate IsPair(p: Value) {
    p.List? && |p.items| == 2
  }

  predicate IsNumericPair(p: Value) {
    IsPair(p) && IsNumber(p.items[0]) && IsNumber(p.items[1])
  }

  function Longitude(p: Value): real
    requires IsNumericPair(p)
  {
    NumberOf(p.items[0])
  }

  function Latitude(p: Value): real
    requires IsNumericPair(p)
  {
    NumberOf(p.items[1])
  }

  /** Both bounds are inclusive. */
  predicate InBounds(p: Value)
    requires IsNumericPair(p)
  {
    -180.0 <= Longitude(p) <= 180.0 && -90.0 <= Latitude(p) <= 90.0
  }

  /** One entry that the loop of `validate_polygon` lets through. */
  predicate IsVertex(p: Value) {
    IsNumericPair(p) && InBounds(p)
  }

  /** What a valid boundary of `n` vertices is, stated independently of the loop. */
  predicate IsValidBoundary(n: nat, coordinates: Value)
    requires n > 0
  {
    && coordinates.List?
    && |coordinates.items| == n
    && (forall i :: 0 <= i < n ==> IsVertex(coordinates.items[i]))
    && PyEq(coordinates.items[0], coordinates.items[n - 1])
  }

  /** The `for point in coordinates` loop: true when it runs to the end without
      returning False. */
  function EveryPointPasses(points: seq<Value>): (ok: bool)
    ensures ok ==> forall i :: 0 <= i < |points| ==> IsNumericPair(points[i])
  {
    if points == [] then true
    else if !IsPair(points[0]) then false
    else if !IsNumber(points[0].items[0]) || !IsNumber(points[0].items[1]) then false
    else if !InBounds(points[0]) then false
    else EveryPointPasses(points[1..])
  }

  /** `validate_polygon`, with the vertex count as a parameter. The closure test reads
      `coordinates[0]` and `coordinates[-1]` only after the length test, so both indices
      are in range (Dafny checks this when it admits the function). */
  function ValidatePolygon(n: nat, coordinates: Value): (ok: bool)
    requires n > 0
    ensures ok ==> coordinates.List? && |coordinates.items| == n
    ensures ok ==> forall i :: 0 <= i < n ==> IsNumericPair(coordinates.items[i])
    ensures ok ==> Longitude(coordinates.items[0]) == Longitude(coordinates.items[n - 1])
    ensures ok ==> Latitude(coordinates.items[0]) == Latitude(coordinates.items[n - 1])
  {
    if !coordinates.List? || |coordinates.items| != n then false
    else if !EveryPointPasses(coordinates.items) then false
    else if !PyEq(coordinates.items[0], coordinates.items[|coordinates.items| - 1]) then false
    else true
  }

  /** The check as this revision runs it. */
  function ValidateStateBoundary(coordinates: Value): bool {
    ValidatePolygon(VertexCount, coordinates)
  }

  /** The loop lets the points through exactly when every one of them is a vertex. */
  lemma {:induction false} EveryPointPassesIff(points: seq<Value>)
    ensures EveryPointPasses(points) <==> forall i :: 0 <= i < |points| ==> IsVertex(points[i])
  {
    if points != [] {
      EveryPointPassesIff(points[1..]);
      assert forall i :: 1 <= i < |points| ==> points[i] == points[1..][i - 1];
    }
  }

  /** The characterisation: accepted exactly when the value is a list of `n` in-range
      numeric pairs whose first and last pair are equal. */
  lemma ValidatePolygonIff(n: nat, coordinates: Value)
    requires n > 0
    ensures ValidatePolygon(n, coordinates) <==> IsValidBoundary(n, coordinates)
  {
    if coordinates.List? {
      EveryPointPassesIff(coordinates.items);
    }
  }

  lemma RejectsWrongCount(n: nat, coordinates: Value)
    requires n > 0
    requires !coordinates.List? || |coordinates.items| != n
    ensures !ValidatePolygon(n, coordinates)
  {
  }

  lemma RejectsNonPair(n: nat, coordinates: Value, i: nat)
    requires n > 0
    requires coordinates.List? && i < |coordinates.items|
    requires !IsPair(coordinates.items[i])
    ensures !ValidatePolygon(n, coordinates)
  {
    ValidatePolygonIff(n, coordinates);
  }

  lemma RejectsNonNumeric(n: nat, coordinates: Value, i: nat)
    requires n > 0
    requires coordinates.List? && i < |coordinates.items| && IsPair(coordinates.items[i])
    requires !IsNumber(coordinates.items[i].items[0]) || !IsNumber(coordinates.items[i].items[1])
    ensures !ValidatePolygon(n, coordinates)
  {
    ValidatePolygonIff(n, coordinates);
  }

  lemma RejectsOutOfRange(n: nat, coordinates: Value, i: nat)
    requires n > 0
    requires coordinates.List? && i < |coordinates.items| && IsNumericPair(coordinates.items[i])
    requires !(-180.0 <= Longitude(coordinates.items[i]) <= 180.0)
          || !(-90.0 <= Latitude(coordinates.items[i]) <= 90.0)
    ensures !ValidatePolygon(n, coordinates)
  {
    ValidatePolygonIff(n, coordinates);
  }

  lemma RejectsOpenRing(n: nat, coordinates: Value)
    requires n > 0
    requires coordinates.List? && |coordinates.items| == n
    requires !PyEq(coordinates.items[0], coordinates.items[n - 1])
    ensures !ValidatePolygon(n, coordinates)
  {
  }

  /** Closure compares whole pairs: the first and last pair must agree in both
      components, by numeric value (so `[1, 0]` closes a ring opened by `[True, 0.0]`). */
  lemma ClosureComparesBothComponents(p: Value, q: Value)
    requires IsNumericPair(p) && IsNumericPair(q)
    ensures PyEq(p, q) <==> Longitude(p) == Longitude(q) && Latitude(p) == Latitude(q)
  {
    if PyEq(p, q) {
      assert PyEq(p.items[0], q.items[0]) && PyEq(p.items[1], q.items[1]);
    } else {
      var k :| 0 <= k < 2 && !PyEq(p.items[k], q.items[k]);
      assert k == 0 || k == 1;
    }
  }

  /** A ring that repeats one pair on every vertex, with that pair on the bounds
      (longitude -180 or 180, latitude -90 or 90), is accepted: the bounds are inclusive. */
  lemma AcceptsRingOnTheBounds(n: nat, lon: int, lat: int)
    requires n > 0
    requires lon == -180 || lon == 180
    requires lat == -90 || lat == 90
    ensures ValidatePolygon(n, List(seq(n, _ => List([Int(lon), Int(lat)]))))
  {
    var corner := List([Int(lon), Int(lat)]);
    var ring := List(seq(n, _ => corner));
    assert IsVertex(corner);
    assert PyEq(corner, corner) by {
      assert PyEq(corner.items[0], corner.items[0]) && PyEq(corner.items[1], corner.items[1]);
    }
    ValidatePolygonIff(n, ring);
  }

  /** The exception `state['_id']` raises on a record without that key. */
  datatype KeyError = KeyError(key: string)

  /** `serialize_object_id` on the record's value: `_id` becomes `str(_id)` and nothing
      else changes. `str` is Python's `str()` on whatever the store put there. */
  function WithStringId(state: Document, str: Field -> string): (r: Result<Document, KeyError>)
    ensures "_id" in state <==> r.Success?
    ensures r.Failure? ==> r.error == KeyError("_id")
    ensures r.Success? ==> r.value.Keys == state.Keys
    ensures r.Success? ==> r.value["_id"] == Plain(Str(str(state["_id"])))
    ensures r.Success? ==> forall k :: k in state && k != "_id" ==> r.value[k] == state[k]
  {
    if "_id" in state then Success(state["_id" := Plain(Str(str(state["_id"])))])
    else Failure(KeyError("_id"))
  }

  /** Serialising a record whose `_id` is already a string changes nothing more, since
      Python's `str()` of a string is that string. */
  lemma WithStringIdIdempotent(state: Document, str: Field -> string)
    requires "_id" in state
    requires forall s: string :: str(Plain(Str(s))) == s
    ensures WithStringId(state, str).Success?
    ensures WithStringId(WithStringId(state, str).value, str) == WithStringId(state, str)
  {
    var once := WithStringId(state, str).value;
    var s := str(state["_id"]);
    assert str(once["_id"]) == s by {
      assert once["_id"] == Plain(Str(s));
    }
    assert once["_id" := Plain(Str(s))] == once;
  }

  /** A dict that `serialize_object_id` updates in place. */
  class StateDocument {
    var fields: Document

    constructor (fields: Document)
      ensures this.fields == fields
    {
      this.fields := fields;
    }
  }

  /** `serialize_object_id(state)`: overwrites `state['_id']` in place and returns the
      same dict, or raises KeyError and leaves it untouched. */
  method SerializeObjectId(state: StateDocument, str: Field -> string)
      returns (r: Result<StateDocument, KeyError>)
    modifies state
    ensures WithStringId(old(state.fields), str).Success? ==>
              r == Success(state) && state.fields == WithStringId(old(state.fields), str).value
    ensures WithStringId(old(state.fields), str).Failure? ==>
              r == Failure(KeyError("_id")) && state.fields == old(state.fields)
  {
    if "_id" !in state.fields {
      return Failure(KeyError("_id"));
    }
    state.fields := state.fields["_id" := Plain(Str(str(state.fields["_id"])))];
    return Success(state);
  }
}
