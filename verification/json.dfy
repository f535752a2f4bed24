/** Plain JSON values as Python holds them, and Python's equality on them. */
module Json {

  /** An object keeps its fields in insertion order, as a Python dict does. */
  datatype Json =
    | JNull
    | JBool(b: bool)
    | JInt(i: int)
    | JFloat(f: real)
    | JString(s: string)
    | JArray(items: seq<Json>)
    | JObject(fields: seq<(string, Json)>)

  /** What Python's == can tell apart: 1, 1.0 and True are one number, and field order is invisible. */
  datatype Canonical =
    | CNull
    | CNumber(n: real)
    | CString(s: string)
    | CArray(items: seq<Canonical>)
    | CObject(fields: map<string, Canonical>)

  function Canon(j: Json): Canonical
    decreases j, 0
  {
    match j
    case JNull => CNull
    case JBool(b) => CNumber(if b then 1.0 else 0.0)
    case JInt(i) => CNumber(i as real)
    case JFloat(f) => CNumber(f)
    case JString(s) => CString(s)
    case JArray(items) => CArray(CanonItems(items))
    case JObject(fields) => CObject(CanonFields(fields))
  }

  function CanonItems(items: seq<Json>): seq<Canonical>
    decreases items, 1
  {
    if items == [] then [] else [Canon(items[0])] + CanonItems(items[1..])
  }

  /** A later field of the same name replaces an earlier one. */
  function CanonFields(fields: seq<(string, Json)>): map<string, Canonical>
    decreases fields, 1
  {
    if fields == [] then map[]
    else
      var last := fields[|fields| - 1];
      assert last in fields && last.1 < last;
      CanonFields(fields[..|fields| - 1])[last.0 := Canon(last.1)]
  }

  predicate PyEq(a: Json, b: Json) {
    Canon(a) == Canon(b)
  }

  // --- what this equality decides ---

  /** None equals None only, a string the same string only; booleans, integers and floats are numbers,
      True being 1 and False 0, and numbers are equal by value; lists equal lists, objects objects. */
  lemma ScalarEquality(s: string, t: string, i: int, k: int, f: real, g: real, b: bool, c: bool, j: Json)
    ensures PyEq(JNull, j) <==> j.JNull?
    ensures PyEq(JString(s), JString(t)) <==> s == t
    ensures PyEq(JInt(i), JInt(k)) <==> i == k
    ensures PyEq(JFloat(f), JFloat(g)) <==> f == g
    ensures PyEq(JBool(b), JBool(c)) <==> b == c
    ensures PyEq(JInt(i), JFloat(f)) <==> i as real == f
    ensures PyEq(JBool(b), JInt(i)) <==> i == if b then 1 else 0
    ensures PyEq(JBool(b), JFloat(f)) <==> f == if b then 1.0 else 0.0
    ensures PyEq(JString(s), j) ==> j.JString?
    ensures PyEq(JInt(i), j) || PyEq(JFloat(f), j) || PyEq(JBool(b), j) ==> j.JInt? || j.JFloat? || j.JBool?
  {
  }

  lemma {:induction false} ItemsInOrder(items: seq<Json>)
    ensures |CanonItems(items)| == |items|
    ensures forall i :: 0 <= i < |items| ==> CanonItems(items)[i] == Canon(items[i])
  {
    if items == [] {
    } else {
      ItemsInOrder(items[1..]);
    }
  }

  /** Lists are equal if and only if they are as long as each other and equal element by element. */
  lemma ListEquality(a: seq<Json>, b: seq<Json>, j: Json)
    ensures PyEq(JArray(a), JArray(b)) <==> |a| == |b| && forall i :: 0 <= i < |a| ==> PyEq(a[i], b[i])
    ensures PyEq(JArray(a), j) ==> j.JArray?
  {
    ItemsInOrder(a);
    ItemsInOrder(b);
    if |a| == |b| && forall i :: 0 <= i < |a| ==> PyEq(a[i], b[i]) {
      assert forall i :: 0 <= i < |a| ==> CanonItems(a)[i] == CanonItems(b)[i];
      assert CanonItems(a) == CanonItems(b);
    }
    if PyEq(JArray(a), JArray(b)) {
      assert forall i :: 0 <= i < |a| ==> CanonItems(a)[i] == CanonItems(b)[i];
    }
  }

  /** The i-th field is the one that counts for its name: the last of that name. */
  predicate Counts(fields: seq<(string, Json)>, i: nat)
    requires i < |fields|
  {
    forall k :: i < k < |fields| ==> fields[k].0 != fields[i].0
  }

  lemma {:induction false} FieldCounts(fields: seq<(string, Json)>, i: nat)
    requires i < |fields| && Counts(fields, i)
    ensures fields[i].0 in CanonFields(fields) && CanonFields(fields)[fields[i].0] == Canon(fields[i].1)
    decreases |fields|
  {
    if i == |fields| - 1 {
    } else {
      var rest := fields[..|fields| - 1];
      assert Counts(rest, i) by {
        assert forall k :: i < k < |rest| ==> rest[k] == fields[k];
      }
      FieldCounts(rest, i);
      assert fields[|fields| - 1].0 != fields[i].0;
    }
  }

  lemma {:induction false} NameHasField(fields: seq<(string, Json)>, name: string) returns (i: nat)
    requires name in CanonFields(fields)
    ensures i < |fields| && fields[i].0 == name && Counts(fields, i)
    decreases |fields|
  {
    var last := |fields| - 1;
    if fields[last].0 == name {
      i := last;
    } else {
      i := NameHasField(fields[..last], name);
    }
  }

  /** Every field of a that counts has an equal one in b. */
  predicate Covers(a: seq<(string, Json)>, b: seq<(string, Json)>) {
    forall i :: 0 <= i < |a| && Counts(a, i) ==>
      exists k :: 0 <= k < |b| && Counts(b, k) && a[i].0 == b[k].0 && PyEq(a[i].1, b[k].1)
  }

  lemma EqualFieldsCover(a: seq<(string, Json)>, b: seq<(string, Json)>)
    requires CanonFields(a) == CanonFields(b)
    ensures Covers(a, b)
  {
    forall i | 0 <= i < |a| && Counts(a, i)
      ensures exists k :: 0 <= k < |b| && Counts(b, k) && a[i].0 == b[k].0 && PyEq(a[i].1, b[k].1)
    {
      FieldCounts(a, i);
      var k := NameHasField(b, a[i].0);
      FieldCounts(b, k);
    }
  }

  lemma CoveredFields(a: seq<(string, Json)>, b: seq<(string, Json)>, name: string)
    requires Covers(a, b) && name in CanonFields(a)
    ensures name in CanonFields(b) && CanonFields(b)[name] == CanonFields(a)[name]
  {
    var i := NameHasField(a, name);
    FieldCounts(a, i);
    var k :| 0 <= k < |b| && Counts(b, k) && a[i].0 == b[k].0 && PyEq(a[i].1, b[k].1);
    FieldCounts(b, k);
  }

  /** Objects are equal if and only if each has, for every name in the other, an equal value. The order of
      the fields does not count, and of several fields of one name the last does. */
  lemma ObjectEquality(a: seq<(string, Json)>, b: seq<(string, Json)>, j: Json)
    ensures PyEq(JObject(a), JObject(b)) <==> Covers(a, b) && Covers(b, a)
    ensures PyEq(JObject(a), j) ==> j.JObject?
  {
    if CanonFields(a) == CanonFields(b) {
      EqualFieldsCover(a, b);
      EqualFieldsCover(b, a);
    }
    if Covers(a, b) && Covers(b, a) {
      forall name ensures name in CanonFields(a) <==> name in CanonFields(b)
                  ensures name in CanonFields(a) ==> CanonFields(b)[name] == CanonFields(a)[name]
      {
        if name in CanonFields(a) { CoveredFields(a, b, name); }
        if name in CanonFields(b) { CoveredFields(b, a, name); }
      }
      assert CanonFields(a) == CanonFields(b);
    }
  }
}
