/** Encoding task arguments to JSON (serialization.py). */
module Serialization {
  import opened Common
  import opened Json

  const MAX_DEPTH := 10

  datatype Float = Finite(r: real) | NaN | PosInf | NegInf

  datatype PyKey = KStr(s: string) | KOther

  /** Python values, as far as encode_value tells them apart. PStamp covers datetime, date and
      time with their isoformat text; PBuffer covers bytearray and memoryview. */
  datatype PyValue =
    | PNone
    | PBool(b: bool)
    | PInt(i: int)
    | PStr(s: string)
    | PFloat(f: Float)
    | PBytes
    | PBuffer(octets: seq<int>)
    | PEnum(member: PyValue)
    | PStamp(iso: string)
    | PUuid(text: string)
    | PDecimal(finite: bool, text: string)
    | PMapping(items: seq<(PyKey, PyValue)>)
    | PSet
    | PSequence(elems: seq<PyValue>)
    | PObject

  datatype Step = AtIndex(i: nat) | AtKey(k: string)

  datatype Refusal = TooDeep | NoJsonNumber | Blob | KeyNotString | Unordered | NotJsonSafe | WrongShape

  /** The refusal and the position of the value refused, from the value encoded. */
  datatype EncodeError = EncodeError(path: seq<Step>, why: Refusal)

  type Encoded = Result<Json, EncodeError>

  function Refuse<T>(why: Refusal): Result<T, EncodeError> {
    Failure(EncodeError([], why))
  }

  function Under<T>(step: Step, e: EncodeError): Result<T, EncodeError> {
    Failure(EncodeError([step] + e.path, e.why))
  }

  /** encoded[key] = value on an insertion-ordered dict. */
  function Put(fields: seq<(string, Json)>, key: string, value: Json): seq<(string, Json)> {
    if fields == [] then [(key, value)]
    else if fields[0].0 == key then [(key, value)] + fields[1..]
    else [fields[0]] + Put(fields[1..], key, value)
  }

  function Encode(v: PyValue, depth: nat): Encoded
    decreases v, 0
  {
    if depth > MAX_DEPTH then Refuse(TooDeep)
    else match v
      case PNone => Success(JNull)
      case PBool(b) => Success(JBool(b))
      case PInt(i) => Success(JInt(i))
      case PStr(s) => Success(JString(s))
      case PFloat(f) => if f.Finite? then Success(JFloat(f.r)) else Refuse(NoJsonNumber)
      case PBytes => Refuse(Blob)
      case PBuffer(_) => Refuse(Blob)
      case PEnum(member) => Encode(member, depth + 1)
      case PStamp(iso) => Success(JString(iso))
      case PUuid(text) => Success(JString(text))
      case PDecimal(finite, text) => if finite then Success(JString(text)) else Refuse(NoJsonNumber)
      case PMapping(items) =>
        (match EncodeFields(items, depth + 1, [])
         case Success(fields) => Success(JObject(fields))
         case Failure(e) => Failure(e))
      case PSet => Refuse(Unordered)
      case PSequence(elems) =>
        (match EncodeItems(elems, depth + 1, 0)
         case Success(items) => Success(JArray(items))
         case Failure(e) => Failure(e))
      case PObject => Refuse(NotJsonSafe)
  }

  /** The mapping loop over the remaining items, done being the dict so far. */
  function EncodeFields(items: seq<(PyKey, PyValue)>, depth: nat, done: seq<(string, Json)>)
    : Result<seq<(string, Json)>, EncodeError>
    decreases items, 1
  {
    if items == [] then Success(done)
    else
      var first := items[0];
      assert first in items && first.1 < first;
      if first.0.KOther? then Refuse(KeyNotString)
      else match Encode(first.1, depth)
        case Success(j) => EncodeFields(items[1..], depth, Put(done, first.0.s, j))
        case Failure(e) => Under(AtKey(first.0.s), e)
  }

  /** The list comprehension over the remaining elements, index being the position of the first. */
  function EncodeItems(elems: seq<PyValue>, depth: nat, index: nat): Result<seq<Json>, EncodeError>
    decreases elems, 1
  {
    if elems == [] then Success([])
    else match Encode(elems[0], depth)
      case Failure(e) => Under(AtIndex(index), e)
      case Success(j) =>
        match EncodeItems(elems[1..], depth, index + 1)
        case Failure(e) => Failure(e)
        case Success(js) => Success([j] + js)
  }

  /** encode_value, with the mapping branch filling its dict in a loop. */
  method EncodeValue(v: PyValue, depth: nat) returns (r: Encoded)
    ensures r == Encode(v, depth)
    decreases v
  {
    if depth <= MAX_DEPTH && v.PEnum? {
      r := EncodeValue(v.member, depth + 1);
    } else if depth <= MAX_DEPTH && v.PMapping? {
      var encoded: seq<(string, Json)> := [];
      for i := 0 to |v.items|
        invariant EncodeFields(v.items, depth + 1, []) == EncodeFields(v.items[i..], depth + 1, encoded)
      {
        var item := v.items[i];
        assert item in v.items && item.1 < item;
        assert v.items[i..][0] == item && v.items[i..][1..] == v.items[i + 1..];
        if item.0.KOther? {
          return Refuse(KeyNotString);
        }
        var value := EncodeValue(item.1, depth + 1);
        if value.Failure? {
          return Under(AtKey(item.0.s), value.error);
        }
        encoded := Put(encoded, item.0.s, value.value);
      }
      r := Success(JObject(encoded));
    } else {
      r := Encode(v, depth);
    }
  }

  function OctetsAsInts(octets: seq<int>): seq<Json> {
    if octets == [] then [] else [JInt(octets[0])] + OctetsAsInts(octets[1..])
  }

  /** encode_args: None, or a sequence other than str and bytes; a bytearray is one, of ints. */
  function EncodeArgs(args: PyValue): Result<seq<Json>, EncodeError> {
    match args
    case PNone => Success([])
    case PSequence(elems) => EncodeItems(elems, 0, 0)
    case PBuffer(octets) => Success(OctetsAsInts(octets))
    case _ => Refuse(WrongShape)
  }

  function EncodedKwargs(kwargs: PyValue): Result<seq<(string, Json)>, EncodeError> {
    match kwargs
    case PNone => Success([])
    case PMapping(items) => EncodeFields(items, 0, [])
    case _ => Refuse(WrongShape)
  }

  /** encode_kwargs, with its loop. */
  method EncodeKwargs(kwargs: PyValue) returns (r: Result<seq<(string, Json)>, EncodeError>)
    ensures r == EncodedKwargs(kwargs)
  {
    if kwargs.PNone? {
      return Success([]);
    }
    if !kwargs.PMapping? {
      return Refuse(WrongShape);
    }
    var encoded: seq<(string, Json)> := [];
    for i := 0 to |kwargs.items|
      invariant EncodeFields(kwargs.items, 0, []) == EncodeFields(kwargs.items[i..], 0, encoded)
    {
      var item := kwargs.items[i];
      assert kwargs.items[i..][0] == item && kwargs.items[i..][1..] == kwargs.items[i + 1..];
      if item.0.KOther? {
        return Refuse(KeyNotString);
      }
      var value := EncodeValue(item.1, 0);
      if value.Failure? {
        return Under(AtKey(item.0.s), value.error);
      }
      encoded := Put(encoded, item.0.s, value.value);
    }
    r := Success(encoded);
  }

  // --- when encoding succeeds ---

  function Most(a: nat, b: nat): nat {
    if a < b then b else a
  }

  /** How many levels unwrapping v takes: one for each container or enum around a value. */
  function Nesting(v: PyValue): nat
    decreases v, 0
  {
    match v
    case PEnum(member) => 1 + Nesting(member)
    case PMapping(items) => FieldsNesting(items)
    case PSequence(elems) => ItemsNesting(elems)
    case _ => 0
  }

  function FieldsNesting(items: seq<(PyKey, PyValue)>): nat
    decreases items, 1
  {
    if items == [] then 0
    else
      assert items[0] in items && items[0].1 < items[0];
      Most(1 + Nesting(items[0].1), FieldsNesting(items[1..]))
  }

  function ItemsNesting(elems: seq<PyValue>): nat
    decreases elems, 1
  {
    if elems == [] then 0 else Most(1 + Nesting(elems[0]), ItemsNesting(elems[1..]))
  }

  /** Every leaf has a JSON form and every mapping key is a string. */
  predicate Representable(v: PyValue)
    decreases v, 0
  {
    match v
    case PFloat(f) => f.Finite?
    case PDecimal(finite, _) => finite
    case PEnum(member) => Representable(member)
    case PMapping(items) => FieldsRepresentable(items)
    case PSequence(elems) => ItemsRepresentable(elems)
    case PBytes => false
    case PBuffer(_) => false
    case PSet => false
    case PObject => false
    case _ => true
  }

  predicate FieldsRepresentable(items: seq<(PyKey, PyValue)>)
    decreases items, 1
  {
    items == []
    || (assert items[0] in items && items[0].1 < items[0];
        items[0].0.KStr? && Representable(items[0].1) && FieldsRepresentable(items[1..]))
  }

  predicate ItemsRepresentable(elems: seq<PyValue>)
    decreases elems, 1
  {
    elems == [] || (Representable(elems[0]) && ItemsRepresentable(elems[1..]))
  }

  /** Encoding succeeds exactly on representable values that unwrap within ten levels, MAX_DEPTH. */
  lemma {:induction false} EncodesExactly(v: PyValue, depth: nat)
    ensures Encode(v, depth).Success? <==> depth + Nesting(v) <= 10 && Representable(v)
    decreases v, 0
  {
    match v
    case PEnum(member) => EncodesExactly(member, depth + 1);
    case PMapping(items) => FieldsEncodeExactly(items, depth + 1, []);
    case PSequence(elems) => ItemsEncodeExactly(elems, depth + 1, 0);
    case _ =>
  }

  lemma {:induction false} FieldsEncodeExactly(items: seq<(PyKey, PyValue)>, depth: nat, done: seq<(string, Json)>)
    ensures EncodeFields(items, depth, done).Success? <==>
      (items == [] || depth - 1 + FieldsNesting(items) <= MAX_DEPTH) && FieldsRepresentable(items)
    decreases items, 1
  {
    if items == [] {
    } else {
      assert items[0] in items && items[0].1 < items[0];
      EncodesExactly(items[0].1, depth);
      if items[0].0.KStr? && Encode(items[0].1, depth).Success? {
        FieldsEncodeExactly(items[1..], depth, Put(done, items[0].0.s, Encode(items[0].1, depth).value));
      }
    }
  }

  lemma {:induction false} ItemsEncodeExactly(elems: seq<PyValue>, depth: nat, index: nat)
    ensures EncodeItems(elems, depth, index).Success? <==>
      (elems == [] || depth - 1 + ItemsNesting(elems) <= MAX_DEPTH) && ItemsRepresentable(elems)
    decreases elems, 1
  {
    if elems == [] {
    } else {
      EncodesExactly(elems[0], depth);
      ItemsEncodeExactly(elems[1..], depth, index + 1);
    }
  }

  /** Call arguments: each positional or keyword argument has the whole depth to itself. */
  lemma ArgumentsEncodeExactly(args: PyValue, kwargs: PyValue)
    ensures EncodeArgs(args).Success? <==>
      args.PNone? || args.PBuffer?
      || (args.PSequence? && ItemsNesting(args.elems) <= MAX_DEPTH + 1 && ItemsRepresentable(args.elems))
    ensures EncodedKwargs(kwargs).Success? <==>
      kwargs.PNone?
      || (kwargs.PMapping? && FieldsNesting(kwargs.items) <= MAX_DEPTH + 1 && FieldsRepresentable(kwargs.items))
  {
    if args.PSequence? {
      ItemsEncodeExactly(args.elems, 0, 0);
    }
    if kwargs.PMapping? {
      FieldsEncodeExactly(kwargs.items, 0, []);
    }
  }

  // --- what it produces ---

  function Height(j: Json): nat
    decreases j, 0
  {
    match j
    case JArray(items) => ItemsHeight(items)
    case JObject(fields) => FieldsHeight(fields)
    case _ => 0
  }

  function ItemsHeight(items: seq<Json>): nat
    decreases items, 1
  {
    if items == [] then 0 else Most(1 + Height(items[0]), ItemsHeight(items[1..]))
  }

  function FieldsHeight(fields: seq<(string, Json)>): nat
    decreases fields, 1
  {
    if fields == [] then 0
    else
      assert fields[0] in fields && fields[0].1 < fields[0];
      Most(1 + Height(fields[0].1), FieldsHeight(fields[1..]))
  }

  /** No object of j has two fields of one name. */
  predicate IsDict(j: Json)
    decreases j, 0
  {
    match j
    case JArray(items) => AllDicts(items)
    case JObject(fields) => DictFields(fields)
    case _ => true
  }

  predicate AllDicts(items: seq<Json>)
    decreases items, 1
  {
    items == [] || (IsDict(items[0]) && AllDicts(items[1..]))
  }

  predicate Lacks(fields: seq<(string, Json)>, key: string) {
    forall i :: 0 <= i < |fields| ==> fields[i].0 != key
  }

  predicate DictFields(fields: seq<(string, Json)>)
    decreases fields, 1
  {
    fields == []
    || (assert fields[0] in fields && fields[0].1 < fields[0];
        IsDict(fields[0].1) && Lacks(fields[1..], fields[0].0) && DictFields(fields[1..]))
  }

  lemma {:induction false} PutKeepsDict(fields: seq<(string, Json)>, key: string, value: Json, bound: nat)
    requires DictFields(fields) && IsDict(value) && FieldsHeight(fields) <= bound && 1 + Height(value) <= bound
    ensures DictFields(Put(fields, key, value)) && FieldsHeight(Put(fields, key, value)) <= bound
    ensures forall k :: k != key && Lacks(fields, k) ==> Lacks(Put(fields, key, value), k)
    decreases fields
  {
    if fields != [] && fields[0].0 != key {
      var rest := Put(fields[1..], key, value);
      PutKeepsDict(fields[1..], key, value, bound);
      var all := Put(fields, key, value);
      assert all == [fields[0]] + rest;
      assert all[0] == fields[0] && all[1..] == rest;
      forall k | k != key && Lacks(fields, k) ensures Lacks(all, k) {
        assert forall i :: 0 <= i < |fields[1..]| ==> fields[1..][i] == fields[i + 1];
        assert Lacks(fields[1..], k);
      }
    } else if fields != [] {
      var all := Put(fields, key, value);
      assert all[0] == (key, value) && all[1..] == fields[1..];
    } else {
      var all := Put(fields, key, value);
      assert all[1..] == [];
    }
  }

  /** The result is plain JSON: no object repeats a name, and it is no higher than what was
      unwrapped, so at most MAX_DEPTH. */
  lemma {:induction false} OutputIsPlain(v: PyValue, depth: nat)
    requires Encode(v, depth).Success?
    ensures IsDict(Encode(v, depth).value) && depth + Height(Encode(v, depth).value) <= MAX_DEPTH
    decreases v, 0
  {
    match v
    case PEnum(member) => OutputIsPlain(member, depth + 1);
    case PMapping(items) => FieldsArePlain(items, depth + 1, []);
    case PSequence(elems) => ItemsArePlain(elems, depth + 1, 0);
    case _ =>
  }

  lemma {:induction false} FieldsArePlain(items: seq<(PyKey, PyValue)>, depth: nat, done: seq<(string, Json)>)
    requires depth <= MAX_DEPTH + 1 && EncodeFields(items, depth, done).Success?
    requires DictFields(done) && FieldsHeight(done) <= MAX_DEPTH - (depth - 1)
    ensures DictFields(EncodeFields(items, depth, done).value)
    ensures depth - 1 + FieldsHeight(EncodeFields(items, depth, done).value) <= MAX_DEPTH
    decreases items, 1
  {
    if items == [] {
    } else {
      assert items[0] in items && items[0].1 < items[0];
      OutputIsPlain(items[0].1, depth);
      var j := Encode(items[0].1, depth).value;
      PutKeepsDict(done, items[0].0.s, j, MAX_DEPTH - (depth - 1));
      FieldsArePlain(items[1..], depth, Put(done, items[0].0.s, j));
    }
  }

  lemma {:induction false} ItemsArePlain(elems: seq<PyValue>, depth: nat, index: nat)
    requires depth <= MAX_DEPTH + 1 && EncodeItems(elems, depth, index).Success?
    ensures AllDicts(EncodeItems(elems, depth, index).value)
    ensures depth - 1 + ItemsHeight(EncodeItems(elems, depth, index).value) <= MAX_DEPTH
    decreases elems, 1
  {
    if elems == [] {
    } else {
      OutputIsPlain(elems[0], depth);
      ItemsArePlain(elems[1..], depth, index + 1);
      var j, js := Encode(elems[0], depth).value, EncodeItems(elems[1..], depth, index + 1).value;
      assert ([j] + js)[0] == j && ([j] + js)[1..] == js;
    }
  }

  /** JSON read back as the Python value json.loads gives. */
  function Embed(j: Json): PyValue
    decreases j, 0
  {
    match j
    case JNull => PNone
    case JBool(b) => PBool(b)
    case JInt(i) => PInt(i)
    case JFloat(f) => PFloat(Finite(f))
    case JString(s) => PStr(s)
    case JArray(items) => PSequence(EmbedItems(items))
    case JObject(fields) => PMapping(EmbedFields(fields))
  }

  function EmbedItems(items: seq<Json>): seq<PyValue>
    decreases items, 1
  {
    if items == [] then [] else [Embed(items[0])] + EmbedItems(items[1..])
  }

  function EmbedFields(fields: seq<(string, Json)>): seq<(PyKey, PyValue)>
    decreases fields, 1
  {
    if fields == [] then []
    else
      assert fields[0] in fields && fields[0].1 < fields[0];
      [(KStr(fields[0].0), Embed(fields[0].1))] + EmbedFields(fields[1..])
  }

  lemma {:induction false} PutAppends(fields: seq<(string, Json)>, key: string, value: Json)
    requires Lacks(fields, key)
    ensures Put(fields, key, value) == fields + [(key, value)]
  {
    if fields == [] {
    } else {
      assert fields[0].0 != key;
      assert forall i :: 0 <= i < |fields[1..]| ==> fields[1..][i] == fields[i + 1];
      PutAppends(fields[1..], key, value);
      assert [fields[0]] + (fields[1..] + [(key, value)]) == fields + [(key, value)];
    }
  }

  lemma {:induction false} PlainEncodesToItself(j: Json, depth: nat)
    requires IsDict(j) && depth + Height(j) <= MAX_DEPTH
    ensures Encode(Embed(j), depth) == Success(j)
    decreases j, 0
  {
    match j
    case JArray(items) => PlainItemsEncode(items, depth + 1, 0);
    case JObject(fields) =>
      PlainFieldsEncode(fields, depth + 1, []);
      assert [] + fields == fields;
    case _ =>
  }

  lemma {:induction false} PlainItemsEncode(items: seq<Json>, depth: nat, index: nat)
    requires AllDicts(items) && depth - 1 + ItemsHeight(items) <= MAX_DEPTH
    ensures EncodeItems(EmbedItems(items), depth, index) == Success(items)
    decreases items, 1
  {
    if items == [] {
    } else {
      PlainEncodesToItself(items[0], depth);
      PlainItemsEncode(items[1..], depth, index + 1);
      var all := EmbedItems(items);
      assert all[0] == Embed(items[0]) && all[1..] == EmbedItems(items[1..]);
      assert [items[0]] + items[1..] == items;
    }
  }

  lemma {:induction false} PlainFieldsEncode(fields: seq<(string, Json)>, depth: nat, done: seq<(string, Json)>)
    requires DictFields(fields) && depth - 1 + FieldsHeight(fields) <= MAX_DEPTH
    requires forall i :: 0 <= i < |fields| ==> Lacks(done, fields[i].0)
    ensures EncodeFields(EmbedFields(fields), depth, done) == Success(done + fields)
    decreases fields, 1
  {
    if fields == [] {
      assert done + fields == done;
    } else {
      assert fields[0] in fields && fields[0].1 < fields[0];
      var key, value, rest := fields[0].0, fields[0].1, fields[1..];
      PlainEncodesToItself(value, depth);
      PutAppends(done, key, value);
      var more := done + [(key, value)];
      forall i | 0 <= i < |rest| ensures Lacks(more, rest[i].0) {
        assert rest[i] == fields[i + 1];
      }
      PlainFieldsEncode(rest, depth, more);
      var all := EmbedFields(fields);
      assert all[0] == (KStr(key), Embed(value)) && all[1..] == EmbedFields(rest);
      assert more + rest == done + fields;
    }
  }

  /** Encoding what was encoded changes nothing. */
  lemma EncodingIsIdempotent(v: PyValue, depth: nat)
    requires Encode(v, depth).Success?
    ensures Encode(Embed(Encode(v, depth).value), depth) == Encode(v, depth)
  {
    OutputIsPlain(v, depth);
    PlainEncodesToItself(Encode(v, depth).value, depth);
  }

  // --- what the encoding says ---

  /** Scalars are kept, an enum becomes its member's value, and a timestamp, UUID or decimal its text. */
  lemma ScalarsAreKept(depth: nat, b: bool, i: int, s: string, f: real, member: PyValue)
    requires depth <= MAX_DEPTH
    ensures Encode(PNone, depth) == Success(JNull) && Encode(PBool(b), depth) == Success(JBool(b))
    ensures Encode(PInt(i), depth) == Success(JInt(i)) && Encode(PFloat(Finite(f)), depth) == Success(JFloat(f))
    ensures Encode(PStr(s), depth) == Encode(PStamp(s), depth) == Encode(PUuid(s), depth)
         == Encode(PDecimal(true, s), depth) == Success(JString(s))
    ensures Encode(PEnum(member), depth) == Encode(member, depth + 1)
  {
  }

  lemma {:induction false} ItemsInTurn(elems: seq<PyValue>, depth: nat, index: nat)
    requires EncodeItems(elems, depth, index).Success?
    ensures var items := EncodeItems(elems, depth, index).value;
      |items| == |elems| && forall i :: 0 <= i < |elems| ==> Encode(elems[i], depth) == Success(items[i])
    decreases elems
  {
    if elems == [] {
    } else {
      ItemsInTurn(elems[1..], depth, index + 1);
      var j, js := Encode(elems[0], depth).value, EncodeItems(elems[1..], depth, index + 1).value;
      forall i | 0 <= i < |elems| ensures Encode(elems[i], depth) == Success(([j] + js)[i]) {
        assert i > 0 ==> elems[i] == elems[1..][i - 1];
      }
    }
  }

  /** A sequence is encoded element by element. */
  lemma SequencesElementwise(elems: seq<PyValue>, depth: nat)
    requires Encode(PSequence(elems), depth).Success?
    ensures Encode(PSequence(elems), depth).value.JArray?
    ensures var items := Encode(PSequence(elems), depth).value.items;
      |items| == |elems| && forall i :: 0 <= i < |elems| ==> Encode(elems[i], depth + 1) == Success(items[i])
  {
    ItemsInTurn(elems, depth + 1, 0);
  }

  predicate Distinct(fields: seq<(string, Json)>) {
    forall i, k :: 0 <= i < k < |fields| ==> fields[i].0 != fields[k].0
  }

  /** The i-th item is the one that counts for its key: the last of that key. */
  predicate Wins(items: seq<(PyKey, PyValue)>, i: nat)
    requires i < |items|
  {
    forall k :: i < k < |items| ==> items[k].0 != items[i].0
  }

  /** f is the field of an item that counts. */
  predicate FieldOf(items: seq<(PyKey, PyValue)>, depth: nat, f: (string, Json)) {
    exists i :: 0 <= i < |items| && Wins(items, i) && Gives(items[i], depth, f)
  }

  predicate Gives(item: (PyKey, PyValue), depth: nat, f: (string, Json)) {
    item.0 == KStr(f.0) && Encode(item.1, depth) == Success(f.1)
  }

  predicate Misses(items: seq<(PyKey, PyValue)>, name: string) {
    forall i :: 0 <= i < |items| ==> items[i].0 != KStr(name)
  }

  lemma {:induction false} PutKeepsNames(fields: seq<(string, Json)>, key: string, value: Json)
    requires Distinct(fields)
    ensures Distinct(Put(fields, key, value))
    ensures forall k :: 0 <= k < |Put(fields, key, value)| ==>
      || Put(fields, key, value)[k].0 == key
      || exists i :: 0 <= i < |fields| && fields[i].0 == Put(fields, key, value)[k].0
    decreases fields
  {
    if fields == [] {
    } else if fields[0].0 == key {
      assert forall k :: 0 <= k < |fields[1..]| ==> fields[1..][k] == fields[k + 1];
    } else {
      assert forall k :: 0 <= k < |fields[1..]| ==> fields[1..][k] == fields[k + 1];
      PutKeepsNames(fields[1..], key, value);
    }
  }

  lemma {:induction false} PutMeans(fields: seq<(string, Json)>, key: string, value: Json, f: (string, Json))
    requires Distinct(fields)
    ensures f in Put(fields, key, value) <==> f == (key, value) || (f in fields && f.0 != key)
    decreases fields
  {
    if fields == [] {
    } else if fields[0].0 == key {
      assert fields == [fields[0]] + fields[1..];
      assert forall k :: 0 <= k < |fields[1..]| ==> fields[1..][k] == fields[k + 1];
    } else {
      assert fields == [fields[0]] + fields[1..];
      assert forall k :: 0 <= k < |fields[1..]| ==> fields[1..][k] == fields[k + 1];
      PutMeans(fields[1..], key, value, f);
    }
  }

  lemma FieldOfFirst(items: seq<(PyKey, PyValue)>, depth: nat, f: (string, Json))
    requires items != []
    ensures FieldOf(items, depth, f) <==>
      || FieldOf(items[1..], depth, f)
      || (Gives(items[0], depth, f) && Misses(items[1..], f.0))
    ensures Misses(items, f.0) <==> items[0].0 != KStr(f.0) && Misses(items[1..], f.0)
  {
    var rest := items[1..];
    assert forall k :: 0 <= k < |rest| ==> rest[k] == items[k + 1];
    if FieldOf(items, depth, f) {
      var i :| 0 <= i < |items| && Wins(items, i) && Gives(items[i], depth, f);
      if i > 0 {
        assert rest[i - 1] == items[i] && Wins(rest, i - 1);
      }
    }
    if FieldOf(rest, depth, f) {
      var i :| 0 <= i < |rest| && Wins(rest, i) && Gives(rest[i], depth, f);
      assert items[i + 1] == rest[i];
      assert Wins(items, i + 1) by {
        forall k | i + 1 < k < |items| ensures items[k].0 != items[i + 1].0 {
          assert items[k] == rest[k - 1];
        }
      }
    }
    if items[0].0 == KStr(f.0) && Misses(rest, f.0) {
      assert Wins(items, 0) by {
        forall k | 0 < k < |items| ensures items[k].0 != items[0].0 {
          assert items[k] == rest[k - 1];
        }
      }
    }
  }

  lemma {:induction false} FieldsInTurn(items: seq<(PyKey, PyValue)>, depth: nat, done: seq<(string, Json)>,
                                        f: (string, Json))
    requires EncodeFields(items, depth, done).Success? && Distinct(done)
    ensures var fields := EncodeFields(items, depth, done).value;
      Distinct(fields) && (f in fields <==> FieldOf(items, depth, f) || (f in done && Misses(items, f.0)))
    decreases items
  {
    if items == [] {
    } else {
      var j := Encode(items[0].1, depth).value;
      PutMeans(done, items[0].0.s, j, f);
      PutKeepsNames(done, items[0].0.s, j);
      FieldsInTurn(items[1..], depth, Put(done, items[0].0.s, j), f);
      FieldOfFirst(items, depth, f);
    }
  }

  /** A mapping is encoded item by item: the object has one field a key, of the last value under it. */
  lemma MappingsByKey(items: seq<(PyKey, PyValue)>, depth: nat, f: (string, Json))
    requires Encode(PMapping(items), depth).Success?
    ensures Encode(PMapping(items), depth).value.JObject?
    ensures var fields := Encode(PMapping(items), depth).value.fields;
      Distinct(fields) && (f in fields <==> FieldOf(items, depth + 1, f))
  {
    FieldsInTurn(items, depth + 1, [], f);
  }

  lemma {:induction false} OctetsInTurn(octets: seq<int>)
    ensures |OctetsAsInts(octets)| == |octets|
    ensures forall i :: 0 <= i < |octets| ==> OctetsAsInts(octets)[i] == JInt(octets[i])
  {
    if octets == [] {
    } else {
      OctetsInTurn(octets[1..]);
    }
  }

  /** Call arguments: none for None, and otherwise the sequence element by element and the mapping item by
      item, each value at depth zero; a bytearray is the sequence of its octets. */
  lemma ArgumentsMean(args: PyValue, kwargs: PyValue, f: (string, Json))
    ensures EncodeArgs(args).Success? ==> var items := EncodeArgs(args).value;
      && (args.PNone? ==> items == [])
      && (args.PSequence? ==>
            |items| == |args.elems| && forall i :: 0 <= i < |items| ==> Encode(args.elems[i], 0) == Success(items[i]))
      && (args.PBuffer? ==>
            |items| == |args.octets| && forall i :: 0 <= i < |items| ==> items[i] == JInt(args.octets[i]))
    ensures EncodedKwargs(kwargs).Success? ==> var fields := EncodedKwargs(kwargs).value;
      && (kwargs.PNone? ==> fields == [])
      && (kwargs.PMapping? ==> Distinct(fields) && (f in fields <==> FieldOf(kwargs.items, 0, f)))
  {
    if EncodeArgs(args).Success? && args.PSequence? {
      ItemsInTurn(args.elems, 0, 0);
    }
    if args.PBuffer? {
      OctetsInTurn(args.octets);
    }
    if EncodedKwargs(kwargs).Success? && kwargs.PMapping? {
      FieldsInTurn(kwargs.items, 0, [], f);
    }
  }

  // --- what an error says ---

  /** Unwrapping v, met at depth, along the path leads to w, at depth d: every container entered and
      every enum looked through is one level more. */
  predicate Leads(v: PyValue, depth: nat, path: seq<Step>, w: PyValue, d: nat)
    decreases v
  {
    || (path == [] && w == v && d == depth)
    || match v
       case PEnum(member) => Leads(member, depth + 1, path, w, d)
       case PSequence(elems) =>
         && path != [] && path[0].AtIndex? && path[0].i < |elems|
         && Leads(elems[path[0].i], depth + 1, path[1..], w, d)
       case PMapping(items) =>
         path != [] && path[0].AtKey? && exists i :: 0 <= i < |items| && LeadsOn(items, i, depth, path, w, d)
       case _ => false
  }

  /** The same through the i-th item of a mapping. */
  predicate LeadsOn(items: seq<(PyKey, PyValue)>, i: nat, depth: nat, path: seq<Step>, w: PyValue, d: nat)
    requires i < |items| && path != [] && path[0].AtKey?
    decreases items, 1
  {
    assert items[i] in items && items[i].1 < items[i];
    items[i].0 == KStr(path[0].k) && Leads(items[i].1, depth + 1, path[1..], w, d)
  }

  /** The refusal is true of the value it is about, at the depth at which that was met. */
  predicate Deserves(w: PyValue, d: nat, why: Refusal) {
    match why
    case TooDeep => d > MAX_DEPTH
    case NoJsonNumber => d <= MAX_DEPTH && ((w.PFloat? && !w.f.Finite?) || (w.PDecimal? && !w.finite))
    case Blob => d <= MAX_DEPTH && (w.PBytes? || w.PBuffer?)
    case KeyNotString => d <= MAX_DEPTH && w.PMapping? && exists i :: 0 <= i < |w.items| && w.items[i].0.KOther?
    case Unordered => d <= MAX_DEPTH && w.PSet?
    case NotJsonSafe => d <= MAX_DEPTH && w.PObject?
    case WrongShape => false
  }

  /** The error names a position of the argument, and the value there deserves the refusal; a depth
      refusal is about a value more than MAX_DEPTH levels in. */
  lemma {:induction false} ErrorNamesTheCulprit(v: PyValue, depth: nat) returns (w: PyValue, d: nat)
    requires Encode(v, depth).Failure?
    ensures Leads(v, depth, Encode(v, depth).error.path, w, d) && Deserves(w, d, Encode(v, depth).error.why)
    decreases v, 0
  {
    w, d := v, depth;
    if depth <= MAX_DEPTH {
      match v
      case PEnum(member) =>
        w, d := ErrorNamesTheCulprit(member, depth + 1);
      case PMapping(items) =>
        w, d := FieldsCulprit(items, 0, depth, []);
        assert items[0..] == items;
      case PSequence(elems) =>
        w, d := ItemsCulprit(elems, 0, depth);
        assert elems[0..] == elems;
      case _ =>
    }
  }

  lemma {:induction false} FieldsCulprit(items: seq<(PyKey, PyValue)>, n: nat, depth: nat, done: seq<(string, Json)>)
    returns (w: PyValue, d: nat)
    requires n <= |items| && depth <= MAX_DEPTH && EncodeFields(items[n..], depth + 1, done).Failure?
    ensures var e := EncodeFields(items[n..], depth + 1, done).error;
      Leads(PMapping(items), depth, e.path, w, d) && Deserves(w, d, e.why)
    decreases items, 1, |items| - n
  {
    var rest := items[n..];
    var first := items[n];
    assert rest[0] == first && rest[1..] == items[n + 1..];
    assert first in items && first.1 < first;
    if first.0.KOther? {
      w, d := PMapping(items), depth;
    } else if Encode(first.1, depth + 1).Failure? {
      w, d := ErrorNamesTheCulprit(first.1, depth + 1);
      var e := Encode(first.1, depth + 1).error;
      var path := [AtKey(first.0.s)] + e.path;
      assert path[1..] == e.path;
      assert LeadsOn(items, n, depth, path, w, d);
    } else {
      w, d := FieldsCulprit(items, n + 1, depth, Put(done, first.0.s, Encode(first.1, depth + 1).value));
    }
  }

  lemma {:induction false} ItemsCulprit(elems: seq<PyValue>, n: nat, depth: nat) returns (w: PyValue, d: nat)
    requires n <= |elems| && EncodeItems(elems[n..], depth + 1, n).Failure?
    ensures var e := EncodeItems(elems[n..], depth + 1, n).error;
      Leads(PSequence(elems), depth, e.path, w, d) && Deserves(w, d, e.why)
    decreases elems, 1, |elems| - n
  {
    var rest := elems[n..];
    assert rest[0] == elems[n] && rest[1..] == elems[n + 1..];
    if Encode(elems[n], depth + 1).Failure? {
      w, d := ErrorNamesTheCulprit(elems[n], depth + 1);
      var e := Encode(elems[n], depth + 1).error;
      assert ([AtIndex(n)] + e.path)[1..] == e.path;
    } else {
      w, d := ItemsCulprit(elems, n + 1, depth);
    }
  }

  /** The depth is blamed only for values that do nest too deep. */
  lemma {:induction false} DepthIsBlamedRightly(v: PyValue, depth: nat)
    requires Encode(v, depth).Failure? && Encode(v, depth).error.why == TooDeep
    ensures depth + Nesting(v) > MAX_DEPTH
    decreases v, 0
  {
    if depth > MAX_DEPTH {
    } else {
      match v
      case PEnum(member) => DepthIsBlamedRightly(member, depth + 1);
      case PMapping(items) => FieldsAreBlamedRightly(items, depth + 1, []);
      case PSequence(elems) => ItemsAreBlamedRightly(elems, depth + 1, 0);
    }
  }

  lemma {:induction false} FieldsAreBlamedRightly(items: seq<(PyKey, PyValue)>, depth: nat, done: seq<(string, Json)>)
    requires EncodeFields(items, depth, done).Failure? && EncodeFields(items, depth, done).error.why == TooDeep
    ensures depth - 1 + FieldsNesting(items) > MAX_DEPTH
    decreases items, 1
  {
    var first := items[0];
    assert first in items && first.1 < first;
    if Encode(first.1, depth).Failure? {
      DepthIsBlamedRightly(first.1, depth);
    } else {
      FieldsAreBlamedRightly(items[1..], depth, Put(done, first.0.s, Encode(first.1, depth).value));
    }
  }

  lemma {:induction false} ItemsAreBlamedRightly(elems: seq<PyValue>, depth: nat, index: nat)
    requires EncodeItems(elems, depth, index).Failure? && EncodeItems(elems, depth, index).error.why == TooDeep
    ensures depth - 1 + ItemsNesting(elems) > MAX_DEPTH
    decreases elems, 1
  {
    if Encode(elems[0], depth).Failure? {
      DepthIsBlamedRightly(elems[0], depth);
    } else {
      ItemsAreBlamedRightly(elems[1..], depth, index + 1);
    }
  }
}
