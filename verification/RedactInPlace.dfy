/**
The redactor of backend/middleware/logger.go as it runs: it overwrites the entries of the
decoded objects in place, and the document they stand for becomes the redacted one.
*/
module RedactInPlace {
  import opened Redact

  /** A parsed value: scalars and lists are values, objects are shared by reference. */
  datatype Value = Scalar(json: Json) | List(elems: seq<Value>) | Object(obj: JsonObject)

  class JsonObject {
    var fields: map<string, Value>
    // every object below this one
    ghost const inner: set<JsonObject>

    constructor (fields: map<string, Value>, ghost inner: set<JsonObject>)
      ensures this.fields == fields && this.inner == inner
    {
      this.fields, this.inner := fields, inner;
    }
  }

  /** The objects a value is made of. */
  ghost function Owned(v: Value): set<JsonObject> {
    match v
    case Scalar(_) => {}
    case List(elems) => OwnedByAll(elems)
    case Object(obj) => {obj} + obj.inner
  }

  ghost function OwnedByAll(elems: seq<Value>): set<JsonObject> {
    set i, o | 0 <= i < |elems| && o in Owned(elems[i]) :: o
  }

  /** The fields of an object own different objects, all of them below it. */
  ghost predicate Separate(fields: map<string, Value>, inner: set<JsonObject>) {
    && (forall k :: k in fields ==> Owned(fields[k]) <= inner)
    && (forall k, l :: k in fields && l in fields && k != l ==> Owned(fields[k]) !! Owned(fields[l]))
  }

  /** The value is a tree: no object is reached in two ways, as a decoder builds it. */
  ghost predicate Valid(v: Value)
    reads Owned(v)
    decreases Owned(v), v
  {
    match v
    case Scalar(json) => !json.Arr? && !json.Obj?
    case List(elems) => AllValid(elems)
    case Object(obj) =>
      && obj !in obj.inner
      && Separate(obj.fields, obj.inner)
      && (forall k :: k in obj.fields ==> Valid(obj.fields[k]))
  }

  ghost predicate AllValid(elems: seq<Value>)
    reads OwnedByAll(elems)
    decreases OwnedByAll(elems), elems
  {
    && (forall i :: 0 <= i < |elems| ==> Owned(elems[i]) <= OwnedByAll(elems) && Valid(elems[i]))
    && (forall i, j :: 0 <= i < j < |elems| ==> Owned(elems[i]) !! Owned(elems[j]))
  }

  /** The document a value stands for. */
  ghost function Document(v: Value): Json
    requires Valid(v)
    reads Owned(v)
    decreases Owned(v), v
  {
    match v
    case Scalar(json) => json
    case List(elems) => Arr(Documents(elems))
    case Object(obj) => Obj(map k | k in obj.fields :: Document(obj.fields[k]))
  }

  ghost function Documents(elems: seq<Value>): seq<Json>
    requires AllValid(elems)
    reads OwnedByAll(elems)
    decreases OwnedByAll(elems), elems
  {
    seq(|elems|, i requires 0 <= i < |elems| && AllValid(elems) reads OwnedByAll(elems) => Document(elems[i]))
  }

  function RedactedElems(sensitive: Keys, elems: seq<Json>): seq<Json> {
    seq(|elems|, i requires 0 <= i < |elems| => RedactedElem(sensitive, elems[i]))
  }

  /** What an allocated value is made of is allocated. */
  twostate lemma OwnedIsOld(v: Value)
    ensures old(allocated(Owned(v)))
    decreases v
  {
    match v
    case Scalar(_) =>
    case Object(_) =>
    case List(elems) =>
      forall i | 0 <= i < |elems| ensures old(allocated(Owned(elems[i]))) {
        OwnedIsOld(elems[i]);
      }
  }

  /** A value that has not been written to is still valid and stands for the same document. */
  twostate lemma StillValid(v: Value)
    requires old(Valid(v))
    requires old(allocated(Owned(v))) ==> unchanged(Owned(v))
    ensures Valid(v) && Document(v) == old(Document(v))
  {
    OwnedIsOld(v);
  }

  /** An object stands for the documents its entries stand for. */
  lemma ObjectOf(obj: JsonObject, docs: map<string, Json>)
    requires obj !in obj.inner && Separate(obj.fields, obj.inner) && obj.fields.Keys == docs.Keys
    requires forall k :: k in docs ==> Valid(obj.fields[k]) && Document(obj.fields[k]) == docs[k]
    ensures Valid(Object(obj)) && Document(Object(obj)) == Obj(docs)
  {
    assert Document(Object(obj)).fields == docs;
  }

  /** Values that own different objects and stand for `docs` one by one do so as a list. */
  lemma ListOf(elems: seq<Value>, docs: seq<Json>)
    requires forall i, j :: 0 <= i < j < |elems| ==> Owned(elems[i]) !! Owned(elems[j])
    requires |docs| == |elems|
    requires forall i :: 0 <= i < |elems| ==> Valid(elems[i]) && Document(elems[i]) == docs[i]
    ensures AllValid(elems) && Documents(elems) == docs
  {
  }

  /** Puts the marker in the place of one entry. */
  method Overwrite(obj: JsonObject, key: string)
    requires Valid(Object(obj)) && key in obj.fields
    modifies obj
    ensures Valid(Object(obj))
    ensures Document(Object(obj)) == Obj(old(Document(Object(obj))).fields[key := MARKER])
  {
    ghost var before, parsed := Document(Object(obj)).fields, obj.fields;
    obj.fields := obj.fields[key := Scalar(MARKER)];
    forall k | k in parsed ensures Valid(parsed[k]) && Document(parsed[k]) == before[k] {
      StillValid(parsed[k]);
    }
    ObjectOf(obj, before[key := MARKER]);
  }

  /** Goes down into one entry. */
  method Descend(sensitive: Keys, obj: JsonObject, key: string)
    requires Valid(Object(obj)) && key in obj.fields
    modifies Owned(obj.fields[key])
    ensures Valid(Object(obj))
    ensures var before := old(Document(Object(obj))).fields;
            Document(Object(obj)) == Obj(before[key := Redacted(sensitive, before[key])])
    decreases Owned(Object(obj)), Object(obj), 0
  {
    ghost var before, parsed := Document(Object(obj)).fields, obj.fields;
    RedactNested(sensitive, obj.fields[key]);
    forall k | k in parsed && k != key ensures Valid(parsed[k]) && Document(parsed[k]) == before[k] {
      StillValid(parsed[k]);
    }
    ObjectOf(obj, before[key := Redacted(sensitive, before[key])]);
  }

  /** All fields but the ones still to do have been redacted. */
  ghost predicate RedactedBut(
      sensitive: Keys, before: map<string, Json>, now: map<string, Json>, todo: set<string>)
  {
    && todo <= before.Keys == now.Keys
    && forall k :: k in before ==> now[k] == if k in todo then before[k] else RedactedFields(sensitive, before)[k]
  }

  lemma OneFieldLess(
      sensitive: Keys, before: map<string, Json>, now: map<string, Json>, todo: set<string>, key: string)
    requires RedactedBut(sensitive, before, now, todo) && key in todo
    ensures var next := now[key := if sensitive(key) then MARKER else Redacted(sensitive, now[key])];
            RedactedBut(sensitive, before, next, todo - {key})
  {
  }

  /** Overwrites the entries of one object in place, going down into nested objects and the objects of arrays. */
  method RedactMap(sensitive: Keys, obj: JsonObject)
    requires Valid(Object(obj))
    modifies Owned(Object(obj))
    ensures Valid(Object(obj))
    ensures Document(Object(obj)) == Obj(RedactedFields(sensitive, old(Document(Object(obj))).fields))
    decreases Owned(Object(obj)), Object(obj), 1
  {
    ghost var before := Document(Object(obj)).fields;
    var todo := obj.fields.Keys;
    while todo != {}
      invariant Valid(Object(obj))
      invariant RedactedBut(sensitive, before, Document(Object(obj)).fields, todo)
      decreases todo
    {
      var key :| key in todo;
      OneFieldLess(sensitive, before, Document(Object(obj)).fields, todo, key);
      todo := todo - {key};
      if sensitive(key) {
        Overwrite(obj, key);
      } else {
        Descend(sensitive, obj, key);
      }
    }
    assert Document(Object(obj)).fields == RedactedFields(sensitive, before);
  }

  method RedactNested(sensitive: Keys, value: Value)
    requires Valid(value)
    modifies Owned(value)
    ensures Valid(value)
    ensures Document(value) == Redacted(sensitive, old(Document(value)))
    decreases Owned(value), value, 2
  {
    match value
    case Object(nested) =>
      RedactMap(sensitive, nested);
    case List(elems) =>
      RedactElems(sensitive, elems);
    case Scalar(_) =>
  }

  /** Redacts one element if it is an object. */
  method RedactElem(sensitive: Keys, elems: seq<Value>, i: nat)
    requires AllValid(elems) && i < |elems|
    modifies Owned(elems[i])
    ensures AllValid(elems)
    ensures Documents(elems) == old(Documents(elems))[i := RedactedElem(sensitive, old(Documents(elems))[i])]
    decreases OwnedByAll(elems), elems, 0
  {
    ghost var before := Documents(elems);
    if elems[i].Object? {
      RedactMap(sensitive, elems[i].obj);
    }
    ghost var docs := before[i := RedactedElem(sensitive, before[i])];
    forall j | 0 <= j < |elems| ensures Valid(elems[j]) && Document(elems[j]) == docs[j] {
      if j != i {
        StillValid(elems[j]);
      }
    }
    ListOf(elems, docs);
  }

  method RedactElems(sensitive: Keys, elems: seq<Value>)
    requires AllValid(elems)
    modifies OwnedByAll(elems)
    ensures AllValid(elems)
    ensures Documents(elems) == RedactedElems(sensitive, old(Documents(elems)))
    decreases OwnedByAll(elems), elems, 1
  {
    ghost var before := Documents(elems);
    for i := 0 to |elems|
      invariant AllValid(elems)
      invariant var now := Documents(elems);
        && (forall j :: 0 <= j < i ==> now[j] == RedactedElem(sensitive, before[j]))
        && (forall j :: i <= j < |elems| ==> now[j] == before[j])
    {
      RedactElem(sensitive, elems, i);
    }
  }
}
