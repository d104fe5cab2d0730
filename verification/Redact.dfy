/**
Redaction of logged request bodies (backend/middleware/logger.go). `sensitive` stands for
membership of the lower-cased key in the configured set.
*/
module Redact {
  import opened Wrappers

  datatype Json =
    | Null
    | Bool(value: bool)
    | Num(number: real)
    | Str(text: string)
    | Arr(elems: seq<Json>)
    | Obj(fields: map<string, Json>)

  const MARKER: Json := Str("[REDACTED]")

  type Keys = string -> bool

  function RedactedFields(sensitive: Keys, fields: map<string, Json>): map<string, Json>
    decreases Obj(fields), 0
  {
    map k | k in fields :: if sensitive(k) then MARKER else Redacted(sensitive, fields[k])
  }

  /** The elements of an array: objects are redacted, anything else, arrays included, is left alone. */
  function RedactedElem(sensitive: Keys, elem: Json): Json
    decreases elem, 1
  {
    match elem case Obj(fields) => Obj(RedactedFields(sensitive, fields)) case _ => elem
  }

  function Redacted(sensitive: Keys, j: Json): Json
    decreases j, 1
  {
    match j
    case Obj(fields) => Obj(RedactedFields(sensitive, fields))
    case Arr(elems) => Arr(seq(|elems|, i requires 0 <= i < |elems| => RedactedElem(sensitive, elems[i])))
    case _ => j
  }

  // ---------------------------------------------------------------------------
  // Where a value sits in a document
  // ---------------------------------------------------------------------------

  datatype Step = Key(key: string) | Index(index: nat)

  function Child(j: Json, step: Step): Option<Json> {
    match (j, step)
    case (Obj(fields), Key(k)) => if k in fields then Some(fields[k]) else None
    case (Arr(elems), Index(i)) => if i < |elems| then Some(elems[i]) else None
    case _ => None
  }

  function Lookup(j: Json, path: seq<Step>): Option<Json> {
    if path == [] then Some(j)
    else
      match Child(j, path[0])
      case Some(child) => Lookup(child, path[1..])
      case None => None
  }

  ghost predicate Crosses(sensitive: Keys, path: seq<Step>) {
    exists i :: 0 <= i < |path| && path[i].Key? && sensitive(path[i].key)
  }

  /** The same kind of value: equal scalars, objects with the same keys, arrays of the same length. */
  predicate SameShape(a: Json, b: Json) {
    match (a, b)
    case (Obj(f), Obj(g)) => f.Keys == g.Keys
    case (Arr(e), Arr(f)) => |e| == |f|
    case _ => a == b
  }

  /** Along a step that is not a sensitive key, redaction redacts the child, as an array element in an array. */
  lemma ChildOfRedacted(sensitive: Keys, j: Json, step: Step)
    requires step.Key? ==> !sensitive(step.key)
    ensures Child(Redacted(sensitive, j), step) ==
            match Child(j, step)
            case None => None
            case Some(child) => Some(if step.Key? then Redacted(sensitive, child) else RedactedElem(sensitive, child))
  {
  }

  /**
  Nothing but sensitive values changes: at every path that meets no sensitive key there is
  a value after redaction exactly when there was one before, and it has the same shape.
  */
  lemma {:induction false} RedactionPreserves(sensitive: Keys, j: Json, path: seq<Step>)
    requires !Crosses(sensitive, path)
    ensures var before, after := Lookup(j, path), Lookup(Redacted(sensitive, j), path);
            && (before.Some? <==> after.Some?)
            && (before.Some? ==> SameShape(before.value, after.value))
    decreases |path|
  {
    if path == [] {
    } else {
      assert path[0].Key? ==> !sensitive(path[0].key);
      ChildOfRedacted(sensitive, j, path[0]);
      var child := Child(j, path[0]);
      if child.Some? {
        TailDoesNotCross(sensitive, path);
        RedactionPreserves(sensitive, child.value, path[1..]);
      }
    }
  }

  lemma TailDoesNotCross(sensitive: Keys, path: seq<Step>)
    requires path != [] && !Crosses(sensitive, path)
    ensures !Crosses(sensitive, path[1..])
  {
    assert forall i :: 0 <= i < |path[1..]| ==> path[1..][i] == path[i + 1];
  }

  /** A second pass changes nothing. */
  lemma {:induction false} RedactionIsIdempotent(sensitive: Keys, j: Json)
    ensures Redacted(sensitive, Redacted(sensitive, j)) == Redacted(sensitive, j)
  {
    match j
    case Obj(fields) =>
      FieldsIdempotent(sensitive, fields);
    case Arr(elems) =>
      var once := Redacted(sensitive, j).elems;
      forall i | 0 <= i < |elems| ensures RedactedElem(sensitive, once[i]) == once[i] {
        assert once[i] == RedactedElem(sensitive, elems[i]);
        if elems[i].Obj? {
          FieldsIdempotent(sensitive, elems[i].fields);
        }
      }
      assert Redacted(sensitive, Arr(once)).elems == once;
    case _ =>
  }

  lemma {:induction false} FieldsIdempotent(sensitive: Keys, fields: map<string, Json>)
    ensures RedactedFields(sensitive, RedactedFields(sensitive, fields)) == RedactedFields(sensitive, fields)
    decreases Obj(fields), 0
  {
    var once := RedactedFields(sensitive, fields);
    forall k | k in fields ensures RedactedFields(sensitive, once)[k] == once[k] {
      if !sensitive(k) {
        RedactionIsIdempotent(sensitive, fields[k]);
      }
    }
  }

  // ---------------------------------------------------------------------------
  // What is left to see
  // ---------------------------------------------------------------------------

  /** Every value under a sensitive key, at any depth, is the marker. */
  ghost predicate Clean(sensitive: Keys, j: Json) {
    match j
    case Obj(fields) =>
      forall k :: k in fields ==> if sensitive(k) then fields[k] == MARKER else Clean(sensitive, fields[k])
    case Arr(elems) => forall i :: 0 <= i < |elems| ==> Clean(sensitive, elems[i])
    case _ => true
  }

  /** What redaction does not reach is clean already: the contents of arrays directly inside arrays. */
  ghost predicate UnreachedClean(sensitive: Keys, j: Json) {
    match j
    case Obj(fields) => forall k :: k in fields && !sensitive(k) ==> UnreachedClean(sensitive, fields[k])
    case Arr(elems) => forall i :: 0 <= i < |elems| ==>
      if elems[i].Arr? then Clean(sensitive, elems[i]) else UnreachedClean(sensitive, elems[i])
    case _ => true
  }

  /** No array is an element of an array. */
  ghost predicate FlatArrays(j: Json) {
    match j
    case Obj(fields) => forall k :: k in fields ==> FlatArrays(fields[k])
    case Arr(elems) => forall i :: 0 <= i < |elems| ==> !elems[i].Arr? && FlatArrays(elems[i])
    case _ => true
  }

  /** Cleanliness in terms of paths: whatever is found behind a sensitive key is the marker. */
  lemma {:induction false} CleanAtPath(sensitive: Keys, j: Json, path: seq<Step>, k: string)
    requires Clean(sensitive, j) && sensitive(k) && !Crosses(sensitive, path)
    ensures var v := Lookup(j, path + [Key(k)]); v.Some? ==> v.value == MARKER
    decreases |path|
  {
    var whole := path + [Key(k)];
    if path == [] {
      assert whole[1..] == [];
    } else {
      assert whole[1..] == path[1..] + [Key(k)] && whole[0] == path[0];
      assert path[0].Key? ==> !sensitive(path[0].key);
      var child := Child(j, path[0]);
      if child.Some? {
        TailDoesNotCross(sensitive, path);
        CleanAtPath(sensitive, child.value, path[1..], k);
      }
    }
  }

  /**
  Redaction hides every value under a sensitive key exactly when the only part of the
  document it does not reach, arrays directly inside arrays, hid them already.
  */
  lemma {:induction false} RedactionHidesExactly(sensitive: Keys, j: Json)
    ensures Clean(sensitive, Redacted(sensitive, j)) <==> UnreachedClean(sensitive, j)
    decreases j, 1
  {
    match j
    case Obj(fields) => FieldsHideExactly(sensitive, fields);
    case Arr(elems) =>
      var after := Redacted(sensitive, j).elems;
      forall i | 0 <= i < |elems|
        ensures Clean(sensitive, after[i]) <==>
                if elems[i].Arr? then Clean(sensitive, elems[i]) else UnreachedClean(sensitive, elems[i])
      {
        assert after[i] == RedactedElem(sensitive, elems[i]);
        if elems[i].Obj? {
          FieldsHideExactly(sensitive, elems[i].fields);
        }
      }
    case _ =>
  }

  lemma {:induction false} FieldsHideExactly(sensitive: Keys, fields: map<string, Json>)
    ensures Clean(sensitive, Obj(RedactedFields(sensitive, fields))) <==> UnreachedClean(sensitive, Obj(fields))
    decreases Obj(fields), 0
  {
    var after := RedactedFields(sensitive, fields);
    forall k | k in fields && !sensitive(k)
      ensures Clean(sensitive, after[k]) <==> UnreachedClean(sensitive, fields[k])
    {
      RedactionHidesExactly(sensitive, fields[k]);
    }
  }

  lemma {:induction false} FlatIsReached(sensitive: Keys, j: Json)
    requires FlatArrays(j)
    ensures UnreachedClean(sensitive, j)
  {
    match j
    case Obj(fields) =>
      forall k | k in fields ensures UnreachedClean(sensitive, fields[k]) {
        FlatIsReached(sensitive, fields[k]);
      }
    case Arr(elems) =>
      forall i | 0 <= i < |elems| ensures UnreachedClean(sensitive, elems[i]) {
        FlatIsReached(sensitive, elems[i]);
      }
    case _ =>
  }

  /** In a document without arrays of arrays, whatever sits behind a sensitive key is the marker after redaction. */
  lemma FlatDocumentsAreHidden(sensitive: Keys, j: Json, path: seq<Step>, k: string)
    requires FlatArrays(j) && sensitive(k) && !Crosses(sensitive, path)
    ensures var v := Lookup(Redacted(sensitive, j), path + [Key(k)]); v.Some? ==> v.value == Str("[REDACTED]")
    ensures Lookup(j, path + [Key(k)]).Some? ==> Lookup(Redacted(sensitive, j), path + [Key(k)]).Some?
  {
    FlatIsReached(sensitive, j);
    RedactionHidesExactly(sensitive, j);
    CleanAtPath(sensitive, Redacted(sensitive, j), path, k);
    RedactionPreserves(sensitive, j, path);
    LookupLast(j, path, Key(k));
    LookupLast(Redacted(sensitive, j), path, Key(k));
  }

  lemma {:induction false} LookupLast(j: Json, path: seq<Step>, step: Step)
    ensures Lookup(j, path + [step]) ==
            match Lookup(j, path) case Some(v) => Child(v, step) case None => None
    decreases |path|
  {
    var whole := path + [step];
    if path == [] {
      assert whole[1..] == [];
    } else {
      assert whole[1..] == path[1..] + [step] && whole[0] == path[0];
      var child := Child(j, path[0]);
      if child.Some? {
        LookupLast(child.value, path[1..], step);
      }
    }
  }

  /** A secret in an array of arrays survives redaction. */
  lemma NestedArrayKeepsSecret(sensitive: Keys, secret: Json)
    requires sensitive("password") && !sensitive("rows") && secret != MARKER
    ensures var j := Obj(map["rows" := Arr([Arr([Obj(map["password" := secret])])])]);
            Lookup(Redacted(sensitive, j), [Key("rows"), Index(0), Index(0), Key("password")]) == Some(secret)
  {
    var inner := Obj(map["password" := secret]);
    var path := [Key("rows"), Index(0), Index(0), Key("password")];
    assert path[1..] == [Index(0), Index(0), Key("password")];
    assert path[1..][1..] == [Index(0), Key("password")];
    assert path[1..][1..][1..] == [Key("password")];
    assert path[1..][1..][1..][1..] == [];
    assert Lookup(inner, [Key("password")]) == Some(secret);
    assert Lookup(Arr([inner]), [Index(0), Key("password")]) == Some(secret);
    assert Lookup(Arr([Arr([inner])]), [Index(0), Index(0), Key("password")]) == Some(secret);
    assert Redacted(sensitive, Arr([Arr([inner])])) == Arr([Arr([inner])]);
  }
}
