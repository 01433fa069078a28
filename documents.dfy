/** The documents handed to the store, and the filter fragments built from a target field and operands. */
module Documents {

  /** A JavaScript value as far as the query builder sees it; numbers are integers here because the builder never computes with them. */
  datatype Value =
    | Undefined
    | Null
    | Bool(b: bool)
    | Num(n: int)
    | Str(s: string)
    | Arr(items: seq<Value>)
    | Obj(fields: map<string, Value>)
    | Inherited(name: string)   // `Object.prototype[name]`: a built-in method, `Object` itself, or the prototype

  /** The names every object literal inherits from `Object.prototype`. */
  const PrototypeMembers: set<string> := {
    "constructor", "__proto__", "toString", "toLocaleString", "valueOf", "hasOwnProperty",
    "isPrototypeOf", "propertyIsEnumerable", "__defineGetter__", "__defineSetter__",
    "__lookupGetter__", "__lookupSetter__"
  }

  /** The lookup table of `compareRequest`: each operator symbol to what the field is mapped to. */
  function Operators(compareWith: Value): map<string, Value> {
    map[
      "!=" := Obj(map["$ne" := compareWith]),
      "==" := compareWith,
      ">" := Obj(map["$gt" := compareWith]),
      "<" := Obj(map["$lt" := compareWith])
    ]
  }

  /** `compareRequest`: a one-key document on `where`. The lookup in the table follows the prototype chain:
      a name the literal inherits gives the inherited value, and any other name missing from the table gives `undefined`. */
  function CompareRequest(where: string, operator: string, compareWith: Value): (r: Value)
    ensures r.Obj? && r.fields.Keys == {where}
    ensures operator in PrototypeMembers ==> r.fields[where] == Inherited(operator)
    ensures operator !in {"!=", "==", ">", "<"} && operator !in PrototypeMembers ==> r.fields[where] == Undefined
  {
    var operators := Operators(compareWith);
    var found :=
      if operator in operators then operators[operator]
      else if operator in PrototypeMembers then Inherited(operator)
      else Undefined;
    Obj(map[where := found])
  }

  /** What each of the four operators puts under the field. */
  lemma FragmentShape(where: string, v: Value)
    ensures CompareRequest(where, "==", v) == Obj(map[where := v])
    ensures CompareRequest(where, "!=", v) == Obj(map[where := Obj(map["$ne" := v])])
    ensures CompareRequest(where, ">", v) == Obj(map[where := Obj(map["$gt" := v])])
    ensures CompareRequest(where, "<", v) == Obj(map[where := Obj(map["$lt" := v])])
  {
  }

  /** The list the negated `include` pushes: one `{$ne: x}` per candidate, in order. */
  function NotEqualEach(includeArr: seq<Value>): (stmt: seq<Value>)
    ensures |stmt| == |includeArr|
    ensures forall i :: 0 <= i < |includeArr| ==> stmt[i] == Obj(map["$ne" := includeArr[i]])
  {
    if includeArr == [] then []
    else NotEqualEach(includeArr[..|includeArr| - 1]) + [Obj(map["$ne" := includeArr[|includeArr| - 1]])]
  }

  /** The list the positive `include` pushes: one `{[where]: x}` per candidate, in order. */
  function EqualEach(where: string, includeArr: seq<Value>): (stmt: seq<Value>)
    ensures |stmt| == |includeArr|
    ensures forall i :: 0 <= i < |includeArr| ==> stmt[i] == Obj(map[where := includeArr[i]])
  {
    if includeArr == [] then []
    else EqualEach(where, includeArr[..|includeArr| - 1]) + [Obj(map[where := includeArr[|includeArr| - 1]])]
  }

  /** The membership filter `include` stores: `{[where]: [...$ne]}` when negated, `{$or: [...]}` otherwise. */
  function IncludeRequest(where: string, isNot: bool, includeArr: seq<Value>): Value {
    if isNot then Obj(map[where := Arr(NotEqualEach(includeArr))])
    else Obj(map["$or" := Arr(EqualEach(where, includeArr))])
  }

  /** Negated membership: the target field alone, mapped to exactly one `{$ne: x}` per candidate, in input order. */
  lemma NegatedIncludeShape(where: string, includeArr: seq<Value>)
    ensures var r := IncludeRequest(where, true, includeArr);
      && r.Obj? && r.fields.Keys == {where} && r.fields[where].Arr?
      && |r.fields[where].items| == |includeArr|
      && forall i :: 0 <= i < |includeArr| ==> r.fields[where].items[i] == Obj(map["$ne" := includeArr[i]])
  {
  }

  /** Positive membership: `$or` alone, mapped to exactly one `{[where]: x}` per candidate, in input order. */
  lemma PositiveIncludeShape(where: string, includeArr: seq<Value>)
    ensures var r := IncludeRequest(where, false, includeArr);
      && r.Obj? && r.fields.Keys == {"$or"} && r.fields["$or"].Arr?
      && |r.fields["$or"].items| == |includeArr|
      && forall i :: 0 <= i < |includeArr| ==> r.fields["$or"].items[i] == Obj(map[where := includeArr[i]])
  {
  }

  /** No candidates: an empty list under the field when negated, an empty `$or` otherwise. */
  lemma EmptyInclude(where: string)
    ensures IncludeRequest(where, true, []) == Obj(map[where := Arr([])])
    ensures IncludeRequest(where, false, []) == Obj(map["$or" := Arr([])])
  {
  }

  /** The loops of the `include` step, pushing one fragment per index of `includeArr`. */
  method BuildInclude(where: string, isNot: bool, includeArr: seq<Value>) returns (findArgs: Value)
    ensures findArgs == IncludeRequest(where, isNot, includeArr)
  {
    var stmt: seq<Value> := [];
    if isNot {
      var idx := 0;
      while idx < |includeArr|
        invariant 0 <= idx <= |includeArr|
        invariant stmt == NotEqualEach(includeArr[..idx])
      {
        assert includeArr[..idx + 1][..idx] == includeArr[..idx];
        stmt := stmt + [Obj(map["$ne" := includeArr[idx]])];
        idx := idx + 1;
      }
      assert includeArr[..|includeArr|] == includeArr;
      return Obj(map[where := Arr(stmt)]);
    }
    var idx := 0;
    while idx < |includeArr|
      invariant 0 <= idx <= |includeArr|
      invariant stmt == EqualEach(where, includeArr[..idx])
    {
      assert includeArr[..idx + 1][..idx] == includeArr[..idx];
      stmt := stmt + [Obj(map[where := includeArr[idx]])];
      idx := idx + 1;
    }
    assert includeArr[..|includeArr|] == includeArr;
    findArgs := Obj(map["$or" := Arr(stmt)]);
  }
}
