/** The reflective property helpers of uiutils.ts: write a property by name,
    read it back, and the array-aware equality that toggle effects use. */
module UiUtils {

  /** A JavaScript value as these helpers see it. A plain (non-array) object
      is represented by its `JSON.stringify` text; a function by a name. */
  datatype Value =
    | Undefined
    | Null
    | Bool(b: bool)
    | Num(n: real)
    | Str(s: string)
    | Arr(items: seq<Value>)
    | Obj(json: string)
    | Func(name: string)

  /** A function value stored in a callback slot, such as `onComplete`. */
  datatype Callback = Callback(name: string)

  /** A numeric array, such as a colour, as a `Value`. */
  function NumArray(c: seq<real>): (v: Value)
    ensures v.Arr? && |v.items| == |c|
    ensures forall i :: 0 <= i < |c| ==> v.items[i] == Num(c[i])
  {
    Arr(seq(|c|, i requires 0 <= i < |c| => Num(c[i])))
  }

  /** `isEqual`: two arrays are equal when their lengths agree and their
      elements are pairwise equal; two other objects when their JSON texts
      agree (an array's text starts with '[' and a plain object's with '{',
      so an array never equals a plain object); anything else by `===`. */
  function IsEqual(v1: Value, v2: Value): bool
  {
    if v1.Arr? && v2.Arr? then
      |v1.items| == |v2.items| &&
      forall i :: 0 <= i < |v1.items| ==> IsEqual(v1.items[i], v2.items[i])
    else if (v1.Arr? || v1.Obj?) && (v2.Arr? || v2.Obj?) then
      v1.Obj? && v2.Obj? && v1.json == v2.json
    else
      v1 == v2
  }

  lemma {:induction false} IsEqualReflexive(v: Value)
    ensures IsEqual(v, v)
  {
    if v.Arr? {
      forall i | 0 <= i < |v.items| ensures IsEqual(v.items[i], v.items[i]) {
        IsEqualReflexive(v.items[i]);
      }
    }
  }

  lemma {:induction false} IsEqualSymmetric(v1: Value, v2: Value)
    ensures IsEqual(v1, v2) == IsEqual(v2, v1)
  {
    if v1.Arr? && v2.Arr? && |v1.items| == |v2.items| {
      forall i | 0 <= i < |v1.items|
        ensures IsEqual(v1.items[i], v2.items[i]) == IsEqual(v2.items[i], v1.items[i])
      {
        IsEqualSymmetric(v1.items[i], v2.items[i]);
      }
    }
  }

  /** On this value model `isEqual` is exactly structural equality: a plain
      object is its JSON text, so two of them agree exactly when their texts do. */
  lemma {:induction false} IsEqualExact(v1: Value, v2: Value)
    ensures IsEqual(v1, v2) <==> v1 == v2
  {
    if v1 == v2 {
      IsEqualReflexive(v1);
    } else if v1.Arr? && v2.Arr? && IsEqual(v1, v2) {
      forall i | 0 <= i < |v1.items| ensures v1.items[i] == v2.items[i] {
        IsEqualExact(v1.items[i], v2.items[i]);
      }
    }
  }

  /** Arrays of different lengths are never equal; arrays of equal length
      are equal exactly when every pair of elements is. */
  lemma IsEqualArrays(a: seq<Value>, b: seq<Value>)
    ensures |a| != |b| ==> !IsEqual(Arr(a), Arr(b))
    ensures |a| == |b| ==>
      (IsEqual(Arr(a), Arr(b)) <==> forall i :: 0 <= i < |a| ==> IsEqual(a[i], b[i]))
  {
  }

  /** What a prototype method does when it is called through a `set…`/`get…`
      name: an accessor stores into, or reads, one backing data field; any
      other method does something outside this model. */
  datatype Member = Accessor(field: string) | Procedure

  /** An object: its data properties (own fields) and the methods it inherits
      from its class chain. An own data property shadows a method of the
      same name. */
  datatype ObjState = ObjState(fields: map<string, Value>, methods: map<string, Member>)

  /** The `in` operator: own or inherited. */
  predicate Has(o: ObjState, name: string)
  {
    name in o.fields || name in o.methods
  }

  /** `obj[name]`. */
  function Lookup(o: ObjState, name: string): Value
  {
    if name in o.fields then o.fields[name]
    else if name in o.methods then Func(name)
    else Undefined
  }

  function UpperChar(c: char): char
  {
    if 'a' <= c <= 'z' then (c as int - 32) as char else c
  }

  /** `name.charAt(0).toUpperCase() + name.slice(1)` (ASCII letters only). */
  function Capitalised(name: string): (r: string)
    ensures |r| == |name|
    ensures 0 < |name| ==> r[0] == UpperChar(name[0]) && !('a' <= r[0] <= 'z')
    ensures 0 < |name| ==> r[1..] == name[1..]
  {
    if name == [] then [] else [UpperChar(name[0])] + name[1..]
  }

  /** Capitalising twice is capitalising once. */
  lemma CapitalisedIdempotent(name: string)
    ensures Capitalised(Capitalised(name)) == Capitalised(name)
  {
    if name != [] {
      assert Capitalised(name)[1..] == name[1..];
    }
  }

  function SetterName(name: string): string { "set" + Capitalised(name) }

  function GetterName(name: string): string { "get" + Capitalised(name) }

  /** `obj[setterName](value)`, for a member that `typeof` reports as a function. */
  function CallSetter(o: ObjState, setter: string, v: Value): ObjState
  {
    if setter !in o.fields && setter in o.methods && o.methods[setter].Accessor?
    then o.(fields := o.fields[o.methods[setter].field := v])
    else o
  }

  /** `obj[getterName]()`. */
  function CallGetter(o: ObjState, getter: string): Value
  {
    if getter !in o.fields && getter in o.methods && o.methods[getter].Accessor?
    then Lookup(o, o.methods[getter].field)
    else Undefined
  }

  /** The object after `setObjectProperty(obj, name, v)`: the property itself
      when `name in obj`, else the `set<Name>` method when there is one, else
      nothing changes. */
  function Written(o: ObjState, name: string, v: Value): ObjState
  {
    if Has(o, name) then o.(fields := o.fields[name := v])
    else if Lookup(o, SetterName(name)).Func? then CallSetter(o, SetterName(name), v)
    else o
  }

  /** `getObjectProperty(obj, name)`: the property when `name in obj`, else
      the result of `get<Name>()` when that is a function, else `null`. */
  function GetObjectProperty(o: ObjState, name: string): Value
  {
    if Has(o, name) then Lookup(o, name)
    else if Lookup(o, GetterName(name)).Func? then CallGetter(o, GetterName(name))
    else Null
  }

  /** A present property is written in place and nothing else changes. */
  lemma WrittenPresent(o: ObjState, name: string, v: Value)
    requires Has(o, name)
    ensures Written(o, name, v).fields == o.fields[name := v]
    ensures Written(o, name, v).methods == o.methods
    ensures forall q :: q != name ==> Lookup(Written(o, name, v), q) == Lookup(o, q)
  {
  }

  /** Round trip: after writing a present property, reading it gives the value. */
  lemma WriteThenRead(o: ObjState, name: string, v: Value)
    requires Has(o, name)
    ensures GetObjectProperty(Written(o, name, v), name) == v
  {
  }

  /** An absent property goes through the `set<Name>` accessor: its backing
      field holds the value afterwards. */
  lemma WrittenThroughSetter(o: ObjState, name: string, v: Value)
    requires !Has(o, name)
    requires SetterName(name) !in o.fields && SetterName(name) in o.methods
    requires o.methods[SetterName(name)].Accessor?
    ensures Lookup(Written(o, name, v), o.methods[SetterName(name)].field) == v
    ensures Written(o, name, v).fields == o.fields[o.methods[SetterName(name)].field := v]
    ensures Written(o, name, v).methods == o.methods
  {
  }

  /** With neither the property nor a `set<Name>` function, the object is unchanged. */
  lemma WrittenNowhere(o: ObjState, name: string, v: Value)
    requires !Has(o, name) && !Has(o, SetterName(name))
    ensures Written(o, name, v) == o
  {
  }

  /** A missing property with no `get<Name>` function reads as `null`. */
  lemma ReadNowhere(o: ObjState, name: string)
    requires !Has(o, name) && !Has(o, GetterName(name))
    ensures GetObjectProperty(o, name) == Null
  {
  }

  /** An absent property is read through the `get<Name>` accessor: the
      value of its backing field. */
  lemma ReadThroughGetter(o: ObjState, name: string)
    requires !Has(o, name)
    requires GetterName(name) !in o.fields && GetterName(name) in o.methods
    requires o.methods[GetterName(name)].Accessor?
    ensures GetObjectProperty(o, name) == Lookup(o, o.methods[GetterName(name)].field)
  {
  }

  /** An object whose properties the effects write by name. */
  class JsObject {
    var state: ObjState

    constructor (s: ObjState)
      ensures state == s
    {
      state := s;
    }
  }

  /** `setObjectProperty`: updates `obj` in place. */
  method SetObjectProperty(obj: JsObject, name: string, v: Value)
    modifies obj
    ensures obj.state == Written(old(obj.state), name, v)
  {
    if Has(obj.state, name) {
      obj.state := obj.state.(fields := obj.state.fields[name := v]);
    } else if Lookup(obj.state, SetterName(name)).Func? {
      obj.state := CallSetter(obj.state, SetterName(name), v);
    }
  }
}
