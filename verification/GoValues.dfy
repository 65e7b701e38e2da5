/** The values the store holds and what encoding/json makes of them. Encoding forgets Go
    types and hidden fields; decoding into an interface value knows only the JSON shapes. */
module GoValues {
  import opened JsonTrees

  // The element type of []interface{} and of map[string]interface{}.
  const ANY := "interface {}"

  /** Number stands for every numeric type but float64, NamedText for string types with a
      name, TypedNil for nil slices, maps and pointers. A struct's shown fields are the ones
      its tags let through, under their JSON names; hidden ones are tagged "-" or omitted. */
  datatype GoValue =
    | Nil
    | Bool(b: bool)
    | Float64(x: real)
    | Text(s: string)
    | Number(goType: string, x: real)
    | NamedText(goType: string, s: string)
    | TypedNil(goType: string)
    | Slice(elem: string, items: seq<GoValue>)
    | Dict(elem: string, entries: map<string, GoValue>)
    | Struct(goType: string, shown: map<string, GoValue>, hidden: map<string, GoValue>)

  // json.Marshal
  function Encode(v: GoValue): Json {
    match v
    case Nil => Null
    case Bool(b) => Boolean(b)
    case Float64(x) => Numeral(x)
    case Text(s) => Str(s)
    case Number(_, x) => Numeral(x)
    case NamedText(_, s) => Str(s)
    case TypedNil(_) => Null
    case Slice(_, items) => Arr(seq(|items|, i requires 0 <= i < |items| => Encode(items[i])))
    case Dict(_, entries) => Obj(map k | k in entries :: Encode(entries[k]))
    case Struct(_, shown, _) => Obj(map k | k in shown :: Encode(shown[k]))
  }

  // json.Unmarshal into an interface{}
  function Decode(j: Json): GoValue {
    match j
    case Null => Nil
    case Boolean(b) => Bool(b)
    case Numeral(x) => Float64(x)
    case Str(s) => Text(s)
    case Arr(items) => Slice(ANY, seq(|items|, i requires 0 <= i < |items| => Decode(items[i])))
    case Obj(fields) => Dict(ANY, map k | k in fields :: Decode(fields[k]))
  }

  // Nothing but nil, bools, float64s, plain strings, and generic slices and maps, all the way down.
  predicate Shaped(v: GoValue) {
    match v
    case Nil => true
    case Bool(_) => true
    case Float64(_) => true
    case Text(_) => true
    case Slice(elem, items) => elem == ANY && forall i :: 0 <= i < |items| ==> Shaped(items[i])
    case Dict(elem, entries) => elem == ANY && forall k :: k in entries ==> Shaped(entries[k])
    case _ => false
  }

  /** A JSON text survives being decoded and encoded again. */
  lemma {:induction false} EncodeDecode(j: Json)
    ensures Encode(Decode(j)) == j
  {
    match j
    case Arr(items) =>
      forall i | 0 <= i < |items| { EncodeDecode(items[i]); }
      assert Encode(Decode(j)).items == items;
    case Obj(fields) =>
      forall k | k in fields { EncodeDecode(fields[k]); }
      assert Encode(Decode(j)).fields == fields;
    case _ =>
  }

  lemma SliceRound(items: seq<GoValue>, elem: string)
    requires forall i :: 0 <= i < |items| ==> (Decode(Encode(items[i])) == items[i] <==> Shaped(items[i]))
    ensures Decode(Encode(Slice(elem, items))) == Slice(elem, items) <==> Shaped(Slice(elem, items))
  {
    var r := Decode(Encode(Slice(elem, items)));
    assert |r.items| == |items| && forall i :: 0 <= i < |items| ==> r.items[i] == Decode(Encode(items[i]));
    assert r.items == items <==> forall i :: 0 <= i < |items| ==> r.items[i] == items[i];
  }

  lemma DictRound(entries: map<string, GoValue>, elem: string)
    requires forall k :: k in entries ==> (Decode(Encode(entries[k])) == entries[k] <==> Shaped(entries[k]))
    ensures Decode(Encode(Dict(elem, entries))) == Dict(elem, entries) <==> Shaped(Dict(elem, entries))
  {
    var r := Decode(Encode(Dict(elem, entries)));
    assert r.entries.Keys == entries.Keys && forall k :: k in entries ==> r.entries[k] == Decode(Encode(entries[k]));
    assert r.entries == entries <==> forall k :: k in entries ==> r.entries[k] == entries[k];
  }

  /** A value comes back from JSON as it was if and only if it is JSON-shaped. */
  lemma {:induction false} RoundTripIff(v: GoValue)
    ensures Decode(Encode(v)) == v <==> Shaped(v)
  {
    match v
    case Slice(elem, items) =>
      forall i | 0 <= i < |items| { RoundTripIff(items[i]); }
      hide Encode, Decode, Shaped;
      SliceRound(items, elem);
    case Dict(elem, entries) =>
      forall k | k in entries { RoundTripIff(entries[k]); }
      hide Encode, Decode, Shaped;
      DictRound(entries, elem);
    case _ =>
  }

  /** What saving and loading makes of a value that is not JSON-shaped: a number of any type
      is the same number as a float64, a named string a plain one, a typed nil nil; slices and
      maps become generic; a struct becomes the map of the fields its tags show. */
  lemma Reloaded(v: GoValue)
    ensures var r := Decode(Encode(v));
      && (v.Number? ==> r == Float64(v.x))
      && (v.NamedText? ==> r == Text(v.s))
      && (v.TypedNil? ==> r == Nil)
      && (v.Slice? ==>
            && r.Slice? && r.elem == ANY && |r.items| == |v.items|
            && forall i :: 0 <= i < |v.items| ==> r.items[i] == Decode(Encode(v.items[i])))
      && (v.Dict? ==>
            && r.Dict? && r.elem == ANY && r.entries.Keys == v.entries.Keys
            && forall k :: k in v.entries ==> r.entries[k] == Decode(Encode(v.entries[k])))
      && (v.Struct? ==>
            && r.Dict? && r.elem == ANY && r.entries.Keys == v.shown.Keys
            && forall k :: k in v.shown ==> r.entries[k] == Decode(Encode(v.shown[k])))
  {
  }
}
