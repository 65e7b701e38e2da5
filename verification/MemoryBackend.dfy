/** The in-memory backend: one mutable flat map from strings to values. */
module Memory {
  import opened Text

  // The entries a prefix scan would select, and what is left without them.
  ghost function Selected<V>(m: map<string, V>, prefix: string): map<string, V> {
    map k | k in m && HasPrefix(k, prefix) :: m[k]
  }

  ghost function Unselected<V>(m: map<string, V>, prefix: string): map<string, V> {
    map k | k in m && !HasPrefix(k, prefix) :: m[k]
  }

  datatype Lookup<V> = Missing | Found(value: V)

  class MemoryBackend<V(==)> {
    var data: map<string, V>

    constructor ()
      ensures data == map[]
    {
      data := map[];
    }

    method Set(key: string, value: V)
      modifies this
      ensures data == old(data)[key := value]
    {
      data := data[key := value];
    }

    method Get(key: string) returns (r: Lookup<V>)
      ensures r == if key in data then Found(data[key]) else Missing
    {
      if key in data { r := Found(data[key]); } else { r := Missing; }
    }

    method Exists(key: string) returns (b: bool)
      ensures b == (key in data)
    {
      b := key in data;
    }

    method Delete(key: string) returns (removed: bool)
      modifies this
      ensures removed == (key in old(data))
      ensures data == old(data) - {key}
    {
      if key !in data { return false; }
      data := data - {key};
      removed := true;
    }

    // Go visits a map in an unspecified order; each loop below picks any key it
    // has not visited yet.
    method ListKeysByPrefix(prefix: string) returns (keys: seq<string>)
      ensures forall k :: k in keys <==> k in Selected(data, prefix)
      ensures forall i, j :: 0 <= i < j < |keys| ==> keys[i] != keys[j]
    {
      keys := [];
      var todo := data.Keys;
      while todo != {}
        invariant todo <= data.Keys
        invariant forall k :: k in keys <==> k in data.Keys - todo && HasPrefix(k, prefix)
        invariant forall i, j :: 0 <= i < j < |keys| ==> keys[i] != keys[j]
      {
        var k :| k in todo;
        todo := todo - {k};
        if HasPrefix(k, prefix) { keys := keys + [k]; }
      }
    }

    // The source returns the values only; keys is the order the map was visited in.
    method ListByPrefix(prefix: string) returns (values: seq<V>, ghost keys: seq<string>)
      ensures forall k :: k in keys <==> k in Selected(data, prefix)
      ensures forall i, j :: 0 <= i < j < |keys| ==> keys[i] != keys[j]
      ensures |keys| == |values|
      ensures forall i :: 0 <= i < |keys| ==> keys[i] in data && values[i] == data[keys[i]]
      ensures forall v :: v in values <==> exists k :: k in Selected(data, prefix) && data[k] == v
    {
      values, keys := [], [];
      var todo := data.Keys;
      while todo != {}
        invariant todo <= data.Keys
        invariant forall k :: k in keys <==> k in data.Keys - todo && HasPrefix(k, prefix)
        invariant forall i, j :: 0 <= i < j < |keys| ==> keys[i] != keys[j]
        invariant |keys| == |values|
        invariant forall i :: 0 <= i < |keys| ==> keys[i] in data && values[i] == data[keys[i]]
      {
        var k :| k in todo;
        todo := todo - {k};
        if HasPrefix(k, prefix) {
          keys := keys + [k];
          values := values + [data[k]];
        }
      }
      forall k | k in Selected(data, prefix) ensures data[k] in values {
        var i :| 0 <= i < |keys| && keys[i] == k;
        assert values[i] == data[k];
      }
    }

    method CountByPrefix(prefix: string) returns (count: nat)
      ensures count == |Selected(data, prefix)|
    {
      count := 0;
      var todo := data.Keys;
      ghost var seen: set<string> := {};
      while todo != {}
        invariant todo <= data.Keys
        invariant seen == set k | k in data.Keys - todo && HasPrefix(k, prefix)
        invariant count == |seen|
      {
        var k :| k in todo;
        todo := todo - {k};
        if HasPrefix(k, prefix) {
          count := count + 1;
          seen := seen + {k};
        }
      }
      assert Selected(data, prefix).Keys == seen;
    }

    // Deletes from the map it is iterating over, as the source does.
    method DeleteByPrefix(prefix: string) returns (count: nat)
      modifies this
      ensures data == Unselected(old(data), prefix)
      ensures count == |Selected(old(data), prefix)|
    {
      count := 0;
      var todo := data.Keys;
      ghost var gone: set<string> := {};
      while todo != {}
        invariant todo <= old(data).Keys
        invariant gone == set k | k in old(data).Keys - todo && HasPrefix(k, prefix)
        invariant count == |gone|
        invariant data == map k | k in old(data) && k !in gone :: old(data)[k]
      {
        var k :| k in todo;
        todo := todo - {k};
        if HasPrefix(k, prefix) {
          data := data - {k};
          gone := gone + {k};
          count := count + 1;
        }
      }
      assert Selected(old(data), prefix).Keys == gone;
    }

    method Snapshot() returns (copy: map<string, V>)
      ensures copy == data
    {
      copy := map[];
      var todo := data.Keys;
      while todo != {}
        invariant todo <= data.Keys
        invariant copy == map k | k in data && k !in todo :: data[k]
      {
        var k :| k in todo;
        todo := todo - {k};
        copy := copy[k := data[k]];
      }
    }
  }
}
