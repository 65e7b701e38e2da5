/** The flat store seen through structured keys. Every operation runs on the flat
    string map; view is the same map indexed by Key, and Valid keeps them equal. */
module Keyed {
  import opened Text
  import opened Keys
  import opened Memory

  ghost predicate Represents<V>(view: map<Key, V>, data: map<string, V>) {
    && (forall k :: k in view ==> Clean(k) && Flat(k) in data && data[Flat(k)] == view[k])
    && (forall s :: s in data ==> exists k :: k in view && Flat(k) == s)
  }

  // The same, with colons in any names: what later requests then read is open.
  ghost predicate Mirrors<V>(view: map<Key, V>, data: map<string, V>) {
    && (forall k :: k in view ==> Flat(k) in data && data[Flat(k)] == view[k])
    && (forall s :: s in data ==> exists k :: k in view && Flat(k) == s)
  }

  // k is no other entry's string.
  ghost predicate Unshared<V>(view: map<Key, V>, k: Key) {
    forall x :: x in view && Flat(x) == Flat(k) ==> x == k
  }

  lemma MirrorsPut<V>(view: map<Key, V>, data: map<string, V>, k: Key, v: V)
    requires Mirrors(view, data) && Unshared(view, k)
    ensures Mirrors(view[k := v], data[Flat(k) := v])
  {
    var view', data' := view[k := v], data[Flat(k) := v];
    forall s | s in data' ensures exists x :: x in view' && Flat(x) == s {
      if s == Flat(k) { assert k in view'; } else { var x := KeyOf(view, s); assert x in view'; }
    }
    hide Flat;
  }

  lemma CleanIsUnshared<V>(view: map<Key, V>, k: Key)
    requires Clean(k) && forall x :: x in view && x.Other? ==> Clean(x)
    ensures Unshared(view, k)
  {
    forall x | x in view && Flat(x) == Flat(k) ensures x == k { FlatInjective(x, k); }
    hide Flat, Clean;
  }

  // Among colon-free keys a typed key shares its string with no other, colons or not.
  lemma TypedIsUnshared<V>(view: map<Key, V>, data: map<string, V>, k: Key)
    requires Represents(view, data) && !k.Other?
    ensures Mirrors(view, data) && Unshared(view, k)
  {
    forall x | x in view && Flat(x) == Flat(k) ensures x == k { FlatInjective(k, x); }
    hide Flat, Clean;
  }

  /** Storing under any typed key keeps the two readings equal, and all keys colon-free if
      and only if this one is. */
  lemma PutRepresents<V>(view: map<Key, V>, data: map<string, V>, k: Key, v: V)
    requires Represents(view, data) && !k.Other?
    ensures Mirrors(view[k := v], data[Flat(k) := v])
    ensures Represents(view[k := v], data[Flat(k) := v]) <==> Clean(k)
  {
    TypedIsUnshared(view, data, k);
    MirrorsPut(view, data, k, v);
    assert k in view[k := v];
    hide Flat, Clean, Unshared;
  }

  ghost function Under<V>(view: map<Key, V>, p: seq<string>): set<Key> {
    set k | k in view && ProperPrefix(p, Segs(k))
  }

  ghost function KeyOf<V>(view: map<Key, V>, s: string): Key
    requires exists k :: k in view && Flat(k) == s
  {
    var k :| k in view && Flat(k) == s; k
  }

  lemma SetRepresents<V>(view: map<Key, V>, data: map<string, V>, k: Key, v: V)
    requires Represents(view, data) && Clean(k)
    ensures Represents(view[k := v], data[Flat(k) := v])
  {
    CleanIsUnshared(view, k);
    MirrorsPut(view, data, k, v);
    hide Flat, Clean, Unshared;
  }

  /** Removing any set of structured keys is removing their flat strings. */
  lemma RemoveRepresents<V>(view: map<Key, V>, data: map<string, V>, ks: set<Key>, ss: set<string>)
    requires Represents(view, data)
    requires forall k :: k in view ==> (k in ks <==> Flat(k) in ss)
    ensures Represents(view - ks, data - ss)
  {
    var view', data' := view - ks, data - ss;
    forall s | s in data' ensures exists x :: x in view' && Flat(x) == s {
      var x := KeyOf(view, s);
      assert x in view';
    }
  }

  lemma LookupAgrees<V>(view: map<Key, V>, data: map<string, V>, k: Key)
    requires Represents(view, data) && (k.Other? ==> Clean(k))
    ensures k in view <==> Flat(k) in data
    ensures k in view ==> view[k] == data[Flat(k)]
  {
    if Flat(k) in data {
      FlatInjective(k, KeyOf(view, Flat(k)));
    }
  }

  // Removing a flat prefix removes the keys under its words.
  lemma PrefixRemoved<V>(view: map<Key, V>, data: map<string, V>, p: seq<string>)
    requires Represents(view, data) && |p| > 0 && ColonFree(p)
    ensures Represents(view - Under(view, p), Unselected(data, Join(p, ":") + ":"))
  {
    var prefix := Join(p, ":") + ":";
    forall k | k in view ensures k in Under(view, p) <==> Flat(k) in Selected(data, prefix).Keys {
      FlatPrefixScan(k, p);
      assert Flat(k) in data;
    }
    WhatIsLeft(data, prefix);
    hide *;
    RemoveRepresents(view, data, Under(view, p), Selected(data, prefix).Keys);
  }

  lemma WhatIsLeft<V>(data: map<string, V>, prefix: string)
    ensures Unselected(data, prefix) == data - Selected(data, prefix).Keys
  {
    hide HasPrefix;
  }

  lemma ValuesOf<V>(view: map<Key, V>, p: seq<string>, keys: seq<Key>, values: seq<V>)
    requires |keys| == |values| && (set k | k in keys) == Under(view, p)
    requires forall i :: 0 <= i < |keys| ==> keys[i] in view && values[i] == view[keys[i]]
    ensures forall v :: v in values <==> exists k :: k in Under(view, p) && view[k] == v
  {
    hide Under;
    forall k | k in Under(view, p) ensures k in view && view[k] in values {
      assert k in (set x | x in keys);
      var i :| 0 <= i < |keys| && keys[i] == k;
      assert values[i] == view[k];
    }
    forall i | 0 <= i < |values| ensures keys[i] in Under(view, p) {
      assert keys[i] in (set x | x in keys);
    }
  }

  class KeyedStore<V(==)> {
    const flat: MemoryBackend<V>
    ghost var view: map<Key, V>

    ghost predicate Valid()
      reads this, flat
    {
      Represents(view, flat.data)
    }

    // What is left of it when a stored name holds a colon.
    ghost predicate InStep()
      reads this, flat
    {
      Mirrors(view, flat.data)
    }

    constructor (flat: MemoryBackend<V>)
      requires flat.data == map[]
      ensures Valid() && this.flat == flat && view == map[]
    {
      this.flat := flat;
      view := map[];
    }

    method Set(k: Key, v: V)
      requires Valid() && Clean(k)
      modifies this, flat
      ensures Valid() && view == old(view)[k := v]
    {
      SetRepresents(view, flat.data, k, v);
      flat.Set(Flat(k), v);
      view := view[k := v];
    }

    // Set, whatever names the key holds.
    method Put(k: Key, v: V)
      requires InStep() && Unshared(view, k)
      modifies this, flat
      ensures InStep() && view == old(view)[k := v] && flat.data == old(flat.data)[Flat(k) := v]
    {
      MirrorsPut(view, flat.data, k, v);
      hide Flat, Mirrors, Unshared;
      flat.Set(Flat(k), v);
      view := view[k := v];
    }

    method Get(k: Key) returns (r: Lookup<V>)
      requires Valid() && !k.Other?
      ensures r == if k in view then Found(view[k]) else Missing
    {
      LookupAgrees(view, flat.data, k);
      r := flat.Get(Flat(k));
    }

    method Exists(k: Key) returns (b: bool)
      requires Valid() && !k.Other?
      ensures b == (k in view)
    {
      LookupAgrees(view, flat.data, k);
      b := flat.Exists(Flat(k));
    }

    method Delete(k: Key) returns (removed: bool)
      requires Valid() && !k.Other?
      modifies this, flat
      ensures Valid() && removed == (k in old(view)) && view == old(view) - {k}
    {
      LookupAgrees(view, flat.data, k);
      forall x | x in view ensures x in {k} <==> Flat(x) in {Flat(k)} {
        if Flat(x) == Flat(k) { FlatInjective(k, x); }
      }
      RemoveRepresents(view, flat.data, {k}, {Flat(k)});
      removed := flat.Delete(Flat(k));
      view := view - {k};
    }

    // p lists the words of the prefix: ["vm", sub, rg] stands for "vm:sub:rg:".
    method ListByPrefix(p: seq<string>) returns (values: seq<V>, ghost keys: seq<Key>)
      requires Valid() && |p| > 0 && ColonFree(p)
      ensures |keys| == |values| && (set k | k in keys) == Under(view, p)
      ensures forall i, j :: 0 <= i < j < |keys| ==> keys[i] != keys[j]
      ensures forall i :: 0 <= i < |keys| ==> keys[i] in view && values[i] == view[keys[i]]
      ensures forall v :: v in values <==> exists k :: k in Under(view, p) && view[k] == v
    {
      ghost var strings: seq<string>;
      values, strings := flat.ListByPrefix(Join(p, ":") + ":");
      ghost var data, view := flat.data, view;
      keys := seq(|strings|, i requires 0 <= i < |strings| && strings[i] in data => KeyOf(view, strings[i]));
      forall k | k in view ensures ProperPrefix(p, Segs(k)) <==> HasPrefix(Flat(k), Join(p, ":") + ":") {
        FlatPrefixScan(k, p);
      }
      forall k | k in Under(view, p) ensures k in keys {
        assert Flat(k) in Selected(flat.data, Join(p, ":") + ":");
        var i :| 0 <= i < |strings| && strings[i] == Flat(k);
        FlatInjective(keys[i], k);
      }
      forall i | 0 <= i < |keys| ensures keys[i] in Under(view, p) {
        assert strings[i] in strings;
      }
      hide Represents, Selected, ProperPrefix, HasPrefix;
      ValuesOf(view, p, keys, values);
    }

    method DeleteByPrefix(p: seq<string>)
      requires Valid() && |p| > 0 && ColonFree(p)
      modifies this, flat
      ensures Valid() && view == old(view) - Under(old(view), p)
    {
      var prefix := Join(p, ":") + ":";
      PrefixRemoved(view, flat.data, p);
      hide Represents, Selected, Unselected, Under;
      var _ := flat.DeleteByPrefix(prefix);
      view := view - Under(view, p);
    }
  }
}
