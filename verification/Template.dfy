/** ARM template evaluation: parameter defaults, and the substitution of whole-string
    parameter and variable references in a JSON tree. */
module Template {
  import opened Options
  import opened Text
  import opened JsonTrees

  type Env = map<string, Json>

  // ---- Parameter values ----

  function Field(v: Json, name: string): Option<Json> {
    if v.Obj? && name in v.fields then Some(v.fields[name]) else None
  }

  function Fields(m: Env, name: string): Env {
    map k | k in m && Field(m[k], name).Some? :: Field(m[k], name).value
  }

  // The loop both functions share: collect one field of every object entry.
  method CollectField(m: Env, name: string) returns (out: Env)
    ensures out == Fields(m, name)
  {
    out := map[];
    var todo := m.Keys;
    while todo != {}
      invariant todo <= m.Keys
      invariant out == map k | k in m && k !in todo && Field(m[k], name).Some? :: Field(m[k], name).value
    {
      var k :| k in todo;
      todo := todo - {k};
      var entry := m[k];
      if entry.Obj? && name in entry.fields { out := out[k := entry.fields[name]]; }
    }
  }

  function Flattened(raw: Json): Env {
    if raw.Obj? then Fields(raw.fields, "value") else map[]
  }

  // flattenParameters
  method FlattenParameters(raw: Json) returns (out: Env)
    ensures out == Flattened(raw)
  {
    if raw.Obj? { out := CollectField(raw.fields, "value"); } else { out := map[]; }
  }

  function Defaults(declared: Env): Env {
    Fields(declared, "defaultValue")
  }

  /** mergeParameterDefaults: an explicit value wins, a default fills in, nothing else appears. */
  method MergeParameterDefaults(declared: Env, supplied: Env) returns (out: Env)
    ensures out == Defaults(declared) + supplied
    ensures forall k :: k in supplied ==> k in out && out[k] == supplied[k]
    ensures forall k :: k in out && k !in supplied ==>
      k in declared && Field(declared[k], "defaultValue") == Some(out[k])
  {
    out := CollectField(declared, "defaultValue");
    var todo := supplied.Keys;
    while todo != {}
      invariant todo <= supplied.Keys
      invariant out == Defaults(declared) + map k | k in supplied && k !in todo :: supplied[k]
    {
      var k :| k in todo;
      todo := todo - {k};
      out := out[k := supplied[k]];
    }
    assert (map k | k in supplied && k !in todo :: supplied[k]) == supplied;
  }

  // ---- References ----

  datatype Reference = Parameter(name: string) | Variable(name: string) | NoReference

  // What stands between two ends of a string, if it is a non-empty name without quotes.
  function Quoted(s: string, head: string): Option<string> {
    if |s| > |head| + 3 && HasPrefix(s, head) && s[|s| - 3..] == "')]" && '\'' !in s[|head|..|s| - 3]
    then Some(s[|head|..|s| - 3])
    else None
  }

  // The two whole-string patterns of the evaluator.
  function ReferenceOf(s: string): Reference {
    if Quoted(s, "[parameters('").Some? then Parameter(Quoted(s, "[parameters('").value)
    else if Quoted(s, "[variables('").Some? then Variable(Quoted(s, "[variables('").value)
    else NoReference
  }

  function Meaning(s: string, params: Env, vars: Env): Option<Json> {
    match ReferenceOf(s)
    case Parameter(n) => if n in params then Some(params[n]) else None
    case Variable(n) => if n in vars then Some(vars[n]) else None
    case NoReference => None
  }

  // resolveString
  function ResolveString(s: string, params: Env, vars: Env): Json {
    match Meaning(s, params, vars)
    case Some(v) => v
    case None => Str(s)
  }

  // resolveExpressions
  function Resolve(v: Json, params: Env, vars: Env): Json {
    match v
    case Str(s) => ResolveString(s, params, vars)
    case Arr(items) => Arr(seq(|items|, i requires 0 <= i < |items| => Resolve(items[i], params, vars)))
    case Obj(fields) => Obj(map k | k in fields :: Resolve(fields[k], params, vars))
    case _ => v
  }

  function ParameterText(name: string): string {
    "[parameters('" + name + "')]"
  }

  function VariableText(name: string): string {
    "[variables('" + name + "')]"
  }

  // The names a reference can hold: the pattern takes one or more characters but no quote.
  predicate Referable(name: string) {
    name != "" && '\'' !in name
  }

  lemma ParameterTextRefers(name: string)
    requires Referable(name)
    ensures ReferenceOf(ParameterText(name)) == Parameter(name)
  {
    var s := ParameterText(name);
    assert |"[parameters('"| == 13;
    assert s[..13] == "[parameters('" && s[13..|s| - 3] == name && s[|s| - 3..] == "')]";
  }

  lemma VariableTextRefers(name: string)
    requires Referable(name)
    ensures ReferenceOf(VariableText(name)) == Variable(name)
  {
    var s := VariableText(name);
    assert |"[variables('"| == 12;
    assert s[..12] == "[variables('" && s[12..|s| - 3] == name && s[|s| - 3..] == "')]";
    assert s[1] == 'v';
    if |s| >= 13 { assert s[..13][1] == 'v' && "[parameters('"[1] == 'p'; }
  }

  lemma QuotedIs(s: string, head: string)
    requires Quoted(s, head).Some?
    ensures Referable(Quoted(s, head).value) && s == head + Quoted(s, head).value + "')]"
  {
    var n := Quoted(s, head).value;
    assert s == s[..|head|] + s[|head|..|s| - 3] + s[|s| - 3..];
  }

  lemma ReferenceIs(s: string)
    ensures ReferenceOf(s).Parameter? ==> Referable(ReferenceOf(s).name) && s == ParameterText(ReferenceOf(s).name)
    ensures ReferenceOf(s).Variable? ==> Referable(ReferenceOf(s).name) && s == VariableText(ReferenceOf(s).name)
  {
    if Quoted(s, "[parameters('").Some? { QuotedIs(s, "[parameters('"); }
    if Quoted(s, "[variables('").Some? { QuotedIs(s, "[variables('"); }
    hide Quoted, Referable;
  }

  /** A string that refers to a parameter with a value is replaced by the value, and so is one
      that refers to a variable. */
  lemma ReferenceReplaced(name: string, params: Env, vars: Env)
    requires Referable(name)
    ensures Resolve(Str(ParameterText(name)), params, vars) == if name in params then params[name] else Str(ParameterText(name))
    ensures Resolve(Str(VariableText(name)), params, vars) == if name in vars then vars[name] else Str(VariableText(name))
  {
    ParameterTextRefers(name);
    VariableTextRefers(name);
    hide ReferenceOf, ParameterText, VariableText;
  }

  /** Every other string stays as it is. */
  lemma OtherTextStays(s: string, params: Env, vars: Env)
    requires forall n :: Referable(n) ==> s != ParameterText(n) && s != VariableText(n)
    ensures Resolve(Str(s), params, vars) == Str(s)
  {
    ReferenceIs(s);
    hide ReferenceOf, Referable, ParameterText, VariableText;
  }

  /** What the deployment's parameters object makes of a parameter: the entry's own value. */
  lemma FlattenedAt(raw: Json, name: string)
    ensures name in Flattened(raw) <==>
      raw.Obj? && name in raw.fields && raw.fields[name].Obj? && "value" in raw.fields[name].fields
    ensures name in Flattened(raw) ==> Flattened(raw)[name] == raw.fields[name].fields["value"]
  {
  }

  /** From the request to the leaf: a parameter reference becomes the value the deployment
      gives, or else the default the template declares, or else it stays. */
  lemma ParameterReaches(name: string, declared: Env, raw: Json, vars: Env)
    requires Referable(name)
    ensures Resolve(Str(ParameterText(name)), Defaults(declared) + Flattened(raw), vars) ==
      if raw.Obj? && name in raw.fields && raw.fields[name].Obj? && "value" in raw.fields[name].fields
      then raw.fields[name].fields["value"]
      else if name in declared && declared[name].Obj? && "defaultValue" in declared[name].fields
      then declared[name].fields["defaultValue"]
      else Str(ParameterText(name))
  {
    FlattenedAt(raw, name);
    ReferenceReplaced(name, Defaults(declared) + Flattened(raw), vars);
    hide Resolve, ParameterText, Flattened;
  }

  // ---- Composing two evaluations ----

  // The values of an environment after a further evaluation, with later names behind them.
  function After(first: Env, later: Env, params: Env, vars: Env): Env {
    later + map k | k in first :: Resolve(first[k], params, vars)
  }

  lemma ResolveStringCompose(s: string, p: Env, v: Env, q: Env, w: Env)
    ensures Resolve(ResolveString(s, p, v), q, w) == ResolveString(s, After(p, q, q, w), After(v, w, q, w))
  {
    hide ReferenceOf;
  }

  lemma ResolvedArr(items: seq<Json>, params: Env, vars: Env)
    ensures var r := Resolve(Arr(items), params, vars);
            r.Arr? && |r.items| == |items| && forall i :: 0 <= i < |items| ==> r.items[i] == Resolve(items[i], params, vars)
  {
  }

  lemma ResolvedObj(fields: Env, params: Env, vars: Env)
    ensures var r := Resolve(Obj(fields), params, vars);
            r.Obj? && r.fields.Keys == fields.Keys && forall k :: k in fields ==> r.fields[k] == Resolve(fields[k], params, vars)
  {
  }

  lemma ComposeArr(items: seq<Json>, p: Env, v: Env, q: Env, w: Env, p2: Env, v2: Env)
    requires forall i :: 0 <= i < |items| ==> Resolve(Resolve(items[i], p, v), q, w) == Resolve(items[i], p2, v2)
    ensures Resolve(Resolve(Arr(items), p, v), q, w) == Resolve(Arr(items), p2, v2)
  {
    hide Resolve;
    ResolvedArr(items, p, v);
    ResolvedArr(Resolve(Arr(items), p, v).items, q, w);
    ResolvedArr(items, p2, v2);
    assert Resolve(Resolve(Arr(items), p, v), q, w).items == Resolve(Arr(items), p2, v2).items;
  }

  lemma ComposeObj(fields: Env, p: Env, v: Env, q: Env, w: Env, p2: Env, v2: Env)
    requires forall k :: k in fields ==> Resolve(Resolve(fields[k], p, v), q, w) == Resolve(fields[k], p2, v2)
    ensures Resolve(Resolve(Obj(fields), p, v), q, w) == Resolve(Obj(fields), p2, v2)
  {
    hide Resolve;
    ResolvedObj(fields, p, v);
    ResolvedObj(Resolve(Obj(fields), p, v).fields, q, w);
    ResolvedObj(fields, p2, v2);
    assert Resolve(Resolve(Obj(fields), p, v), q, w).fields == Resolve(Obj(fields), p2, v2).fields;
  }

  /** Evaluating twice is one simultaneous evaluation in the composed environments. */
  lemma {:induction false} ResolveCompose(j: Json, p: Env, v: Env, q: Env, w: Env)
    ensures Resolve(Resolve(j, p, v), q, w) == Resolve(j, After(p, q, q, w), After(v, w, q, w))
  {
    match j
    case Str(s) => ResolveStringCompose(s, p, v, q, w);
    case Arr(items) =>
      forall i | 0 <= i < |items| { ResolveCompose(items[i], p, v, q, w); }
      hide After, Resolve, ResolveString;
      ComposeArr(items, p, v, q, w, After(p, q, q, w), After(v, w, q, w));
    case Obj(fields) =>
      forall k | k in fields { ResolveCompose(fields[k], p, v, q, w); }
      hide After, Resolve, ResolveString;
      ComposeObj(fields, p, v, q, w, After(p, q, q, w), After(v, w, q, w));
    case _ =>
  }

  // ---- Fixed points ----

  // No reference in the tree means anything other than itself.
  predicate Stable(j: Json, params: Env, vars: Env) {
    match j
    case Str(s) => Meaning(s, params, vars) in {None, Some(j)}
    case Arr(items) => forall i :: 0 <= i < |items| ==> Stable(items[i], params, vars)
    case Obj(fields) => forall k :: k in fields ==> Stable(fields[k], params, vars)
    case _ => true
  }

  /** A tree is left alone exactly when none of its references resolves to something new. */
  lemma {:induction false} FixedIff(j: Json, params: Env, vars: Env)
    ensures Resolve(j, params, vars) == j <==> Stable(j, params, vars)
  {
    hide Meaning;
    match j
    case Str(s) =>
    case Arr(items) =>
      hide ResolveString;
      forall i | 0 <= i < |items| { FixedIff(items[i], params, vars); }
      var r := Resolve(j, params, vars);
      assert r == j <==> r.items == items;
      assert forall i :: 0 <= i < |items| ==> r.items[i] == Resolve(items[i], params, vars);
    case Obj(fields) =>
      hide ResolveString;
      forall k | k in fields { FixedIff(fields[k], params, vars); }
      var r := Resolve(j, params, vars);
      assert r == j <==> r.fields == fields;
      assert forall k :: k in fields ==> r.fields[k] == Resolve(fields[k], params, vars);
    case _ =>
  }

  // ---- Staging ----

  ghost predicate Stages(j: Json, declared: Env, supplied: Env, vars: Env) {
    Resolve(j, Defaults(declared) + supplied, vars) == Resolve(Resolve(j, supplied, map[]), Defaults(declared), vars)
  }

  // Every supplied value a template can refer to is left alone by the second stage.
  ghost predicate Settled(declared: Env, supplied: Env, vars: Env) {
    forall k :: k in supplied && Referable(k) ==> Stable(supplied[k], Defaults(declared), vars)
  }

  lemma {:induction false} OnlyReferable(j: Json, p: Env, q: Env, vars: Env)
    requires forall k :: Referable(k) ==> (k in p <==> k in q)
    requires forall k :: Referable(k) && k in p && k in q ==> p[k] == q[k]
    ensures Resolve(j, p, vars) == Resolve(j, q, vars)
  {
    match j
    case Str(s) =>
      if ReferenceOf(s).Parameter? { assert Referable(ReferenceOf(s).name); }
      hide ReferenceOf, Referable;
    case Arr(items) =>
      forall i | 0 <= i < |items| { OnlyReferable(items[i], p, q, vars); }
      hide Resolve, Referable;
      ResolvedArr(items, p, vars);
      ResolvedArr(items, q, vars);
      assert Resolve(j, p, vars).items == Resolve(j, q, vars).items;
    case Obj(fields) =>
      forall k | k in fields { OnlyReferable(fields[k], p, q, vars); }
      hide Resolve, Referable;
      ResolvedObj(fields, p, vars);
      ResolvedObj(fields, q, vars);
      assert Resolve(j, p, vars).fields == Resolve(j, q, vars).fields;
    case _ =>
  }

  lemma NoVariablesYet(vars: Env, q: Env)
    ensures After(map[], vars, q, vars) == vars
  {
  }

  lemma SettledStages(j: Json, declared: Env, supplied: Env, vars: Env)
    requires Settled(declared, supplied, vars)
    ensures Stages(j, declared, supplied, vars)
  {
    var d := Defaults(declared);
    ResolveCompose(j, supplied, map[], d, vars);
    NoVariablesYet(vars, d);
    forall k | k in supplied && Referable(k) ensures Resolve(supplied[k], d, vars) == supplied[k] {
      FixedIff(supplied[k], d, vars);
    }
    hide Resolve, Referable, Stable, Defaults;
    OnlyReferable(j, d + supplied, After(supplied, d, d, vars), vars);
  }

  lemma StagesSettle(name: string, declared: Env, supplied: Env, vars: Env)
    requires name in supplied && Referable(name)
    requires Stages(Str(ParameterText(name)), declared, supplied, vars)
    ensures Stable(supplied[name], Defaults(declared), vars)
  {
    ParameterTextRefers(name);
    var s := ParameterText(name);
    hide ReferenceOf, Defaults, ParameterText, Stable;
    assert Resolve(Str(s), Defaults(declared) + supplied, vars) == supplied[name];
    assert Resolve(Str(s), supplied, map[]) == supplied[name];
    FixedIff(supplied[name], Defaults(declared), vars);
  }

  /** Evaluating with merged parameters is, for every template, the same as putting in the
      supplied values first and the defaults and variables afterwards, exactly when the
      supplied values hold no reference that the second stage would replace. */
  lemma StagingIff(declared: Env, supplied: Env, vars: Env)
    ensures (forall j :: Stages(j, declared, supplied, vars)) <==> Settled(declared, supplied, vars)
  {
    hide Stages, Stable, Referable;
    if Settled(declared, supplied, vars) {
      forall j ensures Stages(j, declared, supplied, vars) { SettledStages(j, declared, supplied, vars); }
    }
    if forall j :: Stages(j, declared, supplied, vars) {
      forall k | k in supplied && Referable(k) ensures Stable(supplied[k], Defaults(declared), vars) {
        StagesSettle(k, declared, supplied, vars);
      }
    }
  }

  // ---- Shape ----

  datatype Step = Key(key: string) | Index(index: nat)

  function Child(j: Json, step: Step): Option<Json> {
    match step
    case Key(k) => if j.Obj? && k in j.fields then Some(j.fields[k]) else None
    case Index(i) => if j.Arr? && i < |j.items| then Some(j.items[i]) else None
  }

  function At(j: Json, path: seq<Step>): Option<Json> {
    if path == [] then Some(j)
    else
      var c := Child(j, path[0]);
      if c.None? then None else At(c.value, path[1..])
  }

  lemma ChildResolves(j: Json, step: Step, params: Env, vars: Env)
    requires !j.Str?
    ensures var c := Child(Resolve(j, params, vars), step);
      c == if Child(j, step).None? then None else Some(Resolve(Child(j, step).value, params, vars))
  {
    hide ResolveString;
  }

  /** Every place of the template is a place of the result and holds its own evaluation. */
  lemma {:induction false} PlacesKept(j: Json, path: seq<Step>, params: Env, vars: Env)
    requires At(j, path).Some?
    ensures At(Resolve(j, params, vars), path) == Some(Resolve(At(j, path).value, params, vars))
  {
    if path != [] {
      ChildResolves(j, path[0], params, vars);
      hide Resolve, Child;
      PlacesKept(Child(j, path[0]).value, path[1..], params, vars);
    }
  }

  // Some leaf on the way to a place is a reference with a meaning.
  ghost predicate UnderReference(j: Json, path: seq<Step>, params: Env, vars: Env) {
    exists n: nat :: n < |path| && At(j, path[..n]).Some? && At(j, path[..n]).value.Str?
      && Meaning(At(j, path[..n]).value.text, params, vars).Some?
  }

  lemma DeeperReference(j: Json, path: seq<Step>, params: Env, vars: Env)
    requires path != [] && Child(j, path[0]).Some?
    requires UnderReference(Child(j, path[0]).value, path[1..], params, vars)
    ensures UnderReference(j, path, params, vars)
  {
    var c, rest := Child(j, path[0]).value, path[1..];
    hide Meaning, Child;
    var n: nat :| n < |rest| && At(c, rest[..n]).Some? && At(c, rest[..n]).value.Str?
      && Meaning(At(c, rest[..n]).value.text, params, vars).Some?;
    assert path[..n + 1][1..] == rest[..n];
    assert At(j, path[..n + 1]) == At(c, rest[..n]);
  }

  /** A place only the result has lies beneath a leaf that was replaced. */
  lemma {:induction false} NewPlaces(j: Json, path: seq<Step>, params: Env, vars: Env)
    requires At(j, path).None? && At(Resolve(j, params, vars), path).Some?
    ensures UnderReference(j, path, params, vars)
  {
    if j.Str? {
      hide ReferenceOf;
      assert At(j, path[..0]) == Some(j);
      assert Child(j, path[0]).None?;
    } else {
      ChildResolves(j, path[0], params, vars);
      hide Resolve, Child, UnderReference;
      if Child(j, path[0]).Some? {
        NewPlaces(Child(j, path[0]).value, path[1..], params, vars);
        DeeperReference(j, path, params, vars);
      }
    }
  }
}
