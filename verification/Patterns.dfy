/** The regular expressions of the source, and what it takes to match them. */
module Patterns {
  import opened Options
  import opened VmSpec
  import opened AksSpec
  import Template

  // An anchored expression: a text, or least to most characters of a class, one after the other.
  datatype Pattern = Exactly(text: string) | Times(class_: char -> bool, least: nat, most: Option<nat>) | Then(first: Pattern, second: Pattern)

  ghost predicate Fits(p: Pattern, s: string) {
    match p
    case Exactly(text) => s == text
    case Times(test, least, most) => least <= |s| && (most.Some? ==> |s| <= most.value) && forall c :: c in s ==> test(c)
    case Then(a, b) => exists i: nat :: i <= |s| && Fits(a, s[..i]) && Fits(b, s[i..])
  }

  // ^[a-z0-9-]{1,40}$
  const SERVICE_NAME: Pattern := Times((c: char) => 'a' <= c <= 'z' || '0' <= c <= '9' || c == '-', 1, Some(40))

  /** A service's name is what the expression takes. */
  lemma ServiceNameFits(s: string)
    ensures ServiceName(s) <==> Fits(SERVICE_NAME, s)
  {
  }

  // ^[a-zA-Z0-9][-_a-zA-Z0-9]{0,62}$
  const CLUSTER_NAME: Pattern := Then(
    Times((c: char) => 'a' <= c <= 'z' || 'A' <= c <= 'Z' || '0' <= c <= '9', 1, Some(1)),
    Times((c: char) => c == '-' || c == '_' || 'a' <= c <= 'z' || 'A' <= c <= 'Z' || '0' <= c <= '9', 0, Some(62)))

  /** A cluster's name is what the expression takes. */
  lemma ClusterNameFits(s: string)
    ensures ClusterName(s) <==> Fits(CLUSTER_NAME, s)
  {
    if ClusterName(s) {
      assert s[..1] == [s[0]] && forall c :: c in s[1..] ==> c in s;
      assert Fits(CLUSTER_NAME.first, s[..1]) && Fits(CLUSTER_NAME.second, s[1..]);
    }
    if Fits(CLUSTER_NAME, s) {
      var i: nat :| i <= |s| && Fits(CLUSTER_NAME.first, s[..i]) && Fits(CLUSTER_NAME.second, s[i..]);
      assert i == 1 && s[0] in s[..1];
      assert s == s[..1] + s[1..];
    }
  }

  // ^\[parameters\('([^']+)'\)\]$ and the like, with name for what the group takes
  ghost predicate FitsReference(head: string, name: string, s: string) {
    s == head + name + "')]" && Fits(Times((c: char) => c != '\'', 1, None), name)
  }

  /** A string refers to a parameter or variable exactly if the expression takes it. */
  lemma ReferenceFits(s: string, name: string)
    ensures Template.ReferenceOf(s) == Template.Parameter(name) <==> FitsReference("[parameters('", name, s)
    ensures Template.ReferenceOf(s) == Template.Variable(name) <==> FitsReference("[variables('", name, s)
  {
    Template.ReferenceIs(s);
    if Template.Referable(name) {
      Template.ParameterTextRefers(name);
      Template.VariableTextRefers(name);
    }
  }
}
