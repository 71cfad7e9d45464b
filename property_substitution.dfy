/**
 * `_resolve_resource`: `${name}` interpolation in the properties of one
 * module resource. Only a top-level string that is exactly `${` + name +
 * `}` is touched, and only when `name` is a resolved variable; nested
 * values and strings that merely contain a reference are left alone.
 */
module PropertySubstitution {
  import opened Values

  /** The test `value.startswith('${') and value.endswith('}')`. */
  predicate IsReference(s: string) {
    StartsWith(s, "${") && EndsWith(s, "}")
  }

  /** `value[2:-1]`. */
  function ReferencedName(s: string): (name: string)
    requires IsReference(s)
    ensures |name| == |s| - 3
  {
    assert s[..2] == "${" && s[|s| - 1..] == "}";
    assert s[1] == '{' && s[|s| - 1] == '}';
    s[2..|s| - 1]
  }

  /** The string a reference to `name` is written as. */
  function Reference(name: string): string {
    "${" + name + "}"
  }

  /** Writing and reading a reference are inverse to each other. */
  lemma ReferenceRoundTrip(name: string, s: string)
    ensures IsReference(Reference(name)) && ReferencedName(Reference(name)) == name
    ensures IsReference(s) ==> Reference(ReferencedName(s)) == s
  {
    var r := Reference(name);
    assert r[..2] == "${" && r[|r| - 1..] == "}";
    assert r[2..|r| - 1] == name;
    if IsReference(s) {
      var n := ReferencedName(s);
      assert s[..2] == "${" && s[|s| - 1..] == "}";
      assert s == s[..2] + s[2..|s| - 1] + s[|s| - 1..];
    }
  }

  /** The new value of one property. */
  function Substituted(v: Value, vars: Entries): (r: Value)
    ensures forall name {:trigger Reference(name)} :: v == Str(Reference(name)) ==> r == Get(vars, name, v)
    ensures r != v ==> v.Str? && IsReference(v.s) && Lookup(vars, ReferencedName(v.s)) == Some(r)
  {
    forall name | v == Str(Reference(name)) ensures ReferencedName(v.s) == name {
      ReferenceRoundTrip(name, v.s);
    }
    if v.Str? && IsReference(v.s) then Get(vars, ReferencedName(v.s), v) else v
  }

  /** The loop over `resolved_resource.items()`, from item `i` on. */
  function SubstituteFrom(props: Entries, vars: Entries, i: nat): (r: Entries)
    requires i <= |props|
    ensures |r| == |props|
    decreases |props| - i
  {
    if i == |props| then props
    else SubstituteFrom(props[i := (props[i].0, Substituted(props[i].1, vars))], vars, i + 1)
  }

  /** Every property with its value substituted, keys untouched. */
  function SubstituteAll(props: Entries, vars: Entries): Entries {
    SubstituteFrom(props, vars, 0)
  }

  /** `_resolve_resource(resource, resolved_variables)`; a value other than a
      dict has no `items()` (a list survives `copy()` but not that). */
  function ResolvedResource(resource: Value, vars: Entries): Outcome<Entries> {
    match resource
    case Dict(props) => Done(SubstituteAll(props, vars))
    case _ => Raised
  }

  // ---------------------------------------------------------------------
  // Lemmas

  lemma {:induction false} SubstituteFromAt(props: Entries, vars: Entries, i: nat, j: nat)
    requires i <= |props| && j < |props|
    ensures SubstituteFrom(props, vars, i)[j] ==
      if j < i then props[j] else (props[j].0, Substituted(props[j].1, vars))
    decreases |props| - i
  {
    if i < |props| {
      SubstituteFromAt(props[i := (props[i].0, Substituted(props[i].1, vars))], vars, i + 1, j);
    }
  }

  /** The copy keeps every key in its place and substitutes every value on
      its own. */
  lemma SubstituteAllAt(props: Entries, vars: Entries, j: nat)
    requires j < |props|
    ensures |SubstituteAll(props, vars)| == |props|
    ensures SubstituteAll(props, vars)[j] == (props[j].0, Substituted(props[j].1, vars))
  {
    SubstituteFromAt(props, vars, 0, j);
  }

  lemma SubstituteAllKeys(props: Entries, vars: Entries)
    ensures Keys(SubstituteAll(props, vars)) == Keys(props)
  {
    var r := SubstituteAll(props, vars);
    forall j | 0 <= j < |props| ensures Keys(r)[j] == Keys(props)[j] {
      SubstituteAllAt(props, vars, j);
      KeysAt(r, j);
      KeysAt(props, j);
    }
  }

  lemma {:induction false} KeysAt(e: Entries, j: nat)
    requires j < |e|
    ensures Keys(e)[j] == e[j].0
  {
    if j > 0 {
      KeysAt(e[1..], j - 1);
    }
  }

  /** With no variable bound, nothing changes. */
  lemma SubstituteAllUnbound(props: Entries)
    ensures SubstituteAll(props, []) == props
  {
    var r := SubstituteAll(props, []);
    forall j | 0 <= j < |props| ensures r[j] == props[j] {
      SubstituteAllAt(props, [], j);
    }
  }

  /** The rules for one property: an exact reference to a bound name becomes
      its value; everything else, including a string that only contains a
      reference, a reference to an unbound name, and any non-string, is kept. */
  lemma SubstitutionRules(resource: Value, vars: Entries, r: Entries, j: nat)
    requires ResolvedResource(resource, vars) == Done(r)
    requires j < |r|
    ensures resource.Dict? && |r| == |resource.entries|
    ensures r[j].0 == resource.entries[j].0
    ensures var v := resource.entries[j].1;
      r[j].1 == if v.Str? && IsReference(v.s) && Lookup(vars, ReferencedName(v.s)).Some?
                then Lookup(vars, ReferencedName(v.s)).value
                else v
  {
    SubstituteAllAt(resource.entries, vars, j);
  }

  lemma SubstitutionExamples()
    ensures Substituted(Str("${x}"), [("x", Num(7.0))]) == Num(7.0)
    ensures Substituted(Str("prefix-${x}"), [("x", Num(7.0))]) == Str("prefix-${x}")
    ensures Substituted(Str("${y}"), [("x", Num(7.0))]) == Str("${y}")
  {
    assert IsReference("${x}") && ReferencedName("${x}") == "x" by {
      assert Reference("x") == "${x}";
      ReferenceRoundTrip("x", "${x}");
    }
    assert IsReference("${y}") && ReferencedName("${y}") == "y" by {
      assert Reference("y") == "${y}";
      ReferenceRoundTrip("y", "${y}");
    }
    assert Lookup([("x", Num(7.0))], "x") == Some(Num(7.0));
    assert Lookup([("x", Num(7.0))], "y") == None;
    assert !IsReference("prefix-${x}") by {
      assert "prefix-${x}"[..2] == "pr";
    }
  }
}
