/**
 * Rewriting a JSON Schema so that no `type` is a list: what the schema accepts
 * stays what it was, except where the rewrite overwrites an `anyOf`.
 */
module SchemaExpansion {
  import opened Common

  datatype Value =
    | VNull
    | VBool(bool)
    | VNumber(number: real)
    | VString(string)
    | VArray(elements: seq<Value>)
    | VObject(members: map<string, Value>)

  datatype TypeName = TNull | TBoolean | TNumber | TInteger | TString | TArray | TObject

  /** Sections 6.1.1 of JSON Schema Validation 2020-12: a name, or a list of names. */
  datatype Types = NoType | OneType(name: TypeName) | TypeList(names: seq<TypeName>)

  /** A keyword that only looks at the value itself, like `minimum`, `enum`, `const` or `pattern`. */
  type Check = nat

  datatype Named = Named(name: string, schema: Schema)

  /** The schemas of an `anyOf` or a `oneOf`, when there is one. */
  datatype Choices = NoChoices | Choices(schemas: seq<Schema>)

  datatype Schema =
    | Anything(accepts: bool)
    | Node(
        types: Types,
        checks: seq<Check>,
        data: seq<Value>,                 // default, examples and the like
        properties: seq<Named>,
        patternProperties: seq<Named>,
        dependentSchemas: seq<Named>,
        definitions: seq<Named>,
        additionalProperties: Option<Schema>,
        propertyNames: Option<Schema>,
        prefixItems: seq<Schema>,
        items: Option<Schema>,
        contains: Option<Schema>,
        allOf: seq<Schema>,
        anyOf: Choices,
        oneOf: Choices,
        negation: Option<Schema>,
        condition: Option<Schema>,
        consequence: Option<Schema>,
        alternative: Option<Schema>)

  /** How the checks and the patterns of `patternProperties` read. */
  datatype Dialect = Dialect(holds: (Check, Value) -> bool, matches: (string, string) -> bool)

  // ------------------------------------------------------------------ acceptance

  predicate IsOf(v: Value, t: TypeName) {
    match t
    case TNull => v.VNull?
    case TBoolean => v.VBool?
    case TNumber => v.VNumber?
    case TInteger => v.VNumber? && v.number == v.number.Floor as real
    case TString => v.VString?
    case TArray => v.VArray?
    case TObject => v.VObject?
  }

  predicate TypeHolds(types: Types, v: Value) {
    match types
    case NoType => true
    case OneType(name) => IsOf(v, name)
    case TypeList(names) => exists i :: 0 <= i < |names| && IsOf(v, names[i])
  }

  predicate ChecksHold(d: Dialect, checks: seq<Check>, v: Value) {
    forall i :: 0 <= i < |checks| ==> d.holds(checks[i], v)
  }

  predicate Accepts(d: Dialect, s: Schema, v: Value)
    decreases s
  {
    match s
    case Anything(accepts) => accepts
    case Node(types, checks, _, properties, patterns, dependents, _, additional, names, prefix, items, contains, all, any, one, negated, cond, yes, no) =>
      && TypeHolds(types, v) && ChecksHold(d, checks, v)
      && AllAccept(d, all, v)
      && (any.Choices? ==> Accepting(d, any.schemas, v) > 0)
      && (one.Choices? ==> Accepting(d, one.schemas, v) == 1)
      && (negated.Some? ==> !Accepts(d, negated.value, v))
      && (cond.Some? ==> if Accepts(d, cond.value, v) then (yes.Some? ==> Accepts(d, yes.value, v)) else (no.Some? ==> Accepts(d, no.value, v)))
      && (v.VObject? ==>
            && PropertiesAccept(d, properties, v.members)
            && PatternsAccept(d, patterns, v.members)
            && DependentsAccept(d, dependents, v)
            && (additional.Some? ==> forall k :: k in v.members && !Mentioned(d, properties, patterns, k) ==> Accepts(d, additional.value, v.members[k]))
            && (names.Some? ==> forall k :: k in v.members ==> Accepts(d, names.value, VString(k))))
      && (v.VArray? ==>
            && PrefixAccepts(d, prefix, v.elements)
            && (items.Some? ==> forall i :: |prefix| <= i < |v.elements| ==> Accepts(d, items.value, v.elements[i]))
            && (contains.Some? ==> exists i :: 0 <= i < |v.elements| && Accepts(d, contains.value, v.elements[i])))
  }

  predicate AllAccept(d: Dialect, schemas: seq<Schema>, v: Value)
    decreases schemas
  {
    forall i :: 0 <= i < |schemas| ==> Accepts(d, schemas[i], v)
  }

  /** How many of the schemas accept the value. */
  function Accepting(d: Dialect, schemas: seq<Schema>, v: Value): nat
    decreases schemas
  {
    if schemas == [] then 0 else (if Accepts(d, schemas[0], v) then 1 else 0) + Accepting(d, schemas[1..], v)
  }

  predicate PropertiesAccept(d: Dialect, properties: seq<Named>, members: map<string, Value>)
    decreases properties
  {
    forall i :: 0 <= i < |properties| && properties[i].name in members ==> Accepts(d, properties[i].schema, members[properties[i].name])
  }

  predicate PatternsAccept(d: Dialect, patterns: seq<Named>, members: map<string, Value>)
    decreases patterns
  {
    forall i, k :: 0 <= i < |patterns| && k in members && d.matches(patterns[i].name, k) ==> Accepts(d, patterns[i].schema, members[k])
  }

  predicate DependentsAccept(d: Dialect, dependents: seq<Named>, v: Value)
    requires v.VObject?
    decreases dependents
  {
    forall i :: 0 <= i < |dependents| && dependents[i].name in v.members ==> Accepts(d, dependents[i].schema, v)
  }

  predicate PrefixAccepts(d: Dialect, prefix: seq<Schema>, elements: seq<Value>)
    decreases prefix
  {
    forall i :: 0 <= i < |prefix| && i < |elements| ==> Accepts(d, prefix[i], elements[i])
  }

  predicate Mentioned(d: Dialect, properties: seq<Named>, patterns: seq<Named>, k: string) {
    || (exists i :: 0 <= i < |properties| && properties[i].name == k)
    || (exists i :: 0 <= i < |patterns| && d.matches(patterns[i].name, k))
  }

  // ---------------------------------------------------------------- the rewrite

  function OfType(t: TypeName): (s: Schema)
    ensures s.Node? && s.types == OneType(t) && s.anyOf.NoChoices?
  {
    Node(OneType(t), [], [], [], [], [], [], None, None, [], None, None, [], NoChoices, NoChoices, None, None, None, None)
  }

  function OfTypes(names: seq<TypeName>): (r: seq<Schema>)
    ensures |r| == |names| && forall i :: 0 <= i < |names| ==> r[i] == OfType(names[i])
  {
    seq(|names|, i requires 0 <= i < |names| => OfType(names[i]))
  }

  /** `expandTypeArrays`: a list of types becomes an `anyOf`, whatever `anyOf` was there. */
  function Expand(s: Schema): Schema
    decreases s
  {
    match s
    case Anything(_) => s
    case Node(types, checks, data, properties, patterns, dependents, definitions, additional, names, prefix, items, contains, all, any, one, negated, cond, yes, no) =>
      Node(if types.TypeList? then NoType else types, checks, data,
           ExpandNamed(properties), ExpandNamed(patterns), ExpandNamed(dependents), ExpandNamed(definitions),
           ExpandOne(additional), ExpandOne(names), ExpandAll(prefix), ExpandOne(items), ExpandOne(contains),
           ExpandAll(all),
           if types.TypeList? then Choices(OfTypes(types.names)) else ExpandChoices(any),
           ExpandChoices(one),
           ExpandOne(negated), ExpandOne(cond), ExpandOne(yes), ExpandOne(no))
  }

  function ExpandOne(s: Option<Schema>): Option<Schema>
    decreases s
  {
    if s.None? then None else Some(Expand(s.value))
  }

  function ExpandChoices(c: Choices): Choices
    decreases c
  {
    if c.NoChoices? then c else Choices(ExpandAll(c.schemas))
  }

  function ExpandAll(schemas: seq<Schema>): (r: seq<Schema>)
    ensures |r| == |schemas|
    decreases schemas
  {
    if schemas == [] then [] else [Expand(schemas[0])] + ExpandAll(schemas[1..])
  }

  function ExpandNamed(schemas: seq<Named>): (r: seq<Named>)
    ensures |r| == |schemas|
    decreases schemas
  {
    if schemas == [] then [] else [Named(schemas[0].name, Expand(schemas[0].schema))] + ExpandNamed(schemas[1..])
  }

  // --------------------------------------------------- what the rewrite forgets

  /** The schema without the `anyOf`s that stand beside a list of types. */
  function Unshadowed(s: Schema): Schema
    decreases s
  {
    match s
    case Anything(_) => s
    case Node(types, checks, data, properties, patterns, dependents, definitions, additional, names, prefix, items, contains, all, any, one, negated, cond, yes, no) =>
      Node(types, checks, data,
           UnshadowedNamed(properties), UnshadowedNamed(patterns), UnshadowedNamed(dependents), UnshadowedNamed(definitions),
           UnshadowedOne(additional), UnshadowedOne(names), UnshadowedAll(prefix), UnshadowedOne(items), UnshadowedOne(contains),
           UnshadowedAll(all),
           if types.TypeList? then NoChoices else UnshadowedChoices(any),
           UnshadowedChoices(one),
           UnshadowedOne(negated), UnshadowedOne(cond), UnshadowedOne(yes), UnshadowedOne(no))
  }

  function UnshadowedOne(s: Option<Schema>): Option<Schema>
    decreases s
  {
    if s.None? then None else Some(Unshadowed(s.value))
  }

  function UnshadowedChoices(c: Choices): Choices
    decreases c
  {
    if c.NoChoices? then c else Choices(UnshadowedAll(c.schemas))
  }

  function UnshadowedAll(schemas: seq<Schema>): (r: seq<Schema>)
    ensures |r| == |schemas|
    decreases schemas
  {
    if schemas == [] then [] else [Unshadowed(schemas[0])] + UnshadowedAll(schemas[1..])
  }

  function UnshadowedNamed(schemas: seq<Named>): (r: seq<Named>)
    ensures |r| == |schemas|
    decreases schemas
  {
    if schemas == [] then [] else [Named(schemas[0].name, Unshadowed(schemas[0].schema))] + UnshadowedNamed(schemas[1..])
  }

  // -------------------------------------------------------------------- meaning

  ghost predicate Alike(d: Dialect, a: Schema, b: Schema) {
    forall v :: Accepts(d, a, v) <==> Accepts(d, b, v)
  }

  ghost predicate AlikeOne(d: Dialect, a: Option<Schema>, b: Option<Schema>) {
    (a.Some? <==> b.Some?) && (a.Some? ==> Alike(d, a.value, b.value))
  }

  ghost predicate AlikeAll(d: Dialect, a: seq<Schema>, b: seq<Schema>) {
    |a| == |b| && forall i :: 0 <= i < |a| ==> Alike(d, a[i], b[i])
  }

  ghost predicate AlikeNamed(d: Dialect, a: seq<Named>, b: seq<Named>) {
    |a| == |b| && forall i :: 0 <= i < |a| ==> a[i].name == b[i].name && Alike(d, a[i].schema, b[i].schema)
  }

  ghost predicate AlikeAny(d: Dialect, a: Choices, b: Choices) {
    (a.Choices? <==> b.Choices?) && (a.Choices? ==> AlikeAll(d, a.schemas, b.schemas))
  }

  lemma {:induction false} AcceptingAlike(d: Dialect, a: seq<Schema>, b: seq<Schema>, v: Value)
    requires AlikeAll(d, a, b)
    ensures Accepting(d, a, v) == Accepting(d, b, v)
  {
    if a != [] {
      assert Alike(d, a[0], b[0]);
      forall i | 0 <= i < |a[1..]| ensures Alike(d, a[1..][i], b[1..][i]) { assert Alike(d, a[i + 1], b[i + 1]); }
      AcceptingAlike(d, a[1..], b[1..], v);
    }
  }

  /** The first type of a list that holds is the first schema of its `anyOf` that accepts. */
  lemma {:induction false} TypesAsChoices(d: Dialect, names: seq<TypeName>, v: Value)
    ensures Accepting(d, OfTypes(names), v) > 0 <==> TypeHolds(TypeList(names), v)
  {
    if names != [] {
      TypesAsChoices(d, names[1..], v);
      assert OfTypes(names)[1..] == OfTypes(names[1..]);
      assert Accepts(d, OfType(names[0]), v) <==> IsOf(v, names[0]);
      if TypeHolds(TypeList(names), v) && !IsOf(v, names[0]) {
        var i :| 0 <= i < |names| && IsOf(v, names[i]);
        assert IsOf(v, names[1..][i - 1]);
      }
      if TypeHolds(TypeList(names[1..]), v) {
        var i :| 0 <= i < |names[1..]| && IsOf(v, names[1..][i]);
        assert IsOf(v, names[i + 1]);
      }
    }
  }

  ghost predicate SameObjectRules(d: Dialect, a: Schema, b: Schema)
    requires a.Node? && b.Node?
  {
    && AlikeNamed(d, a.properties, b.properties) && AlikeNamed(d, a.patternProperties, b.patternProperties)
    && AlikeNamed(d, a.dependentSchemas, b.dependentSchemas)
    && AlikeOne(d, a.additionalProperties, b.additionalProperties) && AlikeOne(d, a.propertyNames, b.propertyNames)
  }

  ghost predicate SameArrayRules(d: Dialect, a: Schema, b: Schema)
    requires a.Node? && b.Node?
  {
    AlikeAll(d, a.prefixItems, b.prefixItems) && AlikeOne(d, a.items, b.items) && AlikeOne(d, a.contains, b.contains)
  }

  ghost predicate SameLogic(d: Dialect, a: Schema, b: Schema)
    requires a.Node? && b.Node?
  {
    && AlikeAll(d, a.allOf, b.allOf) && AlikeAny(d, a.oneOf, b.oneOf) && AlikeOne(d, a.negation, b.negation)
    && AlikeOne(d, a.condition, b.condition) && AlikeOne(d, a.consequence, b.consequence) && AlikeOne(d, a.alternative, b.alternative)
  }

  predicate ObjectHolds(d: Dialect, s: Schema, v: Value)
    requires s.Node? && v.VObject?
  {
    && PropertiesAccept(d, s.properties, v.members)
    && PatternsAccept(d, s.patternProperties, v.members)
    && DependentsAccept(d, s.dependentSchemas, v)
    && (s.additionalProperties.Some? ==>
          forall k :: k in v.members && !Mentioned(d, s.properties, s.patternProperties, k) ==> Accepts(d, s.additionalProperties.value, v.members[k]))
    && (s.propertyNames.Some? ==> forall k :: k in v.members ==> Accepts(d, s.propertyNames.value, VString(k)))
  }

  predicate ArrayHolds(d: Dialect, s: Schema, v: Value)
    requires s.Node? && v.VArray?
  {
    && PrefixAccepts(d, s.prefixItems, v.elements)
    && (s.items.Some? ==> forall i :: |s.prefixItems| <= i < |v.elements| ==> Accepts(d, s.items.value, v.elements[i]))
    && (s.contains.Some? ==> exists i :: 0 <= i < |v.elements| && Accepts(d, s.contains.value, v.elements[i]))
  }

  predicate LogicHolds(d: Dialect, s: Schema, v: Value)
    requires s.Node?
  {
    && AllAccept(d, s.allOf, v)
    && (s.oneOf.Choices? ==> Accepting(d, s.oneOf.schemas, v) == 1)
    && (s.negation.Some? ==> !Accepts(d, s.negation.value, v))
    && (s.condition.Some? ==>
          if Accepts(d, s.condition.value, v) then (s.consequence.Some? ==> Accepts(d, s.consequence.value, v)) else (s.alternative.Some? ==> Accepts(d, s.alternative.value, v)))
  }

  lemma AcceptsParts(d: Dialect, s: Schema, v: Value)
    requires s.Node?
    ensures Accepts(d, s, v) <==>
      && TypeHolds(s.types, v) && ChecksHold(d, s.checks, v) && LogicHolds(d, s, v)
      && (s.anyOf.Choices? ==> Accepting(d, s.anyOf.schemas, v) > 0)
      && (v.VObject? ==> ObjectHolds(d, s, v)) && (v.VArray? ==> ArrayHolds(d, s, v))
  {
  }

  lemma Flip(d: Dialect, a: Schema, b: Schema)
    requires a.Node? && b.Node?
    ensures SameObjectRules(d, a, b) ==> SameObjectRules(d, b, a)
    ensures SameArrayRules(d, a, b) ==> SameArrayRules(d, b, a)
    ensures SameLogic(d, a, b) ==> SameLogic(d, b, a)
  {
  }

  lemma NamedCarry(d: Dialect, a: seq<Named>, b: seq<Named>, v: Value)
    requires AlikeNamed(d, a, b) && v.VObject?
    ensures PropertiesAccept(d, a, v.members) ==> PropertiesAccept(d, b, v.members)
    ensures PatternsAccept(d, a, v.members) ==> PatternsAccept(d, b, v.members)
    ensures DependentsAccept(d, a, v) ==> DependentsAccept(d, b, v)
  {
    forall i, w | 0 <= i < |b| && Accepts(d, a[i].schema, w) ensures Accepts(d, b[i].schema, w) {
      assert Alike(d, a[i].schema, b[i].schema);
    }
  }

  lemma OneCarry(d: Dialect, a: Option<Schema>, b: Option<Schema>, v: Value)
    requires AlikeOne(d, a, b) && a.Some?
    ensures Accepts(d, a.value, v) <==> Accepts(d, b.value, v)
  {
  }

  lemma ObjectAlike(d: Dialect, a: Schema, b: Schema, v: Value)
    requires a.Node? && b.Node? && SameObjectRules(d, a, b) && v.VObject? && ObjectHolds(d, a, v)
    ensures ObjectHolds(d, b, v)
  {
    NamedCarry(d, a.properties, b.properties, v);
    NamedCarry(d, a.patternProperties, b.patternProperties, v);
    NamedCarry(d, a.dependentSchemas, b.dependentSchemas, v);
    forall k ensures Mentioned(d, a.properties, a.patternProperties, k) <==> Mentioned(d, b.properties, b.patternProperties, k) {
      SameMentions(d, a.properties, b.properties, a.patternProperties, b.patternProperties, k);
    }
    forall k | k in v.members && b.additionalProperties.Some? && !Mentioned(d, b.properties, b.patternProperties, k)
      ensures Accepts(d, b.additionalProperties.value, v.members[k])
    {
      OneCarry(d, a.additionalProperties, b.additionalProperties, v.members[k]);
    }
    forall k | k in v.members && b.propertyNames.Some? ensures Accepts(d, b.propertyNames.value, VString(k)) {
      OneCarry(d, a.propertyNames, b.propertyNames, VString(k));
    }
  }

  lemma SameMentions(d: Dialect, p: seq<Named>, q: seq<Named>, r: seq<Named>, s: seq<Named>, k: string)
    requires |p| == |q| && |r| == |s|
    requires (forall i :: 0 <= i < |p| ==> p[i].name == q[i].name) && (forall i :: 0 <= i < |r| ==> r[i].name == s[i].name)
    ensures Mentioned(d, p, r, k) <==> Mentioned(d, q, s, k)
  {
  }

  lemma ArrayAlike(d: Dialect, a: Schema, b: Schema, v: Value)
    requires a.Node? && b.Node? && SameArrayRules(d, a, b) && v.VArray? && ArrayHolds(d, a, v)
    ensures ArrayHolds(d, b, v)
  {
    forall i | 0 <= i < |b.prefixItems| && i < |v.elements| ensures Accepts(d, b.prefixItems[i], v.elements[i]) {
      assert Alike(d, a.prefixItems[i], b.prefixItems[i]);
    }
    if b.items.Some? {
      forall i | |b.prefixItems| <= i < |v.elements| ensures Accepts(d, b.items.value, v.elements[i]) {
        OneCarry(d, a.items, b.items, v.elements[i]);
      }
    }
    if b.contains.Some? {
      var i :| 0 <= i < |v.elements| && Accepts(d, a.contains.value, v.elements[i]);
      OneCarry(d, a.contains, b.contains, v.elements[i]);
    }
  }

  lemma LogicAlike(d: Dialect, a: Schema, b: Schema, v: Value)
    requires a.Node? && b.Node? && SameLogic(d, a, b) && LogicHolds(d, a, v)
    ensures LogicHolds(d, b, v)
  {
    forall i | 0 <= i < |b.allOf| ensures Accepts(d, b.allOf[i], v) {
      assert Alike(d, a.allOf[i], b.allOf[i]);
    }
    if a.oneOf.Choices? { AcceptingAlike(d, a.oneOf.schemas, b.oneOf.schemas, v); }
    if a.negation.Some? { OneCarry(d, a.negation, b.negation, v); }
    if a.condition.Some? { OneCarry(d, a.condition, b.condition, v); }
    if a.consequence.Some? { OneCarry(d, a.consequence, b.consequence, v); }
    if a.alternative.Some? { OneCarry(d, a.alternative, b.alternative, v); }
  }

  /** The list of types and its `anyOf` accept alike; everything else accepts alike by induction. */
  lemma {:induction false} ExpandAlike(d: Dialect, s: Schema)
    ensures Alike(d, Expand(s), Unshadowed(s))
    decreases s
  {
    match s
    case Anything(_) =>
    case Node(types, checks, data, properties, patterns, dependents, definitions, additional, names, prefix, items, contains, all, any, one, negated, cond, yes, no) =>
      var a, b := Expand(s), Unshadowed(s);
      NamedAlike(d, properties);
      NamedAlike(d, patterns);
      NamedAlike(d, dependents);
      OneAlike(d, additional);
      OneAlike(d, names);
      AllAlike(d, prefix);
      OneAlike(d, items);
      OneAlike(d, contains);
      AllAlike(d, all);
      if one.Choices? { AllAlike(d, one.schemas); }
      OneAlike(d, negated);
      OneAlike(d, cond);
      OneAlike(d, yes);
      OneAlike(d, no);
      if any.Choices? { AllAlike(d, any.schemas); }
      NodesAlike(d, s, a, b);
  }

  lemma SidesAlike(d: Dialect, a: Schema, b: Schema, v: Value)
    requires a.Node? && b.Node? && SameObjectRules(d, a, b) && SameArrayRules(d, a, b) && SameLogic(d, a, b)
    ensures LogicHolds(d, a, v) ==> LogicHolds(d, b, v)
    ensures v.VObject? && ObjectHolds(d, a, v) ==> ObjectHolds(d, b, v)
    ensures v.VArray? && ArrayHolds(d, a, v) ==> ArrayHolds(d, b, v)
  {
    if LogicHolds(d, a, v) { LogicAlike(d, a, b, v); }
    if v.VObject? && ObjectHolds(d, a, v) { ObjectAlike(d, a, b, v); }
    if v.VArray? && ArrayHolds(d, a, v) { ArrayAlike(d, a, b, v); }
  }

  lemma NodesAlike(d: Dialect, s: Schema, a: Schema, b: Schema)
    requires s.Node? && a == Expand(s) && b == Unshadowed(s)
    requires SameObjectRules(d, a, b) && SameArrayRules(d, a, b) && SameLogic(d, a, b)
    requires s.types.TypeList? || AlikeAny(d, a.anyOf, b.anyOf)
    ensures Alike(d, a, b)
  {
    forall v ensures Accepts(d, a, v) <==> Accepts(d, b, v) {
      AcceptsParts(d, a, v);
      AcceptsParts(d, b, v);
      Flip(d, a, b);
      SidesAlike(d, a, b, v);
      SidesAlike(d, b, a, v);
      if s.types.TypeList? {
        TypesAsChoices(d, s.types.names, v);
      } else if a.anyOf.Choices? {
        AcceptingAlike(d, a.anyOf.schemas, b.anyOf.schemas, v);
      }
    }
  }

  lemma {:induction false} OneAlike(d: Dialect, s: Option<Schema>)
    ensures AlikeOne(d, ExpandOne(s), UnshadowedOne(s))
    decreases s
  {
    if s.Some? { ExpandAlike(d, s.value); }
  }

  lemma {:induction false} AllAlike(d: Dialect, schemas: seq<Schema>)
    ensures AlikeAll(d, ExpandAll(schemas), UnshadowedAll(schemas))
    decreases schemas
  {
    if schemas != [] {
      ExpandAlike(d, schemas[0]);
      AllAlike(d, schemas[1..]);
    }
  }

  lemma {:induction false} NamedAlike(d: Dialect, schemas: seq<Named>)
    ensures AlikeNamed(d, ExpandNamed(schemas), UnshadowedNamed(schemas))
    decreases schemas
  {
    if schemas != [] {
      ExpandAlike(d, schemas[0].schema);
      NamedAlike(d, schemas[1..]);
    }
  }

  // ------------------------------------------------------------------- theorems

  /** Nowhere does an `anyOf` stand beside a list of types. */
  predicate Separate(s: Schema)
    decreases s
  {
    match s
    case Anything(_) => true
    case Node(types, checks, data, properties, patterns, dependents, definitions, additional, names, prefix, items, contains, all, any, one, negated, cond, yes, no) =>
      && !(types.TypeList? && any.Choices?)
      && SeparateNamed(properties) && SeparateNamed(patterns) && SeparateNamed(dependents) && SeparateNamed(definitions)
      && SeparateOne(additional) && SeparateOne(names) && SeparateAll(prefix) && SeparateOne(items) && SeparateOne(contains)
      && SeparateAll(all) && SeparateChoices(any) && SeparateChoices(one)
      && SeparateOne(negated) && SeparateOne(cond) && SeparateOne(yes) && SeparateOne(no)
  }

  predicate SeparateOne(s: Option<Schema>)
    decreases s
  {
    s.Some? ==> Separate(s.value)
  }

  predicate SeparateChoices(c: Choices)
    decreases c
  {
    c.Choices? ==> SeparateAll(c.schemas)
  }

  predicate SeparateAll(schemas: seq<Schema>)
    decreases schemas
  {
    schemas == [] || (Separate(schemas[0]) && SeparateAll(schemas[1..]))
  }

  predicate SeparateNamed(schemas: seq<Named>)
    decreases schemas
  {
    schemas == [] || (Separate(schemas[0].schema) && SeparateNamed(schemas[1..]))
  }

  /** Nothing is forgotten exactly when nothing was beside a list of types. */
  lemma {:induction false} SeparateIsUnshadowed(s: Schema)
    ensures Separate(s) <==> Unshadowed(s) == s
    decreases s
  {
    match s
    case Anything(_) =>
    case Node(types, checks, data, properties, patterns, dependents, definitions, additional, names, prefix, items, contains, all, any, one, negated, cond, yes, no) =>
      SeparateIsNamed(properties);
      SeparateIsNamed(patterns);
      SeparateIsNamed(dependents);
      SeparateIsNamed(definitions);
      SeparateIsOne(additional);
      SeparateIsOne(names);
      SeparateIsAll(prefix);
      SeparateIsOne(items);
      SeparateIsOne(contains);
      SeparateIsAll(all);
      SeparateIsChoices(any);
      SeparateIsChoices(one);
      SeparateIsOne(negated);
      SeparateIsOne(cond);
      SeparateIsOne(yes);
      SeparateIsOne(no);
  }

  lemma {:induction false} SeparateIsOne(s: Option<Schema>)
    ensures SeparateOne(s) <==> UnshadowedOne(s) == s
    decreases s
  {
    if s.Some? { SeparateIsUnshadowed(s.value); }
  }

  lemma {:induction false} SeparateIsChoices(c: Choices)
    ensures SeparateChoices(c) <==> UnshadowedChoices(c) == c
    decreases c
  {
    if c.Choices? { SeparateIsAll(c.schemas); }
  }

  lemma SameCons<T>(x: T, xs: seq<T>, all: seq<T>)
    requires all != []
    ensures [x] + xs == all <==> x == all[0] && xs == all[1..]
  {
    assert xs == ([x] + xs)[1..] && all == [all[0]] + all[1..];
  }

  lemma {:induction false} SeparateIsAll(schemas: seq<Schema>)
    ensures SeparateAll(schemas) <==> UnshadowedAll(schemas) == schemas
    decreases schemas
  {
    if schemas != [] {
      SeparateIsUnshadowed(schemas[0]);
      SeparateIsAll(schemas[1..]);
      SameCons(Unshadowed(schemas[0]), UnshadowedAll(schemas[1..]), schemas);
    }
  }

  lemma {:induction false} SeparateIsNamed(schemas: seq<Named>)
    ensures SeparateNamed(schemas) <==> UnshadowedNamed(schemas) == schemas
    decreases schemas
  {
    if schemas != [] {
      SeparateIsUnshadowed(schemas[0].schema);
      SeparateIsNamed(schemas[1..]);
      SameCons(Named(schemas[0].name, Unshadowed(schemas[0].schema)), UnshadowedNamed(schemas[1..]), schemas);
    }
  }

  /** The rewritten schema accepts what the schema accepts, for every schema with no `anyOf` beside a list of types. */
  lemma ExpansionPreservesAcceptance(d: Dialect, s: Schema, v: Value)
    ensures Accepts(d, Expand(s), v) <==> Accepts(d, Unshadowed(s), v)
    ensures Separate(s) ==> (Accepts(d, Expand(s), v) <==> Accepts(d, s, v))
  {
    ExpandAlike(d, s);
    SeparateIsUnshadowed(s);
  }

  /** A schema that says `["string", "null"]` beside an `anyOf` of null alone. */
  function Shadowing(): Schema {
    Node(TypeList([TString, TNull]), [], [], [], [], [], [], None, None, [], None, None, [], Choices([OfType(TNull)]), NoChoices, None, None, None, None)
  }

  /** Beside a list of types an `anyOf` is lost: what it refused is accepted. */
  lemma AnAnyOfBesideTypesIsLost(d: Dialect)
    ensures !Accepts(d, Shadowing(), VString("text")) && Accepts(d, Expand(Shadowing()), VString("text"))
  {
    var v := VString("text");
    AcceptsParts(d, Shadowing(), v);
    assert Accepting(d, [OfType(TNull)], v) == 0 by { assert [OfType(TNull)][1..] == []; }
    AcceptsParts(d, Expand(Shadowing()), v);
    TypesAsChoices(d, [TString, TNull], v);
    assert IsOf(v, [TString, TNull][0]);
  }

  /** No list of types is left anywhere the rewrite goes. */
  predicate NoLists(s: Schema)
    decreases s
  {
    match s
    case Anything(_) => true
    case Node(types, checks, data, properties, patterns, dependents, definitions, additional, names, prefix, items, contains, all, any, one, negated, cond, yes, no) =>
      && !types.TypeList?
      && NoListsNamed(properties) && NoListsNamed(patterns) && NoListsNamed(dependents) && NoListsNamed(definitions)
      && NoListsOne(additional) && NoListsOne(names) && NoListsAll(prefix) && NoListsOne(items) && NoListsOne(contains)
      && NoListsAll(all) && NoListsChoices(any) && NoListsChoices(one)
      && NoListsOne(negated) && NoListsOne(cond) && NoListsOne(yes) && NoListsOne(no)
  }

  predicate NoListsOne(s: Option<Schema>)
    decreases s
  {
    s.Some? ==> NoLists(s.value)
  }

  predicate NoListsChoices(c: Choices)
    decreases c
  {
    c.Choices? ==> NoListsAll(c.schemas)
  }

  predicate NoListsAll(schemas: seq<Schema>)
    decreases schemas
  {
    schemas == [] || (NoLists(schemas[0]) && NoListsAll(schemas[1..]))
  }

  predicate NoListsNamed(schemas: seq<Named>)
    decreases schemas
  {
    schemas == [] || (NoLists(schemas[0].schema) && NoListsNamed(schemas[1..]))
  }

  lemma {:induction false} OfTypesNoLists(names: seq<TypeName>)
    ensures NoListsAll(OfTypes(names))
  {
    if names != [] {
      OfTypesNoLists(names[1..]);
      assert OfTypes(names)[1..] == OfTypes(names[1..]);
    }
  }

  lemma {:induction false} ExpansionLeavesNoLists(s: Schema)
    ensures NoLists(Expand(s))
    decreases s
  {
    match s
    case Anything(_) =>
    case Node(types, checks, data, properties, patterns, dependents, definitions, additional, names, prefix, items, contains, all, any, one, negated, cond, yes, no) =>
      NamedNoLists(properties);
      NamedNoLists(patterns);
      NamedNoLists(dependents);
      NamedNoLists(definitions);
      OneNoLists(additional);
      OneNoLists(names);
      AllNoLists(prefix);
      OneNoLists(items);
      OneNoLists(contains);
      AllNoLists(all);
      if types.TypeList? { OfTypesNoLists(types.names); } else { ChoicesNoLists(any); }
      ChoicesNoLists(one);
      OneNoLists(negated);
      OneNoLists(cond);
      OneNoLists(yes);
      OneNoLists(no);
  }

  lemma {:induction false} OneNoLists(s: Option<Schema>)
    ensures NoListsOne(ExpandOne(s))
    decreases s
  {
    if s.Some? { ExpansionLeavesNoLists(s.value); }
  }

  lemma {:induction false} ChoicesNoLists(c: Choices)
    ensures NoListsChoices(ExpandChoices(c))
    decreases c
  {
    if c.Choices? { AllNoLists(c.schemas); }
  }

  lemma {:induction false} AllNoLists(schemas: seq<Schema>)
    ensures NoListsAll(ExpandAll(schemas))
    decreases schemas
  {
    if schemas != [] {
      ExpansionLeavesNoLists(schemas[0]);
      AllNoLists(schemas[1..]);
    }
  }

  lemma {:induction false} NamedNoLists(schemas: seq<Named>)
    ensures NoListsNamed(ExpandNamed(schemas))
    decreases schemas
  {
    if schemas != [] {
      ExpansionLeavesNoLists(schemas[0].schema);
      NamedNoLists(schemas[1..]);
    }
  }

  /** A schema without lists of types is left as it is. */
  lemma {:induction false} NothingToExpand(s: Schema)
    requires NoLists(s)
    ensures Expand(s) == s
    decreases s
  {
    match s
    case Anything(_) =>
    case Node(types, checks, data, properties, patterns, dependents, definitions, additional, names, prefix, items, contains, all, any, one, negated, cond, yes, no) =>
      NothingInNamed(properties);
      NothingInNamed(patterns);
      NothingInNamed(dependents);
      NothingInNamed(definitions);
      NothingInOne(additional);
      NothingInOne(names);
      NothingInAll(prefix);
      NothingInOne(items);
      NothingInOne(contains);
      NothingInAll(all);
      NothingInChoices(any);
      NothingInChoices(one);
      NothingInOne(negated);
      NothingInOne(cond);
      NothingInOne(yes);
      NothingInOne(no);
  }

  lemma {:induction false} NothingInOne(s: Option<Schema>)
    requires NoListsOne(s)
    ensures ExpandOne(s) == s
    decreases s
  {
    if s.Some? { NothingToExpand(s.value); }
  }

  lemma {:induction false} NothingInChoices(c: Choices)
    requires NoListsChoices(c)
    ensures ExpandChoices(c) == c
    decreases c
  {
    if c.Choices? { NothingInAll(c.schemas); }
  }

  lemma {:induction false} NothingInAll(schemas: seq<Schema>)
    requires NoListsAll(schemas)
    ensures ExpandAll(schemas) == schemas
    decreases schemas
  {
    if schemas != [] {
      NothingToExpand(schemas[0]);
      NothingInAll(schemas[1..]);
      assert schemas == [schemas[0]] + schemas[1..];
    }
  }

  lemma {:induction false} NothingInNamed(schemas: seq<Named>)
    requires NoListsNamed(schemas)
    ensures ExpandNamed(schemas) == schemas
    decreases schemas
  {
    if schemas != [] {
      NothingToExpand(schemas[0].schema);
      NothingInNamed(schemas[1..]);
      assert schemas == [schemas[0]] + schemas[1..];
    }
  }

  /** Rewriting twice is rewriting once. */
  lemma ExpandingTwiceIsOnce(s: Schema)
    ensures Expand(Expand(s)) == Expand(s) && NoLists(Expand(s))
  {
    ExpansionLeavesNoLists(s);
    NothingToExpand(Expand(s));
  }

  // ------------------------------------------------------------- data stays data

  /** The defaults, examples and checks of a schema, node by node in the order they are visited. */
  datatype Kept = Kept(data: seq<Value>, checks: seq<Check>)

  function Keeps(s: Schema): seq<Kept>
    decreases s
  {
    match s
    case Anything(_) => []
    case Node(types, checks, data, properties, patterns, dependents, definitions, additional, names, prefix, items, contains, all, any, one, negated, cond, yes, no) =>
      (if data == [] && checks == [] then [] else [Kept(data, checks)])
      + KeepsNamed(properties) + KeepsNamed(patterns) + KeepsNamed(dependents) + KeepsNamed(definitions)
      + KeepsOne(additional) + KeepsOne(names) + KeepsAll(prefix) + KeepsOne(items) + KeepsOne(contains)
      + KeepsAll(all) + KeepsChoices(any) + KeepsChoices(one)
      + KeepsOne(negated) + KeepsOne(cond) + KeepsOne(yes) + KeepsOne(no)
  }

  function KeepsOne(s: Option<Schema>): seq<Kept>
    decreases s
  {
    if s.None? then [] else Keeps(s.value)
  }

  function KeepsChoices(c: Choices): seq<Kept>
    decreases c
  {
    if c.NoChoices? then [] else KeepsAll(c.schemas)
  }

  function KeepsAll(schemas: seq<Schema>): seq<Kept>
    decreases schemas
  {
    if schemas == [] then [] else Keeps(schemas[0]) + KeepsAll(schemas[1..])
  }

  function KeepsNamed(schemas: seq<Named>): seq<Kept>
    decreases schemas
  {
    if schemas == [] then [] else Keeps(schemas[0].schema) + KeepsNamed(schemas[1..])
  }

  lemma {:induction false} OfTypesKeepNothing(names: seq<TypeName>)
    ensures KeepsAll(OfTypes(names)) == []
  {
    if names != [] {
      OfTypesKeepNothing(names[1..]);
      assert OfTypes(names)[1..] == OfTypes(names[1..]);
      assert Keeps(OfType(names[0])) == [];
    }
  }

  /** The rewrite copies every default, example and check as it is, and adds none; only an overwritten `anyOf` takes its own along. */
  lemma {:induction false} ExpansionKeepsData(s: Schema)
    ensures Keeps(Expand(s)) == Keeps(Unshadowed(s))
    decreases s
  {
    match s
    case Anything(_) =>
    case Node(types, checks, data, properties, patterns, dependents, definitions, additional, names, prefix, items, contains, all, any, one, negated, cond, yes, no) =>
      KeepsSameNamed(properties);
      KeepsSameNamed(patterns);
      KeepsSameNamed(dependents);
      KeepsSameNamed(definitions);
      KeepsSameOne(additional);
      KeepsSameOne(names);
      KeepsSameAll(prefix);
      KeepsSameOne(items);
      KeepsSameOne(contains);
      KeepsSameAll(all);
      if types.TypeList? { OfTypesKeepNothing(types.names); } else { KeepsSameChoices(any); }
      KeepsSameChoices(one);
      KeepsSameOne(negated);
      KeepsSameOne(cond);
      KeepsSameOne(yes);
      KeepsSameOne(no);
  }

  lemma {:induction false} KeepsSameOne(s: Option<Schema>)
    ensures KeepsOne(ExpandOne(s)) == KeepsOne(UnshadowedOne(s))
    decreases s
  {
    if s.Some? { ExpansionKeepsData(s.value); }
  }

  lemma {:induction false} KeepsSameChoices(c: Choices)
    ensures KeepsChoices(ExpandChoices(c)) == KeepsChoices(UnshadowedChoices(c))
    decreases c
  {
    if c.Choices? { KeepsSameAll(c.schemas); }
  }

  lemma {:induction false} KeepsSameAll(schemas: seq<Schema>)
    ensures KeepsAll(ExpandAll(schemas)) == KeepsAll(UnshadowedAll(schemas))
    decreases schemas
  {
    if schemas != [] {
      ExpansionKeepsData(schemas[0]);
      KeepsSameAll(schemas[1..]);
    }
  }

  lemma {:induction false} KeepsSameNamed(schemas: seq<Named>)
    ensures KeepsNamed(ExpandNamed(schemas)) == KeepsNamed(UnshadowedNamed(schemas))
    decreases schemas
  {
    if schemas != [] {
      ExpansionKeepsData(schemas[0].schema);
      KeepsSameNamed(schemas[1..]);
    }
  }
}
