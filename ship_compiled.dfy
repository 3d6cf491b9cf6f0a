/** The ship's compiled data: component groups, each holding component types,
    each holding components, flattened into (type name, component) pairs
    (ParseShipCompiled and ParseShipComponents in
    src/StarCitizenAPIWrapper.Library/StarCitizenClient.cs). */
module ShipCompiled {
  import opened Wrappers
  import opened JsonValue
  import opened EnumNames
  import opened Ships
  import opened Collect

  datatype RsiShipComponent = RsiShipComponent(
    name: Option<string>,
    componentClass: Option<string>,
    details: Option<string>,
    manufacturer: Option<string>,
    size: Option<string>,
    componentType: Option<string>,
    mounts: int,
    quantity: int)

  /** A component keyed by the name of the type it was listed under. */
  type Entry = (string, RsiShipComponent)

  /** One component. Indexing a property or a non-object throws; `mounts`
      and `quantity` are dereferenced without a null check. `coerceInt` is
      the engine's safe integer parse. */
  function ParseComponent(c: Child, coerceInt: Option<string> -> int): (r: Outcome<RsiShipComponent>)
    ensures r.Success? <==>
      c.Elem? && c.value.Obj? && Lookup(c.value.props, "mounts").Some? && Lookup(c.value.props, "quantity").Some?
    ensures r.Failure? ==> r.error == (if c.Elem? && c.value.Obj? then NullReference else InvalidKeyAccess)
    ensures r.Success? ==>
      r.value == RsiShipComponent(
        TextOf(Lookup(c.value.props, "name")),
        TextOf(Lookup(c.value.props, "component_class")),
        TextOf(Lookup(c.value.props, "details")),
        TextOf(Lookup(c.value.props, "manufacturer")),
        TextOf(Lookup(c.value.props, "size")),
        TextOf(Lookup(c.value.props, "type")),
        coerceInt(Some(Text(Lookup(c.value.props, "mounts").value))),
        coerceInt(Some(Text(Lookup(c.value.props, "quantity").value))))
  {
    match c
    case Elem(Obj(props)) =>
      var mounts := Lookup(props, "mounts");
      var quantity := Lookup(props, "quantity");
      if mounts.None? || quantity.None? then Failure(NullReference)
      else Success(RsiShipComponent(
        TextOf(Lookup(props, "name")),
        TextOf(Lookup(props, "component_class")),
        TextOf(Lookup(props, "details")),
        TextOf(Lookup(props, "manufacturer")),
        TextOf(Lookup(props, "size")),
        TextOf(Lookup(props, "type")),
        coerceInt(Some(Text(mounts.value))),
        coerceInt(Some(Text(quantity.value)))))
    case _ => Failure(InvalidKeyAccess)
  }

  /** The components listed under one type, in order, each keyed by the type's name. */
  function TypeComponents(typeName: string, comps: seq<Child>, coerceInt: Option<string> -> int): Outcome<seq<Entry>>
    decreases |comps|
  {
    if comps == [] then Success([])
    else
      var acc :- TypeComponents(typeName, comps[..|comps| - 1], coerceInt);
      var c :- ParseComponent(comps[|comps| - 1], coerceInt);
      Success(acc + [(typeName, c)])
  }

  /** The type's components all parse exactly when its list is built; it
      then holds each component's parse, in order. */
  lemma {:induction false} TypeComponentsParsed(typeName: string, comps: seq<Child>, coerceInt: Option<string> -> int)
    ensures TypeComponents(typeName, comps, coerceInt).Success?
      <==> forall k :: 0 <= k < |comps| ==> ParseComponent(comps[k], coerceInt).Success?
    ensures TypeComponents(typeName, comps, coerceInt).Success? ==>
      var r := TypeComponents(typeName, comps, coerceInt).value;
      |r| == |comps| && forall k :: 0 <= k < |comps| ==> Success(r[k].1) == ParseComponent(comps[k], coerceInt)
    decreases |comps|
  {
    if comps != [] {
      var init, last := comps[..|comps| - 1], comps[|comps| - 1];
      TypeComponentsParsed(typeName, init, coerceInt);
      forall k | 0 <= k < |init| ensures init[k] == comps[k] {}
      match TypeComponents(typeName, init, coerceInt)
      case Failure(_) =>
        var k :| 0 <= k < |init| && !ParseComponent(init[k], coerceInt).Success?;
        assert !ParseComponent(comps[k], coerceInt).Success?;
      case Success(acc) =>
        match ParseComponent(last, coerceInt)
        case Failure(_) =>
          assert !ParseComponent(comps[|comps| - 1], coerceInt).Success?;
        case Success(c) =>
          var r := TypeComponents(typeName, comps, coerceInt).value;
          assert r == acc + [(typeName, c)];
          forall k | 0 <= k < |comps| ensures Success(r[k].1) == ParseComponent(comps[k], coerceInt) {
            if k < |init| { assert r[k] == acc[k]; } else { assert r[k] == (typeName, c); }
          }
    }
  }

  /** A built list holds one pair per component, each keyed by the type's name. */
  lemma {:induction false} TypeComponentsKeys(typeName: string, comps: seq<Child>, coerceInt: Option<string> -> int)
    requires TypeComponents(typeName, comps, coerceInt).Success?
    ensures |TypeComponents(typeName, comps, coerceInt).value| == |comps|
    ensures forall e :: e in TypeComponents(typeName, comps, coerceInt).value ==> e.0 == typeName
    decreases |comps|
  {
    if comps != [] {
      var init := comps[..|comps| - 1];
      TypeComponentsKeys(typeName, init, coerceInt);
    }
  }

  /** One component type. A type given as an array element rather than as a
      property has no name to key by; it is treated as failing. */
  function TypeEntries(t: Child, coerceInt: Option<string> -> int): Outcome<seq<Entry>> {
    match t
    case Elem(_) => Failure(NullReference)
    case Prop(name, value) => TypeComponents(name, Children(value), coerceInt)
  }

  /** `TypeEntries` as a function of the type alone. */
  function TypeEntriesOf(coerceInt: Option<string> -> int): Child -> Outcome<seq<Entry>> {
    t => TypeEntries(t, coerceInt)
  }

  /** Every type's components, types in order and components in order
      within each type; the first type that fails stops the whole. */
  function ComponentsOf(types: seq<Child>, coerceInt: Option<string> -> int): Outcome<seq<Entry>> {
    FlatMapAll(types, TypeEntriesOf(coerceInt))
  }

  /** How many components the types list, in total. */
  function ComponentCount(types: seq<Child>): nat
    decreases |types|
  {
    if types == [] then 0
    else
      var last := types[|types| - 1];
      ComponentCount(types[..|types| - 1]) + (if last.Prop? then |Children(last.value)| else 0)
  }

  /** A failure on a prefix is the failure of the whole: parsing stops at the
      first throw. */
  lemma {:induction false} ComponentsOfStopsAtFailure(types: seq<Child>, n: nat, coerceInt: Option<string> -> int)
    requires n <= |types| && ComponentsOf(types[..n], coerceInt).Failure?
    ensures ComponentsOf(types, coerceInt) == ComponentsOf(types[..n], coerceInt)
    decreases |types| - n
  {
    if n < |types| {
      var init := types[..|types| - 1];
      assert init[..n] == types[..n];
      ComponentsOfStopsAtFailure(init, n, coerceInt);
    } else {
      assert types[..n] == types;
    }
  }

  lemma {:induction false} TypeComponentsStopsAtFailure(typeName: string, comps: seq<Child>, n: nat, coerceInt: Option<string> -> int)
    requires n <= |comps| && TypeComponents(typeName, comps[..n], coerceInt).Failure?
    ensures TypeComponents(typeName, comps, coerceInt) == TypeComponents(typeName, comps[..n], coerceInt)
    decreases |comps| - n
  {
    if n < |comps| {
      var init := comps[..|comps| - 1];
      assert init[..n] == comps[..n];
      TypeComponentsStopsAtFailure(typeName, init, n, coerceInt);
    } else {
      assert comps[..n] == comps;
    }
  }

  /** The names of the types listed as properties. */
  function TypeNames(types: seq<Child>): set<string> {
    set i | 0 <= i < |types| && types[i].Prop? :: types[i].name
  }

  lemma TypeNamesSnoc(types: seq<Child>)
    requires types != [] && types[|types| - 1].Prop?
    ensures TypeNames(types) == TypeNames(types[..|types| - 1]) + {types[|types| - 1].name}
  {
    var init := types[..|types| - 1];
    forall i | 0 <= i < |init| ensures types[i] == init[i] {}
  }

  /** The success of the whole is the success of every type, appended in order. */
  lemma ComponentsOfSnoc(types: seq<Child>, coerceInt: Option<string> -> int)
    requires types != [] && ComponentsOf(types, coerceInt).Success?
    ensures types[|types| - 1].Prop?
    ensures ComponentsOf(types[..|types| - 1], coerceInt).Success?
    ensures TypeEntries(types[|types| - 1], coerceInt).Success?
    ensures ComponentsOf(types, coerceInt).value
      == ComponentsOf(types[..|types| - 1], coerceInt).value + TypeEntries(types[|types| - 1], coerceInt).value
  {
  }

  /** On success there is one pair per listed component. */
  lemma {:induction false} ComponentsCount(types: seq<Child>, coerceInt: Option<string> -> int)
    requires ComponentsOf(types, coerceInt).Success?
    ensures |ComponentsOf(types, coerceInt).value| == ComponentCount(types)
    decreases |types|
  {
    if types != [] {
      var init, last := types[..|types| - 1], types[|types| - 1];
      ComponentsOfSnoc(types, coerceInt);
      ComponentsCount(init, coerceInt);
      TypeComponentsKeys(last.name, Children(last.value), coerceInt);
    }
  }

  /** On success there is one pair per listed component, and every pair is
      keyed by the name of a type that encloses it. */
  lemma {:induction false} ComponentsShape(types: seq<Child>, coerceInt: Option<string> -> int)
    requires ComponentsOf(types, coerceInt).Success?
    ensures |ComponentsOf(types, coerceInt).value| == ComponentCount(types)
    ensures forall e :: e in ComponentsOf(types, coerceInt).value ==> e.0 in TypeNames(types)
    decreases |types|
  {
    ComponentsCount(types, coerceInt);
    if types != [] {
      var init, last := types[..|types| - 1], types[|types| - 1];
      ComponentsOfSnoc(types, coerceInt);
      ComponentsShape(init, coerceInt);
      TypeComponentsKeys(last.name, Children(last.value), coerceInt);
      TypeNamesSnoc(types);
    }
  }

  /** On success, component j of one type is the parse of the j-th listed
      component, keyed by the type's name. */
  lemma TypeComponentsAt(typeName: string, comps: seq<Child>, j: nat, coerceInt: Option<string> -> int)
    requires TypeComponents(typeName, comps, coerceInt).Success? && j < |comps|
    ensures ParseComponent(comps[j], coerceInt).Success?
    ensures j < |TypeComponents(typeName, comps, coerceInt).value|
    ensures TypeComponents(typeName, comps, coerceInt).value[j] == (typeName, ParseComponent(comps[j], coerceInt).value)
  {
    TypeComponentsParsed(typeName, comps, coerceInt);
    TypeComponentsKeys(typeName, comps, coerceInt);
    var r := TypeComponents(typeName, comps, coerceInt).value;
    assert r[j] in r;
  }

  /** Applying `TypeEntriesOf` is calling `TypeEntries`. */
  lemma TypeEntriesOfApplies(t: Child, coerceInt: Option<string> -> int)
    ensures TypeEntriesOf(coerceInt)(t) == TypeEntries(t, coerceInt)
  {
  }

  /** On success, entry j of a type's list is the parse of its j-th
      listed component, keyed by the type's name. */
  lemma TypeEntriesAt(t: Child, j: nat, coerceInt: Option<string> -> int)
    requires TypeEntriesOf(coerceInt)(t).Success?
    ensures t.Prop?
    ensures j < |Children(t.value)| ==>
      && j < |TypeEntriesOf(coerceInt)(t).value|
      && ParseComponent(Children(t.value)[j], coerceInt).Success?
      && TypeEntriesOf(coerceInt)(t).value[j] == (t.name, ParseComponent(Children(t.value)[j], coerceInt).value)
  {
    TypeEntriesOfApplies(t, coerceInt);
    if j < |Children(t.value)| {
      TypeComponentsAt(t.name, Children(t.value), j, coerceInt);
    }
  }

  /** The two lemmas below speak of `FlatMapAll(types, TypeEntriesOf(coerceInt))`,
      which is `ComponentsOf(types, coerceInt)` unfolded.

      On success, the types before i yield one pair per component they list. */
  lemma PrefixCount(types: seq<Child>, i: nat, coerceInt: Option<string> -> int)
    requires FlatMapAll(types, TypeEntriesOf(coerceInt)).Success? && i < |types|
    ensures FlatMapAll(types[..i], TypeEntriesOf(coerceInt)).Success?
    ensures |FlatMapAll(types[..i], TypeEntriesOf(coerceInt)).value| == ComponentCount(types[..i])
  {
    FlatMapAllAt(types, i, 0, TypeEntriesOf(coerceInt));
    ComponentsCount(types[..i], coerceInt);
  }

  /** On success, component j of type i sits right after the pairs built
      for the types before i (PrefixCount: as many as they list components),
      at offset j, keyed by the name of its own type: types in order,
      components in order within each type. */
  lemma ComponentsAt(types: seq<Child>, i: nat, j: nat, coerceInt: Option<string> -> int)
    requires FlatMapAll(types, TypeEntriesOf(coerceInt)).Success?
    requires i < |types| && j < |Children(types[i].value)|
    ensures types[i].Prop?
    ensures ParseComponent(Children(types[i].value)[j], coerceInt).Success?
    ensures FlatMapAll(types[..i], TypeEntriesOf(coerceInt)).Success?
    ensures |FlatMapAll(types[..i], TypeEntriesOf(coerceInt)).value| + j < |FlatMapAll(types, TypeEntriesOf(coerceInt)).value|
    ensures FlatMapAll(types, TypeEntriesOf(coerceInt)).value[|FlatMapAll(types[..i], TypeEntriesOf(coerceInt)).value| + j]
      == (types[i].name, ParseComponent(Children(types[i].value)[j], coerceInt).value)
  {
    FlatMapAllAt(types, i, j, TypeEntriesOf(coerceInt));
    TypeEntriesAt(types[i], j, coerceInt);
  }

  /** The flattened list is built exactly when every type builds its list. */
  lemma ComponentsSucceed(types: seq<Child>, coerceInt: Option<string> -> int)
    ensures ComponentsOf(types, coerceInt).Success?
      <==> forall i :: 0 <= i < |types| ==> TypeEntries(types[i], coerceInt).Success?
  {
    FlatMapAllSucceeds(types, TypeEntriesOf(coerceInt));
    forall i | 0 <= i < |types| ensures TypeEntriesOf(coerceInt)(types[i]) == TypeEntries(types[i], coerceInt) {
      TypeEntriesOfApplies(types[i], coerceInt);
    }
  }

  /** The inner loop of ParseShipComponents: the components of one type,
      each keyed by the type's name. */
  method ParseTypeComponents(componentType: string, componentsOfCurrentType: seq<Child>, coerceInt: Option<string> -> int)
    returns (r: Outcome<seq<Entry>>)
    ensures r == TypeComponents(componentType, componentsOfCurrentType, coerceInt)
  {
    var components: seq<Entry> := [];
    var j := 0;
    assert componentsOfCurrentType[..0] == [];
    while j < |componentsOfCurrentType|
      invariant 0 <= j <= |componentsOfCurrentType|
      invariant TypeComponents(componentType, componentsOfCurrentType[..j], coerceInt) == Success(components)
    {
      assert componentsOfCurrentType[..j + 1][..j] == componentsOfCurrentType[..j];
      var rsiComponent := ParseComponent(componentsOfCurrentType[j], coerceInt);
      if rsiComponent.Failure? {
        TypeComponentsStopsAtFailure(componentType, componentsOfCurrentType, j + 1, coerceInt);
        return Failure(rsiComponent.error);
      }
      components := components + [(componentType, rsiComponent.value)];
      j := j + 1;
    }
    assert componentsOfCurrentType[..j] == componentsOfCurrentType;
    return Success(components);
  }

  /** The outer loop of ParseShipComponents: for each type, in order, its
      components are appended. */
  method ParseShipComponents(componentTypes: seq<Child>, coerceInt: Option<string> -> int) returns (r: Outcome<seq<Entry>>)
    ensures r == ComponentsOf(componentTypes, coerceInt)
  {
    var components: seq<Entry> := [];
    var i := 0;
    while i < |componentTypes|
      invariant 0 <= i <= |componentTypes|
      invariant ComponentsOf(componentTypes[..i], coerceInt) == Success(components)
    {
      assert componentTypes[..i + 1][..i] == componentTypes[..i];
      var componentTypeJson := componentTypes[i];
      if componentTypeJson.Elem? {
        ComponentsOfStopsAtFailure(componentTypes, i + 1, coerceInt);
        return Failure(NullReference);
      }
      var ofType := ParseTypeComponents(componentTypeJson.name, Children(componentTypeJson.value), coerceInt);
      if ofType.Failure? {
        ComponentsOfStopsAtFailure(componentTypes, i + 1, coerceInt);
        return Failure(ofType.error);
      }
      components := components + ofType.value;
      i := i + 1;
    }
    assert componentTypes[..i] == componentTypes;
    return Success(components);
  }

  type CompiledGroup = (ShipCompiledClasses, seq<Entry>)

  /** One group: a property whose name must be a `ShipCompiledClasses`
      member (a case-sensitive `Enum.Parse`, which throws otherwise) and
      whose value lists the component types. */
  function CompiledEntry(g: Child, coerceInt: Option<string> -> int): (r: Outcome<CompiledGroup>)
    ensures g.Elem? ==> r == Failure(NullReference)
    ensures g.Prop? && (forall c :: ShipCompiledClassName(c) != g.name) ==> r == Failure(UnknownEnumName(g.name))
    ensures r.Success? ==>
      g.Prop? && ShipCompiledClassName(r.value.0) == g.name
      && ComponentsOf(Children(g.value), coerceInt) == Success(r.value.1)
  {
    match g
    case Elem(_) => Failure(NullReference)
    case Prop(name, value) =>
      match TryParse(AllShipCompiledClasses, ShipCompiledClassName, Some(name), false)
      case None => Failure(UnknownEnumName(name))
      case Some(shipComponentClass) =>
        var components :- ComponentsOf(Children(value), coerceInt);
        Success((shipComponentClass, components))
  }

  /** A group named after a class is built exactly when its components
      are, and a failure among its components is the group's failure. */
  lemma CompiledEntryOfClass(g: Child, coerceInt: Option<string> -> int)
    requires g.Prop? && exists c :: ShipCompiledClassName(c) == g.name
    ensures CompiledEntry(g, coerceInt).Success? <==> ComponentsOf(Children(g.value), coerceInt).Success?
    ensures ComponentsOf(Children(g.value), coerceInt).Failure? ==>
      CompiledEntry(g, coerceInt) == Failure(ComponentsOf(Children(g.value), coerceInt).error)
  {
    var c :| ShipCompiledClassName(c) == g.name;
    ShipCompiledClassNamesUnambiguous();
    var k := match c
      case RSIAvionic => 0 case RSIModular => 1 case RSIPropulsion => 2 case RSIThruster => 3 case RSIWeapon => 4;
    assert AllShipCompiledClasses[k] == c;
    assert NameMatches(ShipCompiledClassName(AllShipCompiledClasses[k]), g.name, false);
  }

  /** `CompiledEntry` as a function of the group alone. */
  function CompiledEntryOf(coerceInt: Option<string> -> int): Child -> Outcome<CompiledGroup> {
    g => CompiledEntry(g, coerceInt)
  }

  /** Applying `CompiledEntryOf` is calling `CompiledEntry`. */
  lemma CompiledEntryOfApplies(g: Child, coerceInt: Option<string> -> int)
    ensures CompiledEntryOf(coerceInt)(g) == CompiledEntry(g, coerceInt)
  {
  }

  /** Every group, in order; the first group that fails stops the whole. */
  function CompiledOf(groups: seq<Child>, coerceInt: Option<string> -> int): Outcome<seq<CompiledGroup>> {
    MapAll(groups, CompiledEntryOf(coerceInt))
  }

  /** The transform for `Compiled`: a missing token throws; a scalar has no
      groups. */
  function Compiled(current: Option<Json>, coerceInt: Option<string> -> int): Outcome<seq<CompiledGroup>> {
    match current
    case None => Failure(NullReference)
    case Some(j) => CompiledOf(Children(j), coerceInt)
  }

  /** A failure among the first n groups is the failure of the whole. */
  lemma CompiledOfStopsAtFailure(groups: seq<Child>, n: nat, coerceInt: Option<string> -> int)
    requires n <= |groups| && CompiledOf(groups[..n], coerceInt).Failure?
    ensures CompiledOf(groups, coerceInt) == CompiledOf(groups[..n], coerceInt)
  {
    MapAllFailedPrefix(groups[..n], groups[n..], CompiledEntryOf(coerceInt));
    CutJoin(groups, n);
  }

  /** The groups' list is built exactly when every group is built, and
      otherwise fails with the first failing group's fault. */
  lemma CompiledSucceeds(groups: seq<Child>, coerceInt: Option<string> -> int)
    ensures CompiledOf(groups, coerceInt).Success?
      <==> forall i :: 0 <= i < |groups| ==> CompiledEntry(groups[i], coerceInt).Success?
    ensures CompiledOf(groups, coerceInt).Failure? ==>
      exists i :: 0 <= i < |groups| && CompiledEntry(groups[i], coerceInt) == Failure(CompiledOf(groups, coerceInt).error)
        && forall j :: 0 <= j < i ==> CompiledEntry(groups[j], coerceInt).Success?
  {
    forall i | 0 <= i < |groups| ensures CompiledEntryOf(coerceInt)(groups[i]) == CompiledEntry(groups[i], coerceInt) {
      CompiledEntryOfApplies(groups[i], coerceInt);
    }
  }

  /** An entry built from a group: the group's class, named exactly as the
      group, with that group's flattened components. */
  predicate GroupGives(g: Child, e: CompiledGroup, coerceInt: Option<string> -> int) {
    g.Prop? && ShipCompiledClassName(e.0) == g.name
    && ComponentsOf(Children(g.value), coerceInt) == Success(e.1)
  }

  /** On success the entry at each position is built from the group there. */
  lemma CompiledAt(groups: seq<Child>, i: nat, coerceInt: Option<string> -> int)
    requires CompiledOf(groups, coerceInt).Success? && i < |groups|
    ensures |CompiledOf(groups, coerceInt).value| == |groups|
    ensures GroupGives(groups[i], CompiledOf(groups, coerceInt).value[i], coerceInt)
  {
    CompiledEntryOfApplies(groups[i], coerceInt);
  }

  /** On success there is one entry per group, in order, each built from its group. */
  lemma CompiledShape(groups: seq<Child>, coerceInt: Option<string> -> int)
    requires CompiledOf(groups, coerceInt).Success?
    ensures |CompiledOf(groups, coerceInt).value| == |groups|
    ensures forall i :: 0 <= i < |groups| ==> GroupGives(groups[i], CompiledOf(groups, coerceInt).value[i], coerceInt)
  {
    forall i | 0 <= i < |groups| ensures GroupGives(groups[i], CompiledOf(groups, coerceInt).value[i], coerceInt) {
      CompiledAt(groups, i, coerceInt);
    }
  }

  /** A group whose name is no `ShipCompiledClasses` member makes the whole
      transform fail: there is no fallback class. */
  lemma UnknownGroupFails(groups: seq<Child>, i: nat, coerceInt: Option<string> -> int)
    requires i < |groups| && groups[i].Prop?
    requires forall c :: ShipCompiledClassName(c) != groups[i].name
    ensures CompiledOf(groups, coerceInt).Failure?
  {
    if CompiledOf(groups, coerceInt).Success? {
      CompiledAt(groups, i, coerceInt);
    }
  }

  /** One turn of the group loop: a built group extends the list, a failing
      group is the failure of the whole. */
  lemma CompiledStep(groups: seq<Child>, i: nat, compiled: seq<CompiledGroup>, coerceInt: Option<string> -> int)
    requires i < |groups| && CompiledOf(groups[..i], coerceInt) == Success(compiled)
    ensures CompiledEntry(groups[i], coerceInt).Success? ==>
      CompiledOf(groups[..i + 1], coerceInt) == Success(compiled + [CompiledEntry(groups[i], coerceInt).value])
    ensures CompiledEntry(groups[i], coerceInt).Failure? ==>
      CompiledOf(groups, coerceInt) == Failure(CompiledEntry(groups[i], coerceInt).error)
  {
    FrontLast(groups[..i + 1]);
    assert groups[..i + 1][..i] == groups[..i];
    MapAllSnoc(groups[..i], groups[i], CompiledEntryOf(coerceInt));
    CompiledEntryOfApplies(groups[i], coerceInt);
    if CompiledEntry(groups[i], coerceInt).Failure? {
      CompiledOfStopsAtFailure(groups, i + 1, coerceInt);
    }
  }

  /** ParseShipCompiled: for each group, in order, its class and its
      components are appended. */
  method ParseShipCompiled(currentValue: Option<Json>, coerceInt: Option<string> -> int) returns (r: Outcome<seq<CompiledGroup>>)
    ensures r == Compiled(currentValue, coerceInt)
  {
    if currentValue.None? {
      return Failure(NullReference);
    }
    var shipComponentGroups := Children(currentValue.value);
    var compiled: seq<CompiledGroup> := [];
    var i := 0;
    while i < |shipComponentGroups|
      invariant 0 <= i <= |shipComponentGroups|
      invariant CompiledOf(shipComponentGroups[..i], coerceInt) == Success(compiled)
    {
      CompiledStep(shipComponentGroups, i, compiled, coerceInt);
      var group := shipComponentGroups[i];
      if group.Elem? {
        return Failure(NullReference);
      }
      var shipComponentClass := TryParse(AllShipCompiledClasses, ShipCompiledClassName, Some(group.name), false);
      if shipComponentClass.None? {
        return Failure(UnknownEnumName(group.name));
      }
      var components := ParseShipComponents(Children(group.value), coerceInt);
      if components.Failure? {
        return Failure(components.error);
      }
      compiled := compiled + [(shipComponentClass.value, components.value)];
      i := i + 1;
    }
    assert shipComponentGroups[..i] == shipComponentGroups;
    return Success(compiled);
  }
}
