/** The per-field transforms `StarCitizenClient` registers with the mapping
    engine (src/StarCitizenAPIWrapper.Library/StarCitizenClient.cs). Each
    receives the token found at the field's key, `None` when there is none. */
module ClientTransforms {
  import opened Wrappers
  import opened JsonValue
  import opened EnumNames
  import opened FieldTables
  import opened Collect
  import opened Ships
  import Organization
  import UserProfile

  /** The token's string form names a ship size, ignoring case. */
  predicate NamesSize(current: Option<Json>, s: ShipSizes) {
    current.Some? && SameIgnoringCase(ShipSizeName(s), Text(current.value))
  }

  function SizeTransform(current: Option<Json>): (s: ShipSizes)
    ensures current.None? ==> s == ShipSizes.Undefined
    ensures s == ShipSizes.Undefined || NamesSize(current, s)
  {
    ParseOrFallback(AllShipSizes, ShipSizeName, TextOf(current), true, ShipSizes.Undefined)
  }

  /** The size is the member the token names, and `Undefined` when it names none. */
  lemma SizeTransformIs(current: Option<Json>, s: ShipSizes)
    ensures SizeTransform(current) == s
      <==> (NamesSize(current, s) || (s == ShipSizes.Undefined && forall t :: !NamesSize(current, t)))
  {
    ShipSizeNamesUnambiguous();
    ParseOrFallbackIs(AllShipSizes, ShipSizeName, TextOf(current), true, ShipSizes.Undefined, s);
  }

  predicate NamesType(current: Option<Json>, t: ShipTypes) {
    current.Some? && SameIgnoringCase(ShipTypeName(t), Text(current.value))
  }

  function TypeTransform(current: Option<Json>): (t: ShipTypes)
    ensures current.None? ==> t == ShipTypes.Undefined
    ensures t == ShipTypes.Undefined || NamesType(current, t)
  {
    ParseOrFallback(AllShipTypes, ShipTypeName, TextOf(current), true, ShipTypes.Undefined)
  }

  lemma TypeTransformIs(current: Option<Json>, t: ShipTypes)
    ensures TypeTransform(current) == t
      <==> (NamesType(current, t) || (t == ShipTypes.Undefined && forall u :: !NamesType(current, u)))
  {
    ShipTypeNamesUnambiguous();
    ParseOrFallbackIs(AllShipTypes, ShipTypeName, TextOf(current), true, ShipTypes.Undefined, t);
  }

  /** `Replace("-", "")`: every hyphen removed, everything else kept in order. */
  function StripHyphens(s: string): (r: string)
    ensures forall i :: 0 <= i < |r| ==> r[i] != '-'
    ensures |r| <= |s|
    decreases |s|
  {
    if s == [] then []
    else (if s[0] == '-' then [] else [s[0]]) + StripHyphens(s[1..])
  }

  /** Stripping works piece by piece, so the other characters keep their order. */
  lemma {:induction false} StripHyphensConcat(a: string, b: string)
    ensures StripHyphens(a + b) == StripHyphens(a) + StripHyphens(b)
    decreases |a|
  {
    if a != [] {
      assert (a + b)[0] == a[0];
      assert (a + b)[1..] == a[1..] + b;
      StripHyphensConcat(a[1..], b);
    } else {
      assert a + b == b;
    }
  }

  /** A string without hyphens is left as it is. */
  lemma {:induction false} StripHyphensKeepsHyphenFree(s: string)
    requires forall i :: 0 <= i < |s| ==> s[i] != '-'
    ensures StripHyphens(s) == s
    decreases |s|
  {
    if s != [] { StripHyphensKeepsHyphenFree(s[1..]); }
  }

  /** Removing hyphens twice is removing them once. */
  lemma StripHyphensIdempotent(s: string)
    ensures StripHyphens(StripHyphens(s)) == StripHyphens(s)
  {
    StripHyphensKeepsHyphenFree(StripHyphens(s));
  }

  predicate NamesStatus(current: Option<Json>, p: ProductionStatusTypes) {
    current.Some? && SameIgnoringCase(ProductionStatusName(p), StripHyphens(Text(current.value)))
  }

  function ProductionStatusTransform(current: Option<Json>): (p: ProductionStatusTypes)
    ensures current.None? ==> p == ProductionStatusTypes.Undefined
    ensures p == ProductionStatusTypes.Undefined || NamesStatus(current, p)
  {
    var valueToParse := match current case None => None case Some(j) => Some(StripHyphens(Text(j)));
    ParseOrFallback(AllProductionStatusTypes, ProductionStatusName, valueToParse, true, ProductionStatusTypes.Undefined)
  }

  /** The status is the member the hyphen-free token names, ignoring case,
      and `Undefined` when it names none. */
  lemma ProductionStatusTransformIs(current: Option<Json>, p: ProductionStatusTypes)
    ensures ProductionStatusTransform(current) == p
      <==> (NamesStatus(current, p) || (p == ProductionStatusTypes.Undefined && forall q :: !NamesStatus(current, q)))
  {
    ProductionStatusNamesUnambiguous();
    var valueToParse := match current case None => None case Some(j) => Some(StripHyphens(Text(j)));
    ParseOrFallbackIs(AllProductionStatusTypes, ProductionStatusName, valueToParse, true, ProductionStatusTypes.Undefined, p);
  }

  /** The API's "in-production" becomes `InProduction`. */
  lemma InProductionToken()
    ensures ProductionStatusTransform(Some(Str("in-production"))) == InProduction
  {
    InProductionNamed();
    StatusOfNamed(Some(Str("in-production")), InProduction);
  }

  // The lemmas below are the steps of InProductionToken: facts about string
  // literals that the solver does not derive unaided.

  /** A token that names a status transforms to that status. */
  lemma StatusOfNamed(current: Option<Json>, p: ProductionStatusTypes)
    requires NamesStatus(current, p)
    ensures ProductionStatusTransform(current) == p
  {
    ProductionStatusTransformIs(current, p);
  }

  /** "in-production" names `InProduction` once hyphens and case are set aside. */
  lemma InProductionNamed()
    ensures NamesStatus(Some(Str("in-production")), InProduction)
  {
    InProductionStripped();
    InProductionFolded();
  }

  /** Stripping the hyphen from "in-production" gives "inproduction". */
  lemma InProductionStripped()
    ensures StripHyphens("in-production") == "inproduction"
  {
    InProductionSplit();
    StripHyphensConcat("in-", "production");
    StripHyphensOfIn();
    StripHyphensOfProduction();
    InProductionJoined();
  }

  /** "production" has no hyphen to strip. */
  lemma StripHyphensOfProduction()
    ensures StripHyphens("production") == "production"
  {
    StripHyphensKeepsHyphenFree("production");
  }

  /** "in-production" splits at its hyphen. */
  lemma InProductionSplit()
    ensures "in-production" == "in-" + "production"
  {
    var x, y := "in-production", "in-" + "production";
    assert |x| == |y|;
    forall i | 0 <= i < |x| ensures x[i] == y[i] {}
  }

  /** The two stripped halves join to "inproduction". */
  lemma InProductionJoined()
    ensures "in" + "production" == "inproduction"
  {
    var x, y := "in" + "production", "inproduction";
    assert |x| == |y|;
    forall i | 0 <= i < |x| ensures x[i] == y[i] {}
  }

  /** Stripping "in-" leaves "in". */
  lemma StripHyphensOfIn()
    ensures StripHyphens("in-") == "in"
  {
    assert "in-"[1..] == "n-";
    assert "n-"[1..] == "-";
    assert "-"[1..] == [];
  }

  /** "inproduction" and the member name "InProduction" agree ignoring case. */
  lemma InProductionFolded()
    ensures SameIgnoringCase(ProductionStatusName(InProduction), "inproduction")
  {
    assert Fold("inproduction") == "INPRODUCTION";
    assert Fold("InProduction") == "INPRODUCTION";
  }

  /** The archetype: an exact, case-sensitive name match, else `Undefined`. */
  function ArchetypeTransform(current: Option<Json>): (a: Organization.Archetypes)
    ensures current.None? ==> a == Organization.Undefined
    ensures a == Organization.Undefined || (current.Some? && Organization.ArchetypeName(a) == Text(current.value))
  {
    ParseOrFallback(Organization.AllArchetypes, Organization.ArchetypeName, TextOf(current), false, Organization.Undefined)
  }

  lemma ArchetypeTransformIs(current: Option<Json>, a: Organization.Archetypes)
    ensures ArchetypeTransform(current) == a
      <==> ((current.Some? && Organization.ArchetypeName(a) == Text(current.value))
            || (a == Organization.Undefined
                && forall b :: !(current.Some? && Organization.ArchetypeName(b) == Text(current.value))))
  {
    Organization.ArchetypeNamesUnambiguous();
    ParseOrFallbackIs(Organization.AllArchetypes, Organization.ArchetypeName, TextOf(current), false, Organization.Undefined, a);
  }

  /** Case matters: "PMC" is recognised, "pmc" falls back. */
  lemma ArchetypeIsCaseSensitive()
    ensures ArchetypeTransform(Some(Str("PMC"))) == Organization.PMC
    ensures ArchetypeTransform(Some(Str("pmc"))) == Organization.Undefined
  {
    ArchetypeTransformIs(Some(Str("PMC")), Organization.PMC);
    ArchetypeTransformIs(Some(Str("pmc")), Organization.Undefined);
  }

  /** A focus name parsed case-sensitively; a failed parse leaves the field
      at its default member. */
  function FocusTypeOf(name: Option<string>): (f: Organization.FocusTypes)
    ensures f == Organization.DefaultFocusType || (name.Some? && Organization.FocusTypeName(f) == name.value)
  {
    ParseOrFallback(Organization.AllFocusTypes, Organization.FocusTypeName, name, false, Organization.DefaultFocusType)
  }

  lemma FocusTypeOfIs(name: Option<string>, f: Organization.FocusTypes)
    ensures FocusTypeOf(name) == f
      <==> ((name.Some? && Organization.FocusTypeName(f) == name.value)
            || (f == Organization.DefaultFocusType
                && forall g :: !(name.Some? && Organization.FocusTypeName(g) == name.value)))
  {
    Organization.FocusTypesListed();
    Organization.FocusTypeNamesUnambiguous();
    ParseOrFallbackIs(Organization.AllFocusTypes, Organization.FocusTypeName, name, false, Organization.DefaultFocusType, f);
  }

  /** The focus: built from `data.focus.primary` and `data.focus.secondary`,
      each half from its own sub-object. Indexing a token that is neither
      null nor an object throws. */
  function FocusTransform(data: Option<Json>): (r: Outcome<Organization.Focus>)
    ensures r.Failure? ==> r.error == InvalidKeyAccess
    ensures r.Success? <==>
      Indexable(data) && Indexable(Member(data, "focus"))
      && Indexable(Member(Member(data, "focus"), "primary"))
      && Indexable(Member(Member(data, "focus"), "secondary"))
    ensures r.Success? ==>
      var primary := Member(Member(data, "focus"), "primary");
      var secondary := Member(Member(data, "focus"), "secondary");
      r.value == Organization.Focus(
        TextOf(Member(primary, "image")), FocusTypeOf(TextOf(Member(primary, "name"))),
        TextOf(Member(secondary, "image")), FocusTypeOf(TextOf(Member(secondary, "name"))))
  {
    var focus :- Index(data, "focus");
    var primary :- Index(focus, "primary");
    // a token already indexed once cannot throw again: read it with Member
    var secondary := Member(focus, "secondary");
    var primaryImage :- Index(primary, "image");
    var secondaryImage :- Index(secondary, "image");
    Success(Organization.Focus(
      TextOf(primaryImage), FocusTypeOf(TextOf(Member(primary, "name"))),
      TextOf(secondaryImage), FocusTypeOf(TextOf(Member(secondary, "name")))))
  }

  /** A focus without a recognised primary name keeps the default member,
      whatever the secondary says. */
  lemma UnknownPrimaryFocusIsDefault(data: Option<Json>)
    requires FocusTransform(data).Success?
    requires forall g :: Some(Organization.FocusTypeName(g)) != TextOf(Member(Member(Member(data, "focus"), "primary"), "name"))
    ensures FocusTransform(data).value.primaryFocus == Organization.DefaultFocusType
  {
    var name := TextOf(Member(Member(Member(data, "focus"), "primary"), "name"));
    FocusTypeOfIs(name, Organization.DefaultFocusType);
  }

  /** The headline pair (html, plaintext) from `data.headline`. */
  function HeadlineTransform(data: Option<Json>): (r: Outcome<(Option<string>, Option<string>)>)
    ensures r.Failure? ==> r.error == InvalidKeyAccess
    ensures r.Success? <==> Indexable(data) && Indexable(Member(data, "headline"))
    ensures r.Success? ==> r.value == (TextOf(Member(Member(data, "headline"), "html")),
                                       TextOf(Member(Member(data, "headline"), "plaintext")))
  {
    var headline :- Index(data, "headline");
    var html :- Index(headline, "html");
    Success((TextOf(html), TextOf(Member(headline, "plaintext"))))
  }

  /** The profile page pair (title, url) from the value's own members. */
  function PageTransform(current: Option<Json>): (r: Outcome<(Option<string>, Option<string>)>)
    ensures r.Failure? ==> r.error == InvalidKeyAccess
    ensures r.Success? <==> Indexable(current)
    ensures r.Success? ==> r.value == (TextOf(Member(current, "title")), TextOf(Member(current, "url")))
  {
    var title :- Index(current, "title");
    Success((TextOf(title), TextOf(Member(current, "url"))))
  }

  /** Roadmap `Released`: the string form compared with "1"; a missing
      token throws. */
  function ReleasedTransform(current: Option<Json>): (r: Outcome<bool>)
    ensures r.Failure? <==> current.None?
    ensures r.Failure? ==> r.error == NullReference
    ensures r.Success? ==> (r.value <==> current.value == Str("1") || current.value == Num(1))
  {
    match current
    case None => Failure(NullReference)
    case Some(j) => TextIsOne(j); Success(Text(j) == "1")
  }

  /** Profile `Enlisted`: a throwing date parse of the string form. A null
      token passes a null string, which the parse rejects; a malformed
      string throws too. */
  function EnlistedTransform<D>(current: Option<Json>, parseDate: string -> Option<D>): (r: Outcome<D>)
    ensures current.None? ==> r == Failure(ArgumentNull)
    ensures current.Some? && parseDate(Text(current.value)).None? ==> r == Failure(MalformedDate)
    ensures r.Success? ==> current.Some? && parseDate(Text(current.value)) == Some(r.value)
    ensures current.Some? && parseDate(Text(current.value)).Some? ==> r == Success(parseDate(Text(current.value)).value)
  {
    match current
    case None => Failure(ArgumentNull)
    case Some(j) =>
      match parseDate(Text(j))
      case None => Failure(MalformedDate)
      case Some(d) => Success(d)
  }

  /** Profile `Fluency`: the array's elements as strings, in order; anything
      but an array makes the `Select` throw. */
  function FluencyTransform(current: Option<Json>): (r: Outcome<seq<string>>)
    ensures r.Success? <==> current.Some? && current.value.Arr?
    ensures r.Failure? ==> r.error == ArgumentNull
    ensures r.Success? ==>
      |r.value| == |current.value.items| && forall i :: 0 <= i < |r.value| ==> r.value[i] == Text(current.value.items[i])
  {
    match current
    case Some(Arr(items)) => Success(seq(|items|, i requires 0 <= i < |items| => Text(items[i])))
    case _ => Failure(ArgumentNull)
  }

  datatype ShipMediaImage = ShipMediaImage(imageUrl: string, height: int, width: int, mode: Option<string>)

  datatype ApiMedia = ApiMedia(sourceName: Option<string>, sourceUrl: Option<string>, mediaImages: seq<ShipMediaImage>)

  /** One image: the child must be a property (the cast throws otherwise);
      its value's string form is the url, and its name selects the matching
      entry of `sizes`. `coerceInt` is the engine's safe integer parse. */
  function ParseShipMediaImage(image: Child, sizes: Option<Json>, coerceInt: Option<string> -> int): (r: Outcome<ShipMediaImage>)
    ensures image.Elem? ==> r == Failure(InvalidCast)
    ensures r.Failure? ==> r.error in {InvalidCast, InvalidKeyAccess}
    ensures r.Success? <==> image.Prop? && Indexable(sizes) && Indexable(Member(sizes, image.name))
    ensures r.Success? ==>
      var size := Member(sizes, image.name);
      r.value == ShipMediaImage(Text(image.value), coerceInt(TextOf(Member(size, "height"))),
                                coerceInt(TextOf(Member(size, "width"))), TextOf(Member(size, "mode")))
  {
    match image
    case Elem(_) => Failure(InvalidCast)
    case Prop(name, value) =>
      var matchingSize :- Index(sizes, name);
      var height :- Index(matchingSize, "height");
      Success(ShipMediaImage(Text(value), coerceInt(TextOf(height)),
                             coerceInt(TextOf(Member(matchingSize, "width"))), TextOf(Member(matchingSize, "mode"))))
  }

  /** The `sizes` table of a media entry: `derived_data.sizes`, or null. */
  function MediaSizes(media: Json): Option<Json> {
    Member(Member(Some(media), "derived_data"), "sizes")
  }

  /** One media entry: its source name and url, and one image per child of
      `images`, in order, each matched against the entry's `sizes`. Indexing
      a non-object throws, a missing `images` throws, and so does the first
      image that fails. */
  function ParseShipMedia(media: Json, coerceInt: Option<string> -> int): (r: Outcome<ApiMedia>)
    ensures !media.Obj? ==> r == Failure(InvalidKeyAccess)
    ensures media.Obj? && Indexable(Member(Some(media), "derived_data")) && Member(Some(media), "images").None?
      ==> r == Failure(ArgumentNull)
    ensures r.Failure? ==> r.error in {InvalidKeyAccess, InvalidCast, ArgumentNull}
    ensures r.Success? <==>
      media.Obj? && Indexable(Member(Some(media), "derived_data")) && Member(Some(media), "images").Some?
      && forall i :: 0 <= i < |Children(Member(Some(media), "images").value)| ==>
           ParseShipMediaImage(Children(Member(Some(media), "images").value)[i], MediaSizes(media), coerceInt).Success?
    ensures r.Success? ==>
      var images := Children(Member(Some(media), "images").value);
      r.value.sourceName == TextOf(Member(Some(media), "source_name"))
      && r.value.sourceUrl == TextOf(Member(Some(media), "source_url"))
      && |r.value.mediaImages| == |images|
      && forall i :: 0 <= i < |images| ==>
           Success(r.value.mediaImages[i]) == ParseShipMediaImage(images[i], MediaSizes(media), coerceInt)
  {
    var sourceName :- Index(Some(media), "source_name");
    var sizes :- Index(Member(Some(media), "derived_data"), "sizes");
    var images := Member(Some(media), "images");
    if images.None? then Failure(ArgumentNull)
    else
      var list :- MapAll(Children(images.value), c => ParseShipMediaImage(c, sizes, coerceInt));
      Success(ApiMedia(TextOf(sourceName), TextOf(Member(Some(media), "source_url")), list))
  }

  /** Ship `Media`: one entry per array element, in order; anything but an
      array makes the `Select` throw. */
  function MediaTransform(current: Option<Json>, coerceInt: Option<string> -> int): (r: Outcome<seq<ApiMedia>>)
    ensures !(current.Some? && current.value.Arr?) ==> r == Failure(ArgumentNull)
    ensures current.Some? && current.value.Arr? ==> ParsedInOrder(current.value.items, MediaOf(coerceInt), r)
    ensures r.Success? ==>
      current.Some? && current.value.Arr? && |r.value| == |current.value.items| && forall i :: 0 <= i < |r.value| ==> Success(r.value[i]) == ParseShipMedia(current.value.items[i], coerceInt)
  {
    match current
    case Some(Arr(items)) =>
      MapAllInOrder(items, MediaOf(coerceInt));
      MapAll(items, MediaOf(coerceInt))
    case _ => Failure(ArgumentNull)
  }

  /** `ParseShipMedia` as a function of the media entry alone. */
  function MediaOf(coerceInt: Option<string> -> int): Json -> Outcome<ApiMedia> {
    m => ParseShipMedia(m, coerceInt)
  }

  /** The names each call site registers a transform under. */
  const ShipTransforms: set<string> := {"Media", "Size", "Type", "ProductionStatus", "Compiled", "Manufacturer"}
  const OrganizationTransforms: set<string> := {"Archetype", "Focus", "Headline"}
  const ProfileTransforms: set<string> := {"Page", "Enlisted", "Fluency"}

  /** The ship registry names exactly the fields Media, Size, Type,
      ProductionStatus, Compiled and Manufacturer. */
  lemma ShipTransformsAreFields()
    ensures forall f ::
      (ShipDescriptor(f).name in ShipTransforms <==> f in {Media, Size, Type, ProductionStatus, Compiled, Manufacturer})
  {
  }

  lemma ShipFieldRoutes(deriveKey: string -> string)
    ensures Resolve(ShipDescriptor(ProductionStatus), ShipTransforms, deriveKey) == ByTransform("production_status")
    ensures Resolve(ShipDescriptor(Size), ShipTransforms, deriveKey) == ByTransform(deriveKey("Size"))
    ensures Resolve(ShipDescriptor(Beam), ShipTransforms, deriveKey) == ByDefaultCoercion(deriveKey("Beam"), DoubleField)
    ensures Resolve(ShipDescriptor(AfterburnerSpeed), ShipTransforms, deriveKey) == ByDefaultCoercion("afterburner_speed", IntField)
  {
  }

  lemma OrganizationTransformsAreFields()
    ensures forall f :: (Organization.OrganizationDescriptor(f).name in OrganizationTransforms
                         <==> f in {Organization.Archetype, Organization.FocusInfo, Organization.Headline})
  {
  }

  /** Members, Recruiting and RolePlaying have neither an override nor a
      transform: they take the default coercion of their declared type. */
  lemma OrganizationFieldRoutes(deriveKey: string -> string)
    ensures Resolve(Organization.OrganizationDescriptor(Organization.Members), OrganizationTransforms, deriveKey)
      == ByDefaultCoercion(deriveKey("Members"), IntField)
    ensures Resolve(Organization.OrganizationDescriptor(Organization.Recruiting), OrganizationTransforms, deriveKey)
      == ByDefaultCoercion(deriveKey("Recruiting"), BoolField)
    ensures Resolve(Organization.OrganizationDescriptor(Organization.RolePlaying), OrganizationTransforms, deriveKey)
      == ByDefaultCoercion(deriveKey("RolePlaying"), BoolField)
    ensures Resolve(Organization.OrganizationDescriptor(Organization.Language), OrganizationTransforms, deriveKey)
      == ByDefaultCoercion("lang", StringField)
  {
  }

  lemma ProfileTransformsAreFields()
    ensures forall f :: (UserProfile.ProfileDescriptor(f).name in ProfileTransforms
                         <==> f in {UserProfile.Page, UserProfile.Enlisted, UserProfile.Fluency})
  {
  }

  lemma ProfileFieldRoutes(deriveKey: string -> string)
    ensures Resolve(UserProfile.ProfileDescriptor(UserProfile.Enlisted), ProfileTransforms, deriveKey)
      == ByTransform(deriveKey("Enlisted"))
    ensures Resolve(UserProfile.ProfileDescriptor(UserProfile.BadgeImage), ProfileTransforms, deriveKey)
      == ByDefaultCoercion("badge_image", StringField)
  {
  }
}
