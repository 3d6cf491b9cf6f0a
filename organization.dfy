/** The organization record's field table, its focus struct and its enums
    (src/.../Organization/StarCitizenOrganization.cs). */
module Organization {
  import opened Wrappers
  import opened EnumNames
  import opened FieldTables

  datatype Archetypes = Corporation | PMC | Faith | Syndicate | Organization | Undefined

  function ArchetypeName(a: Archetypes): string {
    match a
    case Corporation => "Corporation"
    case PMC => "PMC"
    case Faith => "Faith"
    case Syndicate => "Syndicate"
    case Organization => "Organization"
    case Undefined => "Undefined"
  }

  const AllArchetypes: seq<Archetypes> := [Corporation, PMC, Faith, Syndicate, Organization, Undefined]

  /** The focus kinds; there is no fallback member. */
  datatype FocusTypes =
    | BountyHunting | Engineering | Exploration | Freelancing | Infiltration | Piracy | Resources
    | Scouting | Security | Smuggling | Social | Trading | Transport

  function FocusTypeName(f: FocusTypes): string {
    match f
    case BountyHunting => "BountyHunting"
    case Engineering => "Engineering"
    case Exploration => "Exploration"
    case Freelancing => "Freelancing"
    case Infiltration => "Infiltration"
    case Piracy => "Piracy"
    case Resources => "Resources"
    case Scouting => "Scouting"
    case Security => "Security"
    case Smuggling => "Smuggling"
    case Social => "Social"
    case Trading => "Trading"
    case Transport => "Transport"
  }

  const AllFocusTypes: seq<FocusTypes> :=
    [BountyHunting, Engineering, Exploration, Freelancing, Infiltration, Piracy, Resources,
     Scouting, Security, Smuggling, Social, Trading, Transport]

  /** The value a `FocusTypes` field holds before anything is assigned to it:
      the member with the underlying value 0, i.e. the first one declared. */
  const DefaultFocusType: FocusTypes := BountyHunting

  /** Every archetype is listed, names are pairwise different, and the
      fallback member is among them. */
  lemma ArchetypeNamesUnambiguous()
    ensures forall a :: a in AllArchetypes
    ensures Unambiguous(AllArchetypes, ArchetypeName, false)
    ensures ArchetypeName(Undefined) == "Undefined"
  {
    forall a ensures a in AllArchetypes {
      match a
      case Corporation => assert AllArchetypes[0] == a;
      case PMC => assert AllArchetypes[1] == a;
      case Faith => assert AllArchetypes[2] == a;
      case Syndicate => assert AllArchetypes[3] == a;
      case Organization => assert AllArchetypes[4] == a;
      case Undefined => assert AllArchetypes[5] == a;
    }
  }

  /** Every focus type is listed, and the default is the first member. */
  lemma FocusTypesListed()
    ensures forall f :: f in AllFocusTypes
    ensures AllFocusTypes[0] == DefaultFocusType
  {
    forall f ensures f in AllFocusTypes {
      match f
      case BountyHunting => assert AllFocusTypes[0] == f;
      case Engineering => assert AllFocusTypes[1] == f;
      case Exploration => assert AllFocusTypes[2] == f;
      case Freelancing => assert AllFocusTypes[3] == f;
      case Infiltration => assert AllFocusTypes[4] == f;
      case Piracy => assert AllFocusTypes[5] == f;
      case Resources => assert AllFocusTypes[6] == f;
      case Scouting => assert AllFocusTypes[7] == f;
      case Security => assert AllFocusTypes[8] == f;
      case Smuggling => assert AllFocusTypes[9] == f;
      case Social => assert AllFocusTypes[10] == f;
      case Trading => assert AllFocusTypes[11] == f;
      case Transport => assert AllFocusTypes[12] == f;
    }
  }

  /** The length and first two letters of each focus name, which already
      tell the names apart. */
  lemma FocusTypeNameKey(f: FocusTypes)
    ensures |FocusTypeName(f)| >= 2
    ensures (|FocusTypeName(f)|, FocusTypeName(f)[0], FocusTypeName(f)[1]) == match f
      case BountyHunting => (13, 'B', 'o')
      case Engineering => (11, 'E', 'n')
      case Exploration => (11, 'E', 'x')
      case Freelancing => (11, 'F', 'r')
      case Infiltration => (12, 'I', 'n')
      case Piracy => (6, 'P', 'i')
      case Resources => (9, 'R', 'e')
      case Scouting => (8, 'S', 'c')
      case Security => (8, 'S', 'e')
      case Smuggling => (9, 'S', 'm')
      case Social => (6, 'S', 'o')
      case Trading => (7, 'T', 'r')
      case Transport => (9, 'T', 'r')
  {
  }

  /** Focus type names are pairwise different, and none is "Undefined". */
  lemma FocusTypeNamesUnambiguous()
    ensures Unambiguous(AllFocusTypes, FocusTypeName, false)
    ensures forall f :: FocusTypeName(f) != "Undefined"
  {
    forall a, b | FocusTypeName(a) == FocusTypeName(b) ensures a == b {
      FocusTypeNameKey(a);
      FocusTypeNameKey(b);
    }
    forall f ensures FocusTypeName(f) != "Undefined" {
      FocusTypeNameKey(f);
      assert "Undefined"[0] == 'U';
    }
  }

  /** The `Focus` struct: four independently set members; an image is the
      string form of a token and may be null. */
  datatype Focus = Focus(
    primaryFocusImage: Option<string>,
    primaryFocus: FocusTypes,
    secondaryFocusImage: Option<string>,
    secondaryFocus: FocusTypes)

  /** The fields of `StarCitizenOrganization`, in declaration order. */
  datatype OrganizationField =
    | Archetype | Banner | Commitment | FocusInfo | Headline | Href | Language | Logo
    | Members | Name | Recruiting | RolePlaying | SID | Url

  /** An organization field's name, declared type and key override. Only
      `Language` carries an `[ApiName]` override. */
  function OrganizationDescriptor(f: OrganizationField): (d: FieldDescriptor)
    ensures d.apiName.Some? <==> f == Language
    ensures d.fieldType.EnumField? <==> f == Archetype
    ensures d.fieldType == BoolField <==> f in {Recruiting, RolePlaying}
  {
    match f
    case Archetype => FieldDescriptor("Archetype", EnumField("Archetypes"), None)
    case Banner => FieldDescriptor("Banner", StringField, None)
    case Commitment => FieldDescriptor("Commitment", StringField, None)
    case FocusInfo => FieldDescriptor("Focus", RecordField("Focus"), None)
    case Headline => FieldDescriptor("Headline", StringPairField, None)
    case Href => FieldDescriptor("Href", StringField, None)
    case Language => FieldDescriptor("Language", StringField, Some("lang"))
    case Logo => FieldDescriptor("Logo", StringField, None)
    case Members => FieldDescriptor("Members", IntField, None)
    case Name => FieldDescriptor("Name", StringField, None)
    case Recruiting => FieldDescriptor("Recruiting", BoolField, None)
    case RolePlaying => FieldDescriptor("RolePlaying", BoolField, None)
    case SID => FieldDescriptor("SID", StringField, None)
    case Url => FieldDescriptor("Url", StringField, None)
  }

  /** No two organization fields share a name. */
  lemma OrganizationNamesDistinct(f: OrganizationField, g: OrganizationField)
    requires OrganizationDescriptor(f).name == OrganizationDescriptor(g).name
    ensures f == g
  {
  }

  /** `Language` is the only field with an override; the others take the
      engine's derived key. */
  lemma OrganizationSourceKeys(deriveKey: string -> string)
    ensures SourceKey(OrganizationDescriptor(Language), deriveKey) == "lang"
    ensures forall f :: f != Language ==> SourceKey(OrganizationDescriptor(f), deriveKey) == deriveKey(OrganizationDescriptor(f).name)
    ensures SourceKey(OrganizationDescriptor(Members), deriveKey) == deriveKey("Members")
    ensures SourceKey(OrganizationDescriptor(Recruiting), deriveKey) == deriveKey("Recruiting")
    ensures SourceKey(OrganizationDescriptor(RolePlaying), deriveKey) == deriveKey("RolePlaying")
  {
  }
}
