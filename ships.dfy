/** The ship record's field table and its enums (src/.../Ships/StarCitizenShip.cs). */
module Ships {
  import opened Wrappers
  import opened EnumNames
  import opened FieldTables

  datatype ProductionStatusTypes = FlightReady | InConcept | InProduction | Undefined

  function ProductionStatusName(p: ProductionStatusTypes): string {
    match p
    case FlightReady => "FlightReady"
    case InConcept => "InConcept"
    case InProduction => "InProduction"
    case Undefined => "Undefined"
  }

  const AllProductionStatusTypes: seq<ProductionStatusTypes> :=
    [FlightReady, InConcept, InProduction, ProductionStatusTypes.Undefined]

  datatype ShipSizes = Snub | Small | Medium | Vehicle | Large | Capital | Undefined

  function ShipSizeName(s: ShipSizes): string {
    match s
    case Snub => "Snub"
    case Small => "Small"
    case Medium => "Medium"
    case Vehicle => "Vehicle"
    case Large => "Large"
    case Capital => "Capital"
    case Undefined => "Undefined"
  }

  const AllShipSizes: seq<ShipSizes> := [Snub, Small, Medium, Vehicle, Large, Capital, ShipSizes.Undefined]

  datatype ShipTypes = Multi | Combat | Transport | Exploration | Industrial | Support | Competition | Ground | Undefined

  function ShipTypeName(t: ShipTypes): string {
    match t
    case Multi => "Multi"
    case Combat => "Combat"
    case Transport => "Transport"
    case Exploration => "Exploration"
    case Industrial => "Industrial"
    case Support => "Support"
    case Competition => "Competition"
    case Ground => "Ground"
    case Undefined => "Undefined"
  }

  const AllShipTypes: seq<ShipTypes> :=
    [Multi, Combat, Transport, Exploration, Industrial, Support, Competition, Ground, ShipTypes.Undefined]

  /** The component groups of a ship's compiled data; there is no fallback member. */
  datatype ShipCompiledClasses = RSIAvionic | RSIModular | RSIPropulsion | RSIThruster | RSIWeapon

  function ShipCompiledClassName(c: ShipCompiledClasses): string {
    match c
    case RSIAvionic => "RSIAvionic"
    case RSIModular => "RSIModular"
    case RSIPropulsion => "RSIPropulsion"
    case RSIThruster => "RSIThruster"
    case RSIWeapon => "RSIWeapon"
  }

  const AllShipCompiledClasses: seq<ShipCompiledClasses> := [RSIAvionic, RSIModular, RSIPropulsion, RSIThruster, RSIWeapon]

  lemma ProductionStatusNameFolded(p: ProductionStatusTypes)
    ensures Fold(ProductionStatusName(p)) == match p
      case FlightReady => "FLIGHTREADY"
      case InConcept => "INCONCEPT"
      case InProduction => "INPRODUCTION"
      case Undefined => "UNDEFINED"
  {
    match p
    case FlightReady => assert Fold("FlightReady") == "FLIGHTREADY";
    case InConcept => assert Fold("InConcept") == "INCONCEPT";
    case InProduction => assert Fold("InProduction") == "INPRODUCTION";
    case Undefined => assert Fold("Undefined") == "UNDEFINED";
  }

  /** Every member is listed, and no two names are equal even ignoring case. */
  lemma ProductionStatusNamesUnambiguous()
    ensures forall p :: p in AllProductionStatusTypes
    ensures Unambiguous(AllProductionStatusTypes, ProductionStatusName, true)
  {
    forall p ensures p in AllProductionStatusTypes {
      match p
      case FlightReady => assert AllProductionStatusTypes[0] == p;
      case InConcept => assert AllProductionStatusTypes[1] == p;
      case InProduction => assert AllProductionStatusTypes[2] == p;
      case Undefined => assert AllProductionStatusTypes[3] == p;
    }
    forall a, b | a in AllProductionStatusTypes && b in AllProductionStatusTypes
      && SameIgnoringCase(ProductionStatusName(a), ProductionStatusName(b))
      ensures a == b
    {
      ProductionStatusNameFolded(a);
      ProductionStatusNameFolded(b);
    }
  }

  lemma ShipSizeNameFolded(s: ShipSizes)
    ensures Fold(ShipSizeName(s)) == match s
      case Snub => "SNUB"
      case Small => "SMALL"
      case Medium => "MEDIUM"
      case Vehicle => "VEHICLE"
      case Large => "LARGE"
      case Capital => "CAPITAL"
      case Undefined => "UNDEFINED"
  {
    match s
    case Snub => assert Fold("Snub") == "SNUB";
    case Small => assert Fold("Small") == "SMALL";
    case Medium => assert Fold("Medium") == "MEDIUM";
    case Vehicle => assert Fold("Vehicle") == "VEHICLE";
    case Large => assert Fold("Large") == "LARGE";
    case Capital => assert Fold("Capital") == "CAPITAL";
    case Undefined => assert Fold("Undefined") == "UNDEFINED";
  }

  lemma ShipSizeNamesUnambiguous()
    ensures forall s :: s in AllShipSizes
    ensures Unambiguous(AllShipSizes, ShipSizeName, true)
  {
    forall s ensures s in AllShipSizes {
      match s
      case Snub => assert AllShipSizes[0] == s;
      case Small => assert AllShipSizes[1] == s;
      case Medium => assert AllShipSizes[2] == s;
      case Vehicle => assert AllShipSizes[3] == s;
      case Large => assert AllShipSizes[4] == s;
      case Capital => assert AllShipSizes[5] == s;
      case Undefined => assert AllShipSizes[6] == s;
    }
    forall a, b | a in AllShipSizes && b in AllShipSizes && SameIgnoringCase(ShipSizeName(a), ShipSizeName(b))
      ensures a == b
    {
      ShipSizeNameFolded(a);
      ShipSizeNameFolded(b);
    }
  }

  lemma ShipTypeNameFolded(t: ShipTypes)
    ensures Fold(ShipTypeName(t)) == match t
      case Multi => "MULTI"
      case Combat => "COMBAT"
      case Transport => "TRANSPORT"
      case Exploration => "EXPLORATION"
      case Industrial => "INDUSTRIAL"
      case Support => "SUPPORT"
      case Competition => "COMPETITION"
      case Ground => "GROUND"
      case Undefined => "UNDEFINED"
  {
    match t
    case Multi => assert Fold("Multi") == "MULTI";
    case Combat => assert Fold("Combat") == "COMBAT";
    case Transport => assert Fold("Transport") == "TRANSPORT";
    case Exploration => assert Fold("Exploration") == "EXPLORATION";
    case Industrial => assert Fold("Industrial") == "INDUSTRIAL";
    case Support => assert Fold("Support") == "SUPPORT";
    case Competition => assert Fold("Competition") == "COMPETITION";
    case Ground => assert Fold("Ground") == "GROUND";
    case Undefined => assert Fold("Undefined") == "UNDEFINED";
  }

  lemma ShipTypeNamesUnambiguous()
    ensures forall t :: t in AllShipTypes
    ensures Unambiguous(AllShipTypes, ShipTypeName, true)
  {
    forall t ensures t in AllShipTypes {
      match t
      case Multi => assert AllShipTypes[0] == t;
      case Combat => assert AllShipTypes[1] == t;
      case Transport => assert AllShipTypes[2] == t;
      case Exploration => assert AllShipTypes[3] == t;
      case Industrial => assert AllShipTypes[4] == t;
      case Support => assert AllShipTypes[5] == t;
      case Competition => assert AllShipTypes[6] == t;
      case Ground => assert AllShipTypes[7] == t;
      case Undefined => assert AllShipTypes[8] == t;
    }
    forall a, b | a in AllShipTypes && b in AllShipTypes && SameIgnoringCase(ShipTypeName(a), ShipTypeName(b))
      ensures a == b
    {
      ShipTypeNameFolded(a);
      ShipTypeNameFolded(b);
    }
  }

  lemma ShipCompiledClassNamesUnambiguous()
    ensures forall c :: c in AllShipCompiledClasses
    ensures Unambiguous(AllShipCompiledClasses, ShipCompiledClassName, false)
  {
    forall c ensures c in AllShipCompiledClasses {
      match c
      case RSIAvionic => assert AllShipCompiledClasses[0] == c;
      case RSIModular => assert AllShipCompiledClasses[1] == c;
      case RSIPropulsion => assert AllShipCompiledClasses[2] == c;
      case RSIThruster => assert AllShipCompiledClasses[3] == c;
      case RSIWeapon => assert AllShipCompiledClasses[4] == c;
    }
  }

  /** The production-status names carry no hyphen, so a hyphenated API token
      can only match once its hyphens are removed. */
  lemma ProductionStatusNamesHaveNoHyphen(p: ProductionStatusTypes)
    ensures '-' !in ProductionStatusName(p)
  {
  }

  /** Sizes and types have a fallback member; compiled classes have none, so
      no group name parses to a fallback. */
  lemma FallbackMembers()
    ensures ShipSizes.Undefined in AllShipSizes && ShipSizeName(ShipSizes.Undefined) == "Undefined"
    ensures ShipTypes.Undefined in AllShipTypes && ShipTypeName(ShipTypes.Undefined) == "Undefined"
    ensures forall c :: ShipCompiledClassName(c) != "Undefined"
    ensures TryParse(AllShipCompiledClasses, ShipCompiledClassName, Some("Undefined"), false) == None
  {
  }

  /** The fields of `StarCitizenShip`, in declaration order. */
  datatype ShipField =
    | AfterburnerSpeed | Beam | CargoCapacity | ChassisId | Compiled | Description | Focus
    | Height | Id | Length | Manufacturer | ManufacturerId | Mass | MaxCrew | Media | MinCrew
    | Name | PitchMax | Price | ProductionNote | ProductionStatus | RollMax | ScmSpeed | Size
    | TimeModified | Type | Url | XAxisAcceleration | YawMax | YAxisAcceleration | ZAxisAcceleration

  /** The name of a ship field, as declared. */
  function ShipFieldName(f: ShipField): string {
    match f
    case AfterburnerSpeed => "AfterburnerSpeed"
    case Beam => "Beam"
    case CargoCapacity => "CargoCapacity"
    case ChassisId => "ChassisId"
    case Compiled => "Compiled"
    case Description => "Description"
    case Focus => "Focus"
    case Height => "Height"
    case Id => "Id"
    case Length => "Length"
    case Manufacturer => "Manufacturer"
    case ManufacturerId => "ManufacturerId"
    case Mass => "Mass"
    case MaxCrew => "MaxCrew"
    case Media => "Media"
    case MinCrew => "MinCrew"
    case Name => "Name"
    case PitchMax => "PitchMax"
    case Price => "Price"
    case ProductionNote => "ProductionNote"
    case ProductionStatus => "ProductionStatus"
    case RollMax => "RollMax"
    case ScmSpeed => "ScmSpeed"
    case Size => "Size"
    case TimeModified => "TimeModified"
    case Type => "Type"
    case Url => "Url"
    case XAxisAcceleration => "XAxisAcceleration"
    case YawMax => "YawMax"
    case YAxisAcceleration => "YAxisAcceleration"
    case ZAxisAcceleration => "ZAxisAcceleration"
  }

  /** The declared type of a ship field. */
  function ShipFieldType(f: ShipField): (t: FieldType)
    ensures t.EnumField? <==> f.ProductionStatus? || f.Size? || f.Type?
    ensures t.DateTimeField? <==> f.TimeModified?
  {
    match f
    case AfterburnerSpeed => IntField
    case Beam => DoubleField
    case CargoCapacity => IntField
    case ChassisId => IntField
    case Compiled => ListField("KeyValuePair<ShipCompiledClasses, List<KeyValuePair<string, RsiShipComponent>>>")
    case Description => StringField
    case Focus => StringField
    case Height => DoubleField
    case Id => IntField
    case Length => DoubleField
    case Manufacturer => RecordField("ShipManufacturer")
    case ManufacturerId => IntField
    case Mass => IntField
    case MaxCrew => IntField
    case Media => ListField("ApiMedia")
    case MinCrew => IntField
    case Name => StringField
    case PitchMax => DoubleField
    case Price => DoubleField
    case ProductionNote => StringField
    case ProductionStatus => EnumField("ProductionStatusTypes")
    case RollMax => DoubleField
    case ScmSpeed => IntField
    case Size => EnumField("ShipSizes")
    case TimeModified => DateTimeField
    case Type => EnumField("ShipTypes")
    case Url => StringField
    case XAxisAcceleration => DoubleField
    case YawMax => DoubleField
    case YAxisAcceleration => DoubleField
    case ZAxisAcceleration => DoubleField
  }

  /** The key named by a ship field's `[ApiName]` attribute, if it has one. */
  function ShipApiName(f: ShipField): (k: Option<string>)
    ensures k.Some? <==>
      f.AfterburnerSpeed? || f.ChassisId? || f.MaxCrew? || f.MinCrew? || f.PitchMax? || f.ProductionNote? ||
      f.ProductionStatus? || f.RollMax? || f.ScmSpeed? || f.XAxisAcceleration? || f.YawMax? ||
      f.YAxisAcceleration? || f.ZAxisAcceleration?
  {
    match f
    case AfterburnerSpeed => Some("afterburner_speed")
    case ChassisId => Some("chassis_id")
    case MaxCrew => Some("max_crew")
    case MinCrew => Some("min_crew")
    case PitchMax => Some("pitch_max")
    case ProductionNote => Some("production_note")
    case ProductionStatus => Some("production_status")
    case RollMax => Some("roll_max")
    case ScmSpeed => Some("scm_speed")
    case XAxisAcceleration => Some("xaxis_acceleration")
    case YawMax => Some("yaw_max")
    case YAxisAcceleration => Some("yaxis_acceleration")
    case ZAxisAcceleration => Some("zaxis_acceleration")
    case _ => None
  }

  /** A ship field's name, declared type and `[ApiName]` key override. */
  function ShipDescriptor(f: ShipField): FieldDescriptor {
    FieldDescriptor(ShipFieldName(f), ShipFieldType(f), ShipApiName(f))
  }

  /** The overridden keys do not depend on the engine's naming rule. */
  lemma ShipOverriddenKeys(deriveKey: string -> string)
    ensures SourceKey(ShipDescriptor(AfterburnerSpeed), deriveKey) == "afterburner_speed"
    ensures SourceKey(ShipDescriptor(ChassisId), deriveKey) == "chassis_id"
    ensures SourceKey(ShipDescriptor(MaxCrew), deriveKey) == "max_crew"
    ensures SourceKey(ShipDescriptor(MinCrew), deriveKey) == "min_crew"
    ensures SourceKey(ShipDescriptor(ProductionStatus), deriveKey) == "production_status"
  {
  }

  /** The fields without an override take whatever the engine's rule derives
      from the field name. */
  lemma ShipDerivedKeys(deriveKey: string -> string)
    ensures SourceKey(ShipDescriptor(Beam), deriveKey) == deriveKey("Beam")
    ensures SourceKey(ShipDescriptor(CargoCapacity), deriveKey) == deriveKey("CargoCapacity")
    ensures SourceKey(ShipDescriptor(Size), deriveKey) == deriveKey("Size")
    ensures SourceKey(ShipDescriptor(Type), deriveKey) == deriveKey("Type")
  {
  }
}
