/** The vocabulary of the system (object, technical-location, material and
    status enumerations, the record types) and the catalog registry: the
    four closed lookup tables of src/types/index.ts. */
module Types {
  import opened Wrappers

  // ---- enumerations -------------------------------------------------------

  datatype ObjectType = Line | Substation | TransformerSubstation | DistributionPoint

  datatype TechLocationType = Support | Span | Bay | Unit | Feeder | Transformer

  datatype MaterialType =
    | Insulator | Wire | Cable | Pole | Crossarm | LightningRod | Transformer
    | CircuitBreaker | Disconnector | CurrentTransformer | VoltageTransformer
    | SurgeArrester | Busbar | SupportInsulator

  datatype SheetStatus = Draft | InWork | UnderReview | Returned | Approved

  datatype UserRole = Master | Executor

  /** The string each enumeration member is written as in stored records. */
  function ObjectTypeKey(t: ObjectType): string {
    match t
    case Line => "line"
    case Substation => "substation"
    case TransformerSubstation => "transformer_substation"
    case DistributionPoint => "distribution_point"
  }

  function TechLocationTypeKey(t: TechLocationType): string {
    match t
    case Support => "support"
    case Span => "span"
    case Bay => "bay"
    case Unit => "unit"
    case Feeder => "feeder"
    case Transformer => "transformer"
  }

  function MaterialTypeKey(m: MaterialType): string {
    match m
    case Insulator => "insulator"
    case Wire => "wire"
    case Cable => "cable"
    case Pole => "pole"
    case Crossarm => "crossarm"
    case LightningRod => "lightning_rod"
    case Transformer => "transformer"
    case CircuitBreaker => "circuit_breaker"
    case Disconnector => "disconnector"
    case CurrentTransformer => "current_transformer"
    case VoltageTransformer => "voltage_transformer"
    case SurgeArrester => "surge_arrester"
    case Busbar => "busbar"
    case SupportInsulator => "support_insulator"
  }

  function StatusKey(s: SheetStatus): string {
    match s
    case Draft => "draft"
    case InWork => "in_work"
    case UnderReview => "under_review"
    case Returned => "returned"
    case Approved => "approved"
  }

  /** Every member of each enumeration, in declaration order (for material
      types this is also the order of `Object.keys(MATERIAL_TYPE_CONFIG)`). */
  const AllObjectTypes: seq<ObjectType> :=
    [Line, Substation, TransformerSubstation, DistributionPoint]

  const AllTechLocationTypes: seq<TechLocationType> :=
    [Support, Span, Bay, Unit, Feeder, TechLocationType.Transformer]

  const AllMaterialTypes: seq<MaterialType> :=
    [Insulator, Wire, Cable, Pole, Crossarm, LightningRod, MaterialType.Transformer,
     CircuitBreaker, Disconnector, CurrentTransformer, VoltageTransformer,
     SurgeArrester, Busbar, SupportInsulator]

  const AllStatuses: seq<SheetStatus> := [Draft, InWork, UnderReview, Returned, Approved]

  /** Looking a key up among the members of an enumeration; `None` is the
      source's `undefined` for a key the table does not have. */
  function ParseObjectType(s: string): (r: Option<ObjectType>)
    ensures r.Some? ==> ObjectTypeKey(r.value) == s
  {
    if s == "line" then Some(Line)
    else if s == "substation" then Some(Substation)
    else if s == "transformer_substation" then Some(TransformerSubstation)
    else if s == "distribution_point" then Some(DistributionPoint)
    else None
  }

  function ParseTechLocationType(s: string): (r: Option<TechLocationType>)
    ensures r.Some? ==> TechLocationTypeKey(r.value) == s
  {
    if s == "support" then Some(Support)
    else if s == "span" then Some(Span)
    else if s == "bay" then Some(Bay)
    else if s == "unit" then Some(Unit)
    else if s == "feeder" then Some(Feeder)
    else if s == "transformer" then Some(TechLocationType.Transformer)
    else None
  }

  lemma ObjectTypeKeyRoundTrip(t: ObjectType)
    ensures ParseObjectType(ObjectTypeKey(t)) == Some(t)
  {
  }

  lemma TechLocationTypeKeyRoundTrip(t: TechLocationType)
    ensures ParseTechLocationType(TechLocationTypeKey(t)) == Some(t)
  {
  }

  /** The enumerations are closed: the `All...` lists hold every member
      exactly once, and the keys tell members apart. */
  lemma EnumerationsComplete()
    ensures |AllObjectTypes| == 4 && (forall t: ObjectType :: t in AllObjectTypes)
    ensures |AllTechLocationTypes| == 6 && (forall t: TechLocationType :: t in AllTechLocationTypes)
    ensures |AllMaterialTypes| == 14 && (forall m: MaterialType :: m in AllMaterialTypes)
    ensures |AllStatuses| == 5 && (forall s: SheetStatus :: s in AllStatuses)
    ensures forall i, j :: 0 <= i < j < |AllMaterialTypes| ==>
      MaterialTypeKey(AllMaterialTypes[i]) != MaterialTypeKey(AllMaterialTypes[j])
    ensures forall i, j :: 0 <= i < j < |AllStatuses| ==>
      StatusKey(AllStatuses[i]) != StatusKey(AllStatuses[j])
  {
    forall t: ObjectType ensures t in AllObjectTypes {
      match t
      case Line => assert AllObjectTypes[0] == t;
      case Substation => assert AllObjectTypes[1] == t;
      case TransformerSubstation => assert AllObjectTypes[2] == t;
      case DistributionPoint => assert AllObjectTypes[3] == t;
    }
    forall t: TechLocationType ensures t in AllTechLocationTypes {
      var i := match t
        case Support => 0 case Span => 1 case Bay => 2
        case Unit => 3 case Feeder => 4 case Transformer => 5;
      assert AllTechLocationTypes[i] == t;
    }
    forall m: MaterialType ensures m in AllMaterialTypes {
      var i := match m
        case Insulator => 0 case Wire => 1 case Cable => 2 case Pole => 3
        case Crossarm => 4 case LightningRod => 5 case Transformer => 6
        case CircuitBreaker => 7 case Disconnector => 8 case CurrentTransformer => 9
        case VoltageTransformer => 10 case SurgeArrester => 11 case Busbar => 12
        case SupportInsulator => 13;
      assert AllMaterialTypes[i] == m;
    }
    forall s: SheetStatus ensures s in AllStatuses {
      var i := match s
        case Draft => 0 case InWork => 1 case UnderReview => 2
        case Returned => 3 case Approved => 4;
      assert AllStatuses[i] == s;
    }
  }

  // ---- records --------------------------------------------------------------

  /** A characteristic value, `string | number`. */
  datatype Scalar = Str(text: string) | Num(number: int)

  datatype User = User(id: string, name: string, role: UserRole)

  datatype PowerObject = PowerObject(
    id: string,
    name: string,
    objectType: ObjectType,
    address: Option<string>,
    description: Option<string>,
    availableTechLocationTypes: seq<TechLocationType>,
    characteristics: map<string, Scalar>)

  datatype Characteristic = Characteristic(
    key: string,
    title: string,
    value: Scalar,
    unit: Option<string>,
    editable: bool)

  /** `url` is an opaque reference (a data URL in the application). */
  datatype Photo = Photo(id: string, url: string, description: Option<string>, createdAt: string)

  datatype Material = Material(
    id: string,
    materialType: MaterialType,
    name: string,
    quantity: int,
    unit: string,
    characteristics: Option<map<string, Scalar>>,
    addedDuringInventory: bool)

  datatype TechnicalLocation = TechnicalLocation(
    id: string,
    objectId: string,
    locationType: TechLocationType,
    name: string,
    characteristics: seq<Characteristic>,
    comment: Option<string>,
    inspected: bool,
    inspectedAt: Option<string>,
    photos: seq<Photo>,
    materials: seq<Material>)

  /** `powerObject` (the source's `object`), `executor`, `creator` and `approver` are snapshots taken when
      the sheet was written, not live references. */
  datatype InventorySheet = InventorySheet(
    id: string,
    number: string,
    objectId: string,
    powerObject: Option<PowerObject>,
    selectedTechLocationIds: Option<seq<string>>,
    executorId: string,
    executor: Option<User>,
    creatorId: string,
    creator: Option<User>,
    status: SheetStatus,
    techLocations: seq<TechnicalLocation>,
    createdAt: string,
    acceptedAt: Option<string>,
    submittedAt: Option<string>,
    returnedAt: Option<string>,
    returnComment: Option<string>,
    approvedAt: Option<string>,
    approvedBy: Option<string>,
    approver: Option<User>)

  // ---- OBJECT_TYPE_CONFIG ---------------------------------------------------

  datatype ObjectTypeInfo = ObjectTypeInfo(title: string, availableTechLocationTypes: seq<TechLocationType>)

  function ObjectTypeConfig(t: ObjectType): ObjectTypeInfo {
    match t
    case Line => ObjectTypeInfo("ЛЭП", [Support, Span])
    case Substation => ObjectTypeInfo("Подстанция", [Bay, Unit])
    case TransformerSubstation => ObjectTypeInfo("Трансформаторная подстанция", [TechLocationType.Transformer, Bay])
    case DistributionPoint => ObjectTypeInfo("Распределительный пункт", [Feeder, Bay])
  }

  /** Every object type allows exactly two, different, technical-location types. */
  lemma ObjectTypeConfigShape(t: ObjectType)
    ensures |ObjectTypeConfig(t).availableTechLocationTypes| == 2
    ensures ObjectTypeConfig(t).availableTechLocationTypes[0] != ObjectTypeConfig(t).availableTechLocationTypes[1]
  {
  }

  // ---- TECH_LOCATION_TYPE_CONFIG --------------------------------------------

  datatype TechLocationTypeInfo = TechLocationTypeInfo(
    title: string,
    defaultCharacteristics: seq<Characteristic>,
    availableMaterials: seq<MaterialType>)

  /** A template entry: an editable characteristic with an empty value. */
  function Blank(key: string, title: string, unit: Option<string>): Characteristic {
    Characteristic(key, title, Str(""), unit, true)
  }

  function TechLocationTypeConfig(t: TechLocationType): TechLocationTypeInfo {
    match t
    case Support => TechLocationTypeInfo("Опора",
      [Blank("height", "Высота", Some("м")),
       Blank("type", "Тип", None),
       Blank("material", "Материал", None),
       Blank("yearInstalled", "Год установки", None)],
      [Pole, Crossarm, Insulator, LightningRod])
    case Span => TechLocationTypeInfo("Пролет",
      [Blank("length", "Длина", Some("м")),
       Blank("wireType", "Тип провода", None),
       Blank("wireCrossSection", "Сечение провода", Some("мм²"))],
      [Wire, Insulator])
    case Bay => TechLocationTypeInfo("Ячейка",
      [Blank("number", "Номер", None),
       Blank("voltage", "Напряжение", Some("кВ")),
       Blank("circuitName", "Наименование присоединения", None)],
      [CircuitBreaker, Disconnector, CurrentTransformer, VoltageTransformer,
       SurgeArrester, Busbar, SupportInsulator])
    case Unit => TechLocationTypeInfo("Блок",
      [Blank("name", "Наименование", None),
       Blank("voltage", "Напряжение", Some("кВ"))],
      [MaterialType.Transformer, CircuitBreaker, Disconnector])
    case Feeder => TechLocationTypeInfo("Фидер",
      [Blank("number", "Номер", None),
       Blank("voltage", "Напряжение", Some("кВ")),
       Blank("load", "Нагрузка", Some("А"))],
      [Cable, CircuitBreaker, Disconnector])
    case Transformer => TechLocationTypeInfo("Трансформатор",
      [Blank("power", "Мощность", Some("кВА")),
       Blank("voltageHigh", "Напряжение ВН", Some("кВ")),
       Blank("voltageLow", "Напряжение НН", Some("кВ")),
       Blank("yearInstalled", "Год установки", None)],
      [MaterialType.Transformer])
  }

  /** What a default-characteristics template must look like: distinct keys,
      every entry editable and empty. */
  predicate WellFormedTemplate(cs: seq<Characteristic>) {
    && (forall i, j :: 0 <= i < j < |cs| ==> cs[i].key != cs[j].key)
    && (forall i :: 0 <= i < |cs| ==> cs[i].editable && cs[i].value == Str(""))
  }

  lemma DefaultCharacteristicsWellFormed(t: TechLocationType)
    ensures WellFormedTemplate(TechLocationTypeConfig(t).defaultCharacteristics)
    ensures |TechLocationTypeConfig(t).defaultCharacteristics| >= 2
  {
    match t
    case Support =>
    case Span =>
    case Bay =>
    case Unit =>
    case Feeder =>
    case Transformer =>
  }

  /** Every technical-location type offers a non-empty list of distinct
      material types, each of which has a material configuration entry. */
  lemma AvailableMaterialsWellFormed(t: TechLocationType)
    ensures var ms := TechLocationTypeConfig(t).availableMaterials;
      && |ms| >= 1
      && (forall i, j :: 0 <= i < j < |ms| ==> ms[i] != ms[j])
      && (forall i :: 0 <= i < |ms| ==> ms[i] in AllMaterialTypes)
  {
    EnumerationsComplete();
  }

  // ---- MATERIAL_TYPE_CONFIG -------------------------------------------------

  datatype MaterialTypeInfo = MaterialTypeInfo(title: string, unit: string)

  function MaterialTypeConfig(m: MaterialType): MaterialTypeInfo {
    match m
    case Insulator => MaterialTypeInfo("Изолятор", "шт")
    case Wire => MaterialTypeInfo("Провод", "м")
    case Cable => MaterialTypeInfo("Кабель", "м")
    case Pole => MaterialTypeInfo("Стойка", "шт")
    case Crossarm => MaterialTypeInfo("Траверса", "шт")
    case LightningRod => MaterialTypeInfo("Грозозащитный трос", "м")
    case Transformer => MaterialTypeInfo("Трансформатор", "шт")
    case CircuitBreaker => MaterialTypeInfo("Выключатель", "шт")
    case Disconnector => MaterialTypeInfo("Разъединитель", "шт")
    case CurrentTransformer => MaterialTypeInfo("Трансформатор тока", "шт")
    case VoltageTransformer => MaterialTypeInfo("Трансформатор напряжения", "шт")
    case SurgeArrester => MaterialTypeInfo("ОПН", "шт")
    case Busbar => MaterialTypeInfo("Шина", "м")
    case SupportInsulator => MaterialTypeInfo("Опорный изолятор", "шт")
  }

  /** Materials are counted in pieces or measured in metres, nothing else;
      and the fourteen labels are pairwise different. */
  lemma MaterialUnits(m: MaterialType)
    ensures MaterialTypeConfig(m).unit == "шт" || MaterialTypeConfig(m).unit == "м"
    ensures MaterialTypeConfig(m).unit == "м" <==> m in {Wire, Cable, LightningRod, Busbar}
  {
  }

  lemma MaterialLabelsDistinct(a: MaterialType, b: MaterialType)
    ensures MaterialTypeConfig(a).title == MaterialTypeConfig(b).title <==> a == b
  {
  }

  // ---- STATUS_CONFIG --------------------------------------------------------

  datatype StatusInfo = StatusInfo(title: string, color: string)

  function StatusConfig(s: SheetStatus): StatusInfo {
    match s
    case Draft => StatusInfo("Черновик", "default")
    case InWork => StatusInfo("В работе", "processing")
    case UnderReview => StatusInfo("На проверке", "warning")
    case Returned => StatusInfo("Возвращен на доработку", "error")
    case Approved => StatusInfo("Согласовано", "success")
  }

  /** Each status is shown with its own label and its own colour. */
  lemma StatusConfigDistinct(a: SheetStatus, b: SheetStatus)
    ensures StatusConfig(a).title == StatusConfig(b).title <==> a == b
    ensures StatusConfig(a).color == StatusConfig(b).color <==> a == b
  {
  }
}
