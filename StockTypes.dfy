/** The records of the stockpile app: stock rows, move logs, alerts, products, organisation
  * units, branch settings and donation records, with the JavaScript truthiness rules the
  * code applies to their optional fields. */
module StockTypes {
  import opened Wrappers

  /** The six food categories. */
  datatype FoodCategory = Water | Staple | Canned | Snack | Seasoning | Other

  /** The label each category is stored and shown under. */
  function CategoryName(c: FoodCategory): string {
    match c
    case Water => "水・飲料"
    case Staple => "主食（米・パン）"
    case Canned => "缶詰・レトルト"
    case Snack => "お菓子・栄養補助"
    case Seasoning => "調味料"
    case Other => "その他"
  }

  /** Distinct categories carry distinct labels. */
  lemma CategoryNameInjective(a: FoodCategory, b: FoodCategory)
    requires CategoryName(a) == CategoryName(b)
    ensures a == b
  {
    assert CategoryName(a)[0] == CategoryName(b)[0];
    if a.Water? || b.Water? || a.Staple? || b.Staple? {
      assert CategoryName(a)[1] == CategoryName(b)[1];
    }
  }

  /** One stock row. */
  datatype StockItem = StockItem(
    id: string,
    name: string,
    category: FoodCategory,
    quantity: int,
    unit: string,
    expirationDate: string,
    branch: string,
    storageLocation: string,
    donated: bool,
    notes: Option<string>,
    serialNumber: Option<string>,
    createdAt: Option<string>,
    updatedAt: Option<string>,
    rowIndex: Option<int>)

  /** One entry of the move audit log. */
  datatype MoveLog = MoveLog(
    id: string,
    timestamp: string,
    operator: string,
    itemId: string,
    itemName: string,
    category: string,
    quantity: int,
    unit: string,
    fromBranch: string,
    fromStorage: string,
    toBranch: string,
    toStorage: string,
    notes: Option<string>)

  datatype AlertLevel = Expired | Urgent | Warning | Safe

  datatype ExpirationAlert = ExpirationAlert(item: StockItem, level: AlertLevel, daysUntilExpiration: int)

  /** A shortage of one product at one branch. */
  datatype ShortageAlert = ShortageAlert(
    branch: string,
    category: string,
    required: int,
    current: int,
    shortage: int,
    itemName: Option<string>)

  /** Per-branch settings: headcount, required days and storage locations. */
  datatype BranchConfig = BranchConfig(
    id: string,
    name: string,
    headcount: int,
    requiredDays: int,
    storageLocations: seq<string>)

  /** A product master entry. */
  datatype Product = Product(
    id: string,
    name: string,
    category: FoodCategory,
    unit: string,
    defaultExpirationDays: int,
    barcodes: seq<string>,
    description: Option<string>,
    dailyRequirementPerPerson: Option<real>,
    weightKg: Option<real>,
    co2PerUnit: Option<real>,
    disposalCost: Option<real>,
    contentPerUnit: Option<real>,
    contentUnit: Option<string>)

  /** A stock row of the master-data model. */
  datatype StockInventory = StockInventory(
    id: string,
    productId: string,
    branchId: string,
    storageLocation: string,
    quantity: int,
    expirationDate: string,
    createdAt: string,
    updatedAt: string,
    notes: Option<string>)

  /** The three layers of the organisation tree. */
  datatype OrgLayer = Branch | Department | Location

  /** Latitude and longitude, for the map. */
  datatype LatLng = LatLng(lat: real, lng: real)

  /** A node of the organisation tree, linked to its parent by id, with its BCP settings. */
  datatype OrgUnit = OrgUnit(
    id: string,
    name: string,
    layer: OrgLayer,
    parentId: Option<string>,
    address: Option<string>,
    headcount: Option<int>,
    location: Option<LatLng>,
    bcpTargetDays: Option<int>,
    maxCapacity: Option<int>,
    emergencyContact: Option<string>,
    guidelineUrl: Option<string>,
    bcpTargetPeople: Option<int>,
    ordinanceRequirement: Option<int>)

  /** The ids of some units, in order (`units.map(u => u.id)`). */
  function IdsOf(us: seq<OrgUnit>): (r: seq<string>)
    ensures |r| == |us|
    ensures forall k :: 0 <= k < |us| ==> r[k] == us[k].id
  {
    if us == [] then [] else [us[0].id] + IdsOf(us[1..])
  }

  datatype DonationLine = DonationLine(productName: string, quantity: int, weightKg: Option<real>)

  datatype DonationRecord = DonationRecord(
    id: string,
    date: string,
    recipientName: string,
    distanceKm: Option<real>,
    items: seq<DonationLine>)
}
