/**
 * The relational schema of the device inventory: the CSV column list shared
 * by the upload and the staging table WKPBE_Test_kurz, the label dimensions,
 * the composite dimensions (sites, rooms, models), the devices fact table and
 * the whole database as one value.
 */
module Schema {
  import opened Wrappers

  /** CSV_COLUMNS: the 47 columns of the CSV and of the staging table, in order. */
  const CsvColumns: seq<string> := [
    "PL_NAME", "REGION", "COMPANY", "SITEGROUP", "SITE", "ROOM",
    "PHYSICALPOSITION", "SHORTDESCRIPTION", "DEPARTMENT", "OWNED_BY",
    "USED_BY", "SUPPORTED_BY", "PL_COST_CENTER", "PL_STATUS", "RELATION",
    "DESTINATION_CLASSID", "TIER1", "TIER2", "TIER3", "MODEL",
    "MANUFACTURERNAME", "CI_NAME", "SERIALNUMBER", "CI_ID", "BUDGETCODE",
    "CI_ROOM", "FLOOR", "PARTNUMBER", "SUPPLIERNAME", "CI_STATUS",
    "PURCHASE_DATE", "RECEIVED_DATE", "INSTALLATION_DATE", "AVAILABLE_DATE",
    "RETURN_DATE", "DISPOSAL_DATE", "MARK_AS_DELETED", "CREATE_DATE",
    "MODIFIED_DATE", "ROLE", "CHILDNAME", "CONFBASICNUMBER", "BUILDNUMBER",
    "TYPE", "ADDITIONAL_INFORMATION", "DEPOT", "SUPPORTED"
  ]

  const NumCsvColumns: nat := 47

  // Positions of the staging columns the normalizer reads.
  const ColPlName := 0
  const ColRegion := 1
  const ColCompany := 2
  const ColSitegroup := 3
  const ColSite := 4
  const ColRoom := 5
  const ColPhysicalPosition := 6
  const ColShortDescription := 7
  const ColDepartment := 8
  const ColOwnedBy := 9
  const ColUsedBy := 10
  const ColSupportedBy := 11
  const ColCostCenter := 12
  const ColPlStatus := 13
  const ColRelation := 14
  const ColDestinationClassId := 15
  const ColTier1 := 16
  const ColTier2 := 17
  const ColTier3 := 18
  const ColModel := 19
  const ColManufacturer := 20
  const ColCiName := 21
  const ColSerialNumber := 22
  const ColCiId := 23
  const ColBudgetCode := 24
  const ColCiRoom := 25
  const ColFloor := 26
  const ColPartnumber := 27
  const ColSupplier := 28
  const ColCiStatus := 29
  const ColType := 43
  const ColDepot := 45

  /** One staging row: a value for every CSV column, never NULL. */
  type StagingRecord = r: seq<string> | |r| == NumCsvColumns witness seq(NumCsvColumns, _ => "")

  /** The label dimensions: a lookup table mapping a label to a surrogate id. */
  datatype Dim =
    | Region | PlName | OwnedBy | UsedBy | SupportedBy | Supplier | Department
    | CostCenter | Manufacturer | Tier1 | Tier2 | Tier3 | Relation | Type
    | Depot | PlStatus | CiStatus | Partnumber
  {
    /** The staging column the dimension's labels come from. */
    function Column(): (c: nat)
      ensures c < NumCsvColumns
    {
      match this
      case Region => ColRegion
      case PlName => ColPlName
      case OwnedBy => ColOwnedBy
      case UsedBy => ColUsedBy
      case SupportedBy => ColSupportedBy
      case Supplier => ColSupplier
      case Department => ColDepartment
      case CostCenter => ColCostCenter
      case Manufacturer => ColManufacturer
      case Tier1 => ColTier1
      case Tier2 => ColTier2
      case Tier3 => ColTier3
      case Relation => ColRelation
      case Type => ColType
      case Depot => ColDepot
      case PlStatus => ColPlStatus
      case CiStatus => ColCiStatus
      case Partnumber => ColPartnumber
    }
  }

  /** sites(company, sitegroup, site, region_id); region_id comes from an inner join. */
  datatype SiteRow = SiteRow(company: string, sitegroup: string, site: string, regionId: nat)

  /** rooms(room, physicalposition, ci_room, floor, site_id). */
  datatype RoomRow = RoomRow(room: string, physicalPosition: string, ciRoom: string, floor: string, siteId: nat)

  /** models(manu_id, tier1_id, tier2_id, tier3_id, model, partnumber_id), ids nullable. */
  datatype ModelRow = ModelRow(
    manuId: Option<nat>, tier1Id: Option<nat>, tier2Id: Option<nat>, tier3Id: Option<nat>,
    model: string, partnumberId: Option<nat>)

  /**
   * The label dimensions a device references directly, in the order of the
   * devices INSERT: pl_name_id, owner_id, supporter_id, user_id,
   * costcenter_id, supplier_id, relation_id, department_id, type_id,
   * depot_id, pl_status_id, ci_status_id.
   */
  function DeviceDim(i: nat): Dim {
    if i == 0 then PlName
    else if i == 1 then OwnedBy
    else if i == 2 then SupportedBy
    else if i == 3 then UsedBy
    else if i == 4 then CostCenter
    else if i == 5 then Supplier
    else if i == 6 then Relation
    else if i == 7 then Department
    else if i == 8 then Type
    else if i == 9 then Depot
    else if i == 10 then PlStatus
    else CiStatus
  }

  const NumDeviceDims: nat := 12

  /**
   * The staging columns copied verbatim into a device, in the order of the
   * devices INSERT: serialnumber, shortdescription, destination_classid,
   * the six dates, mark_as_deleted, create_date, modified_date, role,
   * childname, confbuildnumber (from CONFBASICNUMBER), buildnumber,
   * additional_information, supported.
   */
  function DeviceScalarCol(j: nat): (c: nat)
    ensures c < NumCsvColumns
  {
    if j == 0 then ColSerialNumber
    else if j == 1 then ColShortDescription
    else if j == 2 then ColDestinationClassId
    else if j <= 15 then j + 27   // PURCHASE_DATE (30) … BUILDNUMBER (42)
    else if j == 16 then 44       // ADDITIONAL_INFORMATION
    else 46                       // SUPPORTED
  }

  const NumDeviceScalars: nat := 18

  /**
   * devices: the scalar columns (DeviceScalarCol order), the label foreign
   * keys (DeviceDim order), model_id and room_id.
   */
  datatype DeviceRow = DeviceRow(
    scalars: seq<string>, labelIds: seq<Option<nat>>, modelId: Option<nat>, roomId: Option<nat>)

  /** The 23 tables of the device database. */
  datatype Db = Db(
    staging: seq<StagingRecord>,
    labels: map<Dim, seq<string>>,
    sites: seq<SiteRow>,
    rooms: seq<RoomRow>,
    models: seq<ModelRow>,
    devices: seq<DeviceRow>)
  {
    /** The rows of one label table; a table never written is empty. */
    function Label(d: Dim): seq<string> {
      if d in labels then labels[d] else []
    }
  }

  /** A table name as TRUNCATE TABLE sees it. */
  datatype Table =
    | StagingTable | LabelTable(dim: Dim) | SitesTable | RoomsTable | ModelsTable | DevicesTable

  /** The database with every table empty. */
  const EmptyDb: Db := Db([], map[], [], [], [], [])

  /** Every table of db is empty. */
  ghost predicate AllEmpty(db: Db) {
    && db.staging == [] && db.sites == [] && db.rooms == [] && db.models == [] && db.devices == []
    && forall d: Dim :: db.Label(d) == []
  }

  lemma SchemaShape()
    ensures |CsvColumns| == NumCsvColumns
  {
  }
}
