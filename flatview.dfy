/**
 * recreate_device_flat_view: the view device_flat joins every device back to
 * its labels, its room, the room's site and region, and its model with the
 * model's manufacturer, tiers and partnumber. Every join is a LEFT JOIN on a
 * surrogate key, so the view is a pure projection with one row per device.
 */
module FlatView {
  import opened Wrappers
  import opened Relational
  import opened Schema
  import opened Normalizer

  /** A view row: one nullable value per view column. */
  type FlatRow = seq<Option<string>>

  const NumFlatColumns: nat := 44

  /** The column aliases of the view, in its SELECT order. */
  const FlatViewColumns: seq<string> := [
    "PL_NAME", "REGION", "COMPANY", "SITEGROUP", "SITE", "ROOM",
    "PHYSICALPOSITION", "SHORTDESCRIPTION", "DEPARTMENT", "OWNED_BY",
    "USED_BY", "SUPPORTED_BY", "PL_COST_CENTER", "PL_STATUS", "RELATION",
    "DESTINATION_CLASSID", "TIER1", "TIER2", "TIER3", "MODEL",
    "MANUFACTURERNAME", "SERIALNUMBER",
    "CI_ROOM", "FLOOR", "PARTNUMBER", "SUPPLIERNAME", "CI_STATUS",
    "PURCHASE_DATE", "RECEIVED_DATE", "INSTALLATION_DATE", "AVAILABLE_DATE",
    "RETURN_DATE", "DISPOSAL_DATE", "MARK_AS_DELETED", "CREATE_DATE",
    "MODIFIED_DATE", "ROLE", "CHILDNAME", "CONFBASICNUMBER", "BUILDNUMBER",
    "TYPE", "ADDITIONAL_INFORMATION", "DEPOT", "SUPPORTED"
  ]

  /** The CSV column a view column reproduces: everything but CI_NAME, CI_ID and BUDGETCODE. */
  function FlatCsvCol(p: nat): nat {
    if p < ColCiName then p else if p == ColCiName then ColSerialNumber else p + 3
  }

  /** The staged value the view's column p is taken from. */
  function FlatSource(t: StagingRecord, p: nat): string
    requires p < NumFlatColumns
  {
    t[FlatCsvCol(p)]
  }

  /** The view's columns before SERIALNUMBER are the CSV columns before CI_NAME. */
  lemma FlatHeadColumns()
    ensures FlatViewColumns[..ColCiName] == CsvColumns[..ColCiName]
  {
  }

  /** The view's columns after SERIALNUMBER are the CSV columns from CI_ROOM on. */
  lemma FlatTailColumns()
    ensures FlatViewColumns[ColCiName + 1..] == CsvColumns[ColCiRoom..]
  {
  }

  lemma FlatHeadColumn(p: nat)
    requires p < ColCiName
    ensures FlatViewColumns[p] == CsvColumns[p]
  {
    FlatHeadColumns();
    assert FlatViewColumns[p] == FlatViewColumns[..ColCiName][p];
  }

  lemma FlatTailColumn(p: nat)
    requires ColCiName < p < NumFlatColumns
    ensures FlatViewColumns[p] == CsvColumns[p + 3]
  {
    FlatTailColumns();
    var k := p - ColCiName - 1;
    assert FlatViewColumns[p] == FlatViewColumns[ColCiName + 1..][k];
    assert CsvColumns[p + 3] == CsvColumns[ColCiRoom..][k];
  }

  /** The view's columns are the CSV columns without CI_NAME, CI_ID and BUDGETCODE, in the same order. */
  lemma FlatViewColumnsAreCsvColumns()
    ensures |FlatViewColumns| == NumFlatColumns
    ensures forall p :: 0 <= p < NumFlatColumns ==> FlatViewColumns[p] == CsvColumns[FlatCsvCol(p)]
  {
    forall p | 0 <= p < NumFlatColumns
      ensures FlatViewColumns[p] == CsvColumns[FlatCsvCol(p)]
    {
      if p < ColCiName {
        FlatHeadColumn(p);
      } else if ColCiName < p {
        FlatTailColumn(p);
      } else {
        assert FlatViewColumns[ColCiName] == CsvColumns[ColSerialNumber];
      }
    }
  }

  // ---------------------------------------------------------------------
  // LEFT JOIN on a surrogate key

  /** The primary-key column of a table with n rows: 1, 2, …, n. */
  function IdColumn(n: nat): (ids: seq<nat>)
    ensures |ids| == n && forall i :: 0 <= i < n ==> ids[i] == i + 1
  {
    seq(n, i => i + 1)
  }

  /** LEFT JOIN t ON t.id = key: the row the key names, or NULL (also for a NULL key). */
  function Lookup<T>(table: seq<T>, key: Option<nat>): Option<T> {
    if key.Some? && 1 <= key.value <= |table| then Some(table[key.value - 1]) else None
  }

  /** A LEFT JOIN on the primary key never fans out: it yields exactly the row Lookup names, or one NULL. */
  lemma LookupIsKeyJoin<T>(table: seq<T>, key: Option<nat>)
    ensures LeftJoin(IdColumn(|table|), (pk: nat) => SqlEq(Some(pk), key))
      == if Lookup(table, key).Some? then [key] else [None]
  {
    var ids := IdColumn(|table|);
    var p := (pk: nat) => SqlEq(Some(pk), key);
    assert forall j :: 0 <= j < |ids| ==> (p(ids[j]) <==> key == Some(j + 1));
    if key.Some? && 1 <= key.value <= |table| {
      LeftJoinSingle(ids, p, key.value - 1);
    }
  }

  // ---------------------------------------------------------------------
  // The view's columns

  /** The label text a key names in dimension d. */
  function LabelAt(db: Db, d: Dim, key: Option<nat>): Option<string> {
    Lookup(db.Label(d), key)
  }

  function KeyAt(ids: seq<Option<nat>>, i: nat): Option<nat> {
    if i < |ids| then ids[i] else None
  }

  /** The device's label-key position a view column reads, if it is a label column. */
  function FlatLabelKey(p: nat): Option<nat> {
    if p == 0 then Some(0)             // PL_NAME
    else if p == 8 then Some(7)        // DEPARTMENT
    else if p == 9 then Some(1)        // OWNED_BY
    else if p == 10 then Some(3)       // USED_BY
    else if p == 11 then Some(2)       // SUPPORTED_BY
    else if p == 12 then Some(4)       // PL_COST_CENTER
    else if p == 13 then Some(10)      // PL_STATUS
    else if p == 14 then Some(6)       // RELATION
    else if p == 25 then Some(5)       // SUPPLIERNAME
    else if p == 26 then Some(11)      // CI_STATUS
    else if p == 40 then Some(8)       // TYPE
    else if p == 42 then Some(9)       // DEPOT
    else None
  }

  /** The device's scalar position a view column copies, if it is a scalar column. */
  function FlatScalar(p: nat): Option<nat> {
    if p == 7 then Some(1)                  // SHORTDESCRIPTION
    else if p == 15 then Some(2)            // DESTINATION_CLASSID
    else if p == 21 then Some(0)            // SERIALNUMBER
    else if 27 <= p <= 39 then Some(p - 24) // PURCHASE_DATE … BUILDNUMBER
    else if p == 41 then Some(16)           // ADDITIONAL_INFORMATION
    else if p == 43 then Some(17)           // SUPPORTED
    else None
  }

  /** The view columns that come through the room: ROOM, PHYSICALPOSITION, CI_ROOM, FLOOR. */
  predicate ViaRoom(p: nat) {
    p == 5 || p == 6 || p == 22 || p == 23
  }

  /** The view columns that come through room → site (→ region): REGION, COMPANY, SITEGROUP, SITE. */
  predicate ViaSite(p: nat) {
    1 <= p <= 4
  }

  /** The view columns that come through the model: TIER1-3, MODEL, MANUFACTURERNAME, PARTNUMBER. */
  predicate ViaModel(p: nat) {
    16 <= p <= 20 || p == 24
  }

  function ScalarAt(dv: DeviceRow, j: nat): Option<string> {
    if j < |dv.scalars| then Some(dv.scalars[j]) else None
  }

  function RoomOf(db: Db, dv: DeviceRow): Option<RoomRow> {
    Lookup(db.rooms, dv.roomId)
  }

  function SiteOf(db: Db, dv: DeviceRow): Option<SiteRow> {
    match RoomOf(db, dv)
    case None => None
    case Some(r) => Lookup(db.sites, Some(r.siteId))
  }

  function ModelOf(db: Db, dv: DeviceRow): Option<ModelRow> {
    Lookup(db.models, dv.modelId)
  }

  /** A column of the room row, NULL without a room. */
  function RoomCell(db: Db, dv: DeviceRow, p: nat): Option<string> {
    match RoomOf(db, dv)
    case None => None
    case Some(r) =>
      if p == 5 then Some(r.room)
      else if p == 6 then Some(r.physicalPosition)
      else if p == 22 then Some(r.ciRoom)
      else Some(r.floor)
  }

  /** A column of the site row or its region, NULL without a site. */
  function SiteCell(db: Db, dv: DeviceRow, p: nat): Option<string> {
    match SiteOf(db, dv)
    case None => None
    case Some(s) =>
      if p == 1 then LabelAt(db, Region, Some(s.regionId))
      else if p == 2 then Some(s.company)
      else if p == 3 then Some(s.sitegroup)
      else Some(s.site)
  }

  /** A column of the model row or one of its labels, NULL without a model. */
  function ModelCell(db: Db, dv: DeviceRow, p: nat): Option<string> {
    match ModelOf(db, dv)
    case None => None
    case Some(m) =>
      if p == 16 then LabelAt(db, Tier1, m.tier1Id)
      else if p == 17 then LabelAt(db, Tier2, m.tier2Id)
      else if p == 18 then LabelAt(db, Tier3, m.tier3Id)
      else if p == 19 then Some(m.model)
      else if p == 20 then LabelAt(db, Manufacturer, m.manuId)
      else LabelAt(db, Partnumber, m.partnumberId)
  }

  /** The value of view column p for device dv. */
  function FlatCell(db: Db, dv: DeviceRow, p: nat): Option<string> {
    match FlatLabelKey(p)
    case Some(i) => LabelAt(db, DeviceDim(i), KeyAt(dv.labelIds, i))
    case None =>
      match FlatScalar(p)
      case Some(j) => ScalarAt(dv, j)
      case None =>
        if ViaRoom(p) then RoomCell(db, dv, p)
        else if ViaSite(p) then SiteCell(db, dv, p)
        else ModelCell(db, dv, p)
  }

  /** The view row of one device. */
  function FlatRowOf(db: Db, dv: DeviceRow): (r: FlatRow)
    ensures |r| == NumFlatColumns
  {
    seq(NumFlatColumns, p requires 0 <= p < NumFlatColumns => FlatCell(db, dv, p))
  }

  /** SELECT … FROM device_flat: one row per device; the model lists them in devices-table order, where the engine may use any order. */
  function DeviceFlat(db: Db): seq<FlatRow> {
    MapSeq(db.devices, (dv: DeviceRow) => FlatRowOf(db, dv))
  }

  // ---------------------------------------------------------------------
  // Properties of the view

  /** Every view column is exactly one of: label column, scalar column, via room, via site, via model. */
  lemma FlatColumnKinds(p: nat)
    requires p < NumFlatColumns
    ensures FlatLabelKey(p).Some? ==> FlatScalar(p).None? && !ViaRoom(p) && !ViaSite(p) && !ViaModel(p)
    ensures FlatScalar(p).Some? ==> !ViaRoom(p) && !ViaSite(p) && !ViaModel(p)
    ensures FlatLabelKey(p).None? && FlatScalar(p).None? ==>
      (ViaRoom(p) && !ViaSite(p) && !ViaModel(p)) || (ViaSite(p) && !ViaModel(p)) || ViaModel(p)
    ensures FlatLabelKey(p).Some? ==>
      FlatLabelKey(p).value < NumDeviceDims && DeviceDim(FlatLabelKey(p).value).Column() == FlatCsvCol(p)
    ensures FlatScalar(p).Some? ==>
      FlatScalar(p).value < NumDeviceScalars && DeviceScalarCol(FlatScalar(p).value) == FlatCsvCol(p)
  {
  }

  /** The view columns reached through the model are the model's cells. */
  lemma FlatCellViaModel(db: Db, dv: DeviceRow, p: nat)
    requires p < NumFlatColumns && ViaModel(p)
    ensures FlatCell(db, dv, p) == ModelCell(db, dv, p)
  {
    FlatColumnKinds(p);
  }

  /** The view columns reached through the room are the room's cells. */
  lemma FlatCellViaRoom(db: Db, dv: DeviceRow, p: nat)
    requires p < NumFlatColumns && ViaRoom(p)
    ensures FlatCell(db, dv, p) == RoomCell(db, dv, p)
  {
    FlatColumnKinds(p);
  }

  /** The view columns reached through the room's site are the site's cells. */
  lemma FlatCellViaSite(db: Db, dv: DeviceRow, p: nat)
    requires p < NumFlatColumns && ViaSite(p)
    ensures FlatCell(db, dv, p) == SiteCell(db, dv, p)
  {
    FlatColumnKinds(p);
  }

  /** The view has one row per device and no other rows. */
  lemma DeviceFlatRows(db: Db)
    ensures |DeviceFlat(db)| == |db.devices|
    ensures forall i, p :: 0 <= i < |db.devices| && 0 <= p < NumFlatColumns ==>
      |DeviceFlat(db)[i]| == NumFlatColumns && DeviceFlat(db)[i][p] == FlatCell(db, db.devices[i], p)
  {
  }

  /** A NULL key yields NULL columns, and the row is still there. */
  lemma FlatNullKeys(db: Db, dv: DeviceRow, p: nat)
    requires p < NumFlatColumns
    ensures FlatLabelKey(p).Some? && KeyAt(dv.labelIds, FlatLabelKey(p).value) == None ==> FlatCell(db, dv, p) == None
    ensures dv.roomId == None && FlatLabelKey(p).None? && FlatScalar(p).None? && (ViaRoom(p) || ViaSite(p)) ==>
      FlatCell(db, dv, p) == None
    ensures dv.modelId == None && ViaModel(p) ==> FlatCell(db, dv, p) == None
  {
    FlatColumnKinds(p);
  }

  /**
   * COMPANY, SITEGROUP, SITE, REGION, ROOM, PHYSICALPOSITION, CI_ROOM and FLOOR
   * depend on nothing but the device's room id; the model columns on nothing
   * but its model id.
   */
  lemma FlatColumnSources(db: Db, dv1: DeviceRow, dv2: DeviceRow, p: nat)
    requires p < NumFlatColumns
    ensures dv1.roomId == dv2.roomId && (ViaRoom(p) || ViaSite(p)) ==> FlatCell(db, dv1, p) == FlatCell(db, dv2, p)
    ensures dv1.modelId == dv2.modelId && ViaModel(p) ==> FlatCell(db, dv1, p) == FlatCell(db, dv2, p)
  {
    FlatColumnKinds(p);
  }

  // ---------------------------------------------------------------------
  // Round trip: staging → normalized tables → view

  /** The value a label column shows after a fresh pass: the staged value, NULL for "". */
  function Nullable(v: string): Option<string> {
    if v == "" then None else Some(v)
  }

  /** The view reads the label, site, room and model tables, not the devices table itself. */
  lemma FlatCellReadsDimensions(db1: Db, db2: Db, dv: DeviceRow, p: nat)
    requires db1.labels == db2.labels && db1.sites == db2.sites && db1.rooms == db2.rooms && db1.models == db2.models
    ensures FlatCell(db1, dv, p) == FlatCell(db2, dv, p)
  {
  }

  /** Every staged value of t is a label exactly when it is non-empty. */
  ghost predicate LabelsCover(db: Db, t: StagingRecord) {
    forall d: Dim :: t[d.Column()] in db.Label(d) <==> t[d.Column()] != ""
  }

  /** Every site names an existing region. */
  ghost predicate SitesHaveRegions(db: Db) {
    forall s :: s in db.sites ==> 1 <= s.regionId <= |db.Label(Region)|
  }

  /** A fresh pass leaves label tables that cover every staging row. */
  lemma FreshLabelsCover(db: Db, t: StagingRecord)
    requires NormalizedEmpty(db) && t in db.staging
    ensures LabelsCover(PopulateDimensions(db), t)
  {
    var q := PopulateDimensions(db);
    PopulateFrame(db);
    forall d: Dim ensures t[d.Column()] in q.Label(d) <==> t[d.Column()] != "" {
      PopulateLabels(db, d);
      assert q.Label(d) == Populate(db).Label(d);
    }
  }

  /** A fresh pass leaves every site pointing at an existing region. */
  lemma FreshSitesHaveRegions(db: Db)
    requires NormalizedEmpty(db)
    ensures SitesHaveRegions(PopulateDimensions(db))
  {
    var q := PopulateDimensions(db);
    var r := Populate(db);
    PopulateFrame(db);
    PopulateSites(db);
    assert q.sites == r.sites && q.Label(Region) == r.Label(Region);
    forall s | s in q.sites ensures 1 <= s.regionId <= |q.Label(Region)| {
      var t :| t in db.staging && SiteFromRow(r.Label(Region), t, s);
    }
  }

  /** The view after a fresh pass reads the same dimension tables the devices INSERT joined. */
  lemma FreshViewTables(db: Db, dv: DeviceRow, p: nat)
    ensures FlatCell(Populate(db), dv, p) == FlatCell(PopulateDimensions(db), dv, p)
  {
    var q := PopulateDimensions(db);
    var r := Populate(db);
    assert r.labels == q.labels && r.sites == q.sites && r.rooms == q.rooms && r.models == q.models;
    FlatCellReadsDimensions(r, q, dv, p);
  }

  /**
   * The view row of a device of staging row t gives back t's scalar columns
   * verbatim and, when the label tables cover t, t's label columns with "" as NULL.
   */
  lemma FlatCellsOfDevice(db: Db, t: StagingRecord, dv: DeviceRow, p: nat)
    requires dv in DevicesFrom(db, t) && LabelsCover(db, t) && p < NumFlatColumns
    ensures FlatScalar(p).Some? ==> FlatCell(db, dv, p) == Some(FlatSource(t, p))
    ensures FlatLabelKey(p).Some? ==> FlatCell(db, dv, p) == Nullable(FlatSource(t, p))
  {
    FlatColumnKinds(p);
    if FlatLabelKey(p).Some? {
      FlatLabelOfDevice(db, t, dv, p);
    } else if FlatScalar(p).Some? {
      FlatScalarOfDevice(db, t, dv, p);
    }
  }

  lemma FlatLabelOfDevice(db: Db, t: StagingRecord, dv: DeviceRow, p: nat)
    requires dv in DevicesFrom(db, t) && LabelsCover(db, t) && p < NumFlatColumns && FlatLabelKey(p).Some?
    ensures FlatCell(db, dv, p) == Nullable(FlatSource(t, p))
  {
    FlatColumnKinds(p);
    var i := FlatLabelKey(p).value;
    var d := DeviceDim(i);
    assert FlatCell(db, dv, p) == LabelAt(db, d, KeyAt(dv.labelIds, i));
    assert FlatSource(t, p) == t[d.Column()];
    DeviceLabelKey(db, t, dv, i);
    assert t[d.Column()] in db.Label(d) <==> t[d.Column()] != "";
  }

  lemma FlatScalarOfDevice(db: Db, t: StagingRecord, dv: DeviceRow, p: nat)
    requires dv in DevicesFrom(db, t) && p < NumFlatColumns && FlatScalar(p).Some?
    ensures FlatCell(db, dv, p) == Some(FlatSource(t, p))
  {
    FlatColumnKinds(p);
    var j := FlatScalar(p).value;
    DevicesFromMember(db, t, dv);
    assert dv.scalars[j] == t[DeviceScalarCol(j)];
  }

  /** The model cells of a device whose model resolves t's lookups carry t's values. */
  lemma ModelCellsResolve(db: Db, t: StagingRecord, dv: DeviceRow, m: ModelRow)
    requires ModelOf(db, dv) == Some(m) && ModelResolvesTo(db, t, m)
    ensures ModelCell(db, dv, 19) == Some(t[ColModel]) && ModelCell(db, dv, 20) == Some(t[ColManufacturer])
    ensures ModelCell(db, dv, 16) == Some(t[ColTier1]) && ModelCell(db, dv, 17) == Some(t[ColTier2])
    ensures ModelCell(db, dv, 18) == Some(t[ColTier3])
  {
  }

  /** The room and site cells of a device whose room resolves t's lookups carry t's values. */
  lemma RoomCellsResolve(db: Db, t: StagingRecord, dv: DeviceRow)
    requires dv.roomId.Some? && RoomResolvesTo(db, t, dv.roomId.value) && SitesHaveRegions(db)
    ensures RoomCell(db, dv, 5) == Some(t[ColRoom]) && RoomCell(db, dv, 22) == Some(t[ColCiRoom])
    ensures SiteCell(db, dv, 4) == Some(t[ColSite]) && SiteCell(db, dv, 1).Some?
  {
    var room := db.rooms[dv.roomId.value - 1];
    var site := db.sites[room.siteId - 1];
    assert RoomOf(db, dv) == Some(room);
    assert SiteOf(db, dv) == Some(site);
    assert site in db.sites;
  }

  /** A model that resolves t's lookups shows t's MODEL, MANUFACTURERNAME and TIER1-3 in the view. */
  lemma FlatModelCells(db: Db, t: StagingRecord, dv: DeviceRow)
    requires dv.modelId.Some? && 1 <= dv.modelId.value <= |db.models|
    requires ModelResolvesTo(db, t, db.models[dv.modelId.value - 1])
    ensures FlatCell(db, dv, 19) == Some(t[ColModel]) && FlatCell(db, dv, 20) == Some(t[ColManufacturer])
    ensures FlatCell(db, dv, 16) == Some(t[ColTier1]) && FlatCell(db, dv, 17) == Some(t[ColTier2])
    ensures FlatCell(db, dv, 18) == Some(t[ColTier3])
  {
    ModelCellsResolve(db, t, dv, db.models[dv.modelId.value - 1]);
    FlatCellViaModel(db, dv, 19);
    FlatCellViaModel(db, dv, 20);
    FlatCellViaModel(db, dv, 16);
    FlatCellViaModel(db, dv, 17);
    FlatCellViaModel(db, dv, 18);
  }

  /** A device whose model resolved shows t's MODEL, MANUFACTURERNAME and TIER1-3. */
  lemma FlatModelOfDevice(db: Db, t: StagingRecord, dv: DeviceRow)
    requires dv in DevicesFrom(db, t)
    ensures dv.modelId.Some? ==>
        FlatCell(db, dv, 19) == Some(t[ColModel]) && FlatCell(db, dv, 20) == Some(t[ColManufacturer])
        && FlatCell(db, dv, 16) == Some(t[ColTier1]) && FlatCell(db, dv, 17) == Some(t[ColTier2]) && FlatCell(db, dv, 18) == Some(t[ColTier3])
  {
    DeviceModelKey(db, t, dv);
    if dv.modelId.Some? {
      FlatModelCells(db, t, dv);
    }
  }

  /**
   * A device whose room resolved shows t's ROOM, CI_ROOM and SITE, and a
   * non-NULL REGION when sites point at regions.
   */
  lemma FlatRoomOfDevice(db: Db, t: StagingRecord, dv: DeviceRow)
    requires dv in DevicesFrom(db, t) && SitesHaveRegions(db)
    ensures dv.roomId.Some? ==>
        FlatCell(db, dv, 5) == Some(t[ColRoom]) && FlatCell(db, dv, 22) == Some(t[ColCiRoom]) && FlatCell(db, dv, 4) == Some(t[ColSite]) && FlatCell(db, dv, 1).Some?
  {
    if dv.roomId.Some? {
      DeviceRoomKey(db, t, dv);
      RoomCellsResolve(db, t, dv);
      FlatCellViaRoom(db, dv, 5);
      FlatCellViaRoom(db, dv, 22);
      FlatCellViaSite(db, dv, 4);
      FlatCellViaSite(db, dv, 1);
    }
  }

  /**
   * Round trip staging → normalized tables → view after a fresh pass: every
   * device of staging row t shows t's scalar columns verbatim and t's label
   * columns with "" as NULL.
   */
  lemma FlatRoundTripColumns(db: Db, t: StagingRecord, dv: DeviceRow, p: nat)
    requires NormalizedEmpty(db) && t in db.staging && dv in DevicesFrom(PopulateDimensions(db), t)
    requires p < NumFlatColumns
    ensures FlatScalar(p).Some? ==> FlatCell(Populate(db), dv, p) == Some(FlatSource(t, p))
    ensures FlatLabelKey(p).Some? ==> FlatCell(Populate(db), dv, p) == Nullable(FlatSource(t, p))
  {
    FreshLabelsCover(db, t);
    FreshViewTables(db, dv, p);
    FlatCellsOfDevice(PopulateDimensions(db), t, dv, p);
  }

  /**
   * Round trip of the joined columns after a fresh pass: a resolved model
   * shows t's MODEL, MANUFACTURERNAME and TIER1-3; a resolved room shows t's
   * ROOM, CI_ROOM and SITE and a non-NULL REGION.
   */
  lemma FlatRoundTripJoins(db: Db, t: StagingRecord, dv: DeviceRow)
    requires NormalizedEmpty(db) && t in db.staging && dv in DevicesFrom(PopulateDimensions(db), t)
    ensures var r := Populate(db);
      dv.modelId.Some? ==>
        FlatCell(r, dv, 19) == Some(t[ColModel]) && FlatCell(r, dv, 20) == Some(t[ColManufacturer])
        && FlatCell(r, dv, 16) == Some(t[ColTier1]) && FlatCell(r, dv, 17) == Some(t[ColTier2])
        && FlatCell(r, dv, 18) == Some(t[ColTier3])
    ensures var r := Populate(db);
      dv.roomId.Some? ==>
        FlatCell(r, dv, 5) == Some(t[ColRoom]) && FlatCell(r, dv, 22) == Some(t[ColCiRoom])
        && FlatCell(r, dv, 4) == Some(t[ColSite]) && FlatCell(r, dv, 1).Some?
  {
    FreshSitesHaveRegions(db);
    forall p: nat ensures FlatCell(Populate(db), dv, p) == FlatCell(PopulateDimensions(db), dv, p) {
      FreshViewTables(db, dv, p);
    }
    FlatModelOfDevice(PopulateDimensions(db), t, dv);
    FlatRoomOfDevice(PopulateDimensions(db), t, dv);
  }

  /**
   * A staging row with neither ROOM nor CI_ROOM gets no room (the rooms INSERT
   * skips it), so its view rows show NULL for REGION, COMPANY, SITEGROUP and
   * SITE as well, even when SITE was given.
   */
  lemma FlatRoomlessRow(db: Db, t: StagingRecord, dv: DeviceRow)
    requires NormalizedEmpty(db) && t in db.staging && dv in DevicesFrom(PopulateDimensions(db), t)
    requires t[ColRoom] == "" && t[ColCiRoom] == ""
    ensures dv.roomId == None
    ensures FlatCell(Populate(db), dv, 4) == None && FlatCell(Populate(db), dv, 1) == None
  {
    RoomlessRowNoRoom(db, t, dv);
    var r := Populate(db);
    FlatColumnKinds(4);
    FlatColumnKinds(1);
    FlatNullKeys(r, dv, 4);
    FlatNullKeys(r, dv, 1);
  }

  lemma RoomlessRowNoRoom(db: Db, t: StagingRecord, dv: DeviceRow)
    requires NormalizedEmpty(db) && dv in DevicesFrom(PopulateDimensions(db), t)
    requires t[ColRoom] == "" && t[ColCiRoom] == ""
    ensures dv.roomId == None
  {
    FreshRoomsNamed(db);
    NoRoomForRoomless(PopulateDimensions(db), t, dv);
  }

  /** Where every room has a ROOM or a CI_ROOM, a row with neither joins no room. */
  lemma NoRoomForRoomless(q: Db, t: StagingRecord, dv: DeviceRow)
    requires dv in DevicesFrom(q, t) && t[ColRoom] == "" && t[ColCiRoom] == ""
    requires forall r :: r in q.rooms ==> r.room != "" || r.ciRoom != ""
    ensures dv.roomId == None
  {
    if dv.roomId.Some? {
      DeviceRoomKey(q, t, dv);
      assert false;
    }
  }

  /** After a fresh pass every room has a ROOM or a CI_ROOM: the rooms INSERT skips rows with neither. */
  lemma FreshRoomsNamed(db: Db)
    requires NormalizedEmpty(db)
    ensures forall r :: r in PopulateDimensions(db).rooms ==> r.room != "" || r.ciRoom != ""
  {
    var p := Populate(db);
    PopulateFrame(db);
    assert p.rooms == PopulateDimensions(db).rooms;
    PopulateRooms(db);
    forall r | r in p.rooms ensures r.room != "" || r.ciRoom != "" {
      var t' :| t' in db.staging && RoomFromRow(p.sites, t', r);
    }
  }

  /** A model that resolves t under covering labels means t's manufacturer and tier1-3 are all given. */
  lemma ResolvedModelColumns(q: Db, t: StagingRecord, m: ModelRow)
    requires ModelResolvesTo(q, t, m) && LabelsCover(q, t)
    ensures t[ColManufacturer] != "" && t[ColTier1] != "" && t[ColTier2] != "" && t[ColTier3] != ""
  {
    assert q.Label(Manufacturer)[m.manuId.value - 1] in q.Label(Manufacturer);
    assert q.Label(Tier1)[m.tier1Id.value - 1] in q.Label(Tier1);
    assert q.Label(Tier2)[m.tier2Id.value - 1] in q.Label(Tier2);
    assert q.Label(Tier3)[m.tier3Id.value - 1] in q.Label(Tier3);
  }

  /**
   * A staging row with an empty MANUFACTURERNAME, TIER1, TIER2 or TIER3 gets
   * no model (NULL never equals a model's id), so its view rows show NULL
   * for MODEL, MANUFACTURERNAME, TIER1-3 and PARTNUMBER.
   */
  lemma FlatModellessRow(db: Db, t: StagingRecord, dv: DeviceRow)
    requires NormalizedEmpty(db) && t in db.staging && dv in DevicesFrom(PopulateDimensions(db), t)
    requires t[ColManufacturer] == "" || t[ColTier1] == "" || t[ColTier2] == "" || t[ColTier3] == ""
    ensures dv.modelId == None
    ensures FlatCell(Populate(db), dv, 19) == None
  {
    var q := PopulateDimensions(db);
    var r := Populate(db);
    if dv.modelId.Some? {
      DeviceModelKey(q, t, dv);
      FreshLabelsCover(db, t);
      ResolvedModelColumns(q, t, q.models[dv.modelId.value - 1]);
      assert false;
    }
    FlatColumnKinds(19);
    FlatNullKeys(r, dv, 19);
  }
}
