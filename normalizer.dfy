/**
 * populate_normalized_from_staging: every INSERT … SELECT of the
 * normalization pass as a function from the database before the statement
 * to the database after it. Surrogate ids are 1-based positions, so a table
 * that starts empty hands out 1, 2, 3, … in insertion order. SELECT
 * DISTINCT yields rows in first-occurrence order; the engine's order is
 * unspecified and no property below depends on it.
 */
module Normalizer {
  import opened Wrappers
  import opened Relational
  import opened Schema

  // ---------------------------------------------------------------------
  // Simple label dimensions (regions, pl_names, …, partnumbers)

  /** SELECT col FROM staging WHERE col IS NOT NULL AND col <> '' (with repeats). */
  function NonEmptyValues(staging: seq<StagingRecord>, c: nat): (r: seq<string>)
    requires c < NumCsvColumns
    ensures forall x :: x in r <==> x != "" && exists t :: t in staging && t[c] == x
  {
    if staging == [] then []
    else
      var init := staging[..|staging| - 1];
      var t := staging[|staging| - 1];
      assert forall u :: u in staging <==> u in init || u == t;
      NonEmptyValues(init, c) + (if t[c] != "" then [t[c]] else [])
  }

  /** INSERT INTO <dim> SELECT DISTINCT <column> … WHERE <column> <> '' */
  function InsertLabels(db: Db, d: Dim): Db {
    db.(labels := db.labels[d := db.Label(d) + NewLabels(db, d)])
  }

  /** A label table filled from an empty start holds each non-empty staged value of its column once. */
  lemma InsertLabelsSpec(db: Db, d: Dim)
    requires db.Label(d) == []
    ensures NoDup(InsertLabels(db, d).Label(d))
    ensures forall x :: x in InsertLabels(db, d).Label(d) <==>
      x != "" && exists t :: t in db.staging && t[d.Column()] == x
  {
    assert InsertLabels(db, d).Label(d) == NewLabels(db, d);
  }

  /** LEFT JOIN <dim> ON <dim>.label = t.<column>: the matching ids, or one NULL. */
  function LabelJoin(db: Db, d: Dim, t: StagingRecord): seq<Option<nat>> {
    LeftJoin(db.Label(d), (l: string) => l == t[d.Column()])
  }

  // ---------------------------------------------------------------------
  // Sites and rooms (inner joins to their parent)

  /** The site rows one staging row contributes: one per region whose label equals its REGION. */
  function SitesFrom(regions: seq<string>, t: StagingRecord): seq<SiteRow> {
    if t[ColSite] == "" then []
    else
      MapSeq(IdsWhere(regions, (l: string) => l == t[ColRegion]),
             (rid: nat) => SiteRow(t[ColCompany], t[ColSitegroup], t[ColSite], rid))
  }

  /** INSERT INTO sites SELECT DISTINCT … FROM staging JOIN regions … WHERE SITE <> '' */
  function InsertSites(db: Db): Db {
    var regions := db.Label(Region);
    db.(sites := db.sites + Dedup(FlatMap(db.staging, (t: StagingRecord) => SitesFrom(regions, t))))
  }

  /** The site row s comes from staging row t: t has that SITE, COMPANY and SITEGROUP and names the region with that id. */
  ghost predicate SiteFromRow(regions: seq<string>, t: StagingRecord, s: SiteRow) {
    && t[ColSite] != "" && t[ColSite] == s.site
    && t[ColCompany] == s.company && t[ColSitegroup] == s.sitegroup
    && 1 <= s.regionId <= |regions| && regions[s.regionId - 1] == t[ColRegion]
  }

  lemma SitesFromMember(regions: seq<string>, t: StagingRecord, s: SiteRow)
    ensures s in SitesFrom(regions, t) <==> SiteFromRow(regions, t, s)
  {
    if t[ColSite] != "" {
      var ids := IdsWhere(regions, (l: string) => l == t[ColRegion]);
      var rows := SitesFrom(regions, t);
      if SiteFromRow(regions, t, s) {
        assert s.regionId in ids;
        var k :| 0 <= k < |ids| && ids[k] == s.regionId;
        assert rows[k] == s;
      }
      if s in rows {
        var k :| 0 <= k < |rows| && rows[k] == s;
        assert ids[k] in ids;
      }
    }
  }

  /** Sites filled from an empty start: each qualifying (COMPANY, SITEGROUP, SITE, region_id) once, and nothing else. */
  lemma InsertSitesSpec(db: Db)
    requires db.sites == []
    ensures NoDup(InsertSites(db).sites)
    ensures forall s :: s in InsertSites(db).sites <==>
      exists t :: t in db.staging && SiteFromRow(db.Label(Region), t, s)
  {
    var regions := db.Label(Region);
    var f := (t: StagingRecord) => SitesFrom(regions, t);
    assert InsertSites(db).sites == Dedup(FlatMap(db.staging, f));
    forall s ensures s in FlatMap(db.staging, f) <==> exists t :: t in db.staging && SiteFromRow(regions, t, s) {
      FlatMapMember(db.staging, f, s);
      forall t ensures s in f(t) <==> SiteFromRow(regions, t, s) {
        SitesFromMember(regions, t, s);
      }
    }
  }

  /** The room rows one staging row contributes: one per site whose code equals its SITE. */
  function RoomsFrom(sites: seq<SiteRow>, t: StagingRecord): seq<RoomRow> {
    if t[ColRoom] == "" && t[ColCiRoom] == "" then []
    else
      MapSeq(IdsWhere(sites, (s: SiteRow) => s.site == t[ColSite]),
             (sid: nat) => RoomRow(t[ColRoom], t[ColPhysicalPosition], t[ColCiRoom], t[ColFloor], sid))
  }

  /** INSERT INTO rooms SELECT DISTINCT … FROM staging JOIN sites … WHERE ROOM <> '' OR CI_ROOM <> '' */
  function InsertRooms(db: Db): Db {
    var sites := db.sites;
    db.(rooms := db.rooms + Dedup(FlatMap(db.staging, (t: StagingRecord) => RoomsFrom(sites, t))))
  }

  /** The room row r comes from staging row t: same ROOM, PHYSICALPOSITION, CI_ROOM, FLOOR, and a site with t's SITE. */
  ghost predicate RoomFromRow(sites: seq<SiteRow>, t: StagingRecord, r: RoomRow) {
    && (t[ColRoom] != "" || t[ColCiRoom] != "")
    && r.room == t[ColRoom] && r.physicalPosition == t[ColPhysicalPosition]
    && r.ciRoom == t[ColCiRoom] && r.floor == t[ColFloor]
    && 1 <= r.siteId <= |sites| && sites[r.siteId - 1].site == t[ColSite]
  }

  lemma RoomsFromMember(sites: seq<SiteRow>, t: StagingRecord, r: RoomRow)
    ensures r in RoomsFrom(sites, t) <==> RoomFromRow(sites, t, r)
  {
    if t[ColRoom] != "" || t[ColCiRoom] != "" {
      var ids := IdsWhere(sites, (s: SiteRow) => s.site == t[ColSite]);
      var rows := RoomsFrom(sites, t);
      if RoomFromRow(sites, t, r) {
        assert r.siteId in ids;
        var k :| 0 <= k < |ids| && ids[k] == r.siteId;
        assert rows[k] == r;
      }
      if r in rows {
        var k :| 0 <= k < |rows| && rows[k] == r;
        assert ids[k] in ids;
      }
    }
  }

  /** Rooms filled from an empty start: each qualifying (ROOM, PHYSICALPOSITION, CI_ROOM, FLOOR, site_id) once, and nothing else. */
  lemma InsertRoomsSpec(db: Db)
    requires db.rooms == []
    ensures NoDup(InsertRooms(db).rooms)
    ensures forall r :: r in InsertRooms(db).rooms <==>
      exists t :: t in db.staging && RoomFromRow(db.sites, t, r)
  {
    var sites := db.sites;
    var f := (t: StagingRecord) => RoomsFrom(sites, t);
    assert InsertRooms(db).rooms == Dedup(FlatMap(db.staging, f));
    forall r ensures r in FlatMap(db.staging, f) <==> exists t :: t in db.staging && RoomFromRow(sites, t, r) {
      FlatMapMember(db.staging, f, r);
      forall t ensures r in f(t) <==> RoomFromRow(sites, t, r) {
        RoomsFromMember(sites, t, r);
      }
    }
  }

  // ---------------------------------------------------------------------
  // Models (left joins to manufacturer, tiers and partnumber)

  /** The i-th component of a join result, NULL past the end. */
  function At(k: seq<Option<nat>>, i: nat): Option<nat> {
    if i < |k| then k[i] else None
  }

  /** The left joins of the models INSERT, in its order. */
  function ModelJoins(db: Db, t: StagingRecord): seq<seq<Option<nat>>> {
    [LabelJoin(db, Manufacturer, t), LabelJoin(db, Tier1, t), LabelJoin(db, Tier2, t),
     LabelJoin(db, Tier3, t), LabelJoin(db, Partnumber, t)]
  }

  function ModelsFrom(db: Db, t: StagingRecord): seq<ModelRow> {
    if t[ColModel] == "" then []
    else
      MapSeq(Product(ModelJoins(db, t)),
             (k: seq<Option<nat>>) => ModelRow(At(k, 0), At(k, 1), At(k, 2), At(k, 3), t[ColModel], At(k, 4)))
  }

  /** INSERT INTO models SELECT DISTINCT … FROM staging LEFT JOIN … WHERE MODEL <> '' */
  function InsertModels(db: Db): Db {
    db.(models := db.models + Dedup(FlatMap(db.staging, (t: StagingRecord) => ModelsFrom(db, t))))
  }

  /** The key columns of a model row, in the order of ModelJoins. */
  function ModelKey(m: ModelRow): seq<Option<nat>> {
    [m.manuId, m.tier1Id, m.tier2Id, m.tier3Id, m.partnumberId]
  }

  /**
   * A staging row contributes exactly the model rows that carry its MODEL
   * and one left-join result per looked-up column.
   */
  lemma ModelsFromMember(db: Db, t: StagingRecord, m: ModelRow)
    ensures m in ModelsFrom(db, t) <==>
      t[ColModel] != "" && m.model == t[ColModel] && IsChoice(ModelKey(m), ModelJoins(db, t))
  {
    if t[ColModel] != "" {
      if m in ModelsFrom(db, t) {
        ModelsFromSound(db, t, m);
      }
      if m.model == t[ColModel] && IsChoice(ModelKey(m), ModelJoins(db, t)) {
        ModelsFromComplete(db, t, m);
      }
    }
  }

  lemma ModelsFromSound(db: Db, t: StagingRecord, m: ModelRow)
    requires t[ColModel] != "" && m in ModelsFrom(db, t)
    ensures m.model == t[ColModel] && IsChoice(ModelKey(m), ModelJoins(db, t))
  {
    var js := ModelJoins(db, t);
    var p := Product(js);
    var f := (k: seq<Option<nat>>) => ModelRow(At(k, 0), At(k, 1), At(k, 2), At(k, 3), t[ColModel], At(k, 4));
    assert ModelsFrom(db, t) == MapSeq(p, f);
    var i :| 0 <= i < |p| && f(p[i]) == m;
    ProductMember(js, p[i]);
    KeyOfFive(p[i]);
  }

  lemma KeyOfFive(k: seq<Option<nat>>)
    requires |k| == 5
    ensures [At(k, 0), At(k, 1), At(k, 2), At(k, 3), At(k, 4)] == k
  {
  }

  lemma ModelsFromComplete(db: Db, t: StagingRecord, m: ModelRow)
    requires t[ColModel] != "" && m.model == t[ColModel] && IsChoice(ModelKey(m), ModelJoins(db, t))
    ensures m in ModelsFrom(db, t)
  {
    var js := ModelJoins(db, t);
    var p := Product(js);
    var rows := ModelsFrom(db, t);
    ProductMember(js, ModelKey(m));
    var i :| 0 <= i < |p| && p[i] == ModelKey(m);
    assert rows[i] == m;
  }

  /** The model row m comes from staging row t: t has that MODEL and m's ids are one left-join result each. */
  ghost predicate ModelFromRow(db: Db, t: StagingRecord, m: ModelRow) {
    t[ColModel] != "" && m.model == t[ColModel] && IsChoice(ModelKey(m), ModelJoins(db, t))
  }

  /** Models filled from an empty start: each qualifying combination once, and nothing else. */
  lemma InsertModelsSpec(db: Db)
    requires db.models == []
    ensures NoDup(InsertModels(db).models)
    ensures forall m :: m in InsertModels(db).models <==> exists t :: t in db.staging && ModelFromRow(db, t, m)
  {
    var f := (t: StagingRecord) => ModelsFrom(db, t);
    assert InsertModels(db).models == Dedup(FlatMap(db.staging, f));
    forall m ensures m in FlatMap(db.staging, f) <==> exists t :: t in db.staging && ModelFromRow(db, t, m) {
      FlatMapMember(db.staging, f, m);
      forall t ensures m in f(t) <==> ModelFromRow(db, t, m) {
        ModelsFromMember(db, t, m);
      }
    }
  }

  /** A looked-up id is NULL exactly when t's value for dimension d is not a label. */
  ghost predicate NullWhenUnresolved(db: Db, d: Dim, t: StagingRecord, id: Option<nat>) {
    id == None <==> t[d.Column()] !in db.Label(d)
  }

  /** Each id of the model row is NULL exactly when t's value for that column is not a label. */
  ghost predicate NullExactlyWhenUnresolved(db: Db, t: StagingRecord, m: ModelRow) {
    && NullWhenUnresolved(db, Manufacturer, t, m.manuId)
    && NullWhenUnresolved(db, Tier1, t, m.tier1Id)
    && NullWhenUnresolved(db, Tier2, t, m.tier2Id)
    && NullWhenUnresolved(db, Tier3, t, m.tier3Id)
    && NullWhenUnresolved(db, Partnumber, t, m.partnumberId)
  }

  /**
   * Every staged row with a MODEL yields a model row; a lookup that does not
   * resolve leaves that id NULL and never drops the row.
   */
  lemma ModelRowNotDropped(db: Db, t: StagingRecord)
    requires t[ColModel] != ""
    ensures exists m :: m in ModelsFrom(db, t) && m.model == t[ColModel] && NullExactlyWhenUnresolved(db, t, m)
  {
    var m := FirstModel(db, t);
    FirstChoiceNulls(db, t, m);
    FirstModelIsChoice(db, t);
    ModelsFromComplete(db, t, m);
  }

  /** The model row built from the first result of each left join. */
  function FirstModel(db: Db, t: StagingRecord): ModelRow {
    ModelRow(LabelJoin(db, Manufacturer, t)[0], LabelJoin(db, Tier1, t)[0], LabelJoin(db, Tier2, t)[0],
             LabelJoin(db, Tier3, t)[0], t[ColModel], LabelJoin(db, Partnumber, t)[0])
  }

  lemma FirstModelIsChoice(db: Db, t: StagingRecord)
    ensures IsChoice(ModelKey(FirstModel(db, t)), ModelJoins(db, t))
  {
    var a, b, c, d, e := LabelJoin(db, Manufacturer, t), LabelJoin(db, Tier1, t),
      LabelJoin(db, Tier2, t), LabelJoin(db, Tier3, t), LabelJoin(db, Partnumber, t);
    assert ModelJoins(db, t) == [a, b, c, d, e];
    assert ModelKey(FirstModel(db, t)) == [a[0], b[0], c[0], d[0], e[0]];
    FirstOfEach(a, b, c, d, e);
  }

  lemma FirstOfEach<T>(a: seq<T>, b: seq<T>, c: seq<T>, d: seq<T>, e: seq<T>)
    requires |a| >= 1 && |b| >= 1 && |c| >= 1 && |d| >= 1 && |e| >= 1
    ensures IsChoice([a[0], b[0], c[0], d[0], e[0]], [a, b, c, d, e])
  {
    var k, js := [a[0], b[0], c[0], d[0], e[0]], [a, b, c, d, e];
    forall i | 0 <= i < 5 ensures k[i] in js[i] {
      assert k[i] == js[i][0];
    }
  }

  /** The first result of each of the models INSERT's left joins is NULL exactly when the lookup fails. */
  lemma FirstChoiceNulls(db: Db, t: StagingRecord, m: ModelRow)
    requires m.manuId == LabelJoin(db, Manufacturer, t)[0] && m.tier1Id == LabelJoin(db, Tier1, t)[0]
    requires m.tier2Id == LabelJoin(db, Tier2, t)[0] && m.tier3Id == LabelJoin(db, Tier3, t)[0]
    requires m.partnumberId == LabelJoin(db, Partnumber, t)[0]
    ensures NullExactlyWhenUnresolved(db, t, m)
  {
    FirstJoinNull(db, Manufacturer, t);
    FirstJoinNull(db, Tier1, t);
    FirstJoinNull(db, Tier2, t);
    FirstJoinNull(db, Tier3, t);
    FirstJoinNull(db, Partnumber, t);
  }

  lemma FirstJoinNull(db: Db, d: Dim, t: StagingRecord)
    ensures NullWhenUnresolved(db, d, t, LabelJoin(db, d, t)[0])
  {
    var r := LabelJoin(db, d, t);
    assert r[0] in r;
    LabelJoinNull(db, d, t, r[0]);
  }

  /** A label join result is NULL exactly when the staged value is not a label, and otherwise names a row with that label. */
  lemma LabelJoinNull(db: Db, d: Dim, t: StagingRecord, id: Option<nat>)
    requires id in LabelJoin(db, d, t)
    ensures id == None <==> t[d.Column()] !in db.Label(d)
    ensures id.Some? ==> 1 <= id.value <= |db.Label(d)| && db.Label(d)[id.value - 1] == t[d.Column()]
  {
    var labels := db.Label(d);
    if t[d.Column()] in labels {
      var i :| 0 <= i < |labels| && labels[i] == t[d.Column()];
      assert Some(i + 1) in LabelJoin(db, d, t);
    }
  }

  // ---------------------------------------------------------------------
  // Devices

  /** NULL-aware equality of ids: NULL = x is never true. */
  predicate SqlEq(a: Option<nat>, b: Option<nat>) {
    a.Some? && b.Some? && a.value == b.value
  }

  /** The sixteen label left joins of the devices INSERT: the twelve device keys, then manufacturer and tier1-3. */
  function JoinDim(i: nat): Dim {
    if i < NumDeviceDims then DeviceDim(i)
    else if i == 12 then Manufacturer
    else if i == 13 then Tier1
    else if i == 14 then Tier2
    else Tier3
  }

  const NumJoinDims: nat := 16

  function DeviceJoins(db: Db, t: StagingRecord): (r: seq<seq<Option<nat>>>)
    ensures |r| == NumJoinDims
  {
    seq(NumJoinDims, i requires 0 <= i < NumJoinDims => LabelJoin(db, JoinDim(i), t))
  }

  /** The model a device row matches under LEFT JOIN models ON model, manu_id, tier1_id, tier2_id, tier3_id. */
  predicate ModelMatches(m: ModelRow, t: StagingRecord, k: seq<Option<nat>>) {
    m.model == t[ColModel] && SqlEq(m.manuId, At(k, 12)) && SqlEq(m.tier1Id, At(k, 13))
    && SqlEq(m.tier2Id, At(k, 14)) && SqlEq(m.tier3Id, At(k, 15))
  }

  function ModelJoin(models: seq<ModelRow>, t: StagingRecord, k: seq<Option<nat>>): seq<Option<nat>> {
    LeftJoin(models, (m: ModelRow) => ModelMatches(m, t, k))
  }

  /** LEFT JOIN sites ON site = t.SITE, then LEFT JOIN rooms ON site_id and IFNULL(room/ci_room, '') equality. */
  predicate RoomMatches(r: RoomRow, t: StagingRecord, site: Option<nat>) {
    SqlEq(Some(r.siteId), site) && r.room == t[ColRoom] && r.ciRoom == t[ColCiRoom]
  }

  /** LEFT JOIN rooms for one site-join result. */
  function RoomsAt(db: Db, t: StagingRecord, site: Option<nat>): seq<Option<nat>> {
    LeftJoin(db.rooms, (r: RoomRow) => RoomMatches(r, t, site))
  }

  /** LEFT JOIN sites ON site = t.SITE. */
  function SiteJoin(db: Db, t: StagingRecord): seq<Option<nat>> {
    LeftJoin(db.sites, (s: SiteRow) => s.site == t[ColSite])
  }

  function RoomJoin(db: Db, t: StagingRecord): seq<Option<nat>> {
    FlatMap(SiteJoin(db, t), (site: Option<nat>) => RoomsAt(db, t, site))
  }

  function Scalars(t: StagingRecord): (r: seq<string>)
    ensures |r| == NumDeviceScalars
  {
    seq(NumDeviceScalars, j requires 0 <= j < NumDeviceScalars => t[DeviceScalarCol(j)])
  }

  function Prefix(k: seq<Option<nat>>, n: nat): seq<Option<nat>> {
    if n <= |k| then k[..n] else k
  }

  /** The device rows for one choice k of label matches and one model match m: one per room match. */
  function DevicesWith(db: Db, t: StagingRecord, k: seq<Option<nat>>, m: Option<nat>): seq<DeviceRow> {
    MapSeq(RoomJoin(db, t), (r: Option<nat>) => DeviceRow(Scalars(t), Prefix(k, NumDeviceDims), m, r))
  }

  /** The device rows for one choice k of label matches: one per model match and room match. */
  function DevicesFor(db: Db, t: StagingRecord, k: seq<Option<nat>>): seq<DeviceRow> {
    FlatMap(ModelJoin(db.models, t, k), (m: Option<nat>) => DevicesWith(db, t, k, m))
  }

  /** The device rows one staging row yields: one per combination of join matches. */
  function DevicesFrom(db: Db, t: StagingRecord): seq<DeviceRow> {
    FlatMap(Product(DeviceJoins(db, t)), (k: seq<Option<nat>>) => DevicesFor(db, t, k))
  }

  /**
   * A staging row yields exactly the devices that copy its scalar columns,
   * take one left-join result per label lookup, and one model and one room
   * match for that choice.
   */
  lemma DevicesFromMember(db: Db, t: StagingRecord, d: DeviceRow)
    ensures d in DevicesFrom(db, t) <==>
      d.scalars == Scalars(t) && d.roomId in RoomJoin(db, t) &&
      exists k :: IsChoice(k, DeviceJoins(db, t)) && d.labelIds == k[..NumDeviceDims]
                  && d.modelId in ModelJoin(db.models, t, k)
  {
    var joins := DeviceJoins(db, t);
    FlatMapMember(Product(joins), (k: seq<Option<nat>>) => DevicesFor(db, t, k), d);
    if d in DevicesFrom(db, t) {
      var k :| k in Product(joins) && d in DevicesFor(db, t, k);
      ProductMember(joins, k);
      DevicesForMember(db, t, k, d);
    }
    if d.scalars == Scalars(t) && d.roomId in RoomJoin(db, t) &&
       exists k :: IsChoice(k, joins) && d.labelIds == k[..NumDeviceDims] && d.modelId in ModelJoin(db.models, t, k)
    {
      var k :| IsChoice(k, joins) && d.labelIds == k[..NumDeviceDims] && d.modelId in ModelJoin(db.models, t, k);
      ProductMember(joins, k);
      DevicesForMember(db, t, k, d);
    }
  }

  /** The devices of one label choice k copy the scalars and k's label ids, with one model and one room match. */
  lemma DevicesForMember(db: Db, t: StagingRecord, k: seq<Option<nat>>, d: DeviceRow)
    requires |k| == NumJoinDims
    ensures d in DevicesFor(db, t, k) <==>
      d.scalars == Scalars(t) && d.labelIds == k[..NumDeviceDims]
      && d.modelId in ModelJoin(db.models, t, k) && d.roomId in RoomJoin(db, t)
  {
    var rooms := RoomJoin(db, t);
    FlatMapMember(ModelJoin(db.models, t, k), (m: Option<nat>) => DevicesWith(db, t, k, m), d);
    if d in DevicesFor(db, t, k) {
      var m :| m in ModelJoin(db.models, t, k) && d in DevicesWith(db, t, k, m);
      var i :| 0 <= i < |rooms| && DevicesWith(db, t, k, m)[i] == d;
    }
    if d.scalars == Scalars(t) && d.labelIds == k[..NumDeviceDims] && d.roomId in rooms {
      var i :| 0 <= i < |rooms| && rooms[i] == d.roomId;
      assert DevicesWith(db, t, k, d.modelId)[i] == d;
    }
  }

  /** Label id `id` of dimension d names a row holding t's value for d. */
  ghost predicate LabelIs(db: Db, d: Dim, id: nat, t: StagingRecord) {
    1 <= id <= |db.Label(d)| && db.Label(d)[id - 1] == t[d.Column()]
  }

  /** Model row m carries t's MODEL and ids naming t's manufacturer and tier1-3 labels. */
  ghost predicate ModelResolvesTo(db: Db, t: StagingRecord, m: ModelRow) {
    && m.model == t[ColModel]
    && m.manuId.Some? && LabelIs(db, Manufacturer, m.manuId.value, t)
    && m.tier1Id.Some? && LabelIs(db, Tier1, m.tier1Id.value, t)
    && m.tier2Id.Some? && LabelIs(db, Tier2, m.tier2Id.value, t)
    && m.tier3Id.Some? && LabelIs(db, Tier3, m.tier3Id.value, t)
  }

  /** Room id `id` names a room with t's ROOM and CI_ROOM whose site carries t's SITE. */
  ghost predicate RoomResolvesTo(db: Db, t: StagingRecord, id: nat) {
    1 <= id <= |db.rooms| &&
    var r := db.rooms[id - 1];
    r.room == t[ColRoom] && r.ciRoom == t[ColCiRoom] &&
    1 <= r.siteId <= |db.sites| && db.sites[r.siteId - 1].site == t[ColSite]
  }

  /** A choice of label matches picks, at every position, a result of that position's left join. */
  lemma ChoiceIsJoin(db: Db, t: StagingRecord, k: seq<Option<nat>>, i: nat)
    requires IsChoice(k, DeviceJoins(db, t)) && i < NumJoinDims
    ensures k[i] in LabelJoin(db, JoinDim(i), t)
    ensures k[i] == None <==> t[JoinDim(i).Column()] !in db.Label(JoinDim(i))
    ensures k[i].Some? ==> LabelIs(db, JoinDim(i), k[i].value, t)
  {
    LabelJoinNull(db, JoinDim(i), t, k[i]);
  }

  /** The manufacturer and tier1-3 positions of a label choice name t's labels where they are not NULL. */
  ghost predicate ModelLabelsChosen(db: Db, t: StagingRecord, k: seq<Option<nat>>) {
    && |k| == NumJoinDims
    && (k[12].Some? ==> LabelIs(db, Manufacturer, k[12].value, t))
    && (k[13].Some? ==> LabelIs(db, Tier1, k[13].value, t))
    && (k[14].Some? ==> LabelIs(db, Tier2, k[14].value, t))
    && (k[15].Some? ==> LabelIs(db, Tier3, k[15].value, t))
  }

  lemma ChoiceModelLabels(db: Db, t: StagingRecord, k: seq<Option<nat>>)
    requires IsChoice(k, DeviceJoins(db, t))
    ensures ModelLabelsChosen(db, t, k)
  {
    assert JoinDim(12) == Manufacturer && JoinDim(13) == Tier1 && JoinDim(14) == Tier2 && JoinDim(15) == Tier3;
    ChoiceIsJoin(db, t, k, 12);
    ChoiceIsJoin(db, t, k, 13);
    ChoiceIsJoin(db, t, k, 14);
    ChoiceIsJoin(db, t, k, 15);
  }

  /** A model id chosen by the devices INSERT names a model that resolves all of t's model lookups. */
  lemma ModelJoinResolves(db: Db, t: StagingRecord, k: seq<Option<nat>>, id: nat)
    requires ModelLabelsChosen(db, t, k) && Some(id) in ModelJoin(db.models, t, k)
    ensures 1 <= id <= |db.models| && ModelResolvesTo(db, t, db.models[id - 1])
  {
    var m := db.models[id - 1];
    assert ModelMatches(m, t, k);
  }

  /** A room id chosen by the devices INSERT names a room matching t's SITE, ROOM and CI_ROOM. */
  lemma RoomJoinResolves(db: Db, t: StagingRecord, id: nat)
    requires Some(id) in RoomJoin(db, t)
    ensures RoomResolvesTo(db, t, id)
  {
    var f := (site: Option<nat>) => RoomsAt(db, t, site);
    FlatMapMember(SiteJoin(db, t), f, Some(id));
    var site :| site in SiteJoin(db, t) && Some(id) in f(site);
    RoomsAtMember(db, t, site, id);
    SiteJoinMember(db, t, site);
  }

  lemma RoomsAtMember(db: Db, t: StagingRecord, site: Option<nat>, id: nat)
    requires Some(id) in RoomsAt(db, t, site)
    ensures 1 <= id <= |db.rooms| && RoomMatches(db.rooms[id - 1], t, site)
  {
  }

  lemma SiteJoinMember(db: Db, t: StagingRecord, site: Option<nat>)
    requires site in SiteJoin(db, t) && site.Some?
    ensures 1 <= site.value <= |db.sites| && db.sites[site.value - 1].site == t[ColSite]
  {
  }

  /** One label key of a join choice: NULL exactly when t's value is not a label, else the id of that label. */
  lemma ChoiceLabelKey(db: Db, t: StagingRecord, k: seq<Option<nat>>, i: nat)
    requires IsChoice(k, DeviceJoins(db, t)) && i < NumDeviceDims
    ensures k[i] == None <==> t[DeviceDim(i).Column()] !in db.Label(DeviceDim(i))
    ensures k[i].Some? ==> LabelIs(db, DeviceDim(i), k[i].value, t)
  {
    assert JoinDim(i) == DeviceDim(i);
    ChoiceIsJoin(db, t, k, i);
  }

  /** One label key of a device of t: NULL exactly when t's value is not a label, else the id of that label. */
  lemma DeviceLabelKey(db: Db, t: StagingRecord, d: DeviceRow, i: nat)
    requires d in DevicesFrom(db, t) && i < NumDeviceDims
    ensures |d.labelIds| == NumDeviceDims
    ensures d.labelIds[i] == None <==> t[DeviceDim(i).Column()] !in db.Label(DeviceDim(i))
    ensures d.labelIds[i].Some? ==> LabelIs(db, DeviceDim(i), d.labelIds[i].value, t)
  {
    var k := DeviceChoice(db, t, d);
    assert d.labelIds[i] == k[i];
    ChoiceLabelKey(db, t, k, i);
  }

  /** The choice of join rows a device of t was built from. */
  lemma DeviceChoice(db: Db, t: StagingRecord, d: DeviceRow) returns (k: seq<Option<nat>>)
    requires d in DevicesFrom(db, t)
    ensures IsChoice(k, DeviceJoins(db, t)) && d.labelIds == k[..NumDeviceDims]
    ensures d.modelId in ModelJoin(db.models, t, k)
  {
    DevicesFromMember(db, t, d);
    k :| IsChoice(k, DeviceJoins(db, t)) && d.labelIds == k[..NumDeviceDims] && d.modelId in ModelJoin(db.models, t, k);
  }

  /** The model id of a device of t names a model that resolves t's MODEL, manufacturer and tiers. */
  lemma DeviceModelKey(db: Db, t: StagingRecord, d: DeviceRow)
    requires d in DevicesFrom(db, t)
    ensures d.modelId.Some? ==> 1 <= d.modelId.value <= |db.models| && ModelResolvesTo(db, t, db.models[d.modelId.value - 1])
  {
    if d.modelId.Some? {
      var k := DeviceChoice(db, t, d);
      ChoiceModelLabels(db, t, k);
      ModelJoinResolves(db, t, k, d.modelId.value);
    }
  }

  /** The room id of a device of t names a room matching t's SITE, ROOM and CI_ROOM. */
  lemma DeviceRoomKey(db: Db, t: StagingRecord, d: DeviceRow)
    requires d in DevicesFrom(db, t)
    ensures d.roomId.Some? ==> RoomResolvesTo(db, t, d.roomId.value)
  {
    DevicesFromMember(db, t, d);
    if d.roomId.Some? {
      RoomJoinResolves(db, t, d.roomId.value);
    }
  }

  /**
   * Every device a staging row yields copies its scalar columns, has a NULL
   * label key exactly where t's value is not a label (so always for ""),
   * and a model or room id only where that lookup resolves.
   */
  lemma DeviceForeignKeys(db: Db, t: StagingRecord, d: DeviceRow)
    requires d in DevicesFrom(db, t)
    ensures d.scalars == Scalars(t) && |d.labelIds| == NumDeviceDims
    ensures forall i :: 0 <= i < NumDeviceDims ==>
      (d.labelIds[i] == None <==> t[DeviceDim(i).Column()] !in db.Label(DeviceDim(i)))
    ensures forall i :: 0 <= i < NumDeviceDims && d.labelIds[i].Some? ==>
      LabelIs(db, DeviceDim(i), d.labelIds[i].value, t)
    ensures d.modelId.Some? ==> 1 <= d.modelId.value <= |db.models| && ModelResolvesTo(db, t, db.models[d.modelId.value - 1])
    ensures d.roomId.Some? ==> RoomResolvesTo(db, t, d.roomId.value)
  {
    var k := DeviceChoice(db, t, d);
    DevicesFromMember(db, t, d);
    forall i | 0 <= i < NumDeviceDims
      ensures d.labelIds[i] == None <==> t[DeviceDim(i).Column()] !in db.Label(DeviceDim(i))
      ensures d.labelIds[i].Some? ==> LabelIs(db, DeviceDim(i), d.labelIds[i].value, t)
    {
      assert d.labelIds[i] == k[i];
      ChoiceLabelKey(db, t, k, i);
    }
    DeviceModelKey(db, t, d);
    DeviceRoomKey(db, t, d);
  }

  /**
   * With unique labels, a device's model id is NULL exactly when no model
   * row resolves t's MODEL, manufacturer and tier1-3.
   */
  lemma DeviceModelNull(db: Db, t: StagingRecord, d: DeviceRow)
    requires d in DevicesFrom(db, t)
    requires NoDup(db.Label(Manufacturer)) && NoDup(db.Label(Tier1)) && NoDup(db.Label(Tier2)) && NoDup(db.Label(Tier3))
    ensures d.modelId == None <==> forall i :: 0 <= i < |db.models| ==> !ModelResolvesTo(db, t, db.models[i])
  {
    DevicesFromMember(db, t, d);
    var k :| IsChoice(k, DeviceJoins(db, t)) && d.labelIds == k[..NumDeviceDims] && d.modelId in ModelJoin(db.models, t, k);
    if d.modelId == None {
      forall i | 0 <= i < |db.models| ensures !ModelResolvesTo(db, t, db.models[i]) {
        if ModelResolvesTo(db, t, db.models[i]) {
          ResolvingModelMatches(db, t, k, db.models[i]);
        }
      }
    } else {
      ChoiceModelLabels(db, t, k);
      ModelJoinResolves(db, t, k, d.modelId.value);
    }
  }

  /** With unique labels, a model that resolves t's lookups matches every label choice for t. */
  lemma ResolvingModelMatches(db: Db, t: StagingRecord, k: seq<Option<nat>>, m: ModelRow)
    requires IsChoice(k, DeviceJoins(db, t)) && ModelResolvesTo(db, t, m)
    requires NoDup(db.Label(Manufacturer)) && NoDup(db.Label(Tier1)) && NoDup(db.Label(Tier2)) && NoDup(db.Label(Tier3))
    ensures ModelMatches(m, t, k)
  {
    ChoiceIsLabel(db, t, k, 12, m.manuId.value);
    ChoiceIsLabel(db, t, k, 13, m.tier1Id.value);
    ChoiceIsLabel(db, t, k, 14, m.tier2Id.value);
    ChoiceIsLabel(db, t, k, 15, m.tier3Id.value);
  }

  /** With unique labels, the label choice at position i is the one id naming t's value. */
  lemma ChoiceIsLabel(db: Db, t: StagingRecord, k: seq<Option<nat>>, i: nat, id: nat)
    requires IsChoice(k, DeviceJoins(db, t)) && i < NumJoinDims
    requires NoDup(db.Label(JoinDim(i))) && LabelIs(db, JoinDim(i), id, t)
    ensures k[i] == Some(id)
  {
    ChoiceIsJoin(db, t, k, i);
  }

  /** A label table without repeats answers every lookup with exactly one row or one NULL. */
  lemma LabelJoinUnique(db: Db, d: Dim, t: StagingRecord)
    requires NoDup(db.Label(d))
    ensures |LabelJoin(db, d, t)| == 1
  {
    var labels := db.Label(d);
    if t[d.Column()] in labels {
      var i :| 0 <= i < |labels| && labels[i] == t[d.Column()];
      LeftJoinSingle(labels, (l: string) => l == t[d.Column()], i);
    }
  }

  lemma RoomJoinNonEmpty(db: Db, t: StagingRecord)
    ensures |RoomJoin(db, t)| >= 1
  {
  }

  /** One label choice yields one device per model match and room match. */
  lemma DevicesForLength(db: Db, t: StagingRecord, k: seq<Option<nat>>)
    ensures |DevicesFor(db, t, k)| == |ModelJoin(db.models, t, k)| * |RoomJoin(db, t)|
  {
    var f := (m: Option<nat>) => DevicesWith(db, t, k, m);
    FlatMapLength(ModelJoin(db.models, t, k), f);
    SumLengthsConst(ModelJoin(db.models, t, k), f, |RoomJoin(db, t)|);
  }

  /** Device rows are unfiltered: every staging row yields at least one. */
  lemma DevicesFromNonEmpty(db: Db, t: StagingRecord)
    ensures |DevicesFrom(db, t)| >= 1
  {
    var joins := DeviceJoins(db, t);
    ProductOfLengthsPositive(joins);
    ProductLength(joins);
    var k := Product(joins)[0];
    DevicesForLength(db, t, k);
    RoomJoinNonEmpty(db, t);
  }

  /** The label choice when every lookup has one answer. */
  function SingleChoice(db: Db, t: StagingRecord): (k: seq<Option<nat>>)
    ensures |k| == NumJoinDims
  {
    var joins := DeviceJoins(db, t);
    seq(NumJoinDims, i requires 0 <= i < NumJoinDims => At(joins[i], 0))
  }

  /**
   * With unique labels, a staging row matching k models and j rooms yields
   * exactly k * j devices (k and j count one NULL result when nothing matches).
   */
  lemma DevicesFromCount(db: Db, t: StagingRecord)
    requires forall d: Dim :: NoDup(db.Label(d))
    ensures |DevicesFrom(db, t)| == |ModelJoin(db.models, t, SingleChoice(db, t))| * |RoomJoin(db, t)|
  {
    var k := SingleChoice(db, t);
    SingleProduct(db, t);
    var f := (k': seq<Option<nat>>) => DevicesFor(db, t, k');
    assert DevicesFrom(db, t) == f(k) + FlatMap([k][1..], f);
    DevicesForLength(db, t, k);
  }

  /** With unique labels, the label lookups of a staging row have one combination: SingleChoice. */
  lemma SingleProduct(db: Db, t: StagingRecord)
    requires forall d: Dim :: NoDup(db.Label(d))
    ensures Product(DeviceJoins(db, t)) == [SingleChoice(db, t)]
  {
    var joins := DeviceJoins(db, t);
    forall i | 0 <= i < |joins| ensures |joins[i]| == 1 {
      LabelJoinUnique(db, JoinDim(i), t);
    }
    ProductOfLengthsOnes(joins);
    ProductLength(joins);
    var k := Product(joins)[0];
    ProductMember(joins, k);
    forall i | 0 <= i < NumJoinDims ensures k[i] == SingleChoice(db, t)[i] {
      assert k[i] in joins[i];
    }
    assert k == SingleChoice(db, t);
  }

  /** INSERT INTO devices SELECT … FROM staging LEFT JOIN … (no WHERE clause). */
  function InsertDevices(db: Db): Db {
    db.(devices := db.devices + FlatMap(db.staging, (t: StagingRecord) => DevicesFrom(db, t)))
  }

  // ---------------------------------------------------------------------
  // The whole pass, statement by statement in the order of the source

  /** The label INSERTs in the order of the source: regions first, then pl_names … partnumbers. */
  function LabelOrder(i: nat): Dim {
    if i == 0 then Region
    else if i == 1 then PlName
    else if i == 2 then OwnedBy
    else if i == 3 then UsedBy
    else if i == 4 then SupportedBy
    else if i == 5 then Supplier
    else if i == 6 then Department
    else if i == 7 then CostCenter
    else if i == 8 then Manufacturer
    else if i == 9 then Tier1
    else if i == 10 then Tier2
    else if i == 11 then Tier3
    else if i == 12 then Relation
    else if i == 13 then Type
    else if i == 14 then Depot
    else if i == 15 then PlStatus
    else if i == 16 then CiStatus
    else Partnumber
  }

  const NumDims: nat := 18

  /** The position of a dimension's INSERT in LabelOrder. */
  function LabelRank(d: Dim): (i: nat)
    ensures i < NumDims && LabelOrder(i) == d
  {
    match d
    case Region => 0
    case PlName => 1
    case OwnedBy => 2
    case UsedBy => 3
    case SupportedBy => 4
    case Supplier => 5
    case Department => 6
    case CostCenter => 7
    case Manufacturer => 8
    case Tier1 => 9
    case Tier2 => 10
    case Tier3 => 11
    case Relation => 12
    case Type => 13
    case Depot => 14
    case PlStatus => 15
    case CiStatus => 16
    case Partnumber => 17
  }

  lemma LabelOrderRank(i: nat)
    requires i < NumDims
    ensures LabelRank(LabelOrder(i)) == i
  {
  }

  /** The label INSERTs at positions lo … hi - 1 of LabelOrder, one after the other. */
  function InsertLabelRange(db: Db, lo: nat, hi: nat): Db
    decreases hi - lo
  {
    if lo >= hi then db else InsertLabelRange(InsertLabels(db, LabelOrder(lo)), lo + 1, hi)
  }

  /** The rows dimension d receives from its INSERT. */
  function NewLabels(db: Db, d: Dim): seq<string> {
    Dedup(NonEmptyValues(db.staging, d.Column()))
  }

  lemma NewLabelsSpec(db: Db, d: Dim)
    ensures NoDup(NewLabels(db, d))
    ensures forall x :: x in NewLabels(db, d) <==> x != "" && exists t :: t in db.staging && t[d.Column()] == x
  {
    var values := NonEmptyValues(db.staging, d.Column());
    assert NewLabels(db, d) == Dedup(values);
  }

  /** One label INSERT appends to its own table and leaves every other table as it was. */
  lemma InsertLabelsFrame(db: Db, e: Dim, d: Dim)
    ensures InsertLabels(db, e).Label(d) == if d == e then db.Label(d) + NewLabels(db, d) else db.Label(d)
  {
  }

  /** A label INSERT reads nothing but staging. */
  lemma NewLabelsReadStaging(db1: Db, db2: Db, d: Dim)
    requires db1.staging == db2.staging
    ensures NewLabels(db1, d) == NewLabels(db2, d)
  {
  }

  /** The label INSERTs leave staging and the composite tables alone. */
  lemma {:induction false} InsertLabelRangeFrame(db: Db, lo: nat, hi: nat)
    ensures var r := InsertLabelRange(db, lo, hi);
      r.staging == db.staging && r.sites == db.sites && r.rooms == db.rooms
      && r.models == db.models && r.devices == db.devices
    decreases hi - lo
  {
    if lo < hi {
      InsertLabelRangeFrame(InsertLabels(db, LabelOrder(lo)), lo + 1, hi);
    }
  }

  /** The label INSERTs at positions lo … hi - 1 append to their own tables, each once. */
  lemma {:induction false} InsertLabelRangeLabel(db: Db, lo: nat, hi: nat, d: Dim)
    requires lo <= hi <= NumDims
    ensures InsertLabelRange(db, lo, hi).Label(d) ==
      if lo <= LabelRank(d) < hi then db.Label(d) + NewLabels(db, d) else db.Label(d)
    decreases hi - lo
  {
    if lo < hi {
      var e := LabelOrder(lo);
      var db1 := InsertLabels(db, e);
      InsertLabelRangeLabel(db1, lo + 1, hi, d);
      LabelOrderRank(lo);
      InsertLabelsFrame(db, e, d);
      NewLabelsReadStaging(db1, db, d);
      assert d == e <==> LabelRank(d) == lo;
    }
  }

  /** The state after the regions, sites and rooms INSERTs. */
  function WithRooms(db: Db): Db {
    InsertRooms(InsertSites(InsertLabels(db, Region)))
  }

  /** The state after every label INSERT, just before the models INSERT. */
  function WithLabels(db: Db): Db {
    InsertLabelRange(WithRooms(db), 1, NumDims)
  }

  /** Everything up to and including the models INSERT, in the order of the source. */
  function PopulateDimensions(db: Db): Db {
    InsertModels(WithLabels(db))
  }

  /** populate_normalized_from_staging: every INSERT, the devices last. */
  function Populate(db: Db): Db {
    InsertDevices(PopulateDimensions(db))
  }

  /** Every normalized table is empty (the state clear_all_tables and a fresh import leave). */
  ghost predicate NormalizedEmpty(db: Db) {
    db.sites == [] && db.rooms == [] && db.models == [] && db.devices == [] && forall d :: db.Label(d) == []
  }

  /** The sites and rooms INSERTs leave staging and the label tables alone. */
  lemma WithRoomsFrame(db: Db)
    ensures WithRooms(db).staging == db.staging
    ensures WithRooms(db).labels == InsertLabels(db, Region).labels
  {
  }

  /** From empty tables, every label table ends up holding exactly the rows its own INSERT added. */
  lemma PopulateLabelTable(db: Db, d: Dim)
    requires NormalizedEmpty(db)
    ensures WithLabels(db).Label(d) == NewLabels(db, d)
  {
    var s3 := WithRooms(db);
    WithRoomsFrame(db);
    InsertLabelsFrame(db, Region, d);
    assert db.Label(d) == [];
    assert s3.Label(d) == InsertLabels(db, Region).Label(d);
    if d == Region {
      assert s3.Label(d) == [] + NewLabels(db, d);
      assert [] + NewLabels(db, d) == NewLabels(db, d);
    } else {
      assert s3.Label(d) == [];
    }
    LabelsAfterRange(s3, db, d);
  }

  /** The remaining label INSERTs give dimension d its labels, unless the regions INSERT already did. */
  lemma LabelsAfterRange(s3: Db, db: Db, d: Dim)
    requires s3.staging == db.staging
    requires s3.Label(d) == if d == Region then NewLabels(db, d) else []
    ensures InsertLabelRange(s3, 1, NumDims).Label(d) == NewLabels(db, d)
  {
    NewLabelsReadStaging(s3, db, d);
    InsertLabelRangeLabel(s3, 1, NumDims, d);
    if d != Region {
      assert LabelRank(d) != 0;
      assert [] + NewLabels(db, d) == NewLabels(db, d);
    }
  }

  /** After a fresh pass, each label table holds each distinct non-empty staged value of its column, once. */
  lemma PopulateLabels(db: Db, d: Dim)
    requires NormalizedEmpty(db)
    ensures NoDup(Populate(db).Label(d))
    ensures forall x :: x in Populate(db).Label(d) <==> x != "" && exists t :: t in db.staging && t[d.Column()] == x
  {
    PopulateFrame(db);
    PopulateLabelTable(db, d);
    assert Populate(db).Label(d) == NewLabels(db, d);
    NewLabelsSpec(db, d);
  }

  /** Later INSERTs leave the tables the earlier ones filled alone. */
  lemma PopulateFrame(db: Db)
    ensures Populate(db).staging == db.staging
    ensures Populate(db).labels == WithLabels(db).labels
    ensures Populate(db).sites == InsertSites(InsertLabels(db, Region)).sites
    ensures Populate(db).rooms == WithRooms(db).rooms
    ensures Populate(db).models == PopulateDimensions(db).models
    ensures PopulateDimensions(db).devices == db.devices
  {
    var p := PopulateDimensions(db);
    var w := WithLabels(db);
    InsertLabelRangeFrame(WithRooms(db), 1, NumDims);
    WithRoomsFrame(db);
    assert p.staging == w.staging && p.labels == w.labels && p.sites == w.sites && p.rooms == w.rooms;
  }

  /** After a fresh pass, sites hold each qualifying (COMPANY, SITEGROUP, SITE, region_id) once. */
  lemma PopulateSites(db: Db)
    requires NormalizedEmpty(db)
    ensures NoDup(Populate(db).sites)
    ensures forall s :: s in Populate(db).sites <==>
      exists t :: t in db.staging && SiteFromRow(Populate(db).Label(Region), t, s)
  {
    PopulateFrame(db);
    PopulateLabelTable(db, Region);
    SitesFromEmpty(db, Populate(db));
  }

  /** A state whose sites and regions are those the first two INSERTs give from empty tables. */
  lemma SitesFromEmpty(db: Db, r: Db)
    requires db.sites == [] && db.Label(Region) == []
    requires r.sites == InsertSites(InsertLabels(db, Region)).sites
    requires r.Label(Region) == NewLabels(db, Region)
    ensures NoDup(r.sites)
    ensures forall s :: s in r.sites <==> exists t :: t in db.staging && SiteFromRow(r.Label(Region), t, s)
  {
    var s1 := InsertLabels(db, Region);
    InsertLabelsFrame(db, Region, Region);
    assert s1.Label(Region) == [] + NewLabels(db, Region) == r.Label(Region);
    assert s1.staging == db.staging && s1.sites == [];
    InsertSitesSpec(s1);
  }

  /** After a fresh pass, rooms hold each qualifying (ROOM, PHYSICALPOSITION, CI_ROOM, FLOOR, site_id) once. */
  lemma PopulateRooms(db: Db)
    requires NormalizedEmpty(db)
    ensures NoDup(Populate(db).rooms)
    ensures forall r :: r in Populate(db).rooms <==>
      exists t :: t in db.staging && RoomFromRow(Populate(db).sites, t, r)
  {
    var s2 := InsertSites(InsertLabels(db, Region));
    PopulateFrame(db);
    InsertRoomsSpec(s2);
  }

  /** After a fresh pass, models hold each qualifying combination once, resolved against the final label tables. */
  lemma PopulateModels(db: Db)
    requires NormalizedEmpty(db)
    ensures NoDup(Populate(db).models)
    ensures forall m :: m in Populate(db).models <==>
      exists t :: t in db.staging && ModelFromRow(Populate(db), t, m)
  {
    var s4 := WithLabels(db);
    var r := Populate(db);
    PopulateFrame(db);
    InsertLabelRangeFrame(WithRooms(db), 1, NumDims);
    WithRoomsFrame(db);
    assert s4.staging == db.staging && s4.models == [];
    InsertModelsSpec(s4);
    forall t, m ensures ModelFromRow(s4, t, m) <==> ModelFromRow(r, t, m) {
      ModelJoinsReadLabels(s4, r, t);
    }
  }

  /** The models INSERT reads nothing but the label tables and the staging row. */
  lemma ModelJoinsReadLabels(db1: Db, db2: Db, t: StagingRecord)
    requires db1.labels == db2.labels
    ensures ModelJoins(db1, t) == ModelJoins(db2, t)
  {
    LabelJoinReadsLabels(db1, db2, Manufacturer, t);
    LabelJoinReadsLabels(db1, db2, Tier1, t);
    LabelJoinReadsLabels(db1, db2, Tier2, t);
    LabelJoinReadsLabels(db1, db2, Tier3, t);
    LabelJoinReadsLabels(db1, db2, Partnumber, t);
  }

  lemma LabelJoinReadsLabels(db1: Db, db2: Db, d: Dim, t: StagingRecord)
    requires db1.labels == db2.labels
    ensures LabelJoin(db1, d, t) == LabelJoin(db2, d, t)
  {
    assert db1.Label(d) == db2.Label(d);
  }

  /** After a fresh pass, the devices table holds, as a multiset and in any order, the devices of every staging row. */
  lemma PopulateDevicesBag(db: Db)
    requires NormalizedEmpty(db)
    ensures multiset(Populate(db).devices) == BagSum(db.staging, (t: StagingRecord) => DevicesFrom(PopulateDimensions(db), t))
  {
    var p := PopulateDimensions(db);
    PopulateFrame(db);
    assert p.staging == db.staging && p.devices == [];
    InsertDevicesBag(p);
  }

  /**
   * After a fresh pass, the devices are exactly those every staging row
   * yields against the normalized tables, (model matches) * (room matches)
   * of them per row. The model inserts them in staging order, so the i-th
   * row's devices form the i-th block; PopulateDevicesBag states the same
   * contents without that order.
   */
  lemma PopulateDevices(db: Db)
    requires NormalizedEmpty(db)
    ensures PopulateDimensions(db).staging == db.staging
    ensures Populate(db) == PopulateDimensions(db).(devices := Populate(db).devices)
    ensures |Populate(db).devices| == MatchTotal(PopulateDimensions(db), |db.staging|) >= |db.staging|
    ensures forall i :: 0 <= i < |db.staging| ==> DeviceBlock(Populate(db).devices, PopulateDimensions(db), i)
    ensures forall dv :: dv in Populate(db).devices <==>
      exists t :: t in db.staging && dv in DevicesFrom(PopulateDimensions(db), t)
  {
    var p := PopulateDimensions(db);
    PopulateFrame(db);
    assert p.staging == db.staging && p.devices == [];
    InsertDevicesSpec(p);
    FreshLabelsUnique(db);
    DevicesBeforeMatchTotal(p, |p.staging|);
  }

  /** Whatever order the engine inserts in: the devices INSERT adds each staging row's devices, with their multiplicity, and nothing else. */
  lemma InsertDevicesBag(p: Db)
    ensures multiset(InsertDevices(p).devices) == multiset(p.devices) + BagSum(p.staging, (t: StagingRecord) => DevicesFrom(p, t))
  {
    var f := (t: StagingRecord) => DevicesFrom(p, t);
    assert InsertDevices(p).devices == p.devices + FlatMap(p.staging, f);
    FlatMapBag(p.staging, f);
  }

  /** Devices filled from an empty start, one block per staging row with nothing merged (the INSERT has no DISTINCT). */
  lemma InsertDevicesSpec(p: Db)
    requires p.devices == []
    ensures InsertDevices(p) == p.(devices := InsertDevices(p).devices)
    ensures |InsertDevices(p).devices| == DevicesBefore(p, |p.staging|) >= |p.staging|
    ensures forall i :: 0 <= i < |p.staging| ==> DeviceBlock(InsertDevices(p).devices, p, i)
    ensures forall dv :: dv in InsertDevices(p).devices <==> exists t :: t in p.staging && dv in DevicesFrom(p, t)
  {
    var f := (t: StagingRecord) => DevicesFrom(p, t);
    assert InsertDevices(p).devices == FlatMap(p.staging, f);
    FlatMapBlocks(p, f);
    DevicesAtLeastRows(p, f);
    forall dv ensures dv in FlatMap(p.staging, f) <==> exists t :: t in p.staging && dv in DevicesFrom(p, t) {
      FlatMapMember(p.staging, f, dv);
    }
  }

  /** The i-th staging row's devices are the i-th block of devs. */
  predicate DeviceBlock(devs: seq<DeviceRow>, p: Db, i: nat)
    requires i < |p.staging|
  {
    DevicesBefore(p, i) <= DevicesBefore(p, i + 1) <= |devs|
    && devs[DevicesBefore(p, i)..DevicesBefore(p, i + 1)] == DevicesFrom(p, p.staging[i])
  }

  lemma FlatMapBlocks(p: Db, f: StagingRecord -> seq<DeviceRow>)
    requires forall t :: f(t) == DevicesFrom(p, t)
    ensures |FlatMap(p.staging, f)| == DevicesBefore(p, |p.staging|)
    ensures forall i :: 0 <= i < |p.staging| ==> DeviceBlock(FlatMap(p.staging, f), p, i)
  {
    DevicesBeforeLength(p, f, |p.staging|);
    assert p.staging[..|p.staging|] == p.staging;
    forall i | 0 <= i < |p.staging| ensures DeviceBlock(FlatMap(p.staging, f), p, i) {
      DevicesBlock(p, f, i);
    }
  }

  /** How many device rows the first n staging rows yield. */
  function DevicesBefore(p: Db, n: nat): nat
    requires n <= |p.staging|
  {
    if n == 0 then 0 else DevicesBefore(p, n - 1) + |DevicesFrom(p, p.staging[n - 1])|
  }

  lemma {:induction false} DevicesBeforeLength(p: Db, f: StagingRecord -> seq<DeviceRow>, n: nat)
    requires n <= |p.staging|
    requires forall t :: f(t) == DevicesFrom(p, t)
    ensures DevicesBefore(p, n) == |FlatMap(p.staging[..n], f)|
  {
    if n > 0 {
      DevicesBeforeLength(p, f, n - 1);
      FlatMapSnoc(p.staging, f, n - 1);
    }
  }

  lemma DevicesAtLeastRows(p: Db, f: StagingRecord -> seq<DeviceRow>)
    requires forall t :: f(t) == DevicesFrom(p, t)
    ensures |FlatMap(p.staging, f)| >= |p.staging|
  {
    forall t | t in p.staging ensures |f(t)| >= 1 {
      DevicesFromNonEmpty(p, t);
    }
    SumLengthsAtLeast(p.staging, f);
    FlatMapLength(p.staging, f);
  }

  /** The i-th staging row's devices sit between DevicesBefore(i) and DevicesBefore(i + 1). */
  lemma DevicesBlock(p: Db, f: StagingRecord -> seq<DeviceRow>, i: nat)
    requires i < |p.staging|
    requires forall t :: f(t) == DevicesFrom(p, t)
    ensures DevicesBefore(p, i) <= DevicesBefore(p, i + 1) <= |FlatMap(p.staging, f)|
    ensures FlatMap(p.staging, f)[DevicesBefore(p, i)..DevicesBefore(p, i + 1)] == DevicesFrom(p, p.staging[i])
  {
    DevicesBeforeLength(p, f, i);
    DevicesBeforeLength(p, f, i + 1);
    FlatMapSnoc(p.staging, f, i);
    FlatMapSplit(p.staging, f, i + 1);
    var pre := FlatMap(p.staging[..i], f);
    assert FlatMap(p.staging, f) == pre + f(p.staging[i]) + FlatMap(p.staging[i + 1..], f);
  }

  /** (model matches) * (room matches) of one staging row, with its single label choice. */
  function MatchProduct(p: Db, t: StagingRecord): int {
    |ModelJoin(p.models, t, SingleChoice(p, t))| * |RoomJoin(p, t)|
  }

  /** The sum of MatchProduct over the first n staging rows. */
  function MatchTotal(p: Db, n: nat): int
    requires n <= |p.staging|
  {
    PrefixSum(p.staging, (t: StagingRecord) => MatchProduct(p, t), n)
  }

  lemma RowMatchProduct(p: Db, t: StagingRecord)
    requires forall d: Dim :: NoDup(p.Label(d))
    ensures |DevicesFrom(p, t)| == MatchProduct(p, t)
  {
    DevicesFromCount(p, t);
  }

  /** With unique labels, the device count of every staging prefix is the sum of its match products. */
  lemma DevicesBeforeMatchTotal(p: Db, n: nat)
    requires n <= |p.staging|
    requires forall d: Dim :: NoDup(p.Label(d))
    ensures DevicesBefore(p, n) == MatchTotal(p, n)
  {
    var f := (t: StagingRecord) => DevicesFrom(p, t);
    var c1 := (t: StagingRecord) => |f(t)|;
    var c2 := (t: StagingRecord) => MatchProduct(p, t);
    forall i | 0 <= i < |p.staging| ensures c1(p.staging[i]) == c2(p.staging[i]) {
      RowMatchProduct(p, p.staging[i]);
    }
    DevicesBeforeLength(p, f, n);
    FlatMapPrefixSum(p.staging, f, c1, n);
    PrefixSumPointwise(p.staging, c1, c2, n);
  }

  /** After a fresh pass every label table is duplicate-free, so each row yields (model matches) * (room matches) devices. */
  lemma PopulateDeviceCount(db: Db, t: StagingRecord)
    requires NormalizedEmpty(db)
    ensures var p := PopulateDimensions(db);
      |DevicesFrom(p, t)| == |ModelJoin(p.models, t, SingleChoice(p, t))| * |RoomJoin(p, t)|
  {
    var p := PopulateDimensions(db);
    FreshLabelsUnique(db);
    DevicesFromCount(p, t);
  }

  /** After a fresh pass no label table holds a label twice. */
  lemma FreshLabelsUnique(db: Db)
    requires NormalizedEmpty(db)
    ensures forall d: Dim :: NoDup(PopulateDimensions(db).Label(d))
  {
    var p := PopulateDimensions(db);
    assert p.labels == WithLabels(db).labels;
    forall d: Dim ensures NoDup(p.Label(d)) {
      PopulateLabelTable(db, d);
    }
  }

  /**
   * The device-to-model match ignores PARTNUMBER: neither the row's value
   * nor the model's partnumber_id takes part, and no device label join reads it.
   */
  lemma ModelMatchIgnoresPartnumber(m: ModelRow, t: StagingRecord, k: seq<Option<nat>>, p: Option<nat>, x: string)
    ensures ModelMatches(m.(partnumberId := p), t[ColPartnumber := x], k) <==> ModelMatches(m, t, k)
    ensures forall i :: 0 <= i < NumJoinDims ==> JoinDim(i) != Partnumber
  {
  }
}
