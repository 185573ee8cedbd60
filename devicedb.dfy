/**
 * The device database as the pipeline changes it: clear_all_tables,
 * import_csv_to_staging and populate_normalized_from_staging work on one
 * object whose fields are the 23 tables, statement by statement. The
 * meaning of every statement is the function of the same name in
 * Normalizer, Staging or below.
 */
module DeviceDatabase {
  import opened Wrappers
  import opened Relational
  import opened Schema
  import opened Staging
  import opened Normalizer
  import opened FlatView

  // ---------------------------------------------------------------------
  // TRUNCATE TABLE

  /** The tables clear_all_tables truncates, in its statement order. */
  const AllTables: seq<Table> := [
    DevicesTable, LabelTable(Partnumber), ModelsTable, LabelTable(Tier3),
    LabelTable(Tier2), LabelTable(Tier1), LabelTable(Manufacturer), RoomsTable,
    SitesTable, LabelTable(Region), LabelTable(CostCenter), LabelTable(Supplier),
    LabelTable(Department), LabelTable(PlName), LabelTable(OwnedBy),
    LabelTable(UsedBy), LabelTable(SupportedBy), LabelTable(Relation),
    LabelTable(Type), LabelTable(Depot), LabelTable(PlStatus),
    LabelTable(CiStatus), StagingTable
  ]

  /** TRUNCATE TABLE t: t is empty afterwards, every other table is unchanged. */
  function Truncated(db: Db, t: Table): (r: Db)
    ensures t.LabelTable? ==> r.Label(t.dim) == [] && forall d: Dim :: d != t.dim ==> r.Label(d) == db.Label(d)
    ensures !t.LabelTable? ==> r.labels == db.labels
    ensures r.staging == if t == StagingTable then [] else db.staging
    ensures r.sites == if t == SitesTable then [] else db.sites
    ensures r.rooms == if t == RoomsTable then [] else db.rooms
    ensures r.models == if t == ModelsTable then [] else db.models
    ensures r.devices == if t == DevicesTable then [] else db.devices
  {
    match t
    case StagingTable => db.(staging := [])
    case LabelTable(d) => db.(labels := db.labels - {d})
    case SitesTable => db.(sites := [])
    case RoomsTable => db.(rooms := [])
    case ModelsTable => db.(models := [])
    case DevicesTable => db.(devices := [])
  }

  /** The statements of clear_all_tables for the tables ts, one after the other. */
  function TruncateAll(db: Db, ts: seq<Table>): Db
    decreases |ts|
  {
    if ts == [] then db else TruncateAll(Truncated(db, ts[0]), ts[1..])
  }

  /** Truncating ts empties exactly the tables in ts and leaves the others unchanged. */
  lemma TruncateAllTables(db: Db, ts: seq<Table>)
    ensures TruncateAll(db, ts).staging == if StagingTable in ts then [] else db.staging
    ensures TruncateAll(db, ts).sites == if SitesTable in ts then [] else db.sites
    ensures TruncateAll(db, ts).rooms == if RoomsTable in ts then [] else db.rooms
    ensures TruncateAll(db, ts).models == if ModelsTable in ts then [] else db.models
    ensures TruncateAll(db, ts).devices == if DevicesTable in ts then [] else db.devices
    ensures forall d :: d in TruncateAll(db, ts).labels <==> d in db.labels && LabelTable(d) !in ts
    ensures forall d :: d in TruncateAll(db, ts).labels ==> TruncateAll(db, ts).labels[d] == db.labels[d]
  {
    TruncateAllRows(db, ts);
    TruncateAllLabels(db, ts);
  }

  lemma TruncateAllRows(db: Db, ts: seq<Table>)
    ensures TruncateAll(db, ts).staging == if StagingTable in ts then [] else db.staging
    ensures TruncateAll(db, ts).sites == if SitesTable in ts then [] else db.sites
    ensures TruncateAll(db, ts).rooms == if RoomsTable in ts then [] else db.rooms
    ensures TruncateAll(db, ts).models == if ModelsTable in ts then [] else db.models
    ensures TruncateAll(db, ts).devices == if DevicesTable in ts then [] else db.devices
  {
    TruncateAllPlaces(db, ts);
    TruncateAllInventory(db, ts);
  }

  lemma {:induction false} TruncateAllPlaces(db: Db, ts: seq<Table>)
    ensures TruncateAll(db, ts).staging == if StagingTable in ts then [] else db.staging
    ensures TruncateAll(db, ts).sites == if SitesTable in ts then [] else db.sites
    ensures TruncateAll(db, ts).rooms == if RoomsTable in ts then [] else db.rooms
    decreases |ts|
  {
    if ts != [] {
      TruncateAllPlaces(Truncated(db, ts[0]), ts[1..]);
      assert forall t :: t in ts <==> t == ts[0] || t in ts[1..];
    }
  }

  lemma {:induction false} TruncateAllInventory(db: Db, ts: seq<Table>)
    ensures TruncateAll(db, ts).models == if ModelsTable in ts then [] else db.models
    ensures TruncateAll(db, ts).devices == if DevicesTable in ts then [] else db.devices
    decreases |ts|
  {
    if ts != [] {
      TruncateAllInventory(Truncated(db, ts[0]), ts[1..]);
      assert forall t :: t in ts <==> t == ts[0] || t in ts[1..];
    }
  }

  lemma {:induction false} TruncateAllLabels(db: Db, ts: seq<Table>)
    ensures forall d :: d in TruncateAll(db, ts).labels <==> d in db.labels && LabelTable(d) !in ts
    ensures forall d :: d in TruncateAll(db, ts).labels ==> TruncateAll(db, ts).labels[d] == db.labels[d]
    decreases |ts|
  {
    if ts != [] {
      var db1 := Truncated(db, ts[0]);
      TruncateAllLabels(db1, ts[1..]);
      assert forall t :: t in ts <==> t == ts[0] || t in ts[1..];
      assert forall d :: d in db1.labels <==> d in db.labels && LabelTable(d) != ts[0];
      assert forall d :: d in db1.labels ==> db1.labels[d] == db.labels[d];
    }
  }

  /** clear_all_tables names all 23 tables. */
  lemma AllTablesComplete()
    ensures |AllTables| == 23
    ensures StagingTable in AllTables && SitesTable in AllTables && RoomsTable in AllTables
    ensures ModelsTable in AllTables && DevicesTable in AllTables
    ensures forall d: Dim :: LabelTable(d) in AllTables
  {
    assert AllTables[0] == DevicesTable && AllTables[2] == ModelsTable;
    assert AllTables[7] == RoomsTable && AllTables[8] == SitesTable && AllTables[22] == StagingTable;
    AllLabelTables();
  }

  lemma AllLabelTables()
    ensures forall d: Dim :: LabelTable(d) in AllTables
  {
    forall d: Dim ensures LabelTable(d) in AllTables {
      LabelTableListed(d);
    }
  }

  /** The position of every label table in the list clear_all_tables walks. */
  lemma LabelTableListed(d: Dim)
    ensures LabelTable(d) in AllTables
  {
    var i := match d
      case Region => 9
      case PlName => 13
      case OwnedBy => 14
      case UsedBy => 15
      case SupportedBy => 16
      case Supplier => 11
      case Department => 12
      case CostCenter => 10
      case Manufacturer => 6
      case Tier1 => 5
      case Tier2 => 4
      case Tier3 => 3
      case Relation => 17
      case Type => 18
      case Depot => 19
      case PlStatus => 20
      case CiStatus => 21
      case Partnumber => 1
      ;
    assert AllTables[i] == LabelTable(d);
  }

  /** clear_all_tables: every statement of the script, in order. */
  function ClearAll(db: Db): Db {
    TruncateAll(db, AllTables)
  }

  /** Whatever the tables held before, clear_all_tables leaves all 23 of them empty. */
  lemma ClearAllEmpties(db: Db)
    ensures ClearAll(db) == EmptyDb
    ensures AllEmpty(ClearAll(db))
  {
    TruncateAllTables(db, AllTables);
    AllTablesComplete();
    var r := ClearAll(db);
    forall d: Dim ensures d !in r.labels {
      assert LabelTable(d) in AllTables;
    }
    assert r.labels == map[];
  }

  /** Running clear_all_tables twice is running it once. */
  lemma ClearAllIdempotent(db: Db)
    ensures ClearAll(ClearAll(db)) == ClearAll(db)
  {
    ClearAllEmpties(db);
    ClearAllEmpties(ClearAll(db));
  }

  // ---------------------------------------------------------------------
  // Staging load

  /** import_csv_to_staging: staging is replaced by the records of this upload; nothing else changes. */
  function ImportStaging(db: Db, reader: seq<CsvRow>): Db {
    db.(staging := StagingRecords(reader))
  }

  /** A run of label INSERTs is its first part followed by the rest. */
  lemma LabelRangeSplit(db: Db, lo: nat, mid: nat, hi: nat)
    requires lo <= mid <= hi
    ensures InsertLabelRange(db, lo, hi) == InsertLabelRange(InsertLabelRange(db, lo, mid), mid, hi)
  {
    LabelRangeIterates(db, lo, hi);
    LabelRangeIterates(db, lo, mid);
    LabelRangeIterates(InsertLabelRange(db, lo, mid), mid, hi);
    IterateSplit(LabelStep, db, lo, mid, hi);
  }

  /** The label INSERT at position i of LabelOrder. */
  function LabelStep(db: Db, i: nat): Db {
    InsertLabels(db, LabelOrder(i))
  }

  /** Steps lo … hi - 1 of a sequence of statements, one after the other. */
  function Iterate<S>(step: (S, nat) -> S, s: S, lo: nat, hi: nat): S
    decreases hi - lo
  {
    if lo >= hi then s else Iterate(step, step(s, lo), lo + 1, hi)
  }

  lemma {:induction false} IterateSplit<S>(step: (S, nat) -> S, s: S, lo: nat, mid: nat, hi: nat)
    requires lo <= mid <= hi
    ensures Iterate(step, s, lo, hi) == Iterate(step, Iterate(step, s, lo, mid), mid, hi)
    decreases mid - lo
  {
    if lo < mid {
      IterateSplit(step, step(s, lo), lo + 1, mid, hi);
    }
  }

  lemma {:induction false} LabelRangeIterates(db: Db, lo: nat, hi: nat)
    ensures InsertLabelRange(db, lo, hi) == Iterate(LabelStep, db, lo, hi)
    decreases hi - lo
  {
    if lo < hi {
      LabelRangeIterates(LabelStep(db, lo), lo + 1, hi);
    }
  }

  lemma LabelRangeSnoc(db: Db, lo: nat, hi: nat)
    requires lo <= hi
    ensures InsertLabelRange(db, lo, hi + 1) == InsertLabels(InsertLabelRange(db, lo, hi), LabelOrder(hi))
  {
    LabelRangeSplit(db, lo, hi, hi + 1);
    var m := InsertLabelRange(db, lo, hi);
    assert InsertLabelRange(m, hi, hi + 1) == InsertLabelRange(InsertLabels(m, LabelOrder(hi)), hi + 1, hi + 1);
  }

  /** Seven label INSERTs in a row, wherever they stand in the sequence. */
  lemma SevenLabels(db: Db, lo: nat, d0: Dim, d1: Dim, d2: Dim, d3: Dim, d4: Dim, d5: Dim, d6: Dim)
    requires LabelOrder(lo) == d0 && LabelOrder(lo + 1) == d1 && LabelOrder(lo + 2) == d2
    requires LabelOrder(lo + 3) == d3 && LabelOrder(lo + 4) == d4 && LabelOrder(lo + 5) == d5
    requires LabelOrder(lo + 6) == d6
    ensures InsertLabelRange(db, lo, lo + 7)
            == InsertLabels(InsertLabels(InsertLabels(InsertLabels(InsertLabels(InsertLabels(InsertLabels(db, d0), d1), d2), d3), d4), d5), d6)
  {
    LabelRangeSnoc(db, lo, lo);
    LabelRangeSnoc(db, lo, lo + 1);
    LabelRangeSnoc(db, lo, lo + 2);
    LabelRangeSnoc(db, lo, lo + 3);
    LabelRangeSnoc(db, lo, lo + 4);
    LabelRangeSnoc(db, lo, lo + 5);
    LabelRangeSnoc(db, lo, lo + 6);
  }

  /** Four label INSERTs in a row, wherever they stand in the sequence. */
  lemma FourLabels(db: Db, lo: nat, d0: Dim, d1: Dim, d2: Dim, d3: Dim)
    requires LabelOrder(lo) == d0 && LabelOrder(lo + 1) == d1 && LabelOrder(lo + 2) == d2 && LabelOrder(lo + 3) == d3
    ensures InsertLabelRange(db, lo, lo + 4) == InsertLabels(InsertLabels(InsertLabels(InsertLabels(db, d0), d1), d2), d3)
  {
    LabelRangeSnoc(db, lo, lo);
    LabelRangeSnoc(db, lo, lo + 1);
    LabelRangeSnoc(db, lo, lo + 2);
    LabelRangeSnoc(db, lo, lo + 3);
  }

  /** Five label INSERTs in a row, wherever they stand in the sequence. */
  lemma FiveLabels(db: Db, lo: nat, d0: Dim, d1: Dim, d2: Dim, d3: Dim, d4: Dim)
    requires LabelOrder(lo) == d0 && LabelOrder(lo + 1) == d1 && LabelOrder(lo + 2) == d2
    requires LabelOrder(lo + 3) == d3 && LabelOrder(lo + 4) == d4
    ensures InsertLabelRange(db, lo, lo + 5) == InsertLabels(InsertLabels(InsertLabels(InsertLabels(InsertLabels(db, d0), d1), d2), d3), d4)
  {
    FourLabels(db, lo, d0, d1, d2, d3);
    LabelRangeSnoc(db, lo, lo + 4);
  }

  /** The label INSERTs pl_names, owned_bys, used_bys, supported_bys, suppliers, departments, cost_centers, one after the other. */
  lemma PeopleRange(db: Db)
    ensures InsertLabelRange(db, 1, 8) == InsertLabels(InsertLabels(InsertLabels(InsertLabels(InsertLabels(InsertLabels(InsertLabels(db, PlName), OwnedBy), UsedBy), SupportedBy), Supplier), Department), CostCenter)
  {
    SevenLabels(db, 1, PlName, OwnedBy, UsedBy, SupportedBy, Supplier, Department, CostCenter);
  }

  /** The label INSERTs manufacturers, tbltier1, tbltier2, tbltier3, one after the other. */
  lemma ProductRange(db: Db)
    ensures InsertLabelRange(db, 8, 12) == InsertLabels(InsertLabels(InsertLabels(InsertLabels(db, Manufacturer), Tier1), Tier2), Tier3)
  {
    FourLabels(db, 8, Manufacturer, Tier1, Tier2, Tier3);
  }

  /** The label INSERTs relations, types, depots, tblpl_status, tblci_status, one after the other. */
  lemma StatusRange(db: Db)
    ensures InsertLabelRange(db, 12, 17) == InsertLabels(InsertLabels(InsertLabels(InsertLabels(InsertLabels(db, Relation), Type), Depot), PlStatus), CiStatus)
  {
    FiveLabels(db, 12, Relation, Type, Depot, PlStatus, CiStatus);
  }

  /** The label INSERTs after rooms, split at the statement groups the database object runs. */
  lemma LabelGroups(w: Db)
    ensures InsertLabelRange(w, 1, NumDims) == InsertLabels(
      InsertLabelRange(InsertLabelRange(InsertLabelRange(w, 1, 8), 8, 12), 12, 17), Partnumber)
  {
    LabelRangeSnoc(w, 1, 17);
    LabelRangeSplit(w, 1, 12, 17);
    LabelRangeSplit(w, 1, 8, 12);
    assert InsertLabelRange(w, 1, 17) == InsertLabelRange(InsertLabelRange(w, 1, 12), 12, 17);
  }

  /** The upload in the order views.py runs it: clear, load staging, normalize. */
  function Upload(db: Db, reader: seq<CsvRow>): Db {
    Populate(ImportStaging(ClearAll(db), reader))
  }

  /**
   * A re-import replaces the whole state: the tables after an upload depend
   * on the uploaded rows alone, not on anything an earlier upload left.
   */
  lemma UploadReplaces(db1: Db, db2: Db, reader: seq<CsvRow>)
    ensures Upload(db1, reader) == Upload(db2, reader)
    ensures DeviceFlat(Upload(db1, reader)) == DeviceFlat(Upload(db2, reader))
  {
    ClearAllEmpties(db1);
    ClearAllEmpties(db2);
  }

  /**
   * After an upload every label table holds each distinct non-empty value
   * of its column among the non-blank uploaded rows, once; and the view has
   * at least one row per non-blank uploaded row.
   */
  lemma UploadLabels(db: Db, reader: seq<CsvRow>, d: Dim)
    ensures NoDup(Upload(db, reader).Label(d))
    ensures forall x :: x in Upload(db, reader).Label(d) <==>
      x != "" && exists t :: t in StagingRecords(reader) && t[d.Column()] == x
    ensures |DeviceFlat(Upload(db, reader))| >= |StagingRecords(reader)|
  {
    var s := ImportStaging(ClearAll(db), reader);
    ClearAllEmpties(db);
    assert NormalizedEmpty(s);
    PopulateLabels(s, d);
    PopulateDevices(s);
    DeviceFlatRows(Populate(s));
  }

  // ---------------------------------------------------------------------
  // The database object

  class DeviceDb {
    var staging: seq<StagingRecord>
    var labels: map<Dim, seq<string>>
    var sites: seq<SiteRow>
    var rooms: seq<RoomRow>
    var models: seq<ModelRow>
    var devices: seq<DeviceRow>

    /** The contents of all 23 tables. */
    function State(): Db
      reads this
    {
      Db(staging, labels, sites, rooms, models, devices)
    }

    /** SELECT * FROM device_flat on the current tables. */
    function View(): seq<FlatView.FlatRow>
      reads this
    {
      DeviceFlat(State())
    }

    /** A database whose tables are all empty. */
    constructor ()
      ensures State() == EmptyDb
    {
      staging, labels, sites, rooms, models, devices := [], map[], [], [], [], [];
    }

    /** TRUNCATE TABLE t. */
    method TruncateTable(t: Table)
      modifies this
      ensures State() == Truncated(old(State()), t)
    {
      match t
      case StagingTable => staging := [];
      case LabelTable(d) => labels := labels - {d};
      case SitesTable => sites := [];
      case RoomsTable => rooms := [];
      case ModelsTable => models := [];
      case DevicesTable => devices := [];
    }

    /** Execute the TRUNCATE statements for ts one after the other. */
    method TruncateTables(ts: seq<Table>)
      modifies this
      ensures State() == TruncateAll(old(State()), ts)
    {
      ghost var start := State();
      for i := 0 to |ts|
        invariant TruncateAll(State(), ts[i..]) == TruncateAll(start, ts)
      {
        assert ts[i..][1..] == ts[i + 1..];
        TruncateTable(ts[i]);
      }
      assert ts[|ts|..] == [];
    }

    /** clear_all_tables: the statement script, run statement by statement. */
    method ClearAllTables()
      modifies this
      ensures State() == ClearAll(old(State()))
      ensures State() == EmptyDb && AllEmpty(State())
    {
      ghost var start := State();
      TruncateTables(AllTables);
      ClearAllEmpties(start);
    }

    /**
     * import_csv_to_staging: collect the records of the non-blank rows, then
     * TRUNCATE the staging table and insert them.
     */
    method ImportCsvToStaging(reader: seq<CsvRow>)
      modifies this
      ensures State() == ImportStaging(old(State()), reader)
    {
      var rows := CollectStagingRows(reader);
      staging := [];
      if rows != [] {
        staging := staging + rows;
      }
    }

    /** INSERT INTO <label table> SELECT DISTINCT <column> … */
    method InsertLabelRows(d: Dim)
      modifies this
      ensures State() == InsertLabels(old(State()), d)
    {
      labels := labels[d := State().Label(d) + NewLabels(State(), d)];
    }

    /** INSERT INTO sites SELECT DISTINCT … JOIN regions … */
    method InsertSiteRows()
      modifies this
      ensures State() == InsertSites(old(State()))
    {
      sites := InsertSites(State()).sites;
    }

    /** INSERT INTO rooms SELECT DISTINCT … JOIN sites … */
    method InsertRoomRows()
      modifies this
      ensures State() == InsertRooms(old(State()))
    {
      rooms := InsertRooms(State()).rooms;
    }

    /** INSERT INTO models SELECT DISTINCT … LEFT JOIN … */
    method InsertModelRows()
      modifies this
      ensures State() == InsertModels(old(State()))
    {
      models := InsertModels(State()).models;
    }

    /** INSERT INTO devices SELECT … LEFT JOIN … */
    method InsertDeviceRows()
      modifies this
      ensures State() == InsertDevices(old(State()))
    {
      devices := InsertDevices(State()).devices;
    }

    /** The label INSERTs pl_names, owned_bys, used_bys, supported_bys, suppliers, departments, cost_centers. */
    method InsertPeopleLabels()
      modifies this
      ensures State() == InsertLabelRange(old(State()), 1, 8)
    {
      ghost var start := State();
      InsertLabelRows(PlName);
      InsertLabelRows(OwnedBy);
      InsertLabelRows(UsedBy);
      InsertLabelRows(SupportedBy);
      InsertLabelRows(Supplier);
      InsertLabelRows(Department);
      InsertLabelRows(CostCenter);
      PeopleRange(start);
    }

    /** The label INSERTs manufacturers, tbltier1, tbltier2, tbltier3. */
    method InsertProductLabels()
      modifies this
      ensures State() == InsertLabelRange(old(State()), 8, 12)
    {
      ghost var start := State();
      InsertLabelRows(Manufacturer);
      InsertLabelRows(Tier1);
      InsertLabelRows(Tier2);
      InsertLabelRows(Tier3);
      ProductRange(start);
    }

    /** The label INSERTs relations, types, depots, tblpl_status, tblci_status. */
    method InsertStatusLabels()
      modifies this
      ensures State() == InsertLabelRange(old(State()), 12, 17)
    {
      ghost var start := State();
      InsertLabelRows(Relation);
      InsertLabelRows(Type);
      InsertLabelRows(Depot);
      InsertLabelRows(PlStatus);
      InsertLabelRows(CiStatus);
      StatusRange(start);
    }

    /**
     * populate_normalized_from_staging: the INSERT statements in the order of
     * the source. From empty normalized tables the result has the properties
     * of Normalizer.PopulateLabels, PopulateSites, PopulateRooms,
     * PopulateModels and PopulateDevices.
     */
    method PopulateNormalizedFromStaging()
      modifies this
      ensures State() == Populate(old(State()))
    {
      ghost var start := State();
      InsertLabelRows(Region);
      InsertSiteRows();
      InsertRoomRows();
      InsertPeopleLabels();
      InsertProductLabels();
      InsertStatusLabels();
      InsertLabelRows(Partnumber);
      InsertModelRows();
      InsertDeviceRows();
      LabelGroups(WithRooms(start));
    }

    /**
     * The upload handler's sequence: clear_all_tables, import_csv_to_staging,
     * populate_normalized_from_staging. The device_flat view needs no
     * refresh: View() is always computed from the current tables.
     */
    method UploadCsv(reader: seq<CsvRow>)
      modifies this
      ensures State() == Upload(old(State()), reader)
      ensures View() == DeviceFlat(Upload(EmptyDb, reader))
    {
      ghost var start := State();
      ClearAllTables();
      ImportCsvToStaging(reader);
      PopulateNormalizedFromStaging();
      UploadReplaces(start, EmptyDb, reader);
    }
  }
}
