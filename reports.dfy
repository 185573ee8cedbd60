/**
 * The two fixed reports over the flat device view: the deployed devices of
 * the DACH sites whose third tier is a computer, notebook, thin client or
 * workstation, listed in full and counted per site.
 */
module Reports {
  import opened Wrappers
  import opened Relational
  import opened SqlOrder
  import opened Strings
  import opened FlatView
  import A = Analysis

  /** The report's own copy of the DACH site codes. */
  const DachSites: seq<string> := [
    "ARW", "ALS", "ARB", "BYR", "BRL", "BR2", "BEH", "BER", "BLF", "BRB", "BRM",
    "BRN", "DMM", "DAM", "DED", "DLN", "DPH", "DRT", "DRS", "DUS", "EDM", "ETR",
    "ETF", "ESC", "ES2", "ESP", "ERB", "FR2", "FR4", "FRK", "FRD", "FRT", "GEL",
    "GCH", "GC2", "GTH", "GRN", "GDN", "HNV", "HN2", "HN3", "HN4", "HLD", "HCO",
    "IGS", "KRL", "KSM", "KVL", "KOB", "ELS", "KSC", "KRS", "KRZ", "LNG", "LN2",
    "LN3", "LSN", "LBR", "LMF", "LVK", "LAT", "LHR", "MGD", "MNN", "MNH", "MH2",
    "MND", "MGG", "MNC", "MN2", "NKR", "NEU", "NDR", "NRN", "NR2", "NRB", "OBR",
    "PAS", "PEN", "PEI", "PFL", "PFN", "RAD", "RIZ", "RVS", "RGN", "RG2", "SBR",
    "SCB", "SCM", "SCN", "SCF", "SCW", "SC2", "SEL", "SNN", "SMM", "SND", "STY",
    "STT", "THY", "THN", "TRS", "UEB", "UNT", "VNN", "VN2", "VLK", "WGN", "WRD",
    "WTZ", "WTT", "WTN", "WLF", "WUE", "ZEU", "ZUG"
  ]

  /** The third-tier values the reports keep. */
  const Tier3Filter: seq<string> := [
    "Computer", "Notebook", "Notebook-Special", "ThinClient", "Workstation", "Workstation-Mobile"
  ]

  const Deployed: string := "Deployed"

  /** Both modules list the same sites. */
  lemma SameDachSites()
    ensures DachSites == A.DachSites
  {
  }

  /** SITE IN (…) AND CI_STATUS = %s AND TIER3 IN (…) */
  function ReportConditions(): seq<A.Condition> {
    [A.InList(A.SiteCol, DachSites), A.Equals(A.CiStatusCol, Deployed), A.InList(A.Tier3Col, Tier3Filter)]
  }

  /** The parameter list both reports bind: the sites, the status, the tiers. */
  function ReportParams(): (p: seq<string>)
    ensures p == A.ParamsOf(ReportConditions())
    ensures |p| == |DachSites| + 1 + |Tier3Filter|
  {
    ParamsOfThree(A.InList(A.SiteCol, DachSites), A.Equals(A.CiStatusCol, Deployed), A.InList(A.Tier3Col, Tier3Filter));
    DachSites + [Deployed] + Tier3Filter
  }

  lemma ParamsOfThree(a: A.Condition, b: A.Condition, c: A.Condition)
    ensures A.ParamsOf([a, b, c]) == a.Params() + b.Params() + c.Params()
  {
    assert [a, b, c][1..] == [b, c];
    assert [b, c][1..] == [c];
    assert [c][1..] == [];
    assert A.ParamsOf([c]) == c.Params();
    assert A.ParamsOf([b, c]) == b.Params() + c.Params();
  }

  // ---------------------------------------------------------------------
  // Query text

  const FromTable: string := " FROM device_flat WHERE "

  /** A report query: head, the three conditions joined by AND, tail. */
  function ReportSql(head: string, conds: seq<A.Condition>, tail: string): string {
    head + FromTable + Join(" AND ", A.Texts(conds)) + tail
  }

  /** The listing query. */
  function DevicesSql(): string {
    ReportSql("SELECT *", ReportConditions(), A.RowsOrder)
  }

  /** The per-site count query. */
  function CountsSql(): string {
    ReportSql(A.CountsSelect, ReportConditions(), A.CountsOrder)
  }

  lemma {:induction false} ReportSqlPlaceholders(head: string, conds: seq<A.Condition>, tail: string)
    requires '%' !in head && '%' !in tail && tail != [] && tail[0] == ' '
    ensures Placeholders(ReportSql(head, conds, tail)) == |A.ParamsOf(conds)|
  {
    var where := Join(" AND ", A.Texts(conds));
    assert '%' !in FromTable;
    NoPercentConcat(head, FromTable);
    PlaceholdersBeforePlain(head + FromTable + where, tail);
    PlaceholdersAfterPlain(head + FromTable, where);
    JoinPlaceholders(" AND ", A.Texts(conds));
    A.TextsPlaceholders(conds);
  }

  lemma HeadsPlain()
    ensures '%' !in "SELECT *" && '%' !in A.CountsSelect
    ensures '%' !in A.CountsOrder && A.CountsOrder != [] && A.CountsOrder[0] == ' '
  {
    A.CountsOrderPlain();
    assert '%' !in A.CountsSelect;
  }

  /** Each report query holds one marker per bound parameter. */
  lemma ReportPlaceholders()
    ensures Placeholders(DevicesSql()) == |ReportParams()|
    ensures Placeholders(CountsSql()) == |ReportParams()|
  {
    HeadsPlain();
    A.RowsOrderPlain();
    ReportSqlPlaceholders("SELECT *", ReportConditions(), A.RowsOrder);
    ReportSqlPlaceholders(A.CountsSelect, ReportConditions(), A.CountsOrder);
  }

  // ---------------------------------------------------------------------
  // What the reports return

  /** The report filter, written directly over a row. */
  predicate InReport(row: FlatRow) {
    A.Cell(row, A.SiteCol).Some? && A.Cell(row, A.SiteCol).value in DachSites
    && A.Cell(row, A.CiStatusCol) == Some(Deployed)
    && A.Cell(row, A.Tier3Col).Some? && A.Cell(row, A.Tier3Col).value in Tier3Filter
  }

  /** The report's WHERE clause is TRUE exactly on the rows the report describes. */
  lemma ReportConditionsMeaning(row: FlatRow)
    ensures A.Where(ReportConditions(), row) == A.True <==> InReport(row)
  {
    var conds := ReportConditions();
    A.WhereTrue(conds, row);
    assert conds[0] == A.InList(A.SiteCol, DachSites);
    assert conds[1] == A.Equals(A.CiStatusCol, Deployed);
    assert conds[2] == A.InList(A.Tier3Col, Tier3Filter);
  }

  lemma ReportMultiset(view: seq<FlatRow>)
    ensures forall row :: multiset(A.Selected(view, ReportConditions()))[row] == if InReport(row) then multiset(view)[row] else 0
  {
    var conds := ReportConditions();
    FilterMultiset(view, A.Passes(conds));
    forall row ensures multiset(A.Selected(view, conds))[row] == if InReport(row) then multiset(view)[row] else 0 {
      ReportConditionsMeaning(row);
      assert A.Passes(conds)(row) <==> InReport(row);
    }
  }

  /** Column names and rows, as a cursor returns them. */
  datatype Listing<T> = Listing(columns: seq<string>, rows: seq<T>)

  /**
   * Report 1: every view row of a deployed DACH device of a listed tier, as
   * often as it occurs, ordered by site, name and serial.
   */
  function DachDeployedT3Devices(view: seq<FlatRow>): (r: Listing<FlatRow>)
    ensures r.columns == FlatViewColumns
    ensures SortedBy(r.rows, A.RowKey)
    ensures forall row :: multiset(r.rows)[row] == if InReport(row) then multiset(view)[row] else 0
  {
    var sel := A.Selected(view, ReportConditions());
    SortBySorted(sel, A.RowKey);
    ReportMultiset(view);
    Listing(FlatViewColumns, SortBy(sel, A.RowKey))
  }

  /**
   * Report 2: one (site, count) row per DACH site with report devices,
   * sorted by site, adding up to the size of report 1.
   */
  function DachDeployedT3CountsBySite(view: seq<FlatRow>): (r: Listing<A.SiteCount>)
    ensures r.columns == ["SITE", "device_count"]
    ensures forall i, j :: 0 <= i < j < |r.rows| ==> r.rows[i].site != r.rows[j].site && OptLe(r.rows[i].site, r.rows[j].site)
    ensures forall i :: 0 <= i < |r.rows| ==>
              r.rows[i].site.Some? && r.rows[i].site.value in DachSites && r.rows[i].count >= 1
    ensures forall i :: 0 <= i < |r.rows| ==>
              r.rows[i].count == |A.AtSite(DachDeployedT3Devices(view).rows, r.rows[i].site)|
    ensures A.TotalCount(r.rows) == |DachDeployedT3Devices(view).rows|
  {
    ReportCounts(view);
    Listing(["SITE", "device_count"], A.CountsBySite(A.Selected(view, ReportConditions())))
  }

  /** The grouped counts over the report's selection, against the report's device listing. */
  lemma ReportCounts(view: seq<FlatRow>)
    ensures var counts := A.CountsBySite(A.Selected(view, ReportConditions()));
      && (forall i, j :: 0 <= i < j < |counts| ==> counts[i].site != counts[j].site && OptLe(counts[i].site, counts[j].site))
      && (forall i :: 0 <= i < |counts| ==>
            counts[i].site.Some? && counts[i].site.value in DachSites && counts[i].count >= 1)
      && (forall i :: 0 <= i < |counts| ==>
            counts[i].count == |A.AtSite(DachDeployedT3Devices(view).rows, counts[i].site)|)
      && A.TotalCount(counts) == |DachDeployedT3Devices(view).rows|
  {
    var sel := A.Selected(view, ReportConditions());
    A.CountsBySiteSpec(sel);
    ReportCountsSites(view);
    assert |DachDeployedT3Devices(view).rows| == |SortBy(sel, A.RowKey)| == |sel|;
  }

  /** Every counted site is a DACH site, counted over the rows of report 1. */
  lemma ReportCountsSites(view: seq<FlatRow>)
    ensures var sel := A.Selected(view, ReportConditions());
      var counts := A.CountsBySite(sel);
      forall i :: 0 <= i < |counts| ==>
        counts[i].site.Some? && counts[i].site.value in DachSites
        && counts[i].count == |A.AtSite(DachDeployedT3Devices(view).rows, counts[i].site)|
  {
    var sel := A.Selected(view, ReportConditions());
    var listed := DachDeployedT3Devices(view).rows;
    var counts := A.CountsBySite(sel);
    A.CountsBySiteSpec(sel);
    forall i | 0 <= i < |counts|
      ensures counts[i].site.Some? && counts[i].site.value in DachSites
      ensures counts[i].count == |A.AtSite(listed, counts[i].site)|
    {
      A.GroupSitesMember(sel, counts[i].site);
      var row :| row in sel && A.Site(row) == counts[i].site;
      FilterMember(view, A.Passes(ReportConditions()), row);
      ReportConditionsMeaning(row);
      SortByFilterCount(sel, A.RowKey, A.SiteIs(counts[i].site));
    }
  }

  /** Every report row is also in the device list filtered to DACH sites and the deployed status. */
  lemma ReportWithinDeployedDach(view: seq<FlatRow>)
    ensures forall row :: multiset(DachDeployedT3Devices(view).rows)[row]
                          <= multiset(A.DeviceRows(view, A.Filters(true, Some(Deployed), None, None)))[row]
  {
    var f := A.Filters(true, Some(Deployed), None, None);
    forall row ensures multiset(DachDeployedT3Devices(view).rows)[row] <= multiset(A.DeviceRows(view, f))[row] {
      SameDachSites();
      assert InReport(row) ==> A.Matches(f, row);
    }
  }

  lemma TiersGiven()
    ensures forall t :: t in Tier3Filter ==> t != ""
  {
  }

  /** The device list filtered by DACH, Deployed and tier t describes the report rows of tier t. */
  lemma TierFilterMeaning(t: string, row: FlatRow)
    requires t in Tier3Filter
    ensures A.Matches(A.Filters(true, Some(Deployed), Some(t), None), row) <==> InReport(row) && A.Cell(row, A.Tier3Col) == Some(t)
  {
    SameDachSites();
    TiersGiven();
  }

  /** A row is in report 1 exactly when the device list filtered by DACH, Deployed and one listed tier holds it. */
  lemma ReportByTier(view: seq<FlatRow>, row: FlatRow)
    ensures row in DachDeployedT3Devices(view).rows
            <==> exists t :: t in Tier3Filter && row in A.DeviceRows(view, A.Filters(true, Some(Deployed), Some(t), None))
  {
    ReportRowsMember(view, row);
    if row in view && InReport(row) {
      var t := A.Cell(row, A.Tier3Col).value;
      TierFilterMeaning(t, row);
      A.DeviceRowsMember(view, A.Filters(true, Some(Deployed), Some(t), None), row);
    }
    if exists t :: t in Tier3Filter && row in A.DeviceRows(view, A.Filters(true, Some(Deployed), Some(t), None)) {
      var t :| t in Tier3Filter && row in A.DeviceRows(view, A.Filters(true, Some(Deployed), Some(t), None));
      A.DeviceRowsMember(view, A.Filters(true, Some(Deployed), Some(t), None), row);
      TierFilterMeaning(t, row);
    }
  }

  /** A row is in report 1 exactly when it is in the view and the report describes it. */
  lemma ReportRowsMember(view: seq<FlatRow>, row: FlatRow)
    ensures row in DachDeployedT3Devices(view).rows <==> row in view && InReport(row)
  {
    var rows := DachDeployedT3Devices(view).rows;
    assert multiset(rows)[row] == if InReport(row) then multiset(view)[row] else 0;
  }

}
