/**
 * The analysis queries over the flat device view: the filter builder shared
 * by the device list and the per-site counts, the three dropdown queries,
 * and what the database returns for each of them.
 *
 * A query is modelled twice: as the SQL text with its parameter list, as
 * the code assembles it, and as the list of conditions that text spells
 * out, which is what the database evaluates against each view row.
 */
module Analysis {
  import opened Wrappers
  import opened Relational
  import opened SqlOrder
  import opened Strings
  import opened FlatView

  /** The site codes of the DACH region, in the order the code lists them. */
  const DachSites: seq<string> := [
    "ARW", "ALS", "ARB", "BYR", "BRL", "BR2", "BEH", "BER", "BLF", "BRB", "BRM",
    "BRN", "DMM", "DAM", "DED", "DLN", "DPH", "DRT", "DRS", "DUS", "EDM", "ETR",
    "ETF", "ESC", "ES2", "ESP", "ERB", "FR2", "FR4", "FRK", "FRD", "FRT", "GEL",
    "GCH", "GC2", "GTH", "GRN", "GDN", "HNV", "HN2", "HN3", "HN4", "HLD", "HCO",
    "IGS", "KRL", "KSM", "KVL", "KOB", "ELS", "KSC", "KRS", "KRZ", "LNG", "LN2",
    "LN3", "LSN", "LBR", "LMF", "LVK", "LAT", "LHR", "MGD", "MNN", "MNH", "MH2",
    "MND", "MGG", "MNC", "MN2", "NKR", "NEU", "NDR", "NRN", "NR2", "NRB", "OBR",
    "PAS", "PEN", "PEI", "PFL", "PFN", "RAD", "RIZ", "RVS", "RGN", "RG2", "SBR",
    "SCB", "SCM", "SCN", "SCF", "SCW", "SC2", "SEL", "SNN", "SMM", "SND", "STY",
    "STT", "THY", "THN", "TRS", "UEB", "UNT", "VNN", "VN2", "VLK", "WGN", "WRD",
    "WTZ", "WTT", "WTN", "WLF", "WUE", "ZEU", "ZUG"
  ]

  // Positions in the view of the columns the queries name.
  const PlNameCol: nat := 0
  const SiteCol: nat := 4
  const ShortDescriptionCol: nat := 7
  const Tier3Col: nat := 18
  const ModelCol: nat := 19
  const SerialNumberCol: nat := 21
  const CiStatusCol: nat := 26

  /** The columns the free-text search looks in. */
  const SearchColumns: seq<nat> := [PlNameCol, ShortDescriptionCol, ModelCol, SerialNumberCol]

  lemma ColumnNames()
    ensures FlatViewColumns[SiteCol] == "SITE" && FlatViewColumns[PlNameCol] == "PL_NAME"
    ensures FlatViewColumns[ShortDescriptionCol] == "SHORTDESCRIPTION" && FlatViewColumns[Tier3Col] == "TIER3"
    ensures FlatViewColumns[ModelCol] == "MODEL" && FlatViewColumns[SerialNumberCol] == "SERIALNUMBER"
    ensures FlatViewColumns[CiStatusCol] == "CI_STATUS"
  {
  }

  /** The value of column p in a row; NULL past the end of the row. */
  function Cell(row: FlatRow, p: nat): Option<string> {
    if p < |row| then row[p] else None
  }

  /** The SQL name of view column c. */
  function ColumnName(c: nat): string {
    if c < |FlatViewColumns| then FlatViewColumns[c] else ""
  }

  lemma ColumnNamesPlainBelow(i: nat)
    requires i < 22
    ensures '%' !in FlatViewColumns[i]
  {
  }

  lemma ColumnNamesPlainFrom(i: nat)
    requires 22 <= i < |FlatViewColumns|
    ensures '%' !in FlatViewColumns[i]
  {
  }

  /** No view column name holds a parameter marker. */
  lemma ColumnNamesPlain()
    ensures forall i :: 0 <= i < |FlatViewColumns| ==> '%' !in FlatViewColumns[i]
  {
    forall i | 0 <= i < |FlatViewColumns| ensures '%' !in FlatViewColumns[i] {
      if i < 22 { ColumnNamesPlainBelow(i); } else { ColumnNamesPlainFrom(i); }
    }
  }

  // ---------------------------------------------------------------------
  // SQL's three-valued logic

  datatype Truth = True | False | Unknown

  function FromBool(b: bool): Truth {
    if b then True else False
  }

  function And(a: Truth, b: Truth): (r: Truth)
    ensures r == True <==> a == True && b == True
  {
    if a == False || b == False then False
    else if a == True && b == True then True
    else Unknown
  }

  function Or(a: Truth, b: Truth): (r: Truth)
    ensures r == True <==> a == True || b == True
  {
    if a == True || b == True then True
    else if a == False && b == False then False
    else Unknown
  }

  // ---------------------------------------------------------------------
  // LIKE

  /**
   * t LIKE pat: '%' matches any run of characters, '_' any one character,
   * the escape character '\' followed by a character matches exactly that
   * character, and every other character (a final '\' included) matches itself.
   */
  predicate LikeMatch(t: string, pat: string)
    decreases |t| + |pat|
  {
    if pat == [] then t == []
    else if pat[0] == '%' then LikeMatch(t, pat[1..]) || (t != [] && LikeMatch(t[1..], pat))
    else if pat[0] == '\\' && |pat| >= 2 then t != [] && t[0] == pat[1] && LikeMatch(t[1..], pat[2..])
    else t != [] && (pat[0] == '_' || t[0] == pat[0]) && LikeMatch(t[1..], pat[1..])
  }

  /** An escaped wildcard matches only itself: '\%' matches "%" and nothing else. */
  lemma LikeEscaped(t: string, c: char)
    ensures LikeMatch(t, ['\\', c]) <==> t == [c]
  {
    if t != [] {
      assert LikeMatch(t[1..], []) <==> t[1..] == [];
    }
  }

  lemma {:induction false} LikeAnyTail(t: string)
    ensures LikeMatch(t, "%")
  {
    if t != [] {
      LikeAnyTail(t[1..]);
    }
  }

  /** s + '%' matches exactly the texts that start with s, when s holds no wildcard. */
  lemma {:induction false} LikePrefix(t: string, s: string)
    requires '%' !in s && '_' !in s && '\\' !in s
    ensures LikeMatch(t, s + "%") <==> |s| <= |t| && t[..|s|] == s
  {
    if s == [] {
      assert s + "%" == "%";
      LikeAnyTail(t);
    } else {
      assert s[0] in s;
      assert (s + "%")[1..] == s[1..] + "%";
      assert forall c :: c in s[1..] ==> c in s;
      if t != [] {
        LikePrefix(t[1..], s[1..]);
        assert |s| <= |t| && t[..|s|] == s <==> t[0] == s[0] && |s[1..]| <= |t[1..]| && t[1..][..|s[1..]|] == s[1..] by {
          if |s| <= |t| && t[..|s|] == s {
            assert t[1..][..|s[1..]|] == t[..|s|][1..];
          }
          if t[0] == s[0] && |s[1..]| <= |t[1..]| && t[1..][..|s[1..]|] == s[1..] {
            assert t[..|s|] == [t[0]] + t[1..][..|s[1..]|];
            assert s == [s[0]] + s[1..];
          }
        }
      }
    }
  }

  /** '%' + q matches exactly the texts with a suffix that q matches. */
  lemma {:induction false} LikeSuffix(t: string, q: string)
    ensures LikeMatch(t, "%" + q) <==> exists i {:trigger t[i..]} :: 0 <= i <= |t| && LikeMatch(t[i..], q)
  {
    assert ("%" + q)[1..] == q;
    assert t[0..] == t;
    if t != [] {
      LikeSuffix(t[1..], q);
      if exists i {:trigger t[i..]} :: 0 <= i <= |t| && LikeMatch(t[i..], q) {
        var i :| 0 <= i <= |t| && LikeMatch(t[i..], q);
        if i > 0 {
          assert t[1..][i - 1..] == t[i..];
        }
      }
      if exists i {:trigger t[1..][i..]} :: 0 <= i <= |t[1..]| && LikeMatch(t[1..][i..], q) {
        var i :| 0 <= i <= |t[1..]| && LikeMatch(t[1..][i..], q);
        assert t[1..][i..] == t[i + 1..];
      }
    }
  }

  /**
   * The search pattern '%' + s + '%' matches a text exactly when s occurs
   * in it, provided s holds no wildcard and no escape character.
   */
  lemma SearchIsSubstring(t: string, s: string)
    requires '%' !in s && '_' !in s && '\\' !in s
    ensures LikeMatch(t, SearchPattern(s)) <==> Contains(t, s)
  {
    assert SearchPattern(s) == "%" + (s + "%");
    LikeSuffix(t, s + "%");
    if LikeMatch(t, SearchPattern(s)) {
      var i :| 0 <= i <= |t| && LikeMatch(t[i..], s + "%");
      LikePrefix(t[i..], s);
      assert t[i..i + |s|] == t[i..][..|s|];
      assert OccursAt(t, s, i);
    }
    if Contains(t, s) {
      var i: nat :| i <= |t| && OccursAt(t, s, i);
      LikePrefix(t[i..], s);
      assert t[i..i + |s|] == t[i..][..|s|];
    }
  }

  /** With a backslash in the search text the pattern is not a substring test: "a\\b" finds "ab", not "a\\b". */
  lemma SearchBackslash()
    ensures LikeMatch("ab", SearchPattern("a\\b")) && !Contains("ab", "a\\b")
    ensures !LikeMatch("a\\b", SearchPattern("a\\b")) && Contains("a\\b", "a\\b")
  {
    assert OccursAt("a\\b", "a\\b", 0);
  }

  // ---------------------------------------------------------------------
  // Conditions

  /** One WHERE condition over the view, as the code writes it. */
  datatype Condition =
    | InList(column: nat, values: seq<string>)
    | Equals(column: nat, value: string)
    | LikeAny(columns: seq<nat>, pattern: string)
  {
    /** Its SQL text, with one "%s" per parameter. */
    function Text(): string {
      match this
      case InList(c, vs) => ColumnName(c) + " IN (" + Join(", ", Repeat(Marker, |vs|)) + ")"
      case Equals(c, _) => ColumnName(c) + " = " + Marker
      case LikeAny(cs, _) => "(" + Join(" OR ", LikeTerms(cs)) + ")"
    }

    /** The parameters bound to its markers, in order. */
    function Params(): seq<string> {
      match this
      case InList(_, vs) => vs
      case Equals(_, v) => [v]
      case LikeAny(cs, pat) => Repeat(pat, |cs|)
    }

    /** Its truth value on one row of the view. */
    function Eval(row: FlatRow): Truth {
      match this
      case InList(c, vs) => if Cell(row, c).None? then Unknown else FromBool(Cell(row, c).value in vs)
      case Equals(c, v) => if Cell(row, c).None? then Unknown else FromBool(Cell(row, c).value == v)
      case LikeAny(cs, pat) => AnyLike(row, cs, pat)
    }
  }

  function LikeTerms(cs: seq<nat>): (r: seq<string>)
    ensures |r| == |cs|
  {
    if cs == [] then [] else [ColumnName(cs[0]) + " LIKE " + Marker] + LikeTerms(cs[1..])
  }

  /** col LIKE pat, NULL on a NULL cell. */
  function Like(v: Option<string>, pat: string): Truth {
    if v.None? then Unknown else FromBool(LikeMatch(v.value, pat))
  }

  /** c1 LIKE pat OR c2 LIKE pat OR … */
  function AnyLike(row: FlatRow, cs: seq<nat>, pat: string): Truth {
    if cs == [] then False else Or(Like(Cell(row, cs[0]), pat), AnyLike(row, cs[1..], pat))
  }

  predicate CellLike(row: FlatRow, c: nat, pat: string) {
    Cell(row, c).Some? && LikeMatch(Cell(row, c).value, pat)
  }

  lemma {:induction false} AnyLikeTrue(row: FlatRow, cs: seq<nat>, pat: string)
    ensures AnyLike(row, cs, pat) == True <==> exists i :: 0 <= i < |cs| && CellLike(row, cs[i], pat)
  {
    if cs != [] {
      AnyLikeTrue(row, cs[1..], pat);
      if exists i :: 0 <= i < |cs| && CellLike(row, cs[i], pat) {
        var i :| 0 <= i < |cs| && CellLike(row, cs[i], pat);
        if i > 0 {
          assert cs[1..][i - 1] == cs[i];
        }
      }
      if exists i :: 0 <= i < |cs[1..]| && CellLike(row, cs[1..][i], pat) {
        var i :| 0 <= i < |cs[1..]| && CellLike(row, cs[1..][i], pat);
        assert cs[1..][i] == cs[i + 1];
      }
    }
  }

  lemma {:induction false} LikeTermsPlaceholders(cs: seq<nat>)
    ensures SumPlaceholders(LikeTerms(cs)) == |cs|
  {
    if cs != [] {
      ColumnNamesPlain();
      assert '%' !in ColumnName(cs[0]) + " LIKE ";
      PlaceholdersAfterPlain(ColumnName(cs[0]) + " LIKE ", Marker);
      MarkerCount();
      assert LikeTerms(cs)[1..] == LikeTerms(cs[1..]);
      LikeTermsPlaceholders(cs[1..]);
    }
  }

  /** Every condition's text holds one marker per parameter. */
  lemma ConditionPlaceholders(c: Condition)
    ensures Placeholders(c.Text()) == |c.Params()|
  {
    ColumnNamesPlain();
    match c
    case InList(col, vs) =>
      var list := Join(", ", Repeat(Marker, |vs|));
      assert '%' !in ColumnName(col) + " IN (";
      PlaceholdersBeforePlain(ColumnName(col) + " IN (" + list, ")");
      PlaceholdersAfterPlain(ColumnName(col) + " IN (", list);
      MarkerListCount(|vs|);
    case Equals(col, _) =>
      assert '%' !in ColumnName(col) + " = ";
      PlaceholdersAfterPlain(ColumnName(col) + " = ", Marker);
      MarkerCount();
    case LikeAny(cs, _) =>
      var terms := Join(" OR ", LikeTerms(cs));
      PlaceholdersBeforePlain("(" + terms, ")");
      PlaceholdersAfterPlain("(", terms);
      JoinPlaceholders(" OR ", LikeTerms(cs));
      LikeTermsPlaceholders(cs);
  }

  /** The texts of a list of conditions. */
  function Texts(conds: seq<Condition>): (r: seq<string>)
    ensures |r| == |conds|
  {
    if conds == [] then [] else [conds[0].Text()] + Texts(conds[1..])
  }

  /** All their parameters, in the order of the conditions. */
  function ParamsOf(conds: seq<Condition>): seq<string> {
    if conds == [] then [] else conds[0].Params() + ParamsOf(conds[1..])
  }

  lemma {:induction false} ParamsOfSnoc(conds: seq<Condition>, c: Condition)
    ensures ParamsOf(conds + [c]) == ParamsOf(conds) + c.Params()
  {
    if conds == [] {
      assert [] + [c] == [c];
    } else {
      assert (conds + [c])[1..] == conds[1..] + [c];
      ParamsOfSnoc(conds[1..], c);
    }
  }

  lemma {:induction false} ParamsOfAppend(a: seq<Condition>, b: seq<Condition>)
    ensures ParamsOf(a + b) == ParamsOf(a) + ParamsOf(b)
  {
    if a == [] {
      assert a + b == b;
    } else {
      assert (a + b)[1..] == a[1..] + b;
      ParamsOfAppend(a[1..], b);
    }
  }

  /** The joined condition texts hold one marker per parameter. */
  lemma {:induction false} TextsPlaceholders(conds: seq<Condition>)
    ensures SumPlaceholders(Texts(conds)) == |ParamsOf(conds)|
  {
    if conds != [] {
      ConditionPlaceholders(conds[0]);
      assert Texts(conds)[1..] == Texts(conds[1..]);
      TextsPlaceholders(conds[1..]);
    }
  }

  /** 1=1 AND c1 AND c2 AND … */
  function Where(conds: seq<Condition>, row: FlatRow): Truth {
    if conds == [] then True else And(conds[0].Eval(row), Where(conds[1..], row))
  }

  /** A row passes the WHERE clause exactly when every condition is TRUE on it. */
  lemma {:induction false} WhereTrue(conds: seq<Condition>, row: FlatRow)
    ensures Where(conds, row) == True <==> forall i :: 0 <= i < |conds| ==> conds[i].Eval(row) == True
  {
    if conds != [] {
      WhereTrue(conds[1..], row);
      if forall i :: 0 <= i < |conds[1..]| ==> conds[1..][i].Eval(row) == True {
        forall i | 1 <= i < |conds| ensures conds[i].Eval(row) == True {
          assert conds[1..][i - 1] == conds[i];
        }
      }
    }
  }

  lemma {:induction false} WhereAppend(a: seq<Condition>, b: seq<Condition>, row: FlatRow)
    ensures Where(a + b, row) == True <==> Where(a, row) == True && Where(b, row) == True
  {
    if a == [] {
      assert a + b == b;
    } else {
      assert (a + b)[1..] == a[1..] + b;
      WhereAppend(a[1..], b, row);
    }
  }

  // ---------------------------------------------------------------------
  // Filters

  /** The filter dictionary a view passes in. */
  datatype Filters = Filters(dachOnly: bool, ciStatus: Option<string>, tier3: Option<string>, search: Option<string>)

  /** A text filter is in force when it is present and not empty. */
  predicate Given(v: Option<string>) {
    v.Some? && v.value != ""
  }

  /** The LIKE pattern of a search text. */
  function SearchPattern(s: string): string {
    "%" + s + "%"
  }

  /** The condition each filter adds when it is set. */
  function DachPart(f: Filters): seq<Condition> {
    if f.dachOnly then [InList(SiteCol, DachSites)] else []
  }

  function StatusPart(f: Filters): seq<Condition> {
    if Given(f.ciStatus) then [Equals(CiStatusCol, f.ciStatus.value)] else []
  }

  function TierPart(f: Filters): seq<Condition> {
    if Given(f.tier3) then [Equals(Tier3Col, f.tier3.value)] else []
  }

  function SearchPart(f: Filters): seq<Condition> {
    if Given(f.search) then [LikeAny(SearchColumns, SearchPattern(f.search.value))] else []
  }

  /** The conditions a filter set adds, in the order the code adds them. */
  function ActiveConditions(f: Filters): seq<Condition> {
    DachPart(f) + StatusPart(f) + TierPart(f) + SearchPart(f)
  }

  /** The parameters of a filter set: the DACH codes, the status, the tier, four copies of the search pattern. */
  lemma ActiveParams(f: Filters)
    ensures ParamsOf(ActiveConditions(f))
            == (if f.dachOnly then DachSites else [])
               + (if Given(f.ciStatus) then [f.ciStatus.value] else [])
               + (if Given(f.tier3) then [f.tier3.value] else [])
               + (if Given(f.search) then Repeat(SearchPattern(f.search.value), 4) else [])
  {
    var a, b, c, d := DachPart(f), StatusPart(f), TierPart(f), SearchPart(f);
    ParamsOfAppend(a + b + c, d);
    ParamsOfAppend(a + b, c);
    ParamsOfAppend(a, b);
    if f.dachOnly { ParamsOne(a[0]); }
    if Given(f.ciStatus) { ParamsOne(b[0]); }
    if Given(f.tier3) { ParamsOne(c[0]); }
    if Given(f.search) { ParamsOne(d[0]); }
  }

  /** A filter set binds ParamCount parameters. */
  lemma ActiveParamCount(f: Filters)
    ensures |ParamsOf(ActiveConditions(f))| == ParamCount(f)
  {
    ActiveParams(f);
  }

  lemma ParamsOne(c: Condition)
    ensures ParamsOf([c]) == c.Params()
  {
    assert [c][1..] == [];
  }

  /** How many parameters a filter set binds. */
  function ParamCount(f: Filters): nat {
    (if f.dachOnly then |DachSites| else 0)
    + (if Given(f.ciStatus) then 1 else 0)
    + (if Given(f.tier3) then 1 else 0)
    + (if Given(f.search) then |SearchColumns| else 0)
  }

  /** The meaning of a filter set, written directly over a row. */
  predicate Matches(f: Filters, row: FlatRow) {
    (f.dachOnly ==> Cell(row, SiteCol).Some? && Cell(row, SiteCol).value in DachSites)
    && (Given(f.ciStatus) ==> Cell(row, CiStatusCol) == f.ciStatus)
    && (Given(f.tier3) ==> Cell(row, Tier3Col) == f.tier3)
    && (Given(f.search) ==>
          var pat := SearchPattern(f.search.value);
          CellLike(row, PlNameCol, pat) || CellLike(row, ShortDescriptionCol, pat)
          || CellLike(row, ModelCol, pat) || CellLike(row, SerialNumberCol, pat))
  }

  lemma WhereOne(c: Condition, row: FlatRow)
    ensures Where([c], row) == True <==> c.Eval(row) == True
  {
    assert [c][1..] == [];
  }

  /** The conditions the code builds select exactly the rows the filters describe. */
  lemma ActiveConditionsMeaning(f: Filters, row: FlatRow)
    ensures Where(ActiveConditions(f), row) == True <==> Matches(f, row)
  {
    var a, b, c, d := DachPart(f), StatusPart(f), TierPart(f), SearchPart(f);
    WhereAppend(a + b + c, d, row);
    WhereAppend(a + b, c, row);
    WhereAppend(a, b, row);
    if f.dachOnly { WhereOne(InList(SiteCol, DachSites), row); }
    if Given(f.ciStatus) { WhereOne(Equals(CiStatusCol, f.ciStatus.value), row); }
    if Given(f.tier3) { WhereOne(Equals(Tier3Col, f.tier3.value), row); }
    SearchPartMeaning(f, row);
  }

  /** The search condition is TRUE exactly when the pattern matches one of the four search columns. */
  lemma SearchPartMeaning(f: Filters, row: FlatRow)
    ensures Where(SearchPart(f), row) == True <==>
      (Given(f.search) ==>
          var pat := SearchPattern(f.search.value);
          CellLike(row, PlNameCol, pat) || CellLike(row, ShortDescriptionCol, pat)
          || CellLike(row, ModelCol, pat) || CellLike(row, SerialNumberCol, pat))
  {
    if Given(f.search) {
      var pat := SearchPattern(f.search.value);
      WhereOne(LikeAny(SearchColumns, pat), row);
      AnyLikeTrue(row, SearchColumns, pat);
      if exists i :: 0 <= i < |SearchColumns| && CellLike(row, SearchColumns[i], pat) {
        var i :| 0 <= i < |SearchColumns| && CellLike(row, SearchColumns[i], pat);
      }
      if CellLike(row, PlNameCol, pat) { assert CellLike(row, SearchColumns[0], pat); }
      if CellLike(row, ShortDescriptionCol, pat) { assert CellLike(row, SearchColumns[1], pat); }
      if CellLike(row, ModelCol, pat) { assert CellLike(row, SearchColumns[2], pat); }
      if CellLike(row, SerialNumberCol, pat) { assert CellLike(row, SearchColumns[3], pat); }
    }
  }

  /**
   * Build the conditions and parameters of a filter set, appending one
   * condition per filter in force.
   */
  method BuildConditions(f: Filters) returns (conditions: seq<Condition>, params: seq<string>)
    ensures conditions == ActiveConditions(f)
    ensures params == ParamsOf(conditions)
    ensures |params| == ParamCount(f)
  {
    params := [];
    conditions := [];
    if f.dachOnly {
      ParamsOfSnoc(conditions, InList(SiteCol, DachSites));
      conditions := conditions + [InList(SiteCol, DachSites)];
      params := params + DachSites;
    }
    assert conditions == DachPart(f);
    ghost var before := conditions;
    if Given(f.ciStatus) {
      ParamsOfSnoc(conditions, Equals(CiStatusCol, f.ciStatus.value));
      conditions := conditions + [Equals(CiStatusCol, f.ciStatus.value)];
      params := params + [f.ciStatus.value];
    }
    assert conditions == before + StatusPart(f);
    before := conditions;
    if Given(f.tier3) {
      ParamsOfSnoc(conditions, Equals(Tier3Col, f.tier3.value));
      conditions := conditions + [Equals(Tier3Col, f.tier3.value)];
      params := params + [f.tier3.value];
    }
    assert conditions == before + TierPart(f);
    before := conditions;
    if Given(f.search) {
      var search := SearchPattern(f.search.value);
      ParamsOfSnoc(conditions, LikeAny(SearchColumns, search));
      conditions := conditions + [LikeAny(SearchColumns, search)];
      params := params + Repeat(search, 4);
    }
    assert conditions == before + SearchPart(f);
    ActiveParamCount(f);
  }

  // ---------------------------------------------------------------------
  // Query text

  /** The query text the code executes, with its parameters and the conditions it spells out. */
  datatype Query = Query(sql: string, params: seq<string>, conditions: seq<Condition>)

  const FromView: string := " FROM device_flat WHERE 1=1"
  const RowsOrder: string := " ORDER BY SITE, PL_NAME, SERIALNUMBER"
  const CountsSelect: string := "SELECT SITE, COUNT(*) AS device_count"
  const CountsOrder: string := " GROUP BY SITE ORDER BY SITE"

  /** SELECT c1, c2, … FROM device_flat WHERE 1=1 */
  function SelectList(cols: seq<string>): string {
    "SELECT " + Join(", ", cols) + FromView
  }

  /** The conditions appended after 1=1, if any. */
  function WhereText(conds: seq<Condition>): string {
    if conds == [] then "" else " AND " + Join(" AND ", Texts(conds))
  }

  lemma SelectListPlain(cols: seq<string>)
    requires forall i :: 0 <= i < |cols| ==> '%' !in cols[i]
    ensures '%' !in SelectList(cols)
  {
    NoPercentJoin(", ", cols);
    assert '%' !in FromView;
    NoPercentConcat("SELECT ", Join(", ", cols));
    NoPercentConcat("SELECT " + Join(", ", cols), FromView);
  }

  lemma RowsSelectPlain()
    ensures '%' !in SelectList(FlatViewColumns)
  {
    ColumnNamesPlain();
    SelectListPlain(FlatViewColumns);
  }

  lemma RowsOrderPlain()
    ensures '%' !in RowsOrder && RowsOrder != [] && RowsOrder[0] == ' '
  {
  }

  lemma CountsSelectPlain()
    ensures '%' !in CountsSelect + FromView
  {
    assert '%' !in CountsSelect && '%' !in FromView;
    NoPercentConcat(CountsSelect, FromView);
  }

  lemma CountsOrderPlain()
    ensures '%' !in CountsOrder && CountsOrder != [] && CountsOrder[0] == ' '
  {
  }

  /** A query text around the conditions holds one marker per parameter. */
  lemma QueryPlaceholders(head: string, conds: seq<Condition>, tail: string)
    requires '%' !in head && '%' !in tail && tail != [] && tail[0] == ' '
    ensures Placeholders(head + WhereText(conds) + tail) == |ParamsOf(conds)|
  {
    PlaceholdersBeforePlain(head + WhereText(conds), tail);
    PlaceholdersAfterPlain(head, WhereText(conds));
    if conds != [] {
      PlaceholdersAfterPlain(" AND ", Join(" AND ", Texts(conds)));
      JoinPlaceholders(" AND ", Texts(conds));
    }
    TextsPlaceholders(conds);
  }

  /**
   * Append the conditions of a filter set to the head of a query, then its
   * tail, as both query functions do.
   */
  method AssembleQuery(head: string, f: Filters, tail: string) returns (q: Query)
    requires '%' !in head && '%' !in tail && tail != [] && tail[0] == ' '
    ensures q.conditions == ActiveConditions(f)
    ensures q.params == ParamsOf(q.conditions) && |q.params| == ParamCount(f)
    ensures q.sql == head + WhereText(q.conditions) + tail
    ensures Placeholders(q.sql) == |q.params|
  {
    var conditions, params := BuildConditions(f);
    var sql := head;
    if conditions != [] {
      sql := sql + (" AND " + Join(" AND ", Texts(conditions)));
    }
    assert sql == head + WhereText(conditions);
    sql := sql + tail;
    QueryPlaceholders(head, conditions, tail);
    q := Query(sql, params, conditions);
  }

  /** The device-list query of a filter set. */
  method BuildRowsQuery(f: Filters) returns (q: Query)
    ensures q.conditions == ActiveConditions(f)
    ensures q.params == ParamsOf(q.conditions) && |q.params| == ParamCount(f)
    ensures q.sql == SelectList(FlatViewColumns) + WhereText(q.conditions) + RowsOrder
    ensures Placeholders(q.sql) == |q.params|
  {
    RowsSelectPlain();
    RowsOrderPlain();
    q := AssembleQuery(SelectList(FlatViewColumns), f, RowsOrder);
  }

  /** The per-site count query of a filter set. */
  method BuildCountsQuery(f: Filters) returns (q: Query)
    ensures q.conditions == ActiveConditions(f)
    ensures q.params == ParamsOf(q.conditions) && |q.params| == ParamCount(f)
    ensures q.sql == CountsSelect + FromView + WhereText(q.conditions) + CountsOrder
    ensures Placeholders(q.sql) == |q.params|
  {
    CountsSelectPlain();
    CountsOrderPlain();
    q := AssembleQuery(CountsSelect + FromView, f, CountsOrder);
  }

  // ---------------------------------------------------------------------
  // What the database returns

  function Passes(conds: seq<Condition>): FlatRow -> bool {
    (row: FlatRow) => Where(conds, row) == True
  }

  /** The view rows whose WHERE clause is TRUE, in view order. */
  function Selected(view: seq<FlatRow>, conds: seq<Condition>): seq<FlatRow> {
    Filter(view, Passes(conds))
  }

  /** ORDER BY SITE, PL_NAME, SERIALNUMBER */
  function RowKey(row: FlatRow): Key {
    [Cell(row, SiteCol), Cell(row, PlNameCol), Cell(row, SerialNumberCol)]
  }

  lemma SelectedMultiset(view: seq<FlatRow>, f: Filters)
    ensures forall r :: multiset(Selected(view, ActiveConditions(f)))[r] == if Matches(f, r) then multiset(view)[r] else 0
  {
    var conds := ActiveConditions(f);
    FilterMultiset(view, Passes(conds));
    forall r ensures multiset(Selected(view, conds))[r] == if Matches(f, r) then multiset(view)[r] else 0 {
      ActiveConditionsMeaning(f, r);
      assert Passes(conds)(r) <==> Matches(f, r);
    }
  }

  /**
   * The device list of a filter set: every view row the filters describe,
   * as often as it occurs in the view, ordered by site, name and serial.
   */
  function DeviceRows(view: seq<FlatRow>, f: Filters): (rows: seq<FlatRow>)
    ensures SortedBy(rows, RowKey)
    ensures forall r :: multiset(rows)[r] == if Matches(f, r) then multiset(view)[r] else 0
  {
    var sel := Selected(view, ActiveConditions(f));
    SortBySorted(sel, RowKey);
    SelectedMultiset(view, f);
    SortBy(sel, RowKey)
  }

  /** A row is listed exactly when it is in the view and matches the filters. */
  lemma DeviceRowsMember(view: seq<FlatRow>, f: Filters, row: FlatRow)
    ensures row in DeviceRows(view, f) <==> row in view && Matches(f, row)
  {
    assert multiset(DeviceRows(view, f))[row] == if Matches(f, row) then multiset(view)[row] else 0;
  }

  /** With no filter in force the device list is the whole view. */
  lemma NoFiltersAllRows(view: seq<FlatRow>, f: Filters)
    requires !f.dachOnly && !Given(f.ciStatus) && !Given(f.tier3) && !Given(f.search)
    ensures ActiveConditions(f) == [] && ParamCount(f) == 0
    ensures multiset(DeviceRows(view, f)) == multiset(view)
  {
    assert forall r :: Matches(f, r);
    assert forall r :: multiset(DeviceRows(view, f))[r] == multiset(view)[r];
  }

  /** NULL in a column a filter in force tests. */
  predicate NullInFilteredColumn(f: Filters, row: FlatRow) {
    (f.dachOnly && Cell(row, SiteCol).None?)
    || (Given(f.ciStatus) && Cell(row, CiStatusCol).None?)
    || (Given(f.tier3) && Cell(row, Tier3Col).None?)
    || (Given(f.search) && forall c :: c in SearchColumns ==> Cell(row, c).None?)
  }

  lemma NullFailsFilters(f: Filters, row: FlatRow)
    requires NullInFilteredColumn(f, row)
    ensures !Matches(f, row)
  {
    if Given(f.search) && forall c :: c in SearchColumns ==> Cell(row, c).None? {
      assert PlNameCol in SearchColumns && ShortDescriptionCol in SearchColumns;
      assert ModelCol in SearchColumns && SerialNumberCol in SearchColumns;
    }
  }

  /** A row with NULL in a filtered column is never listed. */
  lemma NullNeverMatches(view: seq<FlatRow>, f: Filters, row: FlatRow)
    requires NullInFilteredColumn(f, row)
    ensures Where(ActiveConditions(f), row) != True
    ensures row !in DeviceRows(view, f)
  {
    NullFailsFilters(f, row);
    ActiveConditionsMeaning(f, row);
    assert multiset(DeviceRows(view, f))[row] == 0;
  }

  /** A search without wildcard characters keeps the rows where it occurs in one of the four columns. */
  lemma SearchMeaning(f: Filters, row: FlatRow)
    requires Given(f.search) && '%' !in f.search.value && '_' !in f.search.value && '\\' !in f.search.value
    ensures (CellLike(row, PlNameCol, SearchPattern(f.search.value))
             || CellLike(row, ShortDescriptionCol, SearchPattern(f.search.value))
             || CellLike(row, ModelCol, SearchPattern(f.search.value))
             || CellLike(row, SerialNumberCol, SearchPattern(f.search.value)))
            <==> exists c :: c in SearchColumns && Cell(row, c).Some? && Contains(Cell(row, c).value, f.search.value)
  {
    var s := f.search.value;
    forall c | Cell(row, c).Some? ensures CellLike(row, c, SearchPattern(s)) <==> Contains(Cell(row, c).value, s) {
      SearchIsSubstring(Cell(row, c).value, s);
    }
    assert forall c :: c in SearchColumns <==> c == PlNameCol || c == ShortDescriptionCol || c == ModelCol || c == SerialNumberCol;
  }

  /** fetch_device_rows: the column names of the view and the listed rows. */
  method FetchDeviceRows(view: seq<FlatRow>, f: Filters) returns (columns: seq<string>, rows: seq<FlatRow>)
    ensures columns == FlatViewColumns
    ensures rows == DeviceRows(view, f)
    ensures SortedBy(rows, RowKey)
    ensures forall r :: multiset(rows)[r] == if Matches(f, r) then multiset(view)[r] else 0
  {
    var q := BuildRowsQuery(f);
    rows := SortBy(Selected(view, q.conditions), RowKey);
    columns := FlatViewColumns;
  }

  // ---------------------------------------------------------------------
  // Counts per site

  /** One row of the per-site aggregation. */
  datatype SiteCount = SiteCount(site: Option<string>, count: nat)

  function Site(row: FlatRow): Option<string> {
    Cell(row, SiteCol)
  }

  function SiteKey(s: Option<string>): Key {
    [s]
  }

  function SiteIs(s: Option<string>): FlatRow -> bool {
    (row: FlatRow) => Site(row) == s
  }

  /** The rows of one site group (NULL sites form one group). */
  function AtSite(rows: seq<FlatRow>, s: Option<string>): seq<FlatRow> {
    Filter(rows, SiteIs(s))
  }

  /** The groups of GROUP BY SITE ORDER BY SITE. */
  function GroupSites(rows: seq<FlatRow>): seq<Option<string>> {
    SortedDistinct(MapSeq(rows, Site), SiteKey)
  }

  function CountsFor(keys: seq<Option<string>>, rows: seq<FlatRow>): (r: seq<SiteCount>)
    ensures |r| == |keys|
    ensures forall i :: 0 <= i < |keys| ==> r[i] == SiteCount(keys[i], |AtSite(rows, keys[i])|)
  {
    if keys == [] then [] else [SiteCount(keys[0], |AtSite(rows, keys[0])|)] + CountsFor(keys[1..], rows)
  }

  /** SELECT SITE, COUNT(*) … GROUP BY SITE ORDER BY SITE over the given rows. */
  function CountsBySite(rows: seq<FlatRow>): seq<SiteCount> {
    CountsFor(GroupSites(rows), rows)
  }

  function TotalCount(counts: seq<SiteCount>): nat {
    if counts == [] then 0 else counts[0].count + TotalCount(counts[1..])
  }

  lemma {:induction false} CountsForEmpty(keys: seq<Option<string>>)
    ensures TotalCount(CountsFor(keys, [])) == 0
  {
    if keys != [] {
      assert CountsFor(keys, [])[1..] == CountsFor(keys[1..], []);
      CountsForEmpty(keys[1..]);
    }
  }

  lemma {:induction false} CountsForSnoc(keys: seq<Option<string>>, rows: seq<FlatRow>, x: FlatRow)
    ensures TotalCount(CountsFor(keys, rows + [x])) == TotalCount(CountsFor(keys, rows)) + multiset(keys)[Site(x)]
  {
    if keys != [] {
      AtSiteSnoc(rows, x, keys[0]);
      TotalCountCons(keys, rows + [x]);
      TotalCountCons(keys, rows);
      CountsForSnoc(keys[1..], rows, x);
      MultisetCons(keys, Site(x));
    }
  }

  lemma AtSiteSnoc(rows: seq<FlatRow>, x: FlatRow, k: Option<string>)
    ensures |AtSite(rows + [x], k)| == |AtSite(rows, k)| + (if Site(x) == k then 1 else 0)
  {
    FilterSnoc(rows, x, SiteIs(k));
  }

  lemma TotalCountCons(keys: seq<Option<string>>, rows: seq<FlatRow>)
    requires keys != []
    ensures TotalCount(CountsFor(keys, rows)) == |AtSite(rows, keys[0])| + TotalCount(CountsFor(keys[1..], rows))
  {
    assert CountsFor(keys, rows)[1..] == CountsFor(keys[1..], rows);
  }

  /** Counting every row once per distinct key covering it adds up to the number of rows. */
  lemma {:induction false} CountsForTotal(keys: seq<Option<string>>, rows: seq<FlatRow>)
    requires NoDup(keys)
    requires forall r :: r in rows ==> Site(r) in keys
    ensures TotalCount(CountsFor(keys, rows)) == |rows|
  {
    if rows == [] {
      CountsForEmpty(keys);
    } else {
      var init := rows[..|rows| - 1];
      var x := rows[|rows| - 1];
      assert rows == init + [x];
      assert forall r :: r in init ==> r in rows;
      CountsForTotal(keys, init);
      CountsForSnoc(keys, init, x);
      NoDupMultiset(keys, Site(x));
    }
  }

  lemma GroupSitesMember(rows: seq<FlatRow>, s: Option<string>)
    ensures s in GroupSites(rows) <==> exists r :: r in rows && Site(r) == s
  {
    if s in MapSeq(rows, Site) {
      var k :| 0 <= k < |rows| && MapSeq(rows, Site)[k] == s;
      assert rows[k] in rows;
    }
    if exists r :: r in rows && Site(r) == s {
      var r :| r in rows && Site(r) == s;
      var k :| 0 <= k < |rows| && rows[k] == r;
      assert MapSeq(rows, Site)[k] == s;
    }
  }

  lemma CountsSorted(rows: seq<FlatRow>)
    ensures forall i, j :: 0 <= i < j < |CountsBySite(rows)| ==>
              CountsBySite(rows)[i].site != CountsBySite(rows)[j].site && OptLe(CountsBySite(rows)[i].site, CountsBySite(rows)[j].site)
  {
    var keys := GroupSites(rows);
    var c := CountsBySite(rows);
    SortedDistinctSorted(MapSeq(rows, Site), SiteKey);
    forall i, j | 0 <= i < j < |c| ensures c[i].site != c[j].site && OptLe(c[i].site, c[j].site) {
      assert KeyLe(SiteKey(keys[i]), SiteKey(keys[j]));
    }
  }

  lemma CountsPositive(rows: seq<FlatRow>)
    ensures forall i :: 0 <= i < |CountsBySite(rows)| ==>
              CountsBySite(rows)[i].count == |AtSite(rows, CountsBySite(rows)[i].site)| >= 1
  {
    var keys := GroupSites(rows);
    var c := CountsBySite(rows);
    forall i | 0 <= i < |c| ensures |AtSite(rows, c[i].site)| >= 1 {
      GroupSitesMember(rows, keys[i]);
      var r :| r in rows && Site(r) == keys[i];
      FilterMember(rows, SiteIs(keys[i]), r);
    }
  }

  lemma CountsCover(rows: seq<FlatRow>)
    ensures forall r :: r in rows ==> exists i :: 0 <= i < |CountsBySite(rows)| && CountsBySite(rows)[i].site == Site(r)
    ensures TotalCount(CountsBySite(rows)) == |rows|
  {
    var keys := GroupSites(rows);
    var c := CountsBySite(rows);
    forall r | r in rows ensures Site(r) in keys {
      GroupSitesMember(rows, Site(r));
    }
    forall r | r in rows ensures exists i :: 0 <= i < |c| && c[i].site == Site(r) {
      var i :| 0 <= i < |keys| && keys[i] == Site(r);
      assert c[i].site == Site(r);
    }
    CountsForTotal(keys, rows);
  }

  /**
   * The aggregation has one entry per distinct site value (NULL included),
   * sorted, each counting the rows of its site, together counting every row.
   */
  lemma CountsBySiteSpec(rows: seq<FlatRow>)
    ensures forall i, j :: 0 <= i < j < |CountsBySite(rows)| ==>
              CountsBySite(rows)[i].site != CountsBySite(rows)[j].site && OptLe(CountsBySite(rows)[i].site, CountsBySite(rows)[j].site)
    ensures forall i :: 0 <= i < |CountsBySite(rows)| ==>
              CountsBySite(rows)[i].count == |AtSite(rows, CountsBySite(rows)[i].site)| >= 1
    ensures forall r :: r in rows ==> exists i :: 0 <= i < |CountsBySite(rows)| && CountsBySite(rows)[i].site == Site(r)
    ensures TotalCount(CountsBySite(rows)) == |rows|
  {
    CountsSorted(rows);
    CountsPositive(rows);
    CountsCover(rows);
  }

  /** The per-site counts of a filter set. */
  function SiteCounts(view: seq<FlatRow>, f: Filters): seq<SiteCount> {
    CountsBySite(Selected(view, ActiveConditions(f)))
  }

  /**
   * The counts agree with the device list of the same filters: each entry
   * counts the listed rows of its site, and the entries add up to the list.
   */
  lemma SiteCountsMatchDeviceRows(view: seq<FlatRow>, f: Filters)
    ensures forall i :: 0 <= i < |SiteCounts(view, f)| ==>
              SiteCounts(view, f)[i].count == |AtSite(DeviceRows(view, f), SiteCounts(view, f)[i].site)|
    ensures TotalCount(SiteCounts(view, f)) == |DeviceRows(view, f)|
    ensures forall r :: r in DeviceRows(view, f) ==>
              exists i :: 0 <= i < |SiteCounts(view, f)| && SiteCounts(view, f)[i].site == Site(r)
  {
    var sel := Selected(view, ActiveConditions(f));
    var rows := DeviceRows(view, f);
    assert multiset(rows) == multiset(sel);
    CountsBySiteSpec(sel);
    forall i | 0 <= i < |SiteCounts(view, f)|
      ensures SiteCounts(view, f)[i].count == |AtSite(rows, SiteCounts(view, f)[i].site)|
    {
      SortByFilterCount(sel, RowKey, SiteIs(SiteCounts(view, f)[i].site));
    }
    forall r | r in rows ensures r in sel {
      assert r in multiset(rows);
    }
  }

  /** fetch_counts_by_site: one {site, count} entry per site group of the filtered rows. */
  method FetchCountsBySite(view: seq<FlatRow>, f: Filters) returns (counts: seq<SiteCount>)
    ensures counts == SiteCounts(view, f)
    ensures forall i, j :: 0 <= i < j < |counts| ==> counts[i].site != counts[j].site && OptLe(counts[i].site, counts[j].site)
    ensures forall i :: 0 <= i < |counts| ==> counts[i].count >= 1
    ensures forall i :: 0 <= i < |counts| ==> counts[i].count == |AtSite(DeviceRows(view, f), counts[i].site)|
    ensures TotalCount(counts) == |DeviceRows(view, f)|
  {
    var q := BuildCountsQuery(f);
    counts := CountsBySite(Selected(view, q.conditions));
    CountsBySiteSpec(Selected(view, q.conditions));
    SiteCountsMatchDeviceRows(view, f);
  }

  // ---------------------------------------------------------------------
  // Dropdown options

  datatype FilterOptions = FilterOptions(ciStatuses: seq<string>, tier3Values: seq<string>, dachSites: seq<string>)

  function StrKey(s: string): Key {
    [Some(s)]
  }

  /** The non-NULL, non-empty values of column p, in view order. */
  function PresentValues(view: seq<FlatRow>, p: nat): (r: seq<string>)
    ensures forall s :: s in r <==> s != "" && exists row :: row in view && Cell(row, p) == Some(s)
  {
    if view == [] then []
    else
      var rest := PresentValues(view[1..], p);
      assert forall row :: row in view <==> row == view[0] || row in view[1..];
      var v := Cell(view[0], p);
      if v.Some? && v.value != "" then [v.value] + rest else rest
  }

  /** The SITE values of the view that are DACH sites, in view order. */
  function DachSitesPresent(view: seq<FlatRow>): (r: seq<string>)
    ensures forall s :: s in r <==> s in DachSites && exists row :: row in view && Site(row) == Some(s)
  {
    if view == [] then []
    else
      var rest := DachSitesPresent(view[1..]);
      assert forall row :: row in view <==> row == view[0] || row in view[1..];
      var v := Site(view[0]);
      if v.Some? && v.value in DachSites then [v.value] + rest else rest
  }

  /** fetch_filter_options: the distinct values of the three dropdowns, each sorted. */
  function FetchFilterOptions(view: seq<FlatRow>): (o: FilterOptions)
    ensures NoDup(o.ciStatuses) && SortedBy(o.ciStatuses, StrKey)
    ensures forall s :: s in o.ciStatuses <==> s != "" && exists row :: row in view && Cell(row, CiStatusCol) == Some(s)
    ensures NoDup(o.tier3Values) && SortedBy(o.tier3Values, StrKey)
    ensures forall s :: s in o.tier3Values <==> s != "" && exists row :: row in view && Cell(row, Tier3Col) == Some(s)
    ensures NoDup(o.dachSites) && SortedBy(o.dachSites, StrKey)
    ensures forall s :: s in o.dachSites <==> s in DachSites && exists row :: row in view && Site(row) == Some(s)
  {
    SortedDistinctSorted(PresentValues(view, CiStatusCol), StrKey);
    SortedDistinctSorted(PresentValues(view, Tier3Col), StrKey);
    SortedDistinctSorted(DachSitesPresent(view), StrKey);
    FilterOptions(
      SortedDistinct(PresentValues(view, CiStatusCol), StrKey),
      SortedDistinct(PresentValues(view, Tier3Col), StrKey),
      SortedDistinct(DachSitesPresent(view), StrKey))
  }
}
