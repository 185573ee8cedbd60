# Device inventory ETL — a Dafny model

The device overview site loads a `;`-separated inventory export into a
MariaDB database and reads it back through one wide view. This project
models that pipeline as operations on in-memory tables and proves what each
step promises:

- **Staging load** (`import_csv_to_staging`). The CSV reader's rows are
  header-keyed maps. Blank rows are skipped. Every other row becomes one
  47-value record in `CSV_COLUMNS` order, each value stripped (module
  `Staging`). The staging table is replaced by those records
  (`DeviceDatabase.ImportStaging` and `DeviceDatabase.DeviceDb.ImportCsvToStaging`).
- **Clear** (`clear_all_tables`). The 23 TRUNCATE statements run one after
  the other and leave every table empty (module `DeviceDatabase`).
- **Normalization** (`populate_normalized_from_staging`). Every
  `INSERT … SELECT` is a function from the database before the statement to
  the database after it (module `Normalizer`):
  - the regions, sites and rooms INSERTs;
  - 17 further label dimensions;
  - models, which left-join five label tables;
  - devices, which left-join 16 label tables, models, sites and rooms.
  A surrogate id is a 1-based row position. A nullable foreign key is an
  `Option<nat>`. `NULL = x` is never true, and `IFNULL(x, '')` is written out.
- **Flat view** (`recreate_device_flat_view`). `device_flat` maps each
  device row back to its labels through left joins on primary keys
  (module `FlatView`).
- **Queries and reports** (`fetch_device_rows`, `fetch_counts_by_site`,
  `fetch_filter_options`, and the two DACH reports):
  - the filter builder is modelled twice: as the SQL text with its
    parameter list (up to whitespace), and as a list of conditions evaluated under SQL
    three-valued logic;
  - `ORDER BY` is a sort on (SITE, PL_NAME, SERIALNUMBER) that keeps ties in view order;
  - `GROUP BY SITE` is a per-site count;
  - `SELECT DISTINCT … ORDER BY` is a duplicate-free sorted list
    (modules `Analysis`, `Reports`, `SqlOrder`).

The state-changing code takes the source's own form.
`DeviceDatabase.DeviceDb` is a class whose fields are the 23 tables. Its
methods run the statements in the source's order. Each method's
postcondition ties the new state to the pure function for that statement.
The lemmas about those functions state the contracts.
`Analysis.BuildConditions` grows the condition and parameter lists step by
step, the way the code does. `Staging.CollectStagingRows` is the loop that
collects records.

Shared machinery:
- `Relational`: DISTINCT, joins and cartesian products.
- `SqlOrder`: the sort order.
- `Strings`: `str.strip`, substring search, `%s` counting.
- `Schema`: the tables.
- `Wrappers`: `Option`.

## Model

| member | source | states |
|---|---|---|
| Staging.BuildRecord | device_overview/db_sql.py:135-138 | A record has one value per CSV column, in CSV_COLUMNS order. A missing or None column gives "". A present column gives its stripped text. |
| Staging.BuildRecordStripped | device_overview/db_sql.py:136 | No staged value begins or ends with whitespace. |
| Staging.StagingRecordsAreNonBlankRows | device_overview/db_sql.py:129-139 | The collected records are the built records of the non-blank rows, in order. Blank rows are skipped and every other row gives exactly one record. |
| Staging.StagingRecordsMember | device_overview/db_sql.py:130-139 | A record is staged exactly when some non-blank row builds it. |
| Staging.CollectStagingRows | device_overview/db_sql.py:129-139 | The loop returns exactly the records StagingRecords specifies. |
| Strings.TrimSpec | device_overview/db_sql.py:136 | strip() removes an all-whitespace prefix and suffix. The result neither begins nor ends with whitespace. |
| Strings.TrimIdempotent | device_overview/db_sql.py:136 | Stripping twice is stripping once. |
| Strings.MarkerListCount | device_overview/db_sql_analysis.py:88 | `", ".join(["%s"] * n)` holds exactly n markers and starts with `%` and ends with `s` when n > 0. |
| Strings.JoinPlaceholders | device_overview/db_sql_analysis.py:115 | Joining fragments with a `%`-free separator neither creates nor destroys a marker. |
| Relational.Dedup | device_overview/db_sql.py:159 | SELECT DISTINCT has no duplicates, has exactly the input's values, and is no longer than the input. |
| Relational.LeftJoin | device_overview/db_sql.py:325-329 | A LEFT JOIN never drops the row. It gives the id of every matching row, or one NULL exactly when nothing matches. |
| Relational.IdsWhere | device_overview/db_sql.py:325-329 | The ids that match a join condition are exactly the 1-based positions of the matching rows, each once, and none when no row matches. |
| Relational.LeftJoinSingle | device_overview/db_sql.py:381-396 | When exactly one row matches, the LEFT JOIN gives exactly that row's id. |
| Relational.ProductMember | device_overview/db_sql.py:324-329 | A row joined against several tables gives exactly the combinations that pick one result from each join. |
| Relational.ProductLength | device_overview/db_sql.py:381-405 | The number of combinations of several joins is the product of their result counts. |
| Relational.FilterMember | device_overview/db_sql_analysis.py:114-115 | A WHERE filter keeps a value exactly when it is in the input and satisfies the predicate. |
| SqlOrder.KeyLeTotal | device_overview/db_sql_analysis.py:117 | Any two ORDER BY keys are comparable. |
| SqlOrder.KeyLeTransitive | device_overview/db_sql_analysis.py:117 | The ORDER BY order is transitive. |
| SqlOrder.KeyLeAntisymmetric | device_overview/db_sql_analysis.py:117 | Equal-length keys that are ordered both ways are equal. |
| SqlOrder.SortBy | device_overview/db_sql_analysis.py:117 | ORDER BY returns a permutation of its input (same multiset). |
| SqlOrder.SortBySorted | device_overview/db_sql_analysis.py:117 | ORDER BY returns rows sorted by the key. |
| SqlOrder.SortByKeepsSorted | device_overview/db_sql_analysis.py:117 | The model's sort is stable: input already in key order, ties included, comes back unchanged. |
| SqlOrder.SortByTieOrder | device_overview/db_sql_analysis.py:117 | Two rows with equal keys come back in their input order. |
| SqlOrder.SortedDistinct | device_overview/db_sql_analysis.py:140-143 | SELECT DISTINCT … ORDER BY has no duplicates and has exactly the input's values. |
| SqlOrder.SortedDistinctSorted | device_overview/db_sql_analysis.py:140-143 | SELECT DISTINCT … ORDER BY is sorted. |
| DeviceDatabase.Truncated | device_overview/db_sql.py:74-96 | TRUNCATE t empties t, whichever of the 23 tables it is, and leaves every other table unchanged. |
| DeviceDatabase.TruncateAllTables | device_overview/db_sql.py:72-103 | A run of TRUNCATEs empties exactly the tables it names and leaves every other table unchanged. |
| DeviceDatabase.TruncateAllRows | device_overview/db_sql.py:72-103 | After a run of TRUNCATEs, staging, sites, rooms, models and devices are each empty if named, and unchanged otherwise. |
| DeviceDatabase.TruncateAllLabels | device_overview/db_sql.py:72-103 | After a run of TRUNCATEs, a label table is empty exactly when it was named. Every other label table keeps its rows. |
| DeviceDatabase.AllLabelTables | device_overview/db_sql.py:74-96 | Every one of the 18 label tables is in the TRUNCATE list. |
| DeviceDatabase.AllTablesComplete | device_overview/db_sql.py:74-96 | The script names 23 tables: staging, sites, rooms, models, devices and every label table. |
| DeviceDatabase.ClearAllEmpties | device_overview/db_sql.py:67-103 | Whatever the tables held, clear_all_tables leaves all 23 of them empty. |
| DeviceDatabase.ClearAllIdempotent | device_overview/db_sql.py:67-103 | Clearing twice is clearing once. |
| DeviceDatabase.PeopleRange | device_overview/db_sql.py:194-241 | The label INSERTs run in this order: pl_names, owned_bys, used_bys, supported_bys, suppliers, departments, cost_centers. |
| DeviceDatabase.ProductRange | device_overview/db_sql.py:243-269 | The label INSERTs run in this order: manufacturers, tier1, tier2, tier3. |
| DeviceDatabase.StatusRange | device_overview/db_sql.py:271-304 | The label INSERTs run in this order: relations, types, depots, pl_status, ci_status. |
| DeviceDatabase.LabelGroups | device_overview/db_sql.py:194-312 | The label INSERTs after rooms are the three groups above, then partnumbers. |
| DeviceDatabase.UploadReplaces | device_overview/views.py:38-45 | After an upload, the tables and the view depend only on the uploaded rows, not on what an earlier upload left. |
| DeviceDatabase.UploadLabels | device_overview/views.py:38-45 | After an upload, every label table holds each distinct non-empty value of its column among the non-blank rows, once. The view has at least one row per non-blank row. |
| DeviceDatabase.DeviceDb.TruncateTable | device_overview/db_sql.py:99-103 | One TRUNCATE statement changes the state as Truncated says. |
| DeviceDatabase.DeviceDb.TruncateTables | device_overview/db_sql.py:99-103 | The statement loop changes the state as TruncateAll says. |
| DeviceDatabase.DeviceDb.ClearAllTables | device_overview/db_sql.py:67-103 | The new state is ClearAll of the old one, which is the all-empty database. |
| DeviceDatabase.DeviceDb.ImportCsvToStaging | device_overview/db_sql.py:106-144 | Staging is replaced by the records of this upload. Nothing else changes. |
| DeviceDatabase.DeviceDb.InsertLabelRows | device_overview/db_sql.py:194-199 | One label INSERT changes the state as InsertLabels says. |
| DeviceDatabase.DeviceDb.InsertSiteRows | device_overview/db_sql.py:165-175 | The sites INSERT changes the state as InsertSites says. |
| DeviceDatabase.DeviceDb.InsertRoomRows | device_overview/db_sql.py:178-191 | The rooms INSERT changes the state as InsertRooms says. |
| DeviceDatabase.DeviceDb.InsertModelRows | device_overview/db_sql.py:315-331 | The models INSERT changes the state as InsertModels says. |
| DeviceDatabase.DeviceDb.InsertDeviceRows | device_overview/db_sql.py:334-405 | The devices INSERT changes the state as InsertDevices says. |
| DeviceDatabase.DeviceDb.InsertPeopleLabels | device_overview/db_sql.py:194-241 | Seven label INSERTs, run in the source's order. |
| DeviceDatabase.DeviceDb.InsertProductLabels | device_overview/db_sql.py:243-269 | Four label INSERTs, run in the source's order. |
| DeviceDatabase.DeviceDb.InsertStatusLabels | device_overview/db_sql.py:271-304 | Five label INSERTs, run in the source's order. |
| DeviceDatabase.DeviceDb.PopulateNormalizedFromStaging | device_overview/db_sql.py:147-406 | All INSERTs in the source's order change the state as Populate says. |
| DeviceDatabase.DeviceDb.UploadCsv | device_overview/views.py:38-45 | Clear, import, populate: the new state is Upload of the old one. The view equals the view of an upload into an empty database. |
| Normalizer.NonEmptyValues | device_overview/db_sql.py:159-161 | The selected values are exactly the non-empty staged values of the column. |
| Normalizer.InsertLabelsSpec | device_overview/db_sql.py:194-199 | A label table filled from empty has no duplicates. It holds a value exactly when the value is non-empty and staged in its column. |
| Normalizer.InsertLabelsFrame | device_overview/db_sql.py:194-312 | A label INSERT appends to its own table and leaves every other label table alone. |
| Normalizer.InsertLabelRangeFrame | device_overview/db_sql.py:194-312 | The label INSERTs leave staging, sites, rooms, models and devices alone. |
| Normalizer.InsertLabelRangeLabel | device_overview/db_sql.py:194-312 | A run of label INSERTs appends each dimension's new rows to its own table, once. |
| Normalizer.LabelRank | device_overview/db_sql.py:157-312 | Every label dimension has exactly one INSERT among the 18. |
| Normalizer.LabelOrderRank | device_overview/db_sql.py:157-312 | The i-th label INSERT belongs to the dimension of rank i. |
| Normalizer.LabelsAfterRange | device_overview/db_sql.py:157-312 | Starting from empty label tables and fresh regions, the label INSERTs leave each label table holding exactly its new values. |
| Normalizer.SitesFromMember | device_overview/db_sql.py:165-175 | A staging row with a non-empty SITE gives a site row exactly for each region whose label equals its REGION. |
| Normalizer.SitesFromEmpty | device_overview/db_sql.py:165-175 | Sites inserted into an empty table from the fresh region labels have no duplicates. A site row is present exactly when some staging row gives it. |
| Normalizer.InsertSitesSpec | device_overview/db_sql.py:165-175 | Sites filled from empty have no duplicates. A site row is present exactly when some staging row gives it. |
| Normalizer.RoomsFromMember | device_overview/db_sql.py:178-191 | A staging row with a non-empty ROOM or CI_ROOM gives a room row exactly for each site whose code equals its SITE. |
| Normalizer.InsertRoomsSpec | device_overview/db_sql.py:178-191 | Rooms filled from empty have no duplicates. A room row is present exactly when some staging row gives it. |
| Normalizer.ModelsFromMember | device_overview/db_sql.py:315-331 | A staging row gives exactly the model rows that carry its non-empty MODEL and one result of each of the five left joins. |
| Normalizer.ModelsFromSound | device_overview/db_sql.py:315-331 | Every model row a staging row gives carries its MODEL and one result of each of the five joins. |
| Normalizer.ModelsFromComplete | device_overview/db_sql.py:315-331 | Every combination of the five join results, with the row's MODEL, is a model row the staging row gives. |
| Normalizer.InsertModelsSpec | device_overview/db_sql.py:315-331 | Models filled from empty have no duplicates. A model row is present exactly when some staging row gives it. |
| Normalizer.ModelRowNotDropped | device_overview/db_sql.py:315-331 | Every staged row with a MODEL gives a model row. Each of its ids is NULL exactly when that lookup fails. |
| Normalizer.LabelJoinNull | device_overview/db_sql.py:381-396 | A label join result is NULL exactly when the staged value is not a label. Otherwise it names a row holding that value. |
| Normalizer.FirstJoinNull | device_overview/db_sql.py:381-396 | The first result of a label join is NULL exactly when the value is not a label. |
| Normalizer.LabelJoinReadsLabels | device_overview/db_sql.py:381-396 | A label join reads only the label tables. |
| Normalizer.NewLabelsReadStaging | device_overview/db_sql.py:157-312 | The values a label INSERT adds depend only on staging. |
| Normalizer.ModelJoinsReadLabels | device_overview/db_sql.py:324-329 | The models INSERT reads only the label tables and the staging row. |
| Normalizer.DevicesFromMember | device_overview/db_sql.py:334-405 | A staging row gives exactly the devices that copy its scalar columns and take one result of each label join, one model match and one room match. |
| Normalizer.DevicesForMember | device_overview/db_sql.py:334-405 | For one label choice, a device is produced exactly when it copies the scalars and labels and takes one model match and one room match. |
| Normalizer.DeviceChoice | device_overview/db_sql.py:334-405 | Every device a row gives comes from one combination of its label joins and a model match for that combination. |
| Normalizer.ChoiceIsJoin | device_overview/db_sql.py:366-401 | Each element of a combination is a result of its label join. It is NULL exactly when the value is not a label, and otherwise it names that label. |
| Normalizer.ChoiceLabelKey | device_overview/db_sql.py:381-392 | The label ids of a combination are NULL exactly when the staged value is not a label, and otherwise they name it. |
| Normalizer.ChoiceModelLabels | device_overview/db_sql.py:393-401 | A combination carries the manufacturer and tier1-3 ids the model match compares. |
| Normalizer.RoomsAtMember | device_overview/db_sql.py:402-405 | A room the join finds is a room row matching the row's ROOM and CI_ROOM at the given site. |
| Normalizer.SiteJoinMember | device_overview/db_sql.py:402-405 | A site the join finds is a site row with the row's SITE code. |
| Normalizer.RoomJoinNonEmpty | device_overview/db_sql.py:402-405 | The site and room left joins never drop the device row. |
| Normalizer.DevicesFromNonEmpty | device_overview/db_sql.py:334-405 | Device rows are unfiltered: every staging row gives at least one. |
| Normalizer.DeviceLabelKey | device_overview/db_sql.py:366-392 | A device's label key is NULL exactly when the staged value is not a label, so always for "". Otherwise it names that label. |
| Normalizer.DeviceModelKey | device_overview/db_sql.py:393-401 | A device's model id names a model with the row's MODEL, manufacturer and tier1-3 labels. |
| Normalizer.DeviceRoomKey | device_overview/db_sql.py:402-405 | A device's room id names a room whose ROOM and CI_ROOM equal the row's, NULL counting as "", and whose site has the row's SITE. |
| Normalizer.DeviceForeignKeys | device_overview/db_sql.py:347-405 | Combines the three lemmas above: the scalar columns are copied, label keys are NULL exactly when unresolved, and the model and room ids are set only where they resolve. |
| Normalizer.ModelJoinResolves | device_overview/db_sql.py:397-401 | A model id the devices INSERT chooses names a model that resolves every model lookup of the row. |
| Normalizer.RoomJoinResolves | device_overview/db_sql.py:402-405 | A room id the devices INSERT chooses names a room matching the row's SITE, ROOM and CI_ROOM. |
| Normalizer.DeviceModelNull | device_overview/db_sql.py:393-401 | With duplicate-free labels, a device's model id is NULL exactly when no model resolves the row's MODEL, manufacturer and tier1-3. |
| Normalizer.ResolvingModelMatches | device_overview/db_sql.py:397-401 | With duplicate-free labels, a model that resolves the row's lookups matches every label choice. |
| Normalizer.ChoiceIsLabel | device_overview/db_sql.py:381-396 | With duplicate-free labels, the chosen label key is the one id naming the staged value. |
| Normalizer.LabelJoinUnique | device_overview/db_sql.py:381-396 | A duplicate-free label table answers every lookup with one row or one NULL. |
| Normalizer.SingleProduct | device_overview/db_sql.py:381-396 | With duplicate-free labels, the label joins of a row have exactly one combination. |
| Normalizer.DevicesForLength | device_overview/db_sql.py:397-405 | One label choice gives (model matches) × (room matches) devices. |
| Normalizer.DevicesFromCount | device_overview/db_sql.py:397-405 | With duplicate-free labels, a row matching k models and j rooms gives k·j devices. |
| Normalizer.ModelMatchIgnoresPartnumber | device_overview/db_sql.py:393-401 | The device-to-model match ignores PARTNUMBER, and no device label join reads it. |
| Normalizer.PopulateLabelTable | device_overview/db_sql.py:157-312 | From empty tables, every label table ends up holding exactly the rows its own INSERT added. |
| Normalizer.PopulateLabels | device_overview/db_sql.py:157-312 | After a fresh pass, each label table holds each distinct non-empty staged value of its column, once. |
| Normalizer.PopulateFrame | device_overview/db_sql.py:147-406 | Later INSERTs leave alone the tables that earlier ones filled. |
| Normalizer.PopulateSites | device_overview/db_sql.py:165-175 | After a fresh pass, sites hold each qualifying (COMPANY, SITEGROUP, SITE, region_id) once, and nothing else. |
| Normalizer.PopulateRooms | device_overview/db_sql.py:178-191 | After a fresh pass, rooms hold each qualifying (ROOM, PHYSICALPOSITION, CI_ROOM, FLOOR, site_id) once, and nothing else. |
| Normalizer.PopulateModels | device_overview/db_sql.py:315-331 | After a fresh pass, models hold each qualifying combination once, resolved against the final label tables. |
| Normalizer.PopulateDevices | device_overview/db_sql.py:334-405 | After a fresh pass, nothing is merged: in the model's insertion order (staging order), the i-th staging row's devices form the i-th block of the devices table. The table holds Σ (model matches)·(room matches) rows, at least one per staging row. A device is present exactly when some staging row gives it, and nothing else changes. |
| Normalizer.DevicesBeforeMatchTotal | device_overview/db_sql.py:334-405 | With duplicate-free labels, the first n staging rows give exactly Σ (model matches)·(room matches) device rows. |
| Normalizer.InsertDevicesSpec | device_overview/db_sql.py:334-405 | Devices filled from empty, duplicates kept because there is no DISTINCT. In the model's insertion order (staging order), the i-th staging row's devices occupy the i-th block. The count is the sum of the per-row counts, at least one per row. A device is present exactly when some staging row gives it. |
| Normalizer.FlatMapBlocks | device_overview/db_sql.py:334-405 | The devices of all staging rows, concatenated in staging order as the model inserts them, have the summed length and one block per row. |
| Normalizer.InsertDevicesBag | device_overview/db_sql.py:334-405 | In any insertion order, the devices INSERT adds exactly the devices of each staging row, each with its multiplicity (a multiset sum). |
| Normalizer.PopulateDevicesBag | device_overview/db_sql.py:334-405 | After a fresh pass, the devices table is, as a multiset, the sum over staging rows of each row's devices. |
| Normalizer.FreshLabelsUnique | device_overview/db_sql.py:157-312 | After a fresh pass, no label table holds a label twice. |
| Normalizer.PopulateDeviceCount | device_overview/db_sql.py:334-405 | After a fresh pass, each staging row gives (model matches) × (room matches) devices. |
| FlatView.FlatViewColumnsAreCsvColumns | device_overview/db_sql.py:416-460 | The view has 44 columns: CSV_COLUMNS without CI_NAME, CI_ID and BUDGETCODE, in the same order. |
| FlatView.LookupIsKeyJoin | device_overview/db_sql.py:462-482 | A LEFT JOIN on a primary key gives exactly the row the key names, or one NULL. A NULL key gives NULL. |
| FlatView.FlatColumnKinds | device_overview/db_sql.py:416-460 | Every view column is exactly one kind: label, scalar, via room, via site or via model. A label or scalar column reads the CSV column it is named after. |
| FlatView.DeviceFlatRows | device_overview/db_sql.py:461-482 | The view has exactly one row per device, with 44 values each. The model lists them in devices-table order; the engine may use any order. |
| FlatView.FlatNullKeys | device_overview/db_sql.py:462-482 | A NULL key gives NULL in the columns it reaches, and the row is still there. |
| FlatView.FlatColumnSources | device_overview/db_sql.py:418-481 | COMPANY, SITEGROUP, SITE, REGION and the room columns depend only on the room id. The model columns depend only on the model id. |
| FlatView.FlatCellReadsDimensions | device_overview/db_sql.py:461-482 | The view reads the label, site, room and model tables and the device row itself. |
| FlatView.FreshLabelsCover | device_overview/db_sql.py:157-312 | After a fresh pass, every staged value is a label exactly when it is non-empty. |
| FlatView.FreshSitesHaveRegions | device_overview/db_sql.py:165-175 | After a fresh pass, every site points at an existing region. |
| FlatView.FreshViewTables | device_overview/db_sql.py:334-482 | The view after a fresh pass reads the same dimension tables the devices INSERT joined. |
| FlatView.FlatCellsOfDevice | device_overview/db_sql.py:334-482 | A device's view row shows the row's scalar columns verbatim. When the labels cover the row, it shows the label columns with "" as NULL. |
| FlatView.FlatLabelOfDevice | device_overview/db_sql.py:416-482 | A device's label column shows the staged value, with "" shown as NULL, when the labels cover the row. |
| FlatView.FlatScalarOfDevice | device_overview/db_sql.py:416-460 | A device's scalar column shows the staged value verbatim. |
| FlatView.ModelCellsResolve | device_overview/db_sql.py:476-481 | A model that resolves the row shows its MODEL, MANUFACTURERNAME and TIER1-3. |
| FlatView.FlatModelCells | device_overview/db_sql.py:476-481 | A device whose model id resolves the row shows the row's MODEL, MANUFACTURERNAME and TIER1-3 in the view. |
| FlatView.RoomCellsResolve | device_overview/db_sql.py:471-473 | A room that resolves the row shows its ROOM, CI_ROOM and SITE, and a non-NULL REGION. |
| FlatView.FlatModelOfDevice | device_overview/db_sql.py:476-481 | A device whose model resolved shows the row's MODEL, MANUFACTURERNAME and TIER1-3. |
| FlatView.FlatRoomOfDevice | device_overview/db_sql.py:471-473 | A device whose room resolved shows the row's ROOM, CI_ROOM and SITE, and a non-NULL REGION. |
| FlatView.FlatRoundTripColumns | device_overview/db_sql.py:334-482 | Round trip staging → tables → view after a fresh pass: scalar columns come back verbatim and label columns with "" as NULL. |
| FlatView.FlatRoomlessRow | device_overview/db_sql.py:178-191 | After a fresh pass, a row with empty ROOM and CI_ROOM gets room_id NULL. Its view row then shows NULL for SITE and REGION, even when SITE was given. |
| FlatView.FreshRoomsNamed | device_overview/db_sql.py:178-191 | After a fresh pass, every room has a non-empty ROOM or CI_ROOM. |
| FlatView.NoRoomForRoomless | device_overview/db_sql.py:402-405 | Where every room has a ROOM or a CI_ROOM, a device of a row with neither gets room_id NULL. |
| FlatView.RoomlessRowNoRoom | device_overview/db_sql.py:178-191 | After a fresh pass, a row with empty ROOM and CI_ROOM gets room_id NULL. |
| FlatView.FlatModellessRow | device_overview/db_sql.py:315-331 | After a fresh pass, a row with an empty MANUFACTURERNAME, TIER1, TIER2 or TIER3 gets model_id NULL, and its view row shows NULL for MODEL. |
| FlatView.ResolvedModelColumns | device_overview/db_sql.py:397-401 | A model that resolves a row, under labels covering it, implies the row's manufacturer and tier1-3 are non-empty. |
| FlatView.FlatRoundTripJoins | device_overview/db_sql.py:334-482 | Round trip after a fresh pass: a resolved model shows the row's model columns. A resolved room shows its room and site columns and a region. |
| Analysis.ColumnNames | device_overview/db_sql_analysis.py:34-79 | The positions the filters read are the view columns SITE, PL_NAME, SHORTDESCRIPTION, TIER3, MODEL, SERIALNUMBER and CI_STATUS. |
| Analysis.And | device_overview/db_sql_analysis.py:115 | SQL AND is TRUE exactly when both sides are TRUE. |
| Analysis.Or | device_overview/db_sql_analysis.py:104-109 | SQL OR is TRUE exactly when one side is TRUE. |
| Analysis.LikeEscaped | device_overview/db_sql_analysis.py:101 | With LIKE's default escape character, `\c` matches exactly the one-character text c. |
| Analysis.SearchIsSubstring | device_overview/db_sql_analysis.py:101 | The pattern `%s%` matches a text exactly when s occurs in it, for s without `%`, `_` or `\`. |
| Analysis.SearchBackslash | device_overview/db_sql_analysis.py:101 | With a backslash in the search text, the pattern is no substring test: `a\b` finds "ab" and misses "a\b". |
| Analysis.LikeSuffix | device_overview/db_sql_analysis.py:101 | A pattern starting with `%` matches exactly when some suffix of the text matches the rest. |
| Analysis.AnyLikeTrue | device_overview/db_sql_analysis.py:104-109 | The OR of the LIKE terms is TRUE exactly when one column's value matches. |
| Analysis.ConditionPlaceholders | device_overview/db_sql_analysis.py:87-112 | Each condition's text holds one marker per parameter it binds. |
| Analysis.TextsPlaceholders | device_overview/db_sql_analysis.py:114-115 | The condition texts together hold as many markers as the conditions have parameters. |
| Analysis.WhereTrue | device_overview/db_sql_analysis.py:114-115 | A row passes `1=1 AND c1 AND …` exactly when every condition is TRUE on it. |
| Analysis.ActiveParams | device_overview/db_sql_analysis.py:84-112 | The parameters are, in order: the DACH codes, the status, the tier, and four copies of the search pattern. Each appears only when its filter is in force. |
| Analysis.ActiveParamCount | device_overview/db_sql_analysis.py:84-112 | A filter set binds \|DACH_SITES\|·[dach_only] + [ci_status] + [tier3] + 4·[search] parameters. |
| Analysis.ActiveConditionsMeaning | device_overview/db_sql_analysis.py:84-115 | The WHERE clause built from a filter set is TRUE exactly on the rows the filters describe. |
| Analysis.SearchPartMeaning | device_overview/db_sql_analysis.py:100-112 | The search condition is TRUE exactly when the pattern matches PL_NAME, SHORTDESCRIPTION, MODEL or SERIALNUMBER. |
| Analysis.BuildConditions | device_overview/db_sql_analysis.py:84-112 | The builder's conditions are the active ones, in the code's order. Its parameters are theirs, ParamCount of them. |
| Analysis.QueryPlaceholders | device_overview/db_sql_analysis.py:114-117 | A query text around the conditions holds one marker per parameter. |
| Analysis.AssembleQuery | device_overview/db_sql_analysis.py:114-117 | The query is head + " AND "-joined conditions + tail, and its marker count equals its parameter count. |
| Analysis.BuildRowsQuery | device_overview/db_sql_analysis.py:34-117 | The device-list query has the view's select list, the active conditions and ORDER BY SITE, PL_NAME, SERIALNUMBER, with markers = parameters. |
| Analysis.BuildCountsQuery | device_overview/db_sql_analysis.py:183-222 | The count query has the active conditions and GROUP BY SITE ORDER BY SITE, with markers = parameters. |
| Analysis.SelectedMultiset | device_overview/db_sql_analysis.py:114-122 | The WHERE clause keeps every matching view row as often as it occurs, and no other row. |
| Analysis.DeviceRows | device_overview/db_sql_analysis.py:114-122 | The listed rows are sorted by (SITE, PL_NAME, SERIALNUMBER). Each matching view row appears as often as in the view, and no other row appears. |
| Analysis.DeviceRowsMember | device_overview/db_sql_analysis.py:114-122 | A row is listed exactly when it is in the view and matches the filters. |
| Analysis.NoFiltersAllRows | device_overview/db_sql_analysis.py:84-115 | Falsy filters add no condition and no parameter, and the list is the whole view. |
| Analysis.NullFailsFilters | device_overview/db_sql_analysis.py:87-112 | A NULL in a column an active filter tests fails the filters. |
| Analysis.NullNeverMatches | device_overview/db_sql_analysis.py:87-112 | Such a row's WHERE clause is not TRUE, and the row is never listed. |
| Analysis.SearchMeaning | device_overview/db_sql_analysis.py:100-112 | A search without wildcards keeps a row exactly when the text occurs in one of the four search columns. |
| Analysis.FetchDeviceRows | device_overview/db_sql_analysis.py:25-125 | Returns the view's column names and the listed rows: sorted, and a permutation of the matching view rows. |
| Analysis.GroupSitesMember | device_overview/db_sql_analysis.py:222 | The groups are exactly the SITE values present, NULL included. |
| Analysis.CountsSorted | device_overview/db_sql_analysis.py:222 | The group sites are distinct and sorted. |
| Analysis.CountsPositive | device_overview/db_sql_analysis.py:222 | Each group counts the rows of its site, at least one. |
| Analysis.CountsCover | device_overview/db_sql_analysis.py:222 | Every row's site has a group, and the counts add up to the number of rows. |
| Analysis.CountsFor | device_overview/db_sql_analysis.py:222 | For each site key, the count is the number of rows at that site. |
| Analysis.CountsForTotal | device_overview/db_sql_analysis.py:222 | When the keys are distinct and cover every row's site, the counts add up to the number of rows. |
| Analysis.CountsBySiteSpec | device_overview/db_sql_analysis.py:183-222 | GROUP BY SITE ORDER BY SITE gives distinct sorted sites. Each count is ≥ 1 and counts its site's rows, and the counts sum to the row count. |
| Analysis.SiteCountsMatchDeviceRows | device_overview/db_sql_analysis.py:179-230 | Each site count equals the number of rows fetch_device_rows lists for that site. The counts sum to the length of that list. |
| Analysis.FetchCountsBySite | device_overview/db_sql_analysis.py:179-230 | The counts have distinct sorted sites, each ≥ 1 and equal to the listed rows of that site, and they sum to the list length. |
| Analysis.PresentValues | device_overview/db_sql_analysis.py:138-157 | The values of a column are exactly its non-NULL, non-empty values in the view. |
| Analysis.DachSitesPresent | device_overview/db_sql_analysis.py:159-170 | The DACH values are exactly the view's SITE values that are in DACH_SITES. |
| Analysis.FetchFilterOptions | device_overview/db_sql_analysis.py:128-176 | Each of the three lists is duplicate-free and sorted. CI status and tier3 are the non-empty values present; DACH sites are the present sites in DACH_SITES. |
| Reports.SameDachSites | device_overview/db_sql_reports.py:8-20 | The reports' DACH_SITES equals the analysis list. |
| Reports.ReportParams | device_overview/db_sql_reports.py:60 | DACH_SITES + ["Deployed"] + TIER3_FILTER is exactly what the three conditions bind, \|DACH_SITES\| + 1 + \|TIER3_FILTER\| values. |
| Reports.ReportPlaceholders | device_overview/db_sql_reports.py:47-92 | Each report query holds one marker per bound parameter. |
| Reports.ReportConditionsMeaning | device_overview/db_sql_reports.py:53-56 | The report's WHERE clause is TRUE exactly when SITE ∈ DACH_SITES, CI_STATUS = "Deployed" and TIER3 ∈ TIER3_FILTER. |
| Reports.ReportMultiset | device_overview/db_sql_reports.py:50-58 | The report filter keeps each report row as often as it occurs in the view, and no other row. |
| Reports.DachDeployedT3Devices | device_overview/db_sql_reports.py:37-65 | Report 1 has the view's columns, rows sorted by (SITE, PL_NAME, SERIALNUMBER), and each report row as often as in the view. |
| Reports.ReportRowsMember | device_overview/db_sql_reports.py:50-58 | A row is in report 1 exactly when it is in the view and passes the report filter. |
| Reports.DachDeployedT3CountsBySite | device_overview/db_sql_reports.py:68-97 | Report 2 has distinct sorted DACH sites. Each count is ≥ 1 and equals that site's rows in report 1, and the counts sum to report 1's length. |
| Reports.ReportCountsSites | device_overview/db_sql_reports.py:79-90 | Each report-2 site is a DACH site, and its count equals that site's rows in report 1. |
| Reports.ReportCounts | device_overview/db_sql_reports.py:68-97 | Report 2's sites are distinct and sorted, each count ≥ 1 equals that site's rows in report 1, and the counts sum to report 1's length. |
| Reports.ReportWithinDeployedDach | device_overview/db_sql_reports.py:50-60 | Report 1 is contained, with multiplicity, in fetch_device_rows with dach_only and ci_status "Deployed". |
| Reports.TierFilterMeaning | device_overview/db_sql_reports.py:56 | The device-list filter (DACH, Deployed, tier t) describes the report rows of tier t. |
| Reports.ReportByTier | device_overview/db_sql_reports.py:50-60 | A row is in report 1 exactly when fetch_device_rows with DACH, Deployed and one listed tier lists it. |

## Left out

- Connections, cursors, `executemany` and splitting scripts on `;`. The model runs one statement at a time on an in-memory database.
- `transaction.atomic` and `SET FOREIGN_KEY_CHECKS`. No statement fails in the model, so there is nothing to roll back, and foreign keys are not enforced.
- UTF-8-sig decoding and `csv.DictReader` parsing. The reader is given as a sequence of maps from column name to optional string, and columns outside CSV_COLUMNS are ignored. Extra fields beyond the header (DictReader's `None` key) are not modelled.
- `recreate_device_flat_view` has no method of its own. `DROP VIEW`/`CREATE VIEW` are DDL, and `DeviceDb.View()` always computes `device_flat` (`FlatView.DeviceFlat`) from the current tables. So re-creating the view changes no state.
- Collation. `=`, `IN` and `LIKE` compare characters exactly, while the server's collation may ignore case. `ORDER BY` uses code-point order, with NULL before every value. `SELECT DISTINCT` (the label tables, sites, rooms, models and the filter lists) and `GROUP BY SITE` merge only values that are exactly equal, where a case-insensitive collation would also merge, say, "Deployed" and "deployed".
- Analysis.SearchMeaning: states substring matching only for search text without `%`, `_` or `\`. The code passes those characters to LIKE unescaped: `%` and `_` act as wildcards and `\` as the escape character. `Analysis.LikeMatch` models all three, and `Analysis.SearchBackslash` shows that the substring reading fails for `\`.
- Analysis.SearchIsSubstring: same restriction and reason as Analysis.SearchMeaning.
- Ties under `ORDER BY SITE, PL_NAME, SERIALNUMBER` keep view order in the model (a stable sort). The engine may return tied rows in any order, so Analysis.FetchDeviceRows and Reports.DachDeployedT3Devices fix one order among those the engine may choose. The sortedness and permutation lemmas hold for every order.
- Normalizer.PopulateDevices, Normalizer.InsertDevicesSpec, Normalizer.FlatMapBlocks, FlatView.DeviceFlatRows: the devices `INSERT … SELECT` and `SELECT … FROM device_flat` have no `ORDER BY`. The model inserts each staging row's devices as one contiguous block, in staging order, and lists the view in that order. The engine may insert them, number their `device_id`s and return view rows in any order. The block statements are about the model's order only. The count (`MatchTotal`), the membership statements and the multiset statements (Normalizer.InsertDevicesBag, Normalizer.PopulateDevicesBag) hold for every order.
- The order of `SELECT DISTINCT` output is up to the engine. The model keeps first occurrences in order, and no lemma depends on that order.
- DDL, unique constraints and auto-increment settings are not visible in the code. A surrogate id is a 1-based row position, which matches auto-increment after a TRUNCATE.
- Normalizer.PopulateLabels, PopulateSites, PopulateRooms, PopulateModels, PopulateDevices and PopulateDeviceCount: these require empty normalized tables. The INSERTs append, and no constraint forbids a second pass from adding duplicates. The upload handler always clears first; DeviceDatabase.UploadLabels states the result for the whole upload.
- Normalizer.DevicesFromCount: the k·j count requires duplicate-free label tables. Normalizer.PopulateDeviceCount shows that a fresh pass provides them.
- Date, status and other scalar columns are opaque strings; nothing parses them.
- The filter builder appears twice in the code, once in each query function. The model has a single copy, BuildConditions, used by both query builders.
- In these points the model follows the code as written:
  - CSV_COLUMNS has 47 columns.
  - The search compares with LIKE, not a case-insensitive substring test.
  - Label tables have no uniqueness constraint.
  - The device-to-model match does not use PARTNUMBER.
  - A row with empty ROOM and CI_ROOM gets no room, so its view row shows NULL for SITE, REGION, COMPANY and SITEGROUP even when SITE is given (FlatView.FlatRoomlessRow, with FlatView.FlatNullKeys for COMPANY and SITEGROUP).
  - A row with an empty manufacturer or tier gets no model, so its view row shows NULL for MODEL and the other model columns (FlatView.FlatModellessRow, with FlatView.FlatNullKeys for the other columns).
  - Devices carry 14 nullable foreign keys: 12 label keys, `model_id` and `room_id`.
