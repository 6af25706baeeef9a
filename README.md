# Production planning: a Dafny model

This project models the core of a small production-planning desktop
application. The application tracks materials in stock and products with
their bills of materials (BOM: the quantity of each material that one unit
needs). It also tracks customer projects: each project names a product, a
quantity, and nine stage statuses ("-", "Ootel", "Töös", "Valmis"). Starting
a project deducts the materials its parts need from stock, all or nothing,
and an audit history records what happened.

The model has six modules:

- `Models` (models.dfy): the records of the relational schema, as values.
- `Tables` (tables.dfy): the whole store as one `Db` value, its integrity
  invariant `Valid`, and the pure specifications of the composite
  operations.
  - `EnsureParts` derives a project's parts lazily from its product's BOM.
  - `Deduct` validates every part first, then deducts stock and writes one
    history entry per part.
- `Logic` (logic.dfy): the domain operations layer, as the class `Store`.
  - Its fields are the tables.
  - Each method is proved against the `Db` snapshot or against the
    functions of `Tables`.
- `StartProject` (start_project.dfy): the start-project view.
  - It builds the parts table and its stock check.
  - It runs the deduction `n` times, where each run is validated on its own.
  - It writes the summary history line.
- `Overview` (overview.dfy): the dashboard's KPI counters and per-stage
  chart bars, and the relations between them.
- `ManageProjects` (manage_projects.dfy): the project table.
  - Its search and status filter.
  - The cells it shows for a project.
  - Inline edits that write one field back.
  - Deletion.
- `Text` (text.dfy): the string helpers these need. Integer printing is
  Python's `str` on integers. Parsing stands for the way the database's
  integer column turns decimal text into a number. Lower-casing and
  stripping cover ASCII only.

Store identifiers come from one counter, `nextId`, shared by all tables. The
store's integrity invariant has four parts:

- The names of categories, products and materials are unique.
- Each (product, material) pair has at most one BOM line.
- A project's part lines belong to an existing project.
- Category links point at existing products and categories.

Every store method keeps this invariant.

## Model

| member | source | states |
|---|---|---|
| Tables.ProductLines | logic.py:95-101 | the BOM lines of a product are exactly the stored lines with that product id, in table order |
| Tables.ProductLinesAppend | logic.py:95-101 | reading a product's lines from two concatenated tables is the concatenation of the two reads, so the lines keep table order |
| Tables.ProjectLines | logic.py:209-210 | the part lines of a project are exactly the stored lines with that project id, in table order |
| Tables.ProjectLinesAppend | logic.py:209-210 | reading a project's lines from two concatenated tables is the concatenation of the two reads |
| Tables.CategoryNamed | logic.py:16 | the lookup by name finds the category with that name, and finds none exactly when no category has it |
| Tables.ProductNamed | logic.py:219-220 | the lookup by name returns a product carrying that name, or none when no product has it |
| Tables.MaterialNamed | logic.py:135-136 | the lookup by name returns a material carrying that name, or none when no material has it |
| Tables.FindLine | logic.py:105-109 | the lookup of a (product, material) line returns the first matching index, or none when no line matches |
| Tables.WithMaterialAccumulates | logic.py:104-120 | adding a material to a BOM adds the quantity to the pair's total and leaves exactly one line for the pair; every other pair is unchanged; a line is added only when the pair was absent; lines stay unique per pair |
| Tables.UniqueLinesCountAtMostOne | models.py:57-66 | when BOM lines are unique per pair, every pair occurs at most once |
| Tables.Where | logic.py:87-91 | filtering keeps exactly the lines that satisfy the predicate |
| Tables.WhereKeepsUnique | logic.py:123-127 | removing BOM lines keeps lines unique per (product, material) pair |
| Tables.OtherProjectsLines | models.py:94 | the cascade keeps exactly the part lines of the other projects |
| Tables.ProjectLinesOfAttach | logic.py:262-269 | lines attached to a new project are that project's own lines and nobody else's |
| Tables.LazyMultiplier | logic.py:222 | a missing or zero quantity multiplies by 1, any other quantity by itself, so the multiplier is never zero |
| Tables.BomSource | logic.py:213-221 | there is a product to copy exactly when the project exists, has no parts yet, and carries a non-empty product name that some stored product has; that product is the one carrying the name |
| Tables.EnsureParts | logic.py:213-231 | deriving parts changes only the project-part table and the id counter, and changes nothing when there is no product to copy |
| Tables.EnsurePartsDerives | logic.py:213-231 | a project's derived lines follow the product's BOM one to one, in order: same material, quantity times the project's multiplier; other projects' lines are unchanged |
| Tables.EnsurePartsIdempotent | logic.py:214-215 | deriving a second time changes nothing: existing lines are never regenerated |
| Tables.ShortfallFirst | logic.py:297-302 | validation fails exactly when some part's material is missing or short; the error names the first such part, and every part before it is covered |
| Tables.NoShortfallKnown | logic.py:298-299 | when validation passes, every part's material exists |
| Tables.Deducted | logic.py:304-306 | deducting keeps the set of materials |
| Tables.DeductedOnlyStock | logic.py:306 | deducting changes only a material's stock quantity |
| Tables.DeductedStock | logic.py:304-306 | a material's new stock is its old stock minus the total the parts require of it |
| Tables.DemandOfDistinct | logic.py:304-306 | when parts name distinct materials, a material's total demand is its one part's quantity, or zero if no part names it |
| Tables.DeductionLog | logic.py:307-313 | the deduction writes one history entry per part |
| Tables.DeductionLogAt | logic.py:307-313 | entry i records the project, "Stock deducted" and "-q from name" for part i |
| Tables.Deduct | logic.py:292-315 | a start changes only materials and history beyond the lazy derivation of parts, and succeeds with true |
| Tables.DeductAllOrNothing | logic.py:297-302 | the start fails exactly when some part is not covered; then no stock and no history change |
| Tables.DeductApplies | logic.py:304-313 | on success every material loses exactly what the parts require of it, and one entry per part is appended after the old history, in part order |
| Tables.DeductDistinctStaysNonNegative | logic.py:297-306 | when parts name distinct materials, each part's material drops by exactly its quantity and stays non-negative |
| Tables.SharedMaterialCanGoNegative | logic.py:297-306 | two parts of one material can each pass the per-part check and still drive the stock below zero (stock 5, two parts of 3, result -1) |
| Tables.DeductMissingProject | logic.py:293-302 | starting a project that does not exist succeeds and changes nothing |
| Tables.DeductedKeepsValid | logic.py:304-313 | deducting and logging keep the store's invariant |
| Tables.Unlinked | logic.py:87-91 | unlinking keeps exactly the category links of other products |
| Tables.UnlinkKeepsValid | logic.py:87-91 | dropping a product's category links keeps the store's invariant |
| Tables.AddProjectKeepsValid | logic.py:240-243 | adding a project under the next id keeps the store's invariant |
| Tables.ProjectsBelow | logic.py:205-206 | listing projects yields exactly the stored projects below the bound |
| Tables.ProjectsBelowSorted | logic.py:205-206 | the listing is in increasing id order and every id is below the bound |
| Logic.PlannedParts | logic.py:246-260 | a non-empty explicit parts list is used as given; with no list, a missing or empty product name, or one no product has, gives no parts |
| Logic.PlannedPartsFollowBom | logic.py:248-260 | a project created without a parts list and naming a stored product gets one part per BOM line, in order, with quantity times the given quantity (default 1) |
| Logic.SetField | logic.py:274-281 | setting a field never changes the project's id |
| Logic.QuantityEditRoundTrip | logic.py:274-281 | writing a printed integer into the quantity field stores that integer |
| Logic.AssignStep | logic.py:28-34 | one loop step of category assignment keeps the loop's invariant over the names done so far |
| Logic.Store.CreateCategory | logic.py:15-23 | an existing category with the name is returned unchanged; otherwise exactly one category is added under the next id |
| Logic.Store.LinkCategory | logic.py:29-34 | gets or creates the named category, which is then the only one with that name, and links it to the product |
| Logic.Store.AssignProductCategories | logic.py:26-37 | a name list that repeats a name fails and leaves categories, links and ids as they were (the link table's composite key, models.py:8-13, rejects the second link at commit); otherwise the product is linked to exactly the categories whose names were given; every given name exists afterwards; other products' links and existing categories are unchanged; new categories carry given names that did not exist before |
| Logic.Store.CreateProduct | logic.py:48-64 | a duplicate name is an error that changes nothing; otherwise exactly the new product is added under the next id |
| Logic.Store.UpdateProduct | logic.py:67-84 | a missing id is a no-op returning none; a name taken by another product is an error that changes nothing; otherwise only that product is replaced |
| Logic.Store.DeleteProduct | logic.py:87-91 | a missing id changes nothing; otherwise the product, its BOM lines and its category links are removed, and nothing else |
| Logic.Store.AddMaterialToProduct | logic.py:104-120 | the BOM becomes the accumulated table, and a new id is used only when the pair was absent |
| Logic.Store.RemoveMaterialFromProduct | logic.py:123-127 | the remaining BOM lines are the old ones, in order, without the line with that id; a missing id changes nothing |
| Logic.Store.CreateMaterial | logic.py:139-165 | a duplicate name is an error that changes nothing; otherwise one material is added with the given stock (default 0) and kind (default "general") |
| Logic.Store.UpdateMaterialDetails | logic.py:168-194 | a missing id is an error that changes nothing; otherwise the stock is replaced only when given, the tube attributes are always replaced, and no other material changes |
| Logic.Store.DeleteMaterial | logic.py:197-201 | the material is removed, and a missing id changes nothing |
| Logic.Store.GetMaterialByName | logic.py:135-136 | returns a stored material with that name, or none when no material has it |
| Logic.Store.GetProjects | logic.py:205-206 | returns every stored project exactly once, in increasing id order |
| Logic.Store.GetProducts | logic.py:41-45 | with no category names, every product; otherwise exactly the products linked to a category with one of the names |
| Logic.Store.AttachParts | logic.py:262-269 | appends one part line per spec to the project, with fresh ids, and nothing else |
| Logic.Store.CreateProject | logic.py:234-271 | adds the new project under the next id, then attaches the given parts, or the product's BOM scaled by the quantity when no parts are given |
| Logic.Store.UpdateProjectField | logic.py:274-281 | a missing id is a no-op returning none; otherwise only that field of that project changes, and the updated project is returned |
| Logic.Store.DeleteProject | logic.py:284-288 | the project and its part lines are removed; other projects' lines are unchanged |
| Logic.Store.EnsureProjectHasParts | logic.py:213-231 | the store becomes the lazy derivation of the project's parts |
| Logic.Store.CheckStock | logic.py:297-302 | the validation loop returns the first shortfall, or none when every part is covered |
| Logic.Store.ApplyDeductions | logic.py:304-313 | the apply loop leaves stock lowered by the parts' demand and appends the deduction log |
| Logic.Store.StartProjectDeductInventory | logic.py:292-315 | the store becomes the all-or-nothing deduction, and the result is its outcome |
| Logic.Store.AddHistoryEntry | logic.py:323-337 | appends exactly one entry with the given project, action and details |
| Text.NatRoundTrip | views/manage_projects.py:187 | parsing the printed form of a natural number gives it back |
| Text.IntRoundTrip | views/manage_projects.py:187 | parsing the printed form of an integer gives it back |
| StartProject.RowFor | views/start_project.py:116-139 | a row shows the material's id, name and stock and the part quantity times the multiplier; it reads "enough" exactly when the stock covers that, and otherwise shows the positive amount missing |
| StartProject.Rows | views/start_project.py:115-139 | one row per part |
| StartProject.EnabledIffAllRowsEnough | views/start_project.py:131-145 | the start button is enabled exactly when every row reads "enough" |
| StartProject.RowsStep | views/start_project.py:115-139 | one loop step appends the part's row and keeps the running availability flag |
| StartProject.BuildRows | views/start_project.py:113-145 | the loop succeeds exactly when every material exists, and then yields the rows and the enable flag; otherwise it stops at the first part whose material is gone |
| StartProject.RunTimes | views/start_project.py:173-174 | n runs complete at most n times and fail exactly when fewer than n complete; products never change |
| StartProject.FailureKeepsEarlierRuns | views/start_project.py:173-174 | when a run fails, the runs before it all succeeded, and the failing run leaves their effects intact |
| StartProject.EnsurePartsKeepsExisting | logic.py:214-215 | a project that already has lines keeps the store unchanged |
| StartProject.OneRunOfDistinct | logic.py:297-313 | one covered run over distinct materials succeeds and lowers each part's material by its quantity |
| StartProject.SufficientCovers | views/start_project.py:131-145 | when every row is enough for n at least 1, one run's validation passes |
| StartProject.SufficientAfterOneRun | views/start_project.py:173-174 | when the rows are enough for n runs over distinct materials, the first run succeeds and the rest are enough for n - 1 |
| StartProject.SufficientRowsRunAll | views/start_project.py:145-174 | an enabled start button over distinct materials means all n runs succeed, each material losing n times its part's quantity |
| StartProject.LoweredCompose | views/start_project.py:173-174 | one run's drop followed by n - 1 runs' drops is n runs' drop |
| StartProject.RunTimesAfterOk | views/start_project.py:173-174 | after a successful first run, the rest of the runs continue from its store |
| StartProject.RunTimesAfterErr | views/start_project.py:173-174 | a failing first run ends the runs with its error |
| StartProject.UnderivedProjectStartsEnabledThenFails | views/start_project.py:101-145 | loading does not derive parts: a project with none yet shows an empty table with the start button enabled, and its first run derives the parts and fails on a shortfall |
| StartProject.SeparatorAt | views/start_project.py:176 | finds the first " - " from a position on, or the end of the text |
| StartProject.NameOf | views/start_project.py:176 | the name is the caption's prefix before the first " - ", or the whole caption when there is none |
| StartProject.NameOfLabel | views/start_project.py:90-91 | a project name is recovered from its combo label exactly when neither it nor it followed by a blank holds " - " |
| StartProject.DashedNameIsCut | views/start_project.py:90-91 | a project name containing " - " is cut at its first " - ", so the summary carries only the part before it |
| StartProject.DeductRuns | views/start_project.py:173-174 | the loop leaves the store after n validated runs, or after the first failing run, and returns that failure |
| StartProject.StartPanel.constructor | views/start_project.py:53-56 | no selection, multiplier 1, no loaded project, empty table and the start button disabled |
| StartProject.StartPanel.SetMultiplier | views/start_project.py:53-56 | the multiplier is clamped to 1..9999 |
| StartProject.StartPanel.OnProjectSelected | views/start_project.py:96-99 | a new selection clears the table and disables the start button |
| StartProject.StartPanel.LoadProjectDetails | views/start_project.py:101-152 | without a selection nothing changes; otherwise the project is loaded and its rows and enable flag follow the stock check |
| StartProject.StartPanel.StartProject | views/start_project.py:154-194 | without a project or confirmation nothing changes; otherwise the store is n validated runs, the first failure is returned with earlier runs kept and no summary, and on success one summary entry is appended |
| Overview.StageValues | views/overview.py:9-12 | eight stage values, afterone first and coating last |
| Overview.StandingOf | views/overview.py:75-82 | delivered means done and overrides the stages; otherwise any stage in progress is in progress; otherwise all stages waiting is waiting |
| Overview.ChartValue | views/overview.py:103 | a delivered project counts as done in every stage, and any other shows its own stage value |
| Overview.Count | views/overview.py:70-82 | a counter never exceeds the number of projects |
| Overview.CountMonotone | views/overview.py:70-107 | a weaker condition counts at least as many projects |
| Overview.CountBarUnion | views/overview.py:105-107 | counting disjoint value sets separately adds up to counting their union |
| Overview.StandingsPartition | views/overview.py:75-82 | every project falls in exactly one class: delivered, in progress, waiting or mixed |
| Overview.KpisWithinTotal | views/overview.py:70-82 | delivered plus in progress plus waiting never exceeds the total |
| Overview.StageBarsWithinTotal | views/overview.py:105-107 | one stage's done, in-progress and waiting bars never stack above the number of projects |
| Overview.DeliveredAreDoneEverywhere | views/overview.py:103-105 | every stage's done bar is at least the delivered count |
| Overview.ProgressBarWithinKpi | views/overview.py:78-106 | no stage's in-progress bar exceeds the in-progress KPI |
| Overview.WaitingKpiWithinBar | views/overview.py:80-107 | the waiting KPI never exceeds any stage's waiting bar |
| Overview.KpiCounts | views/overview.py:70-82 | the KPI loop returns the total and the delivered, in-progress and waiting counts |
| Overview.StageBar | views/overview.py:100-107 | one stage's bars count the done, in-progress and waiting chart values |
| Overview.Occurrences | views/overview.py:105-107 | an occurrence count never exceeds the list length |
| Overview.OccurrencesOfChart | views/overview.py:100-107 | counting the collected chart values equals counting the projects |
| Overview.ChartCounts | views/overview.py:92-107 | eight bars per series, each the count of its chart value |
| Overview.BarsAgainstKpis | views/overview.py:66-107 | in every stage, the bars stack within the total, the done bar covers the delivered KPI, the in-progress bar stays within its KPI, and the waiting KPI within the waiting bar |
| Overview.OverviewPage.constructor | views/overview.py:19-44 | a new page is refreshed at once: it shows the counters and chart of the stored projects |
| Overview.OverviewPage.Refresh | views/overview.py:66-107 | the KPIs and bars are the counts over all projects, and stay within the total and one another |
| ManageProjects.ColumnOf | views/manage_projects.py:14-30 | every field has a table column, 1 to 15, which shows that field |
| ManageProjects.ColumnsDistinct | views/manage_projects.py:14-30 | no two fields share a column |
| ManageProjects.EditedField | views/manage_projects.py:210-213 | the id, delete and indicator columns edit nothing; every other column edits the field shown in it |
| ManageProjects.Preselect | views/manage_projects.py:195-196 | a status combo shows the stored value when it is a known status, and "-" otherwise |
| ManageProjects.IndicatorColor | views/manage_projects.py:33-38 | green exactly for "Valmis", yellow exactly for "Töös", red for every other value, "Ootel" and "-" included |
| ManageProjects.View | views/manage_projects.py:145-180 | a row shows the project's id and one cell per field, in column order |
| ManageProjects.Views | views/manage_projects.py:145-180 | one row per listed project, in order |
| ManageProjects.SetFieldOwnCell | views/manage_projects.py:210-216 | after a canonical edit, the cell shows exactly the text typed |
| ManageProjects.SetFieldOtherCell | views/manage_projects.py:210-216 | an edit of one field leaves every other cell and the delivered status unchanged |
| ManageProjects.SetFieldView | views/manage_projects.py:210-224 | a written-back edit changes exactly its own cell of the row, and the colour only for the delivered field |
| ManageProjects.CellsAfterOneEdit | views/manage_projects.py:145-180 | a project differing in one field's cell shows the old row with that cell replaced |
| ManageProjects.QuantityIsNormalised | views/manage_projects.py:187 | digits typed into quantity read back as the stored integer's numeral, which equals the typed text exactly when it has no leading zero ("07" reads back as "7") |
| Text.CanonicalDigits | views/manage_projects.py:187 | a digit string is the numeral of its own value exactly when it has no leading zero |
| ManageProjects.StatusesOf | views/manage_projects.py:128-138 | nine statuses, delivered last |
| ManageProjects.Visible | views/manage_projects.py:145 | the listed projects are exactly those the filter shows |
| ManageProjects.VisibleKeepsOrder | views/manage_projects.py:145 | filtering keeps increasing id order |
| ManageProjects.BlankSearchShowsAll | views/manage_projects.py:120-127 | a blank search with "Kõik" shows every project |
| ManageProjects.StripOfBlanks | views/manage_projects.py:120 | stripping an all-blank text leaves nothing |
| ManageProjects.SearchIgnoresCase | views/manage_projects.py:120 | a search and its lower-cased form show the same projects |
| ManageProjects.StatusFilterExact | views/manage_projects.py:128-141 | with a status chosen, a project shows exactly when one of its nine statuses equals it |
| ManageProjects.RenderRow | views/manage_projects.py:148-178 | the loop body renders exactly the project's row |
| ManageProjects.RenderRows | views/manage_projects.py:148-180 | the loop renders exactly the listed projects' rows |
| ManageProjects.ListedRowsCoherent | views/manage_projects.py:113-180 | rows rendered from stored projects show those projects |
| ManageProjects.EditKeepsCoherent | views/manage_projects.py:210-224 | a canonical edit that is written back keeps every row showing its stored project |
| ManageProjects.ProjectTable.constructor | views/manage_projects.py:42-45 | first tab, empty search, "Kõik", and every project listed |
| ManageProjects.ProjectTable.Refresh | views/manage_projects.py:113-183 | off the first tab nothing changes; on it the rows are the filtered projects and show the store |
| ManageProjects.ProjectTable.Rebuild | views/manage_projects.py:113-183 | the rows are the filtered projects and show the store |
| ManageProjects.ProjectTable.SetSearch | views/manage_projects.py:66-67 | the search is stored and, on the first tab, the rows are refiltered |
| ManageProjects.ProjectTable.SetStatusFilter | views/manage_projects.py:71-73 | the status filter is stored and, on the first tab, the rows are refiltered |
| ManageProjects.ProjectTable.SelectTab | views/manage_projects.py:106-108 | switching to the first tab refreshes; other tabs keep the rows |
| ManageProjects.ProjectTable.OnItemChanged | views/manage_projects.py:210-216 | id, delete and indicator cells are ignored; otherwise the field is written back to the row's project and only that cell changes, so a canonical edit keeps the rows showing the store |
| ManageProjects.ProjectTable.CommitStatus | views/manage_projects.py:218-224 | the status is written back, and its cell changes; the colour is recomputed only for delivered |
| ManageProjects.ProjectTable.Delete | views/manage_projects.py:226-236 | without confirmation nothing changes; otherwise the project and its part lines are gone from the store and, on the first tab, the project is gone from the rows |

## Left out

- Timestamps: `History.timestamp` (models.py:113, logic.py:330) and `Project.deadline` (models.py:82) are not modelled. The clock is outside the model.
- `get_categories`, `get_materials` and `get_history` (logic.py:11-12, 131-132, 319-320) are not modelled as members. They return whole tables, which are fields of `Store`.
- Lower-casing and stripping are ASCII-only. Python's Unicode case folding and Unicode whitespace are not modelled.
- Logic.SetField: text typed into the quantity column is stored as an integer when it is a plain (optionally negative) decimal, and as no quantity otherwise.
  - SQLite's column affinity would keep other text as text.
  - SQLite also accepts forms such as " 7" or "+7".
- Logic.Store.CreateProject: an explicit `quantity=None` is read as a missing quantity (multiplier 1). The source would commit the project and then fail on `None` times a quantity (logic.py:244, 255). Its one caller passes the spin box value (views/add_project.py:145), so this does not arise there.
- Logic.Store.RemoveMaterialFromProduct: the store does not require BOM line ids to be distinct, so with two lines sharing an id the model removes both where `.first()` removes one. The database's primary key keeps ids distinct, and the modelled operations only hand out fresh ids.
- An explicit `None` passed for `stock_qty` or `type` to `create_material` is not modelled. An absent `Option` means the argument was left at its default.
- The store uses one identifier counter for all tables. The database keeps one sequence per table; the difference is invisible to the operations modelled.
- Foreign keys to materials that do not exist are not checked when parts are added. The database does not check them either.
- The default `quantity_required` of 1 (models.py:63, 103) is not modelled. Every caller passes a quantity.
- StartProject.StartPanel: filling the project combo and the automatic first load (views/start_project.py:84-94) are left out. The selection is a parameter.
- StartProject.StartPanel.LoadProjectDetails: the blank trailing rows left by `setRowCount` when a load stops at a deleted material are not modelled. The loaded rows are modelled.
- StartProject.StartPanel.StartProject: does not state the rows after the final reload. It states the store, the error and the summary entry.
- ManageProjects.ProjectTable.OnItemChanged: Qt signals fired by `setItem` while the table is being built are not modelled. The `_building` guard is kept, but it is never true outside `Refresh`.
- ManageProjects.ProjectTable.OnItemChanged: an edit of the delivered column through a text cell does not recolour the indicator. This is what the source does; the column is a combo box, so it is reached through CommitStatus.
- Message boxes, widgets, the matplotlib drawing, worksheet export, migrations, sessions and commits, and concurrency are left out. Each operation is one atomic step.
