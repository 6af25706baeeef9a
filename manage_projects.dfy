/** The project plan table (views/manage_projects.py): one row per project
    that passes the search and status filters, a text cell per plain column,
    a status combo per stage column, a delete button and a colour indicator
    for delivery. Edits in the table write straight to the store. */
module ManageProjects {
  import opened Models
  import opened Text
  import opened Tables
  import opened Logic

  const StatusValues: seq<string> := ["-", "Ootel", "Töös", "Valmis"]

  /** The status filter's "no filter" entry. */
  const AnyStatus := "Kõik"

  /** Table columns 1 … 15, in order; column 0 holds the id. */
  const Fields: seq<Field> := [
    Delivery, Customer, OrderNumber, ProductName, Notes, Quantity,
    Afterone, Cutting, Laser, Bending, Drilling, Welding, Grinding, Coating, Delivered]

  const DelCol := |Fields| + 1
  const IndCol := |Fields| + 2

  const DefaultColor := "#F44336"
  const ColorMap: map<string, string> :=
    map["Valmis" := "#8BC34A", "Töös" := "#FFEB3B", "Ootel" := "#F44336", "-" := "#F44336"]

  // ───────── columns ─────────

  /** The column that shows a field. */
  function ColumnOf(f: Field): (col: nat)
    ensures 1 <= col <= |Fields| && Fields[col - 1] == f
  {
    match f
    case Delivery => 1 case Customer => 2 case OrderNumber => 3 case ProductName => 4
    case Notes => 5 case Quantity => 6 case Afterone => 7 case Cutting => 8
    case Laser => 9 case Bending => 10 case Drilling => 11 case Welding => 12
    case Grinding => 13 case Coating => 14 case Delivered => 15
  }

  /** Each field sits in exactly one column. */
  lemma ColumnsDistinct(f: Field, i: nat)
    requires i < |Fields|
    ensures Fields[i] == f <==> i == ColumnOf(f) - 1
  {
  }

  /** The field an edit of column `col` writes: none for the id, delete and
      indicator columns. */
  function EditedField(col: nat): (f: Option<Field>)
    requires col < |Fields| + 3
    ensures f.None? <==> col == 0 || col == DelCol || col == IndCol
    ensures f.Some? ==> ColumnOf(f.value) == col
  {
    if col == 0 || col == DelCol || col == IndCol then None
    else
      ColumnsDistinct(Fields[col - 1], col - 1);
      Some(Fields[col - 1])
  }

  /** The nine columns shown as status combos (afterone … delivered). */
  predicate IsStatusField(f: Field) {
    ColumnOf(f) >= 7
  }

  // ───────── what a row shows ─────────

  function OrEmpty(s: Option<string>): string {
    if s.None? then "" else s.value
  }

  /** A status combo starts on the stored value when it is one of the
      choices, and on the first choice otherwise. */
  function Preselect(v: string): (r: string)
    ensures r in StatusValues
    ensures v in StatusValues ==> r == v
    ensures v !in StatusValues ==> r == StatusValues[0]
  {
    if v in StatusValues then v else StatusValues[0]
  }

  /** The indicator colour of a delivery status; unknown values are red. */
  function IndicatorColor(delivered: string): (c: string)
    ensures c == "#8BC34A" <==> delivered == "Valmis"
    ensures c == "#FFEB3B" <==> delivered == "Töös"
    ensures delivered != "Valmis" && delivered != "Töös" ==> c == DefaultColor
  {
    if delivered in ColorMap then ColorMap[delivered] else DefaultColor
  }

  /** The text of one field's cell: empty for a missing value. */
  function FieldCell(p: Project, f: Field): string {
    match f
    case Delivery => OrEmpty(p.delivery)
    case Customer => OrEmpty(p.customer)
    case OrderNumber => OrEmpty(p.orderNumber)
    case ProductName => OrEmpty(p.product)
    case Notes => OrEmpty(p.notes)
    case Quantity => if p.quantity.None? then "" else IntToString(p.quantity.value)
    case Afterone => Preselect(p.afterone)
    case Cutting => Preselect(p.cutting)
    case Laser => Preselect(p.laser)
    case Bending => Preselect(p.bending)
    case Drilling => Preselect(p.drilling)
    case Welding => Preselect(p.welding)
    case Grinding => Preselect(p.grinding)
    case Coating => Preselect(p.coating)
    case Delivered => Preselect(p.delivered)
  }

  /** One table row: the id cell, the texts of columns 1 … 15 and the indicator. */
  datatype RowView = RowView(id: nat, cells: seq<string>, color: string)

  function View(p: Project): (v: RowView)
    ensures v.id == p.id && |v.cells| == |Fields|
    ensures forall i :: 0 <= i < |Fields| ==> v.cells[i] == FieldCell(p, Fields[i])
  {
    RowView(p.id, seq(|Fields|, i requires 0 <= i < |Fields| => FieldCell(p, Fields[i])), IndicatorColor(p.delivered))
  }

  function Views(ps: seq<Project>): (r: seq<RowView>)
    ensures |r| == |ps| && forall i :: 0 <= i < |ps| ==> r[i] == View(ps[i])
  {
    seq(|ps|, i requires 0 <= i < |ps| => View(ps[i]))
  }

  // ───────── editing a cell ─────────

  /** A value that reads back as itself once stored: any text for a text
      column, a decimal numeral or nothing for the quantity, one of the
      choices for a status column. */
  predicate Canonical(f: Field, v: string) {
    && (f == Quantity ==> v == "" || (ParseInt(v).Some? && IntToString(ParseInt(v).value) == v))
    && (IsStatusField(f) ==> v in StatusValues)
  }

  /** The edited cell shows the canonical value stored. */
  lemma SetFieldOwnCell(p: Project, f: Field, v: string)
    requires Canonical(f, v)
    ensures FieldCell(SetField(p, f, v), f) == v
  {
    if f == Quantity && v != "" {
      assert FieldCell(SetField(p, f, v), Quantity) == IntToString(ParseInt(v).value);
    }
  }

  /** Storing one field leaves every other field's cell, and the delivery
      status unless that is the field, as they were. */
  lemma SetFieldOtherCell(p: Project, f: Field, g: Field, v: string)
    requires f != g
    ensures FieldCell(SetField(p, f, v), g) == FieldCell(p, g)
    ensures g == Delivered ==> SetField(p, f, v).delivered == p.delivered
  {
  }

  /** Storing a canonical value changes the project's row in that one cell,
      which then shows the value, and in the indicator when the field is the
      delivery status. */
  lemma SetFieldView(p: Project, f: Field, v: string)
    requires Canonical(f, v)
    ensures var q := View(SetField(p, f, v));
      && q.id == p.id
      && q.cells == View(p).cells[ColumnOf(f) - 1 := v]
      && q.color == (if f == Delivered then IndicatorColor(v) else View(p).color)
  {
    var q := SetField(p, f, v);
    SetFieldOwnCell(p, f, v);
    forall g | g != f ensures FieldCell(q, g) == FieldCell(p, g) {
      SetFieldOtherCell(p, f, g, v);
    }
    CellsAfterOneEdit(p, q, f, v);
    if f != Delivered {
      SetFieldOtherCell(p, f, Delivered, v);
    }
  }

  /** Two projects whose cells differ in at most the column of `f` have rows
      that differ in at most that cell. */
  lemma CellsAfterOneEdit(p: Project, q: Project, f: Field, v: string)
    requires FieldCell(q, f) == v
    requires forall g :: g != f ==> FieldCell(q, g) == FieldCell(p, g)
    ensures View(q).cells == View(p).cells[ColumnOf(f) - 1 := v]
  {
    forall i | 0 <= i < |Fields| && i != ColumnOf(f) - 1 ensures View(q).cells[i] == View(p).cells[i] {
      ColumnsDistinct(f, i);
    }
  }

  /** Digits typed into the quantity cell are stored as their value and the
      cell is re-rendered from it: it reads back as typed exactly when the
      numeral has no leading zero ("07" comes back as "7"). */
  lemma QuantityIsNormalised(p: Project, typed: string)
    requires typed != [] && AllDigits(typed)
    ensures FieldCell(SetField(p, Quantity, typed), Quantity) == NatToString(DigitsValue(typed))
    ensures FieldCell(SetField(p, Quantity, typed), Quantity) == typed <==> (|typed| == 1 || typed[0] != '0')
  {
    assert typed[0] != '-';
    CanonicalDigits(typed);
  }

  // ───────── filtering ─────────

  /** The nine status values a project shows. */
  function StatusesOf(p: Project): (r: seq<string>)
    ensures |r| == 9 && r[8] == p.delivered
  {
    [p.afterone, p.cutting, p.laser, p.bending, p.drilling, p.welding, p.grinding, p.coating, p.delivered]
  }

  /** The row filter: the search term (lower-cased, stripped) must occur in
      the lower-cased customer or product, and the chosen status must be one
      of the project's nine statuses. */
  predicate Show(p: Project, search: string, need: string) {
    var term := Strip(Lower(search));
    && (term == [] || Contains(Lower(OrEmpty(p.customer)), term) || Contains(Lower(OrEmpty(p.product)), term))
    && (need == AnyStatus || need in StatusesOf(p))
  }

  /** The projects that pass the filter, in their original order. */
  function Visible(ps: seq<Project>, search: string, need: string): (r: seq<Project>)
    ensures |r| <= |ps|
    ensures forall p :: p in r <==> p in ps && Show(p, search, need)
  {
    if ps == [] then []
    else (if Show(ps[0], search, need) then [ps[0]] else []) + Visible(ps[1..], search, need)
  }

  predicate IdsIncreasing(ps: seq<Project>) {
    forall i, j :: 0 <= i < j < |ps| ==> ps[i].id < ps[j].id
  }

  /** Filtering keeps the id order. */
  lemma {:induction false} VisibleKeepsOrder(ps: seq<Project>, search: string, need: string)
    requires IdsIncreasing(ps)
    ensures IdsIncreasing(Visible(ps, search, need))
  {
    if ps != [] {
      VisibleKeepsOrder(ps[1..], search, need);
      var rest := Visible(ps[1..], search, need);
      forall j | 0 <= j < |rest| ensures ps[0].id < rest[j].id {
        assert rest[j] in ps[1..];
        var k :| 0 <= k < |ps[1..]| && ps[1..][k] == rest[j];
      }
    }
  }

  /** A search of blanks and no status filter show every project. */
  lemma BlankSearchShowsAll(p: Project, search: string)
    requires forall i :: 0 <= i < |search| ==> IsSpace(search[i])
    ensures Show(p, search, AnyStatus)
  {
    var low := Lower(search);
    assert forall i :: 0 <= i < |low| ==> IsSpace(low[i]);
    StripOfBlanks(low);
  }

  lemma {:induction false} StripOfBlanks(s: string)
    requires forall i :: 0 <= i < |s| ==> IsSpace(s[i])
    ensures Strip(s) == []
    decreases |s|
  {
    if s != [] {
      StripOfBlanks(s[1..]);
    }
  }

  /** The search ignores ASCII case: a search and its lower-cased form show
      the same rows. */
  lemma SearchIgnoresCase(p: Project, search: string, need: string)
    ensures Show(p, search, need) <==> Show(p, Lower(search), need)
  {
    assert Lower(Lower(search)) == Lower(search);
  }

  /** With no search, the status filter shows exactly the projects that have
      the chosen status in one of their nine columns. */
  lemma StatusFilterExact(p: Project, need: string)
    requires need != AnyStatus
    ensures Show(p, "", need) <==> exists i :: 0 <= i < 9 && StatusesOf(p)[i] == need
  {
    assert Lower("") == [];
    assert Strip([]) == [];
  }

  /** Fills one row, cell by cell. */
  method RenderRow(p: Project) returns (v: RowView)
    ensures v == View(p)
  {
    var cells: seq<string> := [];
    var i := 0;
    while i < |Fields|
      invariant 0 <= i <= |Fields| && |cells| == i
      invariant forall j :: 0 <= j < i ==> cells[j] == FieldCell(p, Fields[j])
    {
      cells := cells + [FieldCell(p, Fields[i])];
      i := i + 1;
    }
    v := RowView(p.id, cells, IndicatorColor(p.delivered));
  }

  /** The loop of `refresh` over the visible projects, one row each. */
  method RenderRows(visible: seq<Project>) returns (rows: seq<RowView>)
    ensures rows == Views(visible)
  {
    rows := [];
    var r := 0;
    while r < |visible|
      invariant 0 <= r <= |visible| && |rows| == r
      invariant forall j :: 0 <= j < r ==> rows[j] == View(visible[j])
    {
      var v := RenderRow(visible[r]);
      rows := rows + [v];
      r := r + 1;
    }
  }

  // ───────── the table ─────────

  class ProjectTable {
    const store: Store
    var tab: nat          // 0: the plan, 1: the add-project form
    var search: string
    var need: string
    var building: bool
    var rows: seq<RowView>

    ghost predicate Valid()
      reads this, store
    {
      && store.Valid() && !building
      && (forall r :: 0 <= r < |rows| ==> |rows[r].cells| == |Fields|)
      && forall i, j :: 0 <= i < j < |rows| ==> rows[i].id < rows[j].id
    }

    /** Every row of a project still in the store shows that project. */
    ghost predicate Coherent()
      reads this, store
    {
      forall r :: 0 <= r < |rows| && rows[r].id in store.projects ==> rows[r] == View(store.projects[rows[r].id])
    }

    constructor (s: Store)
      requires s.Valid()
      ensures Valid() && store == s && tab == 0 && search == "" && need == AnyStatus
      ensures rows == Views(Visible(s.GetProjects(), "", AnyStatus))
    {
      store := s;
      tab := 0;
      search := "";
      need := AnyStatus;
      building := false;
      rows := [];
      new;
      Refresh();
    }

    /** Rebuilds the rows from the store when the plan tab is showing. */
    method Refresh()
      requires Valid()
      modifies this`building, this`rows
      ensures Valid()
      ensures tab != 0 ==> rows == old(rows)
      ensures tab == 0 ==> rows == Views(Visible(store.GetProjects(), search, need)) && Coherent()
    {
      if tab == 0 {
        Rebuild();
      }
    }

    /** The body of `refresh`: one rendered row per visible project, built
        with edits switched off. */
    method Rebuild()
      requires Valid()
      modifies this`building, this`rows
      ensures Valid()
      ensures rows == Views(Visible(store.GetProjects(), search, need)) && Coherent()
    {
      building := true;
      var projects := store.GetProjects();
      var visible := Visible(projects, search, need);
      VisibleKeepsOrder(projects, search, need);
      var built := RenderRows(visible);
      ListedRowsCoherent(store.projects, visible, built);
      rows := built;
      building := false;
    }

    method SetSearch(text: string)
      requires Valid()
      modifies this`search, this`building, this`rows
      ensures Valid() && search == text
      ensures tab == 0 ==> rows == Views(Visible(store.GetProjects(), text, need))
      ensures tab != 0 ==> rows == old(rows)
    {
      search := text;
      Refresh();
    }

    method SetStatusFilter(choice: string)
      requires Valid()
      modifies this`need, this`building, this`rows
      ensures Valid() && need == choice
      ensures tab == 0 ==> rows == Views(Visible(store.GetProjects(), search, choice))
      ensures tab != 0 ==> rows == old(rows)
    {
      need := choice;
      Refresh();
    }

    /** Switching back to the plan tab refreshes it. */
    method SelectTab(index: nat)
      requires Valid()
      modifies this`tab, this`building, this`rows
      ensures Valid() && tab == index
      ensures index == 0 ==> rows == Views(Visible(store.GetProjects(), search, need))
      ensures index != 0 ==> rows == old(rows)
    {
      tab := index;
      if index == 0 {
        Refresh();
      }
    }

    /** A cell of a plain column was edited: the typed text goes to the
        project of that row. Edits of the id, delete and indicator columns,
        and edits while the table is being built, are ignored. */
    method OnItemChanged(row: nat, col: nat, text: string)
      requires Valid() && row < |rows| && col < |Fields| + 3
      modifies store`projects, this`rows
      ensures Valid()
      ensures building || EditedField(col).None? ==>
                store.projects == old(store.projects) && rows == old(rows)
      ensures !building && EditedField(col).Some? ==>
                var f := EditedField(col).value;
                var pid := old(rows)[row].id;
                && (pid in old(store.projects) ==>
                      store.projects == old(store.projects)[pid := SetField(old(store.projects)[pid], f, text)])
                && (pid !in old(store.projects) ==> store.projects == old(store.projects))
                && rows == old(rows)[row := old(rows)[row].(cells := old(rows)[row].cells[col - 1 := text])]
                && (old(Coherent()) && Canonical(f, text) && f != Delivered ==> Coherent())
    {
      var field := EditedField(col);
      if building || field.None? {
        return;
      }
      var pid := rows[row].id;
      ghost var before := store.projects;
      var updated := store.UpdateProjectField(pid, field.value, text);
      var shown := rows[row];
      rows := rows[row := shown.(cells := shown.cells[col - 1 := text])];
      EditKeepsCoherent(before, store.projects, old(rows), rows, row, field.value, text, false);
    }

    /** A status combo changed: the value goes to the project of that row, and
        a new delivery status recolours the indicator. */
    method CommitStatus(row: nat, col: nat, value: string)
      requires Valid() && row < |rows| && 1 <= col <= |Fields|
      modifies store`projects, this`rows
      ensures Valid()
      ensures var f := Fields[col - 1];
        var pid := old(rows)[row].id;
        var shown := old(rows)[row];
        && (pid in old(store.projects) ==>
              store.projects == old(store.projects)[pid := SetField(old(store.projects)[pid], f, value)])
        && (pid !in old(store.projects) ==> store.projects == old(store.projects))
        && rows == old(rows)[row := shown.(cells := shown.cells[col - 1 := value],
                                           color := if f == Delivered then IndicatorColor(value) else shown.color)]
        && (old(Coherent()) && Canonical(f, value) ==> Coherent())
    {
      var field := Fields[col - 1];
      ColumnsDistinct(field, col - 1);
      var pid := rows[row].id;
      ghost var before := store.projects;
      var updated := store.UpdateProjectField(pid, field, value);
      var shown := rows[row];
      var color := if field == Delivered then IndicatorColor(value) else shown.color;
      rows := rows[row := shown.(cells := shown.cells[col - 1 := value], color := color)];
      EditKeepsCoherent(before, store.projects, old(rows), rows, row, field, value, true);
    }

    /** After confirmation, deletes the project and refreshes the table. */
    method Delete(pid: nat, confirmed: bool)
      requires Valid()
      modifies store`projects, store`projectParts, this`building, this`rows
      ensures Valid()
      ensures !confirmed ==> store.projects == old(store.projects) && rows == old(rows)
      ensures confirmed ==> store.projects == old(store.projects) - {pid} && pid !in store.projects
      ensures confirmed && pid in old(store.projects) ==>
                store.projectParts == OtherProjectsLines(old(store.projectParts), pid)
      ensures !confirmed || pid !in old(store.projects) ==> store.projectParts == old(store.projectParts)
      ensures confirmed && tab == 0 ==>
                rows == Views(Visible(store.GetProjects(), search, need))
                && forall r :: 0 <= r < |rows| ==> rows[r].id != pid
    {
      if !confirmed {
        return;
      }
      store.DeleteProject(pid);
      Refresh();
      if tab == 0 {
        forall r | 0 <= r < |rows| ensures rows[r].id != pid {
          var visible := Visible(store.GetProjects(), search, need);
          assert visible[r] in store.GetProjects();
        }
      }
    }
  }

  /** Rows rendered from projects of the store show those projects. */
  lemma ListedRowsCoherent(m: map<nat, Project>, ps: seq<Project>, rows: seq<RowView>)
    requires forall p :: p in ps ==> p.id in m && m[p.id] == p
    requires rows == Views(ps)
    ensures forall r :: 0 <= r < |rows| && rows[r].id in m ==> rows[r] == View(m[rows[r].id])
  {
    forall r | 0 <= r < |rows| && rows[r].id in m ensures rows[r] == View(m[rows[r].id]) {
      assert ps[r] in ps;
    }
  }

  /** One edited cell (and, for a combo, the indicator) keeps the rows
      showing their projects when the stored value reads back as typed. */
  lemma EditKeepsCoherent(before: map<nat, Project>, after: map<nat, Project>,
                          rows: seq<RowView>, rows': seq<RowView>, row: nat, f: Field, v: string, recolor: bool)
    requires row < |rows| && |rows'| == |rows| && |rows[row].cells| == |Fields|
    requires forall i, j :: 0 <= i < j < |rows| ==> rows[i].id < rows[j].id
    requires rows[row].id in before ==> after == before[rows[row].id := SetField(before[rows[row].id], f, v)]
    requires rows[row].id !in before ==> after == before
    requires forall r :: 0 <= r < |rows| && r != row ==> rows'[r] == rows[r]
    requires rows'[row] == rows[row].(cells := rows[row].cells[ColumnOf(f) - 1 := v],
                                      color := if recolor && f == Delivered then IndicatorColor(v) else rows[row].color)
    ensures (forall r :: 0 <= r < |rows| && rows[r].id in before ==> rows[r] == View(before[rows[r].id]))
            && Canonical(f, v) && (recolor || f != Delivered)
            ==> forall r :: 0 <= r < |rows'| && rows'[r].id in after ==> rows'[r] == View(after[rows'[r].id])
  {
    if (forall r :: 0 <= r < |rows| && rows[r].id in before ==> rows[r] == View(before[rows[r].id]))
       && Canonical(f, v) && (recolor || f != Delivered) {
      var pid := rows[row].id;
      if pid in before {
        SetFieldView(before[pid], f, v);
      }
      forall r | 0 <= r < |rows'| && rows'[r].id in after ensures rows'[r] == View(after[rows'[r].id]) {
        if r != row {
          assert rows[r].id != pid;
        }
      }
    }
  }
}
