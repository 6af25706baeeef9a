/** The start-project panel (views/start_project.py): a per-part availability
    check for a run multiplier, and a start that runs the stock deduction n
    times in a row and then writes one summary history entry. */
module StartProject {
  import opened Models
  import opened Text
  import opened Tables
  import opened Logic

  /** Bounds of the run-multiplier spin box. */
  const MinRuns := 1
  const MaxRuns := 9999

  /** The status column of a part row: "Piisav", or "Puudus (n puudu)". */
  datatype RowStatus = Enough | Short(missing: int)

  /** One row of the parts table. */
  datatype PartRow = PartRow(materialId: nat, materialName: string, required: int, stock: int, status: RowStatus)

  /** The row shown for one part when the project is run `multiplier` times. */
  function RowFor(m: Material, part: ProjectPart, multiplier: int): (r: PartRow)
    ensures r.materialId == m.id && r.materialName == m.name && r.stock == m.stockQty
    ensures r.required == part.quantityRequired * multiplier
    ensures r.status == Enough <==> m.stockQty >= r.required
    ensures r.status.Short? ==> r.status.missing > 0 && r.stock + r.status.missing == r.required
  {
    var required := part.quantityRequired * multiplier;
    PartRow(m.id, m.name, required, m.stockQty,
            if m.stockQty >= required then Enough else Short(required - m.stockQty))
  }

  /** Every part's material exists. */
  predicate AllKnown(materials: map<nat, Material>, parts: seq<ProjectPart>) {
    forall i :: 0 <= i < |parts| ==> parts[i].materialId in materials
  }

  /** Every part's material exists and holds enough stock for `multiplier` runs. */
  predicate AllSufficient(materials: map<nat, Material>, parts: seq<ProjectPart>, multiplier: int) {
    forall i :: 0 <= i < |parts| ==>
      parts[i].materialId in materials && materials[parts[i].materialId].stockQty >= parts[i].quantityRequired * multiplier
  }

  /** The whole parts table. */
  function Rows(materials: map<nat, Material>, parts: seq<ProjectPart>, multiplier: int): (r: seq<PartRow>)
    requires AllKnown(materials, parts)
    ensures |r| == |parts|
  {
    seq(|parts|, i requires 0 <= i < |parts| => RowFor(materials[parts[i].materialId], parts[i], multiplier))
  }

  /** The start button is enabled exactly when every row says "Piisav". */
  lemma EnabledIffAllRowsEnough(materials: map<nat, Material>, parts: seq<ProjectPart>, multiplier: int)
    requires AllKnown(materials, parts)
    ensures AllSufficient(materials, parts, multiplier)
            <==> forall i :: 0 <= i < |parts| ==> Rows(materials, parts, multiplier)[i].status == Enough
  {
    var rows := Rows(materials, parts, multiplier);
    if forall i :: 0 <= i < |parts| ==> rows[i].status == Enough {
      forall i | 0 <= i < |parts|
        ensures materials[parts[i].materialId].stockQty >= parts[i].quantityRequired * multiplier
      {
        assert rows[i].status == Enough;
      }
    }
  }

  /** One more loaded row: the prefix facts of the loading loop carry over. */
  lemma RowsStep(materials: map<nat, Material>, parts: seq<ProjectPart>, multiplier: int, i: nat,
                 rows: seq<PartRow>, allAvailable: bool)
    requires i < |parts| && parts[i].materialId in materials
    requires AllKnown(materials, parts[..i]) && rows == Rows(materials, parts[..i], multiplier)
    requires allAvailable == AllSufficient(materials, parts[..i], multiplier)
    ensures AllKnown(materials, parts[..i + 1])
    ensures var row := RowFor(materials[parts[i].materialId], parts[i], multiplier);
      && rows + [row] == Rows(materials, parts[..i + 1], multiplier)
      && (allAvailable && row.status == Enough <==> AllSufficient(materials, parts[..i + 1], multiplier))
  {
    assert forall j :: 0 <= j < i ==> parts[..i][j] == parts[..i + 1][j];
  }

  // ───────── running the deduction n times ─────────

  /** What n consecutive deductions leave behind: the store, how many runs
      completed, and the error of the run that failed, if one did. */
  datatype Runs = Runs(db: Db, completed: nat, failure: Option<StockError>)

  /** Runs the deduction up to n times; each run sees the store the previous
      runs left, and the first failing run ends the sequence. */
  function RunTimes(db: Db, pid: nat, n: nat): (r: Runs)
    requires UniqueProductNames(db.products)
    ensures r.completed <= n
    ensures r.failure.None? <==> r.completed == n
    ensures r.db.products == db.products
    decreases n
  {
    if n == 0 then Runs(db, 0, None)
    else
      var s := Deduct(db, pid);
      match s.outcome
      case Err(e) => Runs(s.db, 0, Some(e))
      case Ok(_) =>
        var rest := RunTimes(s.db, pid, n - 1);
        Runs(rest.db, rest.completed + 1, rest.failure)
  }

  /** A failed start keeps the runs before the failing one: the store is what
      the completed runs left, followed by the failing run (whose only lasting
      effect is deriving parts). */
  lemma {:induction false} FailureKeepsEarlierRuns(db: Db, pid: nat, n: nat)
    requires UniqueProductNames(db.products)
    ensures var r := RunTimes(db, pid, n);
      r.failure.Some? ==>
        var before := RunTimes(db, pid, r.completed);
        && before.failure.None?
        && Deduct(before.db, pid) == Step(r.db, Err(r.failure.value))
    decreases n
  {
    if n > 0 {
      var s := Deduct(db, pid);
      if s.outcome.Ok? {
        RunTimesAfterOk(db, pid, n);
        FailureKeepsEarlierRuns(s.db, pid, n - 1);
        var k := RunTimes(s.db, pid, n - 1).completed;
        RunTimesAfterOk(db, pid, k + 1);
      } else {
        RunTimesAfterErr(db, pid, n);
      }
    }
  }

  /** A project that already has parts gets none derived. */
  lemma EnsurePartsKeepsExisting(db: Db, pid: nat)
    requires UniqueProductNames(db.products)
    requires ProjectLines(db.projectParts, pid) != []
    ensures EnsureParts(db, pid) == db
  {
  }

  /** One successful run with distinct materials lowers each part's material by
      that part's quantity. */
  lemma OneRunOfDistinct(db: Db, pid: nat)
    requires UniqueProductNames(db.products)
    requires var parts := ProjectLines(db.projectParts, pid);
      parts != [] && DistinctMaterials(parts) && Covered(db.materials, parts)
    ensures var parts := ProjectLines(db.projectParts, pid);
      var s := Deduct(db, pid);
      && s.outcome == Ok(true)
      && s.db.products == db.products && s.db.projectParts == db.projectParts
      && s.db.materials.Keys == db.materials.Keys
      && forall i :: 0 <= i < |parts| ==>
           s.db.materials[parts[i].materialId].stockQty
           == db.materials[parts[i].materialId].stockQty - parts[i].quantityRequired
  {
    var parts := ProjectLines(db.projectParts, pid);
    EnsurePartsKeepsExisting(db, pid);
    assert PartsToDeduct(db, pid) == parts;
    DeductAllOrNothing(db, pid);
    DeductApplies(db, pid);
    forall i | 0 <= i < |parts|
      ensures Deduct(db, pid).db.materials[parts[i].materialId].stockQty
              == db.materials[parts[i].materialId].stockQty - parts[i].quantityRequired
    {
      DemandOfDistinct(parts, parts[i].materialId);
    }
  }

  lemma RunArithmetic(q: int, n: int)
    requires n >= 1 && q >= 0
    ensures q * n >= q && q * n - q == q * (n - 1) && n * q == q + (n - 1) * q
  {
  }

  /** Stock for n runs (n ≥ 1) of non-negative quantities covers one run. */
  lemma SufficientCovers(materials: map<nat, Material>, parts: seq<ProjectPart>, n: nat)
    requires n >= 1 && (forall i :: 0 <= i < |parts| ==> parts[i].quantityRequired >= 0)
    requires AllSufficient(materials, parts, n)
    ensures Covered(materials, parts)
  {
    forall i | 0 <= i < |parts| ensures PartCovered(materials, parts[i]) {
      RunArithmetic(parts[i].quantityRequired, n);
    }
  }

  /** After one run, the stock left is sufficient for the remaining n - 1. */
  lemma SufficientAfterOneRun(db: Db, pid: nat, n: nat)
    requires UniqueProductNames(db.products)
    requires var parts := ProjectLines(db.projectParts, pid);
      && n >= 1 && parts != [] && DistinctMaterials(parts)
      && (forall i :: 0 <= i < |parts| ==> parts[i].quantityRequired >= 0)
      && AllSufficient(db.materials, parts, n)
    ensures var parts := ProjectLines(db.projectParts, pid);
      var s := Deduct(db, pid);
      && s.outcome == Ok(true)
      && s.db.products == db.products && s.db.projectParts == db.projectParts
      && AllSufficient(s.db.materials, parts, n - 1)
      && LoweredOnce(db.materials, s.db.materials, parts)
  {
    var parts := ProjectLines(db.projectParts, pid);
    SufficientCovers(db.materials, parts, n);
    OneRunOfDistinct(db, pid);
    var s := Deduct(db, pid);
    forall i | 0 <= i < |parts|
      ensures parts[i].materialId in s.db.materials
      ensures s.db.materials[parts[i].materialId].stockQty >= parts[i].quantityRequired * (n - 1)
    {
      RunArithmetic(parts[i].quantityRequired, n);
    }
  }

  /** Each part's material is one quantity lower in `after`. */
  ghost predicate LoweredOnce(before: map<nat, Material>, after: map<nat, Material>, parts: seq<ProjectPart>) {
    forall i :: 0 <= i < |parts| ==>
      && parts[i].materialId in before && parts[i].materialId in after
      && after[parts[i].materialId].stockQty == before[parts[i].materialId].stockQty - parts[i].quantityRequired
  }

  /** Each part's material is n quantities lower in `after`, and not negative. */
  ghost predicate Lowered(before: map<nat, Material>, after: map<nat, Material>, parts: seq<ProjectPart>, n: nat) {
    forall i :: 0 <= i < |parts| ==>
      && parts[i].materialId in before && parts[i].materialId in after
      && after[parts[i].materialId].stockQty == before[parts[i].materialId].stockQty - n * parts[i].quantityRequired
      && after[parts[i].materialId].stockQty >= 0
  }

  lemma LoweredCompose(m0: map<nat, Material>, m1: map<nat, Material>, m2: map<nat, Material>,
                       parts: seq<ProjectPart>, n: nat)
    requires n >= 1 && LoweredOnce(m0, m1, parts) && Lowered(m1, m2, parts, n - 1)
    ensures Lowered(m0, m2, parts, n)
  {
    forall i | 0 <= i < |parts|
      ensures m2[parts[i].materialId].stockQty == m0[parts[i].materialId].stockQty - n * parts[i].quantityRequired
    {
      var m := parts[i].materialId;
      RunsCompose(m0[m].stockQty, m1[m].stockQty, m2[m].stockQty, parts[i].quantityRequired, n);
    }
  }

  /** When every row is sufficient for n runs, the parts name distinct
      materials and no quantity is negative, all n runs succeed and each
      part's material ends n times its quantity lower, never below zero. */
  lemma {:induction false} SufficientRowsRunAll(db: Db, pid: nat, n: nat)
    requires UniqueProductNames(db.products)
    requires var parts := ProjectLines(db.projectParts, pid);
      && parts != [] && DistinctMaterials(parts)
      && (forall i :: 0 <= i < |parts| ==> parts[i].quantityRequired >= 0)
      && AllSufficient(db.materials, parts, n)
    ensures var r := RunTimes(db, pid, n);
      && r.failure.None? && r.completed == n
      && r.db.projectParts == db.projectParts
      && Lowered(db.materials, r.db.materials, ProjectLines(db.projectParts, pid), n)
    decreases n
  {
    var parts := ProjectLines(db.projectParts, pid);
    if n == 0 {
      RunTimesZero(db, pid);
      NothingLowered(db.materials, parts);
      assert RunTimes(db, pid, n).failure.None?;
    } else {
      SufficientAfterOneRun(db, pid, n);
      SufficientRowsRunAll(Deduct(db, pid).db, pid, n - 1);
      RunAllStep(db, pid, n, parts);
    }
  }

  /** The first run lowers each material once and the other n - 1 runs lower
      it n - 1 times more. */
  lemma RunAllStep(db: Db, pid: nat, n: nat, parts: seq<ProjectPart>)
    requires UniqueProductNames(db.products) && n >= 1
    requires parts == ProjectLines(db.projectParts, pid)
    requires var s := Deduct(db, pid);
      && s.outcome.Ok? && s.db.products == db.products && s.db.projectParts == db.projectParts
      && LoweredOnce(db.materials, s.db.materials, parts)
      && var rest := RunTimes(s.db, pid, n - 1);
         && rest.failure.None? && rest.completed == n - 1 && rest.db.projectParts == db.projectParts
         && Lowered(s.db.materials, rest.db.materials, parts, n - 1)
    ensures var r := RunTimes(db, pid, n);
      && r.failure.None? && r.completed == n
      && r.db.projectParts == db.projectParts
      && Lowered(db.materials, r.db.materials, parts, n)
  {
    var s := Deduct(db, pid);
    var rest := RunTimes(s.db, pid, n - 1);
    RunTimesAfterOk(db, pid, n);
    assert RunTimes(db, pid, n) == Runs(rest.db, rest.completed + 1, rest.failure);
    LoweredCompose(db.materials, s.db.materials, rest.db.materials, parts, n);
  }

  lemma NothingLowered(materials: map<nat, Material>, parts: seq<ProjectPart>)
    requires AllSufficient(materials, parts, 0)
    requires forall i :: 0 <= i < |parts| ==> parts[i].quantityRequired >= 0
    ensures Lowered(materials, materials, parts, 0)
  {
    forall i | 0 <= i < |parts| ensures materials[parts[i].materialId].stockQty >= 0 {
      assert parts[i].quantityRequired * 0 == 0;
    }
  }

  /** A store where order 1 names product "Widget" (one Bolt per unit, no Bolt
      in stock) and has no parts derived yet. */
  function UnderivedStore(): Db {
    Db(map[], map[2 := Product(2, "Widget", "", "", None)], {},
       map[3 := Material(3, "Bolt", 0, GeneralKind, NoTubeDetails)], [ProductPart(4, 2, 3, 1)],
       map[1 := NewProject(1, "Order", "", ProjectInit(None, None, None, Some("Widget"), None, None))], [], [], 5)
  }

  /** Loading does not derive parts: a project without them shows an empty
      table with the start button enabled, and its first run then derives the
      parts and fails on them. */
  lemma UnderivedProjectStartsEnabledThenFails()
    ensures var db := UnderivedStore();
      && UniqueProductNames(db.products)
      && ProjectLines(db.projectParts, 1) == []
      && AllSufficient(db.materials, ProjectLines(db.projectParts, 1), MinRuns)
      && Deduct(db, 1).outcome == Err(InsufficientStock(ByName("Bolt")))
      && ProjectLines(Deduct(db, 1).db.projectParts, 1) == [ProjectPart(5, 1, 3, 1)]
  {
    var db := UnderivedStore();
    assert 2 in db.products && db.products[2].name == "Widget";
    assert ProductNamed(db.products, "Widget") == Some(2);
    assert ProductLines(db.productParts, 2) == [ProductPart(4, 2, 3, 1)];
    var d := EnsureParts(db, 1);
    assert d.projectParts == [ProjectPart(5, 1, 3, 1)];
    assert ProjectLines(d.projectParts, 1) == [ProjectPart(5, 1, 3, 1)];
  }

  lemma RunTimesZero(db: Db, pid: nat)
    requires UniqueProductNames(db.products)
    ensures RunTimes(db, pid, 0) == Runs(db, 0, None)
  {
  }

  /** After k of the runs, the remaining m runs from `db` end where all of
      them (`all`) end. */
  ghost predicate Tracks(all: Runs, db: Db, pid: nat, m: nat, k: nat) {
    && UniqueProductNames(db.products)
    && var rest := RunTimes(db, pid, m);
       rest.db == all.db && rest.failure == all.failure && rest.completed + k == all.completed
  }

  lemma TracksStep(all: Runs, db: Db, pid: nat, m: nat, k: nat)
    requires Tracks(all, db, pid, m, k) && m >= 1 && Deduct(db, pid).outcome.Ok?
    ensures Tracks(all, Deduct(db, pid).db, pid, m - 1, k + 1)
  {
    RunTimesAfterOk(db, pid, m);
  }

  lemma TracksFailure(all: Runs, db: Db, pid: nat, m: nat, k: nat)
    requires Tracks(all, db, pid, m, k) && m >= 1 && Deduct(db, pid).outcome.Err?
    ensures all.db == Deduct(db, pid).db && all.failure == Some(Deduct(db, pid).outcome.error)
  {
    RunTimesAfterErr(db, pid, m);
  }

  lemma TracksDone(all: Runs, db: Db, pid: nat, k: nat)
    requires Tracks(all, db, pid, 0, k)
    ensures all.db == db && all.failure.None?
  {
    RunTimesZero(db, pid);
  }

  /** A run that succeeds is followed by the remaining n - 1. */
  lemma RunTimesAfterOk(db: Db, pid: nat, n: nat)
    requires UniqueProductNames(db.products) && n >= 1 && Deduct(db, pid).outcome.Ok?
    ensures var rest := RunTimes(Deduct(db, pid).db, pid, n - 1);
      RunTimes(db, pid, n) == Runs(rest.db, rest.completed + 1, rest.failure)
  {
  }

  /** A run that fails ends the start with that run's store and error. */
  lemma RunTimesAfterErr(db: Db, pid: nat, n: nat)
    requires UniqueProductNames(db.products) && n >= 1 && Deduct(db, pid).outcome.Err?
    ensures RunTimes(db, pid, n) == Runs(Deduct(db, pid).db, 0, Some(Deduct(db, pid).outcome.error))
  {
  }

  /** One run of q followed by n - 1 more runs of q is n runs of q. */
  lemma RunsCompose(a: int, b: int, c: int, q: int, n: nat)
    requires n >= 1 && b == a - q && c == b - (n - 1) * q
    ensures c == a - n * q
  {
  }

  // ───────── the summary entry ─────────

  const StartedAction := "Projekt Käivitatud"

  /** The combo-box text of a project: "name - description". */
  function Label(p: Project): string {
    p.name + " - " + p.description
  }

  /** The first position at or after k where " - " starts, or |s|. */
  function SeparatorAt(s: string, k: nat): (i: nat)
    requires k <= |s|
    ensures k <= i <= |s|
    ensures i == |s| || IsAt(s, " - ", i)
    ensures forall j :: k <= j < i ==> !IsAt(s, " - ", j)
    decreases |s| - k
  {
    if k + 3 > |s| then |s|
    else if s[k..k + 3] == " - " then k
    else SeparatorAt(s, k + 1)
  }

  /** `caption.split(" - ")[0]`: the text before the first " - ", or all of it. */
  function NameOf(caption: string): (r: string)
    ensures |r| <= |caption| && r == caption[..|r|]
    ensures |r| == |caption| || IsAt(caption, " - ", |r|)
    ensures forall k :: 0 <= k < |r| ==> !IsAt(caption, " - ", k)
  {
    caption[..SeparatorAt(caption, 0)]
  }

  /** The summary names the project exactly when neither the name nor the
      name followed by the separator's blank holds " - " (a name ending in
      " -" runs into the separator and is cut one word early). */
  lemma NameOfLabel(p: Project)
    ensures NameOf(Label(p)) == p.name <==> !Contains(p.name + " ", " - ")
  {
    var caption, n := Label(p), |p.name|;
    var padded := p.name + " ";
    assert caption[..n + 1] == padded;
    if !Contains(padded, " - ") {
      assert IsAt(caption, " - ", n) by {
        assert caption[n..n + 3] == " - ";
      }
      forall k | 0 <= k < n ensures !IsAt(caption, " - ", k) {
        if k + 3 <= n + 1 {
          assert caption[k..k + 3] == padded[k..k + 3];
          assert !IsAt(padded, " - ", k);
        } else {
          assert caption[k + 1] == ' ';
          assert caption[k..k + 3][1] == caption[k + 1];
        }
      }
      assert SeparatorAt(caption, 0) == n;
      assert caption[..n] == p.name;
    } else {
      var k :| 0 <= k <= |padded| - 3 && IsAt(padded, " - ", k);
      assert caption[k..k + 3] == padded[k..k + 3];
      assert IsAt(caption, " - ", k);
      assert |NameOf(caption)| <= k < n;
    }
  }

  /** A name that itself holds " - " is cut short in the summary: the
      summary then names only the text before its first separator. */
  lemma DashedNameIsCut(p: Project, k: nat)
    requires IsAt(p.name, " - ", k)
    ensures |NameOf(Label(p))| <= k < |p.name|
    ensures NameOf(Label(p)) != p.name
  {
    var caption := Label(p);
    assert caption[k..k + 3] == p.name[k..k + 3];
    assert IsAt(caption, " - ", k);
  }

  /** The history row written once all runs succeeded. */
  function Summary(name: string, n: int): (h: History)
    ensures h.projectId.None? && h.action == StartedAction
  {
    History(None, StartedAction, "Käivitas projekti: " + name + " x" + IntToString(n))
  }

  /** The loop that fills the parts table, one row per part in order;
      it stops at the first part whose material no longer exists. */
  method BuildRows(materials: map<nat, Material>, parts: seq<ProjectPart>, multiplier: int)
    returns (ok: bool, rows: seq<PartRow>, allAvailable: bool)
    ensures ok <==> AllKnown(materials, parts)
    ensures ok ==> rows == Rows(materials, parts, multiplier)
                   && allAvailable == AllSufficient(materials, parts, multiplier)
    ensures !ok ==> |rows| < |parts| && AllKnown(materials, parts[..|rows|])
                    && rows == Rows(materials, parts[..|rows|], multiplier)
                    && parts[|rows|].materialId !in materials
  {
    rows := [];
    allAvailable := true;
    var i := 0;
    while i < |parts|
      invariant 0 <= i <= |parts| && |rows| == i
      invariant AllKnown(materials, parts[..i])
      invariant rows == Rows(materials, parts[..i], multiplier)
      invariant allAvailable == AllSufficient(materials, parts[..i], multiplier)
    {
      var part := parts[i];
      if part.materialId !in materials {
        return false, rows, allAvailable;
      }
      var row := RowFor(materials[part.materialId], part, multiplier);
      RowsStep(materials, parts, multiplier, i, rows, allAvailable);
      rows := rows + [row];
      if row.status.Short? {
        allAvailable := false;
      }
      i := i + 1;
    }
    assert parts[..i] == parts;
    ok := true;
  }

  /** The start loop (start_project.py:173-174): deduct n times, stopping at
      the first shortfall, with everything each call did kept. */
  method DeductRuns(store: Store, pid: nat, n: nat) returns (failure: Option<StockError>)
    requires store.Valid()
    modifies store
    ensures store.Valid()
    ensures store.State() == RunTimes(old(store.State()), pid, n).db
    ensures failure == RunTimes(old(store.State()), pid, n).failure
  {
    ghost var all := RunTimes(store.State(), pid, n);
    var k := 0;
    while k < n
      invariant 0 <= k <= n
      invariant store.Valid()
      invariant Tracks(all, store.State(), pid, n - k, k)
    {
      ghost var before := store.State();
      var r := store.StartProjectDeductInventory(pid);
      if r.Err? {
        TracksFailure(all, before, pid, n - k, k);
        return Some(r.error);
      }
      TracksStep(all, before, pid, n - k, k);
      k := k + 1;
    }
    TracksDone(all, store.State(), pid, n);
    failure := None;
  }

  // ───────── the panel ─────────

  /** The widget state: the combo's selection, the spin box, the loaded
      project, the button and the parts table. */
  class StartPanel {
    const store: Store
    var selection: Option<nat>
    var multiplier: int
    var currentProjectId: Option<nat>
    var startEnabled: bool
    var rows: seq<PartRow>

    ghost predicate Valid()
      reads this, store
    {
      store.Valid() && MinRuns <= multiplier <= MaxRuns
    }

    constructor (s: Store)
      requires s.Valid()
      ensures Valid() && store == s
      ensures selection == None && multiplier == MinRuns && currentProjectId == None
      ensures !startEnabled && rows == []
    {
      store := s;
      selection := None;
      multiplier := MinRuns;
      currentProjectId := None;
      startEnabled := false;
      rows := [];
    }

    /** The spin box clamps the value into its range. */
    method SetMultiplier(v: int)
      requires Valid()
      modifies this`multiplier
      ensures Valid()
      ensures multiplier == if v < MinRuns then MinRuns else if v > MaxRuns then MaxRuns else v
    {
      multiplier := if v < MinRuns then MinRuns else if v > MaxRuns then MaxRuns else v;
    }

    /** A new selection disables the start button and clears the table. */
    method OnProjectSelected(choice: Option<nat>)
      requires Valid()
      modifies this`selection, this`startEnabled, this`rows
      ensures Valid()
      ensures selection == choice && !startEnabled && rows == []
    {
      selection := choice;
      startEnabled := false;
      rows := [];
    }

    /** Loads the selected project's rows and enables the start button when
        every row is sufficient. A part whose material no longer exists stops
        the load (`ok` false) with the rows built so far. */
    method LoadProjectDetails() returns (ok: bool)
      requires Valid()
      modifies this`currentProjectId, this`rows, this`startEnabled
      ensures Valid()
      ensures selection.None? ==>
                !ok && currentProjectId == old(currentProjectId) && rows == old(rows) && startEnabled == old(startEnabled)
      ensures selection.Some? ==>
                var parts := ProjectLines(store.projectParts, selection.value);
                && currentProjectId == selection
                && (ok <==> AllKnown(store.materials, parts))
                && (ok ==> rows == Rows(store.materials, parts, multiplier)
                           && startEnabled == AllSufficient(store.materials, parts, multiplier))
                && (!ok ==> |rows| < |parts| && AllKnown(store.materials, parts[..|rows|])
                            && rows == Rows(store.materials, parts[..|rows|], multiplier)
                            && parts[|rows|].materialId !in store.materials
                            && startEnabled == old(startEnabled))
    {
      if selection.None? {
        return false;
      }
      currentProjectId := selection;
      var parts := ProjectLines(store.projectParts, selection.value);
      var built, allAvailable;
      ok, built, allAvailable := BuildRows(store.materials, parts, multiplier);
      rows := built;
      if ok {
        startEnabled := allAvailable;
      }
    }

    /** Runs the deduction `multiplier` times, then logs the summary and
        reloads the table. Without a loaded project, or without
        confirmation, nothing changes; the first failing run ends the start
        with its error, keeping the runs before it and writing no summary. */
    method StartProject(confirmed: bool, caption: string) returns (error: Option<StockError>)
      requires Valid()
      modifies store, this`currentProjectId, this`rows, this`startEnabled
      ensures Valid()
      ensures old(currentProjectId).None? || !confirmed ==>
                error == None && store.State() == old(store.State()) && rows == old(rows)
      ensures old(currentProjectId).Some? && confirmed ==>
                var runs := RunTimes(old(store.State()), old(currentProjectId).value, multiplier);
                && error == runs.failure
                && (runs.failure.Some? ==> store.State() == runs.db && rows == old(rows))
                && (runs.failure.None? ==>
                      store.State() == runs.db.(history := runs.db.history + [Summary(NameOf(caption), multiplier)]))
    {
      if currentProjectId.None? || !confirmed {
        return None;
      }
      var pid := currentProjectId.value;
      var n := multiplier;
      var failure := DeductRuns(store, pid, n);
      if failure.Some? {
        return failure;
      }
      store.AddHistoryEntry(StartedAction, "Käivitas projekti: " + NameOf(caption) + " x" + IntToString(n), None);
      var loaded := LoadProjectDetails();
      error := None;
    }
  }
}
