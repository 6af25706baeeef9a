/** The store as a value: every table of models.py in one snapshot, the
    invariants the schema and the operations keep, and the pure specifications
    of the composite operations of logic.py: deriving a project's parts from a
    product's bill of materials and the validate-then-apply stock deduction. */
module Tables {
  import opened Models
  import opened Text

  /** One snapshot of the whole store. Every row gets its id from `nextId`. */
  datatype Db = Db(
    categories: map<nat, Category>,
    products: map<nat, Product>,
    productCategories: set<(nat, nat)>,     // (product id, category id)
    materials: map<nat, Material>,
    productParts: seq<ProductPart>,
    projects: map<nat, Project>,
    projectParts: seq<ProjectPart>,
    history: seq<History>,
    nextId: nat)

  // ───────── invariants ─────────

  ghost predicate KeysAreIds(db: Db) {
    && (forall k :: k in db.categories ==> db.categories[k].id == k && k < db.nextId)
    && (forall k :: k in db.products ==> db.products[k].id == k && k < db.nextId)
    && (forall k :: k in db.materials ==> db.materials[k].id == k && k < db.nextId)
    && (forall k :: k in db.projects ==> db.projects[k].id == k && k < db.nextId)
  }

  predicate UniqueCategoryNames(m: map<nat, Category>) {
    forall j, k :: j in m && k in m && m[j].name == m[k].name ==> j == k
  }

  predicate UniqueProductNames(m: map<nat, Product>) {
    forall j, k :: j in m && k in m && m[j].name == m[k].name ==> j == k
  }

  predicate UniqueMaterialNames(m: map<nat, Material>) {
    forall j, k :: j in m && k in m && m[j].name == m[k].name ==> j == k
  }

  ghost predicate ProductPartIds(lines: seq<ProductPart>, nextId: nat) {
    forall l :: l in lines ==> l.id < nextId
  }

  ghost predicate ProjectPartIds(lines: seq<ProjectPart>, nextId: nat) {
    forall l :: l in lines ==> l.id < nextId
  }

  /** At most one bill-of-materials line per (product, material) pair. */
  predicate UniqueBomLines(lines: seq<ProductPart>) {
    forall i, j :: 0 <= i < j < |lines| ==>
      !(lines[i].productId == lines[j].productId && lines[i].materialId == lines[j].materialId)
  }

  /** Project parts belong to an existing project (they are deleted with it). */
  ghost predicate PartsOwned(db: Db) {
    forall l :: l in db.projectParts ==> l.projectId in db.projects
  }

  ghost predicate LinksExist(db: Db) {
    forall pc :: pc in db.productCategories ==> pc.0 in db.products && pc.1 in db.categories
  }

  ghost predicate Valid(db: Db) {
    && KeysAreIds(db)
    && UniqueCategoryNames(db.categories)
    && UniqueProductNames(db.products)
    && UniqueMaterialNames(db.materials)
    && ProductPartIds(db.productParts, db.nextId)
    && ProjectPartIds(db.projectParts, db.nextId)
    && UniqueBomLines(db.productParts)
    && PartsOwned(db)
    && LinksExist(db)
  }

  // ───────── lookups by name (`filter_by(name=...).first()`) ─────────

  predicate HasCategoryNamed(m: map<nat, Category>, name: string) {
    exists k :: k in m && m[k].name == name
  }

  function CategoryNamed(m: map<nat, Category>, name: string): (r: Option<nat>)
    requires UniqueCategoryNames(m)
    ensures r.Some? ==> r.value in m && m[r.value].name == name
    ensures r.None? <==> !HasCategoryNamed(m, name)
  {
    if exists k :: k in m && m[k].name == name then
      Some(var k :| k in m && m[k].name == name; k)
    else None
  }

  function ProductNamed(m: map<nat, Product>, name: string): (r: Option<nat>)
    requires UniqueProductNames(m)
    ensures r.Some? ==> r.value in m && m[r.value].name == name
    ensures r.None? ==> forall k :: k in m ==> m[k].name != name
  {
    if exists k :: k in m && m[k].name == name then
      Some(var k :| k in m && m[k].name == name; k)
    else None
  }

  function MaterialNamed(m: map<nat, Material>, name: string): (r: Option<nat>)
    requires UniqueMaterialNames(m)
    ensures r.Some? ==> r.value in m && m[r.value].name == name
    ensures r.None? ==> forall k :: k in m ==> m[k].name != name
  {
    if exists k :: k in m && m[k].name == name then
      Some(var k :| k in m && m[k].name == name; k)
    else None
  }

  // ───────── bill-of-materials lines ─────────

  /** The lines of one product, in table order (get_product_parts). */
  function ProductLines(lines: seq<ProductPart>, productId: nat): (r: seq<ProductPart>)
    ensures |r| <= |lines|
    ensures forall l :: l in r <==> l in lines && l.productId == productId
    decreases |lines|
  {
    if lines == [] then []
    else (if lines[0].productId == productId then [lines[0]] else []) + ProductLines(lines[1..], productId)
  }

  /** The lines of one project, in table order (get_project_parts). */
  function ProjectLines(lines: seq<ProjectPart>, projectId: nat): (r: seq<ProjectPart>)
    ensures |r| <= |lines|
    ensures forall l :: l in r <==> l in lines && l.projectId == projectId
    decreases |lines|
  {
    if lines == [] then []
    else (if lines[0].projectId == projectId then [lines[0]] else []) + ProjectLines(lines[1..], projectId)
  }

  /** Reading a product's lines from two tables in a row reads each in turn: the
      lines keep their table order. */
  lemma {:induction false} ProductLinesAppend(a: seq<ProductPart>, b: seq<ProductPart>, id: nat)
    ensures ProductLines(a + b, id) == ProductLines(a, id) + ProductLines(b, id)
    decreases |a|
  {
    if a != [] {
      assert (a + b)[1..] == a[1..] + b;
      ProductLinesAppend(a[1..], b, id);
    } else {
      assert a + b == b;
    }
  }

  lemma {:induction false} ProjectLinesAppend(a: seq<ProjectPart>, b: seq<ProjectPart>, pid: nat)
    ensures ProjectLines(a + b, pid) == ProjectLines(a, pid) + ProjectLines(b, pid)
    decreases |a|
  {
    if a != [] {
      assert (a + b)[1..] == a[1..] + b;
      ProjectLinesAppend(a[1..], b, pid);
    } else {
      assert a + b == b;
    }
  }

  /** Index of the first line for the pair (the `.first()` of add_material_to_product). */
  function FindLine(lines: seq<ProductPart>, productId: nat, materialId: nat): (r: Option<nat>)
    ensures r.Some? ==> r.value < |lines| && lines[r.value].productId == productId
                        && lines[r.value].materialId == materialId
    ensures r.Some? ==> forall i :: 0 <= i < r.value ==>
                          !(lines[i].productId == productId && lines[i].materialId == materialId)
    ensures r.None? ==> forall i :: 0 <= i < |lines| ==>
                          !(lines[i].productId == productId && lines[i].materialId == materialId)
    decreases |lines|
  {
    if lines == [] then None
    else if lines[0].productId == productId && lines[0].materialId == materialId then Some(0)
    else match FindLine(lines[1..], productId, materialId)
      case Some(i) => Some(i + 1)
      case None => None
  }

  /** The bill of materials after adding `qty` of a material to a product: an
      existing line accumulates, otherwise one line is appended. */
  function WithMaterial(lines: seq<ProductPart>, productId: nat, materialId: nat, qty: int, freshId: nat)
    : seq<ProductPart>
  {
    match FindLine(lines, productId, materialId)
    case Some(i) => lines[i := lines[i].(quantityRequired := lines[i].quantityRequired + qty)]
    case None => lines + [ProductPart(freshId, productId, materialId, qty)]
  }

  /** Total quantity the lines require of one material for one product. */
  function PairQuantity(lines: seq<ProductPart>, productId: nat, materialId: nat): int
    decreases |lines|
  {
    if lines == [] then 0
    else (if lines[0].productId == productId && lines[0].materialId == materialId
          then lines[0].quantityRequired else 0)
         + PairQuantity(lines[1..], productId, materialId)
  }

  /** Number of lines for one (product, material) pair. */
  function PairCount(lines: seq<ProductPart>, productId: nat, materialId: nat): nat
    decreases |lines|
  {
    if lines == [] then 0
    else (if lines[0].productId == productId && lines[0].materialId == materialId then 1 else 0)
         + PairCount(lines[1..], productId, materialId)
  }

  lemma {:induction false} PairSumsUpdate(lines: seq<ProductPart>, i: nat, x: ProductPart, p: nat, m: nat)
    requires i < |lines|
    requires x.productId == lines[i].productId && x.materialId == lines[i].materialId
    ensures PairQuantity(lines[i := x], p, m) ==
            PairQuantity(lines, p, m)
            + (if x.productId == p && x.materialId == m then x.quantityRequired - lines[i].quantityRequired else 0)
    ensures PairCount(lines[i := x], p, m) == PairCount(lines, p, m)
    decreases |lines|
  {
    if i == 0 {
      assert lines[i := x][1..] == lines[1..];
    } else {
      assert lines[i := x][1..] == lines[1..][i - 1 := x];
      PairSumsUpdate(lines[1..], i - 1, x, p, m);
    }
  }

  lemma {:induction false} PairSumsAppend(lines: seq<ProductPart>, x: ProductPart, p: nat, m: nat)
    ensures PairQuantity(lines + [x], p, m) ==
            PairQuantity(lines, p, m) + (if x.productId == p && x.materialId == m then x.quantityRequired else 0)
    ensures PairCount(lines + [x], p, m) ==
            PairCount(lines, p, m) + (if x.productId == p && x.materialId == m then 1 else 0)
    decreases |lines|
  {
    if lines == [] {
      assert [x][1..] == [];
    } else {
      assert (lines + [x])[1..] == lines[1..] + [x];
      PairSumsAppend(lines[1..], x, p, m);
    }
  }

  lemma {:induction false} NoPairCountZero(lines: seq<ProductPart>, p: nat, m: nat)
    requires forall i :: 0 <= i < |lines| ==> !(lines[i].productId == p && lines[i].materialId == m)
    ensures PairCount(lines, p, m) == 0
    decreases |lines|
  {
    if lines != [] {
      NoPairCountZero(lines[1..], p, m);
    }
  }

  lemma {:induction false} UniqueLinesCountAtMostOne(lines: seq<ProductPart>, p: nat, m: nat)
    requires UniqueBomLines(lines)
    ensures PairCount(lines, p, m) <= 1
    decreases |lines|
  {
    if lines != [] {
      UniqueLinesCountAtMostOne(lines[1..], p, m);
      if lines[0].productId == p && lines[0].materialId == m {
        NoPairCountZero(lines[1..], p, m);
      }
    }
  }

  /** Adding a (product, material, q) triple: the pair's total quantity grows by
      exactly q, every other pair is untouched, the pair still has at most one
      line, and a line is appended only when the pair had none. */
  lemma WithMaterialAccumulates(lines: seq<ProductPart>, p: nat, m: nat, qty: int, freshId: nat)
    requires UniqueBomLines(lines)
    ensures var r := WithMaterial(lines, p, m, qty, freshId);
      && UniqueBomLines(r)
      && PairQuantity(r, p, m) == PairQuantity(lines, p, m) + qty
      && PairCount(r, p, m) == 1
      && (forall p': nat, m': nat :: (p', m') != (p, m) ==>
            PairQuantity(r, p', m') == PairQuantity(lines, p', m') && PairCount(r, p', m') == PairCount(lines, p', m'))
      && |r| == |lines| + (if FindLine(lines, p, m).Some? then 0 else 1)
  {
    var r := WithMaterial(lines, p, m, qty, freshId);
    match FindLine(lines, p, m)
    case Some(i) =>
      var x := lines[i].(quantityRequired := lines[i].quantityRequired + qty);
      UniqueLinesCountAtMostOne(lines, p, m);
      PairSumsUpdate(lines, i, x, p, m);
      forall p': nat, m': nat | (p', m') != (p, m)
        ensures PairQuantity(r, p', m') == PairQuantity(lines, p', m') && PairCount(r, p', m') == PairCount(lines, p', m')
      {
        PairSumsUpdate(lines, i, x, p', m');
      }
      PairCountPositive(lines, i, p, m);
    case None =>
      var x := ProductPart(freshId, p, m, qty);
      NoPairCountZero(lines, p, m);
      PairSumsAppend(lines, x, p, m);
      forall p': nat, m': nat | (p', m') != (p, m)
        ensures PairQuantity(r, p', m') == PairQuantity(lines, p', m') && PairCount(r, p', m') == PairCount(lines, p', m')
      {
        PairSumsAppend(lines, x, p', m');
      }
  }

  lemma {:induction false} PairCountPositive(lines: seq<ProductPart>, i: nat, p: nat, m: nat)
    requires i < |lines| && lines[i].productId == p && lines[i].materialId == m
    ensures PairCount(lines, p, m) >= 1
    decreases |lines|
  {
    if i > 0 {
      PairCountPositive(lines[1..], i - 1, p, m);
    }
  }

  /** The product lines a delete keeps. */
  function Where(lines: seq<ProductPart>, keep: ProductPart -> bool): (r: seq<ProductPart>)
    ensures |r| <= |lines|
    ensures forall l :: l in r <==> l in lines && keep(l)
    decreases |lines|
  {
    if lines == [] then []
    else (if keep(lines[0]) then [lines[0]] else []) + Where(lines[1..], keep)
  }

  /** A filter every line passes keeps the list as it is. */
  lemma {:induction false} WhereKeepsAll(lines: seq<ProductPart>, keep: ProductPart -> bool)
    requires forall l :: l in lines ==> keep(l)
    ensures Where(lines, keep) == lines
    decreases |lines|
  {
    if lines != [] {
      assert lines[0] in lines;
      WhereKeepsAll(lines[1..], keep);
      assert [lines[0]] + lines[1..] == lines;
    }
  }

  /** Deleting lines never creates a second line for a pair. */
  lemma {:induction false} WhereKeepsUnique(lines: seq<ProductPart>, keep: ProductPart -> bool)
    requires UniqueBomLines(lines)
    ensures UniqueBomLines(Where(lines, keep))
    decreases |lines|
  {
    if lines != [] {
      var rest := Where(lines[1..], keep);
      assert UniqueBomLines(lines[1..]) by {
        forall i, j | 0 <= i < j < |lines[1..]|
          ensures !(lines[1..][i].productId == lines[1..][j].productId && lines[1..][i].materialId == lines[1..][j].materialId)
        {
          assert lines[1..][i] == lines[i + 1] && lines[1..][j] == lines[j + 1];
        }
      }
      WhereKeepsUnique(lines[1..], keep);
      if keep(lines[0]) {
        var r := [lines[0]] + rest;
        forall i, j | 0 <= i < j < |r|
          ensures !(r[i].productId == r[j].productId && r[i].materialId == r[j].materialId)
        {
          if i == 0 {
            assert r[j] == rest[j - 1];
            assert r[j] in lines[1..];
            var k :| 0 <= k < |lines[1..]| && lines[1..][k] == r[j];
            assert lines[k + 1] == r[j];
          } else {
            assert r[i] == rest[i - 1] && r[j] == rest[j - 1];
          }
        }
      }
    }
  }

  /** The project lines delete_project keeps. */
  function OtherProjectsLines(lines: seq<ProjectPart>, projectId: nat): (r: seq<ProjectPart>)
    ensures forall l :: l in r <==> l in lines && l.projectId != projectId
    decreases |lines|
  {
    if lines == [] then []
    else (if lines[0].projectId != projectId then [lines[0]] else []) + OtherProjectsLines(lines[1..], projectId)
  }

  // ───────── deriving a project's parts ─────────

  /** A (material, quantity) pair to attach to a project: the dicts of create_project. */
  datatype PartSpec = PartSpec(materialId: nat, quantity: int)

  /** One pair per bill-of-materials line, quantity multiplied by k. */
  function Scaled(lines: seq<ProductPart>, k: int): (r: seq<PartSpec>)
    ensures |r| == |lines|
  {
    seq(|lines|, i requires 0 <= i < |lines| => PartSpec(lines[i].materialId, lines[i].quantityRequired * k))
  }

  /** The rows inserted for the pairs, with consecutive fresh ids. */
  function Attach(specs: seq<PartSpec>, projectId: nat, firstId: nat): (r: seq<ProjectPart>)
    ensures |r| == |specs|
  {
    seq(|specs|, i requires 0 <= i < |specs| =>
      ProjectPart(firstId + i, projectId, specs[i].materialId, specs[i].quantity))
  }

  lemma {:induction false} ProjectLinesOfAttach(specs: seq<PartSpec>, pid: nat, q: nat, firstId: nat)
    ensures ProjectLines(Attach(specs, pid, firstId), q) == if q == pid then Attach(specs, pid, firstId) else []
    decreases |specs|
  {
    if specs != [] {
      assert Attach(specs, pid, firstId)[1..] == Attach(specs[1..], pid, firstId + 1);
      ProjectLinesOfAttach(specs[1..], pid, q, firstId + 1);
    }
  }

  /** `project.quantity or 1`: a missing or zero quantity multiplies by one. */
  function LazyMultiplier(quantity: Option<int>): (k: int)
    ensures k != 0
    ensures quantity.Some? && quantity.value != 0 ==> k == quantity.value
    ensures quantity.None? || quantity.value == 0 ==> k == 1
  {
    if quantity.None? || quantity.value == 0 then 1 else quantity.value
  }

  /** The product whose bill of materials ensure_project_has_parts copies, or
      None when it does nothing: the project is missing, already has parts,
      names no product, or names one that does not exist. */
  function BomSource(db: Db, pid: nat): (r: Option<nat>)
    requires UniqueProductNames(db.products)
    ensures r.Some? <==>
      && pid in db.projects && ProjectLines(db.projectParts, pid) == []
      && db.projects[pid].product.Some? && db.projects[pid].product.value != ""
      && exists k :: k in db.products && db.products[k].name == db.projects[pid].product.value
    ensures r.Some? ==> r.value in db.products && db.products[r.value].name == db.projects[pid].product.value
  {
    if pid !in db.projects || ProjectLines(db.projectParts, pid) != [] then None
    else
      var name := db.projects[pid].product;
      if name.None? || name.value == "" then None
      else ProductNamed(db.products, name.value)
  }

  /** ensure_project_has_parts as a function of the store. */
  function EnsureParts(db: Db, pid: nat): (r: Db)
    requires UniqueProductNames(db.products)
    ensures r == db.(projectParts := r.projectParts, nextId := r.nextId)
    ensures BomSource(db, pid).None? ==> r == db
  {
    match BomSource(db, pid)
    case None => db
    case Some(prod) =>
      var specs := Scaled(ProductLines(db.productParts, prod), LazyMultiplier(db.projects[pid].quantity));
      db.(projectParts := db.projectParts + Attach(specs, pid, db.nextId), nextId := db.nextId + |specs|)
  }

  /** Appending rows for one project extends that project's lines and no other's. */
  lemma AttachExtendsOwnLines(ps: seq<ProjectPart>, specs: seq<PartSpec>, pid: nat, q: nat, firstId: nat)
    ensures ProjectLines(ps + Attach(specs, pid, firstId), q)
            == ProjectLines(ps, q) + (if q == pid then Attach(specs, pid, firstId) else [])
  {
    ProjectLinesAppend(ps, Attach(specs, pid, firstId), q);
    ProjectLinesOfAttach(specs, pid, q, firstId);
  }

  /** Derivation appends, for the project only, one part per bill-of-materials
      line, with the line's material and its quantity times (quantity or 1). */
  lemma EnsurePartsDerives(db: Db, pid: nat)
    requires UniqueProductNames(db.products)
    requires BomSource(db, pid).Some?
    ensures var bom := ProductLines(db.productParts, BomSource(db, pid).value);
      var own := ProjectLines(EnsureParts(db, pid).projectParts, pid);
      && |own| == |bom|
      && (forall i :: 0 <= i < |bom| ==>
            own[i].materialId == bom[i].materialId
            && own[i].quantityRequired == bom[i].quantityRequired * LazyMultiplier(db.projects[pid].quantity))
      && (forall q :: q != pid ==> ProjectLines(EnsureParts(db, pid).projectParts, q) == ProjectLines(db.projectParts, q))
  {
    var prod := BomSource(db, pid).value;
    var specs := Scaled(ProductLines(db.productParts, prod), LazyMultiplier(db.projects[pid].quantity));
    var r := EnsureParts(db, pid);
    assert r.projectParts == db.projectParts + Attach(specs, pid, db.nextId);
    assert ProjectLines(db.projectParts, pid) == [];
    AttachExtendsOwnLines(db.projectParts, specs, pid, pid, db.nextId);
    assert ProjectLines(r.projectParts, pid) == Attach(specs, pid, db.nextId);
    forall q | q != pid
      ensures ProjectLines(r.projectParts, q) == ProjectLines(db.projectParts, q)
    {
      AttachExtendsOwnLines(db.projectParts, specs, pid, q, db.nextId);
    }
  }

  /** Derivation never runs twice: once a project has parts they are authoritative. */
  lemma EnsurePartsIdempotent(db: Db, pid: nat)
    requires UniqueProductNames(db.products)
    ensures EnsureParts(EnsureParts(db, pid), pid) == EnsureParts(db, pid)
  {
    var r := EnsureParts(db, pid);
    if BomSource(db, pid).Some? {
      var prod := BomSource(db, pid).value;
      var specs := Scaled(ProductLines(db.productParts, prod), LazyMultiplier(db.projects[pid].quantity));
      if specs == [] {
        assert r == db;
      } else {
        var added := Attach(specs, pid, db.nextId);
        assert added[0] in r.projectParts;
        assert added[0] in ProjectLines(r.projectParts, pid);
      }
    }
  }

  // ───────── stock deduction ─────────

  /** Who an InsufficientStock error names: the material, or its id when it is gone. */
  datatype Subject = ByName(name: string) | ById(id: nat)

  datatype StockError = InsufficientStock(subject: Subject)

  /** The check of the validation loop for one part (logic.py:299). */
  predicate PartCovered(materials: map<nat, Material>, part: ProjectPart) {
    part.materialId in materials && materials[part.materialId].stockQty >= part.quantityRequired
  }

  predicate Covered(materials: map<nat, Material>, parts: seq<ProjectPart>) {
    forall i :: 0 <= i < |parts| ==> PartCovered(materials, parts[i])
  }

  function ErrorFor(materials: map<nat, Material>, part: ProjectPart): StockError {
    if part.materialId in materials then InsufficientStock(ByName(materials[part.materialId].name))
    else InsufficientStock(ById(part.materialId))
  }

  /** The validation loop: the error for the first part that is not covered. */
  function Shortfall(materials: map<nat, Material>, parts: seq<ProjectPart>): Option<StockError>
    decreases |parts|
  {
    if parts == [] then None
    else if !PartCovered(materials, parts[0]) then Some(ErrorFor(materials, parts[0]))
    else Shortfall(materials, parts[1..])
  }

  /** Validation fails exactly when some part is not covered, and then it names
      the first such part. */
  lemma {:induction false} ShortfallFirst(materials: map<nat, Material>, parts: seq<ProjectPart>)
    ensures Shortfall(materials, parts).None? <==> Covered(materials, parts)
    ensures Shortfall(materials, parts).Some? ==>
      exists i :: 0 <= i < |parts| && Covered(materials, parts[..i]) && !PartCovered(materials, parts[i])
                  && Shortfall(materials, parts) == Some(ErrorFor(materials, parts[i]))
    decreases |parts|
  {
    if parts != [] {
      ShortfallFirst(materials, parts[1..]);
      if !PartCovered(materials, parts[0]) {
        assert Covered(materials, parts[..0]);
      } else if Shortfall(materials, parts[1..]).Some? {
        var i :| 0 <= i < |parts[1..]| && Covered(materials, parts[1..][..i]) && !PartCovered(materials, parts[1..][i])
                 && Shortfall(materials, parts[1..]) == Some(ErrorFor(materials, parts[1..][i]));
        assert parts[..i + 1] == [parts[0]] + parts[1..][..i];
        assert Covered(materials, parts[..i + 1]);
      } else {
        assert forall i :: 1 <= i < |parts| ==> parts[i] == parts[1..][i - 1];
      }
    }
  }

  /** Without a shortfall, every part's material exists. */
  lemma NoShortfallKnown(materials: map<nat, Material>, parts: seq<ProjectPart>)
    requires Shortfall(materials, parts).None?
    ensures forall i :: 0 <= i < |parts| ==> parts[i].materialId in materials
  {
    ShortfallFirst(materials, parts);
  }

  /** The apply loop: each part's material loses the part's quantity, in turn. */
  function Deducted(materials: map<nat, Material>, parts: seq<ProjectPart>): (r: map<nat, Material>)
    requires forall i :: 0 <= i < |parts| ==> parts[i].materialId in materials
    ensures r.Keys == materials.Keys
    decreases |parts|
  {
    if parts == [] then materials
    else
      var m := parts[0].materialId;
      Deducted(materials[m := materials[m].(stockQty := materials[m].stockQty - parts[0].quantityRequired)], parts[1..])
  }

  /** Deduction changes stock levels and nothing else of a material. */
  lemma {:induction false} DeductedOnlyStock(materials: map<nat, Material>, parts: seq<ProjectPart>, k: nat)
    requires forall i :: 0 <= i < |parts| ==> parts[i].materialId in materials
    requires k in materials
    ensures Deducted(materials, parts)[k] == materials[k].(stockQty := Deducted(materials, parts)[k].stockQty)
    decreases |parts|
  {
    if parts != [] {
      var m := parts[0].materialId;
      DeductedOnlyStock(materials[m := materials[m].(stockQty := materials[m].stockQty - parts[0].quantityRequired)], parts[1..], k);
    }
  }

  /** Total quantity the parts require of one material. */
  function Demand(parts: seq<ProjectPart>, materialId: nat): int
    decreases |parts|
  {
    if parts == [] then 0
    else (if parts[0].materialId == materialId then parts[0].quantityRequired else 0) + Demand(parts[1..], materialId)
  }

  lemma {:induction false} DeductedStock(materials: map<nat, Material>, parts: seq<ProjectPart>, k: nat)
    requires forall i :: 0 <= i < |parts| ==> parts[i].materialId in materials
    requires k in materials
    ensures Deducted(materials, parts)[k].stockQty == materials[k].stockQty - Demand(parts, k)
    decreases |parts|
  {
    if parts != [] {
      var m := parts[0].materialId;
      DeductedStock(materials[m := materials[m].(stockQty := materials[m].stockQty - parts[0].quantityRequired)], parts[1..], k);
    }
  }

  /** No two parts name the same material. */
  predicate DistinctMaterials(parts: seq<ProjectPart>) {
    forall i, j :: 0 <= i < j < |parts| ==> parts[i].materialId != parts[j].materialId
  }

  lemma {:induction false} DemandOfDistinct(parts: seq<ProjectPart>, k: nat)
    requires DistinctMaterials(parts)
    ensures forall i :: 0 <= i < |parts| && parts[i].materialId == k ==> Demand(parts, k) == parts[i].quantityRequired
    ensures (forall i :: 0 <= i < |parts| ==> parts[i].materialId != k) ==> Demand(parts, k) == 0
    decreases |parts|
  {
    if parts != [] {
      assert DistinctMaterials(parts[1..]) by {
        forall i, j | 0 <= i < j < |parts[1..]| ensures parts[1..][i].materialId != parts[1..][j].materialId {
          assert parts[1..][i] == parts[i + 1] && parts[1..][j] == parts[j + 1];
        }
      }
      DemandOfDistinct(parts[1..], k);
      forall i | 0 <= i < |parts| && parts[i].materialId == k
        ensures Demand(parts, k) == parts[i].quantityRequired
      {
        if i == 0 {
          assert forall j :: 0 <= j < |parts[1..]| ==> parts[1..][j].materialId != k by {
            forall j | 0 <= j < |parts[1..]| ensures parts[1..][j].materialId != k {
              assert parts[1..][j] == parts[j + 1];
            }
          }
        } else {
          assert parts[1..][i - 1] == parts[i];
        }
      }
      if forall i :: 0 <= i < |parts| ==> parts[i].materialId != k {
        assert forall j :: 0 <= j < |parts[1..]| ==> parts[1..][j].materialId != k by {
          forall j | 0 <= j < |parts[1..]| ensures parts[1..][j].materialId != k {
            assert parts[1..][j] == parts[j + 1];
          }
        }
      }
    }
  }

  const StockDeducted := "Stock deducted"

  /** The history row the apply loop writes for one part (logic.py:308-312). */
  function DeductionEntry(name: string, part: ProjectPart, pid: nat): History {
    History(Some(pid), StockDeducted, "-" + IntToString(part.quantityRequired) + " from " + name)
  }

  function DeductionLog(materials: map<nat, Material>, parts: seq<ProjectPart>, pid: nat): (r: seq<History>)
    requires forall i :: 0 <= i < |parts| ==> parts[i].materialId in materials
    ensures |r| == |parts|
    decreases |parts|
  {
    if parts == [] then []
    else [DeductionEntry(materials[parts[0].materialId].name, parts[0], pid)]
         + DeductionLog(materials, parts[1..], pid)
  }

  lemma {:induction false} DeductionLogAt(materials: map<nat, Material>, parts: seq<ProjectPart>, pid: nat, i: nat)
    requires forall i :: 0 <= i < |parts| ==> parts[i].materialId in materials
    requires i < |parts|
    ensures DeductionLog(materials, parts, pid)[i] == DeductionEntry(materials[parts[i].materialId].name, parts[i], pid)
    decreases |parts|
  {
    if i > 0 {
      DeductionLogAt(materials, parts[1..], pid, i - 1);
    }
  }

  /** What one call of start_project_deduct_inventory leaves behind, and what it returns. */
  datatype Step = Step(db: Db, outcome: Result<bool, StockError>)

  /** start_project_deduct_inventory as a function of the store: derive parts
      if needed, validate every part, then deduct and log every part. */
  function Deduct(db: Db, pid: nat): (r: Step)
    requires UniqueProductNames(db.products)
    ensures r.db == EnsureParts(db, pid).(materials := r.db.materials, history := r.db.history)
    ensures r.outcome.Ok? ==> r.outcome.value
  {
    var d := EnsureParts(db, pid);
    var parts := ProjectLines(d.projectParts, pid);
    match Shortfall(d.materials, parts)
    case Some(e) => Step(d, Err(e))
    case None =>
      NoShortfallKnown(d.materials, parts);
      Step(d.(materials := Deducted(d.materials, parts), history := d.history + DeductionLog(d.materials, parts, pid)),
           Ok(true))
  }

  /** The parts a deduction works on: the project's parts after derivation. */
  function PartsToDeduct(db: Db, pid: nat): seq<ProjectPart>
    requires UniqueProductNames(db.products)
  {
    ProjectLines(EnsureParts(db, pid).projectParts, pid)
  }

  /** All-or-nothing: the deduction fails exactly when some part is short, and
      then neither stock nor history changes (derived parts stay). */
  lemma DeductAllOrNothing(db: Db, pid: nat)
    requires UniqueProductNames(db.products)
    ensures Deduct(db, pid).outcome.Err? <==> !Covered(db.materials, PartsToDeduct(db, pid))
    ensures Deduct(db, pid).outcome.Err? ==> Deduct(db, pid).db == EnsureParts(db, pid)
    ensures Deduct(db, pid).outcome.Err? ==>
              Deduct(db, pid).db.materials == db.materials && Deduct(db, pid).db.history == db.history
  {
    ShortfallFirst(db.materials, PartsToDeduct(db, pid));
  }

  /** On success every material loses exactly what the parts require of it, and
      one "Stock deducted" entry per part is appended, in part order. */
  lemma DeductApplies(db: Db, pid: nat)
    requires UniqueProductNames(db.products)
    requires Deduct(db, pid).outcome.Ok?
    ensures var parts := PartsToDeduct(db, pid);
      var r := Deduct(db, pid).db;
      && r.materials.Keys == db.materials.Keys
      && (forall k :: k in db.materials ==>
            r.materials[k] == db.materials[k].(stockQty := db.materials[k].stockQty - Demand(parts, k)))
      && |r.history| == |db.history| + |parts|
      && r.history[..|db.history|] == db.history
      && (forall i :: 0 <= i < |parts| ==>
            parts[i].materialId in db.materials
            && r.history[|db.history| + i] ==
               History(Some(pid), "Stock deducted",
                       "-" + IntToString(parts[i].quantityRequired) + " from " + db.materials[parts[i].materialId].name))
  {
    var parts := PartsToDeduct(db, pid);
    ShortfallFirst(db.materials, parts);
    var r := Deduct(db, pid).db;
    forall k | k in db.materials
      ensures r.materials[k] == db.materials[k].(stockQty := db.materials[k].stockQty - Demand(parts, k))
    {
      DeductedStock(db.materials, parts, k);
      DeductedOnlyStock(db.materials, parts, k);
    }
    forall i | 0 <= i < |parts|
      ensures r.history[|db.history| + i] == DeductionEntry(db.materials[parts[i].materialId].name, parts[i], pid)
    {
      DeductionLogAt(db.materials, parts, pid, i);
    }
  }

  /** When the parts name distinct materials, each part's material drops by
      exactly its quantity and no stock becomes negative. */
  lemma DeductDistinctStaysNonNegative(db: Db, pid: nat)
    requires UniqueProductNames(db.products)
    requires Deduct(db, pid).outcome.Ok?
    requires DistinctMaterials(PartsToDeduct(db, pid))
    ensures var parts := PartsToDeduct(db, pid);
      var r := Deduct(db, pid).db;
      forall i :: 0 <= i < |parts| ==>
        var m := parts[i].materialId;
        m in db.materials && m in r.materials
        && r.materials[m].stockQty == db.materials[m].stockQty - parts[i].quantityRequired
        && r.materials[m].stockQty >= 0
  {
    var parts := PartsToDeduct(db, pid);
    ShortfallFirst(db.materials, parts);
    forall i | 0 <= i < |parts|
      ensures Deduct(db, pid).db.materials[parts[i].materialId].stockQty
              == db.materials[parts[i].materialId].stockQty - parts[i].quantityRequired
    {
      DeductedStock(db.materials, parts, parts[i].materialId);
      DemandOfDistinct(parts, parts[i].materialId);
    }
  }

  /** Validation looks at each part alone: two parts of one material can pass
      it and still drive the stock below zero. */
  lemma SharedMaterialCanGoNegative()
    ensures var bolt := Material(1, "Bolt", 5, GeneralKind, NoTubeDetails);
      var parts := [ProjectPart(2, 7, 1, 3), ProjectPart(3, 7, 1, 3)];
      Shortfall(map[1 := bolt], parts).None? && Deducted(map[1 := bolt], parts)[1].stockQty == -1
  {
    var bolt := Material(1, "Bolt", 5, GeneralKind, NoTubeDetails);
    var parts := [ProjectPart(2, 7, 1, 3), ProjectPart(3, 7, 1, 3)];
    DeductedStock(map[1 := bolt], parts, 1);
    assert parts[1..][1..] == [];
  }

  /** Starting a project id that does not exist changes nothing and returns True. */
  lemma DeductMissingProject(db: Db, pid: nat)
    requires Valid(db)
    requires pid !in db.projects
    ensures Deduct(db, pid) == Step(db, Ok(true))
  {
    NoLinesOfMissingProject(db.projectParts, pid);
  }

  lemma {:induction false} NoLinesOfMissingProject(lines: seq<ProjectPart>, pid: nat)
    requires forall l :: l in lines ==> l.projectId != pid
    ensures ProjectLines(lines, pid) == []
    decreases |lines|
  {
    if lines != [] {
      NoLinesOfMissingProject(lines[1..], pid);
    }
  }

  lemma {:induction false} DemandSnoc(parts: seq<ProjectPart>, part: ProjectPart, k: nat)
    ensures Demand(parts + [part], k)
            == Demand(parts, k) + (if part.materialId == k then part.quantityRequired else 0)
    decreases |parts|
  {
    if parts != [] {
      assert (parts + [part])[1..] == parts[1..] + [part];
      DemandSnoc(parts[1..], part, k);
    }
  }

  /** Where the apply loop stands after `i` parts: stock `m` and log `h`, from
      stock `m0` and log `h0` at the start. */
  ghost predicate Applying(m0: map<nat, Material>, h0: seq<History>, parts: seq<ProjectPart>, pid: nat,
                           m: map<nat, Material>, h: seq<History>, i: nat) {
    && i <= |parts|
    && (forall j :: 0 <= j < |parts| ==> parts[j].materialId in m0)
    && m.Keys == m0.Keys
    && (forall k :: k in m ==> m[k] == m0[k].(stockQty := m0[k].stockQty - Demand(parts[..i], k)))
    && |h| == |h0| + i
    && (forall j :: 0 <= j < |h0| ==> h[j] == h0[j])
    && (forall j :: 0 <= j < i ==> h[|h0| + j] == DeductionEntry(m0[parts[j].materialId].name, parts[j], pid))
  }

  lemma ApplyStart(m0: map<nat, Material>, h0: seq<History>, parts: seq<ProjectPart>, pid: nat)
    requires forall j :: 0 <= j < |parts| ==> parts[j].materialId in m0
    ensures Applying(m0, h0, parts, pid, m0, h0, 0)
  {
    assert parts[..0] == [];
  }

  /** One turn of the apply loop keeps `Applying`. */
  lemma ApplyStep(m0: map<nat, Material>, h0: seq<History>, parts: seq<ProjectPart>, pid: nat,
                  m: map<nat, Material>, h: seq<History>, i: nat)
    requires Applying(m0, h0, parts, pid, m, h, i) && i < |parts|
    ensures var id := parts[i].materialId;
      && id in m
      && Applying(m0, h0, parts, pid,
                  m[id := m[id].(stockQty := m[id].stockQty - parts[i].quantityRequired)],
                  h + [DeductionEntry(m[id].name, parts[i], pid)], i + 1)
  {
    assert parts[..i + 1] == parts[..i] + [parts[i]];
    forall k | k in m {
      DemandSnoc(parts[..i], parts[i], k);
    }
  }

  lemma ApplyDone(m0: map<nat, Material>, h0: seq<History>, parts: seq<ProjectPart>, pid: nat,
                  m: map<nat, Material>, h: seq<History>)
    requires Applying(m0, h0, parts, pid, m, h, |parts|)
    ensures forall j :: 0 <= j < |parts| ==> parts[j].materialId in m0
    ensures m == Deducted(m0, parts)
    ensures h == h0 + DeductionLog(m0, parts, pid)
  {
    assert parts[..|parts|] == parts;
    forall k | k in m ensures m[k] == Deducted(m0, parts)[k] {
      DeductedStock(m0, parts, k);
      DeductedOnlyStock(m0, parts, k);
    }
    forall j | 0 <= j < |parts| ensures h[|h0| + j] == DeductionLog(m0, parts, pid)[j] {
      DeductionLogAt(m0, parts, pid, j);
    }
  }

  /** Deducting stock and appending history keeps every invariant of the store. */
  lemma DeductedKeepsValid(db: Db, parts: seq<ProjectPart>, h: seq<History>)
    requires Valid(db)
    requires forall i :: 0 <= i < |parts| ==> parts[i].materialId in db.materials
    ensures Valid(db.(materials := Deducted(db.materials, parts), history := h))
  {
    var m := Deducted(db.materials, parts);
    forall j | j in m ensures m[j].name == db.materials[j].name && m[j].id == db.materials[j].id {
      DeductedOnlyStock(db.materials, parts, j);
    }
  }

  /** The category links with every link of one product removed. */
  function Unlinked(links: set<(nat, nat)>, pid: nat): (r: set<(nat, nat)>)
    ensures forall pc :: pc in r <==> pc in links && pc.0 != pid
  {
    set pc | pc in links && pc.0 != pid
  }

  lemma UnlinkKeepsValid(db: Db, pid: nat)
    requires Valid(db)
    ensures Valid(db.(productCategories := Unlinked(db.productCategories, pid)))
  {
  }

  /** Inserting a project under the next id keeps every invariant of the store. */
  lemma AddProjectKeepsValid(db: Db, p: Project)
    requires Valid(db) && p.id == db.nextId
    ensures Valid(db.(projects := db.projects[db.nextId := p], nextId := db.nextId + 1))
  {
  }

  // ───────── listing ─────────

  /** The projects whose ids are below n, in id order (the rows of
      `query(Project).all()` on an autoincrement key). */
  function ProjectsBelow(m: map<nat, Project>, n: nat): (r: seq<Project>)
    ensures |r| <= n
    ensures forall p :: p in r <==> exists k :: k < n && k in m && m[k] == p
    decreases n
  {
    if n == 0 then []
    else ProjectsBelow(m, n - 1) + (if n - 1 in m then [m[n - 1]] else [])
  }

  /** When every key is its project's id, the listing is strictly increasing
      by id, so no project is listed twice. */
  lemma {:induction false} ProjectsBelowSorted(m: map<nat, Project>, n: nat)
    requires forall k :: k in m ==> m[k].id == k
    ensures forall i, j :: 0 <= i < j < |ProjectsBelow(m, n)| ==>
              ProjectsBelow(m, n)[i].id < ProjectsBelow(m, n)[j].id
    ensures forall p :: p in ProjectsBelow(m, n) ==> p.id < n
    decreases n
  {
    if n > 0 {
      ProjectsBelowSorted(m, n - 1);
      var prev := ProjectsBelow(m, n - 1);
      var r := ProjectsBelow(m, n);
      forall i | 0 <= i < |prev| ensures prev[i].id < n - 1 {
        assert prev[i] in prev;
      }
      forall i, j | 0 <= i < j < |r| ensures r[i].id < r[j].id {
        assert r[i] == prev[i];
        if j < |prev| {
          assert r[j] == prev[j];
        } else {
          assert n - 1 in m && r[j] == m[n - 1];
        }
      }
    }
  }
}
