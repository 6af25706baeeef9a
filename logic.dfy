/** The domain operations of logic.py on an in-memory store. Every function of
    logic.py that changes the database is a method of `Store` that runs as one
    atomic step; the read-only queries are functions. */
module Logic {
  import opened Models
  import opened Text
  import opened Tables

  /** Errors the CRUD operations surface: a unique-name violation on insert or
      rename, and update_material_details' "Material not found". */
  datatype CrudError = DuplicateName(name: string) | MaterialNotFound(id: nat)

  /** The keyword extras create_project passes on to the new project row. */
  datatype ProjectInit = ProjectInit(
    delivery: Option<string>,
    customer: Option<string>,
    orderNumber: Option<string>,
    product: Option<string>,
    notes: Option<string>,
    quantity: Option<int>)

  /** A new project row: the extras, and every stage status at its default. */
  function NewProject(id: nat, name: string, description: string, init: ProjectInit): Project {
    Project(id, name, description, init.delivery, init.customer, init.orderNumber, init.product, init.notes,
            init.quantity, NoStatus, NoStatus, NoStatus, NoStatus, NoStatus, NoStatus, NoStatus, NoStatus, NoStatus)
  }

  /** `extra.get("quantity", 1)`: unlike `quantity or 1`, a zero is kept. */
  function EagerMultiplier(quantity: Option<int>): int {
    if quantity.None? then 1 else quantity.value
  }

  /** The (material, quantity) pairs create_project attaches: an explicit,
      non-empty list verbatim; otherwise the named product's bill of materials
      scaled by the quantity; otherwise nothing. */
  function PlannedParts(products: map<nat, Product>, bom: seq<ProductPart>, parts: seq<PartSpec>, init: ProjectInit)
    : (r: seq<PartSpec>)
    requires UniqueProductNames(products)
    ensures parts != [] ==> r == parts
    ensures (parts == [] && (init.product.None? || init.product.value == ""
                             || forall k :: k in products ==> products[k].name != init.product.value))
            ==> r == []
  {
    if parts != [] then parts
    else if init.product.None? || init.product.value == "" then []
    else match ProductNamed(products, init.product.value)
      case None => []
      case Some(prod) => Scaled(ProductLines(bom, prod), EagerMultiplier(init.quantity))
  }

  /** A project created without explicit parts gets one part per line of its
      product's bill of materials, quantity times the given quantity (1 when
      absent, 0 kept as 0). */
  lemma PlannedPartsFollowBom(products: map<nat, Product>, bom: seq<ProductPart>, init: ProjectInit, prod: nat)
    requires UniqueProductNames(products)
    requires prod in products && init.product == Some(products[prod].name) && init.product.value != ""
    ensures var lines := ProductLines(bom, prod);
      var planned := PlannedParts(products, bom, [], init);
      && |planned| == |lines|
      && forall i :: 0 <= i < |lines| ==>
           planned[i] == PartSpec(lines[i].materialId, lines[i].quantityRequired * EagerMultiplier(init.quantity))
  {
    assert ProductNamed(products, init.product.value) == Some(prod);
  }

  /** The new value of one project after `setattr(p, field, value)` with text
      from the project table. The integer quantity column keeps a decimal
      numeral as a number; any other text is read as no quantity. */
  function SetField(p: Project, field: Field, value: string): (r: Project)
    ensures r.id == p.id
  {
    match field
    case Delivery => p.(delivery := Some(value))
    case Customer => p.(customer := Some(value))
    case OrderNumber => p.(orderNumber := Some(value))
    case ProductName => p.(product := Some(value))
    case Notes => p.(notes := Some(value))
    case Quantity => p.(quantity := ParseInt(value))
    case Afterone => p.(afterone := value)
    case Cutting => p.(cutting := value)
    case Laser => p.(laser := value)
    case Bending => p.(bending := value)
    case Drilling => p.(drilling := value)
    case Welding => p.(welding := value)
    case Grinding => p.(grinding := value)
    case Coating => p.(coating := value)
    case Delivered => p.(delivered := value)
  }

  /** A quantity typed as the numeral of an integer is stored as that integer. */
  lemma QuantityEditRoundTrip(p: Project, n: int)
    ensures SetField(p, Quantity, IntToString(n)).quantity == Some(n)
  {
    IntRoundTrip(n);
  }

  /** No name occurs twice in `names`. */
  predicate NoRepeats(names: seq<string>) {
    forall i, j :: 0 <= i < j < |names| ==> names[i] != names[j]
  }

  /** Where assign_product_categories stands once the names in `done` are
      linked: categories `cats` and links `links`, from `cats0` and `links0`. */
  ghost predicate Assigning(cats0: map<nat, Category>, links0: set<(nat, nat)>,
                            cats: map<nat, Category>, links: set<(nat, nat)>, pid: nat, done: seq<string>) {
    && (forall c :: c in cats ==> ((pid, c) in links <==> cats[c].name in done))
    && (forall n :: n in done ==> HasCategoryNamed(cats, n))
    && (forall pc: (nat, nat) :: pc.0 != pid ==> (pc in links <==> pc in links0))
    && (forall k :: k in cats0 ==> k in cats && cats[k] == cats0[k])
    && (forall k :: k in cats && k !in cats0 ==> cats[k].name in done && !HasCategoryNamed(cats0, cats[k].name))
  }

  /** Linking one more name keeps `Assigning`. */
  lemma AssignStep(cats0: map<nat, Category>, links0: set<(nat, nat)>,
                   cats: map<nat, Category>, links: set<(nat, nat)>,
                   cats2: map<nat, Category>, links2: set<(nat, nat)>,
                   pid: nat, names: seq<string>, i: nat, c: Category)
    requires i < |names|
    requires Assigning(cats0, links0, cats, links, pid, names[..i])
    requires c.name == names[i] && c.id in cats2 && cats2[c.id] == c
    requires links2 == links + {(pid, c.id)}
    requires forall k :: k in cats2 && cats2[k].name == names[i] ==> k == c.id
    requires forall k :: k in cats ==> k in cats2 && cats2[k] == cats[k]
    requires forall k :: k in cats2 && k !in cats ==> k == c.id && !HasCategoryNamed(cats, names[i])
    ensures Assigning(cats0, links0, cats2, links2, pid, names[..i + 1])
  {
    var name, done := names[i], names[..i];
    assert names[..i + 1] == done + [name];
    forall n | n in done ensures HasCategoryNamed(cats2, n) {
      var k :| k in cats && cats[k].name == n;
      assert k in cats2 && cats2[k].name == n;
    }
    forall k | k in cats2 && k !in cats0
      ensures cats2[k].name in done + [name] && !HasCategoryNamed(cats0, cats2[k].name)
    {
      if k !in cats {
        forall j | j in cats0 ensures cats0[j].name != name {
          assert j in cats && cats[j] == cats0[j];
        }
      }
    }
  }

  class Store {
    var categories: map<nat, Category>
    var products: map<nat, Product>
    var productCategories: set<(nat, nat)>
    var materials: map<nat, Material>
    var productParts: seq<ProductPart>
    var projects: map<nat, Project>
    var projectParts: seq<ProjectPart>
    var history: seq<History>
    var nextId: nat

    /** The whole store as one value. */
    function State(): Db
      reads this
    {
      Db(categories, products, productCategories, materials, productParts, projects, projectParts, history, nextId)
    }

    ghost predicate Valid()
      reads this
    {
      Tables.Valid(State())
    }

    constructor ()
      ensures Valid()
      ensures State() == Db(map[], map[], {}, map[], [], map[], [], [], 0)
    {
      categories, products, productCategories, materials := map[], map[], {}, map[];
      productParts, projects, projectParts, history, nextId := [], map[], [], [], 0;
    }

    // ───────── categories ─────────

    /** Get-or-create: an existing category of that name is returned and nothing
        changes; otherwise exactly one category is added. */
    method CreateCategory(name: string) returns (c: Category)
      requires Valid()
      modifies this`categories, this`nextId
      ensures Valid()
      ensures c.name == name && c.id in categories && categories[c.id] == c
      ensures HasCategoryNamed(old(categories), name) ==>
                categories == old(categories) && nextId == old(nextId)
      ensures !HasCategoryNamed(old(categories), name) ==>
                c.id == old(nextId) && categories == old(categories)[c.id := c] && nextId == old(nextId) + 1
    {
      var found := CategoryNamed(categories, name);
      if found.Some? {
        c := categories[found.value];
      } else {
        c := Category(nextId, name);
        categories := categories[nextId := c];
        nextId := nextId + 1;
      }
    }

    /** One step of assign_product_categories: get-or-create the category and
        link the product to it. */
    method LinkCategory(pid: nat, name: string) returns (c: Category)
      requires Valid() && pid in products
      modifies this`categories, this`productCategories, this`nextId
      ensures Valid()
      ensures c.name == name && c.id in categories && categories[c.id] == c
      ensures productCategories == old(productCategories) + {(pid, c.id)}
      ensures forall k :: k in categories && categories[k].name == name ==> k == c.id
      ensures forall k :: k in old(categories) ==> k in categories && categories[k] == old(categories)[k]
      ensures forall k :: k in categories && k !in old(categories) ==> k == c.id && !HasCategoryNamed(old(categories), name)
    {
      c := CreateCategory(name);
      productCategories := productCategories + {(pid, c.id)};
    }

    /** Replaces the product's category set by exactly the named categories,
        reusing existing ones and creating the missing ones. A name given
        twice would link the same category twice, which the composite key
        of the link table rejects at commit: the whole change is rolled
        back and `ok` is false. */
    method AssignProductCategories(pid: nat, names: seq<string>) returns (ok: bool)
      requires Valid() && pid in products
      modifies this`categories, this`productCategories, this`nextId
      ensures Valid()
      ensures ok <==> NoRepeats(names)
      ensures !ok ==> categories == old(categories) && productCategories == old(productCategories) && nextId == old(nextId)
      ensures ok ==> forall c :: c in categories ==> ((pid, c) in productCategories <==> categories[c].name in names)
      ensures ok ==> forall n :: n in names ==> HasCategoryNamed(categories, n)
      ensures forall pc: (nat, nat) :: pc.0 != pid ==> (pc in productCategories <==> pc in old(productCategories))
      ensures forall k :: k in old(categories) ==> k in categories && categories[k] == old(categories)[k]
      ensures forall k :: k in categories && k !in old(categories) ==>
                categories[k].name in names && !HasCategoryNamed(old(categories), categories[k].name)
    {
      if !NoRepeats(names) {
        return false;
      }
      ok := true;
      UnlinkKeepsValid(State(), pid);
      productCategories := Unlinked(productCategories, pid);
      var i := 0;
      while i < |names|
        invariant 0 <= i <= |names|
        invariant Valid() && pid in products
        invariant Assigning(old(categories), old(productCategories), categories, productCategories, pid, names[..i])
      {
        ghost var cats, links := categories, productCategories;
        var cat := LinkCategory(pid, names[i]);
        AssignStep(old(categories), old(productCategories), cats, links, categories, productCategories,
                   pid, names, i, cat);
        i := i + 1;
      }
      assert names[..i] == names;
    }

    // ───────── products ─────────

    method CreateProduct(name: string, description: string, note: string, productionTime: Option<int>)
      returns (r: Result<Product, CrudError>)
      requires Valid()
      modifies this`products, this`nextId
      ensures Valid()
      ensures r.Err? <==> ProductNamed(old(products), name).Some?
      ensures r.Err? ==> r.error == DuplicateName(name) && products == old(products) && nextId == old(nextId)
      ensures r.Ok? ==> r.value == Product(old(nextId), name, description, note, productionTime)
                        && products == old(products)[old(nextId) := r.value] && nextId == old(nextId) + 1
    {
      if ProductNamed(products, name).Some? {
        return Err(DuplicateName(name));
      }
      var p := Product(nextId, name, description, note, productionTime);
      products := products[nextId := p];
      nextId := nextId + 1;
      r := Ok(p);
    }

    /** A missing id is a no-op returning None; a name taken by another product
        is rejected; otherwise every column is overwritten. */
    method UpdateProduct(pid: nat, name: string, description: string, note: string, productionTime: Option<int>)
      returns (r: Result<Option<Product>, CrudError>)
      requires Valid()
      modifies this`products
      ensures Valid()
      ensures pid !in old(products) ==> r == Ok(None) && products == old(products)
      ensures pid in old(products) && ProductNamed(old(products), name).Some?
              && ProductNamed(old(products), name).value != pid ==>
                r == Err(DuplicateName(name)) && products == old(products)
      ensures r.Ok? && r.value.Some? ==>
                r.value.value == Product(pid, name, description, note, productionTime)
                && products == old(products)[pid := r.value.value]
      ensures r.Ok? || products == old(products)
    {
      if pid !in products {
        return Ok(None);
      }
      var other := ProductNamed(products, name);
      if other.Some? && other.value != pid {
        return Err(DuplicateName(name));
      }
      var p := Product(pid, name, description, note, productionTime);
      products := products[pid := p];
      r := Ok(Some(p));
    }

    /** Deleting a product deletes its bill-of-materials lines and its category
        links; a missing id is a no-op. */
    method DeleteProduct(pid: nat)
      requires Valid()
      modifies this`products, this`productParts, this`productCategories
      ensures Valid()
      ensures pid !in old(products) ==>
                products == old(products) && productParts == old(productParts)
                && productCategories == old(productCategories)
      ensures pid in old(products) ==>
                products == old(products) - {pid}
                && productParts == Where(old(productParts), (l: ProductPart) => l.productId != pid)
                && productCategories == Unlinked(old(productCategories), pid)
    {
      if pid in products {
        WhereKeepsUnique(productParts, (l: ProductPart) => l.productId != pid);
        products := products - {pid};
        productParts := Where(productParts, (l: ProductPart) => l.productId != pid);
        productCategories := Unlinked(productCategories, pid);
      }
    }

    // ───────── product bill of materials ─────────

    /** Adds to the existing line for the pair, or appends one line. */
    method AddMaterialToProduct(productId: nat, materialId: nat, qty: int)
      requires Valid()
      modifies this`productParts, this`nextId
      ensures Valid()
      ensures productParts == WithMaterial(old(productParts), productId, materialId, qty, old(nextId))
      ensures nextId == old(nextId) + (if FindLine(old(productParts), productId, materialId).Some? then 0 else 1)
    {
      WithMaterialAccumulates(productParts, productId, materialId, qty, nextId);
      var row := FindLine(productParts, productId, materialId);
      if row.Some? {
        var line := productParts[row.value];
        productParts := productParts[row.value := line.(quantityRequired := line.quantityRequired + qty)];
      } else {
        productParts := productParts + [ProductPart(nextId, productId, materialId, qty)];
        nextId := nextId + 1;
      }
    }

    /** Deletes the line with that id; a missing id is a no-op. */
    method RemoveMaterialFromProduct(partId: nat)
      requires Valid()
      modifies this`productParts
      ensures Valid()
      ensures (forall l :: l in old(productParts) ==> l.id != partId) ==> productParts == old(productParts)
      ensures forall l :: l in productParts <==> l in old(productParts) && l.id != partId
      ensures productParts == Where(old(productParts), (l: ProductPart) => l.id != partId)
    {
      if exists l :: l in productParts && l.id == partId {
        WhereKeepsUnique(productParts, (l: ProductPart) => l.id != partId);
        productParts := Where(productParts, (l: ProductPart) => l.id != partId);
      } else {
        WhereKeepsAll(productParts, (l: ProductPart) => l.id != partId);
      }
    }

    // ───────── materials ─────────

    /** Inserts a material; stock defaults to 0 and kind to "general". */
    method CreateMaterial(name: string, stock: Option<int>, kind: Option<string>, details: TubeDetails)
      returns (r: Result<Material, CrudError>)
      requires Valid()
      modifies this`materials, this`nextId
      ensures Valid()
      ensures r.Err? <==> MaterialNamed(old(materials), name).Some?
      ensures r.Err? ==> r.error == DuplicateName(name) && materials == old(materials) && nextId == old(nextId)
      ensures r.Ok? ==>
                && r.value.id == old(nextId) && r.value.name == name && r.value.details == details
                && r.value.stockQty == (if stock.Some? then stock.value else DefaultStock)
                && r.value.kind == (if kind.Some? then kind.value else GeneralKind)
                && materials == old(materials)[old(nextId) := r.value] && nextId == old(nextId) + 1
    {
      if MaterialNamed(materials, name).Some? {
        return Err(DuplicateName(name));
      }
      var qty := if stock.Some? then stock.value else DefaultStock;
      var k := if kind.Some? then kind.value else GeneralKind;
      var m := Material(nextId, name, qty, k, details);
      materials := materials[nextId := m];
      nextId := nextId + 1;
      r := Ok(m);
    }

    /** A missing id raises; otherwise the stock is set only when given and the
        six detail columns are always overwritten. */
    method UpdateMaterialDetails(mid: nat, stock: Option<int>, details: TubeDetails)
      returns (r: Result<Material, CrudError>)
      requires Valid()
      modifies this`materials
      ensures Valid()
      ensures mid !in old(materials) ==> r == Err(MaterialNotFound(mid)) && materials == old(materials)
      ensures mid in old(materials) ==>
                var m := old(materials)[mid];
                && r.Ok?
                && r.value == m.(stockQty := if stock.Some? then stock.value else m.stockQty, details := details)
                && materials == old(materials)[mid := r.value]
    {
      if mid !in materials {
        return Err(MaterialNotFound(mid));
      }
      var m := materials[mid];
      if stock.Some? {
        m := m.(stockQty := stock.value);
      }
      m := m.(details := details);
      materials := materials[mid := m];
      r := Ok(m);
    }

    /** Removes the material only: lines that name it are left dangling. */
    method DeleteMaterial(mid: nat)
      requires Valid()
      modifies this`materials
      ensures Valid()
      ensures materials == old(materials) - {mid}
    {
      if mid in materials {
        materials := materials - {mid};
      }
    }

    function GetMaterialByName(name: string): (r: Option<Material>)
      reads this
      requires Valid()
      ensures r.Some? ==> r.value in materials.Values && r.value.name == name
      ensures r.None? ==> forall m :: m in materials.Values ==> m.name != name
    {
      match MaterialNamed(materials, name)
      case Some(k) => Some(materials[k])
      case None => None
    }

    /** get_projects: every project exactly once, in id order. */
    function GetProjects(): (r: seq<Project>)
      reads this
      requires Valid()
      ensures forall p :: p in r <==> p in projects.Values
      ensures forall p :: p in r ==> p.id in projects && projects[p.id] == p
      ensures forall i, j :: 0 <= i < j < |r| ==> r[i].id < r[j].id
    {
      assert forall k :: k in projects ==> projects[k].id == k;
      ProjectsBelowSorted(projects, nextId);
      assert forall p :: p in projects.Values ==> p in ProjectsBelow(projects, nextId) by {
        forall p | p in projects.Values ensures p in ProjectsBelow(projects, nextId) {
          var k :| k in projects && projects[k] == p;
          assert k < nextId;
        }
      }
      assert forall p :: p in ProjectsBelow(projects, nextId) ==> p in projects.Values by {
        forall p | p in ProjectsBelow(projects, nextId) ensures p in projects.Values {
          var k :| k < nextId && k in projects && projects[k] == p;
          assert projects[k] in projects.Values;
        }
      }
      ProjectsBelow(projects, nextId)
    }

    /** get_products: every product, or those linked to one of the named categories. */
    function GetProducts(categoryNames: seq<string>): (r: set<nat>)
      reads this
      ensures r <= products.Keys
      ensures categoryNames == [] ==> r == products.Keys
      ensures forall k :: k in r && categoryNames != [] ==>
                exists c :: (k, c) in productCategories && c in categories && categories[c].name in categoryNames
      ensures forall k, c ::
                (k in products && (k, c) in productCategories && c in categories && categories[c].name in categoryNames)
                ==> k in r
    {
      if categoryNames == [] then products.Keys
      else set k, c | k in products && (k, c) in productCategories && c in categories
                      && categories[c].name in categoryNames :: k
    }

    // ───────── projects ─────────

    /** Appends one project line per pair, ids taken in order from nextId. */
    method AttachParts(pid: nat, specs: seq<PartSpec>)
      requires Valid() && pid in projects
      modifies this`projectParts, this`nextId
      ensures Valid()
      ensures projectParts == old(projectParts) + Attach(specs, pid, old(nextId))
      ensures nextId == old(nextId) + |specs|
    {
      var i := 0;
      while i < |specs|
        invariant 0 <= i <= |specs|
        invariant Valid() && pid in projects
        invariant projectParts == old(projectParts) + Attach(specs[..i], pid, old(nextId))
        invariant nextId == old(nextId) + i
      {
        projectParts := projectParts + [ProjectPart(nextId, pid, specs[i].materialId, specs[i].quantity)];
        nextId := nextId + 1;
        assert Attach(specs[..i + 1], pid, old(nextId)) == Attach(specs[..i], pid, old(nextId))
               + [ProjectPart(old(nextId) + i, pid, specs[i].materialId, specs[i].quantity)];
        i := i + 1;
      }
      assert specs[..i] == specs;
    }

    /** Inserts the project, then its parts: the explicit list when non-empty,
        else the named product's scaled bill of materials. */
    method CreateProject(name: string, description: string, parts: seq<PartSpec>, init: ProjectInit)
      returns (p: Project)
      requires Valid()
      modifies this`projects, this`projectParts, this`nextId
      ensures Valid()
      ensures p == NewProject(old(nextId), name, description, init)
      ensures projects == old(projects)[p.id := p]
      ensures projectParts == old(projectParts) + Attach(PlannedParts(old(products), old(productParts), parts, init), p.id, old(nextId) + 1)
      ensures nextId == old(nextId) + 1 + |PlannedParts(old(products), old(productParts), parts, init)|
    {
      p := NewProject(nextId, name, description, init);
      AddProjectKeepsValid(State(), p);
      projects := projects[nextId := p];
      nextId := nextId + 1;
      var planned := PlannedParts(products, productParts, parts, init);
      AttachParts(p.id, planned);
    }

    /** setattr on an existing project; a missing id is a no-op returning None. */
    method UpdateProjectField(pid: nat, field: Field, value: string) returns (r: Option<Project>)
      requires Valid()
      modifies this`projects
      ensures Valid()
      ensures pid !in old(projects) ==> r == None && projects == old(projects)
      ensures pid in old(projects) ==>
                r == Some(SetField(old(projects)[pid], field, value)) && projects == old(projects)[pid := r.value]
    {
      if pid !in projects {
        return None;
      }
      var p := SetField(projects[pid], field, value);
      projects := projects[pid := p];
      r := Some(p);
    }

    /** Deleting a project deletes its parts; its history rows stay. */
    method DeleteProject(pid: nat)
      requires Valid()
      modifies this`projects, this`projectParts
      ensures Valid()
      ensures projects == old(projects) - {pid}
      ensures pid !in old(projects) ==> projectParts == old(projectParts)
      ensures pid in old(projects) ==> projectParts == OtherProjectsLines(old(projectParts), pid)
    {
      if pid in projects {
        projects := projects - {pid};
        projectParts := OtherProjectsLines(projectParts, pid);
      }
    }

    /** Derives the project's parts from its product's bill of materials unless
        it already has parts (or has no product to derive from). */
    method EnsureProjectHasParts(pid: nat)
      requires Valid()
      modifies this`projectParts, this`nextId
      ensures Valid()
      ensures State() == EnsureParts(old(State()), pid)
    {
      if pid !in projects || ProjectLines(projectParts, pid) != [] {
        return;
      }
      var project := projects[pid];
      if project.product.None? || project.product.value == "" {
        return;
      }
      var prod := ProductNamed(products, project.product.value);
      if prod.None? {
        return;
      }
      var multiplier := LazyMultiplier(project.quantity);
      AttachParts(pid, Scaled(ProductLines(productParts, prod.value), multiplier));
    }

    /** The validation loop: the first part whose material is missing or short. */
    method CheckStock(parts: seq<ProjectPart>) returns (e: Option<StockError>)
      ensures e == Shortfall(materials, parts)
    {
      var i := 0;
      while i < |parts|
        invariant 0 <= i <= |parts|
        invariant Shortfall(materials, parts) == Shortfall(materials, parts[i..])
      {
        var part := parts[i];
        if part.materialId !in materials || materials[part.materialId].stockQty < part.quantityRequired {
          return Some(ErrorFor(materials, part));
        }
        assert parts[i..][1..] == parts[i + 1..];
        i := i + 1;
      }
      e := None;
    }

    /** The apply loop: each part's material loses the part's quantity and one
        history row is written per part. */
    method ApplyDeductions(parts: seq<ProjectPart>, pid: nat)
      requires forall i :: 0 <= i < |parts| ==> parts[i].materialId in materials
      modifies this`materials, this`history
      ensures materials == Deducted(old(materials), parts)
      ensures history == old(history) + DeductionLog(old(materials), parts, pid)
    {
      ghost var m0, h0 := materials, history;
      ApplyStart(m0, h0, parts, pid);
      var i := 0;
      while i < |parts|
        invariant i <= |parts|
        invariant Applying(m0, h0, parts, pid, materials, history, i)
      {
        var part := parts[i];
        var mat := materials[part.materialId];
        ApplyStep(m0, h0, parts, pid, materials, history, i);
        materials := materials[part.materialId := mat.(stockQty := mat.stockQty - part.quantityRequired)];
        history := history + [DeductionEntry(mat.name, part, pid)];
        i := i + 1;
      }
      ApplyDone(m0, h0, parts, pid, materials, history);
    }

    /** Derive parts if needed, validate every part against current stock, then
        deduct and log every part; a failed validation leaves stock and history
        as they were. */
    method StartProjectDeductInventory(pid: nat) returns (r: Result<bool, StockError>)
      requires Valid()
      modifies this`projectParts, this`nextId, this`materials, this`history
      ensures Valid()
      ensures State() == Deduct(old(State()), pid).db
      ensures r == Deduct(old(State()), pid).outcome
    {
      EnsureProjectHasParts(pid);
      var parts := ProjectLines(projectParts, pid);
      var e := CheckStock(parts);
      if e.Some? {
        return Err(e.value);
      }
      ShortfallFirst(materials, parts);
      DeductedKeepsValid(State(), parts, history + DeductionLog(materials, parts, pid));
      ApplyDeductions(parts, pid);
      r := Ok(true);
    }

    // ───────── history ─────────

    method AddHistoryEntry(action: string, details: string, projectId: Option<nat>)
      requires Valid()
      modifies this`history
      ensures Valid()
      ensures history == old(history) + [History(projectId, action, details)]
    {
      history := history + [History(projectId, action, details)];
    }
  }
}
