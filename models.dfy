/** Record types of the inventory / bill-of-materials / project store (models.py).
    Each SQL table becomes a datatype; the relations between them are ids. */
module Models {

  datatype Option<T> = None | Some(value: T)

  datatype Result<T, E> = Ok(value: T) | Err(error: E)

  /** A category; its name is unique across the table (models.py:20). */
  datatype Category = Category(id: nat, name: string)

  /** A product; its name is unique (models.py:33). */
  datatype Product = Product(
    id: nat,
    name: string,
    description: string,
    note: string,
    productionTime: Option<int>)   // minutes

  /** The six columns that describe tube stock and the material grade (models.py:49-54). */
  datatype TubeDetails = TubeDetails(
    materialType: Option<string>,
    profile: Option<string>,
    length: Option<int>,
    quantity: Option<int>,
    dimension: Option<string>,
    thickness: Option<string>)

  const NoTubeDetails := TubeDetails(None, None, None, None, None, None)

  /** Column defaults of a material (models.py:47-48). */
  const DefaultStock := 0
  const GeneralKind := "general"

  /** A material; its name is unique (models.py:46). The stock is a plain integer:
      nothing in the store keeps it non-negative. */
  datatype Material = Material(
    id: nat,
    name: string,
    stockQty: int,
    kind: string,                  // "general" | "tube"
    details: TubeDetails)

  /** A bill-of-materials line of a product (models.py:57-66). */
  datatype ProductPart = ProductPart(id: nat, productId: nat, materialId: nat, quantityRequired: int)

  /** Value every stage-status column of a new project starts with (models.py:84-92). */
  const NoStatus := "-"

  /** A production project. `product` holds a product NAME, not a key (models.py:79);
      the nine stage columns are free-form strings. */
  datatype Project = Project(
    id: nat,
    name: string,
    description: string,
    delivery: Option<string>,
    customer: Option<string>,
    orderNumber: Option<string>,
    product: Option<string>,
    notes: Option<string>,
    quantity: Option<int>,
    afterone: string,
    cutting: string,
    laser: string,
    bending: string,
    drilling: string,
    welding: string,
    grinding: string,
    coating: string,
    delivered: string)

  /** A required-parts line of a project: a frozen snapshot (models.py:97-106). */
  datatype ProjectPart = ProjectPart(id: nat, projectId: nat, materialId: nat, quantityRequired: int)

  /** An audit record; action and details are never null (models.py:115-116).
      The timestamp is left out. */
  datatype History = History(projectId: Option<nat>, action: string, details: string)

  /** The editable columns of a project, as the project table names them. */
  datatype Field =
    | Delivery | Customer | OrderNumber | ProductName | Notes | Quantity
    | Afterone | Cutting | Laser | Bending | Drilling | Welding | Grinding | Coating | Delivered
}
