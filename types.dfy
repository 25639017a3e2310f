/**
 * The catalog entities: PC parts, PC builds with one optional slot per part
 * category, and the laptop fields the laptop list filters on.
 */
module Types {
  import opened Wrappers

  /** The closed set of part categories (the `type` of a part). */
  datatype PartType = CPU | Motherboard | Cooling | RAM | GPU | Storage | PSU | Case

  /** The eight categories, in the order the build lists its slots. */
  const AllPartTypes: seq<PartType> := [CPU, Motherboard, Cooling, RAM, GPU, Storage, PSU, Case]

  /** The category's string literal, as it appears in the union type. */
  function TypeName(t: PartType): string
  {
    match t
    case CPU => "CPU"
    case Motherboard => "Motherboard"
    case Cooling => "Cooling"
    case RAM => "RAM"
    case GPU => "GPU"
    case Storage => "Storage"
    case PSU => "PSU"
    case Case => "Case"
  }

  /** Every category is listed exactly once, and the names tell them apart. */
  lemma PartTypesEnumerated()
    ensures |AllPartTypes| == 8
    ensures forall t :: t in AllPartTypes
    ensures forall i, j :: 0 <= i < j < |AllPartTypes| ==> AllPartTypes[i] != AllPartTypes[j]
    ensures forall t, u :: TypeName(t) == TypeName(u) ==> t == u
  {
    forall t ensures t in AllPartTypes {
      match t
      case CPU => assert AllPartTypes[0] == t;
      case Motherboard => assert AllPartTypes[1] == t;
      case Cooling => assert AllPartTypes[2] == t;
      case RAM => assert AllPartTypes[3] == t;
      case GPU => assert AllPartTypes[4] == t;
      case Storage => assert AllPartTypes[5] == t;
      case PSU => assert AllPartTypes[6] == t;
      case Case => assert AllPartTypes[7] == t;
    }
  }

  /**
   * A purchasable part. `tdp`, `socket` and `wattage` are each optional on
   * every part, whatever its category.
   */
  datatype Part = Part(
    id: string,
    name: string,
    partType: PartType,
    price: int,
    tdp: Option<int>,
    socket: Option<string>,
    wattage: Option<int>)

  /** A build: identity, label, and one optional part per category (`cases` for Case). */
  datatype Build = Build(
    id: string,
    name: string,
    cpu: Option<Part>,
    motherboard: Option<Part>,
    cooling: Option<Part>,
    ram: Option<Part>,
    gpu: Option<Part>,
    storage: Option<Part>,
    psu: Option<Part>,
    cases: Option<Part>)

  /** The slot that holds parts of category `t`. */
  function Slot(b: Build, t: PartType): Option<Part>
  {
    match t
    case CPU => b.cpu
    case Motherboard => b.motherboard
    case Cooling => b.cooling
    case RAM => b.ram
    case GPU => b.gpu
    case Storage => b.storage
    case PSU => b.psu
    case Case => b.cases
  }

  /** `b` with the slot of category `t` replaced by `v`; nothing else changes. */
  function WithSlot(b: Build, t: PartType, v: Option<Part>): (r: Build)
    ensures Slot(r, t) == v
    ensures forall u :: u != t ==> Slot(r, u) == Slot(b, u)
    ensures r.id == b.id && r.name == b.name
  {
    match t
    case CPU => b.(cpu := v)
    case Motherboard => b.(motherboard := v)
    case Cooling => b.(cooling := v)
    case RAM => b.(ram := v)
    case GPU => b.(gpu := v)
    case Storage => b.(storage := v)
    case PSU => b.(psu := v)
    case Case => b.(cases := v)
  }

  /** A build is determined by its identity, its label and its eight slots. */
  lemma SlotsDetermineBuild(b1: Build, b2: Build)
    requires b1.id == b2.id && b1.name == b2.name
    requires forall t :: Slot(b1, t) == Slot(b2, t)
    ensures b1 == b2
  {
    assert Slot(b1, CPU) == Slot(b2, CPU);
    assert Slot(b1, Motherboard) == Slot(b2, Motherboard);
    assert Slot(b1, Cooling) == Slot(b2, Cooling);
    assert Slot(b1, RAM) == Slot(b2, RAM);
    assert Slot(b1, GPU) == Slot(b2, GPU);
    assert Slot(b1, Storage) == Slot(b2, Storage);
    assert Slot(b1, PSU) == Slot(b2, PSU);
    assert Slot(b1, Case) == Slot(b2, Case);
  }

  /** A freshly created build: every slot is empty. */
  function EmptyBuild(id: string, name: string): (b: Build)
    ensures b.id == id && b.name == name
    ensures forall t :: Slot(b, t) == None
  {
    Build(id, name, None, None, None, None, None, None, None, None)
  }

  /** The laptop fields that the laptop list reads (prices as whole rupees). */
  datatype Laptop = Laptop(
    id: string,
    name: string,
    brand: string,
    cpu: string,
    ram: int,
    storageSize: int,
    displaySize: real,
    weight: real,
    price: int)
}
