/** One row of the `phones` table, as the endpoints read and write it. Text
    columns are nullable; `None` is SQL `null`. */
module Phones {
  import opened Js

  /** The twelve specification columns. */
  datatype Specs = Specs(
    processor: Option<string>,
    ram: Option<string>,
    storage: Option<string>,
    battery: Option<string>,
    mainCamera: Option<string>,
    selfieCamera: Option<string>,
    displaySize: Option<string>,
    displayType: Option<string>,
    os: Option<string>,
    network: Option<string>,
    weight: Option<string>,
    dimensions: Option<string>)

  datatype PhoneRow = PhoneRow(
    id: string,
    name: string,
    slug: string,
    brand: Option<string>,
    currentPrice: real,
    originalPrice: Option<real>,
    discount: Option<string>,
    rating: Option<real>,
    imageUrl: Option<string>,
    specs: Specs)

  /** The twelve specification columns, by name. */
  datatype SpecColumn =
    | Processor | Ram | Storage | Battery | MainCamera | SelfieCamera
    | DisplaySize | DisplayType | Os | Network | Weight | Dimensions

  /** The database name of a specification column. */
  function ColumnName(c: SpecColumn): string
  {
    match c
    case Processor => "processor"
    case Ram => "ram"
    case Storage => "storage"
    case Battery => "battery"
    case MainCamera => "main_camera"
    case SelfieCamera => "selfie_camera"
    case DisplaySize => "display_size"
    case DisplayType => "display_type"
    case Os => "os"
    case Network => "network"
    case Weight => "weight"
    case Dimensions => "dimensions"
  }

  /** The database names of the twelve specification columns. */
  const SpecColumnNames: set<string> := {
    "processor", "ram", "storage", "battery", "main_camera", "selfie_camera",
    "display_size", "display_type", "os", "network", "weight", "dimensions"}

  lemma ColumnNamesAreSpecColumnNames()
    ensures forall c :: ColumnName(c) in SpecColumnNames
    ensures forall name :: name in SpecColumnNames ==> exists c :: ColumnName(c) == name
  {
    forall name | name in SpecColumnNames ensures exists c :: ColumnName(c) == name {
      if name == "processor" { assert ColumnName(Processor) == name; }
      else if name == "ram" { assert ColumnName(Ram) == name; }
      else if name == "storage" { assert ColumnName(Storage) == name; }
      else if name == "battery" { assert ColumnName(Battery) == name; }
      else if name == "main_camera" { assert ColumnName(MainCamera) == name; }
      else if name == "selfie_camera" { assert ColumnName(SelfieCamera) == name; }
      else if name == "display_size" { assert ColumnName(DisplaySize) == name; }
      else if name == "display_type" { assert ColumnName(DisplayType) == name; }
      else if name == "os" { assert ColumnName(Os) == name; }
      else if name == "network" { assert ColumnName(Network) == name; }
      else if name == "weight" { assert ColumnName(Weight) == name; }
      else { assert ColumnName(Dimensions) == name; }
    }
  }

  /** The value of a specification column. */
  function Column(s: Specs, c: SpecColumn): Option<string>
  {
    match c
    case Processor => s.processor
    case Ram => s.ram
    case Storage => s.storage
    case Battery => s.battery
    case MainCamera => s.mainCamera
    case SelfieCamera => s.selfieCamera
    case DisplaySize => s.displaySize
    case DisplayType => s.displayType
    case Os => s.os
    case Network => s.network
    case Weight => s.weight
    case Dimensions => s.dimensions
  }

  /** Two rows of specifications that agree on every column are equal. */
  lemma ColumnsDetermineSpecs(s: Specs, t: Specs)
    requires forall c :: Column(s, c) == Column(t, c)
    ensures s == t
  {
    assert Column(s, Processor) == Column(t, Processor);
    assert Column(s, Ram) == Column(t, Ram);
    assert Column(s, Storage) == Column(t, Storage);
    assert Column(s, Battery) == Column(t, Battery);
    assert Column(s, MainCamera) == Column(t, MainCamera);
    assert Column(s, SelfieCamera) == Column(t, SelfieCamera);
    assert Column(s, DisplaySize) == Column(t, DisplaySize);
    assert Column(s, DisplayType) == Column(t, DisplayType);
    assert Column(s, Os) == Column(t, Os);
    assert Column(s, Network) == Column(t, Network);
    assert Column(s, Weight) == Column(t, Weight);
    assert Column(s, Dimensions) == Column(t, Dimensions);
  }
}
