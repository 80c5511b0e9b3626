/**
 * The records of the curtain shop's data model (types.ts), as values.
 * Identifiers that are JavaScript numbers become `int`; prices and lengths
 * become exact `real`s (no IEEE-754 doubles).
 */
module Types {

  datatype Option<+T> = None | Some(value: T)

  datatype Result<+T, +E> = Ok(value: T) | Err(error: E)

  /** The length units the add-item form offers. */
  datatype Unit = Cm | Meter | Inch | Feet

  /** A catalogue fabric: a design code of a named fabric, priced per linear metre. */
  datatype Fabric = Fabric(id: int, name: string, designCode: string, pricePerMeter: real)

  /** Shop-wide tunables that only curtain items use. */
  datatype Settings = Settings(stitchingPrice: real, extraHemCm: real)

  datatype ItemType = Curtain | Other

  /**
   * A finalised line item of a draft order: an order item before the server
   * gives it an id and an order id. Fabric name and design code are copies
   * taken when the item is built.
   */
  datatype NewOrderItem = NewOrderItem(
    fabricId: int,
    designCode: string,
    fabricName: string,
    itemType: ItemType,
    lengthCm: real,
    quantity: int,
    cost: real,
    fabricUsedM: real)
}
