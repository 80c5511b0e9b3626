/**
 * The pricing engine of the calculator screen: unit conversion, the two
 * cost formulas, the rounded and snapshotted line item, and the validation
 * that decides whether the add-item form yields an item at all.
 */
module Pricing {
  import opened Types
  import opened Rounding

  /** `convertToCm`: a length in the given unit, in centimetres, unrounded. */
  function ConvertToCm(value: real, unit: Unit): (cm: real)
    ensures (cm > 0.0) <==> (value > 0.0)
    ensures (cm == 0.0) <==> (value == 0.0)
  {
    match unit
    case Meter => value * 100.0
    case Inch => value * 2.54
    case Feet => value * 30.48
    case Cm => value
  }

  /**
   * The four units agree with one another: a metre is a hundred
   * centimetres, a foot is twelve inches, an inch is 2.54 centimetres.
   */
  lemma UnitsAgree(v: real)
    ensures ConvertToCm(v, Meter) == ConvertToCm(100.0 * v, Cm)
    ensures ConvertToCm(v, Feet) == ConvertToCm(12.0 * v, Inch)
    ensures ConvertToCm(v, Inch) == ConvertToCm(2.54 * v, Cm)
    ensures ConvertToCm(v, Cm) == v
  {
  }

  /** Conversion is linear and strictly increasing in the length. */
  lemma ConvertToCmLinear(a: real, b: real, unit: Unit)
    ensures ConvertToCm(a + b, unit) == ConvertToCm(a, unit) + ConvertToCm(b, unit)
    ensures a < b ==> ConvertToCm(a, unit) < ConvertToCm(b, unit)
  {
  }

  /** Metres of fabric one piece of the item takes: hem allowance only for curtains. */
  function PieceLengthM(itemType: ItemType, lengthCm: real, settings: Settings): real
  {
    match itemType
    case Curtain => (lengthCm + settings.extraHemCm) / 100.0
    case Other => lengthCm / 100.0
  }

  /** `fabricUsedM` before rounding, as each branch of the handler computes it. */
  function FabricUsedM(itemType: ItemType, lengthCm: real, quantity: int, settings: Settings): (m: real)
    ensures m == quantity as real * PieceLengthM(itemType, lengthCm, settings)
  {
    match itemType
    case Curtain => quantity as real * ((lengthCm + settings.extraHemCm) / 100.0)
    case Other => (lengthCm * quantity as real) / 100.0
  }

  /** `itemCost` before rounding: fabric at the metre price, plus stitching per curtain piece. */
  function ItemCost(itemType: ItemType, fabricUsedM: real, quantity: int, pricePerMeter: real, settings: Settings): (c: real)
    ensures itemType == Curtain ==>
              c == ItemCost(Other, fabricUsedM, quantity, pricePerMeter, settings) + quantity as real * settings.stitchingPrice
    ensures fabricUsedM >= 0.0 && quantity >= 0 && pricePerMeter >= 0.0 && settings.stitchingPrice >= 0.0 ==> c >= 0.0
    decreases if itemType == Curtain then 1 else 0
  {
    match itemType
    case Curtain => fabricUsedM * pricePerMeter + (quantity as real * settings.stitchingPrice)
    case Other => fabricUsedM * pricePerMeter
  }

  /** The unrounded cost of an item, from its converted length. */
  function UnroundedCost(itemType: ItemType, lengthCm: real, quantity: int, pricePerMeter: real, settings: Settings): real
  {
    ItemCost(itemType, FabricUsedM(itemType, lengthCm, quantity, settings), quantity, pricePerMeter, settings)
  }

  /** An `other` item is priced by yardage alone: the settings play no part. */
  lemma OtherIgnoresSettings(lengthCm: real, quantity: int, price: real, s1: Settings, s2: Settings)
    ensures FabricUsedM(Other, lengthCm, quantity, s1) == FabricUsedM(Other, lengthCm, quantity, s2)
    ensures UnroundedCost(Other, lengthCm, quantity, price, s1) == UnroundedCost(Other, lengthCm, quantity, price, s2)
  {
  }

  /**
   * A curtain is an `other` item whose length carries the hem allowance,
   * plus a stitching charge per piece.
   */
  lemma CurtainIsHemmedOtherPlusStitching(lengthCm: real, quantity: int, price: real, s: Settings)
    ensures FabricUsedM(Curtain, lengthCm, quantity, s) == FabricUsedM(Other, lengthCm + s.extraHemCm, quantity, s)
    ensures UnroundedCost(Curtain, lengthCm, quantity, price, s)
         == UnroundedCost(Other, lengthCm + s.extraHemCm, quantity, price, s) + quantity as real * s.stitchingPrice
  {
  }

  /** Fabric and cost grow linearly with the quantity: n pieces cost n times one piece. */
  lemma LinearInQuantity(itemType: ItemType, lengthCm: real, quantity: int, price: real, s: Settings)
    ensures FabricUsedM(itemType, lengthCm, quantity, s) == quantity as real * FabricUsedM(itemType, lengthCm, 1, s)
    ensures UnroundedCost(itemType, lengthCm, quantity, price, s) == quantity as real * UnroundedCost(itemType, lengthCm, 1, price, s)
  {
  }

  /** With non-negative prices and hem, a valid item's fabric and cost are non-negative. */
  lemma UnroundedNonNegative(itemType: ItemType, lengthCm: real, quantity: int, price: real, s: Settings)
    requires lengthCm > 0.0 && quantity > 0
    requires price >= 0.0 && s.stitchingPrice >= 0.0 && s.extraHemCm >= 0.0
    ensures FabricUsedM(itemType, lengthCm, quantity, s) > 0.0
    ensures UnroundedCost(itemType, lengthCm, quantity, price, s) >= 0.0
  {
    var piece := PieceLengthM(itemType, lengthCm, s);
    assert piece > 0.0;
    assert quantity as real * piece > 0.0;
  }

  /**
   * The finished line item: fabric id, name and design code copied from the
   * fabric; length, fabric used and cost each rounded to two decimals from
   * their own unrounded value.
   */
  function BuildItem(fabric: Fabric, itemType: ItemType, lengthValue: real, unit: Unit, quantity: int, settings: Settings): (item: NewOrderItem)
    ensures item.fabricId == fabric.id && item.fabricName == fabric.name && item.designCode == fabric.designCode
    ensures item.itemType == itemType && item.quantity == quantity
    ensures IsCents(item.lengthCm) && IsCents(item.fabricUsedM) && IsCents(item.cost)
    ensures item.lengthCm == RoundTo2(ConvertToCm(lengthValue, unit))
    ensures item.fabricUsedM == RoundTo2(FabricUsedM(itemType, ConvertToCm(lengthValue, unit), quantity, settings))
    ensures item.cost == RoundTo2(UnroundedCost(itemType, ConvertToCm(lengthValue, unit), quantity, fabric.pricePerMeter, settings))
  {
    var lengthCm := ConvertToCm(lengthValue, unit);
    var fabricUsedM := FabricUsedM(itemType, lengthCm, quantity, settings);
    var itemCost := ItemCost(itemType, fabricUsedM, quantity, fabric.pricePerMeter, settings);
    NewOrderItem(fabric.id, fabric.designCode, fabric.name, itemType,
                 RoundTo2(lengthCm), quantity, RoundTo2(itemCost), RoundTo2(fabricUsedM))
  }

  /**
   * Each rounded field is within half a cent of its exact value, and the
   * item's fields are non-negative when the inputs are valid and the prices
   * and hem are non-negative.
   */
  lemma BuildItemBounds(fabric: Fabric, itemType: ItemType, lengthValue: real, unit: Unit, quantity: int, settings: Settings)
    requires lengthValue > 0.0 && quantity > 0
    requires fabric.pricePerMeter >= 0.0 && settings.stitchingPrice >= 0.0 && settings.extraHemCm >= 0.0
    ensures var item := BuildItem(fabric, itemType, lengthValue, unit, quantity, settings);
            var lengthCm := ConvertToCm(lengthValue, unit);
            && item.lengthCm >= 0.0 && item.fabricUsedM >= 0.0 && item.cost >= 0.0
            && -0.005 <= item.cost - UnroundedCost(itemType, lengthCm, quantity, fabric.pricePerMeter, settings) <= 0.005
  {
    UnroundedNonNegative(itemType, ConvertToCm(lengthValue, unit), quantity, fabric.pricePerMeter, settings);
  }

  /**
   * The cost is rounded from the exact fabric used, not recomputed from the
   * rounded one: half a centimetre of an `other` fabric at 100 per metre
   * uses 0.005 m, shown as 0.01 m, but costs 0.50, not 1.00.
   */
  lemma CostNotFromRoundedFabric()
    ensures var fabric := Fabric(1, "F", "D", 100.0);
            var item := BuildItem(fabric, Other, 0.5, Cm, 1, Settings(0.0, 0.0));
            && item.fabricUsedM == 0.01 && item.cost == 0.5
            && item.cost != item.fabricUsedM * fabric.pricePerMeter
  {
    RoundTo2Unique(0.005, 0.01);
    RoundTo2Unique(0.5, 0.5);
  }

  /**
   * A curtain of 100 cm, two pieces, fabric at 10.00 per metre, stitching
   * 5.00 per piece and a 10 cm hem: 2.2 m of fabric for 32.00.
   */
  lemma CurtainExample()
    ensures var item := BuildItem(Fabric(7, "Linen", "L-01", 10.0), Curtain, 100.0, Cm, 2, Settings(5.0, 10.0));
            item.lengthCm == 100.0 && item.fabricUsedM == 2.2 && item.cost == 32.0
  {
    RoundTo2Unique(100.0, 100.0);
    RoundTo2Unique(2.2, 2.2);
    RoundTo2Unique(32.0, 32.0);
  }

  /** An `other` item of 2 metres, three pieces, at 10.00 per metre: 6 m for 60.00. */
  lemma OtherExample(s: Settings)
    ensures var item := BuildItem(Fabric(7, "Linen", "L-01", 10.0), Other, 2.0, Meter, 3, s);
            item.lengthCm == 200.0 && item.fabricUsedM == 6.0 && item.cost == 60.0
  {
    RoundTo2Unique(200.0, 200.0);
    RoundTo2Unique(6.0, 6.0);
    RoundTo2Unique(60.0, 60.0);
  }

  /**
   * `fabrics.find(f => f.id === id)`: the first catalogue fabric with that
   * id, or nothing when no fabric has it.
   */
  function FindFabric(fabrics: seq<Fabric>, id: int): (r: Option<Fabric>)
    ensures r.None? <==> forall k | 0 <= k < |fabrics| :: fabrics[k].id != id
    ensures r.Some? ==> exists k | 0 <= k < |fabrics| ::
              fabrics[k] == r.value && r.value.id == id && forall j | 0 <= j < k :: fabrics[j].id != id
  {
    if fabrics == [] then None
    else if fabrics[0].id == id then Some(fabrics[0])
    else
      var r := FindFabric(fabrics[1..], id);
      assert forall k | 0 <= k < |fabrics| - 1 :: fabrics[1..][k] == fabrics[k + 1];
      if r.Some? then
        var k :| 0 <= k < |fabrics| - 1 && fabrics[1..][k] == r.value && r.value.id == id
                 && forall j | 0 <= j < k :: fabrics[1..][j].id != id;
        assert fabrics[k + 1] == r.value;
        r
      else r
  }

  /**
   * A form field as the handler reads it: the empty string (falsy),
   * a non-empty string that parses to NaN, or a parsed number.
   */
  datatype FormField<T> = Empty | NaN | Number(value: T)

  /** The add-item form: fabric id, item type, length with its unit, quantity. */
  datatype Draft = Draft(fabricId: FormField<int>, itemType: ItemType, length: FormField<real>, unit: Unit, quantity: FormField<int>)

  /** Why the form yielded no item: a required field left blank, or a value that is not valid. */
  datatype AddError = MissingField | InvalidValue

  /** The fabric the form selects: `parseInt` of a non-number matches no id. */
  function SelectedFabric(fabrics: seq<Fabric>, fabricId: FormField<int>): Option<Fabric>
  {
    if fabricId.Number? then FindFabric(fabrics, fabricId.value) else None
  }

  /** Every required field is filled in and the settings have loaded. */
  predicate IsFilled(d: Draft, settings: Option<Settings>) {
    !d.fabricId.Empty? && !d.length.Empty? && !d.quantity.Empty? && settings.Some?
  }

  /** The fabric exists and the length and quantity are positive numbers. */
  predicate IsValid(d: Draft, fabrics: seq<Fabric>) {
    && SelectedFabric(fabrics, d.fabricId).Some?
    && d.length.Number? && d.length.value > 0.0
    && d.quantity.Number? && d.quantity.value > 0
  }

  /**
   * What submitting the add-item form produces: the blank-field check comes
   * first, then the value check, then the priced item.
   */
  function PriceDraft(d: Draft, fabrics: seq<Fabric>, settings: Option<Settings>): (r: Result<NewOrderItem, AddError>)
    ensures r == Err(MissingField) <==> d.fabricId.Empty? || d.length.Empty? || d.quantity.Empty? || settings.None?
    ensures r == Err(InvalidValue) <==> IsFilled(d, settings) && !IsValid(d, fabrics)
    ensures r.Ok? <==> IsFilled(d, settings) && IsValid(d, fabrics)
    ensures r.Ok? ==> var fabric := SelectedFabric(fabrics, d.fabricId).value;
                      && fabric in fabrics && fabric.id == d.fabricId.value
                      && r.value == BuildItem(fabric, d.itemType, d.length.value, d.unit, d.quantity.value, settings.value)
  {
    if !IsFilled(d, settings) then Err(MissingField)
    else if !IsValid(d, fabrics) then Err(InvalidValue)
    else Ok(BuildItem(SelectedFabric(fabrics, d.fabricId).value, d.itemType, d.length.value, d.unit, d.quantity.value, settings.value))
  }

  /**
   * Each rejection named by the handler: zero, negative or non-numeric
   * length, zero or negative or non-numeric quantity, or an unknown fabric
   * never yields an item.
   */
  lemma RejectedDrafts(d: Draft, fabrics: seq<Fabric>, settings: Option<Settings>)
    requires d.length == Number(0.0) || (d.length.Number? && d.length.value < 0.0) || d.length == NaN
          || d.quantity == Number(0) || (d.quantity.Number? && d.quantity.value < 0) || d.quantity == NaN
          || d.fabricId == NaN || (d.fabricId.Number? && forall f | f in fabrics :: f.id != d.fabricId.value)
    ensures PriceDraft(d, fabrics, settings).Err?
  {
    if d.fabricId.Number? && forall f | f in fabrics :: f.id != d.fabricId.value {
      assert forall k | 0 <= k < |fabrics| :: fabrics[k] in fabrics;
    }
  }
}
