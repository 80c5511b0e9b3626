/**
 * The calculator screen's state and its three handlers: adding a priced
 * item from the form, removing an item by position, and saving the order.
 * The catalogue and the settings are the values the screen loaded; the
 * form fields hold what `parseFloat` / `parseInt` make of the raw input.
 */
module CalculatorState {
  import opened Types
  import opened Rounding
  import opened Pricing
  import opened DraftOrder
  import opened Submission

  /** The customer fields sent with an order. */
  datatype CustomerDetails = CustomerDetails(name: string, phone: string, address: string)

  /** What `handleSaveOrder` hands to the order service. */
  datatype OrderData = OrderData(customer: CustomerDetails, items: seq<NewOrderItem>)

  /** How saving ended: refused by a guard, refused by the service, or stored under an id. */
  datatype SaveResult = Refused(reason: SubmitError) | SaveFailed(message: string) | Saved(orderId: int)

  /** The add-item form as it is after a reset. */
  const BlankForm := Draft(Empty, Curtain, Empty, Cm, Empty)

  /**
   * An item as the add handler builds it: two-decimal length, fabric used
   * and cost, a positive quantity, a non-negative length, and the id, name
   * and design code of a catalogue fabric.
   */
  ghost predicate IsFinalized(item: NewOrderItem, fabrics: seq<Fabric>) {
    && IsCents(item.lengthCm) && IsCents(item.fabricUsedM) && IsCents(item.cost)
    && item.lengthCm >= 0.0 && item.quantity > 0
    && exists f | f in fabrics :: f.id == item.fabricId && f.name == item.fabricName && f.designCode == item.designCode
  }

  /**
   * Every catalogue price, the stitching price and the hem allowance are
   * non-negative (the settings screen accepts any value, so this is a
   * condition, not a given).
   */
  predicate NonNegativeRates(fabrics: seq<Fabric>, settings: Option<Settings>) {
    && (forall f | f in fabrics :: f.pricePerMeter >= 0.0)
    && (settings.Some? ==> settings.value.stitchingPrice >= 0.0 && settings.value.extraHemCm >= 0.0)
  }

  /**
   * Every item was built by the add handler from this catalogue, and under
   * non-negative rates its fabric used and cost are non-negative.
   */
  ghost predicate AllFinalized(items: seq<NewOrderItem>, fabrics: seq<Fabric>, settings: Option<Settings>) {
    forall k | 0 <= k < |items| ::
      && IsFinalized(items[k], fabrics)
      && (NonNegativeRates(fabrics, settings) ==> items[k].fabricUsedM >= 0.0 && items[k].cost >= 0.0)
  }

  /** Under non-negative rates an item built from a catalogue fabric has non-negative fabric used and cost. */
  lemma BuiltItemNonNegative(fabric: Fabric, itemType: ItemType, lengthValue: real, unit: Unit, quantity: int,
                             fabrics: seq<Fabric>, settings: Option<Settings>)
    requires fabric in fabrics && settings.Some? && NonNegativeRates(fabrics, settings)
    requires lengthValue > 0.0 && quantity > 0
    ensures BuildItem(fabric, itemType, lengthValue, unit, quantity, settings.value).fabricUsedM >= 0.0
    ensures BuildItem(fabric, itemType, lengthValue, unit, quantity, settings.value).cost >= 0.0
  {
    BuildItemBounds(fabric, itemType, lengthValue, unit, quantity, settings.value);
  }

  /** Appending an item built like the others keeps the list finalized. */
  lemma AppendFinalized(items: seq<NewOrderItem>, item: NewOrderItem, fabrics: seq<Fabric>, settings: Option<Settings>)
    requires AllFinalized(items, fabrics, settings) && IsFinalized(item, fabrics)
    requires NonNegativeRates(fabrics, settings) ==> item.fabricUsedM >= 0.0 && item.cost >= 0.0
    ensures AllFinalized(items + [item], fabrics, settings)
  {
    assert forall k | 0 <= k < |items| :: (items + [item])[k] == items[k];
  }

  class Calculator {
    var customerName: string
    var customerPhone: string
    var customerAddress: string
    var orderItems: seq<NewOrderItem>

    var fabrics: seq<Fabric>
    var settings: Option<Settings>

    var selectedFabricName: string
    var selectedFabricId: FormField<int>
    var itemType: ItemType
    var length: FormField<real>
    var lengthUnit: Unit
    var quantity: FormField<int>

    /** The draft order holds only items the add handler built from this catalogue. */
    ghost predicate Valid()
      reads this
    {
      AllFinalized(orderItems, fabrics, settings)
    }

    /** The add-item form fields. */
    function Form(): Draft
      reads this
    {
      Draft(selectedFabricId, itemType, length, lengthUnit, quantity)
    }

    /** The screen once its data has loaded: everything blank, no items. */
    constructor (fabrics: seq<Fabric>, settings: Option<Settings>)
      ensures Valid()
      ensures this.fabrics == fabrics && this.settings == settings
      ensures customerName == "" && customerPhone == "" && customerAddress == ""
      ensures orderItems == [] && selectedFabricName == "" && Form() == BlankForm
    {
      customerName, customerPhone, customerAddress := "", "", "";
      orderItems := [];
      this.fabrics := fabrics;
      this.settings := settings;
      selectedFabricName := "";
      selectedFabricId, itemType, length, lengthUnit, quantity := Empty, Curtain, Empty, Cm, Empty;
    }

    /** Choosing a fabric name clears the chosen design code. */
    method SelectFabricName(name: string)
      requires Valid()
      modifies this`selectedFabricName, this`selectedFabricId
      ensures Valid()
      ensures selectedFabricName == name && selectedFabricId == Empty
    {
      selectedFabricName := name;
      selectedFabricId := Empty;
    }

    /**
     * `handleAddFabric`: on a rejected form nothing changes and the error is
     * returned; otherwise exactly the priced item is appended and the form
     * is reset (the fabric name stays).
     */
    method AddFabric() returns (error: Option<AddError>)
      requires Valid()
      modifies this`orderItems, this`selectedFabricId, this`itemType, this`length, this`lengthUnit, this`quantity
      ensures Valid()
      ensures match PriceDraft(old(Form()), fabrics, settings)
              case Ok(item) => error == None && orderItems == old(orderItems) + [item] && Form() == BlankForm
              case Err(e) => error == Some(e) && orderItems == old(orderItems) && Form() == old(Form())
      ensures NonNegativeRates(fabrics, settings) ==> TotalCost(orderItems) >= 0.0
    {
      NonNegativeTotal();
      if selectedFabricId.Empty? || length.Empty? || quantity.Empty? || settings.None? {
        return Some(MissingField);
      }
      var selectedFabric := SelectedFabric(fabrics, selectedFabricId);
      if selectedFabric.None? || length.NaN? || quantity.NaN? || quantity.value <= 0 || length.value <= 0.0 {
        return Some(InvalidValue);
      }

      var fabric, s, count := selectedFabric.value, settings.value, quantity.value;
      var lengthCm := ConvertToCm(length.value, lengthUnit);
      var fabricUsedM: real;
      var itemCost: real;
      if itemType == Curtain {
        fabricUsedM := count as real * ((lengthCm + s.extraHemCm) / 100.0);
        itemCost := fabricUsedM * fabric.pricePerMeter + (count as real * s.stitchingPrice);
      } else {
        fabricUsedM := (lengthCm * count as real) / 100.0;
        itemCost := fabricUsedM * fabric.pricePerMeter;
      }
      assert fabricUsedM == FabricUsedM(itemType, lengthCm, count, s);
      assert itemCost == UnroundedCost(itemType, lengthCm, count, fabric.pricePerMeter, s);
      var newItem := NewOrderItem(fabric.id, fabric.designCode, fabric.name, itemType,
                                  RoundTo2(lengthCm), count, RoundTo2(itemCost), RoundTo2(fabricUsedM));
      assert newItem == BuildItem(fabric, itemType, length.value, lengthUnit, count, s);
      assert PriceDraft(Form(), fabrics, settings) == Ok(newItem);
      assert fabric in fabrics;
      assert IsFinalized(newItem, fabrics);
      if NonNegativeRates(fabrics, settings) {
        BuiltItemNonNegative(fabric, itemType, length.value, lengthUnit, count, fabrics, settings);
      }
      AppendFinalized(orderItems, newItem, fabrics, settings);
      orderItems := orderItems + [newItem];

      selectedFabricId, itemType, length, lengthUnit, quantity := Empty, Curtain, Empty, Cm, Empty;
      NonNegativeTotal();
      return None;
    }

    /** Under non-negative rates the invariant makes the order total non-negative. */
    lemma NonNegativeTotal()
      requires Valid()
      ensures NonNegativeRates(fabrics, settings) ==> TotalCost(orderItems) >= 0.0
    {
      if NonNegativeRates(fabrics, settings) {
        assert forall k | 0 <= k < |orderItems| :: orderItems[k].cost >= 0.0;
      }
    }

    /**
     * `handleRemoveItem`: the items at every other position, in order; the
     * total drops by the removed item's cost.
     */
    method RemoveItem(index: int)
      requires Valid()
      modifies this`orderItems
      ensures Valid()
      ensures orderItems == RemoveAt(old(orderItems), index)
      ensures 0 <= index < |old(orderItems)| ==>
                TotalCost(orderItems) == TotalCost(old(orderItems)) - old(orderItems)[index].cost
      ensures NonNegativeRates(fabrics, settings) ==> TotalCost(orderItems) >= 0.0
    {
      if 0 <= index < |orderItems| {
        TotalRemove(orderItems, index);
      }
      orderItems := RemoveAt(orderItems, index);
      NonNegativeTotal();
    }

    /**
     * `handleSaveOrder`, with the order service's answer as `response` (an
     * order id or an error message). A guard that fails sends nothing and
     * changes nothing; otherwise the customer fields and items are sent,
     * and only a stored order clears the customer fields, the items and
     * the chosen fabric name.
     */
    method SaveOrder(response: Result<int, string>) returns (sent: Option<OrderData>, result: SaveResult)
      requires Valid()
      modifies this`customerName, this`customerPhone, this`customerAddress, this`orderItems, this`selectedFabricName
      ensures Valid()
      ensures var check := CheckSubmission(old(customerName), old(orderItems));
              var order := OrderData(CustomerDetails(old(customerName), old(customerPhone), old(customerAddress)), old(orderItems));
              if check.Some? then
                && sent == None && result == Refused(check.value)
                && customerName == old(customerName) && orderItems == old(orderItems)
              else
                && sent == Some(order)
                && (response.Err? ==> result == SaveFailed(response.error)
                                      && customerName == old(customerName) && orderItems == old(orderItems))
                && (response.Ok? ==> result == Saved(response.value)
                                     && customerName == "" && orderItems == [])
      ensures result.Saved? <==> CheckSubmission(old(customerName), old(orderItems)) == None && response.Ok?
      ensures !result.Saved? ==> customerPhone == old(customerPhone) && customerAddress == old(customerAddress)
                                 && selectedFabricName == old(selectedFabricName)
      ensures result.Saved? ==> customerPhone == "" && customerAddress == "" && selectedFabricName == ""
    {
      TrimEmptyIffBlank(customerName);
      if Trim(customerName) == [] {
        return None, Refused(MissingCustomerName);
      }
      if |orderItems| == 0 {
        return None, Refused(EmptyOrder);
      }

      var orderData := OrderData(CustomerDetails(customerName, customerPhone, customerAddress), orderItems);
      sent := Some(orderData);
      if response.Err? {
        return sent, SaveFailed(response.error);
      }

      customerName, customerPhone, customerAddress := "", "", "";
      orderItems := [];
      selectedFabricName := "";
      return sent, Saved(response.value);
    }
  }
}
