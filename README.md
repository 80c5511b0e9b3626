# Curtain shop calculator: pricing engine and draft order

A Dafny model of the calculator screen of an order-intake tool for a
made-to-measure curtain and fabric shop. The screen turns a measured length
into centimetres and prices a line item. A curtain item pays for fabric with a
per-piece hem allowance plus a per-piece stitching charge. An "other" item is
billed by yardage only. The screen rounds the item's length, fabric used and
cost to two decimals and copies the fabric's name and design code into it. It
keeps the items in a draft order, which it totals, shortens by position and
finally sends to the order service once a customer name and at least one item
are present.

Modules, one concern each:

- `Types` (types.dfy): the records of `types.ts` (unit, fabric, settings,
  item type, line item) as datatypes, with `Option` and `Result`.
- `Rounding` (rounding.dfy): `parseFloat(x.toFixed(2))` on exact reals.
- `Pricing` (pricing.dfy): `convertToCm`, the two cost formulas, the built
  item, `fabrics.find`, and which form contents yield an item.
- `DraftOrder` (order.dfy): the order total as the left fold the source
  uses, and removal by index as the index filter the source uses. Each is
  proved equal to an independent reference definition: the plain sum and
  the splice `items[..i] + items[i+1..]`.
- `Submission` (submission.dfy): JavaScript's `trim` and the two save guards.
- `CalculatorState` (calculator.dfy): class `Calculator`, the screen's state
  (customer fields, item list, loaded catalogue and settings, form fields).
  Its methods are the add, remove and save handlers. Each method is proved
  against the functions above. The class invariant `Valid` says every item
  in the list has two-decimal fields, a positive quantity and a catalogue
  fabric's id, name and design code. Under non-negative rates it also says
  every item's fabric used and cost are non-negative.

Numbers are exact `real`s, so the cost formulas and the total hold exactly,
not up to floating-point error. Form fields hold what `parseFloat` or
`parseInt` made of the text: `Empty` for the empty string (which the first
guard rejects), `NaN` for text that does not parse, `Number(v)` otherwise.

Behaviours of the handlers worth noting:

- Removing at an index outside the list leaves the list unchanged, because
  the handler filters the list by position.
- Rounding sends ties away from zero: `toFixed` rounds the magnitude of a
  number and then restores its sign.
- There are two add errors. Missing settings are reported together with
  blank fields ("fill all required fields"). An unknown fabric, a
  non-numeric value and a non-positive value share the second error.
- The order total is the exact sum of the already rounded item costs, and
  is not itself rounded.
- Nothing in the handlers requires prices, the stitching price or the hem
  allowance to be non-negative. The invariant therefore promises
  non-negative fabric used, costs and total only under non-negative rates.

## Model

| member | source | states |
|---|---|---|
| Pricing.ConvertToCm | components/Calculator.tsx:87-94 | the converted length is positive exactly when the input length is, and zero exactly when it is |
| Pricing.UnitsAgree | components/Calculator.tsx:87-94 | a metre is 100 cm, a foot is 12 inches, an inch is 2.54 cm, and cm (the default branch) is the value unchanged |
| Pricing.ConvertToCmLinear | components/Calculator.tsx:87-96 | conversion is additive in the length and strictly increasing, for every unit |
| Pricing.FabricUsedM | components/Calculator.tsx:98-106 | fabric used is the quantity times the metres of one piece; a curtain piece includes the hem allowance |
| Pricing.ItemCost | components/Calculator.tsx:98-106 | a curtain costs what an other item with the same fabric used costs, plus quantity times the stitching price; with non-negative inputs the cost is non-negative |
| Pricing.OtherIgnoresSettings | components/Calculator.tsx:103-106 | the fabric used and the cost of an other item are the same under any two settings |
| Pricing.CurtainIsHemmedOtherPlusStitching | components/Calculator.tsx:100-106 | a curtain uses the fabric of an other item lengthened by the hem, and costs that item's cost plus quantity times the stitching price |
| Pricing.LinearInQuantity | components/Calculator.tsx:98-106 | fabric used and unrounded cost of n pieces are n times those of one piece, for both item types |
| Pricing.UnroundedNonNegative | components/Calculator.tsx:98-106 | with a positive length and quantity and non-negative price, stitching and hem, fabric used is positive and the cost non-negative |
| Pricing.BuildItem | components/Calculator.tsx:108-117 | the item copies fabric id, name, design code, item type and quantity; length, fabric used and cost are two-decimal roundings of their own unrounded values |
| Pricing.BuildItemBounds | components/Calculator.tsx:108-117 | for valid inputs and non-negative prices the item's length, fabric used and cost are non-negative, and the cost is within half a cent of the exact cost |
| Pricing.CostNotFromRoundedFabric | components/Calculator.tsx:113-116 | the cost is not recomputed from the rounded fabric used: 0.5 cm of other fabric at 100/m shows 0.01 m but costs 0.50 |
| Pricing.CurtainExample | components/Calculator.tsx:100-102 | 100 cm curtain, 2 pieces, 10.00/m, stitching 5.00, hem 10 cm: 2.2 m of fabric, cost 32.00 |
| Pricing.OtherExample | components/Calculator.tsx:103-105 | 2 m of other fabric, 3 pieces, 10.00/m: 200 cm, 6 m, cost 60.00, whatever the settings |
| Pricing.FindFabric | components/Calculator.tsx:80 | returns the first catalogue fabric with the id, and nothing exactly when no fabric has that id |
| Pricing.PriceDraft | components/Calculator.tsx:73-117 | a blank fabric, length or quantity field or missing settings gives MissingField; otherwise an unknown fabric or a non-numeric or non-positive length or quantity gives InvalidValue; otherwise the item built from the found fabric |
| Pricing.RejectedDrafts | components/Calculator.tsx:82-85 | zero, negative or non-numeric length or quantity, and an unknown or non-numeric fabric id, never yield an item |
| Rounding.Cents | components/Calculator.tsx:113-116 | the kept hundredths are within half a unit of 100·x, a tie going away from zero |
| Rounding.RoundTo2 | components/Calculator.tsx:113-116 | the result has two decimals, is within 0.005 of x, keeps the sign of a non-negative x, and leaves a two-decimal x unchanged |
| Rounding.RoundTo2Unique | components/Calculator.tsx:113-116 | for x ≥ 0 the result is the one two-decimal c with c − 0.005 ≤ x < c + 0.005 |
| Rounding.RoundTo2Idempotent | components/Calculator.tsx:113-116 | rounding a rounded value changes nothing |
| Rounding.RoundTo2Negate | components/Calculator.tsx:113-116 | rounding commutes with negation |
| DraftOrder.FoldCostIsSum | components/Calculator.tsx:68 | the left fold from any start value is that value plus the sum of the item costs |
| DraftOrder.TotalCost | components/Calculator.tsx:68 | the total folded from 0 equals the sum of the item costs, and is non-negative when every item cost is |
| DraftOrder.SumNonNegative | components/Calculator.tsx:68 | a sum of non-negative costs is non-negative |
| DraftOrder.SumConcat | components/Calculator.tsx:68 | the sum over two lists joined is the sum of their sums |
| DraftOrder.TotalAppend | components/Calculator.tsx:68 | appending an item adds exactly its cost to the total |
| DraftOrder.TotalIsOrderIndependent | components/Calculator.tsx:68 | two lists holding the same items in any order have the same total |
| DraftOrder.FilterIndexSplices | components/Calculator.tsx:131 | filtering out one position is the splice around it when the position is in the list, and the identity otherwise |
| DraftOrder.RemoveAt | components/Calculator.tsx:131 | an in-range index gives the other items in order and one fewer; an out-of-range index gives the list unchanged |
| DraftOrder.RemoveAtMultiset | components/Calculator.tsx:131 | removal takes out exactly the item at that position |
| DraftOrder.TotalRemove | components/Calculator.tsx:131 | removing an in-range item takes exactly its cost off the total |
| DraftOrder.AddThenRemove | components/Calculator.tsx:131 | appending an item and removing the last position gives back the list before |
| Submission.LeadingWhitespace | components/Calculator.tsx:135 | the count of leading characters that trim removes, stopping at the first non-whitespace one |
| Submission.TrailingWhitespace | components/Calculator.tsx:135 | the count of trailing characters that trim removes, stopping at the last non-whitespace one |
| Submission.TrimBounds | components/Calculator.tsx:135 | the cut points of trim: everything before the first and from the second on is whitespace, and the kept part starts and ends with non-whitespace |
| Submission.Trim | components/Calculator.tsx:135 | the trimmed name is a contiguous slice of the name, everything outside the slice is whitespace, and a non-empty result neither starts nor ends with whitespace |
| Submission.TrimEmptyIffBlank | components/Calculator.tsx:135 | the trimmed name is empty exactly when the name is empty or all whitespace |
| Submission.CheckSubmission | components/Calculator.tsx:135-142 | a blank name is refused first; a non-blank name with no items is refused as an empty order; both present passes |
| CalculatorState.BuiltItemNonNegative | components/Calculator.tsx:98-117 | under non-negative catalogue prices, stitching price and hem, an item built from a catalogue fabric with positive length and quantity has non-negative fabric used and cost |
| CalculatorState.AppendFinalized | components/Calculator.tsx:119 | appending an item built by the add handler keeps every item of the list finalized |
| CalculatorState.Calculator.NonNegativeTotal | components/Calculator.tsx:68 | under non-negative rates the class invariant makes the order total non-negative |
| CalculatorState.Calculator.constructor | components/Calculator.tsx:28-43 | the screen after loading: empty customer fields and items, form reset to curtain and cm |
| CalculatorState.Calculator.SelectFabricName | components/Calculator.tsx:185 | choosing a fabric name clears the chosen design code and keeps the class invariant |
| CalculatorState.Calculator.AddFabric | components/Calculator.tsx:70-128 | a rejected form returns its error and changes nothing; an accepted one appends exactly the priced item at the end, keeps earlier items, resets the form to blank, curtain, cm, keeps the class invariant, and under non-negative rates leaves a non-negative total |
| CalculatorState.Calculator.RemoveItem | components/Calculator.tsx:130-132 | the list becomes RemoveAt of the old list, an in-range removal lowers the total by that item's cost, and under non-negative rates the total stays non-negative |
| CalculatorState.Calculator.SaveOrder | components/Calculator.tsx:134-164 | a failed guard sends nothing and changes nothing; otherwise customer and items are sent; only a stored order clears customer fields, items and fabric name |

## Left out

- Text parsing by `parseFloat` and `parseInt`, such as `parseInt("2.5")` giving 2 or `parseFloat("Infinity")` passing the positivity check. Form fields hold the parsed value instead.
- IEEE-754 doubles. All arithmetic is on exact reals, so binary rounding in `toFixed` (1.005 rounding to 1.00) is not modelled.
- Loading of fabrics and settings in `useEffect` and the loading flag. The constructor receives the loaded values.
- Memoisation with `useMemo` and `useCallback`, the fabric-name and design-code option lists, and rendering.
- The text of `showAlert` messages. The handlers return an error value instead.
- The call to `apiService.addOrder` and its `await`. `SaveOrder` takes the service's answer as a parameter and returns the data it sends.
- SaveOrder: runs as one atomic step, so it does not capture what happens while `await apiService.addOrder` is pending (components/Calculator.tsx:149). Nothing disables the form during that wait. An item added or a name typed meanwhile is wiped by the reset at components/Calculator.tsx:158-162 without being sent, and a second click on Save sends the order twice.
- The view switch to the order list after a save.
- Display rounding of the order total (`totalCost.toFixed(2)`). The model keeps the exact sum.
- The order list, settings screen, invoice and tailoring templates, header, alert and the HTTP service. These are views and network I/O.
