/**
The tax engine of backend/services/business/Taxes.go and the order total of
backend/models/order.go, over exact reals.
*/
module Taxes {

  datatype Category = Standard | Alcohol | Exempt | Takeaway | Other

  datatype OrderType = DineIn | TakeawayOrder | Delivery | Online

  datatype Modifier = Modifier(additionalPrice: real)

  datatype Item = Item(unitPrice: real, quantity: int, category: Category, modifiers: seq<Modifier>)

  /** A rate of -100% would make the extraction divide by zero. */
  type Rate = r: real | 1.0 + r != 0.0 witness 0.0

  datatype Config = Config(
    taxEnabled: bool, inclusive: bool, defaultRate: Rate, alcoholRate: Rate, takeawayRate: Rate,
    serviceChargeBeforeTax: bool, roundTax: bool)

  datatype ItemTax = ItemTax(lineTotal: real, rate: real, amount: real, category: Category)

  datatype Breakdown = Breakdown(
    subtotal: real, serviceCharge: real, taxable: real, totalTax: real, grandTotal: real,
    standardTax: real, alcoholTax: real, items: seq<ItemTax>)

  /** Conversion to an integer drops the fraction. */
  function Truncate(x: real): int { if x >= 0.0 then x.Floor else -((-x).Floor) }

  function RoundTo2Decimals(x: real): real { Truncate(x * 100.0 + 0.5) as real / 100.0 }

  // ---------------------------------------------------------------------------
  // Meaning of the totals
  // ---------------------------------------------------------------------------

  function ModifierSum(ms: seq<Modifier>): real {
    if ms == [] then 0.0 else ModifierSum(ms[..|ms| - 1]) + ms[|ms| - 1].additionalPrice
  }

  /** An item's price with its modifiers, times its quantity. */
  function LineTotal(item: Item): real {
    (item.unitPrice + ModifierSum(item.modifiers)) * item.quantity as real
  }

  /** The rate added on top of a price. */
  function ExclusiveRate(config: Config, orderType: OrderType, category: Category): Rate {
    match category
    case Alcohol => config.alcoholRate
    case Takeaway =>
      if orderType == TakeawayOrder || orderType == Delivery then config.takeawayRate else config.defaultRate
    case Exempt => 0.0
    case _ => config.defaultRate
  }

  /** The rate extracted from a price that includes tax; takeaway items get no rate of their own. */
  function InclusiveRate(config: Config, category: Category): Rate {
    match category
    case Alcohol => config.alcoholRate
    case Exempt => 0.0
    case _ => config.defaultRate
  }

  function Extracted(lineTotal: real, rate: Rate): real { lineTotal - lineTotal / (1.0 + rate) }

  /** The tax on each item when prices exclude it, and when they include it. */
  function AddedTax(config: Config, orderType: OrderType): Item -> real {
    (item: Item) => TaxOn(LineTotal(item), ExclusiveRate(config, orderType, item.category))
  }

  function IncludedTax(config: Config): Item -> real {
    (item: Item) => Extracted(LineTotal(item), InclusiveRate(config, item.category))
  }

  /** The sum of an amount over the items that count. */
  function SumOf(items: seq<Item>, amount: Item -> real, counts: Item -> bool): real {
    if items == [] then 0.0
    else
      var last := items[|items| - 1];
      SumOf(items[..|items| - 1], amount, counts) + (if counts(last) then amount(last) else 0.0)
  }

  function Every(item: Item): bool { true }
  function IsAlcohol(item: Item): bool { item.category == Alcohol }
  function NotAlcohol(item: Item): bool { item.category != Alcohol }

  function Subtotal(items: seq<Item>): real { SumOf(items, LineTotal, Every) }

  function ServiceCharge(subtotal: real, pct: real): real { subtotal * (pct / 100.0) }

  function TaxOn(amount: real, rate: Rate): real { amount * rate }

  function Rounded(round: bool, x: real): real { if round then RoundTo2Decimals(x) else x }

  /** Exclusive pricing from the subtotal and the unrounded item taxes: charge, its tax, rounding, grand total. */
  function OnTop(config: Config, subtotal: real, total: real, standard: real, alcohol: real, chargePct: real)
    : Breakdown
  {
    var charged := chargePct > 0.0;
    var before := charged && config.serviceChargeBeforeTax;
    var charge := if charged then ServiceCharge(subtotal, chargePct) else 0.0;
    var chargeTax := if before then TaxOn(charge, config.defaultRate) else 0.0;
    var totalTax := Rounded(config.roundTax, total + chargeTax);
    Breakdown(subtotal, charge, if before then subtotal + charge else subtotal, totalTax,
              RoundTo2Decimals(subtotal + totalTax + (if charged && !before then charge else 0.0)),
              Rounded(config.roundTax, standard + chargeTax), Rounded(config.roundTax, alcohol), [])
  }

  /** The breakdown without its per-item lines. */
  function Assessment(config: Config, orderType: OrderType, items: seq<Item>, chargePct: real): Breakdown {
    var subtotal := Subtotal(items);
    if config.inclusive then
      var tax := IncludedTax(config);
      var total := RoundTo2Decimals(SumOf(items, tax, Every));
      Breakdown(subtotal, 0.0, subtotal - total, total, subtotal,
                RoundTo2Decimals(SumOf(items, tax, NotAlcohol)), RoundTo2Decimals(SumOf(items, tax, IsAlcohol)), [])
    else if !config.taxEnabled then
      Breakdown(subtotal, 0.0, subtotal, 0.0, subtotal, 0.0, 0.0, [])
    else
      var tax := AddedTax(config, orderType);
      OnTop(config, subtotal, SumOf(items, tax, Every),
            SumOf(items, tax, NotAlcohol), SumOf(items, tax, IsAlcohol), chargePct)
  }

  /** The per-item line a breakdown carries: none of the rates is known while tax is disabled. */
  function Line(config: Config, orderType: OrderType, item: Item): ItemTax {
    if config.inclusive then
      ItemTax(LineTotal(item), InclusiveRate(config, item.category), IncludedTax(config)(item), item.category)
    else if config.taxEnabled then
      ItemTax(LineTotal(item), ExclusiveRate(config, orderType, item.category),
              AddedTax(config, orderType)(item), item.category)
    else ItemTax(LineTotal(item), 0.0, 0.0, item.category)
  }

  // ---------------------------------------------------------------------------
  // The calculator
  // ---------------------------------------------------------------------------

  lemma Distribute(a: real, b: real, q: real)
    ensures a * q + b * q == (a + b) * q
  {
  }

  /** Price and modifiers are multiplied by the quantity one by one. */
  method CostOf(item: Item) returns (lineTotal: real)
    ensures lineTotal == LineTotal(item)
  {
    var q := item.quantity as real;
    lineTotal := item.unitPrice * q;
    for i := 0 to |item.modifiers|
      invariant lineTotal == (item.unitPrice + ModifierSum(item.modifiers[..i])) * q
    {
      ghost var seen := item.modifiers[..i + 1];
      assert seen[..i] == item.modifiers[..i];
      Distribute(item.unitPrice + ModifierSum(item.modifiers[..i]), item.modifiers[i].additionalPrice, q);
      lineTotal := lineTotal + item.modifiers[i].additionalPrice * q;
    }
    assert item.modifiers[..|item.modifiers|] == item.modifiers;
  }

  method AddUp(items: seq<Item>) returns (subtotal: real, lines: seq<ItemTax>)
    ensures subtotal == Subtotal(items)
    ensures |lines| == |items|
    ensures forall i :: 0 <= i < |items| ==> lines[i] == ItemTax(LineTotal(items[i]), 0.0, 0.0, items[i].category)
  {
    subtotal, lines := 0.0, [];
    for i := 0 to |items|
      invariant subtotal == Subtotal(items[..i])
      invariant |lines| == i
      invariant forall k :: 0 <= k < i ==> lines[k] == ItemTax(LineTotal(items[k]), 0.0, 0.0, items[k].category)
    {
      assert items[..i + 1][..i] == items[..i];
      var lineTotal := CostOf(items[i]);
      subtotal := subtotal + lineTotal;
      lines := lines + [ItemTax(lineTotal, 0.0, 0.0, items[i].category)];
    }
    assert items[..|items|] == items;
  }

  /** Fills in the tax of every line and adds the taxes up by category. */
  method TaxLines(config: Config, orderType: OrderType, items: seq<Item>, untaxed: seq<ItemTax>)
    returns (lines: seq<ItemTax>, total: real, standard: real, alcohol: real)
    requires config.inclusive || config.taxEnabled
    requires |untaxed| == |items|
    requires forall i :: 0 <= i < |items| ==> untaxed[i] == ItemTax(LineTotal(items[i]), 0.0, 0.0, items[i].category)
    ensures |lines| == |items| && forall i :: 0 <= i < |items| ==> lines[i] == Line(config, orderType, items[i])
    ensures var tax := if config.inclusive then IncludedTax(config) else AddedTax(config, orderType);
            && total == SumOf(items, tax, Every)
            && standard == SumOf(items, tax, NotAlcohol) && alcohol == SumOf(items, tax, IsAlcohol)
  {
    ghost var tax := if config.inclusive then IncludedTax(config) else AddedTax(config, orderType);
    lines := untaxed;
    total, standard, alcohol := 0.0, 0.0, 0.0;
    for i := 0 to |items|
      invariant |lines| == |items|
      invariant forall k :: 0 <= k < i ==> lines[k] == Line(config, orderType, items[k])
      invariant forall k :: i <= k < |items| ==> lines[k] == untaxed[k]
      invariant total == SumOf(items[..i], tax, Every)
      invariant standard == SumOf(items[..i], tax, NotAlcohol)
      invariant alcohol == SumOf(items[..i], tax, IsAlcohol)
    {
      assert items[..i + 1][..i] == items[..i];
      var item := items[i];
      var lineTotal := lines[i].lineTotal;
      var rate: Rate, amount: real;
      if config.inclusive {
        rate := InclusiveRate(config, item.category);
        amount := Extracted(lineTotal, rate);
      } else {
        rate := ExclusiveRate(config, orderType, item.category);
        amount := TaxOn(lineTotal, rate);
      }
      assert amount == tax(item);
      lines := lines[i := lines[i].(rate := rate, amount := amount)];
      if item.category == Alcohol {
        alcohol := alcohol + amount;
      } else {
        standard := standard + amount;
      }
      total := total + amount;
    }
    assert items[..|items|] == items;
  }

  method CalculateTax(config: Config, orderType: OrderType, items: seq<Item>, chargePct: real) returns (b: Breakdown)
    ensures b.(items := []) == Assessment(config, orderType, items, chargePct)
    ensures |b.items| == |items| && forall i :: 0 <= i < |items| ==> b.items[i] == Line(config, orderType, items[i])
  {
    var subtotal, lines := AddUp(items);
    b := Breakdown(subtotal, 0.0, 0.0, 0.0, 0.0, 0.0, 0.0, lines);
    if config.inclusive {
      b := ExtractIncludedTax(config, orderType, items, b);
      return;
    }
    if !config.taxEnabled {
      b := b.(taxable := subtotal, grandTotal := subtotal);
      return;
    }
    b := AddTaxOnTop(config, orderType, items, chargePct, b);
  }

  /** Tax-exclusive pricing: service charge, tax per item, tax on the charge, rounding, grand total. */
  method AddTaxOnTop(config: Config, orderType: OrderType, items: seq<Item>, chargePct: real, started: Breakdown)
    returns (b: Breakdown)
    requires !config.inclusive && config.taxEnabled && |started.items| == |items|
    requires started.(items := []) == Breakdown(Subtotal(items), 0.0, 0.0, 0.0, 0.0, 0.0, 0.0, [])
    requires forall i :: 0 <= i < |items| ==>
               started.items[i] == ItemTax(LineTotal(items[i]), 0.0, 0.0, items[i].category)
    ensures b.(items := []) == Assessment(config, orderType, items, chargePct)
    ensures |b.items| == |items| && forall i :: 0 <= i < |items| ==> b.items[i] == Line(config, orderType, items[i])
  {
    var taxed, total, standard, alcohol := TaxLines(config, orderType, items, started.items);
    b := SettleTotals(config, started.subtotal, total, standard, alcohol, chargePct);
    b := b.(items := taxed);
  }

  method SettleTotals(config: Config, subtotal: real, total: real, standard: real, alcohol: real, chargePct: real)
    returns (b: Breakdown)
    ensures b == OnTop(config, subtotal, total, standard, alcohol, chargePct)
  {
    b := Breakdown(subtotal, 0.0, subtotal, total, 0.0, standard, alcohol, []);
    if chargePct > 0.0 {
      b := b.(serviceCharge := ServiceCharge(subtotal, chargePct));
      if config.serviceChargeBeforeTax {
        b := b.(taxable := subtotal + b.serviceCharge);
      }
    }
    if config.serviceChargeBeforeTax && chargePct > 0.0 {
      var chargeTax := TaxOn(b.serviceCharge, config.defaultRate);
      b := b.(standardTax := b.standardTax + chargeTax, totalTax := b.totalTax + chargeTax);
    }
    if config.roundTax {
      b := b.(totalTax := RoundTo2Decimals(b.totalTax), standardTax := RoundTo2Decimals(b.standardTax),
              alcoholTax := RoundTo2Decimals(b.alcoholTax));
    }
    b := b.(grandTotal := b.subtotal + b.totalTax);
    if !config.serviceChargeBeforeTax && chargePct > 0.0 {
      b := b.(grandTotal := b.grandTotal + b.serviceCharge);
    }
    b := b.(grandTotal := RoundTo2Decimals(b.grandTotal));
  }

  /** Tax-inclusive pricing: neither the tax switch nor the service charge is looked at. */
  method ExtractIncludedTax(config: Config, orderType: OrderType, items: seq<Item>, started: Breakdown)
    returns (b: Breakdown)
    requires config.inclusive
    requires started.subtotal == Subtotal(items) && started.serviceCharge == 0.0
    requires |started.items| == |items|
    requires forall i :: 0 <= i < |items| ==>
               started.items[i] == ItemTax(LineTotal(items[i]), 0.0, 0.0, items[i].category)
    ensures forall pct :: b.(items := []) == Assessment(config, orderType, items, pct)
    ensures |b.items| == |items| && forall i :: 0 <= i < |items| ==> b.items[i] == Line(config, orderType, items[i])
  {
    var taxed, total, standard, alcohol := TaxLines(config, orderType, items, started.items);
    b := started.(items := taxed, totalTax := RoundTo2Decimals(total), standardTax := RoundTo2Decimals(standard),
                  alcoholTax := RoundTo2Decimals(alcohol));
    b := b.(taxable := b.subtotal - b.totalTax, grandTotal := b.subtotal);
  }

  // ---------------------------------------------------------------------------
  // The order
  // ---------------------------------------------------------------------------

  /** The items of an order, as far as its total is concerned. */
  class Order {
    var items: seq<Item>
    var totalAmount: real

    constructor (items: seq<Item>)
      ensures this.items == items
    {
      this.items := items;
      totalAmount := 0.0;
    }

    /** The modifiers are summed before the quantity multiplies them. */
    static method LineTotalOf(item: Item) returns (total: real)
      ensures total == LineTotal(item)
    {
      var modifierSum := 0.0;
      for i := 0 to |item.modifiers|
        invariant modifierSum == ModifierSum(item.modifiers[..i])
      {
        assert item.modifiers[..i + 1][..i] == item.modifiers[..i];
        modifierSum := modifierSum + item.modifiers[i].additionalPrice;
      }
      assert item.modifiers[..|item.modifiers|] == item.modifiers;
      total := (item.unitPrice + modifierSum) * item.quantity as real;
    }

    /** The order's total is the subtotal that the tax engine starts from. */
    method RecalculateTotal()
      modifies this`totalAmount
      ensures totalAmount == Subtotal(items)
    {
      var total := 0.0;
      for i := 0 to |items|
        invariant total == Subtotal(items[..i])
      {
        assert items[..i + 1][..i] == items[..i];
        var line := LineTotalOf(items[i]);
        total := total + line;
      }
      assert items[..|items|] == items;
      totalAmount := total;
    }
  }
}
