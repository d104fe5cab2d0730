/** What a tax breakdown owes to the configured rates (backend/services/business/Taxes.go), category by category. */
module TaxRates {
  import opened Taxes
  import opened TaxLaws

  /** What the items of one category cost. */
  function Sold(items: seq<Item>, category: Category): real {
    SumOf(items, LineTotal, (item: Item) => item.category == category)
  }

  /** One plain item costs its price, and every modifier its own price once per item. */
  lemma ModifiersAreAdded(item: Item, m: Modifier)
    ensures LineTotal(Item(item.unitPrice, 1, item.category, [])) == item.unitPrice
    ensures LineTotal(item.(modifiers := item.modifiers + [m])) ==
            LineTotal(item) + m.additionalPrice * item.quantity as real
  {
    assert (item.modifiers + [m])[..|item.modifiers|] == item.modifiers;
    Distribute(item.unitPrice + ModifierSum(item.modifiers), m.additionalPrice, item.quantity as real);
  }

  /** Ordering an item twice costs as much as ordering the quantities together. */
  lemma QuantitiesAdd(item: Item, more: int)
    ensures LineTotal(item.(quantity := item.quantity + more)) == LineTotal(item) + LineTotal(item.(quantity := more))
  {
    var price := item.unitPrice + ModifierSum(item.modifiers);
    Distribute(item.quantity as real, more as real, price);
  }

  /** The subtotal is what the five categories cost. */
  lemma {:induction false} SubtotalByCategory(items: seq<Item>)
    ensures Subtotal(items) ==
            Sold(items, Standard) + Sold(items, Other) + Sold(items, Takeaway)
            + Sold(items, Alcohol) + Sold(items, Exempt)
  {
    if items == [] {
    } else {
      SubtotalByCategory(items[..|items| - 1]);
    }
  }

  lemma TaxOnSum(a: real, b: real, rate: Rate)
    ensures TaxOn(a + b, rate) == TaxOn(a, rate) + TaxOn(b, rate)
  {
    Distribute(a, b, rate);
  }

  lemma TaxOnNothing(rate: Rate)
    ensures TaxOn(0.0, rate) == 0.0
  {
  }

  /** The rate that takeaway items get in an order of this type. */
  function TakeawayShare(config: Config, orderType: OrderType): Rate {
    match orderType
    case TakeawayOrder => config.takeawayRate
    case Delivery => config.takeawayRate
    case DineIn => config.defaultRate
    case Online => config.defaultRate
  }

  lemma {:induction false} AddedSums(config: Config, orderType: OrderType, items: seq<Item>)
    ensures SumOf(items, AddedTax(config, orderType), Every) ==
            TaxOn(Sold(items, Standard), config.defaultRate) + TaxOn(Sold(items, Other), config.defaultRate)
            + TaxOn(Sold(items, Takeaway), TakeawayShare(config, orderType))
            + TaxOn(Sold(items, Alcohol), config.alcoholRate)
    ensures SumOf(items, AddedTax(config, orderType), IsAlcohol) == TaxOn(Sold(items, Alcohol), config.alcoholRate)
  {
    if items == [] {
      TaxOnNothing(config.defaultRate);
      TaxOnNothing(TakeawayShare(config, orderType));
      TaxOnNothing(config.alcoholRate);
    } else {
      var rest, last := items[..|items| - 1], items[|items| - 1];
      AddedSums(config, orderType, rest);
      var rate := ExclusiveRate(config, orderType, last.category);
      TaxOnSum(Sold(rest, last.category), LineTotal(last), rate);
      OneCategoryGrows(items);
    }
  }

  /** Only the category of the last item grows with it. */
  lemma OneCategoryGrows(items: seq<Item>)
    requires items != []
    ensures var rest, last := items[..|items| - 1], items[|items| - 1];
            forall c :: Sold(items, c) == Sold(rest, c) + if c == last.category then LineTotal(last) else 0.0
  {
  }

  lemma Products(config: Config, standard: real, other: real, takeaway: real, alcohol: real)
    ensures TaxOn(standard, config.defaultRate) + TaxOn(other, config.defaultRate) ==
            config.defaultRate * (standard + other)
    ensures TaxOn(standard, config.defaultRate) + TaxOn(other, config.defaultRate)
            + TaxOn(takeaway, config.defaultRate) == config.defaultRate * (standard + other + takeaway)
    ensures TaxOn(takeaway, config.takeawayRate) == config.takeawayRate * takeaway
    ensures TaxOn(alcohol, config.alcoholRate) == config.alcoholRate * alcohol
  {
    TaxOnSum(standard, other, config.defaultRate);
    TaxOnSum(standard + other, takeaway, config.defaultRate);
  }

  /** The unrounded item taxes in terms of the rates: of all items, and of alcohol. */
  lemma AddedByRates(config: Config, orderType: OrderType, items: seq<Item>)
    ensures SumOf(items, AddedTax(config, orderType), Every) ==
            (if orderType == DineIn || orderType == Online then
               config.defaultRate * (Sold(items, Standard) + Sold(items, Other) + Sold(items, Takeaway))
             else
               config.defaultRate * (Sold(items, Standard) + Sold(items, Other))
               + config.takeawayRate * Sold(items, Takeaway))
            + config.alcoholRate * Sold(items, Alcohol)
    ensures SumOf(items, AddedTax(config, orderType), IsAlcohol) == config.alcoholRate * Sold(items, Alcohol)
  {
    AddedSums(config, orderType, items);
    Products(config, Sold(items, Standard), Sold(items, Other), Sold(items, Takeaway), Sold(items, Alcohol));
  }

  /**
  Prices without tax, no charge and no rounding: the total tax is the default rate on standard
  and other items, and on takeaway items of an order that is eaten in or placed online; the
  takeaway rate on those of a takeaway or delivery order; and the alcohol rate on alcohol, which
  is also shown by itself. Exempt items are in the subtotal only.
  */
  lemma AddedByCategory(config: Config, orderType: OrderType, items: seq<Item>, chargePct: real)
    requires config.taxEnabled && !config.inclusive && !config.roundTax && chargePct <= 0.0
    ensures var b := Assessment(config, orderType, items, chargePct);
            && b.totalTax ==
               (if orderType == DineIn || orderType == Online then
                  config.defaultRate * (Sold(items, Standard) + Sold(items, Other) + Sold(items, Takeaway))
                else
                  config.defaultRate * (Sold(items, Standard) + Sold(items, Other))
                  + config.takeawayRate * Sold(items, Takeaway))
               + config.alcoholRate * Sold(items, Alcohol)
            && b.alcoholTax == config.alcoholRate * Sold(items, Alcohol)
            && b.standardTax + b.alcoholTax == b.totalTax
            && b.subtotal == b.taxable
            && b.subtotal == Sold(items, Standard) + Sold(items, Other) + Sold(items, Takeaway)
                             + Sold(items, Alcohol) + Sold(items, Exempt)
            && b.grandTotal == RoundTo2Decimals(b.subtotal + b.totalTax)
  {
    AddedByRates(config, orderType, items);
    CategoriesPartition(items, AddedTax(config, orderType));
    SubtotalByCategory(items);
  }

  /** The charge is its percentage of the subtotal. */
  lemma ChargeIsPercentage(subtotal: real, pct: real)
    ensures ServiceCharge(subtotal, pct) == subtotal * pct / 100.0
  {
  }

  /**
  A charge that is taken before tax adds itself to the taxable amount, and its tax at the default
  rate to the total and standard tax; one taken after tax is added to the grand total only.
  Rounding rounds the three taxes.
  */
  lemma ChargeByRates(config: Config, orderType: OrderType, items: seq<Item>, chargePct: real)
    requires config.taxEnabled && !config.inclusive && chargePct > 0.0
    ensures var plain := Assessment(config.(roundTax := false), orderType, items, 0.0);
            var b := Assessment(config, orderType, items, chargePct);
            var charge := ServiceCharge(plain.subtotal, chargePct);
            var taxedCharge := if config.serviceChargeBeforeTax then charge else 0.0;
            && b.subtotal == plain.subtotal && b.serviceCharge == charge
            && b.taxable == b.subtotal + taxedCharge
            && b.totalTax == Rounded(config.roundTax, plain.totalTax + TaxOn(taxedCharge, config.defaultRate))
            && b.standardTax == Rounded(config.roundTax, plain.standardTax + TaxOn(taxedCharge, config.defaultRate))
            && b.alcoholTax == Rounded(config.roundTax, plain.alcoholTax)
            && b.grandTotal == RoundTo2Decimals(b.subtotal + b.totalTax + (charge - taxedCharge))
  {
    SameAddedSums(config, orderType, items, Every);
    SameAddedSums(config, orderType, items, NotAlcohol);
    SameAddedSums(config, orderType, items, IsAlcohol);
    TaxOnNothing(config.defaultRate);
  }

  lemma {:induction false} SameAddedSums(config: Config, orderType: OrderType, items: seq<Item>, counts: Item -> bool)
    ensures SumOf(items, AddedTax(config.(roundTax := false), orderType), counts) ==
            SumOf(items, AddedTax(config, orderType), counts)
  {
    if items == [] {
    } else {
      SameAddedSums(config, orderType, items[..|items| - 1], counts);
    }
  }

  lemma QuotientSum(a: real, b: real, d: real)
    requires d != 0.0
    ensures (a + b) / d == a / d + b / d && 0.0 / d == 0.0
  {
    Distribute(a / d, b / d, d);
    Quotient(a / d + b / d, d);
  }

  lemma ExtractedSum(a: real, b: real, rate: Rate)
    ensures Extracted(a + b, rate) == Extracted(a, rate) + Extracted(b, rate)
    ensures Extracted(0.0, rate) == 0.0
  {
    var d: real := 1.0 + rate as real;
    QuotientSum(a, b, d);
  }

  lemma {:induction false} IncludedSums(config: Config, items: seq<Item>)
    ensures SumOf(items, IncludedTax(config), IsAlcohol) == Extracted(Sold(items, Alcohol), config.alcoholRate)
    ensures SumOf(items, IncludedTax(config), NotAlcohol) ==
            Extracted(Sold(items, Standard) + Sold(items, Other) + Sold(items, Takeaway), config.defaultRate)
  {
    if items == [] {
      ExtractedSum(0.0, 0.0, config.alcoholRate);
      ExtractedSum(0.0, 0.0, config.defaultRate);
    } else {
      var rest, last := items[..|items| - 1], items[|items| - 1];
      IncludedSums(config, rest);
      OneCategoryGrows(items);
      ExtractedSum(Sold(rest, Alcohol), LineTotal(last), config.alcoholRate);
      var plain := Sold(rest, Standard) + Sold(rest, Other) + Sold(rest, Takeaway);
      ExtractedSum(plain, LineTotal(last), config.defaultRate);
      ExtractedSum(0.0, LineTotal(last), 0.0);
      assert Extracted(LineTotal(last), 0.0) == 0.0;
    }
  }

  /**
  Prices with tax: what standard, other and takeaway items cost contains tax at the default rate,
  in any order, what alcohol costs at the alcohol rate, and exempt items none. The taxes are
  rounded, the taxable amount is the subtotal without the total tax, and nothing is added.
  */
  lemma ExtractedByCategory(config: Config, orderType: OrderType, items: seq<Item>, chargePct: real)
    requires config.inclusive
    ensures var b := Assessment(config, orderType, items, chargePct);
            var plain := Sold(items, Standard) + Sold(items, Other) + Sold(items, Takeaway);
            var alcohol := Sold(items, Alcohol);
            var plainTax := plain - plain / (1.0 + config.defaultRate);
            var alcoholTax := alcohol - alcohol / (1.0 + config.alcoholRate);
            && b.totalTax == RoundTo2Decimals(plainTax + alcoholTax)
            && b.standardTax == RoundTo2Decimals(plainTax) && b.alcoholTax == RoundTo2Decimals(alcoholTax)
            && b.taxable + b.totalTax == b.subtotal == b.grandTotal && b.serviceCharge == 0.0
            && b.subtotal == plain + alcohol + Sold(items, Exempt)
  {
    IncludedSums(config, items);
    CategoriesPartition(items, IncludedTax(config));
    SubtotalByCategory(items);
  }

  /** A takeaway item of 100.00 in a takeaway order is taxed at the takeaway rate of 5%, and at home at 13%. */
  lemma TakeawayMeal()
    ensures var config := Config(true, false, 0.13, 0.20, 0.05, false, true);
            var meal := [Item(100.0, 1, Takeaway, [])];
            var b, home := Assessment(config, TakeawayOrder, meal, 0.0), Assessment(config, DineIn, meal, 0.0);
            && b.totalTax == b.standardTax == 5.0 && b.grandTotal == 105.0
            && home.totalTax == home.standardTax == 13.0 && home.grandTotal == 113.0
  {
    var item := Item(100.0, 1, Takeaway, []);
    assert [item][..0] == [];
    assert LineTotal(item) == 100.0;
  }

  /** A line shows its item's category and the rate that category has, and its amount is the tax at that rate. */
  lemma LinesShowRates(config: Config, orderType: OrderType, item: Item)
    requires config.inclusive || config.taxEnabled
    ensures var l := Line(config, orderType, item);
            && l.category == item.category && l.lineTotal == LineTotal(item)
            && (item.category == Alcohol ==> l.rate == config.alcoholRate)
            && (item.category == Exempt ==> l.rate == l.amount == 0.0)
            && (item.category == Standard || item.category == Other ==> l.rate == config.defaultRate)
            && (item.category == Takeaway ==>
                  l.rate == if !config.inclusive && (orderType == TakeawayOrder || orderType == Delivery)
                            then config.takeawayRate else config.defaultRate)
            && (if config.inclusive then (l.lineTotal - l.amount) * (1.0 + l.rate) == l.lineTotal
                else l.amount == l.rate * l.lineTotal)
  {
    if config.inclusive {
      var rate := InclusiveRate(config, item.category);
      var d: real := 1.0 + rate as real;
      assert LineTotal(item) - Extracted(LineTotal(item), rate) == LineTotal(item) / d;
    }
  }

  /** With tax off and prices that exclude it, everything is the subtotal, unrounded, and no line shows a rate. */
  lemma UntaxedIsPlain(config: Config, orderType: OrderType, items: seq<Item>, chargePct: real, item: Item)
    requires !config.inclusive && !config.taxEnabled
    ensures var b := Assessment(config, orderType, items, chargePct);
            && b.taxable == b.grandTotal == b.subtotal == Subtotal(items)
            && b.totalTax == b.standardTax == b.alcoholTax == b.serviceCharge == 0.0
    ensures Line(config, orderType, item) == ItemTax(LineTotal(item), 0.0, 0.0, item.category)
  {
  }
}
