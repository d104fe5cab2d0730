/** Laws of the tax engine (backend/services/business/Taxes.go). */
module TaxLaws {
  import opened Taxes

  // ---------------------------------------------------------------------------
  // Sums over items
  // ---------------------------------------------------------------------------

  function Term(item: Item, amount: Item -> real, counts: Item -> bool): real {
    if counts(item) then amount(item) else 0.0
  }

  /** Taking one item out takes its amount out. */
  lemma {:induction false} SumWithout(items: seq<Item>, j: nat, amount: Item -> real, counts: Item -> bool)
    requires j < |items|
    ensures SumOf(items, amount, counts) ==
            SumOf(items[..j] + items[j + 1..], amount, counts) + Term(items[j], amount, counts)
    decreases |items|
  {
    var n := |items| - 1;
    if j == n {
      assert items[..j] + items[j + 1..] == items[..n];
    } else {
      var without := items[..j] + items[j + 1..];
      SumWithout(items[..n], j, amount, counts);
      assert without[..|without| - 1] == items[..n][..j] + items[..n][j + 1..];
      assert without[|without| - 1] == items[n];
    }
  }

  /** Where the last element of a sequence is in a permutation of it, and what is left of both without it. */
  lemma LastIsSomewhere<T>(a: seq<T>, b: seq<T>) returns (j: nat)
    requires a != [] && multiset(a) == multiset(b)
    ensures j < |b| && b[j] == a[|a| - 1]
    ensures multiset(a[..|a| - 1]) == multiset(b[..j] + b[j + 1..])
  {
    var last := a[|a| - 1];
    assert a == a[..|a| - 1] + [last];
    assert last in multiset(b);
    j :| 0 <= j < |b| && b[j] == last;
    assert b == b[..j] + [last] + b[j + 1..];
    assert multiset(a) == multiset(a[..|a| - 1]) + multiset{last};
    assert multiset(b) == multiset(b[..j] + b[j + 1..]) + multiset{last};
    assert multiset(a[..|a| - 1]) == multiset(a) - multiset{last};
    assert multiset(b[..j] + b[j + 1..]) == multiset(b) - multiset{last};
  }

  /** A sum over items does not depend on their order. */
  lemma {:induction false} SumIgnoresOrder(a: seq<Item>, b: seq<Item>, amount: Item -> real, counts: Item -> bool)
    requires multiset(a) == multiset(b)
    ensures SumOf(a, amount, counts) == SumOf(b, amount, counts)
    decreases |a|
  {
    if a == [] {
      assert |multiset(b)| == 0;
    } else {
      var j := LastIsSomewhere(a, b);
      SumIgnoresOrder(a[..|a| - 1], b[..j] + b[j + 1..], amount, counts);
      SumWithout(b, j, amount, counts);
    }
  }

  /** Every amount of the breakdown is independent of the order in which the items are listed. */
  lemma TaxIgnoresItemOrder(config: Config, orderType: OrderType, a: seq<Item>, b: seq<Item>, chargePct: real)
    requires multiset(a) == multiset(b)
    ensures Assessment(config, orderType, a, chargePct) == Assessment(config, orderType, b, chargePct)
  {
    SumIgnoresOrder(a, b, LineTotal, Every);
    var tax := if config.inclusive then IncludedTax(config) else AddedTax(config, orderType);
    SumIgnoresOrder(a, b, tax, Every);
    SumIgnoresOrder(a, b, tax, NotAlcohol);
    SumIgnoresOrder(a, b, tax, IsAlcohol);
  }

  /** Before rounding, the standard and the alcohol tax make up the total tax. */
  lemma {:induction false} CategoriesPartition(items: seq<Item>, amount: Item -> real)
    ensures SumOf(items, amount, Every) == SumOf(items, amount, NotAlcohol) + SumOf(items, amount, IsAlcohol)
  {
    if items == [] {
    } else {
      CategoriesPartition(items[..|items| - 1], amount);
    }
  }

  lemma {:induction false} SumNonNegative(items: seq<Item>, amount: Item -> real, counts: Item -> bool)
    requires forall i :: 0 <= i < |items| ==> amount(items[i]) >= 0.0
    ensures SumOf(items, amount, counts) >= 0.0
  {
    if items == [] {
    } else {
      SumNonNegative(items[..|items| - 1], amount, counts);
    }
  }

  // ---------------------------------------------------------------------------
  // Rounding
  // ---------------------------------------------------------------------------

  function Abs(x: real): real { if x >= 0.0 then x else -x }

  function Cents(x: real): int { Truncate(x * 100.0 + 0.5) }

  /** Rounding is to the nearest cent, halves upwards, for amounts that are not negative. */
  lemma RoundingIsNearest(x: real)
    requires x >= 0.0
    ensures RoundTo2Decimals(x) - 0.005 <= x < RoundTo2Decimals(x) + 0.005
  {
  }

  /** Whether an amount in cents is a half above a whole number. */
  predicate IsTie(x: real) { (x * 100.0 + 0.5).Floor as real == x * 100.0 + 0.5 }

  /**
  Exactly which amounts are rounded to a nearest cent: those of at least minus half a cent,
  and those half way between two cents. Any other negative amount, whole cents included, is
  pushed up by more than half a cent.
  */
  lemma RoundingIsNearestExactly(x: real)
    ensures Abs(RoundTo2Decimals(x) - x) <= 0.005 <==> x >= -0.005 || IsTie(x)
    ensures x < -0.005 ==> x + 0.005 <= RoundTo2Decimals(x) < x + 0.015
    ensures x < -0.005 && !IsTie(x) ==> RoundTo2Decimals(x) > x + 0.005
  {
    var y := x * 100.0 + 0.5;
    if x < -0.005 {
      assert y < 0.0 && Truncate(y) == -((-y).Floor);
      assert y <= Truncate(y) as real < y + 1.0;
      CeilingOf(y);
    }
  }

  /** Dropping the fraction of a negative number goes to the next whole number up, unless it is one. */
  lemma CeilingOf(y: real)
    requires y < 0.0
    ensures Truncate(y) == if y.Floor as real == y then y.Floor else y.Floor + 1
  {
  }

  /** Rounding two non-negative parts and their sum separately differs by at most one cent. */
  lemma RoundedPartsWithinACent(a: real, b: real)
    requires a >= 0.0 && b >= 0.0
    ensures Abs(RoundTo2Decimals(a) + RoundTo2Decimals(b) - RoundTo2Decimals(a + b)) <= 0.01
  {
    var ca, cb, cs := Cents(a), Cents(b), Cents(a + b);
    assert ca as real <= a * 100.0 + 0.5 < (ca + 1) as real;
    assert cb as real <= b * 100.0 + 0.5 < (cb + 1) as real;
    assert cs as real <= (a + b) * 100.0 + 0.5 < (cs + 1) as real;
    assert -1 <= ca + cb - cs <= 1;
    var d := ca + cb - cs;
    assert RoundTo2Decimals(a) + RoundTo2Decimals(b) - RoundTo2Decimals(a + b) == d as real / 100.0;
  }

  function Fraction(y: real): (f: real)
    ensures 0.0 <= f < 1.0
  {
    y - y.Floor as real
  }

  /** What rounding takes the fraction from. */
  function Shifted(x: real): real { x * 100.0 + 0.5 }

  /** Dropping its fraction pushes the number up. */
  predicate PushedUp(y: real) { y < 0.0 && Fraction(y) > 0.0 }

  /**
  Both parts are pushed up and their fractions make at most a half, or one of them is and the
  fractions make less than a half and the sum is not pushed up with them.
  */
  predicate FractionsApart(ya: real, yb: real) {
    || (PushedUp(ya) && PushedUp(yb) && Fraction(ya) + Fraction(yb) <= 0.5)
    || ((PushedUp(ya) || PushedUp(yb)) && Fraction(ya) + Fraction(yb) < 0.5 && ya + yb - 0.5 >= 0.0)
  }

  /** Two amounts whose rounded sum is two cents off the sum of the rounded amounts. */
  predicate TwoCentsApart(a: real, b: real) { FractionsApart(Shifted(a), Shifted(b)) }

  lemma TruncateParts(y: real)
    ensures Truncate(y) == y.Floor + (if PushedUp(y) then 1 else 0)
  {
  }

  /** How the whole parts of two shifted amounts add up. */
  lemma FloorOfSum(ya: real, yb: real)
    ensures var ys := ya + yb - 0.5;
            var f := Fraction(ya) + Fraction(yb);
            && ys.Floor == ya.Floor + yb.Floor + (if f < 0.5 then -1 else if f < 1.5 then 0 else 1)
            && Fraction(ys) == (if f < 0.5 then f + 0.5 else if f < 1.5 then f - 0.5 else f - 1.5)
  {
  }

  lemma GapInCents(ya: real, yb: real)
    ensures var ys := ya + yb - 0.5;
            var d := Truncate(ya) + Truncate(yb) - Truncate(ys);
            && -1 <= d <= 2
            && (d == 2 <==> FractionsApart(ya, yb))
  {
    var ys := ya + yb - 0.5;
    FloorOfSum(ya, yb);
    TruncateParts(ya);
    TruncateParts(yb);
    TruncateParts(ys);
  }

  /** Exactly when rounding two parts and their sum separately differs by more than a cent; then it is two cents. */
  lemma PartsApartExactly(a: real, b: real)
    ensures var gap := RoundTo2Decimals(a) + RoundTo2Decimals(b) - RoundTo2Decimals(a + b);
            && (Abs(gap) > 0.01 <==> TwoCentsApart(a, b))
            && (Abs(gap) > 0.01 ==> gap == 0.02)
  {
    var ya, yb := Shifted(a), Shifted(b);
    assert Shifted(a + b) == ya + yb - 0.5;
    var d := Cents(a) + Cents(b) - Cents(a + b);
    assert RoundTo2Decimals(a) + RoundTo2Decimals(b) - RoundTo2Decimals(a + b) == d as real / 100.0;
    GapInCents(ya, yb);
  }

  /** The items' amounts and rates are not negative. */
  ghost predicate NonNegative(config: Config, items: seq<Item>) {
    && config.defaultRate >= 0.0 && config.alcoholRate >= 0.0 && config.takeawayRate >= 0.0
    && forall i :: 0 <= i < |items| ==> LineTotal(items[i]) >= 0.0
  }

  lemma TaxNonNegative(amount: real, rate: Rate)
    requires amount >= 0.0 && rate >= 0.0
    ensures TaxOn(amount, rate) >= 0.0
  {
  }

  lemma ExtractedNonNegative(lineTotal: real, rate: Rate)
    requires lineTotal >= 0.0 && rate >= 0.0
    ensures Extracted(lineTotal, rate) >= 0.0
  {
    var base := lineTotal / (1.0 + rate);
    assert base * (1.0 + rate) == lineTotal;
    assert base >= 0.0;
    TaxNonNegative(base, rate);
    assert base * (1.0 + rate) == base + base * rate;
  }

  lemma ItemTaxesNonNegative(config: Config, orderType: OrderType, items: seq<Item>)
    requires NonNegative(config, items)
    ensures forall i :: 0 <= i < |items| ==> AddedTax(config, orderType)(items[i]) >= 0.0
    ensures forall i :: 0 <= i < |items| ==> IncludedTax(config)(items[i]) >= 0.0
  {
    forall i | 0 <= i < |items|
      ensures AddedTax(config, orderType)(items[i]) >= 0.0 && IncludedTax(config)(items[i]) >= 0.0
    {
      TaxNonNegative(LineTotal(items[i]), ExclusiveRate(config, orderType, items[i].category));
      ExtractedNonNegative(LineTotal(items[i]), InclusiveRate(config, items[i].category));
    }
  }

  lemma ServiceChargeNonNegative(subtotal: real, pct: real)
    requires subtotal >= 0.0 && pct > 0.0
    ensures ServiceCharge(subtotal, pct) >= 0.0
  {
    assert pct / 100.0 >= 0.0;
  }

  lemma OnTopPartsWithinACent(config: Config, subtotal: real, standard: real, alcohol: real, chargePct: real)
    requires config.defaultRate >= 0.0 && subtotal >= 0.0 && standard >= 0.0 && alcohol >= 0.0
    ensures var b := OnTop(config, subtotal, standard + alcohol, standard, alcohol, chargePct);
            Abs(b.standardTax + b.alcoholTax - b.totalTax) <= 0.01
  {
    var chargeTax := 0.0;
    if chargePct > 0.0 && config.serviceChargeBeforeTax {
      ServiceChargeNonNegative(subtotal, chargePct);
      TaxNonNegative(ServiceCharge(subtotal, chargePct), config.defaultRate);
      chargeTax := TaxOn(ServiceCharge(subtotal, chargePct), config.defaultRate);
    }
    RoundedPartsWithinACent(standard + chargeTax, alcohol);
    assert standard + alcohol + chargeTax == standard + chargeTax + alcohol;
  }

  /**
  In every breakdown of non-negative amounts, inclusive or exclusive, with or without a
  service charge, standard plus alcohol tax is the total tax up to one cent.
  */
  lemma TaxPartsWithinACent(config: Config, orderType: OrderType, items: seq<Item>, chargePct: real)
    requires NonNegative(config, items)
    ensures var b := Assessment(config, orderType, items, chargePct);
            Abs(b.standardTax + b.alcoholTax - b.totalTax) <= 0.01
  {
    ItemTaxesNonNegative(config, orderType, items);
    var tax := if config.inclusive then IncludedTax(config) else AddedTax(config, orderType);
    CategoriesPartition(items, tax);
    SumNonNegative(items, tax, NotAlcohol);
    SumNonNegative(items, tax, IsAlcohol);
    SumNonNegative(items, LineTotal, Every);
    var standard, alcohol := SumOf(items, tax, NotAlcohol), SumOf(items, tax, IsAlcohol);
    if config.inclusive {
      RoundedPartsWithinACent(standard, alcohol);
    } else if config.taxEnabled {
      OnTopPartsWithinACent(config, Subtotal(items), standard, alcohol, chargePct);
    }
  }

  /** Standard and alcohol tax do not make up the total tax to within a cent. */
  predicate PartsMiss(b: Breakdown) { Abs(b.standardTax + b.alcoholTax - b.totalTax) > 0.01 }

  /** The tax on a charge taken before tax. */
  function ChargeTax(config: Config, subtotal: real, chargePct: real): real {
    if chargePct > 0.0 && config.serviceChargeBeforeTax then
      TaxOn(ServiceCharge(subtotal, chargePct), config.defaultRate)
    else 0.0
  }

  lemma OnTopPartsApartExactly(config: Config, subtotal: real, standard: real, alcohol: real, chargePct: real)
    ensures var b := OnTop(config, subtotal, standard + alcohol, standard, alcohol, chargePct);
            Abs(b.standardTax + b.alcoholTax - b.totalTax) > 0.01 <==>
              config.roundTax && TwoCentsApart(standard + ChargeTax(config, subtotal, chargePct), alcohol)
  {
    var part := standard + ChargeTax(config, subtotal, chargePct);
    assert part + alcohol == standard + alcohol + ChargeTax(config, subtotal, chargePct);
    PartsApartExactly(part, alcohol);
  }

  /** The taxes of a breakdown by item category before they are rounded, the charge's tax with the standard ones. */
  function UnroundedParts(config: Config, orderType: OrderType, items: seq<Item>, chargePct: real): (real, real) {
    if config.inclusive then
      (SumOf(items, IncludedTax(config), NotAlcohol), SumOf(items, IncludedTax(config), IsAlcohol))
    else
      (SumOf(items, AddedTax(config, orderType), NotAlcohol) + ChargeTax(config, Subtotal(items), chargePct),
       SumOf(items, AddedTax(config, orderType), IsAlcohol))
  }

  lemma ExtractedPartsApart(config: Config, orderType: OrderType, items: seq<Item>, chargePct: real)
    requires config.inclusive
    ensures PartsMiss(Assessment(config, orderType, items, chargePct)) <==>
              TwoCentsApart(SumOf(items, IncludedTax(config), NotAlcohol), SumOf(items, IncludedTax(config), IsAlcohol))
  {
    var tax := IncludedTax(config);
    CategoriesPartition(items, tax);
    PartsApartExactly(SumOf(items, tax, NotAlcohol), SumOf(items, tax, IsAlcohol));
  }

  lemma AddedPartsApart(config: Config, orderType: OrderType, items: seq<Item>, chargePct: real)
    requires !config.inclusive && config.taxEnabled
    ensures var tax := AddedTax(config, orderType);
            PartsMiss(Assessment(config, orderType, items, chargePct)) <==>
              config.roundTax && TwoCentsApart(
                SumOf(items, tax, NotAlcohol) + ChargeTax(config, Subtotal(items), chargePct),
                SumOf(items, tax, IsAlcohol))
  {
    var tax := AddedTax(config, orderType);
    CategoriesPartition(items, tax);
    var standard, alcohol := SumOf(items, tax, NotAlcohol), SumOf(items, tax, IsAlcohol);
    OnTopPartsApartExactly(config, Subtotal(items), standard, alcohol, chargePct);
  }

  /**
  Exactly when standard and alcohol tax fail to make up the total tax to within a cent, for
  any amounts: when they are rounded, and rounding pushes the parts two cents away.
  */
  lemma BreakdownPartsApartExactly(config: Config, orderType: OrderType, items: seq<Item>, chargePct: real)
    requires config.inclusive || config.taxEnabled
    ensures var (standard, alcohol) := UnroundedParts(config, orderType, items, chargePct);
            PartsMiss(Assessment(config, orderType, items, chargePct)) <==>
              (config.inclusive || config.roundTax) && TwoCentsApart(standard, alcohol)
  {
    if config.inclusive {
      ExtractedPartsApart(config, orderType, items, chargePct);
    } else {
      AddedPartsApart(config, orderType, items, chargePct);
    }
  }

  lemma SumOfTwo(x: Item, y: Item, amount: Item -> real, counts: Item -> bool)
    ensures SumOf([x, y], amount, counts) == Term(x, amount, counts) + Term(y, amount, counts)
  {
    assert [x, y][..1] == [x] && [x][..0] == [];
    assert SumOf([x], amount, counts) == Term(x, amount, counts);
  }

  /** Taking back a meal and a drink of 10.04 each at 10%: minus 0.99 twice, but minus 2.00 in total. */
  lemma RefundedItemsAreTwoCentsApart()
    ensures var config := Config(true, false, 0.1, 0.1, 0.0, false, true);
            var items := [Item(-10.04, 1, Standard, []), Item(-10.04, 1, Alcohol, [])];
            var b := Assessment(config, DineIn, items, 0.0);
            b.standardTax == -0.99 && b.alcoholTax == -0.99 && b.totalTax == -2.0
  {
    var config := Config(true, false, 0.1, 0.1, 0.0, false, true);
    var meal, drink := Item(-10.04, 1, Standard, []), Item(-10.04, 1, Alcohol, []);
    var tax := AddedTax(config, DineIn);
    assert tax(meal) == -1.004 && tax(drink) == -1.004;
    SumOfTwo(meal, drink, tax, Every);
    SumOfTwo(meal, drink, tax, NotAlcohol);
    SumOfTwo(meal, drink, tax, IsAlcohol);
    assert (99.9).Floor == 99 && (200.3).Floor == 200;
    assert -1.004 * 100.0 + 0.5 == -99.9 && -2.008 * 100.0 + 0.5 == -200.3;
  }

  // ---------------------------------------------------------------------------
  // Inclusive extraction undoes exclusive taxation
  // ---------------------------------------------------------------------------

  /** An amount with the tax put in. */
  function WithTax(amount: real, rate: Rate): real { amount * (1.0 + rate) }

  function GrossModifiers(ms: seq<Modifier>, rate: Rate): seq<Modifier> {
    seq(|ms|, i requires 0 <= i < |ms| => Modifier(WithTax(ms[i].additionalPrice, rate)))
  }

  /** The item with the tax put into its prices. */
  function Gross(item: Item, rate: Rate): Item {
    item.(unitPrice := WithTax(item.unitPrice, rate), modifiers := GrossModifiers(item.modifiers, rate))
  }

  function GrossAll(config: Config, orderType: OrderType, items: seq<Item>): seq<Item> {
    seq(|items|, i requires 0 <= i < |items| => Gross(items[i], ExclusiveRate(config, orderType, items[i].category)))
  }

  lemma WithTaxAdds(a: real, b: real, rate: Rate)
    ensures WithTax(a, rate) + WithTax(b, rate) == WithTax(a + b, rate)
  {
  }

  lemma WithTaxZero(rate: Rate)
    ensures WithTax(0.0, rate) == 0.0
  {
  }

  lemma {:induction false} GrossModifierSum(ms: seq<Modifier>, rate: Rate)
    ensures ModifierSum(GrossModifiers(ms, rate)) == WithTax(ModifierSum(ms), rate)
  {
    var gross := GrossModifiers(ms, rate);
    if ms == [] {
      WithTaxZero(rate);
    } else {
      var n := |ms| - 1;
      GrossModifierSum(ms[..n], rate);
      assert gross[..n] == GrossModifiers(ms[..n], rate);
      WithTaxAdds(ModifierSum(ms[..n]), ms[n].additionalPrice, rate);
    }
  }

  lemma WithTaxScales(a: real, rate: Rate, q: real)
    ensures WithTax(a, rate) * q == WithTax(a * q, rate)
  {
  }

  lemma GrossLineTotal(item: Item, rate: Rate)
    ensures LineTotal(Gross(item, rate)) == WithTax(LineTotal(item), rate)
  {
    GrossModifierSum(item.modifiers, rate);
    WithTaxAdds(item.unitPrice, ModifierSum(item.modifiers), rate);
    WithTaxScales(item.unitPrice + ModifierSum(item.modifiers), rate, item.quantity as real);
  }

  lemma Quotient(x: real, y: real)
    requires y != 0.0
    ensures (x * y) / y == x
    ensures (x / y) * y == x
  {
  }

  lemma SameProduct(x: real, y: real, z: real)
    requires x * y == x * z && y != z
    ensures x == 0.0
  {
    if x != 0.0 {
      Quotient(y, x);
      Quotient(z, x);
    }
  }

  /** The base that is left of a net amount grossed up at `r` when `d` is extracted is the net amount. */
  lemma BaseIsNet(net: real, r: Rate, d: Rate)
    ensures WithTax(net, r) / (1.0 + d) == net <==> r == d || net == 0.0
  {
    var base := WithTax(net, r) / (1.0 + d);
    Quotient(WithTax(net, r), 1.0 + d);
    if r == d {
      Quotient(net, 1.0 + d);
    } else if base == net {
      assert net * (1.0 + d) == net * (1.0 + r);
      SameProduct(net, 1.0 + d, 1.0 + r);
    } else if net == 0.0 {
      WithTaxZero(r);
    }
  }

  lemma WithTaxIs(net: real, r: Rate)
    ensures WithTax(net, r) == net + TaxOn(net, r)
  {
  }

  /**
  Extracting at rate `d` from a price grossed up at rate `r` gives back the exclusive tax
  exactly when the rates are equal or there is nothing to tax.
  */
  lemma ExtractionInverts(item: Item, r: Rate, d: Rate)
    ensures Extracted(LineTotal(Gross(item, r)), d) == TaxOn(LineTotal(item), r) <==> r == d || LineTotal(item) == 0.0
  {
    GrossLineTotal(item, r);
    WithTaxIs(LineTotal(item), r);
    BaseIsNet(LineTotal(item), r, d);
  }

  /** The rate added on top is the rate that extraction will assume, for every item. */
  predicate RatesAgree(config: Config, orderType: OrderType, items: seq<Item>) {
    forall i :: 0 <= i < |items| ==>
      ExclusiveRate(config, orderType, items[i].category) == InclusiveRate(config, items[i].category)
  }

  /** Rates agree when no takeaway item is on a takeaway or delivery order. */
  lemma RatesAgreeWithoutTakeaway(config: Config, orderType: OrderType, items: seq<Item>)
    requires orderType == TakeawayOrder || orderType == Delivery ==>
               forall i :: 0 <= i < |items| ==> items[i].category != Takeaway
    ensures RatesAgree(config, orderType, items)
  {
  }

  lemma ItemExtraction(config: Config, inclusive: Config, orderType: OrderType, item: Item)
    requires inclusive == config.(inclusive := true)
    requires ExclusiveRate(config, orderType, item.category) == InclusiveRate(config, item.category)
    ensures var gross := Gross(item, ExclusiveRate(config, orderType, item.category));
            && IncludedTax(inclusive)(gross) == AddedTax(config, orderType)(item)
            && LineTotal(gross) == LineTotal(item) + AddedTax(config, orderType)(item)
  {
    var rate := ExclusiveRate(config, orderType, item.category);
    ExtractionInverts(item, rate, rate);
    GrossLineTotal(item, rate);
  }

  lemma {:induction false} ExtractedSums(
      config: Config, inclusive: Config, orderType: OrderType, items: seq<Item>, counts: Item -> bool)
    requires inclusive == config.(inclusive := true) && RatesAgree(config, orderType, items)
    requires forall item, rate: Rate :: counts(Gross(item, rate)) == counts(item)
    ensures var gross := GrossAll(config, orderType, items);
            && SumOf(gross, IncludedTax(inclusive), counts) == SumOf(items, AddedTax(config, orderType), counts)
            && SumOf(gross, LineTotal, counts) ==
               SumOf(items, LineTotal, counts) + SumOf(items, AddedTax(config, orderType), counts)
  {
    if items == [] {
    } else {
      var n := |items| - 1;
      var gross, less := GrossAll(config, orderType, items), GrossAll(config, orderType, items[..n]);
      ExtractedSums(config, inclusive, orderType, items[..n], counts);
      assert gross[..n] == less;
      ItemExtraction(config, inclusive, orderType, items[n]);
    }
  }

  /**
  Tax-inclusive extraction undoes tax-exclusive calculation. Put each item's tax into its
  prices and extract: total, standard and alcohol tax are the same, for any amounts and
  rates, when tax is on, nothing is charged for service and the rates agree. Extraction
  always rounds, so without rounding they are the same once rounded.
  */
  lemma ExtractionUndoesTaxation(config: Config, orderType: OrderType, items: seq<Item>, chargePct: real)
    requires !config.inclusive && config.taxEnabled && chargePct <= 0.0
    requires RatesAgree(config, orderType, items)
    ensures var added := Assessment(config, orderType, items, chargePct);
            var gross := GrossAll(config, orderType, items);
            var included := Assessment(config.(inclusive := true), orderType, gross, chargePct);
            && included.totalTax == Rounded(!config.roundTax, added.totalTax)
            && included.standardTax == Rounded(!config.roundTax, added.standardTax)
            && included.alcoholTax == Rounded(!config.roundTax, added.alcoholTax)
  {
    var inclusive := config.(inclusive := true);
    ExtractedSums(config, inclusive, orderType, items, Every);
    ExtractedSums(config, inclusive, orderType, items, NotAlcohol);
    ExtractedSums(config, inclusive, orderType, items, IsAlcohol);
  }

  lemma RoundedSumWithinACent(round: bool, subtotal: real, tax: real)
    requires subtotal >= 0.0 && tax >= 0.0
    ensures Abs(RoundTo2Decimals(subtotal + Rounded(round, tax)) - (subtotal + tax)) <= 0.01
  {
    RoundingIsNearest(tax);
    RoundingIsNearest(subtotal + Rounded(round, tax));
  }

  /** For non-negative amounts the two grand totals differ by at most one cent. */
  lemma GrandTotalsWithinACent(config: Config, orderType: OrderType, items: seq<Item>, chargePct: real)
    requires !config.inclusive && config.taxEnabled && chargePct <= 0.0
    requires RatesAgree(config, orderType, items) && NonNegative(config, items)
    ensures var added := Assessment(config, orderType, items, chargePct);
            var gross := GrossAll(config, orderType, items);
            var included := Assessment(config.(inclusive := true), orderType, gross, chargePct);
            Abs(added.grandTotal - included.grandTotal) <= 0.01
  {
    ExtractedSums(config, config.(inclusive := true), orderType, items, Every);
    ItemTaxesNonNegative(config, orderType, items);
    SumNonNegative(items, AddedTax(config, orderType), Every);
    SumNonNegative(items, LineTotal, Every);
    RoundedSumWithinACent(config.roundTax, Subtotal(items), SumOf(items, AddedTax(config, orderType), Every));
  }

  // ---------------------------------------------------------------------------
  // Charges and taxes that are left out
  // ---------------------------------------------------------------------------

  /**
  With a service charge taken before tax the grand total is subtotal plus tax, to within the
  rounding, and the charge itself is not in it.
  */
  lemma ChargeBeforeTaxIsMissing(config: Config, orderType: OrderType, items: seq<Item>, chargePct: real)
    requires !config.inclusive && config.taxEnabled && config.serviceChargeBeforeTax && chargePct > 0.0
    requires NonNegative(config, items)
    ensures var b := Assessment(config, orderType, items, chargePct);
            && b.serviceCharge == ServiceCharge(Subtotal(items), chargePct)
            && Abs(b.grandTotal - (b.subtotal + b.totalTax)) <= 0.005
  {
    ItemTaxesNonNegative(config, orderType, items);
    SumNonNegative(items, AddedTax(config, orderType), Every);
    SumNonNegative(items, LineTotal, Every);
    ServiceChargeNonNegative(Subtotal(items), chargePct);
    var charge := ServiceCharge(Subtotal(items), chargePct);
    TaxNonNegative(charge, config.defaultRate);
    var tax := SumOf(items, AddedTax(config, orderType), Every) + TaxOn(charge, config.defaultRate);
    RoundingIsNearest(tax);
    RoundingIsNearest(Subtotal(items) + Rounded(config.roundTax, tax));
  }

  lemma OneCentShows(x: real, c: real)
    requires x >= 0.0 && c >= 0.01
    ensures RoundTo2Decimals(x + c) > RoundTo2Decimals(x)
  {
  }

  /**
  With tax on top and a charge, if any, of at least a cent, the grand total is the rounded
  sum of subtotal, charge and tax exactly when the charge is not taken before tax.
  */
  lemma ChargeIncludedExactly(config: Config, orderType: OrderType, items: seq<Item>, chargePct: real)
    requires !config.inclusive && config.taxEnabled && NonNegative(config, items)
    requires chargePct > 0.0 ==> ServiceCharge(Subtotal(items), chargePct) >= 0.01
    ensures var b := Assessment(config, orderType, items, chargePct);
            b.grandTotal == RoundTo2Decimals(b.subtotal + b.serviceCharge + b.totalTax) <==>
              !config.serviceChargeBeforeTax || chargePct <= 0.0
  {
    var b := Assessment(config, orderType, items, chargePct);
    if config.serviceChargeBeforeTax && chargePct > 0.0 {
      TaxedTotalNonNegative(config, orderType, items, chargePct);
      OneCentShows(b.subtotal + b.totalTax, b.serviceCharge);
      assert b.subtotal + b.serviceCharge + b.totalTax == b.subtotal + b.totalTax + b.serviceCharge;
    } else {
      assert b.subtotal + b.totalTax + b.serviceCharge == b.subtotal + b.serviceCharge + b.totalTax;
    }
  }

  lemma RoundedNonNegative(x: real)
    requires x >= 0.0
    ensures RoundTo2Decimals(x) >= 0.0
  {
  }

  lemma OnTopNonNegative(
      config: Config, subtotal: real, tax: real, standard: real, alcohol: real, chargePct: real)
    requires config.defaultRate >= 0.0 && subtotal >= 0.0 && tax >= 0.0 && chargePct > 0.0
    ensures var b := OnTop(config, subtotal, tax, standard, alcohol, chargePct); b.subtotal + b.totalTax >= 0.0
  {
    var charge := ServiceCharge(subtotal, chargePct);
    ServiceChargeNonNegative(subtotal, chargePct);
    TaxNonNegative(charge, config.defaultRate);
    RoundedNonNegative(tax);
    RoundedNonNegative(tax + TaxOn(charge, config.defaultRate));
  }

  lemma TaxedTotalNonNegative(config: Config, orderType: OrderType, items: seq<Item>, chargePct: real)
    requires !config.inclusive && config.taxEnabled && NonNegative(config, items) && chargePct > 0.0
    ensures var b := Assessment(config, orderType, items, chargePct); b.subtotal + b.totalTax >= 0.0
  {
    var tax := AddedTax(config, orderType);
    ItemTaxesNonNegative(config, orderType, items);
    SumNonNegative(items, tax, Every);
    SumNonNegative(items, LineTotal, Every);
    OnTopNonNegative(config, Subtotal(items), SumOf(items, tax, Every),
                     SumOf(items, tax, NotAlcohol), SumOf(items, tax, IsAlcohol), chargePct);
  }

  /** One item of 100.00 at 13% with a charge of 10% before tax: 114.30, where 124.30 is due. */
  lemma ChargedOrder()
    ensures var config := Config(true, false, 0.13, 0.13, 0.0, true, true);
            var b := Assessment(config, DineIn, [Item(100.0, 1, Standard, [])], 10.0);
            && b.subtotal == 100.0 && b.serviceCharge == 10.0 && b.totalTax == 14.3 && b.grandTotal == 114.3
  {
    var config := Config(true, false, 0.13, 0.13, 0.0, true, true);
    var item := Item(100.0, 1, Standard, []);
    var tax := AddedTax(config, DineIn);
    assert [item][..0] == [];
    assert LineTotal(item) == 100.0 && tax(item) == 13.0;
    assert Subtotal([item]) == 100.0 && SumOf([item], tax, Every) == 13.0;
    assert ServiceCharge(100.0, 10.0) == 10.0 && TaxOn(10.0, 0.13) == 1.3;
    assert (14.3 * 100.0 + 0.5).Floor == 1430 && (114.3 * 100.0 + 0.5).Floor == 11430;
  }

  /** An item without a tax in it: it costs nothing or nothing is levied on it. */
  predicate Untaxed(config: Config, item: Item) {
    LineTotal(item) == 0.0 || InclusiveRate(config, item.category) == 0.0
  }

  /** No amount of the breakdown, no line included, is a tax. */
  ghost predicate CarriesNoTax(config: Config, orderType: OrderType, items: seq<Item>, chargePct: real) {
    var b := Assessment(config, orderType, items, chargePct);
    && b.totalTax == 0.0 && b.standardTax == 0.0 && b.alcoholTax == 0.0
    && forall i :: 0 <= i < |items| ==> Line(config, orderType, items[i]).amount == 0.0
  }

  lemma ExtractsNothing(lineTotal: real, rate: Rate)
    ensures Extracted(lineTotal, rate) == 0.0 <==> lineTotal == 0.0 || rate == 0.0
  {
    var base := lineTotal / (1.0 + rate);
    Quotient(lineTotal, 1.0 + rate);
    assert base * (1.0 + rate) == base + base * rate;
    if Extracted(lineTotal, rate) == 0.0 {
      assert lineTotal * rate == 0.0;
      if lineTotal != 0.0 {
        Quotient(rate, lineTotal);
      }
    }
  }

  lemma {:induction false} SumOfNothing(items: seq<Item>, amount: Item -> real, counts: Item -> bool)
    requires forall i :: 0 <= i < |items| ==> amount(items[i]) == 0.0
    ensures SumOf(items, amount, counts) == 0.0
  {
    if items == [] {
    } else {
      SumOfNothing(items[..|items| - 1], amount, counts);
    }
  }

  /**
  With tax switched off a breakdown carries no tax exactly when prices exclude tax, or every
  item of it is free or of a category without a rate.
  */
  lemma SwitchedOffExactly(config: Config, orderType: OrderType, items: seq<Item>, chargePct: real)
    requires !config.taxEnabled
    ensures CarriesNoTax(config, orderType, items, chargePct) <==>
              !config.inclusive || forall i :: 0 <= i < |items| ==> Untaxed(config, items[i])
  {
    if config.inclusive {
      forall i | 0 <= i < |items|
        ensures Line(config, orderType, items[i]).amount == 0.0 <==> Untaxed(config, items[i])
      {
        ExtractsNothing(LineTotal(items[i]), InclusiveRate(config, items[i].category));
      }
      if forall i :: 0 <= i < |items| ==> Untaxed(config, items[i]) {
        var tax := IncludedTax(config);
        assert forall i :: 0 <= i < |items| ==> tax(items[i]) == Line(config, orderType, items[i]).amount;
        SumOfNothing(items, tax, Every);
        SumOfNothing(items, tax, NotAlcohol);
        SumOfNothing(items, tax, IsAlcohol);
      }
    }
  }

  /** The charge the breakdown would carry if it always carried one. */
  function ChargeDue(items: seq<Item>, chargePct: real): real {
    if chargePct > 0.0 then ServiceCharge(Subtotal(items), chargePct) else 0.0
  }

  /**
  The charge is in the breakdown exactly when prices exclude tax and tax is on, or nothing is
  to be charged: with prices that include tax it is left out, and so it is with tax off.
  */
  lemma ChargeCarriedExactly(config: Config, orderType: OrderType, items: seq<Item>, chargePct: real)
    ensures Assessment(config, orderType, items, chargePct).serviceCharge == ChargeDue(items, chargePct) <==>
              (!config.inclusive && config.taxEnabled) || chargePct <= 0.0 || Subtotal(items) == 0.0
  {
    if chargePct > 0.0 {
      var factor := chargePct / 100.0;
      assert factor > 0.0;
      if Subtotal(items) != 0.0 && Subtotal(items) * factor == 0.0 {
        Quotient(factor, Subtotal(items));
      }
    }
  }
}
