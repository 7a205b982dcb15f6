/** The pricing memos of the checkout payment page: package classification,
    the duration discount table, the duration price, the add-on multiplier and
    the totals chain from base total to the rounded, non-negative amount that
    is charged. Amounts are whole currency units. */
module Pricing {
  import opened Text

  /** A JavaScript number as the page sees it: a whole value, or NaN/±Infinity. */
  datatype Num = Finite(value: int) | NotFinite

  /** `Number(x ?? 0)`. */
  function NumberOr0(x: Option<Num>): (n: Num)
    ensures x.None? ==> n == Finite(0)
    ensures x.Some? ==> n == x.value
  {
    x.GetOr(Finite(0))
  }

  /** `Number.isFinite(n) && n > 0`. */
  predicate PositiveFinite(n: Num) {
    n.Finite? && n.value > 0
  }

  /** A selected subscription length is truthy (set and non-zero). */
  predicate YearsSet(years: Option<int>) {
    years.Some? && years.value != 0
  }

  // ---------------------------------------------------------------------
  // Package classification

  const MonthlyMarkers: seq<string> := ["full digital marketing", "blog + social media", "blog+social media"]

  /** The package name lowercased, with every whitespace run turned into one
      blank and the ends trimmed. */
  function CanonicalPackageName(name: Option<string>): (n: string)
    ensures name.None? ==> n == ""
  {
    Trim(CollapseSpaces(ToLower(name.GetOr(""))))
  }

  /** No capitals, blanks as the only whitespace, never two blanks in a row. */
  predicate BlankSeparated(n: string) {
    && NoUpper(n)
    && (forall i :: 0 <= i < |n| ==> (IsSpace(n[i]) ==> n[i] == ' '))
    && (forall i :: 0 <= i < |n| - 1 ==> !(n[i] == ' ' && n[i + 1] == ' '))
  }

  /** What the canonical form guarantees: blank-separated, and no blank at
      either end. */
  predicate IsCanonical(n: string) {
    BlankSeparated(n) && (n == [] || (n[0] != ' ' && n[|n| - 1] != ' '))
  }

  lemma SliceBlankSeparated(c: string, a: nat, b: nat)
    requires a <= b <= |c| && BlankSeparated(c)
    ensures BlankSeparated(c[a..b])
  {
    var n := c[a..b];
    forall i | 0 <= i < |n| ensures n[i] == c[a + i] { }
  }

  lemma CollapsedLowerIsBlankSeparated(x: string)
    ensures BlankSeparated(CollapseSpaces(ToLower(x)))
  {
    var lowered := ToLower(x);
    assert NoUpper(lowered);
  }

  lemma TrimBlankSeparated(c: string)
    requires BlankSeparated(c)
    ensures IsCanonical(Trim(c))
  {
    var off := TrimOffset(c);
    var n := Trim(c);
    SliceBlankSeparated(c, off, off + |n|);
  }

  lemma CanonicalPackageNameIsCanonical(name: Option<string>)
    ensures IsCanonical(CanonicalPackageName(name))
  {
    CollapsedLowerIsBlankSeparated(name.GetOr(""));
    TrimBlankSeparated(CollapseSpaces(ToLower(name.GetOr(""))));
  }

  lemma ContainsEmptyText(p: string)
    ensures Contains("", p) <==> p == ""
  {
  }

  /** `isMonthlyPackageName`: the canonical name mentions one of the markers
      of a package billed per month. */
  function IsMonthlyPackageName(name: Option<string>): (monthly: bool)
    ensures name.None? ==> !monthly
  {
    var n := CanonicalPackageName(name);
    ContainsEmptyText(MonthlyMarkers[0]);
    ContainsEmptyText(MonthlyMarkers[1]);
    ContainsEmptyText(MonthlyMarkers[2]);
    Contains(n, MonthlyMarkers[0]) || Contains(n, MonthlyMarkers[1]) || Contains(n, MonthlyMarkers[2])
  }

  /** Collapsing whitespace leaves a blank-separated text as it is. */
  lemma {:induction false} CollapseFixes(n: string)
    requires BlankSeparated(n)
    ensures CollapseSpaces(n) == n
    decreases |n|
  {
    if n != [] {
      SliceBlankSeparated(n, 1, |n|);
      if IsSpace(n[0]) {
        assert SkipSpaces(n, 1) == 1;
      }
      CollapseFixes(n[1..]);
    }
  }

  /** A canonical name is its own canonical form. */
  lemma CanonicalFixed(n: string)
    requires IsCanonical(n)
    ensures CanonicalPackageName(Some(n)) == n
  {
    ToLowerUnchanged(n);
    CollapseFixes(n);
    TrimUnchanged(n);
  }

  /** On a canonical name the classification is exactly "mentions one of the
      markers": a name containing a marker is monthly, and no other is. */
  lemma MonthlyOfCanonical(n: string)
    requires IsCanonical(n)
    ensures IsMonthlyPackageName(Some(n)) <==>
      Contains(n, MonthlyMarkers[0]) || Contains(n, MonthlyMarkers[1]) || Contains(n, MonthlyMarkers[2])
  {
    CanonicalFixed(n);
  }

  /** A name that is one of the markers is monthly. */
  lemma MarkerIsMonthly()
    ensures IsMonthlyPackageName(Some("full digital marketing"))
    ensures IsMonthlyPackageName(Some("blog + social media"))
    ensures IsMonthlyPackageName(Some("blog+social media"))
  {
    FullDigitalMarketingIsMonthly();
    BlogSocialMediaIsMonthly();
    BlogPlusSocialMediaIsMonthly();
  }

  lemma FullDigitalMarketingIsMonthly()
    ensures IsMonthlyPackageName(Some("full digital marketing"))
  {
    var m := "full digital marketing";
    assert IsCanonical(m) && StartsWith(m, MonthlyMarkers[0]);
    MonthlyOfCanonical(m);
  }

  lemma BlogSocialMediaIsMonthly()
    ensures IsMonthlyPackageName(Some("blog + social media"))
  {
    var m := "blog + social media";
    assert IsCanonical(m) && StartsWith(m, MonthlyMarkers[1]);
    MonthlyOfCanonical(m);
  }

  lemma BlogPlusSocialMediaIsMonthly()
    ensures IsMonthlyPackageName(Some("blog+social media"))
  {
    var m := "blog+social media";
    assert IsCanonical(m) && StartsWith(m, MonthlyMarkers[2]);
    MonthlyOfCanonical(m);
  }

  /** `includes` finds a pattern that occurs in a suffix. */
  lemma {:induction false} ContainsInSuffix(s: string, p: string, k: nat)
    requires k <= |s| && Contains(s[k..], p)
    ensures Contains(s, p)
    decreases k
  {
    if k > 0 {
      assert s[1..][k - 1..] == s[k..];
      ContainsInSuffix(s[1..], p, k - 1);
    }
  }

  /** A canonical name with a marker anywhere inside it is monthly. */
  lemma MarkerInsideIsMonthly(n: string, j: nat, k: nat)
    requires IsCanonical(n) && j < |MonthlyMarkers|
    requires k + |MonthlyMarkers[j]| <= |n| && n[k..k + |MonthlyMarkers[j]|] == MonthlyMarkers[j]
    ensures IsMonthlyPackageName(Some(n))
  {
    var m := MonthlyMarkers[j];
    assert n[k..][..|m|] == m;
    assert StartsWith(n[k..], m);
    ContainsInSuffix(n, m, k);
    MonthlyOfCanonical(n);
  }

  lemma {:induction false} ToLowerIdempotent(s: string)
    ensures ToLower(ToLower(s)) == ToLower(s)
  {
    var once := ToLower(s);
    forall i | 0 <= i < |s| ensures ToLower(once)[i] == once[i] {
      assert !IsUpper(once[i]);
    }
  }

  /** The classification ignores letter case. */
  lemma IsMonthlyIgnoresCase(s: string)
    ensures IsMonthlyPackageName(Some(ToLower(s))) == IsMonthlyPackageName(Some(s))
  {
    ToLowerIdempotent(s);
    assert ToLower(ToLower(s)) == ToLower(s);
  }

  /** The classification ignores how the words of the name are spaced. */
  lemma IsMonthlyIgnoresSpacing(s: string)
    ensures IsMonthlyPackageName(Some(CollapseSpaces(s))) == IsMonthlyPackageName(Some(s))
  {
    CollapseSpacesToLower(s);
    CollapseSpacesIdempotent(ToLower(s));
    assert CollapseSpaces(ToLower(CollapseSpaces(s))) == CollapseSpaces(ToLower(s));
  }

  // ---------------------------------------------------------------------
  // Discount table

  /** A package duration row; `None` fields are `null`/missing. */
  datatype DurationRow = DurationRow(isActive: Option<bool>, durationMonths: Option<Num>, discountPercent: Option<int>)

  /** A row enters the table unless it is explicitly inactive, and only with a
      finite, positive month count. */
  predicate RowCounts(r: DurationRow) {
    r.isActive != Some(false) && PositiveFinite(NumberOr0(r.durationMonths))
  }

  function RowMonths(r: DurationRow): int
    requires RowCounts(r)
  {
    NumberOr0(r.durationMonths).value
  }

  function RowDiscount(r: DurationRow): int {
    r.discountPercent.GetOr(0)
  }

  /** The months → percent map after the rows were applied in order. */
  function DiscountTable(rows: seq<DurationRow>): (m: map<int, int>)
    ensures forall k :: k in m ==> k > 0
    decreases |rows|
  {
    if rows == [] then map[]
    else
      var m := DiscountTable(rows[..|rows| - 1]);
      var r := rows[|rows| - 1];
      if RowCounts(r) then m[RowMonths(r) := RowDiscount(r)] else m
  }

  /** `discountByMonths`: the loop that fills the map with `m.set`. */
  method BuildDiscountTable(rows: seq<DurationRow>) returns (m: map<int, int>)
    ensures m == DiscountTable(rows)
  {
    m := map[];
    for i := 0 to |rows|
      invariant m == DiscountTable(rows[..i])
    {
      assert rows[..i + 1][..i] == rows[..i];
      var r := rows[i];
      if r.isActive == Some(false) {
        continue;
      }
      var months := NumberOr0(r.durationMonths);
      var discount := r.discountPercent.GetOr(0);
      if months.Finite? && months.value > 0 {
        m := m[months.value := discount];
      }
    }
    assert rows[..|rows|] == rows;
  }

  /** A month count is a key exactly when some counting row carries it. */
  lemma {:induction false} DiscountTableKeys(rows: seq<DurationRow>, k: int)
    ensures k in DiscountTable(rows) <==>
      exists i :: 0 <= i < |rows| && RowCounts(rows[i]) && RowMonths(rows[i]) == k
    decreases |rows|
  {
    if rows != [] {
      var init := rows[..|rows| - 1];
      DiscountTableKeys(init, k);
      if k in DiscountTable(init) {
        var i :| 0 <= i < |init| && RowCounts(init[i]) && RowMonths(init[i]) == k;
        assert rows[i] == init[i];
      }
      if exists i :: 0 <= i < |rows| && RowCounts(rows[i]) && RowMonths(rows[i]) == k {
        var i :| 0 <= i < |rows| && RowCounts(rows[i]) && RowMonths(rows[i]) == k;
        if i < |rows| - 1 {
          assert init[i] == rows[i];
        }
      }
    }
  }

  /** The last counting row with a given month count decides its percent. */
  lemma {:induction false} DiscountTableLastWins(rows: seq<DurationRow>, i: int)
    requires 0 <= i < |rows| && RowCounts(rows[i])
    requires forall j :: i < j < |rows| ==> !(RowCounts(rows[j]) && RowMonths(rows[j]) == RowMonths(rows[i]))
    ensures RowMonths(rows[i]) in DiscountTable(rows)
    ensures DiscountTable(rows)[RowMonths(rows[i])] == RowDiscount(rows[i])
    decreases |rows|
  {
    if i < |rows| - 1 {
      var init := rows[..|rows| - 1];
      assert init[i] == rows[i];
      forall j | i < j < |init| ensures !(RowCounts(init[j]) && RowMonths(init[j]) == RowMonths(init[i])) {
        assert init[j] == rows[j];
      }
      DiscountTableLastWins(init, i);
    }
  }

  /** `discountByMonths.get(months) ?? 0`. */
  function DiscountFor(table: map<int, int>, months: int): (percent: int)
    ensures months in table ==> percent == table[months]
    ensures months !in table ==> percent == 0
  {
    if months in table then table[months] else 0
  }

  // ---------------------------------------------------------------------
  // Duration price

  /** A flat multi-year plan; `None` fields are `null`/missing. */
  datatype Plan = Plan(years: Option<int>, priceUsd: Option<Num>)

  /** The index of the first plan for the given number of years. */
  function FirstPlanIndex(plans: seq<Plan>, years: int): (r: Option<nat>)
    ensures r.Some? ==> r.value < |plans| && plans[r.value].years == Some(years)
    ensures r.Some? ==> forall j :: 0 <= j < r.value ==> plans[j].years != Some(years)
    ensures r.None? ==> forall j :: 0 <= j < |plans| ==> plans[j].years != Some(years)
  {
    if plans == [] then None
    else if plans[0].years == Some(years) then Some(0)
    else
      var rest := FirstPlanIndex(plans[1..], years);
      if rest.Some? then Some(rest.value + 1) else None
  }

  /** The flat price: `price_usd` of the first matching plan when that is a
      positive finite number. */
  function FlatPrice(plans: seq<Plan>, years: int): (price: Option<int>)
    ensures price.Some? ==> price.value > 0
    ensures price.Some? <==> (FirstPlanIndex(plans, years).Some? &&
      PositiveFinite(NumberOr0(plans[FirstPlanIndex(plans, years).value].priceUsd)))
    ensures price.Some? ==> price.value == NumberOr0(plans[FirstPlanIndex(plans, years).value].priceUsd).value
  {
    var idx := FirstPlanIndex(plans, years);
    var v := if idx.Some? then NumberOr0(plans[idx.value].priceUsd) else Finite(0);
    if PositiveFinite(v) then Some(v.value) else None
  }

  /** `durationPriceIdr`. `computeDiscountedTotal(monthlyPrice, months,
      discountPercent)` is an external pricing function. */
  function DurationPrice(isMonthly: bool, years: Option<int>, packagePriceUsd: Option<Num>,
                         table: map<int, int>, plans: seq<Plan>,
                         computeDiscountedTotal: (int, int, int) -> int): (price: Option<int>)
    ensures !YearsSet(years) ==> price.None?
    ensures YearsSet(years) && isMonthly ==>
      (price.Some? <==> PositiveFinite(NumberOr0(packagePriceUsd)))
    ensures YearsSet(years) && isMonthly && price.Some? ==>
      price.value == computeDiscountedTotal(NumberOr0(packagePriceUsd).value, years.value * 12,
                                            DiscountFor(table, years.value * 12))
    ensures YearsSet(years) && !isMonthly ==> price == FlatPrice(plans, years.value)
  {
    if !YearsSet(years) then None
    else if isMonthly then
      var monthlyBase := NumberOr0(packagePriceUsd);
      if !PositiveFinite(monthlyBase) then None
      else
        var months := years.value * 12;
        Some(computeDiscountedTotal(monthlyBase.value, months, DiscountFor(table, months)))
    else FlatPrice(plans, years.value)
  }

  // ---------------------------------------------------------------------
  // Totals

  /** `addOnsMultiplier`: monthly packages pay add-ons for every month. */
  function AddOnsMultiplier(isMonthly: bool, years: Option<int>): (k: int)
    ensures isMonthly && YearsSet(years) ==> k == years.value * 12
    ensures !(isMonthly && YearsSet(years)) ==> k == 1
  {
    if isMonthly && YearsSet(years) then years.value * 12 else 1
  }

  /** `baseTotalUsd`. */
  function BaseTotal(years: Option<int>, durationPrice: Option<int>, effectiveAddOnsTotal: int): (base: Option<int>)
    ensures base.None? <==> (!YearsSet(years) || durationPrice.None?)
    ensures base.Some? ==> base.value == durationPrice.value + effectiveAddOnsTotal
  {
    if !YearsSet(years) then None
    else if durationPrice.None? then None
    else Some(durationPrice.value + effectiveAddOnsTotal)
  }

  /** The promo currently applied to the order. */
  datatype AppliedPromo = AppliedPromo(id: string, code: string, promoName: string, discountUsd: Num)

  /** The discount that is subtracted: the promo's amount when it is a positive
      finite number, otherwise nothing. */
  function PromoDiscount(promo: Option<AppliedPromo>): (d: int)
    ensures d >= 0
    ensures d > 0 <==> (promo.Some? && PositiveFinite(promo.value.discountUsd))
    ensures d > 0 ==> d == promo.value.discountUsd.value
  {
    var n := if promo.Some? then promo.value.discountUsd else Finite(0);
    if PositiveFinite(n) then n.value else 0
  }

  /** `totalAfterPromoUsd`: the base less the discount, never below zero. */
  function TotalAfterPromoUsd(base: Option<int>, promo: Option<AppliedPromo>): (total: Option<int>)
    ensures total.None? <==> base.None?
    ensures total.Some? ==> total.value >= 0 && total.value >= base.value - PromoDiscount(promo)
    ensures total.Some? ==> (total.value == 0 || total.value == base.value - PromoDiscount(promo))
  {
    if base.None? then None
    else
      var diff := base.value - PromoDiscount(promo);
      Some(if diff > 0 then diff else 0)
  }

  /** `totalAfterPromoIdr`: `Math.max(0, Math.round(total))`; rounding a whole
      amount changes nothing. */
  function TotalAfterPromoIdr(total: Option<int>): (charged: Option<int>)
    ensures charged.None? <==> total.None?
    ensures charged.Some? ==> charged.value >= 0 && charged.value >= total.value
    ensures charged.Some? && total.value >= 0 ==> charged.value == total.value
  {
    if total.None? then None else Some(if total.value > 0 then total.value else 0)
  }

  /** Everything the pricing memos read. The add-on totals come from the
      add-on hooks; the rows and plans from the catalogue. */
  datatype PricingInputs = PricingInputs(
    packageName: Option<string>,
    years: Option<int>,
    packagePriceUsd: Option<Num>,
    durationRows: seq<DurationRow>,
    plans: seq<Plan>,
    packageAddOnsTotal: int,
    subscriptionAddOnsTotal: int,
    appliedPromo: Option<AppliedPromo>)

  function EffectiveAddOnsTotal(p: PricingInputs): int {
    (p.packageAddOnsTotal + p.subscriptionAddOnsTotal) * AddOnsMultiplier(IsMonthlyPackageName(p.packageName), p.years)
  }

  function DurationPriceOf(p: PricingInputs, computeDiscountedTotal: (int, int, int) -> int): Option<int> {
    DurationPrice(IsMonthlyPackageName(p.packageName), p.years, p.packagePriceUsd,
                  DiscountTable(p.durationRows), p.plans, computeDiscountedTotal)
  }

  function BaseTotalOf(p: PricingInputs, computeDiscountedTotal: (int, int, int) -> int): Option<int> {
    BaseTotal(p.years, DurationPriceOf(p, computeDiscountedTotal), EffectiveAddOnsTotal(p))
  }

  /** The amount charged for the order, or `None` while it cannot be priced. */
  function FinalTotal(p: PricingInputs, computeDiscountedTotal: (int, int, int) -> int): Option<int> {
    TotalAfterPromoIdr(TotalAfterPromoUsd(BaseTotalOf(p, computeDiscountedTotal), p.appliedPromo))
  }

  /** No total is computed from a partial selection: the charged amount exists
      exactly when years are chosen and the duration price resolves. */
  lemma FinalTotalResolved(p: PricingInputs, computeDiscountedTotal: (int, int, int) -> int)
    ensures FinalTotal(p, computeDiscountedTotal).None? <==>
      (!YearsSet(p.years) || DurationPriceOf(p, computeDiscountedTotal).None?)
  {
  }

  /** The charged amount is `max(0, base - discount)`: never negative, zero
      once the discount reaches the base, and the plain difference otherwise. */
  lemma FinalTotalIsClampedDifference(p: PricingInputs, computeDiscountedTotal: (int, int, int) -> int)
    requires BaseTotalOf(p, computeDiscountedTotal).Some?
    ensures FinalTotal(p, computeDiscountedTotal).Some?
    ensures var b := BaseTotalOf(p, computeDiscountedTotal).value;
            var d := PromoDiscount(p.appliedPromo);
            FinalTotal(p, computeDiscountedTotal).value == if d >= b then 0 else b - d
  {
  }

  /** A larger discount never raises the charged amount. */
  lemma TotalMonotoneInDiscount(base: Option<int>, p1: Option<AppliedPromo>, p2: Option<AppliedPromo>)
    requires base.Some?
    requires PromoDiscount(p1) <= PromoDiscount(p2)
    ensures TotalAfterPromoIdr(TotalAfterPromoUsd(base, p2)).value <= TotalAfterPromoIdr(TotalAfterPromoUsd(base, p1)).value
  {
  }

  /** Flat pricing with plans for one and two years has no price for three
      years, and so no base total. */
  lemma FlatPlanMissing(computeDiscountedTotal: (int, int, int) -> int)
    ensures var p := PricingInputs(None, Some(3), None, [],
                                   [Plan(Some(1), Some(Finite(50))), Plan(Some(2), Some(Finite(90)))],
                                   0, 0, None);
            DurationPriceOf(p, computeDiscountedTotal).None? && BaseTotalOf(p, computeDiscountedTotal).None?
  {
  }
}
