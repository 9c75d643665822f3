/** The employee laptop discount: a list price is reduced by a percentage
    that depends only on the buyer's employee type, and a negative price is
    refused. Prices are exact rationals (`real`), so 300 * 95% is exactly 285. */
module Discount {

  /** The four employee classifications; each selects one discount rate. */
  datatype EmployeeType = PartTime | PartialLoad | FullTime | CompanyPurchasing

  /** The one way the calculation can fail: the price given was negative. */
  datatype Error = InvalidArgument

  /** Either the discounted price or the reason no price could be computed. */
  datatype Result<+T> = Ok(value: T) | Err(error: Error)

  /** The discount an employee type receives, in whole percent. */
  function DiscountPercent(t: EmployeeType): (p: nat)
    ensures p <= 20
    ensures p == 0 <==> t == PartTime
  {
    match t
    case PartTime => 0
    case PartialLoad => 5
    case FullTime => 10
    case CompanyPurchasing => 20
  }

  /** The fraction of the list price the employee still pays. */
  function PayableFraction(t: EmployeeType): (f: real)
    ensures 0.8 <= f <= 1.0
  {
    (100 - DiscountPercent(t)) as real / 100.0
  }

  /** The price an employee of type `t` pays for a laptop listed at `price`;
      a negative list price is an invalid argument. */
  function CalculateDiscountedPrice(t: EmployeeType, price: real): (r: Result<real>)
    ensures r.Err? <==> price < 0.0
    ensures r.Ok? ==> 0.0 <= r.value <= price
    ensures r.Ok? ==> price * 0.8 <= r.value
    ensures r.Ok? && r.value == price ==> t == PartTime || price == 0.0
  {
    if price < 0.0 then Err(InvalidArgument)
    else Ok(price * PayableFraction(t))
  }

  /** The list price that an employee of type `t` pays `paid` for: the inverse
      of the discount, defined because every rate stays below 100%. */
  function ListPrice(t: EmployeeType, paid: real): (price: real)
    ensures paid >= 0.0 ==> paid <= price <= paid * 1.25
  {
    paid / PayableFraction(t)
  }

  /** Per-type equations: no discount for part-time staff, 5% off for a
      partial load, 10% off for full-time staff and 20% off for company
      purchasing, for every non-negative price. */
  lemma PerTypeEquations(price: real)
    requires price >= 0.0
    ensures CalculateDiscountedPrice(PartTime, price) == Ok(price)
    ensures CalculateDiscountedPrice(PartialLoad, price) == Ok(price * 0.95)
    ensures CalculateDiscountedPrice(FullTime, price) == Ok(price * 0.90)
    ensures CalculateDiscountedPrice(CompanyPurchasing, price) == Ok(price * 0.80)
  {
    assert PayableFraction(PartialLoad) == 0.95;
    assert PayableFraction(FullTime) == 0.90;
  }

  /** A zero price is valid and costs nothing, whatever the employee type. */
  lemma ZeroPriceIsFree(t: EmployeeType)
    ensures CalculateDiscountedPrice(t, 0.0) == Ok(0.0)
  {
  }

  /** A negative price is refused with an invalid-argument error for every
      employee type. */
  lemma NegativePriceIsRefused(t: EmployeeType, price: real)
    requires price < 0.0
    ensures CalculateDiscountedPrice(t, price) == Err(InvalidArgument)
  {
  }

  /** A larger discount rate never makes the same laptop more expensive. */
  lemma LargerDiscountNeverCostsMore(a: EmployeeType, b: EmployeeType, price: real)
    requires price >= 0.0
    requires DiscountPercent(a) <= DiscountPercent(b)
    ensures CalculateDiscountedPrice(b, price).value <= CalculateDiscountedPrice(a, price).value
  {
  }

  /** For a fixed price the employee types are ordered
      PartTime >= PartialLoad >= FullTime >= CompanyPurchasing by what they pay:
      the chain form of `LargerDiscountNeverCostsMore` over neighbouring rates. */
  lemma TypesOrderedByPrice(price: real)
    requires price >= 0.0
    ensures CalculateDiscountedPrice(PartTime, price).value
         >= CalculateDiscountedPrice(PartialLoad, price).value
         >= CalculateDiscountedPrice(FullTime, price).value
         >= CalculateDiscountedPrice(CompanyPurchasing, price).value
  {
    LargerDiscountNeverCostsMore(PartTime, PartialLoad, price);
    LargerDiscountNeverCostsMore(PartialLoad, FullTime, price);
    LargerDiscountNeverCostsMore(FullTime, CompanyPurchasing, price);
  }

  /** For a positive price the discount rates are strictly ordered too, so
      different employee types pay different amounts. */
  lemma PositivePriceSeparatesTypes(a: EmployeeType, b: EmployeeType, price: real)
    requires price > 0.0
    ensures CalculateDiscountedPrice(a, price) == CalculateDiscountedPrice(b, price) <==> a == b
  {
  }

  /** The discount is invertible: the list price is recovered from what was
      paid, and every non-negative amount is what some list price costs. */
  lemma ListPriceRoundTrip(t: EmployeeType, price: real, paid: real)
    ensures price >= 0.0 ==> ListPrice(t, CalculateDiscountedPrice(t, price).value) == price
    ensures paid >= 0.0 ==> CalculateDiscountedPrice(t, ListPrice(t, paid)) == Ok(paid)
  {
  }
}
