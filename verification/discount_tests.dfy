/** The employee discount test fixture, one lemma per test method: each
    `TestCase` row becomes an equation about `CalculateDiscountedPrice`. */
module DiscountTests {
  import opened Discount

  /** Part-time employees receive no discount. */
  lemma PartTimeEmployeeReturnsOriginalPrice()
    ensures CalculateDiscountedPrice(PartTime, 300.0) == Ok(300.0)
    ensures CalculateDiscountedPrice(PartTime, 500.0) == Ok(500.0)
    ensures CalculateDiscountedPrice(PartTime, 1000.0) == Ok(1000.0)
  {
  }

  /** Partial-load employees receive 5% off. */
  lemma PartialLoadEmployeeReturnsDiscountedPrice()
    ensures CalculateDiscountedPrice(PartialLoad, 300.0) == Ok(285.0)
    ensures CalculateDiscountedPrice(PartialLoad, 500.0) == Ok(475.0)
    ensures CalculateDiscountedPrice(PartialLoad, 1000.0) == Ok(950.0)
  {
  }

  /** Full-time employees receive 10% off. */
  lemma FullTimeEmployeeReturnsDiscountedPrice()
    ensures CalculateDiscountedPrice(FullTime, 300.0) == Ok(270.0)
    ensures CalculateDiscountedPrice(FullTime, 500.0) == Ok(450.0)
    ensures CalculateDiscountedPrice(FullTime, 1000.0) == Ok(900.0)
  {
  }

  /** Company purchasing receives 20% off. */
  lemma CompanyPurchasingEmployeeReturnsDiscountedPrice()
    ensures CalculateDiscountedPrice(CompanyPurchasing, 300.0) == Ok(240.0)
    ensures CalculateDiscountedPrice(CompanyPurchasing, 500.0) == Ok(400.0)
    ensures CalculateDiscountedPrice(CompanyPurchasing, 1000.0) == Ok(800.0)
  {
  }

  /** A part-time employee with a price of -100 gets an invalid-argument
      error instead of a price. */
  lemma NegativePriceThrowsArgumentException()
    ensures CalculateDiscountedPrice(PartTime, -100.0) == Err(InvalidArgument)
  {
  }

  /** A part-time employee with a price of 0 pays 0. */
  lemma ZeroPriceReturnsZero()
    ensures CalculateDiscountedPrice(PartTime, 0.0) == Ok(0.0)
  {
  }
}
