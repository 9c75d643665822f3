# LaptopDiscount in Dafny

LaptopDiscount computes the price an employee pays for a laptop. An
`EmployeeDiscount` object holds an `EmployeeType` and a `Price`.
`CalculateDiscountedPrice()` returns the price reduced by a rate that
depends only on the employee type. A negative price raises an
`ArgumentException`. The class that implements this is not part of this
model. Its behaviour is fixed by the NUnit fixture
`LaptopDiscount.nUnitTests/EmployeeDiscountTests.cs`: the comments give the
rates, the `TestCase` rows give input/output pairs, and two tests cover a
negative and a zero price.

The model has two modules:

- `Discount` (`discount.dfy`) defines the employee types and the rate table.
  It defines the calculation as a pure function of `(type, price)` that
  returns a `Result`: `Err(InvalidArgument)` for a negative price, and
  otherwise `Ok` of the discounted price. Prices are `real`, so every
  tested value is exact (300 × 95% is exactly 285). The module proves the
  general properties: the per-type equations, error exactly on negative
  prices, zero in gives zero out, bounds, ordering of the types, and that
  the discount can be inverted.
- `DiscountTests` (`discount_tests.dfy`) has one lemma per test method. Each
  lemma states every `TestCase` row of that method as an equation.

The fixture tests a negative price only for `PartTime`. The model refuses a
negative price for every employee type, as the fixture's description of the
operation ("Price should not be negative") implies.

## Model

| member | source | states |
|---|---|---|
| Discount.DiscountPercent | LaptopDiscount.nUnitTests/EmployeeDiscountTests.cs:18-69 | the rate is at most 20%, and it is 0% exactly for part-time employees |
| Discount.PayableFraction | LaptopDiscount.nUnitTests/EmployeeDiscountTests.cs:18-69 | every employee pays between 80% and 100% of the list price |
| Discount.CalculateDiscountedPrice | LaptopDiscount.nUnitTests/EmployeeDiscountTests.cs:18-111 | fails exactly when the price is negative; otherwise the result lies between 80% of the price and the price, and equals the price only for part-time staff or a zero price |
| Discount.PerTypeEquations | LaptopDiscount.nUnitTests/EmployeeDiscountTests.cs:18-84 | for every non-negative price: PartTime pays the price, PartialLoad 95%, FullTime 90%, CompanyPurchasing 80% |
| Discount.ZeroPriceIsFree | LaptopDiscount.nUnitTests/EmployeeDiscountTests.cs:98-111 | a zero price is valid and yields 0 for every employee type |
| Discount.NegativePriceIsRefused | LaptopDiscount.nUnitTests/EmployeeDiscountTests.cs:86-96 | a negative price yields the invalid-argument error for every employee type |
| Discount.LargerDiscountNeverCostsMore | LaptopDiscount.nUnitTests/EmployeeDiscountTests.cs:18-69 | of two employee types, the one with the larger rate never pays more for the same non-negative price |
| Discount.TypesOrderedByPrice | LaptopDiscount.nUnitTests/EmployeeDiscountTests.cs:18-69 | for a fixed non-negative price, PartTime pays at least PartialLoad, which pays at least FullTime, which pays at least CompanyPurchasing |
| Discount.PositivePriceSeparatesTypes | LaptopDiscount.nUnitTests/EmployeeDiscountTests.cs:18-84 | for a positive price, two employee types get the same result if and only if they are the same type |
| Discount.ListPriceRoundTrip | LaptopDiscount.nUnitTests/EmployeeDiscountTests.cs:35-84 | the list price is recovered from the discounted price, and every non-negative amount is the discounted price of its list price |
| DiscountTests.PartTimeEmployeeReturnsOriginalPrice | LaptopDiscount.nUnitTests/EmployeeDiscountTests.cs:18-33 | PartTime: 300, 500 and 1000 are returned unchanged |
| DiscountTests.PartialLoadEmployeeReturnsDiscountedPrice | LaptopDiscount.nUnitTests/EmployeeDiscountTests.cs:35-50 | PartialLoad: 300 gives 285, 500 gives 475, 1000 gives 950 |
| DiscountTests.FullTimeEmployeeReturnsDiscountedPrice | LaptopDiscount.nUnitTests/EmployeeDiscountTests.cs:52-67 | FullTime: 300 gives 270, 500 gives 450, 1000 gives 900 |
| DiscountTests.CompanyPurchasingEmployeeReturnsDiscountedPrice | LaptopDiscount.nUnitTests/EmployeeDiscountTests.cs:69-84 | CompanyPurchasing: 300 gives 240, 500 gives 400, 1000 gives 800 |
| DiscountTests.NegativePriceThrowsArgumentException | LaptopDiscount.nUnitTests/EmployeeDiscountTests.cs:86-96 | PartTime with price -100 yields the invalid-argument error |
| DiscountTests.ZeroPriceReturnsZero | LaptopDiscount.nUnitTests/EmployeeDiscountTests.cs:98-111 | PartTime with price 0 yields 0 |

## Left out

- The `EmployeeDiscount` class is not part of this model. Its behaviour is taken from the fixture's rates and test rows.
- The mutable object style (set `EmployeeType` and `Price`, then call) is modelled as a pure function of the two values.
- NUnit plumbing (`[SetUp]`, `Assert.That`, `Assert.Throws`) is left out. Each assertion becomes a lemma's `ensures`.
- C# `decimal` precision limits and rounding are left out. Every tested value is exact, and the rounding rule of the implementation is not visible, so the model computes with exact `real` values and rounds nothing. With `decimal`'s 28 decimal places and rounding, these results would no longer hold for every price: the 95%, 90% and 80% equations of Discount.PerTypeEquations, the third and fourth `ensures` of Discount.CalculateDiscountedPrice (the result is at least 80% of the price, and equals the price only for PartTime or a zero price), Discount.PositivePriceSeparatesTypes and Discount.ListPriceRoundTrip. For example, a price of 1e-28 would round back to itself for every type, and CompanyPurchasing at 3e-28 would round to 2e-28. Results that any monotone rounding keeps are the `DiscountTests` rows, the error and zero results, the bound 0 <= result <= price, and the two ordering lemmas.
- The .NET exception type `ArgumentException` becomes the `InvalidArgument` error of the `Result` type. Its message is not modelled.
- Discount.ListPrice is not an operation of the source, so it has no row in the table. It is the inverse of the discount. Discount.ListPriceRoundTrip uses it to prove that the discount can be undone in both directions on non-negative amounts.
