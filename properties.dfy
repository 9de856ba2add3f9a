/**
 * Properties of the investment calculation: the financing figures, the rent
 * scenarios as affine functions of rent, the annuity payment and the loan
 * balance it pays off, and the figures of the default deal.
 */
module Properties {
  import opened Power
  import opened Calculator

  /** The sum of the three percentage-of-income cost rates. */
  function CostPercentage(i: Inputs): real
  {
    i.managementFeePercentage + i.maintenanceFeePercentage + i.vacancyRatePercentage
  }

  // ---------------------------------------------------------------------------
  // Financing

  /** The down payment is the given share of the price and never exceeds it. */
  lemma DownPaymentBounds(purchasePrice: real, downPaymentPercentage: real)
    requires purchasePrice >= 0.0 && 0.0 <= downPaymentPercentage <= 100.0
    ensures 0.0 <= DownPayment(purchasePrice, downPaymentPercentage) <= purchasePrice
    ensures DownPayment(purchasePrice, downPaymentPercentage) == purchasePrice
        <==> purchasePrice == 0.0 || downPaymentPercentage == 100.0
  {
    var f := downPaymentPercentage / 100.0;
    MulLeftMonotone(purchasePrice, 0.0, f);
    MulLeftMonotone(purchasePrice, f, 1.0);
    if purchasePrice * f == purchasePrice && purchasePrice != 0.0 {
      assert purchasePrice * (f - 1.0) == 0.0;
    }
  }

  /**
   * In a successful evaluation the loan is the after-repair value less the
   * down payment, negative exactly when the down payment exceeds that value,
   * and the loan runs 60 to 360 months at a positive monthly rate.
   */
  lemma Financing(i: Inputs)
    requires ValidInputs(i) && DivisorsNonZero(i)
    ensures var res := Evaluate(i).results;
      && res.downPayment == i.purchasePrice * i.downPaymentPercentage / 100.0
      && 0.0 <= res.downPayment <= i.purchasePrice
      && res.loanAmount + res.downPayment == i.arv
      && (res.loanAmount < 0.0 <==> res.downPayment > i.arv)
      && 60 <= res.numberOfPayments <= 360
      && 0.0 < res.monthlyInterestRate <= 0.0125
      && res.totalCashInvested > 0.0
  {
    DownPaymentBounds(i.purchasePrice, i.downPaymentPercentage);
    CashInvestedZeroIff(i);
  }

  // ---------------------------------------------------------------------------
  // Rent scenarios

  /**
   * A scenario's income is twelve months of rent; its operating expenses are
   * that income times the summed cost rates plus tax and insurance; so NOI is
   * affine in rent, and cash flow is NOI less a year of payments.
   */
  lemma ScenarioClosedForm(rent: real, i: Inputs, payment: real, cash: real)
    requires cash != 0.0 && i.purchasePrice != 0.0
    ensures var s := ScenarioOf(rent, i, payment, cash);
      && s.annualRentalIncome == 12.0 * rent
      && s.totalOperatingExpenses
         == s.annualRentalIncome * CostPercentage(i) / 100.0 + i.propertyTax + i.insurance
      && s.noi == 12.0 * rent * (1.0 - CostPercentage(i) / 100.0) - (i.propertyTax + i.insurance)
      && s.cashFlow == s.noi - 12.0 * payment
      && s.cashOnCashReturn == 100.0 * s.cashFlow / cash
      && s.capRate == 100.0 * s.noi / i.purchasePrice
  {
  }

  /** With no rent: no income, expenses are tax and insurance, NOI is their negation. */
  lemma ZeroRent(i: Inputs, payment: real, cash: real)
    requires cash != 0.0 && i.purchasePrice != 0.0
    ensures var s := ScenarioOf(0.0, i, payment, cash);
      && s.annualRentalIncome == 0.0
      && s.totalOperatingExpenses == i.propertyTax + i.insurance
      && s.noi == -(i.propertyTax + i.insurance)
      && s.cashFlow == -(i.propertyTax + i.insurance) - 12.0 * payment
  {
  }

  /**
   * The two scenarios differ only through the rent: their NOI differ by a
   * year of the rent difference net of the cost rates, and since both carry
   * the same debt service their cash flows differ by exactly as much.
   */
  lemma ScenarioDifference(i: Inputs)
    requires ValidInputs(i) && DivisorsNonZero(i)
    ensures var res := Evaluate(i).results;
      && res.market.noi - res.current.noi
         == 12.0 * (i.marketRent - i.currentRent) * (1.0 - CostPercentage(i) / 100.0)
      && res.market.cashFlow - res.current.cashFlow == res.market.noi - res.current.noi
      && res.market.totalOperatingExpenses - res.current.totalOperatingExpenses
         == 12.0 * (i.marketRent - i.currentRent) * CostPercentage(i) / 100.0
  {
  }

  /**
   * For two rents under the same costs, payment and cash invested, the
   * higher rent gives the higher NOI, cash flow and cash-on-cash return
   * exactly when the cost rates sum to less than 100 percent (at 100 they are
   * equal, above 100 the higher rent does worse).
   */
  lemma RentDifference(low: real, high: real, i: Inputs, payment: real, cash: real)
    requires cash > 0.0 && i.purchasePrice != 0.0 && low < high
    ensures var before := ScenarioOf(low, i, payment, cash);
      var after := ScenarioOf(high, i, payment, cash);
      && after.noi - before.noi == 12.0 * (high - low) * (1.0 - CostPercentage(i) / 100.0)
      && after.cashFlow - before.cashFlow == after.noi - before.noi
      && (after.noi > before.noi <==> CostPercentage(i) < 100.0)
      && (after.noi == before.noi <==> CostPercentage(i) == 100.0)
      && (after.cashFlow > before.cashFlow <==> CostPercentage(i) < 100.0)
      && (after.cashFlow == before.cashFlow <==> CostPercentage(i) == 100.0)
      && (after.cashOnCashReturn > before.cashOnCashReturn <==> CostPercentage(i) < 100.0)
      && (after.cashOnCashReturn == before.cashOnCashReturn <==> CostPercentage(i) == 100.0)
  {
    var before := ScenarioOf(low, i, payment, cash);
    var after := ScenarioOf(high, i, payment, cash);
    ScenarioClosedForm(low, i, payment, cash);
    ScenarioClosedForm(high, i, payment, cash);
    var k := 1.0 - CostPercentage(i) / 100.0;
    var d := after.noi - before.noi;
    assert d == 12.0 * (high - low) * k;
    SignOfProduct(12.0 * (high - low), k);
    assert after.cashFlow - before.cashFlow == d;
    assert after.cashOnCashReturn - before.cashOnCashReturn == 100.0 * d / cash by {
      assert after.cashOnCashReturn == 100.0 * after.cashFlow / cash;
      assert before.cashOnCashReturn == 100.0 * before.cashFlow / cash;
      QuotientOfDifference(100.0 * after.cashFlow, 100.0 * before.cashFlow, cash);
    }
    SignOfQuotient(100.0 * d, cash);
  }

  /**
   * Raising the market rent, all else fixed, keeps the evaluation successful
   * and moves the market NOI, cash flow and cash-on-cash return up exactly
   * when the cost rates sum to less than 100 percent, leaves them unchanged
   * exactly at 100 percent, and so lowers them above 100 percent.
   */
  lemma MarketRentMonotone(i: Inputs, rent: real)
    requires ValidInputs(i) && DivisorsNonZero(i) && rent > i.marketRent
    ensures ValidInputs(i.(marketRent := rent)) && Evaluate(i.(marketRent := rent)).Ok?
    ensures var before := Evaluate(i).results.market;
      var after := Evaluate(i.(marketRent := rent)).results.market;
      && (after.noi > before.noi <==> CostPercentage(i) < 100.0)
      && (after.noi == before.noi <==> CostPercentage(i) == 100.0)
      && (after.cashFlow > before.cashFlow <==> CostPercentage(i) < 100.0)
      && (after.cashFlow == before.cashFlow <==> CostPercentage(i) == 100.0)
      && (after.cashOnCashReturn > before.cashOnCashReturn <==> CostPercentage(i) < 100.0)
      && (after.cashOnCashReturn == before.cashOnCashReturn <==> CostPercentage(i) == 100.0)
  {
    var res := Evaluate(i).results;
    Financing(i);
    MarketRentOnlyMovesMarket(i, rent);
    RentDifference(i.marketRent, rent, i, res.monthlyPrincipalInterest, res.totalCashInvested);
  }

  /**
   * Changing the market rent changes only the market scenario: the new
   * market scenario is the old inputs' scenario at the new rent.
   */
  lemma MarketRentOnlyMovesMarket(i: Inputs, rent: real)
    requires ValidInputs(i) && DivisorsNonZero(i) && rent >= 0.0
    ensures ValidInputs(i.(marketRent := rent)) && Evaluate(i.(marketRent := rent)).Ok?
    ensures var res := Evaluate(i).results;
      var res' := Evaluate(i.(marketRent := rent)).results;
      && res'.current == res.current
      && res'.monthlyPrincipalInterest == res.monthlyPrincipalInterest
      && res'.totalCashInvested == res.totalCashInvested
      && res.totalCashInvested != 0.0
      && res'.market == ScenarioOf(rent, i, res.monthlyPrincipalInterest, res.totalCashInvested)
  {
    var j := i.(marketRent := rent);
    var res := Evaluate(i).results;
    assert j.purchasePrice == i.purchasePrice && j.downPaymentPercentage == i.downPaymentPercentage;
    assert j.arv == i.arv && j.interestRate == i.interestRate && j.loanTermYears == i.loanTermYears;
    assert j.rehabCosts == i.rehabCosts && j.propertyTax == i.propertyTax && j.insurance == i.insurance;
    assert j.currentRent == i.currentRent;
    ScenarioIgnoresRents(i.currentRent, i, j, res.monthlyPrincipalInterest, res.totalCashInvested);
    ScenarioIgnoresRents(rent, i, j, res.monthlyPrincipalInterest, res.totalCashInvested);
  }

  /** A scenario depends on the inputs only through the cost rates, tax, insurance and price. */
  lemma ScenarioIgnoresRents(rent: real, i: Inputs, j: Inputs, payment: real, cash: real)
    requires cash != 0.0 && i.purchasePrice != 0.0
    requires j == i.(marketRent := j.marketRent)
    ensures ScenarioOf(rent, j, payment, cash) == ScenarioOf(rent, i, payment, cash)
  {
  }

  /** Dividing a difference is the difference of the quotients. */
  lemma QuotientOfDifference(a: real, b: real, c: real)
    requires c != 0.0
    ensures a / c - b / c == (a - b) / c
  {
  }

  /** A quotient by a positive divisor is at least `c` when the dividend is at least `c` times the divisor. */
  lemma QuotientAtLeast(a: real, b: real, c: real)
    requires b > 0.0 && a >= c * b
    ensures a / b >= c
    ensures a > c * b ==> a / b > c
  {
  }

  /** A positive factor does not change the sign of the other factor. */
  lemma SignOfProduct(a: real, b: real)
    requires a > 0.0
    ensures a * b > 0.0 <==> b > 0.0
    ensures a * b == 0.0 <==> b == 0.0
  {
  }

  /** A positive divisor does not change the sign of the dividend. */
  lemma SignOfQuotient(a: real, b: real)
    requires b > 0.0
    ensures a / b > 0.0 <==> a > 0.0
    ensures a / b == 0.0 <==> a == 0.0
  {
  }

  /**
   * In a successful evaluation each ratio has the sign of the figure it is
   * taken of: cash-on-cash return that of cash flow, cap rate that of NOI.
   */
  lemma RatioSigns(i: Inputs)
    requires ValidInputs(i) && DivisorsNonZero(i)
    ensures var res := Evaluate(i).results;
      && (res.current.cashOnCashReturn > 0.0 <==> res.current.cashFlow > 0.0)
      && (res.market.cashOnCashReturn > 0.0 <==> res.market.cashFlow > 0.0)
      && (res.current.capRate > 0.0 <==> res.current.noi > 0.0)
      && (res.market.capRate > 0.0 <==> res.market.noi > 0.0)
  {
  }

  // ---------------------------------------------------------------------------
  // The annuity payment

  /** For a positive rate and term the payment is the loan times a positive factor. */
  lemma PaymentFactor(loanAmount: real, r: real, n: nat)
    requires r > 0.0 && n >= 1
    ensures PaymentDenominator(r, n) > 0.0
    ensures var f := r * Pow(1.0 + r, n) / PaymentDenominator(r, n);
      f > r && MonthlyPayment(loanAmount, r, n) == loanAmount * f
  {
    PowAboveOne(1.0 + r, n);
    var p := Pow(1.0 + r, n);
    assert r * p > r * (p - 1.0);
    QuotientAtLeast(r * p, p - 1.0, r);
  }

  /** The payment is linear in the loan amount. */
  lemma PaymentLinear(a: real, b: real, k: real, r: real, n: nat)
    requires r > 0.0 && n >= 1
    ensures PaymentDenominator(r, n) != 0.0
    ensures MonthlyPayment(a + b, r, n) == MonthlyPayment(a, r, n) + MonthlyPayment(b, r, n)
    ensures MonthlyPayment(k * a, r, n) == k * MonthlyPayment(a, r, n)
  {
    PaymentFactor(a, r, n);
    PaymentFactor(b, r, n);
    PaymentFactor(a + b, r, n);
    PaymentFactor(k * a, r, n);
  }

  /**
   * The payment has the sign of the loan, and a positive loan's payment
   * exceeds the interest-only amount `loanAmount * r`.
   */
  lemma PaymentSign(loanAmount: real, r: real, n: nat)
    requires r > 0.0 && n >= 1
    ensures PaymentDenominator(r, n) != 0.0
    ensures MonthlyPayment(loanAmount, r, n) > 0.0 <==> loanAmount > 0.0
    ensures MonthlyPayment(loanAmount, r, n) == 0.0 <==> loanAmount == 0.0
    ensures loanAmount > 0.0 ==> MonthlyPayment(loanAmount, r, n) > loanAmount * r
  {
    PaymentFactor(loanAmount, r, n);
    var f := r * Pow(1.0 + r, n) / PaymentDenominator(r, n);
    SignOfProduct(f, loanAmount);
    if loanAmount > 0.0 {
      assert loanAmount * f > loanAmount * r;
    }
  }

  /** Over the whole term the payments add up to at least the amount borrowed. */
  lemma TotalRepaidCoversLoan(loanAmount: real, r: real, n: nat)
    requires loanAmount >= 0.0 && r > 0.0 && n >= 1
    ensures PaymentDenominator(r, n) != 0.0
    ensures (n as real) * MonthlyPayment(loanAmount, r, n) >= loanAmount
  {
    PowGrowthBound(r, n);
    PowAboveOne(1.0 + r, n);
    var p, d := Pow(1.0 + r, n), PaymentDenominator(r, n);
    var payment := MonthlyPayment(loanAmount, r, n);
    assert payment == loanAmount * r * p / d;
    RepaidAtLeast(loanAmount, r, p, d, n as real, payment);
  }

  /** The bound above with the power abstracted to `p` and the term to `m`. */
  lemma RepaidAtLeast(loanAmount: real, r: real, p: real, d: real, m: real, payment: real)
    requires loanAmount >= 0.0 && r > 0.0 && p > 1.0 && d == p - 1.0 && p - 1.0 <= m * r * p
    requires payment == loanAmount * r * p / d
    ensures m * payment >= loanAmount
  {
    var f := r * p / (p - 1.0);
    TermTimesFactor(r, p, m);
    assert payment == loanAmount * f;
    MulLeftMonotone(loanAmount, 1.0, m * f);
    assert m * payment == loanAmount * (m * f);
  }

  /**
   * The payment is at most the interest-only amount plus a straight-line
   * share of the principal: `payment <= loanAmount * r + loanAmount / n`.
   */
  lemma PaymentUpperBound(loanAmount: real, r: real, n: nat)
    requires loanAmount >= 0.0 && r > 0.0 && n >= 1
    ensures PaymentDenominator(r, n) != 0.0
    ensures MonthlyPayment(loanAmount, r, n) <= loanAmount * r + loanAmount / (n as real)
  {
    Bernoulli(r, n);
    PowAboveOne(1.0 + r, n);
    var p, d := Pow(1.0 + r, n), PaymentDenominator(r, n);
    var payment := MonthlyPayment(loanAmount, r, n);
    assert payment == loanAmount * r * p / d;
    PaidAtMost(loanAmount, r, p, d, n as real, payment);
  }

  /** The bound above with the power abstracted to `p` and the term to `m`. */
  lemma PaidAtMost(loanAmount: real, r: real, p: real, d: real, m: real, payment: real)
    requires loanAmount >= 0.0 && r > 0.0 && m >= 1.0 && d == p - 1.0 && d >= m * r
    requires payment == loanAmount * r * p / d
    ensures payment <= loanAmount * r + loanAmount / m
  {
  }

  /** The step of the bound above with the power abstracted to `p`. */
  lemma TermTimesFactor(r: real, p: real, m: real)
    requires r > 0.0 && p > 1.0 && p - 1.0 <= m * r * p
    ensures m * (r * p / (p - 1.0)) >= 1.0
  {
    QuotientAtLeast(m * r * p, p - 1.0, 1.0);
    assert m * (r * p / (p - 1.0)) == m * r * p / (p - 1.0);
  }

  /**
   * The balance owed after `k` months: each month the balance accrues
   * interest at rate `r` and the payment is taken off.
   */
  function Balance(loanAmount: real, r: real, payment: real, k: nat): real
  {
    if k == 0 then loanAmount else Balance(loanAmount, r, payment, k - 1) * (1.0 + r) - payment
  }

  /** Closed form of the balance: `r B_k = r L (1 + r)^k - p ((1 + r)^k - 1)`. */
  lemma {:induction false} BalanceClosedForm(loanAmount: real, r: real, payment: real, k: nat)
    ensures r * Balance(loanAmount, r, payment, k)
         == r * loanAmount * Pow(1.0 + r, k) - payment * (Pow(1.0 + r, k) - 1.0)
  {
    if k == 0 {
      assert Pow(1.0 + r, k) == 1.0 && Balance(loanAmount, r, payment, k) == loanAmount;
    } else {
      BalanceClosedForm(loanAmount, r, payment, k - 1);
      var b, p := Balance(loanAmount, r, payment, k - 1), Pow(1.0 + r, k - 1);
      BalanceStep(loanAmount, r, payment, b, p, Balance(loanAmount, r, payment, k), Pow(1.0 + r, k));
    }
  }

  /**
   * One month of the closed form: from balance `b` at power `p` to the next
   * month's balance `b'` at power `p'`.
   */
  lemma BalanceStep(loanAmount: real, r: real, payment: real, b: real, p: real, b': real, p': real)
    requires r * b == r * loanAmount * p - payment * (p - 1.0)
    requires b' == b * (1.0 + r) - payment && p' == (1.0 + r) * p
    ensures r * b' == r * loanAmount * p' - payment * (p' - 1.0)
  {
  }

  /**
   * The level payment of the annuity formula pays the loan off exactly: after
   * `n` monthly payments nothing is owed.
   */
  lemma PaymentAmortizesLoan(loanAmount: real, r: real, n: nat)
    requires r > 0.0 && n >= 1
    ensures PaymentDenominator(r, n) != 0.0
    ensures Balance(loanAmount, r, MonthlyPayment(loanAmount, r, n), n) == 0.0
  {
    PaymentFactor(loanAmount, r, n);
    var payment := MonthlyPayment(loanAmount, r, n);
    BalanceClosedForm(loanAmount, r, payment, n);
    var p := Pow(1.0 + r, n);
    assert payment * (p - 1.0) == loanAmount * r * p;
    assert r * Balance(loanAmount, r, payment, n) == 0.0;
  }

  /** The payment a successful evaluation reports pays its loan off over its term. */
  lemma EvaluatedPaymentAmortizes(i: Inputs)
    requires ValidInputs(i) && DivisorsNonZero(i)
    ensures var res := Evaluate(i).results;
      && Balance(res.loanAmount, res.monthlyInterestRate, res.monthlyPrincipalInterest,
                 res.numberOfPayments) == 0.0
      && (res.monthlyPrincipalInterest > 0.0 <==> res.loanAmount > 0.0)
  {
    var res := Evaluate(i).results;
    Financing(i);
    PaymentAmortizesLoan(res.loanAmount, res.monthlyInterestRate, res.numberOfPayments);
    PaymentSign(res.loanAmount, res.monthlyInterestRate, res.numberOfPayments);
  }

  // ---------------------------------------------------------------------------
  // The default deal

  /** The figures the input widgets start with. */
  function DefaultInputs(): (i: Inputs)
    ensures ValidInputs(i)
  {
    Inputs(150000.0, 30000.0, 250000.0, 20.0, 30, 5.0, 2000.0, 2500.0,
           10.0, 5.0, 5.0, 3000.0, 1500.0)
  }

  /** The exact figures of the default deal that do not depend on the payment. */
  lemma DefaultDeal()
    ensures Evaluate(DefaultInputs()).Ok?
    ensures var res := Evaluate(DefaultInputs()).results;
      && res.downPayment == 30000.0
      && res.loanAmount == 220000.0
      && res.numberOfPayments == 360
      && res.totalCashInvested == 64500.0
      && res.current.annualRentalIncome == 24000.0
      && res.current.totalOperatingExpenses == 9300.0
      && res.current.noi == 14700.0
      && res.current.capRate == 9.8
      && res.market.annualRentalIncome == 30000.0
      && res.market.totalOperatingExpenses == 10500.0
      && res.market.noi == 19500.0
      && res.market.capRate == 13.0
      && res.market.cashFlow - res.current.cashFlow == 4800.0
      && res.monthlyPrincipalInterest > 220000.0 * 5.0 / 1200.0
  {
    var i := DefaultInputs();
    ScenarioDifference(i);
    EvaluatedPaymentAmortizes(i);
    PaymentSign(220000.0, 5.0 / 100.0 / 12.0, 360);
  }
}
