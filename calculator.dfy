/**
 * The investment-metrics calculation of the real-estate deal calculator:
 * down payment and loan, the level monthly payment, and for each of the two
 * rent scenarios (current rent, market rent) income, operating expenses, net
 * operating income, cash flow, cash-on-cash return and cap rate.
 *
 * Amounts and percentages are exact reals. The calculation divides at three
 * places; where a divisor is zero the Python calculator raises a division-by-zero
 * error at the first such place, which `Evaluate` reports as `ZeroDivision`
 * naming that place.
 */
module Calculator {
  import opened Power

  /** The thirteen figures the user enters. */
  datatype Inputs = Inputs(
    purchasePrice: real,
    rehabCosts: real,
    arv: real,
    downPaymentPercentage: real,
    loanTermYears: int,
    interestRate: real,
    currentRent: real,
    marketRent: real,
    managementFeePercentage: real,
    maintenanceFeePercentage: real,
    vacancyRatePercentage: real,
    propertyTax: real,
    insurance: real)

  /** The bounds the input widgets enforce on each figure. */
  predicate ValidInputs(i: Inputs)
  {
    && i.purchasePrice >= 0.0
    && i.rehabCosts >= 0.0
    && i.arv >= 0.0
    && 0.0 <= i.downPaymentPercentage <= 100.0
    && 5 <= i.loanTermYears <= 30
    && 0.0 <= i.interestRate <= 15.0
    && i.currentRent >= 0.0
    && i.marketRent >= 0.0
    && 0.0 <= i.managementFeePercentage <= 20.0
    && 0.0 <= i.maintenanceFeePercentage <= 20.0
    && 0.0 <= i.vacancyRatePercentage <= 100.0
    && i.propertyTax >= 0.0
    && i.insurance >= 0.0
  }

  /** The figures derived for one monthly rent. */
  datatype Scenario = Scenario(
    annualRentalIncome: real,
    managementCost: real,
    maintenanceCost: real,
    vacancyReserve: real,
    totalOperatingExpenses: real,
    noi: real,
    cashFlow: real,
    cashOnCashReturn: real,
    capRate: real)

  /** Everything the calculation derives when no division by zero occurs. */
  datatype Results = Results(
    downPayment: real,
    loanAmount: real,
    monthlyInterestRate: real,
    numberOfPayments: nat,
    monthlyPrincipalInterest: real,
    totalCashInvested: real,
    current: Scenario,
    market: Scenario)

  /** The three divisions of the calculation whose divisor can be zero. */
  datatype Division =
    | AnnuityDenominator  // (1 + r)^n - 1 in the annuity formula
    | CashInvested        // total cash invested, for cash-on-cash return
    | PurchasePrice       // purchase price, for cap rate

  datatype Outcome = Ok(results: Results) | ZeroDivision(at: Division)

  /** The share of the purchase price paid up front. */
  function DownPayment(purchasePrice: real, downPaymentPercentage: real): real
  {
    purchasePrice * (downPaymentPercentage / 100.0)
  }

  /** The loan is sized against the after-repair value, with no clamping. */
  function LoanAmount(arv: real, downPayment: real): real
  {
    arv - downPayment
  }

  /** The annual percentage rate as a monthly fraction. */
  function MonthlyInterestRate(interestRate: real): real
  {
    interestRate / 100.0 / 12.0
  }

  function NumberOfPayments(loanTermYears: int): int
  {
    loanTermYears * 12
  }

  /** The divisor of the annuity formula, `(1 + r)^n - 1`. */
  function PaymentDenominator(r: real, n: nat): real
  {
    Pow(1.0 + r, n) - 1.0
  }

  /** The level monthly payment by the closed-form annuity formula. */
  function MonthlyPayment(loanAmount: real, r: real, n: nat): real
    requires PaymentDenominator(r, n) != 0.0
  {
    loanAmount * r * Pow(1.0 + r, n) / PaymentDenominator(r, n)
  }

  function TotalCashInvested(downPayment: real, rehabCosts: real, propertyTax: real, insurance: real): real
  {
    downPayment + rehabCosts + propertyTax + insurance
  }

  /**
   * One rent scenario: annual income, the three percentage-of-income costs
   * plus the fixed annual tax and insurance, NOI, cash flow after twelve
   * monthly payments, and the two ratios as percentages.
   */
  function ScenarioOf(monthlyRent: real, i: Inputs, monthlyPayment: real, totalCashInvested: real): Scenario
    requires totalCashInvested != 0.0 && i.purchasePrice != 0.0
  {
    var income := monthlyRent * 12.0;
    var management := income * (i.managementFeePercentage / 100.0);
    var maintenance := income * (i.maintenanceFeePercentage / 100.0);
    var vacancy := income * (i.vacancyRatePercentage / 100.0);
    var expenses := management + maintenance + vacancy + i.propertyTax + i.insurance;
    var noi := income - expenses;
    var cashFlow := noi - monthlyPayment * 12.0;
    Scenario(income, management, maintenance, vacancy, expenses, noi, cashFlow,
             (cashFlow / totalCashInvested) * 100.0, (noi / i.purchasePrice) * 100.0)
  }

  /** No cash goes in: nothing down, no rehab, no tax and no insurance. */
  predicate NoCashInvested(i: Inputs)
  {
    && (i.purchasePrice == 0.0 || i.downPaymentPercentage == 0.0)
    && i.rehabCosts == 0.0
    && i.propertyTax == 0.0
    && i.insurance == 0.0
  }

  /** None of the three divisors is zero: the calculation runs to the end. */
  predicate DivisorsNonZero(i: Inputs)
  {
    i.interestRate != 0.0 && !NoCashInvested(i) && i.purchasePrice != 0.0
  }

  /** Total cash invested is zero exactly when no cash goes in. */
  lemma CashInvestedZeroIff(i: Inputs)
    requires ValidInputs(i)
    ensures var cash := TotalCashInvested(DownPayment(i.purchasePrice, i.downPaymentPercentage),
                                          i.rehabCosts, i.propertyTax, i.insurance);
            cash >= 0.0 && (cash == 0.0 <==> NoCashInvested(i))
  {
  }

  /**
   * The whole calculation, in the calculator's order: the annuity division
   * first, then the cash-on-cash divisions, then the cap-rate divisions.
   * The outcome is an error exactly when a divisor is zero, and the error
   * names the first zero divisor, characterised by the inputs.
   */
  function Evaluate(i: Inputs): (o: Outcome)
    requires ValidInputs(i)
    ensures o.Ok? <==> DivisorsNonZero(i)
    ensures o == ZeroDivision(AnnuityDenominator) <==> i.interestRate == 0.0
    ensures o == ZeroDivision(CashInvested) <==> i.interestRate != 0.0 && NoCashInvested(i)
    ensures o == ZeroDivision(PurchasePrice)
        <==> i.interestRate != 0.0 && !NoCashInvested(i) && i.purchasePrice == 0.0
  {
    var downPayment := DownPayment(i.purchasePrice, i.downPaymentPercentage);
    var loanAmount := LoanAmount(i.arv, downPayment);
    var r := MonthlyInterestRate(i.interestRate);
    var n: nat := NumberOfPayments(i.loanTermYears);
    PowMinusOneZeroIff(r, n);
    if PaymentDenominator(r, n) == 0.0 then ZeroDivision(AnnuityDenominator)
    else
      var payment := MonthlyPayment(loanAmount, r, n);
      var cash := TotalCashInvested(downPayment, i.rehabCosts, i.propertyTax, i.insurance);
      CashInvestedZeroIff(i);
      if cash == 0.0 then ZeroDivision(CashInvested)
      else if i.purchasePrice == 0.0 then ZeroDivision(PurchasePrice)
      else
        Ok(Results(downPayment, loanAmount, r, n, payment, cash,
                   ScenarioOf(i.currentRent, i, payment, cash),
                   ScenarioOf(i.marketRent, i, payment, cash)))
  }
}
