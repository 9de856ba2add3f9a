# Real-estate investment calculator: a Dafny model

This project models the calculation of the deal-analysis calculator
(`re-calculator.py`). From thirteen figures the calculator derives an investment's
metrics:

- the down payment and the loan amount, with the loan sized against the
  after-repair value (ARV), not the purchase price;
- the level monthly payment, by the closed-form annuity formula;
- for each of two rent scenarios (current rent and market rent): annual rental
  income, operating expenses, net operating income (NOI), cash flow,
  cash-on-cash return and cap rate.

The calculation is straight-line arithmetic with no state, so the model is a set
of pure functions:

- `power.dfy` (module `Power`): `Pow(x, n)`, which models `x ** n` for an
  integer exponent, and its growth facts (Bernoulli's inequality among them).
- `calculator.dfy` (module `Calculator`): the inputs, the input domain enforced
  by the widgets, one function per step of the calculation, and `Evaluate`,
  which chains the steps in the source's order.
- `properties.dfy` (module `Properties`): lemmas about the model.
  - The financing figures.
  - Each scenario as an affine function of rent.
  - The difference between the two scenarios, and monotonicity in rent.
  - Linearity and sign of the payment. The payment is also checked against an
    independent reference: a month-by-month loan balance (`Balance`), which is
    proved to reach zero after the last payment.
  - The exact figures of the default deal.

Amounts and percentages are exact `real`s. `loan_term_years` is an `int` from
5 to 30, so the number of payments ranges from 60 to 360.

The source divides at three places whose divisor can be zero:

- `(1 + r)^n - 1` in the payment (line 65). It is zero when the interest rate
  is 0, which the rate widget allows.
- Total cash invested, on lines 91–92.
- The purchase price, on lines 94–95.

Python raises a division-by-zero error at the first zero divisor, and nothing
after it is computed. `Evaluate` follows the code here. It returns
`ZeroDivision(at)` naming that first division, and otherwise `Ok(results)`.
Its contract characterises each outcome by the inputs alone:

- the payment division fails exactly when the interest rate is 0;
- the cash-on-cash division fails exactly when no cash goes in (no down payment,
  no rehab, no tax, no insurance);
- the cap-rate division fails exactly when the purchase price is 0.

Three behaviours one might expect of such a calculator are not what its code
does. The model follows the code each time:

- One might expect each metric with a zero divisor to be marked "undefined"
  on its own. The code aborts the whole calculation at the first zero divisor.
- One might expect a zero-interest payment of `loan / n`. The code has no such
  branch: at rate 0 it divides by zero. The model reports that error and adds
  no formula.
- One might expect NOI and cash-on-cash return never to decrease as market rent
  rises. That holds only when management, maintenance and vacancy percentages
  sum to at most 100. The widgets allow up to 140, and above 100 more rent
  gives less NOI. `MarketRentMonotone` states all three cases: a rise below
  100, no change at exactly 100, and a fall above 100.

## Model

| member | source | states |
|---|---|---|
| `Calculator.ValidInputs` | re-calculator.py:40-58 | Holds when each of the thirteen inputs is within its widget's minimum and maximum: money amounts at least 0, down payment 0–100 %, term 5–30 years, rate 0–15 %, management and maintenance 0–20 %, vacancy 0–100 %. |
| `Calculator.DownPayment` | re-calculator.py:61 | Computes `purchase_price * (down_payment_percentage / 100)`. |
| `Calculator.LoanAmount` | re-calculator.py:62 | Computes `arv - down_payment`, with no clamping. |
| `Calculator.MonthlyInterestRate` | re-calculator.py:63 | Computes `interest_rate / 100 / 12`. |
| `Calculator.NumberOfPayments` | re-calculator.py:64 | Computes `loan_term_years * 12`. |
| `Power.Pow` | re-calculator.py:65 | Computes `x ** n` for a natural exponent as the product of `n` copies of `x`. |
| `Calculator.PaymentDenominator` | re-calculator.py:65 | Computes the annuity divisor `(1 + r)^n - 1`. |
| `Calculator.MonthlyPayment` | re-calculator.py:65 | Computes `loan_amount * r * (1 + r)^n / ((1 + r)^n - 1)`. It is defined only where that divisor is non-zero. |
| `Calculator.TotalCashInvested` | re-calculator.py:90 | Computes `down_payment + rehab_costs + property_tax + insurance`. |
| `Calculator.ScenarioOf` | re-calculator.py:68-95 | Computes one scenario, once for the current rent and once for the market rent. Income is rent × 12. The three percentage costs are taken of that income. Expenses add tax and insurance. NOI is income less expenses. Cash flow is NOI less 12 payments. Cash-on-cash is `(cash_flow / total_cash_invested) * 100` and cap rate is `(noi / purchase_price) * 100`. |
| `Calculator.NoCashInvested` | re-calculator.py:90-92 | Holds when nothing is paid down (price or percentage 0) and rehab, tax and insurance are all 0. `CashInvestedZeroIff` proves this is exactly when the divisor of lines 91–92 is zero. |
| `Calculator.DivisorsNonZero` | re-calculator.py:65-95 | Holds when the rate is non-zero, some cash is invested and the price is non-zero. `Evaluate` proves this is exactly when none of the divisions of lines 65, 91–92 and 94–95 fails. |
| `Calculator.Evaluate` | re-calculator.py:61-95 | The outcome is `Ok` exactly when the interest rate is non-zero, some cash is invested and the purchase price is non-zero. Otherwise it names the first zero divisor in source order: the annuity denominator exactly when the rate is 0; then total cash invested exactly when nothing is down and rehab, tax and insurance are 0; then the purchase price. |
| `Calculator.CashInvestedZeroIff` | re-calculator.py:90-92 | Total cash invested (down payment + rehab + tax + insurance) is never negative on the input domain. It is zero exactly when the price or the down-payment percentage is 0 and rehab, tax and insurance are all 0. |
| `Power.PowMinusOneZeroIff` | re-calculator.py:63-65 | For a non-negative monthly rate `r` and `n >= 1` payments, the annuity denominator `(1+r)^n - 1` is zero exactly when `r` is zero. |
| `Properties.DownPaymentBounds` | re-calculator.py:61 | For a non-negative price and a percentage from 0 to 100, the down payment is between 0 and the price. It equals the price exactly when the price is 0 or the percentage is 100. |
| `Properties.Financing` | re-calculator.py:61-64 | In a successful evaluation the down payment is `price * pct / 100`, and the loan is ARV minus the down payment with no clamping. The loan is negative exactly when the down payment exceeds ARV. There are 60 to 360 payments, the monthly rate is in (0, 0.0125], and cash invested is positive. |
| `Properties.ScenarioClosedForm` | re-calculator.py:68-95 | A scenario's income is 12 × monthly rent. Expenses are income × (mgmt + maint + vacancy)/100 + tax + insurance. NOI is `12·rent·(1 − rates/100) − (tax + insurance)`. Cash flow is NOI less 12 payments. The two ratios are 100 × cash flow / cash invested and 100 × NOI / price. |
| `Properties.ZeroRent` | re-calculator.py:68-84 | At zero rent: income is 0, expenses are tax + insurance, NOI is −(tax + insurance), and cash flow is that less 12 payments. |
| `Properties.ScenarioDifference` | re-calculator.py:72-87 | Market NOI minus current NOI is `12·(market − current rent)·(1 − rates/100)`. The cash flows differ by exactly the NOI difference, whatever the loan terms. The expenses differ by the rent difference times the rates. |
| `Properties.RentDifference` | re-calculator.py:72-92 | For two rents under the same costs, the higher rent gives strictly higher NOI, cash flow and cash-on-cash return exactly when the rates sum below 100. Each of the three is unchanged exactly when the rates sum to 100. The cash-flow difference equals the NOI difference. |
| `Properties.MarketRentMonotone` | re-calculator.py:69-92 | Raising the market rent with everything else fixed keeps the evaluation successful. Market NOI, cash flow and cash-on-cash return each rise exactly when the three rates sum below 100, and are unchanged exactly when they sum to 100. So they fall when the rates sum above 100. |
| `Properties.MarketRentOnlyMovesMarket` | re-calculator.py:61-95 | Changing the market rent leaves the payment, total cash invested and the whole current scenario unchanged. The new market scenario is the scenario at the new rent. |
| `Properties.ScenarioIgnoresRents` | re-calculator.py:68-95 | A scenario does not depend on the market-rent input beyond the rent it is given. |
| `Properties.RatioSigns` | re-calculator.py:90-95 | In a successful evaluation, each cash-on-cash return is positive exactly when its cash flow is. Each cap rate is positive exactly when its NOI is. |
| `Properties.PaymentFactor` | re-calculator.py:65 | For `r > 0` and `n >= 1` the denominator is positive. The payment is the loan times a factor larger than `r`. |
| `Properties.PaymentLinear` | re-calculator.py:65 | For `r > 0` and `n >= 1` the payment is additive and homogeneous in the loan amount. |
| `Properties.PaymentSign` | re-calculator.py:65 | For `r > 0` and `n >= 1` the payment is positive, zero or negative exactly as the loan is. A positive loan's payment exceeds the interest-only amount `loan · r`. |
| `Properties.PaymentUpperBound` | re-calculator.py:63-65 | For a non-negative loan, `r > 0` and `n >= 1`, the payment is at most the interest-only amount plus a straight-line share of the principal: `loan · r + loan / n`. |
| `Properties.TotalRepaidCoversLoan` | re-calculator.py:63-65 | For a non-negative loan, `r > 0` and `n >= 1`, the `n` payments add up to at least the loan. |
| `Properties.BalanceClosedForm` | re-calculator.py:63-65 | The month-by-month balance after `k` months (accrue interest, subtract the payment) satisfies `r·B_k = r·L·(1+r)^k − p·((1+r)^k − 1)`. |
| `Properties.PaymentAmortizesLoan` | re-calculator.py:63-65 | For `r > 0` and `n >= 1`, paying the annuity-formula payment each month leaves a balance of exactly 0 after `n` months. |
| `Properties.EvaluatedPaymentAmortizes` | re-calculator.py:61-65 | The payment of a successful evaluation pays its own loan off over its term. It is positive exactly when the loan is. |
| `Properties.DefaultInputs` | re-calculator.py:40-58 | The widgets' default figures lie in the input domain. |
| `Properties.DefaultDeal` | re-calculator.py:40-95 | For the default figures the evaluation succeeds with exact values: down payment 30000, loan 220000, 360 payments, cash invested 64500, current income 24000, expenses 9300, NOI 14700, cap rate 9.8 %, market income 30000, expenses 10500, NOI 19500, cap rate 13 %. Market cash flow exceeds current by 4800, and the payment exceeds 916.67 (interest only). |

## Left out

- The Streamlit user interface: the CSS block, title, headers, the
  number-input widgets and the `st.write` output. The widgets' minimum and
  maximum bounds are kept as `ValidInputs`, the precondition of `Evaluate`.
- Display formatting: thousands separators and two-decimal rounding of
  currencies and percentages.
- IEEE-754 floating point. All arithmetic is over exact reals, so the model
  does not capture rounding. In particular, a tiny positive rate for which
  `1 + r` rounds to `1.0` would divide by zero in Python but not in the model.
  Float-tolerance figures of the default deal (a payment of about 1180.99, cash
  flows, cash-on-cash returns) are not stated. The exact payment is a rational
  of degree 360 in the rate.
- Integer widget values: purchase price, rehab costs, ARV, rents, tax and
  insurance are integers in the source. The model takes any non-negative real.
  Every lemma therefore also holds for the integer inputs.
- Determinism: `Evaluate` is a Dafny function, so the same inputs always give the
  same outcome, and no lemma is needed.
- The unused `import math` and the `if __name__ == "__main__"` entry point.
