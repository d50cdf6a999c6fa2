# Loan ledger accounting engine

A Dafny model of the accounting core of a small loan-servicing backend (an
Express application over SQLite). Customers borrow at simple interest; LEND
originates a loan with its total payable and a monthly EMI (equated monthly
installment) rounded to two decimals; PAYMENT records a payment after checking
that the loan exists, is not yet settled and would not be overpaid, and moves
the loan to PAID_OFF when its balance reaches 0; LEDGER and the per-customer
ACCOUNT OVERVIEW recompute amount paid, balance and EMIs left from the
payments table on every read.

Modules:

- `Outcomes` — `Option`, `Result` and the handlers' error kinds, and the
  JavaScript falsiness tests (`!x`) the request guards apply.
- `Money` — `+x.toFixed(2)` (`Round2`) and `Math.ceil` (`Ceil`) on exact reals.
- `Loans` — the `loans` and `payments` rows, origination, the SQL sum and the
  JavaScript fold over payments, balance, EMIs left, the payment checks, the
  invariants a recorded payment preserves, and the ledger.
- `Customers` — the customer-name check and the account overview.
- `Bank` — class `Store` holding the three tables, with the handlers that
  write to them (`CreateCustomer`, `Lend`, `Pay`) as methods that update its
  fields, and the store invariant `Valid` that every handler preserves: every
  loan has a customer, every payment a loan, payment ids are distinct, the
  amount paid on a loan never exceeds its total when that total is positive
  and is at most 0 when it is not, and a PAID_OFF loan owes nothing.

The model follows what the code does, including where it is looser than the
intended rules for a loan (a positive principal, period and rate, a positive
payment amount, and a payment type of `EMI` or `LUMP_SUM`):

- The guards test falsiness only. A negative principal, period, rate or
  payment amount is accepted (0 and a missing field are refused).
  `Loans.NegativeAmountIsAccepted` states the payment case.
- `payment_type` is any non-empty string, not only `EMI` or `LUMP_SUM`.
- A payment is refused as already paid off when the recomputed balance is 0,
  not by looking at the status. Every PAID_OFF loan has balance 0, so a
  PAID_OFF loan refuses every payment (`Loans.PaidOffIsTerminal`). The
  converse does not hold: an ACTIVE loan whose total is 0 or negative (a
  negative rate or principal makes one) also has balance 0 and refuses every
  payment as already paid off, while staying ACTIVE.
- With a monthly EMI of 0 (possible for tiny loans, whose EMI rounds to 0.00)
  and a positive balance, `Math.ceil(balance / 0)` is Infinity, sent as JSON
  `null`; `EmisLeft` returns `None` there.
- The overview computes EMIs left on the unclamped difference `total − paid`
  with a `<= 0` test, the ledger and payment handlers on the clamped balance
  with `=== 0`; `Customers.OverviewEmisLeft` proves both give the same answer.

Money is modelled as exact `real`, rounding half away from zero to cents as
`toFixed(2)` does on exact decimals. Ids are strings; the UUIDs the handlers
generate are passed in as fresh-id parameters.

## Model

| member | source | states |
|---|---|---|
| Money.Cents | backend/routes/loans.js:27 | the signed cent count is the nearest one to 100·x, with an exact half going to the larger magnitude (k − ½ ≤ 100x < k + ½ for x ≥ 0, k − ½ < 100x ≤ k + ½ for x < 0); positive exactly when x ≥ 0.005, negative exactly when x ≤ −0.005 |
| Money.Round2 | backend/routes/loans.js:27 | the rounded value is that cent count over 100: within half a cent of x, a whole number of cents, positive (negative) exactly when x is at least 0.005 (at most −0.005) |
| Money.HalvesRoundAwayFromZero | backend/routes/loans.js:27 | exact half cents round away from zero (0.015 to 0.02, −0.015 to −0.02, 0.025 to 0.03), not to the even cent |
| Money.Ceil | backend/routes/loans.js:82 | `Math.ceil` is the least integer not below its argument |
| Money.CeilCovers | backend/routes/loans.js:82 | for positive b and e, Ceil(b / e) ≥ 1 installments of e cover b and one fewer do not |
| Loans.Interest | backend/routes/loans.js:25 | simple interest is 0 when principal, period or rate is 0, and positive when all three are positive |
| Loans.Originate | backend/routes/loans.js:22-31 | the inserted loan is ACTIVE, keeps customer, principal, rate and period, has total − principal = P·N·R/100, and its EMI is Round2(total/(12·N)): within half a cent of it, in whole cents, positive exactly when total/(12·N) ≥ 0.005 |
| Loans.EmiScheduleRepaysTotal | backend/routes/loans.js:25-27 | over a positive period, 12·N rounded EMIs repay the total to within half a cent per installment |
| Loans.InterestIsLinearInTime | backend/routes/loans.js:25-26 | interest is simple: the interest over N1 + N2 years is the sum of the interests over N1 and over N2 years |
| Outcomes.GivenNumber | backend/routes/loans.js:11 | a numeric field passes the `!x` guard only when present; absent and 0 fail it |
| Outcomes.GivenText | backend/routes/customers.js:9 | a text field passes the `!x` guard only when present; absent and "" fail it |
| Loans.AmountPaid | backend/routes/loans.js:59-60 | `SUM(amount)` with `|| 0` is 0 for a loan without payments and not negative when its amounts are not negative |
| Loans.AmountPaidAppend | backend/routes/loans.js:73-79 | inserting a payment raises its own loan's sum by its amount and leaves every other loan's sum unchanged |
| Loans.PaymentsOf | backend/routes/loans.js:113 | the payments selected for a loan are exactly the table's payments of that loan |
| Loans.PaymentsOfAppend | backend/routes/loans.js:113 | a new payment appears last in its own loan's list and in no other |
| Loans.SumAmounts | backend/routes/loans.js:114 | the `reduce` over fetched payments is 0 when every amount is 0 and not negative when no amount is negative |
| Loans.SumAmountsConcat | backend/routes/loans.js:114 | the JavaScript fold over a concatenation is the sum of the folds |
| Loans.FoldEqualsSqlSum | backend/routes/loans.js:114 | the ledger's fold over a loan's fetched payments equals the SQL sum the payment handler uses |
| Loans.Balance | backend/routes/loans.js:61-62 | the clamped balance is never negative, is 0 exactly when paid ≥ total, and otherwise paid + balance = total |
| Loans.Outstanding | backend/routes/loans.js:59-62 | a loan's balance before a payment is never negative, is 0 exactly when the SQL sum of its payments reaches its total, and otherwise sum + balance = total |
| Loans.EmisLeft | backend/routes/loans.js:82-84 | EMIs left is 0 for a zero balance, missing (Infinity) for a non-zero balance with a zero EMI, and at least 1 for a positive balance and EMI |
| Loans.EmisLeftCoversBalance | backend/routes/loans.js:82 | for a positive balance and EMI, EMIs left installments cover the balance and one fewer do not |
| Loans.ScreenPayment | backend/routes/loans.js:48-69 | a payment passes exactly when amount and type are given, the loan exists, its balance is positive and the amount does not exceed it; then it yields that balance and paid + amount ≤ total; otherwise the error is the first failing check's, in the handler's order |
| Loans.ExactBalanceIsAccepted | backend/routes/loans.js:67 | a payment of exactly the outstanding balance is accepted |
| Loans.NegativeAmountIsAccepted | backend/routes/loans.js:48-69 | every negative amount, with every non-empty payment type, passes the falsiness guard and is accepted against a loan with a positive balance |
| Loans.ScreenedPaymentKeepsNoOverpayment | backend/routes/loans.js:63-76 | recording a payment that passed the checks keeps every loan's sum at most its total, or at most 0 when that total is not positive |
| Loans.RecordingKeepsInvariants | backend/routes/loans.js:70-86 | after recording an accepted payment the balance is the old balance less the amount, and with the loan set PAID_OFF exactly when that is 0, every loan's sum stays at most max(total, 0) and every PAID_OFF loan owes nothing |
| Loans.PaidOffIsTerminal | backend/routes/loans.js:64-66 | while PAID_OFF loans owe nothing, every further payment with given fields to a PAID_OFF loan is refused as already paid off |
| Loans.Transactions | backend/routes/loans.js:120-125 | one transaction per payment, in the same order, with its id, amount and type |
| Loans.TransactionsAppend | backend/routes/loans.js:120-125 | appending a payment appends its transaction |
| Loans.Ledger | backend/routes/loans.js:100-136 | not found exactly for an unknown loan; otherwise the loan's figures, the amount paid as the SQL sum, the clamped balance, EMIs left on that balance, and the loan's payments as transactions in recorded order |
| Loans.LedgerGainsOneTransaction | backend/routes/loans.js:113-125 | after a payment is recorded, its loan's ledger lists exactly one more transaction, at the end |
| Customers.CheckName | backend/routes/customers.js:9-11 | a name is accepted exactly when it is present and non-empty, unchanged; otherwise the error is invalid parameters |
| Customers.OverviewEmisLeft | backend/routes/customers.js:54-55 | the overview's EMIs left on the unclamped difference equals the ledger's rule on the clamped balance |
| Customers.LoansOf | backend/routes/customers.js:45 | the loans selected for a customer are exactly the stored loans whose customer is that customer |
| Customers.StatsOf | backend/routes/customers.js:51-63 | an overview entry's principal, total and EMI are the loan's, its total interest is total − principal, its amount paid is the SQL sum, and its EMIs left the ledger's |
| Customers.Overview | backend/routes/customers.js:35-70 | unknown customer and customer without loans are the two errors; otherwise exactly the customer's loans are listed, their count is total_loans, and each entry is that loan's statistics |
| Customers.OverviewAgreesWithLedger | backend/routes/customers.js:50-64 | every loan of a known customer is listed in the overview, its ledger exists, and both report the same total, EMI, amount paid and EMIs left |
| Customers.OverviewInterestIsOriginationInterest | backend/routes/customers.js:53 | an originated loan's total interest in the overview is P·N·R/100 |
| Bank.FreshIdKeepsDistinct | backend/routes/loans.js:72-76 | a payment inserted under a fresh id keeps payment ids distinct |
| Bank.PaymentKeepsConsistent | backend/routes/loans.js:45-86 | an accepted payment under a fresh id keeps the whole store consistent, with the new balance the old one less the amount |
| Bank.Store.CreateCustomer | backend/routes/customers.js:7-17 | a customer is inserted under the fresh id exactly when the name is given; loans and payments are untouched and the store stays valid |
| Bank.Store.Lend | backend/routes/loans.js:9-38 | a missing or falsy field is refused, then an unknown customer; otherwise the originated loan is inserted under the fresh id and its total and EMI are returned; customers and payments are untouched, and no loan is removed or reopened |
| Bank.Store.Pay | backend/routes/loans.js:45-93 | a refused payment changes nothing and reports the check's error; an accepted one appends exactly one payment, returns the old balance less the amount and EMIs left on it, and sets the loan PAID_OFF exactly when that balance is 0; a payment to a PAID_OFF loan is always refused; the store stays valid |
| Bank.OriginationExample | backend/routes/loans.js:9-38 | the new store it returns is valid and holds exactly customer c-1 and the loan of 120000 over 2 years at 10% with total 144000, EMI 6000, ACTIVE, and no payments; the refusals of an empty name and of an unknown customer are asserted on the way |
| Bank.PartPaymentExample | backend/routes/loans.js:45-93 | on that loan, paying 50000 and then attempting 200000 leaves exactly the 50000 payment stored and the loan unchanged and ACTIVE; the receipt (94000 left, 16 EMIs) and the overpayment refusal are asserted on the way |
| Bank.PayOffExample | backend/routes/loans.js:45-140 | paying 94000 and then attempting 1 leaves both payments stored and the loan PAID_OFF; the receipt (0 left, 0 EMIs), the already-paid-off refusal and the ledger's balance of 0 are asserted on the way |
| Bank.OverviewExample | backend/routes/customers.js:35-70 | the overview of a customer holding one 120000, 2-year, 10% loan lists that loan alone with a total interest of 24000 |

## Left out

- HTTP: routes, status codes, message texts and JSON shapes; the handlers' outcomes are `Result` values.
- UUID generation: ids are parameters, with a requirement that they are not already in use.
- Timestamps (`created_at`, `payment_date`): payments are kept in a sequence in the order they were recorded, which is their date order; the ledger's `date` field is not modelled.
- Concurrency: each handler runs as one atomic step. The code does not serialize the balance check and the insert, so two concurrent payments to one loan could together overpay it; the model does not capture that race.
- IEEE-754 arithmetic: money is exact; binary rounding errors, exponent forms of `toFixed`, NaN from non-numeric strings and numeric strings such as `"0"` in request bodies are not modelled.
- The 500 error paths (database failures) are not modelled.
- GET /customers (backend/routes/customers.js:24-31) is a plain listing and is not modelled.
- The overview's order of entries: the query has no ORDER BY, so its loans are a map keyed by loan id.
- backend/db.js (schema set-up), backend/server.js and the React front end are not part of this model.
- Loans.EmiScheduleRepaysTotal: stated only for a positive period; the code also accepts a negative one.
