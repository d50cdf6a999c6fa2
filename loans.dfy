/**
 * The accounting rules of the loans router (backend/routes/loans.js): the
 * records behind the `loans` and `payments` tables, loan origination, the
 * balance and EMI arithmetic, the checks made before a payment is recorded,
 * and the per-loan ledger.
 */
module Loans {
  import opened Outcomes
  import opened Money

  /** Identifiers are the UUID strings the handlers generate. */
  type Id = string

  /** A loan is ACTIVE until a payment brings its balance to 0; then it is PAID_OFF. */
  datatype Status = Active | PaidOff

  /** A row of the `loans` table. */
  datatype Loan = Loan(
    customerId: Id,
    principal: real,
    totalAmount: real,
    interestRate: real,
    periodYears: real,
    monthlyEmi: real,
    status: Status)

  /** A row of the `payments` table; the table's order is the order of `payment_date`. */
  datatype Payment = Payment(id: Id, loanId: Id, amount: real, paymentType: string)

  // ---------------------------------------------------------------------------
  // Origination (LEND)

  /** The simple interest I = P * N * (R / 100) on principal P over N years at R percent a year. */
  function Interest(p: real, n: real, rate: real): (i: real)
    ensures p == 0.0 || n == 0.0 || rate == 0.0 ==> i == 0.0
    ensures p > 0.0 && n > 0.0 && rate > 0.0 ==> i > 0.0
  {
    p * n * (rate / 100.0)
  }

  /**
   * The loan row LEND inserts: total A = P + I, monthly EMI A / (N * 12)
   * rounded to two decimals, status ACTIVE. N is non-zero because the
   * handler rejects a falsy period before computing.
   */
  function Originate(customerId: Id, p: real, n: real, rate: real): (loan: Loan)
    requires n != 0.0
    ensures loan.customerId == customerId && loan.status == Active
    ensures loan.principal == p && loan.interestRate == rate && loan.periodYears == n
    ensures loan.totalAmount - loan.principal == p * n * rate / 100.0
    ensures loan.monthlyEmi == Round2(loan.totalAmount / (n * 12.0))
    ensures -HalfCent <= loan.monthlyEmi - loan.totalAmount / (n * 12.0) <= HalfCent
    ensures (loan.monthlyEmi * 100.0).Floor as real == loan.monthlyEmi * 100.0
    ensures loan.monthlyEmi > 0.0 <==> loan.totalAmount / (n * 12.0) >= HalfCent
  {
    var total := p + Interest(p, n, rate);
    Loan(customerId, p, total, rate, n, Round2(total / (n * 12.0)), Active)
  }

  /**
   * Over a positive period of N years, 12 * N installments of the rounded
   * EMI repay the total to within half a cent per installment.
   */
  lemma EmiScheduleRepaysTotal(customerId: Id, p: real, n: real, rate: real)
    requires n > 0.0
    ensures var loan := Originate(customerId, p, n, rate);
      -HalfCent * (n * 12.0) <= loan.monthlyEmi * (n * 12.0) - loan.totalAmount <= HalfCent * (n * 12.0)
  {
    var loan := Originate(customerId, p, n, rate);
    var months := n * 12.0;
    var share := loan.totalAmount / months;
    var err := loan.monthlyEmi - share;
    assert share * months == loan.totalAmount;
    assert loan.monthlyEmi * months - loan.totalAmount == err * months;
    ScaleKeepsSign(HalfCent - err, months);
    ScaleKeepsSign(err + HalfCent, months);
  }

  /** Interest is simple, not compounded: the interest for N1 + N2 years is that for N1 years plus that for N2 years. */
  lemma InterestIsLinearInTime(customerId: Id, p: real, n1: real, n2: real, rate: real)
    requires n1 != 0.0 && n2 != 0.0 && n1 + n2 != 0.0
    ensures var whole := Originate(customerId, p, n1 + n2, rate);
      whole.totalAmount - p
        == (Originate(customerId, p, n1, rate).totalAmount - p) + (Originate(customerId, p, n2, rate).totalAmount - p)
  {
    assert p * (n1 + n2) * rate == p * n1 * rate + p * n2 * rate;
  }

  // ---------------------------------------------------------------------------
  // Sums over the payments table

  /**
   * `SELECT SUM(amount) FROM payments WHERE loan_id = ?` followed by `|| 0`:
   * the total of the amounts of one loan's payments, 0 when it has none.
   */
  function AmountPaid(ps: seq<Payment>, loanId: Id): (paid: real)
    ensures (forall i :: 0 <= i < |ps| ==> ps[i].loanId != loanId) ==> paid == 0.0
    ensures (forall i :: 0 <= i < |ps| && ps[i].loanId == loanId ==> ps[i].amount >= 0.0) ==> paid >= 0.0
  {
    if ps == [] then 0.0
    else (if ps[0].loanId == loanId then ps[0].amount else 0.0) + AmountPaid(ps[1..], loanId)
  }

  /** Appending a payment adds its amount to its own loan's sum and leaves every other loan's sum alone. */
  lemma {:induction false} AmountPaidAppend(ps: seq<Payment>, p: Payment, loanId: Id)
    ensures AmountPaid(ps + [p], loanId) == AmountPaid(ps, loanId) + (if p.loanId == loanId then p.amount else 0.0)
  {
    if ps == [] {
      assert ps + [p] == [p];
    } else {
      assert (ps + [p])[1..] == ps[1..] + [p];
      AmountPaidAppend(ps[1..], p, loanId);
    }
  }

  /**
   * `SELECT * FROM payments WHERE loan_id = ? ORDER BY payment_date ASC`:
   * the payments of one loan, in the order they were recorded.
   */
  function PaymentsOf(ps: seq<Payment>, loanId: Id): (mine: seq<Payment>)
    ensures |mine| <= |ps|
    ensures forall p :: p in mine <==> p in ps && p.loanId == loanId
  {
    if ps == [] then []
    else (if ps[0].loanId == loanId then [ps[0]] else []) + PaymentsOf(ps[1..], loanId)
  }

  /** A newly recorded payment shows up last in its own loan's list and in no other. */
  lemma {:induction false} PaymentsOfAppend(ps: seq<Payment>, p: Payment, loanId: Id)
    ensures PaymentsOf(ps + [p], loanId) == PaymentsOf(ps, loanId) + (if p.loanId == loanId then [p] else [])
  {
    if ps == [] {
      assert ps + [p] == [p];
    } else {
      var head := if ps[0].loanId == loanId then [ps[0]] else [];
      var last := if p.loanId == loanId then [p] else [];
      assert (ps + [p])[0] == ps[0];
      assert (ps + [p])[1..] == ps[1..] + [p];
      assert PaymentsOf(ps + [p], loanId) == head + PaymentsOf(ps[1..] + [p], loanId);
      PaymentsOfAppend(ps[1..], p, loanId);
      assert head + (PaymentsOf(ps[1..], loanId) + last) == (head + PaymentsOf(ps[1..], loanId)) + last;
    }
  }

  /** `payments.reduce((sum, p) => sum + Number(p.amount), 0)`: a left fold over the fetched rows. */
  function SumAmounts(ps: seq<Payment>): (sum: real)
    ensures (forall i :: 0 <= i < |ps| ==> ps[i].amount == 0.0) ==> sum == 0.0
    ensures (forall i :: 0 <= i < |ps| ==> ps[i].amount >= 0.0) ==> sum >= 0.0
  {
    if ps == [] then 0.0 else SumAmounts(ps[..|ps| - 1]) + ps[|ps| - 1].amount
  }

  /** The fold over a concatenation is the sum of the folds. */
  lemma {:induction false} SumAmountsConcat(a: seq<Payment>, b: seq<Payment>)
    ensures SumAmounts(a + b) == SumAmounts(a) + SumAmounts(b)
  {
    if b == [] {
      assert a + b == a;
    } else {
      var front := b[..|b| - 1];
      assert (a + b)[..|a + b| - 1] == a + front;
      SumAmountsConcat(a, front);
    }
  }

  /**
   * The JavaScript fold over a loan's fetched payments equals the SQL SUM the
   * payment handler uses, so the ledger and the payment checks see the same
   * amount paid.
   */
  lemma {:induction false} FoldEqualsSqlSum(ps: seq<Payment>, loanId: Id)
    ensures SumAmounts(PaymentsOf(ps, loanId)) == AmountPaid(ps, loanId)
  {
    if ps != [] {
      var head: seq<Payment> := if ps[0].loanId == loanId then [ps[0]] else [];
      FoldEqualsSqlSum(ps[1..], loanId);
      SumAmountsConcat(head, PaymentsOf(ps[1..], loanId));
      if head != [] {
        assert SumAmounts(head) == SumAmounts(head[..0]) + ps[0].amount;
      }
    }
  }

  // ---------------------------------------------------------------------------
  // Balance and EMIs left

  /** The balance `max(0, total − paid)`: the handlers replace a negative difference by 0. */
  function Balance(total: real, paid: real): (b: real)
    ensures b >= 0.0
    ensures b == 0.0 <==> paid >= total
    ensures b > 0.0 ==> paid + b == total
  {
    if total - paid < 0.0 then 0.0 else total - paid
  }

  /**
   * `emis_left` as the payment and ledger handlers compute it:
   * `Math.ceil(balance / monthly_emi)`, overwritten by 0 when the balance is 0.
   * None stands for the Infinity (sent as JSON null) that a monthly EMI of 0
   * gives for a positive balance.
   */
  function EmisLeft(balance: real, emi: real): (n: Option<int>)
    ensures balance == 0.0 ==> n == Some(0)
    ensures balance != 0.0 && emi == 0.0 ==> n == None
    ensures balance > 0.0 && emi > 0.0 ==> n.Some? && n.value >= 1
  {
    if balance == 0.0 then Some(0)
    else if emi == 0.0 then None
    else Some(Ceil(balance / emi))
  }

  /**
   * For a positive balance and a positive EMI, EMIs left is exactly the
   * number of installments that cover the balance: one fewer would not.
   */
  lemma EmisLeftCoversBalance(balance: real, emi: real)
    requires balance > 0.0 && emi > 0.0
    ensures var n := EmisLeft(balance, emi).value;
      (n - 1) as real * emi < balance <= n as real * emi
  {
    CeilCovers(balance, emi);
  }

  // ---------------------------------------------------------------------------
  // Payment checks and the no-overpayment invariant

  /** The balance of a loan before any new payment: its total less the SQL sum of its payments, clamped at 0. */
  function Outstanding(loan: Loan, ps: seq<Payment>, loanId: Id): (balance: real)
    ensures balance >= 0.0
    ensures balance == 0.0 <==> AmountPaid(ps, loanId) >= loan.totalAmount
    ensures balance > 0.0 ==> AmountPaid(ps, loanId) + balance == loan.totalAmount
  {
    Balance(loan.totalAmount, AmountPaid(ps, loanId))
  }

  /**
   * The checks PAYMENT makes, in its order, before it inserts anything:
   * falsy amount or payment type, unknown loan, balance already 0, amount
   * above the balance. On success it yields the balance before the payment.
   * Only falsiness is checked, so a negative amount passes.
   */
  function ScreenPayment(loans: map<Id, Loan>, ps: seq<Payment>, loanId: Id,
                         amount: Option<real>, paymentType: Option<string>): (r: Result<real>)
    ensures r.Ok? <==>
      && GivenNumber(amount) && GivenText(paymentType) && loanId in loans
      && 0.0 < Outstanding(loans[loanId], ps, loanId) && amount.value <= Outstanding(loans[loanId], ps, loanId)
    ensures r.Ok? ==> r.value == Outstanding(loans[loanId], ps, loanId)
    ensures r.Ok? ==> AmountPaid(ps, loanId) + amount.value <= loans[loanId].totalAmount
    ensures !GivenNumber(amount) || !GivenText(paymentType) ==> r == Err(InvalidParameters)
    ensures GivenNumber(amount) && GivenText(paymentType) && loanId !in loans ==> r == Err(LoanNotFound)
    ensures GivenNumber(amount) && GivenText(paymentType) && loanId in loans ==>
      var balance := Outstanding(loans[loanId], ps, loanId);
      && (balance == 0.0 ==> r == Err(AlreadyPaidOff))
      && (0.0 < balance < amount.value ==> r == Err(OverpaymentRejected))
  {
    if !GivenNumber(amount) || !GivenText(paymentType) then Err(InvalidParameters)
    else if loanId !in loans then Err(LoanNotFound)
    else
      var balance := Outstanding(loans[loanId], ps, loanId);
      if balance == 0.0 then Err(AlreadyPaidOff)
      else if amount.value > balance then Err(OverpaymentRejected)
      else Ok(balance)
  }

  /** A payment of exactly the outstanding balance is always accepted. */
  lemma ExactBalanceIsAccepted(loans: map<Id, Loan>, ps: seq<Payment>, loanId: Id, paymentType: string)
    requires loanId in loans && paymentType != ""
    requires Outstanding(loans[loanId], ps, loanId) > 0.0
    ensures var b := Outstanding(loans[loanId], ps, loanId);
      ScreenPayment(loans, ps, loanId, Some(b), Some(paymentType)) == Ok(b)
  {
  }

  /**
   * The guard checks falsiness, not sign: any negative amount, with any
   * non-empty payment type, against a loan with a balance is accepted.
   */
  lemma NegativeAmountIsAccepted(loans: map<Id, Loan>, ps: seq<Payment>, loanId: Id,
                                 amount: real, paymentType: string)
    requires loanId in loans && Outstanding(loans[loanId], ps, loanId) > 0.0
    requires amount < 0.0 && paymentType != ""
    ensures ScreenPayment(loans, ps, loanId, Some(amount), Some(paymentType))
      == Ok(Outstanding(loans[loanId], ps, loanId))
  {
  }

  /** No loan has been paid more than its total (a loan whose total is not positive has been paid nothing). */
  ghost predicate NoOverpayment(loans: map<Id, Loan>, ps: seq<Payment>) {
    forall id {:trigger AmountPaid(ps, id)} :: id in loans ==>
      AmountPaid(ps, id) <= (if loans[id].totalAmount > 0.0 then loans[id].totalAmount else 0.0)
  }

  /** A PAID_OFF loan has nothing left to pay. */
  ghost predicate PaidOffSettled(loans: map<Id, Loan>, ps: seq<Payment>) {
    forall id {:trigger Outstanding(loans[id], ps, id)} :: id in loans && loans[id].status == PaidOff ==> Outstanding(loans[id], ps, id) == 0.0
  }

  /** Recording a payment that passed the checks keeps every loan within its total. */
  lemma {:induction false} ScreenedPaymentKeepsNoOverpayment(
    loans: map<Id, Loan>, ps: seq<Payment>, loanId: Id,
    amount: Option<real>, paymentType: Option<string>, paymentId: Id)
    requires NoOverpayment(loans, ps)
    requires ScreenPayment(loans, ps, loanId, amount, paymentType).Ok?
    ensures NoOverpayment(loans, ps + [Payment(paymentId, loanId, amount.value, paymentType.value)])
  {
    var p := Payment(paymentId, loanId, amount.value, paymentType.value);
    forall id | id in loans
      ensures AmountPaid(ps + [p], id) <= (if loans[id].totalAmount > 0.0 then loans[id].totalAmount else 0.0)
    {
      AmountPaidAppend(ps, p, id);
    }
  }

  /**
   * Recording a payment that passed the checks lowers its loan's balance by
   * the amount, and, with the loan moved to PAID_OFF exactly when that
   * balance reaches 0, keeps both invariants.
   */
  lemma {:induction false} RecordingKeepsInvariants(
    loans: map<Id, Loan>, ps: seq<Payment>, loanId: Id,
    amount: Option<real>, paymentType: Option<string>, paymentId: Id)
    requires NoOverpayment(loans, ps) && PaidOffSettled(loans, ps)
    requires ScreenPayment(loans, ps, loanId, amount, paymentType).Ok?
    ensures var p := Payment(paymentId, loanId, amount.value, paymentType.value);
      var left := ScreenPayment(loans, ps, loanId, amount, paymentType).value - amount.value;
      var after := if left == 0.0 then loans[loanId := loans[loanId].(status := PaidOff)] else loans;
      && Outstanding(loans[loanId], ps + [p], loanId) == left
      && NoOverpayment(after, ps + [p])
      && PaidOffSettled(after, ps + [p])
  {
    var p := Payment(paymentId, loanId, amount.value, paymentType.value);
    var left := ScreenPayment(loans, ps, loanId, amount, paymentType).value - amount.value;
    var after := if left == 0.0 then loans[loanId := loans[loanId].(status := PaidOff)] else loans;
    forall id | id in loans
      ensures AmountPaid(ps + [p], id) == AmountPaid(ps, id) + (if id == loanId then amount.value else 0.0)
    {
      AmountPaidAppend(ps, p, id);
    }
    assert Outstanding(loans[loanId], ps + [p], loanId) == left;
    ScreenedPaymentKeepsNoOverpayment(loans, ps, loanId, amount, paymentType, paymentId);
    forall id | id in after
      ensures AmountPaid(ps + [p], id) <= (if after[id].totalAmount > 0.0 then after[id].totalAmount else 0.0)
    {
      assert after[id].totalAmount == loans[id].totalAmount;
    }
    forall id | id in after && after[id].status == PaidOff
      ensures Outstanding(after[id], ps + [p], id) == 0.0
    {
      assert after[id].totalAmount == loans[id].totalAmount;
      if id != loanId {
        assert loans[id].status == PaidOff;
        assert Outstanding(loans[id], ps, id) == 0.0;
      }
    }
  }

  /** Once PAID_OFF, a loan rejects every further payment whose fields are given. */
  lemma PaidOffIsTerminal(loans: map<Id, Loan>, ps: seq<Payment>, loanId: Id,
                          amount: Option<real>, paymentType: Option<string>)
    requires PaidOffSettled(loans, ps)
    requires loanId in loans && loans[loanId].status == PaidOff
    requires GivenNumber(amount) && GivenText(paymentType)
    ensures ScreenPayment(loans, ps, loanId, amount, paymentType) == Err(AlreadyPaidOff)
  {
  }

  // ---------------------------------------------------------------------------
  // LEDGER

  /** One entry of the ledger's `transactions` list. */
  datatype Transaction = Transaction(transactionId: Id, amount: real, kind: string)

  /** `payments.map(p => ({ transaction_id, date, amount, type }))`: one transaction per payment, same order. */
  function Transactions(ps: seq<Payment>): (txs: seq<Transaction>)
    ensures |txs| == |ps|
    ensures forall i :: 0 <= i < |ps| ==>
      txs[i].transactionId == ps[i].id && txs[i].amount == ps[i].amount && txs[i].kind == ps[i].paymentType
  {
    seq(|ps|, i requires 0 <= i < |ps| => Transaction(ps[i].id, ps[i].amount, ps[i].paymentType))
  }

  /** The ledger view of one loan. */
  datatype LedgerView = LedgerView(
    loanId: Id,
    customerId: Id,
    principal: real,
    totalAmount: real,
    monthlyEmi: real,
    amountPaid: real,
    balanceAmount: real,
    emisLeft: Option<int>,
    transactions: seq<Transaction>)

  /**
   * LEDGER: the loan's figures, the amount paid as a fold over its payments,
   * the clamped balance, EMIs left, and its payments in date order.
   */
  function Ledger(loans: map<Id, Loan>, ps: seq<Payment>, loanId: Id): (r: Result<LedgerView>)
    ensures r.Err? <==> loanId !in loans
    ensures r.Err? ==> r.error == LoanNotFound
    ensures r.Ok? ==>
      var loan := loans[loanId];
      && r.value.loanId == loanId && r.value.customerId == loan.customerId
      && r.value.principal == loan.principal && r.value.totalAmount == loan.totalAmount
      && r.value.monthlyEmi == loan.monthlyEmi
      && r.value.amountPaid == AmountPaid(ps, loanId)
      && r.value.balanceAmount == Outstanding(loan, ps, loanId)
      && r.value.emisLeft == EmisLeft(Outstanding(loan, ps, loanId), loan.monthlyEmi)
      && r.value.transactions == Transactions(PaymentsOf(ps, loanId))
  {
    if loanId !in loans then Err(LoanNotFound)
    else
      var loan := loans[loanId];
      var mine := PaymentsOf(ps, loanId);
      var paid := SumAmounts(mine);
      FoldEqualsSqlSum(ps, loanId);
      var balance := Balance(loan.totalAmount, paid);
      Ok(LedgerView(loanId, loan.customerId, loan.principal, loan.totalAmount, loan.monthlyEmi,
                    paid, balance, EmisLeft(balance, loan.monthlyEmi), Transactions(mine)))
  }

  /** After a payment is recorded, the ledger of its loan lists exactly one more transaction, at the end. */
  lemma LedgerGainsOneTransaction(loans: map<Id, Loan>, ps: seq<Payment>, p: Payment)
    requires p.loanId in loans
    ensures Ledger(loans, ps + [p], p.loanId).value.transactions
      == Ledger(loans, ps, p.loanId).value.transactions + [Transaction(p.id, p.amount, p.paymentType)]
  {
    PaymentsOfAppend(ps, p, p.loanId);
    var before := PaymentsOf(ps, p.loanId);
    assert Ledger(loans, ps + [p], p.loanId).value.transactions == Transactions(before + [p]);
    assert Ledger(loans, ps, p.loanId).value.transactions == Transactions(before);
    TransactionsAppend(before, p);
  }

  /** Appending a payment appends its transaction. */
  lemma TransactionsAppend(ps: seq<Payment>, p: Payment)
    ensures Transactions(ps + [p]) == Transactions(ps) + [Transaction(p.id, p.amount, p.paymentType)]
  {
    var lhs := Transactions(ps + [p]);
    var rhs := Transactions(ps) + [Transaction(p.id, p.amount, p.paymentType)];
    assert |lhs| == |rhs|;
    forall i | 0 <= i < |lhs|
      ensures lhs[i] == rhs[i]
    {
      if i < |ps| {
        assert (ps + [p])[i] == ps[i];
      }
    }
  }
}
