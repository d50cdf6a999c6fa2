/**
 * The store behind the handlers: the `customers`, `loans` and `payments`
 * tables, and the three handlers that write to them (create customer, LEND
 * and PAYMENT). Each handler call runs as one atomic step.
 */
module Bank {
  import opened Outcomes
  import opened Money
  import opened Loans
  import opened Customers

  /** The body LEND answers with on success. */
  datatype LendReceipt = LendReceipt(loanId: Id, customerId: Id, totalAmountPayable: real, monthlyEmi: real)

  /** The body PAYMENT answers with on success. */
  datatype PaymentReceipt = PaymentReceipt(paymentId: Id, loanId: Id, remainingBalance: real, emisLeft: Option<int>)

  /** Loans are never removed, and a PAID_OFF loan stays PAID_OFF. */
  ghost predicate StatusMonotone(before: map<Id, Loan>, after: map<Id, Loan>) {
    forall id :: id in before ==>
      id in after && (before[id].status == PaidOff ==> after[id].status == PaidOff)
  }

  /** Every loan belongs to a known customer. */
  ghost predicate LoansOwned(customers: map<Id, string>, loans: map<Id, Loan>) {
    forall id :: id in loans ==> loans[id].customerId in customers
  }

  /** Every payment belongs to a known loan. */
  ghost predicate PaymentsOwned(loans: map<Id, Loan>, ps: seq<Payment>) {
    forall p :: p in ps ==> p.loanId in loans
  }

  /** Payment ids are distinct (payment_id is the table's primary key). */
  ghost predicate DistinctIds(ps: seq<Payment>) {
    forall i, j :: 0 <= i < j < |ps| ==> ps[i].id != ps[j].id
  }

  /**
   * Every loan belongs to a known customer, every payment to a known loan,
   * payment ids are distinct, no loan is paid more than its total, and a
   * PAID_OFF loan has nothing outstanding.
   */
  ghost predicate Consistent(customers: map<Id, string>, loans: map<Id, Loan>, ps: seq<Payment>) {
    && LoansOwned(customers, loans)
    && PaymentsOwned(loans, ps)
    && DistinctIds(ps)
    && NoOverpayment(loans, ps)
    && PaidOffSettled(loans, ps)
  }

  /** A payment under a fresh id keeps the ids distinct. */
  lemma FreshIdKeepsDistinct(ps: seq<Payment>, p: Payment)
    requires DistinctIds(ps)
    requires forall i :: 0 <= i < |ps| ==> ps[i].id != p.id
    ensures DistinctIds(ps + [p])
  {
    var qs := ps + [p];
    forall i, j | 0 <= i < j < |qs|
      ensures qs[i].id != qs[j].id
    {
      if j == |ps| {
        assert qs[i] == ps[i];
      } else {
        assert qs[i] == ps[i] && qs[j] == ps[j];
      }
    }
  }

  /**
   * Recording a payment that passed the checks under a fresh id, and moving
   * its loan to PAID_OFF exactly when the balance reaches 0, keeps the store
   * consistent; the new balance is the old one less the amount.
   */
  lemma PaymentKeepsConsistent(customers: map<Id, string>, loans: map<Id, Loan>, ps: seq<Payment>,
                               loanId: Id, amount: Option<real>, paymentType: Option<string>, freshId: Id)
    requires Consistent(customers, loans, ps)
    requires forall i :: 0 <= i < |ps| ==> ps[i].id != freshId
    requires ScreenPayment(loans, ps, loanId, amount, paymentType).Ok?
    ensures var p := Payment(freshId, loanId, amount.value, paymentType.value);
      var left := ScreenPayment(loans, ps, loanId, amount, paymentType).value - amount.value;
      var after := if left == 0.0 then loans[loanId := loans[loanId].(status := PaidOff)] else loans;
      && Outstanding(loans[loanId], ps + [p], loanId) == left
      && Consistent(customers, after, ps + [p])
  {
    var p := Payment(freshId, loanId, amount.value, paymentType.value);
    var left := ScreenPayment(loans, ps, loanId, amount, paymentType).value - amount.value;
    var after := if left == 0.0 then loans[loanId := loans[loanId].(status := PaidOff)] else loans;
    RecordingKeepsInvariants(loans, ps, loanId, amount, paymentType, freshId);
    FreshIdKeepsDistinct(ps, p);
    assert after.Keys == loans.Keys;
    assert LoansOwned(customers, after);
    assert PaymentsOwned(after, ps + [p]);
  }

  class Store {
    /** customer_id to name. */
    var customers: map<Id, string>
    /** loan_id to loan row. */
    var loans: map<Id, Loan>
    /** The payment rows in the order they were recorded, which is their `payment_date` order. */
    var payments: seq<Payment>

    /** The store's invariant: see Consistent. */
    ghost predicate Valid()
      reads this
    {
      Consistent(customers, loans, payments)
    }

    constructor ()
      ensures Valid()
      ensures customers == map[] && loans == map[] && payments == []
    {
      customers, loans, payments := map[], map[], [];
    }

    /**
     * POST /customers: a falsy name is rejected and nothing is inserted;
     * otherwise the customer is inserted under a fresh id.
     */
    method CreateCustomer(name: Option<string>, freshId: Id) returns (r: Result<Id>)
      requires Valid()
      requires freshId !in customers
      modifies this
      ensures Valid()
      ensures loans == old(loans) && payments == old(payments)
      ensures r.Err? ==> r.error == InvalidParameters && customers == old(customers)
      ensures r.Ok? <==> GivenText(name)
      ensures r.Ok? ==> r.value == freshId && customers == old(customers)[freshId := name.value]
    {
      var checked := CheckName(name);
      if checked.Err? {
        return Err(checked.error);
      }
      customers := customers[freshId := checked.value];
      r := Ok(freshId);
    }

    /**
     * POST /loans (LEND): a falsy customer id, amount, period or rate is
     * rejected before any computation, an unknown customer next; otherwise
     * the originated loan is inserted, ACTIVE, under a fresh id.
     */
    method Lend(customerId: Option<string>, loanAmount: Option<real>, periodYears: Option<real>,
                rateYearly: Option<real>, freshId: Id) returns (r: Result<LendReceipt>)
      requires Valid()
      requires freshId !in loans
      modifies this
      ensures Valid()
      ensures customers == old(customers) && payments == old(payments)
      ensures StatusMonotone(old(loans), loans)
      ensures r.Err? ==> loans == old(loans)
      ensures !GivenText(customerId) || !GivenNumber(loanAmount) || !GivenNumber(periodYears) || !GivenNumber(rateYearly)
        ==> r == Err(InvalidParameters)
      ensures GivenText(customerId) && GivenNumber(loanAmount) && GivenNumber(periodYears) && GivenNumber(rateYearly)
        ==> if customerId.value !in old(customers) then r == Err(CustomerNotFound)
            else
              var loan := Originate(customerId.value, loanAmount.value, periodYears.value, rateYearly.value);
              && r == Ok(LendReceipt(freshId, customerId.value, loan.totalAmount, loan.monthlyEmi))
              && loans == old(loans)[freshId := loan]
    {
      if !GivenText(customerId) || !GivenNumber(loanAmount) || !GivenNumber(periodYears) || !GivenNumber(rateYearly) {
        return Err(InvalidParameters);
      }
      if customerId.value !in customers {
        return Err(CustomerNotFound);
      }
      var loan := Originate(customerId.value, loanAmount.value, periodYears.value, rateYearly.value);
      loans := loans[freshId := loan];
      r := Ok(LendReceipt(freshId, customerId.value, loan.totalAmount, loan.monthlyEmi));
    }

    /**
     * POST /loans/:loan_id/payments (PAYMENT): runs the checks; a rejected
     * payment changes nothing. An accepted one appends exactly one payment,
     * reports the balance less the amount and the EMIs left, and moves the
     * loan to PAID_OFF when that balance is 0.
     */
    method Pay(loanId: Id, amount: Option<real>, paymentType: Option<string>, freshId: Id)
      returns (r: Result<PaymentReceipt>)
      requires Valid()
      requires forall i :: 0 <= i < |payments| ==> payments[i].id != freshId
      modifies this
      ensures Valid()
      ensures customers == old(customers)
      ensures StatusMonotone(old(loans), loans)
      ensures var check := ScreenPayment(old(loans), old(payments), loanId, amount, paymentType);
        check.Err? ==> r == Err(check.error) && loans == old(loans) && payments == old(payments)
      ensures var check := ScreenPayment(old(loans), old(payments), loanId, amount, paymentType);
        check.Ok? ==>
          var loan := old(loans)[loanId];
          var left := check.value - amount.value;
          && payments == old(payments) + [Payment(freshId, loanId, amount.value, paymentType.value)]
          && r == Ok(PaymentReceipt(freshId, loanId, left, EmisLeft(left, loan.monthlyEmi)))
          && loans == if left == 0.0 then old(loans)[loanId := loan.(status := PaidOff)] else old(loans)
      ensures (loanId in old(loans) && old(loans)[loanId].status == PaidOff
               && GivenNumber(amount) && GivenText(paymentType)) ==> r == Err(AlreadyPaidOff)
    {
      var check := ScreenPayment(loans, payments, loanId, amount, paymentType);
      if check.Err? {
        if loanId in loans && loans[loanId].status == PaidOff && GivenNumber(amount) && GivenText(paymentType) {
          PaidOffIsTerminal(loans, payments, loanId, amount, paymentType);
        }
        return Err(check.error);
      }
      var loan := loans[loanId];
      PaymentKeepsConsistent(customers, loans, payments, loanId, amount, paymentType, freshId);
      payments := payments + [Payment(freshId, loanId, amount.value, paymentType.value)];
      var newBalance := Outstanding(loan, payments, loanId);
      var emisLeft := EmisLeft(newBalance, loan.monthlyEmi);
      if newBalance == 0.0 {
        loans := loans[loanId := loan.(status := PaidOff)];
      }
      r := Ok(PaymentReceipt(freshId, loanId, newBalance, emisLeft));
    }
  }

  /** The loan OriginationExample originates, as the store holds it. */
  function ExampleLoan(): Loan {
    Loan("c-1", 120000.0, 144000.0, 10.0, 2.0, 6000.0, Active)
  }

  /**
   * Origination end to end: 120000 lent over 2 years at 10% gives a total of
   * 144000 and an EMI of 6000; an empty name and an unknown customer are refused.
   */
  method OriginationExample() returns (store: Store)
    ensures fresh(store) && store.Valid()
    ensures store.customers == map["c-1" := "Asha"]
    ensures store.loans == map["l-1" := ExampleLoan()] && store.payments == []
  {
    store := new Store();
    var customer := store.CreateCustomer(Some("Asha"), "c-1");
    assert customer == Ok("c-1");
    var noName := store.CreateCustomer(Some(""), "c-2");
    assert noName == Err(InvalidParameters);
    var lent := store.Lend(Some("c-1"), Some(120000.0), Some(2.0), Some(10.0), "l-1");
    assert Round2(6000.0) == 6000.0;
    assert Originate("c-1", 120000.0, 2.0, 10.0) == ExampleLoan();
    assert lent == Ok(LendReceipt("l-1", "c-1", 144000.0, 6000.0));
    var stranger := store.Lend(Some("c-9"), Some(1000.0), Some(1.0), Some(5.0), "l-2");
    assert stranger == Err(CustomerNotFound);
  }

  /**
   * A part payment on that loan: 50000 leaves 94000 and 16 EMIs; 200000 is
   * then refused as an overpayment and changes nothing.
   */
  method PartPaymentExample(store: Store)
    requires store.Valid()
    requires store.loans == map["l-1" := ExampleLoan()] && store.payments == []
    modifies store
    ensures store.Valid() && store.customers == old(store.customers)
    ensures store.loans == map["l-1" := ExampleLoan()]
    ensures store.payments == [Payment("p-1", "l-1", 50000.0, "EMI")]
  {
    AmountPaidAppend([], Payment("p-1", "l-1", 50000.0, "EMI"), "l-1");
    var first := store.Pay("l-1", Some(50000.0), Some("EMI"), "p-1");
    assert Ceil(94000.0 / 6000.0) == 16;
    assert first == Ok(PaymentReceipt("p-1", "l-1", 94000.0, Some(16)));

    var tooMuch := store.Pay("l-1", Some(200000.0), Some("LUMP_SUM"), "p-2");
    assert tooMuch == Err(OverpaymentRejected);
  }

  /**
   * Paying off that loan: after the part payment, 94000 brings the balance to
   * 0 and the loan to PAID_OFF; a further payment of 1 is refused; the
   * ledger shows nothing left.
   */
  method PayOffExample(store: Store)
    requires store.Valid()
    requires store.loans == map["l-1" := ExampleLoan()]
    requires store.payments == [Payment("p-1", "l-1", 50000.0, "EMI")]
    modifies store
    ensures store.Valid() && store.customers == old(store.customers)
    ensures store.loans == map["l-1" := ExampleLoan().(status := PaidOff)]
    ensures store.payments == [Payment("p-1", "l-1", 50000.0, "EMI"), Payment("p-2", "l-1", 94000.0, "LUMP_SUM")]
  {
    var paid := [Payment("p-1", "l-1", 50000.0, "EMI")];
    AmountPaidAppend([], paid[0], "l-1");
    AmountPaidAppend(paid, Payment("p-2", "l-1", 94000.0, "LUMP_SUM"), "l-1");
    var last := store.Pay("l-1", Some(94000.0), Some("LUMP_SUM"), "p-2");
    assert last == Ok(PaymentReceipt("p-2", "l-1", 0.0, Some(0)));
    var settled := store.loans;
    var recorded := store.payments;
    assert settled == map["l-1" := ExampleLoan().(status := PaidOff)];
    assert recorded == paid + [Payment("p-2", "l-1", 94000.0, "LUMP_SUM")];

    var late := store.Pay("l-1", Some(1.0), Some("EMI"), "p-3");
    assert late == Err(AlreadyPaidOff);
    assert store.loans == settled && store.payments == recorded;

    var ledger := Ledger(store.loans, store.payments, "l-1");
    assert ledger.Ok? && ledger.value.balanceAmount == 0.0 && ledger.value.emisLeft == Some(0);
  }

  /** A loan's whole life: origination, a part payment, then the pay-off, on one store. */
  method LoanLifecycle() {
    var store := OriginationExample();
    PartPaymentExample(store);
    PayOffExample(store);
    assert store.loans["l-1"].status == PaidOff;
  }

  /** The overview of a customer holding only that loan lists it with an interest of 24000. */
  lemma OverviewExample(ps: seq<Payment>)
    ensures var overview := Overview(map["c-1" := "Asha"], map["l-1" := ExampleLoan()], ps, "c-1");
      overview.Ok? && overview.value.loans.Keys == {"l-1"} && overview.value.totalLoans == 1
      && overview.value.loans["l-1"].totalInterest == 24000.0
  {
    var loans := map["l-1" := ExampleLoan()];
    assert "l-1" in LoansOf(loans, "c-1");
    assert LoansOf(loans, "c-1") == {"l-1"};
  }
}
