/**
 * The customers router (backend/routes/customers.js): the name check of
 * customer creation and the per-customer account overview.
 */
module Customers {
  import opened Outcomes
  import opened Money
  import opened Loans

  /** Customer creation rejects a falsy name before inserting anything. */
  function CheckName(name: Option<string>): (r: Result<string>)
    ensures r.Ok? <==> name.Some? && name.value != ""
    ensures r.Ok? ==> r.value == name.value
    ensures r.Err? ==> r.error == InvalidParameters
  {
    if !GivenText(name) then Err(InvalidParameters) else Ok(name.value)
  }

  /**
   * `emis_left` as the overview computes it, on the unclamped difference
   * `total − paid`: `Math.ceil(difference / monthly_emi)`, overwritten by 0
   * when the difference is not positive. It agrees with the rule the ledger
   * and payment handlers apply to the clamped balance.
   */
  function OverviewEmisLeft(total: real, paid: real, emi: real): (n: Option<int>)
    ensures n == EmisLeft(Balance(total, paid), emi)
  {
    if total - paid <= 0.0 then Some(0)
    else if emi == 0.0 then None
    else Some(Ceil((total - paid) / emi))
  }

  /** One entry of the overview's `loans` list. */
  datatype LoanStats = LoanStats(
    principal: real,
    totalAmount: real,
    totalInterest: real,
    emiAmount: real,
    amountPaid: real,
    emisLeft: Option<int>)

  /** The overview of one customer; the loans are keyed by loan id, as the query gives no order. */
  datatype OverviewView = OverviewView(customerId: Id, totalLoans: nat, loans: map<Id, LoanStats>)

  /** The loans a customer holds: `SELECT * FROM loans WHERE customer_id = ?`. */
  function LoansOf(loans: map<Id, Loan>, customerId: Id): (mine: set<Id>)
    ensures mine <= loans.Keys
    ensures forall id :: id in loans ==> (id in mine <==> loans[id].customerId == customerId)
  {
    set id | id in loans && loans[id].customerId == customerId
  }

  /**
   * The statistics of one loan in the overview: the amount paid as a fold over
   * its payments, the interest as total less principal, and EMIs left.
   */
  function StatsOf(loan: Loan, ps: seq<Payment>, loanId: Id): (s: LoanStats)
    ensures s.amountPaid == AmountPaid(ps, loanId)
    ensures s.emisLeft == EmisLeft(Outstanding(loan, ps, loanId), loan.monthlyEmi)
    ensures s.principal == loan.principal && s.totalInterest == loan.totalAmount - loan.principal
    ensures s.principal + s.totalInterest == loan.totalAmount
    ensures s.totalAmount == loan.totalAmount && s.emiAmount == loan.monthlyEmi
  {
    var paid := SumAmounts(PaymentsOf(ps, loanId));
    FoldEqualsSqlSum(ps, loanId);
    LoanStats(loan.principal, loan.totalAmount, loan.totalAmount - loan.principal,
              loan.monthlyEmi, paid, OverviewEmisLeft(loan.totalAmount, paid, loan.monthlyEmi))
  }

  /**
   * ACCOUNT OVERVIEW: not found for an unknown customer, a no-loans error for
   * a customer without loans, otherwise one entry per loan of the customer
   * and their count.
   */
  function Overview(customers: map<Id, string>, loans: map<Id, Loan>, ps: seq<Payment>, customerId: Id)
    : (r: Result<OverviewView>)
    ensures customerId !in customers ==> r == Err(CustomerNotFound)
    ensures customerId in customers && LoansOf(loans, customerId) == {} ==> r == Err(NoLoansFound)
    ensures customerId in customers && LoansOf(loans, customerId) != {} ==> r.Ok?
    ensures r.Ok? ==>
      && r.value.customerId == customerId
      && r.value.loans.Keys == LoansOf(loans, customerId)
      && r.value.totalLoans == |LoansOf(loans, customerId)|
      && forall id :: id in r.value.loans ==> id in loans && r.value.loans[id] == StatsOf(loans[id], ps, id)
  {
    if customerId !in customers then Err(CustomerNotFound)
    else
      var mine := LoansOf(loans, customerId);
      if mine == {} then Err(NoLoansFound)
      else
        var entries := map id | id in mine :: StatsOf(loans[id], ps, id);
        assert entries.Keys == mine;
        Ok(OverviewView(customerId, |entries|, entries))
  }

  /**
   * Every loan of a known customer is listed in the overview, and the overview
   * and the ledger report the same total, EMI, amount paid and EMIs left for it.
   */
  lemma OverviewAgreesWithLedger(customers: map<Id, string>, loans: map<Id, Loan>, ps: seq<Payment>,
                                 customerId: Id, loanId: Id)
    requires customerId in customers && loanId in loans && loans[loanId].customerId == customerId
    ensures Overview(customers, loans, ps, customerId).Ok?
    ensures loanId in Overview(customers, loans, ps, customerId).value.loans
    ensures Ledger(loans, ps, loanId).Ok?
    ensures var stats := Overview(customers, loans, ps, customerId).value.loans[loanId];
      var ledger := Ledger(loans, ps, loanId).value;
      stats.amountPaid == ledger.amountPaid && stats.emisLeft == ledger.emisLeft
      && stats.totalAmount == ledger.totalAmount && stats.emiAmount == ledger.monthlyEmi
  {
    assert loanId in LoansOf(loans, customerId);
  }

  /** The overview's total interest of an originated loan is the simple interest charged at origination. */
  lemma OverviewInterestIsOriginationInterest(customerId: Id, p: real, n: real, rate: real,
                                              ps: seq<Payment>, loanId: Id)
    requires n != 0.0
    ensures StatsOf(Originate(customerId, p, n, rate), ps, loanId).totalInterest == p * n * rate / 100.0
  {
  }
}
