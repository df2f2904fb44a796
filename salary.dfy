/**
 * The finance admin's salary ledger (src/app/admin/dashboard/page.tsx): the
 * issue form's validation, settlement of an agent's pending balance, marking
 * a payment as credited, and how a payment's status is displayed.
 *
 * Each agent's payments subcollection is a sequence of records kept by a
 * `SalaryLedger` object; the backend's reads and writes become field reads
 * and assignments, and whether the backend call succeeds is a parameter.
 */
module Salary {
  import opened Types

  /** Rupees earned per logged call. */
  const CallRate: int := 15

  const SettlementPurpose: string := "Account Settlement"

  // ---------------------------------------------------------------------
  // The issue form
  // ---------------------------------------------------------------------

  /** The submitted form. `amount` is `None` only when the field was never touched; a
      cleared field submits "", which the schema's coercion turns into 0. */
  datatype SalaryForm = SalaryForm(agentId: string, amount: Option<int>, purpose: string, settleAccount: bool)

  datatype FormIssue = AgentNotSelected | AmountNotPositive | PurposeTooShort | AmountRequired

  /**
   * The messages the form schema reports. The cross-field rule (an amount is
   * needed unless settling) is only evaluated once the agent enum parsed: an
   * invalid enum aborts the object parse before refinements run.
   */
  function FormIssues(f: SalaryForm): (r: set<FormIssue>)
    ensures AgentNotSelected in r <==> f.agentId != "ZN001" && f.agentId != "ZN002"
    ensures AmountNotPositive in r <==> f.amount.Some? && f.amount.value <= 0
    ensures PurposeTooShort in r <==> |f.purpose| < 3
    ensures AmountRequired in r <==>
      AgentNotSelected !in r && !f.settleAccount && (f.amount.None? || f.amount.value <= 0)
  {
    var agentOk := ParseAgent(f.agentId).Some?;
    var base :=
      (if agentOk then {} else {AgentNotSelected}) +
      (if f.amount.Some? && f.amount.value <= 0 then {AmountNotPositive} else {}) +
      (if |f.purpose| < 3 then {PurposeTooShort} else {});
    if agentOk && !(f.settleAccount || (f.amount.Some? && f.amount.value > 0)) then base + {AmountRequired}
    else base
  }

  /** The form is accepted exactly when the agent, purpose and amount rules all hold. */
  lemma FormAccepted(f: SalaryForm)
    ensures FormIssues(f) == {} <==>
      && (f.agentId == "ZN001" || f.agentId == "ZN002")
      && |f.purpose| >= 3
      && (f.amount.Some? ==> f.amount.value > 0)
      && (f.settleAccount || (f.amount.Some? && f.amount.value > 0))
  {
    if FormIssues(f) == {} {
      assert AgentNotSelected !in FormIssues(f);
    }
  }

  // ---------------------------------------------------------------------
  // Amounts owed and paid
  // ---------------------------------------------------------------------

  /** Sum of all payment amounts, missing ones as 0, whatever their status. */
  function TotalPaid(ps: seq<SalaryPayment>): (r: int)
    ensures (forall i :: 0 <= i < |ps| ==> AmountOrZero(ps[i]) >= 0) ==> r >= 0
    ensures (forall i :: 0 <= i < |ps| ==> ps[i].amount.None?) ==> r == 0
  {
    if ps == [] then 0 else TotalPaid(ps[..|ps| - 1]) + AmountOrZero(ps[|ps| - 1])
  }

  /** What the agent has earned from `callCount` calls and not yet been paid. */
  function Pending(callCount: nat, ps: seq<SalaryPayment>): (r: int)
    ensures ps == [] ==> r == callCount * CallRate
    ensures (forall i :: 0 <= i < |ps| ==> AmountOrZero(ps[i]) >= 0) ==> r <= callCount * CallRate
  {
    callCount * CallRate - TotalPaid(ps)
  }

  /** The `forEach` accumulation over a payments snapshot. */
  method SumPaid(ps: seq<SalaryPayment>) returns (total: int)
    ensures total == TotalPaid(ps)
  {
    total := 0;
    var i := 0;
    while i < |ps|
      invariant 0 <= i <= |ps|
      invariant total == TotalPaid(ps[..i])
    {
      assert ps[..i + 1][..i] == ps[..i];
      total := total + AmountOrZero(ps[i]);
      i := i + 1;
    }
    assert ps[..|ps|] == ps;
  }

  lemma {:induction false} TotalPaidAppend(ps: seq<SalaryPayment>, p: SalaryPayment)
    ensures TotalPaid(ps + [p]) == TotalPaid(ps) + AmountOrZero(p)
  {
    assert (ps + [p])[..|ps|] == ps;
  }

  /** The total depends on the amounts alone: statuses, purposes and dates do not matter. */
  lemma {:induction false} TotalPaidDependsOnAmountsOnly(ps: seq<SalaryPayment>, qs: seq<SalaryPayment>)
    requires |ps| == |qs|
    requires forall i :: 0 <= i < |ps| ==> AmountOrZero(ps[i]) == AmountOrZero(qs[i])
    ensures TotalPaid(ps) == TotalPaid(qs)
  {
    if ps != [] {
      TotalPaidDependsOnAmountsOnly(ps[..|ps| - 1], qs[..|qs| - 1]);
    }
  }

  /** The record written for a new payment: always with an amount and status Issued. */
  function IssuedPayment(id: string, amount: int, purpose: string, date: nat): (p: SalaryPayment)
    ensures p.id == id && p.status == Some(Issued) && AmountOrZero(p) == amount
  {
    SalaryPayment(id, Some(amount), purpose, Some(date), Some(Issued))
  }

  /** Issuing `amount` lowers the pending balance by exactly that much. */
  lemma IssueLowersPending(callCount: nat, ps: seq<SalaryPayment>, id: string, amount: int, purpose: string, date: nat)
    ensures Pending(callCount, ps + [IssuedPayment(id, amount, purpose, date)]) == Pending(callCount, ps) - amount
  {
    TotalPaidAppend(ps, IssuedPayment(id, amount, purpose, date));
  }

  /** After a settlement nothing is pending, so a second one at the same call count is refused. */
  lemma SettlementIsIdempotent(callCount: nat, ps: seq<SalaryPayment>, id: string, date: nat)
    requires Pending(callCount, ps) > 0
    ensures Pending(callCount, ps + [IssuedPayment(id, Pending(callCount, ps), SettlementPurpose, date)]) == 0
  {
    IssueLowersPending(callCount, ps, id, Pending(callCount, ps), SettlementPurpose, date);
  }

  // ---------------------------------------------------------------------
  // Crediting and status display
  // ---------------------------------------------------------------------

  /** The `updateDoc(..., { status: "Credited" })` on the payment with `id`. */
  function Credit(ps: seq<SalaryPayment>, id: string): (r: seq<SalaryPayment>)
    ensures |r| == |ps|
    ensures forall i :: 0 <= i < |ps| ==>
      && r[i].id == ps[i].id && r[i].amount == ps[i].amount
      && r[i].purpose == ps[i].purpose && r[i].date == ps[i].date
    ensures forall i :: 0 <= i < |ps| && ps[i].id != id ==> r[i] == ps[i]
    ensures forall i :: 0 <= i < |ps| && ps[i].id == id ==> r[i].status == Some(Credited)
  {
    seq(|ps|, i requires 0 <= i < |ps| => if ps[i].id == id then ps[i].(status := Some(Credited)) else ps[i])
  }

  /** Crediting never changes what has been paid, hence never the pending balance. */
  lemma CreditKeepsPending(callCount: nat, ps: seq<SalaryPayment>, id: string)
    ensures Pending(callCount, Credit(ps, id)) == Pending(callCount, ps)
  {
    TotalPaidDependsOnAmountsOnly(ps, Credit(ps, id));
  }

  /** The "Mark as Credited" button is shown for every payment not yet Credited. */
  predicate CreditOffered(p: SalaryPayment)
    ensures CreditOffered(p) <==> p.status.None? || p.status.value.Issued? || p.status.value.Cancelled?
  {
    p.status != Some(Credited)
  }

  function StatusVariant(s: Option<PaymentStatus>): (r: Variant)
    ensures r == Default <==> s == Some(Credited)
    ensures r == Secondary <==> s == Some(Issued)
    ensures r == Outline <==> s.None? || s == Some(Cancelled)
    ensures r != Destructive
  {
    match s
    case Some(Credited) => Default
    case Some(Issued) => Secondary
    case _ => Outline
  }

  /** The badge text: a missing status reads as "Issued". */
  function StatusLabel(s: Option<PaymentStatus>): (r: string)
    ensures r == "Issued" <==> s.None? || s == Some(Issued)
    ensures r == "Credited" <==> s == Some(Credited)
    ensures r == "Cancelled" <==> s == Some(Cancelled)
  {
    match s
    case None => "Issued"
    case Some(Issued) => "Issued"
    case Some(Credited) => "Credited"
    case Some(Cancelled) => "Cancelled"
  }

  /** The button appears exactly on the rows whose badge is not the Credited style. */
  lemma CreditOfferedIffNotCreditedBadge(p: SalaryPayment)
    ensures CreditOffered(p) <==> StatusVariant(p.status) != Default
  {
  }

  /** A payment without a status is labelled like an Issued one but drawn in the outline style. */
  lemma MissingStatusDisplay()
    ensures StatusLabel(None) == StatusLabel(Some(Issued))
    ensures StatusVariant(None) == Outline && StatusVariant(Some(Issued)) == Secondary
    ensures StatusVariant(Some(Cancelled)) == Outline
  {
  }

  /** Once credited, a payment no longer offers the button; other payments keep theirs. */
  lemma CreditedNotOfferedAgain(ps: seq<SalaryPayment>, id: string, i: nat)
    requires i < |ps|
    ensures ps[i].id == id ==> !CreditOffered(Credit(ps, id)[i])
    ensures ps[i].id != id ==> CreditOffered(Credit(ps, id)[i]) == CreditOffered(ps[i])
  {
  }

  // ---------------------------------------------------------------------
  // The ledger
  // ---------------------------------------------------------------------

  predicate IdsDistinct(ps: seq<SalaryPayment>) {
    forall i, j :: 0 <= i < j < |ps| ==> ps[i].id != ps[j].id
  }

  predicate HasPayment(ps: seq<SalaryPayment>, id: string) {
    exists i :: 0 <= i < |ps| && ps[i].id == id
  }

  datatype SubmitResult =
    | Rejected(issues: set<FormIssue>)
    | NoPendingBalance
    | SubmissionError
    | PaymentIssued(amount: int)

  class SalaryLedger {
    /** Each agent's payments subcollection. */
    var payments: map<Agent, seq<SalaryPayment>>

    ghost predicate Valid()
      reads this
    {
      forall a: Agent :: a in payments && IdsDistinct(payments[a])
    }

    constructor ()
      ensures Valid()
      ensures payments == map[ZN001 := [], ZN002 := []]
    {
      payments := map[ZN001 := [], ZN002 := []];
      new;
      forall a: Agent ensures a in payments {
        match a
        case ZN001 =>
        case ZN002 =>
      }
    }

    /**
     * Form submission: validation, then `onSalarySubmit`. `callCount` is the
     * size of the agent's call collection, `newId` the id the backend gives
     * the new document, `date` the server timestamp, and `backendOk` whether
     * the backend reads and the write succeed.
     */
    method Submit(f: SalaryForm, callCount: nat, newId: string, date: nat, backendOk: bool)
      returns (result: SubmitResult)
      requires Valid()
      requires forall a: Agent :: !HasPayment(payments[a], newId)
      modifies this
      ensures Valid()
      ensures FormIssues(f) != {} ==> result == Rejected(FormIssues(f)) && payments == old(payments)
      ensures FormIssues(f) == {} ==>
        var agent := ParseAgent(f.agentId).value;
        var ps := old(payments)[agent];
        if !backendOk then
          result == SubmissionError && payments == old(payments)
        else if f.settleAccount && Pending(callCount, ps) <= 0 then
          result == NoPendingBalance && payments == old(payments)
        else
          var amount := if f.settleAccount then Pending(callCount, ps) else f.amount.value;
          var purpose := if f.settleAccount then SettlementPurpose else f.purpose;
          && result == PaymentIssued(amount)
          && amount > 0
          && payments == old(payments)[agent := ps + [IssuedPayment(newId, amount, purpose, date)]]
    {
      var issues := FormIssues(f);
      if issues != {} {
        return Rejected(issues);
      }
      var agent := ParseAgent(f.agentId).value;
      var paymentAmount := if f.amount.Some? then f.amount.value else 0;
      var paymentPurpose := f.purpose;
      if !backendOk {
        return SubmissionError;
      }
      if f.settleAccount {
        var totalEarnings := callCount * CallRate;
        var totalPaid := SumPaid(payments[agent]);
        var pendingAmount := totalEarnings - totalPaid;
        if pendingAmount <= 0 {
          return NoPendingBalance;
        }
        paymentAmount := pendingAmount;
        paymentPurpose := SettlementPurpose;
      }
      var ps := payments[agent];
      var p := IssuedPayment(newId, paymentAmount, paymentPurpose, date);
      assert forall i :: 0 <= i < |ps| ==> ps[i].id != newId;
      payments := payments[agent := ps + [p]];
      result := PaymentIssued(paymentAmount);
    }

    /** `handleMarkAsCredited`: the update fails when no payment has that id. */
    method MarkAsCredited(agent: Agent, id: string, writeOk: bool) returns (ok: bool)
      requires Valid()
      modifies this
      ensures Valid()
      ensures ok == (writeOk && HasPayment(old(payments)[agent], id))
      ensures payments == if ok then old(payments)[agent := Credit(old(payments)[agent], id)] else old(payments)
    {
      ok := writeOk && HasPayment(payments[agent], id);
      if ok {
        var credited := Credit(payments[agent], id);
        assert IdsDistinct(credited) by {
          forall i, j | 0 <= i < j < |credited| ensures credited[i].id != credited[j].id {
            assert credited[i].id == payments[agent][i].id && credited[j].id == payments[agent][j].id;
          }
        }
        payments := payments[agent := credited];
      }
    }
  }

  /** Two settlements in a row with no new calls in between: the second one is refused. */
  method SettleTwice(ledger: SalaryLedger, agent: Agent, callCount: nat, id1: string, id2: string, date: nat)
    returns (first: SubmitResult, second: SubmitResult)
    requires ledger.Valid() && id1 != id2
    requires forall a: Agent :: !HasPayment(ledger.payments[a], id1) && !HasPayment(ledger.payments[a], id2)
    modifies ledger
    ensures first.PaymentIssued? ==> second == NoPendingBalance
  {
    var f := SalaryForm(AgentCode(agent), None, SettlementPurpose, true);
    var ps := ledger.payments[agent];
    first := ledger.Submit(f, callCount, id1, date, true);
    if first.PaymentIssued? {
      SettlementIsIdempotent(callCount, ps, id1, date);
    }
    assert forall a: Agent :: !HasPayment(ledger.payments[a], id2) by {
      forall a: Agent ensures !HasPayment(ledger.payments[a], id2) {
        assert ledger.payments[a] == old(ledger.payments[a]) || ledger.payments[a] == old(ledger.payments[a]) + [IssuedPayment(id1, Pending(callCount, ps), SettlementPurpose, date)];
      }
    }
    second := ledger.Submit(f, callCount, id2, date, true);
  }
}
