/**
 * The agent's earnings card (src/components/earnings-display.tsx): earnings
 * are the number of call documents times the per-call rate, and the salary
 * paid is the sum of all payment amounts. The two live subscriptions are
 * modelled as the handlers they install.
 */
module Earnings {
  import opened Types
  import Salary

  /** Rupees per call, declared separately from the admin dashboard's rate. */
  const CallRate: nat := 15

  /** The figure shown as "Total Earnings" for `callCount` call documents. */
  function TotalEarnings(callCount: nat): (e: int)
    ensures e >= 0 && e % CallRate == 0 && e / CallRate == callCount
  {
    callCount * CallRate
  }

  /** Earnings only grow as calls are logged: one more call is worth exactly one rate. */
  lemma EarningsPerCall(n: nat, m: nat)
    ensures n <= m <==> TotalEarnings(n) <= TotalEarnings(m)
    ensures TotalEarnings(n + 1) == TotalEarnings(n) + CallRate
  {
  }

  /** The earnings card and figures both sides of the app compute: both use rate 15
      and the same sum, so earnings minus paid is what the admin dashboard settles. */
  lemma EarningsMinusPaidIsPending(callCount: nat, ps: seq<SalaryPayment>)
    ensures TotalEarnings(callCount) - Salary.TotalPaid(ps) == Salary.Pending(callCount, ps)
  {
  }

  class EarningsView {
    var agentId: Option<string>
    var totalEarnings: int
    var salaryPaid: int
    var isLoading: bool
    /** Whether the call and salary listeners are installed for `agentId`. */
    var subscribed: bool

    constructor ()
      ensures agentId == None && totalEarnings == 0 && salaryPaid == 0 && isLoading && !subscribed
    {
      agentId := None;
      totalEarnings := 0;
      salaryPaid := 0;
      isLoading := true;
      subscribed := false;
    }

    /** The effect run for a (new) agentId: without one it only shows the skeleton. */
    method Mount(id: Option<string>)
      modifies this
      ensures agentId == id && isLoading
      ensures subscribed <==> Truthy(id)
      ensures totalEarnings == old(totalEarnings) && salaryPaid == old(salaryPaid)
    {
      agentId := id;
      isLoading := true;
      subscribed := Truthy(id);
    }

    /** A snapshot of the agent's call collection with `size` documents. */
    method OnCallsSnapshot(size: nat)
      requires subscribed
      modifies this`totalEarnings
      ensures totalEarnings == TotalEarnings(size)
    {
      totalEarnings := size * CallRate;
    }

    /** A failing call listener changes nothing on the card. */
    method OnCallsError()
      requires subscribed
      ensures unchanged(this)
    {
    }

    /** A snapshot of the agent's payments: the paid figure and the end of loading. */
    method OnSalarySnapshot(ps: seq<SalaryPayment>)
      requires subscribed
      modifies this`salaryPaid, this`isLoading
      ensures salaryPaid == Salary.TotalPaid(ps) && !isLoading
    {
      var totalPaid := Salary.SumPaid(ps);
      salaryPaid := totalPaid;
      isLoading := false;
    }

    /** A failing salary listener: paid is taken as 0 and loading ends. */
    method OnSalaryError()
      requires subscribed
      modifies this`salaryPaid, this`isLoading
      ensures salaryPaid == 0 && !isLoading
    {
      salaryPaid := 0;
      isLoading := false;
    }
  }

  /** The card for `agent` once both listeners have delivered, in either order: the
      difference it shows is the settlement amount the admin dashboard would compute.
      When the payments arrive first, loading already ends and the card briefly shows
      nothing earned against what was paid. */
  method ShownBalance(agent: string, callCount: nat, ps: seq<SalaryPayment>)
    returns (loaded: bool, shown: int, loadedReversed: bool, early: int, shownReversed: int)
    requires agent != ""
    ensures loaded && shown == Salary.Pending(callCount, ps)
    ensures loadedReversed && early == -Salary.TotalPaid(ps)
    ensures shownReversed == shown
  {
    var view := new EarningsView();
    view.Mount(Some(agent));
    view.OnCallsSnapshot(callCount);
    view.OnSalarySnapshot(ps);
    loaded := !view.isLoading;
    shown := view.totalEarnings - view.salaryPaid;

    var other := new EarningsView();
    other.Mount(Some(agent));
    other.OnSalarySnapshot(ps);
    loadedReversed := !other.isLoading;
    early := other.totalEarnings - other.salaryPaid;
    other.OnCallsSnapshot(callCount);
    shownReversed := other.totalEarnings - other.salaryPaid;
  }

  /** Without an agentId the card keeps loading and listens to nothing. */
  method NoAgentKeepsLoading(id: Option<string>) returns (loading: bool, listening: bool)
    requires !Truthy(id)
    ensures loading && !listening
  {
    var view := new EarningsView();
    view.Mount(id);
    loading := view.isLoading;
    listening := view.subscribed;
  }
}
