/**
 * Record shapes and enumerations shared by the agent-tracking front end
 * (src/lib/types.ts), plus the few value types the components pass around:
 * the two agent codes, the signed-in user, navigation targets and badge
 * variants.
 */
module Types {

  datatype Option<T> = None | Some(value: T)

  /** The three outcomes a call can have. */
  datatype Outcome = Resolved | Escalated | FollowUpRequired

  /** The wire name of an outcome, as stored in a call document. */
  function OutcomeName(o: Outcome): string {
    match o
    case Resolved => "Resolved"
    case Escalated => "Escalated"
    case FollowUpRequired => "Follow-up Required"
  }

  /** Reads an outcome back from its wire name; anything else is rejected. */
  function ParseOutcome(s: string): (r: Option<Outcome>)
    ensures r.Some? ==> OutcomeName(r.value) == s
    ensures r.None? ==> forall o :: OutcomeName(o) != s
  {
    if s == "Resolved" then Some(Resolved)
    else if s == "Escalated" then Some(Escalated)
    else if s == "Follow-up Required" then Some(FollowUpRequired)
    else None
  }

  /** The optional status of a salary payment. */
  datatype PaymentStatus = Issued | Credited | Cancelled

  /** The two agent codes the application knows. */
  datatype Agent = ZN001 | ZN002

  function AgentCode(a: Agent): string {
    match a
    case ZN001 => "ZN001"
    case ZN002 => "ZN002"
  }

  function ParseAgent(s: string): (r: Option<Agent>)
    ensures r.Some? ==> AgentCode(r.value) == s
    ensures r.None? ==> forall a :: AgentCode(a) != s
  {
    if s == "ZN001" then Some(ZN001)
    else if s == "ZN002" then Some(ZN002)
    else None
  }

  /** An authenticated (anonymous) backend user; only the uid is used. */
  datatype User = User(uid: string)

  /** Navigation targets the pages can request. */
  datatype Route = LoginRoute | DashboardRoute | AdminDashboardRoute

  /** Badge styles used to display outcomes and payment statuses. */
  datatype Variant = Default | Secondary | Destructive | Outline

  /**
   * A call record. `createdAt` is a server timestamp in milliseconds; it is
   * absent while the server has not yet filled it in. `edited` is optional
   * and its absence means the outcome was never edited.
   */
  datatype CallEntry = CallEntry(
    id: string,
    callId: string,
    clientName: string,
    clientPhone: string,
    notes: string,
    outcome: Outcome,
    createdAt: Option<nat>,
    edited: Option<bool>)

  /**
   * A salary payment. The record type declares `amount` as a number, but the
   * admin dashboard and the earnings card fall back to 0 when a stored document
   * lacks it, so a stored payment's amount is optional here; `status` is
   * optional in the source.
   */
  datatype SalaryPayment = SalaryPayment(
    id: string,
    amount: Option<int>,
    purpose: string,
    date: Option<nat>,
    status: Option<PaymentStatus>)

  /** JavaScript truthiness of a nullable string: null and "" are falsy. */
  predicate Truthy(s: Option<string>) {
    s.Some? && s.value != ""
  }

  /** `amount || 0`: a missing amount counts as zero. */
  function AmountOrZero(p: SalaryPayment): int {
    if p.amount.Some? then p.amount.value else 0
  }

  /** An outcome needs follow-up work unless it is Resolved. */
  predicate NonResolved(o: Outcome) {
    o == Escalated || o == FollowUpRequired
  }

  /** The call has been edited at least once. */
  predicate WasEdited(c: CallEntry) {
    c.edited == Some(true)
  }

  lemma OutcomeNamesRoundTrip(o: Outcome)
    ensures ParseOutcome(OutcomeName(o)) == Some(o)
  {
  }

  lemma AgentCodesRoundTrip(a: Agent)
    ensures ParseAgent(AgentCode(a)) == Some(a)
  {
  }
}
