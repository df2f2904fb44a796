/**
 * The "New Call Entry" form (src/components/call-entry-form.tsx): the
 * field validator and the guarded write of a new call record.
 */
module CallEntryForm {
  import opened Types

  /** The raw form values; the outcome is the select's string. */
  datatype CallForm = CallForm(clientName: string, clientPhone: string, notes: string, outcome: string)

  /** The values the form starts with and returns to after a save. */
  const DefaultForm := CallForm("", "", "", "Resolved")

  datatype FieldIssue = NameRequired | PhoneRequired | NotesRequired | InvalidOutcome

  /** Every failing field of the schema; field checks are independent of one another. */
  function CallFormIssues(f: CallForm): (issues: set<FieldIssue>)
    ensures NameRequired in issues <==> |f.clientName| < 1
    ensures PhoneRequired in issues <==> |f.clientPhone| < 1
    ensures NotesRequired in issues <==> |f.notes| < 1
    ensures InvalidOutcome in issues <==> ParseOutcome(f.outcome).None?
  {
    (if |f.clientName| < 1 then {NameRequired} else {})
    + (if |f.clientPhone| < 1 then {PhoneRequired} else {})
    + (if |f.notes| < 1 then {NotesRequired} else {})
    + (if ParseOutcome(f.outcome).None? then {InvalidOutcome} else {})
  }

  /** The form is accepted iff all three texts are non-empty and the outcome is one of the three names. */
  lemma CallFormAccepted(f: CallForm)
    ensures CallFormIssues(f) == {} <==>
      && f.clientName != "" && f.clientPhone != "" && f.notes != ""
      && (f.outcome == "Resolved" || f.outcome == "Escalated" || f.outcome == "Follow-up Required")
  {
    if CallFormIssues(f) == {} {
      OutcomeNamesRoundTrip(ParseOutcome(f.outcome).value);
    } else if ParseOutcome(f.outcome).None? {
      assert OutcomeName(Resolved) != f.outcome;
      assert OutcomeName(Escalated) != f.outcome;
      assert OutcomeName(FollowUpRequired) != f.outcome;
    }
  }

  /** The untouched form has empty texts, so it cannot be submitted as is; its outcome is valid. */
  lemma DefaultFormFacts()
    ensures ParseOutcome(DefaultForm.outcome) == Some(Resolved)
    ensures CallFormIssues(DefaultForm) == {NameRequired, PhoneRequired, NotesRequired}
  {
    assert OutcomeName(Resolved) == DefaultForm.outcome;
  }

  /** The record written to the "agents" collection. */
  datatype CallDoc = CallDoc(clientName: string, clientPhone: string, notes: string, outcome: Outcome,
                             agentId: string, createdAt: nat)

  /** The form values spread into the record, plus the user's uid and the save time. */
  function CallDocOf(f: CallForm, o: Outcome, user: User, now: nat): (d: CallDoc)
    ensures d.agentId == user.uid && d.createdAt == now && d.outcome == o
  {
    CallDoc(f.clientName, f.clientPhone, f.notes, o, user.uid, now)
  }

  /** The form values a record was written from. */
  function FormOfDoc(d: CallDoc): CallForm {
    CallForm(d.clientName, d.clientPhone, d.notes, OutcomeName(d.outcome))
  }

  /** The record keeps every submitted value: the form can be read back from it. */
  lemma DocRecordsForm(f: CallForm, user: User, now: nat)
    requires CallFormIssues(f) == {}
    ensures FormOfDoc(CallDocOf(f, ParseOutcome(f.outcome).value, user, now)) == f
    ensures CallFormIssues(FormOfDoc(CallDocOf(f, ParseOutcome(f.outcome).value, user, now))) == {}
  {
  }

  datatype SubmitResult = Invalid(issues: set<FieldIssue>) | NotLoggedIn | SaveFailed | Saved

  class CallEntryFormState {
    var values: CallForm
    var isLoading: bool
    /** The "agents" collection the form appends to. */
    var agentsCollection: seq<CallDoc>

    constructor (docs: seq<CallDoc>)
      ensures values == DefaultForm && !isLoading && agentsCollection == docs
    {
      values := DefaultForm;
      isLoading := false;
      agentsCollection := docs;
    }

    /** Typing into the form. */
    method Edit(f: CallForm)
      modifies this`values
      ensures values == f
    {
      values := f;
    }

    /** `handleSubmit(onSubmit)`: validation, the signed-in check, `addDoc` (whose success
        is `writeOk`) at time `now`, and the reset after a save. */
    method Submit(user: Option<User>, writeOk: bool, now: nat) returns (r: SubmitResult)
      requires !isLoading
      modifies this
      ensures !isLoading
      ensures CallFormIssues(old(values)) != {} ==> r == Invalid(CallFormIssues(old(values)))
      ensures CallFormIssues(old(values)) == {} && user.None? ==> r == NotLoggedIn
      ensures CallFormIssues(old(values)) == {} && user.Some? ==> r == (if writeOk then Saved else SaveFailed)
      ensures r.Saved? ==>
        && agentsCollection == old(agentsCollection) +
             [CallDocOf(old(values), ParseOutcome(old(values).outcome).value, user.value, now)]
        && values == DefaultForm
      ensures !r.Saved? ==> agentsCollection == old(agentsCollection) && values == old(values)
    {
      var issues := CallFormIssues(values);
      if issues != {} {
        return Invalid(issues);
      }
      if user.None? {
        return NotLoggedIn;
      }
      isLoading := true;
      if writeOk {
        var o := ParseOutcome(values.outcome).value;
        agentsCollection := agentsCollection + [CallDocOf(values, o, user.value, now)];
        values := DefaultForm;
        r := Saved;
      } else {
        r := SaveFailed;
      }
      isLoading := false;
    }
  }

  /** A save appends exactly one record; every other submission leaves the collection alone. */
  method SubmitCountsRecords(form: CallEntryFormState, user: Option<User>, writeOk: bool, now: nat)
    returns (r: SubmitResult)
    requires !form.isLoading
    modifies form
    ensures |form.agentsCollection| == |old(form.agentsCollection)| + (if r.Saved? then 1 else 0)
    ensures r.Saved? <==> CallFormIssues(old(form.values)) == {} && user.Some? && writeOk
  {
    r := form.Submit(user, writeOk, now);
  }
}
