/**
 * The leave application form: its client-side gate on empty fields, the
 * request body it posts to create-leave, and how it updates its own state
 * from the outcome.
 */
module LeaveFormView {
  import opened Wrappers
  import opened Calendar
  import opened Records
  import opened LeaveService

  const ALL_FIELDS_REQUIRED: string := "All fields are required"
  const SUBMITTED: string := "Leave application submitted successfully!"
  const APPLY_FAILED: string := "Failed to apply leave"

  /**
   * The client gate: none of the four editable fields is empty. It lets a
   * body through exactly when create-leave's field check would accept it
   * for any signed-in e-mail.
   */
  predicate FormComplete(startDate: string, endDate: string, reason: string, approverEmail: string): (complete: bool)
    ensures complete <==> forall e :: e != "" ==> HasRequiredFields(RequestBody(e, approverEmail, startDate, endDate, reason))
  {
    assert !HasRequiredFields(RequestBody("@", approverEmail, startDate, endDate, reason)) ==>
           !(forall e :: e != "" ==> HasRequiredFields(RequestBody(e, approverEmail, startDate, endDate, reason)));
    startDate != "" && endDate != "" && reason != "" && approverEmail != ""
  }

  /** The JSON object the form posts; the employee is always the signed-in user. */
  function RequestBody(userEmail: string, approverEmail: string, startDate: string, endDate: string, reason: string)
    : (body: map<string, string>)
    ensures body.Keys == {"employee_email", "approver_email", "start_date", "end_date", "reason"}
    ensures body["employee_email"] == userEmail && body["approver_email"] == approverEmail
    ensures body["start_date"] == startDate && body["end_date"] == endDate && body["reason"] == reason
  {
    map["employee_email" := userEmail, "approver_email" := approverEmail,
        "start_date" := startDate, "end_date" := endDate, "reason" := reason]
  }

  /** The event create-leave receives for a posted body. */
  function Posted(body: map<string, string>): CreateEvent
  {
    CreateEvent("POST", Some(Object(body)))
  }

  /**
   * The form's gate and the service's field check agree: a body the form
   * lets through passes the service's check exactly when the signed-in
   * e-mail is not empty.
   */
  lemma GateMatchesServiceCheck(userEmail: string, approverEmail: string, startDate: string, endDate: string, reason: string)
    requires FormComplete(startDate, endDate, reason, approverEmail)
    ensures HasRequiredFields(RequestBody(userEmail, approverEmail, startDate, endDate, reason)) <==> userEmail != ""
    ensures userEmail == "" ==>
              ParseApplication(Posted(RequestBody(userEmail, approverEmail, startDate, endDate, reason)))
              == Err(Response(400, Error("Missing required fields")))
  {
  }

  /**
   * Dates picked in the browser's date inputs arrive as `YYYY-MM-DD`; for
   * those the service admits the request and counts the days inclusively.
   */
  lemma PickedDatesAdmitted(userEmail: string, approverEmail: string, start: Date, end: Date, reason: string)
    requires userEmail != "" && approverEmail != "" && reason != ""
    requires IsDay(start) && start.year <= 9999 && IsDay(end) && end.year <= 9999
    ensures var r := ParseApplication(Posted(RequestBody(userEmail, approverEmail, Iso(start), Iso(end), reason)));
            r.Ok? && r.value.employeeEmail == userEmail && r.value.days == DayCount(start, end)
  {
    ParseIso(start);
    ParseIso(end);
  }

  /** The error text shown for a refused post: the server's `error` if it sent a non-empty one. */
  function FailureMessage(serverError: Option<string>): (m: string)
    ensures serverError.Some? && serverError.value != "" ==> m == serverError.value
    ensures serverError.None? || serverError.value == "" ==> m == APPLY_FAILED
    ensures m != ""
  {
    if serverError.Some? && serverError.value != "" then serverError.value else APPLY_FAILED
  }

  /** How the post ended: accepted, or refused with the `error` field of the response body if there was one. */
  datatype PostOutcome = Accepted | Refused(serverError: Option<string>)

  class LeaveForm {
    const userEmail: string
    var startDate: string
    var endDate: string
    var reason: string
    var approverEmail: string
    var loading: bool
    var error: string
    var success: string

    constructor (userEmail: string)
      ensures this.userEmail == userEmail
      ensures startDate == "" && endDate == "" && reason == "" && approverEmail == ""
      ensures !loading && error == "" && success == ""
    {
      this.userEmail := userEmail;
      startDate := "";
      endDate := "";
      reason := "";
      approverEmail := "";
      loading := false;
      error := "";
      success := "";
    }

    /**
     * `handleSubmit`. Returns the body it posts, None when the gate stops it.
     * `outcome` is what the post came back with.
     */
    method HandleSubmit(outcome: PostOutcome) returns (sent: Option<map<string, string>>)
      modifies this
      ensures !old(FormComplete(startDate, endDate, reason, approverEmail)) ==>
                && sent == None && error == ALL_FIELDS_REQUIRED
                && success == old(success) && loading == old(loading)
                && startDate == old(startDate) && endDate == old(endDate)
                && reason == old(reason) && approverEmail == old(approverEmail)
      ensures old(FormComplete(startDate, endDate, reason, approverEmail)) ==>
                && sent == Some(RequestBody(userEmail, old(approverEmail), old(startDate), old(endDate), old(reason)))
                && !loading
      ensures old(FormComplete(startDate, endDate, reason, approverEmail)) && outcome.Accepted? ==>
                && success == SUBMITTED && error == ""
                && startDate == "" && endDate == "" && reason == "" && approverEmail == ""
      ensures old(FormComplete(startDate, endDate, reason, approverEmail)) && outcome.Refused? ==>
                && error == FailureMessage(outcome.serverError) && success == ""
                && startDate == old(startDate) && endDate == old(endDate)
                && reason == old(reason) && approverEmail == old(approverEmail)
    {
      if !FormComplete(startDate, endDate, reason, approverEmail) {
        error := ALL_FIELDS_REQUIRED;
        return None;
      }
      loading := true;
      error := "";
      success := "";
      sent := Some(RequestBody(userEmail, approverEmail, startDate, endDate, reason));
      match outcome {
        case Accepted =>
          success := SUBMITTED;
          startDate := "";
          endDate := "";
          reason := "";
          approverEmail := "";
        case Refused(serverError) =>
          error := FailureMessage(serverError);
      }
      loading := false;
    }
  }
}
