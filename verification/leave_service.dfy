/**
 * The two handlers that write: create-leave (a new `pending` leave after a
 * balance check) and approve-reject (overwrite a leave's status and, on
 * approval, deduct its days from a balance). The two tables are the maps of
 * a `LeaveStore`; every call to the outside world (store failures, the id
 * generator, the clock, e-mail delivery) arrives as an input.
 */
module LeaveService {
  import opened Wrappers
  import opened Calendar
  import opened Records

  /** The balance of an employee who has no balance item yet. */
  const DEFAULT_BALANCE: int := 20

  // ---- create-leave: reading the request ----

  /**
   * The parts of a create-leave event the handler reads: the HTTP method
   * (`requestContext.http.method`, "" when absent) and the body, None when the
   * event has no body key.
   */
  datatype CreateEvent = CreateEvent(httpMethod: string, body: Option<Json>)

  /** A request that passed validation, with its inclusive day count. */
  datatype Application = Application(
    employeeEmail: string,
    approverEmail: string,
    startDate: string,
    endDate: string,
    reason: string,
    days: int)

  /** The body as parsed; a missing body is read as `{}`. */
  function BodyOf(event: CreateEvent): Json
  {
    event.body.GetOr(Object(map[]))
  }

  predicate HasRequiredFields(f: map<string, string>)
  {
    && Present(f, "employee_email")
    && Present(f, "approver_email")
    && Present(f, "start_date")
    && Present(f, "end_date")
    && Present(f, "reason")
  }

  predicate DatesParse(f: map<string, string>)
    requires HasRequiredFields(f)
  {
    ParseDate(f["start_date"]).Some? && ParseDate(f["end_date"]).Some?
  }

  /** `app` carries the five fields of `f` and the inclusive day count of its two dates. */
  predicate IsApplicationOf(app: Application, f: map<string, string>)
  {
    && HasRequiredFields(f)
    && DatesParse(f)
    && app.employeeEmail == f["employee_email"]
    && app.approverEmail == f["approver_email"]
    && app.startDate == f["start_date"]
    && app.endDate == f["end_date"]
    && app.reason == f["reason"]
    && app.days == DayCount(ParseDate(f["start_date"]).value, ParseDate(f["end_date"]).value)
  }

  /**
   * Everything create-leave does before it reads a table: the OPTIONS
   * short-circuit, JSON parsing, the required-field check and the day count.
   * A start date after the end date is not refused.
   */
  function ParseApplication(event: CreateEvent): (r: Result<Application, Response>)
    ensures event.httpMethod == "OPTIONS" ==> r == Err(Response(204, NoContent))
    ensures event.httpMethod != "OPTIONS" && BodyOf(event).Unparseable? ==>
              r == Err(Response(400, Error("Invalid JSON in request body")))
    ensures event.httpMethod != "OPTIONS" && BodyOf(event).Object? && !HasRequiredFields(BodyOf(event).fields) ==>
              r == Err(Response(400, Error("Missing required fields")))
    ensures r.Err? && r.error.statusCode == 500 <==>
              && event.httpMethod != "OPTIONS"
              && (|| BodyOf(event).NotAnObject?
                  || (BodyOf(event).Object? && HasRequiredFields(BodyOf(event).fields) && !DatesParse(BodyOf(event).fields)))
    ensures r.Err? && r.error.statusCode == 500 ==> r.error.payload == Fault
    ensures r.Ok? <==>
              && event.httpMethod != "OPTIONS"
              && BodyOf(event).Object? && HasRequiredFields(BodyOf(event).fields) && DatesParse(BodyOf(event).fields)
    ensures r.Ok? ==> IsApplicationOf(r.value, BodyOf(event).fields)
  {
    if event.httpMethod == "OPTIONS" then Err(Response(204, NoContent))
    else
      match BodyOf(event)
      case Unparseable => Err(Response(400, Error("Invalid JSON in request body")))
      case NotAnObject => Err(Response(500, Fault))
      case Object(f) =>
        if !HasRequiredFields(f) then Err(Response(400, Error("Missing required fields")))
        else
          match (ParseDate(f["start_date"]), ParseDate(f["end_date"]))
          case (Some(start), Some(end)) =>
            Ok(Application(f["employee_email"], f["approver_email"], f["start_date"], f["end_date"], f["reason"],
                           DayCount(start, end)))
          case _ => Err(Response(500, Fault))
  }

  // ---- create-leave: the balance check ----

  /**
   * The balance a request is checked against: the item's `balance` (0 when the
   * item lacks that attribute), or 20 when the employee has no item.
   */
  function AvailableBalance(balances: map<string, Option<int>>, email: string): (b: int)
    ensures email !in balances ==> b == DEFAULT_BALANCE
    ensures email in balances && balances[email].None? ==> b == 0
    ensures email in balances && balances[email].Some? ==> b == balances[email].value
  {
    if email in balances then balances[email].GetOr(0) else DEFAULT_BALANCE
  }

  /** The balance table once the check has initialised a missing item with 20 days. */
  function WithBalanceItem(balances: map<string, Option<int>>, email: string): (r: map<string, Option<int>>)
    ensures r.Keys == balances.Keys + {email}
    ensures forall k :: k in balances ==> r[k] == balances[k]
    ensures email !in balances ==> r[email] == Some(DEFAULT_BALANCE)
  {
    if email in balances then balances else balances[email := Some(DEFAULT_BALANCE)]
  }

  /** The check's store calls succeed: the read, and the initialising write when it is needed. */
  predicate BalanceCallsSucceed(balances: map<string, Option<int>>, email: string, env: CreateEnv)
  {
    !env.balanceReadFails && (email in balances || !env.balanceWriteFails)
  }

  // ---- create-leave: the outside world ----

  /** What the outside world contributes to one create-leave call. */
  datatype CreateEnv = CreateEnv(
    freshId: string,                      // uuid.uuid4()
    now: string,                          // datetime.now().isoformat()
    balanceReadFails: bool,               // the balance get_item raises
    balanceWriteFails: bool,              // the initialising balance put_item raises
    leaveWriteFails: bool,                // the leave put_item raises
    confirmationError: Option<string>,    // why the employee's confirmation mail failed, if it did
    notificationError: Option<string>)    // why the approver's notification mail failed, if it did

  /** The `email_errors` list: one labelled entry per failed mail, employee's first. */
  function EmailErrors(confirmation: Option<string>, notification: Option<string>): (r: seq<string>)
    ensures |r| == (if confirmation.Some? then 1 else 0) + (if notification.Some? then 1 else 0)
    ensures confirmation.Some? ==> r[0] == "confirmation_email: " + confirmation.value
    ensures notification.Some? ==> r[|r| - 1] == "notification_email: " + notification.value
  {
    (if confirmation.Some? then ["confirmation_email: " + confirmation.value] else [])
    + (if notification.Some? then ["notification_email: " + notification.value] else [])
  }

  /** The item create-leave writes for an admitted application. */
  function NewLeave(app: Application, env: CreateEnv): (l: Leave)
    ensures l.leaveId == env.freshId && l.status == PENDING && l.createdAt == env.now
    ensures l.employeeEmail == app.employeeEmail && l.approverEmail == app.approverEmail
    ensures l.startDate == app.startDate && l.endDate == app.endDate && l.reason == app.reason
    ensures l.days == Some(app.days)
  {
    Leave(env.freshId, app.employeeEmail, app.approverEmail, app.startDate, app.endDate, app.reason,
          PENDING, env.now, Some(app.days))
  }

  // ---- approve-reject ----

  /**
   * The parts of an approve-reject event the handler reads: the body (None
   * when it is absent or empty) and the query string parameters.
   */
  datatype DecideEvent = DecideEvent(body: Option<Json>, query: Option<map<string, string>>)

  datatype Decision = Decision(leaveId: string, action: string, employeeEmail: string)

  /** What the outside world contributes to one approve-reject call. */
  datatype DecideEnv = DecideEnv(
    leaveReadFails: bool,      // the leave get_item raises
    statusWriteFails: bool,    // the status update_item raises
    deductionFails: bool)      // the balance update_item raises (swallowed)

  /**
   * Where the parameters are read: the body when there is one, otherwise the
   * query string. A body that is not a JSON object makes the handler raise;
   * `ParseDecision` answers 500 for it before these parameters are used, and
   * the empty map here stands for no value.
   */
  function Params(event: DecideEvent): (p: map<string, string>)
    ensures event.body.Some? && event.body.value.Object? ==> p == event.body.value.fields
    ensures event.body.Some? && !event.body.value.Object? ==> p == map[]
    ensures event.body.None? && event.query.Some? ==> p == event.query.value
    ensures event.body.None? && event.query.None? ==> p == map[]
  {
    match event.body
    case Some(Object(f)) => f
    case Some(_) => map[]
    case None => event.query.GetOr(map[])
  }

  /**
   * approve-reject up to its first table access: parameter source selection
   * and the missing-parameter check. A body that is not a JSON object raises
   * inside the handler's outer try.
   */
  function ParseDecision(event: DecideEvent): (r: Result<Decision, Response>)
    ensures event.body.Some? && !event.body.value.Object? ==> r == Err(Response(500, Fault))
    ensures (event.body.None? || event.body.value.Object?) ==>
              (r.Ok? <==> Present(Params(event), "leave_id") && Present(Params(event), "action")
                          && Present(Params(event), "employee_email"))
    ensures r.Err? && (event.body.None? || event.body.value.Object?) ==> r.error == Response(400, Error("Missing parameters"))
    ensures r.Ok? ==> r.value.leaveId == Params(event)["leave_id"] && r.value.action == Params(event)["action"]
                      && r.value.employeeEmail == Params(event)["employee_email"]
    ensures r.Ok? && event.body.Some? ==> r.value.leaveId == event.body.value.fields["leave_id"]
    ensures r.Ok? && event.body.None? ==> event.query.Some? && r.value.leaveId == event.query.value["leave_id"]
  {
    if event.body.Some? && !event.body.value.Object? then Err(Response(500, Fault))
    else
      var p := Params(event);
      if Present(p, "leave_id") && Present(p, "action") && Present(p, "employee_email")
      then Ok(Decision(p["leave_id"], p["action"], p["employee_email"]))
      else Err(Response(400, Error("Missing parameters")))
  }

  /** The status a decision writes: `approved` exactly for the action "approve", `rejected` for any other. */
  function NewStatus(action: string): (s: string)
    ensures s == APPROVED <==> action == "approve"
    ensures s == REJECTED <==> action != "approve"
  {
    if action == "approve" then APPROVED else REJECTED
  }

  /**
   * `SET balance = balance - :days` on the item of `email`. The expression
   * needs the item and its `balance` attribute; without them the update is
   * refused and the table stays as it was. Only that one item changes.
   */
  function Deducted(balances: map<string, Option<int>>, email: string, days: int): (r: map<string, Option<int>>)
    ensures r.Keys == balances.Keys
    ensures forall k :: k in balances && k != email ==> r[k] == balances[k]
    ensures email in balances && balances[email].Some? ==> r[email] == Some(balances[email].value - days)
    ensures email !in balances || balances[email].None? ==> r == balances
  {
    if email in balances && balances[email].Some? then balances[email := Some(balances[email].value - days)]
    else balances
  }

  // ---- the store ----

  /** A stored leave sits under its own id, names an employee, has one of the three statuses, and its `days` is the inclusive span of its dates. */
  predicate WellFormed(id: string, l: Leave)
  {
    && l.leaveId == id
    && l.employeeEmail != ""
    && (l.status == PENDING || l.status == APPROVED || l.status == REJECTED)
    && ParseDate(l.startDate).Some? && ParseDate(l.endDate).Some?
    && l.days == Some(DayCount(ParseDate(l.startDate).value, ParseDate(l.endDate).value))
  }

  /** Overwriting a stored leave's status with one of the three statuses keeps every leave well formed. */
  lemma StatusChangeKeepsWellFormed(leaves: map<string, Leave>, id: string, status: string, updated: map<string, Leave>)
    requires forall k :: k in leaves ==> WellFormed(k, leaves[k])
    requires id in leaves && (status == APPROVED || status == REJECTED)
    requires updated == leaves[id := leaves[id].(status := status)]
    ensures forall k :: k in updated ==> WellFormed(k, updated[k])
  {
    assert WellFormed(id, leaves[id]);
  }

  /**
   * The leave table, keyed by `leave_id`, and the balance table, keyed by
   * `employee_email`; a balance item without its `balance` attribute holds None.
   */
  class LeaveStore {
    var leaves: map<string, Leave>
    var balances: map<string, Option<int>>

    predicate Valid()
      reads this
    {
      forall id :: id in leaves ==> WellFormed(id, leaves[id])
    }

    constructor ()
      ensures Valid() && leaves == map[] && balances == map[]
    {
      leaves := map[];
      balances := map[];
    }

    /**
     * The create-leave handler. Refusals before the balance read leave both
     * tables alone. An employee without a balance item gets one holding 20
     * days, and it stays even when the request is then refused. An admitted
     * request adds one `pending` leave under the fresh id and leaves the
     * balance value as it was. Failed mails only add to `email_errors`.
     */
    method Create(event: CreateEvent, env: CreateEnv) returns (resp: Response)
      requires Valid()
      modifies this
      ensures Valid()
      ensures ParseApplication(event).Err? ==>
                resp == ParseApplication(event).error && leaves == old(leaves) && balances == old(balances)
      ensures ParseApplication(event).Ok? && !BalanceCallsSucceed(old(balances), ParseApplication(event).value.employeeEmail, env) ==>
                resp == Response(500, Fault) && leaves == old(leaves) && balances == old(balances)
      ensures ParseApplication(event).Ok? && BalanceCallsSucceed(old(balances), ParseApplication(event).value.employeeEmail, env) ==>
                balances == WithBalanceItem(old(balances), ParseApplication(event).value.employeeEmail)
      ensures ParseApplication(event).Ok? && BalanceCallsSucceed(old(balances), ParseApplication(event).value.employeeEmail, env) ==>
                var app := ParseApplication(event).value;
                var available := AvailableBalance(old(balances), app.employeeEmail);
                && (available < app.days ==>
                      resp == Response(400, Insufficient(available, app.days, app.employeeEmail !in old(balances)))
                      && leaves == old(leaves))
                && (available >= app.days && env.leaveWriteFails ==>
                      resp == Response(500, Fault) && leaves == old(leaves))
                && (available >= app.days && !env.leaveWriteFails ==>
                      && leaves == old(leaves)[env.freshId := NewLeave(app, env)]
                      && resp == Response(200, Applied(env.freshId, app.days,
                                                       EmailErrors(env.confirmationError, env.notificationError))))
    {
      var parsed := ParseApplication(event);
      if parsed.Err? {
        return parsed.error;
      }
      var app := parsed.value;
      if env.balanceReadFails {
        return Response(500, Fault);
      }
      var available: int;
      if app.employeeEmail in balances {
        available := balances[app.employeeEmail].GetOr(0);
        assert available == AvailableBalance(old(balances), app.employeeEmail);
        if available < app.days {
          return Response(400, Insufficient(available, app.days, false));
        }
      } else {
        if env.balanceWriteFails {
          return Response(500, Fault);
        }
        balances := balances[app.employeeEmail := Some(DEFAULT_BALANCE)];
        available := DEFAULT_BALANCE;
        assert available == AvailableBalance(old(balances), app.employeeEmail);
        assert balances == WithBalanceItem(old(balances), app.employeeEmail);
        if available < app.days {
          return Response(400, Insufficient(available, app.days, true));
        }
      }
      if env.leaveWriteFails {
        return Response(500, Fault);
      }
      leaves := leaves[env.freshId := NewLeave(app, env)];
      var emailErrors: seq<string> := [];
      if env.confirmationError.Some? {
        emailErrors := emailErrors + ["confirmation_email: " + env.confirmationError.value];
      }
      if env.notificationError.Some? {
        emailErrors := emailErrors + ["notification_email: " + env.notificationError.value];
      }
      assert emailErrors == EmailErrors(env.confirmationError, env.notificationError);
      resp := Response(200, Applied(env.freshId, app.days, emailErrors));
    }

    /**
     * The approve-reject handler. The status is overwritten whatever it was;
     * nothing else in the leave changes and no other leave changes. On
     * approval the balance of the employee named in the REQUEST loses the
     * leave's `days` (0 when absent); a failed deduction is swallowed.
     */
    method Decide(event: DecideEvent, env: DecideEnv) returns (resp: Response)
      requires Valid()
      modifies this
      ensures Valid()
      ensures ParseDecision(event).Err? ==>
                resp == ParseDecision(event).error && leaves == old(leaves) && balances == old(balances)
      ensures ParseDecision(event).Ok? && env.leaveReadFails ==>
                resp == Response(500, Fault) && leaves == old(leaves) && balances == old(balances)
      ensures ParseDecision(event).Ok? && !env.leaveReadFails && ParseDecision(event).value.leaveId !in old(leaves) ==>
                resp == Response(404, Error("Leave not found")) && leaves == old(leaves) && balances == old(balances)
      ensures ParseDecision(event).Ok? && !env.leaveReadFails && ParseDecision(event).value.leaveId in old(leaves) ==>
                var d := ParseDecision(event).value;
                var item := old(leaves)[d.leaveId];
                && (env.statusWriteFails ==>
                      resp == Response(500, Fault) && leaves == old(leaves) && balances == old(balances))
                && (!env.statusWriteFails ==>
                      && leaves == old(leaves)[d.leaveId := item.(status := NewStatus(d.action))]
                      && balances == (if d.action == "approve" && !env.deductionFails
                                      then Deducted(old(balances), d.employeeEmail, item.days.GetOr(0))
                                      else old(balances))
                      && resp == Response(200, Message("Leave " + NewStatus(d.action))))
    {
      var parsed := ParseDecision(event);
      if parsed.Err? {
        return parsed.error;
      }
      var d := parsed.value;
      assert ParseDecision(event) == Ok(d);
      var status := NewStatus(d.action);
      if env.leaveReadFails {
        return Response(500, Fault);
      }
      if d.leaveId !in leaves {
        return Response(404, Error("Leave not found"));
      }
      var days := leaves[d.leaveId].days.GetOr(0);
      if env.statusWriteFails {
        return Response(500, Fault);
      }
      var item := leaves[d.leaveId];
      assert item == old(leaves)[d.leaveId] && days == item.days.GetOr(0);
      leaves := leaves[d.leaveId := item.(status := status)];
      StatusChangeKeepsWellFormed(old(leaves), d.leaveId, status, leaves);
      if d.action == "approve" && !env.deductionFails {
        balances := Deducted(balances, d.employeeEmail, days);
      }
      resp := Response(200, Message("Leave " + status));
    }
  }

  /** The leave request of the worked example below: three days, 10 to 12 January 2024. */
  function ExampleRequest(): map<string, string>
  {
    map["employee_email" := "alice@co.com", "approver_email" := "bob@co.com",
        "start_date" := "2024-01-10", "end_date" := "2024-01-12", "reason" := "vacation"]
  }

  lemma ExampleRequestAdmitted()
    ensures ParseApplication(CreateEvent("POST", Some(Object(ExampleRequest())))) ==
            Ok(Application("alice@co.com", "bob@co.com", "2024-01-10", "2024-01-12", "vacation", 3))
  {
    var f := ExampleRequest();
    assert HasRequiredFields(f);
    assert f["start_date"] == "2024-01-10" && f["end_date"] == "2024-01-12";
    assert f["employee_email"] == "alice@co.com" && f["approver_email"] == "bob@co.com" && f["reason"] == "vacation";
    assert BodyOf(CreateEvent("POST", Some(Object(f)))) == Object(f);
    ExampleDatesRead();
  }

  /** The example's two dates read as 10 and 12 January 2024, three days inclusive. */
  lemma ExampleDatesRead()
    ensures ParseDate("2024-01-10") == Some(Date(2024, 1, 10))
    ensures ParseDate("2024-01-12") == Some(Date(2024, 1, 12))
    ensures DayCount(Date(2024, 1, 10), Date(2024, 1, 12)) == 3
  {
  }

  /** The approval link of the worked example below, as its query string. */
  function ExampleLink(): DecideEvent
  {
    DecideEvent(None, Some(map["leave_id" := "leave-1", "action" := "approve", "employee_email" := "alice@co.com"]))
  }

  lemma ExampleLinkParsed()
    ensures ParseDecision(ExampleLink()) == Ok(Decision("leave-1", "approve", "alice@co.com"))
  {
    var q := map["leave_id" := "leave-1", "action" := "approve", "employee_email" := "alice@co.com"];
    assert Params(ExampleLink()) == q;
    assert Present(q, "leave_id") && Present(q, "action") && Present(q, "employee_email");
  }

  /**
   * The approval link followed twice for a three-day leave of an employee
   * without a balance item: both calls answer 200, the leave ends `approved`,
   * and the balance loses the three days twice.
   */
  method ApprovalLinkFollowedTwice() returns (first: Response, second: Response, status: string, balance: Option<int>)
    ensures first == Response(200, Message("Leave " + APPROVED)) && second == first
    ensures status == APPROVED
    ensures balance == Some(DEFAULT_BALANCE - 3 - 3)
  {
    var store := new LeaveStore();
    ExampleRequestAdmitted();
    var created := store.Create(CreateEvent("POST", Some(Object(ExampleRequest()))),
                                CreateEnv("leave-1", "2024-01-01T09:00:00", false, false, false, None, None));
    assert "leave-1" in store.leaves && store.leaves["leave-1"].days == Some(3);
    assert store.balances["alice@co.com"] == Some(DEFAULT_BALANCE);
    var link := ExampleLink();
    ExampleLinkParsed();
    var noFailures := DecideEnv(false, false, false);
    first := store.Decide(link, noFailures);
    assert store.leaves["leave-1"].days == Some(3);
    assert store.balances["alice@co.com"] == Some(DEFAULT_BALANCE - 3);
    second := store.Decide(link, noFailures);
    status := store.leaves["leave-1"].status;
    balance := store.balances["alice@co.com"];
  }
}
