/**
 * The three read-only handlers: get-balance, get-leaves (one employee's
 * leaves) and get-all-leaves. Each is a function of the table it reads, so
 * none of them can change either table. A scan is the whole table; its order
 * and pagination are not modelled, so a scan result is the map of the items
 * it returns, keyed by `leave_id`.
 */
module LeaveQueries {
  import opened Wrappers
  import opened Records
  import opened LeaveService

  /**
   * `queryStringParameters.get('email')`: None when the query string is
   * missing or empty, or the parameter is missing or empty.
   */
  function EmailParam(query: Option<map<string, string>>): (r: Option<string>)
    ensures r.Some? <==> query.Some? && Present(query.value, "email")
    ensures r.Some? ==> r.value == query.value["email"] && r.value != ""
  {
    if query.Some? && Present(query.value, "email") then Some(query.value["email"]) else None
  }

  /**
   * The get-balance handler. A missing item and an item without the `balance`
   * attribute both report 20; nothing is written for them.
   */
  function GetBalance(balances: map<string, Option<int>>, query: Option<map<string, string>>, readFails: bool): (r: Response)
    ensures EmailParam(query).None? ==> r == Response(400, Error("Email parameter required"))
    ensures EmailParam(query).Some? && readFails ==> r == Response(500, Fault)
    ensures EmailParam(query).Some? && !readFails ==>
              var email := EmailParam(query).value;
              && r.statusCode == 200 && r.payload.BalanceOf?
              && (email !in balances ==> r.payload.balance == DEFAULT_BALANCE)
              && (email in balances && balances[email].None? ==> r.payload.balance == DEFAULT_BALANCE)
              && (email in balances && balances[email].Some? ==> r.payload.balance == balances[email].value)
  {
    match EmailParam(query)
    case None => Response(400, Error("Email parameter required"))
    case Some(email) =>
      if readFails then Response(500, Fault)
      else if email in balances then Response(200, BalanceOf(balances[email].GetOr(DEFAULT_BALANCE)))
      else Response(200, BalanceOf(DEFAULT_BALANCE))
  }

  /**
   * get-balance as the handler is written. The store returns a stored number
   * as a decimal, and the response is encoded without the `default=str`
   * fallback the two list handlers use, so encoding a stored `balance` raises
   * and the inner handler answers 500. Only the literal 20 encodes.
   */
  function GetBalanceAsWritten(balances: map<string, Option<int>>, query: Option<map<string, string>>, readFails: bool)
    : (r: Response)
    ensures EmailParam(query).Some? && !readFails ==>
              var email := EmailParam(query).value;
              (r == Response(500, Fault) <==> email in balances && balances[email].Some?)
    ensures r.statusCode != 500 ==> r == GetBalance(balances, query, readFails)
    ensures var e := EmailParam(query);
            !(e.Some? && !readFails && e.value in balances && balances[e.value].Some?) ==>
              r == GetBalance(balances, query, readFails)
    ensures EmailParam(query).None? ==> r == Response(400, Error("Email parameter required"))
    ensures EmailParam(query).Some? && readFails ==> r == Response(500, Fault)
  {
    match EmailParam(query)
    case Some(email) =>
      if !readFails && email in balances && balances[email].Some? then Response(500, Fault)
      else GetBalance(balances, query, readFails)
    case None => GetBalance(balances, query, readFails)
  }

  /**
   * An employee with 17 stored days: the handler as written answers 500,
   * where the evidently intended handler reports the 17 days.
   */
  lemma StoredBalanceNotReported()
    ensures var balances := map["alice@co.com" := Some(17)];
            var query := Some(map["email" := "alice@co.com"]);
            && GetBalanceAsWritten(balances, query, false) == Response(500, Fault)
            && GetBalance(balances, query, false) == Response(200, BalanceOf(17))
  {
    assert EmailParam(Some(map["email" := "alice@co.com"])) == Some("alice@co.com");
  }

  /** `items` is the part of `leaves` whose `employee_email` is exactly `email` (case-sensitive). */
  predicate ExactlyTheLeavesOf(items: map<string, Leave>, leaves: map<string, Leave>, email: string)
  {
    && items.Keys <= leaves.Keys
    && (forall id :: id in items ==> items[id] == leaves[id] && items[id].employeeEmail == email)
    && (forall id :: id in leaves && leaves[id].employeeEmail == email ==> id in items)
  }

  /** The get-leaves handler: every stored leave of the queried employee and no other. */
  function ListMine(leaves: map<string, Leave>, query: Option<map<string, string>>, scanFails: bool): (r: Response)
    ensures EmailParam(query).None? ==> r == Response(400, Error("Email parameter required"))
    ensures EmailParam(query).Some? && scanFails ==> r == Response(500, Fault)
    ensures EmailParam(query).Some? && !scanFails ==>
              && r.statusCode == 200 && r.payload.Items?
              && ExactlyTheLeavesOf(r.payload.items, leaves, EmailParam(query).value)
    ensures r.statusCode == 200 && (forall id :: id in leaves ==> leaves[id].employeeEmail != EmailParam(query).value) ==>
              r.payload.items == map[]
  {
    match EmailParam(query)
    case None => Response(400, Error("Email parameter required"))
    case Some(email) =>
      if scanFails then Response(500, Fault)
      else Response(200, Items(map id | id in leaves && leaves[id].employeeEmail == email :: leaves[id]))
  }

  /** The get-all-leaves handler: the whole table. The event is not an input at all. */
  function ListAll(leaves: map<string, Leave>, scanFails: bool): (r: Response)
    ensures scanFails ==> r == Response(500, Fault)
    ensures !scanFails ==> r.statusCode == 200 && r.payload.Items? && r.payload.items.Keys == leaves.Keys
    ensures !scanFails ==> forall id :: id in leaves ==> r.payload.items[id] == leaves[id]
  {
    if scanFails then Response(500, Fault) else Response(200, Items(leaves))
  }

  /**
   * get-balance and create-leave's check agree on every employee except one
   * whose item lacks the `balance` attribute: get-balance reports 20 for that
   * employee while create-leave checks against 0.
   */
  lemma BalanceReadVersusCheck(balances: map<string, Option<int>>, email: string)
    requires email != ""
    ensures var r := GetBalance(balances, Some(map["email" := email]), false);
            && r.statusCode == 200
            && (email in balances && balances[email].None? ==> r.payload.balance == DEFAULT_BALANCE && AvailableBalance(balances, email) == 0)
            && (email !in balances || balances[email].Some? ==> r.payload.balance == AvailableBalance(balances, email))
  {
  }

  /**
   * Over a table the two writing handlers keep well formed, the whole table
   * is the union of the per-employee lists: every leave shows up in the list
   * of its own employee.
   */
  lemma ListAllCoveredByListMine(leaves: map<string, Leave>)
    requires forall id :: id in leaves ==> WellFormed(id, leaves[id])
    ensures forall id :: id in ListAll(leaves, false).payload.items ==>
              var mine := ListMine(leaves, Some(map["email" := leaves[id].employeeEmail]), false);
              mine.statusCode == 200 && id in mine.payload.items
  {
    forall id | id in ListAll(leaves, false).payload.items
      ensures var mine := ListMine(leaves, Some(map["email" := leaves[id].employeeEmail]), false);
              mine.statusCode == 200 && id in mine.payload.items
    {
      var email := leaves[id].employeeEmail;
      assert WellFormed(id, leaves[id]);
      assert EmailParam(Some(map["email" := email])) == Some(email);
    }
  }
}
