/**
 * The employee dashboard: it loads the user's leaves, then their balance,
 * and falls back to 20 days whenever the balance is unknown or zero.
 */
module DashboardView {
  import opened Wrappers
  import opened Records
  import opened LeaveQueries

  const FALLBACK_BALANCE: int := 20
  const FETCH_FAILED: string := "Failed to fetch data"

  /** `data.balance || 20`: a reported balance is shown unless it is absent or 0. */
  function ShownBalance(reported: Option<int>): (b: int)
    ensures reported.Some? && reported.value != 0 ==> b == reported.value
    ensures reported.None? || reported.value == 0 ==> b == FALLBACK_BALANCE
  {
    if reported.Some? && reported.value != 0 then reported.value else FALLBACK_BALANCE
  }

  /** `leave.days || '-'`: the days cell, None standing for the dash. */
  function DaysCell(days: Option<int>): (cell: Option<int>)
    ensures cell.None? <==> days.None? || days.value == 0
    ensures cell.Some? ==> cell == days
  {
    if days.Some? && days.value != 0 then days else None
  }

  /**
   * What an employee sees after get-balance answers: the stored balance when
   * it is there and not 0, and 20 otherwise. An employee whose balance has
   * been used up exactly is therefore shown 20 days.
   */
  lemma ShownBalanceOfStore(balances: map<string, Option<int>>, email: string)
    requires email != ""
    ensures var r := GetBalance(balances, Some(map["email" := email]), false);
            && r.payload.BalanceOf?
            && ShownBalance(Some(r.payload.balance))
               == if email in balances && balances[email].Some? && balances[email].value != 0
                  then balances[email].value else FALLBACK_BALANCE
  {
    assert EmailParam(Some(map["email" := email])) == Some(email);
  }

  /** The balance request's outcome: failed, or the `balance` field of the response body if it had one. */
  datatype BalanceReply = BalanceFailed | BalanceData(balance: Option<int>)

  class Dashboard {
    const userEmail: string
    var leaves: seq<Leave>
    var balance: int
    var loading: bool
    var error: string

    constructor (userEmail: string)
      ensures this.userEmail == userEmail
      ensures leaves == [] && balance == 0 && loading && error == ""
    {
      this.userEmail := userEmail;
      leaves := [];
      balance := 0;
      loading := true;
      error := "";
    }

    /**
     * `fetchLeavesAndBalance`. `leavesReply` is the leaves response, None when
     * it fails; the balance is requested only after the leaves arrived, and the
     * method returns whether it was. Loading is over in every outcome.
     */
    method FetchLeavesAndBalance(leavesReply: Option<seq<Leave>>, balanceReply: BalanceReply)
      returns (balanceRequested: bool)
      modifies this
      ensures !loading
      ensures balanceRequested <==> leavesReply.Some?
      ensures leavesReply.None? ==> error == FETCH_FAILED && leaves == old(leaves) && balance == old(balance)
      ensures leavesReply.Some? ==> error == "" && leaves == leavesReply.value
      ensures leavesReply.Some? && balanceReply.BalanceFailed? ==> balance == FALLBACK_BALANCE
      ensures leavesReply.Some? && balanceReply.BalanceData? ==> balance == ShownBalance(balanceReply.balance)
    {
      loading := true;
      error := "";
      balanceRequested := false;
      if leavesReply.None? {
        error := FETCH_FAILED;
      } else {
        leaves := leavesReply.value;
        balanceRequested := true;
        match balanceReply {
          case BalanceFailed =>
            balance := FALLBACK_BALANCE;
          case BalanceData(reported) =>
            balance := ShownBalance(reported);
        }
      }
      loading := false;
    }
  }

  /**
   * What the HTTP client hands the dashboard for a get-balance response: a
   * thrown error for a status outside 2xx, otherwise the body's `balance`.
   */
  function BalanceReplyOf(r: Response): (reply: BalanceReply)
    ensures reply.BalanceFailed? <==> !(200 <= r.statusCode < 300)
    ensures reply.BalanceData? && r.payload.BalanceOf? ==> reply.balance == Some(r.payload.balance)
  {
    if !(200 <= r.statusCode < 300) then BalanceFailed
    else if r.payload.BalanceOf? then BalanceData(Some(r.payload.balance))
    else BalanceData(None)
  }

  /**
   * A dashboard loading against get-balance as written, for an employee
   * whose item stores a balance: the leaves arrive, the balance request
   * fails, and the dashboard shows the 20-day fallback whatever is stored.
   */
  method StoredBalanceHiddenAsWritten(balances: map<string, Option<int>>, email: string, mine: seq<Leave>)
    returns (shown: int, shownError: string)
    requires email != "" && email in balances && balances[email].Some?
    ensures shown == FALLBACK_BALANCE && shownError == ""
  {
    var dashboard := new Dashboard(email);
    assert EmailParam(Some(map["email" := email])) == Some(email);
    var reply := BalanceReplyOf(GetBalanceAsWritten(balances, Some(map["email" := email]), false));
    var requested := dashboard.FetchLeavesAndBalance(Some(mine), reply);
    shown, shownError := dashboard.balance, dashboard.error;
  }

  /**
   * The same load against the intended get-balance shows the stored balance
   * unless it is 0.
   */
  method StoredBalanceShownAsIntended(balances: map<string, Option<int>>, email: string, mine: seq<Leave>)
    returns (shown: int)
    requires email != "" && email in balances && balances[email].Some?
    ensures shown == ShownBalance(balances[email])
    ensures balances[email].value != 0 ==> shown == balances[email].value
  {
    var dashboard := new Dashboard(email);
    assert EmailParam(Some(map["email" := email])) == Some(email);
    var reply := BalanceReplyOf(GetBalance(balances, Some(map["email" := email]), false));
    var requested := dashboard.FetchLeavesAndBalance(Some(mine), reply);
    shown := dashboard.balance;
  }
}
