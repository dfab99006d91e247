/**
 * The records the leave service stores and the HTTP-like values its
 * handlers take and return.
 */
module Records {
  import opened Wrappers

  /** The three status values the handlers write. */
  const PENDING: string := "pending"
  const APPROVED: string := "approved"
  const REJECTED: string := "rejected"

  /**
   * One item of the leave table, stored under `leaveId`. Dates are kept as the
   * text the client sent. `days` is optional because a handler reading an
   * item cannot rely on the attribute being there.
   */
  datatype Leave = Leave(
    leaveId: string,
    employeeEmail: string,
    approverEmail: string,
    startDate: string,
    endDate: string,
    reason: string,
    status: string,
    createdAt: string,
    days: Option<int>)

  /**
   * A request body as `json.loads` leaves it: text that is not JSON, JSON that
   * is not an object, or an object. Field values are modelled as strings; a
   * JSON `null` is modelled as an absent key.
   */
  datatype Json = Unparseable | NotAnObject | Object(fields: map<string, string>)

  /** `fields.get(key)` is truthy: the key is there and its text is not empty. */
  predicate Present(fields: map<string, string>, key: string)
  {
    key in fields && fields[key] != ""
  }

  /** What a handler puts in the JSON body of its response. */
  datatype Payload =
    | NoContent                                        // the empty body of a 204
    | Error(error: string)                             // {"error": <fixed text>}
    | Fault                                            // {"error": str(e)} for a caught exception
    | Insufficient(available: int, required: int, withUnit: bool)
                                // the insufficient-balance error; `withUnit` when its text puts "days" after both numbers
    | Applied(leaveId: string, days: int, emailErrors: seq<string>)
    | BalanceOf(balance: int)
    | Items(items: map<string, Leave>)                 // a scan result, keyed by leave_id
    | Message(message: string)

  datatype Response = Response(statusCode: int, payload: Payload)
}
