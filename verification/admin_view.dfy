/**
 * The administrator's table of all leaves: the status and e-mail filters,
 * the three status counts, the status colours, and the component state that
 * fetching and filtering update.
 */
module AdminView {
  import opened Wrappers
  import opened Records

  /** The status filter's value that turns it off. */
  const ALL: string := "all"

  // ---- sequences ----

  /** `a` is `b` with some elements left out, the rest in their order. */
  predicate SubsequenceOf<T(==,!new)>(a: seq<T>, b: seq<T>)
    decreases |b|
  {
    if b == [] then a == []
    else (a != [] && a[0] == b[0] && SubsequenceOf(a[1..], b[1..])) || SubsequenceOf(a, b[1..])
  }

  lemma {:induction false} SubsequenceTransitive<T(!new)>(a: seq<T>, b: seq<T>, c: seq<T>)
    requires SubsequenceOf(a, b) && SubsequenceOf(b, c)
    ensures SubsequenceOf(a, c)
    decreases |c|
  {
    if c == [] {
    } else if b != [] && b[0] == c[0] && SubsequenceOf(b[1..], c[1..]) {
      if a != [] && a[0] == b[0] && SubsequenceOf(a[1..], b[1..]) {
        SubsequenceTransitive(a[1..], b[1..], c[1..]);
      } else {
        assert b != [] && SubsequenceOf(a, b[1..]);
        SubsequenceTransitive(a, b[1..], c[1..]);
      }
    } else {
      SubsequenceTransitive(a, b, c[1..]);
    }
  }

  /**
   * `s.filter(keep)`: the elements of `s` that satisfy `keep`, in their order,
   * each as often as in `s`.
   */
  function Filter<T(==,!new)>(s: seq<T>, keep: T -> bool): (r: seq<T>)
    ensures |r| <= |s|
    ensures SubsequenceOf(r, s)
    ensures forall x :: multiset(r)[x] == if keep(x) then multiset(s)[x] else 0
  {
    if s == [] then []
    else
      assert s == [s[0]] + s[1..];
      if keep(s[0]) then [s[0]] + Filter(s[1..], keep) else Filter(s[1..], keep)
  }

  /** Two filters give the same list in either order. */
  lemma {:induction false} FiltersCommute<T(!new)>(s: seq<T>, p: T -> bool, q: T -> bool)
    ensures Filter(Filter(s, p), q) == Filter(Filter(s, q), p)
  {
    if s != [] {
      FiltersCommute(s[1..], p, q);
      var x, t := s[0], s[1..];
      assert ([x] + Filter(t, p))[1..] == Filter(t, p);
      assert ([x] + Filter(t, q))[1..] == Filter(t, q);
    }
  }

  // ---- the filters ----

  /** Lower-cases the ASCII capitals A to Z and keeps every other character as it is. */
  function LowerChar(c: char): char
  {
    if 'A' <= c <= 'Z' then (c as int - 'A' as int + 'a' as int) as char else c
  }

  /** `toLowerCase` with only the ASCII capitals mapped: one character out for each character in. */
  function ToLower(s: string): (r: string)
    ensures |r| == |s| && forall i :: 0 <= i < |s| ==> r[i] == LowerChar(s[i])
  {
    seq(|s|, i requires 0 <= i < |s| => LowerChar(s[i]))
  }

  /** `hay.includes(needle)`. */
  predicate Includes(hay: string, needle: string)
  {
    exists i :: 0 <= i <= |hay| - |needle| && OccursAt(hay, needle, i)
  }

  predicate OccursAt(hay: string, needle: string, i: int)
    requires 0 <= i <= |hay| - |needle|
  {
    hay[i..i + |needle|] == needle
  }

  /** The e-mail search: the lower-cased employee e-mail contains the lower-cased search text. */
  predicate MatchesSearch(l: Leave, search: string)
  {
    Includes(ToLower(l.employeeEmail), ToLower(search))
  }

  /** Whether `l` survives the two filters as `filterLeaves` applies them. */
  predicate Selected(l: Leave, filterStatus: string, search: string)
  {
    (filterStatus == ALL || l.status == filterStatus) && (search == "" || MatchesSearch(l, search))
  }

  /**
   * `filterLeaves`: the status filter unless it is "all", then the e-mail
   * search unless it is empty. The result is the selected leaves of `leaves`
   * in their order and with their multiplicities.
   */
  function FilterLeaves(leaves: seq<Leave>, filterStatus: string, search: string): (r: seq<Leave>)
    ensures filterStatus == ALL && search == "" ==> r == leaves
    ensures SubsequenceOf(r, leaves)
    ensures forall l :: multiset(r)[l] == if Selected(l, filterStatus, search) then multiset(leaves)[l] else 0
  {
    var byStatus := if filterStatus != ALL then Filter(leaves, (l: Leave) => l.status == filterStatus) else leaves;
    if search == "" then
      assert SubsequenceOf(leaves, leaves) by { SubsequenceReflexive(leaves); }
      byStatus
    else
      var r := Filter(byStatus, (l: Leave) => MatchesSearch(l, search));
      assert SubsequenceOf(r, leaves) by {
        if filterStatus != ALL {
          SubsequenceTransitive(r, byStatus, leaves);
        }
      }
      r
  }

  lemma {:induction false} SubsequenceReflexive<T(!new)>(s: seq<T>)
    ensures SubsequenceOf(s, s)
  {
    if s != [] {
      SubsequenceReflexive(s[1..]);
    }
  }

  /** Membership in both directions: a leave is shown iff it is in `leaves` and passes both filters. */
  lemma FilterLeavesMembership(leaves: seq<Leave>, filterStatus: string, search: string, l: Leave)
    ensures l in FilterLeaves(leaves, filterStatus, search) <==> l in leaves && Selected(l, filterStatus, search)
  {
    var r := FilterLeaves(leaves, filterStatus, search);
    assert l in r <==> multiset(r)[l] > 0;
    assert l in leaves <==> multiset(leaves)[l] > 0;
  }

  /** Running the e-mail search before the status filter gives the same list. */
  lemma FilterOrderIrrelevant(leaves: seq<Leave>, filterStatus: string, search: string)
    requires filterStatus != ALL && search != ""
    ensures FilterLeaves(leaves, filterStatus, search)
            == Filter(Filter(leaves, (l: Leave) => MatchesSearch(l, search)), (l: Leave) => l.status == filterStatus)
  {
    FiltersCommute(leaves, (l: Leave) => l.status == filterStatus, (l: Leave) => MatchesSearch(l, search));
  }

  // ---- counts and colours ----

  /** `leaves.filter(l => l.status === status).length`. */
  function StatusCount(leaves: seq<Leave>, status: string): (n: nat)
    ensures n <= |leaves|
    ensures n == 0 <==> forall l :: l in leaves ==> l.status != status
  {
    var r := Filter(leaves, (l: Leave) => l.status == status);
    assert r != [] ==> r[0] in leaves && r[0].status == status by {
      if r != [] {
        assert multiset(r)[r[0]] > 0;
      }
    }
    assert r == [] ==> forall l :: l in leaves ==> l.status != status by {
      if r == [] {
        forall l | l in leaves
          ensures l.status != status
        {
          assert multiset(leaves)[l] > 0 && multiset(r)[l] == 0;
        }
      }
    }
    |r|
  }

  /** The number of leaves whose status is exactly `status`, counted one by one. */
  function NumberWithStatus(leaves: seq<Leave>, status: string): nat
  {
    if leaves == [] then 0
    else (if leaves[0].status == status then 1 else 0) + NumberWithStatus(leaves[1..], status)
  }

  /** Each card shows the number of leaves with exactly that status. */
  lemma {:induction false} StatusCountIsNumberWithStatus(leaves: seq<Leave>, status: string)
    ensures StatusCount(leaves, status) == NumberWithStatus(leaves, status)
  {
    if leaves != [] {
      StatusCountIsNumberWithStatus(leaves[1..], status);
    }
  }

  /** The pending, approved and rejected cards together never exceed the total card. */
  lemma {:induction false} StatusCountsBounded(leaves: seq<Leave>)
    ensures StatusCount(leaves, PENDING) + StatusCount(leaves, APPROVED) + StatusCount(leaves, REJECTED) <= |leaves|
  {
    if leaves != [] {
      StatusCountsBounded(leaves[1..]);
    }
  }

  /** `getStatusColor`: green for approved, red for rejected, orange for every other text. */
  function StatusColor(status: string): (colour: string)
    ensures colour == "#51cf66" <==> status == APPROVED
    ensures colour == "#ff6b6b" <==> status == REJECTED
    ensures colour == "#ffa500" <==> status != APPROVED && status != REJECTED
  {
    if status == APPROVED then "#51cf66"
    else if status == REJECTED then "#ff6b6b"
    else "#ffa500"
  }

  // ---- the component ----

  class AdminDashboard {
    var leaves: seq<Leave>
    var filteredLeaves: seq<Leave>
    var loading: bool
    var error: string
    var filterStatus: string
    var searchEmail: string

    /** The filter effect has run on the current leaves, status filter and search text. */
    predicate Valid()
      reads this
    {
      filteredLeaves == FilterLeaves(leaves, filterStatus, searchEmail)
    }

    constructor ()
      ensures Valid()
      ensures leaves == [] && filteredLeaves == [] && loading && error == ""
      ensures filterStatus == ALL && searchEmail == ""
    {
      leaves := [];
      filteredLeaves := [];
      loading := true;
      error := "";
      filterStatus := ALL;
      searchEmail := "";
    }

    /** The filter effect: `filteredLeaves` is recomputed from the other state. */
    method RunFilterEffect()
      modifies this
      ensures Valid()
      ensures leaves == old(leaves) && filterStatus == old(filterStatus) && searchEmail == old(searchEmail)
      ensures loading == old(loading) && error == old(error)
    {
      filteredLeaves := FilterLeaves(leaves, filterStatus, searchEmail);
    }

    /**
     * `fetchAllLeaves` and the filter effect it triggers. `fetched` is the
     * response data, None when the request fails; on failure the old list is
     * kept. Loading is over in both cases.
     */
    method FetchAllLeaves(fetched: Option<seq<Leave>>)
      modifies this
      ensures Valid() && !loading
      ensures filterStatus == old(filterStatus) && searchEmail == old(searchEmail)
      ensures fetched.Some? ==> leaves == fetched.value && error == ""
      ensures fetched.None? ==> leaves == old(leaves) && error == "Failed to fetch leaves"
    {
      loading := true;
      error := "";
      if fetched.Some? {
        leaves := fetched.value;
      } else {
        error := "Failed to fetch leaves";
      }
      loading := false;
      RunFilterEffect();
    }

    /** Choosing a status in the select, then the filter effect. */
    method SelectStatus(status: string)
      modifies this
      ensures Valid() && filterStatus == status
      ensures leaves == old(leaves) && searchEmail == old(searchEmail)
      ensures loading == old(loading) && error == old(error)
    {
      filterStatus := status;
      RunFilterEffect();
    }

    /** Typing in the search box, then the filter effect. */
    method SearchFor(text: string)
      modifies this
      ensures Valid() && searchEmail == text
      ensures leaves == old(leaves) && filterStatus == old(filterStatus)
      ensures loading == old(loading) && error == old(error)
    {
      searchEmail := text;
      RunFilterEffect();
    }
  }
}
