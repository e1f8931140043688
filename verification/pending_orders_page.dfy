/**
 * The React pending-orders page as a state machine: the sort, page and
 * limit handlers, the authentication guard in front of the fetch, the
 * mapping of the response onto the page state, the "Showing" range and the
 * five-button page window.  Rendering is left out; `View` names which of the
 * three screens (spinner, error, table) a state shows.
 */
module PendingOrdersPage {
  import opened Wrappers
  import opened JsText
  import opened JsValue
  import opened PendingQuery
  import opened PendingFormat
  import opened PendingOrders

  /** The component's `useState` cells. */
  datatype PageState = PageState(
    orders: seq<FormattedRow>, loading: bool, error: Option<string>,
    currentPage: int, totalPages: int, totalRecords: int, limit: int,
    sortBy: string, sortOrder: string)

  const InitialState: PageState := PageState([], true, None, 1, 1, 0, 10, "OrderNo", "DESC")

  /** The screen a state renders: the spinner wins over the error, the error over the table. */
  datatype View = Spinner | ErrorScreen(message: string) | Table

  function ViewOf(s: PageState): View {
    if s.loading then Spinner
    else if s.error.Some? then ErrorScreen(s.error.value)
    else Table
  }

  // ---------------------------------------------------------------------
  // The handlers
  // ---------------------------------------------------------------------

  /** `handleSort(column)`. */
  function HandleSort(s: PageState, column: string): (r: PageState)
    ensures r.currentPage == 1 && r.sortBy == column
    ensures r == s.(sortBy := column, sortOrder := r.sortOrder, currentPage := 1)
  {
    if s.sortBy == column then s.(sortOrder := if s.sortOrder == "ASC" then "DESC" else "ASC", currentPage := 1)
    else s.(sortBy := column, sortOrder := "ASC", currentPage := 1)
  }

  /** `handlePageChange(newPage)`: ignored outside `1 .. totalPages`. */
  function HandlePageChange(s: PageState, newPage: int): (r: PageState)
    ensures r.currentPage == newPage || r == s
    ensures r == s.(currentPage := r.currentPage)
  {
    if newPage >= 1 && newPage <= s.totalPages then s.(currentPage := newPage) else s
  }

  /** `handleLimitChange(newLimit)`. */
  function HandleLimitChange(s: PageState, newLimit: int): (r: PageState)
    ensures r.limit == newLimit && r.currentPage == 1
    ensures r == s.(limit := newLimit, currentPage := 1)
  {
    s.(limit := newLimit, currentPage := 1)
  }

  /** The per-page choices of the limit selector. */
  const LimitOptions: seq<int> := [10, 25, 50, 100]

  /** The column names the sortable headers pass to `handleSort`. */
  const HeaderColumns: seq<string> := ["OrderNo", "Date", "ItemCode", "Order", "Pending", "DeliveryDate", "ClosingDays"]

  /** Clicking a header toggles the direction on the current column and
      starts a new column ascending; either way the view returns to page one. */
  lemma SortToggles(s: PageState, column: string)
    ensures s.sortBy == column && s.sortOrder == "ASC" ==> HandleSort(s, column).sortOrder == "DESC"
    ensures s.sortBy == column && s.sortOrder != "ASC" ==> HandleSort(s, column).sortOrder == "ASC"
    ensures s.sortBy != column ==> HandleSort(s, column).sortOrder == "ASC"
    ensures HandleSort(s, column).currentPage == 1
  {
  }

  /** Clicking the same header twice restores the direction, on page one. */
  lemma SortTwiceRestores(s: PageState, column: string)
    requires s.sortBy == column && (s.sortOrder == "ASC" || s.sortOrder == "DESC")
    ensures HandleSort(HandleSort(s, column), column) == s.(currentPage := 1)
  {
  }

  /** A new column clicked twice ends up descending. */
  lemma NewColumnTwiceIsDescending(s: PageState, column: string)
    requires s.sortBy != column
    ensures HandleSort(HandleSort(s, column), column).sortOrder == "DESC"
  {
  }

  /** Every header the page offers is one of the backend's allow-listed sort
      names, so a click never falls back to the default column. */
  lemma HeadersAreAllowListed()
    ensures forall i :: 0 <= i < |HeaderColumns| ==>
      HeaderColumns[i] in SortNames && ColumnName(ResolveSortColumn(HeaderColumns[i])) == HeaderColumns[i]
  {
  }

  /** The page changes exactly when the new page lies within `1 .. totalPages`. */
  lemma PageChangeIff(s: PageState, newPage: int)
    ensures HandlePageChange(s, newPage).currentPage == newPage <==>
              (1 <= newPage <= s.totalPages) || newPage == s.currentPage
    ensures !(1 <= newPage <= s.totalPages) ==> HandlePageChange(s, newPage) == s
  {
  }

  /** "Previous" on page one and "Next" on the last page change nothing. */
  lemma EdgeButtonsAreInert(s: PageState)
    requires 1 <= s.currentPage <= s.totalPages
    ensures s.currentPage == 1 ==> HandlePageChange(s, s.currentPage - 1) == s
    ensures s.currentPage == s.totalPages ==> HandlePageChange(s, s.currentPage + 1) == s
    ensures s.currentPage > 1 ==> HandlePageChange(s, s.currentPage - 1).currentPage == s.currentPage - 1
    ensures s.currentPage < s.totalPages ==> HandlePageChange(s, s.currentPage + 1).currentPage == s.currentPage + 1
  {
  }

  /** The current page stays within `1 .. totalPages` under the three handlers. */
  predicate PageInRange(s: PageState) {
    1 <= s.currentPage <= s.totalPages
  }

  lemma HandlersKeepPageInRange(s: PageState, column: string, newPage: int, newLimit: int)
    requires PageInRange(s)
    ensures PageInRange(HandleSort(s, column))
    ensures PageInRange(HandlePageChange(s, newPage))
    ensures PageInRange(HandleLimitChange(s, newLimit))
  {
  }

  // ---------------------------------------------------------------------
  // Fetching and applying the response
  // ---------------------------------------------------------------------

  const NotAuthenticatedMessage: string := "User not authenticated or vendor ID not found"
  const FetchFailedMessage: string := "Failed to fetch pending orders"

  /** The guard `!isAuthenticated || !user || !user.ID`. */
  predicate CanFetch(isAuthenticated: bool, user: Option<Record>) {
    isAuthenticated && user.Some? && Truthy(Get(user.value, "ID"))
  }

  /** The query string of the fetch, when the guard lets it through. */
  function FetchRequest(s: PageState, isAuthenticated: bool, user: Option<Record>): (r: Option<PendingRequest>)
    ensures r.Some? <==> CanFetch(isAuthenticated, user)
  {
    if !CanFetch(isAuthenticated, user) then None
    else Some(PendingRequest(Some(IntToDecimal(s.currentPage)), Some(IntToDecimal(s.limit)),
                             Some(s.sortBy), Some(s.sortOrder), Some(ToText(user.value["ID"]))))
  }

  /** The part of the JSON body the page reads. */
  datatype ApiResult = ApiResult(data: Option<seq<FormattedRow>>, totalPages: Option<int>, totalRecords: Option<int>)

  /** What `fetch` hands the page for a backend response: the body of a 200,
      and the thrown message for any other status (`!response.ok`). */
  function ResultOf(resp: PendingResponse): (r: Result<ApiResult, string>)
    ensures r.Success? <==> resp.Page?
    ensures r.Failure? ==> r.error == FetchFailedMessage
  {
    match resp
    case Page(data, p, _, _) => Success(ApiResult(Some(data), Some(p.totalPages), Some(p.totalRecords)))
    case _ => Failure(FetchFailedMessage)
  }

  /** `x || d` for a number. */
  function OrNumber(x: Option<int>, d: int): int {
    if x.Some? && x.value != 0 then x.value else d
  }

  /** The `try` / `catch` / `finally` of `fetchPendingOrders` once the request
      has settled, as written: a success sets the rows and counts but leaves
      any earlier error in place. */
  function SettleAsWritten(s: PageState, outcome: Result<ApiResult, string>): (r: PageState)
    ensures !r.loading
    ensures outcome.Failure? ==> r == s.(error := Some(outcome.error), loading := false)
    ensures outcome.Success? ==> r.error == s.error
  {
    match outcome
    case Failure(msg) => s.(error := Some(msg), loading := false)
    case Success(res) =>
      s.(orders := res.data.GetOr([]), totalPages := OrNumber(res.totalPages, 1),
         totalRecords := OrNumber(res.totalRecords, 0), loading := false)
  }

  /** The same, with the earlier error cleared on success, which the Retry
      button on the error screen relies on. */
  function Settle(s: PageState, outcome: Result<ApiResult, string>): (r: PageState)
    ensures !r.loading
    ensures outcome.Failure? ==> r == s.(error := Some(outcome.error), loading := false)
    ensures outcome.Success? ==> r.error.None?
    ensures outcome.Success? ==> r == SettleAsWritten(s, outcome).(error := None)
  {
    match outcome
    case Failure(msg) => s.(error := Some(msg), loading := false)
    case Success(res) => SettleAsWritten(s, outcome).(error := None)
  }

  /** The response mapping: missing data is an empty list, a missing or zero
      page count is one page, a missing record count is zero. */
  lemma ResponseDefaults(s: PageState, res: ApiResult)
    ensures var r := Settle(s, Success(res));
            && (res.data.None? ==> r.orders == [])
            && (res.data.Some? ==> r.orders == res.data.value)
            && (res.totalPages.None? || res.totalPages == Some(0) ==> r.totalPages == 1)
            && (res.totalPages.Some? && res.totalPages.value != 0 ==> r.totalPages == res.totalPages.value)
            && (res.totalRecords.None? ==> r.totalRecords == 0)
            && (res.totalRecords.Some? ==> r.totalRecords == res.totalRecords.value)
            && r.currentPage == s.currentPage && r.limit == s.limit
            && r.sortBy == s.sortBy && r.sortOrder == s.sortOrder
  {
  }

  /** One run of `fetchPendingOrders`, as written, against the backend over
      the joined table `t`. */
  function Refresh(s: PageState, isAuthenticated: bool, user: Option<Record>, t: seq<OrderLine>): PageState {
    var started := s.(loading := true);
    match FetchRequest(s, isAuthenticated, user)
    case None => started.(error := Some(NotAuthenticatedMessage), loading := false)
    case Some(req) => SettleAsWritten(started, ResultOf(Handle(req, t)))
  }

  /** The same run with the corrected `Settle`. */
  function RefreshCorrected(s: PageState, isAuthenticated: bool, user: Option<Record>, t: seq<OrderLine>): PageState {
    var started := s.(loading := true);
    match FetchRequest(s, isAuthenticated, user)
    case None => started.(error := Some(NotAuthenticatedMessage), loading := false)
    case Some(req) => Settle(started, ResultOf(Handle(req, t)))
  }

  /** The corrected run differs from the run as written only in clearing the
      error after a successful request. */
  lemma RefreshCorrectedClearsError(s: PageState, isAuthenticated: bool, user: Option<Record>, t: seq<OrderLine>)
    ensures var req := FetchRequest(s, isAuthenticated, user);
            RefreshCorrected(s, isAuthenticated, user, t) ==
              if req.Some? && Handle(req.value, t).Page?
              then Refresh(s, isAuthenticated, user, t).(error := None)
              else Refresh(s, isAuthenticated, user, t)
  {
  }

  /** Without an authenticated user carrying an ID no request is built, and the
      page shows the authentication error with its data untouched. */
  lemma AuthGuard(s: PageState, isAuthenticated: bool, user: Option<Record>, t: seq<OrderLine>)
    requires !CanFetch(isAuthenticated, user)
    ensures FetchRequest(s, isAuthenticated, user).None?
    ensures Refresh(s, isAuthenticated, user, t) == s.(error := Some(NotAuthenticatedMessage), loading := false)
    ensures ViewOf(Refresh(s, isAuthenticated, user, t)) == ErrorScreen(NotAuthenticatedMessage)
  {
  }

  /** The request of a signed-in vendor with a safe-integer ID, on a page and
      limit of at least one whose row numbers fit a `bigint`, is one whose data
      query succeeds: it carries the vendor, the page and the limit as the page
      holds them. */
  lemma {:induction false} FetchIsAccepted(s: PageState, user: Record, id: int)
    requires "ID" in user && user["ID"] == Num(id) && id != 0 && SafeInteger(id)
    requires PageFits(s.currentPage, s.limit)
    ensures var req := FetchRequest(s, true, Some(user));
            && req.Some? && Accepted(req.value)
            && ParamInt(req.value.page, 1) == Some(s.currentPage)
            && ParamInt(req.value.limit, 10) == Some(s.limit)
            && ParseInt(req.value.vendorId.value) == Some(id)
  {
    ParseIntOfDecimal(s.currentPage);
    ParseIntOfDecimal(s.limit);
    ParseIntOfDecimal(id);
    assert IntToDecimal(id) != "";
  }

  /** After a refresh by such a vendor, with no more qualifying lines than
      COUNT(*) can return, the page holds the number of the vendor's
      qualifying lines and at least one page; it shows the table unless an
      earlier error is still set, which the run as written leaves on screen. */
  lemma {:induction false} RefreshShowsVendorTotals(s: PageState, user: Record, id: int, t: seq<OrderLine>)
    requires "ID" in user && user["ID"] == Num(id) && id != 0 && SafeInteger(id)
    requires PageFits(s.currentPage, s.limit) && |Qualifying(t, id)| <= IntMax
    ensures var r := Refresh(s, true, Some(user), t);
            && ViewOf(r) == (if s.error.Some? then ErrorScreen(s.error.value) else Table)
            && r.error == s.error
            && r.totalRecords == |Qualifying(t, id)|
            && r.totalPages >= 1
            && r.currentPage == s.currentPage && r.limit == s.limit
            && |r.orders| <= s.limit
  {
    FetchIsAccepted(s, user, id);
    var req := FetchRequest(s, true, Some(user)).value;
    PageContents(req, t);
  }

  /** With the corrected settle the same refresh always shows the table. */
  lemma RefreshCorrectedShowsVendorTotals(s: PageState, user: Record, id: int, t: seq<OrderLine>)
    requires "ID" in user && user["ID"] == Num(id) && id != 0 && SafeInteger(id)
    requires PageFits(s.currentPage, s.limit) && |Qualifying(t, id)| <= IntMax
    ensures var r := RefreshCorrected(s, true, Some(user), t);
            && ViewOf(r) == Table
            && r.totalRecords == |Qualifying(t, id)|
            && r.totalPages >= 1
            && |r.orders| <= s.limit
  {
    RefreshShowsVendorTotals(s, user, id, t);
    FetchIsAccepted(s, user, id);
    HandleSucceedsIff(FetchRequest(s, true, Some(user)).value, t);
    RefreshCorrectedClearsError(s, true, Some(user), t);
  }

  /** A failed backend call shows the fixed fetch error whatever the backend said. */
  lemma FailedFetchMessage(s: PageState, user: Record, t: seq<OrderLine>)
    requires CanFetch(true, Some(user))
    requires !Handle(FetchRequest(s, true, Some(user)).value, t).Page?
    ensures ViewOf(Refresh(s, true, Some(user), t)) == ErrorScreen(FetchFailedMessage)
  {
  }

  /** As written, once an error is shown a successful retry still shows it. */
  lemma RetryKeepsErrorAsWritten(s: PageState, res: ApiResult)
    requires s.error == Some(FetchFailedMessage)
    ensures ViewOf(SettleAsWritten(s.(loading := true), Success(res))) == ErrorScreen(FetchFailedMessage)
  {
  }

  /** With the error cleared, a successful retry shows the table. */
  lemma RetryShowsTable(s: PageState, res: ApiResult)
    ensures ViewOf(Settle(s.(loading := true), Success(res))) == Table
  {
  }

  /** The page count is always at least one: initially, under the handlers,
      and after every refresh against the backend. */
  predicate PageCountPositive(s: PageState) {
    s.totalPages >= 1
  }

  lemma PageCountStaysPositive(s: PageState, column: string, newPage: int, newLimit: int,
                               isAuthenticated: bool, user: Option<Record>, t: seq<OrderLine>)
    requires PageCountPositive(s)
    ensures PageCountPositive(InitialState)
    ensures PageCountPositive(HandleSort(s, column))
    ensures PageCountPositive(HandlePageChange(s, newPage))
    ensures PageCountPositive(HandleLimitChange(s, newLimit))
    ensures PageCountPositive(Refresh(s, isAuthenticated, user, t))
  {
    match FetchRequest(s, isAuthenticated, user)
    case None =>
    case Some(req) => SettleKeepsPageCount(s.(loading := true), ResultOf(Handle(req, t)));
  }

  /** Settling on an outcome whose page count, if any, is not negative keeps
      the page count positive. */
  lemma SettleKeepsPageCount(s: PageState, outcome: Result<ApiResult, string>)
    requires PageCountPositive(s)
    requires outcome.Success? && outcome.value.totalPages.Some? ==> outcome.value.totalPages.value >= 0
    ensures PageCountPositive(SettleAsWritten(s, outcome))
    ensures PageCountPositive(Settle(s, outcome))
  {
  }

  // ---------------------------------------------------------------------
  // The "Showing" line and the page buttons
  // ---------------------------------------------------------------------

  /** "Showing {first} to {last} of {totalRecords} orders". */
  datatype Showing = Showing(first: int, last: int)

  function ShowingRange(currentPage: int, limit: int, totalRecords: int): Showing {
    var start := (currentPage - 1) * limit;
    Showing(start + 1, Min(start + limit, totalRecords))
  }

  /** On a page that holds rows, the line names the rows of exactly that
      page: the first one after the offset, and as many as the page holds. */
  lemma ShowingIsThePage(currentPage: int, limit: int, totalRecords: int)
    requires currentPage >= 1 && limit >= 1
    requires (currentPage - 1) * limit < totalRecords
    ensures var r := ShowingRange(currentPage, limit, totalRecords);
            var start := (currentPage - 1) * limit;
            && 1 <= r.first <= r.last <= totalRecords
            && r.last - r.first + 1 == Min(limit, totalRecords - start)
  {
    OffsetSign(currentPage, limit);
  }

  /** With nothing to show the line reads "Showing 1 to 0 of 0". */
  lemma ShowingWhenEmpty(limit: int)
    requires limit >= 1
    ensures ShowingRange(1, limit, 0) == Showing(1, 0)
  {
  }

  /** `Math.min(5, totalPages)` buttons (none for a non-positive count). */
  function ButtonCount(totalPages: int): nat {
    if totalPages <= 0 then 0 else if totalPages < 5 then totalPages else 5
  }

  /** The page number of button `i`. */
  function ButtonNumber(currentPage: int, totalPages: int, i: int): int {
    if totalPages <= 5 then i + 1
    else if currentPage <= 3 then i + 1
    else if currentPage >= totalPages - 2 then totalPages - 4 + i
    else currentPage - 2 + i
  }

  /** The numbers on the page buttons, left to right. */
  function PageButtons(currentPage: int, totalPages: int): (r: seq<int>)
    ensures |r| == ButtonCount(totalPages)
  {
    seq(ButtonCount(totalPages), i requires 0 <= i < ButtonCount(totalPages) => ButtonNumber(currentPage, totalPages, i))
  }

  function Clamp(x: int, lo: int, hi: int): int {
    if x < lo then lo else if x > hi then hi else x
  }

  /** The buttons are the run of consecutive pages of the right length that
      starts as close to two before the current page as the range allows. */
  lemma PageButtonsAreClampedRun(currentPage: int, totalPages: int)
    ensures var n := ButtonCount(totalPages);
            var start := Clamp(currentPage - 2, 1, totalPages - n + 1);
            forall i :: 0 <= i < n ==> PageButtons(currentPage, totalPages)[i] == start + i
  {
  }

  /** For a current page in range the buttons are `min(5, totalPages)`
      consecutive pages within `1 .. totalPages`, one of them the current
      page, which sits in the middle whenever there is room on both sides. */
  lemma {:induction false} PageButtonsWindow(currentPage: int, totalPages: int)
    requires 1 <= currentPage <= totalPages
    ensures var b := PageButtons(currentPage, totalPages);
            && |b| == Min(5, totalPages)
            && (forall i :: 0 <= i < |b| ==> 1 <= b[i] <= totalPages)
            && (forall i :: 0 < i < |b| ==> b[i] == b[i - 1] + 1)
            && 0 <= currentPage - b[0] < |b| && b[currentPage - b[0]] == currentPage
            && (totalPages > 5 && 3 <= currentPage <= totalPages - 2 ==> b[2] == currentPage)
  {
    PageButtonsAreClampedRun(currentPage, totalPages);
  }

  /** Exactly one button is marked active for a current page in range. */
  lemma {:induction false} OneActiveButton(currentPage: int, totalPages: int)
    requires 1 <= currentPage <= totalPages
    ensures var b := PageButtons(currentPage, totalPages);
            forall i, j :: 0 <= i < |b| && 0 <= j < |b| && b[i] == currentPage && b[j] == currentPage ==> i == j
  {
    PageButtonsAreClampedRun(currentPage, totalPages);
  }

  /** Every button is a page `handlePageChange` accepts. */
  lemma {:induction false} ButtonsAreReachable(s: PageState)
    requires PageInRange(s)
    ensures var b := PageButtons(s.currentPage, s.totalPages);
            forall i :: 0 <= i < |b| ==> HandlePageChange(s, b[i]).currentPage == b[i]
  {
    PageButtonsWindow(s.currentPage, s.totalPages);
  }
}
