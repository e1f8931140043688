/**
 * `GET /api/pending-orders`: the query-string defaults, the vendor check, the
 * offset arithmetic, the two parallel queries, the row formatting and the
 * pagination envelope, with the 400 and 500 paths.
 */
module PendingOrders {
  import opened Wrappers
  import opened JsText
  import opened Ordering
  import opened PendingQuery
  import opened PendingFormat

  /** The query string; `None` is a parameter that was not sent. */
  datatype PendingRequest = PendingRequest(
    page: Option<string>, limit: Option<string>, sortBy: Option<string>,
    sortOrder: Option<string>, vendorId: Option<string>)

  datatype Pagination = Pagination(
    currentPage: int, totalPages: nat, totalRecords: nat, limit: int,
    hasNextPage: bool, hasPrevPage: bool)

  datatype PendingResponse =
    | VendorRequired                         // 400 { success: false, error: 'Vendor ID is required' }
    | FetchFailed(message: string)           // 500 { success: false, error: 'Failed to fetch pending orders', message }
    | Page(data: seq<FormattedRow>, pagination: Pagination, sortBy: string, sortOrder: string)

  /** `parseInt` of a parameter that defaults to the number `d`. */
  function ParamInt(v: Option<string>, d: int): Option<int> {
    if v.Some? then ParseInt(v.value) else Some(d)
  }

  /** `(parseInt(page) - 1) * parseInt(limit)`, NaN when either is NaN. */
  function Offset(page: Option<int>, limit: Option<int>): (r: Option<int>)
    ensures r.Some? <==> page.Some? && limit.Some?
  {
    if page.Some? && limit.Some? then Some((page.value - 1) * limit.value) else None
  }

  /** The data query the handler builds for a request with a vendor id. */
  function Plan(req: PendingRequest): DataQuery {
    var vendor := ParseInt(req.vendorId.GetOr(""));
    var page := ParamInt(req.page, 1);
    var limit := ParamInt(req.limit, 10);
    DataQuery(vendor, ResolveSortColumn(req.sortBy.GetOr("OrderNo")),
              ResolveDirection(req.sortOrder.GetOr("DESC")), Offset(page, limit), limit)
  }

  /** `!vendorId`: absent or the empty string (the text "0" is truthy). */
  predicate VendorMissing(req: PendingRequest) {
    req.vendorId.None? || req.vendorId.value == ""
  }

  /** The route handler against the joined table `t`. */
  function Handle(req: PendingRequest, t: seq<OrderLine>): PendingResponse {
    if VendorMissing(req) then VendorRequired
    else
      var q := Plan(req);
      var data := RunData(q, t);
      RunDataSucceedsIff(q, t);
      Respond(req, q.fetch, data, RunCount(CountQuery(q.vendor), t))
  }

  /** The response once both queries have settled: a rejection is the 500,
      otherwise the formatted rows with the pagination envelope. */
  function Respond(req: PendingRequest, limit: Option<int>, data: Result<seq<ReportRow>, string>,
                   count: Result<nat, string>): PendingResponse
    requires data.Success? ==> ParamInt(req.page, 1).Some? && limit.Some? && limit.value >= 1
  {
    if data.Failure? then FetchFailed(data.error)
    else if count.Failure? then FetchFailed(count.error)
    else
      var page := ParamInt(req.page, 1).value;
      var totalPages := CeilDiv(count.value, limit.value);
      Page(MapFormat(data.value),
           Pagination(page, totalPages, count.value, limit.value, page < totalPages, page > 1),
           req.sortBy.GetOr("OrderNo"), req.sortOrder.GetOr("DESC"))
  }

  /** A missing or empty vendor id is a 400 and no query is built. */
  lemma MissingVendorRejected(req: PendingRequest, t: seq<OrderLine>)
    requires req.vendorId.None? || req.vendorId == Some("")
    ensures Handle(req, t) == VendorRequired
  {
  }

  /** A limit one past the `bigint` maximum prints a FETCH count the engine
      refuses, so the request is a 500 although every parameter parses. */
  lemma {:induction false} OversizedLimitFails(t: seq<OrderLine>)
    ensures var req := PendingRequest(None, Some(IntToDecimal(BigintMax + 1)), None, None, Some(IntToDecimal(1)));
            Handle(req, t).FetchFailed?
  {
    var req := PendingRequest(None, Some(IntToDecimal(BigintMax + 1)), None, None, Some(IntToDecimal(1)));
    ParseIntOfDecimal(BigintMax + 1);
    ParseIntOfDecimal(1);
    HandleSucceedsIff(req, t);
  }

  /** With a positive limit the offset is non-negative exactly from page one on. */
  lemma OffsetSign(page: int, limit: int)
    requires limit >= 1
    ensures (page - 1) * limit >= 0 <==> page >= 1
  {
    if page < 1 {
      assert (page - 1) * limit <= (page - 1) * 1;
    }
  }

  /** A page and a limit of at least one whose OFFSET and FETCH numbers fit
      the engine's `bigint`. */
  predicate PageFits(page: int, limit: int) {
    1 <= page && 1 <= limit <= BigintMax && PageStart(page - 1, limit) <= BigintMax
  }

  /** The requests whose data query succeeds: the vendor id is present and a
      safe integer, and page and limit are whole numbers that fit. */
  predicate Accepted(req: PendingRequest) {
    && !VendorMissing(req)
    && ParseInt(req.vendorId.value).Some? && SafeInteger(ParseInt(req.vendorId.value).value)
    && ParamInt(req.page, 1).Some? && ParamInt(req.limit, 10).Some?
    && PageFits(ParamInt(req.page, 1).value, ParamInt(req.limit, 10).value)
  }

  /** The requests the handler answers with a page: accepted, and the vendor
      has no more qualifying lines than COUNT(*) can return. */
  predicate Answered(req: PendingRequest, t: seq<OrderLine>) {
    Accepted(req) && |Qualifying(t, ParseInt(req.vendorId.value).value)| <= IntMax
  }

  /** A page of data comes back exactly for the answered requests; every other
      request with a vendor id is a 500. */
  lemma {:induction false} HandleSucceedsIff(req: PendingRequest, t: seq<OrderLine>)
    ensures Handle(req, t).Page? <==> Answered(req, t)
    ensures !VendorMissing(req) ==> Handle(req, t).Page? || Handle(req, t).FetchFailed?
  {
    if !VendorMissing(req) {
      PageIffDataSucceeds(req, t);
      PlanSucceedsIff(req, t);
      if Accepted(req) {
        CountIsQualifying(t, Plan(req).vendor.value);
      }
    }
  }

  lemma {:induction false} PageIffDataSucceeds(req: PendingRequest, t: seq<OrderLine>)
    requires !VendorMissing(req)
    ensures Handle(req, t).Page? <==>
              RunData(Plan(req), t).Success? && RunCount(CountQuery(Plan(req).vendor), t).Success?
    ensures Handle(req, t).Page? || Handle(req, t).FetchFailed?
  {
    var q := Plan(req);
    assert Handle(req, t) == Respond(req, q.fetch, RunData(q, t), RunCount(CountQuery(q.vendor), t));
  }

  lemma {:induction false} PlanSucceedsIff(req: PendingRequest, t: seq<OrderLine>)
    requires !VendorMissing(req)
    ensures RunData(Plan(req), t).Success? <==> Accepted(req)
  {
    var q := Plan(req);
    QuerySucceedsIff(q.vendor, q.column, q.direction, ParamInt(req.page, 1), q.fetch, t);
  }

  /** The data query with the handler's offset succeeds exactly when the vendor
      id is a safe integer and page and limit are numbers that fit. */
  lemma QuerySucceedsIff(vendor: Option<int>, column: Column, direction: Direction,
                         page: Option<int>, limit: Option<int>, t: seq<OrderLine>)
    ensures RunData(DataQuery(vendor, column, direction, Offset(page, limit), limit), t).Success?
            <==> vendor.Some? && SafeInteger(vendor.value) && page.Some? && limit.Some?
                 && PageFits(page.value, limit.value)
  {
    RunDataSucceedsIff(DataQuery(vendor, column, direction, Offset(page, limit), limit), t);
    if page.Some? && limit.Some? && limit.value >= 1 {
      OffsetSign(page.value, limit.value);
    }
  }

  /** On success the envelope reports the vendor's qualifying line count, the
      page count `ceil(total / limit)`, and the neighbours of the current page;
      the data is the formatted window at `(page - 1) * limit` of the whole
      ordered union. */
  lemma {:induction false} PageContents(req: PendingRequest, t: seq<OrderLine>)
    requires Answered(req, t)
    ensures Handle(req, t).Page?
    ensures var p := Handle(req, t).pagination;
            var q := Plan(req);
            && p.currentPage == ParamInt(req.page, 1).value
            && p.limit == ParamInt(req.limit, 10).value
            && p.totalRecords == |Qualifying(t, ParseInt(req.vendorId.value).value)|
            && PageCountFor(p.totalPages, p.totalRecords, p.limit)
            && (p.hasNextPage <==> p.currentPage < p.totalPages)
            && (p.hasPrevPage <==> p.currentPage > 1)
            && |Handle(req, t).data| <= ParamInt(req.limit, 10).value
            && Handle(req, t).data
               == MapFormat(Window(Sort(UnionRows(t, q.vendor.value), Key(q.column), q.direction == Desc),
                                   PageStart(ParamInt(req.page, 1).value - 1, ParamInt(req.limit, 10).value),
                                   ParamInt(req.limit, 10).value))
  {
    PageEnvelope(req, t);
    PageData(req, t);
  }

  lemma PageEnvelope(req: PendingRequest, t: seq<OrderLine>)
    requires Answered(req, t)
    ensures Handle(req, t).Page?
    ensures var p := Handle(req, t).pagination;
            && p.currentPage == ParamInt(req.page, 1).value
            && p.limit == ParamInt(req.limit, 10).value
            && p.totalRecords == |Qualifying(t, ParseInt(req.vendorId.value).value)|
            && PageCountFor(p.totalPages, p.totalRecords, p.limit)
            && (p.hasNextPage <==> p.currentPage < p.totalPages)
            && (p.hasPrevPage <==> p.currentPage > 1)
  {
    var q := Plan(req);
    HandleIsRespond(req, t);
    AcceptedData(req, t);
    CountIsQualifying(t, q.vendor.value);
    RespondPage(req, q.fetch, RunData(q, t), RunCount(CountQuery(q.vendor), t));
  }

  lemma PageData(req: PendingRequest, t: seq<OrderLine>)
    requires Answered(req, t)
    ensures Handle(req, t).Page?
    ensures var q := Plan(req);
            var limit := ParamInt(req.limit, 10).value;
            && |Handle(req, t).data| <= limit
            && Handle(req, t).data
               == MapFormat(Window(Sort(UnionRows(t, q.vendor.value), Key(q.column), q.direction == Desc),
                                   PageStart(ParamInt(req.page, 1).value - 1, limit), limit))
  {
    var q := Plan(req);
    HandleIsRespond(req, t);
    AcceptedData(req, t);
    CountIsQualifying(t, q.vendor.value);
    RespondPage(req, q.fetch, RunData(q, t), RunCount(CountQuery(q.vendor), t));
  }

  /** An accepted request's data query returns the window of its page. */
  lemma AcceptedData(req: PendingRequest, t: seq<OrderLine>)
    requires Accepted(req)
    ensures var q := Plan(req);
            var limit := ParamInt(req.limit, 10).value;
            && q.vendor == ParseInt(req.vendorId.value)
            && q.fetch == Some(limit)
            && RunData(q, t) == Success(Window(Sort(UnionRows(t, q.vendor.value), Key(q.column), q.direction == Desc),
                                               PageStart(ParamInt(req.page, 1).value - 1, limit), limit))
  {
    OffsetIsPageStart(req);
  }

  /** With a vendor id the handler's answer is what `Respond` makes of the two queries. */
  lemma HandleIsRespond(req: PendingRequest, t: seq<OrderLine>)
    requires !VendorMissing(req)
    ensures Handle(req, t) == Respond(req, Plan(req).fetch, RunData(Plan(req), t), RunCount(CountQuery(Plan(req).vendor), t))
  {
  }

  /** The envelope `Respond` builds once both queries have succeeded. */
  lemma RespondPage(req: PendingRequest, limit: Option<int>, data: Result<seq<ReportRow>, string>,
                    count: Result<nat, string>)
    requires data.Success? && count.Success?
    requires ParamInt(req.page, 1).Some? && limit.Some? && limit.value >= 1
    ensures var r := Respond(req, limit, data, count);
            var p := r.pagination;
            && r.Page?
            && r.data == MapFormat(data.value)
            && p.currentPage == ParamInt(req.page, 1).value
            && p.limit == limit.value && p.totalRecords == count.value
            && PageCountFor(p.totalPages, p.totalRecords, p.limit)
            && (p.hasNextPage <==> p.currentPage < p.totalPages)
            && (p.hasPrevPage <==> p.currentPage > 1)
  {
  }

  lemma OffsetIsPageStart(req: PendingRequest)
    requires Accepted(req)
    ensures Plan(req).offset == Some(PageStart(ParamInt(req.page, 1).value - 1, ParamInt(req.limit, 10).value))
  {
  }

  /** `sorting` echoes the parameters as sent (after defaults), not the resolved
      column or direction. */
  lemma SortingEchoesRequest(req: PendingRequest, t: seq<OrderLine>)
    requires Handle(req, t).Page?
    ensures Handle(req, t).sortBy == req.sortBy.GetOr("OrderNo")
    ensures Handle(req, t).sortOrder == req.sortOrder.GetOr("DESC")
  {
  }

  /** A `sortBy` outside the allow-list builds the same ORDER BY as the default,
      and `sortOrder` other than a spelling of "asc" sorts descending. */
  lemma {:induction false} UnknownSortDefaults(req: PendingRequest)
    requires req.sortBy.Some? && req.sortBy.value !in SortNames
    ensures OrderByClause(Plan(req)) == OrderByClause(Plan(req.(sortBy := None)))
    ensures OrderByClause(Plan(req)) == OrderByClause(Plan(req.(sortBy := Some("OrderNo"))))
  {
    assert "OrderNo" in SortNames;
  }

  /** The request for page `n` (counted from 1) with otherwise the same parameters. */
  function AtPage(req: PendingRequest, n: nat): PendingRequest {
    req.(page := Some(IntToDecimal(n)))
  }

  /** The rows a response shows: its data on a page, none otherwise. */
  function RowsOf(r: PendingResponse): seq<FormattedRow> {
    if r.Page? then r.data else []
  }

  /** The data arrays of pages 1 .. k of a request, laid end to end. */
  function Browse(req: PendingRequest, t: seq<OrderLine>, k: nat): seq<FormattedRow> {
    Concat(PageRows(req, t), k)
  }

  /** The rows shown for each page number of a request. */
  function PageRows(req: PendingRequest, t: seq<OrderLine>): nat -> seq<FormattedRow> {
    (n: nat) => RowsOf(Handle(AtPage(req, n), t))
  }

  /** Requesting pages 1 .. totalPages in turn returns every qualifying row of
      the vendor exactly once, in the global ORDER BY order. */
  lemma {:induction false} BrowsingAllPagesCoversResult(req: PendingRequest, t: seq<OrderLine>)
    requires Handle(req, t).Page?
    ensures var q := Plan(req);
            var v := q.vendor.value;
            var ordered := Sort(UnionRows(t, v), Key(q.column), q.direction == Desc);
            Browse(req, t, Handle(req, t).pagination.totalPages) == MapFormat(ordered)
  {
    var q := Plan(req);
    var v := q.vendor.value;
    var ordered := Sort(UnionRows(t, v), Key(q.column), q.direction == Desc);
    HandleSucceedsIff(req, t);
    PageEnvelope(req, t);
    AcceptedData(req, t);
    UnionIsQualifying(t, v);
    SortIsSortedPermutation(UnionRows(t, v), Key(q.column), q.direction == Desc);
    PageCountIsCeil(Handle(req, t).pagination.totalPages, |ordered|, q.fetch.value);
    BrowseCovers(req, t, ordered);
  }

  /** The program runs a separate query per page, and the engine may order
      rows with equal sort keys differently in each.  When the key has no ties
      among the vendor's rows, every order the engine may pick is the model's,
      so browsing still returns each row exactly once, in that order. */
  lemma BrowsingCoversEngineOrder(req: PendingRequest, t: seq<OrderLine>, order: seq<ReportRow>)
    requires Answered(req, t)
    requires TieFree(UnionRows(t, Plan(req).vendor.value), Key(Plan(req).column))
    requires multiset(order) == multiset(UnionRows(t, Plan(req).vendor.value))
    requires Sorted(order, Key(Plan(req).column), Plan(req).direction == Desc)
    ensures Handle(req, t).Page?
    ensures Browse(req, t, Handle(req, t).pagination.totalPages) == MapFormat(order)
  {
    var q := Plan(req);
    HandleSucceedsIff(req, t);
    BrowsingAllPagesCoversResult(req, t);
    SortIsUnique(UnionRows(t, q.vendor.value), order, Key(q.column), q.direction == Desc);
  }

  /** Browsing an accepted request through `ceil(rows / limit)` pages shows
      every row of its ordering once, in order. */
  lemma BrowseCovers(req: PendingRequest, t: seq<OrderLine>, ordered: seq<ReportRow>)
    requires Answered(req, t)
    requires ordered == Sort(UnionRows(t, Plan(req).vendor.value), Key(Plan(req).column),
                             Plan(req).direction == Desc)
    ensures Plan(req).fetch.Some? && Plan(req).fetch.value >= 1
    ensures Browse(req, t, CeilDiv(|ordered|, Plan(req).fetch.value)) == MapFormat(ordered)
  {
    var limit := Plan(req).fetch.value;
    var n := CeilDiv(|ordered|, limit);
    var v := Plan(req).vendor.value;
    SortIsSortedPermutation(UnionRows(t, v), Key(Plan(req).column), Plan(req).direction == Desc);
    UnionIsQualifying(t, v);
    assert |ordered| <= IntMax;
    forall j: nat | 1 <= j <= n
      ensures PageRows(req, t)(j) == MapFormat(PageWindow(ordered, limit, j))
    {
      PageStartBelowTotal(j, |ordered|, limit);
      AtPageRows(req, t, j, ordered, limit);
    }
    FormattedPagesCover(PageRows(req, t), ordered, limit);
  }

  lemma AtPageRows(req: PendingRequest, t: seq<OrderLine>, k: nat, ordered: seq<ReportRow>, limit: nat)
    requires Answered(req, t) && k >= 1 && limit == Plan(req).fetch.value
    requires PageStart(k - 1, limit) <= BigintMax
    requires ordered == Sort(UnionRows(t, Plan(req).vendor.value), Key(Plan(req).column),
                             Plan(req).direction == Desc)
    ensures PageRows(req, t)(k) == MapFormat(PageWindow(ordered, limit, k))
  {
    AtPageData(req, t, k, ordered);
  }

  /** Every page up to the page count starts before the last row. */
  lemma PageStartBelowTotal(j: nat, total: nat, limit: nat)
    requires limit >= 1 && 1 <= j <= CeilDiv(total, limit)
    ensures PageStart(j - 1, limit) < total
  {
    var n := CeilDiv(total, limit);
    assert (n - 1) * limit - (j - 1) * limit == (n - j) * limit;
  }

  /** When page `j` shows the `j`-th window formatted, for every `j` up to
      `ceil(rows / limit)`, the pages together show every row formatted, in order. */
  lemma FormattedPagesCover(rows: nat -> seq<FormattedRow>, ordered: seq<ReportRow>, limit: nat)
    requires limit >= 1
    requires forall j: nat :: 1 <= j <= CeilDiv(|ordered|, limit) ==> rows(j) == MapFormat(PageWindow(ordered, limit, j))
    ensures Concat(rows, CeilDiv(|ordered|, limit)) == MapFormat(ordered)
  {
    var n := CeilDiv(|ordered|, limit);
    var parts := (j: nat) => PageWindow(ordered, limit, j);
    forall a: seq<ReportRow>, b: seq<ReportRow>
      ensures MapFormat(a + b) == MapFormat(a) + MapFormat(b)
    {
      MapFormatAppend(a, b);
    }
    ConcatMap(rows, parts, n, MapFormat);
    PagesIsConcat(ordered, limit, n);
    AllPagesCoverResult(ordered, limit);
  }

  /** Page `k` of the same request answers with the `k`-th window of the ordering. */
  lemma AtPageData(req: PendingRequest, t: seq<OrderLine>, k: nat, ordered: seq<ReportRow>)
    requires Answered(req, t) && k >= 1 && PageStart(k - 1, Plan(req).fetch.value) <= BigintMax
    requires ordered == Sort(UnionRows(t, Plan(req).vendor.value), Key(Plan(req).column),
                             Plan(req).direction == Desc)
    ensures var r := Handle(AtPage(req, k), t);
            var limit := Plan(req).fetch.value;
            r.Page? && r.data == MapFormat(Window(ordered, PageStart(k - 1, limit), limit))
  {
    ParseIntOfDecimal(k);
    SameQueryData(req, AtPage(req, k), t, k, ordered);
  }

  /** A request that differs from an accepted one only in asking for page `k`
      answers with the `k`-th window of the same ordering. */
  lemma SameQueryData(req: PendingRequest, other: PendingRequest, t: seq<OrderLine>, k: nat,
                      ordered: seq<ReportRow>)
    requires Answered(req, t) && k >= 1 && PageStart(k - 1, Plan(req).fetch.value) <= BigintMax
    requires other == req.(page := other.page) && ParamInt(other.page, 1) == Some(k)
    requires ordered == Sort(UnionRows(t, Plan(req).vendor.value), Key(Plan(req).column),
                             Plan(req).direction == Desc)
    ensures var r := Handle(other, t);
            var limit := Plan(req).fetch.value;
            r.Page? && r.data == MapFormat(Window(ordered, PageStart(k - 1, limit), limit))
  {
    SamePlanButPage(req, other, k);
    var q := Plan(other);
    assert Sort(UnionRows(t, q.vendor.value), Key(q.column), q.direction == Desc) == ordered;
    PageData(other, t);
  }

  /** Changing only the page keeps the request accepted and leaves every
      part of its plan but the offset as it was. */
  lemma SamePlanButPage(req: PendingRequest, other: PendingRequest, k: nat)
    requires Accepted(req) && k >= 1 && PageStart(k - 1, Plan(req).fetch.value) <= BigintMax
    requires other == req.(page := other.page) && ParamInt(other.page, 1) == Some(k)
    ensures Accepted(other)
    ensures Plan(other).vendor == Plan(req).vendor && Plan(other).column == Plan(req).column
    ensures Plan(other).direction == Plan(req).direction
    ensures ParamInt(other.limit, 10) == Plan(req).fetch
  {
  }

}
