/**
 * The query side of the pending-orders report: the request knobs, the
 * sort-column allow-list, the direction test, the two-branch row predicate
 * of the UNION, the parallel COUNT query, and the OFFSET/FETCH window that
 * is applied once to the whole ordered union.
 *
 * The joined table graph (order master and detail, item, variant, material,
 * colour, finish, vendor, unit, categories) is abstracted as a sequence of
 * already-joined `OrderLine`s; SQL NULL is `None`.
 */
module PendingQuery {
  import opened Wrappers
  import opened JsText
  import opened JsValue
  import opened Ordering

  // ---------------------------------------------------------------------------
  // Rows

  /** A SQL `date` cell as the driver hands it over: NULL or a `Date` object. */
  datatype DateCell = NullDate | DateOf(d: JsDate)

  /** One joined order-detail line, with the columns the report reads. */
  datatype OrderLine = OrderLine(
    vendorId: int,
    orderNo: SortKey,
    orderDate: DateCell,
    itemCode: Option<string>,
    vendorName: Option<string>,
    orderQty: Option<int>,
    rcvdQty: Option<int>,
    inQcQty: Option<int>,
    rejectQty: Option<int>,
    autoClosedPenaltyQty: Option<int>,
    stock: Option<int>,
    deliveryText: Option<string>,
    closingDays: Option<int>,
    price: Option<int>,
    lastRecDate: DateCell,
    status: Option<string>,
    masterStatus: Option<string>,
    other: map<string, Option<string>>)

  /** The ten numeric output columns the row formatter coerces. */
  datatype NumField =
    | NOrder | NReceived | NQC | NReject | NPending | NStock
    | NClosingDays | NPrice | NLastReceive | NAutoClosedPenaltyQty

  /** The JSON key of a numeric output column. */
  function FieldName(f: NumField): string {
    match f
    case NOrder => "Order"
    case NReceived => "Received"
    case NQC => "QC"
    case NReject => "Reject"
    case NPending => "Pending"
    case NStock => "Stock"
    case NClosingDays => "ClosingDays"
    case NPrice => "Price"
    case NLastReceive => "LastReceive"
    case NAutoClosedPenaltyQty => "AutoClosedPenaltyQty"
  }

  /** A numeric property of a row object: null, undefined, a number, or a value
      `Number()` turns into NaN. */
  datatype NumCell = NullNum | Undefined | IntVal(n: int) | Unparseable

  /** One projected row of the UNION, as the driver returns it. */
  datatype ReportRow = ReportRow(
    orderNo: SortKey,
    date: DateCell,
    itemCode: Option<string>,
    vendor: Option<string>,
    deliveryDate: Option<string>,
    lReceive: DateCell,
    nums: map<NumField, NumCell>,
    other: map<string, Option<string>>)

  /** SQL subtraction: NULL if either operand is NULL. */
  function SqlSub(a: Option<int>, b: Option<int>): Option<int> {
    if a.Some? && b.Some? then Some(a.value - b.value) else None
  }

  /** The `Pending` expression `OrderQty - RcvdQty - AutoClosedPenaltyQty`. */
  function PendingQty(l: OrderLine): (r: Option<int>)
    ensures r.Some? <==> l.orderQty.Some? && l.rcvdQty.Some? && l.autoClosedPenaltyQty.Some?
    ensures r.Some? ==> r.value == l.orderQty.value - l.rcvdQty.value - l.autoClosedPenaltyQty.value
  {
    SqlSub(SqlSub(l.orderQty, l.rcvdQty), l.autoClosedPenaltyQty)
  }

  function Cell(v: Option<int>): NumCell {
    if v.Some? then IntVal(v.value) else NullNum
  }

  /** The SELECT list of either branch, restricted to the modelled columns. */
  function Project(l: OrderLine): (r: ReportRow)
    ensures r.nums.Keys == {NOrder, NReceived, NQC, NReject, NPending, NStock,
                            NClosingDays, NPrice, NLastReceive, NAutoClosedPenaltyQty}
    ensures r.nums[NPending] == Cell(PendingQty(l))
    ensures l.rcvdQty.Some? && l.inQcQty.Some? && l.orderQty.Some? ==>
              r.nums[NReceived] == IntVal(l.rcvdQty.value - l.inQcQty.value)
  {
    var received := SqlSub(SqlSub(l.orderQty, l.inQcQty), SqlSub(l.orderQty, l.rcvdQty));
    ReportRow(
      l.orderNo, l.orderDate, l.itemCode, l.vendorName, l.deliveryText, l.lastRecDate,
      map[NOrder := Cell(l.orderQty),
          NReceived := Cell(received),
          NQC := Cell(l.inQcQty),
          NReject := Cell(l.rejectQty),
          NPending := Cell(PendingQty(l)),
          NStock := Cell(l.stock),
          NClosingDays := Cell(l.closingDays),
          NPrice := Cell(l.price),
          NLastReceive := Cell(l.rcvdQty),
          NAutoClosedPenaltyQty := Cell(l.autoClosedPenaltyQty)],
      l.other)
  }

  // ---------------------------------------------------------------------------
  // The row predicate

  /** SQL `a > c`, which is unknown (so filters the row out) when `a` is NULL. */
  predicate SqlGt(a: Option<int>, c: int) {
    a.Some? && a.value > c
  }

  predicate SqlEqInt(a: Option<int>, c: int) {
    a.Some? && a.value == c
  }

  /** SQL `a NOT LIKE p` / `a != p` for a pattern without wildcards; NULL is unknown. */
  predicate SqlNe(a: Option<string>, p: string) {
    a.Some? && a.value != p
  }

  /** The status conditions both branches share. */
  predicate OpenLine(l: OrderLine) {
    SqlNe(l.status, "Force Closed") && SqlNe(l.status, "Auto Closed") && SqlNe(l.masterStatus, "Draft")
  }

  /** The WHERE clause of the first branch: quantity still pending. */
  predicate BranchA(l: OrderLine, vendor: int) {
    l.vendorId == vendor && SqlGt(PendingQty(l), 0) && OpenLine(l)
  }

  /** The WHERE clause of the second branch: fully received but still in quality control. */
  predicate BranchB(l: OrderLine, vendor: int) {
    l.vendorId == vendor && SqlEqInt(PendingQty(l), 0) && SqlGt(l.inQcQty, 0) && OpenLine(l)
  }

  /** When a line belongs in the report, stated without reference to the UNION. */
  predicate Qualifies(l: OrderLine, vendor: int) {
    && l.vendorId == vendor
    && l.orderQty.Some? && l.rcvdQty.Some? && l.autoClosedPenaltyQty.Some?
    && (var pending := l.orderQty.value - l.rcvdQty.value - l.autoClosedPenaltyQty.value;
        pending > 0 || (pending == 0 && l.inQcQty.Some? && l.inQcQty.value > 0))
    && l.status.Some? && l.status.value != "Force Closed" && l.status.value != "Auto Closed"
    && l.masterStatus.Some? && l.masterStatus.value != "Draft"
  }

  /** The two branches are disjoint and together select exactly the qualifying lines. */
  lemma BranchesPartition(l: OrderLine, vendor: int)
    ensures Qualifies(l, vendor) <==> BranchA(l, vendor) || BranchB(l, vendor)
    ensures !(BranchA(l, vendor) && BranchB(l, vendor))
  {
  }

  function FilterA(t: seq<OrderLine>, vendor: int): (r: seq<OrderLine>)
    ensures forall l :: l in r ==> BranchA(l, vendor)
  {
    if |t| == 0 then []
    else (if BranchA(t[0], vendor) then [t[0]] else []) + FilterA(t[1..], vendor)
  }

  function FilterB(t: seq<OrderLine>, vendor: int): (r: seq<OrderLine>)
    ensures forall l :: l in r ==> BranchB(l, vendor)
  {
    if |t| == 0 then []
    else (if BranchB(t[0], vendor) then [t[0]] else []) + FilterB(t[1..], vendor)
  }

  /** The reference selection: the qualifying lines of the table, in table order. */
  function Qualifying(t: seq<OrderLine>, vendor: int): seq<OrderLine> {
    if |t| == 0 then []
    else (if Qualifies(t[0], vendor) then [t[0]] else []) + Qualifying(t[1..], vendor)
  }

  /** The UNION ALL of the two branches holds the same lines as the reference selection. */
  lemma {:induction false} UnionIsQualifying(t: seq<OrderLine>, vendor: int)
    ensures multiset(FilterA(t, vendor) + FilterB(t, vendor)) == multiset(Qualifying(t, vendor))
    ensures |FilterA(t, vendor)| + |FilterB(t, vendor)| == |Qualifying(t, vendor)|
  {
    if |t| > 0 {
      UnionIsQualifying(t[1..], vendor);
      BranchesPartition(t[0], vendor);
    }
  }

  /** A line is in the reference selection iff it is in the table and qualifies. */
  lemma {:induction false} QualifyingMembers(t: seq<OrderLine>, vendor: int, l: OrderLine)
    ensures l in Qualifying(t, vendor) <==> l in t && Qualifies(l, vendor)
  {
    if |t| > 0 {
      QualifyingMembers(t[1..], vendor, l);
      assert t == [t[0]] + t[1..];
    }
  }

  function MapProject(ls: seq<OrderLine>): (r: seq<ReportRow>)
    ensures |r| == |ls|
    ensures forall i :: 0 <= i < |ls| ==> r[i] == Project(ls[i])
  {
    if |ls| == 0 then [] else [Project(ls[0])] + MapProject(ls[1..])
  }

  /** The rows of the UNION before ORDER BY: the first branch, then the second. */
  function UnionRows(t: seq<OrderLine>, vendor: int): seq<ReportRow> {
    MapProject(FilterA(t, vendor) + FilterB(t, vendor))
  }

  // ---------------------------------------------------------------------------
  // Sorting

  /** The logical sort names of the allow-list. */
  datatype Column =
    | OrderNoCol | DateCol | ItemCodeCol | VendorCol | OrderCol | PendingCol
    | DeliveryDateCol | ClosingDaysCol

  /** The `sortBy` value that names a column. */
  function ColumnName(c: Column): string {
    match c
    case OrderNoCol => "OrderNo"
    case DateCol => "Date"
    case ItemCodeCol => "ItemCode"
    case VendorCol => "Vendor"
    case OrderCol => "Order"
    case PendingCol => "Pending"
    case DeliveryDateCol => "DeliveryDate"
    case ClosingDaysCol => "ClosingDays"
  }

  /** The SQL column expression the allow-list maps a name to. */
  function ColumnExpr(c: Column): string {
    match c
    case OrderNoCol => "[Order #]"
    case DateCol => "Date"
    case ItemCodeCol => "[Item Code]"
    case VendorCol => "Vendor"
    case OrderCol => "[Order]"
    case PendingCol => "Pending"
    case DeliveryDateCol => "[Delivery Date]"
    case ClosingDaysCol => "ClosingDays"
  }

  /** The keys of `validSortColumns`. */
  const SortNames: set<string> :=
    {"OrderNo", "Date", "ItemCode", "Vendor", "Order", "Pending", "DeliveryDate", "ClosingDays"}

  /** `validSortColumns[sortBy] || '[Order #]'`: the allow-listed column a name
      selects, and the default column for every other name (never an error). */
  function ResolveSortColumn(sortBy: string): (c: Column)
    ensures sortBy in SortNames ==> ColumnName(c) == sortBy
    ensures sortBy !in SortNames ==> c == OrderNoCol
  {
    match sortBy
    case "OrderNo" => OrderNoCol
    case "Date" => DateCol
    case "ItemCode" => ItemCodeCol
    case "Vendor" => VendorCol
    case "Order" => OrderCol
    case "Pending" => PendingCol
    case "DeliveryDate" => DeliveryDateCol
    case "ClosingDays" => ClosingDaysCol
    case _ => OrderNoCol
  }

  datatype Direction = Asc | Desc

  function DirectionText(d: Direction): string {
    if d == Asc then "ASC" else "DESC"
  }

  /** `sortOrder.toUpperCase() === 'ASC' ? 'ASC' : 'DESC'`. */
  function ResolveDirection(sortOrder: string): Direction {
    if ToUpper(sortOrder) == "ASC" then Asc else Desc
  }

  /** The spellings that resolve to ascending: three letters, each an upper- or
      lower-case form of A, S, C (U+017F, the long s, upper-cases to S). */
  lemma AscendingSpellings(s: string)
    ensures ResolveDirection(s) == Asc <==>
      |s| == 3 && s[0] in "aA" && s[1] in "sS\U{017F}" && s[2] in "cC"
  {
    if |s| == 3 && s[0] in "aA" && s[1] in "sS\U{017F}" && s[2] in "cC" {
      assert ToUpper(s) == "ASC";
    }
    if ToUpper(s) == "ASC" {
      assert UpperChar(s[0]) == 'A' && UpperChar(s[1]) == 'S' && UpperChar(s[2]) == 'C';
    }
  }

  function TextKey(v: Option<string>): SortKey {
    if v.Some? then KText(v.value) else KNull
  }

  function DateKey(c: DateCell): SortKey {
    match c
    case DateOf(ValidDate(t, _, _)) => KInt(t)
    case _ => KNull
  }

  function NumKey(m: map<NumField, NumCell>, f: NumField): SortKey {
    if f in m && m[f].IntVal? then KInt(m[f].n) else KNull
  }

  /** The value a projected row holds in the ORDER BY column. */
  function Key(c: Column): ReportRow -> SortKey {
    match c
    case OrderNoCol => (r: ReportRow) => r.orderNo
    case DateCol => (r: ReportRow) => DateKey(r.date)
    case ItemCodeCol => (r: ReportRow) => TextKey(r.itemCode)
    case VendorCol => (r: ReportRow) => TextKey(r.vendor)
    case OrderCol => (r: ReportRow) => NumKey(r.nums, NOrder)
    case PendingCol => (r: ReportRow) => NumKey(r.nums, NPending)
    case DeliveryDateCol => (r: ReportRow) => TextKey(r.deliveryDate)
    case ClosingDaysCol => (r: ReportRow) => NumKey(r.nums, NClosingDays)
  }

  /** `[Delivery Date]` is the `dd/MM/yy` text, so ordering by it is by day of
      month first: 2 January 2025 sorts before 15 December 2024 ascending. */
  lemma DeliveryDateSortsAsText(early: ReportRow, late: ReportRow)
    requires late.deliveryDate == Some("02/01/25") && early.deliveryDate == Some("15/12/24")
    ensures Before(Key(DeliveryDateCol)(late), Key(DeliveryDateCol)(early), false)
    ensures !Before(Key(DeliveryDateCol)(early), Key(DeliveryDateCol)(late), false)
  {
    assert "02/01/25"[0] < "15/12/24"[0];
  }

  // ---------------------------------------------------------------------------
  // The two queries

  /** What the data query is built from: the bound vendor id (`None` is NaN),
      the resolved column and direction, and the OFFSET and FETCH numbers. */
  datatype DataQuery = DataQuery(
    vendor: Option<int>, column: Column, direction: Direction,
    offset: Option<int>, fetch: Option<int>)

  datatype CountQuery = CountQuery(vendor: Option<int>)

  /** `${n}` for a number that may be NaN. */
  function NumberText(n: Option<int>): string {
    if n.Some? then IntToDecimal(n.value) else "NaN"
  }

  /** The text appended to the UNION: one ORDER BY and one OFFSET/FETCH for the whole result. */
  function OrderByClause(q: DataQuery): string {
    " ORDER BY " + ColumnExpr(q.column) + " " + DirectionText(q.direction)
    + " OFFSET " + NumberText(q.offset) + " ROWS FETCH NEXT " + NumberText(q.fetch) + " ROWS ONLY"
  }

  /** `xs` with OFFSET `offset` ROWS FETCH NEXT `fetch` ROWS ONLY. */
  function Window<T>(xs: seq<T>, offset: nat, fetch: nat): (r: seq<T>)
    ensures |r| == if offset >= |xs| then 0 else Min(fetch, |xs| - offset)
    ensures forall i :: 0 <= i < |r| ==> r[i] == xs[offset + i]
  {
    if offset >= |xs| then [] else xs[offset..Min(offset + fetch, |xs|)]
  }

  function Min(a: int, b: int): int {
    if a <= b then a else b
  }

  /** `Number.MAX_SAFE_INTEGER`: the driver binds a number parameter as `int`
      or `bigint` only when its magnitude is at most this. */
  const SafeMax: int := 0x1f_ffff_ffff_ffff

  /** The widest integer the engine takes as an OFFSET or FETCH row count. */
  const BigintMax: int := 0x7fff_ffff_ffff_ffff

  /** `COUNT(*)` is an `int`. */
  const IntMax: int := 0x7fff_ffff

  predicate SafeInteger(n: int) {
    -SafeMax <= n <= SafeMax
  }

  predicate InBigint(n: int) {
    -BigintMax - 1 <= n <= BigintMax
  }

  /** The checks the driver and the engine make before the data query runs:
      the driver refuses a NaN or unsafe vendor id; the engine refuses a NaN
      OFFSET/FETCH (a syntax error), a row count outside `bigint`, a negative
      OFFSET and a FETCH below one. */
  predicate Runnable(q: DataQuery) {
    && q.vendor.Some? && SafeInteger(q.vendor.value)
    && q.offset.Some? && q.fetch.Some?
    && 0 <= q.offset.value <= BigintMax && 1 <= q.fetch.value <= BigintMax
  }

  /** The error of the first check a query fails. */
  function RunError(q: DataQuery): string {
    if q.vendor.None? || !SafeInteger(q.vendor.value) then "Validation failed for parameter 'vendorId'. Invalid number."
    else if q.offset.None? || q.fetch.None? then "Invalid column name 'NaN'."
    else if !InBigint(q.offset.value) then "The number of rows provided for a OFFSET clause must be an integer."
    else if !InBigint(q.fetch.value) then "The number of rows provided for a FETCH clause must be an integer."
    else if q.offset.value < 0 then "The offset specified in a OFFSET clause may not be negative."
    else "The number of rows provided for a FETCH clause must be greater then zero."
  }

  /** The data query against the joined table. */
  function RunData(q: DataQuery, t: seq<OrderLine>): Result<seq<ReportRow>, string> {
    if !Runnable(q) then Failure(RunError(q))
    else
      var ordered := Sort(UnionRows(t, q.vendor.value), Key(q.column), q.direction == Desc);
      Success(Window(ordered, q.offset.value, q.fetch.value))
  }

  /** The data query succeeds exactly for a safe vendor id, an OFFSET from 0 to
      the `bigint` maximum and a FETCH from 1 to the `bigint` maximum. */
  lemma RunDataSucceedsIff(q: DataQuery, t: seq<OrderLine>)
    ensures RunData(q, t).Success? <==>
      && q.vendor.Some? && SafeInteger(q.vendor.value)
      && q.offset.Some? && 0 <= q.offset.value <= BigintMax
      && q.fetch.Some? && 1 <= q.fetch.value <= BigintMax
  {
  }

  /** The COUNT query: the number of rows of the same two-branch UNION, which
      overflows the `int` that COUNT(*) returns beyond `IntMax`. */
  function RunCount(q: CountQuery, t: seq<OrderLine>): Result<nat, string> {
    if q.vendor.None? || !SafeInteger(q.vendor.value) then
      Result<nat, string>.Failure("Validation failed for parameter 'vendorId'. Invalid number.")
    else
      var n := |FilterA(t, q.vendor.value)| + |FilterB(t, q.vendor.value)|;
      if n > IntMax then Result<nat, string>.Failure("Arithmetic overflow error converting expression to data type int.")
      else Success(n)
  }

  /** The count query succeeds exactly for a safe vendor id with at most
      `IntMax` qualifying lines, and then counts exactly those lines. */
  lemma CountIsQualifying(t: seq<OrderLine>, vendor: int)
    ensures RunCount(CountQuery(Some(vendor)), t).Success? <==> SafeInteger(vendor) && |Qualifying(t, vendor)| <= IntMax
    ensures RunCount(CountQuery(Some(vendor)), t).Success? ==>
              RunCount(CountQuery(Some(vendor)), t).value == |Qualifying(t, vendor)|
  {
    UnionIsQualifying(t, vendor);
  }

  /** Every row the data query returns is the projection of a qualifying line of
      the table, the rows are in ORDER BY order, and there are at most FETCH of them. */
  lemma DataRowsQualify(q: DataQuery, t: seq<OrderLine>)
    requires RunData(q, t).Success?
    ensures |RunData(q, t).value| <= q.fetch.value
    ensures forall r :: r in RunData(q, t).value ==>
              exists l :: l in t && Qualifies(l, q.vendor.value) && r == Project(l)
    ensures Sorted(RunData(q, t).value, Key(q.column), q.direction == Desc)
  {
    var v := q.vendor.value;
    var ordered := Sort(UnionRows(t, v), Key(q.column), q.direction == Desc);
    var w := RunData(q, t).value;
    SortIsSortedPermutation(UnionRows(t, v), Key(q.column), q.direction == Desc);
    assert w == Window(ordered, q.offset.value, q.fetch.value);
    forall r | r in w
      ensures exists l :: l in t && Qualifies(l, v) && r == Project(l)
    {
      WindowMember(ordered, q.offset.value, q.fetch.value, r);
      assert r in multiset(ordered);
      UnionRowMember(t, v, r);
    }
  }

  lemma WindowMember<T>(xs: seq<T>, offset: nat, fetch: nat, x: T)
    requires x in Window(xs, offset, fetch)
    ensures x in xs
  {
    var w := Window(xs, offset, fetch);
    var i :| 0 <= i < |w| && w[i] == x;
    assert xs[offset + i] == x;
  }

  /** A row of the UNION is the projection of a qualifying line of the table. */
  lemma UnionRowMember(t: seq<OrderLine>, vendor: int, r: ReportRow)
    requires r in multiset(UnionRows(t, vendor))
    ensures exists l :: l in t && Qualifies(l, vendor) && r == Project(l)
  {
    var u := FilterA(t, vendor) + FilterB(t, vendor);
    var rows := UnionRows(t, vendor);
    assert r in rows;
    var k :| 0 <= k < |rows| && rows[k] == r;
    assert r == Project(u[k]);
    UnionIsQualifying(t, vendor);
    assert u[k] in multiset(u);
    QualifyingMembers(t, vendor, u[k]);
  }

  /** Where page `page` (counted from 0) starts. */
  function PageStart(page: nat, limit: nat): nat {
    page * limit
  }
  /** With two rows tied on the sort key, both orders are valid ORDER BY
      results; if page 1 is read from one and page 2 from the other, with one
      row per page, the first row is shown twice and the second never. */
  lemma TiedPagesCanRepeat<T>(a: T, b: T, key: T -> SortKey, desc: bool)
    requires a != b && key(a) == key(b)
    ensures var first, second := [a, b], [b, a];
            && multiset(first) == multiset(second)
            && Sorted(first, key, desc) && Sorted(second, key, desc)
            && Window(first, PageStart(0, 1), 1) + Window(second, PageStart(1, 1), 1) == [a, a]
  {
    BeforeTotal(key(a), key(a), desc);
    var first, second := [a, b], [b, a];
    assert Window(first, PageStart(0, 1), 1) == [a];
    assert Window(second, PageStart(1, 1), 1) == [a];
  }

  /** Rows on an earlier page come no later in the ORDER BY order than rows on a
      later page: the order is global across both branches of the UNION. */
  lemma PagesGloballyOrdered<T>(xs: seq<T>, key: T -> SortKey, desc: bool,
                                limit: nat, p: nat, q: nat, i: nat, j: nat)
    requires Sorted(xs, key, desc) && p < q
    requires i < |Window(xs, PageStart(p, limit), limit)| && j < |Window(xs, PageStart(q, limit), limit)|
    ensures Before(key(Window(xs, PageStart(p, limit), limit)[i]), key(Window(xs, PageStart(q, limit), limit)[j]), desc)
  {
    PageOffsetsApart(p, q, limit);
    WindowsOrdered(xs, key, desc, PageStart(p, limit), PageStart(q, limit), limit, i, j);
  }
  lemma WindowsOrdered<T>(xs: seq<T>, key: T -> SortKey, desc: bool,
                          a: nat, b: nat, limit: nat, i: nat, j: nat)
    requires Sorted(xs, key, desc) && a + limit <= b
    requires i < |Window(xs, a, limit)| && j < |Window(xs, b, limit)|
    ensures Before(key(Window(xs, a, limit)[i]), key(Window(xs, b, limit)[j]), desc)
  {
    assert Window(xs, a, limit)[i] == xs[a + i];
    assert Window(xs, b, limit)[j] == xs[b + j];
  }
  lemma {:induction false} PageOffsetsApart(p: nat, q: nat, limit: nat)
    requires p < q
    ensures PageStart(p, limit) + limit <= PageStart(q, limit)
    decreases q
  {
    assert q * limit == (q - 1) * limit + limit;
    if q - 1 > p {
      PageOffsetsApart(p, q - 1, limit);
    }
  }

  /** The pages 0 .. k-1 laid end to end. */
  function Pages<T>(xs: seq<T>, limit: nat, k: nat): seq<T> {
    if k == 0 then [] else Pages(xs, limit, k - 1) + Window(xs, PageStart(k - 1, limit), limit)
  }

  /** The first `k` pages are exactly the first `k * limit` rows. */
  lemma {:induction false} PagesArePrefix<T>(xs: seq<T>, limit: nat, k: nat)
    requires limit >= 1
    ensures Pages(xs, limit, k) == xs[..Min(PageStart(k, limit), |xs|)]
  {
    if k > 0 {
      PagesArePrefix(xs, limit, k - 1);
      PageStartStep(k, limit);
      PrefixThenWindow(xs, PageStart(k - 1, limit), limit);
    }
  }

  lemma PageStartStep(k: nat, limit: nat)
    requires k >= 1
    ensures PageStart(k, limit) == PageStart(k - 1, limit) + limit
  {
  }

  /** The rows before `offset` followed by the window at `offset` are the
      rows before `offset + fetch`. */
  lemma PrefixThenWindow<T>(xs: seq<T>, offset: nat, fetch: nat)
    ensures xs[..Min(offset, |xs|)] + Window(xs, offset, fetch) == xs[..Min(offset + fetch, |xs|)]
  {
    if offset < |xs| {
      var hi := Min(offset + fetch, |xs|);
      assert Window(xs, offset, fetch) == xs[offset..hi];
      assert xs[..offset] + xs[offset..hi] == xs[..hi];
    }
  }

  /** `pages` pages of `limit` rows hold `total` rows, and one page fewer
      would not. */
  predicate PageCountFor(pages: nat, total: nat, limit: nat) {
    pages * limit >= total && (pages == 0 || (pages - 1) * limit < total)
  }

  /** The rows of pages 1 .. k laid end to end. */
  function Concat<T>(rows: nat -> seq<T>, k: nat): seq<T> {
    if k == 0 then [] else Concat(rows, k - 1) + rows(k)
  }

  /** The `j`-th window of `xs`, counting pages from 1. */
  function PageWindow<T>(xs: seq<T>, limit: nat, j: nat): seq<T> {
    if j == 0 then [] else Window(xs, PageStart(j - 1, limit), limit)
  }

  /** Laying pages 1 .. k end to end is `Pages`. */
  lemma {:induction false} PagesIsConcat<T>(xs: seq<T>, limit: nat, k: nat)
    ensures Concat((j: nat) => PageWindow(xs, limit, j), k) == Pages(xs, limit, k)
  {
    if k > 0 {
      PagesIsConcat(xs, limit, k - 1);
    }
  }

  /** When page `j` shows part `j` mapped through a row-by-row `f`, for every
      `j` up to `k`, the pages 1 .. k together show the parts laid end to end,
      mapped the same way. */
  lemma {:induction false} ConcatMap<A, B>(rows: nat -> seq<B>, parts: nat -> seq<A>, k: nat, f: seq<A> -> seq<B>)
    requires f([]) == []
    requires forall a, b :: f(a + b) == f(a) + f(b)
    requires forall j: nat :: 1 <= j <= k ==> rows(j) == f(parts(j))
    ensures Concat(rows, k) == f(Concat(parts, k))
  {
    if k > 0 {
      ConcatMap(rows, parts, k - 1, f);
      Distributes(f, Concat(parts, k - 1), parts(k));
    }
  }

  lemma Distributes<A, B>(f: seq<A> -> seq<B>, x: seq<A>, y: seq<A>)
    requires forall a, b :: f(a + b) == f(a) + f(b)
    ensures f(x + y) == f(x) + f(y)
  {
  }

  /** `Math.ceil(n / d)` for a positive divisor. */
  function CeilDiv(n: nat, d: nat): (r: nat)
    requires d >= 1
    ensures PageCountFor(r, n, d)
  {
    (n + d - 1) / d
  }

  /** The page count is unique: it is `Math.ceil(total / limit)`. */
  lemma PageCountIsCeil(pages: nat, total: nat, limit: nat)
    requires limit >= 1 && PageCountFor(pages, total, limit)
    ensures pages == CeilDiv(total, limit)
  {
    var c := CeilDiv(total, limit);
    if pages > c {
      MulMonotone(c, pages - 1, limit);
    } else if pages < c {
      MulMonotone(pages, c - 1, limit);
    }
  }

  lemma MulMonotone(a: nat, b: nat, m: nat)
    requires a <= b
    ensures a * m <= b * m
  {
  }

  /** Paging through `totalPages` pages visits every row exactly once, in order. */
  lemma AllPagesCoverResult<T>(xs: seq<T>, limit: nat)
    requires limit >= 1
    ensures Pages(xs, limit, CeilDiv(|xs|, limit)) == xs
  {
    PagesArePrefix(xs, limit, CeilDiv(|xs|, limit));
  }
}
