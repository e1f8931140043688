/**
 * The per-row formatting the pending-orders route applies to the rows the
 * data query returns: the two date columns become `YYYY-MM-DD` text or null,
 * and the ten numeric columns are coerced with `Number(v) || 0` unless they
 * are null or undefined.
 */
module PendingFormat {
  import opened Wrappers
  import opened JsText
  import opened JsValue
  import opened Ordering
  import opened PendingQuery

  /** A formatted date column: null, or the calendar day of the ISO timestamp. */
  datatype OutDate = DateNull | DateText(day: string)

  /** One row of the JSON `data` array. */
  datatype FormattedRow = FormattedRow(
    orderNo: SortKey,
    date: OutDate,
    itemCode: Option<string>,
    vendor: Option<string>,
    deliveryDate: Option<string>,
    lReceive: OutDate,
    nums: map<NumField, NumCell>,
    other: map<string, Option<string>>)

  /** A date column: left alone when null (falsy); otherwise the part of
      `toISOString()` before the `T` when the date is valid and its local year
      is after 1900, and null when it is not. */
  function FormatDate(c: DateCell): (r: OutDate)
    ensures r.DateText? <==> c.DateOf? && c.d.ValidDate? && c.d.localYear > 1900
    ensures r.DateText? ==> StartsWith(c.d.iso, r.day) && 'T' !in r.day
  {
    match c
    case NullDate => DateNull
    case DateOf(InvalidDate) => DateNull
    case DateOf(ValidDate(_, year, iso)) =>
      if year > 1900 then DateText(BeforeFirst(iso, 'T')) else DateNull
  }

  /** An ISO timestamp `YYYY-MM-DDTHH:mm:ss.sssZ` is cut down to its first ten
      characters, the calendar day. */
  lemma FormatDateKeepsDay(time: int, year: int, day: string, clock: string)
    requires year > 1900 && |day| == 10 && 'T' !in day
    ensures FormatDate(DateOf(ValidDate(time, year, day + "T" + clock))) == DateText(day)
  {
    var iso := day + "T" + clock;
    var r := BeforeFirst(iso, 'T');
    assert iso[..10] == day;
    assert forall k :: 0 <= k < |r| ==> r[k] == iso[k];
    assert iso[10] == 'T';
    assert forall k :: 0 <= k < 10 ==> iso[k] == day[k] && iso[k] != 'T';
    assert |r| == 10;
    assert r == iso[..10];
  }

  /** `if (v !== null && v !== undefined) v = Number(v) || 0`. */
  function CoerceNum(c: NumCell): (r: NumCell)
    ensures c.NullNum? || c.Undefined? ==> r == c
    ensures c.IntVal? ==> r == c
    ensures c.Unparseable? ==> r == IntVal(0)
  {
    match c
    case IntVal(n) => if n != 0 then IntVal(n) else IntVal(0)
    case Unparseable => IntVal(0)
    case _ => c
  }

  /** Coerces the ten numeric columns that the row holds; other keys are left out
      of the map type, and absent keys stay absent. */
  function CoerceNums(m: map<NumField, NumCell>): (r: map<NumField, NumCell>)
    ensures r.Keys == m.Keys
    ensures forall f :: f in m ==> r[f] == CoerceNum(m[f])
  {
    map f | f in m :: CoerceNum(m[f])
  }

  function FormatRow(row: ReportRow): FormattedRow {
    FormattedRow(
      row.orderNo, FormatDate(row.date), row.itemCode, row.vendor, row.deliveryDate,
      FormatDate(row.lReceive), CoerceNums(row.nums), row.other)
  }

  /** After formatting no numeric column is NaN, every number is kept, and the
      columns that are not dates or numbers are copied unchanged. */
  lemma FormatRowFacts(row: ReportRow)
    ensures forall f :: f in FormatRow(row).nums ==> !FormatRow(row).nums[f].Unparseable?
    ensures forall f :: f in row.nums && row.nums[f].IntVal? ==> FormatRow(row).nums[f] == row.nums[f]
    ensures FormatRow(row).nums.Keys == row.nums.Keys
    ensures FormatRow(row).orderNo == row.orderNo && FormatRow(row).itemCode == row.itemCode
    ensures FormatRow(row).vendor == row.vendor && FormatRow(row).deliveryDate == row.deliveryDate
    ensures FormatRow(row).other == row.other
  {
  }

  /** Coercing an already coerced column changes nothing. */
  lemma CoerceNumIdempotent(c: NumCell)
    ensures CoerceNum(CoerceNum(c)) == CoerceNum(c)
  {
  }

  /** A number column the query left NULL is still null in the JSON, not 0. */
  lemma NullStaysNull(row: ReportRow, f: NumField)
    requires f in row.nums && row.nums[f].NullNum?
    ensures FormatRow(row).nums[f] == NullNum
  {
  }

  function MapFormat(rows: seq<ReportRow>): (r: seq<FormattedRow>)
    ensures |r| == |rows|
    ensures forall i :: 0 <= i < |rows| ==> r[i] == FormatRow(rows[i])
  {
    if |rows| == 0 then [] else [FormatRow(rows[0])] + MapFormat(rows[1..])
  }

  /** Formatting is row by row, so it distributes over concatenation. */
  lemma MapFormatAppend(a: seq<ReportRow>, b: seq<ReportRow>)
    ensures MapFormat(a + b) == MapFormat(a) + MapFormat(b)
  {
  }
}
