/**
 * `GET /api/purchase-order-draft`: the vendor check, the closed five-way
 * category switch, the per-category item code and description, the
 * `OrderStat = 'Draft'` and vendor filter with `ORDER BY OrderNo DESC`, and
 * the `{ success, data, category, count }` envelope.
 *
 * Each category reads its own family of tables; the joined lines of all five
 * families are one sequence here, each line tagged with its family.
 */
module PurchaseOrderDraft {
  import opened Wrappers
  import opened JsText
  import opened Ordering

  datatype Category = Material | Preps | Accessories | Packaging | FinishProduct

  /** The `category` text that selects a branch of the switch. */
  function CategoryName(c: Category): string {
    match c
    case Material => "Material"
    case Preps => "Preps"
    case Accessories => "Accessories"
    case Packaging => "Packaging"
    case FinishProduct => "Finish Product"
  }

  const CategoryNames: set<string> := {"Material", "Preps", "Accessories", "Packaging", "Finish Product"}

  /** The `switch (category)` with `category = 'Material'` as the destructuring
      default; `None` is the `default:` branch. */
  function ParseCategory(category: Option<string>): (r: Option<Category>)
    ensures category.None? ==> r == Some(Material)
    ensures category.Some? ==> (r.Some? <==> category.value in CategoryNames)
    ensures category.Some? && r.Some? ==> CategoryName(r.value) == category.value
  {
    match category.GetOr("Material")
    case "Material" => Some(Material)
    case "Preps" => Some(Preps)
    case "Accessories" => Some(Accessories)
    case "Packaging" => Some(Packaging)
    case "Finish Product" => Some(FinishProduct)
    case _ => None
  }

  /** Every category name parses back to its category. */
  lemma CategoryNameRoundTrip(c: Category)
    ensures ParseCategory(Some(CategoryName(c))) == Some(c)
  {
  }

  // ---------------------------------------------------------------------------
  // Lines and rows

  /** One order-detail line of a family, joined with its order master, item,
      variant dimensions and approved-vendor record; SQL NULL is `None`. */
  datatype DraftLine = DraftLine(
    family: Category,
    vendorId: int,
    orderStat: Option<string>,
    orderNo: SortKey,
    orderDate: Option<string>,
    vendorName: Option<string>,
    itemCode: Option<string>,      // IM.ItemCode
    materialCode: Option<string>,  // M.M_Code
    colourCode: Option<string>,    // C.Code
    gradeCode: Option<string>,     // G.Code
    finishCode: Option<string>,    // F.Code
    productName: Option<string>,   // IM.ProductName
    materialName: Option<string>,  // M.ProductName
    colourName: Option<string>,    // C.Color
    finishName: Option<string>,    // F.Finish
    oldCode: Option<string>,
    orderQty: Option<int>,
    categoryName: Option<string>,  // C2.Description
    picture: Option<string>,
    imagePath: Option<string>)

  /** The three extra columns only the Finish Product branch selects. */
  datatype FinishExtras = FinishExtras(category: Option<string>, picture: Option<string>, imagePath: Option<string>)

  /** One row of the `data` array. */
  datatype DraftRow = DraftRow(
    vendor: Option<string>, orderNo: SortKey, orderDate: Option<string>,
    itemCode: Option<string>, oldCode: Option<string>, description: Option<string>,
    reserveQty: Option<int>, extras: Option<FinishExtras>)

  predicate AllPresent(parts: seq<Option<string>>) {
    forall i :: 0 <= i < |parts| ==> parts[i].Some?
  }

  function Values(parts: seq<Option<string>>): (r: seq<string>)
    requires AllPresent(parts)
    ensures |r| == |parts|
    ensures forall i :: 0 <= i < |parts| ==> r[i] == parts[i].value
  {
    if |parts| == 0 then [] else [parts[0].value] + Values(parts[1..])
  }

  /** `a + sep + b + sep + ...` on nvarchar operands: NULL as soon as one part is NULL. */
  function SqlConcat(parts: seq<Option<string>>, sep: string): (r: Option<string>)
    ensures r.Some? <==> AllPresent(parts)
  {
    if AllPresent(parts) then Some(Join(Values(parts), sep)) else None
  }

  /** The dimension codes the `ItemCode` column hyphen-joins, per category. */
  function ItemCodeParts(c: Category, l: DraftLine): seq<Option<string>> {
    match c
    case Material => [l.itemCode, l.colourCode, l.gradeCode]
    case Preps => [l.itemCode, l.finishCode]
    case Accessories => [l.itemCode, l.colourCode]
    case Packaging => [l.itemCode, l.colourCode]
    case FinishProduct => [l.itemCode, l.materialCode, l.colourCode, l.finishCode]
  }

  /** The `Description` column: the product name, except for Finish Product,
      which joins four names with "/ ". */
  function Description(c: Category, l: DraftLine): Option<string> {
    if c == FinishProduct then SqlConcat([l.productName, l.materialName, l.colourName, l.finishName], "/ ")
    else l.productName
  }

  /** The SELECT list of the branch for category `c`. */
  function DraftRowOf(c: Category, l: DraftLine): DraftRow {
    DraftRow(
      l.vendorName, l.orderNo, l.orderDate, SqlConcat(ItemCodeParts(c, l), "-"), l.oldCode,
      Description(c, l), l.orderQty,
      if c == FinishProduct then Some(FinishExtras(l.categoryName, l.picture, l.imagePath)) else None)
  }

  /** The item code of each category, spelled out: item-colour-grade for
      Material, item-finish for Preps, item-colour for Accessories and Packaging,
      and item-material-colour-finish for Finish Product. */
  lemma {:induction false} ItemCodes(l: DraftLine, item: string, m: string, col: string, g: string, f: string)
    requires l.itemCode == Some(item) && l.materialCode == Some(m) && l.colourCode == Some(col)
    requires l.gradeCode == Some(g) && l.finishCode == Some(f)
    ensures DraftRowOf(Material, l).itemCode == Some(item + "-" + col + "-" + g)
    ensures DraftRowOf(Preps, l).itemCode == Some(item + "-" + f)
    ensures DraftRowOf(Accessories, l).itemCode == Some(item + "-" + col)
    ensures DraftRowOf(Packaging, l).itemCode == Some(item + "-" + col)
    ensures DraftRowOf(FinishProduct, l).itemCode == Some(item + "-" + m + "-" + col + "-" + f)
  {
    JoinThree([item, col, g], "-");
    JoinTwo([item, f], "-");
    JoinTwo([item, col], "-");
    JoinFour([item, m, col, f], "-");
    assert Values(ItemCodeParts(Material, l)) == [item, col, g];
    assert Values(ItemCodeParts(Preps, l)) == [item, f];
    assert Values(ItemCodeParts(Accessories, l)) == [item, col];
    assert Values(ItemCodeParts(Packaging, l)) == [item, col];
    assert Values(ItemCodeParts(FinishProduct, l)) == [item, m, col, f];
  }

  lemma JoinTwo(xs: seq<string>, sep: string)
    requires |xs| == 2
    ensures Join(xs, sep) == xs[0] + sep + xs[1]
  {
    assert xs[1..][1..] == [];
  }

  lemma JoinThree(xs: seq<string>, sep: string)
    requires |xs| == 3
    ensures Join(xs, sep) == xs[0] + sep + xs[1] + sep + xs[2]
  {
    JoinTwo(xs[1..], sep);
  }

  lemma JoinFour(xs: seq<string>, sep: string)
    requires |xs| == 4
    ensures Join(xs, sep) == xs[0] + sep + xs[1] + sep + xs[2] + sep + xs[3]
  {
    JoinThree(xs[1..], sep);
  }

  /** The Finish Product description joins the four names with "/ "; the other
      categories show the product name alone. */
  lemma {:induction false} Descriptions(l: DraftLine, c: Category, p: string, m: string, col: string, f: string)
    requires l.productName == Some(p) && l.materialName == Some(m)
    requires l.colourName == Some(col) && l.finishName == Some(f)
    ensures c != FinishProduct ==> DraftRowOf(c, l).description == Some(p)
    ensures DraftRowOf(FinishProduct, l).description == Some(p + "/ " + m + "/ " + col + "/ " + f)
  {
    JoinFour([p, m, col, f], "/ ");
    assert Values([l.productName, l.materialName, l.colourName, l.finishName]) == [p, m, col, f];
  }

  // ---------------------------------------------------------------------------
  // The query

  /** Drop leading spaces. */
  function DropLeadingSpaces(s: string): (r: string)
    ensures |r| <= |s| && r == s[|s| - |r|..]
    ensures |r| > 0 ==> r[0] != ' '
    ensures forall i :: 0 <= i < |s| - |r| ==> s[i] == ' '
  {
    if |s| > 0 && s[0] == ' ' then DropLeadingSpaces(s[1..]) else s
  }

  /** Drop trailing spaces. */
  function DropTrailingSpaces(s: string): (r: string)
    ensures |r| <= |s| && r == s[..|r|]
    ensures |r| > 0 ==> r[|r| - 1] != ' '
    ensures forall i :: |r| <= i < |s| ==> s[i] == ' '
  {
    if |s| > 0 && s[|s| - 1] == ' ' then DropTrailingSpaces(s[..|s| - 1]) else s
  }

  const IntMin: int := -2147483648
  const IntMax: int := 2147483647

  /** The engine's implicit conversion of the nvarchar parameter to the `int`
      column it is compared with: surrounding spaces are ignored, an all-blank
      text or a sign alone is 0, otherwise an optional sign and decimal digits
      that fit in 32 bits. */
  function SqlTextToInt(s: string): (r: Result<int, string>)
    ensures r.Success? ==> IntMin <= r.value <= IntMax
    ensures var t := DropTrailingSpaces(DropLeadingSpaces(s));
            t == "" || t == "-" || t == "+" ==> r == Success(0)
  {
    var t := DropTrailingSpaces(DropLeadingSpaces(s));
    if t == "" then Success(0)
    else
      var signed := t[0] == '-' || t[0] == '+';
      var d := if signed then t[1..] else t;
      if |d| == 0 then Success(0)
      else if !AllDigits(d) then
        Failure("Conversion failed when converting the nvarchar value '" + s + "' to data type int.")
      else
        var v: int := if t[0] == '-' then -(DigitsValue(d) as int) else DigitsValue(d);
        if v < IntMin || v > IntMax then
          Failure("The conversion of the nvarchar value '" + s + "' overflowed an int column.")
        else Success(v)
  }

  /** A vendor id sent as the decimal text of a 32-bit integer converts to that integer. */
  lemma {:induction false} SqlTextToIntOfDecimal(i: int)
    requires IntMin <= i <= IntMax
    ensures SqlTextToInt(IntToDecimal(i)) == Success(i)
  {
    var s := IntToDecimal(i);
    var d := NatToDecimal(if i >= 0 then i else -i);
    assert s[0] != ' ';
    assert s[|s| - 1] == d[|d| - 1];
    assert DropLeadingSpaces(s) == s;
    assert DropTrailingSpaces(s) == s;
    if i < 0 {
      assert s[1..] == d;
    }
  }

  /** The lines the branch for `c` selects: the family's lines whose order is a
      draft of the vendor. */
  predicate IsDraftOf(l: DraftLine, c: Category, vendor: int) {
    l.family == c && l.orderStat == Some("Draft") && l.vendorId == vendor
  }

  function DraftsOf(lines: seq<DraftLine>, c: Category, vendor: int): (r: seq<DraftLine>)
    ensures forall l :: l in r <==> l in lines && IsDraftOf(l, c, vendor)
  {
    if |lines| == 0 then []
    else
      var rest := DraftsOf(lines[1..], c, vendor);
      assert lines == [lines[0]] + lines[1..];
      (if IsDraftOf(lines[0], c, vendor) then [lines[0]] else []) + rest
  }

  function MapDraftRow(c: Category, ls: seq<DraftLine>): (r: seq<DraftRow>)
    ensures |r| == |ls|
    ensures forall i :: 0 <= i < |ls| ==> r[i] == DraftRowOf(c, ls[i])
  {
    if |ls| == 0 then [] else [DraftRowOf(c, ls[0])] + MapDraftRow(c, ls[1..])
  }

  function OrderNoKey(r: DraftRow): SortKey {
    r.orderNo
  }

  /** The branch's query, run with the vendor id text bound as `@vendorId`. */
  function RunDraft(c: Category, vendorText: string, lines: seq<DraftLine>): Result<seq<DraftRow>, string> {
    var v :- SqlTextToInt(vendorText);
    Success(Sort(MapDraftRow(c, DraftsOf(lines, c, v)), OrderNoKey, true))
  }

  // ---------------------------------------------------------------------------
  // The handler

  datatype DraftRequest = DraftRequest(category: Option<string>, vendorId: Option<string>)

  datatype DraftResponse =
    | DraftVendorRequired               // 400 { error: 'Vendor ID is required' }
    | InvalidCategory                   // 400 { error: 'Invalid category' }
    | DraftFailed(details: string)      // 500 { error: 'Internal server error', details }
    | Drafts(data: seq<DraftRow>, category: string, count: nat)  // { success: true, data, category, count }

  predicate DraftVendorMissing(req: DraftRequest) {
    req.vendorId.None? || req.vendorId.value == ""
  }

  function HandleDraft(req: DraftRequest, lines: seq<DraftLine>): DraftResponse {
    if DraftVendorMissing(req) then DraftVendorRequired
    else
      match ParseCategory(req.category)
      case None => InvalidCategory
      case Some(c) =>
        match RunDraft(c, req.vendorId.value, lines)
        case Failure(e) => DraftFailed(e)
        case Success(rows) => Drafts(rows, req.category.GetOr("Material"), |rows|)
  }

  /** The vendor check comes before the category check: without a vendor id
      even an unknown category is "Vendor ID is required". */
  lemma DraftVendorCheckedFirst(req: DraftRequest, lines: seq<DraftLine>)
    requires req.vendorId.None? || req.vendorId == Some("")
    ensures HandleDraft(req, lines) == DraftVendorRequired
  {
  }

  /** With a vendor id, a category outside the five (the empty text included)
      is rejected before any query runs, whatever the table holds. */
  lemma UnknownCategoryRejected(req: DraftRequest, lines: seq<DraftLine>)
    requires !DraftVendorMissing(req) && req.category.Some? && req.category.value !in CategoryNames
    ensures HandleDraft(req, lines) == InvalidCategory
  {
  }

  /** An absent category runs the Material query and echoes "Material". */
  lemma AbsentCategoryIsMaterial(req: DraftRequest, lines: seq<DraftLine>)
    requires !DraftVendorMissing(req) && req.category.None?
    ensures HandleDraft(req, lines) == HandleDraft(req.(category := Some("Material")), lines)
  {
  }

  /** The handler answers with rows exactly when the vendor id is present and
      converts to an int and the category is one of the five. */
  lemma HandleDraftSucceedsIff(req: DraftRequest, lines: seq<DraftLine>)
    ensures HandleDraft(req, lines).Drafts? <==>
      && !DraftVendorMissing(req)
      && (req.category.None? || req.category.value in CategoryNames)
      && SqlTextToInt(req.vendorId.value).Success?
  {
  }

  /** On success: `count` is the number of rows, `category` echoes the request,
      the rows are exactly the category's draft lines of the vendor (as a
      multiset), and they are in descending order number. */
  lemma {:induction false} DraftContents(req: DraftRequest, lines: seq<DraftLine>)
    requires HandleDraft(req, lines).Drafts?
    ensures var r := HandleDraft(req, lines);
            var c := ParseCategory(req.category).value;
            var v := SqlTextToInt(req.vendorId.value).value;
            && r.count == |r.data|
            && r.category == CategoryName(c)
            && multiset(r.data) == multiset(MapDraftRow(c, DraftsOf(lines, c, v)))
            && Sorted(r.data, OrderNoKey, true)
            && (forall l :: l in lines && IsDraftOf(l, c, v) ==> DraftRowOf(c, l) in r.data)
  {
    var r := HandleDraft(req, lines);
    var c := ParseCategory(req.category).value;
    var v := SqlTextToInt(req.vendorId.value).value;
    var ls := DraftsOf(lines, c, v);
    var mapped := MapDraftRow(c, ls);
    assert r.data == Sort(mapped, OrderNoKey, true);
    SortIsSortedPermutation(mapped, OrderNoKey, true);
    forall l | l in lines && IsDraftOf(l, c, v)
      ensures DraftRowOf(c, l) in r.data
    {
      var k :| 0 <= k < |ls| && ls[k] == l;
      assert mapped[k] == DraftRowOf(c, l);
      assert DraftRowOf(c, l) in multiset(mapped);
    }
  }

  /** Every row returned is the row of a draft line of the vendor in the
      requested category. */
  lemma {:induction false} DraftRowsQualify(req: DraftRequest, lines: seq<DraftLine>)
    requires HandleDraft(req, lines).Drafts?
    ensures var c := ParseCategory(req.category).value;
            var v := SqlTextToInt(req.vendorId.value).value;
            forall row :: row in HandleDraft(req, lines).data ==>
              exists l :: l in lines && IsDraftOf(l, c, v) && row == DraftRowOf(c, l)
  {
    var c := ParseCategory(req.category).value;
    var v := SqlTextToInt(req.vendorId.value).value;
    var ls := DraftsOf(lines, c, v);
    var mapped := MapDraftRow(c, ls);
    SortIsSortedPermutation(mapped, OrderNoKey, true);
    forall row | row in HandleDraft(req, lines).data
      ensures exists l :: l in lines && IsDraftOf(l, c, v) && row == DraftRowOf(c, l)
    {
      assert row in multiset(Sort(mapped, OrderNoKey, true));
      assert row in mapped;
      var k :| 0 <= k < |mapped| && mapped[k] == row;
      assert ls[k] in ls;
    }
  }
}
