/**
 * The express-validator rule sets and `handleValidationErrors`.  A rule set
 * is a sequence of chains, one per field; a chain runs its validators in
 * order on the field's text, and every validator that fails adds one error
 * carrying its own message (no chain uses `bail`).  An `optional()` chain is
 * skipped when the field is `undefined`.  The sanitizers (`trim`, `escape`,
 * `normalizeEmail`, `toInt`, `toFloat`) come after the validators they follow
 * and never add an error, so they are left out; `isEmail` and `isFloat`
 * belong to the library and are parameters.
 */
module Validation {
  import opened Wrappers
  import opened JsText
  import opened JsValue

  /** Where a chain reads its field: `body(...)`, `param(...)` or `query(...)`. */
  datatype Location = Body | Params | Query

  datatype Request = Request(body: Record, params: Record, query: Record)

  function Read(req: Request, loc: Location, field: string): Option<Value> {
    match loc
    case Body => Get(req.body, field)
    case Params => Get(req.params, field)
    case Query => Get(req.query, field)
  }

  /** The text a validator sees: `undefined` and `null` become the empty
      string, anything else its `String(...)` form. */
  function ValidatorText(v: Option<Value>): (t: string)
    ensures v.None? || v == Some(Null) ==> t == ""
    ensures v.Some? && v.value.Str? ==> t == v.value.s
  {
    match v
    case None => ""
    case Some(Null) => ""
    case Some(x) => ToText(x)
  }

  // ---------------------------------------------------------------------
  // The two regular expressions and the integer syntax
  // ---------------------------------------------------------------------

  /** The four classes the password's lookaheads ask for. */
  datatype CharClass = Lower | Upper | Digit | Special

  predicate IsSpecial(c: char) {
    c == '@' || c == '$' || c == '!' || c == '%' || c == '*' || c == '?' || c == '&'
  }

  predicate InClass(c: char, cls: CharClass) {
    match cls
    case Lower => 'a' <= c <= 'z'
    case Upper => 'A' <= c <= 'Z'
    case Digit => IsDigit(c)
    case Special => IsSpecial(c)
  }

  /** `[A-Za-z\d@$!%*?&]`, the class the password's first character must be in. */
  predicate IsPasswordStart(c: char) {
    InClass(c, Lower) || InClass(c, Upper) || InClass(c, Digit) || InClass(c, Special)
  }

  /** `(?=.*[class])` at the start of the text: scanning the first line (the
      regular-expression `.` stops at a line terminator) for the class. */
  function LineHas(s: string, cls: CharClass): bool
    decreases |s|
  {
    if |s| == 0 || IsLineTerminator(s[0]) then false
    else InClass(s[0], cls) || LineHas(s[1..], cls)
  }

  /** `/^(?=.*[a-z])(?=.*[A-Z])(?=.*\d)(?=.*[@$!%*?&])[A-Za-z\d@$!%*?&]/`:
      four lookaheads and one character; there is no end anchor. */
  predicate MatchesPassword(s: string) {
    LineHas(s, Lower) && LineHas(s, Upper) && LineHas(s, Digit) && LineHas(s, Special)
    && |s| > 0 && IsPasswordStart(s[0])
  }

  /** `/^[a-zA-Z0-9_]+$/`: one or more word characters and nothing else. */
  function MatchesUsername(s: string): bool
    decreases |s|
  {
    |s| > 0 && IsWordChar(s[0]) && (|s| == 1 || MatchesUsername(s[1..]))
  }

  /** `isInt`: the text must match `^[-+]?[0-9]+$`; `None` when it does not,
      otherwise the number it denotes (leading zeros allowed). */
  function IntText(s: string): Option<int> {
    var signed := |s| > 0 && (s[0] == '-' || s[0] == '+');
    var d := if signed then s[1..] else s;
    if |d| > 0 && AllDigits(d) then
      var m: int := DigitsValue(d);
      Some(if signed && s[0] == '-' then -m else m)
    else None
  }

  // ---------------------------------------------------------------------
  // The validator chains
  // ---------------------------------------------------------------------

  /** The library predicates the model does not define: `isEmail()` and
      `isFloat({ min: 0 })`. */
  datatype Library = Library(isEmail: string -> bool, isNonNegativeFloat: string -> bool)

  /** The validators the rule sets use. */
  datatype Check =
    | Length(minLen: nat, maxLen: Option<nat>)    // isLength({ min, max })
    | UsernamePattern                       // matches(/^[a-zA-Z0-9_]+$/)
    | PasswordPattern                       // matches(the password pattern)
    | IntRange(min: int, max: Option<int>)  // isInt({ min, max })
    | Email                                 // isEmail()
    | NonNegativeFloat                      // isFloat({ min: 0 })

  predicate Passes(c: Check, t: string, lib: Library) {
    match c
    case Length(min, max) => min <= |t| && (max.None? || |t| <= max.value)
    case UsernamePattern => MatchesUsername(t)
    case PasswordPattern => MatchesPassword(t)
    case IntRange(min, max) =>
      IntText(t).Some? && min <= IntText(t).value && (max.None? || IntText(t).value <= max.value)
    case Email => lib.isEmail(t)
    case NonNegativeFloat => lib.isNonNegativeFloat(t)
  }

  /** A validator with the message `withMessage` gave it. */
  datatype Validator = Validator(check: Check, message: string)

  datatype Chain = Chain(location: Location, field: string, optional: bool, validators: seq<Validator>)

  /** One entry of `validationResult(req)`. */
  datatype ValidationError = ValidationError(location: Location, path: string, msg: string, value: Option<Value>)

  /** The errors of the validators that fail on `t`, in chain order. */
  function ValidatorErrors(loc: Location, field: string, vs: seq<Validator>, value: Option<Value>, t: string, lib: Library)
    : (r: seq<ValidationError>)
    ensures |r| <= |vs|
    ensures forall i :: 0 <= i < |r| ==> r[i].location == loc && r[i].path == field && r[i].value == value
    ensures r == [] <==> forall i :: 0 <= i < |vs| ==> Passes(vs[i].check, t, lib)
  {
    if |vs| == 0 then []
    else
      var rest := ValidatorErrors(loc, field, vs[1..], value, t, lib);
      assert forall i :: 1 <= i < |vs| ==> vs[i] == vs[1..][i - 1];
      if Passes(vs[0].check, t, lib) then rest
      else [ValidationError(loc, field, vs[0].message, value)] + rest
  }

  /** The errors of one chain: none when an optional field is `undefined`,
      and otherwise none exactly when every validator accepts the field's text. */
  function ChainErrors(ch: Chain, req: Request, lib: Library): (r: seq<ValidationError>)
    ensures ch.optional && Read(req, ch.location, ch.field).None? ==> r == []
    ensures r == [] <==>
      (ch.optional && Read(req, ch.location, ch.field).None?)
      || forall i :: 0 <= i < |ch.validators| ==>
           Passes(ch.validators[i].check, ValidatorText(Read(req, ch.location, ch.field)), lib)
    ensures forall i :: 0 <= i < |r| ==> r[i].path == ch.field && r[i].value == Read(req, ch.location, ch.field)
  {
    var value := Read(req, ch.location, ch.field);
    if ch.optional && value.None? then []
    else ValidatorErrors(ch.location, ch.field, ch.validators, value, ValidatorText(value), lib)
  }

  /** The errors of every chain, chain after chain. */
  function RunChains(chains: seq<Chain>, req: Request, lib: Library): seq<ValidationError> {
    if |chains| == 0 then []
    else ChainErrors(chains[0], req, lib) + RunChains(chains[1..], req, lib)
  }

  /** No error at all exactly when no chain reports one. */
  lemma {:induction false} RunChainsClean(chains: seq<Chain>, req: Request, lib: Library)
    ensures RunChains(chains, req, lib) == [] <==> forall i :: 0 <= i < |chains| ==> ChainErrors(chains[i], req, lib) == []
    decreases |chains|
  {
    if |chains| > 0 {
      RunChainsClean(chains[1..], req, lib);
      assert forall i :: 1 <= i < |chains| ==> chains[i] == chains[1..][i - 1];
    }
  }

  /** Each chain's errors appear as one block, in the order of the chains. */
  lemma {:induction false} RunChainsAppend(a: seq<Chain>, b: seq<Chain>, req: Request, lib: Library)
    ensures RunChains(a + b, req, lib) == RunChains(a, req, lib) + RunChains(b, req, lib)
    decreases |a|
  {
    if |a| == 0 {
      assert a + b == b;
    } else {
      assert (a + b)[0] == a[0];
      assert (a + b)[1..] == a[1..] + b;
      RunChainsAppend(a[1..], b, req, lib);
      var e := ChainErrors(a[0], req, lib);
      assert e + (RunChains(a[1..], req, lib) + RunChains(b, req, lib))
          == (e + RunChains(a[1..], req, lib)) + RunChains(b, req, lib);
    }
  }

  /** A rule set of one chain reports that chain's errors. */
  lemma RunChains1(c: Chain, req: Request, lib: Library)
    ensures RunChains([c], req, lib) == ChainErrors(c, req, lib)
  {
    assert [c][1..] == [];
    assert ChainErrors(c, req, lib) + [] == ChainErrors(c, req, lib);
  }

  /** A rule set of four chains reports their errors one block after another. */
  lemma RunChains4(c0: Chain, c1: Chain, c2: Chain, c3: Chain, req: Request, lib: Library)
    ensures RunChains([c0, c1, c2, c3], req, lib) ==
      ChainErrors(c0, req, lib) + (ChainErrors(c1, req, lib) + (ChainErrors(c2, req, lib) + ChainErrors(c3, req, lib)))
  {
    RunChainsAppend([c0], [c1, c2, c3], req, lib);
    RunChainsAppend([c1], [c2, c3], req, lib);
    RunChainsAppend([c2], [c3], req, lib);
    assert [c0] + [c1, c2, c3] == [c0, c1, c2, c3];
    assert [c1] + [c2, c3] == [c1, c2, c3];
    assert [c2] + [c3] == [c2, c3];
    RunChains1(c0, req, lib); RunChains1(c1, req, lib); RunChains1(c2, req, lib); RunChains1(c3, req, lib);
  }

  /** A rule set of five chains reports their errors one block after another. */
  lemma RunChains5(c0: Chain, c1: Chain, c2: Chain, c3: Chain, c4: Chain, req: Request, lib: Library)
    ensures RunChains([c0, c1, c2, c3, c4], req, lib) ==
      ChainErrors(c0, req, lib) + (ChainErrors(c1, req, lib) + (ChainErrors(c2, req, lib)
      + (ChainErrors(c3, req, lib) + ChainErrors(c4, req, lib))))
  {
    RunChainsAppend([c0], [c1, c2, c3, c4], req, lib);
    assert [c0] + [c1, c2, c3, c4] == [c0, c1, c2, c3, c4];
    RunChains1(c0, req, lib);
    RunChains4(c1, c2, c3, c4, req, lib);
  }

  // ---------------------------------------------------------------------
  // handleValidationErrors
  // ---------------------------------------------------------------------

  /** `{ field, message, value }` in the 400 body. */
  datatype ErrorEntry = ErrorEntry(field: string, message: string, value: Option<Value>)

  datatype Outcome =
    | Continue                          // next()
    | Rejected(errors: seq<ErrorEntry>) // 400 { success: false, message: 'Validation failed', errors }

  function HandleValidationErrors(errors: seq<ValidationError>): (r: Outcome)
    ensures r.Continue? <==> |errors| == 0
    ensures r.Rejected? ==> |r.errors| == |errors|
    ensures r.Rejected? ==> forall i :: 0 <= i < |errors| ==>
              r.errors[i] == ErrorEntry(errors[i].path, errors[i].msg, errors[i].value)
  {
    if |errors| == 0 then Continue
    else Rejected(seq(|errors|, i requires 0 <= i < |errors| => ErrorEntry(errors[i].path, errors[i].msg, errors[i].value)))
  }

  /** A rule set followed by `handleValidationErrors`. */
  function Validate(chains: seq<Chain>, req: Request, lib: Library): Outcome {
    HandleValidationErrors(RunChains(chains, req, lib))
  }

  /** A rule set lets the request through exactly when every chain is clean,
      and otherwise reports one entry per failed validator. */
  lemma ValidateContinuesIff(chains: seq<Chain>, req: Request, lib: Library)
    ensures Validate(chains, req, lib).Continue? <==>
              forall i :: 0 <= i < |chains| ==> ChainErrors(chains[i], req, lib) == []
    ensures Validate(chains, req, lib).Rejected? ==>
              |Validate(chains, req, lib).errors| == |RunChains(chains, req, lib)|
  {
    RunChainsClean(chains, req, lib);
  }

  // ---------------------------------------------------------------------
  // The rule sets
  // ---------------------------------------------------------------------

  const UsernameRules: seq<Validator> := [
    Validator(Length(3, Some(50)), "Username must be between 3 and 50 characters"),
    Validator(UsernamePattern, "Username can only contain letters, numbers, and underscores")]
  const EmailRules: seq<Validator> := [Validator(Email, "Please provide a valid email address")]
  const FirstNameRules: seq<Validator> := [Validator(Length(1, Some(50)), "First name must be between 1 and 50 characters")]
  const LastNameRules: seq<Validator> := [Validator(Length(1, Some(50)), "Last name must be between 1 and 50 characters")]
  const PasswordRules: seq<Validator> := [
    Validator(Length(8, None), "Password must be at least 8 characters long"),
    Validator(PasswordPattern, "Password must contain at least one uppercase letter, one lowercase letter, one number, and one special character")]
  const ProductNameRules: seq<Validator> := [Validator(Length(1, Some(100)), "Product name must be between 1 and 100 characters")]
  const DescriptionRules: seq<Validator> := [Validator(Length(0, Some(500)), "Description must not exceed 500 characters")]
  const PriceRules: seq<Validator> := [Validator(NonNegativeFloat, "Price must be a positive number")]
  const CategoryRules: seq<Validator> := [Validator(Length(0, Some(50)), "Category must not exceed 50 characters")]
  const StockRules: seq<Validator> := [Validator(IntRange(0, None), "Stock quantity must be a non-negative integer")]

  const ValidateUser: seq<Chain> := [
    Chain(Body, "username", false, UsernameRules),
    Chain(Body, "email", false, EmailRules),
    Chain(Body, "first_name", false, FirstNameRules),
    Chain(Body, "last_name", false, LastNameRules),
    Chain(Body, "password", true, PasswordRules)]

  const ValidateUserUpdate: seq<Chain> := [
    Chain(Body, "username", true, UsernameRules),
    Chain(Body, "email", true, EmailRules),
    Chain(Body, "first_name", true, FirstNameRules),
    Chain(Body, "last_name", true, LastNameRules)]

  const ValidateProduct: seq<Chain> := [
    Chain(Body, "name", false, ProductNameRules),
    Chain(Body, "description", true, DescriptionRules),
    Chain(Body, "price", false, PriceRules),
    Chain(Body, "category", true, CategoryRules),
    Chain(Body, "stock_quantity", false, StockRules)]

  const ValidateProductUpdate: seq<Chain> := [
    Chain(Body, "name", true, ProductNameRules),
    Chain(Body, "description", true, DescriptionRules),
    Chain(Body, "price", true, PriceRules),
    Chain(Body, "category", true, CategoryRules),
    Chain(Body, "stock_quantity", true, StockRules)]

  const ValidateId: seq<Chain> := [
    Chain(Params, "id", false, [Validator(IntRange(1, None), "ID must be a positive integer")])]

  const ValidateQuery: seq<Chain> := [
    Chain(Query, "page", true, [Validator(IntRange(1, None), "Page must be a positive integer")]),
    Chain(Query, "limit", true, [Validator(IntRange(1, Some(100)), "Limit must be between 1 and 100")]),
    Chain(Query, "search", true, [Validator(Length(0, Some(100)), "Search term must not exceed 100 characters")]),
    Chain(Query, "category", true, [Validator(Length(0, Some(50)), "Category must not exceed 50 characters")])]

  // ---------------------------------------------------------------------
  // What each rule accepts, stated without the validator machinery
  // ---------------------------------------------------------------------

  /** 3 to 50 characters, each a letter, a digit or an underscore. */
  predicate ValidUsername(s: string) {
    3 <= |s| <= 50 && forall i :: 0 <= i < |s| ==> IsWordChar(s[i])
  }

  /** Some character of the first line belongs to the class. */
  predicate InFirstLine(s: string, cls: CharClass) {
    exists k :: 0 <= k < |s| && InClass(s[k], cls) && forall j :: 0 <= j < k ==> !IsLineTerminator(s[j])
  }

  /** At least eight characters; the first line holds a lower-case letter, an
      upper-case letter, a digit and one of `@$!%*?&`; the first character is
      one of those kinds.  Nothing is required of the rest of the text. */
  predicate StrongPassword(s: string) {
    8 <= |s| && IsPasswordStart(s[0])
    && InFirstLine(s, Lower) && InFirstLine(s, Upper) && InFirstLine(s, Digit) && InFirstLine(s, Special)
  }

  /** The text is an optionally signed run of decimal digits denoting a number in range. */
  predicate IntegerIn(t: string, min: int, max: Option<int>) {
    IntText(t).Some? && min <= IntText(t).value && (max.None? || IntText(t).value <= max.value)
  }

  /** The username pattern accepts exactly the non-empty texts of word characters. */
  lemma {:induction false} MatchesUsernameIff(s: string)
    ensures MatchesUsername(s) <==> |s| > 0 && forall i :: 0 <= i < |s| ==> IsWordChar(s[i])
    decreases |s|
  {
    if |s| > 1 {
      MatchesUsernameIff(s[1..]);
      assert forall i :: 1 <= i < |s| ==> s[i] == s[1..][i - 1];
    }
  }

  /** The lookahead scan finds a class exactly when some character of the first line is in it. */
  lemma {:induction false} LineHasIff(s: string, cls: CharClass)
    ensures LineHas(s, cls) <==> InFirstLine(s, cls)
    decreases |s|
  {
    if |s| > 0 && !IsLineTerminator(s[0]) {
      LineHasIff(s[1..], cls);
      if InFirstLine(s[1..], cls) {
        var k :| 0 <= k < |s[1..]| && InClass(s[1..][k], cls) && forall j :: 0 <= j < k ==> !IsLineTerminator(s[1..][j]);
        assert forall j :: 0 <= j < k + 1 ==> !IsLineTerminator(s[j]) by {
          forall j | 0 <= j < k + 1 ensures !IsLineTerminator(s[j]) {
            if j > 0 { assert s[j] == s[1..][j - 1]; }
          }
        }
        assert InClass(s[k + 1], cls);
      }
      if InFirstLine(s, cls) && !InClass(s[0], cls) {
        var k :| 0 <= k < |s| && InClass(s[k], cls) && forall j :: 0 <= j < k ==> !IsLineTerminator(s[j]);
        assert k > 0;
        assert s[1..][k - 1] == s[k];
        assert forall j :: 0 <= j < k - 1 ==> s[1..][j] == s[j + 1];
      }
    } else if |s| > 0 {
      assert !InClass(s[0], cls);
    }
  }

  lemma AllPass1(vs: seq<Validator>, t: string, lib: Library)
    requires |vs| == 1
    ensures (forall i :: 0 <= i < |vs| ==> Passes(vs[i].check, t, lib)) <==> Passes(vs[0].check, t, lib)
  {
  }

  lemma AllPass2(vs: seq<Validator>, t: string, lib: Library)
    requires |vs| == 2
    ensures (forall i :: 0 <= i < |vs| ==> Passes(vs[i].check, t, lib)) <==>
              Passes(vs[0].check, t, lib) && Passes(vs[1].check, t, lib)
  {
  }

  /** The password chain accepts exactly the strong passwords. */
  lemma PasswordRulesIff(t: string, lib: Library)
    ensures (forall i :: 0 <= i < |PasswordRules| ==> Passes(PasswordRules[i].check, t, lib)) <==> StrongPassword(t)
  {
    AllPass2(PasswordRules, t, lib);
    LineHasIff(t, Lower); LineHasIff(t, Upper); LineHasIff(t, Digit); LineHasIff(t, Special);
  }

  /** The username chain accepts exactly the valid usernames. */
  lemma UsernameRulesIff(t: string, lib: Library)
    ensures (forall i :: 0 <= i < |UsernameRules| ==> Passes(UsernameRules[i].check, t, lib)) <==> ValidUsername(t)
  {
    AllPass2(UsernameRules, t, lib);
    MatchesUsernameIff(t);
  }

  /** The text of a field as the validators see it. */
  function FieldText(req: Request, loc: Location, field: string): string {
    ValidatorText(Read(req, loc, field))
  }

  /** An optional field passes when it is absent or its text is acceptable. */
  predicate AbsentOr(req: Request, loc: Location, field: string, ok: bool) {
    Read(req, loc, field).None? || ok
  }

  /** `validateUser`: a username, an email address and both names are
      required, and a password, when present, must be strong. */
  lemma ValidateUserIff(req: Request, lib: Library)
    ensures Validate(ValidateUser, req, lib).Continue? <==>
      && ValidUsername(FieldText(req, Body, "username"))
      && lib.isEmail(FieldText(req, Body, "email"))
      && 1 <= |FieldText(req, Body, "first_name")| <= 50
      && 1 <= |FieldText(req, Body, "last_name")| <= 50
      && AbsentOr(req, Body, "password", StrongPassword(FieldText(req, Body, "password")))
  {
    RunChains5(ValidateUser[0], ValidateUser[1], ValidateUser[2], ValidateUser[3], ValidateUser[4], req, lib);
    UsernameRulesIff(FieldText(req, Body, "username"), lib);
    AllPass1(EmailRules, FieldText(req, Body, "email"), lib);
    AllPass1(FirstNameRules, FieldText(req, Body, "first_name"), lib);
    AllPass1(LastNameRules, FieldText(req, Body, "last_name"), lib);
    PasswordRulesIff(FieldText(req, Body, "password"), lib);
  }

  /** `validateUserUpdate`: the same rules, every field optional and no password rule. */
  lemma ValidateUserUpdateIff(req: Request, lib: Library)
    ensures Validate(ValidateUserUpdate, req, lib).Continue? <==>
      && AbsentOr(req, Body, "username", ValidUsername(FieldText(req, Body, "username")))
      && AbsentOr(req, Body, "email", lib.isEmail(FieldText(req, Body, "email")))
      && AbsentOr(req, Body, "first_name", 1 <= |FieldText(req, Body, "first_name")| <= 50)
      && AbsentOr(req, Body, "last_name", 1 <= |FieldText(req, Body, "last_name")| <= 50)
  {
    var c := ValidateUserUpdate;
    RunChains4(c[0], c[1], c[2], c[3], req, lib);
    UsernameRulesIff(FieldText(req, Body, "username"), lib);
    AllPass1(EmailRules, FieldText(req, Body, "email"), lib);
    AllPass1(FirstNameRules, FieldText(req, Body, "first_name"), lib);
    AllPass1(LastNameRules, FieldText(req, Body, "last_name"), lib);
  }

  /** `validateProduct`: a name of 1 to 100 characters, a non-negative price
      and a non-negative integer stock are required; a description of at
      most 500 and a category of at most 50 characters are optional. */
  lemma ValidateProductIff(req: Request, lib: Library)
    ensures Validate(ValidateProduct, req, lib).Continue? <==>
      && 1 <= |FieldText(req, Body, "name")| <= 100
      && AbsentOr(req, Body, "description", |FieldText(req, Body, "description")| <= 500)
      && lib.isNonNegativeFloat(FieldText(req, Body, "price"))
      && AbsentOr(req, Body, "category", |FieldText(req, Body, "category")| <= 50)
      && IntegerIn(FieldText(req, Body, "stock_quantity"), 0, None)
  {
    var c := ValidateProduct;
    RunChains5(c[0], c[1], c[2], c[3], c[4], req, lib);
    ProductRules(req, lib);
  }

  /** `validateProductUpdate`: the product rules with every field optional. */
  lemma ValidateProductUpdateIff(req: Request, lib: Library)
    ensures Validate(ValidateProductUpdate, req, lib).Continue? <==>
      && AbsentOr(req, Body, "name", 1 <= |FieldText(req, Body, "name")| <= 100)
      && AbsentOr(req, Body, "description", |FieldText(req, Body, "description")| <= 500)
      && AbsentOr(req, Body, "price", lib.isNonNegativeFloat(FieldText(req, Body, "price")))
      && AbsentOr(req, Body, "category", |FieldText(req, Body, "category")| <= 50)
      && AbsentOr(req, Body, "stock_quantity", IntegerIn(FieldText(req, Body, "stock_quantity"), 0, None))
  {
    var c := ValidateProductUpdate;
    RunChains5(c[0], c[1], c[2], c[3], c[4], req, lib);
    ProductRules(req, lib);
  }

  /** What each single-validator product rule accepts. */
  lemma ProductRules(req: Request, lib: Library)
    ensures (forall i :: 0 <= i < |ProductNameRules| ==> Passes(ProductNameRules[i].check, FieldText(req, Body, "name"), lib))
              <==> 1 <= |FieldText(req, Body, "name")| <= 100
    ensures (forall i :: 0 <= i < |DescriptionRules| ==> Passes(DescriptionRules[i].check, FieldText(req, Body, "description"), lib))
              <==> |FieldText(req, Body, "description")| <= 500
    ensures (forall i :: 0 <= i < |PriceRules| ==> Passes(PriceRules[i].check, FieldText(req, Body, "price"), lib))
              <==> lib.isNonNegativeFloat(FieldText(req, Body, "price"))
    ensures (forall i :: 0 <= i < |CategoryRules| ==> Passes(CategoryRules[i].check, FieldText(req, Body, "category"), lib))
              <==> |FieldText(req, Body, "category")| <= 50
    ensures (forall i :: 0 <= i < |StockRules| ==> Passes(StockRules[i].check, FieldText(req, Body, "stock_quantity"), lib))
              <==> IntegerIn(FieldText(req, Body, "stock_quantity"), 0, None)
  {
    AllPass1(ProductNameRules, FieldText(req, Body, "name"), lib);
    AllPass1(DescriptionRules, FieldText(req, Body, "description"), lib);
    AllPass1(PriceRules, FieldText(req, Body, "price"), lib);
    AllPass1(CategoryRules, FieldText(req, Body, "category"), lib);
    AllPass1(StockRules, FieldText(req, Body, "stock_quantity"), lib);
  }

  /** `validateId`: the route parameter is an integer of at least 1. */
  lemma ValidateIdIff(req: Request, lib: Library)
    ensures Validate(ValidateId, req, lib).Continue? <==> IntegerIn(FieldText(req, Params, "id"), 1, None)
  {
    var c := ValidateId[0];
    assert RunChains(ValidateId, req, lib) == ChainErrors(c, req, lib) by {
      assert ValidateId[1..] == [];
    }
    AllPass1(c.validators, FieldText(req, Params, "id"), lib);
  }

  /** `validateQuery`: page at least 1, limit between 1 and 100, search at
      most 100 and category at most 50 characters, each only when present. */
  lemma ValidateQueryIff(req: Request, lib: Library)
    ensures Validate(ValidateQuery, req, lib).Continue? <==>
      && AbsentOr(req, Query, "page", IntegerIn(FieldText(req, Query, "page"), 1, None))
      && AbsentOr(req, Query, "limit", IntegerIn(FieldText(req, Query, "limit"), 1, Some(100)))
      && AbsentOr(req, Query, "search", |FieldText(req, Query, "search")| <= 100)
      && AbsentOr(req, Query, "category", |FieldText(req, Query, "category")| <= 50)
  {
    var c := ValidateQuery;
    RunChains4(c[0], c[1], c[2], c[3], req, lib);
    AllPass1(c[0].validators, FieldText(req, Query, "page"), lib);
    AllPass1(c[1].validators, FieldText(req, Query, "limit"), lib);
    AllPass1(c[2].validators, FieldText(req, Query, "search"), lib);
    AllPass1(c[3].validators, FieldText(req, Query, "category"), lib);
  }

  /** An update with an empty body always goes through. */
  lemma EmptyUpdatesPass(lib: Library)
    ensures Validate(ValidateUserUpdate, Request(map[], map[], map[]), lib) == Continue
    ensures Validate(ValidateProductUpdate, Request(map[], map[], map[]), lib) == Continue
    ensures Validate(ValidateQuery, Request(map[], map[], map[]), lib) == Continue
  {
    var req := Request(map[], map[], map[]);
    var u, p, q := ValidateUserUpdate, ValidateProductUpdate, ValidateQuery;
    RunChains4(u[0], u[1], u[2], u[3], req, lib);
    RunChains5(p[0], p[1], p[2], p[3], p[4], req, lib);
    RunChains4(q[0], q[1], q[2], q[3], req, lib);
  }

  /** A user body with nothing in it fails five validators, reported in
      chain order: both username rules, the email, and both names. */
  lemma EmptyUserBody(lib: Library)
    requires !lib.isEmail("")
    ensures Validate(ValidateUser, Request(map[], map[], map[]), lib) == Rejected([
      ErrorEntry("username", "Username must be between 3 and 50 characters", None),
      ErrorEntry("username", "Username can only contain letters, numbers, and underscores", None),
      ErrorEntry("email", "Please provide a valid email address", None),
      ErrorEntry("first_name", "First name must be between 1 and 50 characters", None),
      ErrorEntry("last_name", "Last name must be between 1 and 50 characters", None)])
  {
    var req := Request(map[], map[], map[]);
    var c := ValidateUser;
    RunChains5(c[0], c[1], c[2], c[3], c[4], req, lib);
    assert UsernameRules[1..] == [UsernameRules[1]];
    assert !Passes(UsernameRules[1].check, "", lib);
    assert ValidatorErrors(Body, "username", [UsernameRules[1]], None, "", lib) ==
      [ValidationError(Body, "username", UsernameRules[1].message, None)] by {
      assert [UsernameRules[1]][1..] == [];
    }
    assert ChainErrors(c[0], req, lib) == [
      ValidationError(Body, "username", UsernameRules[0].message, None),
      ValidationError(Body, "username", UsernameRules[1].message, None)];
    assert ChainErrors(c[1], req, lib) == [ValidationError(Body, "email", EmailRules[0].message, None)];
    assert ChainErrors(c[2], req, lib) == [ValidationError(Body, "first_name", FirstNameRules[0].message, None)];
    assert ChainErrors(c[3], req, lib) == [ValidationError(Body, "last_name", LastNameRules[0].message, None)];
    assert ChainErrors(c[4], req, lib) == [];
  }

  /** Names are measured before they are trimmed: a name of blanks passes
      the length rule although it trims to the empty string. */
  lemma NameLengthBeforeTrim(req: Request, lib: Library)
    requires var t := FieldText(req, Body, "first_name"); 1 <= |t| <= 50 && AllWhiteSpace(t)
    ensures ChainErrors(ValidateUser[2], req, lib) == []
    ensures Trim(FieldText(req, Body, "first_name")) == ""
  {
  }

  /** The password pattern has no end anchor: whatever follows a matching
      text, the whole still matches. */
  lemma {:induction false} PasswordIgnoresTail(s: string, tail: string)
    requires StrongPassword(s)
    ensures StrongPassword(s + tail)
  {
    var t := s + tail;
    assert forall k :: 0 <= k < |s| ==> t[k] == s[k];
    InFirstLineExtends(s, tail, Lower);
    InFirstLineExtends(s, tail, Upper);
    InFirstLineExtends(s, tail, Digit);
    InFirstLineExtends(s, tail, Special);
  }

  lemma InFirstLineExtends(s: string, tail: string, cls: CharClass)
    requires InFirstLine(s, cls)
    ensures InFirstLine(s + tail, cls)
  {
    var k :| 0 <= k < |s| && InClass(s[k], cls) && forall j :: 0 <= j < k ==> !IsLineTerminator(s[j]);
    assert (s + tail)[k] == s[k];
    assert forall j :: 0 <= j < k ==> (s + tail)[j] == s[j];
  }

  /** A class that only appears after the first line break does not count. */
  lemma SecondLineIgnored()
    ensures !StrongPassword("abcdefg!\nA1")
  {
    var s := "abcdefg!\nA1";
    assert !LineHas(s, Upper) by {
      assert s[8] == '\n';
      assert s[1..][1..][1..][1..][1..][1..][1..][1..] == "\nA1";
    }
    LineHasIff(s, Upper);
  }

  /** `isInt` reads back the text `String(n)` prints for every integer. */
  lemma IntTextOfDecimal(i: int)
    ensures IntText(IntToDecimal(i)) == Some(i)
  {
    if i < 0 {
      assert ("-" + NatToDecimal(-i))[1..] == NatToDecimal(-i);
    }
  }

  /** `isInt` accepts exactly an optional sign followed by one or more digits. */
  lemma IntTextShape(s: string)
    ensures IntText(s).Some? <==>
      (|s| > 0 && AllDigits(s)) || (|s| > 1 && (s[0] == '-' || s[0] == '+') && AllDigits(s[1..]))
  {
  }
}
