/**
 * `POST /api/users/login` and `GET /api/users/vendors`.  The lookup
 * `SELECT * FROM Vendor WHERE BusinessEmail = @BusinessEmail` is a parameter:
 * the rows it returns, or the message of the error it throws.
 */
module Users {
  import opened Wrappers
  import opened JsValue

  /** The two properties of the request body the login reads. */
  datatype LoginBody = LoginBody(businessEmail: Option<Value>, password: Option<Value>)

  datatype LoginResponse =
    | MissingCredentials            // 400 'BusinessEmail and password are required'
    | VendorNotFound                // 401 'Invalid credentials - vendor not found'
    | AccountNotActive              // 401 'Account is not active'
    | PasswordMismatch              // 401 'Invalid credentials - password mismatch'
    | LoginFailed(error: string)    // 500 'Vendor login failed: ' + message
    | LoggedIn(data: Record)        // 200 { success: true, data, message: 'Vendor login successful' }

  /** The HTTP status of each outcome. */
  function LoginStatus(r: LoginResponse): int {
    match r
    case MissingCredentials => 400
    case VendorNotFound => 401
    case AccountNotActive => 401
    case PasswordMismatch => 401
    case LoginFailed(_) => 500
    case LoggedIn(_) => 200
  }

  /** `vendor.Is_Active || vendor.is_active`, read for its truthiness. */
  predicate IsActive(vendor: Record) {
    Truthy(Or(Get(vendor, "Is_Active"), Get(vendor, "is_active")))
  }

  /** `vendor.Password || vendor.password`. */
  function StoredPassword(vendor: Record): Option<Value> {
    Or(Get(vendor, "Password"), Get(vendor, "password"))
  }

  /** `obj.k = v` followed by `JSON.stringify`: an `undefined` value drops the key. */
  function Assign(m: Record, k: string, v: Option<Value>): (r: Record)
    ensures v.Some? ==> k in r && r[k] == v.value
    ensures v.None? ==> k !in r
    ensures forall j :: j != k ==> (j in r <==> j in m) && (j in r ==> r[j] == m[j])
  {
    if v.Some? then m[k := v.value] else m - {k}
  }

  /** `const { Password, password: pwd, ...vendorData } = vendor`. */
  function StripPasswords(vendor: Record): (r: Record)
    ensures "Password" !in r && "password" !in r
    ensures forall k :: k != "Password" && k != "password" ==> (k in r <==> k in vendor) && (k in r ==> r[k] == vendor[k])
  {
    vendor - {"Password", "password"}
  }

  /** The keys `mappedVendorData` sets after spreading `vendorData`. */
  const MappedKeys: set<string> :=
    {"ID", "VendorName", "ContactPerson", "PhoneNumber", "Address", "BusinessEmail", "created_at"}

  /** `mappedVendorData`, as the JSON response carries it. */
  function MapVendor(vendor: Record): Record {
    var d := StripPasswords(vendor);
    var m1 := Assign(d, "ID", Or(Get(d, "ID"), Get(d, "id")));
    var m2 := Assign(m1, "VendorName", Get(d, "CompanyName"));
    var m3 := Assign(m2, "ContactPerson", Get(d, "Ref_Name"));
    var m4 := Assign(m3, "PhoneNumber", Get(d, "BusinessPhone"));
    var m5 := Assign(m4, "Address", Get(d, "Address"));
    var m6 := Assign(m5, "BusinessEmail", Get(d, "BusinessEmail"));
    Assign(m6, "created_at", Get(d, "Since"))
  }

  /** The login handler; `lookup` is the outcome of the vendor query. */
  function Login(body: LoginBody, lookup: Result<seq<Record>, string>): LoginResponse {
    if !Truthy(body.businessEmail) || !Truthy(body.password) then MissingCredentials
    else if lookup.Failure? then LoginFailed("Vendor login failed: " + lookup.error)
    else if |lookup.value| == 0 then VendorNotFound
    else
      var vendor := lookup.value[0];
      if !IsActive(vendor) then AccountNotActive
      else if StoredPassword(vendor) != body.password then PasswordMismatch
      else LoggedIn(MapVendor(vendor))
  }

  /** Missing credentials are a 400 before any lookup: the outcome of the
      query does not matter. */
  lemma MissingCredentialsFirst(body: LoginBody, lookup: Result<seq<Record>, string>)
    requires !Truthy(body.businessEmail) || !Truthy(body.password)
    ensures Login(body, lookup) == MissingCredentials && LoginStatus(Login(body, lookup)) == 400
  {
  }

  /** The chain of checks in order, each with its status. */
  lemma LoginChain(body: LoginBody, rows: seq<Record>)
    requires Truthy(body.businessEmail) && Truthy(body.password)
    ensures |rows| == 0 ==> Login(body, Success(rows)) == VendorNotFound
    ensures |rows| > 0 && !IsActive(rows[0]) ==> Login(body, Success(rows)) == AccountNotActive
    ensures |rows| > 0 && IsActive(rows[0]) && StoredPassword(rows[0]) != body.password ==>
              Login(body, Success(rows)) == PasswordMismatch
    ensures Login(body, Success(rows)).LoggedIn? <==>
              |rows| > 0 && IsActive(rows[0]) && StoredPassword(rows[0]) == body.password
    ensures !Login(body, Success(rows)).LoggedIn? ==> LoginStatus(Login(body, Success(rows))) == 401
  {
  }

  /** An inactive account is reported as inactive even when the password is
      also wrong: the activity check comes first. */
  lemma InactiveBeforePassword(body: LoginBody, vendor: Record, rest: seq<Record>)
    requires Truthy(body.businessEmail) && Truthy(body.password)
    requires !IsActive(vendor) && StoredPassword(vendor) != body.password
    ensures Login(body, Success([vendor] + rest)) == AccountNotActive
  {
  }

  /** Only the first returned record is considered. */
  lemma OnlyFirstRecord(body: LoginBody, vendor: Record, rest: seq<Record>)
    ensures Login(body, Success([vendor] + rest)) == Login(body, Success([vendor]))
  {
  }

  /** The successful response carries the mapped record of the first row. */
  lemma LoggedInIsMapped(body: LoginBody, rows: seq<Record>)
    requires Login(body, Success(rows)).LoggedIn?
    ensures |rows| > 0 && Login(body, Success(rows)).data == MapVendor(rows[0])
  {
  }

  /** The mapped record never carries a password key, renames the vendor's
      columns for the frontend, and keeps every other column. */
  lemma {:induction false} MapVendorFacts(v: Record)
    ensures var data := MapVendor(v);
            && "Password" !in data && "password" !in data
            && Get(data, "VendorName") == Get(v, "CompanyName")
            && Get(data, "ContactPerson") == Get(v, "Ref_Name")
            && Get(data, "PhoneNumber") == Get(v, "BusinessPhone")
            && Get(data, "created_at") == Get(v, "Since")
            && Get(data, "Address") == Get(v, "Address")
            && Get(data, "BusinessEmail") == Get(v, "BusinessEmail")
            && Get(data, "ID") == Or(Get(v, "ID"), Get(v, "id"))
            && (forall k :: k !in MappedKeys && k != "Password" && k != "password" ==>
                  Get(data, k) == Get(v, k))
  {
    MapVendorGet(v, "Password"); MapVendorGet(v, "password"); MapVendorGet(v, "ID");
    MapVendorGet(v, "VendorName"); MapVendorGet(v, "ContactPerson"); MapVendorGet(v, "PhoneNumber");
    MapVendorGet(v, "Address"); MapVendorGet(v, "BusinessEmail"); MapVendorGet(v, "created_at");
    GetStrip(v, "ID"); GetStrip(v, "id"); GetStrip(v, "CompanyName"); GetStrip(v, "Ref_Name");
    GetStrip(v, "BusinessPhone"); GetStrip(v, "Address"); GetStrip(v, "BusinessEmail"); GetStrip(v, "Since");
    forall k | k !in MappedKeys && k != "Password" && k != "password"
      ensures Get(MapVendor(v), k) == Get(v, k)
    {
      MapVendorGet(v, k);
      GetStrip(v, k);
    }
  }

  /** What `MapVendor` holds under one key, in terms of the stripped record. */
  lemma MapVendorGet(v: Record, j: string)
    ensures var d := StripPasswords(v);
            Get(MapVendor(v), j) ==
              if j == "created_at" then Get(d, "Since")
              else if j == "BusinessEmail" then Get(d, "BusinessEmail")
              else if j == "Address" then Get(d, "Address")
              else if j == "PhoneNumber" then Get(d, "BusinessPhone")
              else if j == "ContactPerson" then Get(d, "Ref_Name")
              else if j == "VendorName" then Get(d, "CompanyName")
              else if j == "ID" then Or(Get(d, "ID"), Get(d, "id"))
              else Get(d, j)
  {
    var d := StripPasswords(v);
    var m1 := Assign(d, "ID", Or(Get(d, "ID"), Get(d, "id")));
    var m2 := Assign(m1, "VendorName", Get(d, "CompanyName"));
    var m3 := Assign(m2, "ContactPerson", Get(d, "Ref_Name"));
    var m4 := Assign(m3, "PhoneNumber", Get(d, "BusinessPhone"));
    var m5 := Assign(m4, "Address", Get(d, "Address"));
    var m6 := Assign(m5, "BusinessEmail", Get(d, "BusinessEmail"));
    GetAssign(d, "ID", Or(Get(d, "ID"), Get(d, "id")), j);
    GetAssign(m1, "VendorName", Get(d, "CompanyName"), j);
    GetAssign(m2, "ContactPerson", Get(d, "Ref_Name"), j);
    GetAssign(m3, "PhoneNumber", Get(d, "BusinessPhone"), j);
    GetAssign(m4, "Address", Get(d, "Address"), j);
    GetAssign(m5, "BusinessEmail", Get(d, "BusinessEmail"), j);
    GetAssign(m6, "created_at", Get(d, "Since"), j);
  }

  lemma GetAssign(m: Record, k: string, v: Option<Value>, j: string)
    ensures Get(Assign(m, k, v), j) == if j == k then v else Get(m, j)
  {
  }

  lemma GetStrip(v: Record, k: string)
    ensures Get(StripPasswords(v), k) == if k == "Password" || k == "password" then None else Get(v, k)
  {
  }

  datatype VendorsResponse =
    | VendorList(vendors: seq<Record>, count: nat)   // { success: true, vendors, count }
    | VendorsFailed(details: string)                 // 500 'Failed to fetch vendors'

  function ListVendors(listing: Result<seq<Record>, string>): (r: VendorsResponse)
    ensures listing.Success? <==> r.VendorList?
    ensures r.VendorList? ==> r.vendors == listing.value && r.count == |r.vendors|
    ensures r.VendorsFailed? ==> r.details == listing.error
  {
    match listing
    case Success(rows) => VendorList(rows, |rows|)
    case Failure(e) => VendorsFailed(e)
  }
}
