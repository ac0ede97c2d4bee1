/** The values the loan application service works on: the stored record, the
    entities fetched from the remote services, the create request, the partial
    update patch, the status enumeration and the error kinds. */
module LoanModel {

  /** A reply that may be absent: `None` stands for a `null` reply. */
  datatype Option<T> = None | Some(value: T)

  /** The outcome of an operation that returns a value or throws. */
  datatype Result<T> = Success(value: T) | Failure(error: Error)

  /** The outcome of an operation that returns nothing or throws. */
  datatype Outcome = Pass | Fail(error: Error)

  datatype EntityKind = UserKind | ProductKind | VendorKind

  /** The error kinds the service raises. */
  datatype Error =
    | NotFound(id: int)                            // no loan application with this id
    | MissingEntity(kind: EntityKind, id: int)     // a remote lookup replied with nothing
    | InvalidStatus(name: string)                  // not the name of a status constant

  /* ---------------------------------------------------------------- status */

  const SubmittedName: string := "Application_Submitted"

  /** The status enumeration: its initial constant, and the other lifecycle
      constants, which are known here only by their names. */
  datatype Status = Application_Submitted | Other(name: string)

  function Name(s: Status): string {
    match s
    case Application_Submitted => SubmittedName
    case Other(n) => n
  }

  /** `s` is a constant of the enumeration whose other names are `others`. */
  predicate Declared(others: set<string>, s: Status) {
    s.Application_Submitted? || (s.name in others && s.name != SubmittedName)
  }

  /** `Status.valueOf`: the constant with exactly this name, if there is one. */
  function ValueOf(others: set<string>, text: string): (r: Option<Status>)
    ensures r.Some? <==> text == SubmittedName || text in others
    ensures r.Some? ==> Declared(others, r.value) && Name(r.value) == text
  {
    if text == SubmittedName then Some(Application_Submitted)
    else if text in others then Some(Other(text))
    else None
  }

  /** Every constant is found again by its own name, and by no other. */
  lemma ValueOfName(others: set<string>, s: Status, text: string)
    requires Declared(others, s)
    ensures ValueOf(others, text) == Some(s) <==> text == Name(s)
  {
  }

  /* -------------------------------------------------------- remote entities */

  /** The properties of a remote representation other than its id. */
  type Details = map<string, string>

  datatype User = User(userId: int, details: Details)
  datatype LoanProduct = LoanProduct(productId: int, details: Details)
  datatype Vendor = Vendor(vendorId: int, details: Details)

  /** What the user service and the admin service reply, by id; an id that is
      not a key is a `null` reply. */
  datatype Directories = Directories(
    users: map<int, User>,
    products: map<int, LoanProduct>,
    vendors: map<int, Vendor>)

  /** One remote GET by id: `None` for an id the directory does not hold. */
  function Get<V>(m: map<int, V>, id: int): Option<V> {
    if id in m then Some(m[id]) else None
  }

  /* ------------------------------------------------------------- the record */

  datatype LoanApplication = LoanApplication(
    id: int,
    amountRequired: int,
    tenure: int,
    reviewMessage: string,
    status: Status,
    user: User,
    product: LoanProduct,
    vendor: Vendor)

  /** The create request: the record's own fields and the three foreign ids. */
  datatype LoanApplicationDto = LoanApplicationDto(
    amountRequired: int,
    tenure: int,
    reviewMessage: string,
    userId: int,
    productId: int,
    vendorId: int)

  /** Every reference of `app` is an entity that the directories serve. */
  predicate Resolved(app: LoanApplication, d: Directories) {
    app.user in d.users.Values
    && app.product in d.products.Values
    && app.vendor in d.vendors.Values
  }

  /* ------------------------------------------------------------------ patch */

  const AmountKey: string := "amount_required"
  const TenureKey: string := "tenure"
  const ReviewKey: string := "review_message"
  const StatusKey: string := "status"
  const UserKey: string := "user"
  const ProductKey: string := "product"
  const VendorKey: string := "vendor"

  const RecognisedKeys: set<string> :=
    {AmountKey, TenureKey, ReviewKey, StatusKey, UserKey, ProductKey, VendorKey}

  /** The partial update request, a map from field name to value: one optional
      field per recognised key, with the value that key carries, and the set of
      the map's other keys. */
  datatype Patch = Patch(
    amountRequired: Option<int>,
    tenure: Option<int>,
    reviewMessage: Option<string>,
    status: Option<string>,
    user: Option<int>,
    product: Option<int>,
    vendor: Option<int>,
    otherKeys: set<string>)

  /** The request describes a map: no key is both recognised and other. */
  predicate WellFormed(p: Patch) {
    p.otherKeys !! RecognisedKeys
  }

  function KeyIf(present: bool, key: string): set<string> {
    if present then {key} else {}
  }

  /** The recognised keys the request carries. */
  function PresentKeys(p: Patch): set<string> {
    KeyIf(p.amountRequired.Some?, AmountKey) + KeyIf(p.tenure.Some?, TenureKey)
    + KeyIf(p.reviewMessage.Some?, ReviewKey) + KeyIf(p.status.Some?, StatusKey)
    + KeyIf(p.user.Some?, UserKey) + KeyIf(p.product.Some?, ProductKey)
    + KeyIf(p.vendor.Some?, VendorKey)
  }

  /** `a` and `b` agree on the field that `key` names (on anything, for a key
      that names no field). */
  predicate SameField(a: LoanApplication, b: LoanApplication, key: string) {
    if key == AmountKey then a.amountRequired == b.amountRequired
    else if key == TenureKey then a.tenure == b.tenure
    else if key == ReviewKey then a.reviewMessage == b.reviewMessage
    else if key == StatusKey then a.status == b.status
    else if key == UserKey then a.user == b.user
    else if key == ProductKey then a.product == b.product
    else if key == VendorKey then a.vendor == b.vendor
    else true
  }
}
