/**
 * The string unions of types/index.ts that the modelled code writes into
 * records, and a small value type for the untyped (`any`) payloads that the
 * screens spread into inserted rows.
 */
module Types {
  import opened Common

  /** `Expense.category` (types/index.ts:99). */
  datatype ExpenseCategory = Transport | Accommodation | Fuel | Parking | Meals | Other

  /** `Expense.paid_by` (types/index.ts:100). */
  datatype PaidBy = Employee | Company

  /** `Expense.status` (types/index.ts:101). */
  datatype ExpenseStatus = Pending | Approved | Rejected

  /** `Profile.role` (types/index.ts:13). */
  datatype Role = Admin | Staff

  /** `Project.status` (types/index.ts:27). */
  datatype ProjectStatus = Planning | Active | Completed

  /** The wire spelling of a category. */
  function CategoryId(c: ExpenseCategory): string {
    match c
    case Transport => "transport"
    case Accommodation => "accommodation"
    case Fuel => "fuel"
    case Parking => "parking"
    case Meals => "meals"
    case Other => "other"
  }

  /** The category union is exactly these six spellings, one per member. */
  function CategoryFromId(id: string): (c: Option<ExpenseCategory>)
    ensures c.Some? ==> CategoryId(c.value) == id
    ensures (exists k :: CategoryId(k) == id) ==> c.Some?
  {
    if id == "transport" then Some(Transport)
    else if id == "accommodation" then Some(Accommodation)
    else if id == "fuel" then Some(Fuel)
    else if id == "parking" then Some(Parking)
    else if id == "meals" then Some(Meals)
    else if id == "other" then Some(Other)
    else None
  }

  lemma CategoryIdInjective(a: ExpenseCategory, b: ExpenseCategory)
    ensures CategoryId(a) == CategoryId(b) ==> a == b
  {
  }

  function PaidById(p: PaidBy): string {
    match p
    case Employee => "employee"
    case Company => "company"
  }

  function StatusId(s: ExpenseStatus): string {
    match s
    case Pending => "pending"
    case Approved => "approved"
    case Rejected => "rejected"
  }

  function RoleId(r: Role): string {
    match r
    case Admin => "admin"
    case Staff => "staff"
  }

  function ProjectStatusId(s: ProjectStatus): string {
    match s
    case Planning => "planning"
    case Active => "active"
    case Completed => "completed"
  }

  /** A JSON-like field value of an untyped payload; numbers are reals. */
  datatype Value = Str(s: string) | Num(n: real) | Bool(b: bool) | Null

  /** An untyped row or payload object. */
  type Record = map<string, Value>

  /** JavaScript truthiness of a field; a missing field is `undefined`, which is falsy. NaN is not modelled. */
  predicate Truthy(r: Record, key: string) {
    key in r &&
    match r[key]
    case Str(s) => s != ""
    case Num(n) => n != 0.0
    case Bool(b) => b
    case Null => false
  }

  /**
   * `{...base, ...over}`: the spread keeps every key of `base` and lets the keys
   * written after it win.
   */
  function Spread(base: Record, over: Record): (r: Record)
    ensures r.Keys == base.Keys + over.Keys
    ensures forall k :: k in over ==> r[k] == over[k]
    ensures forall k :: k in base && k !in over ==> r[k] == base[k]
  {
    base + over
  }

  /** `${user.id}/${millis}.jpg`: the storage object name of a receipt uploaded at `millis`. */
  function ReceiptFileName(uid: string, millis: nat): (r: string)
    ensures |r| >= |uid| + 6
    ensures r[..|uid|] == uid && r[|uid|] == '/'
    ensures r[|r| - 4..] == ".jpg"
    ensures forall i :: |uid| < i < |r| - 4 ==> '0' <= r[i] <= '9'
    ensures r[|uid| + 1..|r| - 4] == NatToString(millis)
  {
    var r := uid + "/" + NatToString(millis) + ".jpg";
    assert r[|uid| + 1..|r| - 4] == NatToString(millis);
    r
  }

  /** One user's receipts uploaded at different instants get different names. */
  lemma ReceiptFileNameInjective(uid: string, a: nat, b: nat)
    requires ReceiptFileName(uid, a) == ReceiptFileName(uid, b)
    ensures a == b
  {
    var r := ReceiptFileName(uid, a);
    assert |NatToString(a)| == |r| - |uid| - 5 == |NatToString(b)|;
    NatToStringInjective(a, b);
  }
}
