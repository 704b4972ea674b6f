/**
 * The document models: schema validation and defaults for User, Medication, Order and
 * Prescription, the User save hook that hashes the password, `comparePassword`, and the
 * Medication virtuals `isLowStock` and `isExpiringSoon`.
 *
 * Instants are integer milliseconds since the epoch; the evaluation instant `now` is a
 * parameter. Password hashing is the abstract function `hash`.
 */
module Models {
  import opened Wrappers
  import opened Js

  const MS_PER_DAY: int := 1000 * 60 * 60 * 24
  const EXPIRY_WINDOW_DAYS: int := 30

  /** A document `_id`. */
  type Id = nat

  // ---------------------------------------------------------------- validation errors

  /** The schema paths that validation reports on. */
  datatype Path =
    | NamePath | EmailPath | PasswordPath | RolePath
    | ManufacturerPath | CategoryPath | DosagePath | FormPath
    | PricePath | CostPricePath | BatchNumberPath | ExpirationDatePath
    | ReorderLevelPath | CurrentStockPath | OrderNumberPath | SupplierIdPath
    | StatusPath | TotalAmountPath | UserIdPath | PrescriptionNumberPath
    | PatientNamePath | DoctorNamePath | IssueDatePath

  /** The path as mongoose spells it in messages. */
  function PathName(p: Path): string
  {
    match p
    case NamePath => "name"
    case EmailPath => "email"
    case PasswordPath => "password"
    case RolePath => "role"
    case ManufacturerPath => "manufacturer"
    case CategoryPath => "category"
    case DosagePath => "dosage"
    case FormPath => "form"
    case PricePath => "price"
    case CostPricePath => "costPrice"
    case BatchNumberPath => "batchNumber"
    case ExpirationDatePath => "expirationDate"
    case ReorderLevelPath => "reorderLevel"
    case CurrentStockPath => "currentStock"
    case OrderNumberPath => "orderNumber"
    case SupplierIdPath => "supplierId"
    case StatusPath => "status"
    case TotalAmountPath => "totalAmount"
    case UserIdPath => "userId"
    case PrescriptionNumberPath => "prescriptionNumber"
    case PatientNamePath => "patientName"
    case DoctorNamePath => "doctorName"
    case IssueDatePath => "issueDate"
  }

  datatype FieldError = Required(path: Path) | NotInEnum(path: Path, value: string)

  datatype ValidationError = ValidationError(model: string, errors: seq<FieldError>)

  function FieldMessage(e: FieldError): string
  {
    match e
    case Required(p) => PathName(p) + ": Path `" + PathName(p) + "` is required."
    case NotInEnum(p, v) => PathName(p) + ": `" + v + "` is not a valid enum value for path `" + PathName(p) + "`."
  }

  function JoinMessages(es: seq<FieldError>): string
  {
    if es == [] then ""
    else if |es| == 1 then FieldMessage(es[0])
    else FieldMessage(es[0]) + ", " + JoinMessages(es[1..])
  }

  /** The `message` of a mongoose ValidationError; update validators report no model name. */
  function ValidationMessage(e: ValidationError): string
  {
    (if e.model == "" then "Validation failed: " else e.model + " validation failed: ") + JoinMessages(e.errors)
  }

  /** A `required` string path fails when it is absent or empty. */
  function RequiredString(path: Path, v: string): seq<FieldError>
  {
    if v == "" then [Required(path)] else []
  }

  function RequiredValue<T>(path: Path, v: Option<T>): seq<FieldError>
  {
    if v.None? then [Required(path)] else []
  }

  function OrDefault<T>(v: Option<T>, default: T): T
  {
    if v.Some? then v.value else default
  }

  // ---------------------------------------------------------------- User

  datatype Role = ADMIN | PHARMACIST | STAFF

  function RoleName(r: Role): string
  {
    match r
    case ADMIN => "ADMIN"
    case PHARMACIST => "PHARMACIST"
    case STAFF => "STAFF"
  }

  /** The `enum` check of the role path. */
  function ParseRole(s: string): (r: Option<Role>)
    ensures r.Some? ==> RoleName(r.value) == s
    ensures r.None? ==> forall role: Role :: RoleName(role) != s
  {
    if s == "ADMIN" then Some(ADMIN)
    else if s == "PHARMACIST" then Some(PHARMACIST)
    else if s == "STAFF" then Some(STAFF)
    else None
  }

  const DEFAULT_ROLE := "STAFF"

  /** A saved user. `password` holds the hash, never the plaintext, once saved. */
  datatype User = User(id: Id, name: string, email: string, password: string, role: Role)

  /** `comparePassword`: the plaintext hashes to the stored hash. */
  function ComparePassword(stored: string, plain: string, hash: string -> string): bool
  {
    hash(plain) == stored
  }

  /** The validation errors of a user document, in schema order. */
  function UserErrors(name: string, email: string, password: string, role: string): (es: seq<FieldError>)
    ensures es == [] <==> name != "" && email != "" && password != "" && ParseRole(role).Some?
  {
    RequiredString(NamePath, name) + RequiredString(EmailPath, email) + RequiredString(PasswordPath, password)
    + (if ParseRole(role).None? then [NotInEnum(RolePath, role)] else [])
  }

  /** A user document before and across saves. */
  class UserDocument {
    const id: Id
    var name: string
    var email: string
    var password: string
    var role: string
    /** `isModified('password')`: set by a new password, cleared by a successful save. */
    var passwordModified: bool

    /** `new User(...)`: the email setter lowercases, the role defaults to STAFF. */
    constructor (id: Id, name: string, email: string, password: string, role: Option<string>)
      ensures this.id == id && this.name == name && this.password == password
      ensures this.email == ToLower(email)
      ensures this.role == OrDefault(role, DEFAULT_ROLE)
      ensures passwordModified
    {
      this.id := id;
      this.name := name;
      this.email := ToLower(email);
      this.password := password;
      this.role := OrDefault(role, DEFAULT_ROLE);
      this.passwordModified := true;
    }

    method SetPassword(p: string)
      modifies this
      ensures password == p && passwordModified
      ensures name == old(name) && email == old(email) && role == old(role)
    {
      password := p;
      passwordModified := true;
    }

    /**
     * `save()`: validation runs first; on success the pre-save hook replaces the password by
     * its hash if (and only if) it was modified, and the document is stored.
     */
    method Save(hash: string -> string) returns (r: Result<User, ValidationError>)
      modifies this
      ensures name == old(name) && email == old(email) && role == old(role)
      ensures UserErrors(name, email, old(password), role) != [] ==>
        && r == Failure(ValidationError("User", UserErrors(name, email, old(password), role)))
        && password == old(password) && passwordModified == old(passwordModified)
      ensures UserErrors(name, email, old(password), role) == [] ==>
        && password == (if old(passwordModified) then hash(old(password)) else old(password))
        && !passwordModified
        && r == Success(User(id, name, email, password, ParseRole(role).value))
    {
      var errors := UserErrors(name, email, password, role);
      if errors != [] {
        return Failure(ValidationError("User", errors));
      }
      if passwordModified {
        password := hash(password);
      }
      passwordModified := false;
      r := Success(User(id, name, email, password, ParseRole(role).value));
    }
  }

  /** Registering a user: after the save, `comparePassword` accepts the plaintext. */
  method Register(id: Id, name: string, email: string, password: string, role: Option<string>, hash: string -> string)
    returns (r: Result<User, ValidationError>)
    ensures r.Success? <==> name != "" && email != "" && password != "" && (role.None? || ParseRole(role.value).Some?)
    ensures r.Success? ==> ComparePassword(r.value.password, password, hash)
    ensures r.Success? ==> r.value.id == id && r.value.name == name && r.value.email == ToLower(email)
    ensures r.Success? && role.None? ==> r.value.role == STAFF
    ensures r.Success? && role.Some? ==> ParseRole(role.value) == Some(r.value.role)
    ensures r.Failure? ==> r.error.model == "User"
  {
    var doc := new UserDocument(id, name, email, password, role);
    r := doc.Save(hash);
  }

  /**
   * Saving again without touching the password stores the same hash; setting a new
   * password and saving stores the hash of the new one.
   */
  method RegisterThenResave(id: Id, name: string, email: string, password: string, hash: string -> string, newPassword: Option<string>)
    returns (first: Result<User, ValidationError>, second: Result<User, ValidationError>)
    ensures first.Success? && newPassword.None? && hash(password) != "" ==> second == first
    ensures first.Success? && newPassword.Some? && newPassword.value != "" ==>
      second.Success? && second.value.password == hash(newPassword.value)
      && ComparePassword(second.value.password, newPassword.value, hash)
  {
    var doc := new UserDocument(id, name, email, password, None);
    first := doc.Save(hash);
    if newPassword.Some? {
      doc.SetPassword(newPassword.value);
    }
    second := doc.Save(hash);
  }

  // ---------------------------------------------------------------- Medication

  datatype Medication = Medication(
    name: string,
    genericName: Option<string>,
    manufacturer: string,
    category: string,
    dosage: string,
    form: string,
    price: real,
    costPrice: real,
    batchNumber: string,
    expirationDate: int,
    reorderLevel: int,
    currentStock: int,
    location: Option<string>,
    needsPrescription: bool,
    barcode: Option<string>,
    notes: Option<string>)

  /** A stored medication with its `_id`. */
  datatype Doc = Doc(id: Id, med: Medication)

  /** A request body for a new medication; "" or None is an absent field. */
  datatype MedicationInput = MedicationInput(
    name: string,
    genericName: Option<string>,
    manufacturer: string,
    category: string,
    dosage: string,
    form: string,
    price: Option<real>,
    costPrice: Option<real>,
    batchNumber: string,
    expirationDate: Option<int>,
    reorderLevel: Option<int>,
    currentStock: Option<int>,
    location: Option<string>,
    needsPrescription: Option<bool>,
    barcode: Option<string>,
    notes: Option<string>)

  function MedicationErrors(m: MedicationInput): (es: seq<FieldError>)
    ensures es == [] <==>
      && m.name != "" && m.manufacturer != "" && m.category != "" && m.dosage != "" && m.form != ""
      && m.price.Some? && m.costPrice.Some? && m.batchNumber != ""
      && m.expirationDate.Some? && m.reorderLevel.Some? && m.currentStock.Some?
    ensures m.expirationDate.None? ==> Required(ExpirationDatePath) in es
    ensures m.reorderLevel.None? ==> Required(ReorderLevelPath) in es
    ensures m.currentStock.None? ==> Required(CurrentStockPath) in es
    ensures m.name == "" ==> Required(NamePath) in es
  {
    RequiredString(NamePath, m.name)
    + RequiredString(ManufacturerPath, m.manufacturer)
    + RequiredString(CategoryPath, m.category)
    + RequiredString(DosagePath, m.dosage)
    + RequiredString(FormPath, m.form)
    + RequiredValue(PricePath, m.price)
    + RequiredValue(CostPricePath, m.costPrice)
    + RequiredString(BatchNumberPath, m.batchNumber)
    + RequiredValue(ExpirationDatePath, m.expirationDate)
    + RequiredValue(ReorderLevelPath, m.reorderLevel)
    + RequiredValue(CurrentStockPath, m.currentStock)
  }

  /** `new Medication(body)` followed by validation. */
  function NewMedication(m: MedicationInput): (r: Result<Medication, ValidationError>)
    ensures r.Success? <==>
      && m.name != "" && m.manufacturer != "" && m.category != "" && m.dosage != "" && m.form != ""
      && m.price.Some? && m.costPrice.Some? && m.batchNumber != ""
      && m.expirationDate.Some? && m.reorderLevel.Some? && m.currentStock.Some?
    ensures r.Failure? ==> r.error.model == "Medication"
    ensures m.expirationDate.None? ==> r.Failure? && Required(ExpirationDatePath) in r.error.errors
    ensures m.reorderLevel.None? ==> r.Failure? && Required(ReorderLevelPath) in r.error.errors
    ensures m.currentStock.None? ==> r.Failure? && Required(CurrentStockPath) in r.error.errors
    ensures m.name == "" ==> r.Failure? && Required(NamePath) in r.error.errors
    ensures r.Success? ==>
      && r.value.name == m.name && r.value.genericName == m.genericName && r.value.category == m.category
      && r.value.manufacturer == m.manufacturer && r.value.dosage == m.dosage && r.value.form == m.form
      && r.value.price == m.price.value && r.value.costPrice == m.costPrice.value
      && r.value.batchNumber == m.batchNumber
      && r.value.location == m.location && r.value.notes == m.notes
      && r.value.expirationDate == m.expirationDate.value
      && r.value.reorderLevel == m.reorderLevel.value
      && r.value.currentStock == m.currentStock.value
      && r.value.barcode == m.barcode
      && r.value.needsPrescription == OrDefault(m.needsPrescription, true)
  {
    var errors := MedicationErrors(m);
    if errors != [] then Failure(ValidationError("Medication", errors))
    else Success(Medication(
      m.name, m.genericName, m.manufacturer, m.category, m.dosage, m.form,
      m.price.value, m.costPrice.value, m.batchNumber, m.expirationDate.value,
      m.reorderLevel.value, m.currentStock.value, m.location,
      OrDefault(m.needsPrescription, true), m.barcode, m.notes))
  }

  /** An update body: the fields it sets; a required string set to "" fails validation. */
  datatype MedicationPatch = MedicationPatch(
    name: Option<string>,
    genericName: Option<string>,
    manufacturer: Option<string>,
    category: Option<string>,
    dosage: Option<string>,
    form: Option<string>,
    price: Option<real>,
    costPrice: Option<real>,
    batchNumber: Option<string>,
    expirationDate: Option<int>,
    reorderLevel: Option<int>,
    currentStock: Option<int>,
    location: Option<string>,
    needsPrescription: Option<bool>,
    barcode: Option<string>,
    notes: Option<string>)

  const EMPTY_PATCH := MedicationPatch(None, None, None, None, None, None, None, None, None, None, None, None, None, None, None, None)

  function ClearedString(path: Path, v: Option<string>): seq<FieldError>
  {
    if v == Some("") then [Required(path)] else []
  }

  /** The update validators (`runValidators: true`) over the paths the update sets. */
  function PatchErrors(p: MedicationPatch): (es: seq<FieldError>)
    ensures es == [] <==>
      && p.name != Some("") && p.manufacturer != Some("") && p.category != Some("")
      && p.dosage != Some("") && p.form != Some("") && p.batchNumber != Some("")
  {
    ClearedString(NamePath, p.name)
    + ClearedString(ManufacturerPath, p.manufacturer)
    + ClearedString(CategoryPath, p.category)
    + ClearedString(DosagePath, p.dosage)
    + ClearedString(FormPath, p.form)
    + ClearedString(BatchNumberPath, p.batchNumber)
  }

  /** The `$set` that `findByIdAndUpdate` applies. */
  function ApplyPatch(m: Medication, p: MedicationPatch): Medication
  {
    m.(name := OrDefault(p.name, m.name),
       genericName := if p.genericName.Some? then p.genericName else m.genericName,
       manufacturer := OrDefault(p.manufacturer, m.manufacturer),
       category := OrDefault(p.category, m.category),
       dosage := OrDefault(p.dosage, m.dosage),
       form := OrDefault(p.form, m.form),
       price := OrDefault(p.price, m.price),
       costPrice := OrDefault(p.costPrice, m.costPrice),
       batchNumber := OrDefault(p.batchNumber, m.batchNumber),
       expirationDate := OrDefault(p.expirationDate, m.expirationDate),
       reorderLevel := OrDefault(p.reorderLevel, m.reorderLevel),
       currentStock := OrDefault(p.currentStock, m.currentStock),
       location := if p.location.Some? then p.location else m.location,
       needsPrescription := OrDefault(p.needsPrescription, m.needsPrescription),
       barcode := if p.barcode.Some? then p.barcode else m.barcode,
       notes := if p.notes.Some? then p.notes else m.notes)
  }

  /** An update that sets nothing leaves the medication as it was. */
  lemma EmptyPatchIsIdentity(m: Medication)
    ensures ApplyPatch(m, EMPTY_PATCH) == m
  {
  }

  /** Applying the same update twice is applying it once. */
  lemma ApplyPatchIdempotent(m: Medication, p: MedicationPatch)
    ensures ApplyPatch(ApplyPatch(m, p), p) == ApplyPatch(m, p)
  {
  }

  /** An update that sets only the stock changes nothing else. */
  lemma StockPatchTouchesOnlyStock(m: Medication, stock: int)
    ensures ApplyPatch(m, EMPTY_PATCH.(currentStock := Some(stock))) == m.(currentStock := stock)
  {
  }

  // ---------------------------------------------------------------- virtuals

  /** `isLowStock`: stock at or below the reorder level. */
  predicate IsLowStock(m: Medication)
  {
    m.currentStock <= m.reorderLevel
  }

  /** `Math.ceil((expiry - today) / (1000 * 60 * 60 * 24))`. */
  function DaysLeft(expiry: int, now: int): int
  {
    CeilDiv(expiry - now, MS_PER_DAY)
  }

  /** `isExpiringSoon`: at most 30 days left, rounded up; already expired counts too. */
  predicate IsExpiringSoon(m: Medication, now: int)
  {
    DaysLeft(m.expirationDate, now) <= EXPIRY_WINDOW_DAYS
  }

  /** The limit is inclusive: stock equal to the reorder level is low, one more is not. */
  lemma LowStockBoundary(m: Medication)
    ensures m.currentStock == m.reorderLevel ==> IsLowStock(m)
    ensures m.currentStock == m.reorderLevel + 1 ==> !IsLowStock(m)
  {
  }

  /** The rounded-up day count reduces to a plain comparison of milliseconds. */
  lemma ExpiringSoonIffWithinWindow(m: Medication, now: int)
    ensures IsExpiringSoon(m, now) <==> m.expirationDate - now <= EXPIRY_WINDOW_DAYS * MS_PER_DAY
  {
    CeilDivAtMost(m.expirationDate - now, MS_PER_DAY, EXPIRY_WINDOW_DAYS);
  }

  /** Once a medication is expiring soon it stays so as time passes. */
  lemma ExpiringSoonMonotone(m: Medication, now: int, later: int)
    requires now <= later
    ensures IsExpiringSoon(m, now) ==> IsExpiringSoon(m, later)
  {
    ExpiringSoonIffWithinWindow(m, now);
    ExpiringSoonIffWithinWindow(m, later);
  }

  /** An expired medication has no days left and is reported as expiring soon. */
  lemma ExpiredIsExpiringSoon(m: Medication, now: int)
    requires m.expirationDate <= now
    ensures DaysLeft(m.expirationDate, now) <= 0
    ensures IsExpiringSoon(m, now)
  {
    CeilDivAtMost(m.expirationDate - now, MS_PER_DAY, 0);
    ExpiringSoonIffWithinWindow(m, now);
  }

  /** Thirty days ahead is expiring soon; thirty-one days ahead is not. */
  lemma ExpiringSoonBoundary(m: Medication, now: int)
    ensures m.expirationDate == now + 30 * MS_PER_DAY ==> IsExpiringSoon(m, now)
    ensures m.expirationDate == now + 31 * MS_PER_DAY ==> !IsExpiringSoon(m, now)
  {
    ExpiringSoonIffWithinWindow(m, now);
  }

  // ---------------------------------------------------------------- Order

  datatype OrderStatus = PENDING | APPROVED | SHIPPED | DELIVERED | CANCELLED

  function OrderStatusName(s: OrderStatus): string
  {
    match s
    case PENDING => "PENDING"
    case APPROVED => "APPROVED"
    case SHIPPED => "SHIPPED"
    case DELIVERED => "DELIVERED"
    case CANCELLED => "CANCELLED"
  }

  function ParseOrderStatus(s: string): (r: Option<OrderStatus>)
    ensures r.Some? ==> OrderStatusName(r.value) == s
    ensures r.None? ==> forall st: OrderStatus :: OrderStatusName(st) != s
  {
    if s == "PENDING" then Some(PENDING)
    else if s == "APPROVED" then Some(APPROVED)
    else if s == "SHIPPED" then Some(SHIPPED)
    else if s == "DELIVERED" then Some(DELIVERED)
    else if s == "CANCELLED" then Some(CANCELLED)
    else None
  }

  datatype OrderInput = OrderInput(orderNumber: string, supplierId: Option<Id>, status: Option<string>, totalAmount: Option<real>, userId: Option<Id>)

  datatype Order = Order(orderNumber: string, supplierId: Id, status: OrderStatus, totalAmount: real, userId: Id)

  function OrderErrors(o: OrderInput): seq<FieldError>
  {
    RequiredString(OrderNumberPath, o.orderNumber)
    + RequiredValue(SupplierIdPath, o.supplierId)
    + (if o.status.Some? && ParseOrderStatus(o.status.value).None? then [NotInEnum(StatusPath, o.status.value)] else [])
    + RequiredValue(TotalAmountPath, o.totalAmount)
    + RequiredValue(UserIdPath, o.userId)
  }

  /** `new Order(body)` followed by validation: status defaults to PENDING and must be in its enum. */
  function NewOrder(o: OrderInput): (r: Result<Order, ValidationError>)
    ensures r.Success? <==>
      o.orderNumber != "" && o.supplierId.Some? && o.totalAmount.Some? && o.userId.Some?
      && (o.status.None? || ParseOrderStatus(o.status.value).Some?)
    ensures r.Success? && o.status.None? ==> r.value.status == PENDING
    ensures r.Success? && o.status.Some? ==> OrderStatusName(r.value.status) == o.status.value
    ensures r.Failure? ==> r.error.model == "Order"
  {
    var errors := OrderErrors(o);
    if errors != [] then Failure(ValidationError("Order", errors))
    else Success(Order(o.orderNumber, o.supplierId.value,
                       if o.status.Some? then ParseOrderStatus(o.status.value).value else PENDING,
                       o.totalAmount.value, o.userId.value))
  }

  // ---------------------------------------------------------------- Prescription

  datatype PrescriptionStatus = ACTIVE | FILLED | EXPIRED | CANCELLED_RX

  function PrescriptionStatusName(s: PrescriptionStatus): string
  {
    match s
    case ACTIVE => "ACTIVE"
    case FILLED => "FILLED"
    case EXPIRED => "EXPIRED"
    case CANCELLED_RX => "CANCELLED"
  }

  function ParsePrescriptionStatus(s: string): (r: Option<PrescriptionStatus>)
    ensures r.Some? ==> PrescriptionStatusName(r.value) == s
    ensures r.None? ==> forall st: PrescriptionStatus :: PrescriptionStatusName(st) != s
  {
    if s == "ACTIVE" then Some(ACTIVE)
    else if s == "FILLED" then Some(FILLED)
    else if s == "EXPIRED" then Some(EXPIRED)
    else if s == "CANCELLED" then Some(CANCELLED_RX)
    else None
  }

  datatype PrescriptionInput = PrescriptionInput(prescriptionNumber: string, patientName: string, doctorName: string, issueDate: Option<int>, status: Option<string>)

  datatype Prescription = Prescription(prescriptionNumber: string, patientName: string, doctorName: string, issueDate: int, status: PrescriptionStatus)

  function PrescriptionErrors(p: PrescriptionInput): seq<FieldError>
  {
    RequiredString(PrescriptionNumberPath, p.prescriptionNumber)
    + RequiredString(PatientNamePath, p.patientName)
    + RequiredString(DoctorNamePath, p.doctorName)
    + RequiredValue(IssueDatePath, p.issueDate)
    + (if p.status.Some? && ParsePrescriptionStatus(p.status.value).None? then [NotInEnum(StatusPath, p.status.value)] else [])
  }

  /** `new Prescription(body)` followed by validation: status defaults to ACTIVE. */
  function NewPrescription(p: PrescriptionInput): (r: Result<Prescription, ValidationError>)
    ensures r.Success? <==>
      p.prescriptionNumber != "" && p.patientName != "" && p.doctorName != "" && p.issueDate.Some?
      && (p.status.None? || ParsePrescriptionStatus(p.status.value).Some?)
    ensures r.Success? && p.status.None? ==> r.value.status == ACTIVE
    ensures r.Success? && p.status.Some? ==> PrescriptionStatusName(r.value.status) == p.status.value
    ensures r.Failure? ==> r.error.model == "Prescription"
  {
    var errors := PrescriptionErrors(p);
    if errors != [] then Failure(ValidationError("Prescription", errors))
    else Success(Prescription(p.prescriptionNumber, p.patientName, p.doctorName, p.issueDate.value,
                              if p.status.Some? then ParsePrescriptionStatus(p.status.value).value else ACTIVE))
  }
}
