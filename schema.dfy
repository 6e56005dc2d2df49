/** The three ledger collections: Client, ClientProject and Payment. Each
    schema's required fields, enums and defaults become a constructor
    function that answers None where the document would fail validation; the
    ClientProject pre-save hook, which assigns to the document in place,
    becomes a method of a document class. */
module Schema {
  import opened Common

  /* ---------------- Client ---------------- */

  datatype Client = Client(
    name: string,
    email: Option<string>,
    phone: Option<string>,
    address: Option<string>,
    status: string,
    totalEarnings: int)

  /** A request body for a client: every field may be missing. */
  datatype ClientBody = ClientBody(
    name: Option<string>,
    email: Option<string>,
    phone: Option<string>,
    address: Option<string>,
    status: Option<string>,
    totalEarnings: Option<int>)

  /** `Client.create(body)`: `name` is required (an empty string fails the
      required check), `status` defaults to "Active" and `totalEarnings` to 0;
      the contact fields are optional and kept as given. */
  function NewClient(b: ClientBody): (r: Option<Client>)
    ensures r.Some? <==> Truthy(b.name)
    ensures r.Some? ==> r.value.name == b.name.value
                        && r.value.email == b.email && r.value.phone == b.phone
                        && r.value.address == b.address
    ensures r.Some? ==> r.value.status == (if b.status.Some? then b.status.value else "Active")
    ensures r.Some? ==> r.value.totalEarnings == (if b.totalEarnings.Some? then b.totalEarnings.value else 0)
  {
    if !Truthy(b.name) then None
    else Some(Client(b.name.value, b.email, b.phone, b.address,
                     b.status.GetOr("Active"), b.totalEarnings.GetOr(0)))
  }

  /** `findByIdAndUpdate(id, body)` on a client: every field the body defines
      replaces the stored one; the update runs no validators. */
  function MergeClient(c: Client, b: ClientBody): (r: Client)
    ensures (b.name.None? && b.email.None? && b.phone.None? && b.address.None?
             && b.status.None? && b.totalEarnings.None?) ==> r == c
    ensures r.name == (if b.name.Some? then b.name.value else c.name)
    ensures r.email == (if b.email.Some? then b.email else c.email)
    ensures r.phone == (if b.phone.Some? then b.phone else c.phone)
    ensures r.address == (if b.address.Some? then b.address else c.address)
    ensures r.status == (if b.status.Some? then b.status.value else c.status)
    ensures r.totalEarnings == if b.totalEarnings.Some? then b.totalEarnings.value else c.totalEarnings
  {
    Client(b.name.GetOr(c.name),
           if b.email.Some? then b.email else c.email,
           if b.phone.Some? then b.phone else c.phone,
           if b.address.Some? then b.address else c.address,
           b.status.GetOr(c.status),
           b.totalEarnings.GetOr(c.totalEarnings))
  }

  /* ---------------- ClientProject ---------------- */

  /** One requirement line of a client project: its text and attached files
      (inline base64 strings); either may be missing or, for files, not an
      array. */
  datatype Requirement = Requirement(text: Option<string>, files: Option<seq<string>>)

  datatype ClientProject = ClientProject(
    client: Id,
    title: string,
    status: string,
    totalAmount: int,
    advancePaid: int,
    remainingAmount: int,
    category: Option<string>,
    requirements: seq<Requirement>,
    liveUrl: Option<string>,
    description: Option<string>)

  /** A request body for a client project, used by both route modules for
      creation and for partial updates. */
  datatype ProjectBody = ProjectBody(
    client: Option<Id>,
    title: Option<string>,
    status: Option<string>,
    totalAmount: Option<int>,
    advancePaid: Option<int>,
    remainingAmount: Option<int>,
    category: Option<string>,
    requirements: Option<seq<Requirement>>,
    liveUrl: Option<string>,
    description: Option<string>)

  /** The schema's validation of a project about to be saved: `client` is
      required (an `Id` is always present) and so is a non-empty `title`. */
  predicate Savable(p: ClientProject) {
    p.title != ""
  }

  /** `findByIdAndUpdate(id, body)` on a project: every field the body
      defines replaces the stored one, the others are kept. */
  function MergeProject(p: ClientProject, b: ProjectBody): (r: ClientProject)
    ensures r.client == (if b.client.Some? then b.client.value else p.client)
    ensures r.totalAmount == (if b.totalAmount.Some? then b.totalAmount.value else p.totalAmount)
    ensures r.advancePaid == (if b.advancePaid.Some? then b.advancePaid.value else p.advancePaid)
    ensures r.remainingAmount == (if b.remainingAmount.Some? then b.remainingAmount.value else p.remainingAmount)
    ensures r.title == (if b.title.Some? then b.title.value else p.title)
    ensures r.status == (if b.status.Some? then b.status.value else p.status)
    ensures r.category == (if b.category.Some? then b.category else p.category)
    ensures r.requirements == (if b.requirements.Some? then b.requirements.value else p.requirements)
    ensures r.liveUrl == (if b.liveUrl.Some? then b.liveUrl else p.liveUrl)
    ensures r.description == (if b.description.Some? then b.description else p.description)
    ensures b == NoChange() ==> r == p
  {
    ClientProject(
      b.client.GetOr(p.client),
      b.title.GetOr(p.title),
      b.status.GetOr(p.status),
      b.totalAmount.GetOr(p.totalAmount),
      b.advancePaid.GetOr(p.advancePaid),
      b.remainingAmount.GetOr(p.remainingAmount),
      if b.category.Some? then b.category else p.category,
      b.requirements.GetOr(p.requirements),
      if b.liveUrl.Some? then b.liveUrl else p.liveUrl,
      if b.description.Some? then b.description else p.description)
  }

  /** The empty update body. */
  function NoChange(): ProjectBody {
    ProjectBody(None, None, None, None, None, None, None, None, None, None)
  }

  /** A ClientProject document in memory, between `new ClientProject(...)`
      and the insert that `save` performs. */
  class ProjectDocument {
    var client: Id
    var title: string
    var status: string
    var totalAmount: int
    var advancePaid: int
    var remainingAmount: int
    var category: Option<string>
    var requirements: seq<Requirement>
    var liveUrl: Option<string>
    var description: Option<string>

    /** Construction applies the schema defaults: status "Active", the three
        amounts 0; a missing title is left empty, so `Savable` fails. */
    constructor (owner: Id, b: ProjectBody)
      ensures client == owner
      ensures title == b.title.GetOr("")
      ensures status == (if b.status.Some? then b.status.value else "Active")
      ensures totalAmount == (if b.totalAmount.Some? then b.totalAmount.value else 0)
      ensures advancePaid == (if b.advancePaid.Some? then b.advancePaid.value else 0)
      ensures remainingAmount == (if b.remainingAmount.Some? then b.remainingAmount.value else 0)
      ensures category == b.category && liveUrl == b.liveUrl && description == b.description
      ensures requirements == b.requirements.GetOr([])
    {
      client := owner;
      title := b.title.GetOr("");
      status := b.status.GetOr("Active");
      totalAmount := b.totalAmount.GetOr(0);
      advancePaid := b.advancePaid.GetOr(0);
      remainingAmount := b.remainingAmount.GetOr(0);
      category := b.category;
      requirements := b.requirements.GetOr([]);
      liveUrl := b.liveUrl;
      description := b.description;
    }

    /** The document's field values. */
    function Record(): ClientProject
      reads this
    {
      ClientProject(client, title, status, totalAmount, advancePaid, remainingAmount,
                    category, requirements, liveUrl, description)
    }

    /** The pre-save hook: whatever `remainingAmount` was passed, it is
        overwritten with `totalAmount - advancePaid`; nothing else changes.
        (With the schema's 0 defaults both amounts are always defined.) */
    method PreSave()
      modifies this
      ensures remainingAmount == totalAmount - advancePaid
      ensures Record() == old(Record()).(remainingAmount := old(totalAmount) - old(advancePaid))
    {
      remainingAmount := totalAmount - advancePaid;
    }
  }

  /** `ClientProject.create(fields)` for a body that passes validation:
      the document is built with the schema defaults, the pre-save hook runs,
      and the record saved is returned. Whatever `remainingAmount` the body
      carries, the saved one is the total less the advance. */
  method CreateDocument(owner: Id, b: ProjectBody) returns (p: ClientProject)
    ensures p.remainingAmount == p.totalAmount - p.advancePaid
    ensures p == ClientProject(owner, b.title.GetOr(""), b.status.GetOr("Active"),
                               b.totalAmount.GetOr(0), b.advancePaid.GetOr(0),
                               b.totalAmount.GetOr(0) - b.advancePaid.GetOr(0),
                               b.category, b.requirements.GetOr([]), b.liveUrl, b.description)
  {
    var doc := new ProjectDocument(owner, b);
    doc.PreSave();
    p := doc.Record();
  }

  /* ---------------- Payment ---------------- */

  datatype PaymentMethod = BankTransfer | Upi | Cash | Cheque | PayPal

  function MethodName(m: PaymentMethod): string {
    match m
    case BankTransfer => "Bank Transfer"
    case Upi => "UPI"
    case Cash => "Cash"
    case Cheque => "Cheque"
    case PayPal => "PayPal"
  }

  /** The enum check on `paymentMethod`: a string is accepted exactly when it
      is one of the five names. */
  function ParseMethod(s: string): (r: Option<PaymentMethod>)
    ensures r.Some? ==> MethodName(r.value) == s
    ensures r.None? ==> forall m: PaymentMethod :: MethodName(m) != s
  {
    if s == "Bank Transfer" then Some(BankTransfer)
    else if s == "UPI" then Some(Upi)
    else if s == "Cash" then Some(Cash)
    else if s == "Cheque" then Some(Cheque)
    else if s == "PayPal" then Some(PayPal)
    else None
  }

  /** Every method's name parses back to that method. */
  lemma MethodRoundTrip(m: PaymentMethod)
    ensures ParseMethod(MethodName(m)) == Some(m)
  {
  }

  /** A payment always references both a client and a project. */
  datatype Payment = Payment(
    client: Id,
    project: Id,
    amount: int,
    paymentDate: string,
    paymentMethod: PaymentMethod,
    notes: Option<string>)

  /** `Payment.create(...)`: client, project, amount and paymentDate are
      required; `paymentMethod` must name one of the five methods and
      defaults to "Bank Transfer"; `notes` is optional. */
  function NewPayment(client: Option<Id>, project: Option<Id>, amount: Option<int>,
                      paymentDate: Option<string>, paymentMethod: Option<string>,
                      notes: Option<string>): (r: Option<Payment>)
    ensures r.Some? <==> client.Some? && project.Some? && amount.Some? && Truthy(paymentDate)
                         && (paymentMethod.None? || ParseMethod(paymentMethod.value).Some?)
    ensures r.Some? ==> r.value.client == client.value && r.value.project == project.value
                        && r.value.amount == amount.value && r.value.paymentDate == paymentDate.value
                        && r.value.notes == notes
    ensures r.Some? && paymentMethod.None? ==> r.value.paymentMethod == BankTransfer
    ensures r.Some? && paymentMethod.Some? ==> MethodName(r.value.paymentMethod) == paymentMethod.value
  {
    if client.None? || project.None? || amount.None? || !Truthy(paymentDate) then None
    else if paymentMethod.None? then
      Some(Payment(client.value, project.value, amount.value, paymentDate.value, BankTransfer, notes))
    else
      match ParseMethod(paymentMethod.value)
      case None => None
      case Some(m) => Some(Payment(client.value, project.value, amount.value, paymentDate.value, m, notes))
  }
}
