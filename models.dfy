/** The records of the document store and the two schemas whose definitions
    are modelled (server/models/CampaignApplication.js and
    server/models/Campaign.js): their fields, enumerations, `required` rules
    and defaults. The User and Donation schemas are not part of this model;
    their fields are the ones the controllers read and write. */
module Models {

  /** A document `_id`. */
  type Id = nat

  /** `null`/`undefined` versus a value. */
  datatype Option<T> = None | Some(value: T)

  /** A stored record together with its `_id`, as the API returns it. */
  datatype Doc<T> = Doc(id: Id, val: T)

  datatype Role = UserRole | AdminRole

  /** `paymentStatus` enum of both schemas. */
  datatype PaymentStatus = PaymentPending | Paid | PaymentFailed

  /** `status` enum of the application schema. */
  datatype ApplicationStatus = Pending | Approved | Rejected

  /** The output of the password hash. Salt and cost factor are not
      modelled; a digest is only ever compared through `Verify`. */
  datatype Digest = Digest(secret: string)

  datatype User = User(username: string, password: Digest, role: Role)

  datatype Donation = Donation(user: Id, campaign: Id, amount: real)

  datatype Application = Application(
    user: Id,
    title: string,
    description: string,
    goal: real,
    image: Option<string>,
    payoutName: Option<string>,
    payoutAccount: Option<string>,
    payoutIFSC: Option<string>,
    payoutUPI: Option<string>,
    paymentStatus: PaymentStatus,
    paymentId: Option<string>,
    amountPaid: real,
    status: ApplicationStatus,
    createdAt: int,
    adminNotes: string)

  /** A campaign has neither an owner nor a workflow status. */
  datatype Campaign = Campaign(
    title: string,
    description: string,
    goal: real,
    image: Option<string>,
    payoutName: Option<string>,
    payoutAccount: Option<string>,
    payoutIFSC: Option<string>,
    payoutUPI: Option<string>,
    paymentStatus: PaymentStatus,
    paymentId: Option<string>,
    amountPaid: real,
    amountRaised: real,
    createdAt: int)

  /** The object handed to `new CampaignApplication(...)`: `None` stands for
      a field that is `undefined` or `null`. `status`, `createdAt` and
      `adminNotes` are never supplied by a caller. */
  datatype ApplicationDoc = ApplicationDoc(
    user: Id,
    title: Option<string>,
    description: Option<string>,
    goal: Option<real>,
    image: Option<string>,
    payoutName: Option<string>,
    payoutAccount: Option<string>,
    payoutIFSC: Option<string>,
    payoutUPI: Option<string>,
    paymentStatus: Option<PaymentStatus>,
    paymentId: Option<string>,
    amountPaid: Option<real>)

  /** The object handed to `new Campaign(...)`; `amountRaised` and
      `createdAt` are never supplied by a caller. */
  datatype CampaignDoc = CampaignDoc(
    title: Option<string>,
    description: Option<string>,
    goal: Option<real>,
    image: Option<string>,
    payoutName: Option<string>,
    payoutAccount: Option<string>,
    payoutIFSC: Option<string>,
    payoutUPI: Option<string>,
    paymentStatus: Option<PaymentStatus>,
    paymentId: Option<string>,
    amountPaid: Option<real>)

  /** `sort({ createdAt: -1 })` as an ascending key: the later a document
      was created, the smaller its key. */
  function NewestFirst(createdAt: int): real {
    -(createdAt as real)
  }

  function NewestCampaignFirst(d: Doc<Campaign>): real {
    NewestFirst(d.val.createdAt)
  }

  function NewestApplicationFirst(d: Doc<Application>): real {
    NewestFirst(d.val.createdAt)
  }

  /** A string that is present and not empty: what Mongoose's `required`
      accepts on a String path, and what a JavaScript truthiness test such
      as `!username` lets through. */
  predicate RequiredString(s: Option<string>) {
    s.Some? && s.value != ""
  }

  /** What every stored application satisfies. */
  predicate WellFormedApplication(a: Application) {
    a.title != "" && a.description != ""
  }

  /** What every stored campaign satisfies. */
  predicate WellFormedCampaign(c: Campaign) {
    c.title != "" && c.description != ""
  }

  function OrElse<T>(o: Option<T>, default: T): T {
    if o.Some? then o.value else default
  }

  /** `save()` of a new application: fails validation when `title`,
      `description` or `goal` is missing; otherwise fills the defaults
      (`status` pending, `adminNotes` empty, `paymentStatus` pending,
      `amountPaid` 0, `createdAt` now). */
  function ValidateApplication(d: ApplicationDoc, now: int): (r: Option<Application>)
    ensures r.Some? <==> RequiredString(d.title) && RequiredString(d.description) && d.goal.Some?
    ensures r.Some? ==> WellFormedApplication(r.value)
    ensures r.Some? ==> && r.value.status == Pending
                        && r.value.adminNotes == ""
                        && r.value.createdAt == now
                        && (d.paymentStatus.None? ==> r.value.paymentStatus == PaymentPending)
                        && (d.amountPaid.None? ==> r.value.amountPaid == 0.0)
    ensures r.Some? ==> && r.value.user == d.user
                        && Some(r.value.title) == d.title
                        && Some(r.value.description) == d.description
                        && Some(r.value.goal) == d.goal
                        && r.value.payoutName == d.payoutName
                        && r.value.payoutAccount == d.payoutAccount
                        && r.value.payoutIFSC == d.payoutIFSC
                        && r.value.payoutUPI == d.payoutUPI
                        && r.value.image == d.image
                        && r.value.paymentId == d.paymentId
                        && (d.paymentStatus.Some? ==> d.paymentStatus == Some(r.value.paymentStatus))
                        && (d.amountPaid.Some? ==> d.amountPaid == Some(r.value.amountPaid))
  {
    if !(RequiredString(d.title) && RequiredString(d.description) && d.goal.Some?) then None
    else Some(Application(
      d.user, d.title.value, d.description.value, d.goal.value, d.image,
      d.payoutName, d.payoutAccount, d.payoutIFSC, d.payoutUPI,
      OrElse(d.paymentStatus, PaymentPending), d.paymentId, OrElse(d.amountPaid, 0.0),
      Pending, now, ""))
  }

  /** `save()` of a new campaign: fails validation when `title`,
      `description` or `goal` is missing; otherwise fills the defaults
      (`amountRaised` 0, `paymentStatus` pending, `amountPaid` 0, the
      optional strings null, `createdAt` now). */
  function ValidateCampaign(d: CampaignDoc, now: int): (r: Option<Campaign>)
    ensures r.Some? <==> RequiredString(d.title) && RequiredString(d.description) && d.goal.Some?
    ensures r.Some? ==> WellFormedCampaign(r.value)
    ensures r.Some? ==> && r.value.amountRaised == 0.0
                        && r.value.createdAt == now
                        && (d.paymentStatus.None? ==> r.value.paymentStatus == PaymentPending)
                        && (d.amountPaid.None? ==> r.value.amountPaid == 0.0)
    ensures r.Some? ==> && Some(r.value.title) == d.title
                        && Some(r.value.description) == d.description
                        && Some(r.value.goal) == d.goal
                        && r.value.payoutName == d.payoutName
                        && r.value.payoutAccount == d.payoutAccount
                        && r.value.payoutIFSC == d.payoutIFSC
                        && r.value.payoutUPI == d.payoutUPI
                        && r.value.image == d.image
                        && r.value.paymentId == d.paymentId
                        && (d.paymentStatus.Some? ==> d.paymentStatus == Some(r.value.paymentStatus))
                        && (d.amountPaid.Some? ==> d.amountPaid == Some(r.value.amountPaid))
  {
    if !(RequiredString(d.title) && RequiredString(d.description) && d.goal.Some?) then None
    else Some(Campaign(
      d.title.value, d.description.value, d.goal.value, d.image,
      d.payoutName, d.payoutAccount, d.payoutIFSC, d.payoutUPI,
      OrElse(d.paymentStatus, PaymentPending), d.paymentId, OrElse(d.amountPaid, 0.0),
      0.0, now))
  }

  /** The campaign fields copied from an application on approval. */
  function CampaignDocOf(a: Application): CampaignDoc {
    CampaignDoc(Some(a.title), Some(a.description), Some(a.goal), a.image,
                a.payoutName, a.payoutAccount, a.payoutIFSC, a.payoutUPI,
                Some(a.paymentStatus), a.paymentId, Some(a.amountPaid))
  }

  /** `c` carries every field approval copies from `a`. */
  predicate CopiesApplication(c: Campaign, a: Application) {
    && c.title == a.title && c.description == a.description && c.goal == a.goal
    && c.image == a.image
    && c.payoutName == a.payoutName && c.payoutAccount == a.payoutAccount
    && c.payoutIFSC == a.payoutIFSC && c.payoutUPI == a.payoutUPI
    && c.paymentStatus == a.paymentStatus && c.paymentId == a.paymentId
    && c.amountPaid == a.amountPaid
  }

  /** The campaign schema accepts every copy of a stored application: its
      paths are a superset of the copied ones and the copied required fields
      are non-empty. The copy starts with nothing raised. */
  lemma ApplicationCopyValidates(a: Application, now: int)
    requires WellFormedApplication(a)
    ensures ValidateCampaign(CampaignDocOf(a), now).Some?
    ensures CopiesApplication(ValidateCampaign(CampaignDocOf(a), now).value, a)
    ensures ValidateCampaign(CampaignDocOf(a), now).value.amountRaised == 0.0
  {
  }
}
