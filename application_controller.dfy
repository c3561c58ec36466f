/** server/controllers/campaignApplicationController.js: a user applies for a
    campaign; an administrator lists the pending applications and approves
    (which creates the campaign) or rejects each one exactly once, and keeps
    free-text notes on it. Razorpay order creation is not part of this
    model. */
module ApplicationController {
  import opened Models
  import opened Db
  import Lists

  /** The file the upload middleware stored for the `image` field. */
  datatype UploadedFile = UploadedFile(filename: string)

  /** The fields `apply` reads from the request body (`None`: absent). */
  datatype ApplicationForm = ApplicationForm(
    title: Option<string>,
    description: Option<string>,
    goal: Option<real>,
    payoutName: Option<string>,
    payoutAccount: Option<string>,
    payoutIFSC: Option<string>,
    payoutUPI: Option<string>)

  const InvalidData := HttpError(400, "Invalid data")
  const NotProcessable := HttpError(404, "Application not found or already processed")
  const NotFound := HttpError(404, "Application not found")
  const ServerError := HttpError(500, "Server error")

  /** The application `apply` builds: owned by the caller, the uploaded
      file's name as image (null without a file), payment not yet made. */
  function ApplicationDocFor(caller: Id, form: ApplicationForm, file: Option<UploadedFile>): (d: ApplicationDoc)
    ensures d.user == caller
    ensures d.image == if file.Some? then Some(file.value.filename) else None
    ensures d.paymentStatus == Some(PaymentPending) && d.paymentId == None && d.amountPaid == Some(0.0)
  {
    var image := if file.Some? then Some(file.value.filename) else None;
    ApplicationDoc(caller, form.title, form.description, form.goal, image,
                   form.payoutName, form.payoutAccount, form.payoutIFSC, form.payoutUPI,
                   Some(PaymentPending), None, Some(0.0))
  }

  /** `apply`: stores a new pending application owned by the caller, or
      answers 400 when the schema rejects it. */
  function ApplyStep(db: Db, caller: Id, form: ApplicationForm, file: Option<UploadedFile>, now: int): (r: Step<string>)
    ensures r.out.Ok? <==> RequiredString(form.title) && RequiredString(form.description) && form.goal.Some?
    ensures r.out.Fail? ==> r.out.error == InvalidData && r.db == db
    ensures r.out.Ok? ==>
      && r.db.users == db.users && r.db.campaigns == db.campaigns && r.db.donations == db.donations
      && r.db.nextId == db.nextId + 1
      && r.db.applications.Keys == db.applications.Keys + {db.nextId}
      && (forall k :: k in db.applications && k != db.nextId ==> r.db.applications[k] == db.applications[k])
    ensures r.out.Ok? ==>
      var a := r.db.applications[db.nextId];
      && a.user == caller && a.status == Pending && a.adminNotes == "" && a.createdAt == now
      && a.paymentStatus == PaymentPending && a.paymentId == None && a.amountPaid == 0.0
      && a.image == (if file.Some? then Some(file.value.filename) else None)
      && Some(a.title) == form.title && Some(a.description) == form.description && Some(a.goal) == form.goal
      && a.payoutName == form.payoutName && a.payoutAccount == form.payoutAccount
      && a.payoutIFSC == form.payoutIFSC && a.payoutUPI == form.payoutUPI
    ensures Valid(db) ==> Valid(r.db)
    ensures Valid(db) && r.out.Ok? ==> db.nextId !in db.applications
  {
    match ValidateApplication(ApplicationDocFor(caller, form, file), now)
    case None => Step(db, Fail(InvalidData))
    case Some(a) =>
      Step(db.(applications := db.applications[db.nextId := a], nextId := db.nextId + 1),
           Ok("Application submitted"))
  }

  /** `getAll`: exactly the pending applications, each once. */
  ghost function GetAll(db: Db): (r: seq<Doc<Application>>)
    ensures ListsExactly(r, db.applications, (a: Application) => a.status == Pending)
  {
    Lists.Filter(Entries(db.applications), (d: Doc<Application>) => d.val.status == Pending)
  }

  /** What `populate('user', 'username')` shows as an application's owner:
      the username, or null when the user no longer resolves. */
  function OwnerName(db: Db, a: Application): (r: Option<string>)
    ensures r.Some? <==> a.user in db.users
    ensures r.Some? ==> r.value == db.users[a.user].username
  {
    if a.user in db.users then Some(db.users[a.user].username) else None
  }

  /** `getUserApplications`: exactly the caller's applications, newest
      first. */
  ghost function GetUserApplications(db: Db, caller: Id): (r: seq<Doc<Application>>)
    ensures ListsExactly(r, db.applications, (a: Application) => a.user == caller)
    ensures forall i, j :: 0 <= i < j < |r| ==> r[i].val.createdAt >= r[j].val.createdAt
  {
    var mine := Lists.Filter(Entries(db.applications), (d: Doc<Application>) => d.val.user == caller);
    var r := Lists.SortBy(mine, NewestApplicationFirst);
    PermutedListing(r, mine, db.applications, (a: Application) => a.user == caller);
    r
  }

  predicate IsPending(db: Db, id: Id) {
    id in db.applications && db.applications[id].status == Pending
  }

  /** `approve`: a pending application becomes approved and exactly one
      campaign copied from it is inserted; any other id is answered 404 and
      nothing changes. (If the campaign failed its schema the application
      would stay approved without a campaign; a valid store never gets
      there.) */
  function ApproveStep(db: Db, id: Id, now: int): (r: Step<string>)
    ensures r.out == Fail(NotProcessable) <==> !IsPending(db, id)
    ensures !IsPending(db, id) ==> r.db == db
    ensures IsPending(db, id) ==>
      && r.db.applications == db.applications[id := db.applications[id].(status := Approved)]
      && r.db.users == db.users && r.db.donations == db.donations
    ensures Valid(db) ==> Valid(r.db)
    ensures Valid(db) && IsPending(db, id) ==>
      && r.out.Ok?
      && db.nextId !in db.campaigns
      && r.db.campaigns.Keys == db.campaigns.Keys + {db.nextId}
      && (forall k :: k in db.campaigns ==> r.db.campaigns[k] == db.campaigns[k])
      && CopiesApplication(r.db.campaigns[db.nextId], db.applications[id])
      && r.db.campaigns[db.nextId].amountRaised == 0.0
      && r.db.campaigns[db.nextId].createdAt == now
  {
    if !IsPending(db, id) then Step(db, Fail(NotProcessable))
    else
      var app := db.applications[id];
      var db1 := db.(applications := db.applications[id := app.(status := Approved)]);
      match ValidateCampaign(CampaignDocOf(app), now)
      case None => Step(db1, Fail(ServerError))
      case Some(c) =>
        FreshIdUndonated(db);
        Step(db1.(campaigns := db.campaigns[db.nextId := c], nextId := db.nextId + 1),
             Ok("Application approved and campaign created"))
  }

  /** `reject`: a pending application becomes rejected and no campaign is
      created; any other id is answered 404 and nothing changes. */
  function RejectStep(db: Db, id: Id): (r: Step<string>)
    ensures r.out.Fail? <==> !IsPending(db, id)
    ensures r.out.Fail? ==> r.out.error == NotProcessable && r.db == db
    ensures r.out.Ok? ==>
      r.db == db.(applications := db.applications[id := db.applications[id].(status := Rejected)])
    ensures Valid(db) ==> Valid(r.db)
  {
    if !IsPending(db, id) then Step(db, Fail(NotProcessable))
    else
      var app := db.applications[id];
      Step(db.(applications := db.applications[id := app.(status := Rejected)]), Ok("Application rejected"))
  }

  /** `updateNotes`: replaces the notes of an existing application whatever
      its status, answering with the stored notes; 404 for an unknown id. */
  function UpdateNotesStep(db: Db, id: Id, notes: string): (r: Step<string>)
    ensures r.out.Fail? <==> id !in db.applications
    ensures r.out.Fail? ==> r.out.error == NotFound && r.db == db
    ensures r.out.Ok? ==> r.out.value == notes
    ensures r.out.Ok? ==>
      r.db == db.(applications := db.applications[id := db.applications[id].(adminNotes := notes)])
    ensures Valid(db) ==> Valid(r.db)
  {
    if id !in db.applications then Step(db, Fail(NotFound))
    else
      var app := db.applications[id];
      Step(db.(applications := db.applications[id := app.(adminNotes := notes)]), Ok(notes))
  }

  method Apply(store: Store, caller: Id, form: ApplicationForm, file: Option<UploadedFile>, now: int)
    returns (out: Outcome<string>)
    modifies store
    ensures store.State() == ApplyStep(old(store.State()), caller, form, file, now).db
    ensures out == ApplyStep(old(store.State()), caller, form, file, now).out
  {
    var image: Option<string> := None;
    if file.Some? {
      image := Some(file.value.filename);
    }
    var doc := ApplicationDoc(caller, form.title, form.description, form.goal, image,
                              form.payoutName, form.payoutAccount, form.payoutIFSC, form.payoutUPI,
                              Some(PaymentPending), None, Some(0.0));
    var saved := ValidateApplication(doc, now);
    if saved.None? {
      return Fail(InvalidData);
    }
    var id := store.NewId();
    store.applications := store.applications[id := saved.value];
    out := Ok("Application submitted");
  }

  method Approve(store: Store, id: Id, now: int) returns (out: Outcome<string>)
    modifies store
    ensures store.State() == ApproveStep(old(store.State()), id, now).db
    ensures out == ApproveStep(old(store.State()), id, now).out
  {
    if id !in store.applications || store.applications[id].status != Pending {
      return Fail(NotProcessable);
    }
    var app := store.applications[id];
    store.applications := store.applications[id := app.(status := Approved)];
    var campaign := ValidateCampaign(CampaignDocOf(app), now);
    if campaign.None? {
      return Fail(ServerError);
    }
    var cid := store.NewId();
    store.campaigns := store.campaigns[cid := campaign.value];
    out := Ok("Application approved and campaign created");
  }

  method Reject(store: Store, id: Id) returns (out: Outcome<string>)
    modifies store
    ensures store.State() == RejectStep(old(store.State()), id).db
    ensures out == RejectStep(old(store.State()), id).out
  {
    if id !in store.applications || store.applications[id].status != Pending {
      return Fail(NotProcessable);
    }
    var app := store.applications[id];
    store.applications := store.applications[id := app.(status := Rejected)];
    out := Ok("Application rejected");
  }

  method UpdateNotes(store: Store, id: Id, notes: string) returns (out: Outcome<string>)
    modifies store
    ensures store.State() == UpdateNotesStep(old(store.State()), id, notes).db
    ensures out == UpdateNotesStep(old(store.State()), id, notes).out
  {
    if id !in store.applications {
      return Fail(NotFound);
    }
    var app := store.applications[id];
    store.applications := store.applications[id := app.(adminNotes := notes)];
    out := Ok(store.applications[id].adminNotes);
  }
}
