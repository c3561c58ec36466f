/** The server as a whole: every request that changes the store, applied in
    sequence. The lemmas here are about arbitrary request histories: the
    store invariant holds throughout, a decided application stays decided
    (so approval and rejection happen at most once), and a campaign's
    `amountRaised` never goes down. */
module Server {
  import opened Models
  import opened Db
  import AuthController
  import CampaignController
  import ApplicationController

  /** The store-changing requests, with what the controller reads from the
      request (`now` is the clock at the time of the request). */
  datatype Request =
    | Register(username: Option<string>, password: Option<string>, role: Option<string>)
    | Apply(caller: Id, form: ApplicationController.ApplicationForm,
            file: Option<ApplicationController.UploadedFile>, now: int)
    | Approve(id: Id, now: int)
    | Reject(id: Id)
    | UpdateNotes(id: Id, notes: string)
    | CreateCampaign(title: Option<string>, description: Option<string>, goal: Option<real>, now: int)
    | Donate(id: Id, amount: Option<real>, donor: Option<Id>)
    | DeleteCampaign(id: Id)

  function Dispatch(db: Db, req: Request): (r: Db)
    ensures Valid(db) ==> Valid(r)
    ensures db.nextId <= r.nextId
  {
    match req
    case Register(u, p, role) => AuthController.RegisterStep(db, u, p, role).db
    case Apply(caller, form, file, now) => ApplicationController.ApplyStep(db, caller, form, file, now).db
    case Approve(id, now) => ApplicationController.ApproveStep(db, id, now).db
    case Reject(id) => ApplicationController.RejectStep(db, id).db
    case UpdateNotes(id, notes) => ApplicationController.UpdateNotesStep(db, id, notes).db
    case CreateCampaign(t, d, g, now) => CampaignController.CreateCampaignStep(db, t, d, g, now).db
    case Donate(id, amount, donor) => CampaignController.DonateStep(db, id, amount, donor).db
    case DeleteCampaign(id) => CampaignController.DeleteCampaignStep(db, id).db
  }

  /** The store after a history of requests. */
  function Run(db: Db, reqs: seq<Request>): Db
    decreases |reqs|
  {
    if reqs == [] then db else Run(Dispatch(db, reqs[0]), reqs[1..])
  }

  lemma {:induction false} RunKeepsValid(db: Db, reqs: seq<Request>)
    requires Valid(db)
    ensures Valid(Run(db, reqs))
    decreases |reqs|
  {
    if reqs != [] {
      RunKeepsValid(Dispatch(db, reqs[0]), reqs[1..]);
    }
  }

  /** Starting from an empty store, the invariant holds after any history
      of requests. */
  lemma RunFromEmptyKeepsValid(reqs: seq<Request>)
    ensures Valid(Run(Empty, reqs))
  {
    EmptyValid();
    RunKeepsValid(Empty, reqs);
  }

  /** No request removes an application: the collection only grows. */
  lemma DispatchKeepsApplications(db: Db, req: Request)
    ensures db.applications.Keys <= Dispatch(db, req).applications.Keys
  {
  }

  /** Over any history of requests, every application stays stored. */
  lemma {:induction false} RunKeepsApplications(db: Db, reqs: seq<Request>)
    ensures db.applications.Keys <= Run(db, reqs).applications.Keys
    decreases |reqs|
  {
    if reqs != [] {
      DispatchKeepsApplications(db, reqs[0]);
      RunKeepsApplications(Dispatch(db, reqs[0]), reqs[1..]);
    }
  }

  /** One request never changes the status of a decided application. */
  lemma DispatchKeepsDecision(db: Db, req: Request, id: Id)
    requires id < db.nextId
    requires id in db.applications && db.applications[id].status != Pending
    ensures id in Dispatch(db, req).applications
    ensures Dispatch(db, req).applications[id].status == db.applications[id].status
  {
  }

  /** Status never returns to pending: whatever happens afterwards, a
      decided application keeps its decision. */
  lemma {:induction false} DecisionIsFinal(db: Db, reqs: seq<Request>, id: Id)
    requires Valid(db)
    requires id in db.applications && db.applications[id].status != Pending
    ensures id in Run(db, reqs).applications
    ensures Run(db, reqs).applications[id].status == db.applications[id].status
    decreases |reqs|
  {
    if reqs != [] {
      var db1 := Dispatch(db, reqs[0]);
      DispatchKeepsDecision(db, reqs[0], id);
      DecisionIsFinal(db1, reqs[1..], id);
    }
  }

  /** Approval and rejection happen at most once: after an application has
      been approved or rejected, any later approve or reject of it, after any
      history of requests, fails with 404 and changes nothing. */
  lemma DecidedOnce(db: Db, id: Id, now: int, reqs: seq<Request>, later: Request)
    requires Valid(db)
    requires ApplicationController.ApproveStep(db, id, now).out.Ok?
             || ApplicationController.RejectStep(db, id).out.Ok?
    requires (later.Approve? || later.Reject?) && later.id == id
    ensures var db1 := if ApplicationController.ApproveStep(db, id, now).out.Ok?
                       then ApplicationController.ApproveStep(db, id, now).db
                       else ApplicationController.RejectStep(db, id).db;
      var dbn := Run(db1, reqs);
      && Dispatch(dbn, later) == dbn
      && (later.Approve? ==> ApplicationController.ApproveStep(dbn, id, later.now).out
                               == Fail(ApplicationController.NotProcessable))
      && (later.Reject? ==> ApplicationController.RejectStep(dbn, id).out
                              == Fail(ApplicationController.NotProcessable))
  {
    var db1 := if ApplicationController.ApproveStep(db, id, now).out.Ok?
               then ApplicationController.ApproveStep(db, id, now).db
               else ApplicationController.RejectStep(db, id).db;
    assert Valid(db1);
    assert id in db1.applications && db1.applications[id].status != Pending;
    DecisionIsFinal(db1, reqs, id);
  }

  /** One request adds at most the campaign with the next fresh id, and never
      lowers the total of a campaign that survives it. */
  lemma DispatchCampaignFacts(db: Db, req: Request, c: Id)
    requires c in Dispatch(db, req).campaigns && c != db.nextId
    ensures c in db.campaigns
    ensures Dispatch(db, req).campaigns[c].amountRaised >= db.campaigns[c].amountRaised
  {
  }

  /** A campaign that exists after a history and whose id had already been
      handed out before it existed all along: deleted ids never come back. */
  lemma {:induction false} SurvivorWasThere(db: Db, reqs: seq<Request>, c: Id)
    requires c < db.nextId && c in Run(db, reqs).campaigns
    ensures c in db.campaigns
    decreases |reqs|
  {
    if reqs != [] {
      var db1 := Dispatch(db, reqs[0]);
      SurvivorWasThere(db1, reqs[1..], c);
      DispatchCampaignFacts(db, reqs[0], c);
    }
  }

  /** `amountRaised` never decreases: a campaign that exists before and after
      any history of requests has raised at least as much afterwards. */
  lemma {:induction false} RaisedNeverDecreases(db: Db, reqs: seq<Request>, c: Id)
    requires Valid(db)
    requires c in db.campaigns && c in Run(db, reqs).campaigns
    ensures Run(db, reqs).campaigns[c].amountRaised >= db.campaigns[c].amountRaised
    decreases |reqs|
  {
    if reqs != [] {
      var db1 := Dispatch(db, reqs[0]);
      SurvivorWasThere(db1, reqs[1..], c);
      DispatchCampaignFacts(db, reqs[0], c);
      RaisedNeverDecreases(db1, reqs[1..], c);
    }
  }
}
