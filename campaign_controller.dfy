/** server/controllers/campaignController.js: listing and reading campaigns,
    creating and deleting them, and the donation ledger (the running total
    on the campaign plus one Donation record per identified donor). */
module CampaignController {
  import opened Models
  import opened Db
  import Lists

  const CampaignNotFound := HttpError(404, "Campaign not found")
  const InvalidAmount := HttpError(400, "Invalid amount")
  const InvalidData := HttpError(400, "Invalid data")

  /** `getAllCampaigns`: every campaign once, newest first. */
  ghost function GetAllCampaigns(db: Db): (r: seq<Doc<Campaign>>)
    ensures ListsExactly(r, db.campaigns, (c: Campaign) => true)
    ensures forall i, j :: 0 <= i < j < |r| ==> r[i].val.createdAt >= r[j].val.createdAt
  {
    var all := Entries(db.campaigns);
    var r := Lists.SortBy(all, NewestCampaignFirst);
    PermutedListing(r, all, db.campaigns, (c: Campaign) => true);
    assert forall i, j :: 0 <= i < j < |r| ==> NewestCampaignFirst(r[i]) <= NewestCampaignFirst(r[j]);
    r
  }

  /** `getCampaign`: the stored campaign, or 404. */
  function GetCampaign(db: Db, id: Id): (r: Outcome<Campaign>)
    ensures r.Ok? <==> id in db.campaigns
    ensures r.Ok? ==> r.value == db.campaigns[id]
    ensures r.Fail? ==> r.error == CampaignNotFound
  {
    if id in db.campaigns then Ok(db.campaigns[id]) else Fail(CampaignNotFound)
  }

  /** `createCampaign`: only title, description and goal come from the
      request; every other field takes its schema default. Answers the
      created document, or 400 when the schema rejects it. */
  function CreateCampaignStep(db: Db, title: Option<string>, description: Option<string>, goal: Option<real>, now: int)
    : (r: Step<Doc<Campaign>>)
    ensures r.out.Ok? <==> RequiredString(title) && RequiredString(description) && goal.Some?
    ensures r.out.Fail? ==> r.out.error == InvalidData && r.db == db
    ensures r.out.Ok? ==>
      && r.out.value.id == db.nextId
      && r.db == db.(campaigns := db.campaigns[db.nextId := r.out.value.val], nextId := db.nextId + 1)
    ensures r.out.Ok? ==>
      var c := r.out.value.val;
      && Some(c.title) == title && Some(c.description) == description && Some(c.goal) == goal
      && c.amountRaised == 0.0 && c.amountPaid == 0.0 && c.paymentStatus == PaymentPending
      && c.image == None && c.paymentId == None && c.createdAt == now
      && c.payoutName == None && c.payoutAccount == None && c.payoutIFSC == None && c.payoutUPI == None
    ensures Valid(db) ==> Valid(r.db)
    ensures Valid(db) && r.out.Ok? ==> db.nextId !in db.campaigns
  {
    var doc := CampaignDoc(title, description, goal, None, None, None, None, None, None, None, None);
    match ValidateCampaign(doc, now)
    case None => Step(db, Fail(InvalidData))
    case Some(c) =>
      FreshIdUndonated(db);
      Step(db.(campaigns := db.campaigns[db.nextId := c], nextId := db.nextId + 1), Ok(Doc(db.nextId, c)))
  }

  /** The amount check `!amount || amount <= 0`: a missing amount, a zero
      and a negative one are refused, every positive number passes. Amounts
      here are numbers or absent; a string amount is not modelled. */
  function ValidAmount(amount: Option<real>): (ok: bool)
    ensures amount.None? ==> !ok
    ensures amount.Some? ==> (ok <==> amount.value > 0.0)
  {
    amount.Some? && amount.value > 0.0
  }

  /** `donateToCampaign`: refuses a bad amount before looking anything up,
      then an unknown campaign; otherwise adds the amount to `amountRaised`
      (no other field changes) and records one Donation when the donor is
      known. Answers the updated campaign. */
  function DonateStep(db: Db, id: Id, amount: Option<real>, donor: Option<Id>): (r: Step<Campaign>)
    ensures !ValidAmount(amount) ==> r == Step(db, Fail(InvalidAmount))
    ensures ValidAmount(amount) && id !in db.campaigns ==> r == Step(db, Fail(CampaignNotFound))
    ensures r.out.Ok? <==> ValidAmount(amount) && id in db.campaigns
    ensures r.out.Ok? ==>
      && r.out.value == db.campaigns[id].(amountRaised := db.campaigns[id].amountRaised + amount.value)
      && r.db.campaigns == db.campaigns[id := r.out.value]
      && r.db.users == db.users && r.db.applications == db.applications && r.db.nextId == db.nextId
      && r.db.donations == db.donations + (if donor.Some? then [Donation(donor.value, id, amount.value)] else [])
    ensures Valid(db) ==> Valid(r.db)
  {
    if !ValidAmount(amount) then Step(db, Fail(InvalidAmount))
    else if id !in db.campaigns then Step(db, Fail(CampaignNotFound))
    else
      var c := db.campaigns[id];
      var updated := c.(amountRaised := c.amountRaised + amount.value);
      var donations := if donor.Some? then db.donations + [Donation(donor.value, id, amount.value)] else db.donations;
      var db' := db.(campaigns := db.campaigns[id := updated], donations := donations);
      DonationKeepsValid(db, db', id, amount.value, donor);
      Step(db', Ok(updated))
  }

  lemma DonationKeepsValid(db: Db, db': Db, id: Id, amount: real, donor: Option<Id>)
    requires id in db.campaigns && amount > 0.0
    requires db' == db.(campaigns := db.campaigns[id := db.campaigns[id].(amountRaised := db.campaigns[id].amountRaised + amount)],
                        donations := if donor.Some? then db.donations + [Donation(donor.value, id, amount)] else db.donations)
    ensures Valid(db) ==> Valid(db')
  {
    if Valid(db) && donor.Some? {
      var d := Donation(donor.value, id, amount);
      forall c | c in db'.campaigns
        ensures Donated(db'.donations, c) <= db'.campaigns[c].amountRaised
      {
        DonatedAppend(db.donations, d, c);
      }
      assert forall i :: 0 <= i < |db'.donations| ==> db'.donations[i] == if i < |db.donations| then db.donations[i] else d;
    }
  }

  /** `deleteCampaign`: removes exactly that campaign (its donation records
      stay); 404 when it does not exist. */
  function DeleteCampaignStep(db: Db, id: Id): (r: Step<string>)
    ensures r.out.Fail? <==> id !in db.campaigns
    ensures r.out.Fail? ==> r.out.error == CampaignNotFound && r.db == db
    ensures r.out.Ok? ==> r.db == db.(campaigns := db.campaigns - {id})
    ensures Valid(db) ==> Valid(r.db)
  {
    if id !in db.campaigns then Step(db, Fail(CampaignNotFound))
    else Step(db.(campaigns := db.campaigns - {id}), Ok("Campaign deleted"))
  }

  method CreateCampaign(store: Store, title: Option<string>, description: Option<string>, goal: Option<real>, now: int)
    returns (out: Outcome<Doc<Campaign>>)
    modifies store
    ensures store.State() == CreateCampaignStep(old(store.State()), title, description, goal, now).db
    ensures out == CreateCampaignStep(old(store.State()), title, description, goal, now).out
  {
    var campaign := ValidateCampaign(CampaignDoc(title, description, goal, None, None, None, None, None, None, None, None), now);
    if campaign.None? {
      return Fail(InvalidData);
    }
    var id := store.NewId();
    store.campaigns := store.campaigns[id := campaign.value];
    out := Ok(Doc(id, campaign.value));
  }

  method Donate(store: Store, id: Id, amount: Option<real>, donor: Option<Id>) returns (out: Outcome<Campaign>)
    modifies store
    ensures store.State() == DonateStep(old(store.State()), id, amount, donor).db
    ensures out == DonateStep(old(store.State()), id, amount, donor).out
  {
    if amount.None? || amount.value <= 0.0 {
      return Fail(InvalidAmount);
    }
    if id !in store.campaigns {
      return Fail(CampaignNotFound);
    }
    var campaign := store.campaigns[id];
    campaign := campaign.(amountRaised := campaign.amountRaised + amount.value);
    store.campaigns := store.campaigns[id := campaign];
    if donor.Some? {
      store.donations := store.donations + [Donation(donor.value, id, amount.value)];
    }
    out := Ok(campaign);
  }

  method DeleteCampaign(store: Store, id: Id) returns (out: Outcome<string>)
    modifies store
    ensures store.State() == DeleteCampaignStep(old(store.State()), id).db
    ensures out == DeleteCampaignStep(old(store.State()), id).out
  {
    if id !in store.campaigns {
      return Fail(CampaignNotFound);
    }
    store.campaigns := store.campaigns - {id};
    out := Ok("Campaign deleted");
  }

  /** Creating a campaign and then reading it back gives the submitted
      title, description and goal with nothing raised. */
  lemma CreateThenGet(db: Db, title: string, description: string, goal: real, now: int)
    requires title != "" && description != ""
    ensures var r := CreateCampaignStep(db, Some(title), Some(description), Some(goal), now);
      && r.out.Ok?
      && var got := GetCampaign(r.db, r.out.value.id);
      && got.Ok? && got.value.title == title && got.value.description == description
      && got.value.goal == goal && got.value.amountRaised == 0.0
  {
  }

  /** Donating a positive amount `a` to a campaign that has raised `x`
      leaves it at `x + a`, and the recorded donations to it grow by `a`
      when the donor is known. */
  lemma DonationCreditsLedger(db: Db, id: Id, a: real, donor: Id)
    requires id in db.campaigns && a > 0.0
    ensures var r := DonateStep(db, id, Some(a), Some(donor));
      && r.db.campaigns[id].amountRaised == db.campaigns[id].amountRaised + a
      && Donated(r.db.donations, id) == Donated(db.donations, id) + a
  {
    DonatedAppend(db.donations, Donation(donor, id, a), id);
  }
}
