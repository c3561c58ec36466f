/** The document store as the controllers see it: four collections, with
    every write infallible (connection errors and failed saves are not
    modelled), and the reply shapes the controllers send. */
module Db {
  import opened Models

  /** An error reply: HTTP status and the `error` text of the JSON body. */
  datatype HttpError = HttpError(status: nat, message: string)

  datatype Outcome<T> = Ok(value: T) | Fail(error: HttpError)

  /** A controller call as a state transition: the store afterwards and the
      reply. */
  datatype Step<T> = Step(db: Db, out: Outcome<T>)

  /** The four collections. `nextId` stands in for ObjectId generation:
      every id handed out so far is below it. */
  datatype Db = Db(
    users: map<Id, User>,
    campaigns: map<Id, Campaign>,
    applications: map<Id, Application>,
    donations: seq<Donation>,
    nextId: Id)

  const Empty := Db(map[], map[], map[], [], 0)

  /** Sum of the recorded donations to campaign `c`. */
  function Donated(ds: seq<Donation>, c: Id): real {
    if ds == [] then 0.0
    else Donated(ds[..|ds| - 1], c) + (if ds[|ds| - 1].campaign == c then ds[|ds| - 1].amount else 0.0)
  }

  predicate UniqueUsernames(users: map<Id, User>) {
    forall a, b :: a in users && b in users && users[a].username == users[b].username ==> a == b
  }

  /** The store invariant. Ids are fresh; usernames are unique; stored
      records passed their schema; every recorded donation is positive and
      refers to an id that was handed out; and no live campaign has been
      credited with less than its recorded donations. */
  ghost predicate Valid(db: Db) {
    && (forall id :: id in db.users ==> id < db.nextId)
    && (forall id :: id in db.campaigns ==> id < db.nextId)
    && (forall id :: id in db.applications ==> id < db.nextId)
    && UniqueUsernames(db.users)
    && (forall id :: id in db.applications ==> WellFormedApplication(db.applications[id]))
    && (forall id :: id in db.campaigns ==> WellFormedCampaign(db.campaigns[id]))
    && (forall i :: 0 <= i < |db.donations| ==>
          db.donations[i].campaign < db.nextId && db.donations[i].amount > 0.0)
    && (forall id :: id in db.campaigns ==> Donated(db.donations, id) <= db.campaigns[id].amountRaised)
  }

  lemma EmptyValid()
    ensures Valid(Empty)
  {
  }

  lemma {:induction false} DonatedNonNegative(ds: seq<Donation>, c: Id)
    requires forall i :: 0 <= i < |ds| ==> ds[i].amount > 0.0
    ensures Donated(ds, c) >= 0.0
  {
    if ds != [] {
      DonatedNonNegative(ds[..|ds| - 1], c);
    }
  }

  /** Nothing has been donated to an id that was never handed out. */
  lemma {:induction false} DonatedToUnusedId(ds: seq<Donation>, c: Id)
    requires forall i :: 0 <= i < |ds| ==> ds[i].campaign < c
    ensures Donated(ds, c) == 0.0
  {
    if ds != [] {
      DonatedToUnusedId(ds[..|ds| - 1], c);
    }
  }

  /** The next id to be handed out has received no donation. */
  lemma FreshIdUndonated(db: Db)
    ensures Valid(db) ==> Donated(db.donations, db.nextId) == 0.0
  {
    if Valid(db) {
      DonatedToUnusedId(db.donations, db.nextId);
    }
  }

  lemma DonatedAppend(ds: seq<Donation>, d: Donation, c: Id)
    ensures Donated(ds + [d], c) == Donated(ds, c) + (if d.campaign == c then d.amount else 0.0)
  {
    assert (ds + [d])[..|ds|] == ds;
  }

  /** `r` lists exactly the entries of `m` that satisfy `p`, each once. */
  ghost predicate ListsExactly<T(!new)>(r: seq<Doc<T>>, m: map<Id, T>, p: T -> bool) {
    && (forall d :: d in r <==> d.id in m && m[d.id] == d.val && p(d.val))
    && (forall d :: multiset(r)[d] <= 1)
  }

  /** Reordering a listing keeps it a listing. */
  lemma PermutedListing<T(!new)>(r: seq<Doc<T>>, s: seq<Doc<T>>, m: map<Id, T>, p: T -> bool)
    requires ListsExactly(s, m, p) && multiset(r) == multiset(s)
    ensures ListsExactly(r, m, p)
  {
    forall d ensures d in r <==> d in s {
      assert d in r <==> d in multiset(r);
      assert d in s <==> d in multiset(s);
    }
  }

  /** The entries of a collection, in an unspecified order. */
  ghost function Entries<T(!new)>(m: map<Id, T>): (r: seq<Doc<T>>)
    ensures ListsExactly(r, m, _ => true)
    decreases |m|
  {
    if |m| == 0 then []
    else
      var k :| k in m;
      var rest := Entries(m - {k});
      assert Doc(k, m[k]) !in rest;
      [Doc(k, m[k])] + rest
  }

  /** The store as a mutable object: each controller assigns the
      collections it changes. */
  class Store {
    var users: map<Id, User>
    var campaigns: map<Id, Campaign>
    var applications: map<Id, Application>
    var donations: seq<Donation>
    var nextId: Id

    function State(): Db
      reads this
    {
      Db(users, campaigns, applications, donations, nextId)
    }

    constructor ()
      ensures State() == Empty
    {
      users, campaigns, applications, donations, nextId := map[], map[], map[], [], 0;
    }

    /** A fresh `_id` for a document about to be inserted. */
    method NewId() returns (id: Id)
      modifies this
      ensures id == old(nextId) && nextId == id + 1
      ensures users == old(users) && campaigns == old(campaigns)
      ensures applications == old(applications) && donations == old(donations)
    {
      id := nextId;
      nextId := nextId + 1;
    }
  }
}
