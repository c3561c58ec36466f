/** server/routes/campaignRoutes.js, mounted at `/api/campaigns`: reading
    campaigns is public, donating needs a logged-in user, creating and
    deleting need an administrator. */
module CampaignRoutes {
  import opened Models
  import opened Router
  import AuthController

  const Table: seq<Route> := [
    Route(GET, [], [], None, GetAllCampaigns),
    Route(GET, [Param("id")], [], None, GetCampaign),
    Route(POST, [], [Auth, AdminOnly], None, CreateCampaign),
    Route(POST, [Param("id"), Lit("donate")], [Auth], None, DonateToCampaign),
    Route(DELETE, [Param("id")], [Auth, AdminOnly], None, DeleteCampaign)
  ]

  predicate PublicHandler(h: Handler) {
    h == GetAllCampaigns || h == GetCampaign
  }

  predicate AdminHandler(h: Handler) {
    h == CreateCampaign || h == DeleteCampaign
  }

  lemma NoneShadowed()
    ensures forall k, j :: 0 <= j < k < |Table| ==> !Overlap(Table[j], Table[k])
  {
  }

  /** Who gets through each registration: the two reads are public,
      creating and deleting need the administrator role, donating any
      verified token; and where `adminOnly` appears, `auth` runs first. */
  lemma RouteAccess(r: Route, claims: Option<AuthController.Token>)
    requires r in Table
    ensures && (r.guards == [] <==> PublicHandler(r.handler))
            && (AdminOnly in r.guards <==> AdminHandler(r.handler))
            && (AdminOnly in r.guards ==> r.guards == [Auth, AdminOnly])
            && (Passes(r.guards, claims) <==>
                  PublicHandler(r.handler)
                  || (claims.Some? && (AdminHandler(r.handler) ==> claims.value.role == AdminRole)))
  {
    ChainMeaning(r.guards, claims);
    if r == Table[0] || r == Table[1] {
      assert r.guards == [];
    } else if r == Table[2] || r == Table[4] {
      assert r.guards == [Auth, AdminOnly];
    } else {
      assert r == Table[3] && r.guards == [Auth];
    }
  }

  /** The same, for whatever registration handles a request. */
  lemma Access(verb: Verb, path: seq<string>, claims: Option<AuthController.Token>)
    requires Resolve(Table, verb, path).Some?
    ensures var r := Resolve(Table, verb, path).value;
      && (r.guards == [] <==> PublicHandler(r.handler))
      && (AdminOnly in r.guards <==> AdminHandler(r.handler))
      && (AdminOnly in r.guards ==> r.guards == [Auth, AdminOnly])
      && (Passes(r.guards, claims) <==>
            PublicHandler(r.handler)
            || (claims.Some? && (AdminHandler(r.handler) ==> claims.value.role == AdminRole)))
  {
    RouteAccess(Resolve(Table, verb, path).value, claims);
  }

  /** Reads are public whatever the verb-path pair: a GET this router
      handles never asks for a token. */
  lemma ReadsArePublic(path: seq<string>, claims: Option<AuthController.Token>)
    requires Resolve(Table, GET, path).Some?
    ensures Passes(Resolve(Table, GET, path).value.guards, claims)
  {
    ChainMeaning(Resolve(Table, GET, path).value.guards, claims);
  }
}
