/** server/routes/authRoutes.js, mounted at `/api/auth`: registering and
    logging in are public, the donation history needs a logged-in user, and
    no route asks for an administrator. */
module AuthRoutes {
  import opened Models
  import opened Router
  import AuthController

  const Table: seq<Route> := [
    Route(POST, [Lit("register")], [], None, Register),
    Route(POST, [Lit("login")], [], None, Login),
    Route(GET, [Lit("donations")], [Auth], None, GetUserDonations)
  ]

  lemma NoneShadowed()
    ensures forall k, j :: 0 <= j < k < |Table| ==> !Overlap(Table[j], Table[k])
  {
    assert !SegmentsOverlap(Table[0].pattern[0], Table[1].pattern[0]) by {
      assert "register"[0] != "login"[0];
    }
  }

  /** Who gets through: register and login without a token, the donation
      history with any verified token, whatever its role. */
  lemma Access(verb: Verb, path: seq<string>, claims: Option<AuthController.Token>)
    requires Resolve(Table, verb, path).Some?
    ensures var r := Resolve(Table, verb, path).value;
      && AdminOnly !in r.guards
      && (r.guards == [] <==> r.handler == Register || r.handler == Login)
      && (Passes(r.guards, claims) <==> r.handler != GetUserDonations || claims.Some?)
  {
    var r := Resolve(Table, verb, path).value;
    ChainMeaning(r.guards, claims);
  }
}
