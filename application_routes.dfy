/** server/routes/campaignApplicationRoutes.js, mounted at
    `/api/applications`: every route needs a logged-in user; listing,
    approving, rejecting and annotating applications also need an
    administrator; only `apply` takes an upload, the single file `image`. */
module ApplicationRoutes {
  import opened Models
  import opened Router
  import AuthController

  const Table: seq<Route> := [
    Route(POST, [], [Auth], Some("image"), Apply),
    Route(GET, [], [Auth, AdminOnly], None, GetAll),
    Route(POST, [Param("id"), Lit("approve")], [Auth, AdminOnly], None, Approve),
    Route(POST, [Param("id"), Lit("reject")], [Auth, AdminOnly], None, Reject),
    Route(POST, [Lit("create-order")], [Auth], None, CreateOrder),
    Route(GET, [Lit("user")], [Auth], None, GetUserApplications),
    Route(PATCH, [Param("id"), Lit("notes")], [Auth, AdminOnly], None, UpdateNotes)
  ]

  predicate AdminHandler(h: Handler) {
    h == GetAll || h == Approve || h == Reject || h == UpdateNotes
  }

  /** No registration overlaps an earlier one. */
  lemma NoneShadowed()
    ensures forall k, j :: 0 <= j < k < |Table| ==> !Overlap(Table[j], Table[k])
  {
    forall k | 0 <= k < |Table|
      ensures forall j :: 0 <= j < k ==> !Overlap(Table[j], Table[k])
    {
      if k == 3 {
        assert !SegmentsOverlap(Table[2].pattern[1], Table[3].pattern[1]) by {
          assert "approve"[0] != "reject"[0];
        }
      }
    }
  }

  /** Who gets through each registration: a verified token always, and
      the administrator role exactly for the four administrative handlers. */
  lemma RouteAccess(r: Route, claims: Option<AuthController.Token>)
    requires r in Table
    ensures && (AdminOnly in r.guards <==> AdminHandler(r.handler))
            && (Passes(r.guards, claims) <==>
                  claims.Some? && (AdminHandler(r.handler) ==> claims.value.role == AdminRole))
  {
    ChainMeaning(r.guards, claims);
    if r == Table[0] || r == Table[4] || r == Table[5] {
      assert r.guards == [Auth];
    } else {
      assert r.guards == [Auth, AdminOnly];
    }
  }

  /** The same, for whatever registration handles a request. */
  lemma Access(verb: Verb, path: seq<string>, claims: Option<AuthController.Token>)
    requires Resolve(Table, verb, path).Some?
    ensures var r := Resolve(Table, verb, path).value;
      && (AdminOnly in r.guards <==> AdminHandler(r.handler))
      && (Passes(r.guards, claims) <==>
            claims.Some? && (AdminHandler(r.handler) ==> claims.value.role == AdminRole))
  {
    RouteAccess(Resolve(Table, verb, path).value, claims);
  }

  /** Only `apply` accepts an upload, and only in the field `image`. */
  lemma UploadsOnlyOnApply(verb: Verb, path: seq<string>)
    requires Resolve(Table, verb, path).Some?
    ensures var r := Resolve(Table, verb, path).value;
      r.upload.Some? <==> r.handler == Apply
    ensures var r := Resolve(Table, verb, path).value;
      r.upload.Some? ==> r.upload.value == "image"
  {
  }
}
