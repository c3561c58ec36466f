/** What the three route files share: a router is a table of registrations
    (verb, path pattern, middleware chain, handler) and a request goes to
    the first registration whose verb and pattern match, as in Express.
    Paths are given relative to the router's mount point, already split into
    segments. The `auth` and `adminOnly` middleware are not part of this
    model; they are the predicates `Admits` below over the verified token
    claims. */
module Router {
  import opened Models
  import opened Text
  import AuthController

  datatype Verb = GET | POST | PATCH | DELETE

  /** A pattern segment: a literal, or a `:name` parameter. */
  datatype Segment = Lit(text: string) | Param(name: string)

  datatype Guard = Auth | AdminOnly

  /** The controller function a route ends in. */
  datatype Handler =
    | Apply | GetAll | Approve | Reject | CreateOrder | GetUserApplications | UpdateNotes
    | GetAllCampaigns | GetCampaign | CreateCampaign | DonateToCampaign | DeleteCampaign
    | Register | Login | GetUserDonations

  /** One registration. `upload` is the field name of a single-file upload
      middleware in the chain, if any. */
  datatype Route = Route(verb: Verb, pattern: seq<Segment>, guards: seq<Guard>,
                         upload: Option<string>, handler: Handler)

  /** A parameter matches one non-empty segment; a literal only itself. */
  predicate SegmentMatches(s: Segment, x: string) {
    match s
    case Lit(t) => t == x
    case Param(_) => x != ""
  }

  predicate Matches(r: Route, verb: Verb, path: seq<string>) {
    && r.verb == verb
    && |r.pattern| == |path|
    && forall i :: 0 <= i < |path| ==> SegmentMatches(r.pattern[i], path[i])
  }

  /** The index of the first registration matching the request, or the
      table's length when none does. */
  function FirstMatch(table: seq<Route>, verb: Verb, path: seq<string>): (i: nat)
    ensures i <= |table|
    ensures i < |table| ==> Matches(table[i], verb, path)
    ensures forall j :: 0 <= j < i ==> !Matches(table[j], verb, path)
  {
    if table == [] then 0
    else if Matches(table[0], verb, path) then 0
    else 1 + FirstMatch(table[1..], verb, path)
  }

  /** The registration that handles the request (`None`: the router passes
      it on, which ends in a 404). */
  function Resolve(table: seq<Route>, verb: Verb, path: seq<string>): (r: Option<Route>)
    ensures r.Some? <==> exists i :: 0 <= i < |table| && Matches(table[i], verb, path)
    ensures r.Some? ==> r.value in table && Matches(r.value, verb, path)
    ensures r.Some? ==> exists i :: 0 <= i < |table| && r.value == table[i]
                                    && forall j :: 0 <= j < i ==> !Matches(table[j], verb, path)
  {
    var i := FirstMatch(table, verb, path);
    if i < |table| then Some(table[i]) else None
  }

  /** What one middleware lets through, given the claims of a verified
      token (`None`: no token, or one that does not verify). */
  predicate Admits(g: Guard, claims: Option<AuthController.Token>) {
    match g
    case Auth => claims.Some?
    case AdminOnly => claims.Some? && claims.value.role == AdminRole
  }

  /** A chain lets a request through when every middleware in it does. */
  predicate Passes(guards: seq<Guard>, claims: Option<AuthController.Token>) {
    forall i :: 0 <= i < |guards| ==> Admits(guards[i], claims)
  }

  /** Reading a chain: public, for any logged-in user, or admin only. */
  lemma ChainMeaning(guards: seq<Guard>, claims: Option<AuthController.Token>)
    ensures guards == [] ==> Passes(guards, claims)
    ensures guards == [Auth] ==> (Passes(guards, claims) <==> claims.Some?)
    ensures guards == [Auth, AdminOnly] ==>
      (Passes(guards, claims) <==> claims.Some? && claims.value.role == AdminRole)
  {
    if guards == [Auth] {
      if Passes(guards, claims) {
        assert Admits(guards[0], claims);
      }
      if claims.Some? {
        assert forall i :: 0 <= i < 1 ==> guards[i] == Auth;
      }
    }
    if guards == [Auth, AdminOnly] {
      if Passes(guards, claims) {
        assert Admits(guards[1], claims);
      }
      if claims.Some? && claims.value.role == AdminRole {
        assert forall i :: 0 <= i < 2 ==> Admits(guards[i], claims);
      }
    }
  }

  /** Two registrations that some request matches both of. */
  predicate Overlap(a: Route, b: Route) {
    && a.verb == b.verb
    && |a.pattern| == |b.pattern|
    && forall i :: 0 <= i < |a.pattern| ==> SegmentsOverlap(a.pattern[i], b.pattern[i])
  }

  predicate SegmentsOverlap(s: Segment, t: Segment) {
    s.Param? || t.Param? || s.text == t.text
  }

  /** A request that two registrations both match shows that they
      overlap. */
  lemma MatchesOverlap(a: Route, b: Route, verb: Verb, path: seq<string>)
    requires Matches(b, verb, path)
    ensures Matches(a, verb, path) ==> Overlap(a, b)
  {
    if Matches(a, verb, path) {
      forall s | 0 <= s < |path|
        ensures SegmentsOverlap(a.pattern[s], b.pattern[s])
      {
        assert SegmentMatches(a.pattern[s], path[s]);
        assert SegmentMatches(b.pattern[s], path[s]);
      }
    }
  }

  /** Without an earlier overlapping registration, every request that a
      registration matches is handled by it: the registration is not
      shadowed. */
  lemma NotShadowed(table: seq<Route>, k: nat, verb: Verb, path: seq<string>)
    requires k < |table| && Matches(table[k], verb, path)
    requires forall j :: 0 <= j < k ==> !Overlap(table[j], table[k])
    ensures Resolve(table, verb, path) == Some(table[k])
  {
    var i := FirstMatch(table, verb, path);
    assert i <= k;
    MatchesOverlap(table[i], table[k], verb, path);
  }

  /** A table in which no registration overlaps an earlier one. */
  predicate Unshadowed(table: seq<Route>) {
    forall k, j :: 0 <= j < k < |table| ==> !Overlap(table[j], table[k])
  }

  /** In a table without shadowing, every registration is reachable: each
      request it matches reaches its handler. */
  lemma EveryRouteReachable(table: seq<Route>, k: nat, path: seq<string>)
    requires Unshadowed(table)
    requires k < |table| && Matches(table[k], table[k].verb, path)
    ensures Resolve(table, table[k].verb, path) == Some(table[k])
  {
    NotShadowed(table, k, table[k].verb, path);
  }

  /** The suffix multer's filename callback puts in front of the original
      name: `<Date.now()>-<Math.round(Math.random() * 1E9)>-`. Both numbers
      are parameters here. */
  function UploadName(timestamp: nat, random: nat, original: string): (r: string)
    ensures |r| > |original| && r[|r| - |original| - 1..] == "-" + original
    ensures forall i :: 0 <= i < |r| - |original| - 1 ==> r[i] == '-' || IsDigit(r[i])
  {
    DecimalString(timestamp) + "-" + DecimalString(random) + "-" + original
  }

  /** Everything after the first `-` of `s` (all of `s` when it has none). */
  function AfterDash(s: string): (r: string)
    ensures |r| <= |s| && r == s[|s| - |r|..]
  {
    if s == [] then []
    else if s[0] == '-' then s[1..]
    else AfterDash(s[1..])
  }

  /** The original name recovered from a stored upload name: the part after
      the second `-`. */
  function OriginalName(stored: string): string {
    AfterDash(AfterDash(stored))
  }

  lemma {:induction false} AfterDashSkipsDigits(p: string, q: string)
    requires forall i :: 0 <= i < |p| ==> IsDigit(p[i])
    ensures AfterDash(p + "-" + q) == q
    decreases |p|
  {
    if p == [] {
      assert p + "-" + q == "-" + q;
    } else {
      assert (p + "-" + q)[1..] == p[1..] + "-" + q;
      AfterDashSkipsDigits(p[1..], q);
    }
  }

  /** The stored name determines the original one: the two numbers before
      it never contain a `-`. */
  lemma UploadNameRoundTrip(timestamp: nat, random: nat, original: string)
    ensures OriginalName(UploadName(timestamp, random, original)) == original
  {
    var t := DecimalString(timestamp);
    var n := DecimalString(random);
    assert UploadName(timestamp, random, original) == t + "-" + (n + "-" + original);
    AfterDashSkipsDigits(t, n + "-" + original);
    AfterDashSkipsDigits(n, original);
  }
}
