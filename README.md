# FundSpark crowdfunding core, in Dafny

FundSpark is a small crowdfunding web application. Users apply for a
campaign. An administrator approves each application, which creates the
campaign, or rejects it. Logged-in users donate to campaigns, and every
donation is added to the campaign's running total. This project models
three parts of it and proves properties about them:

- **The server's controllers and schemas.**
  - The document store holds users, campaigns, applications and donation
    records.
  - Each controller operation is a transition function `XStep(db, ...)`
    that returns the new store and the reply.
  - A method `X(store, ...)` on the mutable `Db.Store` performs the same
    update step by step, and its contract ties it to `XStep`.
  - `Server.Run` applies any history of requests. Lemmas about it show
    three things: the store invariant holds throughout, an application is
    decided at most once, and a campaign's `amountRaised` never goes down.
  - The store invariant `Db.Valid` covers fresh ids, unique usernames,
    schema-valid records, and no campaign credited with less than its
    recorded donations.
- **The three Express route files.**
  - Each file is a table of registrations, and a request goes to the first
    registration that matches.
  - Lemmas state who may call each handler. They also show that no
    registration shadows another, and that a stored upload name gives back
    the original file name.
- **The React client.**
  - The admin dashboard's helpers and its filter/search/sort pipeline.
  - The dashboard's local list updates.
  - The donate form's checks and the rupee-to-paise conversion.
  - The shell's login and sidebar state, and which page each client route
    renders.

Conventions:

- Money is `real`.
- Times are integer milliseconds.
- An absent JSON field or a `null` value is `None`.
- Document ids are natural numbers handed out by a counter, which stands in
  for fresh ObjectIds.

About the donate form's error text: when the server refuses a donation,
the callback shows the `message` field of the reply, or "Failed to record
donation" when it has none. This server's controllers put their error text
in an `error` field, so a refusal from them shows "Failed to record
donation". When the request itself throws, the form shows the error's own
message, or "Failed to record donation. Please try again." when that
message is empty.

## Model

| member | source | states |
|---|---|---|
| Models.ValidateApplication | server/models/CampaignApplication.js:3-67 | Saving succeeds iff title and description are non-empty and goal is present. The result keeps every given field and defaults status to pending, adminNotes to empty, paymentStatus to pending, amountPaid to 0 and createdAt to now |
| Models.ValidateCampaign | server/models/Campaign.js:3-57 | Saving succeeds iff title and description are non-empty and goal is present. The result keeps every given field and defaults amountRaised to 0, paymentStatus to pending, amountPaid to 0 and createdAt to now |
| Models.ApplicationCopyValidates | server/controllers/campaignApplicationController.js:72-86 | The campaign built from a stored application always passes the campaign schema, carries all eleven copied fields, and starts at amountRaised 0 |
| Db.FreshIdUndonated | server/controllers/campaignController.js:47-50 | In a valid store, no donation is recorded against the next id to be handed out |
| Db.DonatedAppend | server/controllers/campaignController.js:49 | Appending a donation raises its campaign's recorded total by its amount and leaves every other campaign's total unchanged |
| ApplicationController.ApplicationDocFor | server/controllers/campaignApplicationController.js:31-46 | The submitted application is owned by the caller and starts with payment pending, no payment id and nothing paid. Its image is the uploaded file's name, or null without a file |
| ApplicationController.ApplyStep | server/controllers/campaignApplicationController.js:29-52 | Ok iff the schema accepts the form. A refusal is 400 "Invalid data" and changes nothing. On success, one new pending application at a fresh id holds the caller, form, defaults and image, and every other collection and entry is unchanged. The store invariant is kept |
| ApplicationController.Apply | server/controllers/campaignApplicationController.js:29-52 | The store after the call and the reply are exactly those of `ApplyStep` |
| ApplicationController.GetAll | server/controllers/campaignApplicationController.js:55-62 | Lists exactly the applications whose status is pending, each once |
| ApplicationController.OwnerName | server/controllers/campaignApplicationController.js:57 | The populated owner is the user's name when the user exists, else null |
| ApplicationController.GetUserApplications | server/controllers/campaignApplicationController.js:107-114 | Lists exactly the caller's applications, each once, newest createdAt first |
| ApplicationController.ApproveStep | server/controllers/campaignApplicationController.js:65-91 | The reply is 404 "Application not found or already processed" iff the id is absent or not pending, and then nothing changes. Otherwise the application becomes approved and users and donations are unchanged. In a valid store exactly one campaign is added, at a fresh id, copying the application with nothing raised, and existing campaigns are unchanged. The store invariant is kept |
| ApplicationController.Approve | server/controllers/campaignApplicationController.js:65-91 | The store after the call and the reply are exactly those of `ApproveStep` |
| ApplicationController.RejectStep | server/controllers/campaignApplicationController.js:94-104 | Fails with 404 and changes nothing iff the id is absent or not pending. Otherwise only that application's status becomes rejected and no campaign is created. The store invariant is kept |
| ApplicationController.Reject | server/controllers/campaignApplicationController.js:94-104 | The store after the call and the reply are exactly those of `RejectStep` |
| ApplicationController.UpdateNotesStep | server/controllers/campaignApplicationController.js:117-128 | Fails with 404 "Application not found" iff the id is absent, and then nothing changes. Otherwise only that application's adminNotes change, whatever its status, and the reply carries the new notes. The store invariant is kept |
| ApplicationController.UpdateNotes | server/controllers/campaignApplicationController.js:117-128 | The store after the call and the reply are exactly those of `UpdateNotesStep` |
| CampaignController.GetAllCampaigns | server/controllers/campaignController.js:5-12 | Lists every campaign exactly once, newest createdAt first |
| CampaignController.GetCampaign | server/controllers/campaignController.js:15-23 | Ok iff the id exists, with the stored campaign. Otherwise 404 "Campaign not found" |
| CampaignController.CreateCampaignStep | server/controllers/campaignController.js:26-35 | Ok iff title and description are non-empty and goal is present. A refusal is 400 "Invalid data" and changes nothing. On success, only a new campaign at a fresh id is added. Title, description and goal come from the request and every other field takes its default, so nothing has been raised. The store invariant is kept |
| CampaignController.CreateCampaign | server/controllers/campaignController.js:26-35 | The store after the call and the reply are exactly those of `CreateCampaignStep` |
| CampaignController.ValidAmount | server/controllers/campaignController.js:41 | A missing amount is refused, and a present one passes iff it is positive |
| CampaignController.DonateStep | server/controllers/campaignController.js:38-55 | A missing or non-positive amount gets 400 and changes nothing, checked before the lookup. An unknown id gets 404 and changes nothing. Otherwise only amountRaised grows, by the amount, and the updated campaign is returned. One donation record is appended iff the donor is known. The store invariant is kept |
| CampaignController.DonationKeepsValid | server/controllers/campaignController.js:44-50 | Crediting a campaign and appending the matching record keeps the ledger invariant |
| CampaignController.Donate | server/controllers/campaignController.js:38-55 | The store after the call and the reply are exactly those of `DonateStep` |
| CampaignController.DeleteCampaignStep | server/controllers/campaignController.js:58-66 | Fails with 404 and changes nothing iff the id is absent. Otherwise it removes exactly that campaign and leaves donation records untouched. The store invariant is kept |
| CampaignController.DeleteCampaign | server/controllers/campaignController.js:58-66 | The store after the call and the reply are exactly those of `DeleteCampaignStep` |
| CampaignController.CreateThenGet | server/controllers/campaignController.js:15-35 | A created campaign reads back with the submitted title, description and goal, and nothing raised |
| CampaignController.DonationCreditsLedger | server/controllers/campaignController.js:44-50 | After a donation of `a` by a known donor, both the campaign's total and its recorded donations have grown by exactly `a` |
| AuthController.NormaliseRole | server/controllers/authController.js:14 | The stored role is admin iff the requested role is exactly "admin" |
| AuthController.RegisterStep | server/controllers/authController.js:7-21 | A missing or empty username or password gets 400 "Username and password required". A taken username gets 400 "Username already exists". Both change nothing. Otherwise exactly one user is added, with the hashed password and the normalised role. Unique usernames and the store invariant are kept |
| AuthController.Register | server/controllers/authController.js:7-21 | The store after the call and the reply are exactly those of `RegisterStep` |
| AuthController.Login | server/controllers/authController.js:24-36 | An unknown username and a wrong password get the same 400 "Invalid credentials". A request without a password that names a known user gets 500 "Server error", because the hash comparison rejects it, and only that request does. With unique usernames, success holds iff a password is given and a user of that name has a matching password. The token carries the user's id and role, and the returned user is id, username and role, with no password |
| AuthController.UserDonations | server/controllers/authController.js:41 | Exactly the caller's donation records, with their multiplicities |
| AuthController.GetUserDonations | server/controllers/authController.js:39-46 | One entry per donation of the caller. The campaign is populated when it still exists, and null otherwise |
| AuthController.RegisterThenLogin | server/controllers/authController.js:7-36 | After a successful registration, logging in with the same credentials succeeds as the new user with the normalised role |
| AuthController.RegisterTwiceFails | server/controllers/authController.js:11-12 | Registering a taken username fails with "Username already exists" and stores nothing |
| Server.Dispatch | server/index.js:21-25 | Each store-changing request keeps the store invariant and never lowers the id counter |
| Server.RunKeepsValid | server/index.js:21-25 | The store invariant holds after any history of requests |
| Server.RunFromEmptyKeepsValid | server/index.js:21-25 | Starting from an empty database, the store invariant holds after any history of requests |
| Server.DispatchKeepsApplications | server/controllers/campaignApplicationController.js:29-128 | No request removes an application: every stored id is still stored afterwards |
| Server.RunKeepsApplications | server/controllers/campaignApplicationController.js:29-128 | Every stored application is still stored after any history of requests |
| Server.DispatchKeepsDecision | server/controllers/campaignApplicationController.js:68-70 | No request removes a decided application or changes its status |
| Server.DecisionIsFinal | server/controllers/campaignApplicationController.js:65-104 | An approved or rejected application keeps that status after any history of requests |
| Server.DecidedOnce | server/controllers/campaignApplicationController.js:65-104 | After an application has been approved or rejected, any later approve or reject of it fails with 404 and changes nothing, whatever happened in between |
| Server.DispatchCampaignFacts | server/controllers/campaignController.js:41-45 | One request adds no campaign except at the fresh id, and never lowers a surviving campaign's total |
| Server.SurvivorWasThere | server/controllers/campaignController.js:58-66 | A deleted campaign id never comes back |
| Server.RaisedNeverDecreases | server/controllers/campaignController.js:41-45 | A campaign's amountRaised is at least as large after any history of requests |
| Router.FirstMatch | server/routes/campaignRoutes.js:7-19 | Gives the first registration that matches the verb and path, or none, with no earlier registration matching |
| Router.Resolve | server/routes/campaignRoutes.js:7-19 | Some registration handles the request iff one matches it. The handler is the first matching registration of the table: it matches, and no earlier registration does |
| Router.ChainMeaning | server/routes/campaignRoutes.js:7-19 | An empty chain admits everyone. `auth` admits any verified token. `auth, adminOnly` admits exactly administrators |
| Router.EveryRouteReachable | server/routes/campaignApplicationRoutes.js:20-38 | In a table where no registration overlaps an earlier one, every request a registration matches reaches that registration. The three route tables meet this by their `NoneShadowed` lemmas |
| Router.NotShadowed | server/routes/campaignApplicationRoutes.js:20-38 | A registration with no earlier overlapping registration handles every request it matches |
| Router.UploadName | server/routes/campaignApplicationRoutes.js:12-15 | The stored name ends with "-" followed by the original name, and everything before that is digits and dashes |
| Router.UploadNameRoundTrip | server/routes/campaignApplicationRoutes.js:12-15 | The original file name is recovered from the stored name as the part after the second "-" |
| ApplicationRoutes.NoneShadowed | server/routes/campaignApplicationRoutes.js:20-38 | No registration overlaps an earlier one |
| ApplicationRoutes.RouteAccess | server/routes/campaignApplicationRoutes.js:20-38 | Every registration requires a verified token. adminOnly appears exactly on list, approve, reject and notes, and those admit exactly administrators |
| ApplicationRoutes.Access | server/routes/campaignApplicationRoutes.js:20-38 | Every route requires a verified token. adminOnly appears exactly on list, approve, reject and notes, so those admit exactly administrators and apply, create-order and user admit any logged-in user |
| ApplicationRoutes.UploadsOnlyOnApply | server/routes/campaignApplicationRoutes.js:17-20 | Only apply takes an upload, and only the single field "image" |
| CampaignRoutes.NoneShadowed | server/routes/campaignRoutes.js:7-19 | No registration overlaps an earlier one |
| CampaignRoutes.RouteAccess | server/routes/campaignRoutes.js:7-19 | Per registration: the two reads have no guard. Create and delete admit exactly administrators, with auth before adminOnly. Donate admits any verified token |
| CampaignRoutes.Access | server/routes/campaignRoutes.js:7-19 | The two reads have no guard. Create and delete admit exactly administrators, with auth before adminOnly. Donate admits any verified token |
| CampaignRoutes.ReadsArePublic | server/routes/campaignRoutes.js:7-10 | Every GET this router handles lets any caller through |
| AuthRoutes.NoneShadowed | server/routes/authRoutes.js:7-13 | No registration overlaps an earlier one |
| AuthRoutes.Access | server/routes/authRoutes.js:4-13 | No route uses adminOnly. Register and login have no guard. The donation history admits any verified token |
| Text.Trim | client/src/components/AdminDashboard.js:142-143 | `trim` gives a slice of the input with no space at either end, and everything cut off is space |
| Text.TrimEmptyIffBlank | client/src/components/AdminDashboard.js:142 | The trimmed search is empty iff the search is all space |
| Text.ToLower | client/src/components/AdminDashboard.js:143-144 | Lower-casing keeps the length and maps each character |
| Text.DecimalString | server/routes/campaignApplicationRoutes.js:13-14 | A number prints as non-empty decimal digits with no leading zero, and the digits denote the number |
| Lists.Filter | client/src/components/AdminDashboard.js:141 | `filter` keeps exactly the elements satisfying the test, with their multiplicities, and never lengthens the list |
| Lists.FilterOne | client/src/components/AdminDashboard.js:141 | A one-element list keeps its element iff it passes the test |
| Lists.FilterAppend | client/src/components/AdminDashboard.js:141 | Filtering a concatenation is the concatenation of the filtered parts, so `filter` keeps the relative order of what it keeps |
| Lists.SortBy | client/src/components/AdminDashboard.js:146-149 | `sort` gives a permutation of its input, ordered by the key |
| AdminDashboard.Round | client/src/components/AdminDashboard.js:7 | `Math.round` gives the integer within one half below and strictly less than one half above |
| AdminDashboard.RoundMonotone | client/src/components/AdminDashboard.js:7 | Rounding is monotone |
| AdminDashboard.GetProgress | client/src/components/AdminDashboard.js:5-8 | 0 when the goal is missing or at most 0. Otherwise the rounded percentage capped at 100: never above 100, at least 0 for a non-negative total, exactly 100 once the goal is reached, and 100 iff the percentage is at least 99.5, so below that it stays under 100. The campaign page's `getProgress` (client/src/components/CampaignDetails.js, lines 161-164) is the same function |
| AdminDashboard.ProgressMonotone | client/src/components/AdminDashboard.js:5-8 | Progress never decreases as the total grows |
| AdminDashboard.GetDaysLeft | client/src/components/AdminDashboard.js:11-17 | null iff there is no creation time. Otherwise never negative, 0 exactly once 30 days have elapsed, and a positive count equals 30 minus the whole days elapsed |
| AdminDashboard.DaysLeftNonIncreasing | client/src/components/AdminDashboard.js:11-17 | The countdown never goes up as time passes |
| AdminDashboard.Kept | client/src/components/AdminDashboard.js:139-145 | Keeps each application, with its multiplicity, iff it passes the status filter and the trimmed, lower-cased search, skipped when blank |
| AdminDashboard.SortedInOrder | client/src/components/AdminDashboard.js:146-149 | A list ascending in an option's comparator key is in the order that option asks for |
| AdminDashboard.Visible | client/src/components/AdminDashboard.js:139-149 | A permutation of exactly the applications that pass the status filter and the trimmed, lower-cased search, skipped when blank. The result is ordered as the sort option asks |
| AdminDashboard.VisibleIsSubList | client/src/components/AdminDashboard.js:139-149 | The pipeline never adds items. With "all" and a blank search it shows every application |
| AdminDashboard.DecidedFiltersShowNothing | client/src/components/AdminDashboard.js:119-141 | On the pending-only list the server sends, the "approved" and "rejected" filters show nothing |
| AdminDashboard.WithoutId | client/src/components/AdminDashboard.js:75 | Removes exactly the entries with that id and keeps every other entry |
| AdminDashboard.WithoutIdKeepsOrder | client/src/components/AdminDashboard.js:75 | Each kept entry stays between what is kept of the entries before it and what is kept of the entries after it, so the order of the list is preserved |
| AdminDashboard.Dashboard.constructor | client/src/components/AdminDashboard.js:22-33 | Empty lists and notes, no error, filter "all", empty search, newest first |
| AdminDashboard.Dashboard.LoadApplications | client/src/components/AdminDashboard.js:48-62 | The list becomes the fetched one. The notes map has exactly the fetched ids, each with the notes of its last occurrence |
| AdminDashboard.Dashboard.HandleDelete | client/src/components/AdminDashboard.js:64-79 | The error is cleared first. An unconfirmed delete does nothing more. A successful delete removes exactly that campaign. A failed delete keeps the list and shows "Failed to delete campaign" |
| AdminDashboard.Dashboard.Decide | client/src/components/AdminDashboard.js:260-281 | Once the request completes, whatever its HTTP status, approve or reject removes exactly that application from the local list. A request that rejects, with nothing to catch it, leaves the list as it was |
| AdminDashboard.Dashboard.EditNotes | client/src/components/AdminDashboard.js:304-306 | Only that application's entry in the notes map changes |
| AdminDashboard.Dashboard.SetView | client/src/components/AdminDashboard.js:118-136 | The three controls set the filter, search and sort, and nothing else |
| CampaignDetails.Mantissa | client/src/components/CampaignDetails.js:57 | A decimal mantissa reads as a non-negative value. A plain digit string reads as the number its digits denote, and the empty string is not a number |
| CampaignDetails.MantissaFraction | client/src/components/CampaignDetails.js:57 | `w.f` reads as the value of the digits `w` plus the value of the digits `f` over ten to the number of digits in `f` |
| CampaignDetails.MantissaChars | client/src/components/CampaignDetails.js:57 | A text that reads as a mantissa holds only digits and points |
| CampaignDetails.Exponent | client/src/components/CampaignDetails.js:57 | A plain digit string is an exponent iff it is non-empty, with the value its digits denote |
| CampaignDetails.ExponentChars | client/src/components/CampaignDetails.js:57 | A text that reads as an exponent holds only digits and signs |
| CampaignDetails.Unsigned | client/src/components/CampaignDetails.js:57 | An unsigned literal reads as a non-negative value, and text without `e` or `E` reads as its mantissa |
| CampaignDetails.UnsignedExponent | client/src/components/CampaignDetails.js:57 | A mantissa, then `e` or `E`, then an exponent reads as the mantissa's value times ten to the exponent |
| CampaignDetails.UnsignedChars | client/src/components/CampaignDetails.js:57 | A text that reads as an unsigned literal holds only digits, points, `e`, `E` and signs |
| CampaignDetails.Signed | client/src/components/CampaignDetails.js:57 | A positive value never comes from text starting with "-" |
| CampaignDetails.ParseNumber | client/src/components/CampaignDetails.js:57 | `Number` of a blank string is 0. A positive result never comes from trimmed text starting with "-" |
| CampaignDetails.StrayCharIsNaN | client/src/components/CampaignDetails.js:57-58 | A trimmed text with any character other than digits, `.`, `e`, `E`, `+` and `-`, for example a letter, reads as NaN, so the form refuses it |
| CampaignDetails.ParsePlain | client/src/components/CampaignDetails.js:57 | Unsigned text without an exponent and with nothing to trim reads as its mantissa |
| CampaignDetails.ParseMinus | client/src/components/CampaignDetails.js:57 | A leading "-" negates the unsigned literal after it, and NaN stays NaN |
| CampaignDetails.ParsePlus | client/src/components/CampaignDetails.js:57 | A leading "+" reads as the unsigned literal after it |
| CampaignDetails.ParseFraction | client/src/components/CampaignDetails.js:57 | A typed amount `w.f` reads as its whole part plus its fraction |
| CampaignDetails.TenFifty | client/src/components/CampaignDetails.js:57 | "10.50" reads as 10.5 |
| CampaignDetails.ParseDecimal | client/src/components/CampaignDetails.js:57 | `Number` reads back what `String` prints for every natural number |
| CampaignDetails.StartDonation | client/src/components/CampaignDetails.js:50-79 | An empty, non-numeric or non-positive amount is refused with "Enter a valid amount" before anything else. Then a missing user or token is refused with "Please login to make a donation". Then a gateway that did not load is refused with "Failed to load payment gateway". A checkout opens iff all three checks pass, in INR, for the amount rounded to the nearest paise |
| CampaignDetails.CheckDonation | client/src/components/CampaignDetails.js:50-79 | The checks run one after another and return exactly what `StartDonation` decides |
| CampaignDetails.WholeRupees | client/src/components/CampaignDetails.js:78 | Typing a whole number n of rupees charges exactly 100·n paise and records n rupees |
| CampaignDetails.CheckoutPassesServerCheck | client/src/components/CampaignDetails.js:91 | The rupee amount the callback posts always passes the server's amount check |
| CampaignDetails.FailureMessage | client/src/components/CampaignDetails.js:100-121 | Never empty. A refusal shows the reply's non-empty `message`, else "Failed to record donation". A request that throws shows its non-empty error message, else "Failed to record donation. Please try again." |
| CampaignDetails.DonateForm.constructor | client/src/components/CampaignDetails.js:21-27 | Empty input, not loading, no messages, no modal, no last amount |
| CampaignDetails.DonateForm.SetDonation | client/src/components/CampaignDetails.js:356 | Typing changes only the input |
| CampaignDetails.DonateForm.HandleDonate | client/src/components/CampaignDetails.js:50-79 | Returns what `StartDonation` decides for the typed amount. Messages and the modal are cleared. A refusal shows its message and resets loading. A checkout keeps loading |
| CampaignDetails.DonateForm.OnPaymentResponse | client/src/components/CampaignDetails.js:82-124 | Loading always ends. On success it remembers the rupees of the checkout, shows "Donation recorded successfully!" and the modal, clears the input and leaves the error alone. On failure it shows `FailureMessage` of the reply and keeps the input, the last amount, the confirmation and the modal |
| CampaignDetails.DonateForm.OnDismiss | client/src/components/CampaignDetails.js:134-138 | Dismissing the checkout only ends loading |
| App.RouteElement | client/src/App.js:110-119 | "/create" renders the campaign form for an admin and login for anyone else. "/dashboard" renders the admin dashboard for an admin, the user dashboard for another user, and login otherwise. "/apply" renders the application form when logged in and login otherwise |
| App.ShowApplyLink | client/src/App.js:73-94 | The apply link is shown iff a user is logged in and is not an admin |
| App.ShowOverlay | client/src/App.js:109 | The overlay is never shown when logged out. When logged in, it is shown iff the sidebar is open |
| App.PagesAreGated | client/src/App.js:114-118 | At every path, only an admin gets the campaign form or the admin dashboard, and a logged-out visitor gets only public pages |
| App.ApplyLinkLeadsToForm | client/src/App.js:73-94 | Only a logged-in non-admin sees the apply link, and for them "/apply" renders the form |
| App.LogoutHidesSession | client/src/App.js:28-32 | Logged out, the overlay and the apply link are hidden and every gated page falls back to login |
| App.Shell.constructor | client/src/App.js:18-19 | Starts logged out with the sidebar closed |
| App.Shell.Mount | client/src/App.js:21-26 | Removes the stored "user" and "token" keys, changes no other key, and logs out |
| App.Shell.HandleLogout | client/src/App.js:28-32 | Removes the stored "user" and "token" keys, changes no other key, and logs out |
| App.Shell.SetAuth | client/src/App.js:18 | Login replaces the auth state only |
| App.Shell.AvatarClick | client/src/App.js:100-103 | Logged in, the click toggles the sidebar. Otherwise it navigates to "/register" and leaves the sidebar alone |
| App.Shell.CloseSidebar | client/src/App.js:109 | Closing the overlay only closes the sidebar |

## Left out

- Razorpay is not modelled. That covers order creation on the server (`createOrder`) and, in the client, script loading, the order options and the checkout window. Whether the gateway loaded and how the server answered the donation are parameters.
- bcrypt and JWT are not modelled.
  - The hash is an injective function.
  - A token is its claims `{id, role}`; signing, secret and expiry are not modelled.
  - The `auth` and `adminOnly` middleware are not part of this model. They are predicates over verified claims: `auth` admits a verified token and `adminOnly` admits the admin role.
- Database I/O is not modelled, and neither are the server failures it causes.
  - Writes never fail, so every 500 "Server error" reply is out.
  - An id that is not a valid ObjectId gives a cast error and a 500 in the source. In the model, ids are natural numbers.
  - Two exceptions are kept. `ApproveStep` replies 500 when the campaign fails its schema after the application was approved; in a valid store this branch is unreachable. `Login` replies 500 when a known user is named without a password, because the hash comparison rejects it.
- `populate` is modelled only as the lookups `OwnerName` and `GetUserDonations`. The field projection is not modelled.
- Success status codes (200 or 201) are not modelled, and neither are reply bodies beyond the returned value.
- User.js and Donation.js are not part of this model. Users and donations have the fields the controllers read and write.
- ObjectId generation is a counter. Uniqueness of ids is the only property used.
- Multer's disk storage is not modelled. `Date.now()` and `Math.random()` in the upload name are parameters.
- `server/index.js` is not modelled: connecting, CORS, the static `/uploads` route and mounting the routers. Each route table is matched on paths relative to its mount point, already split into segments.
- Router.Resolve: matches literal segments exactly. Express matches them case-insensitively and ignores a trailing slash by default.
- App.RouteElement: matches client paths exactly, split into segments. React Router also matches them case-insensitively and ignores a trailing slash.
- JavaScript number details are not modelled.
  - Money is `real`, so the model has no floating-point rounding.
  - `Math.round` is `floor(x + 0.5)`.
  - JSON type coercion is not modelled; for example, a string amount reaching `+=` in `donateToCampaign`. An amount is either a number or absent.
- CampaignController.ValidAmount: a non-numeric string amount such as "abc" passes the source's check, because `!"abc"` and `"abc" <= 0` are both false, and is then concatenated onto amountRaised. Amounts here are numbers or absent, so the model does not capture that case.
- AuthController.Login: a request without a username is not modelled. How the store's lookup treats an undefined name depends on the driver.
- CampaignDetails.ParseNumber: covers decimal literals with an optional sign, fraction and exponent, and blank input. It does not model `Infinity`, hexadecimal, binary or octal literals; the model reads those as not a number.
- Text.ToLower: maps ASCII letters only. JavaScript's `toLowerCase` maps all of Unicode.
- Lists.SortBy: is an insertion sort, stable by construction as `Array.prototype.sort` is; stability is not proved. For the store's `sort({createdAt: -1})`, only the order of the keys is stated, not how ties are broken.
- Concurrency is not modelled: the model is sequential. Read-modify-write of `amountRaised` and of an application's status can lose updates under parallel requests in the source.
- Rendering is not modelled, and neither are styling, `window.confirm` (a parameter), `fetch`, and the `localStorage` reads inside components.
- AdminDashboard.Dashboard.EditNotes: does not model the 600 ms debounce timer or the PATCH it sends.
- CampaignDetails.DonateForm.OnPaymentResponse: does not model the 5 s modal timer or the campaign refetch. A reply body that is not JSON is the thrown case, carrying the parser's message.
- AdminDashboard.GetDaysLeft: does not model invalid date strings, which yield NaN and then 0 in the source. The creation time is either absent or a number of milliseconds.
- UpdateNotesStep: does not model a request without a `notes` field. In the source, that unsets `adminNotes`.
- The campaign page's `handleDelete` and the dashboard's campaign fetch are not modelled; they are only requests and navigation.
- The remaining client components are not part of this model: LandingPage, CampaignList, Register, Login, CreateCampaign, ApplyCampaign, UserDashboard and UserApplications. LandingPage and CampaignList only repeat `getProgress`; the others are forms and listings.
- Goals are not required to be positive. The controllers only require a goal to be present, and the model follows the code.
