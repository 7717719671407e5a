# Recruiting front end: session, forms and application lists

This project models the client-side logic of a React front end for a recruiting platform. Candidates
apply to job offers, recruiters post offers and move applications through their six statuses, and an
administrator sees everything. The modelled logic is:

- the session provider: the signed-in user, the bearer token, and the token persisted in browser
  storage;
- the home page, which links each job offer to the viewer's application for it, derives which card
  controls are enabled, and patches its lists after a delete or a status change;
- the checks the registration, login and job-offer forms run before sending anything;
- the normalisers behind the registration page's skill and company-id tag inputs;
- the list updates of the candidate and recruiter dashboards.

Every awaited HTTP call is a parameter of type `Response<T>`: either `Ok(value)`, or `Err(status, body)`
holding the HTTP status and the response body. The body is either plain text, or a JSON object given by
its `message` field and its JSON text. Pages show a failure in one of two ways:

- The home page and the dashboards call the backend directly and show `error.response?.data || fallback`
  (`ErrorText`).
- The registration, login and job-offer pages go through a service wrapper. The wrapper rethrows the
  body, or a string when there is none. The page then shows `error.message || fallback` (`ThrownText`).
  So only an object body's `message` ever reaches the screen, and a text body shows the page's fallback.

Each page class records the requests it sends (`calls` or `sent`) and the route it navigates to
(`route`). A postcondition can therefore say "no request was made" or "the page went to /login".

Layout, one module per file:

- `domain.dfy` (`Domain`): roles, statuses, offers, applications, companies, the session user, call
  outcomes, and the requests the pages send.
- `lists.dfy` (`Lists`): `filter` by key, and `[...new Set(xs)]`.
- `text.dfy` (`Text`): JavaScript white space (`\s`), `trim`, and the e-mail pattern `^[^\s@]+@[^\s@]+\.[^\s@]+$`.
- `auth.dfy` (`Auth`): the session as a state machine, and the `Session` class.
- `applications.dfy` (`Applications`): the home page's pure part, namely the lookup, the card controls,
  the status rewrite and the endpoint choice.
- `home_page.dfy` (`HomePage`): the home page's state and handlers.
- `register.dfy`, `login.dfy`, `job_offer_create.dfy`: the three forms.
- `candidate_dashboard.dfy`, `recruiter_dashboard.dfy`: the two dashboards.

## Model

| member | source | states |
|---|---|---|
| Applications.FindApplication | src/pages/HomePage.jsx:228-231 | none exactly when no application has the offer's id as `jobOfferId`; otherwise the application at the first such position |
| Applications.FindApplicationAt | src/pages/HomePage.jsx:228-231 | conversely, the application at the first matching position is the one found |
| Applications.ApplyDisabledExactly | src/pages/HomePage.jsx:265-269 | Apply is disabled exactly when the first matching application is PENDING or WITHDRAWN |
| Applications.WithdrawDisabledExactly | src/pages/HomePage.jsx:279 | Withdraw is disabled exactly when no application matches or the first match is not PENDING |
| Applications.SelectShowsFirstStatus | src/pages/HomePage.jsx:289 | the status select shows the first match's status, or PENDING when nothing matches |
| Applications.SelectDisabledExactly | src/pages/HomePage.jsx:299 | the select is disabled exactly when nothing matches and the viewer is a RECRUITER |
| Applications.DeleteDisabledExactly | src/pages/HomePage.jsx:317 | Delete is disabled exactly when some application matches, whatever its status |
| Applications.ApplyWithdrawExclusive | src/pages/HomePage.jsx:265-279 | Apply and Withdraw are never both enabled, and both are disabled exactly when the first match is WITHDRAWN |
| Applications.SetStatus | src/pages/HomePage.jsx:180-184 | same length; entries with the id get the new status with every other field kept; all other entries are unchanged, in place |
| Applications.SetStatusKeepsLinks | src/pages/HomePage.jsx:180-184 | a status change never re-links a card: each offer finds the same application, carrying the new status if it was the one changed |
| Applications.SetStatusIdempotent | src/pages/HomePage.jsx:180-184 | applying the same status change twice equals applying it once |
| Applications.HomeOffersEndpoint | src/pages/HomePage.jsx:72-75 | a recruiter's own offers exactly for a RECRUITER, all offers otherwise |
| Applications.HomeApplicationsEndpoint | src/pages/HomePage.jsx:93-104 | no fetch exactly without a user; for each role, exactly its own collection |
| HomePage.HomePage.Load | src/pages/HomePage.jsx:68-118 | sends the offers fetch, then the applications fetch for a signed-in viewer; each success replaces its list; a 401 on the offers sends the viewer to /login; the error each failure leaves |
| HomePage.HomePage.DeleteJobOffer | src/pages/HomePage.jsx:38-65 | on success, clears the error and removes exactly the offers with that id; on failure, keeps the list and shows the error, and a 401 also leads to /login |
| HomePage.HomePage.Apply | src/pages/HomePage.jsx:121-147 | a viewer who is not a CANDIDATE gets the error and /login, with no request; a candidate's post carries the current cover letter; after a successful post the applications are refetched, then the modal closes and the letter clears |
| HomePage.HomePage.Withdraw | src/pages/HomePage.jsx:150-168 | the withdrawal is sent; on success the list is refetched, not patched; on failure the list is kept and the error is shown |
| HomePage.HomePage.StatusChange | src/pages/HomePage.jsx:171-189 | on success, clears the error and applies `SetStatus`; on failure, keeps the list and shows the error |
| HomePage.HomePage.SelectStatus | src/pages/HomePage.jsx:290-297 | with a matching application, changes that application's status; without one it goes through `handleApply`'s guard, so an ADMIN gets the error and /login and no request is sent |
| HomePage.HomePage.OpenApplyModal | src/pages/HomePage.jsx:192-195 | opens the modal for that offer |
| HomePage.HomePage.CloseApplyModal | src/pages/HomePage.jsx:198-202 | closes the modal and forgets the offer and the cover letter |
| HomePage.HomePage.EditCoverLetter | src/pages/HomePage.jsx:339 | the cover letter becomes the typed text |
| Register.FirstRegisterError | src/pages/RegisterPage.jsx:51-88 | none exactly when no check fails; otherwise a failed check, with every earlier check passing |
| Register.MissingRequiredWins | src/pages/RegisterPage.jsx:51-59 | an empty email, password, first name or last name gets the required message before any other check |
| Register.AcceptedExactly | src/pages/RegisterPage.jsx:61-88 | a form passes exactly when the e-mail is valid and 5 to 254 characters long, the password has at least 6 characters, both names have 2 to 50, the phone has at most 20, and the role is CANDIDATE or RECRUITER |
| Register.ValidCompanyIds | src/pages/RegisterPage.jsx:42-44 | keeps exactly the parsed values that are numbers in 1..25 |
| Register.ValidCompanyIdsConcat | src/pages/RegisterPage.jsx:42-44 | the filter distributes over concatenation |
| Register.NormalizeCompanyIds | src/pages/RegisterPage.jsx:40-46 | the valid ids with no duplicates, and every valid parsed id present |
| Register.CompanyIdsFirstOccurrenceOrder | src/pages/RegisterPage.jsx:45 | ids appear in the order of their first valid occurrence |
| Register.ValidCompanyIdsOfGood | src/pages/RegisterPage.jsx:240-241 | ids in range, shown as tags and parsed back, pass the filter unchanged |
| Register.CompaniesChangeAgreesWithKeyHandler | src/pages/RegisterPage.jsx:255-271 | re-normalising the current ids plus one typed value gives exactly what the Enter/comma handler appends: the value if valid and new, otherwise nothing |
| Register.Trims | src/pages/RegisterPage.jsx:202 | each value's trim, in place |
| Register.DropEmpty | src/pages/RegisterPage.jsx:203 | the non-empty entries: every kept entry is non-empty, and every non-empty entry is kept |
| Register.TrimmedSkills | src/pages/RegisterPage.jsx:201-203 | every kept skill is a non-empty trim of some value, and every non-empty trim is kept |
| Register.TrimmedSkillsConcat | src/pages/RegisterPage.jsx:201-203 | trimming and dropping empties distribute over concatenation |
| Register.NormalizeSkills | src/pages/RegisterPage.jsx:199-205 | non-empty trimmed skills with no duplicates, and every value's non-empty trim present |
| Register.SkillsFirstOccurrenceOrder | src/pages/RegisterPage.jsx:204 | skills appear in the order of their first occurrence among the non-empty trims |
| Register.TrimmedSkillsOfGood | src/pages/RegisterPage.jsx:198-203 | a list of trimmed, non-empty skills is its own normal form |
| Register.SkillsChangeAgreesWithKeyHandler | src/pages/RegisterPage.jsx:218-229 | re-normalising the current skills plus one typed value gives exactly what the Enter/comma handler appends: the trim if non-empty and new |
| Register.RegisterPage.Change | src/pages/RegisterPage.jsx:36-38 | writes the named field only |
| Register.RegisterPage.ChangeSkills | src/pages/RegisterPage.jsx:199-205 | the skills become the normalised values, and the tag lists stay duplicate-free and well formed |
| Register.RegisterPage.ChangeCompanies | src/pages/RegisterPage.jsx:40-46 | the ids become the normalised values, and the tag lists stay duplicate-free and in range |
| Register.RegisterPage.EditSkillInput | src/pages/RegisterPage.jsx:222 | the skills input holds the typed text, which the key handler reads back |
| Register.RegisterPage.EditCompanyInput | src/pages/RegisterPage.jsx:259 | the company-id input holds the typed text, which the key handler reads back |
| Register.RegisterPage.AddSkill | src/pages/RegisterPage.jsx:218-229 | appends the trimmed input and clears it when the trim is non-empty and new; otherwise nothing changes |
| Register.RegisterPage.AddCompanyId | src/pages/RegisterPage.jsx:255-271 | appends the parsed id and clears the input when it is in 1..25 and new; otherwise nothing changes |
| Register.RegisterPage.Submit | src/pages/RegisterPage.jsx:48-100 | a failed check sets its message and nothing is sent; otherwise the form is sent; success logs the user in with `{email, role}` and the token and goes to /; failure shows `ThrownText` with "❌ REGISTRATION FAILED" |
| Login.FirstLoginError | src/pages/LoginPage.jsx:25-40 | none exactly when no check fails; otherwise a failed check, with every earlier check passing |
| Login.AcceptedExactly | src/pages/LoginPage.jsx:25-40 | credentials pass exactly when the e-mail is valid and 5 to 254 characters long and the password has at least 6 characters |
| Login.RegisteredCredentialsAccepted | src/pages/LoginPage.jsx:29-40 | credentials that passed registration pass login, and the two pages word their shared messages identically |
| Login.SessionUser | src/pages/LoginPage.jsx:50-56 | the record handed to `login` has the reply's email and role, and the reply's `companyId`, or `[]` when there is none |
| Login.LoginPage.Change | src/pages/LoginPage.jsx:18-20 | writes the named field only |
| Login.LoginPage.Submit | src/pages/LoginPage.jsx:22-62 | a failed check sets its message and nothing is sent; otherwise the credentials are sent; success logs in with `SessionUser` and the token and goes to /; failure shows `ThrownText` with "❌ Login failed" |
| Login.LoginLeavesSessionSignedIn | src/pages/LoginPage.jsx:50-57 | after a successful login the session holds that user and token, synced with storage |
| JobOfferCreate.CheckOffer | src/pages/JobOfferCreatePage.jsx:79-123 | a payload exactly when no check fails, carrying the form's fields and the id of a fetched company; otherwise a failed check, with every earlier check passing |
| JobOfferCreate.PayloadIsForm | src/pages/JobOfferCreatePage.jsx:120-123 | the payload is the form with only the company id's representation changed |
| JobOfferCreate.AcceptedExactly | src/pages/JobOfferCreatePage.jsx:79-118 | an offer passes exactly when salary and location are non-empty, the title has 2 to 100 characters, the description has 10 to 2000, the type is FULL_TIME, PART_TIME or FREELANCE, and the company is a non-zero id among the fetched ones |
| JobOfferCreate.NoCompaniesNoOffer | src/pages/JobOfferCreatePage.jsx:110-118 | with no fetched companies, no form passes |
| JobOfferCreate.JobOfferCreatePage.Mount | src/pages/JobOfferCreatePage.jsx:42-70 | a viewer who is not a RECRUITER, and a recruiter without a token, get their error and /signin and nothing is fetched; otherwise the companies are fetched, and a 401 gives its error and /signin |
| JobOfferCreate.JobOfferCreatePage.Change | src/pages/JobOfferCreatePage.jsx:169-212 | writes the named field only |
| JobOfferCreate.JobOfferCreatePage.SelectCompany | src/pages/JobOfferCreatePage.jsx:224-230 | the form's company becomes the picked id |
| JobOfferCreate.JobOfferCreatePage.Submit | src/pages/JobOfferCreatePage.jsx:76-133 | a failed check sets its message and nothing is sent; otherwise the payload is sent; success goes to /, failure shows `ThrownText` with "❌ Job offer creation failed" |
| CandidateDashboard.CanWithdraw | src/pages/CandidateDashboard.jsx:128 | Withdraw is enabled for an application exactly when the home page would not disable Withdraw for it |
| CandidateDashboard.CanWithdrawAgreesWithHome | src/pages/CandidateDashboard.jsx:128 | the dashboard enables Withdraw for an application exactly when the home card linked to it does |
| CandidateDashboard.WithdrawRemovesExactly | src/pages/CandidateDashboard.jsx:65 | after removal no entry has the id, every other entry remains, and removing again changes nothing |
| CandidateDashboard.CandidateDashboard.Load | src/pages/CandidateDashboard.jsx:27-53 | a viewer who is not a CANDIDATE gets the error and /login, with no fetch; a 401 gives the same error and /login; any other failure only shows an error |
| CandidateDashboard.CandidateDashboard.Withdraw | src/pages/CandidateDashboard.jsx:55-70 | on success, clears the error and removes exactly the entries with that id; on failure, keeps the list and shows the error |
| RecruiterDashboard.SelectDisabled | src/pages/RecruiterDashboard.jsx:140 | the select is locked for an application exactly when the home page would disable both Apply and Withdraw for it |
| RecruiterDashboard.SelectLockDiffersFromHome | src/pages/RecruiterDashboard.jsx:140 | the home card's select is never locked for an offer with an application, while the dashboard locks it exactly for WITHDRAWN |
| RecruiterDashboard.WithdrawnLocks | src/pages/RecruiterDashboard.jsx:57-61 | setting an application to WITHDRAWN locks its select and leaves every other card's lock as it was |
| RecruiterDashboard.RecruiterDashboard.Load | src/pages/RecruiterDashboard.jsx:29-46 | only a RECRUITER or an ADMIN fetches; for anyone else nothing changes; a failure shows the error |
| RecruiterDashboard.RecruiterDashboard.StatusChange | src/pages/RecruiterDashboard.jsx:48-66 | on success, clears the error and applies `SetStatus`; on failure, keeps the list and shows the error |
| Auth.Initial | src/context/AuthContext.jsx:6-7 | no user; the token is the persisted one, except that an empty stored string reads as no token |
| Auth.InitialAgreement | src/context/AuthContext.jsx:6-7 | user and token disagree only on a mount with a non-empty persisted token; memory and storage disagree only when the stored string is empty |
| Auth.RunSyncedAndConsistent | src/context/AuthContext.jsx:9-19 | after any non-empty run of logins and logouts the last event decides the state, the in-memory token equals the persisted one, and user and token are both present or both absent |
| Auth.LogoutIdempotent | src/context/AuthContext.jsx:15-19 | two logouts leave the same state as one |
| Auth.Session.constructor | src/context/AuthContext.jsx:5-7 | the mounted state is `Initial` of the persisted token |
| Auth.Session.Login | src/context/AuthContext.jsx:9-13 | user, token and persisted token become the given user and token |
| Auth.Session.Logout | src/context/AuthContext.jsx:15-19 | user, token and persisted token are all cleared |
| Lists.RemoveKey | src/pages/HomePage.jsx:51 | every kept entry comes from the input and lacks the key; every entry lacking the key is kept; with no entry to remove, the list is unchanged |
| Lists.RemoveKeyConcat | src/pages/CandidateDashboard.jsx:65 | removal distributes over concatenation, so the surviving entries keep their relative order |
| Lists.Dedup | src/pages/RegisterPage.jsx:45 | no duplicates, and the same members as the input |
| Lists.DedupFirstOccurrenceOrder | src/pages/RegisterPage.jsx:204 | values appear in the order of their first occurrence in the input |
| Lists.DedupSnoc | src/pages/RegisterPage.jsx:45 | appending a value adds it to the result exactly when it is new |
| Text.Trim | src/pages/RegisterPage.jsx:202 | the result has no white space at either end |
| Text.TrimIsCut | src/pages/RegisterPage.jsx:222 | the trim is a slice of the input, and everything cut on both sides is white space |
| Text.TrimIdempotent | src/pages/RegisterPage.jsx:222 | trimming twice equals trimming once |
| Text.PatternImpliesMinimumLength | src/pages/RegisterPage.jsx:61-64 | anything the pattern accepts has at least 5 characters, so only the upper bound of 254 adds a constraint |
| Text.PatternHasSingleAt | src/pages/LoginPage.jsx:30 | an address the pattern accepts has an `@`, and no two positions hold one |
| Domain.ErrorText | src/pages/HomePage.jsx:54-58 | a non-empty text body is shown as it is, an object body as its JSON text, and no body or an empty text gives the fallback |
| Domain.Collection | src/pages/HomePage.jsx:79 | the fetched list when there is one, and the empty list otherwise |
| Domain.ThrownText | src/pages/RegisterPage.jsx:98 | the page shows the non-empty `message` of an object body; otherwise, and always with a text body or no body, the fallback |
| Domain.TextBodyShownOnlyAsData | src/services/authService.js:9-11 | for a non-empty text body, a page that shows the data shows that text, while a page behind a rethrowing wrapper shows its fallback |

## Left out

- HTTP requests, URLs, headers and base addresses are left out. Each call's outcome is a parameter, and only which request was sent is recorded.
- Rendering, `alert`, `console.log` and the page title are left out. They produce no state that the handlers read.
- The two home-page fetches run concurrently in the source. `HomePage.HomePage.Load` assumes the offers fetch settles first, so an applications error overwrites an offers error. Responses arriving after unmount are not modelled.
- Date formatting (`toISOString().split("T")`) is left out.
- ErrorText: an object body is shown as its JSON text. That is what the home page's delete handler does. The other handlers that show the data store the object itself as the error, and React cannot render it. The model does not capture that failure.
- `parseInt` is not re-implemented. Its result is an `Option<int>` input, with `None` for NaN, so leading-digit cases such as "3abc" are the caller's concern.
- On the job-offer page, the company select writes the picked company's numeric id, which `parseInt` reads back unchanged. The form field is therefore `Option<int>` and no parse is modelled.
- String lengths count Dafny characters (code points), whereas JavaScript counts UTF-16 code units. The two differ only for characters outside the Basic Multilingual Plane.
- The apply modal's confirm button calls `handleApply(selectedJobOfferId, …)` (src/pages/HomePage.jsx:345). It is not a separate operation: it is `Apply` with the selected id, and the case of no selected id (a null offer id) is not modelled.
- The company-id tag input is disabled for a CANDIDATE (src/pages/RegisterPage.jsx:242). The model's handlers do not check the role, because disabling is a rendering concern.
- Login.LoginPage.Submit: as written, `src/pages/LoginPage.jsx:4` imports `login` from `src/services/authService.js`, which exports only `register`, so the page has no login function to call. The model assumes instead a working login call shaped like the one in `src/auth/authService.js:18-26`, which resolves with `{ token, email, role, companyId? }`.
- HomePage.HomePage, Login.LoginPage.Submit, Register.RegisterPage.Submit: as written, these pages read the session from `src/context/AuthContext.jsx`, a `createContext()` with no default (line 3). `src/main.jsx:5` mounts only the provider of `src/auth/AuthContext.jsx`, which is not part of this model. Unless that file re-exports the same context, these pages get `undefined` from `useContext`, and destructuring it throws. The model assumes instead that every page reads one working session of the shape in `src/context/AuthContext.jsx`.
- Routing (`App.jsx`), `main.jsx`, `vite.config.js`, the header, footer and all-offers pages, and both `authService.js` files are not part of this model, except for the wrappers' rethrow of the error body, which `ThrownText` reads.

## Notes on the source

Where the code differs from its own comments or from what a page appears to intend, the model follows the code:

- The ADMIN path without an application: the select's comment says it creates an application for the offer. The handler it calls is `handleApply`, whose guard rejects anyone but a CANDIDATE. So the ADMIN gets the "must be a candidate" error, is sent to /login, and no request is made (`HomePage.HomePage.SelectStatus`).
- Withdrawing on the home page refetches the candidate's applications; it does not patch the list. Only the candidate dashboard removes the entry locally.
- The stored token is read with `getItem("token") || null`, so an empty stored string reads as no token. This is the one case in which the in-memory and persisted tokens differ (`Auth.InitialAgreement`).
- A 401 response never clears the session. The pages only navigate.
- The recruiter dashboard fetches the recruiters' collection for an ADMIN too, while the home page fetches all applications for an ADMIN.
