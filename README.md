# TriNextGen backend: ledger, careers, showcase and pages

A Dafny model of the TriNextGen backend, an Express/Mongoose service, and proofs about it.

The heart of the model is the **client ledger**: one store of three collections.

- **Clients** cache their `totalEarnings`.
- **Client projects** carry `totalAmount`, `advancePaid` and `remainingAmount`.
- **Payments** each name a client and a project.

Two admin route modules update that store with sequences of `$inc`, `deleteMany` and delete writes. Both are modelled as methods of one class `Routes.Store`.

The ledger is meant to keep two equations. Neither one is enforced by the handlers:

- Every project is **balanced**: `remainingAmount == totalAmount - advancePaid` (`Ledger.Balanced`).
- Every client's **earnings are consistent**: `totalEarnings` equals the sum of `totalAmount` over the projects that name it (`Ledger.EarningsConsistent`).

Every state-changing handler says when it keeps the equations. The form is `old(Consistent()) && <condition> ==> Consistent()`. The condition is something the code does not check: the URL's client owns the project, or the body writes no derived field. The proof runs through one lemma per handler (`Routes.InsertKeeps` and the others), which rest on the ledger lemmas and on order-independent sums (`Sums.Total`).

The rest of the service is modelled around the ledger:

- **The admin guard** (`Guard.CheckAdmin`). Token verification is an oracle parameter.
- **The schemas** (`Schema`). This includes the ClientProject pre-save hook, a method of a document class.
- **The read-only reporters** (`Reports`). These are the per-client sums and the per-project statistics, each a loop proved against a ghost specification.
- **The careers board** (`Careers.CareerBoard`). An application must name an existing posting and takes a snapshot of its title.
- **The public showcase table** (`Portfolio.ProjectTable`). Its listing shows active cards only, newest first.
- **The static page table** (`Pages`). Its lookup is case-insensitive.

### How the model represents the service

- Record ids are natural numbers issued by a counter `next`. A larger id is a newer record, which stands for `createdAt`; "newest first" is descending id. Applications have no `createdAt` (their schema records `appliedAt`), so the order does not apply to them.
- Status codes are the `Common.Code` enum.
- A request body is a datatype of `Option` fields. `None` is an absent (undefined) field.
- A Mongoose `required` string rejects `""`. Its truthiness check is `Common.Truthy`.

## Model

| member | source | states |
|---|---|---|
| Common.Trim | models/Project.js:8 | `trim`: the result is the slice of the input left once the white space at both ends is gone, and it neither starts nor ends with white space |
| Common.TrimIdempotent | models/Project.js:8 | trimming an already trimmed string changes nothing |
| Common.ToLower | routes/pages.js:22 | `toLowerCase` keeps the length, lowers each capital and leaves no capital behind |
| Guard.CheckAdmin | routes/clientRoutes.js:14-26 | the guard yields an admin exactly when the header exists, starts with "Bearer ", and the oracle maps the token to a stored admin id; that admin is the oracle's answer |
| Guard.TokenIgnoresTrailingWords | routes/clientRoutes.js:18 | the token is the word after the scheme: words after a second space never reach the oracle |
| Schema.NewClient | models/Client.js:7-12 | a client is created exactly when `name` is truthy; contact fields are kept as given, status defaults to "Active" and earnings to 0 |
| Schema.MergeClient | routes/clientRoutes.js:116-120 | each of name, email, phone, address, status and totalEarnings is the body's value when supplied and the stored one otherwise; an empty body changes nothing |
| Schema.MergeProject | routes/clientRoutes.js:243-247 | each of the ten fields (client, title, status, the three amounts, category, requirements, liveUrl, description) is the body's value when supplied and the stored one otherwise; an empty body changes nothing |
| Schema.ProjectDocument.constructor | models/ClientProject.js:7-18 | schema defaults: status "Active"; all three amounts 0; a missing title is empty |
| Schema.ProjectDocument.PreSave | models/ClientProject.js:30-35 | the hook sets `remainingAmount` to `totalAmount - advancePaid` and changes no other field |
| Schema.CreateDocument | models/ClientProject.js:30-35 | a saved project is balanced, whatever `remainingAmount` the caller passed |
| Schema.ParseMethod | models/Payment.js:19-22 | a method string is accepted exactly when it is one of the five names |
| Schema.MethodRoundTrip | models/Payment.js:19-22 | every method's name parses back to that method |
| Schema.NewPayment | models/Payment.js:7-24 | a payment needs a client, a project, an amount and a date; its method must be one of the five and defaults to "Bank Transfer"; notes are optional |
| Sums.TotalRemove | routes/clientRoutes.js:60-62 | a sum over a collection is independent of the order the documents come in |
| Sums.TotalSplit | routes/clientProjectRoutes.js:358-367 | a sum splits into the part inside a set of ids and the part outside it |
| Sums.TotalDifference | routes/clientRoutes.js:60-62 | sums of pointwise differences are differences of sums |
| Ledger.IncPaidKeepsBalance | routes/clientRoutes.js:347-353 | a payment's `$inc` (or its reversal) keeps every project balanced, and applying it and then its reversal restores the projects |
| Ledger.IncPaidKeepsEarnings | routes/clientRoutes.js:347-353 | a payment's `$inc` does not change any client's earnings sum |
| Ledger.InsertKeepsEarnings | routes/clientRoutes.js:190-211 | a new project plus the `$inc` of its client by its total keeps every client's earnings equal to its sum |
| Ledger.ReplaceKeepsEarnings | routes/clientRoutes.js:249-255 | replacing a project of the same client and moving that client by new − old total keeps the earnings consistent |
| Ledger.ReplaceSameTotalKeepsEarnings | routes/clientProjectRoutes.js:261-275 | a replacement that keeps client and total needs no earnings write |
| Ledger.RemoveKeepsEarnings | routes/clientRoutes.js:277-284 | deleting a project and debiting its client by its total keeps the earnings consistent |
| Ledger.NoProjectsNoEarnings | models/Client.js:12 | a client with no projects has an earnings sum of 0, the schema's default |
| Ledger.CascadeKeepsEarnings | routes/clientRoutes.js:138-142 | deleting a client with all its projects keeps every other client consistent |
| Ledger.DebitNone | routes/clientProjectRoutes.js:361-365 | before the bulk loop has visited any project, no client is debited |
| Ledger.DebitStep | routes/clientProjectRoutes.js:361-365 | one iteration of the bulk loop extends the debited set by the visited project |
| Ledger.OwedOneMore | routes/clientProjectRoutes.js:361-365 | one more visited project adds its total to its own client's debit only |
| Ledger.BulkKeepsEarnings | routes/clientProjectRoutes.js:350-372 | debiting each listed project's owner by its total and then deleting those projects keeps the earnings consistent |
| Reports.CountIsProjects | routes/clientRoutes.js:54-56 | `countDocuments` equals the number of the client's projects |
| Reports.SummarizeClient | routes/clientRoutes.js:59-62 | the loop computes the count and the sums of total, advance and remaining over exactly the client's projects |
| Reports.DealValueIsEarnings | routes/clientRoutes.js:93 | while the earnings are consistent, the reported deal value is the cached `totalEarnings` |
| Reports.RemainingIsDealLessAdvance | routes/clientRoutes.js:93-95 | while every project is balanced, total remaining = deal value − total advance |
| Common.NewestFirst | routes/clientRoutes.js:50 | the listing holds exactly the selected documents, strictly newest first |
| Reports.ListClients | routes/clientRoutes.js:50-72 | one row per client, newest first, each carrying its own summary |
| Reports.ProjectStats | routes/clientProjectRoutes.js:312-331 | None iff the project is absent; the payment total and count are over exactly its payments; completion is 0 iff total ≤ 0; `isCompleted` iff remaining is 0, which for a balanced project means advance = total |
| Reports.AddPaymentKeepsUnallocated | routes/clientRoutes.js:335-353 | recording a payment raises the project's payment total and its advance by the same amount |
| Reports.DeletePaymentKeepsUnallocated | routes/clientRoutes.js:374-382 | deleting a payment lowers both by the same amount |
| Routes.IdSet | routes/clientProjectRoutes.js:358 | `$in` membership is list membership |
| Routes.MethodOrDefault | routes/clientRoutes.js:343 | a falsy method is replaced by "Bank Transfer", which parses |
| Routes.Recomputed | routes/clientRoutes.js:233-241 | when either amount is supplied, `remainingAmount` is (new-or-old total) − (new-or-old advance); otherwise the body is untouched |
| Routes.RecomputedIsBalanced | routes/clientRoutes.js:233-247 | a recomputed update leaves a balanced project balanced unless it writes a bare `remainingAmount` |
| Routes.NormalizeRequirement | routes/clientProjectRoutes.js:197-201 | a stored requirement has trimmed text (or "") and its files (or []) |
| Routes.NormalizeRequirements | routes/clientProjectRoutes.js:196-202 | the normalised list has the same length and normalises each entry |
| Routes.NormalizeIdempotent | routes/clientProjectRoutes.js:196-202 | a normalised list sent back is stored unchanged |
| Routes.UpdateData | routes/clientProjectRoutes.js:169-202 | the update body is the recomputed body with its requirements normalised |
| Routes.RemovedCount | routes/clientProjectRoutes.js:367-371 | deleting the listed ids removes exactly the listed ids that exist |
| Routes.NewClientKeeps | models/Client.js:12 | a new client with zero earnings keeps the ledger |
| Routes.ClientUpdateKeeps | routes/clientRoutes.js:116-120 | a client update that leaves the earnings alone keeps the ledger |
| Routes.CascadeKeeps | routes/clientRoutes.js:138-142 | the cascade keeps the ledger |
| Routes.InsertKeeps | routes/clientProjectRoutes.js:122-143 | a balanced project for an issued client, plus its earnings credit, keeps the ledger |
| Routes.ReplaceKeeps | routes/clientProjectRoutes.js:266-270 | replacing a project with a balanced one of the same client keeps the ledger, and needs no earnings write when the total is unchanged |
| Routes.ClientProjectUpdateKeeps | routes/clientRoutes.js:233-255 | the client-route update keeps the ledger when the body sets no client and no bare remaining amount |
| Routes.ProjectUpdateKeeps | routes/clientProjectRoutes.js:169-212 | the project-route update keeps the ledger under the same conditions |
| Routes.RemoveKeeps | routes/clientProjectRoutes.js:238-244 | deleting a project and debiting its owner keeps the ledger |
| Routes.PaidKeeps | routes/clientRoutes.js:347-353 | a payment's increments, or their reversal, keep the ledger |
| Routes.BulkKeeps | routes/clientProjectRoutes.js:358-367 | the bulk debits plus the bulk delete keep the ledger |
| Routes.DebitOwners | routes/clientProjectRoutes.js:361-365 | the loop debits every found project's owner by its total, in any order |
| Routes.Store.constructor | models/Client.js:12 | an empty store satisfies both ledger equations |
| Routes.Store.CreateClient | routes/clientRoutes.js:29-41 | answers only 401, 500 or 201; 401 iff the guard fails; 500 iff the body has no name; otherwise 201 and the client is stored under a fresh id and nothing else changes; the ledger is kept when earnings start at 0 |
| Routes.Store.GetClients | routes/clientRoutes.js:44-79 | 401 iff the guard fails; otherwise every client once, newest first, with its summary |
| Routes.Store.GetClient | routes/clientRoutes.js:82-107 | answers only 401, 404 or 200: 401 iff the guard fails, 404 iff absent, so a present id with a valid admin gets 200 with the client and its summary |
| Routes.Store.UpdateClient | routes/clientRoutes.js:110-128 | answers only 401, 404 or 200; 404 iff absent, with no change; otherwise 200 and only that client is merged; the ledger is kept when the body sets no `totalEarnings` |
| Routes.Store.DeleteClient | routes/clientRoutes.js:131-149 | the client's projects and payments are deleted even when the reply is 404; 404 iff the client was absent; the ledger is always kept |
| Routes.Store.GetProjects | routes/clientRoutes.js:152-167 | exactly the owner's projects (all projects without an owner), newest first |
| Routes.Store.GetPayments | routes/clientRoutes.js:294-311 | exactly the payments of the client (or of the project), each once |
| Routes.Store.AddProject | routes/clientRoutes.js:170-218 | answers only 401, 400 or 201; 400 iff the title is falsy or the total undefined, with no write; otherwise 201 with a balanced project, advance default 0 and status default "Active", and the URL's client earns the total; the ledger is kept when that client id was issued |
| Routes.Store.UpdateClientProject | routes/clientRoutes.js:221-262 | answers only 401, 404 or 200; 404 iff absent; otherwise 200 with the recomputed merge, and the URL's client moves by new − old total only when a total is supplied; the ledger is kept when the URL's client owns the project |
| Routes.Store.DeleteClientProject | routes/clientRoutes.js:265-291 | answers only 401, 404 or 200; 404 iff absent; otherwise 200, the project's payments and the project go, and the URL's client loses its total (not its remaining amount) |
| Routes.Store.AddPayment | routes/clientRoutes.js:314-360 | answers only 401, 400, 404, 500 or 201; 400 iff project id, truthy amount or date is missing; 404 iff the project is not the URL client's; 500 iff all of that passes and the method is outside the enum; otherwise 201, the payment is stored and the project's advance rises and its remaining falls by the amount; the ledger is always kept |
| Routes.Store.DeletePayment | routes/clientRoutes.js:363-389 | answers only 401, 404 or 200; 404 iff absent; otherwise 200, its increments are reverted and it goes; the ledger is always kept |
| Routes.Store.GetProject | routes/clientProjectRoutes.js:72-92 | answers only 401, 404 or 200; 404 iff absent, so a present id gets 200 with the stored project |
| Routes.Store.CreateProject | routes/clientProjectRoutes.js:95-157 | answers only 401, 400 or 201; 400 iff client, truthy title or total is missing; otherwise 201 with a balanced project with defaults category "Web App", advance 0, status "Active" and requirements [], and the named client earns the total |
| Routes.Store.UpdateProject | routes/clientProjectRoutes.js:160-223 | answers only 401, 404, 500 or 200; 404 iff absent; the stored owner moves by new − old total when a total is supplied; 500 iff the title is empty, after that earnings write and with the project unchanged; otherwise 200 with the normalised merge |
| Routes.Store.DeleteProject | routes/clientProjectRoutes.js:226-251 | answers only 401, 404 or 200; 404 iff absent; otherwise 200, its payments go, its owner loses its total, and it goes; the ledger is always kept |
| Routes.Store.PatchStatus | routes/clientProjectRoutes.js:253-281 | answers only 401, 400, 404 or 200; 400 iff the status is falsy, checked before existence; 404 iff absent; otherwise 200 and only the status changes |
| Routes.Store.GetStats | routes/clientProjectRoutes.js:304-339 | answers only 401, 404 or 200; 404 iff absent; otherwise the project's total, advance, remaining amount and status, the sum and count of its payments, completion 0 iff the total is not positive (else advance over total), and `isCompleted` iff remaining is 0 |
| Routes.Store.BulkDelete | routes/clientProjectRoutes.js:342-377 | answers only 401, 400 or 200; 400 iff the list is missing or empty; otherwise 200, the listed projects' payments go, each existing listed project debits its owner by its total and goes, and `deletedCount` is the number removed; the ledger is always kept |
| Careers.NewCareer | models/Career.js:3-11 | a posting is created exactly when its title, location, type, level and description are truthy |
| Careers.MergeCareer | routes/career.js:31-39 | each of title, location, type, level, salary, tags and description is the body's value when supplied and the stored one otherwise; an empty body changes nothing |
| Careers.ParseStatus | models/Application.js:11-13 | a status string is accepted exactly when it is one of the five names |
| Careers.StatusRoundTrip | models/Application.js:11-13 | every status name parses back |
| Careers.NewApplication | models/Application.js:4-14 | an application is created exactly when name, email, cover letter, job id and job title are present and the status, if any, parses; every given field is stored as given, the status included; status defaults to "pending"; phone and resume are optional |
| Careers.ApplicationFor | routes/career.js:60-63 | the stored job title is the posting's, whatever the body says |
| Careers.BodyTitleIgnored | routes/career.js:60-63 | changing the body's job title changes nothing |
| Careers.MergeApplication | routes/career.js:84-92 | each of the eight fields, status and jobTitle included, is the body's value when supplied and the stored one otherwise; an empty body changes nothing |
| Careers.AnyTransition | routes/career.js:84-92 | any status can follow any other |
| Careers.CareerBoard.GetCareers | routes/career.js:8-16 | every posting once |
| Careers.CareerBoard.CreateCareer | routes/career.js:19-28 | 400 iff validation fails, with nothing stored; otherwise 201 under a fresh id |
| Careers.CareerBoard.UpdateCareer | routes/career.js:31-39 | an absent id yields null with no change; otherwise the merge; applications are untouched |
| Careers.CareerBoard.DeleteCareer | routes/career.js:42-50 | always Ok; the posting goes and its applications stay |
| Careers.CareerBoard.Apply | routes/career.js:53-70 | answers only 404, 400 or 201; 404 iff the job id is missing or names no posting; 400 iff validation fails; otherwise 201, with the posting's title and id on the stored application |
| Careers.CareerBoard.GetApplications | routes/career.js:73-81 | every application once; no order, since the sort key `createdAt` is not a path of the application schema |
| Careers.CareerBoard.UpdateApplication | routes/career.js:84-92 | an absent id yields null with no change; otherwise the merge |
| Portfolio.ParseCategory | models/Project.js:28-32 | a category is accepted exactly when it is Web, Mobile or Cloud |
| Portfolio.ParseStatus | models/Project.js:48-52 | a status is accepted exactly when it is Active, Completed or Draft |
| Portfolio.NamesRoundTrip | models/Project.js:28-52 | every category and status name parses back |
| Portfolio.NewProject | models/Project.js:5-52 | a card is created exactly when its trimmed title is non-empty, description and icon are truthy, the category parses and the status parses if given; the title is stored trimmed; category, description, icon, liveUrl, and a given status, color, features and techStack are stored as given; status defaults to Active, color to its gradient, features and techStack to [] |
| Portfolio.CreatedTitleClean | models/Project.js:8 | a created card's title is its own trim |
| Portfolio.MergeProject | routes/projectRoutes.js:52-62 | each field is the body's value when supplied and the stored one otherwise, a supplied title trimmed; an empty body changes nothing |
| Portfolio.MergeKeepsTitleTrimmed | models/Project.js:8 | an update keeps a trimmed title trimmed |
| Portfolio.UpdateBypassesEnum | routes/projectRoutes.js:55-57 | an update can store a status outside the enum, and the listing then hides the card |
| Portfolio.CreateKeepsTrimmed | routes/projectRoutes.js:38-47 | storing a created card keeps every title in the table trimmed |
| Portfolio.UpdateKeepsTrimmed | routes/projectRoutes.js:52-62 | storing an updated card keeps every title in the table trimmed |
| Portfolio.ProjectTable.List | routes/projectRoutes.js:9-17 | exactly the cards whose status is "Active", newest first |
| Portfolio.ProjectTable.Get | routes/projectRoutes.js:22-33 | answers only 404 or 200; 404 iff absent, else 200 with the card whatever its status |
| Portfolio.ProjectTable.Create | routes/projectRoutes.js:38-47 | 201 iff `NewProject` accepts the body, under a fresh id; otherwise 400 with nothing stored |
| Portfolio.ProjectTable.Update | routes/projectRoutes.js:52-62 | an absent id yields null with no change; otherwise the merge |
| Portfolio.ProjectTable.Delete | routes/projectRoutes.js:67-75 | always Ok; the card is gone |
| Pages.OnlyServices | routes/pages.js:5-18 | the table holds exactly one page, "services" |
| Pages.GetPage | routes/pages.js:22-25 | a page is found exactly when the lower-cased key is "services", and it is that page |
| Pages.Serve | routes/pages.js:21-27 | the stored page unchanged for a present key; otherwise 404 "Page not found" |
| Pages.ServeIgnoresCase | routes/pages.js:22 | a key and its lower-cased form get the same answer |
| Pages.SameLowerSameAnswer | routes/pages.js:22 | keys differing only in letter case get the same answer |
| Pages.CapitalsFound | routes/pages.js:22-25 | "SERVICES" and "Services" find the services page |
| Pages.UnknownNotFound | routes/pages.js:26 | every other key gets 404 "Page not found" |
| Pages.ServeAsWritten | routes/pages.js:23 | the lookup as written answers 200 for the table's keys and for the inherited keys "constructor" and "\_\_proto\_\_" |
| Pages.AsWrittenAgreesElsewhere | routes/pages.js:23-26 | except on the inherited keys, the lookup as written agrees with the own-entry lookup |
| Pages.InheritedKeyServed | routes/pages.js:23 | "Constructor" is answered 200 as written and 404 by the own-entry lookup |

## Left out

- Amounts are integers. JavaScript numbers, `Number(...)` coercion of strings and `|| 0` on non-numeric values are not modelled.
- `completionPercentage` is the ratio `Ratio(advancePaid, totalAmount)`. Its division, scaling by 100 and `toFixed(2)` string formatting are not modelled.
- Dates (`startDate`, `deadline`, `paymentDate` parsing, `createdAt`, requirement `createdAt`, `appliedAt`) are not modelled. Creation order is the id counter; `paymentDate` is an opaque string.
- Careers.CareerBoard.GetApplications: the source sorts on `createdAt`, which models/Application.js does not define, so the reply comes in whatever order the database returns; the model promises each application once and no order. A sort on `appliedAt` was most likely meant.
- Routes.Store.GetPayments: the order is by id, not by `paymentDate` descending, and the `populate` of the project title is left out.
- The `populate` joins and the exact JSON payloads are not modelled; a reply is a status code plus the returned record or ids.
- Category and requirements on client projects are stored and returned as opaque fields. Whether the ORM's strict mode drops them, since models/ClientProject.js does not declare them, is not modelled.
- Casting of malformed ids (a CastError answered with 400 or 500) is not modelled, because ids are natural numbers.
- The catch-all 500 after partial writes is not modelled. Handlers run to completion with no interleaving. The exception is the modelled validation failure in Routes.Store.UpdateProject.
- The 500 answers when the database is unreachable (`connectDB`) are not modelled. db.js is not part of this model.
- Token verification (JWT signature, expiry, secret) is an oracle parameter. `Admin.findById` is membership in a fixed admin set. routes/admin.js is not part of this model.
- routes/contact.js, routes/serviceRoutes.js, models/service.js, server.js, seed.js and test-deps.js are not part of this model.
- `Common.ToLower` lowers only the Latin capitals A–Z; the rest of Unicode case mapping is not modelled.
- The showcase update's schema setters beyond the title trim are not modelled, and neither are validation failures on update. The update runs no validators, so it is modelled as never failing.

## Findings

| source | as written | input that shows it | evidently intended | confidence | as-written member | corrected member |
|---|---|---|---|---|---|---|
| routes/pages.js:23 | `pages[page]` on an object literal also finds the properties inherited from `Object.prototype`, so it is truthy for them | GET /api/pages/Constructor (lower-cased to "constructor") answers 200 with a body that is not a page; "\_\_proto\_\_" likewise answers 200 | only the table's own keys are pages; any other key answers 404 "Page not found" | high (not executed) | Pages.ServeAsWritten, Pages.InheritedKeyServed | Pages.Serve, Pages.UnknownNotFound |
