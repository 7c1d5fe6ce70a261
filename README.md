# SocietySync core in Dafny

SocietySync manages an apartment complex. Tenants, owners, managers,
security guards and visitors sign in and work on a handful of tables:
apartments, maintenance requests, payments, visitors and announcements.
This project models the part of it that decides things:

- the **request handlers** of the server (`server/routes.ts`): who may
  create, list and change what, which statuses are forced at creation, and
  the status code each request gets;
- the **store** behind them (`server/storage.ts`): the per-role filtered
  reads, the inserts with their column defaults, the partial updates that
  write only the fields they are given, and the sample rows `createUser`
  seeds for a new tenant or manager;
- the **record shapes** (`shared/schema.ts`): the closed enumerations,
  one row type per table, the insert shapes and the defaults;
- the **client validators** (`client/schema.ts`);
- the **visitor page** (`client/src/pages/visitors.tsx`): its
  `getVisitorStatus` helper, which the page declares but never calls, the
  grouping of visitors into tabs, and the checks made before a visitor is
  submitted;
- the two **response envelopes** (`server/utils/ApiResponses.ts`,
  `server/utils/ApiErrors.ts`).

## Layout

| file | module | what it holds |
|---|---|---|
| `wrappers.dfy` | `Wrappers` | `Option`, `Result`, and `Field` (a column an update keeps or sets) |
| `seqs.dfy` | `Seqs` | the SQL the store issues, over sequences: filter, lookup by key, update-where, order-by-descending |
| `schema.dfy` | `Schema` | enumerations with their names, rows, insert shapes, row defaults |
| `validators.dfy` | `Validators` | the zod insert validators as checks returning the typed record or nothing |
| `envelopes.dfy` | `Envelopes` | the `ApiResponses` and `ApiErrors` classes |
| `storage.dfy` | `Storage` | the filtered reads as functions; class `Store` with one `seq` per table, one serial counter per table, and the inserts and updates as methods |
| `routes.dfy` | `Routes` | each handler's decision as a function returning the status code; the handlers that write as methods over a `Store`; the read-only handlers as functions of the store |
| `visitors_page.dfy` | `VisitorsPage` | the uncalled `getVisitorStatus`, the `visitorsByStatus` reduce as a loop, and the visitor submission checks |

The session is an `Option<Actor>`: `None` is a request without a session,
`Some(Actor(id, role))` the signed-in user. A request body that must pass a
drizzle-zod schema is an `Option` of the insert shape: `None` is a body the
schema rejects. The clock is a `now` parameter. JavaScript truthiness is
written out where the source relies on it: an optional id is truthy when it
is present and not 0 (`Storage.Truthy`), and `x || undefined` becomes
"write only when truthy". An update's "`undefined` is not written" is the
`Field` type: `Keep` leaves the column, `Set(v)` writes it.

Every handler that writes states its status code as the value of a pure
decision function, and states that any code other than success leaves the
store exactly as it was (`unchanged(store)`). On success it states the new
table contents: the one row written and every other row untouched.

## Model

| member | source | states |
|---|---|---|
| `Schema.ParseRole` | shared/schema.ts:15 | a role string is accepted exactly when it names one of tenant, manager, owner, visitor, security, and then names the role returned |
| `Schema.ParseApartmentStatus` | shared/schema.ts:30 | an apartment status is exactly vacant or occupied |
| `Schema.ParseMaintenanceStatus` | shared/schema.ts:42 | a maintenance status is exactly pending, in_progress, completed or denied |
| `Schema.ParsePaymentType` | shared/schema.ts:52 | a payment type is exactly rent or maintenance |
| `Schema.ParseVisitorStatus` | shared/schema.ts:59 | a visitor status is exactly upcoming, current, past or pending |
| `Schema.NamesRoundTrip` | shared/schema.ts:15-59 | the name of every enumeration value parses back to that value |
| `Schema.ApartmentRow` | shared/schema.ts:23-35 | a stored apartment keeps every inserted column (number, building, tenant, owner, rent, area, society name, amenities, last maintenance date) under the given key; a missing status becomes vacant |
| `Schema.MaintenanceRow` | shared/schema.ts:37-44 | a stored request is created at `now`; a missing `updatedAt` is also `now`; status and references are as inserted |
| `Schema.PaymentRow` | shared/schema.ts:46-53 | a stored payment keeps every inserted column under the given key |
| `Schema.VisitorRow` | shared/schema.ts:55-67 | a stored visitor keeps name, purpose, status, apartment, expected time, approver and contact number as inserted; it has no entry or exit time; a missing approval flag is false |
| `Schema.AnnouncementRow` | shared/schema.ts:69-76 | a stored announcement keeps title, content and author as inserted and is created at `now`; it is important only when the insert says so |
| `Validators.CheckUser` | client/schema.ts:4-11 | a user is accepted exactly when username and name are non-empty, the password is at least 6 UTF-16 code units long, as JavaScript counts string length, and the role is one of the five; the fields are carried over |
| `Validators.ThreeAstralCharactersSuffice` | client/schema.ts:6 | a password of three characters from beyond the Basic Multilingual Plane is long enough, since each counts as two code units |
| `Validators.CheckApartment` | client/schema.ts:16-27 | an apartment is accepted exactly when number, building and society name are non-empty, rent and area are positive integers and a given status is vacant or occupied; a missing status becomes vacant; whole-number rent and area and every other field are carried over |
| `Validators.CheckMaintenanceRequest` | client/schema.ts:32-39 | a request is accepted exactly when the description is non-empty and the status is one of the four; apartment, tenant, description and `updatedAt` are carried over |
| `Validators.CheckPayment` | client/schema.ts:43-49 | a payment is accepted exactly when the amount is positive and the type is rent or maintenance; apartment, tenant, amount and date are carried over |
| `Validators.CheckVisitor` | client/schema.ts:53-64 | a visitor is accepted exactly when name, purpose and contact number are non-empty and the status is one of the four; name, purpose, apartment, expected time, approver and contact number are carried over; a missing approval flag becomes false |
| `Validators.CheckAnnouncement` | client/schema.ts:68-74 | an announcement is accepted exactly when title and content are non-empty; a missing `important` becomes false |
| `Envelopes.MessageOrDefault` | server/utils/ApiResponses.ts:6 | an empty message becomes "Success"; any other message is kept verbatim |
| `Envelopes.ApiResponses.constructor` | server/utils/ApiResponses.ts:3-8 | status code and data are stored as given, the message defaults to "Success", and `success` holds exactly when the code is below 400 |
| `Envelopes.ApiErrors.constructor` | server/utils/ApiErrors.ts:2-22 | status code and message are stored as given; errors default to the empty list; `success` is false and `data` null whatever is passed; a given stack string becomes `stack`, otherwise the captured trace |
| `Storage.UserByUsername` | server/storage.ts:39-42 | returns a user with that username when there is one, and nothing exactly when none has it |
| `Storage.ApartmentById` | server/storage.ts:104-107 | returns the apartment with that key when there is one, and nothing exactly when none has it |
| `Storage.RequestById` | server/storage.ts:148-155 | returns the request with that key when there is one, and null exactly when none has it |
| `Storage.VisitorById` | server/storage.ts:191-196 | returns the visitor with that key when there is one, and nothing exactly when none has it |
| `Storage.ApartmentsByTenant` | server/storage.ts:114-116 | exactly the apartments whose tenant is the given user |
| `Storage.GetApartments` | server/storage.ts:118-123 | exactly the apartments of the owner when the owner id is truthy, otherwise all of them |
| `Storage.GetMaintenanceRequests` | server/storage.ts:139-146 | exactly the requests of the tenant when the tenant id is truthy, otherwise all of them |
| `Storage.PaymentsByTenant` | server/storage.ts:163-167 | exactly the payments made by the tenant |
| `Storage.PaymentsByOwner` | server/types.ts:35 | exactly the payments made for an apartment the owner owns |
| `Storage.VisitorsOfApartment` | server/storage.ts:174-182 | exactly the visitors of the apartment when its id is truthy; for 0 or no id, all visitors |
| `Storage.GetVisitors` | server/storage.ts:174-189 | the selected visitors in table order, each with its approval flag made a strict boolean (anything but true becomes false) and every other field unchanged |
| `Storage.GetAnnouncements` | server/storage.ts:243-247 | all announcements (a permutation of the table), newest first |
| `Storage.SeedRowsByRole` | server/storage.ts:44-102 | a tenant gets an occupied apartment let to them, a pending request and a rent payment equal to its rent (1200) for it, and an upcoming visitor not awaiting approval; a manager gets one important announcement by them; every other role gets nothing |
| `Storage.Store.constructor` | server/storage.ts:250 | the store starts with empty tables and every serial counter at 1 |
| `Storage.Store.CreateApartment` | server/storage.ts:109-112 | appends the stored row under a fresh key and returns it |
| `Storage.Store.CreateMaintenanceRequest` | server/storage.ts:134-137 | appends the stored row under a fresh key and returns it |
| `Storage.Store.CreatePayment` | server/storage.ts:158-161 | appends the stored row under a fresh key and returns it |
| `Storage.Store.CreateVisitor` | server/storage.ts:169-172 | appends the stored row under a fresh key and returns it |
| `Storage.Store.CreateAnnouncement` | server/storage.ts:238-241 | appends the stored row under a fresh key and returns it |
| `Storage.Store.InsertUser` | server/storage.ts:45 | appends the user under the next key, for a username not yet taken |
| `Storage.Store.Seed` | server/storage.ts:47-99 | each table grows by exactly the sample rows of the role |
| `Storage.InsertApartmentRow` | shared/schema.ts:23-35 | an apartment insert is refused, with the not-null message, exactly when its values leave out the society name; otherwise every given column is stored and a missing status becomes vacant |
| `Storage.SchemaInsertAccepted` | server/storage.ts:109-112 | every insert that passed the insert schema is accepted and stores the row `Schema.ApartmentRow` describes |
| `Storage.TenantSeedAsWrittenRefused` | server/storage.ts:50-59 | the sample apartment as the source writes it has the corrected sample apartment's columns except the society name, which it leaves out, and its insert is refused |
| `Storage.TenantSeedCorrectedAccepted` | server/storage.ts:50-59 | the corrected sample apartment, which has a society name, is accepted and stores the row the corrected seeding adds |
| `Storage.Store.CreateUserAsWritten` | server/storage.ts:44-102 | as written: a taken username changes nothing; a tenant is stored and then the call fails on the sample apartment, leaving the user row and no sample rows; any other role gets its user and sample rows |
| `Storage.Store.SeedTenant` | server/storage.ts:48-91 | a tenant's seeding appends exactly one row to each of apartments, requests, payments and visitors: the sample apartment under the next key, and the request, payment and visitor for that apartment |
| `Storage.Store.CreateUser` | server/storage.ts:44-102 | refuses a taken username and then changes nothing; otherwise stores the user and exactly the sample rows of its role, keeping keys distinct and usernames unique |
| `Storage.Store.UpdateApartment` | server/storage.ts:125-132 | on the apartment with that key writes exactly the fields the update sets, leaves every other apartment alone, and returns the updated row or nothing when the key is absent |
| `Storage.Store.UpdateMaintenanceRequest` | server/storage.ts:148-156 | on the request with that key writes exactly the fields given, leaves every other request alone, and returns the updated row or null when the key is absent |
| `Storage.Store.UpdateVisitorStatus` | server/storage.ts:204-224 | always writes the status; writes entry time, exit time and approver only when given and truthy, the flag only when defined; every other field and every other visitor is unchanged |
| `Storage.SetClauseUpdates` | server/storage.ts:204-224 | the set clause the status update builds changes every row under the key as the status update promises, and the row found under the key is among the changed rows |
| `Storage.Store.UpdateVisitorApprovalStatus` | server/storage.ts:226-236 | changes only the approval flag of the one visitor with that key, and returns nothing when the key is absent |
| `Routes.AdminGate` | server/routes.ts:20-25 | 403 unless the caller is signed in as manager, owner or security; a tenant or visitor never passes, and a caller without a session gets 403, not 401 |
| `Routes.MaintenancePatchCode` | server/routes.ts:50-69 | 401 without a session; 400 for a status outside the four; 403 exactly when a non-manager targets in_progress, completed or denied; any signed-in role may target pending; 404 for an unknown id |
| `Routes.ApartmentPatchCode` | server/routes.ts:188-204 | the admin gate first; 404 for an unknown apartment before ownership is looked at; 403 for an owner who does not own it; 400 for an invalid body from a caller who passed those checks; success exactly for an admin with a valid body who, if an owner, owns it |
| `Routes.VisitorTarget` | server/routes.ts:245-247 | a target status is accepted exactly when it is upcoming, current or past |
| `Routes.VisitorPatchCode` | server/routes.ts:242-265 | 400 for an invalid target before the visitor is read; 404 for an unknown visitor; 403 exactly when a pending visitor would move to current or past and the caller is not owner, tenant or manager; every other transition allowed |
| `Routes.SecurityOnlyCode` | server/routes.ts:285-298 | 403 for every role but security; then 404 for an unknown visitor |
| `Routes.UpiPaymentCode` | server/routes.ts:90-120 | 401 without a session; 400 unless both UPI id and amount are truthy; then 500 when the apartment id is falsy or names no stored apartment, since the insert is refused; created exactly when all three are truthy and the apartment exists |
| `Routes.ListMaintenance` | server/routes.ts:41-47 | a tenant sees exactly their own requests; every other role sees all of them |
| `Routes.ListPayments` | server/routes.ts:122-158 | manager and security see all payments, an owner the payments for apartments they own, a tenant or visitor exactly their own |
| `Routes.ListTenantApartments` | server/routes.ts:161-165 | any signed-in caller sees exactly the apartments they rent, never those they only own |
| `Routes.ListAllApartments` | server/routes.ts:168-174 | admin group only; an owner sees exactly the apartments they own, manager and security all |
| `Routes.FirstTenantApartment` | server/routes.ts:229-231 | the id of an apartment the tenant rents (the first), or nothing exactly when they rent none |
| `Routes.ListVisitors` | server/routes.ts:225-240 | the rows are `Storage.GetVisitors` of the table: a tenant sees exactly the visitors of their first apartment, or every visitor when they rent none; other roles see every visitor; every visitor selected is listed, with its flag made a strict boolean |
| `Routes.ListAnnouncements` | server/routes.ts:355-358 | every announcement, newest first |
| `Routes.Notify` | server/routes.ts:317-339 | security only, 404 for an unknown visitor, and nothing is written |
| `Routes.PostMaintenance` | server/routes.ts:28-39 | a created request is pending whatever the body said; a rejected request changes nothing |
| `Routes.PatchMaintenance` | server/routes.ts:50-76 | the code is `MaintenancePatchCode`; on success only the status of that request changes; otherwise nothing changes |
| `Routes.PostPayment` | server/routes.ts:79-87 | a valid body is stored as given; a rejected request changes nothing |
| `Routes.PostUpiPayment` | server/routes.ts:90-120 | the code is `UpiPaymentCode`, with the apartment looked up in the store; a created payment is by the caller, dated now, of the given type or rent; otherwise nothing changes |
| `Routes.PostApartment` | server/routes.ts:177-185 | admin group only; a valid body is stored; a rejected request changes nothing |
| `Routes.PatchApartment` | server/routes.ts:188-208 | the code is `ApartmentPatchCode`; on success only the fields the body sets change, on that apartment only; otherwise nothing changes |
| `Routes.PostVisitor` | server/routes.ts:212-223 | a created visitor is upcoming whatever the body said; a rejected request changes nothing |
| `Routes.PatchVisitorStatus` | server/routes.ts:242-282 | the code is `VisitorPatchCode`; on success the status is the target, the entry time is set only for current and the exit time only for past, the caller is the approver and the flag is false, with every other field and visitor unchanged; the stored row with that key is the row returned; otherwise nothing changes |
| `Routes.RequestApproval` | server/routes.ts:285-314 | the code is `SecurityOnlyCode`; on success only the flag of that visitor changes, to true, whatever its status; otherwise nothing changes |
| `Routes.PostAnnouncement` | server/routes.ts:342-353 | admin group only; the caller is recorded as author whoever the body names; a rejected request changes nothing |
| `VisitorsPage.GetVisitorStatus` | client/src/pages/visitors.tsx:148-153 | the helper, which the page never calls, answers "awaiting approval" exactly when the visitor is pending and flagged, otherwise its status |
| `VisitorsPage.TabOf` | client/src/pages/visitors.tsx:158-164 | a flagged visitor goes to "awaiting approval" whatever its status; any other to the tab of its status |
| `VisitorsPage.Grouped` | client/src/pages/visitors.tsx:156-173 | each tab holds, in list order, exactly the visitors whose tab it is |
| `VisitorsPage.GroupedSnoc` | client/src/pages/visitors.tsx:158-165 | one more visitor is pushed onto the end of its own tab and no other |
| `VisitorsPage.GroupedAppend` | client/src/pages/visitors.tsx:156-173 | grouping two lists one after the other puts, in every tab, the first list's visitors before the second's: order is kept within each tab |
| `VisitorsPage.GroupByStatus` | client/src/pages/visitors.tsx:156-173 | the reduce, started from five empty tabs, computes `Grouped` |
| `VisitorsPage.GroupedTotal` | client/src/pages/visitors.tsx:156-173 | the tab sizes add up to the number of visitors: none lost, none counted twice |
| `VisitorsPage.StatusAgreesWithGrouping` | client/src/pages/visitors.tsx:148-164 | for a visitor flagged only while pending, `getVisitorStatus` names the tab the grouping puts it under |
| `VisitorsPage.FlaggedUpcomingStatusDisagrees` | client/src/pages/visitors.tsx:148-164 | for a flagged upcoming visitor the grouping says "awaiting approval" while `getVisitorStatus` says "upcoming": the two disagree |
| `VisitorsPage.PrepareVisitorBody` | client/src/pages/visitors.tsx:92-111 | rejected with "Valid apartment ID is required" exactly when the apartment id is missing or not positive; otherwise the body carries status pending, flag false, and the expected time or `now` |
| `VisitorsPage.SubmittedVisitorLandsUpcoming` | client/src/pages/visitors.tsx:103-111 | what the page submits, once the server accepts it, is stored upcoming and unflagged, so it lands in the upcoming bucket, which no tab of the page shows |

`Routes.GuardRequestsApproval`, `Routes.GuardMayNotAdmitPendingVisitor`,
`Routes.TenantAdmitsPendingVisitor`, `Routes.TenantMayNotCompleteRequest`
and `Routes.ManagerCompletesRequest` step through the handlers' contracts
on a one-row store, one request at a time, through the approval of a pending visitor and
the completion of a maintenance request.

### Behaviour of the code worth knowing

- Creating an announcement is open to the whole admin group: manager,
  owner and security (server/routes.ts:342-353).
- `requireAdmin` answers 403 to a caller without a session
  (server/routes.ts:20-25).
- Request-approval neither checks nor changes the visitor's status
  (server/routes.ts:285-314), so a
  flagged visitor need not be pending. The rule "flagged only while
  pending" therefore does not hold of every stored visitor. A status
  change clears the flag, so the rule holds again after one.
  The grouping puts any flagged visitor under "awaiting approval"
  (`VisitorsPage.TabOf`), so a flagged upcoming visitor is listed on the
  "Needs Approval" tab, which owners and tenants see, with the Approve and
  Deny buttons (client/src/pages/visitors.tsx:284-288, 346-377).
  `VisitorsPage.FlaggedUpcomingStatusDisagrees` shows that the uncalled
  `getVisitorStatus` would have said "upcoming" instead.
- The page submits new visitors as "pending" and the server stores them as
  "upcoming". The page has tabs only for pending, awaiting approval,
  current and past (client/src/pages/visitors.tsx:297), so a visitor
  created through the page is shown on no tab, and never reaches the
  pending tab, where security's request-approval button appears.
- Any tenant may admit or deny any pending visitor: the status change
  checks the caller's role only (server/routes.ts:259-264), not that the
  tenant lives in the visitor's apartment.
- Creating a visitor overrides the status but keeps a body's
  `pendingApproval: true`, so a visitor can be created flagged while
  upcoming (server/routes.ts:218-221).
- A maintenance request can be moved back to pending from any status by
  any signed-in role. A manager can move it between any two statuses
  (server/routes.ts:50-69).
- An owner listing maintenance requests sees all of them
  (server/routes.ts:41-47).

## Left out

- Persistence: the Postgres tables, the SQL, the session store and the migration script are not modelled. The tables are sequences in memory, and each serial key is a counter per table. A Postgres sequence also advances on an insert that fails; the model's counters do not, so on the tenant path of `Storage.Store.CreateUserAsWritten` and the 500 path of the UPI endpoint the model's next keys can be lower than the database's.
- Authentication (`setupAuth`, `req.isAuthenticated()`, `getUser`) is not modelled. The signed-in user is an input.
- Request parsing is not modelled. A body either passes the drizzle-zod schema or is rejected, and the model receives the parsed record or `None`. `parseInt` of a path id is taken to give a number; a NaN id is not modelled.
- The 500 answers for storage exceptions are not modelled, except those of the UPI endpoint, whose payment insert is refused when the apartment id is falsy or names no stored apartment. Requests run one at a time; concurrent approvals are not modelled.
- Logging is not modelled: `logVisitorNotification` writes only a console line, so notify writes nothing here.
- The UPI gateway and the client's simulated payment are not modelled.
- UI rendering, routing and the client-side role checks are not modelled.
- `getAllPayments` and `getPaymentsByOwner` are declared but have no body in the store. The model gives them their evident meaning: all payments, and the payments for apartments the owner owns.
- The two timestamp columns of `users` are not modelled. Both are declared on one column name.
- Storage.TenantSeedApartment: the corrected seeding gives the sample apartment the empty society name; what name the authors meant is not known. See "## Findings".
- Routes.PostUpiPayment: the payment date is written as an ISO string (server/routes.ts:107) into a timestamp column; whether the database layer accepts that string, or every UPI payment then ends in 500, is not modelled: the model takes the date as accepted.
- Routes.PostUpiPayment: the amount is taken as a number. A numeric string that `Number` converts is not modelled, nor is a payment type string outside the enumeration: the model's closed `PaymentType` cannot represent one, and whether the database refuses it is not modelled. A fractional amount, which the integer column does not hold and which ends in 500, is not modelled either: the amount is an `int`.
- Storage.Store.CreateVisitor: an explicit null approval flag in an insert is stored as false rather than null.
- VisitorsPage.SubmittedVisitorLandsUpcoming: the page sends the expected time as an ISO string; the lemma takes it that the server's schema accepts the body.
- Validators.CheckVisitor: the optional `actualEntryAt` and `actualExitAt` of the client visitor schema, and the optional `createdAt`/`updatedAt` of the client schemas, are not fields of the model's forms. Each is an optional date there, so the model's checks stand for forms that leave them out, as the visitor page's submission does.
- Routes.PatchApartment: a body that sets no field is applied as a no-op and answered 200 with the apartment unchanged. Drizzle refuses an update with nothing to set, so in the source an empty PATCH body ends in an error and no 200 (server/routes.ts:201-207, server/storage.ts:126-129). The maintenance PATCH always sets the status, so it is not affected.

## Findings

| source | as written | input that shows it | evidently intended | confidence | as-written member | corrected member |
|---|---|---|---|---|---|---|
| server/storage.ts:50-59 | the tenant's sample apartment is inserted without `societyName`, a NOT NULL column without default (shared/schema.ts:34) | registering any user with role tenant: the user row is stored, the apartment insert fails, the request fails and no sample rows exist | the sample apartment carries a society name and the tenant gets all four sample rows | medium, not executed | `Storage.Store.CreateUserAsWritten` | `Storage.Store.CreateUser` |
