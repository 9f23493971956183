# Wedding-planner API: a verified model of the route handlers

This project models the server side of the wedding-planner back end, an
Express application over a Prisma store. It covers:

- the two authentication middlewares, `requireAuth` (bearer header or
  `token` cookie) and `requireRole` (the ADMIN/SUPPORT gate on deletes);
- the zod validation middleware and the three user schemas;
- the error helpers in `server/utils.js`: `handlePrismaError`,
  `ensureExists` and `ensureExistsOrRespond`;
- the seven routers: users, clients, weddings, tasks, vendors, addresses
  and auth.

Each route handler is a method over a `Db.Store` class. The store has one
map per table: users, clients, addresses, vendors, weddings and tasks. A
handler also takes the `Http.Request` object, which the middleware chain
mutates (`req.user`, `req.body`, `req.parsedQuery`), and returns the one
`Reply` it sends: a status, a JSON body and what it does to the `token`
cookie.

Each handler's `ensures` gives the whole decision ladder of the source, in
its own order: authentication, role gate, required fields, foreign-key
checks, thrown TypeErrors and Prisma validation errors (all answered with
the same 500 by `handlePrismaError`), the missing row (P2025 → 404), the
unique e-mail (P2002 → 409), and finally the write and the reply.

Every write is tied to pure specification functions: `NewClient`,
`Patched`, `NewUser`, `UserChanges` and the like. Lemmas prove what those
functions promise:

- a patch changes only the columns the body supplies, and applying it
  twice changes nothing more;
- stored e-mails stay trimmed and lower-case;
- foreign-key checks mean a written row points at existing rows;
- user e-mails stay unique;
- a listing holds exactly the matching rows, in the requested order.

Two store invariants are kept across handlers:

- `Store.Valid()`: user e-mails are normalised and unique, which stands for
  the database's unique index.
- `Store.RefsIntact()`: every foreign-key column names an existing row.

The external libraries are uninterpreted parameters, bundled in
`Http.Env`: bcrypt (`hash`, `compare`), jsonwebtoken (`sign`, `verify`,
with expiry folded into `verify`), zod's e-mail pattern, `Date.parse` on
strings, and `APP_URL`. The clock (`now`) and the id Prisma would
generate (`newId`) are method parameters.

JavaScript values are `Js.Value`: null, booleans, integers, NaN, strings,
dates and an opaque composite. A request body is a `map<string, Value>`,
where a missing key is `undefined`. `Truthy`, `String.prototype.trim`,
`toLowerCase` (ASCII letters), `parseInt` and `Number` are modelled on
these values.

Modules, one file each: `Js`, `Entities`, `Http`, `Db`, `Utils`,
`Routes` (shared handler helpers), `RequireAuth`, `RequireRole`,
`Validate`, `UserSchemas`, `Users`, `Clients`, `Addresses`, `Vendors`,
`Weddings`, `Tasks` and `Auth`.

## Model

| member | source | states |
|---|---|---|
| RequireRole.Gate | server/middleware/requireRole.js:1-9 | no user or no role → 401 "Unauthorized"; a role outside the allowed list → 403 "Forbidden"; otherwise next. Each of the three holds if and only if its condition does |
| RequireRole.SingleRoleIsList | server/middleware/requireRole.js:5 | a single allowed role behaves exactly like the one-element list |
| RequireRole.DefaultForbidsEveryone | server/middleware/requireRole.js:1 | with the default empty list nobody passes; an authenticated user with a role gets 403 |
| RequireRole.StaffOnlyGate | server/middleware/requireRole.js:6 | the delete gate `['ADMIN','SUPPORT']` lets a user through if and only if the role is not USER |
| RequireAuth.BearerToken | server/middleware/requireAuth.js:6 | the token the regex `^Bearer\s+(.+)$/i` captures is never empty |
| RequireAuth.BearerTokenIsMatch | server/middleware/requireAuth.js:6 | the function finds a token if and only if some split of the header matches the regex; the token is the remainder after the greedy `\s+`, as the regex captures it |
| RequireAuth.BearerRemainder | server/middleware/requireAuth.js:6 | for any case of "bearer", any whitespace run and a one-line token that starts with no space, the captured token is exactly that token |
| RequireAuth.TokenOf | server/middleware/requireAuth.js:5-9 | a header match wins; otherwise a non-empty `token` cookie is used; otherwise there is no token |
| RequireAuth.OtherSchemeFallsBackToCookie | server/middleware/requireAuth.js:7-9 | a header that does not start with "bearer" (any case) leaves the cookie in charge |
| RequireAuth.HeaderWinsOverCookie | server/middleware/requireAuth.js:6-8 | a matching bearer header is used even when a cookie is present |
| RequireAuth.Authenticate | server/middleware/requireAuth.js:11-18 | no token → 401 "Missing Authorization token"; a token verify rejects → 401 "Invalid or expired token"; otherwise the identity is the claims' sub and role (each an if-and-only-if) |
| RequireAuth.RequireAuth | server/middleware/requireAuth.js:4-19 | on success, sets `req.user` to the verified identity and calls next; on rejection, leaves `req.user` alone and halts with the reply; body and parsed query are untouched |
| Utils.HandlePrismaError | server/utils.js:5-22 | P2002 → 409, P2025 → 404, P2003 → 400 (each if and only if); every other error → 500; always an error body |
| Utils.UnrecognisedErrorsLookAlike | server/utils.js:16-21 | any two errors without a known code get the identical 500 reply |
| Utils.EnsureExists | server/utils.js:25-34 | a falsy id → FKNotFoundError; found if and only if the id is truthy, the model is known and the row exists; a missing row → FKNotFoundError carrying model, id and label; other throws carry no Prisma code |
| Utils.EnsureExistsOrRespond | server/utils.js:47-58 | true exactly when ensureExists succeeds; an FKNotFoundError → 400 "`label` does not reference a valid `model`"; any other error is rethrown unchanged |
| Utils.CheckAllFirst | server/routes/weddings.js:41-52 | a chain of reference checks passes if and only if each check passes; otherwise its answer is that of the first failing check, all earlier ones having passed |
| Utils.CheckAllAppend | server/routes/weddings.js:41-52 | checking `a + b` in sequence equals checking `a` and, only if it passed, `b` |
| Utils.CheckPasses | server/utils.js:25-34 | one reference check passes if and only if the model is known, the id is a non-empty string and the row exists |
| Validate.ValidateBody | server/middleware/validate.js:3-12 | a schema failure → 400 `{error:'validation'}` with the failing fields, body unchanged; a success replaces `req.body` with the parsed data and calls next |
| Validate.ValidateQuery | server/middleware/validate.js:14-24 | validates `req.query` (or `{}`); a failure → 400 with the fields; a success stores the data in `req.parsedQuery`, which the handler then reads |
| UserSchemas.Parse | server/validators/userSchemas.js:3-25 | a zod object accepts if and only if every field accepts; the error names exactly the failing fields; the output has only declared keys, with each optional field present exactly when it produced a value |
| UserSchemas.ParseStripsUnknownKeys | server/validators/userSchemas.js:3-17 | an accepted body schema returns the input restricted to the declared keys, values unchanged |
| UserSchemas.UserCreateAccepts | server/validators/userSchemas.js:3-9 | create accepts if and only if: name is a string of 2 or more, email passes the e-mail check, password is a string of 6 or more, role (if given) is one of the enum, phone (if given) is a string or null |
| UserSchemas.UserCreateData | server/validators/userSchemas.js:3-9 | the parsed create body is the input restricted to the five user keys |
| UserSchemas.UserUpdateAcceptsEmpty | server/validators/userSchemas.js:11-17 | an empty update body is accepted as an empty update |
| UserSchemas.UserUpdateAccepts | server/validators/userSchemas.js:11-17 | update accepts if and only if each supplied field meets the same rule as at create |
| UserSchemas.UserUpdateData | server/validators/userSchemas.js:11-17 | the parsed update body is the input restricted to the five user keys |
| UserSchemas.UserQueryPaging | server/validators/userSchemas.js:23-24 | a falsy limit or offset is dropped; a truthy one is converted with `Number` and is an integer ≥ 1 (limit) or ≥ 0 (offset) |
| UserSchemas.UserQueryFilters | server/validators/userSchemas.js:20-22 | the search, role and email a parsed query keeps are the request's own values, a role from the enum and an e-mail that passes the check |
| Js.Get | server/routes/clients.js:40 | destructuring yields a value exactly for keys present in the body |
| Js.TrimCharacterised | server/routes/clients.js:42 | `trim` returns a substring framed by whitespace on both sides, with no whitespace at either end |
| Js.TrimIdempotent | server/routes/clients.js:53 | trimming twice equals trimming once |
| Js.LowerIdempotent | server/routes/clients.js:54 | lower-casing twice equals lower-casing once |
| Js.TrimLowerCommute | server/routes/users.js:74 | `toLowerCase().trim()` equals `trim().toLowerCase()` |
| Js.NormalEmailIsNormal | server/routes/users.js:74 | a normalised e-mail is trimmed and lower-case, and normalising it again changes nothing |
| Js.NormalEmailOfNormal | server/routes/users.js:91 | a trimmed lower-case e-mail is its own normal form |
| Js.ParseIntRoundTrip | server/routes/clients.js:21 | `parseInt` of an integer's decimal text gives the integer back |
| Js.ParseIntOfNumber | server/routes/tasks.js:54 | `parseInt` of an integer number gives the same integer |
| Js.ParseIntJs | server/routes/tasks.js:54 | `parseInt` yields a number or NaN |
| Routes.TrimOrNull | server/routes/clients.js:42 | `x?.trim() \|\| null` throws exactly for a non-string present value; the stored value is non-empty and trimmed, and is null exactly for an all-whitespace string |
| Routes.EmailOrNull | server/routes/clients.js:42 | `email?.toLowerCase().trim() \|\| null` throws exactly for a present non-string non-null value; a stored e-mail is non-empty and normal; null exactly for a blank string |
| Routes.BlankIffNormalBlank | server/routes/clients.js:42 | an e-mail normalises to "" if and only if it is all whitespace |
| Routes.TrimIfTruthy | server/routes/clients.js:55 | `x ? x.trim() : null` gives null for falsy input, throws for a truthy non-string, and otherwise gives the trimmed string |
| Routes.PageArg | server/routes/clients.js:21 | `limit ? parseInt(limit) : undefined`: no bound for a falsy value, a bound exactly when parseInt gives a number, and that number |
| Routes.FilterArg | server/routes/tasks.js:15-17 | a falsy query parameter is ignored; a truthy string is used as is; any other truthy value throws |
| Routes.ListRows | server/routes/clients.js:21 | the reply lists, in store order, a window of an arrangement of exactly the matching rows, or gives the error a negative skip raises |
| Routes.UnpagedListing | server/routes/clients.js:21-22 | without paging the reply is 200 and contains every matching row, and nothing that does not match |
| Routes.RefIfTruthy | server/routes/weddings.js:41-52 | create checks a reference exactly when its body value is truthy |
| Routes.RefIfGiven | server/routes/weddings.js:69-80 | update checks a reference exactly when its body value is present and not null |
| Routes.TruthyRefChecked | server/routes/weddings.js:41-44 | a truthy reference that passed its check is a string naming an existing row |
| Routes.GivenRefChecked | server/routes/weddings.js:69-72 | a given non-null reference that passed its check is a string naming an existing row |
| Entities.RoleOf | server/validators/userSchemas.js:7 | a string names a role exactly when it is "ADMIN", "USER" or "SUPPORT", and names that role |
| Entities.Select | server/routes/users.js:56 | `select` keeps exactly the listed columns, values unchanged |
| Entities.UserViewHidesPassword | server/routes/users.js:37 | the public user columns are every column except the password |
| Http.DateOf | server/routes/weddings.js:53 | `new Date(v)` is valid only within the ±8.64e15 ms range |
| Db.Holder | server/routes/auth.js:14 | under the unique e-mail index, lookup by e-mail finds a user exactly when one has that e-mail, and that user is the only one |
| Db.Store.FindByEmail | server/routes/auth.js:14 | `findUnique({where:{email}})` returns the holder of the e-mail |
| Db.Store.PutUser | server/routes/users.js:74 | a user write changes only that user's entry and keeps every reference intact |
| Db.Store.PutWedding | server/routes/weddings.js:53 | a wedding write changes only that entry; when its location and spouses exist, references stay intact |
| Db.Store.PutTask | server/routes/tasks.js:42 | a task write changes only that entry; when its wedding and users exist, references stay intact |
| Db.Store.PutVendor | server/routes/vendors.js:42 | a vendor write changes only that entry; when its address exists, references stay intact |
| Db.IntactAfterWrite | server/routes/weddings.js:41-54 | when no referenced table loses rows and every new or changed row's references exist, referential integrity is kept |
| Db.ArrangementExists | server/routes/clients.js:21 | for any total preorder, the matching rows can be put in a sorted order without duplicates, so `orderBy` is always satisfiable |
| Db.FindMany | server/routes/clients.js:21 | `findMany` returns a skip/take window of a sorted arrangement of exactly the matching rows; a negative skip is a Prisma error |
| Db.Window | server/routes/clients.js:21 | a window is a contiguous slice; it is an error exactly when skip is negative |
| Db.WindowForward | server/routes/clients.js:21 | with skip ≥ 0 the window has the expected length and starts at position skip |
| Db.UnpagedListsAll | server/routes/clients.js:21 | no skip and no take gives back the whole sequence |
| Db.LexLeIsTotalPreorder | server/routes/vendors.js:18 | ordering vendors by name, ascending, is a total preorder |
| Clients.NewestFirstIsOrder | server/routes/clients.js:21 | `orderBy: {createdAt: 'desc'}` is a total preorder |
| Clients.FiltersIgnoreCase | server/routes/clients.js:17-18 | the search and e-mail filters give the same answer for any case of the filter text |
| Clients.List | server/routes/clients.js:11-24 | the reply lists the clients that match the search (name or e-mail contains, case-insensitive) and the e-mail filter (case-insensitive equals), newest first, paged; a bad parameter → 500 |
| Clients.Show | server/routes/clients.js:27-34 | the client row, or 404 "Client not found" |
| Clients.NewClient | server/routes/clients.js:42 | creation succeeds if and only if name is a string and email and phone are absent, null or strings; otherwise it is a TypeError |
| Clients.NewClientColumns | server/routes/clients.js:42 | the new client has the trimmed name, a null e-mail or phone exactly when missing, null or blank, the notes or null, and `createdAt = now` |
| Clients.CreateKeepsNormal | server/routes/clients.js:42 | adding a created client keeps every client's name trimmed and e-mail normalised |
| Clients.Create | server/routes/clients.js:37-45 | auth; falsy name → 400 "Name is required"; TypeError → 500; otherwise the client is added under the new id and the selected columns are answered with 201; nothing else changes |
| Clients.ClientChanges | server/routes/clients.js:52-56 | the update object has each field exactly when it is present in the body; it throws exactly for a non-string name, a present non-null non-string e-mail or a truthy non-string phone |
| Clients.PatchIdempotent | server/routes/clients.js:58 | applying the same update twice equals applying it once |
| Clients.PatchTouchesOnlySupplied | server/routes/clients.js:52-58 | columns absent from the body and `createdAt` keep their values |
| Clients.UpdateKeepsNormal | server/routes/clients.js:52-58 | an update keeps every client's name trimmed and e-mail normalised |
| Clients.Update | server/routes/clients.js:48-61 | auth; a TypeError → 500; a missing client → 404; otherwise the patched client is stored and returned with 200 |
| Clients.Unlinked | server/routes/clients.js:82 | `onDelete: SetNull` clears exactly the spouse columns that name the client; other columns are untouched |
| Clients.Delete | server/routes/clients.js:64-86 | auth, staff gate; a wedding on or after now with the client as a spouse → 400; a missing client → 404; otherwise the client is removed, its spouse links are nulled, references stay intact and `{message, client:{id,name}}` is answered |
| Clients.UnlinkKeepsIntact | server/routes/clients.js:82-83 | removing the client and nulling its spouse links keeps referential integrity |
| Clients.DeleteLeavesNoSpouse | server/routes/clients.js:69-83 | when deletion is allowed, every wedding naming the client is in the past, and afterwards no wedding names it |
| Clients.WeddingNowBlocks | server/routes/clients.js:73 | the `gte` bound blocks deletion for a wedding dated exactly now |
| Addresses.CityAndStateIgnoreCase | server/routes/addresses.js:15-16 | the city and state filters give the same answer for any case of the filter text |
| Addresses.ZipIsExact | server/routes/addresses.js:17 | the zip filter matches exactly the addresses with that zip |
| Addresses.List | server/routes/addresses.js:10-22 | the reply lists the addresses that match the filters, in no particular order, paged; a bad parameter → 500 |
| Addresses.Show | server/routes/addresses.js:25-32 | the address row, or 404 "Address not found" |
| Addresses.NewAddress | server/routes/addresses.js:39 | creation succeeds if and only if all four parts are strings |
| Addresses.NewAddressParts | server/routes/addresses.js:39 | the stored parts are the trimmed inputs, and the new address is normalised |
| Addresses.BlankPartStoredEmpty | server/routes/addresses.js:38-39 | a whitespace-only street passes the truthiness guard and is stored as "" |
| Addresses.Create | server/routes/addresses.js:35-42 | auth; a falsy part → 400 "Street, city, state and zip are required"; TypeError → 500; otherwise the address is added and answered with 201 |
| Addresses.PartChange | server/routes/addresses.js:50-53 | a part is changed exactly when present; it throws for a non-string; otherwise it is trimmed |
| Addresses.PatchIdempotent | server/routes/addresses.js:55 | applying the same update twice equals applying it once |
| Addresses.PatchTouchesOnlySupplied | server/routes/addresses.js:49-55 | each part becomes the trimmed new value if supplied and otherwise stays; `createdAt` stays |
| Addresses.UpdateKeepsNormal | server/routes/addresses.js:49-55 | an update keeps every address's parts trimmed |
| Addresses.Update | server/routes/addresses.js:45-58 | auth; a TypeError → 500; a missing address → 404; otherwise the patched address is stored and returned |
| Addresses.Delete | server/routes/addresses.js:61-67 | auth, staff gate; a missing address → 404; otherwise it is removed with 200 "Address deleted" |
| Vendors.ByNameIsOrder | server/routes/vendors.js:18 | `orderBy: {name: 'asc'}` is a total preorder |
| Vendors.SearchIgnoresCase | server/routes/vendors.js:15 | the search gives the same answer for any case of the search text |
| Vendors.TagIsIgnored | server/routes/vendors.js:13-15 | the `tag` query parameter has no effect on the filter |
| Vendors.List | server/routes/vendors.js:10-21 | the reply lists the vendors whose name contains the search (case-insensitive), by name, paged |
| Vendors.Show | server/routes/vendors.js:24-31 | the vendor row, or 404 "Vendor not found" |
| Vendors.NewVendor | server/routes/vendors.js:42 | creation succeeds if and only if name is a string, a truthy addressId is a string, and email and phone are absent, null or strings |
| Vendors.NewVendorDefaults | server/routes/vendors.js:42 | trimmed name; addressId null exactly when falsy; rating 0 when falsy and otherwise as given; notes null when falsy; `createdAt = now` |
| Vendors.CreateKeepsNormal | server/routes/vendors.js:42 | adding a created vendor keeps vendor names trimmed and e-mails normalised |
| Vendors.CreatedVendorRefs | server/routes/vendors.js:38-42 | when the address check passed, the new vendor's address exists |
| Vendors.Create | server/routes/vendors.js:34-45 | auth; falsy name → 400; a truthy addressId with no address → 400 "addressId does not reference a valid address"; TypeError → 500; otherwise 201 with id, name and addressId |
| Vendors.VendorChanges | server/routes/vendors.js:52-58 | the update object copies `addressId` as given and has `rating` and `notes` exactly when present; it throws exactly for a non-string name, a non-string non-null e-mail or a truthy non-string phone |
| Vendors.PatchIdempotent | server/routes/vendors.js:65 | applying the same update twice equals applying it once |
| Vendors.PatchTouchesOnlySupplied | server/routes/vendors.js:52-65 | columns absent from the body and `createdAt` keep their values |
| Vendors.UpdateKeepsNormal | server/routes/vendors.js:52-65 | an update keeps vendor names trimmed and e-mails normalised |
| Vendors.CheckedPatchApplies | server/routes/vendors.js:60-65 | after the address check passes, the update is accepted by the store |
| Vendors.UpdatedVendorRefs | server/routes/vendors.js:60-65 | after the check, the patched vendor's address exists |
| Vendors.Update | server/routes/vendors.js:48-68 | auth; TypeError → 500; a bad given addressId → 400; a missing vendor → 404; otherwise the patched vendor with 200; references stay intact |
| Vendors.Delete | server/routes/vendors.js:71-77 | auth, staff gate; 404 or removal with "Vendor deleted"; references stay intact |
| Weddings.DateBound | server/routes/weddings.js:17-18 | a falsy bound is ignored; a truthy bound must be a valid date and is that date |
| Weddings.ByDateIsOrder | server/routes/weddings.js:21 | `orderBy: {date: 'asc'}` is a total preorder |
| Weddings.RangeIsInclusive | server/routes/weddings.js:15-19 | `gte` and `lte` include both ends of the range; a reversed range matches nothing |
| Weddings.List | server/routes/weddings.js:10-24 | the reply lists the weddings within the date range, by date, paged; an invalid date or page → 500 |
| Weddings.Show | server/routes/weddings.js:27-34 | the wedding row, or 404 "Wedding not found" |
| Weddings.NewWedding | server/routes/weddings.js:53 | the new wedding's date is `new Date(date)` and `createdAt = now` |
| Weddings.CheckedCreate | server/routes/weddings.js:41-54 | after the checks, creation succeeds if and only if the date is valid; the new wedding's location and spouses exist, and each is null exactly when falsy in the body |
| Weddings.LocationCheckedFirst | server/routes/weddings.js:41-44 | a missing location is reported before any spouse check |
| Weddings.Create | server/routes/weddings.js:37-56 | auth; falsy date → 400 "date is required"; the first failing reference → 400 (or rethrow); invalid date → 500; otherwise 201 with id, date and locationId |
| Weddings.WeddingChanges | server/routes/weddings.js:63-67 | a date is in the update exactly when present, as `new Date(date)`; the references are copied as given |
| Weddings.NullDateIsEpoch | server/routes/weddings.js:64 | `date: null` sets the date to the epoch |
| Weddings.PatchIdempotent | server/routes/weddings.js:82 | applying the same update twice equals applying it once |
| Weddings.PatchTouchesOnlySupplied | server/routes/weddings.js:63-82 | absent columns keep their values; a null reference clears the link |
| Weddings.CheckedUpdate | server/routes/weddings.js:63-82 | after the checks, the update is accepted if and only if a given date is valid, and the patched wedding's references exist |
| Weddings.Update | server/routes/weddings.js:59-85 | auth; a failing reference → 400 or rethrow; an invalid value → 500; a missing wedding → 404; otherwise the patched wedding with 200; references stay intact |
| Weddings.Delete | server/routes/weddings.js:88-94 | auth, staff gate; a missing wedding → 404; otherwise the wedding is removed and the reply is 200 "Wedding deleted"; no other table changes |
| Tasks.ByDueDateIsOrder | server/routes/tasks.js:19 | `orderBy: {dueDate: 'asc'}` is a total preorder |
| Tasks.FiltersAreExact | server/routes/tasks.js:15-17 | a matching task has exactly the requested status, assignee and wedding |
| Tasks.EmptyFilterIgnored | server/routes/tasks.js:15-17 | an empty-string filter is the same as leaving it out |
| Tasks.List | server/routes/tasks.js:10-22 | the reply lists the tasks matching the filters, by due date, paged |
| Tasks.Show | server/routes/tasks.js:25-32 | the stored task row, or 404 "Task not found" |
| Tasks.CheckedCreate | server/routes/tasks.js:38-43 | after the wedding check, creation succeeds if and only if name is a string, priority parses and dueDate is valid; the new task has the trimmed name, the parsed priority and date, no assignee or completion, and its wedding exists |
| Tasks.Create | server/routes/tasks.js:35-45 | auth; missing name, priority, dueDate or weddingId → 400 "Missing required fields"; missing wedding → 400; otherwise 201 with the selected columns |
| Tasks.TaskChanges | server/routes/tasks.js:52-60 | the update throws exactly for a non-string name; completedOn is in it exactly when present |
| Tasks.PatchIdempotent | server/routes/tasks.js:72 | applying the same update twice equals applying it once |
| Tasks.PatchTouchesOnlySupplied | server/routes/tasks.js:52-72 | absent columns, the wedding and `createdAt` keep their values; a falsy completedOn clears it, a truthy one is `new Date(completedOn)` |
| Tasks.AcceptedPatch | server/routes/tasks.js:54-58 | the store accepts the update if and only if a given priority parses and the given dates are valid |
| Tasks.CheckedUserRefs | server/routes/tasks.js:63-70 | after the checks, a given assignee or completer is an existing user |
| Tasks.UpdatedTaskRefs | server/routes/tasks.js:63-73 | the patched task's references exist |
| Tasks.Update | server/routes/tasks.js:48-75 | auth; TypeError → 500; a failing user reference → 400; an invalid value → 500; a missing task → 404; otherwise the patched task with 200 |
| Tasks.Delete | server/routes/tasks.js:78-84 | auth, staff gate; 404 or removal with "Task deleted"; references stay intact |
| Users.UserView | server/routes/users.js:56 | the selected user columns are every column except the password |
| Users.WriteKeepsValid | server/routes/users.js:74 | writing a user whose normalised e-mail no other user holds keeps e-mails unique and normal |
| Users.NewestFirstIsOrder | server/routes/users.js:40 | `orderBy: {createdAt: 'desc'}` is a total preorder |
| Users.ValidatedQueryLists | server/routes/users.js:14-39 | after validation, building the filter and the paging cannot fail; take ≥ 1 and skip ≥ 0 |
| Users.RoleFilterIsExact | server/routes/users.js:32 | the role filter keeps only users with that role |
| Users.List | server/routes/users.js:14-48 | auth; query validation → 400 with the fields; otherwise the public columns of matching users, newest first, paged |
| Users.Show | server/routes/users.js:51-64 | the public user columns, or 404 "User not found" |
| Users.ValidatedNewUser | server/routes/users.js:70-74 | for a validated body, the new user has the trimmed name, normalised e-mail, hashed password, the given role or USER, `createdAt = now`, and a null phone exactly when it is missing, null or blank |
| Users.Create | server/routes/users.js:67-80 | no auth; validation → 400; an e-mail already held → 409; otherwise the user is added and its public columns are answered with 201; e-mails stay unique |
| Users.ValidatedChanges | server/routes/users.js:87-94 | each field is in the update exactly when supplied: trimmed name, normalised e-mail, hashed password, role, and phone as null when falsy and trimmed otherwise |
| Users.PatchTouchesOnlySupplied | server/routes/users.js:88-97 | columns absent from the body and `createdAt` keep their values |
| Users.BlankPhoneCreateVersusUpdate | server/routes/users.js:74 | a phone of " " is stored as null at create but as "" by an update |
| Users.Update | server/routes/users.js:83-102 | auth; validation → 400; a missing user → 404; an e-mail held by another user → 409; otherwise the patched user with 200; e-mails stay unique |
| Users.Delete | server/routes/users.js:105-116 | auth, staff gate; 404 or removal with "User deleted"; e-mails stay unique |
| Auth.Account | server/routes/auth.js:23 | the account answer has exactly id, name, email and role |
| Auth.LoggedIn | server/routes/auth.js:20-23 | a login signs `{sub, role}`, sets it as the token cookie and returns it with the account |
| Auth.Login | server/routes/auth.js:9-27 | a missing e-mail or password → 400; an unknown e-mail or wrong password → the same 401 "Invalid credentials"; a non-string value → 500; otherwise the login reply |
| Auth.LoginIsExact | server/routes/auth.js:14 | an e-mail that is not trimmed and lower-case finds no user |
| Auth.Me | server/routes/auth.js:30-37 | auth; the account of the token's user, or 404 "User not found" |
| Auth.AppUrl | server/routes/auth.js:50 | `APP_URL` or, when unset or empty, the local development address; never empty |
| Auth.ResetLink | server/routes/auth.js:50 | the link is the app address, `/reset-password?token=` and the token |
| Auth.RequestReset | server/routes/auth.js:40-57 | a missing e-mail → 400; an unknown e-mail → 200 with a message that does not reveal it; a known one → a link with a token for that user carrying no role |
| Auth.ResetSubject | server/routes/auth.js:66-72 | the reset targets the token's `sub` exactly when the token is a string that verifies |
| Auth.ResetIgnoresRole | server/routes/auth.js:66-72 | two tokens whose verified claims name the same `sub` reset the same user's password, whatever role either carries, so a login token resets like a reset token |
| Auth.Reset | server/routes/auth.js:60-79 | missing fields → 400; a bad token → 400 "Invalid or expired token"; a missing user → 404; otherwise only that user's password changes to the hash, with 200 "Password updated" |
| Auth.Logout | server/routes/auth.js:82-85 | clears the token cookie and answers "Logged out" |

## Left out

- Express routing, `server.js`, cookie parsing and the HTTP transport: a handler receives the parsed request and returns its reply.
- Prisma beyond an in-memory store of six maps. The schema's referential actions are not modelled, except the SetNull of a wedding's spouses when a client is deleted; other deletes do not claim to keep `RefsIntact`.
- Column types and database defaults, other than the default role USER. Values a handler copies from the body (notes, rating, task status) are stored as given; Prisma's rejection of an ill-typed one is not modelled.
- Database collation: `mode: 'insensitive'` and `orderBy` on strings use ASCII lower-casing and code-point order.
- bcrypt (salt, rounds), JWT signing, expiry and payload shape are the functions of `Env`. A verified token without `sub` is not modelled.
- `Date.parse` on strings is an oracle. Composite values (arrays, objects) are opaque: `new Date` of one is read as invalid, and `parseInt` or `Number` of one is NaN.
- `parseInt` and `Number` read only decimal integers: no hexadecimal, exponent or fractional forms.
- zod's e-mail pattern is an oracle. Its error format is reduced to the set of failing fields.
- String lengths are counted in code points, not UTF-16 units.
- `console.error` logging, the cookie's `secure` flag and concurrency.
- Id generation: the new row's id is the `newId` parameter, required to be unused.
- Auth.Login: the store's unique index on e-mail is a precondition (`UniqueEmails`), not proved from the handlers. `Store.Valid()` states it and every user handler keeps it.
- Auth.RequestReset: same precondition as login.
- Tasks.NewTask, Users.NewUser, Users.UserChanges: their own contracts only say that any failure is an uncoded error. What they compute is stated by Tasks.CheckedCreate, Users.ValidatedNewUser and Users.ValidatedChanges.
- Weddings.Delete, Addresses.Delete, Users.Delete: for an existing id they always remove the row and answer 200. Rows that reference it (the tasks of a wedding, the weddings and vendors at an address, the tasks assigned to or completed by a user) are left unchanged and may then name a row that no longer exists, so these deletes do not claim to keep `RefsIntact`. The schema's cascades and restrictions are not modelled, so the P2003 → 400 branch of `HandlePrismaError` is never reached from these handlers.
- Js.ParseIntRoundTrip, Js.ParseIntOfNumber: numbers are exact unbounded integers. JavaScript's doubles round integers above 2^53, `String(n)` uses exponent form for |n| ≥ 1e21 (so `parseInt(1e21)` is 1, and a validated `limit` of 1e21 takes one user in the source but 10^21 in the model), and fractional numbers such as a `priority` of 2.5 (which `parseInt` turns into 2) cannot be written in the model.
