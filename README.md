# deel-contractor-service in Dafny

A model of the core of a small Express/Sequelize service. The service keeps
profiles (clients and contractors), contracts between them, and the jobs done
under those contracts. The model covers:

- the routes' decision logic (src/app.js): contract by id with an ownership
  check, unpaid jobs, paying for a job, depositing money, and the
  best-profession and best-clients reports;
- the data-access service (src/services/ContractService.js): contract and job
  queries, the settlement transaction, grouped payment sums and the client
  name enrichment;
- the request validators (src/middleware/validate.js);
- the error helpers and the JSON error envelope (src/helper/Errors.js,
  src/helper/CustomError.js).

How the model is built:

- The database is three tables of records (`Entities.Books`). Class
  `Store.Ledger` holds those tables as fields and updates them in place, as
  the service's transaction and deposit route do.
- Each route's outcome is `App.Outcome`: a value, or the error the route
  sends. `App.PayOutcome`, `App.AfterPay`, `App.DepositCheck` and
  `App.AfterDeposit` give the pay and deposit routes' effects as functions.
  `Ledger.Pay` and `Ledger.Deposit` are proved to apply exactly those effects.
- JavaScript values the helpers inspect (truthiness, `undefined`, type
  checks) are `Js.Value`.
- Money, ids and timestamps are unbounded integers.
- An error object reads its field through the prototype chain. `Error` gives
  `name` and `message`; `statusCode` and `detail` fall back to `undefined`
  (`CustomErrors.Read*`).

Module order: Wrappers, Js, CustomErrors, Errors, Validate, Entities,
Grouping, ContractService, App, Store.

Properties proved:

- Payment checks come in a fixed order. A balance equal to the price pays.
- A payment moves exactly the price from the client to the contractor, marks
  the job paid, and touches nothing else. A second payment of the same job is
  always refused.
- Every payment, accepted or refused, keeps the total of all balances. When
  client and contractor are the same profile, the balance ends unchanged.
  For that aliased case, both facts assume the contractor read sees the
  debit (see `Store.Ledger.MakePaymentForJob` under Left out).
- Deposits are accepted if and only if `4 * amount <= unpaid total`. The
  identity checks do not depend on the stored data.
- Grouped sums:
  - have distinct keys;
  - have exactly the keys of the input;
  - give each key the sum of its input rows;
  - keep the grand total.
- The window reports hold, per profile, exactly what it paid or earned for
  paid jobs created strictly inside the window. The window filters on
  `createdAt`, not on the payment date. The client report is descending and a
  permutation of the unsorted grouping.
- The best profession is one with the largest total.
- The best-clients result is a prefix of the descending list, each entry
  named from its profile.
- Each validator lets a request through exactly when its parameter is present
  and numeric (or, for dates, valid and ordered). Otherwise it sends the
  source's own 400 envelope.
- Every envelope a helper can build carries 400, 404 or 500, never 401.

## Model

| member | source | states |
|---|---|---|
| CustomErrors.Create | src/helper/CustomError.js:2-16 | with a string-or-undefined name and message and a number-or-undefined status, the error reads back exactly the given name, message, status and detail; otherwise the early return leaves only the inherited "Error"/"" and undefined status and detail |
| CustomErrors.CustomError.constructor | src/helper/CustomError.js:2-16 | the new object's fields are those of `Create`; a rejected argument leaves every own field unset |
| Errors.BadRequest | src/helper/Errors.js:17-24 | an absent name or message defaults to 'BadRequest' / 'Invalid request', status is 400 and detail is passed through; a non-string name or message yields no status |
| Errors.InvalidParam | src/helper/Errors.js:26-31 | 400 'BadRequest' 'Invalid parameter' whose detail is the argument, whatever its type |
| Errors.ParamMissing | src/helper/Errors.js:33-39 | 400 'ParamMissing' carrying the message (default 'Invalid request') and detail; a non-string message yields no status |
| Errors.ServerError | src/helper/Errors.js:41-43 | 500 'ServerError' 'Internal Server Error' with a falsy detail |
| Errors.NotFound | src/helper/Errors.js:45-47 | 404 'NotFound' carrying the message, with a falsy detail; a non-string message yields no status |
| Errors.MissingEnvelope | src/helper/Errors.js:33-39 | (definition, no contract) the envelope `paramMissing(m)` produces: 400 'ParamMissing' with message `m` and no detail; `Errors.HelperEnvelopes` proves `sendError` builds it |
| Errors.InvalidEnvelope | src/helper/Errors.js:26-31 | (definition, no contract) the envelope `invalidParam(m)` produces: 400 'BadRequest' 'Invalid parameter' with detail `m`; `Errors.HelperEnvelopes` proves `sendError` builds it |
| Errors.SendError | src/helper/Errors.js:49-64 | HTTP status equals the body status; status, code and message are the error's when truthy, else 500 / 'ServerError' / 'Internal Server Error'; the detail key is present if and only if the detail is truthy |
| Errors.HelperEnvelopeStatuses | src/helper/Errors.js:13-64 | for all arguments, every helper's envelope status is 400, 404 or 500 |
| Errors.HelperEnvelopes | src/helper/Errors.js:17-64 | the exact envelopes the routes and validators send for non-empty messages |
| Errors.EmptyNotFoundMessage | src/helper/Errors.js:45-64 | `notFound('')` keeps 404 but its falsy message falls back to 'Internal Server Error' |
| Errors.UnauthorizedError | src/app.js:29 | the intended 401 'Unauthorized' helper, whose status no existing helper can produce (see Findings) |
| Validate.ValidateContractId | src/middleware/validate.js:3-14 | passes if and only if the id is truthy and not NaN; a missing id gets the 'Contract id is missing' ParamMissing envelope, a NaN id the 'Contract id should be a number' Invalid parameter envelope |
| Validate.ValidateJobId | src/middleware/validate.js:37-48 | the same chain with the 'Job id …' messages |
| Validate.ValidateUserId | src/middleware/validate.js:50-61 | the same chain with the 'User id …' messages |
| Validate.ValidateAmountToDeposit | src/middleware/validate.js:63-74 | the same chain with the 'Amount …' messages; a negative number passes |
| Validate.ValidateStartAndEndDates | src/middleware/validate.js:16-35 | passes if and only if both dates are present, both parse, and start is not after end; each failure sends its own message in that order |
| Validate.PresentAndNumericRejectsWith400 | src/middleware/validate.js:3-14 | the presence-then-numeric chain only ever sends a 400 |
| Validate.DatesRejectWith400 | src/middleware/validate.js:16-35 | the date validator only ever sends a 400 |
| Validate.ValidatorsRejectWith400 | src/middleware/validate.js:1-74 | every response a validator sends has HTTP status 400 |
| Entities.FindProfile | src/services/ContractService.js:138 | `findOne` by id: a found profile is in the table with that id; none is found if and only if no row has that id |
| Entities.FindContract | src/app.js:60 | the same for contracts |
| Entities.FindJob | src/services/ContractService.js:111-114 | the same for jobs |
| Entities.RoleOf | src/services/ContractService.js:19 | (definition, no contract) a `contractor` joins its contracts on `ContractorId`, every other type on `ClientId`; its effect is stated by `ContractService.ActiveContracts` and `ContractService.NonTerminatedContracts` |
| Entities.ProfileIndexAfterIdPreservingUpdate | src/services/ContractService.js:135-138 | an update that keeps every row's id keeps the position `findOne` finds each id at, so the contractor read after the debit finds the same row |
| Entities.JobIndexAfterIdPreservingUpdate | src/services/ContractService.js:142 | the same for the jobs table: marking a job paid keeps where every job id is found |
| Entities.SetBalance | src/services/ContractService.js:135-139 | (definition, no contract) `update({balance: v})` on the row with the id; its effects are stated by `Entities.SetBalanceTotal`, `Store.SetBalanceKeepsIds` and `Store.SetBalanceKeepsUnique` |
| Entities.MarkPaid | src/services/ContractService.js:142 | (definition, no contract) `job.update({paid: true, paymentDate: now})` on the job's row; its effects are stated by `Store.MarkPaidKeepsIds` and `App.PayMovesPrice` |
| Entities.SetBalanceTotal | src/services/ContractService.js:135-139 | writing a balance to a stored id moves the sum of balances by the new value minus the old one |
| Entities.StoredProfileLookup | src/services/ContractService.js:135 | with unique ids, looking a stored profile up by its id finds that profile, so the instance update writes the caller's own row |
| Entities.TotalBalanceUpdate | src/services/ContractService.js:135-139 | rewriting one row changes the sum of balances by exactly that row's difference |
| Grouping.IndexOfKey | src/services/ContractService.js:225 | finds the entry holding a key; none if and only if the key is absent |
| Grouping.Add | src/services/ContractService.js:225-229 | adding `(k, t)` keeps keys distinct, adds `k` to the keys, raises the sum for `k` by `t` and no other, and raises the total by `t` |
| Grouping.GroupSum | src/services/ContractService.js:220-230 | distinct keys, the same key set as the input, the input's sum for every key, the same grand total |
| Grouping.GroupSumEntries | src/services/ContractService.js:220-230 | each grouped entry's total is the input's sum for its key |
| Grouping.SortDesc | src/app.js:261 | same length, descending by total, a permutation of the input |
| Grouping.SortDescKeys | src/app.js:261 | sorting keeps the key set |
| Grouping.SortDescDistinct | src/app.js:261 | sorting keeps keys distinct |
| Grouping.SortDescMembers | src/app.js:261 | every sorted entry is an input entry |
| Grouping.SortDescTotals | src/services/ContractService.js:261-263 | a total that is a function of its key stays so after sorting |
| Grouping.HeadIsMaximal | src/app.js:261-262 | the first sorted entry has the largest total |
| ContractService.ContractsOnSide | src/services/ContractService.js:19-33 | exactly the contracts whose selected side is the profile and whose status is allowed |
| ContractService.ContractsForProfile | src/services/ContractService.js:13-42 | c is returned if and only if the profile has a row, c is stored, c's side selected by the profile's type is the profile, and c's status is allowed |
| ContractService.ActiveContracts | src/services/ContractService.js:13-42 | c is returned if and only if the profile exists, c is `in_progress`, and the profile is c's contractor (for a contractor) or client (otherwise) |
| ContractService.NonTerminatedContracts | src/services/ContractService.js:49-78 | the same with `in_progress` or `new`; no terminated contract is returned |
| ContractService.ContractIds | src/app.js:104-106 | the ids of the contracts, position by position |
| ContractService.UnpaidJobs | src/services/ContractService.js:86-103 | j is returned if and only if it is unpaid and its contract id is listed; an empty list gives `[]` |
| ContractService.SumPrices | src/app.js:214-216 | (definition, no contract) the left fold `reduce((acc, job) => acc + job.price, 0)`; its bounds are `ContractService.SumPricesBounds` |
| ContractService.SumPricesBounds | src/app.js:214-216 | with no negative price, the sum is not negative and is at least every price it adds |
| ContractService.JobAndContract | src/services/ContractService.js:110-122 | none if and only if no job has the id; otherwise that job, with the contract of its `ContractId` or none if no contract has that id |
| ContractService.Settle | src/services/ContractService.js:131-144 | the transaction aborts if and only if no profile is the contractor; a commit leaves contracts and table sizes unchanged |
| ContractService.SettleExits | src/services/ContractService.js:131-144 | the transaction's two exits: no contractor row after the debit aborts; otherwise the books hold the credited contractor and the job marked paid |
| ContractService.SettleProfiles | src/services/ContractService.js:135-139 | on commit, the profile table is the debited table with the contractor, read after the debit, credited by the amount |
| ContractService.SettleTransfers | src/services/ContractService.js:131-144 | with distinct client and contractor rows, the client is debited by the amount, the contractor credited by it, the job marked paid at `now`, every other row unchanged |
| ContractService.SettleAliased | src/services/ContractService.js:135-139 | when client and contractor are one profile, its balance ends where it started |
| ContractService.SettleConserves | src/services/ContractService.js:133-143 | a committed settlement keeps the sum of all balances |
| ContractService.DebitThenCredit | src/services/ContractService.js:135-139 | debiting a row and then crediting a row looked up afterwards keeps the sum of balances |
| ContractService.InWindow | src/services/ContractService.js:164-170 | (definition, no contract) a counted job: paid, created strictly between start and end, with a joined contract; the reports built on it are `ContractService.GroupedWindow` and its neighbours |
| ContractService.WindowPayments | src/services/ContractService.js:156-174 | every entry is a counted job's party and price; every counted job's party appears |
| ContractService.WindowPaymentsSum | src/services/ContractService.js:156-174 | the per-key sum of the window entries equals the reference sum `PaidInWindow` |
| ContractService.GroupedWindow | src/services/ContractService.js:156-174 | distinct keys; a key appears if and only if that profile has a counted job; each total is the reference sum; empty if and only if no job is counted |
| ContractService.GroupPaymentsByContractor | src/services/ContractService.js:153-177 | the contractor grouping with the properties of `GroupedWindow` |
| ContractService.GroupPaymentsByClient | src/services/ContractService.js:242-267 | descending by total, distinct keys, keys exactly the paying clients, empty if and only if no job is counted, a permutation of the unsorted grouping |
| ContractService.ClientTotals | src/services/ContractService.js:243-259 | each client row holds exactly what that client paid in the window |
| ContractService.ByProfession | src/services/ContractService.js:220-224 | each row re-keyed by its contractor's profession, totals kept |
| ContractService.ProfilesWithIds | src/services/ContractService.js:205-212 | looking up any requested id in the result finds what the full table finds; only requested stored profiles are returned |
| ContractService.GroupPaymentsByProfession | src/services/ContractService.js:185-233 | non-array or empty input gives `{}`; with every contractor resolved, the grouped sums by profession; otherwise it fails naming a row's unresolved contractor id |
| ContractService.AccumulateByProfession | src/services/ContractService.js:219-230 | the loop's result is the grouped sums by profession, or a failure at an unresolved contractor id |
| ContractService.AccumulateProfession | src/services/ContractService.js:225-229 | one step, including the overwrite of a falsy running total, equals `Add` |
| ContractService.ByProfessionTotal | src/services/ContractService.js:185-233 | the professions' totals add up to the contractors' totals |
| ContractService.AddClientDetailsToPayments | src/services/ContractService.js:275-285 | succeeds if and only if every client id has a profile; then each entry gains `firstName + ' ' + lastName`; ids, totals and order unchanged |
| ContractService.FullName | src/services/ContractService.js:279 | (definition, no contract) `${firstName} ${lastName}`; `App.Enriched` and `ContractService.AddClientDetailsToPayments` state where it is written |
| App.ContractById | src/app.js:54-82 | 'No contract found with the given id' if and only if no contract has the id; the contract is returned if and only if the caller is its party on the caller's side; otherwise unauthorized |
| App.UnpaidJobsForProfile | src/app.js:101-119 | j is returned if and only if it is stored, unpaid, and under one of the caller's active contracts |
| App.PayCheck | src/app.js:124-173 | accepted if and only if the payer is a client, the job and its contract exist, the payer is the contract's client, balance >= price, the contract is in progress and the job is unpaid |
| App.PayRejectsInOrder | src/app.js:129-173 | each rejection (unauthorized, the two not-founds, unauthorized, insufficient balance, terminated, already paid) happens exactly when all earlier checks pass |
| App.PayAcceptsExactBalance | src/app.js:158-161 | a balance equal to the price is accepted |
| App.PayConserves | src/app.js:124-182 | any pay request keeps the total of all balances; a refused one changes nothing |
| App.PayMovesPrice | src/app.js:124-182 | an accepted payment to a distinct contractor moves exactly the job's price and marks only that job paid |
| App.PayTwiceRejected | src/app.js:170-173 | after a successful payment, no pay request for the same job succeeds, whoever sends it |
| App.PayOutcome | src/app.js:124-182 | accepted only if `PayCheck` accepts; a refusal of `PayCheck` is sent as is; after the checks pass, a server error if and only if no profile is the contract's contractor (the transaction's rollback) |
| App.AfterPay | src/app.js:124-182 | the contracts and the sizes of the tables are unchanged; when the outcome is not a success, the books are untouched |
| App.DepositCheck | src/app.js:185-222 | accepted if and only if the caller is the user, is a client, and 4 * amount <= the unpaid total; otherwise unauthorized or the 25% message |
| App.UnpaidTotal | src/app.js:201-216 | (definition, no contract) the sum of the prices of the unpaid jobs under the caller's active contracts; its bounds are `App.UnpaidTotalBounds` |
| App.UnpaidTotalBounds | src/app.js:201-216 | zero without an active contract; with no negative price, not negative and at least each counted unpaid job's price |
| App.DepositIdentityBeforeReads | src/app.js:191-199 | a wrong user or a contractor is refused whatever the books and the amount |
| App.DepositCapEdges | src/app.js:219-222 | exactly 25% is accepted; with nothing unpaid every positive amount is refused |
| App.DepositCredits | src/app.js:225 | an accepted deposit raises the caller's row by exactly the amount; nothing else changes |
| App.AfterDeposit | src/app.js:225 | contracts and jobs unchanged, the profile table the same size; a refused deposit leaves the books untouched |
| App.PickBestProfession | src/app.js:259-262 | the chosen profession has an entry whose total is at least every other entry's |
| App.BestProfession | src/app.js:237-269 | 'No jobs found for the given time range' if and only if no contractor row exists; a server error if a contractor is unresolved; otherwise a profession with the largest grouped total |
| App.LimitOrDefault | src/app.js:275 | (definition, no contract) the `limit = 2` destructuring default; used by `App.BestClients`, whose contract states the default |
| App.Take | src/app.js:293 | `slice(0, end)` for non-negative and negative ends |
| App.Enriched | src/services/ContractService.js:277-282 | each client row with its full name |
| App.NameClients | src/app.js:289-290 | named rows if and only if every client resolves |
| App.TakeDescending | src/app.js:293 | a prefix of the descending rows is descending |
| App.BestClients | src/app.js:274-298 | not found if and only if no client row exists; a server error if a client is unresolved; otherwise the first `limit` (default 2) named rows, descending |
| App.RespondIntended | src/helper/Errors.js:41-64 | unauthorized → 401, not found → 404, bad request → 400, server error → 500 |
| App.RespondAsWritten | src/app.js:129-133 | as written, an unauthorized rejection gives a 500 envelope inside a `try` and no response outside one; other rejections as intended |
| App.UnauthorizedAsWritten | src/app.js:129-199 | a contractor paying is answered 500 instead of 401, and a contractor depositing gets no answer |
| Store.Ledger.MakePaymentForJob | src/services/ContractService.js:131-144 | the tables become exactly `Settle` of the old tables on commit, and stay as they were on rollback |
| Store.Ledger.Pay | src/app.js:124-182 | the outcome is `PayOutcome` and the new tables `AfterPay` of the old tables; ids stay unique |
| Store.Ledger.Deposit | src/app.js:185-232 | the outcome is `DepositCheck` and the new tables `AfterDeposit` of the old tables; ids stay unique |
| Store.SettleKeepsUnique | src/services/ContractService.js:131-144 | a committed settlement keeps every table's ids in place, so they stay unique |
| Store.DepositKeepsUnique | src/app.js:225 | an accepted or refused deposit keeps the ids unique |

## Left out

- HTTP and Express: routing, middleware chaining, `res.json` bodies of the
  successes, and `console` logging. The validators and the route logic are
  modelled separately, and the caller and parameters are given as values.
- The health-check route (src/app.js:34-49): it checks that the database
  file exists and that `SELECT 1` succeeds, and answers 500 when either
  fails. The file system and the database connection are outside the model.
- The `/contracts/` route (src/app.js:87-96) has no member of its own. It
  returns `ContractService.NonTerminatedContracts`.
- src/middleware/getProfile.js is not part of this model: the caller's
  profile is a parameter. Its own `unauthorizedError()` call has the same
  defect as in Findings.
- Sequelize joins and SQL: the queries are functions over the tables.
  `findOne` returns the first row with the id. A failing query is not
  modelled: each route's catch-all `serverError()` (for example
  src/app.js:77-80) answers 500 when a query rejects, and no table read or
  write fails in the model.
- `ContractService.GroupPaymentsByContractor`: the database's row order for
  `GROUP BY` is unspecified. The model lists groups in order of each group's
  first counted job.
- `ContractService.GroupPaymentsByClient`: the order among equal totals of
  `ORDER BY totalPaid DESC` is the database's. The model's order is one
  admissible choice. The contract of `GroupPaymentsByClient` itself does not
  depend on it (descending, a permutation of the grouping).
- `App.BestClients`: its exact result follows the model's order among equal
  totals. When equal totals straddle the `limit` cut, the contract names one
  specific subset, while the source's subset depends on the database. The
  not-found and server-error cases, and the fact that the result is a
  descending prefix, do not depend on the order.
- Chunking by five and `async.mapLimit` concurrency: with unique ids, the
  order of the fetched profiles does not affect the lookup.
- `ContractService.GroupPaymentsByProfession`, `ContractService.AddClientDetailsToPayments`:
  the model assumes a defined concurrency limit and computes the intended
  lookups. As written, src/config/env/production.js:7 exports
  `concurrenctTasks`, so `concurrentTasks` (src/services/ContractService.js:6)
  is `undefined`. Both `async.mapLimit` calls (src/services/ContractService.js:203
  and 277) then get an undefined limit. The async library is not part of this
  model; with such a limit its loop guard `running < limit` is false, so no
  lookup starts, and the best-profession and best-clients routes do not
  compute what these members compute.
- `addClientDetailsToPayments` fetches client names concurrently. When a
  client is missing, the entries named before the failure are not observable
  in the model. The route answers 500 either way.
- Floating point: money is an integer. `amount > total * 0.25` is
  `4 * amount > total`, which is exact on integers.
- `Validate.ValidateContractId`, `Validate.ValidateJobId`,
  `Validate.ValidateUserId`, `Validate.ValidateAmountToDeposit`: JavaScript's
  `isNaN` coercion is a parameter, not modelled.
- `Validate.ValidateStartAndEndDates`: `Date.parse` is a parameter, and
  `new Date(s)` is assumed to parse the same way.
- `App.DepositCheck`, `Store.Ledger.Deposit`: a string amount is not
  modelled. In the source, `profile.balance + amount` would then concatenate.
- `App.BestClients`: a non-numeric `limit` query string is not modelled. The
  source's `slice` would coerce it.
- Profession keys live in a plain object. These behaviours of such objects
  are not modelled:
  - inherited property names such as `constructor` are truthy;
  - `Object.entries` lists integer-like keys first.
- `CustomErrors.Create`: the extra constructor arguments passed to `Error`
  (src/helper/CustomError.js:3) and `Error.captureStackTrace` are not
  modelled. When an argument is rejected, the first extra argument would
  become the own `message`. No helper in src/helper/Errors.js passes extra
  arguments, so this cannot be observed through the core.
- `App.RespondIntended`, `Errors.UnauthorizedError`: the corrected 401
  carries the fixed message 'Unauthorized'. The pay route passes its own message
  at src/app.js:153 ('You are not elligible to pay for this job'), and
  `App.Outcome.Unauthorized` does not carry it.
- `ERROR_STRINGS` (src/helper/Errors.js:1-11) is exported but unused by the
  core.
- `Store.Ledger.MakePaymentForJob`: the contractor lookup passes the
  transaction as an ignored second argument
  (src/services/ContractService.js:138), so it runs outside the transaction.
  Whether it sees the uncommitted debit depends on the database setup, and
  src/model is not part of this model. The model fixes one order: the read
  sees the debit already made. If the read instead sees only committed data,
  an aliased client and contractor ends at its old balance plus the amount.
- `ContractService.SettleAliased`: holds for the modelled debit-then-read
  order only. Under a read of committed data, the aliased profile would gain
  the amount instead of ending where it started.
- `App.PayConserves`: its aliased case (client and contractor one profile)
  holds for the modelled order only. Under a read of committed data, that
  payment would raise the total of balances by the amount.
- Concurrent requests are not modelled. Two racing pay or deposit requests
  could both pass the checks against stale profile snapshots.
- `Date.now()` is the parameter `now`.

## Findings

| source | as written | input that shows it | evidently intended | confidence | as-written member | corrected member |
|---|---|---|---|---|---|---|
| src/app.js:29 | `unauthorizedError` is imported from src/helper/Errors.js, whose exports (src/helper/Errors.js:66-74) do not include it. Every call throws a TypeError: inside a `try` the route answers 500, and in the deposit route's identity checks (src/app.js:191-199), outside any `try`, no response is sent | a contractor profile posting to `/jobs/1/pay`, or to `/balances/deposit/<its own id>` | a 401 Unauthorized envelope | high; not executed | App.RespondAsWritten, App.UnauthorizedAsWritten | Errors.UnauthorizedError, App.RespondIntended |
