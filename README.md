# Spare-parts stock workflow, modelled in Dafny

The application is a parts inventory with a small workflow behind its views:

- staff raise USAGE or PURCHASE requests;
- an administrator approves or rejects them;
- a stock adjustment modal sets a part's stock directly and checks no role;
- administrators change other users' roles and active flags;
- a route middleware keeps signed-out visitors and non-administrators out of the admin sections.

Every handler awaits one or two calls on a hosted database, and the model treats each table as an in-memory store:

- `parts` and `stock_requests` are maps keyed by id;
- `stock_history` is an append-only sequence;
- `users` is a map.

The database itself is not modelled. Each awaited call is an atomic write that either takes effect or replies with an error and changes nothing (`Types.Reply`), and its reply is an input of the operation. An `update(...).eq('id', x)` that matches no row changes nothing and is not an error.

Each handler appears twice:

- a pure transition function on the value `Types.Tables`, whose contract states ordering, failure behaviour and frame conditions;
- a method over the mutable `Store.Database` class, which makes the calls in the order the source makes them (with its early exits) and whose contract makes the new state and result exactly those of the function.

The `Ledger` module reads `stock_history` as a ledger for `current_stock` and proves when the operations keep it reconciled and when they break it.

Files:

- `types.dfy`: rows of the four tables.
- `store.dfy`: column updates and the database class.
- `stock_management.dfy`: direct stock adjustment.
- `request_details.dfy`: request resolution.
- `create_request.dfy`: request creation.
- `auth.dfy`: route decision.
- `users.dfy`: guarded user updates.
- `ledger.dfy`: history as a ledger.

What the code does, as opposed to what a careful design would want, is kept as it is:

- Stock is never checked for a lower bound.
- An approval writes the request's status first and then overwrites the part's stock with a value computed from the snapshot (plus or minus the quantity), once the status write has gone through.
- An approval writes no history row.
- Nothing is rolled back.
- The adjustment modal ignores the reply of the history insert.
- New stock is always computed from the row the view was opened with, never from a fresh read.

The lemmas `DecreaseCanGoNegative`, `UsageApprovalCanGoNegative`, `ApprovalBreaksLedger`, `LostHistoryRowBreaksLedger`, `StaleSnapshotBreaksLedger`, `LaterApprovalOverwritesEarlier` and `StaleViewReversesApproval` state these gaps as proved facts about the model. The desired ledger invariant appears only as lemmas with explicit requires: `AdjustKeepsLedger` and `RunFreshKeepsLedger` assume a current snapshot, which the source never checks, as `SnapshotCurrent` and `RunFresh`'s fresh reads say.

Three inputs are preconditions rather than checks, because the source leaves them to its callers:

- The admin/pending gate on the approve and reject buttons is the requires of `RequestDetails.HandleAction`. It reads the view's status, not the stored row's.
- The browser's form validation (a part must be chosen, the quantity must be at least 1) is the requires of `CreateRequest.HandleSubmit`.
- The database-generated key of a new request is assumed fresh.

Role and status changes keep their own guard, modelled as written: `Users.ChangeRole` and `Users.ChangeStatus` refuse a non-admin acting role. As written, src/components/Users/UserManagement.tsx:93-95 renders only the admin-only message unless `currentUserRole` is 'admin', so the component's own table never reaches the `Refused` branch. The guard matters only to a caller that reaches the handlers another way.

The stock adjustment modal renders no inputs (src/components/Parts/StockManagement.tsx:53 is a placeholder), so its own UI could only submit the initial state, a zero-unit increase (`InitialFormAdjustsNothing`). The model takes the form state as an unconstrained input, so its contracts also cover whatever UI is added to it.

Field names are camel-cased (`current_stock` is `currentStock`). `stock_history.type` is `kind`, because `type` is a Dafny keyword.

## Model

| member | source | states |
|---|---|---|
| Types.RoleName | src/types.ts:25 | the role column's text is 'admin' exactly for the administrator role |
| Types.HistoryTypeName | src/types.ts:34 | `stock_history.type` holds one of 'INCREASE' and 'DECREASE', and 'INCREASE' exactly for the increase tag |
| Store.WithStock | src/components/Parts/StockManagement.tsx:28-31 | updating `current_stock` by id keeps the key set, changes only that field of only the matching row, and does nothing when no row matches |
| Store.WithStatus | src/components/Requests/RequestDetailsModal.tsx:43-46 | updating `status` by id changes only that field of only the matching request |
| Store.WithRole | src/components/Users/UserManagement.tsx:59-62 | updating `role` by id changes only that field of only the matching user |
| Store.WithActive | src/components/Users/UserManagement.tsx:79-82 | updating `active` by id changes only that field of only the matching user |
| Store.Database.UpdatePartStock | src/components/Requests/RequestDetailsModal.tsx:55-58 | one parts update: applied when the reply is Ok, no change on an error, the reply returned |
| Store.Database.UpdateRequestStatus | src/components/Requests/RequestDetailsModal.tsx:43-46 | one status update: applied on Ok, no change on an error |
| Store.Database.InsertHistory | src/components/Parts/StockManagement.tsx:36-41 | one history insert: the row appended on Ok, no change on an error |
| Store.Database.InsertRequest | src/components/Requests/CreateRequestModal.tsx:46-54 | one request insert under a fresh key: added on Ok, no change on an error |
| Store.Database.UpdateUserRole | src/components/Users/UserManagement.tsx:59-62 | one role update: applied on Ok, no change on an error |
| Store.Database.UpdateUserActive | src/components/Users/UserManagement.tsx:79-82 | one active-flag update: applied on Ok, no change on an error |
| StockManagement.UpperChar | src/components/Parts/StockManagement.tsx:39 | upper-casing maps a-z to A-Z and leaves other characters alone |
| StockManagement.Upper | src/components/Parts/StockManagement.tsx:39 | upper-casing a string keeps its length and upper-cases each character |
| StockManagement.HistoryTag | src/components/Parts/StockManagement.tsx:39 | the logged type is the upper-cased adjustment type: 'increase' gives INCREASE, 'decrease' gives DECREASE |
| StockManagement.SignedQuantity | src/components/Parts/StockManagement.tsx:38 | the logged delta is plus or minus the quantity, and for a positive quantity its sign agrees with the adjustment type and with the INCREASE/DECREASE tag |
| StockManagement.NewStock | src/components/Parts/StockManagement.tsx:24-26 | new stock minus the snapshot's stock is exactly the logged delta; for a non-negative quantity an increase never lowers and a decrease never raises stock |
| StockManagement.Adjust | src/components/Parts/StockManagement.tsx:19-51 | a failed parts update changes nothing and reports failure; otherwise exactly the part `part.id` is set to snapshot plus delta, success is reported even if the history insert fails, the history grows by one row (part, delta, tag, actor) exactly when both writes went through, and that row's delta equals the stock change; requests and users are untouched |
| StockManagement.HandleSubmit | src/components/Parts/StockManagement.tsx:19-51 | the handler's parts update, early exit and unchecked history insert leave the tables and the result exactly as `Adjust` says |
| StockManagement.DecreaseCanGoNegative | src/components/Parts/StockManagement.tsx:24-26 | a decrease of 15 on stock 10 is applied and leaves stock -5: no non-negativity check |
| StockManagement.NegativeIncreaseMislabelled | src/components/Parts/StockManagement.tsx:38-39 | given a negative quantity, which no current UI produces, the handler logs an INCREASE row with a negative delta |
| StockManagement.KindName | src/components/Parts/StockManagement.tsx:16 | the `type` state holds 'increase' or 'decrease', and 'increase' exactly for an increase |
| StockManagement.HistoryRow | src/components/Parts/StockManagement.tsx:36-41 | the inserted history row names the part and the acting user, logs exactly the change the parts update makes to the snapshot, and carries the upper-cased adjustment type |
| StockManagement.InitialFormAdjustsNothing | src/components/Parts/StockManagement.tsx:15-16 | the initial state (`useState(0)`, 'increase'), the only one the modal's own UI can submit, keeps the stock at the snapshot and logs a zero-unit INCREASE row for the actor |
| RequestDetails.ActionsOffered | src/components/Requests/RequestDetailsModal.tsx:113 | the approve and reject buttons are offered exactly to an 'admin' role on a view whose status is neither approved nor rejected |
| RequestDetails.DecisionStatus | src/components/Requests/RequestDetailsModal.tsx:40-45 | the written status is never pending, and it is approved exactly for an approval |
| RequestDetails.ApprovedStock | src/components/Requests/RequestDetailsModal.tsx:51-53 | PURCHASE gives snapshot stock plus quantity, USAGE gives snapshot stock minus quantity, with no lower bound |
| RequestDetails.Resolve | src/components/Requests/RequestDetailsModal.tsx:40-70 | a failed status write changes nothing; otherwise only the request's status is written, and it stays even if the stock write then fails (no rollback); parts change only on an approval whose two writes succeed, and then only the request's part, set from the snapshot; history and users never change; success is reported exactly when every attempted write succeeded |
| RequestDetails.HandleAction | src/components/Requests/RequestDetailsModal.tsx:40-70 | offered only to an admin on a pending view, the handler's status write, early exit and stock write leave the tables and the result exactly as `Resolve` says |
| RequestDetails.UsageApprovalCanGoNegative | src/components/Requests/RequestDetailsModal.tsx:51-53 | approving USAGE of 3 against stock 2 succeeds and leaves stock -1 |
| RequestDetails.LaterApprovalOverwritesEarlier | src/components/Requests/RequestDetailsModal.tsx:51-58 | of two approvals for one part the second write wins: the final stock is the second view's value alone, and for a non-zero first quantity it is never that value plus the first approval's change |
| RequestDetails.ReapprovalChangesNothing | src/components/Requests/RequestDetailsModal.tsx:43-58 | approving again from the same view rewrites the same status and stock, so the tables stay as after the first approval |
| RequestDetails.StaleViewReversesApproval | src/components/Requests/RequestDetailsModal.tsx:113 | the pending gate reads the fetched view, so an approved request can then be rejected from a stale view while its stock change remains |
| Ledger.NetDeltaAppend | src/types.ts:30-39 | appending a history row adds its delta to the part's logged total and nothing to any other part's |
| Ledger.AdjustKeepsLedger | src/components/Parts/StockManagement.tsx:24-41 | an adjustment from an up-to-date snapshot whose writes both succeed keeps every part's stock equal to its opening stock plus its logged deltas |
| Ledger.LostHistoryRowBreaksLedger | src/components/Parts/StockManagement.tsx:36-41 | from an up-to-date snapshot and for a non-zero quantity, when the unchecked history insert fails after the parts update, stock and history no longer reconcile |
| Ledger.StaleSnapshotBreaksLedger | src/components/Parts/StockManagement.tsx:24-26 | an adjustment from a snapshot that is out of date breaks the reconciliation even when both writes succeed |
| Ledger.ApprovalBreaksLedger | src/components/Requests/RequestDetailsModal.tsx:50-61 | from an up-to-date snapshot, a successful approval of a non-zero quantity changes stock without a history row, so stock and history no longer reconcile |
| Ledger.ResolutionWithoutStockWriteKeepsLedger | src/components/Requests/RequestDetailsModal.tsx:43-50 | a rejection or a failed write touches neither parts nor history, so the reconciliation is kept |
| Ledger.RunFresh | src/components/Parts/StockManagement.tsx:19-51 | a run of successful adjustments keeps the set of parts and only extends the history |
| Ledger.RunFreshKeepsLedger | src/components/Parts/StockManagement.tsx:19-51 | every run of up-to-date adjustments whose writes succeed keeps stock and history reconciled |
| Ledger.RunFreshNetChangeIsLogged | src/components/Parts/StockManagement.tsx:24-41 | after such a run, each part's net stock change equals the sum of the deltas logged for it |
| CreateRequest.Submit | src/components/Requests/CreateRequestModal.tsx:41-64 | a failed insert changes nothing; a successful one adds exactly one row under the new key, which is pending, has the user as requester and copies part, quantity and type from the form; existing rows and the other tables are untouched |
| CreateRequest.HandleSubmit | src/components/Requests/CreateRequestModal.tsx:41-64 | run only on a form the browser lets through, the handler's single insert leaves the tables and the result exactly as `Submit` says |
| CreateRequest.DefaultFormNeedsAPart | src/components/Requests/CreateRequestModal.tsx:17-21 | the default form `DefaultRequestForm` (no part, quantity 1, USAGE) cannot be submitted until a part is chosen, and can be once one is |
| CreateRequest.Submittable | src/components/Requests/CreateRequestModal.tsx:91-114 | the browser lets the form submit exactly when a non-empty part id is selected (never the placeholder's '') and the quantity is at least 1 |
| CreateRequest.NewRequestRow | src/components/Requests/CreateRequestModal.tsx:48-54 | the inserted request carries the form's part, quantity and type, the requester's id and the status 'pending' |
| CreateRequest.RequestsStayWellFormed | src/components/Requests/CreateRequestModal.tsx:109-114 | with the `min="1"` and required-part validation, creating and resolving requests keep every request naming a part with quantity at least 1 |
| Auth.StartsWith | src/middleware/auth.ts:20 | `startsWith` holds exactly when the prefix fits in the path and agrees with it character by character |
| Auth.IsAdminRow | src/middleware/auth.ts:27 | the row counts as an admin's exactly when it exists and its role text is 'admin'; a missing row does not |
| Auth.AnyPrefix | src/middleware/auth.ts:20 | `some(startsWith)` holds exactly when some listed prefix starts the path |
| Auth.IsAdminOnly | src/middleware/auth.ts:19-20 | a path is admin-only exactly when it starts with '/admin' or '/reports' |
| Auth.Decide | src/middleware/auth.ts:5-33 | no session redirects to the login page whatever the path and role; a signed-in user on an admin-only prefix whose row is missing or not an admin's is redirected to the dashboard; everyone else passes |
| Auth.RoleMattersOnlyOnAdminPaths | src/middleware/auth.ts:19-30 | off the admin-only paths the role lookup cannot change the decision |
| Auth.PrefixMatchIsLoose | src/middleware/auth.ts:20 | '/administrator', '/reports-x' and '/admin/users' count as admin-only; '/dashboard' and '/users/admin' do not |
| Users.ChangeRole | src/components/Users/UserManagement.tsx:52-70 | a non-admin acting role is refused and changes nothing; for an admin, a failed update changes nothing, a successful one sets the role of exactly that user and touches no other table |
| Users.ChangeStatus | src/components/Users/UserManagement.tsx:72-91 | a non-admin acting role is refused and changes nothing; for an admin, a failed update changes nothing, a successful one sets the active flag of exactly that user |
| Users.UserManagement.constructor | src/components/Users/UserManagement.tsx:17 | the component starts with the empty role |
| Users.UserManagement.GetCurrentUserRole | src/components/Users/UserManagement.tsx:24-36 | the role is set from the signed-in user's row when there is one, and kept otherwise |
| Users.UserManagement.HandleRoleChange | src/components/Users/UserManagement.tsx:52-70 | the guard, the single update and its error path leave the tables and the result exactly as `ChangeRole` says for the current role |
| Users.UserManagement.HandleStatusChange | src/components/Users/UserManagement.tsx:72-91 | the guard, the single update and its error path leave the tables and the result exactly as `ChangeStatus` says for the current role |
| Users.NonAdminChangesNothing | src/components/Users/UserManagement.tsx:52-56 | with the initial empty role or the 'user' role, every role and status change is refused and leaves the tables as they were |

## Left out

- Rendering, modal open/close state, `alert`, `console.error`, translations and the list reloads after a change (`fetchUsers`, `onSuccess`): UI. Only whether success or an error was reported is modelled.
- The database client and authentication: each call is an atomic write whose reply, and the session user `auth.getUser()` returns, are inputs. Keys and timestamps generated by the database (`id`, `created_at`) are inputs or left out. Join fields (`parts?`, `users?`) are left out.
- Concurrency between overlapping awaited calls: operations are applied one after another. Interleaving is modelled only as stale snapshots, which `LaterApprovalOverwritesEarlier` and `StaleSnapshotBreaksLedger` cover.
- JavaScript numbers: stock and quantities are unbounded integers. Floating point and `NaN` (for instance from `parseInt` on an empty quantity) are not modelled.
- The caller of the request modal, src/pages/requests/index.tsx, is not part of this model. Its list query (line 55) selects only `name` and `code` of the part, so at run time `request.parts.current_stock` would be missing. The model takes the snapshot stock as given.
- `fetchParts` in the request modal, which only fills the part select.
- The middleware's `config.matcher`: framework routing.
- Who may open the stock adjustment modal: the modal takes no role and checks none, and the page that would mount it is not part of this model, so `StockManagement.Adjust` applies to any caller.
- StockManagement.Adjust: the form state is an unconstrained input, because the modal's UI is unimplemented and as written could submit only `InitialForm`; the contract therefore covers quantities and kinds no current UI produces.
- StockManagement.UpperChar: models `toUpperCase` for ASCII only, because the only strings it is applied to are 'increase' and 'decrease'.
- Low-stock filters, backup/restore, report export, registration and the other views are outside the modelled workflow.
