# LatentDB kernel: a verified model

LatentDB's kernel is a multi-tenant, permission-checked object store. Records of configurable
object types live in tenants; every service call passes one access decision, reads some tables,
and commits at most one transaction that carries its audit event. Workflows move records between
states, some moves through an approval and a task. On top sit lists, reports, a migration planner
with an onboarding session, a login limiter, credentials, and two similarity kernels.

This project models that behaviour in Dafny and proves what holds of single calls, of pairs of
calls and of whole runs.

## How it is organised

| files | content |
|---|---|
| `Values`, `Contracts`, `Definitions` | JSON values, string order, fields, types, grants, workflows, paging; the checks a definition passes before it is stored |
| `Rbac` | the access decision, field permissions and projection |
| `Sorting`, `ReadPath`, `Analytics` | the comparator and the stable sort; selection, projection, paging; aggregation and grouping |
| `Store` | the tables as one value, the transactions, and what committing one does |
| `Services` | what each service call decides: a transaction and a reply, the specification of the next |
| `KernelService` | class `Kernel`: the calls as they run, on tables updated in place, each method proved to commit exactly the transaction `Services` decides and to give its reply |
| `Machine`, `Lawful` | runs of calls by any tenants; what every committed transaction is guaranteed to be |
| `TenantPurge`, `AuditReplay`, `WorkflowHistory`, `ApprovalBooks`, `ApprovalDrift`, `SchemaInvariant`, `AccessControl` | theorems over all runs |
| `Entitlement`, `Confinement` | what a grant takes in, spelled out on the stored values; what a caller's grants confine it to and open to it, call by call |
| `FieldRules`, `Filtering`, `Aggregates` | what creates and updates store and refuse; what clauses, searches and sorts do to lists; what the numbers and groups of a report say of the stored values |
| `ListAgreement`, `ReportIndependence`, `CallAgreement` | theorems relating calls and stores |
| `Planner`, `PlannerProofs`, `Onboarding` | the migration planner's loops and their specification; conservation and exactness; the onboarding session |
| `Limiter`, `Credentials`, `IdentityService`, `CredentialRuns`, `LoginBound`, `Passwords` | class `LoginLimiter`; tenants, users, sessions and API keys; class `Identity`; theorems over runs; what a login proves and who may administer |
| `Cosine` | the similarity kernels over exact reals, what their scores say, and ranking |

Code that changes things step by step is a class with methods or a method with loops, proved
against a specification function; the theorems are about those functions.

## Assumptions

- A service call is atomic and reads the clock once. In the code `decide_approval` reads the
  approval before its transaction opens, and `login` checks the limiter well before it records a
  failure.
- Ids and secrets are inputs of each call. Where a theorem needs them not to repeat it says so
  (`FreshRun`, `FreshSecrets`). Token hashes are compared as values.
- Object types, workflows, roles and flags do not change during a run of record calls; the two
  definition checks (`Definitions`) supply what `ConfigValid` asks of them.
- Floats are exact reals with two infinities, timestamps integers, strings code-point sequences.
  Lower-casing, trimming, RFC 3339 recognition, JSON rendering, password hashing, token hashing
  and the square root are parameters.
- Rows created in the same instant keep insertion order under `ORDER BY created_at DESC`.
- The library sort is a stable insertion sort; `Sorting.StableSortIsUnique` shows that the choice
  of algorithm does not matter wherever the comparator is an order.

## Where the code and its documentation differ

The model follows the code.

- `crates/kernel/src/transition.rs:3-5` says that transitions are the only way a state changes and
  that every move is declared from the current state. Approvals move the record too, without
  looking at its current state. Whether that breaks the promise can be read off the workflow. Take
  the edges a request can take, that is, for each state and key the first transition declared. If
  records of the type can be made at all, some run moves one along no such edge if and only if some
  gated edge s to t has s reachable from the initial state and some state reachable from s has no
  edge to t
  (`ApprovalDrift.ApprovalsStrayExactlyWhenDriftProne`). In a workflow where no transition shadows
  another the same holds of declared transitions
  (`ApprovalDrift.UndeclaredStepsExactlyWhenDriftProne`). With shadowed ones reachability is not
  enough (`ApprovalDrift.ShadowsNeedWalks`), and
  `ApprovalDrift.UndeclaredStepsExactlyWhenWalksLeave` gives the condition for every workflow.
- `crates/kernel/src/analytics.rs:3-5` says a report can never surface a value the caller could not
  see. A value that the caller cannot see decides what a report says in two ways. Filters run before
  projection, so a filter on a hidden field shows in the count
  (`ReportIndependence.FiltersReachHiddenFields`). And where a grant for reading tests the field, by
  the owner scope or by a condition, the field decides which records count
  (`ReportIndependence.OwnScopesShowOwnerFields`, `ReportIndependence.ConditionsShowTheirFields`).
  There is no third: reports that do not filter by a hidden field are independent of it if and only
  if no access decision that a report can tell turns on it
  (`ReportIndependence.ReportsIgnoreExactlyWhenAccessDoes`), which is so of every field that no grant
  for reading the type tests (`ReportIndependence.UntestedFieldsAreIgnored`).
- the repository's own `README.md:32` gives the login limit as ten failures in fifteen minutes.
  Windows are fixed, not sliding, so nineteen fit into any shorter span and twenty into a span of
  exactly fifteen minutes; `Limiter.NineteenAreReached` and `Limiter.TwentyAreReached` show both are
  reached. Ten is right for failures among which no new window opens, as in the fifteen minutes
  counted from a failure that opens one: `Limiter.TenPerWindow`.
- `crates/kernel/src/rbac.rs:142-146` lets unrestricted fields through because the actor already
  holds the action. Create and update project their reply by the grants for reading, and there the
  actor need not hold it: whoever may update a record has all its unrestricted fields from an empty
  update, whether or not it may read the record (`AccessControl.EmptyUpdatesShowRecords`).
- `crates/contracts/src/page.rs:31-36` makes any offset from 0 up legal, but the list then adds the
  limit to it in 64 bits. It fails exactly when that sum leaves the range:
  `ListAgreement.ListsSliceTheWhole`.
- `crates/kernel/src/migration.rs:169-172` provides for a switch from a booted session to a selected
  one. It is never taken in a reachable session: `Onboarding.SwitchingKeepsStatus`.
- `crates/kernel/src/record.rs:598-613` compares mixed types as equal, so sorting by a field is
  consistent exactly when its values are of one kind: `Sorting.PreorderExactlyWhenHomogeneous`.
- `crates/accel/src/compute.rs:36-38` calls the optimized batch equivalent to the baseline. It is,
  row by row, exactly when the query has only zeros beyond the row's length or the two are
  orthogonal over the shared length: `Cosine.RowAgreesExactly`.

## Model

| member | source | states |
|---|---|---|
| Contracts.FieldOf | crates/contracts/src/object.rs:36-38 | a field with the key, and none exactly when no field has it |
| Contracts.FieldOfIsFirst | crates/contracts/src/object.rs:36-38 | a field with no earlier one of its key is the one found |
| Contracts.TransitionFrom | crates/contracts/src/workflow.rs:60-64 | a transition with the key out of the state, and none exactly when there is no such transition |
| Contracts.TransitionFromIsFirst | crates/contracts/src/workflow.rs:60-64 | a transition with no earlier one of its source and key is the one found |
| Contracts.AvailableFrom | crates/contracts/src/workflow.rs:67-72 | exactly the declared transitions that leave the state |
| Contracts.AvailableKeepsOrder | crates/contracts/src/workflow.rs:67-72 | each of them stands once, behind those declared before it and ahead of those declared after |
| Contracts.Clamped | crates/contracts/src/page.rs:31-36 | the limit in 1..500 and the offset from 0 up that are nearest to those asked for |
| Contracts.OwnerCandidates | crates/contracts/src/record.rs:56-64 | the loop collects exactly the actors that own the record |
| Definitions.ValidateObjectType | crates/kernel/src/object.rs:139-171 | accepts exactly the definitions with a key, distinct non-blank field keys and sound fields |
| Definitions.ValidateWorkflow | crates/kernel/src/workflow.rs:129-149 | accepts exactly the named workflows whose initial state and edges lie within the declared states |
| Rbac.LoadGrants | crates/kernel/src/rbac.rs:254-281 | the loop over role rows collects the actor's effective grants |
| Rbac.GrantsComeFromOwnRoles | crates/kernel/src/rbac.rs:254-281 | a grant is in force exactly when a role row of the actor's own tenant, held by the actor, carries it |
| Rbac.Applicable | crates/kernel/src/rbac.rs:234-251 | exactly the grants that authorize the action on the record |
| Rbac.Project | crates/contracts/src/record.rs:68-77 | the record is unchanged but for its data, which keeps exactly the permitted fields and their values |
| Entitlement.AuthorizedExactlyWhenEntitled | crates/kernel/src/rbac.rs:169-207 | access goes exactly to the system, platform admins, and holders of a grant of their own tenant whose action, resource, scope and conditions, each spelled out on the values, take the request in |
| KernelService.Kernel.SearchGrants | crates/kernel/src/rbac.rs:212-230 | the search over grants decides the access predicate |
| KernelService.Kernel.Authorize | crates/kernel/src/rbac.rs:169-207 | allows exactly the authorized, whom Entitlement.AuthorizedExactlyWhenEntitled spells out, and writes nothing; otherwise audits one denial |
| KernelService.Kernel.AuditDenial | crates/kernel/src/audit.rs:145-163 | appends exactly the denial event |
| KernelService.Kernel.ApplyFieldEdits | crates/kernel/src/record.rs:187-209 | the field loop stops at the first unknown, system or forbidden field and otherwise leaves the edited data |
| KernelService.Kernel.ValidateAgainstType | crates/kernel/src/record.rs:580-589 | accepts exactly data whose every declared field, present or absent, fits, which FieldRules.CreatesExactly and UpdatesExactly spell out on the values |
| KernelService.Kernel.CreateRecord | crates/kernel/src/record.rs:42-141 | Forbidden with one denial, NotFound for an unknown type, Validation, Forbidden for a restricted field, Conflict, or the row with defaults, edits and initial state stored with its event and replied as projected |
| KernelService.Kernel.GetRecord | crates/kernel/src/record.rs:144-160 | NotFound, Forbidden with one denial, or the projected record; no row changes |
| KernelService.Kernel.UpdateRecord | crates/kernel/src/record.rs:164-245 | the same refusals, or the edited data and update time stored with an event that carries the data before and after |
| KernelService.Kernel.SetLifecycle | crates/kernel/src/record.rs:264-301 | NotFound, Forbidden with one denial, or lifecycle, archive time and update time replaced with the archive or restore event |
| KernelService.Kernel.ListRecords | crates/kernel/src/record.rs:304-380 | the retain, sort, reverse and slice steps give the specified page of projected rows with the total, or the refusal; Filtering.ClausesNarrow and SearchesNarrow say on the stored values which rows stay |
| KernelService.Kernel.Relate | crates/kernel/src/record.rs:383-433 | both ends must load, the source be relatable and the target readable; then one edge row unless the same edge exists, and one event |
| KernelService.Kernel.GetRelations | crates/kernel/src/record.rs:437-482 | NotFound, Forbidden with one denial, or the record's edges as seen from its end |
| KernelService.Kernel.ScanRecords | crates/kernel/src/record.rs:487-537 | the scan's loops give the specified projected rows, archived ones included if asked for, or the refusal |
| KernelService.Kernel.RunReportDef | crates/kernel/src/analytics.rs:180-228 | the bucket and summary loops give the specified report over the scanned rows, or the scan's refusal |
| KernelService.Kernel.AvailableTransitions | crates/kernel/src/transition.rs:31-54 | NotFound, Forbidden with one denial, or the transitions out of the record's state, none without a workflow |
| KernelService.Kernel.TransitionRecord | crates/kernel/src/transition.rs:57-179 | NotFound, no workflow or no edge, Forbidden by the guard, or: an ungated edge moves the record, a gated one files approval, task and request event together |
| KernelService.Kernel.GetApproval | crates/kernel/src/approval.rs:62-76 | Forbidden with one denial before any lookup, NotFound, or the tenant's approval |
| KernelService.Kernel.DecideApproval | crates/kernel/src/approval.rs:94-186 | a pending approval is decided once, by no requester under separation of duties; record, approval, linked tasks and event change together |
| KernelService.Kernel.CloseTasksForApproval | crates/kernel/src/task.rs:197-208 | row by row: the tenant's tasks linked to the approval get the status and the time and keep the rest, every other task stays as it is, and none comes or goes |
| KernelService.Kernel.CreateTask | crates/kernel/src/task.rs:59-95 | Forbidden with one denial, Conflict, or the open task stored with its event |
| KernelService.Kernel.GetTask | crates/kernel/src/task.rs:97-119 | NotFound, Forbidden with one denial for those neither broad readers, assignee nor creator, or the task |
| KernelService.Kernel.CompleteTask | crates/kernel/src/task.rs:159-193 | only to done or cancelled, only from open or in progress, only by those who see it; then status and event change together |
| ReadPath.RetainInStages | crates/kernel/src/record.rs:323-347 | permission, search and filter clauses applied one after the other keep exactly the rows that pass all of them, in order |
| Sorting.PreorderExactlyWhenHomogeneous | crates/kernel/src/record.rs:598-613 | the comparator is transitive exactly when the present values are all numbers, all strings, or all tied |
| Sorting.SortIsStable | crates/kernel/src/record.rs:349-355 | wherever the comparator is an order, the sort is an ordered rearrangement that keeps ties in place |
| Sorting.StableSortIsUnique | crates/kernel/src/record.rs:349-355 | any routine with that contract returns the same sequence |
| ListAgreement.SortedListsAreStable | crates/kernel/src/record.rs:349-355 | over values of one kind a list is the stable ordered rearrangement of the rows it keeps, those without the field first, and descending is its exact reverse |
| ListAgreement.PagesConcatenate | crates/kernel/src/record.rs:357-380 | for every page size 1 to 500 successive pages concatenate to the whole filtered, sorted and projected list |
| ListAgreement.ScanIsTheWholeList | crates/kernel/src/record.rs:487-537 | the pages of an unsorted list, for every page size, concatenate to what a scan with the same filters replies |
| ListAgreement.ListsSliceTheWhole | crates/kernel/src/record.rs:357-380 | whatever page is asked for, the reply is the clamped page's slice of the whole list with its length, and fails only when offset plus limit leaves the 64-bit range |
| ListAgreement.ListedItemsAreGettable | crates/kernel/src/record.rs:144-160 | every listed item can be fetched with exactly the same projected content |
| ListAgreement.ScannedItemsAreGettable | crates/kernel/src/record.rs:487-537 | so can every scanned record |
| ListAgreement.ListsExactlyTheGettable | crates/kernel/src/record.rs:304-380 | an unfiltered list within the scan bound has a row for an id exactly when that active record can be fetched |
| ListAgreement.ListedOnce | crates/kernel/src/record.rs:304-380 | no record is listed twice |
| Filtering.UnfilteredListsAreTheGettable | crates/kernel/src/record.rs:304-380 | without clauses and search the pages have exactly the records of the type, active or any as asked, that the caller can fetch |
| Filtering.ClausesNarrow | crates/kernel/src/record.rs:340-347 | one clause more leaves exactly the listed, and exactly the scanned, records whose stored value stands to its bound as its operator says |
| Filtering.NumericClauses | crates/kernel/src/rbac.rs:126-137 | the four order clauses keep exactly the records whose number is above, at least, below or at most the bound |
| Filtering.NumericScans | crates/kernel/src/record.rs:516-523 | the same of scans |
| Filtering.NumericClausesSplit | crates/kernel/src/rbac.rs:126-137 | above and at most split the records with a number, as do below and at least, and raising a bound only takes from what is above it |
| Filtering.OtherClauses | crates/kernel/src/rbac.rs:117-125 | equal, different, one of a list, text contained and item contained keep exactly what they say |
| Filtering.SearchesNarrow | crates/kernel/src/record.rs:336-339 | a search keeps exactly the records with a text that has the needle in it, case-folded; an empty one all |
| Filtering.SortedListsAscend | crates/kernel/src/record.rs:598-613 | an ascending list runs from smaller to greater numbers, from first to last text in code-point order, records without a value first, or from old to new |
| Filtering.UnsortedListsAreNewestFirst | crates/kernel/src/record.rs:315-322 | a list without a sort runs from new to old |
| Filtering.TheCutKeepsTheNewest | crates/kernel/src/record.rs:315-322 | of more than 5000 candidates those left out are no newer than those kept |
| Filtering.ArchivedRecordsLeaveTheLists | crates/kernel/src/record.rs:247-301 | an archived record is off the lists that do not ask for archived ones, and back on them when restored |
| ReportIndependence.ReportsIgnoreHiddenData | crates/kernel/src/analytics.rs:180-228 | stores that differ in any number of fields hidden from the caller, and not named by owner, condition or filter, give the same scan and the same report |
| ReportIndependence.ScansIgnoreExactlyWhenAccessDoes | crates/kernel/src/record.rs:487-537 | scans that do not filter by a hidden field are independent of it if and only if no access decision on the type's records turns on it: who is read, or which other fields are seen |
| ReportIndependence.ReportsIgnoreExactlyWhenAccessDoes | crates/kernel/src/analytics.rs:180-228 | reports that do not filter by a hidden field are independent of it if and only if no decision turns on it as to which unarchived records are read and which of their numbers and group keys are seen |
| ReportIndependence.UntestedFieldsAreIgnored | crates/kernel/src/rbac.rs:234-251 | scans and reports are independent of a hidden field that no grant for reading the type tests |
| ReportIndependence.OwnScopesShowOwnerFields | crates/contracts/src/record.rs:56-64 | with grants limited to own records the count tells whether a hidden owner field names the caller |
| ReportIndependence.ConditionsShowTheirFields | crates/kernel/src/rbac.rs:234-251 | with grants under one condition the count tells whether a hidden field meets it |
| ReportIndependence.FiltersReachHiddenFields | crates/kernel/src/record.rs:516-523 | a filter on any field whatever makes the count depend on it |
| Analytics.FillBuckets | crates/kernel/src/analytics.rs:190-205 | the bucket loop builds the grouping |
| Analytics.GroupsPartition | crates/kernel/src/analytics.rs:190-205 | buckets have strictly increasing keys, hold only rows of their key, and together hold every row once |
| Analytics.GroupedReportAgrees | crates/kernel/src/analytics.rs:185-227 | bucket counts add up to the sample size, sums to the ungrouped sum, and the extremes of the extremes are the ungrouped ones, empty buckets included |
| Analytics.ExtremesAreExtreme | crates/kernel/src/analytics.rs:340-341 | the folds return a bound that some value attains, or the far infinity for no values |
| Analytics.AverageLiesBetween | crates/kernel/src/analytics.rs:333-339 | an average of at least one value lies between the least and the greatest |
| Aggregates.SumsAddWhatIsBrought | crates/kernel/src/analytics.rs:323-353 | a count counts all records; a sum starts at zero and each record adds its number, one for true, nothing for false or any other value |
| Aggregates.AveragesTimesCountAreSums | crates/kernel/src/analytics.rs:333-339 | an average times the number of records that bring a number is the sum, and zero if none does |
| Aggregates.ExtremesAreBrought | crates/kernel/src/analytics.rs:340-341 | the least and the greatest are stored in some record and bound them all, or are the far infinities |
| Aggregates.ReportsSampleTheScanned | crates/kernel/src/analytics.rs:180-190 | a report samples exactly the unarchived records a scan shows its caller, each once |
| Aggregates.GroupsAreByValue | crates/kernel/src/analytics.rs:190-205 | groups hold exactly the records of their text, of no value, or of a value that renders as their key, and none is left out |
| CallAgreement.WritesReadBack | crates/kernel/src/record.rs:144-245 | what create and update reply is what a permitted reader of the record then gets |
| CallAgreement.RestoreUndoesArchive | crates/kernel/src/record.rs:247-301 | restoring an archived record gives back every field but the update time |
| CallAgreement.OfferedExactlyWhenTakable | crates/kernel/src/transition.rs:31-54 | a transition key is offered exactly when asking for it does not fail for want of an edge |
| CallAgreement.RequestsAreFiled | crates/kernel/src/approval.rs:40-76 | a gated transition leaves records alone and files a fetchable pending approval that names exactly the replied move, its key and its policy |
| CallAgreement.MovesAreLogged | crates/kernel/src/transition.rs:94-179 | every move is stored and logged with its reason and both states; a requested one is logged with its approval, and its open task names that and the transition |
| CallAgreement.TasksReadBack | crates/kernel/src/task.rs:59-121 | a task made is open and logged, and reads back as asked for to its maker and its assignee |
| CallAgreement.TasksFinishOnce | crates/kernel/src/task.rs:159-193 | whoever can fetch a task can finish it exactly once, as done or cancelled; it keeps all but status and update time, and the event tells both statuses |
| CallAgreement.RelationsShowFromBothEnds | crates/kernel/src/record.rs:383-482 | a relation made is logged at its source and shows outgoing from its source and incoming at its target |
| CallAgreement.RelatingAgainAddsNothing | crates/kernel/src/record.rs:408-414 | making a relation again adds no row |
| CallAgreement.RelationsAreExact | crates/kernel/src/record.rs:437-482 | the edges replied are exactly the tenant's relations that start or end at the record, seen from its end |
| Machine.RefusalsWriteOnlyDenials | crates/kernel/src/audit.rs:145-163 | a failed call leaves every table alone, and logs one denial exactly when it lacked permission |
| Lawful.EditsTouchOnlyEditable | crates/kernel/src/record.rs:187-209 | applied edits change only declared, non-system fields they name and the editor may write |
| Lawful.EveryCallIsLawful | crates/kernel/src/record.rs:42-576 | whatever is asked, the committed transaction keeps to the tenant, the schema rules, the declared edges and the approval it decides |
| AccessControl.EveryWriteIsPermitted | crates/kernel/src/lib.rs:10 | every write had its permission on the row as it was: the action, the guard of a declared transition, approval rights without self-approval, or sight of the task |
| AccessControl.MutationsAreAudited | crates/kernel/src/lib.rs:11-12 | in every run a call either leaves all tables alone or appends exactly one event, in its caller's tenant, organization and name and at its time |
| AccessControl.NothingHiddenIsShown | crates/kernel/src/record.rs:558-575 | every record any call replies with is the stored one with exactly its unrestricted fields and those that a grant taking in the read lists as allowed or does not list as denied; only create and update reply to a caller who may not read it, with just the unrestricted fields |
| AccessControl.EmptyUpdatesShowRecords | crates/kernel/src/record.rs:164-245 | in every run, whoever may update a record has its unrestricted fields from an empty update |
| Confinement.ScopesConfine | crates/kernel/src/rbac.rs:68-86 | a caller whose grants for an action all have one scope neither gets nor replaces by it a record of another organization, of another workspace, or of someone else; with platform scope, none |
| Confinement.OtherActionsOpenNothing | crates/kernel/src/rbac.rs:61-63 | without a grant for the action or for everything, none is got or replaced by it |
| Confinement.OtherResourcesOpenNothing | crates/contracts/src/permission.rs:111-119 | without a grant whose resource is the type's, or a beginning of it with a star, none is got, updated, archived or restored |
| Confinement.ScopesReach | crates/contracts/src/permission.rs:111-119 | a grant without conditions, for the action or for everything, on the type by name or by a beginning with a star, opens every record of its scope to be fetched, archived and restored |
| Confinement.GetsGoExactlyToTheEntitled | crates/kernel/src/record.rs:144-160 | a get replies with the record to the entitled and refuses the others with one denial |
| Confinement.ForbiddenExactlyWhenLacking | crates/kernel/src/rbac.rs:169-207 | every call is refused as forbidden exactly when its caller lacks the action it asks for on the resource and record it asks it for, field denials of create and update apart |
| FieldRules.StoredValuesObeyTheirTypes | crates/contracts/src/field.rs:146-224 | in every run, required fields have a value, choices are among their options, money is a 64-bit integer, and numbers, flags, dates, date-times, texts and references are what they are called |
| FieldRules.CreatesExactly | crates/kernel/src/record.rs:42-141 | an entitled create fails at its first unknown, system or forbidden field, else exactly when the finished record breaks the rule of a field, and else stores exactly the values given last and the defaults |
| FieldRules.UpdatesExactly | crates/kernel/src/record.rs:164-245 | the same of an update, which clears fields set to null and leaves the unnamed ones |
| SchemaInvariant.StoredDataAlwaysLawful | crates/kernel/src/record.rs:53-81 | in every run, stored keys are declared, every declared field fits or may be absent, and system fields hold exactly their default |
| SchemaInvariant.OnlyPermittedUpdatesChangeFields | crates/kernel/src/record.rs:187-209 | a stored field changes only through an authorized update of that record that names it and whose grants permit it |
| AuditReplay.AuditRebuildsRecords | crates/kernel/src/audit.rs:89-134 | folding a tenant's log from empty rebuilds every record's data, lifecycle and workflow state |
| AuditReplay.BeforesAreReplayed | crates/kernel/src/record.rs:211-240 | each update and transition event's before equals the replayed value just before it |
| WorkflowHistory.WorkflowMovesAreDeclared | crates/kernel/src/transition.rs:79-118 | each step of a record's history is an ungated edge that a request can take, or leads to the target of a gated one out of an earlier state; all states are declared |
| WorkflowHistory.UnmovedApprovalsFollowTheirEdge | crates/kernel/src/approval.rs:136-157 | approving moves the record to the requested target and logs the state it left; from the state the request found it in, that is a gated edge a request can take |
| ApprovalDrift.HistoriesAreExactlyTheWalks | crates/kernel/src/transition.rs:79-118 | if records of the type can be made, the state histories that occur in runs are exactly the walks of the workflow |
| ApprovalDrift.ApprovalsStrayExactlyWhenDriftProne | crates/kernel/src/approval.rs:136-143 | some run moves a record along no edge if and only if some gated edge s to t has s reachable and some state reachable from s has no edge to t |
| ApprovalDrift.UndeclaredStepsExactlyWhenDriftProne | crates/kernel/src/approval.rs:136-143 | without shadowed transitions, the same of moves and transitions as declared |
| ApprovalDrift.UndeclaredStepsExactlyWhenWalksLeave | crates/kernel/src/approval.rs:136-143 | in any workflow, some run makes an undeclared move if and only if a walk visits a gated edge's source and ends in a state without a declared transition to its target |
| ApprovalDrift.ShadowsNeedWalks | crates/contracts/src/workflow.rs:60-64 | with shadowed transitions reachability does not decide it: a workflow in which a walk leaves although every reachable state declares the target |
| ApprovalBooks.ApprovalsAgreeWithLogAndTasks | crates/kernel/src/approval.rs:105-180 | each approval has one request event and one engine task; approved, rejected and pending fix the transition and reject events and the task's status |
| ApprovalBooks.DecidedIsFinal | crates/kernel/src/approval.rs:101-110 | no later call changes a decided approval or its task's status |
| ApprovalBooks.DecisionsHaveDeciders | crates/kernel/src/approval.rs:105-125 | every decision was made by a call of its decider, whose time and reason it keeps, and with separation of duties a deciding requester was a trusted actor |
| TenantPurge.OtherTenantsAreInvisible | crates/kernel/src/lib.rs:8-9 | a tenant's rows, audit events and replies in any interleaved run are those of the run without the other tenants' calls |
| Planner.BuildFieldMappings | crates/kernel/src/migration.rs:392-477 | the two loops build the mappings and append one conflict per problem, in order |
| Planner.BuildPlan | crates/kernel/src/migration.rs:479-600 | the object loops with their counters and conflicts build the specified plan |
| PlannerProofs.PlanConservesRecords | crates/kernel/src/migration.rs:479-628 | with unique keys, record counts add up to the source total, the two-sided ones to the mappable and target totals, the source-only ones to the unmapped total |
| PlannerProofs.PlanCoversEachObjectOnce | crates/kernel/src/migration.rs:495-575 | the mappings have one entry per key in the union of both sides |
| PlannerProofs.EachFieldMappedOnce | crates/kernel/src/migration.rs:392-477 | every target field and every source field appears in exactly one mapping |
| PlannerProofs.MappingsPairByKey | crates/kernel/src/migration.rs:392-477 | two-sided mappings pair equal keys and one-sided ones have no partner; types are those of the fields, and the status says exactly how types and the target's requirement compare |
| PlannerProofs.ConflictsAreTheProblems | crates/kernel/src/migration.rs:495-589 | the number of conflicts is the number of problem mappings of matched objects plus unmapped objects |
| PlannerProofs.NoConflictsExactlyWhenAllFits | crates/kernel/src/migration.rs:495-589 | there is no conflict exactly when every old object and field has a same-key, same-type home and no required target field is missing |
| PlannerProofs.ConflictsAreTrue | crates/kernel/src/migration.rs:392-589 | a plan has a conflict exactly when it holds of the two systems, with its kind, object and field: types that differ, a required field without a source, a field without a home, an object without a target |
| PlannerProofs.SnapshotsAreTheSystems | crates/kernel/src/migration.rs:368-628 | the snapshots list each side's objects in order with labels, field keys and record counts |
| PlannerProofs.CountsAreTheInventory | crates/kernel/src/migration.rs:495-575 | every mapping of an old object carries the inventory's count for its key, every other none |
| PlannerProofs.SummariesCount | crates/kernel/src/migration.rs:590-628 | the summary counts the objects of both sides, and as mapped the keys they share |
| Onboarding.Migration.StartMigration | crates/kernel/src/migration.rs:41-102 | writes the session row the upsert does, keeping the active system and last report of an old one |
| Onboarding.Migration.SelectTargetSystem | crates/kernel/src/migration.rs:115-147 | stores the target and status, or refuses |
| Onboarding.Migration.SetActiveSystem | crates/kernel/src/migration.rs:153-195 | re-points the session, or refuses without a target |
| Onboarding.Migration.PlanMigration | crates/kernel/src/migration.rs:198-215 | the plan for the stored target, or the reason there is none |
| Onboarding.Migration.GenerateAndStoreReport | crates/kernel/src/migration.rs:252-301 | stores the report it replies with and marks the session reported |
| Onboarding.Migration.MigrationReport | crates/kernel/src/migration.rs:221-229 | Forbidden, no session, or the stored report for the system asked for |
| Onboarding.Migration.LogoutMigrationOutput | crates/kernel/src/migration.rs:235-246 | the report for the active system, if a session exists |
| Onboarding.SessionsAreConsistent | crates/kernel/src/migration.rs:58-85 | in every run booted means no target, selected means a target, reported means a report, and a stored target is a known template |
| Onboarding.SwitchingKeepsStatus | crates/kernel/src/migration.rs:162-183 | in a reachable session switching systems changes nothing but the active system and the update time |
| Onboarding.ReportsPlanExactlyWithTarget | crates/kernel/src/migration.rs:630-718 | a report carries a plan exactly when it is for the selected system and a target is stored, and it is that target's plan; the summary is the plan's, or counts every record as unmapped |
| Onboarding.SessionsRemember | crates/kernel/src/migration.rs:41-300 | in every run a tenant has a session once started, holding the last target named, system made active and report replied, and the inventory of the last start |
| Onboarding.ReachableExactlyWhenPossible | crates/kernel/src/migration.rs:58-278 | a session shape is reachable exactly when it meets those conditions |
| Onboarding.OnboardingIsForTheEntitled | crates/kernel/src/migration.rs:41-246 | a call is refused as forbidden exactly when its caller may not configure or read the migration, or the types where it needs them; it then changes nothing, and no call changes another tenant's session |
| Limiter.LoginLimiter.IsLocked | crates/kernel/src/ratelimit.rs:31-44 | answers from the live window and drops a stale one |
| Limiter.LoginLimiter.RecordFailure | crates/kernel/src/ratelimit.rs:47-60 | counts the failure in the live window or opens a new one |
| Limiter.LoginLimiter.Reset | crates/kernel/src/ratelimit.rs:63-66 | forgets the key |
| Limiter.LoginLimiter.Prune | crates/kernel/src/ratelimit.rs:70-73 | keeps exactly the windows that are not stale |
| Limiter.AnswersComeFromOwnHistory | crates/kernel/src/ratelimit.rs:31-73 | pruning, lock checks and other keys change no answer, wherever they occur |
| Limiter.StateIsTheHistory | crates/kernel/src/ratelimit.rs:47-60 | the live window is a function of the key's failure times since it was cleared |
| Limiter.BruteForceBound | crates/kernel/src/auth.rs:62-73 | without a success in between, at most 20 failures of a key are recorded in any window's length and at most 19 in less |
| Limiter.TenPerWindow | crates/kernel/src/ratelimit.rs:14-60 | ten is the bound for failures among which no new window opens, and for less than a window's length from a failure that opens one |
| Limiter.NineteenAreReached | crates/kernel/src/ratelimit.rs:14-60 | nineteen within one nanosecond do occur |
| Limiter.TwentyAreReached | crates/kernel/src/ratelimit.rs:14-60 | twenty exactly one window apart do occur |
| LoginBound.LimiterFollowsTheRun | crates/kernel/src/auth.rs:62-142 | in every run of identity calls the limiter's table and a key's refused logins are those of the attempts it saw |
| LoginBound.GuessesAreBounded | crates/kernel/src/auth.rs:62-142 | in every run, between two good logins for a tenant and email, at most 20 passwords are refused in any fifteen minutes and at most 19 in less |
| Passwords.LoginsProveWhoTheyAre | crates/kernel/src/auth.rs:54-202 | in every run a login is locked out exactly while ten failures are on record, else refused exactly when no active user of an active tenant of that slug and email has a hash the password passes, else answered with a session for that user |
| Passwords.AccountsWereMade | crates/kernel/src/identity.rs:90-140 | every stored user was made by an accepted call and keeps its tenant, its valid normalized email and the hash of a strong password |
| Passwords.OnlyTheSetPasswordOpens | crates/kernel/src/auth.rs:129-142 | a login that succeeds brought a password that passes against the hash of the one the account was made with |
| Passwords.NewAccountsLogIn | crates/kernel/src/auth.rs:54-202 | whoever was just made an account logs in with its password, unless locked out, and as no one else |
| Passwords.NewKeysOpen | crates/kernel/src/identity.rs:252-320 | a new key opens at once, in an active tenant, as the principal it names with just its roles |
| Passwords.ActiveAsLastSwitched | crates/kernel/src/identity.rs:325-369 | in every run users and tenants are active exactly unless their last accepted switch was to something else |
| Passwords.AdministrationIsForTheEntitled | crates/kernel/src/identity.rs:90-412 | an administrative call is refused as forbidden exactly when its caller lacks what it asks for, and writes only into its caller's tenant |
| Passwords.RolesAreGivenOut | crates/kernel/src/identity.rs:90-412 | an accepted call adds exactly the roles it gives out, and no call takes one away |
| IdentityService.Identity.BootstrapTenant | crates/kernel/src/tenant.rs:53-150 | inserts tenant, organization, admin and role, or refuses as a whole |
| IdentityService.Identity.CreateUser | crates/kernel/src/identity.rs:90-140 | inserts the user and role rows, or refuses as a whole |
| IdentityService.Identity.CreateService | crates/kernel/src/identity.rs:373-412 | the same for a service account |
| IdentityService.Identity.AssignRole | crates/kernel/src/identity.rs:174-203 | stores the assignment once, or refuses |
| IdentityService.Identity.CreateKey | crates/kernel/src/identity.rs:252-320 | stores a key for an active principal of the caller's tenant, or refuses |
| IdentityService.Identity.SetUserStatus | crates/kernel/src/identity.rs:325-369 | sets the status and, when disabling, revokes the user's sessions |
| IdentityService.Identity.SetTenantStatus | crates/kernel/src/tenant.rs:235-285 | sets the tenant's status for trusted callers only |
| IdentityService.Identity.Login | crates/kernel/src/auth.rs:54-202 | the limiter, the lookups and the password decide between lockout, a counted failure and a session, as Passwords.LoginsProveWhoTheyAre spells out |
| IdentityService.Identity.Authenticate | crates/kernel/src/auth.rs:207-342 | builds the caller's context from a live session or key, or refuses |
| IdentityService.Identity.Logout | crates/kernel/src/auth.rs:349-379 | revokes the session and names the scope whose report is due |
| IdentityService.Identity.RevokeSessionsForUser | crates/kernel/src/auth.rs:456-470 | revokes exactly the user's sessions and counts those that were live |
| IdentityService.Identity.RunHousekeeping | crates/kernel/src/auth.rs:474-482 | deletes exactly the revoked and expired sessions, and prunes the limiter |
| CredentialRuns.ApiKeysBelongToTheirTenant | crates/kernel/src/identity.rs:261-285 | every stored key's principal is a row of the key's tenant in the table its type names |
| CredentialRuns.AuthenticatedActorsAreGenuine | crates/kernel/src/auth.rs:221-342 | an authenticated actor is an active row of the named active tenant, with exactly its assigned roles, and platform rights only through a session |
| CredentialRuns.SessionTokensWorkExactlyWhileHeld | crates/kernel/src/auth.rs:221-275 | a session token works exactly from the login that issued it until expiry, logout, revocation or disabling, while user and tenant are active |
| CredentialRuns.ApiKeysWorkExactlyWhilePrincipalsDo | crates/kernel/src/auth.rs:277-342 | a key works exactly while its tenant and principal are active |
| CredentialRuns.DisabledSessionsStayDead | crates/kernel/src/identity.rs:364-367 | no session issued before a user was disabled authenticates as that user again, even after re-activation |
| CredentialRuns.DisabledUsersAreShutOut | crates/kernel/src/auth.rs:299-319 | until re-activation neither token nor login authenticates a disabled user |
| CredentialRuns.SuspendedTenantsAuthenticateNothing | crates/kernel/src/auth.rs:437-452 | no credential of a suspended tenant works |
| CredentialRuns.HousekeepingIsUnobservable | crates/kernel/src/auth.rs:474-482 | purging changes no later login, authentication or administration reply |
| CredentialRuns.PurgesTakeTheExpired | crates/kernel/src/auth.rs:474-482 | in every run housekeeping takes away, besides revoked sessions, exactly those that had expired by a purge |
| CredentialRuns.LogoutsSeePurges | crates/kernel/src/auth.rs:349-371 | housekeeping changes a logout's reply exactly when the session was held, never revoked and had expired by a purge |
| CredentialRuns.RevokesSeePurges | crates/kernel/src/auth.rs:456-470 | housekeeping changes a revoke's count exactly when the user has such a session |
| Cosine.CosineBaseline | crates/accel/src/compute.rs:11-26 | the accumulating loop computes the number that both roots take to the dot product, or zero |
| Cosine.BatchOptimized | crates/accel/src/compute.rs:39-68 | the fast loop computes that number for every row, with the query's whole norm |
| Cosine.CauchySchwarz | crates/accel/src/compute.rs:12-20 | the accumulated dot product squared is at most the product of the accumulated norms |
| Cosine.ScoresFollowTheDot | crates/accel/src/compute.rs:11-68 | a score has the sign of the dot product, and its square times the norms is the dot product squared |
| Cosine.ScalingKeepsScores | crates/accel/src/compute.rs:11-68 | positive factors on either vector leave every score as it is |
| Cosine.SelfScoresOne | crates/accel/src/compute.rs:11-68 | a nonzero vector scores one with itself and minus one with its opposite |
| Cosine.ScoresAreBounded | crates/accel/src/compute.rs:11-68 | both kernels score within [-1, 1] for all vectors |
| Cosine.RowAgreesExactly | crates/accel/src/compute.rs:36-68 | the fast score equals the reference exactly when the query is zero beyond the row or orthogonal to it |
| Cosine.BatchesAgreeOnLongRows | crates/accel/src/compute.rs:29-68 | with rows at least as long as the query the batches are equal, zero vectors included |
| Cosine.TopK | crates/accel/src/compute.rs:71-80 | the true scores in rank order, as many as asked for, ahead of everything left out |
| Cosine.TopKIsUnique | crates/accel/src/compute.rs:71-80 | any two lists that meet that description are equal |

## Left out

- Storage, wire format and HTTP: SQLite, row decoding, JSON serialisation, the router, headers and the user interface.
- Argon2, SHA-256, random tokens and ids: parameters and supplied values.
- AI providers, agents and retrieval, built-in modules, builder templates and usage metering.
- Concurrency inside one call, floating-point rounding and NaN.
- The event outbox, `last_used_at`, request ids, sources, client and AI metadata and risk scores of audit rows; audit rows of identity, onboarding and definition calls.
- Where an onboarding call's object types and active record counts come from: they are inputs of the call.
- Error texts, report notes, plan details and labels that no decision reads.
- `list_tasks`, `list_pending_approvals`, `audit_query`, saved reports, dashboards and the listings of users, roles, tenants and organizations.
- Changing types, workflows and roles during a run; the model fixes them, so migrations of stored data are out of scope.
- An id clash of relation rows, which the insert ignores like a repeated edge.
- The panic a library sort may raise on an inconsistent comparator; the model's sort then returns some rearrangement.
- The `u32` failure counter's overflow past 2^32 failures within one window.
- `validate_email`, `validate_slug` and password rules: predicates supplied as parameters.
