# Finspace ledger: a verified model

Finspace keeps the money of a household: accounts, transactions with splits and refunds, categories,
categorization rules, budgets with recurring rules, month closes, account reconciliations and a linked
sheet. This project models the parts in which several rows, several requests or several months have to
agree, and proves what the services promise about them. Dafny 4.11 checks it with
`dafny verify dfyconfig.toml`.

## How the model is laid out

- **Applying categorization proposals.** `RuleSet` is the deterministic first match and the rule commands;
  `Executor` the one guarded write; `RuleRuns` what runs of rule commands keep; `Store` the services step by
  step, each method proved to be the function that specifies it; `Preview` and `PreviewService` the persisted
  previews. `Protocol` is the bulk apply as a step system: shared tables, any number of requesters with a
  program counter, rule, transaction, account, category and month commands beside them, pruning, the clock and
  crashes; a step is one statement or one commit. `ProtocolInvariant` proves what every step keeps,
  `ApplyGuarantees`, `Replays` and `Pruning` what follows for whole runs, `Reasons` that every recorded result
  is true of the rows. `Alone` is one request without competitors; `Recovery` says when a retry completes,
  `BulkApply` when a new request does. `ApplyService` is the code of one request over mutable tables, with the
  machine as a ghost beside it: each of its statements and commits is a step of the machine.
- **Locks.** `Locking` is a lock machine over the lock lists of the services; `Interleaving` takes the
  executor apart into its eight statements and lets everything else commit in between as far as the locks
  allow.
- **Budgets.** `Rounding` is round-half-even on exact rationals; `BudgetActuals` the allocation and
  projection; `ActualMoves` how one transaction moves the actuals; `Recurrence`, `ForecastSpec` and `Forecast`
  the forecast, `ForecastFlows` and `ForecastReasons` what its totals and exceptions are; `BudgetRows`,
  `Budgets` and `BudgetService` the plan commands, rollover, revision log and month close.
- **Ledger.** `Balances` holds the balance and cash-flow computations, `Refunds` what refunds take back;
  `LedgerSpec` and `LedgerService` the account, transaction and reconciliation commands; `LedgerGuarantees`,
  `LedgerVersions`, `ReconciliationLinks`, `RefundLimit` and `ClosedBalances` what they keep; `BalanceMoves`,
  `Candidates` and `CommandMeanings` what balances, candidates and accepted commands are in terms of the rows.
- **Sets and graphs.** `SheetReconcile` is the reconciliation of a sheet snapshot; `CategoryForest` and
  `CategoryTree` the category hierarchy, `CategoryLevels` its names and versions.

Where a method and its specification call the same function, a second statement says what comes out without that
function: these statements, mostly named `...Exactly` or `...Means`, read the rows and fields themselves.

Money is an integer count of 0.0001 units, an instant an integer count of microseconds, an id the integer of
its UUID (whose order is the order of its text). The end of a local day stands for the day, so closed history
is everything before an instant, and a statement date is the instant before which its transactions lie. A hash
is an injective function of its payload, so rows keep the payload itself.

## What turned out not to hold

Each of these has an input that shows it, and the exact condition under which the property does hold.

- The first match can be stale at the commit, because the categories of other rules are not locked: a history is
  `Interleaving.StaleMatch`; the match still stands exactly if no earlier matching rule has become usable since the
  re-match (`Interleaving.MatchAtCommit`), in particular if nobody edits its category
  (`Interleaving.QuietCategoriesKeepMatch`).
- A balance of closed history can move although the fingerprint of the close does not: a refund booked in a
  closed month follows the type of its original, which may lie in an open month
  (`ClosedBalances.ServicesCanMoveClosedBalance`). Of all commands exactly an accepted update that turns the sign of
  closed refunds does this (`ClosedBalances.StepMovesClosedBalance`).
- Refunds can exceed their original: restoring a refund and changing an original are not checked against the
  limit (`RefundLimit.RestoreOverdraws`, `RefundLimit.LoweringOverdraws`; exactly then by
  `RefundLimit.LimitKeptExactly`).
- Restoring a category can close a cycle, because the parent check is not run
  (`CategoryForest.RestoreClosesCycle`; exactly then by `CategoryForest.RestoreExactly`).
- The last split of an allocation can have the opposite sign (`BudgetActuals.LastShareCanBeNegative`). It takes four
  splits: with up to three the sign never turns, with any larger number it does for some splits and amount
  (`BudgetActuals.SignTurnsFromFourSplits`). For given splits `BudgetActuals.LastShareKeepsSign` is a sufficient
  condition: the exact proportion of the last split exceeds (n - 3) / 2 units.
- A replayed answer can lack the expected version which the first answer carries (`Replays.ReplayCanDiffer`): exactly
  for an item previewed as not applicable with a version, between the request that took the item and any other
  (`Replays.AnswersDiffer`). Everything else of an answer agrees with its replay.
- A retry does not always complete an operation: an item whose write the transaction service rejects for a reason
  outside the executor's list (archived account, currency, target, refund limit, missing comment) ends the request,
  and the next retry as well (`BulkApply.RejectedWriteBlocks`). A retry that runs alone completes exactly if there is
  no such item without a result (`Recovery.CrashedOperationRecovers`).

One disagreement is between the code and its documentation: the guard precedence in
`categorization_executor.py:81-91` does not list the no-match outcome; the model follows the order of the code.

## Model

| member | source | states |
|---|---|---|
| RuleSet.FirstMatchByView | backend/app/services/categorization_matcher.py:84-184 | The matcher reads only the current rules, their order, their matching fields, and existence, archive flag and type of categories: with equal views it finds the same first match. |
| RuleSet.FirstMatchExists | backend/app/services/categorization_matcher.py:116-133 | There is a first match exactly if any rule is eligible. |
| RuleSet.FirstMatchMeans | backend/app/services/categorization_matcher.py:35-133 | What the first match is, in the fields themselves: an active rule that is not deleted, over a stored category that is not archived and suits the type of the transaction, whose given fields are those of the transaction and whose given texts stand in its texts, each in its own, and which comes before every other such rule; none only if there is no such rule. |
| Executor.ExecutorSound | backend/app/services/categorization_executor.py:165-306 | `applied` is reported exactly when every expectation still holds, the proposed rule is the first valid match and the write is accepted; then exactly one row changes, by its category and one version, and the same expectation can never be applied again; otherwise nothing changes. |
| Executor.AppliedExactly | backend/app/services/categorization_executor.py:165-306 | `applied` is the answer exactly if the write is due, condition by condition on the rows: an income goes on a category for incomes or for both only, an expense likewise, a transfer on none, and account, target, refund and comment of the transaction stand. |
| Executor.RefusalIsTrue | backend/app/services/categorization_executor.py:81-91 | Every refusal names a reason that is true of the rows; a changed transaction comes with both versions; reasons about rules, category or period are given only for a transaction of the expected version that is itself eligible. |
| Executor.RefusalIsFirst | backend/app/services/categorization_executor.py:81-91 | Of all reasons that hold a refusal reports the first of the documented precedence; a changed rule or rule set comes before the category, another first match after it. |
| Reasons.RefusalCode | backend/app/services/categorization_executor.py:64-76 | The error code of every refusal says something that is true of the rows, read field by field; `applied` has no code. |
| Executor.RaisedExactly | backend/app/services/categorization_executor.py:268-306 | An error outside the executor's vocabulary comes up exactly if every guard passes and the transaction service rejects the write for account, currency, target, refund or comment. |
| Store.Workspace.CreateRule | backend/app/services/categorization_rules.py:183-228 | The rule is added, live with version 1, and the rule-set revision rises by one, exactly if its references are valid. |
| Store.Workspace.UpdateRule | backend/app/services/categorization_rules.py:231-315 | The content is replaced under the version check; the revision of the rule set rises exactly if something other than the name changed. |
| Store.Workspace.DeleteRule | backend/app/services/categorization_rules.py:318-357 | The live rule of the given version is deleted and the revision rises. |
| Store.Workspace.RestoreRule | backend/app/services/categorization_rules.py:360-411 | A deleted rule with valid references comes back and the revision rises; a live rule is answered without any change. |
| RuleRuns.AcceptedExactly | backend/app/services/categorization_rules.py:91-411 | When each rule command is accepted, by the rows alone: version and state of the rule, something to match by, a live unarchived category that suits the type, a live unarchived account. |
| RuleRuns.VersionWrittenOnce | backend/app/services/categorization_rules.py:75-411 | No lost update: of all rule commands that name one version of a rule at most one is accepted in any run. |
| RuleRuns.DeletedFitsNothing | backend/app/services/categorization_rules.py:318-357 | A deleted rule fits nothing any more, and every other rule what it fitted before. |
| RuleRuns.RestoreUndoesDelete | backend/app/services/categorization_rules.py:318-411 | Restoring after a delete is accepted exactly while its references can be used, and gives the rule back two versions and two revisions later. |
| RuleRuns.UpdateShows | backend/app/services/categorization_rules.py:231-315 | An accepted update shows the new content, keeps place and creation time, and moves the revision exactly if more than the name changed. |
| Store.Workspace.PrepareRuleSet | backend/app/services/categorization_matcher.py:136-184 | The prepared list holds exactly the current rules whose category exists and is not archived, in (priority, created at, id) order. |
| Store.Workspace.Match | backend/app/services/categorization_matcher.py:116-133 | The loop over the prepared list finds the unique first valid match: a rule that fits field by field and comes before every other one that fits; none only if no rule fits. |
| Store.Workspace.RefundedTotal | backend/app/services/transactions.py:177-194 | The sum of all other live refunds of the original, whatever order they are met in. |
| Refunds.RefundsThatCount | backend/app/services/transactions.py:177-194 | That sum is over the refunds of the original that are neither cancelled nor deleted, without the row at hand. |
| Store.Workspace.ValidateTransaction | backend/app/services/transactions.py:61-201 | The checks a category-only update has to pass besides the category itself: account, currency, target, refund and comment. |
| Store.Workspace.UpdateTransaction | backend/app/services/transactions.py:277-386 | A category-only update writes exactly if version, reconciliation, closed period and validation allow it, reports which of them stopped it, and then changes category and version of that row only. |
| Store.Workspace.ExecuteApply | backend/app/services/categorization_executor.py:165-306 | The guarded path, early return by early return, answers the specified outcome and leaves the specified rows; it answers `applied` exactly if the write is due by the rows alone. |
| Preview.MatchedIsApplied | backend/app/services/categorization_previews.py:99-120 | An item previewed as matched is applied, under unchanged evidence, exactly when its category is not deleted and the transaction service accepts the write. |
| Preview.GuardsAgree | backend/app/services/categorization_executor.py:194-219 | Where the preview says that the transaction itself is in the way, the executor gives the same reason to any proposal for it. |
| Reasons.InapplicableIsTold | backend/app/services/categorization_apply.py:191-211 | An item that was not applicable at preview time writes nothing on whatever rows it is processed later, and its status names a reason that held at preview time. |
| Reasons.InapplicableCode | backend/app/services/categorization_apply.py:50-58 | So does its error code, read as what it tells about the transaction: not found, transfer, categorized, split, reconciled, closed or no rule that fits. |
| Reasons.InapplicableStaysTrue | backend/app/services/categorization_apply.py:191-211 | The same over runs: every result recorded for such an item of a preview, except `failed` and the one for a pruned preview, was true of the rows when the preview was made. |
| Reasons.ProposalsAreTrue | backend/app/services/categorization_apply.py:159-281 | Over every run each result recorded for a proposal was true of the rows at the step that recorded it: `applied` only where the write was due, a refusal only where its reason held. |
| Preview.CanonicalSorted | backend/app/services/categorization_apply.py:86-88 | The canonical order is strictly increasing and holds exactly the submitted items. |
| Preview.CanonicalIdentity | backend/app/services/categorization_apply.py:91-112 | Two requests have the same canonical form exactly when they name the same set of items. |
| PreviewService.ClassifyItem | backend/app/services/categorization_previews.py:99-120 | The guards in their precedence and the match give the specified item with the versions of rule and category. |
| PreviewService.CreateItems | backend/app/services/categorization_previews.py:171-263 | One item per selected transaction in the caller's order; every counter is the number of items of its status, and they add up to the selection. |
| PreviewService.DeleteExpired | backend/app/repositories/categorization_previews.py:229-290 | The rows deleted are the oldest prunable unlocked previews, as many as the limit allows, and all of them if they are fewer. |
| PreviewService.SweepMeans | backend/app/repositories/categorization_previews.py:259-290 | What a sweep removes, by expiry, lock, unfinished operations and recovery window (boundary included), and that everything it leaves expires later. |
| BulkApply.OthersStand | backend/app/services/categorization_executor.py:268-306 | Categorizing one transaction leaves the evidence and the acceptability of every other proposal as it was. |
| BulkApply.EverySubsetIsApplied | backend/app/services/categorization_apply.py:397-486 | Whatever items of a preview are submitted, after any run in between: if their proposals still stand, a new request that runs alone completes and every result and every answer is `applied`. |
| ProtocolInvariant.StepKeeps | backend/app/services/categorization_apply.py:159-495 | Every step of every requester, command, sweep and crash keeps the invariant of the apply tables and takes back no preview, operation, result, version or audit entry. |
| ProtocolInvariant.RunsKeep | backend/app/services/categorization_apply.py:335-495 | The same over whole runs. |
| ProtocolInvariant.VacantMeans | backend/alembic/versions/0015_categorization_apply_ops.py:91-96 | The unique sequence constraint never fires without the unique item constraint. |
| ApplyGuarantees.AppliedOnceEver | backend/app/services/categorization_executor.py:198-206 | In every reachable state two applied results never replaced the same version of a transaction, whatever operations and keys were used. |
| ApplyGuarantees.ItemAppliedOnce | backend/app/services/categorization_apply.py:159-281 | A preview item is applied by at most one operation ever. |
| ApplyGuarantees.ExactlyOnce | backend/app/services/categorization_apply.py:159-281 | An item of an operation caused exactly one write of its transaction if its result is `applied`, and none otherwise, over every interleaving of retries and crashes. |
| ApplyGuarantees.ResultsAreFinal | backend/app/services/categorization_apply.py:134-156 | A recorded result, the identity and completion of an operation and every audit entry stay for ever. |
| ApplyGuarantees.SequencesAreRanks | backend/app/services/categorization_apply.py:397-411 | The sequence of a result is the rank of its item in the canonical order, whatever permutation a retry submits, and a completed operation has a result for every item. |
| ApplyGuarantees.FinishedRequestAnswers | backend/app/services/categorization_apply.py:487-495 | A finished request answers once per item in its caller's order, in agreement with the recorded results, and its operation is completed. |
| ApplyGuarantees.ReplaysAgree | backend/app/services/categorization_apply.py:123-131 | Two finished requests of one key agree item by item in everything but, possibly, the expected version. |
| Replays.AnswersExactly | backend/app/services/categorization_apply.py:191-211 | Over every run the answer of a finished request is the recorded result, except that the one request which took an item previewed as not applicable answers with its version. |
| Replays.AnswersDiffer | backend/app/services/categorization_apply.py:191-211 | Two finished requests of one key answer an item differently exactly if it was previewed as not applicable with a version and one of the two took it; they differ in the expected version only. |
| Replays.ReplayCanDiffer | backend/app/services/categorization_apply.py:191-211 | A run from empty tables in which a request and its retry answer differently. |
| ApplyGuarantees.ClaimVersusPrune | backend/app/repositories/categorization_previews.py:229-290 | An operation in progress has its preview until expiry plus recovery window, and a claim that holds the lock finds its preview. |
| ApplyGuarantees.SweepDrains | backend/app/repositories/categorization_previews.py:259-290 | One sweep removes the limit from the backlog, or all of it, and nothing else. |
| ApplyGuarantees.BacklogDrains | backend/app/services/categorization_previews.py:296-327 | With nothing in between, a backlog of n previews is gone after ceil(n / limit) sweeps. |
| Pruning.DuePreviewIsSwept | backend/app/repositories/categorization_previews.py:229-290 | However the clock moves and whatever claims, retries, crashes and new previews come in between: a due preview with m stored previews up to it in expiry order is gone after ceil(m / limit) sweeps. |
| Pruning.BacklogIsSwept | backend/app/services/categorization_previews.py:296-327 | Over every such run the backlog of an instant is gone after ceil(n / limit) sweeps, n counting every stored preview expired by then. |
| ApplyGuarantees.VersionsIdentify | backend/app/services/categorization_rules.py:172-180 | In a run, equal rule-set revisions mean the same matching rules in the same order, and equal transaction versions the same row. |
| ApplyGuarantees.PreviewToApply | backend/app/services/categorization_apply.py:159-281 | From preview to apply across any run: with versions and surroundings as at preview time, running a matched item records `applied` exactly when its category is not deleted and the write is accepted. |
| Alone.WorkStays | backend/app/services/categorization_apply.py:159-281 | Processing one item of a preview leaves the result of every other item, and whether it is rejected, as it was. |
| Recovery.CrashedOperationRecovers | backend/app/services/categorization_apply.py:335-495 | From any reachable state a retry of the same logical request, run alone, completes the operation exactly if no item without a result has its write rejected by the transaction service, and otherwise ends at the first such item, as does the next retry; each item before it has the recorded result or the one it would get alone; a pruned preview blocks nothing, leaves the ledger alone and turns every open item into `not_found`. |
| BulkApply.NewRequestEnds | backend/app/services/categorization_apply.py:356-495 | A request with a new key that runs alone claims its operation and ends by the same rule. |
| BulkApply.RejectedWriteBlocks | backend/app/services/categorization_apply.py:456-457 | A run from empty tables: the proposal of a transaction on an archived account ends the request, leaves the operation in progress without a result, and every retry run alone ends the same way. |
| Alone.OneEnd | backend/app/services/categorization_apply.py:335-495 | A request that runs alone ends in one state only. |
| ApplyService.Service.Persist | backend/alembic/versions/0015_categorization_apply_ops.py:91-96 | A result is inserted exactly if neither unique constraint of the result table is in the way; otherwise the table stays as it was. |
| ApplyService.Service.ProcessItem | backend/app/services/categorization_apply.py:159-281 | The specified work of one item: mutation and result are committed together, or, on an error or a unique violation, neither is. What that function answers is `Reasons.InapplicableIsTold` and `Executor.AppliedExactly`. |
| ApplyService.Service.TakeItem | backend/app/services/categorization_apply.py:405-439 | Processing an item is the item step of the protocol machine, with the answer, the violation or the error that step gives. |
| ApplyService.Service.RecordFailure | backend/app/services/categorization_apply.py:284-320 | Recording a failure is the failure step of the machine; where it cannot be recorded the request ends and the item stays open. |
| ApplyService.Service.Reread | backend/app/services/categorization_apply.py:440-455 | After a unique violation the request goes on with the result recorded by the other request, and ends if there is none. |
| ApplyService.Service.Begin | backend/app/services/categorization_apply.py:342-395 | A request is refused exactly for its specified reason - key used for another request, preview missing or expired, item not of the preview - and otherwise stands at its operation after a run of the machine. |
| ApplyService.RefusalMeans | backend/app/services/categorization_apply.py:335-395 | A request is refused exactly if its key stands for another preview or set of items, or, the key being new, if the preview is gone or expired, or lacks one of the items. |
| ApplyService.Service.ApplyPreviewItems | backend/app/services/categorization_apply.py:335-495 | Whatever the recorded results and failing items, the code moves the tables along a run of the machine, so every guarantee for runs holds of it; it is refused for exactly the specified reasons, completes the operation, or ends its request. |
| ApplyService.InCallerOrder | backend/app/services/categorization_apply.py:490-495 | The response has one answer per item, in the order of the caller. |
| Locking.ReachableExcludes | backend/app/services/categorization_executor.py:11-30 | No two database transactions ever hold conflicting locks. |
| Locking.WaitsRise | backend/app/services/categorization_executor.py:11-30 | Along a chain of waits the rank of the requested lock rises: gate, month control, everything else. |
| Locking.NoDeadlock | backend/app/services/categorization_executor.py:179-265 | With executor, rule, transaction, account, reconciliation, budget, month, category and payee programs in any number, no reachable state has a waits-for cycle of any length. |
| Locking.SomeoneRuns | backend/app/services/budgets.py:572-585 | While any database transaction runs, some one can go on. |
| Interleaving.CommitsAreCompatible | backend/app/services/categorization_rules.py:159-169 | A command that commits beside a running executor holds no lock that conflicts with one of the executor's. |
| Interleaving.ExecutorIsAtomic | backend/app/services/categorization_executor.py:179-306 | Whatever commits between its statements, the executor answers and writes what it would have at one moment, that of its last statement, with the categories the re-match read. |
| Interleaving.MatchAtCommit | backend/app/services/categorization_executor.py:258-265 | The applied rule is the first match of the categories as of the commit exactly when no earlier matching rule whose category was unusable at the re-match has it usable at the commit. |
| Interleaving.QuietCategoriesKeepMatch | backend/app/services/categorization_executor.py:258-265 | It is the first match at the commit if no command between re-match and commit edits the category of an earlier matching rule. |
| Interleaving.StaleMatch | backend/app/services/categorization_executor.py:258-265 | A history in which that condition fails and the later rule is applied. |
| Rounding.NearestUnique | backend/app/services/budget_actuals.py:17-18 | The half-even nearest integer of a rational is unique. |
| BudgetActuals.SharesSum | backend/app/services/budget_actuals.py:99-114 | The shares of an allocation add up to the allocated amount. |
| BudgetActuals.PortionNegated | backend/app/services/budget_actuals.py:99-135 | Allocating the opposite amount books exactly the opposite on every category. |
| BudgetActuals.ShareBound | backend/app/services/budget_actuals.py:99-114 | With splits that add up to the original, a share is within half a unit of the exact proportion, the last within (n - 1) / 2 units. |
| BudgetActuals.WholeShares | backend/app/services/budget_actuals.py:120-123 | Booking the whole original books every split at its own amount. |
| BudgetActuals.LastShareCanBeNegative | backend/app/services/budget_actuals.py:104-114 | Five units over eight equal splits leave -2 for the last one. |
| BudgetActuals.LastShareKeepsSign | backend/app/services/budget_actuals.py:104-114 | The last share is not negative if its exact proportion exceeds (n - 3) / 2 units. |
| BudgetActuals.SignTurnsFromFourSplits | backend/app/services/budget_actuals.py:104-114 | Splits and an amount with a negative last share exist for n splits exactly if n is at least four. |
| BudgetActuals.RefundedInParts | backend/app/services/budget_actuals.py:126-135 | An original refunded completely in m parts leaves at most m / 2 units on a split, m (n - 1) / 2 on the last. |
| BudgetActuals.FullRefundCancels | backend/app/services/budget_actuals.py:120-135 | An expense and the refund of its whole amount change no total and no category of their month. |
| BudgetActuals.BudgetActual.AllocateExpense | backend/app/services/budget_actuals.py:99-114 | The loop with the running remainder adds the specified portion to every category and the amount to their total. |
| BudgetActuals.ProjectBudgetActuals | backend/app/services/budget_actuals.py:35-144 | For every currency of the month, income, expense, adjustment and every category are the order-independent sums of what each transaction contributes, and the categories, the missing one included, add up to the expense. |
| ActualMoves.RowMovesTotals | backend/app/services/budget_actuals.py:35-144 | How one more transaction moves the totals of a month: it adds to income, expense or adjustment of its currency, a refund takes from the total of its original, a transfer nothing. |
| ActualMoves.RowMovesCategory | backend/app/services/budget_actuals.py:35-144 | And how it moves a category: an expense puts its splits, or its whole amount, on theirs; the refund of a whole expense takes exactly that away, a partial refund of an unsplit expense its amount; nothing else touches a category. |
| ActualMoves.WholePortion | backend/app/services/budget_actuals.py:75-144 | Booking a whole original puts every split on its own category. |
| BudgetRows.AllocatedAndRest | backend/app/services/budgets.py:356-363 | The amounts on allocated categories and those elsewhere are the whole. |
| Recurrence.OccurrencesBetween | backend/app/services/recurrence.py:109-142 | The expansion yields exactly the slots of the window, in order, each once, and counts the slots before the end, unless these exceed the limit. |
| Recurrence.LimitMeansCount | backend/app/services/recurrence.py:119-131 | The limit is exceeded exactly when there are more slots than it allows. |
| Forecast.Flow.Add | backend/app/services/budget_forecasts.py:42-55 | An income is added to the income, an expense to the expense, both count once; a transfer adds nothing. |
| Forecast.ExceptionCounts.Record | backend/app/services/budget_forecasts.py:305-325 | Every counter rises by its flag and a blocked rule is remembered once. |
| Forecast.Forecast.RecordException | backend/app/services/budget_forecasts.py:305-325 | Listing an exception keeps every accumulator in agreement with the listed occurrences. |
| Forecast.Forecast.ClassifyOverdueCursor | backend/app/services/budget_forecasts.py:328-384 | An overdue rule lists exactly one exception: its execution, or the missing one. |
| Forecast.Forecast.AppendScheduled | backend/app/services/budget_forecasts.py:387-425 | A slot without an execution lists exactly one scheduled, advisory or transfer occurrence, and all flows and categories follow. |
| Forecast.Forecast.ClassifyMaterialized | backend/app/services/budget_forecasts.py:428-517 | An execution is listed exactly if its verdict is exceptional, and remembered exactly if it is an actual of the period. |
| Forecast.Forecast.AllocatePendingExpense | backend/app/services/budget_forecasts.py:257-275 | The loop books the specified portion of a draft on every category and its amount on their total. |
| Forecast.Forecast.AddPending | backend/app/services/budget_forecasts.py:655-716 | A pending draft lists exactly one occurrence and moves flows and categories accordingly. |
| Forecast.FirstRecords | backend/app/services/budget_forecasts.py:620-623 | Exactly the first record of every pending transaction is kept, each once. |
| Forecast.Forecast.TakeSlot | backend/app/services/budget_forecasts.py:757-784 | A slot is scheduled or classified, never both, and its execution counts as processed. |
| Forecast.Forecast.ExpandRule | backend/app/services/budget_forecasts.py:718-784 | All slots of a rule are dealt with, each once, or the limit is exceeded exactly if the rule generates more than is left. |
| Forecast.Forecast.Replay | backend/app/services/budget_forecasts.py:786-805 | Every loaded execution not yet processed is classified, none twice. |
| Forecast.Forecast.Compute | backend/app/services/budget_forecasts.py:612-805 | The forecast lists one occurrence for every pending draft, every overdue cursor without an execution, every exceptional execution and every open slot without an execution, and nothing else; it is refused exactly when the rules generate more than 2000 slots. |
| Forecast.Forecast.Respond | backend/app/services/budget_forecasts.py:807-857 | Income, expense and number of each total - scheduled, pending, advisory, per mode, and overall - are sums over the listed occurrences of its states and mode and never negative; overall and per category they are sums over the expected causes with the amounts of rules and drafts; transfers and every exception counter likewise; category rows and the rest add up to the expense. |
| ForecastFlows.FlowAddsUp | backend/app/services/budget_forecasts.py:42-55 | A flow over the listed occurrences is the sum of the incomes and the sum of the expenses at its places and their number. |
| ForecastFlows.ForecastIsExpected | backend/app/services/budget_forecasts.py:549-716 | Forecast income and expense are those of the expected causes: each open slot without an execution with the amount of its rule, each pending draft with its own. |
| ForecastFlows.CategoryIsExpected | backend/app/services/budget_forecasts.py:257-276 | The forecast of a category is what the slots of its own expense rules and its shares of the pending drafts put on it. |
| ForecastFlows.TransfersCounted | backend/app/services/budget_forecasts.py:387-425 | Transfers are counted and summed beside the forecast. |
| ForecastFlows.ExceptionsCounted | backend/app/services/budget_forecasts.py:305-325 | Each exception counter is the number of listed exceptions of its kind, and the blocked rules are theirs. |
| ForecastReasons.SlotsLieAhead | backend/app/services/budget_forecasts.py:328-425 | A listed slot lies ahead of the instant of the forecast, inside the period and not before the next run of its current rule, and shows amount and type of the rule. |
| ForecastReasons.PendingIsDraft | backend/app/services/budget_forecasts.py:640-716 | A listed pending draft is a live draft of the currency in the period, with the amount it shows. |
| ForecastReasons.ExceptionsAreTrue | backend/app/services/budget_forecasts.py:328-517 | Every listed exception names a reason that is true of the rows, and so are its flags. |
| ForecastReasons.UnlistedIsSettled | backend/app/services/budget_forecasts.py:428-517 | A loaded execution that is not listed needs no attention: its transaction counts in the period or is a pending draft of it, or it was only a reminder. |
| Forecast.BuildRows | backend/app/services/budget_forecasts.py:218-256 | One row per allocation with projection, remainder and half-even usage percentage. |
| Forecast.ModesAddUp | backend/app/services/budget_forecasts.py:655-716 | Scheduled and pending flows are together the flows of the two modes. |
| Forecast.NoSlotTwice | backend/app/services/budget_forecasts.py:757-784 | No slot with a loaded execution adds a scheduled amount, and no open slot is listed twice. |
| Forecast.ExecutionListedOnce | backend/app/services/budget_forecasts.py:718-805 | An execution is listed once if it is loaded and exceptional, and otherwise only as a pending draft. |
| Budgets.CloseMovesNoMoney | backend/app/services/budgets.py:932-963 | Closing a month leaves every rollover's amount and policy and every projection as they were, except that the rollover out of the closed month is no longer provisional. |
| Budgets.ClosedRolloverIsFinal | backend/app/services/budgets.py:266-327 | After the close that rollover stays the same over every further run, even where the actuals of the closed month still change. |
| Budgets.RevisionLog | backend/app/services/budgets.py:515-558 | Over every run revision numbers are 1 to the version of the budget without a gap, the last revision is the budget, and every idempotency key stands for exactly one revision. |
| Budgets.KeyReplays | backend/app/services/budgets.py:227-242 | A key answers the same request with the recorded group for ever, any other request with a conflict, and changes nothing. |
| Budgets.SameRequestExactly | backend/app/services/budgets.py:67-121 | Two requests are the same exactly if all their fields agree, allocations in any order. |
| Budgets.DecisionMeans | backend/app/services/budgets.py:561-909 | An accepted command writes the plan it asks for into an open month over usable categories, each once; a refused one names a reason that is true of the books. |
| BudgetRows.PlannedIsSum | backend/app/services/budgets.py:344-421 | The planned total is the sum of the allocations. |
| Budgets.VersionWrittenOnce | backend/app/services/budgets.py:591-636 | No lost update: of all commands of any kind that name one version of a budget, whatever happens between them, at most one is accepted. |
| Budgets.RestoreUndoesDelete | backend/app/services/budgets.py:656-790 | Restoring a deleted budget gives back its plan two versions later, or is refused exactly if a category has become unusable. |
| Budgets.UnbudgetedIsTheRest | backend/app/services/budgets.py:414-416 | The unbudgeted actual expense is the actual expense on the categories without an allocation. |
| BudgetService.Service.RolloverInto | backend/app/services/budgets.py:266-335 | Out of a closed month from its snapshot, out of an open one from the plan as it stands: under `full` amount and spending make up the plan, under `positive only` what is left but no shortfall, otherwise nothing. |
| BudgetService.Service.Project | backend/app/services/budgets.py:344-421 | The live group, its sums taken by loops: capacity is planned income and rollover, planned and unplanned make it up, remaining and spent make up the plan, budgeted and unbudgeted the spending. |
| BudgetService.Service.RecordSuccess | backend/app/services/budgets.py:515-558 | Budget, revision and recorded reply are written together. |
| BudgetService.Service.UpsertPeriod | backend/app/services/budgets.py:561-653 | Creating or updating over the mutable tables has the effect and the answer of the command whose runs the log, key and version properties are about. |
| BudgetService.Service.DeletePeriod | backend/app/services/budgets.py:656-714 | The same for deleting. |
| BudgetService.Service.RestorePeriod | backend/app/services/budgets.py:717-790 | The same for restoring. |
| BudgetService.Service.CopyPeriod | backend/app/services/budgets.py:793-909 | The same for copying from another month. |
| Balances.BalanceOf | backend/app/services/calculations.py:52-81 | The inner loop adds up the effects of all transactions since the opening, in whatever order they come. |
| Balances.CalculateBalances | backend/app/services/calculations.py:21-92 | Exactly the live accounts open at the date are listed, each with its balance, which moves row by row as `BalanceMoves.RowMovesBalance` says. |
| Balances.TransactionEffects | backend/app/services/account_reconciliation.py:133-186 | The signed amount of every row, or the conflict exactly if a row is in another currency. |
| BalanceMoves.RowMovesBalance | backend/app/services/calculations.py:52-81 | How one more transaction moves a balance: not at all unless it counts there; an income or adjustment adds to its account, an expense takes from it, a transfer takes from its account what it adds to another, a refund undoes its original. |
| BalanceMoves.NoRows | backend/app/services/calculations.py:36-50 | Without transactions a balance is the opening balance. |
| BalanceMoves.RowMovesPreview | backend/app/services/account_reconciliation.py:133-186 | The balance a reconciliation preview shows moves in the same way, and its difference the other way. |
| Balances.TwoBalancesAgree | backend/app/services/account_reconciliation.py:241-254 | The balance of a reconciliation preview is the balance as of its cutoff. |
| Balances.CalculateSummary | backend/app/services/calculations.py:95-171 | Per currency: incomes without what of them was refunded, expenses likewise, adjustments, transfers and the number of rows; and the net cash flow. |
| Balances.BalancesAreCashflow | backend/app/services/calculations.py:111-171 | When the transactions of a currency stay on its live accounts, opened before them, the changes of their balances add up to its net cash flow. |
| LedgerService.Service.AffectedDates | backend/app/services/financial_period_guard.py:119-153 | A date of closed history is found exactly if the account opens in it or an effective transaction of it touches the account. |
| LedgerService.Service.CreateAccount | backend/app/services/accounts.py:58-94 | The account is created exactly if its opening is open and its name is free. |
| LedgerService.Service.UpdateAccount | backend/app/services/accounts.py:97-171 | The present fields are set under version, currency, closed-history and name checks. |
| LedgerService.Service.DeleteAccount | backend/app/services/accounts.py:174-221 | The account is deleted exactly if it does not affect closed history. |
| LedgerService.Service.RestoreAccount | backend/app/services/accounts.py:224-280 | A deleted account comes back under the same guard; a live one is answered without a change. |
| CommandMeanings.AccountCommandExactly | backend/app/services/accounts.py:31-280 | When each account command is accepted, by the rows alone: state and version, name, currency, and nothing of the account in closed history. |
| CommandMeanings.UpdateSetsFields | backend/app/services/accounts.py:97-171 | An accepted update sets the fields it gives, keeps the others and raises the version. |
| CommandMeanings.TransactionCommandExactly | backend/app/services/transactions.py:61-467 | The same for creating, updating, deleting, restoring and cancelling a transaction: shape of the row, accounts, splits, comment, refund and open history. |
| CommandMeanings.WriteIsAnUpdate | backend/app/services/transactions.py:277-386 | The executor's write passes exactly the checks a general update to the same row passes, and leaves the same transactions. |
| LedgerService.Service.Preview | backend/app/services/account_reconciliation.py:234-293 | The preview as specified: balance, difference, candidates and token, or the refusal; the balance is the one as of the cutoff, and difference and balance make up the statement. |
| CommandMeanings.PreviewExactly | backend/app/services/account_reconciliation.py:78-166 | Why a preview is refused, and that it is given exactly if nothing stands against it: account, currency, version, opening and a row in another currency. |
| Candidates.CandidatesExactly | backend/app/services/account_reconciliation.py:189-231 | On every ledger the services have built a preview offers exactly the transactions of the statement that no reconciliation has settled; a transfer those not settled for this account. |
| Candidates.RunKeepsSettled | backend/app/services/account_reconciliation.py:418-451 | Over every run a transaction is reconciled only if a reconciliation has settled it. |
| LedgerService.Service.Link | backend/app/services/account_reconciliation.py:418-451 | The write loop marks exactly the candidates reconciled, raises their versions and records the versions they had. |
| LedgerService.Service.ConfirmReconciliation | backend/app/services/account_reconciliation.py:364-490 | Replay, conflict, stale preview, difference or settlement, as specified, with the settled ledger. |
| CommandMeanings.ConfirmMeans | backend/app/services/account_reconciliation.py:364-490 | A confirmed reconciliation rests on a statement equal to the balance, marks exactly its candidates, raises their versions and that of the account, and records the versions they had. |
| LedgerGuarantees.ConfirmKeepsState | backend/app/services/account_reconciliation.py:418-451 | A reconciliation changes the financial state of no cutoff at all. |
| LedgerGuarantees.StepKeepsClosed | backend/app/services/financial_period_guard.py:71-153 | No accepted command changes the financial state of the closed part of history. |
| LedgerGuarantees.ClosedHistoryIsStable | backend/app/services/month_close_fingerprint.py:24-128 | Over every run in which closing only moves forward, history stays as it was closed. |
| LedgerGuarantees.StateFixesBalances | backend/app/services/month_close_fingerprint.py:24-128 | The financial state fixes every balance as of its cutoff, if the originals of its refunds lie before the cutoff. |
| LedgerGuarantees.ClosedBalancesAreStable | backend/app/services/month_close_fingerprint.py:40-128 | Under that condition closed balances are stable over every run. |
| LedgerGuarantees.UpdateMovesClosedBalance | backend/app/services/calculations.py:67-81 | An accepted update moves a closed balance exactly by its closed refunds times the change of its sign, hence leaves it if and only if the sign stays or no closed refund counts there. |
| LedgerGuarantees.ClosedBalanceCanMove | backend/app/services/transactions.py:277-386 | An accepted update of an open expense that changes a closed balance but not the financial state. |
| ClosedBalances.ServicesCanMoveClosedBalance | backend/app/services/transactions.py:277-386 | That ledger is built by a run of accepted commands. |
| ClosedBalances.StepMovesClosedBalance | backend/app/services/calculations.py:67-81 | Of all commands, exactly an accepted update that turns the sign of a transaction with counted closed refunds moves a balance as of the close. |
| ClosedBalances.ServicesMoveClosedBalance | backend/app/services/calculations.py:67-81 | The same for every command on every ledger the services can build. |
| LedgerVersions.VersionWrittenOnce | backend/app/services/accounts.py:97-280 | No lost update: of all commands on an account or a transaction that name one version, reconciliations of the account included, at most one is accepted in any run. |
| LedgerVersions.RunKeepsNames | backend/app/services/accounts.py:58-280 | Over every run no two live unarchived accounts have the same name. |
| LedgerVersions.RestoreUndoesDelete | backend/app/services/accounts.py:174-280 | Restoring an account right after deleting it is always accepted and gives it back two versions later. |
| ReconciliationLinks.RunKeepsLinks | backend/app/services/account_reconciliation.py:189-231 | Every run keeps links, currencies and split totals in order. |
| ReconciliationLinks.LinkedOnce | backend/app/services/account_reconciliation.py:364-490 | In every run the reconciliations of one account link disjoint sets, two reconciliations share transfers only, and a preview token is confirmed at most once under any keys. |
| ReconciliationLinks.TransferLinkedPerSide | backend/app/services/account_reconciliation.py:189-203 | A transfer is linked at most twice, once per side, anything else at most once. |
| ReconciliationLinks.RepreviewIsClean | backend/app/services/account_reconciliation.py:234-293 | Previewing a statement again right after confirming it shows no difference and no candidates. |
| ReconciliationLinks.NoCurrencyConflict | backend/app/services/account_reconciliation.py:159-166 | On ledgers the services have built the currency conflict never happens. |
| RefundLimit.LimitKeptExactly | backend/app/services/transactions.py:155-194 | A command breaks the refund limit exactly if it restores a refund or rewrites an original beyond what has been refunded. |
| RefundLimit.RestoreOverdraws | backend/app/services/transactions.py:389-449 | After a run that refunds, deletes the refund and refunds again, restoring the first refund exceeds the original. |
| RefundLimit.LoweringOverdraws | backend/app/services/transactions.py:277-386 | After a run that refunds an expense in full, lowering the expense leaves more refunded than it was. |
| RefundLimit.StoredSharesBound | backend/app/services/transactions.py:131-144 | On ledgers the services have built every allocation over stored splits meets the error bound. |
| SheetReconcile.CutsDoNotMatter | backend/app/services/apps_script_bridge.py:832-850 | However a snapshot is cut into batches and whatever other snapshots come in between, the final batch yields all its rows in order and leaves nothing behind. |
| SheetReconcile.TakeRow | backend/app/services/apps_script_bridge.py:890-972 | One row gets its one verdict with counter, queue and action. |
| SheetReconcile.VerdictExactly | backend/app/services/apps_script_bridge.py:890-972 | What the verdict on a row with a key of its own says: matched if version and hash are equal and the row is settled, newer or in conflict if the sheet may hold more, tampered or older otherwise. |
| SheetReconcile.Reconcile | backend/app/services/apps_script_bridge.py:876-1000 | Every entity of the database is accounted for exactly once: it is matched, in conflict or written over as its only row says, and written over if that row is missing or one of several; unknown keys never; counts are the numbers of rows per verdict and of unseen entities and add up to both together. |
| CategoryForest.ValidateParent | backend/app/services/categories.py:20-53 | The walk ends on every parent map and accepts exactly a live parent from which the way up ends and never points at the category. |
| CategoryForest.PutRow | backend/app/services/categories.py:91-151 | Placing a row in an acyclic forest keeps it acyclic exactly if its parent is missing, not live, or clear of it. |
| CategoryForest.StepKeepsForest | backend/app/services/categories.py:56-193 | Creating, updating and deleting keep the live forest acyclic. |
| CategoryForest.RunKeepsForest | backend/app/services/categories.py:56-193 | So does every run without restores. |
| CategoryForest.RestoreExactly | backend/app/services/categories.py:196-246 | Restoring keeps the forest acyclic exactly if the parent is missing, deleted, or would pass the parent check. |
| CategoryForest.RestoreClosesCycle | backend/app/services/categories.py:196-246 | A run of delete, move and restore that closes a cycle. |
| CategoryTree.CategoryService.CreateCategory | backend/app/services/categories.py:56-88 | Creates exactly if the parent check and the level name allow it. |
| CategoryTree.CategoryService.UpdateCategory | backend/app/services/categories.py:91-151 | Updates exactly if version, parent check and level name allow it. |
| CategoryTree.CategoryService.DeleteCategory | backend/app/services/categories.py:154-193 | Deletes the live category of the given version. |
| CategoryTree.CategoryService.RestoreCategory | backend/app/services/categories.py:196-246 | Restores without a parent check; a live category is answered without a change. |
| CategoryLevels.AcceptedExactly | backend/app/services/categories.py:20-246 | In an acyclic tree, when each category command is accepted, by the rows alone: a live parent that does not lie below the category, a name that is free on its level, state and version. |
| CategoryLevels.RunKeepsLevels | backend/app/services/categories.py:56-246 | Over every run, restores included, a name occurs once among the live categories of a level. |
| CategoryLevels.VersionWrittenOnce | backend/app/services/categories.py:91-246 | No lost update: of all commands that name one version of a category at most one is accepted in any run. |
| CategoryLevels.RestoreUndoesDelete | backend/app/services/categories.py:154-246 | Restoring right after a delete is always accepted and gives the category back two versions later. |
| CategoryTree.BuildTree | backend/app/services/categories.py:249-261 | Roots and child lists are the listing's own order of exactly the items that belong there. |
| CategoryTree.ReachedExactly | backend/app/services/categories.py:249-261 | A listed category is reached from the roots exactly if the walk up from it ends. |
| CategoryTree.AcyclicReachesAll | backend/app/services/categories.py:249-261 | On an acyclic table of live categories every one is reached, and by one way only. |

## Left out

- Several workspaces, users, permissions and the HTTP layer: one workspace is modelled, with the services behind it.
- Text normalization, Unicode and collation: match texts are taken as normalized, and orders by name are not modelled.
- Audit entries and outbox payloads: of a transaction write only the replaced version and its cause are kept.
- PostgreSQL inside one statement: a statement is atomic, foreign-key locks and waits on unique indexes are not
  modelled, and an insert that is not committed is seen by nobody, so claiming an operation is one step.
- ApplyService.Service.ApplyPreviewItems: one request over its own tables; what other requests do between its
  commits is in the step system, not in the method.
- Creating a preview as several statements: in the step system it is one step, on one state of all tables.
- Preview items beyond their status, versions and proposal (snapshots, names), and the limits on the number of items.
- Rule references to payees, categories of a transaction write and credit limits: their checks read tables outside
  the model and enter as a truth value that can only refuse more.
- Reopening a month, the steps that prepare a close, and months without a planning snapshot.
- The closed and past branches of the forecast, which list nothing, and the order in which occurrences are shown.
- Recurrence rules themselves: the next slot of a rule is a function that moves forward.
- Notes of allocations, the sorted form of a stored budget request (a multiset here), and budget history listing.
- Decimal's 28-digit context: quotients are exact rationals, rounded half to even.
- The payloads of sheet rows: an entity is its version and the hash its row should carry.
- Goals, payees, imports, automations, telegram, Google clients and the outbox protocol of the bridge.
- Locking.NoDeadlock: covers the row locks the modelled services request explicitly and the rows they update, not
  imports, goals and sync conflicts.
