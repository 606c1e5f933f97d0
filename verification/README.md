# Kagura Memory Cloud: verified models of its migrations, repairs and verifier

Dafny models of the parts of the backend whose correctness is subtle: data migrations that run beside live writers,
repair and backfill scripts that page, crash and restart, a hash-chained log, and the remote OAuth verifier with its
redactor. Tables are maps from id to row, NULL is an option type with three-valued comparison (`Sql`), concurrent
sessions and crashes are interleaved steps, and an `UPDATE ... FROM` with several matches picks any of them.
Statements and scripts that change state are methods of classes, proved against functions or relations; what the
source promises is then proved about those.

| file | what it models |
|---|---|
| `Sql.dfy`, `Ranking.dfy`, `Keyset.dfy` | NULLs and truth values; `ORDER BY` and `LIMIT`; keyset pages |
| `ResourceRekeying.dfy`, `ResourceHistory.dfy`, `ResourceHardDelete.dfy`, `ResourceMigration.dfy` | `a97` and `b01`: what they compute, over which histories it is safe, exactly which hard deletes keep it so, and the upgrades statement by statement |
| `EdgeRepair.dfy`, `EdgeNotNullProtocol.dfy` | the edge audit, the data steps of `b03`, and `b03` as an online protocol |
| `PhaseCheckProtocol.dfy` | `d07`, upgrade and conditional downgrade |
| `AddonLedger.dfy` | `e22` followed by `e23` |
| `AuditLog.dfy` | the hash-chained access log of `e50` with the carve-out of `e72`, its appenders and its verifier |
| `SemanticBackfill.dfy`, `TagBackfill.dfy` | the two edge backfills |
| `LockOrder.dfy` | when the locks of the attachment repair cannot deadlock |
| `AttachmentRepair.dfy`, `AttachmentHistory.dfy`, `AttachmentQuiet.dfy`, `AttachmentPurge.dfy`, `AttachmentScript.dfy` | the attachment repair and purge: tables and the loops of a page, runs beside other processes, runs on a quiet database, the two commands together, and the commands statement by statement |
| `Redactor.dfy` | secret replacement in text and JSON |
| `OAuthRun.dfy`, `OAuthVerifier.dfy` | a verification run, its verdict and its cleanup |

## What turned out differently

- A PASS of the OAuth verifier does not always mean that every required step passed, although its help text says so
  (`backend/scripts/verify_remote_oauth.py:2358`). An interrupt is recorded against the step it hits, the rest of the
  plan is recorded nowhere, and the verdict looks at recorded steps only. If the step is an optional one with required
  steps still to come, the report says PASS. `Run` proves that these interrupts are the only exception, in both
  directions, and `InterruptedRunPasses` gives a run.
- The abort message of `b01` offers hard-deleting the soft-deleted workspace as a remedy. The audit then no longer
  sees the second owner of the slug, and rows that carry no workspace are re-homed: `DisputedIsReachable`,
  `DisputedAborts` and `HardDeleteRehomes`. `B01KeepsTenancyIff` gives the exact condition, which speaks about the
  writers of rows. An operator can check the columns before the delete: whenever an event, schema or token without key
  and workspace carries a slug of the workspace's contexts, two other workspaces have contexts with that slug. With that
  check before every hard delete, tenancy holds at every later moment (`HistoryKeepsTenancy`). The check is exact
  (`CheckIsExact`): if it fails, the same columns admit writers and a later history that ends with a key outside its
  writer's workspace.
- `query_neighbors` with a top-k of 0 can return one hit, because the length is looked at after a hit was appended
  (`NeighboursAreTopKIff`, with the input of `ZeroBudgetReturnsAHit`).
- A secret that is part of a replacement marker may come back in with the marker of another secret or its own, for
  instance `redacted` (`RedactedIsNotRedacted`). `ScrubTextIsCleanIff` gives the exact condition, a check of each
  registered secret.
- Cleanup does not revoke every token it received, and C1 passes all the same. There are three ways, each with a run:
  - an answer whose description raises (a token member that is a number, `true`, or a list or object of at least eight
    elements), or that an interrupt separates from `keep_tokens`, is lost (`LostTokenIsNotRevoked`);
  - V1's revocation is not answered with 200, but V2 gets the refresh token revoked and refused and flags the pair, so
    that cleanup passes it over with its access token (`FlaggedTokenIsNotRevoked`);
  - the refresh of V2 is answered with a new pair, which the short-circuit at
    `backend/scripts/verify_remote_oauth.py:2044-2048` keeps from `keep_tokens` (`UnexpectedPairIsNotRevoked`).

  `Run` gives the exact condition: if C1 passes and V2 was not tried, or met neither the second nor the third way
  (`Loses`), the revoked tokens are exactly those that whole answers carried, whole meaning described and handed on
  (`CleanedUp`). If V2 met one of them, some such token is left (`Leaves`), provided the server issues no token twice.
- The order of the repair's locks (`backend/scripts/migrate_attachments_to_r2.py:320-325`) rules out deadlock if and only
  if no two files share a storage key, because each row lock is followed by the lock on its key (`DeadlockFreeIff`). The
  keys of migrated copies contain the attachment's id.
- The docstring of the edge audit (`backend/scripts/audit_edge_context_invariant.py:13-15`) says mismatched rows would
  make the later NOT NULL migration fail; its CHECK is about NULLs only and keeps them (`B03AloneLeaves`).

## Model

| member | source | states |
|---|---|---|
| ResourceRekeying.SlugRowIff | backend/alembic/versions/b01_resource_pk_writer_phase2.py:192-211 | a slug-only join finds the writer's resource for a row, if and only if no other workspace holds the slug in a context or in `resources` |
| ResourceRekeying.B01KeepsTenancyIff | backend/alembic/versions/b01_resource_pk_writer_phase2.py:325-350 | a run of b01 that does not abort leaves every key and workspace with the workspace that wrote the row, if and only if a condition on the tables before it holds |
| ResourceRekeying.B01Deterministic | backend/alembic/versions/b01_resource_pk_writer_phase2.py:170-278 | once the audit passes, any two runs with the same seed give the same rows, whichever match each UPDATE picks |
| ResourceRekeying.B01TokensScoped | backend/alembic/versions/b01_resource_pk_writer_phase2.py:214-278 | a token that ends with a key ends with a workspace, whatever rows the tables hold |
| ResourceRekeying.B01Rerun | backend/alembic/versions/b01_resource_pk_writer_phase2.py:325-350 | running the upgrade again, from any tables whose token keys resolve, does not abort and changes no row |
| ResourceHistory.A97Correct | backend/alembic/versions/a97_resources_entity.py:196-361 | a97 on tables whose rows were written under an own context leaves every key with its writer's workspace |
| ResourceHistory.SlugJoinIsTenantSafe | backend/alembic/versions/a97_resources_entity.py:217-304 | with one owner per satellite slug the join by slug alone cannot reach another workspace's resource |
| ResourceHistory.StepKeepsInv | backend/alembic/versions/b01_resource_pk_writer_phase2.py:281-350 | every step of a history (context created, deleted, restored, row written or deleted, resource added or dropped, workspace hard-deleted after the check, a97, b01) keeps tenancy |
| ResourceHistory.HistoryKeepsTenancy | backend/alembic/versions/b01_resource_pk_writer_phase2.py:281-350 | at every moment of every history, slug reuse by other workspaces and checked hard deletes included, a non-NULL key points to a resource of the workspace that wrote the row |
| ResourceHistory.DisputedIsReachable | backend/alembic/versions/b01_resource_pk_writer_phase2.py:96-167 | a history that leads to a slug owned by a deleted and a live workspace with a row in between |
| ResourceHistory.DisputedAborts | backend/alembic/versions/b01_resource_pk_writer_phase2.py:81-167 | there b01 aborts |
| ResourceHistory.HardDeleteRehomes | backend/alembic/versions/b01_resource_pk_writer_phase2.py:150-167 | after the hard delete the message suggests, which the check would have refused, b01 completes and gives the row to the other workspace |
| ResourceHistory.HardDeleteKeepsInv | backend/alembic/versions/b01_resource_pk_writer_phase2.py:150-167 | a hard delete after the check on the columns (a slug of the workspace on an unkeyed event, schema or token has two other owners) keeps tenancy |
| ResourceHistory.B01FindsNoDispute | backend/alembic/versions/b01_resource_pk_writer_phase2.py:88-167 | a completed b01 found no unkeyed row that had lost its own contexts while two other workspaces hold its slug: such a row waits |
| ResourceHardDelete.CheckIsEnough | backend/alembic/versions/b01_resource_pk_writer_phase2.py:150-167 | after a hard delete that the check allows, no later history has a key outside its writer's workspace, whoever wrote the rows |
| ResourceHardDelete.Doomed | backend/alembic/versions/b01_resource_pk_writer_phase2.py:192-211 | an unkeyed row of a workspace that is gone, with at most one other owner of its slug, has a later history that gives it to that owner |
| ResourceHardDelete.CheckIsExact | backend/alembic/versions/b01_resource_pk_writer_phase2.py:150-167 | the check passes if and only if tenancy holds at every moment of every history after the delete, whoever wrote the rows the operator sees |
| ResourceMigration.Fill | backend/alembic/versions/b01_resource_pk_writer_phase2.py:192-211 | `UPDATE ... FROM`: each row without a key gets some match, if there is one, and no other row changes |
| ResourceMigration.ResourceDatabase.SeedMissing | backend/alembic/versions/b01_resource_pk_writer_phase2.py:281-322 | after the seed exactly the old pairs and the wanted ones are there, each once, and old ids keep their pairs |
| ResourceMigration.ResourceDatabase.FillTokens | backend/alembic/versions/b01_resource_pk_writer_phase2.py:214-254 | the scoped pass and then the slug-only pass are one fill with the join that depends on the token's workspace |
| ResourceMigration.ResourceDatabase.UpgradeA97 | backend/alembic/versions/a97_resources_entity.py:196-361 | the statements compute the A97 relation, or abort, leave everything as it was, and no run could have completed |
| ResourceMigration.ResourceDatabase.UpgradeB01 | backend/alembic/versions/b01_resource_pk_writer_phase2.py:325-350 | the statements compute the B01 relation, or abort, leave everything as it was, and no run could have completed |
| ResourceMigration.AbortIsForced | backend/alembic/versions/b01_resource_pk_writer_phase2.py:81-167 | whether the audit aborts does not depend on the ids the seed mints |
| ResourceMigration.A97AbortIsForced | backend/alembic/versions/a97_resources_entity.py:217-278 | whether the audits of a97 abort does not depend on the ids the seed mints |
| ResourceMigration.ResourceDatabase.AmbiguousSlugs | backend/alembic/versions/b01_resource_pk_writer_phase2.py:113-131 | the audit query finds exactly the ambiguous slugs of rows without a key |
| ResourceMigration.ResourceDatabase.Audit | backend/alembic/versions/b01_resource_pk_writer_phase2.py:81-167 | the three queries find nothing if and only if no unkeyed row, and no unscoped token, has an ambiguous slug |
| EdgeRepair.ScopedKeptIff | backend/scripts/audit_edge_context_invariant.py:83-94 | a fully scoped edge is kept if and only if both endpoints exist and agree with it |
| EdgeRepair.NullKeptIff | backend/alembic/versions/b03_396_neural_edges_ws_ctx_not_null.py:113-126 | an edge with a NULL is filled if and only if some filling agrees with both endpoints, and then consistently |
| EdgeRepair.RepairKeepsExactlyRecoverable | backend/alembic/versions/b03_396_neural_edges_ws_ctx_not_null.py:113-171 | audit fix then b03 keeps exactly the recoverable edges; kept edges satisfy the invariant and keep their set columns |
| EdgeRepair.RepairsCommute | backend/scripts/audit_edge_context_invariant.py:209-217 | the audit's delete and b03's data steps give the same table in either order |
| EdgeRepair.RepairsIdempotent | backend/alembic/versions/b03_396_neural_edges_ws_ctx_not_null.py:113-171 | each repair and their composition is idempotent |
| EdgeRepair.B03AloneLeaves | backend/alembic/versions/b03_396_neural_edges_ws_ctx_not_null.py:113-184 | b03 alone leaves an inconsistent edge exactly when that edge was fully scoped and violating |
| EdgeRepair.CategoriesPartition | backend/scripts/audit_edge_context_invariant.py:101-110 | the three categories partition the violations |
| EdgeRepair.CountByCategory | backend/scripts/audit_edge_context_invariant.py:136-151 | the grouped counts are the sizes of the three categories |
| EdgeRepair.EdgeStore.AuditInvariant | backend/scripts/audit_edge_context_invariant.py:58-220 | the report's counts add up, and with the fix exactly the violating edges go |
| EdgeRepair.EdgeStore.B03DataSteps | backend/alembic/versions/b03_396_neural_edges_ws_ctx_not_null.py:113-171 | backfill, count and conditional delete compute the data repair and report its row counts |
| EdgeNotNullProtocol.RunInvariant | backend/alembic/versions/b03_396_neural_edges_ws_ctx_not_null.py:110-228 | over every run with writers, crashes, re-runs and downgrades: VALIDATE fails at most once more often than the migration is downgraded, SET NOT NULL never, and a validated CHECK holds for all rows |
| EdgeNotNullProtocol.LaterAttemptSucceeds | backend/alembic/versions/b03_396_neural_edges_ws_ctx_not_null.py:173-191 | once a CHECK was committed, every later attempt that reaches VALIDATE passes it |
| EdgeNotNullProtocol.CheckStays | backend/alembic/versions/b03_396_neural_edges_ws_ctx_not_null.py:177-184 | a committed CHECK stays until a downgrade |
| EdgeNotNullProtocol.SetNotNullSucceeds | backend/alembic/versions/b03_396_neural_edges_ws_ctx_not_null.py:196-207 | SET NOT NULL succeeds whenever it is reached |
| EdgeNotNullProtocol.QuietAttempt | backend/alembic/versions/b03_396_neural_edges_ws_ctx_not_null.py:110-184 | without other sessions the statements up to the first commit compute the data repair |
| EdgeNotNullProtocol.OneFailureIsPossible | backend/alembic/versions/b03_396_neural_edges_ws_ctx_not_null.py:168-191 | the bound is sharp: a write between the DELETE and the ALTER makes a first VALIDATE fail |
| PhaseCheckProtocol.StepKeepsInv | backend/alembic/versions/d07_495_cluster_label_phase.py:62-129 | every step keeps the invariant, and migration steps leave the rows alone |
| PhaseCheckProtocol.RunInvariant | backend/alembic/versions/d07_495_cluster_label_phase.py:62-129 | over every run no migration statement touches a ledger row, a validated CHECK holds for all rows and VALIDATE never fails |
| PhaseCheckProtocol.UpgradeValidates | backend/alembic/versions/d07_495_cluster_label_phase.py:80-96 | an upgrade that reaches VALIDATE ends validated |
| PhaseCheckProtocol.DowngradeOutcome | backend/alembic/versions/d07_495_cluster_label_phase.py:99-129 | a downgrade stays NOT VALID exactly when a row of the new phase is there, and otherwise its VALIDATE succeeds |
| PhaseCheckProtocol.ProbeIsCurrent | backend/alembic/versions/d07_495_cluster_label_phase.py:114-129 | the probe's answer still holds when the ALTER commits |
| AddonLedger.MissingUnits | backend/alembic/versions/e22_665_backfill_admin_grants.py:131-155 | the clamped floor division grants exactly the whole units of the cache that other sources do not cover, and never zero |
| AddonLedger.ClosedForm | backend/alembic/versions/e22_665_backfill_admin_grants.py:124-158 | e22 at one clock and e23 at a later one: the cache is the active non-admin units then, plus the units missing before, in whole units |
| AddonLedger.SameClockClosedForm | backend/alembic/versions/e23_799_normalize_addon_caches.py:125-139 | at one clock the cache becomes max(N * u, floor(c / u) * u) |
| AddonLedger.RoundingLoss | backend/alembic/versions/e22_665_backfill_admin_grants.py:131-155 | that value is less than one unit below the cache, keeps a multiple not below N * u, and never exceeds the larger of both |
| AddonLedger.ExistingGrantWins | backend/alembic/versions/e22_665_backfill_admin_grants.py:156-158 | an admin row that exists is left alone and decides the cache with the others |
| AddonLedger.NoZeroQuantity | backend/alembic/versions/e22_665_backfill_admin_grants.py:124-158 | every row e22 adds is an active admin grant of at least one unit |
| AddonLedger.RepeatE22 | backend/alembic/versions/e22_665_backfill_admin_grants.py:124-158 | repeating e22 changes nothing |
| AddonLedger.RepeatE23 | backend/alembic/versions/e23_799_normalize_addon_caches.py:125-139 | repeating e23 changes nothing |
| AddonLedger.RepeatBoth | backend/alembic/versions/e23_799_normalize_addon_caches.py:125-139 | after both, repeating either changes nothing, for a workspace in any state |
| AddonLedger.SumQuantities | backend/alembic/versions/e23_799_normalize_addon_caches.py:129-136 | SUM(quantity) in any row order |
| AddonLedger.Database.UpgradeE22 | backend/alembic/versions/e22_665_backfill_admin_grants.py:100-158 | nine column inserts, each reading its own add-on type, compute E22 on every ledger |
| AddonLedger.Database.UpgradeE23 | backend/alembic/versions/e23_799_normalize_addon_caches.py:97-139 | the loop over nine columns computes E23 |
| AuditLog.ReadHead | backend/src/services/secret_store_service.py:137-143 | the newest row's hash is the head of the chain |
| AuditLog.InsertSawTheHead | backend/alembic/versions/e50_1128_secret_store.py:193 | an insert that gets past the unique key was made against the current head |
| AuditLog.StepKeepsInv | backend/alembic/versions/e50_1128_secret_store.py:179-244 | reads, inserts, commits, aborts, updates, deletes and truncates keep every chain linear |
| AuditLog.RunKeepsChains | backend/alembic/versions/e50_1128_secret_store.py:179-244 | with concurrent appenders each log is one fork-free path from the genesis hash, and a row whose hash no longer recomputes was changed through the carve-out |
| AuditLog.RowsStay | backend/alembic/versions/e72_1365_secret_log_carveout.py:40-65 | no row ever vanishes or changes outside the two carve-out columns |
| AuditLog.VerifyAuditChain | backend/src/services/secret_store_service.py:241-298 | the walk says valid exactly for chains that are linked and whose broken hashes are erasure-shaped, and otherwise names the first row that is not |
| AuditLog.ErasuresKeepVerifying | backend/alembic/versions/e72_1365_secret_log_carveout.py:40-65 | while the updates that get past the trigger only write pseudonyms, the verifier accepts every reachable chain, whatever else is attempted |
| Ranking.RankedUnique | backend/scripts/backfill_tag_cooccurrence_edges.py:163-164 | score descending, then id, orders the rows of a query in one way only |
| Keyset.KeysetContinues | backend/scripts/migrate_attachments_to_r2.py:329-344 | a page of `id > last ORDER BY id LIMIT n` is the next stretch of the ids, and empty only at their end |
| Keyset.FirstPage | backend/scripts/migrate_attachments_to_r2.py:329-344 | the query returns the first n ids past the last one, or all of them |
| Ranking.OrderBy | backend/scripts/backfill_tag_cooccurrence_edges.py:163-164 | sorting computes that order |
| SemanticBackfill.OneMoreMinusSelf | backend/scripts/backfill_semantic_edges.py:115-131 | fetching k + 1 and dropping the self-hit is the top k of the ranking without self |
| SemanticBackfill.QueryNeighbors | backend/scripts/backfill_semantic_edges.py:87-131 | the loop returns those neighbours with their scores, and nothing for a memory without a vector |
| SemanticBackfill.NeighboursAreTopKIff | backend/scripts/backfill_semantic_edges.py:123-131 | the result is the top k if and only if k is at least 1 or nothing ranks before the memory itself |
| SemanticBackfill.ZeroBudgetReturnsAHit | backend/scripts/backfill_semantic_edges.py:123-131 | two points, a budget of 0 and one hit |
| SemanticBackfill.EvaluatedIff | backend/scripts/backfill_semantic_edges.py:186-216 | for every top-k, a pair is evaluated exactly when it is ordered and one end has the other among its k nearest others at the threshold; with a top-k of 0, as the nearest point of all |
| SemanticBackfill.ExactIsUnique | backend/scripts/backfill_semantic_edges.py:211-240 | the final edges depend on the set of pairs and not on the order of the memories |
| SemanticBackfill.Graph.ForHits | backend/scripts/backfill_semantic_edges.py:206-249 | the inner loop adds the hits' pairs at the threshold, each once |
| SemanticBackfill.Graph.BackfillContext | backend/scripts/backfill_semantic_edges.py:134-273 | each pair of the symmetric closure is tried once; counts add up; existing edges stay; a dry run writes nothing; with symmetric scores the table gets exactly the missing edges |
| TagBackfill.TooFewTags | backend/scripts/backfill_tag_cooccurrence_edges.py:136-166 | the early exit on few query tags skips only queries that find nothing |
| TagBackfill.ProcessSettles | backend/scripts/backfill_tag_cooccurrence_edges.py:124-222 | after a memory was processed, a second look at it adds nothing, and no edge was lost or changed |
| TagBackfill.ProcessDependsOnOwn | backend/scripts/backfill_tag_cooccurrence_edges.py:124-134 | what a memory adds depends on its own outgoing edges only |
| TagBackfill.ProcessAllIsOneShot | backend/scripts/backfill_tag_cooccurrence_edges.py:257-318 | processing distinct memories in any order gives what the original table decides for each alone |
| TagBackfill.OneShotIsUnique | backend/scripts/backfill_tag_cooccurrence_edges.py:257-318 | that specification has one result |
| TagBackfill.RestartIsEnough | backend/scripts/backfill_tag_cooccurrence_edges.py:234-237 | a run over a prefix changes nothing about what the next full run ends with |
| TagBackfill.CrashesDoNotMatter | backend/scripts/backfill_tag_cooccurrence_edges.py:234-237 | any number of crashed runs followed by one that ends is one run |
| TagBackfill.TotalIsGrowth | backend/scripts/backfill_tag_cooccurrence_edges.py:306 | the reported number of created edges is the growth of the table |
| TagBackfill.DryRunIsUpperBound | backend/scripts/backfill_tag_cooccurrence_edges.py:183-187 | what a dry run announces is never less than what the run creates |
| TagBackfillScript.EveryRunIsOneShot | backend/scripts/backfill_tag_cooccurrence_edges.py:225-318 | after any crashed runs, a run that ends leaves the one-shot specification |
| TagBackfillScript.NextPage | backend/scripts/backfill_tag_cooccurrence_edges.py:259-278 | a page is the next stretch of the eligible ids, empty only at their end |
| TagBackfillScript.Session.BackfillOne | backend/scripts/backfill_tag_cooccurrence_edges.py:95-222 | with its early exits the function writes what the full query and write loop would, and counts it |
| TagBackfillScript.Session.Backfill | backend/scripts/backfill_tag_cooccurrence_edges.py:225-318 | for every batch size and point of death the committed table is that of a prefix of the ids, the whole if the run ends; counts add up |
| TagBackfillScript.Session.HandleMemory | backend/scripts/backfill_tag_cooccurrence_edges.py:283-315 | one memory advances the table and the counts, and the memo always holds what a fresh read would return |
| LockOrder.RunKeepsExclusion | backend/scripts/migrate_attachments_to_r2.py:294-309 | over every run no two transactions hold conflicting locks |
| LockOrder.NeverDeadlocked | backend/scripts/migrate_attachments_to_r2.py:389-427 | any number of transactions that take contexts, then files, each in id order, and after a file the lock on its storage key, never all wait for each other, if every file has its own key |
| LockOrder.SharedKeyDeadlocks | backend/alembic/versions/f18_2395_file_cleanup.py:19-34 | two files with one key: two transactions that follow the discipline reach a deadlock |
| LockOrder.DeadlockFreeIff | backend/scripts/migrate_attachments_to_r2.py:320-325 | the discipline rules out deadlock if and only if no two files share a storage key |
| LockOrder.CanDrain | backend/scripts/migrate_attachments_to_r2.py:389-427 | from every reachable state all of them can be carried to their commit |
| LockOrder.OppositeOrdersDeadlock | backend/scripts/migrate_attachments_to_r2.py:389-394 | without the order two transactions can block each other |
| AttachmentPage.GroupFiles | backend/scripts/migrate_attachments_to_r2.py:346-356 | the dictionary holds the page's files per attachment, in order, and counts the unparsable ones |
| AttachmentPage.Classify | backend/scripts/migrate_attachments_to_r2.py:358-387 | the loop over the groups collects the rows to bind and counts orphans and workspace-wide rows |
| AttachmentPage.SortPage | backend/scripts/migrate_attachments_to_r2.py:346-395 | grouping, classifying and sorting is a filter of the page |
| AttachmentTables.FieldIsTally | backend/scripts/migrate_attachments_to_r2.py:328-430 | each count of the report is the number of rows of its kind |
| AttachmentHistory.HonestEverywhere | backend/scripts/migrate_attachments_to_r2.py:341-413 | every change by a script rests on the log before it: a file is bound only to the context the parent read gave for the marker of the page read, while unbound and with the context present; a file is erased only if the page read found it purgeable and its row is unchanged |
| AttachmentScript.Store.GuardedUpdate | backend/scripts/migrate_attachments_to_r2.py:405-413 | the UPDATE binds an unbound row or changes nothing |
| AttachmentScript.Store.LockContexts | backend/scripts/migrate_attachments_to_r2.py:294-309 | exactly the contexts that still exist are locked, in id order |
| AttachmentScript.Store.LockAndBind | backend/scripts/migrate_attachments_to_r2.py:389-427 | the locks a page requests follow the discipline |
| AttachmentScript.Store.RepairContextBindings | backend/scripts/migrate_attachments_to_r2.py:312-430 | whatever other processes do, every write is justified by the reads before it and `bound` is the number of writes; on a quiet database the result and the counts are those of the one-shot repair for every page size, and a dry run counts the same |
| AttachmentPurge.CountsPartition | backend/scripts/migrate_attachments_to_r2.py:328-430 | bound + shared + orphan + unparsable is the number of eligible rows |
| AttachmentPurge.SecondRepair | backend/scripts/migrate_attachments_to_r2.py:326-344 | a second repair changes nothing |
| AttachmentPurge.SecondRepairBindsNothing | backend/scripts/migrate_attachments_to_r2.py:326-344 | and counts nothing as bound |
| AttachmentPurge.OrphanIffPurged | backend/scripts/migrate_attachments_to_r2.py:369-460 | for an unbound row with a canonical marker, orphan means that the purge deletes it |
| AttachmentPurge.AfterRepairAndPurge | backend/scripts/migrate_attachments_to_r2.py:369-480 | after both, such a row is gone, or has its memory's context, or its memory has none |
| AttachmentPurge.LenientOrphanStays | backend/scripts/migrate_attachments_to_r2.py:446-455 | an orphan with a marker only the lenient parser reads is left alone by both |
| AttachmentScript.Store.PurgeOrphans | backend/scripts/migrate_attachments_to_r2.py:433-480 | whatever other processes do, only purgeable rows go and the count is their number; on a quiet database exactly the purgeable rows go, for every batch size of at least 1; below 1 nothing happens |
| TextReplace.ReplaceSeam | backend/scripts/verify_remote_oauth.py:262-264 | replacing a word without brackets works on both sides of a bracket separately |
| TextReplace.NothingNew | backend/scripts/verify_remote_oauth.py:262-264 | a replacement creates no occurrence of another word, unless the marker has it |
| Redaction.RestIsClean | backend/scripts/verify_remote_oauth.py:261-264 | from any step on, a text free of the earlier secrets ends clean if every marker does |
| Redaction.SecretIsReplacedWhole | backend/scripts/verify_remote_oauth.py:261-264 | longest first: a secret is never replaced by way of a shorter one inside it |
| Redaction.CleansAllIffCleansSecrets | backend/scripts/verify_remote_oauth.py:261-264 | the loop cleans every text if and only if it cleans each secret by itself |
| Redaction.CleanMarkersSuffice | backend/scripts/verify_remote_oauth.py:261-264 | if no secret lies inside a marker, every text comes out clean and every secret as its marker |
| Redaction.NeverRecreated | backend/scripts/verify_remote_oauth.py:261-264 | no later step re-creates a secret that is gone |
| Redaction.RedactedIsNotRedacted | backend/scripts/verify_remote_oauth.py:239-264 | the secret `redacted` is never removed |
| RedactorScript.LongestFirstKeeps | backend/scripts/verify_remote_oauth.py:261-262 | the stable sort keeps the registered secrets, longest first |
| RedactorScript.ScrubTextIsClean | backend/scripts/verify_remote_oauth.py:259-266 | with well chosen secrets no registered secret is left in any text |
| RedactorScript.ScrubTextIsCleanIff | backend/scripts/verify_remote_oauth.py:259-266 | for bracket-free secrets, all texts come out clean if and only if each registered secret does |
| RedactorScript.ScrubJsonIsClean | backend/scripts/verify_remote_oauth.py:273-287 | recursive scrubbing leaves no secret in any string leaf, masks under sensitive keys, and the document's shape |
| RedactorScript.Redactor.Register | backend/scripts/verify_remote_oauth.py:239-242 | values of at least eight characters are remembered once, with their first kind |
| RedactorScript.Redactor.Rewrite | backend/scripts/verify_remote_oauth.py:259-266 | the loop over the sorted secrets computes the scrub |
| OAuthSteps.VerdictMeaning | backend/scripts/verify_remote_oauth.py:2255-2260 | a passing verdict means all required steps passed if and only if the record reaches the last of them |
| OAuthVerifier.WhatPassIsWorth | backend/scripts/verify_remote_oauth.py:2255-2291 | a PASS means every required step passed once, unless an optional step with required ones to come was interrupted |
| OAuthVerifier.InterruptedRunPasses | backend/scripts/verify_remote_oauth.py:1109-1120 | a full run interrupted in D4 reports PASS with most required steps missing |
| OAuthVerifier.Verifier.Finish | backend/scripts/verify_remote_oauth.py:896-934 | a step is recorded once, whatever happens in its body |
| OAuthVerifier.Verifier.Exchange | backend/scripts/verify_remote_oauth.py:1063-1098 | what a token request leaves: a successful answer is kept if it can be described and no interrupt comes between, and is otherwise only received |
| OAuthVerifier.Verifier.Negatives | backend/scripts/verify_remote_oauth.py:1532-1558 | T1-T3 are recorded, and all three passed only if none of them issued a token |
| OAuthVerifier.Verifier.TokenExchange | backend/scripts/verify_remote_oauth.py:1524-1584 | T1-T5 are all recorded; without a token T4 is not passed; if the four negatives passed, no token but the one of T4 was issued |
| OAuthVerifier.Verifier.RefreshAndScope | backend/scripts/verify_remote_oauth.py:1834-1947 | S2, F1-F4, S3 and S4 are all recorded whichever early return is taken |
| OAuthVerifier.Verifier.RevokeCurrent | backend/scripts/verify_remote_oauth.py:2023-2053 | V1, V2 and what they flag: flags tell the truth unless V1's revocation failed and V2 flagged the pair; a whole answer is dropped exactly if the refresh of V2 was answered with tokens |
| OAuthVerifier.Verifier.RevokeRefresh | backend/scripts/verify_remote_oauth.py:2036-2053 | V2 passes only if the refresh token was revoked with 200 and its use refused, and the pair is flagged exactly then |
| OAuthVerifier.Verifier.Cleanup | backend/scripts/verify_remote_oauth.py:2204-2251 | if C1 passes and no token was lost in V2, exactly the tokens that whole answers carried were revoked with 200; if one was lost there and tokens are issued once, one is left |
| OAuthVerifier.Verifier.MainFlow | backend/scripts/verify_remote_oauth.py:1122-1152 | every early return leaves a required step recorded as not passed |
| OAuthVerifier.Verifier.Run | backend/scripts/verify_remote_oauth.py:1109-1120 | for all answers and interrupts: the shape of the record, what a PASS is worth, and exactly when a passed C1 means that cleanup has revoked everything, also in runs the operator ended early and runs whose V1 or V2 failed |
| OAuthVerifier.LostTokenIsNotRevoked | backend/scripts/verify_remote_oauth.py:1063-1098 | a run with V1, V2 and C1 passed in which a received access token is never revoked |
| OAuthVerifier.FlaggedTokenIsNotRevoked | backend/scripts/verify_remote_oauth.py:2023-2049 | a run whose V1 revocation is answered with 500, V2 and C1 passed, in which a token of a whole answer is never revoked |
| OAuthVerifier.UnexpectedPairIsNotRevoked | backend/scripts/verify_remote_oauth.py:2036-2049 | a run with V1 and C1 passed and a new pair in answer to V2's refresh, in which a token of a whole answer is never revoked |
| OAuthTokens.KeptAndRevoked | backend/scripts/verify_remote_oauth.py:1086-1098 | if all kept pairs are revoked and no whole answer was dropped, the revoked tokens are exactly those of whole answers |
| OAuthTokens.DroppedIsLeft | backend/scripts/verify_remote_oauth.py:2040-2049 | a whole answer that was not kept leaves a token unrevoked, if tokens are issued once |

## Left out

- Application services, repositories and models: used only through their documented contracts, for instance `create_edge_if_absent` as insert-if-absent on user, source and destination; its own check of the edge invariant is one of the rejected inserts of `SemanticBackfill`.
- HTTP, sockets, the callback listener, stdin, JSON encoding and hashing: server answers are arbitrary values fixed before the run, HMAC is an arbitrary function.
- Regular expressions and URL parsing: the host replacement of the redactor, `redact_url`, `parse_redirect` and `normalize_base_url`. The redactor's theorems are about the secret loop and recursion with the host recorded.
- RedactorScript.ScrubJsonIsClean: keys are not scrubbed and a value that already looks like a mask is kept as it is, as in the source; dictionaries are sequences of fields.
- Redaction.CleansAllIffCleansSecrets: speaks about secrets without angle brackets, since a secret with one can arise from a marker and the text beside it.
- OAuthVerifier.Verifier.Run: interrupts happen inside a step's body, before or after a token answer; between steps the source records nothing. Step bodies that exchange no token are arbitrary outcomes, except that nothing after the first line of V2 skips. A successful answer is one with status 200 and an access token, as in `keep_tokens`.
- OAuthVerifier.Verifier.Exchange: adopted pairs are places in the list of pairs instead of shared objects.
- The migration of attachment bytes to object storage (`migrate_all`) and the storage-usage totals of `f24_2650_attachment_erasure`: file service calls and one clamped subtraction.
- AttachmentScript.Store.PurgeOrphans: the erasure function and the commit are one step.
- AttachmentScript.Store.RepairContextBindings: negative batch sizes, which the database rejects. Conservation of the counts is stated for a quiet database, since rows bound by others are skipped without a count.
- LockOrder.NeverDeadlocked: statements that update several rows, which take all row locks before the keys, and processes that lock a key without its row.
- SemanticBackfill.Graph.BackfillContext: search results are ranked by score and then id; the source leaves ties to the search engine. Weights depend on the order of the memories if scores are not symmetric.
- TagBackfill.ProcessAllIsOneShot: edge-write failures, and writers beside the runs: memories and hub tags are the same for a crashed run and its restart.
- ResourceHistory.HistoryKeepsTenancy: a97 and b01 are single steps, because each runs in one transaction with the API stopped. Contexts are never given another slug, and hard-deleted only with their workspace.
- ResourceMigration.ResourceDatabase.UpgradeA97: table creation, indexes and foreign keys, the unique-index abort of duplicate slugs, and the text of the abort messages.
- EdgeNotNullProtocol.RunInvariant: the two columns of SET NOT NULL are one step; lock timeouts are crashes.
- AuditLog.RunKeepsChains: the advisory lock of the append path is not assumed; the unique key alone keeps the chain linear. A hash is a number.
- AddonLedger.ClosedForm: both migrations lock their tables, so no writer is modelled between a SELECT and its write.
- Interleavings of `e14`, the access-event log `e66`, deduplication migrations, index builds, benchmarks and the frontend: same shapes as above, single statements, or no meaning to state.
