# cavalier in Dafny

A model of the orchestrator of cavalier, a tool that clones a production
RDS database into a disposable test instance and later destroys it. The
tool runs four linear operations — snapshot, restore, modify, terminate —
against the RDS and Secrets Manager APIs, and marks what it creates with
tags so that it only ever modifies or deletes instances it created itself.

The model has these parts:

- `TagPolicy` (`tag_policy.dfy`): the tag predicates and the naming rules.
  - Ownership test: the first `CREATED_BY_CAVALIER` tag, read with Go's `strconv.ParseBool`.
  - Snapshot link test: any `CAVALIER_DB_INSTANCE_IDENTIFIER` tag whose value is the instance identifier.
  - Usage-link test: the first `USE_SNAPSHOT_CREATED_BY_CAVALIER` tag.
  - Snapshot name `<id>-cavalier` and secret name `<prefix>/<id>`.
- `Faults` (`faults.dfy`): the faults the services return, as a closed datatype, and the orchestrator's errors.
- `Retry` (`retry.dfy`): the retry-exemption rule installed on every waiter.
- `Cloud` (`cloud.dfy`): a fake of the two services.
  - It offers exactly the operations of the `RDSClient` and `SecretsManagerClient` interfaces, plus the three waiters.
  - Its state is a `World`: instances, snapshots, secrets, injected faults, a script of waiter outcomes and an append-only call log.
  - `FakeCloud` is the object the orchestrator mutates.
- `Protocol` (`protocol.dfy`): one function per operation and helper, giving the world after it and the error it returns.
- `Orchestrator` (`orchestrator.dfy`): the `Cavalier` class. Its methods mirror the Go code step by step and are proved equal to the `Protocol` functions.
- `Properties` (`properties.dfy`): the safety and ordering properties, stated on the call log.
  - A *quiet cloud* (`Properties.Quiet`) injects no faults, and every wait in it succeeds. Lemmas about a quiet cloud give a run's exact calls. The lemmas marked "for any cloud" hold whatever the fakes answer.
- `RootPackage` (`root_package.dfy`): the older copy of the orchestrator in the root package, whose terminate differs.

Where the documented design of the tool and its code disagree, the model follows the code:

- Terminate in `cavalier.go` deletes the snapshot when the snapshot's link tag names the instance. It does not look at the usage-link tag.
- `handleTerminate` in `main.go` decides on the usage-link tag of the instance alone.
- A "not found" from `DeleteSecret` is not special-cased by the code: every `DeleteSecret` error is fatal. The fake, like the real service with forced deletion, succeeds on an absent secret.
- Modify and terminate refuse an unowned instance with a plain error, not with the sentinel `errDBNotCreatedByCavalier` of `error.go`. The sentinels are constructors of `Faults.Error` that no operation returns.

Two expectations of `cavalier_test.go` do not match `cavalier.go`:

- The test at `cavalier_test.go:88-108` expects the sentinel error for an unowned instance. `Properties.TerminateRefusesUnowned` shows the code returns the plain error.
- The test at `cavalier_test.go:48-86` expects success when the instance is gone and the listed snapshot has no link tag. `Properties.TerminateGoneWithUnlinkedSnapshot` shows the code fails there with "no corresponding the DB snapshot".

## Model

| member | source | states |
|---|---|---|
| `TagPolicy.ReadFlag` | cavalier.go:247-250 | `ok, _ := strconv.ParseBool(v)` is true iff `v` is one of "1", "t", "T", "TRUE", "true", "True" |
| `TagPolicy.FirstValue` | cavalier.go:242-253 | the early-return scan yields no value iff no tag has the key, else the value of the first tag with that key |
| `TagPolicy.HasTag` | cavalier.go:227-238 | true iff some tag, at any position, has the given key and value |
| `TagPolicy.IsCreatedByCavalier` | cavalier.go:241-254 | owned iff the first `CREATED_BY_CAVALIER` tag has a ParseBool-true value; no such tag means not owned |
| `TagPolicy.IsSnapshotCreatedByCavalier` | cavalier.go:226-239 | linked iff some `CAVALIER_DB_INSTANCE_IDENTIFIER` tag has value exactly `dbi` |
| `TagPolicy.DoesUseSnapshotCreatedByCavalier` | main.go:388-401 | true iff the first `USE_SNAPSHOT_CREATED_BY_CAVALIER` tag has a ParseBool-true value; no such tag means false |
| `TagPolicy.OwnershipIgnoresLaterTags` | cavalier.go:242-251 | once a `CREATED_BY_CAVALIER` tag is present, appended tags (a later duplicate key included) never change the ownership answer |
| `TagPolicy.LinkedByAnyMatchingTag` | cavalier.go:227-236 | a matching link tag links the snapshot whatever link tags precede or follow it |
| `TagPolicy.DbSnapshotName` | cavalier.go:256-258 | the snapshot name is the identifier followed by `-cavalier` |
| `TagPolicy.DbSnapshotNameInjective` | cavalier.go:256-258 | distinct instances get distinct snapshot names |
| `TagPolicy.MasterUserPasswordSecretName` | cavalier.go:558-560 | the secret name is the prefix, a `/`, then the instance identifier |
| `TagPolicy.SecretNameInjective` | cavalier.go:558-560 | under one prefix, distinct instances get distinct secret names |
| `TagPolicy.StringOrNil` | cavalier.go:530-535 | an empty optional setting is sent as nil, any other as itself |
| `Retry.WaiterRetryable` | cavalier.go:617-639 | never answers "retry"; decides (surfacing the poll error itself) exactly for an `ExpiredToken` API error, otherwise answers "skip" |
| `Retry.SetCustomRDSRetryable` | cavalier.go:586-613 | the installed rule answers (false, err) for `ExpiredToken` without the default rule, exactly the default rule's answer otherwise, and says "retry" only when the default rule does |
| `Protocol.DecideOwnership` | cavalier.go:204-224 | a failed describe is wrapped, a response of other than one instance is an error, and the single instance is owned iff it passes the ownership test |
| `Protocol.FirstLinkedIn` | cavalier.go:38-42 | the first entry of a page linked to `dbi`, none iff no entry is linked |
| `Protocol.ScanPages` | cavalier.go:32-45 | the first linked snapshot over pages in order; a page error before it is returned wrapped; neither gives the plain "no corresponding" error |
| `Orchestrator.ScanSnapshotPages` | cavalier.go:32-45 | the nested loop over pages and entries returns what `ScanPages` specifies |
| `Orchestrator.Cavalier.constructor` | cavalier.go:78-88 | the orchestrator holds the configuration and the clients it is given |
| `Orchestrator.Cavalier.DescribeDBSnapshotByIdentifier` | cavalier.go:24-46 | lists manual snapshots named `<dbi>-cavalier` and scans them, as `LookupSnapshot` specifies |
| `Orchestrator.Cavalier.IsCreatedByCavalier` | cavalier.go:204-224 | describes the configured instance and decides as `DecideOwnership` |
| `Orchestrator.Cavalier.DeleteDBInstance` | cavalier.go:105-141 | issues the delete and the deleted-wait as `DeleteInstance` specifies |
| `Orchestrator.Cavalier.CheckWhetherDBSnapshotAvailable` | cavalier.go:371-385 | waits on the snapshot named after the instance; a waiter error is wrapped |
| `Orchestrator.Cavalier.CheckWhetherDBInstanceAvailable` | cavalier.go:387-401 | waits on the instance; a waiter error is wrapped |
| `Orchestrator.Cavalier.CreateMasterUserPasswordSecret` | cavalier.go:403-419 | creates `<prefix>/<id>` holding the password and returns its ARN, or the wrapped fault |
| `Orchestrator.Cavalier.DeleteMasterUserPasswordSecret` | cavalier.go:421-438 | force-deletes `<prefix>/<id>`; any fault is wrapped and returned |
| `Orchestrator.Cavalier.GetMasterUserPasswordSecret` | cavalier.go:440-455 | returns the value stored under `<prefix>/<id>`, or the wrapped fault |
| `Orchestrator.Cavalier.HandleTerminate` | cavalier.go:143-202 | changes the cloud and returns exactly as `Protocol.Terminate` specifies |
| `Orchestrator.Cavalier.HandleSnapshot` | cavalier.go:260-291 | creates the linked snapshot and awaits it, as `Protocol.Snapshot` specifies |
| `Orchestrator.Cavalier.HandleModify` | cavalier.go:457-528 | changes the cloud and returns exactly as `Protocol.Modify` specifies |
| `Orchestrator.Cavalier.HandleRestore` | cavalier.go:293-369 | given the restore command's pre-check, changes the cloud and returns as `Protocol.Restore` specifies |
| `Properties.LookupSnapshotQuery` | cavalier.go:24-46 | the lookup queries manual snapshots named `<id>-cavalier`, changes nothing else, and finds only the stored linked snapshot |
| `Properties.TerminateRefusesUnowned` | cavalier.go:143-158 | unless the instance is shown owned or gone, only the describe call is issued, nothing changes, and the result is an error (the ownership error for an existing unowned instance) |
| `Properties.TerminateDeletesOnlyOwned` | cavalier.go:143-175 | for any cloud: unless the describe call shows an owned instance, terminate issues no `DeleteDBInstance` and removes no instance |
| `Properties.DeleteInstanceFaults` | cavalier.go:105-141 | not-found is success without waiting; invalid-state goes on to the deleted-wait; any other fault aborts before the wait, wrapped as the delete step; a failed deleted-wait is returned wrapped as the wait step |
| `Properties.CleanUpSnapshotFaults` | cavalier.go:177-199 | of the lookup errors only snapshot-not-found is tolerated; a found snapshot is deleted; no instance is touched |
| `Properties.TerminateWhenGone` | cavalier.go:147-183 | for any cloud, an instance reported gone gets no delete and no instance is removed; the forced secret delete follows the describe, and, when the secret delete succeeds, the snapshot lookup comes next |
| `Properties.CleanUpSnapshotQuiet` | cavalier.go:177-199 | in a quiet cloud, a missing snapshot is tolerated, a linked one deleted, an unlinked one makes terminate fail |
| `Properties.TerminateInstanceOwnedQuiet` | cavalier.go:160-173 | in a quiet cloud, an owned instance is deleted with both flags set and awaited, then its secret is deleted |
| `Properties.TerminateOwnedSteps` | cavalier.go:143-202 | in a quiet cloud, on an owned instance: describe, delete (automated backups deleted, final snapshot skipped), deleted-wait, secret delete, lookup, then the snapshot delete iff the snapshot is linked, each once and in that order |
| `Properties.TerminateOwnedAnyCloud` | cavalier.go:143-202 | for any cloud, on an owned instance: an instance-delete error ends the run, then a secret-delete error ends it, and otherwise the snapshot clean-up decides the outcome |
| `Properties.TerminateOwnedFaults` | cavalier.go:105-183 | on an owned instance whose waits all succeed: an invalid-state delete fault still reaches the deleted-wait, a not-found one skips it, and both go on to the secret delete; any other delete fault ends the run after the delete call; a failed secret delete ends it before the lookup; otherwise the lookup follows; the instance is removed only by a successful delete |
| `Properties.TerminateGoneQuiet` | cavalier.go:147-199 | in a quiet cloud, on a gone instance: describe, secret delete, lookup, and the snapshot delete iff linked |
| `Properties.TerminateGoneWithUnlinkedSnapshot` | cavalier.go:178-183 | an unlinked `test-cavalier` snapshot on the gone path makes terminate return "no corresponding the DB snapshot" |
| `Properties.ModifyRefusesUnowned` | cavalier.go:457-466 | unless the instance is shown owned, only the describe call is issued and the result is an error |
| `Properties.ChoosePasswordOutcome` | cavalier.go:486-503 | for any cloud: the secret `<prefix>/<id>` is created with the generated password, which is then used; on "already exists" `GetSecretValue` of that name follows and exactly the stored value is used, or the run fails when the get fails; any other creation fault is fatal; only the log and the secrets change |
| `Properties.ModifyReusesStoredSecret` | cavalier.go:486-514 | on an owned instance whose waits succeed, with no fault on `CreateSecret` or `GetSecretValue` and the secret already stored: modify passes exactly the stored password to `ModifyDBInstance` and leaves the secret unchanged; the available-wait follows unless the modification fails, whose error is returned wrapped |
| `Properties.ApplyModificationQuiet` | cavalier.go:505-523 | on an existing instance with no faults to meet, one immediate `ModifyDBInstance` with the chosen password and retention 0, then the available-wait, and success |
| `Properties.ModifyGeneratorFailure` | cavalier.go:481-484 | a failing generator aborts after the available-wait, before any secret call |
| `Properties.ChoosePasswordCalls` | cavalier.go:479-503 | the password step issues `CreateSecret`, then at most `GetSecretValue` |
| `Properties.ApplyModificationCalls` | cavalier.go:505-523 | the modification step issues one immediate `ModifyDBInstance`, then at most the available-wait |
| `Properties.ModifyOwnedImmediate` | cavalier.go:468-523 | on an owned instance every modification issued applies immediately with backup retention 0 |
| `Properties.ModifyAlwaysImmediate` | cavalier.go:457-528 | for any cloud, modify only extends the log, every `ModifyDBInstance` targets the instance with `ApplyImmediately` and retention 0, and an instance not shown owned gets only the describe call |
| `Properties.RestoreTagsMarkOwnership` | cavalier.go:313-325 | restore tags always pass the ownership test and carry the usage-link flag iff a snapshot is taken |
| `Properties.SnapshotLinksTarget` | cavalier.go:260-291 | in a quiet cloud, with the source present and the name free: the snapshot `<id>-cavalier` is created with the link tag for `id`, stored linked, and awaited, and the step succeeds |
| `Properties.SnapshotAnyCloud` | cavalier.go:260-291 | for any cloud: the first call always creates `<id>-cavalier` from the source with the link tag for `id`; a failed create returns the creation error with no wait; a successful one stores a linked snapshot, then the available-wait follows, and its failure is the only other error |
| `Properties.RestoreSourceChoice` | cavalier.go:294-311 | the restore source is the configured ARN; or, in a quiet cloud, the looked-up ARN of the snapshot just taken |
| `Properties.RestoreSourceAfterSnapshot` | cavalier.go:294-311 | for any cloud, with a snapshot to take: a failed snapshot step ends the run before the lookup; otherwise the lookup follows, its every error is returned, and the source is the ARN of the stored linked snapshot |
| `Properties.RestorePassesModifyGate` | cavalier.go:313-364 | for any cloud, a successful restore request creates the instance `<id>` with the restore tags; unless `DescribeDBInstances` is faulted, the trailing modify's ownership gate accepts it |
| `Properties.RestoreFromQuiet` | cavalier.go:313-369 | from an available snapshot, against a quiet cloud: the restore request, the wait, then the whole modify with the generated password stored as the new secret, and success |
| `Properties.CleanUpSnapshotCalls` | cavalier.go:177-199 | the clean-up issues the snapshot lookup first, issues no instance delete and removes no instance |
| `Properties.RestoreQuiet` | cavalier.go:293-369 | in a quiet cloud, a restore runs to completion: the instance gets its tags and the generated password, which is also stored as its secret |
| `RootPackage.HandleTerminate` | main.go:294-349 | changes the cloud and returns exactly as `RootPackage.Terminate` specifies |
| `RootPackage.CleanUpSnapshotQuiet` | main.go:328-346 | in a quiet cloud: any lookup failure is fatal, "not found" included; the found snapshot is deleted iff the instance has the usage-link tag |
| `RootPackage.CleanUpSnapshotAnyCloud` | main.go:328-346 | for any cloud: after the lookup, every lookup error is returned, "not found" included; the found snapshot, always the stored linked one, is deleted iff the instance carries the usage-link tag, with a delete fault returned wrapped; no instance is touched |
| `RootPackage.TerminateLookupFaultFatal` | main.go:321-332 | for any cloud, once the instance and secret steps succeed, a faulted snapshot lookup fails `handleTerminate` with that fault, whatever the instance's tags |
| `RootPackage.TerminateRefusesUnowned` | main.go:294-309 | an instance not shown owned or gone gets only the describe call, and nothing changes |
| `RootPackage.TerminateWhenGone` | main.go:295-334 | for any cloud, on the gone path no instance or snapshot is deleted; when the secret delete succeeds, the calls are the describe, the secret delete and the lookup; in a quiet cloud a missing snapshot is fatal |
| `RootPackage.TerminateOwnedSteps` | main.go:294-349 | in a quiet cloud, on an owned instance the steps run in order, and the snapshot is deleted iff it was found and the instance has the usage-link tag |

## Left out

- Password generation: `generateMasterUserPassword` and its generator set-up call a foreign library. The generator's result is a parameter of modify and restore. Its length and character classes are not modelled.
- Waiter internals: polling, the 30-minute budget, the 30-second minimum delay and the `time.Sleep` settle delays depend on time and SDK code. Each wait is one scripted outcome, success or a fault. The retry decision is modelled on its own in `Retry`.
- `context` cancellation and logging are not modelled.
- Error wrapping: an `fmt.Errorf` chain is one `Wrapped(step, fault)` layer. `errors.As` is a test on its fault.
- The paginator: a listing is a `seq<Page>`. The fake answers with a single page.
- The "more than one instance" branch: the fake's describe never returns it. It is proved only on `Protocol.DecideOwnership`.
- CLI wiring: `cmd/cavalier/main.go`, `realmain` and the flag builders of `main.go` are not modelled. The restore pre-check is the `requires` of `HandleRestore`: exactly one of the snapshot ARN and the source instance is given, and a snapshot is taken iff the source instance is given.
- `handleSnapshot`, `handleRestore` and `handleModify` of `main.go` match the library's operations apart from a settle delay. They are modelled once, in `Orchestrator`.
- `aws.go` only declares interfaces. Its method list is the set of operations of `Cloud`.
- The sentinels of `error.go` are not returned by the modelled code. They appear only as constructors of `Faults.Error`.
