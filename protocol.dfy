/**
 * What each step of the orchestrator does to the fake cloud: a function
 * from the world before the step to the world after it and the step's
 * result (`Option<Error>` for Go's `error`, None being nil). The methods of
 * `Orchestrator.Cavalier` are proved to behave exactly as these functions
 * say, and the lemmas of module `Properties` state the safety and ordering
 * properties of the protocol in their terms.
 */
module Protocol {
  import opened Wrappers
  import opened TagPolicy
  import opened Faults
  import opened Cloud

  /** The configuration of one invocation (`cavalier.Config`). */
  datatype Config = Config(
    sourceDBInstanceIdentifier: string,
    snapshotARN: string,
    dbInstanceClass: string,
    dbSubnetGroupName: string,
    dbInstanceIdentifier: string,
    dbParameterGroupName: string,
    optionGroupName: string,
    secretsManagerPrefix: string,
    vpcSecurityGroupIDs: seq<string>,
    takeSnapshot: bool)

  /**
   * What the `restore` command's PreRun establishes before the orchestrator
   * runs: exactly one of the snapshot ARN and the source instance is given,
   * and a snapshot is taken iff the source instance is given.
   */
  predicate PreRunChecked(cfg: Config) {
    (cfg.snapshotARN != "") != (cfg.sourceDBInstanceIdentifier != "") &&
    cfg.takeSnapshot == (cfg.sourceDBInstanceIdentifier != "")
  }

  /**
   * The answer of the `isCreatedByCavalier` method, Go's
   * `(types.DBInstance, bool, error)`: the owned instance, or
   * `(zero, false, nil)`, or `(zero, false, err)`.
   */
  datatype Ownership = Owned(instance: DBInstance) | NotOwned | LookupFailed(error: Error)

  /**
   * The decision `isCreatedByCavalier` makes on a `DescribeDBInstances`
   * response: a failed call is wrapped, a response with other than exactly
   * one instance is an error, and the single instance is owned iff it
   * passes the ownership test.
   */
  function DecideOwnership(resp: Result<seq<DBInstance>, Fault>): (r: Ownership)
    ensures r.Owned? <==> resp.Success? && |resp.value| == 1 && IsCreatedByCavalier(resp.value[0])
    ensures r.Owned? ==> r.instance == resp.value[0]
    ensures r.NotOwned? <==> resp.Success? && |resp.value| == 1 && !IsCreatedByCavalier(resp.value[0])
    ensures resp.Failure? ==> r == LookupFailed(Wrapped(DescribingInstance, resp.error))
    ensures resp.Success? && |resp.value| != 1 ==> r == LookupFailed(NotExactlyOneInstance)
  {
    match resp
    case Failure(f) => LookupFailed(Wrapped(DescribingInstance, f))
    case Success(instances) =>
      if |instances| != 1 then LookupFailed(NotExactlyOneInstance)
      else if !IsCreatedByCavalier(instances[0]) then NotOwned
      else Owned(instances[0])
  }

  function CheckOwnership(w: World, id: string): (World, Ownership) {
    var (w1, resp) := w.DescribeDBInstances(id);
    (w1, DecideOwnership(resp))
  }

  /** No snapshot of `snaps` is linked to `dbi`. */
  ghost predicate NoneLinked(dbi: string, snaps: seq<DBSnapshot>) {
    forall k :: 0 <= k < |snaps| ==> !IsSnapshotCreatedByCavalier(dbi, snaps[k])
  }

  /** The first snapshot of `snaps` linked to `dbi`, in listing order. */
  function FirstLinkedIn(dbi: string, snaps: seq<DBSnapshot>): (r: Option<DBSnapshot>)
    ensures r.None? <==> NoneLinked(dbi, snaps)
    ensures r.Some? ==> IsSnapshotCreatedByCavalier(dbi, r.value)
    ensures r.Some? ==> exists k :: 0 <= k < |snaps| && snaps[k] == r.value && NoneLinked(dbi, snaps[..k])
  {
    if snaps == [] then None
    else if IsSnapshotCreatedByCavalier(dbi, snaps[0]) then
      assert snaps[..0] == [];
      Some(snaps[0])
    else
      var r := FirstLinkedIn(dbi, snaps[1..]);
      assert forall k :: 1 <= k < |snaps| ==> snaps[k] == snaps[1..][k - 1];
      if r.Some? then
        FirstLinkedShift(dbi, snaps, r.value);
        r
      else
        r
  }

  lemma FirstLinkedShift(dbi: string, snaps: seq<DBSnapshot>, s: DBSnapshot)
    requires snaps != [] && !IsSnapshotCreatedByCavalier(dbi, snaps[0])
    requires exists k :: 0 <= k < |snaps[1..]| && snaps[1..][k] == s && NoneLinked(dbi, snaps[1..][..k])
    ensures exists k :: 0 <= k < |snaps| && snaps[k] == s && NoneLinked(dbi, snaps[..k])
  {
    var k :| 0 <= k < |snaps[1..]| && snaps[1..][k] == s && NoneLinked(dbi, snaps[1..][..k]);
    assert snaps[..k + 1] == [snaps[0]] + snaps[1..][..k];
  }

  /** A page that was fetched and holds no snapshot linked to `dbi`. */
  ghost predicate Barren(dbi: string, page: Page) {
    page.Page? && NoneLinked(dbi, page.snapshots)
  }

  /**
   * The scan of `DescribeDBSnapshotByIdentifier`: pages and their entries
   * in order; the first snapshot linked to `dbi` is the answer, a page
   * error ends the scan wrapped, and a listing with neither is the plain
   * "no corresponding the DB snapshot" error.
   */
  function ScanPages(dbi: string, pages: seq<Page>): (r: Result<DBSnapshot, Error>)
    ensures r.Success? ==> IsSnapshotCreatedByCavalier(dbi, r.value)
    ensures r.Success? ==> exists p :: (0 <= p < |pages| && pages[p].Page? &&
      FirstLinkedIn(dbi, pages[p].snapshots) == Some(r.value) &&
      forall q :: 0 <= q < p ==> Barren(dbi, pages[q]))
    ensures r == Failure(NoCorrespondingSnapshot) <==> forall p :: 0 <= p < |pages| ==> Barren(dbi, pages[p])
    ensures r.Failure? && r.error != NoCorrespondingSnapshot ==>
      r.error.Wrapped? && r.error.step == DescribingSnapshot &&
      exists p :: (0 <= p < |pages| && pages[p] == PageError(r.error.cause) &&
        forall q :: 0 <= q < p ==> Barren(dbi, pages[q]))
  {
    if pages == [] then Failure(NoCorrespondingSnapshot)
    else
      match pages[0]
      case PageError(f) =>
        assert !Barren(dbi, pages[0]);
        Failure(Wrapped(DescribingSnapshot, f))
      case Page(snaps) =>
        var found := FirstLinkedIn(dbi, snaps);
        if found.Some? then
          assert !Barren(dbi, pages[0]);
          Success(found.value)
        else
          var rest := ScanPages(dbi, pages[1..]);
          ScanPagesShift(dbi, pages, rest);
          rest
  }

  /** The scan's contract carries over a first page that holds no linked snapshot. */
  lemma ScanPagesShift(dbi: string, pages: seq<Page>, r: Result<DBSnapshot, Error>)
    requires pages != [] && Barren(dbi, pages[0])
    requires var tail := pages[1..];
      (r.Success? ==> exists p :: (0 <= p < |tail| && tail[p].Page? &&
        FirstLinkedIn(dbi, tail[p].snapshots) == Some(r.value) &&
        forall q :: 0 <= q < p ==> Barren(dbi, tail[q]))) &&
      (r == Failure(NoCorrespondingSnapshot) <==> forall p :: 0 <= p < |tail| ==> Barren(dbi, tail[p])) &&
      (r.Failure? && r.error.Wrapped? ==>
        exists p :: (0 <= p < |tail| && tail[p] == PageError(r.error.cause) &&
          forall q :: 0 <= q < p ==> Barren(dbi, tail[q])))
    ensures r.Success? ==> exists p :: (0 <= p < |pages| && pages[p].Page? &&
      FirstLinkedIn(dbi, pages[p].snapshots) == Some(r.value) &&
      forall q :: 0 <= q < p ==> Barren(dbi, pages[q]))
    ensures r == Failure(NoCorrespondingSnapshot) <==> forall p :: 0 <= p < |pages| ==> Barren(dbi, pages[p])
    ensures r.Failure? && r.error.Wrapped? ==>
      exists p :: (0 <= p < |pages| && pages[p] == PageError(r.error.cause) &&
        forall q :: 0 <= q < p ==> Barren(dbi, pages[q]))
  {
    var tail := pages[1..];
    assert forall p :: 1 <= p < |pages| ==> pages[p] == tail[p - 1];
    if r.Success? {
      var p :| 0 <= p < |tail| && tail[p].Page? && FirstLinkedIn(dbi, tail[p].snapshots) == Some(r.value) &&
        forall q :: 0 <= q < p ==> Barren(dbi, tail[q]);
      assert pages[p + 1] == tail[p];
    }
    if r.Failure? && r.error.Wrapped? {
      var p :| 0 <= p < |tail| && tail[p] == PageError(r.error.cause) &&
        forall q :: 0 <= q < p ==> Barren(dbi, tail[q]);
      assert pages[p + 1] == tail[p];
    }
  }

  /** `DescribeDBSnapshotByIdentifier`: list the manual snapshots named `<dbi>-cavalier` and scan them. */
  function LookupSnapshot(w: World, dbi: string): (World, Result<DBSnapshot, Error>) {
    var (w1, pages) := w.DescribeDBSnapshots(DbSnapshotName(dbi), "manual");
    (w1, ScanPages(dbi, pages))
  }

  function AwaitInstanceAvailable(w: World, id: string): (World, Option<Error>) {
    var (w1, f) := w.Wait(WaitInstanceAvailable(id));
    (w1, if f.Some? then Some(Wrapped(WaitingForInstance, f.value)) else None)
  }

  /** `checkWhetherDBSnapshotAvailable(dbID)` waits on the snapshot named after `dbID`. */
  function AwaitSnapshotAvailable(w: World, id: string): (World, Option<Error>) {
    var (w1, f) := w.Wait(WaitSnapshotAvailable(DbSnapshotName(id)));
    (w1, if f.Some? then Some(Wrapped(WaitingForSnapshot, f.value)) else None)
  }

  /**
   * `deleteDBInstance`: a missing instance counts as deleted and skips the
   * wait; an invalid-state fault still goes on to the deleted-waiter; any
   * other fault aborts.
   */
  function DeleteInstance(w: World, id: string): (World, Option<Error>) {
    var (w1, f) := w.DeleteDBInstance(id, true, true);
    if f == Some(InstanceNotFound) then (w1, None)
    else if f.Some? && f != Some(InvalidState) then (w1, Some(Wrapped(DeletingInstance, f.value)))
    else
      var (w2, g) := w1.Wait(WaitInstanceDeleted(id));
      (w2, if g.Some? then Some(Wrapped(WaitingForDeletion, g.value)) else None)
  }

  const SecretDescription := "Randomly generated the master user password for RDS DB instance (by Cavalier)"

  function CreatePasswordSecret(w: World, prefix: string, id: string, password: string): (World, Result<string, Error>) {
    var (w1, r) := w.CreateSecret(MasterUserPasswordSecretName(prefix, id), SecretDescription, password);
    (w1, if r.Failure? then Failure(Wrapped(CreatingPassword, r.error)) else Success(r.value))
  }

  function GetPasswordSecret(w: World, prefix: string, id: string): (World, Result<string, Error>) {
    var (w1, r) := w.GetSecretValue(MasterUserPasswordSecretName(prefix, id));
    (w1, if r.Failure? then Failure(Wrapped(GettingPassword, r.error)) else Success(r.value))
  }

  function DeletePasswordSecret(w: World, prefix: string, id: string): (World, Option<Error>) {
    var (w1, f) := w.DeleteSecret(MasterUserPasswordSecretName(prefix, id), true);
    (w1, if f.Some? then Some(Wrapped(DeletingSecret, f.value)) else None)
  }

  /** `HandleSnapshot`. */
  function Snapshot(cfg: Config, w: World): (World, Option<Error>) {
    var id := cfg.dbInstanceIdentifier;
    var (w1, f) := w.CreateDBSnapshot(cfg.sourceDBInstanceIdentifier, DbSnapshotName(id), [Tag(LinkKey, id)]);
    if f.Some? then (w1, Some(Wrapped(CreatingSnapshot, f.value)))
    else AwaitSnapshotAvailable(w1, id)
  }

  /** The tags a restored instance is created with (the `tags` slice of `HandleRestore`). */
  function RestoreTags(takeSnapshot: bool): seq<Tag> {
    [Tag(OwnershipKey, "true")] + (if takeSnapshot then [Tag(UsageKey, "true")] else [])
  }

  function RestoreRequest(cfg: Config, snapshotARN: string): RestoreInput {
    RestoreInput(
      snapshotARN, cfg.dbSubnetGroupName, cfg.vpcSecurityGroupIDs, cfg.dbInstanceClass,
      cfg.dbInstanceIdentifier, StringOrNil(cfg.dbParameterGroupName), StringOrNil(cfg.optionGroupName),
      true, false, false, false, RestoreTags(cfg.takeSnapshot))
  }

  /** The snapshot to restore from: the one just taken, or the configured ARN. */
  function RestoreSource(cfg: Config, w: World): (World, Result<string, Error>) {
    if !cfg.takeSnapshot then (w, Success(cfg.snapshotARN))
    else
      var (w1, e) := Snapshot(cfg, w);
      if e.Some? then (w1, Failure(e.value))
      else
        var (w2, dbs) := LookupSnapshot(w1, cfg.dbInstanceIdentifier);
        if dbs.Failure? then (w2, Failure(dbs.error)) else (w2, Success(dbs.value.arn))
  }

  /**
   * The password step of `HandleModify`: a failed generation aborts; the
   * generated password is stored under `<prefix>/<dbID>`; when that name
   * is taken the stored value is fetched and used instead; any other
   * creation or fetch error aborts.
   */
  function ChoosePassword(cfg: Config, w: World, dbID: string, generated: Result<string, Fault>): (World, Result<string, Error>) {
    if generated.Failure? then (w, Failure(Wrapped(GeneratingPassword, generated.error)))
    else
      var (w1, created) := CreatePasswordSecret(w, cfg.secretsManagerPrefix, dbID, generated.value);
      if created.Success? then (w1, Success(generated.value))
      else if !IsResourceExists(created.error) then (w1, Failure(created.error))
      else GetPasswordSecret(w1, cfg.secretsManagerPrefix, dbID)
  }

  /** The modification step of `HandleModify` and the available-wait after it. */
  function ApplyModification(w: World, dbID: string, password: string): (World, Option<Error>) {
    var (w1, f) := w.ModifyDBInstance(dbID, true, 0, password);
    if f.Some? then (w1, Some(Wrapped(Modifying, f.value)))
    else AwaitInstanceAvailable(w1, dbID)
  }

  /** `HandleModify`; `generated` is what the password generator returned. */
  function Modify(cfg: Config, w: World, generated: Result<string, Fault>): (World, Option<Error>) {
    var (w1, own) := CheckOwnership(w, cfg.dbInstanceIdentifier);
    if own.LookupFailed? then (w1, Some(own.error))
    else if own.NotOwned? then (w1, Some(NotCreatedByCavalier))
    else
      var dbID := own.instance.identifier;
      var (w2, e2) := AwaitInstanceAvailable(w1, dbID);
      if e2.Some? then (w2, e2)
      else
        var (w3, password) := ChoosePassword(cfg, w2, dbID, generated);
        if password.Failure? then (w3, Some(password.error))
        else ApplyModification(w3, dbID, password.value)
  }

  /** The restore request of `HandleRestore`, the available-wait and the trailing modify. */
  function RestoreFrom(cfg: Config, w: World, snapshotARN: string, generated: Result<string, Fault>): (World, Option<Error>) {
    var (w1, r) := w.RestoreDBInstanceFromDBSnapshot(RestoreRequest(cfg, snapshotARN));
    if r.Failure? then (w1, Some(Wrapped(Restoring, r.error)))
    else
      var (w2, e) := AwaitInstanceAvailable(w1, r.value.identifier);
      if e.Some? then (w2, e)
      else Modify(cfg, w2, generated)
  }

  /** `HandleRestore`. */
  function Restore(cfg: Config, w: World, generated: Result<string, Fault>): (World, Option<Error>) {
    var (w1, source) := RestoreSource(cfg, w);
    if source.Failure? then (w1, Some(source.error))
    else RestoreFrom(cfg, w1, source.value, generated)
  }

  /**
   * The steps both variants of terminate share: refuse an instance that
   * exists but is not owned, or whose lookup failed other than with
   * "not found"; delete and await the deletion of an owned instance; then
   * delete its secret. Returns the world, the instance as described (the
   * zero instance when it was already gone) and the error that aborted.
   */
  function TerminateInstance(cfg: Config, w: World): (World, DBInstance, Option<Error>) {
    var id := cfg.dbInstanceIdentifier;
    var (w1, own) := CheckOwnership(w, id);
    var alreadyDeleted := own.LookupFailed? && IsDBInstanceNotFound(own.error);
    if own.LookupFailed? && !alreadyDeleted then (w1, ZeroInstance, Some(own.error))
    else if !alreadyDeleted && !own.Owned? then (w1, ZeroInstance, Some(NotCreatedByCavalier))
    else
      var dbi := if own.Owned? then own.instance else ZeroInstance;
      var (w2, e2) := if alreadyDeleted then (w1, None) else DeleteInstance(w1, id);
      if e2.Some? then (w2, dbi, e2)
      else
        var (w3, e3) := DeletePasswordSecret(w2, cfg.secretsManagerPrefix, id);
        (w3, dbi, e3)
  }

  /**
   * The snapshot clean-up of the library's `HandleTerminate`: a lookup that
   * fails with `DBSnapshotNotFound` is tolerated, any other lookup error is
   * returned, and the snapshot found is deleted when it is linked to `id`.
   */
  function CleanUpSnapshot(w: World, id: string): (World, Option<Error>) {
    var (w1, dbs) := LookupSnapshot(w, id);
    if dbs.Failure? && !IsDBSnapshotNotFound(dbs.error) then (w1, Some(dbs.error))
    else
      var snapshot := if dbs.Success? then dbs.value else ZeroSnapshot;
      if IsSnapshotCreatedByCavalier(id, snapshot) then
        var (w2, f) := w1.DeleteDBSnapshot(snapshot.identifier);
        (w2, if f.Some? then Some(Wrapped(RemovingSnapshot, f.value)) else None)
      else (w1, None)
  }

  /** `HandleTerminate` of the library package. */
  function Terminate(cfg: Config, w: World): (World, Option<Error>) {
    var (w1, _, e) := TerminateInstance(cfg, w);
    if e.Some? then (w1, e) else CleanUpSnapshot(w1, cfg.dbInstanceIdentifier)
  }
}
