/**
 * The older copy of the orchestrator in the repository's root package.
 * Its helpers, tag predicates, waiters and retry rule are line for line
 * those of the library package and are modelled once (modules `TagPolicy`,
 * `Retry`, `Protocol`, `Orchestrator`); what differs is its terminate: the
 * snapshot is deleted when the terminated instance carries the usage-link
 * tag, and every error of the snapshot lookup is fatal.
 */
module RootPackage {
  import opened Wrappers
  import opened TagPolicy
  import opened Faults
  import opened Cloud
  import opened Protocol
  import Orchestrator
  import opened Properties

  /**
   * The snapshot clean-up of the root package's `handleTerminate`: any
   * lookup error is returned, "not found" included, and the snapshot found
   * is deleted iff the described instance `dbi` carries the usage-link tag.
   */
  function CleanUpSnapshot(w: World, id: string, dbi: DBInstance): (World, Option<Error>) {
    var (w1, dbs) := LookupSnapshot(w, id);
    if dbs.Failure? then (w1, Some(dbs.error))
    else if DoesUseSnapshotCreatedByCavalier(dbi.tags) then
      var (w2, f) := w1.DeleteDBSnapshot(dbs.value.identifier);
      (w2, if f.Some? then Some(Wrapped(RemovingSnapshot, f.value)) else None)
    else (w1, None)
  }

  /** `handleTerminate` of the root package. */
  function Terminate(cfg: Config, w: World): (World, Option<Error>) {
    var (w1, dbi, e) := TerminateInstance(cfg, w);
    if e.Some? then (w1, e) else CleanUpSnapshot(w1, cfg.dbInstanceIdentifier, dbi)
  }

  /** `handleTerminate`, run by the orchestrator `cv` on its cloud. */
  method HandleTerminate(cv: Orchestrator.Cavalier) returns (err: Option<Error>)
    modifies cv.cloud
    ensures (cv.cloud.State(), err) == Terminate(cv.cfg, old(cv.cloud.State()))
  {
    var id := cv.cfg.dbInstanceIdentifier;
    var dbAlreadyDeleted := false;
    var own := cv.IsCreatedByCavalier();
    if own.LookupFailed? {
      if IsDBInstanceNotFound(own.error) {
        dbAlreadyDeleted := true;
      } else {
        return Some(own.error);
      }
    }
    if !dbAlreadyDeleted && !own.Owned? {
      return Some(NotCreatedByCavalier);
    }
    var dbi := if own.Owned? then own.instance else ZeroInstance;
    if !dbAlreadyDeleted {
      err := cv.DeleteDBInstance(id);
      if err.Some? {
        return;
      }
    }
    err := cv.DeleteMasterUserPasswordSecret(id);
    if err.Some? {
      return;
    }
    var dbs := cv.DescribeDBSnapshotByIdentifier(id);
    if dbs.Failure? {
      return Some(dbs.error);
    }
    if DoesUseSnapshotCreatedByCavalier(dbi.tags) {
      var f := cv.cloud.DeleteDBSnapshot(dbs.value.identifier);
      if f.Some? {
        return Some(Wrapped(RemovingSnapshot, f.value));
      }
    }
    return None;
  }

  /** The snapshot clean-up of the root package against a quiet cloud. */
  lemma CleanUpSnapshotQuiet(w: World, id: string, dbi: DBInstance)
    requires Quiet(w) && WellFormed(w)
    ensures var name := DbSnapshotName(id);
      var linked := LinkedSnapshotStored(w, id);
      var deletes := linked && DoesUseSnapshotCreatedByCavalier(dbi.tags);
      var (w', e) := CleanUpSnapshot(w, id, dbi);
      w'.log == w.log + [DescribeDBSnapshots(name, "manual")] + (if deletes then [DeleteDBSnapshot(name)] else []) &&
      w'.snapshots == (if deletes then w.snapshots - {name} else w.snapshots) &&
      e == (if linked then None
            else if name !in w.snapshots then Some(Wrapped(DescribingSnapshot, SnapshotNotFound))
            else Some(NoCorrespondingSnapshot))
  {
    var name := DbSnapshotName(id);
    LookupSnapshotQuery(w, id);
    if name in w.snapshots && w.snapshots[name].snapshotType == "manual" {
      assert w.DescribeDBSnapshots(name, "manual").1 == [Page([w.snapshots[name]])];
      assert FirstLinkedIn(id, [w.snapshots[name]]).Some? == IsSnapshotCreatedByCavalier(id, w.snapshots[name]);
    }
  }

  /**
   * The snapshot clean-up of the root package whatever the cloud: after the
   * lookup, every lookup error is returned, "not found" included; a found
   * snapshot, which is always the stored linked one, is deleted iff the
   * instance `dbi` carries the usage-link tag; no instance is touched.
   */
  lemma CleanUpSnapshotAnyCloud(w: World, id: string, dbi: DBInstance)
    ensures var (w1, dbs) := LookupSnapshot(w, id);
      var (w', e) := CleanUpSnapshot(w, id, dbi);
      w1.log == w.log + [DescribeDBSnapshots(DbSnapshotName(id), "manual")] &&
      w'.instances == w.instances &&
      (dbs.Failure? ==> w' == w1 && e == Some(dbs.error)) &&
      (dbs.Success? && DoesUseSnapshotCreatedByCavalier(dbi.tags) ==>
        LinkedSnapshotStored(w, id) && dbs.value == w.snapshots[DbSnapshotName(id)] &&
        w' == w1.DeleteDBSnapshot(dbs.value.identifier).0 &&
        (DeleteDBSnapshotOp in w.faults ==> e == Some(Wrapped(RemovingSnapshot, w.faults[DeleteDBSnapshotOp]))) &&
        (e.Some? ==> e.value.Wrapped? && e.value.step == RemovingSnapshot)) &&
      (dbs.Success? && !DoesUseSnapshotCreatedByCavalier(dbi.tags) ==> w' == w1 && e.None?)
  {
    LookupSnapshotQuery(w, id);
  }

  /**
   * A faulted snapshot lookup fails `handleTerminate` once the instance and
   * secret steps have succeeded, whatever the instance's tags.
   */
  lemma TerminateLookupFaultFatal(cfg: Config, w: World)
    requires DescribeDBSnapshotsOp in w.faults
    ensures TerminateInstance(cfg, w).2.None? ==>
      Terminate(cfg, w).1 == Some(Wrapped(DescribingSnapshot, w.faults[DescribeDBSnapshotsOp]))
  {
    var id := cfg.dbInstanceIdentifier;
    var (w1, dbi, e) := TerminateInstance(cfg, w);
    if e.None? {
      assert Terminate(cfg, w) == CleanUpSnapshot(w1, id, dbi);
      TerminateInstanceKeepsFaults(cfg, w);
      var f := w.faults[DescribeDBSnapshotsOp];
      assert w1.DescribeDBSnapshots(DbSnapshotName(id), "manual").1 == [PageError(f)];
      assert LookupSnapshot(w1, id).1 == Failure(Wrapped(DescribingSnapshot, f));
    }
  }

  /** The instance and secret steps of terminate leave the injected faults as they were. */
  lemma TerminateInstanceKeepsFaults(cfg: Config, w: World)
    ensures TerminateInstance(cfg, w).0.faults == w.faults
  {
    var id := cfg.dbInstanceIdentifier;
    var (w1, own) := CheckOwnership(w, id);
    assert w1.faults == w.faults;
    var w2 := DeleteInstance(w1, id).0;
    assert w2.faults == w.faults;
    assert DeletePasswordSecret(w1, cfg.secretsManagerPrefix, id).0.faults == w.faults;
    assert DeletePasswordSecret(w2, cfg.secretsManagerPrefix, id).0.faults == w.faults;
  }

  /**
   * `handleTerminate` refuses an instance it cannot show to be its own,
   * exactly as the library's terminate does: only the describe call is
   * issued and nothing changes.
   */
  lemma TerminateRefusesUnowned(cfg: Config, w: World)
    requires !DescribesOwned(w, cfg.dbInstanceIdentifier) && !DescribesGone(w, cfg.dbInstanceIdentifier)
    ensures var (w', e) := Terminate(cfg, w);
      w' == w.Issue(DescribeDBInstances(cfg.dbInstanceIdentifier)) && e.Some? &&
      (DescribeDBInstancesOp !in w.faults ==> e == Some(NotCreatedByCavalier))
  {
  }

  /**
   * On the already-deleted path the described instance is Go's zero value,
   * which carries no usage-link tag, so `handleTerminate` never issues
   * `DeleteDBSnapshot` there (nor `DeleteDBInstance`), although it still
   * deletes the secret and looks the snapshot up. Against a quiet cloud a
   * missing snapshot fails the run.
   */
  lemma TerminateWhenGone(cfg: Config, w: World)
    requires DescribesGone(w, cfg.dbInstanceIdentifier)
    ensures var id := cfg.dbInstanceIdentifier;
      var name := DbSnapshotName(id);
      var secret := MasterUserPasswordSecretName(cfg.secretsManagerPrefix, id);
      var (w', e) := Terminate(cfg, w);
      w'.instances == w.instances && w'.snapshots == w.snapshots &&
      (DeleteSecretOp !in w.faults ==>
        w'.log == w.log + [DescribeDBInstances(id), DeleteSecret(secret, true), DescribeDBSnapshots(name, "manual")]) &&
      (Quiet(w) && name !in w.snapshots ==> e == Some(Wrapped(DescribingSnapshot, SnapshotNotFound)))
  {
    var id := cfg.dbInstanceIdentifier;
    TerminateGoneSteps(cfg, w);
    var (w1, dbi, e1) := TerminateInstance(cfg, w);
    assert dbi == ZeroInstance && !DoesUseSnapshotCreatedByCavalier(dbi.tags);
    LookupSnapshotQuery(w1, id);
  }

  /**
   * `handleTerminate` on an owned instance, against a quiet cloud: the
   * instance and secret steps are those of the library, the snapshot
   * lookup's every failure is fatal ("not found" included), and the found
   * snapshot is deleted iff the terminated instance carries the usage-link
   * tag.
   */
  lemma TerminateOwnedSteps(cfg: Config, w: World)
    requires Quiet(w) && WellFormed(w) && DescribesOwned(w, cfg.dbInstanceIdentifier)
    ensures var id := cfg.dbInstanceIdentifier;
      var name := DbSnapshotName(id);
      var secret := MasterUserPasswordSecretName(cfg.secretsManagerPrefix, id);
      var linked := LinkedSnapshotStored(w, id);
      var deletes := linked && DoesUseSnapshotCreatedByCavalier(w.instances[id]);
      var (w', e) := Terminate(cfg, w);
      w'.log == w.log + [DescribeDBInstances(id), DeleteDBInstance(id, true, true), WaitInstanceDeleted(id),
                         DeleteSecret(secret, true), DescribeDBSnapshots(name, "manual")]
                      + (if deletes then [DeleteDBSnapshot(name)] else []) &&
      w'.instances == w.instances - {id} && w'.secrets == w.secrets - {secret} &&
      w'.snapshots == (if deletes then w.snapshots - {name} else w.snapshots) &&
      e == (if linked then None
            else if name !in w.snapshots then Some(Wrapped(DescribingSnapshot, SnapshotNotFound))
            else Some(NoCorrespondingSnapshot))
  {
    var id := cfg.dbInstanceIdentifier;
    TerminateInstanceOwnedQuiet(cfg, w);
    var (w1, dbi, _) := TerminateInstance(cfg, w);
    assert Terminate(cfg, w) == CleanUpSnapshot(w1, id, dbi);
    assert dbi.tags == w.instances[id];
    assert Quiet(w1) && WellFormed(w1) && LinkedSnapshotStored(w1, id) == LinkedSnapshotStored(w, id);
    assert DbSnapshotName(id) in w1.snapshots <==> DbSnapshotName(id) in w.snapshots;
    CleanUpSnapshotQuiet(w1, id, dbi);
    var secret := MasterUserPasswordSecretName(cfg.secretsManagerPrefix, id);
    var lookup := DescribeDBSnapshots(DbSnapshotName(id), "manual");
    var opening := [DescribeDBInstances(id), DeleteDBInstance(id, true, true), WaitInstanceDeleted(id), DeleteSecret(secret, true), lookup];
    assert w1.log + [lookup] == w.log + opening;
    if LinkedSnapshotStored(w, id) && DoesUseSnapshotCreatedByCavalier(dbi.tags) {
      assert CleanUpSnapshot(w1, id, dbi).0.log == w.log + opening + [DeleteDBSnapshot(DbSnapshotName(id))];
    } else {
      assert CleanUpSnapshot(w1, id, dbi).0.log == w.log + opening;
    }
  }
}
