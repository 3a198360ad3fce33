/**
 * The `Cavalier` orchestrator: its four public operations and the helpers
 * they share, as methods that change the fake cloud step by step. Each
 * method is proved to leave the cloud, and to return, exactly what the
 * matching function of module `Protocol` says.
 */
module Orchestrator {
  import opened Wrappers
  import opened TagPolicy
  import opened Faults
  import opened Cloud
  import opened Protocol

  /**
   * The loop of `DescribeDBSnapshotByIdentifier` over the pages of the
   * listing: pages in order, entries in order, returning at the first
   * linked snapshot or the first page error.
   */
  method ScanSnapshotPages(dbi: string, pages: seq<Page>) returns (r: Result<DBSnapshot, Error>)
    ensures r == ScanPages(dbi, pages)
  {
    var i := 0;
    while i < |pages|
      invariant 0 <= i <= |pages|
      invariant ScanPages(dbi, pages[i..]) == ScanPages(dbi, pages)
    {
      assert pages[i..][1..] == pages[i + 1..];
      match pages[i]
      case PageError(f) =>
        return Failure(Wrapped(DescribingSnapshot, f));
      case Page(snaps) =>
        var j := 0;
        while j < |snaps|
          invariant 0 <= j <= |snaps|
          invariant FirstLinkedIn(dbi, snaps[j..]) == FirstLinkedIn(dbi, snaps)
        {
          assert snaps[j..][1..] == snaps[j + 1..];
          if IsSnapshotCreatedByCavalier(dbi, snaps[j]) {
            return Success(snaps[j]);
          }
          j := j + 1;
        }
        assert snaps[j..] == [];
      i := i + 1;
    }
    assert pages[i..] == [];
    return Failure(NoCorrespondingSnapshot);
  }

  class Cavalier {
    const cfg: Config
    const cloud: FakeCloud

    constructor (cfg: Config, cloud: FakeCloud)
      ensures this.cfg == cfg && this.cloud == cloud
    {
      this.cfg := cfg;
      this.cloud := cloud;
    }

    /** `rdsClient.DescribeDBSnapshotByIdentifier`. */
    method DescribeDBSnapshotByIdentifier(dbi: string) returns (r: Result<DBSnapshot, Error>)
      modifies cloud
      ensures (cloud.State(), r) == LookupSnapshot(old(cloud.State()), dbi)
    {
      var pages := cloud.DescribeDBSnapshots(DbSnapshotName(dbi), "manual");
      r := ScanSnapshotPages(dbi, pages);
    }

    /** The `isCreatedByCavalier` method: describe the configured instance and decide. */
    method IsCreatedByCavalier() returns (r: Ownership)
      modifies cloud
      ensures (cloud.State(), r) == CheckOwnership(old(cloud.State()), cfg.dbInstanceIdentifier)
    {
      var resp := cloud.DescribeDBInstances(cfg.dbInstanceIdentifier);
      if resp.Failure? {
        return LookupFailed(Wrapped(DescribingInstance, resp.error));
      }
      if |resp.value| != 1 {
        return LookupFailed(NotExactlyOneInstance);
      }
      var dbi := resp.value[0];
      if !TagPolicy.IsCreatedByCavalier(dbi) {
        return NotOwned;
      }
      return Owned(dbi);
    }

    method DeleteDBInstance(id: string) returns (err: Option<Error>)
      modifies cloud
      ensures (cloud.State(), err) == DeleteInstance(old(cloud.State()), id)
    {
      var f := cloud.DeleteDBInstance(id, true, true);
      if f == Some(InstanceNotFound) {
        return None;
      }
      if f.Some? && f != Some(InvalidState) {
        return Some(Wrapped(DeletingInstance, f.value));
      }
      var g := cloud.Wait(WaitInstanceDeleted(id));
      if g.Some? {
        return Some(Wrapped(WaitingForDeletion, g.value));
      }
      return None;
    }

    method CheckWhetherDBSnapshotAvailable(id: string) returns (err: Option<Error>)
      modifies cloud
      ensures (cloud.State(), err) == AwaitSnapshotAvailable(old(cloud.State()), id)
    {
      var f := cloud.Wait(WaitSnapshotAvailable(DbSnapshotName(id)));
      err := if f.Some? then Some(Wrapped(WaitingForSnapshot, f.value)) else None;
    }

    method CheckWhetherDBInstanceAvailable(id: string) returns (err: Option<Error>)
      modifies cloud
      ensures (cloud.State(), err) == AwaitInstanceAvailable(old(cloud.State()), id)
    {
      var f := cloud.Wait(WaitInstanceAvailable(id));
      err := if f.Some? then Some(Wrapped(WaitingForInstance, f.value)) else None;
    }

    method CreateMasterUserPasswordSecret(id: string, password: string) returns (r: Result<string, Error>)
      modifies cloud
      ensures (cloud.State(), r) == CreatePasswordSecret(old(cloud.State()), cfg.secretsManagerPrefix, id, password)
    {
      var resp := cloud.CreateSecret(MasterUserPasswordSecretName(cfg.secretsManagerPrefix, id), SecretDescription, password);
      if resp.Failure? {
        return Failure(Wrapped(CreatingPassword, resp.error));
      }
      return Success(resp.value);
    }

    method DeleteMasterUserPasswordSecret(id: string) returns (err: Option<Error>)
      modifies cloud
      ensures (cloud.State(), err) == DeletePasswordSecret(old(cloud.State()), cfg.secretsManagerPrefix, id)
    {
      var f := cloud.DeleteSecret(MasterUserPasswordSecretName(cfg.secretsManagerPrefix, id), true);
      err := if f.Some? then Some(Wrapped(DeletingSecret, f.value)) else None;
    }

    method GetMasterUserPasswordSecret(id: string) returns (r: Result<string, Error>)
      modifies cloud
      ensures (cloud.State(), r) == GetPasswordSecret(old(cloud.State()), cfg.secretsManagerPrefix, id)
    {
      var resp := cloud.GetSecretValue(MasterUserPasswordSecretName(cfg.secretsManagerPrefix, id));
      if resp.Failure? {
        return Failure(Wrapped(GettingPassword, resp.error));
      }
      return Success(resp.value);
    }

    method HandleTerminate() returns (err: Option<Error>)
      modifies cloud
      ensures (cloud.State(), err) == Terminate(cfg, old(cloud.State()))
    {
      var id := cfg.dbInstanceIdentifier;
      var dbAlreadyDeleted := false;
      var own := IsCreatedByCavalier();
      if own.LookupFailed? {
        if IsDBInstanceNotFound(own.error) {
          dbAlreadyDeleted := true;
        } else {
          return Some(own.error);
        }
      }
      if !dbAlreadyDeleted && !own.Owned? {
        return Some(NotCreatedByCavalier);
      }
      if !dbAlreadyDeleted {
        err := DeleteDBInstance(id);
        if err.Some? {
          return;
        }
      }
      err := DeleteMasterUserPasswordSecret(id);
      if err.Some? {
        return;
      }
      var dbs := DescribeDBSnapshotByIdentifier(id);
      if dbs.Failure? && !IsDBSnapshotNotFound(dbs.error) {
        return Some(dbs.error);
      }
      var snapshot := if dbs.Success? then dbs.value else ZeroSnapshot;
      if TagPolicy.IsSnapshotCreatedByCavalier(id, snapshot) {
        var f := cloud.DeleteDBSnapshot(snapshot.identifier);
        if f.Some? {
          return Some(Wrapped(RemovingSnapshot, f.value));
        }
      }
      return None;
    }

    method HandleSnapshot() returns (err: Option<Error>)
      modifies cloud
      ensures (cloud.State(), err) == Snapshot(cfg, old(cloud.State()))
    {
      var id := cfg.dbInstanceIdentifier;
      var f := cloud.CreateDBSnapshot(cfg.sourceDBInstanceIdentifier, DbSnapshotName(id), [Tag(LinkKey, id)]);
      if f.Some? {
        return Some(Wrapped(CreatingSnapshot, f.value));
      }
      err := CheckWhetherDBSnapshotAvailable(id);
    }

    /** `generated` is what the password generator returned for this run. */
    method HandleModify(generated: Result<string, Fault>) returns (err: Option<Error>)
      modifies cloud
      ensures (cloud.State(), err) == Modify(cfg, old(cloud.State()), generated)
    {
      var own := IsCreatedByCavalier();
      if own.LookupFailed? {
        return Some(own.error);
      }
      if !own.Owned? {
        return Some(NotCreatedByCavalier);
      }
      var dbID := own.instance.identifier;
      err := CheckWhetherDBInstanceAvailable(dbID);
      if err.Some? {
        return;
      }
      if generated.Failure? {
        return Some(Wrapped(GeneratingPassword, generated.error));
      }
      var password := generated.value;
      var created := CreateMasterUserPasswordSecret(dbID, password);
      if created.Failure? {
        if !IsResourceExists(created.error) {
          return Some(created.error);
        }
        var existing := GetMasterUserPasswordSecret(dbID);
        if existing.Failure? {
          return Some(existing.error);
        }
        password := existing.value;
      }
      var f := cloud.ModifyDBInstance(dbID, true, 0, password);
      if f.Some? {
        return Some(Wrapped(Modifying, f.value));
      }
      err := CheckWhetherDBInstanceAvailable(dbID);
    }

    method HandleRestore(generated: Result<string, Fault>) returns (err: Option<Error>)
      requires PreRunChecked(cfg)
      modifies cloud
      ensures (cloud.State(), err) == Restore(cfg, old(cloud.State()), generated)
    {
      var snapshotARN := cfg.snapshotARN;
      if cfg.takeSnapshot {
        err := HandleSnapshot();
        if err.Some? {
          return;
        }
        var dbs := DescribeDBSnapshotByIdentifier(cfg.dbInstanceIdentifier);
        if dbs.Failure? {
          return Some(dbs.error);
        }
        snapshotARN := dbs.value.arn;
      }
      assert (cloud.State(), Success(snapshotARN)) == RestoreSource(cfg, old(cloud.State()));
      var tags := [Tag(OwnershipKey, "true")];
      if cfg.takeSnapshot {
        tags := tags + [Tag(UsageKey, "true")];
      }
      var input := RestoreInput(
        snapshotARN, cfg.dbSubnetGroupName, cfg.vpcSecurityGroupIDs, cfg.dbInstanceClass,
        cfg.dbInstanceIdentifier, StringOrNil(cfg.dbParameterGroupName), StringOrNil(cfg.optionGroupName),
        true, false, false, false, tags);
      assert input == RestoreRequest(cfg, snapshotARN);
      var resp := cloud.RestoreDBInstanceFromDBSnapshot(input);
      if resp.Failure? {
        return Some(Wrapped(Restoring, resp.error));
      }
      err := CheckWhetherDBInstanceAvailable(resp.value.identifier);
      if err.Some? {
        return;
      }
      err := HandleModify(generated);
    }
  }
}
