/**
 * The safety and ordering properties of the library package's protocol,
 * stated on the call log of the fake cloud: which calls each operation
 * issues, in which order, which faults it tolerates, and that nothing
 * destructive reaches an instance the tool did not create.
 */
module Properties {
  import opened Wrappers
  import opened TagPolicy
  import opened Faults
  import opened Cloud
  import opened Protocol

  /** `DescribeDBInstances(id)` answers with one instance that passes the ownership test. */
  ghost predicate DescribesOwned(w: World, id: string) {
    DescribeDBInstancesOp !in w.faults && id in w.instances &&
    IsCreatedByCavalier(DBInstance(id, w.instances[id]))
  }

  /** `DescribeDBInstances(id)` fails with `DBInstanceNotFound`. */
  ghost predicate DescribesGone(w: World, id: string) {
    w.Injected(DescribeDBInstancesOp) == Some(InstanceNotFound) ||
    (DescribeDBInstancesOp !in w.faults && id !in w.instances)
  }

  /** No service call fails and every waiter succeeds. */
  ghost predicate Quiet(w: World) {
    w.faults == map[] && w.waits == []
  }

  /** Every stored snapshot is filed under its own identifier. */
  ghost predicate WellFormed(w: World) {
    forall name :: name in w.snapshots ==> w.snapshots[name].identifier == name
  }

  /** The calls `w2` logged after `w1`. */
  ghost function Added(w1: World, w2: World): seq<Call>
    requires |w1.log| <= |w2.log|
  {
    w2.log[|w1.log|..]
  }

  /** `w2`'s log continues `w1`'s. */
  ghost predicate Extends(w1: World, w2: World) {
    |w1.log| <= |w2.log| && w2.log[..|w1.log|] == w1.log
  }

  lemma ExtendsTrans(a: World, b: World, c: World)
    requires Extends(a, b) && Extends(b, c)
    ensures Extends(a, c) && Added(a, c) == Added(a, b) + Added(b, c)
  {
    assert c.log[..|a.log|] == c.log[..|b.log|][..|a.log|];
    assert c.log == a.log + Added(a, b) + Added(b, c);
  }

  ghost predicate NoInstanceDelete(calls: seq<Call>) {
    forall k :: 0 <= k < |calls| ==> !calls[k].DeleteDBInstance?
  }

  lemma NoInstanceDeleteConcat(a: seq<Call>, b: seq<Call>)
    requires NoInstanceDelete(a) && NoInstanceDelete(b)
    ensures NoInstanceDelete(a + b)
  {
    forall k | 0 <= k < |a + b| ensures !(a + b)[k].DeleteDBInstance? {
      if k >= |a| {
        assert (a + b)[k] == b[k - |a|];
      }
    }
  }

  /** The manual snapshot `<id>-cavalier` exists and is linked to `id`. */
  ghost predicate LinkedSnapshotStored(w: World, id: string) {
    var name := DbSnapshotName(id);
    name in w.snapshots && w.snapshots[name].snapshotType == "manual" &&
    IsSnapshotCreatedByCavalier(id, w.snapshots[name])
  }

  /**
   * The lookup queries the manual snapshots named `<id>-cavalier` and
   * changes nothing but the log.
   */
  lemma LookupSnapshotQuery(w: World, id: string)
    ensures LookupSnapshot(w, id).0 == w.Issue(DescribeDBSnapshots(DbSnapshotName(id), "manual"))
    ensures LookupSnapshot(w, id).1.Success? ==> LinkedSnapshotStored(w, id)
    ensures LookupSnapshot(w, id).1.Success? ==>
      LookupSnapshot(w, id).1.value == w.snapshots[DbSnapshotName(id)]
  {
    var name := DbSnapshotName(id);
    var (w1, pages) := w.DescribeDBSnapshots(name, "manual");
    var r := ScanPages(id, pages);
    if r.Success? {
      assert pages[0].Page? && FirstLinkedIn(id, pages[0].snapshots) == Some(r.value);
    }
  }

  /**
   * Terminate refuses an instance it cannot show to be its own: when the
   * describe call neither finds an owned instance nor reports it gone, the
   * describe call is the only call issued, nothing changes, and the result
   * is an error; for an instance that exists unowned it is the ownership
   * error.
   */
  lemma TerminateRefusesUnowned(cfg: Config, w: World)
    requires !DescribesOwned(w, cfg.dbInstanceIdentifier) && !DescribesGone(w, cfg.dbInstanceIdentifier)
    ensures var id := cfg.dbInstanceIdentifier;
      var (w', e) := Terminate(cfg, w);
      w' == w.Issue(DescribeDBInstances(id)) && e.Some? &&
      (DescribeDBInstancesOp !in w.faults ==> e == Some(NotCreatedByCavalier)) &&
      (DescribeDBInstancesOp in w.faults ==> e == Some(Wrapped(DescribingInstance, w.faults[DescribeDBInstancesOp])))
  {
  }

  /**
   * `deleteDBInstance` tolerates exactly two faults: `DBInstanceNotFound`
   * counts as deleted and skips the wait, `InvalidDBInstanceState` still
   * goes on to the deleted-waiter, and any other fault aborts before the
   * wait.
   */
  lemma DeleteInstanceFaults(w: World, id: string)
    ensures var del := DeleteDBInstance(id, true, true);
      var (w', e) := DeleteInstance(w, id);
      var f := w.Injected(DeleteDBInstanceOp);
      (f == Some(InstanceNotFound) || (f.None? && id !in w.instances) ==> w' == w.Issue(del) && e.None?) &&
      (f.Some? && f.value != InstanceNotFound && f.value != InvalidState ==>
        w' == w.Issue(del) && e == Some(Wrapped(DeletingInstance, f.value))) &&
      (f == Some(InvalidState) || (f.None? && id in w.instances) ==>
        w'.log == w.log + [del, WaitInstanceDeleted(id)] &&
        (e.Some? <==> w.waits != [] && w.waits[0].Some?) &&
        (e.Some? ==> e == Some(Wrapped(WaitingForDeletion, w.waits[0].value)))) &&
      w'.instances == (if f.None? then w.instances - {id} else w.instances)
  {
  }

  /**
   * The snapshot clean-up of terminate tolerates only `DBSnapshotNotFound`
   * from the lookup; every other lookup error, the plain "no corresponding
   * snapshot" one included, is returned. A snapshot the lookup finds is
   * deleted. No instance is touched.
   */
  lemma CleanUpSnapshotFaults(w: World, id: string)
    ensures var (w1, dbs) := LookupSnapshot(w, id);
      var (w', e) := CleanUpSnapshot(w, id);
      (dbs.Failure? ==> w' == w1 && e == (if IsDBSnapshotNotFound(dbs.error) then None else Some(dbs.error))) &&
      (dbs.Success? ==> w' == w1.DeleteDBSnapshot(dbs.value.identifier).0) &&
      w'.instances == w.instances &&
      w1.log == w.log + [DescribeDBSnapshots(DbSnapshotName(id), "manual")] &&
      (w'.log == w1.log || w'.log == w1.log + [DeleteDBSnapshot(dbs.value.identifier)])
  {
    assert !IsSnapshotCreatedByCavalier(id, ZeroSnapshot);
    LookupSnapshotQuery(w, id);
  }

  /** The shape of terminate once the instance is reported gone. */
  lemma TerminateGoneSteps(cfg: Config, w: World)
    requires DescribesGone(w, cfg.dbInstanceIdentifier)
    ensures var id := cfg.dbInstanceIdentifier;
      var w1 := w.Issue(DescribeDBInstances(id));
      var (w2, e2) := DeletePasswordSecret(w1, cfg.secretsManagerPrefix, id);
      TerminateInstance(cfg, w) == (w2, ZeroInstance, e2) &&
      Terminate(cfg, w) == (if e2.Some? then (w2, e2) else CleanUpSnapshot(w2, id))
  {
  }

  /** The clean-up issues the lookup first, never deletes an instance, and removes none. */
  lemma CleanUpSnapshotCalls(w: World, id: string)
    ensures var w' := CleanUpSnapshot(w, id).0;
      Extends(w, w') && |Added(w, w')| >= 1 && Added(w, w')[0] == DescribeDBSnapshots(DbSnapshotName(id), "manual") &&
      NoInstanceDelete(Added(w, w')) && w'.instances == w.instances
  {
    LookupSnapshotQuery(w, id);
    var (w1, dbs) := LookupSnapshot(w, id);
    var w' := CleanUpSnapshot(w, id).0;
    var lookup := DescribeDBSnapshots(DbSnapshotName(id), "manual");
    assert Added(w, w1) == [lookup];
    if w' == w1 {
    } else {
      var snapshot := if dbs.Success? then dbs.value else ZeroSnapshot;
      assert w' == w1.DeleteDBSnapshot(snapshot.identifier).0;
      assert Added(w, w') == [lookup, DeleteDBSnapshot(snapshot.identifier)];
    }
  }

  /**
   * Terminate of an instance reported gone issues no `DeleteDBInstance`
   * and removes no instance, but still deletes the secret `<prefix>/<id>`
   * (forced, without recovery) right after the describe call, and, when
   * that succeeds, looks the snapshot up next.
   */
  lemma TerminateWhenGone(cfg: Config, w: World)
    requires DescribesGone(w, cfg.dbInstanceIdentifier)
    ensures var id := cfg.dbInstanceIdentifier;
      var w' := Terminate(cfg, w).0;
      var secret := MasterUserPasswordSecretName(cfg.secretsManagerPrefix, id);
      Extends(w, w') && |w.log| + 2 <= |w'.log| && w'.instances == w.instances &&
      Added(w, w')[..2] == [DescribeDBInstances(id), DeleteSecret(secret, true)] &&
      NoInstanceDelete(Added(w, w')) &&
      (DeleteSecretOp !in w.faults ==>
        |w.log| + 3 <= |w'.log| && Added(w, w')[2] == DescribeDBSnapshots(DbSnapshotName(id), "manual"))
  {
    var id := cfg.dbInstanceIdentifier;
    var secret := MasterUserPasswordSecretName(cfg.secretsManagerPrefix, id);
    var (w2, e2) := DeletePasswordSecret(w.Issue(DescribeDBInstances(id)), cfg.secretsManagerPrefix, id);
    TerminateGoneSteps(cfg, w);
    var opening := [DescribeDBInstances(id), DeleteSecret(secret, true)];
    assert w2.log == w.log + opening && w2.instances == w.instances;
    assert Extends(w, w2) && Added(w, w2) == opening && NoInstanceDelete(opening);
    assert e2.None? <==> DeleteSecretOp !in w.faults;
    if e2.None? {
      var w' := CleanUpSnapshot(w2, id).0;
      CleanUpSnapshotCalls(w2, id);
      ExtendsTrans(w, w2, w');
      NoInstanceDeleteConcat(opening, Added(w2, w'));
    }
  }

  /**
   * The snapshot clean-up against a quiet cloud: a missing snapshot is
   * tolerated, a linked manual one is deleted, and one that exists but is
   * not linked to `id` (or is not manual) makes the lookup, and so
   * terminate, fail with the plain "no corresponding snapshot" error.
   */
  lemma CleanUpSnapshotQuiet(w: World, id: string)
    requires Quiet(w) && WellFormed(w)
    ensures var name := DbSnapshotName(id);
      var linked := LinkedSnapshotStored(w, id);
      var (w', e) := CleanUpSnapshot(w, id);
      w'.log == w.log + [DescribeDBSnapshots(name, "manual")] + (if linked then [DeleteDBSnapshot(name)] else []) &&
      w'.snapshots == (if linked then w.snapshots - {name} else w.snapshots) &&
      w'.instances == w.instances && w'.secrets == w.secrets && Quiet(w') &&
      e == (if linked || name !in w.snapshots then None else Some(NoCorrespondingSnapshot))
  {
    var name := DbSnapshotName(id);
    var (w1, dbs) := LookupSnapshot(w, id);
    LookupSnapshotQuery(w, id);
    CleanUpSnapshotFaults(w, id);
    if name in w.snapshots && w.snapshots[name].snapshotType == "manual" {
      assert w.DescribeDBSnapshots(name, "manual").1 == [Page([w.snapshots[name]])];
      assert FirstLinkedIn(id, [w.snapshots[name]]).Some? == IsSnapshotCreatedByCavalier(id, w.snapshots[name]);
    }
  }

  /** The instance part of terminate on an owned instance against a quiet cloud. */
  lemma TerminateInstanceOwnedQuiet(cfg: Config, w: World)
    requires Quiet(w) && DescribesOwned(w, cfg.dbInstanceIdentifier)
    ensures var id := cfg.dbInstanceIdentifier;
      var secret := MasterUserPasswordSecretName(cfg.secretsManagerPrefix, id);
      var (w', dbi, e) := TerminateInstance(cfg, w);
      e.None? && dbi == DBInstance(id, w.instances[id]) && Quiet(w') &&
      w'.log == w.log + [DescribeDBInstances(id), DeleteDBInstance(id, true, true), WaitInstanceDeleted(id), DeleteSecret(secret, true)] &&
      w'.instances == w.instances - {id} && w'.secrets == w.secrets - {secret} && w'.snapshots == w.snapshots
  {
    var id := cfg.dbInstanceIdentifier;
    var w1 := w.Issue(DescribeDBInstances(id));
    assert CheckOwnership(w, id) == (w1, Owned(DBInstance(id, w.instances[id])));
    DeleteInstanceFaults(w1, id);
  }

  /**
   * Against a quiet cloud, terminate on an owned instance runs its steps
   * once each and in order:
   * describe, `DeleteDBInstance` (deleting automated backups and skipping
   * the final snapshot), the deleted-waiter, `DeleteSecret`, the snapshot
   * lookup, and `DeleteDBSnapshot` exactly when the snapshot
   * `<id>-cavalier` is linked to `id`. It succeeds unless a snapshot of
   * that name exists without being linked.
   */
  lemma TerminateOwnedSteps(cfg: Config, w: World)
    requires Quiet(w) && WellFormed(w) && DescribesOwned(w, cfg.dbInstanceIdentifier)
    ensures var id := cfg.dbInstanceIdentifier;
      var name := DbSnapshotName(id);
      var secret := MasterUserPasswordSecretName(cfg.secretsManagerPrefix, id);
      var linked := LinkedSnapshotStored(w, id);
      var (w', e) := Terminate(cfg, w);
      w'.log == w.log + [DescribeDBInstances(id), DeleteDBInstance(id, true, true), WaitInstanceDeleted(id),
                         DeleteSecret(secret, true), DescribeDBSnapshots(name, "manual")]
                      + (if linked then [DeleteDBSnapshot(name)] else []) &&
      w'.instances == w.instances - {id} && w'.secrets == w.secrets - {secret} &&
      w'.snapshots == (if linked then w.snapshots - {name} else w.snapshots) &&
      e == (if linked || name !in w.snapshots then None else Some(NoCorrespondingSnapshot))
  {
    var id := cfg.dbInstanceIdentifier;
    var secret := MasterUserPasswordSecretName(cfg.secretsManagerPrefix, id);
    TerminateInstanceOwnedQuiet(cfg, w);
    var (w1, _, _) := TerminateInstance(cfg, w);
    assert Terminate(cfg, w) == CleanUpSnapshot(w1, id);
    assert WellFormed(w1) && LinkedSnapshotStored(w1, id) == LinkedSnapshotStored(w, id);
    CleanUpSnapshotQuiet(w1, id);
    var lookup := DescribeDBSnapshots(DbSnapshotName(id), "manual");
    assert w1.log + [lookup] == w.log + [DescribeDBInstances(id), DeleteDBInstance(id, true, true), WaitInstanceDeleted(id),
                                         DeleteSecret(secret, true), lookup];
  }

  /** The shape of terminate once the instance is shown to be owned, whatever the cloud answers next. */
  lemma TerminateOwnedAnyCloud(cfg: Config, w: World)
    requires DescribesOwned(w, cfg.dbInstanceIdentifier)
    ensures var id := cfg.dbInstanceIdentifier;
      var (w2, e2) := DeleteInstance(w.Issue(DescribeDBInstances(id)), id);
      var (w3, e3) := DeletePasswordSecret(w2, cfg.secretsManagerPrefix, id);
      Terminate(cfg, w) == (if e2.Some? then (w2, e2) else if e3.Some? then (w3, e3) else CleanUpSnapshot(w3, id))
  {
    var id := cfg.dbInstanceIdentifier;
    assert CheckOwnership(w, id) == (w.Issue(DescribeDBInstances(id)), Owned(DBInstance(id, w.instances[id])));
  }

  /**
   * Terminate on an owned instance when the delete call or the secret
   * delete fails (every wait succeeding): an `InvalidDBInstanceState`
   * fault still goes on to the deleted-waiter, a `DBInstanceNotFound` one
   * skips it, and both go on to the secret delete; any other delete fault
   * ends the run right after the delete call; a failed secret delete ends
   * the run before the snapshot lookup; otherwise the lookup comes next.
   * The instance is removed only when the delete call succeeds.
   */
  lemma TerminateOwnedFaults(cfg: Config, w: World)
    requires DescribesOwned(w, cfg.dbInstanceIdentifier) && w.waits == []
    ensures var id := cfg.dbInstanceIdentifier;
      var secret := MasterUserPasswordSecretName(cfg.secretsManagerPrefix, id);
      var f := w.Injected(DeleteDBInstanceOp);
      var g := w.Injected(DeleteSecretOp);
      var proceeds := f.None? || f == Some(InvalidState) || f == Some(InstanceNotFound);
      var head := [DescribeDBInstances(id), DeleteDBInstance(id, true, true)] +
        (if f == Some(InstanceNotFound) then [] else [WaitInstanceDeleted(id)]) + [DeleteSecret(secret, true)];
      var (w', e) := Terminate(cfg, w);
      w'.instances == (if f.None? then w.instances - {id} else w.instances) &&
      (!proceeds ==>
        w'.log == w.log + [DescribeDBInstances(id), DeleteDBInstance(id, true, true)] &&
        e == Some(Wrapped(DeletingInstance, f.value))) &&
      (proceeds && g.Some? ==> w'.log == w.log + head && e == Some(Wrapped(DeletingSecret, g.value))) &&
      (proceeds && g.None? ==>
        Extends(w, w') && |head| < |Added(w, w')| && Added(w, w')[..|head|] == head &&
        Added(w, w')[|head|] == DescribeDBSnapshots(DbSnapshotName(id), "manual"))
  {
    var id := cfg.dbInstanceIdentifier;
    var secret := MasterUserPasswordSecretName(cfg.secretsManagerPrefix, id);
    TerminateOwnedAnyCloud(cfg, w);
    TerminateOwnedHead(cfg, w);
    var (w2, e2) := DeleteInstance(w.Issue(DescribeDBInstances(id)), id);
    var (w3, e3) := DeletePasswordSecret(w2, cfg.secretsManagerPrefix, id);
    if e2.None? && e3.None? {
      assert Extends(w, w3);
      var w' := CleanUpSnapshot(w3, id).0;
      CleanUpSnapshotCalls(w3, id);
      ExtendsTrans(w, w3, w');
    }
  }

  /** The instance and secret steps of `TerminateOwnedFaults`, before the snapshot clean-up. */
  lemma TerminateOwnedHead(cfg: Config, w: World)
    requires DescribesOwned(w, cfg.dbInstanceIdentifier) && w.waits == []
    ensures var id := cfg.dbInstanceIdentifier;
      var secret := MasterUserPasswordSecretName(cfg.secretsManagerPrefix, id);
      var f := w.Injected(DeleteDBInstanceOp);
      var g := w.Injected(DeleteSecretOp);
      var proceeds := f.None? || f == Some(InvalidState) || f == Some(InstanceNotFound);
      var head := [DescribeDBInstances(id), DeleteDBInstance(id, true, true)] +
        (if f == Some(InstanceNotFound) then [] else [WaitInstanceDeleted(id)]) + [DeleteSecret(secret, true)];
      var (w2, e2) := DeleteInstance(w.Issue(DescribeDBInstances(id)), id);
      var (w3, e3) := DeletePasswordSecret(w2, cfg.secretsManagerPrefix, id);
      w2.instances == (if f.None? then w.instances - {id} else w.instances) &&
      w3.instances == w2.instances &&
      (!proceeds ==>
        w2.log == w.log + [DescribeDBInstances(id), DeleteDBInstance(id, true, true)] &&
        e2 == Some(Wrapped(DeletingInstance, f.value))) &&
      (proceeds ==>
        e2.None? && w3.log == w.log + head &&
        e3 == (if g.Some? then Some(Wrapped(DeletingSecret, g.value)) else None))
  {
    var id := cfg.dbInstanceIdentifier;
    DeleteInstanceFaults(w.Issue(DescribeDBInstances(id)), id);
  }

  /**
   * The safety promise of terminate, whatever the cloud: unless the
   * describe call shows an instance the tool owns, terminate issues no
   * `DeleteDBInstance` and removes no instance.
   */
  lemma TerminateDeletesOnlyOwned(cfg: Config, w: World)
    requires !DescribesOwned(w, cfg.dbInstanceIdentifier)
    ensures var w' := Terminate(cfg, w).0;
      Extends(w, w') && NoInstanceDelete(Added(w, w')) && w'.instances == w.instances
  {
    var id := cfg.dbInstanceIdentifier;
    if DescribesGone(w, id) {
      TerminateWhenGone(cfg, w);
    } else {
      TerminateRefusesUnowned(cfg, w);
      assert Added(w, w.Issue(DescribeDBInstances(id))) == [DescribeDBInstances(id)];
    }
  }

  /**
   * Terminate of an instance reported gone, against a quiet cloud: the
   * secret is deleted and the snapshot looked up; a linked snapshot is
   * still deleted, a missing one is tolerated, and one that exists
   * unlinked fails the run.
   */
  lemma TerminateGoneQuiet(cfg: Config, w: World)
    requires Quiet(w) && WellFormed(w) && cfg.dbInstanceIdentifier !in w.instances
    ensures var id := cfg.dbInstanceIdentifier;
      var name := DbSnapshotName(id);
      var secret := MasterUserPasswordSecretName(cfg.secretsManagerPrefix, id);
      var linked := LinkedSnapshotStored(w, id);
      var (w', e) := Terminate(cfg, w);
      w'.log == w.log + [DescribeDBInstances(id), DeleteSecret(secret, true), DescribeDBSnapshots(name, "manual")]
                      + (if linked then [DeleteDBSnapshot(name)] else []) &&
      w'.instances == w.instances && w'.secrets == w.secrets - {secret} &&
      w'.snapshots == (if linked then w.snapshots - {name} else w.snapshots) &&
      e == (if linked || name !in w.snapshots then None else Some(NoCorrespondingSnapshot))
  {
    var id := cfg.dbInstanceIdentifier;
    var secret := MasterUserPasswordSecretName(cfg.secretsManagerPrefix, id);
    TerminateGoneSteps(cfg, w);
    var w1 := w.Issue(DescribeDBInstances(id)).Issue(DeleteSecret(secret, true)).(secrets := w.secrets - {secret});
    assert DeletePasswordSecret(w.Issue(DescribeDBInstances(id)), cfg.secretsManagerPrefix, id) == (w1, None);
    assert Terminate(cfg, w) == CleanUpSnapshot(w1, id);
    assert WellFormed(w1) && LinkedSnapshotStored(w1, id) == LinkedSnapshotStored(w, id);
    CleanUpSnapshotQuiet(w1, id);
    var lookup := DescribeDBSnapshots(DbSnapshotName(id), "manual");
    assert w1.log + [lookup] == w.log + [DescribeDBInstances(id), DeleteSecret(secret, true), lookup];
  }

  /**
   * Modify changes nothing unless the instance is shown to be owned: when
   * the describe call fails or finds an unowned instance, it is the only
   * call issued and the result is an error (the ownership error for an
   * instance that exists unowned).
   */
  lemma ModifyRefusesUnowned(cfg: Config, w: World, generated: Result<string, Fault>)
    requires !DescribesOwned(w, cfg.dbInstanceIdentifier)
    ensures var id := cfg.dbInstanceIdentifier;
      var (w', e) := Modify(cfg, w, generated);
      w' == w.Issue(DescribeDBInstances(id)) && e.Some? &&
      (DescribeDBInstancesOp !in w.faults && id in w.instances ==> e == Some(NotCreatedByCavalier))
  {
  }

  /**
   * Where the password passed to `ModifyDBInstance` comes from, whatever
   * the cloud: `CreateSecret(<prefix>/<id>, generated)` is issued; if it
   * succeeds the generated password is used; if it fails with
   * `ResourceExistsException`, `GetSecretValue` of the same name follows
   * and exactly the stored value is used (or the run fails when that call
   * fails); any other creation fault is fatal. Only the log and the
   * secrets change.
   */
  lemma ChoosePasswordOutcome(cfg: Config, w: World, id: string, password: string)
    ensures var secret := MasterUserPasswordSecretName(cfg.secretsManagerPrefix, id);
      var created :=
        if CreateSecretOp in w.faults then Some(w.faults[CreateSecretOp])
        else if secret in w.secrets then Some(ResourceExists) else None;
      var stored := GetSecretValueOp !in w.faults && secret in w.secrets;
      var create := CreateSecret(secret, SecretDescription, password);
      var (w', chosen) := ChoosePassword(cfg, w, id, Success(password));
      w'.instances == w.instances && w'.snapshots == w.snapshots && w'.faults == w.faults && w'.waits == w.waits &&
      (created.None? ==>
        w'.log == w.log + [create] && w'.secrets == w.secrets[secret := password] && chosen == Success(password)) &&
      (created == Some(ResourceExists) && stored ==>
        w'.log == w.log + [create, GetSecretValue(secret)] && w'.secrets == w.secrets &&
        chosen == Success(w.secrets[secret])) &&
      (created == Some(ResourceExists) && !stored ==>
        w'.log == w.log + [create, GetSecretValue(secret)] && w'.secrets == w.secrets &&
        chosen.Failure? && chosen.error.Wrapped? && chosen.error.step == GettingPassword) &&
      (created.Some? && created != Some(ResourceExists) ==>
        w'.log == w.log + [create] && w'.secrets == w.secrets &&
        chosen == Failure(Wrapped(CreatingPassword, created.value)))
  {
  }

  /**
   * When the secret `<prefix>/<id>` already exists and can be read, modify
   * passes exactly the stored password, not the generated one, to
   * `ModifyDBInstance`, and leaves the secret as it was; the available-wait
   * follows unless the modification fails.
   */
  lemma ModifyReusesStoredSecret(cfg: Config, w: World, password: string)
    requires DescribesOwned(w, cfg.dbInstanceIdentifier) && w.waits == []
    requires CreateSecretOp !in w.faults && GetSecretValueOp !in w.faults
    requires MasterUserPasswordSecretName(cfg.secretsManagerPrefix, cfg.dbInstanceIdentifier) in w.secrets
    ensures var id := cfg.dbInstanceIdentifier;
      var secret := MasterUserPasswordSecretName(cfg.secretsManagerPrefix, id);
      var calls := [DescribeDBInstances(id), WaitInstanceAvailable(id), CreateSecret(secret, SecretDescription, password),
                    GetSecretValue(secret), ModifyDBInstance(id, true, 0, w.secrets[secret])];
      var (w', e) := Modify(cfg, w, Success(password));
      w'.secrets == w.secrets &&
      (ModifyDBInstanceOp !in w.faults ==> w'.log == w.log + calls + [WaitInstanceAvailable(id)] && e.None?) &&
      (ModifyDBInstanceOp in w.faults ==>
        w'.log == w.log + calls && e == Some(Wrapped(Modifying, w.faults[ModifyDBInstanceOp])))
  {
    var id := cfg.dbInstanceIdentifier;
    var secret := MasterUserPasswordSecretName(cfg.secretsManagerPrefix, id);
    var w1 := w.Issue(DescribeDBInstances(id));
    var w2 := w1.Issue(WaitInstanceAvailable(id));
    assert AwaitInstanceAvailable(w1, id) == (w2, None);
    ModifyOwnedSteps(cfg, w, Success(password));
    ChoosePasswordOutcome(cfg, w2, id, password);
    var (w3, chosen) := ChoosePassword(cfg, w2, id, Success(password));
    assert chosen == Success(w.secrets[secret]);
    var mod := ModifyDBInstance(id, true, 0, w.secrets[secret]);
    assert w3.log + [mod] == w.log + [DescribeDBInstances(id), WaitInstanceAvailable(id),
      CreateSecret(secret, SecretDescription, password), GetSecretValue(secret), mod];
    if ModifyDBInstanceOp !in w.faults {
      ApplyModificationQuiet(w3, id, chosen.value);
    }
  }

  /** On an existing instance with no faults to meet, the modification and its wait both succeed. */
  lemma ApplyModificationQuiet(w: World, id: string, password: string)
    requires ModifyDBInstanceOp !in w.faults && id in w.instances && w.waits == []
    ensures ApplyModification(w, id, password) ==
      (w.Issue(ModifyDBInstance(id, true, 0, password)).Issue(WaitInstanceAvailable(id)), None)
  {
  }

  /** A failing password generator aborts modify after the available-wait, before any secret call. */
  lemma ModifyGeneratorFailure(cfg: Config, w: World, f: Fault)
    requires DescribesOwned(w, cfg.dbInstanceIdentifier) && w.waits == []
    ensures var id := cfg.dbInstanceIdentifier;
      Modify(cfg, w, Failure(f)) ==
        (w.Issue(DescribeDBInstances(id)).Issue(WaitInstanceAvailable(id)), Some(Wrapped(GeneratingPassword, f)))
  {
    var id := cfg.dbInstanceIdentifier;
    assert CheckOwnership(w, id) == (w.Issue(DescribeDBInstances(id)), Owned(DBInstance(id, w.instances[id])));
  }

  /** Every `ModifyDBInstance` among `calls` targets `id`, applies immediately and turns backups off. */
  ghost predicate ModificationsImmediate(calls: seq<Call>, id: string) {
    forall k :: 0 <= k < |calls| && calls[k].ModifyDBInstance? ==>
      calls[k].dbInstanceIdentifier == id && calls[k].applyImmediately && calls[k].backupRetentionPeriod == 0
  }

  /** The password step issues at most `CreateSecret` then `GetSecretValue`, and no modification. */
  lemma ChoosePasswordCalls(cfg: Config, w: World, dbID: string, generated: Result<string, Fault>)
    ensures var w' := ChoosePassword(cfg, w, dbID, generated).0;
      var secret := MasterUserPasswordSecretName(cfg.secretsManagerPrefix, dbID);
      Extends(w, w') && ModificationsImmediate(Added(w, w'), dbID) &&
      (generated.Success? ==>
        var create := CreateSecret(secret, SecretDescription, generated.value);
        Added(w, w') == [create] || Added(w, w') == [create, GetSecretValue(secret)]) &&
      (generated.Failure? ==> w' == w)
  {
  }

  /** The modification step issues one immediate `ModifyDBInstance`, then possibly the wait. */
  lemma ApplyModificationCalls(w: World, dbID: string, password: string)
    ensures var w' := ApplyModification(w, dbID, password).0;
      var change := Call.ModifyDBInstance(dbID, true, 0, password);
      Extends(w, w') && ModificationsImmediate(Added(w, w'), dbID) &&
      (Added(w, w') == [change] || Added(w, w') == [change, WaitInstanceAvailable(dbID)])
  {
  }

  lemma ImmediateConcat(a: seq<Call>, b: seq<Call>, id: string)
    requires ModificationsImmediate(a, id) && ModificationsImmediate(b, id)
    ensures ModificationsImmediate(a + b, id)
  {
    forall k | 0 <= k < |a + b| && (a + b)[k].ModifyDBInstance?
      ensures (a + b)[k].dbInstanceIdentifier == id && (a + b)[k].applyImmediately && (a + b)[k].backupRetentionPeriod == 0
    {
      if k >= |a| {
        assert (a + b)[k] == b[k - |a|];
      }
    }
  }

  /** The steps of modify once the instance is shown to be owned. */
  lemma ModifyOwnedSteps(cfg: Config, w: World, generated: Result<string, Fault>)
    requires DescribesOwned(w, cfg.dbInstanceIdentifier)
    ensures var id := cfg.dbInstanceIdentifier;
      var (w2, e2) := AwaitInstanceAvailable(w.Issue(DescribeDBInstances(id)), id);
      var (w3, password) := ChoosePassword(cfg, w2, id, generated);
      Modify(cfg, w, generated) ==
        if e2.Some? then (w2, e2)
        else if password.Failure? then (w3, Some(password.error))
        else ApplyModification(w3, id, password.value)
  {
    var id := cfg.dbInstanceIdentifier;
    assert CheckOwnership(w, id) == (w.Issue(DescribeDBInstances(id)), Owned(DBInstance(id, w.instances[id])));
  }

  /** The calls of modify on an owned instance, whatever the later steps answer. */
  lemma ModifyOwnedImmediate(cfg: Config, w: World, generated: Result<string, Fault>)
    requires DescribesOwned(w, cfg.dbInstanceIdentifier)
    ensures var w' := Modify(cfg, w, generated).0;
      Extends(w, w') && |w.log| < |w'.log| && ModificationsImmediate(Added(w, w'), cfg.dbInstanceIdentifier)
  {
    var id := cfg.dbInstanceIdentifier;
    ModifyOwnedSteps(cfg, w, generated);
    var (w2, e2) := AwaitInstanceAvailable(w.Issue(DescribeDBInstances(id)), id);
    var opening := [DescribeDBInstances(id), WaitInstanceAvailable(id)];
    assert w2.log == w.log + opening;
    assert Extends(w, w2) && Added(w, w2) == opening && ModificationsImmediate(opening, id);
    if e2.Some? {
      return;
    }
    var (w3, password) := ChoosePassword(cfg, w2, id, generated);
    ChoosePasswordCalls(cfg, w2, id, generated);
    ExtendsTrans(w, w2, w3);
    ImmediateConcat(opening, Added(w2, w3), id);
    if password.Failure? {
      return;
    }
    var w' := ApplyModification(w3, id, password.value).0;
    ApplyModificationCalls(w3, id, password.value);
    ExtendsTrans(w, w3, w');
    ImmediateConcat(Added(w, w3), Added(w3, w'), id);
  }

  /**
   * Whatever the cloud answers, every `ModifyDBInstance` that modify
   * issues targets the configured instance with `ApplyImmediately` set and
   * a backup retention period of 0, and only after the instance was shown
   * to be owned.
   */
  lemma ModifyAlwaysImmediate(cfg: Config, w: World, generated: Result<string, Fault>)
    ensures var id := cfg.dbInstanceIdentifier;
      var w' := Modify(cfg, w, generated).0;
      |w.log| < |w'.log| && w'.log[..|w.log|] == w.log &&
      ModificationsImmediate(Added(w, w'), id) &&
      (!DescribesOwned(w, id) ==> Added(w, w') == [DescribeDBInstances(id)])
  {
    if DescribesOwned(w, cfg.dbInstanceIdentifier) {
      ModifyOwnedImmediate(cfg, w, generated);
    } else {
      ModifyRefusesUnowned(cfg, w, generated);
    }
  }

  /**
   * A restored instance always carries `CREATED_BY_CAVALIER=true`, so it
   * passes the ownership test, and it carries the usage-link tag iff a
   * snapshot was taken for it.
   */
  lemma RestoreTagsMarkOwnership(id: string, takeSnapshot: bool)
    ensures IsCreatedByCavalier(DBInstance(id, RestoreTags(takeSnapshot)))
    ensures DoesUseSnapshotCreatedByCavalier(RestoreTags(takeSnapshot)) == takeSnapshot
  {
    var tags := RestoreTags(takeSnapshot);
    assert FirstWithKey(tags, OwnershipKey, 0);
    if takeSnapshot {
      assert FirstWithKey(tags, UsageKey, 1);
    }
  }

  /**
   * The snapshot step against a quiet cloud: the manual snapshot
   * `<id>-cavalier` of the source instance is created carrying the link
   * tag, so that the link test holds of it for `id`, and is awaited.
   */
  lemma SnapshotLinksTarget(cfg: Config, w: World)
    requires Quiet(w) && WellFormed(w)
    requires cfg.sourceDBInstanceIdentifier in w.instances && DbSnapshotName(cfg.dbInstanceIdentifier) !in w.snapshots
    ensures var id := cfg.dbInstanceIdentifier;
      var name := DbSnapshotName(id);
      var (w', e) := Snapshot(cfg, w);
      e.None? && Quiet(w') && WellFormed(w') && LinkedSnapshotStored(w', id) &&
      w'.log == w.log + [CreateDBSnapshot(cfg.sourceDBInstanceIdentifier, name, [Tag(LinkKey, id)]), WaitSnapshotAvailable(name)] &&
      w'.snapshots == w.snapshots[name := DBSnapshot(name, SnapshotArnPrefix + name, "manual", [Tag(LinkKey, id)])] &&
      w'.instances == w.instances && w'.secrets == w.secrets
  {
    var id := cfg.dbInstanceIdentifier;
    assert IsSnapshotCreatedByCavalier(id, DBSnapshot(DbSnapshotName(id), "", "manual", [Tag(LinkKey, id)]));
  }

  /**
   * The snapshot step whatever the cloud: its first call always creates
   * `<id>-cavalier` from the source instance carrying the link tag for
   * `id`; a failed create is returned as the creation error with no wait;
   * a successful one stores a snapshot linked to `id` and is followed by
   * the available-wait, whose failure is the step's only other error.
   */
  lemma SnapshotAnyCloud(cfg: Config, w: World)
    ensures var id := cfg.dbInstanceIdentifier;
      var name := DbSnapshotName(id);
      var create := CreateDBSnapshot(cfg.sourceDBInstanceIdentifier, name, [Tag(LinkKey, id)]);
      var created := CreateDBSnapshotOp !in w.faults && cfg.sourceDBInstanceIdentifier in w.instances &&
        name !in w.snapshots;
      var (w', e) := Snapshot(cfg, w);
      |w.log| < |w'.log| && w'.log[..|w.log| + 1] == w.log + [create] &&
      w'.instances == w.instances && w'.secrets == w.secrets &&
      (CreateDBSnapshotOp in w.faults ==>
        w' == w.Issue(create) && e == Some(Wrapped(CreatingSnapshot, w.faults[CreateDBSnapshotOp]))) &&
      (!created ==> w' == w.Issue(create) && e.Some? && e.value.Wrapped? && e.value.step == CreatingSnapshot) &&
      (created ==>
        w'.log == w.log + [create, WaitSnapshotAvailable(name)] && LinkedSnapshotStored(w', id) &&
        (e.Some? <==> w.waits != [] && w.waits[0].Some?) &&
        (e.Some? ==> e == Some(Wrapped(WaitingForSnapshot, w.waits[0].value))))
  {
    var id := cfg.dbInstanceIdentifier;
    var name := DbSnapshotName(id);
    var create := CreateDBSnapshot(cfg.sourceDBInstanceIdentifier, name, [Tag(LinkKey, id)]);
    assert IsSnapshotCreatedByCavalier(id, DBSnapshot(name, SnapshotArnPrefix + name, "manual", [Tag(LinkKey, id)]));
    assert (w.log + [create])[..|w.log| + 1] == w.log + [create];
    assert (w.log + [create, WaitSnapshotAvailable(name)])[..|w.log| + 1] == w.log + [create];
  }

  /**
   * The snapshot a restore starts from: the configured ARN, untouched,
   * when no snapshot is to be taken; otherwise, against a quiet cloud, the
   * ARN the lookup reports for the snapshot just taken.
   */
  lemma RestoreSourceChoice(cfg: Config, w: World)
    ensures !cfg.takeSnapshot ==> RestoreSource(cfg, w) == (w, Success(cfg.snapshotARN))
    ensures (cfg.takeSnapshot && Quiet(w) && WellFormed(w) &&
             cfg.sourceDBInstanceIdentifier in w.instances && DbSnapshotName(cfg.dbInstanceIdentifier) !in w.snapshots) ==>
      var id := cfg.dbInstanceIdentifier;
      var name := DbSnapshotName(id);
      var (w', r) := RestoreSource(cfg, w);
      r == Success(SnapshotArnPrefix + name) && Quiet(w') && WellFormed(w') &&
      w'.log == w.log + [CreateDBSnapshot(cfg.sourceDBInstanceIdentifier, name, [Tag(LinkKey, id)]),
                         WaitSnapshotAvailable(name), DescribeDBSnapshots(name, "manual")] &&
      w'.snapshots == w.snapshots[name := DBSnapshot(name, SnapshotArnPrefix + name, "manual", [Tag(LinkKey, id)])] &&
      w'.instances == w.instances && w'.secrets == w.secrets
  {
    if cfg.takeSnapshot && Quiet(w) && WellFormed(w) &&
      cfg.sourceDBInstanceIdentifier in w.instances && DbSnapshotName(cfg.dbInstanceIdentifier) !in w.snapshots
    {
      var (w1, _) := Snapshot(cfg, w);
      SnapshotLinksTarget(cfg, w);
      LookupSnapshotQuery(w1, cfg.dbInstanceIdentifier);
    }
  }

  /**
   * Whatever the cloud, a restore that takes a snapshot stops with the
   * snapshot step's error when creating or awaiting the snapshot fails;
   * otherwise it looks the snapshot up, restores from the ARN of the stored
   * linked snapshot the lookup finds, and returns every lookup error,
   * "not found" included.
   */
  lemma RestoreSourceAfterSnapshot(cfg: Config, w: World)
    requires cfg.takeSnapshot
    ensures var id := cfg.dbInstanceIdentifier;
      var name := DbSnapshotName(id);
      var (w1, e) := Snapshot(cfg, w);
      var (w', r) := RestoreSource(cfg, w);
      (e.Some? ==> w' == w1 && r == Failure(e.value)) &&
      (e.None? ==>
        w' == w1.Issue(DescribeDBSnapshots(name, "manual")) &&
        (r.Success? ==> LinkedSnapshotStored(w1, id) && r.value == w1.snapshots[name].arn) &&
        (r.Failure? ==> LookupSnapshot(w1, id).1 == Failure(r.error)))
  {
    var (w1, e) := Snapshot(cfg, w);
    LookupSnapshotQuery(w1, cfg.dbInstanceIdentifier);
  }

  /**
   * Whatever the cloud, a successful restore request leaves an instance
   * the trailing modify will accept as owned, unless describing it fails.
   */
  lemma RestorePassesModifyGate(cfg: Config, w: World, snapshotARN: string)
    ensures var (w', r) := w.RestoreDBInstanceFromDBSnapshot(RestoreRequest(cfg, snapshotARN));
      r.Success? ==>
        r.value.identifier == cfg.dbInstanceIdentifier &&
        w'.instances == w.instances[cfg.dbInstanceIdentifier := RestoreTags(cfg.takeSnapshot)] &&
        (DescribeDBInstancesOp !in w.faults ==> DescribesOwned(w', cfg.dbInstanceIdentifier))
  {
    RestoreTagsMarkOwnership(cfg.dbInstanceIdentifier, cfg.takeSnapshot);
  }

  /**
   * From an existing snapshot, against a quiet cloud: the instance is
   * restored with the ownership tag, awaited, passes the ownership gate of
   * the trailing modify, and gets the generated password, which is also
   * stored as its secret.
   */
  lemma RestoreFromQuiet(cfg: Config, w: World, snapshotARN: string, password: string)
    requires Quiet(w) && w.HasSnapshot(snapshotARN) && cfg.dbInstanceIdentifier !in w.instances
    requires MasterUserPasswordSecretName(cfg.secretsManagerPrefix, cfg.dbInstanceIdentifier) !in w.secrets
    ensures var id := cfg.dbInstanceIdentifier;
      var secret := MasterUserPasswordSecretName(cfg.secretsManagerPrefix, id);
      var (w', e) := RestoreFrom(cfg, w, snapshotARN, Success(password));
      e.None? &&
      w'.instances == w.instances[id := RestoreTags(cfg.takeSnapshot)] &&
      w'.secrets == w.secrets[secret := password] &&
      w'.log == w.log +
        [RestoreDBInstanceFromDBSnapshot(RestoreRequest(cfg, snapshotARN)), WaitInstanceAvailable(id),
         DescribeDBInstances(id), WaitInstanceAvailable(id), CreateSecret(secret, SecretDescription, password),
         ModifyDBInstance(id, true, 0, password), WaitInstanceAvailable(id)]
  {
    var id := cfg.dbInstanceIdentifier;
    var (w1, r) := w.RestoreDBInstanceFromDBSnapshot(RestoreRequest(cfg, snapshotARN));
    RestorePassesModifyGate(cfg, w, snapshotARN);
    var w2 := w1.Issue(WaitInstanceAvailable(id));
    assert AwaitInstanceAvailable(w1, id) == (w2, None);
    var w3 := w2.Issue(DescribeDBInstances(id)).Issue(WaitInstanceAvailable(id));
    ModifyOwnedSteps(cfg, w2, Success(password));
    ChoosePasswordOutcome(cfg, w3, id, password);
    var w4 := ChoosePassword(cfg, w3, id, Success(password)).0;
    ApplyModificationQuiet(w4, id, password);
  }

  /**
   * A restore against a quiet cloud, from a fresh snapshot or from the
   * configured one, runs to completion: the instance is restored with the
   * ownership tag (and the usage-link tag iff a snapshot was taken), passes
   * the ownership gate of the trailing modify, and gets the generated
   * password, which is also stored as its secret.
   */
  lemma RestoreQuiet(cfg: Config, w: World, password: string)
    requires Quiet(w) && WellFormed(w) && PreRunChecked(cfg)
    requires cfg.dbInstanceIdentifier !in w.instances
    requires cfg.takeSnapshot ==>
      cfg.sourceDBInstanceIdentifier in w.instances && DbSnapshotName(cfg.dbInstanceIdentifier) !in w.snapshots
    requires !cfg.takeSnapshot ==> w.HasSnapshot(cfg.snapshotARN)
    requires MasterUserPasswordSecretName(cfg.secretsManagerPrefix, cfg.dbInstanceIdentifier) !in w.secrets
    ensures var id := cfg.dbInstanceIdentifier;
      var name := DbSnapshotName(id);
      var secret := MasterUserPasswordSecretName(cfg.secretsManagerPrefix, id);
      var arn := if cfg.takeSnapshot then SnapshotArnPrefix + name else cfg.snapshotARN;
      var sourcing :=
        if cfg.takeSnapshot
        then [CreateDBSnapshot(cfg.sourceDBInstanceIdentifier, name, [Tag(LinkKey, id)]),
              WaitSnapshotAvailable(name), DescribeDBSnapshots(name, "manual")]
        else [];
      var (w', e) := Restore(cfg, w, Success(password));
      e.None? &&
      w'.instances == w.instances[id := RestoreTags(cfg.takeSnapshot)] &&
      w'.secrets == w.secrets[secret := password] &&
      w'.log == w.log + sourcing +
        [RestoreDBInstanceFromDBSnapshot(RestoreRequest(cfg, arn)), WaitInstanceAvailable(id),
         DescribeDBInstances(id), WaitInstanceAvailable(id), CreateSecret(secret, SecretDescription, password),
         ModifyDBInstance(id, true, 0, password), WaitInstanceAvailable(id)]
  {
    var id := cfg.dbInstanceIdentifier;
    var name := DbSnapshotName(id);
    RestoreSourceChoice(cfg, w);
    var (w1, src) := RestoreSource(cfg, w);
    if cfg.takeSnapshot {
      assert name in w1.snapshots && w1.snapshots[name].arn == src.value;
    }
    assert w1.HasSnapshot(src.value);
    RestoreFromQuiet(cfg, w1, src.value, password);
  }

  /**
   * The already-deleted case with a listed snapshot `test-cavalier` that
   * carries no link tag: the lookup finds no linked snapshot and returns a
   * plain error, which terminate does not tolerate.
   */
  lemma TerminateGoneWithUnlinkedSnapshot()
    ensures var cfg := Config("", "", "", "", "test", "", "", "secrets-prefix", [], false);
      var w := World(map[], map["test-cavalier" := DBSnapshot("test-cavalier", "", "manual", [])], map[], map[], [], []);
      Terminate(cfg, w).1 == Some(NoCorrespondingSnapshot)
  {
    var cfg := Config("", "", "", "", "test", "", "", "secrets-prefix", [], false);
    var w := World(map[], map["test-cavalier" := DBSnapshot("test-cavalier", "", "manual", [])], map[], map[], [], []);
    assert DbSnapshotName("test") == "test-cavalier";
    assert !LinkedSnapshotStored(w, "test");
    TerminateGoneQuiet(cfg, w);
  }
}
