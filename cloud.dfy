/**
 * A fake of the two services the orchestrator talks to, offering exactly
 * the operations of the `RDSClient` and `SecretsManagerClient` interfaces,
 * plus the three waiters. Its state is a `World`: the instances (by
 * identifier, with their tags), the snapshots (by identifier), the secrets
 * (name to value), faults injected per operation, a script of waiter
 * outcomes, and an append-only log of every call issued.
 *
 * Each operation is a function from the world before the call to the world
 * after it and the call's result; `FakeCloud` is the object the
 * orchestrator mutates, and each of its methods performs one operation.
 */
module Cloud {
  import opened Wrappers
  import opened TagPolicy
  import opened Faults

  /** The operations of the service interfaces, as keys for fault injection. */
  datatype Operation =
    | DescribeDBInstancesOp | DescribeDBSnapshotsOp | DeleteDBInstanceOp | DeleteDBSnapshotOp
    | CreateDBSnapshotOp | RestoreDBInstanceFromDBSnapshotOp | ModifyDBInstanceOp
    | CreateSecretOp | DeleteSecretOp | GetSecretValueOp

  /** The input of `RestoreDBInstanceFromDBSnapshot`, as the orchestrator fills it. */
  datatype RestoreInput = RestoreInput(
    dbSnapshotIdentifier: string,
    dbSubnetGroupName: string,
    vpcSecurityGroupIds: seq<string>,
    dbInstanceClass: string,
    dbInstanceIdentifier: string,
    dbParameterGroupName: Option<string>,
    optionGroupName: Option<string>,
    enableIAMDatabaseAuthentication: bool,
    publiclyAccessible: bool,
    autoMinorVersionUpgrade: bool,
    multiAZ: bool,
    tags: seq<Tag>)

  /** A call as it is recorded in the log, with the inputs it was issued with. */
  datatype Call =
    | DescribeDBInstances(dbInstanceIdentifier: string)
    | DescribeDBSnapshots(dbSnapshotIdentifier: string, snapshotType: string)
    | DeleteDBInstance(dbInstanceIdentifier: string, deleteAutomatedBackups: bool, skipFinalSnapshot: bool)
    | DeleteDBSnapshot(dbSnapshotIdentifier: string)
    | CreateDBSnapshot(dbInstanceIdentifier: string, dbSnapshotIdentifier: string, tags: seq<Tag>)
    | RestoreDBInstanceFromDBSnapshot(input: RestoreInput)
    | ModifyDBInstance(dbInstanceIdentifier: string, applyImmediately: bool, backupRetentionPeriod: int, masterUserPassword: string)
    | CreateSecret(name: string, description: string, secretString: string)
    | DeleteSecret(secretId: string, forceDeleteWithoutRecovery: bool)
    | GetSecretValue(secretId: string)
    | WaitInstanceAvailable(dbInstanceIdentifier: string)
    | WaitInstanceDeleted(dbInstanceIdentifier: string)
    | WaitSnapshotAvailable(dbSnapshotIdentifier: string)

  /** One page of a `DescribeDBSnapshots` listing, or the error fetching it. */
  datatype Page = Page(snapshots: seq<DBSnapshot>) | PageError(fault: Fault)

  const SnapshotArnPrefix := "arn:aws:rds:region:account:snapshot:"
  const SecretArnPrefix := "arn:aws:secretsmanager:region:account:secret:"

  datatype World = World(
    instances: map<string, seq<Tag>>,
    snapshots: map<string, DBSnapshot>,
    secrets: map<string, string>,
    faults: map<Operation, Fault>,
    waits: seq<Option<Fault>>,
    log: seq<Call>)
  {
    /** The world with `c` appended to the log. */
    function Issue(c: Call): (w: World)
      ensures w.log == log + [c]
    {
      this.(log := log + [c])
    }

    /** The fault injected for `op`, if any. */
    function Injected(op: Operation): Option<Fault> {
      if op in faults then Some(faults[op]) else None
    }

    /** Holds iff `ref` names a snapshot, by identifier or by ARN. */
    predicate HasSnapshot(ref: string) {
      exists name :: name in snapshots && (name == ref || snapshots[name].arn == ref)
    }

    function DescribeDBInstances(id: string): (World, Result<seq<DBInstance>, Fault>) {
      var w := Issue(Call.DescribeDBInstances(id));
      var f := Injected(DescribeDBInstancesOp);
      if f.Some? then (w, Failure(f.value))
      else if id !in instances then (w, Failure(InstanceNotFound))
      else (w, Success([DBInstance(id, instances[id])]))
    }

    /**
     * The pages of a listing filtered by snapshot identifier and type. An
     * identifier that names no snapshot is a `DBSnapshotNotFound` fault.
     */
    function DescribeDBSnapshots(name: string, snapshotType: string): (World, seq<Page>) {
      var w := Issue(Call.DescribeDBSnapshots(name, snapshotType));
      var f := Injected(DescribeDBSnapshotsOp);
      if f.Some? then (w, [PageError(f.value)])
      else if name !in snapshots then (w, [PageError(SnapshotNotFound)])
      else if snapshots[name].snapshotType != snapshotType then (w, [Page([])])
      else (w, [Page([snapshots[name]])])
    }

    function DeleteDBInstance(id: string, deleteAutomatedBackups: bool, skipFinalSnapshot: bool): (World, Option<Fault>) {
      var w := Issue(Call.DeleteDBInstance(id, deleteAutomatedBackups, skipFinalSnapshot));
      var f := Injected(DeleteDBInstanceOp);
      if f.Some? then (w, f)
      else if id !in instances then (w, Some(InstanceNotFound))
      else (w.(instances := instances - {id}), None)
    }

    function DeleteDBSnapshot(name: string): (World, Option<Fault>) {
      var w := Issue(Call.DeleteDBSnapshot(name));
      var f := Injected(DeleteDBSnapshotOp);
      if f.Some? then (w, f)
      else if name !in snapshots then (w, Some(SnapshotNotFound))
      else (w.(snapshots := snapshots - {name}), None)
    }

    /** A manual snapshot of instance `source`, named `name`, carrying `tags`. */
    function CreateDBSnapshot(source: string, name: string, tags: seq<Tag>): (World, Option<Fault>) {
      var w := Issue(Call.CreateDBSnapshot(source, name, tags));
      var f := Injected(CreateDBSnapshotOp);
      if f.Some? then (w, f)
      else if source !in instances then (w, Some(InstanceNotFound))
      else if name in snapshots then (w, Some(Api("DBSnapshotAlreadyExists")))
      else (w.(snapshots := snapshots[name := DBSnapshot(name, SnapshotArnPrefix + name, "manual", tags)]), None)
    }

    /** A new instance carrying the input's tags, from the snapshot the input names. */
    function RestoreDBInstanceFromDBSnapshot(input: RestoreInput): (World, Result<DBInstance, Fault>) {
      var w := Issue(Call.RestoreDBInstanceFromDBSnapshot(input));
      var f := Injected(RestoreDBInstanceFromDBSnapshotOp);
      var id := input.dbInstanceIdentifier;
      if f.Some? then (w, Failure(f.value))
      else if id in instances then (w, Failure(Api("DBInstanceAlreadyExists")))
      else if !HasSnapshot(input.dbSnapshotIdentifier) then (w, Failure(SnapshotNotFound))
      else (w.(instances := instances[id := input.tags]), Success(DBInstance(id, input.tags)))
    }

    function ModifyDBInstance(id: string, applyImmediately: bool, backupRetentionPeriod: int, password: string): (World, Option<Fault>) {
      var w := Issue(Call.ModifyDBInstance(id, applyImmediately, backupRetentionPeriod, password));
      var f := Injected(ModifyDBInstanceOp);
      if f.Some? then (w, f)
      else if id !in instances then (w, Some(InstanceNotFound))
      else (w, None)
    }

    /** Stores a new secret; a name already in use is a `ResourceExistsException`. */
    function CreateSecret(name: string, description: string, value: string): (World, Result<string, Fault>) {
      var w := Issue(Call.CreateSecret(name, description, value));
      var f := Injected(CreateSecretOp);
      if f.Some? then (w, Failure(f.value))
      else if name in secrets then (w, Failure(ResourceExists))
      else (w.(secrets := secrets[name := value]), Success(SecretArnPrefix + name))
    }

    function GetSecretValue(name: string): (World, Result<string, Fault>) {
      var w := Issue(Call.GetSecretValue(name));
      var f := Injected(GetSecretValueOp);
      if f.Some? then (w, Failure(f.value))
      else if name !in secrets then (w, Failure(Api("ResourceNotFoundException")))
      else (w, Success(secrets[name]))
    }

    /** Removes the secret; removing one that is absent changes nothing and succeeds. */
    function DeleteSecret(name: string, force: bool): (World, Option<Fault>) {
      var w := Issue(Call.DeleteSecret(name, force));
      var f := Injected(DeleteSecretOp);
      if f.Some? then (w, f)
      else (w.(secrets := secrets - {name}), None)
    }

    /**
     * A waiter run (`c` is one of the three `Wait...` calls): its outcome is
     * the next entry of the script, and success once the script is used up.
     */
    function Wait(c: Call): (World, Option<Fault>) {
      var w := Issue(c);
      if waits == [] then (w, None)
      else (w.(waits := waits[1..]), waits[0])
    }
  }

  class FakeCloud {
    var instances: map<string, seq<Tag>>
    var snapshots: map<string, DBSnapshot>
    var secrets: map<string, string>
    var faults: map<Operation, Fault>
    var waits: seq<Option<Fault>>
    var log: seq<Call>

    function State(): World
      reads this
    {
      World(instances, snapshots, secrets, faults, waits, log)
    }

    constructor (w: World)
      ensures State() == w
    {
      instances, snapshots, secrets := w.instances, w.snapshots, w.secrets;
      faults, waits, log := w.faults, w.waits, w.log;
    }

    method Load(w: World)
      modifies this
      ensures State() == w
    {
      instances, snapshots, secrets := w.instances, w.snapshots, w.secrets;
      faults, waits, log := w.faults, w.waits, w.log;
    }

    method DescribeDBInstances(id: string) returns (r: Result<seq<DBInstance>, Fault>)
      modifies this
      ensures (State(), r) == old(State()).DescribeDBInstances(id)
    {
      var reply := State().DescribeDBInstances(id);
      Load(reply.0);
      r := reply.1;
    }

    method DescribeDBSnapshots(name: string, snapshotType: string) returns (pages: seq<Page>)
      modifies this
      ensures (State(), pages) == old(State()).DescribeDBSnapshots(name, snapshotType)
    {
      var reply := State().DescribeDBSnapshots(name, snapshotType);
      Load(reply.0);
      pages := reply.1;
    }

    method DeleteDBInstance(id: string, deleteAutomatedBackups: bool, skipFinalSnapshot: bool) returns (err: Option<Fault>)
      modifies this
      ensures (State(), err) == old(State()).DeleteDBInstance(id, deleteAutomatedBackups, skipFinalSnapshot)
    {
      var reply := State().DeleteDBInstance(id, deleteAutomatedBackups, skipFinalSnapshot);
      Load(reply.0);
      err := reply.1;
    }

    method DeleteDBSnapshot(name: string) returns (err: Option<Fault>)
      modifies this
      ensures (State(), err) == old(State()).DeleteDBSnapshot(name)
    {
      var reply := State().DeleteDBSnapshot(name);
      Load(reply.0);
      err := reply.1;
    }

    method CreateDBSnapshot(source: string, name: string, tags: seq<Tag>) returns (err: Option<Fault>)
      modifies this
      ensures (State(), err) == old(State()).CreateDBSnapshot(source, name, tags)
    {
      var reply := State().CreateDBSnapshot(source, name, tags);
      Load(reply.0);
      err := reply.1;
    }

    method RestoreDBInstanceFromDBSnapshot(input: RestoreInput) returns (r: Result<DBInstance, Fault>)
      modifies this
      ensures (State(), r) == old(State()).RestoreDBInstanceFromDBSnapshot(input)
    {
      var reply := State().RestoreDBInstanceFromDBSnapshot(input);
      Load(reply.0);
      r := reply.1;
    }

    method ModifyDBInstance(id: string, applyImmediately: bool, backupRetentionPeriod: int, password: string) returns (err: Option<Fault>)
      modifies this
      ensures (State(), err) == old(State()).ModifyDBInstance(id, applyImmediately, backupRetentionPeriod, password)
    {
      var reply := State().ModifyDBInstance(id, applyImmediately, backupRetentionPeriod, password);
      Load(reply.0);
      err := reply.1;
    }

    method CreateSecret(name: string, description: string, value: string) returns (r: Result<string, Fault>)
      modifies this
      ensures (State(), r) == old(State()).CreateSecret(name, description, value)
    {
      var reply := State().CreateSecret(name, description, value);
      Load(reply.0);
      r := reply.1;
    }

    method GetSecretValue(name: string) returns (r: Result<string, Fault>)
      modifies this
      ensures (State(), r) == old(State()).GetSecretValue(name)
    {
      var reply := State().GetSecretValue(name);
      Load(reply.0);
      r := reply.1;
    }

    method DeleteSecret(name: string, force: bool) returns (err: Option<Fault>)
      modifies this
      ensures (State(), err) == old(State()).DeleteSecret(name, force)
    {
      var reply := State().DeleteSecret(name, force);
      Load(reply.0);
      err := reply.1;
    }

    method Wait(c: Call) returns (err: Option<Fault>)
      modifies this
      ensures (State(), err) == old(State()).Wait(c)
    {
      var reply := State().Wait(c);
      Load(reply.0);
      err := reply.1;
    }
  }
}
