/**
 * The tag and naming policy of cavalier: how an RDS instance is recognised
 * as created by the tool, how a snapshot is linked to the instance it was
 * taken for, and how snapshot and secret names are derived.
 *
 * AWS tags carry `*string` keys and values; `aws.ToString` reads a nil
 * pointer as "", so a tag is modelled as a pair of plain strings.
 */
module TagPolicy {
  import opened Wrappers

  datatype Tag = Tag(key: string, value: string)

  /** The parts of `types.DBInstance` the tool reads. */
  datatype DBInstance = DBInstance(identifier: string, tags: seq<Tag>)

  /** The parts of `types.DBSnapshot` the tool reads. */
  datatype DBSnapshot = DBSnapshot(identifier: string, arn: string, snapshotType: string, tags: seq<Tag>)

  /** Go's zero `types.DBInstance{}` and `types.DBSnapshot{}`: no identifier, no tags. */
  const ZeroInstance := DBInstance("", [])
  const ZeroSnapshot := DBSnapshot("", "", "", [])

  const OwnershipKey := "CREATED_BY_CAVALIER"
  const LinkKey := "CAVALIER_DB_INSTANCE_IDENTIFIER"
  const UsageKey := "USE_SNAPSHOT_CREATED_BY_CAVALIER"

  /** The spellings Go's `strconv.ParseBool` reads as true. */
  const TrueSpellings: set<string> := {"1", "t", "T", "TRUE", "true", "True"}

  /** Go's `strconv.ParseBool`: None stands for its syntax error. */
  function ParseBool(s: string): Option<bool> {
    if s in TrueSpellings then Some(true)
    else if s in {"0", "f", "F", "FALSE", "false", "False"} then Some(false)
    else None
  }

  /** `ok, _ := strconv.ParseBool(v)`: a syntax error reads as false. */
  function ReadFlag(s: string): (r: bool)
    ensures r <==> s in TrueSpellings
  {
    ParseBool(s).GetOr(false)
  }

  /** Index `i` holds the first tag of `tags` whose key is `key`. */
  ghost predicate FirstWithKey(tags: seq<Tag>, key: string, i: int) {
    0 <= i < |tags| && tags[i].key == key &&
    forall j :: 0 <= j < i ==> tags[j].key != key
  }

  /**
   * The early-return scan shared by the ownership and usage-link tests:
   * the value of the FIRST tag whose key is `key`; later tags with the same
   * key are never looked at.
   */
  function FirstValue(tags: seq<Tag>, key: string): (r: Option<string>)
    ensures r.None? <==> forall i :: 0 <= i < |tags| ==> tags[i].key != key
    ensures r.Some? ==> exists i :: FirstWithKey(tags, key, i) && tags[i].value == r.value
  {
    if tags == [] then None
    else if tags[0].key == key then
      assert FirstWithKey(tags, key, 0);
      Some(tags[0].value)
    else
      var rest := FirstValue(tags[1..], key);
      assert forall i :: 1 <= i < |tags| ==> tags[i] == tags[1..][i - 1];
      if rest.Some? then
        FirstWithKeyShift(tags, key, rest.value);
        rest
      else
        rest
  }

  /** True iff some tag has key `key` and value `value`, in any position. */
  function HasTag(tags: seq<Tag>, key: string, value: string): (r: bool)
    ensures r <==> exists i :: 0 <= i < |tags| && tags[i].key == key && tags[i].value == value
  {
    if tags == [] then false
    else if tags[0].key == key && tags[0].value == value then true
    else
      var rest := HasTag(tags[1..], key, value);
      assert forall i :: 1 <= i < |tags| ==> tags[i] == tags[1..][i - 1];
      rest
  }

  /**
   * The ownership test `isCreatedByCavalier`: decided by the first
   * `CREATED_BY_CAVALIER` tag alone, true iff its value is one of the six
   * spellings `strconv.ParseBool` reads as true; no such tag means false.
   */
  function IsCreatedByCavalier(dbi: DBInstance): (r: bool)
    ensures r <==> exists i :: FirstWithKey(dbi.tags, OwnershipKey, i) && dbi.tags[i].value in TrueSpellings
    ensures (forall i :: 0 <= i < |dbi.tags| ==> dbi.tags[i].key != OwnershipKey) ==> !r
  {
    var v := FirstValue(dbi.tags, OwnershipKey);
    if v.Some? then
      FirstWithKeyUnique(dbi.tags, OwnershipKey);
      ReadFlag(v.value)
    else false
  }

  /**
   * The usage-link test `doesUseSnapshotCreatedByCavalier` of the root
   * package: the same first-tag rule, on `USE_SNAPSHOT_CREATED_BY_CAVALIER`.
   */
  function DoesUseSnapshotCreatedByCavalier(tags: seq<Tag>): (r: bool)
    ensures r <==> exists i :: FirstWithKey(tags, UsageKey, i) && tags[i].value in TrueSpellings
    ensures (forall i :: 0 <= i < |tags| ==> tags[i].key != UsageKey) ==> !r
  {
    var v := FirstValue(tags, UsageKey);
    if v.Some? then
      FirstWithKeyUnique(tags, UsageKey);
      ReadFlag(v.value)
    else false
  }

  /**
   * The snapshot link test `isSnapshotCreatedByCavalier`: unlike the
   * ownership test, every `CAVALIER_DB_INSTANCE_IDENTIFIER` tag is looked
   * at, and it holds iff one of them has value exactly `dbi`.
   */
  function IsSnapshotCreatedByCavalier(dbi: string, dbs: DBSnapshot): (r: bool)
    ensures r <==> exists i :: 0 <= i < |dbs.tags| && dbs.tags[i].key == LinkKey && dbs.tags[i].value == dbi
  {
    HasTag(dbs.tags, LinkKey, dbi)
  }

  /** A first occurrence after a head with another key is a first occurrence of the whole. */
  lemma FirstWithKeyShift(tags: seq<Tag>, key: string, v: string)
    requires tags != [] && tags[0].key != key
    requires exists k :: FirstWithKey(tags[1..], key, k) && tags[1..][k].value == v
    ensures exists i :: FirstWithKey(tags, key, i) && tags[i].value == v
  {
    var k :| FirstWithKey(tags[1..], key, k) && tags[1..][k].value == v;
    assert FirstWithKey(tags, key, k + 1);
  }

  /** At most one index is the first with a given key. */
  lemma FirstWithKeyUnique(tags: seq<Tag>, key: string)
    ensures forall i, j :: FirstWithKey(tags, key, i) && FirstWithKey(tags, key, j) ==> i == j
  {
  }

  /**
   * Ownership is decided by the first `CREATED_BY_CAVALIER` tag alone: tags
   * after it, a later `CREATED_BY_CAVALIER` tag with another value
   * included, never change the answer.
   */
  lemma OwnershipIgnoresLaterTags(id: string, tags: seq<Tag>, later: seq<Tag>)
    requires exists i :: 0 <= i < |tags| && tags[i].key == OwnershipKey
    ensures IsCreatedByCavalier(DBInstance(id, tags + later)) == IsCreatedByCavalier(DBInstance(id, tags))
  {
    var v := FirstValue(tags, OwnershipKey);
    var i :| FirstWithKey(tags, OwnershipKey, i) && tags[i].value == v.value;
    var all := tags + later;
    assert FirstWithKey(all, OwnershipKey, i);
    FirstWithKeyUnique(tags, OwnershipKey);
    FirstWithKeyUnique(all, OwnershipKey);
  }

  /**
   * The link test, unlike the ownership test, looks at every
   * `CAVALIER_DB_INSTANCE_IDENTIFIER` tag: one with value `dbi` links the
   * snapshot whatever link tags come before or after it.
   */
  lemma LinkedByAnyMatchingTag(dbi: string, dbs: DBSnapshot, before: seq<Tag>, after: seq<Tag>)
    ensures IsSnapshotCreatedByCavalier(dbi, dbs.(tags := before + [Tag(LinkKey, dbi)] + after))
  {
    var tags := before + [Tag(LinkKey, dbi)] + after;
    assert tags[|before|] == Tag(LinkKey, dbi);
  }

  /** Distinct instances have distinct snapshot names. */
  lemma DbSnapshotNameInjective(a: string, b: string)
    requires DbSnapshotName(a) == DbSnapshotName(b)
    ensures a == b
  {
    assert |a| == |b|;
    assert a == DbSnapshotName(a)[..|a|] == DbSnapshotName(b)[..|b|] == b;
  }

  /** Under one prefix, distinct instances have distinct secret names. */
  lemma SecretNameInjective(prefix: string, a: string, b: string)
    requires MasterUserPasswordSecretName(prefix, a) == MasterUserPasswordSecretName(prefix, b)
    ensures a == b
  {
    assert a == MasterUserPasswordSecretName(prefix, a)[|prefix| + 1..];
  }

  /** `dbSnapshotName`: the snapshot of instance `dbi` is named `<dbi>-cavalier`. */
  function DbSnapshotName(dbi: string): (r: string)
    ensures |r| == |dbi| + 9 && r[..|dbi|] == dbi && r[|dbi|..] == "-cavalier"
  {
    dbi + "-cavalier"
  }

  /** `masterUserPasswordSecretName`: the secret of instance `name` is `<prefix>/<name>`. */
  function MasterUserPasswordSecretName(prefix: string, name: string): (r: string)
    ensures |r| == |prefix| + 1 + |name| && r[..|prefix|] == prefix && r[|prefix|] == '/' && r[|prefix| + 1..] == name
  {
    prefix + "/" + name
  }

  /** `stringOrNil`: an empty optional setting is sent as a nil pointer. */
  function StringOrNil(v: string): (r: Option<string>)
    ensures r.GetOr("") == v
    ensures r.None? <==> v == ""
  {
    if v == "" then None else Some(v)
  }
}
