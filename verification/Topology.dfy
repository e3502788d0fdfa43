/** Compiled topologies and the diff that drives an incremental apply
    (crates/node-agent/src/runtime.rs, crates/shoes-api/src/lib.rs). */
module Topology {
  import opened Basics

  type Tag = Name
  type UserId = Name

  // ---------------------------------------------------------------- users

  datatype UserSpec = UserSpec(
    id: Option<UserId>,
    uuid: Option<Name>,
    password: Option<Name>,
    enabled: bool,
    maxConns: Option<nat>,
    uploadLimit: Option<nat>,
    downloadLimit: Option<nat>)
  {
    function ResolvedId(): Option<UserId> {
      if id.Some? then id else uuid
    }
  }

  /** What one registry authenticates with, decided by the listener's protocols: uuids, passwords
      that identify their user, naive passwords sent beside the id, TUIC passwords sent beside the
      uuid. */
  datatype Kinds = Kinds(uuid: bool, password: bool, naive: bool, tuic: bool) {
    /** Every field is one the registry asks for, and none it needs is missing. */
    predicate Accepts(u: UserSpec) {
      && (u.uuid.Some? ==> uuid) && (u.password.Some? ==> password || naive || tuic)
      && (u.uuid.Some? || u.password.Some?) && (tuic ==> u.uuid.Some? && u.password.Some?)
    }
  }

  /** What a user occupies in the credential indexes of one registry. */
  datatype Claim = ByUuid(uuid: Name) | ByPassword(password: Name) | ByPair(id: UserId, secret: Name)

  /** A TUIC password is kept beside its uuid and occupies no index. */
  function Claims(kinds: Kinds, id: UserId, u: UserSpec): set<Claim> {
    (if u.uuid.Some? then {ByUuid(u.uuid.value)} else {}) +
    (if u.password.Some? && kinds.password then {ByPassword(u.password.value)} else {}) +
    (if u.password.Some? && kinds.naive then {ByPair(id, u.password.value)} else {})
  }

  predicate SameUser(left: UserSpec, right: UserSpec) {
    && left.id == right.id
    && left.uuid == right.uuid
    && left.password == right.password
    && left.enabled == right.enabled
    && left.maxConns == right.maxConns
    && left.uploadLimit == right.uploadLimit
    && left.downloadLimit == right.downloadLimit
  }

  predicate CredentialChanged(left: UserSpec, right: UserSpec) {
    left.uuid != right.uuid || left.password != right.password
  }

  type Users = map<UserId, UserSpec>

  /** Every record sits under the id it resolves to. */
  predicate Keyed(users: Users) {
    forall id | id in users :: users[id].ResolvedId() == Some(id)
  }

  /** No credential authenticates two users of one registry. */
  predicate DistinctCredentials(kinds: Kinds, users: Users) {
    forall a, b | a in users && b in users && a != b :: Claims(kinds, a, users[a]) !! Claims(kinds, b, users[b])
  }

  predicate GoodUsers(kinds: Kinds, users: Users) {
    Keyed(users) && (forall id | id in users :: kinds.Accepts(users[id])) && DistinctCredentials(kinds, users)
  }

  // ---------------------------------------------------------------- inbounds

  datatype SocketKind = Tcp | Udp
  datatype BindKey = Socket(address: Name, kind: SocketKind) | Path(path: Name)

  /** The settings owned by a running listener: transport and protocol settings, whether it has to be
      replaced even for new rules, and what its registry, if any, authenticates with. */
  datatype Listener = Listener(settings: Name, fixed: bool, kinds: Kinds)

  /** A native server config: the sockets it claims, the settings of its listener and the rules an
      in-place update may swap. */
  datatype Config = Config(binds: set<BindKey>, listener: Listener, rules: Name)

  datatype Inbound = Inbound(
    tag: Tag, node: Name, protocol: Name, config: Config, users: Users, dynamic: bool)

  /** What normalization guarantees of one inbound. */
  predicate GoodInbound(i: Inbound) {
    GoodUsers(i.config.listener.kinds, i.users) && (!i.dynamic ==> i.users == map[])
  }

  /** The resolver of URLTest probes: the system's, or a compiled DNS graph. */
  datatype Probe = System | Graph(fingerprint: Name)

  datatype NormalizedConfig = NormalizedConfig(inbounds: map<Tag, Inbound>, digest: Name, dns: Name, probe: Probe)

  const EmptyConfig := NormalizedConfig(map[], 0, 0, System)

  /** What normalization and `validate_inbound` guarantee of a topology. */
  ghost predicate Normal(c: NormalizedConfig) {
    forall tag | tag in c.inbounds :: c.inbounds[tag].tag == tag && GoodInbound(c.inbounds[tag])
  }

  /** No two inbounds of the topology claim one socket. */
  ghost predicate DisjointBinds(c: NormalizedConfig) {
    forall a, b | a in c.inbounds && b in c.inbounds && a != b ::
      c.inbounds[a].config.binds !! c.inbounds[b].config.binds
  }

  // ---------------------------------------------------------------- diff

  datatype UserDelta = UserDelta(id: UserId, added: bool, credentialChanged: bool)
  datatype InboundDelta = InboundDelta(
    tag: Tag, configChanged: bool, userModeChanged: bool,
    removedUsers: seq<UserId>, upsertUsers: seq<UserDelta>)
  datatype ConfigDiff = ConfigDiff(removed: seq<Tag>, added: seq<Tag>, changed: seq<InboundDelta>)

  /** The ids a reconciliation writes: new ones and ones whose record differs. */
  function Upserted(before: Users, after: Users): set<UserId> {
    set id | id in after && (id !in before || !SameUser(before[id], after[id]))
  }

  function DeltaOf(before: Users, after: Users, id: UserId): UserDelta
    requires id in after
  {
    UserDelta(id, id !in before, id in before && CredentialChanged(before[id], after[id]))
  }

  function Deltas(before: Users, after: Users, ids: seq<UserId>): (r: seq<UserDelta>)
    requires forall i | 0 <= i < |ids| :: ids[i] in after
    ensures |r| == |ids|
    ensures forall i | 0 <= i < |r| :: r[i] == DeltaOf(before, after, ids[i])
  {
    if ids == [] then [] else
      [DeltaOf(before, after, ids[0])] + Deltas(before, after, ids[1..])
  }

  function InboundDeltaOf(before: Inbound, after: Inbound, digestChanged: bool): InboundDelta {
    InboundDelta(
      before.tag,
      digestChanged || before.config != after.config,
      before.dynamic != after.dynamic,
      Ordered(before.users.Keys - after.users.Keys),
      var upserts := Ordered(Upserted(before.users, after.users));
      assert forall i | 0 <= i < |upserts| :: upserts[i] in upserts;
      Deltas(before.users, after.users, upserts))
  }

  predicate Trivial(d: InboundDelta) {
    !d.configChanged && !d.userModeChanged && d.removedUsers == [] && d.upsertUsers == []
  }

  function ChangedDeltas(current: NormalizedConfig, desired: NormalizedConfig, tags: seq<Tag>): seq<InboundDelta>
    requires forall i | 0 <= i < |tags| :: tags[i] in current.inbounds && tags[i] in desired.inbounds
  {
    if tags == [] then [] else
      var d := InboundDeltaOf(current.inbounds[tags[0]], desired.inbounds[tags[0]], current.digest != desired.digest);
      (if Trivial(d) then [] else [d]) + ChangedDeltas(current, desired, tags[1..])
  }

  function DiffConfigs(current: NormalizedConfig, desired: NormalizedConfig): ConfigDiff {
    var kept := Ordered(current.inbounds.Keys * desired.inbounds.Keys);
    assert forall i | 0 <= i < |kept| :: kept[i] in kept;
    ConfigDiff(
      Ordered(current.inbounds.Keys - desired.inbounds.Keys),
      Ordered(desired.inbounds.Keys - current.inbounds.Keys),
      ChangedDeltas(current, desired, kept))
  }

  /** The comparison in the diff misses no field of a record. */
  lemma SameUserIsEquality(left: UserSpec, right: UserSpec)
    ensures SameUser(left, right) <==> left == right
  {
  }
}
