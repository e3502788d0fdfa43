/** The proxy engine as the runtime sees it: small operations that are atomic one by one
    (crates/shoes-engine/src/lib.rs, users.rs, inbound.rs).

    Faults are nondeterministic choices, so every fact proved about a caller holds for every
    pattern of failures; `healthy` switches the choices off. Traffic arrives before any call. */
module EngineModel {
  import opened Basics
  import opened Topology
  import opened Accounting

  /** One registered inbound: config, user registry (if it has one), users whose final counters
      have not been collected yet, the replay namespace, and the users that may still have a session
      opened under a credential that was taken from them. */
  datatype Slot = Slot(config: Config, users: Option<Users>, draining: set<UserId>, lineage: nat, stale: set<UserId>)

  type Plane = map<Tag, Slot>

  datatype Lease = Lease(tag: Tag, lineage: nat)

  datatype Counter = Counter(rx: nat, tx: nat, seen: nat)
  datatype UserInfo = UserInfo(id: UserId, rx: nat, tx: nat, seen: nat)

  datatype EngineError =
    | Io | Refused | UnknownTag | UnknownUser | Unsupported | InvalidUser | InvalidConfig
    | DuplicateTag | AddressInUse | DuplicateCredential | StaleLease | LineageLimit | ReloadRequired

  datatype Result<+T> = Ok(value: T) | Err(error: EngineError)

  function SlotFor(i: Inbound, lineage: nat): Slot {
    Slot(i.config, if i.dynamic then Some(i.users) else None, {}, lineage, {})
  }

  predicate NoUsers(s: Slot) {
    (s.users.None? || s.users.value == map[]) && s.draining == {}
  }

  predicate BindsFree(plane: Plane, binds: set<BindKey>) {
    forall t | t in plane :: plane[t].config.binds !! binds
  }

  /** Everything `add_inbound` checks before it opens a socket. */
  function AddRefusal(plane: Plane, authority: map<Tag, nat>, i: Inbound, lease: Option<Lease>): Option<EngineError> {
    if lease.Some? && lease.value.tag != i.tag then Some(InvalidConfig)
    else if !GoodInbound(i) then Some(InvalidConfig)
    else if i.tag in plane then Some(DuplicateTag)
    else if lease.Some? && (i.tag !in authority || authority[i.tag] != lease.value.lineage) then Some(StaleLease)
    else if !BindsFree(plane, i.config.binds) then Some(AddressInUse)
    else None
  }

  const MAX_LINEAGES: nat := 65_536

  /** Only a new tag in a fresh namespace can find the table of replay namespaces full. The table
      forgets namespaces nobody holds, so it may have room when every name ever admitted would not fit. */
  predicate Crowded(authority: map<Tag, nat>, tag: Tag, lease: Option<Lease>) {
    lease.None? && tag !in authority && |authority| >= MAX_LINEAGES
  }

  /** A running listener can take over the new config: the same sockets and settings and, where it
      has a registry, the same credential kinds. */
  predicate InPlace(before: Config, registry: bool, after: Config) {
    && !before.listener.fixed && before.binds == after.binds
    && before.listener.(kinds := after.listener.kinds) == after.listener
    && (registry ==> before.listener.kinds == after.listener.kinds)
  }

  predicate CredentialFree(kinds: Kinds, users: Users, id: UserId, u: UserSpec) {
    forall o | o in users && o != id :: Claims(kinds, o, users[o]) !! Claims(kinds, id, u)
  }

  function KindsOf(s: Slot): Kinds {
    s.config.listener.kinds
  }

  /** Everything an upsert checks before it changes the registry. */
  function UpsertRefusal(plane: Plane, tag: Tag, u: UserSpec): Option<EngineError> {
    if tag !in plane then Some(UnknownTag)
    else if plane[tag].users.None? then Some(Unsupported)
    else if u.ResolvedId().None? || u.ResolvedId().value in plane[tag].draining then Some(InvalidUser)
    else if !KindsOf(plane[tag]).Accepts(u) then Some(InvalidUser)
    else if !CredentialFree(KindsOf(plane[tag]), plane[tag].users.value, u.ResolvedId().value, u) then
      Some(DuplicateCredential)
    else None
  }

  function WithUsers(plane: Plane, tag: Tag, users: Users): Plane
    requires tag in plane
  {
    plane[tag := plane[tag].(users := Some(users))]
  }

  /** The upsert takes a registered user's credential away. */
  predicate Rotates(plane: Plane, tag: Tag, id: UserId, u: UserSpec) {
    HasUser(plane, tag, id) && CredentialChanged(plane[tag].users.value[id], u)
  }

  /** An upsert leaves running sessions alone. */
  function Upserted1(plane: Plane, tag: Tag, u: UserSpec): Plane
    requires UpsertRefusal(plane, tag, u).None?
  {
    var id := u.ResolvedId().value;
    var p := WithUsers(plane, tag, plane[tag].users.value[id := u]);
    if Rotates(plane, tag, id, u) then p[tag := p[tag].(stale := p[tag].stale + {id})] else p
  }

  /** Closing a user's sessions. */
  function Kicked(plane: Plane, tag: Tag, id: UserId): Plane
    requires tag in plane
  {
    plane[tag := plane[tag].(stale := plane[tag].stale - {id})]
  }

  predicate HasUser(plane: Plane, tag: Tag, id: UserId) {
    tag in plane && plane[tag].users.Some? && id in plane[tag].users.value
  }

  predicate IsDraining(plane: Plane, tag: Tag, id: UserId) {
    tag in plane && plane[tag].users.Some? && id in plane[tag].draining
  }

  function WithoutUser(plane: Plane, tag: Tag, id: UserId): Plane
    requires HasUser(plane, tag, id)
  {
    WithUsers(plane, tag, plane[tag].users.value - {id})
  }

  /** Sockets are claimed once, registries are well formed, and a live inbound holds the replay
      authority of its tag. */
  ghost predicate GoodPlane(plane: Plane, authority: map<Tag, nat>) {
    && (forall a, b | a in plane && b in plane && a != b :: plane[a].config.binds !! plane[b].config.binds)
    && (forall t | t in plane ::
          && t in authority && authority[t] == plane[t].lineage
          && (plane[t].users.Some? ==>
                GoodUsers(KindsOf(plane[t]), plane[t].users.value) && plane[t].users.value.Keys !! plane[t].draining)
          && (plane[t].users.None? ==> plane[t].draining == {}))
  }

  type UserKey = (Tag, UserId)

  function CounterAt(m: map<UserKey, Counter>, k: UserKey): Counter {
    if k in m then m[k] else Counter(0, 0, 0)
  }

  function PutCounter(m: map<UserKey, Counter>, k: UserKey, c: Counter): (r: map<UserKey, Counter>)
    ensures forall j :: CounterAt(r, j) == if j == k then c else CounterAt(m, j)
    ensures r.Keys == m.Keys + {k}
  {
    m[k := c]
  }

  function DropCounters(m: map<UserKey, Counter>, drop: set<UserKey>): (r: map<UserKey, Counter>)
    ensures forall j :: CounterAt(r, j) == if j in drop then Counter(0, 0, 0) else CounterAt(m, j)
    ensures r.Keys == m.Keys - drop
  {
    m - drop
  }

  /** Bytes of a list of counter snapshots that belong to one user. */
  ghost function InfoFor(infos: seq<UserInfo>, id: UserId): Bytes {
    if infos == [] then Zero else
      var last := infos[|infos| - 1];
      var rest := InfoFor(infos[..|infos| - 1], id);
      if last.id == id then Bytes(rest.up + last.rx, rest.down + last.tx) else rest
  }

  lemma InfoForAppend(infos: seq<UserInfo>, info: UserInfo, id: UserId)
    ensures InfoFor(infos + [info], id).up == InfoFor(infos, id).up + if info.id == id then info.rx else 0
    ensures InfoFor(infos + [info], id).down == InfoFor(infos, id).down + if info.id == id then info.tx else 0
  {
    assert (infos + [info])[..|infos|] == infos;
  }

  /** `after` is `before` with the bytes of a sweep over one inbound added to its users. */
  ghost predicate Swept(before: map<UserKey, Bytes>, after: map<UserKey, Bytes>, tag: Tag, infos: seq<UserInfo>) {
    forall k: UserKey ::
      && At(after, k).up == At(before, k).up + (if k.0 == tag then InfoFor(infos, k.1).up else 0)
      && At(after, k).down == At(before, k).down + (if k.0 == tag then InfoFor(infos, k.1).down else 0)
  }

  lemma SweptNone(gone: map<UserKey, Bytes>, tag: Tag)
    ensures Swept(gone, gone, tag, [])
  {
  }

  lemma SweepStep(before: map<UserKey, Bytes>, mid: map<UserKey, Bytes>, after: map<UserKey, Bytes>, tag: Tag,
                  infos: seq<UserInfo>, info: UserInfo)
    requires Swept(before, mid, tag, infos) && Took(mid, after, tag, info)
    ensures Swept(before, after, tag, infos + [info])
    ensures info.rx == 0 && info.tx == 0 ==> Swept(before, after, tag, infos)
  {
    forall k: UserKey
      ensures At(after, k).up == At(before, k).up + if k.0 == tag then InfoFor(infos + [info], k.1).up else 0
      ensures At(after, k).down == At(before, k).down + if k.0 == tag then InfoFor(infos + [info], k.1).down else 0
    {
      InfoForAppend(infos, info, k.1);
    }
  }

  /** `after` is `before` with one receipt's bytes added to its user. */
  ghost predicate Took(before: map<UserKey, Bytes>, after: map<UserKey, Bytes>, tag: Tag, info: UserInfo) {
    forall k: UserKey ::
      && At(after, k).up == At(before, k).up + (if k == (tag, info.id) then info.rx else 0)
      && At(after, k).down == At(before, k).down + (if k == (tag, info.id) then info.tx else 0)
  }

  function Undrained(plane: Plane, tag: Tag, id: UserId): Plane
    requires tag in plane
  {
    plane[tag := plane[tag].(draining := plane[tag].draining - {id})]
  }

  /** A revoked user whose final counters are still to be collected. */
  function Drained(plane: Plane, tag: Tag, id: UserId): Plane
    requires HasUser(plane, tag, id)
  {
    plane[tag := plane[tag].(users := Some(plane[tag].users.value - {id}), draining := plane[tag].draining + {id})]
  }

  /** Only registered or draining users have counters. */
  ghost predicate Registered(plane: Plane, counters: map<UserKey, Counter>) {
    forall k | k in counters :: HasUser(plane, k.0, k.1) || IsDraining(plane, k.0, k.1)
  }

  predicate Removable(plane: Plane, tag: Tag, id: UserId) {
    HasUser(plane, tag, id) || IsDraining(plane, tag, id)
  }

  /** The plane once a user's final counters have been collected. */
  function Collected(plane: Plane, tag: Tag, id: UserId): Plane
    requires Removable(plane, tag, id)
  {
    if HasUser(plane, tag, id) then WithoutUser(plane, tag, id) else Undrained(plane, tag, id)
  }

  /** Everyone whose counters a registry may still hold. */
  function Billable(s: Slot): set<UserId> {
    (if s.users.Some? then s.users.value.Keys else {}) + s.draining
  }

  /** The registry of `tag` has gained nobody. */
  ghost predicate Fewer(before: Plane, after: Plane, tag: Tag) {
    tag in after ==>
      && tag in before && (after[tag].users.Some? <==> before[tag].users.Some?)
      && Billable(after[tag]) <= Billable(before[tag])
  }

  lemma FewerSame(plane: Plane, tag: Tag)
    ensures Fewer(plane, plane, tag)
  {
  }

  lemma FewerRetired(start: Plane, before: Plane, after: Plane, tag: Tag, id: UserId)
    requires Fewer(start, before, tag)
    requires after == before || (HasUser(before, tag, id) && after == Drained(before, tag, id))
          || (Removable(before, tag, id) && after == Collected(before, tag, id))
    ensures Fewer(start, after, tag)
  {
  }

  lemma FewerReturned(start: Plane, before: Plane, after: Plane, tag: Tag, u: UserSpec)
    requires Fewer(start, before, tag) && UpsertRefusal(before, tag, u).None? && after == Upserted1(before, tag, u)
    requires tag in start && u.ResolvedId().value in Billable(start[tag])
    ensures Fewer(start, after, tag)
  {
  }

  lemma AddGood(plane: Plane, authority: map<Tag, nat>, i: Inbound, lineage: nat)
    requires GoodPlane(plane, authority) && i.tag !in plane && GoodInbound(i) && BindsFree(plane, i.config.binds)
    ensures GoodPlane(plane[i.tag := SlotFor(i, lineage)], authority[i.tag := lineage])
  {
  }

  lemma AddRegistered(plane: Plane, counters: map<UserKey, Counter>, i: Inbound, lineage: nat)
    requires Registered(plane, counters) && i.tag !in plane
    ensures Registered(plane[i.tag := SlotFor(i, lineage)], counters)
  {
  }

  lemma UpsertGood(plane: Plane, authority: map<Tag, nat>, tag: Tag, u: UserSpec)
    requires GoodPlane(plane, authority) && UpsertRefusal(plane, tag, u).None?
    ensures GoodPlane(Upserted1(plane, tag, u), authority)
  {
  }

  lemma UpsertRegistered(plane: Plane, counters: map<UserKey, Counter>, tag: Tag, u: UserSpec)
    requires Registered(plane, counters) && UpsertRefusal(plane, tag, u).None?
    ensures Registered(Upserted1(plane, tag, u), counters)
  {
  }

  lemma RevokeGood(plane: Plane, authority: map<Tag, nat>, tag: Tag, id: UserId)
    requires GoodPlane(plane, authority) && HasUser(plane, tag, id)
    ensures GoodPlane(WithoutUser(plane, tag, id), authority)
    ensures GoodPlane(Drained(plane, tag, id), authority)
  {
  }

  lemma RevokeRegistered(plane: Plane, counters: map<UserKey, Counter>, tag: Tag, id: UserId)
    requires Registered(plane, counters) && HasUser(plane, tag, id)
    ensures (tag, id) !in counters ==> Registered(WithoutUser(plane, tag, id), counters)
    ensures Registered(Drained(plane, tag, id), counters)
  {
  }

  lemma UndrainGood(plane: Plane, authority: map<Tag, nat>, counters: map<UserKey, Counter>, tag: Tag, id: UserId)
    requires GoodPlane(plane, authority) && Registered(plane, counters)
    requires IsDraining(plane, tag, id) && (tag, id) !in counters
    ensures GoodPlane(Undrained(plane, tag, id), authority)
    ensures Registered(Undrained(plane, tag, id), counters)
  {
  }

  lemma RemoveGood(plane: Plane, authority: map<Tag, nat>, counters: map<UserKey, Counter>, tag: Tag)
    requires GoodPlane(plane, authority) && Registered(plane, counters)
    ensures GoodPlane(plane - {tag}, authority)
    ensures (forall k | k in counters :: k.0 != tag) ==> Registered(plane - {tag}, counters)
  {
  }

  lemma UpdateGood(plane: Plane, authority: map<Tag, nat>, counters: map<UserKey, Counter>, tag: Tag, config: Config)
    requires GoodPlane(plane, authority) && Registered(plane, counters)
    requires tag in plane && InPlace(plane[tag].config, plane[tag].users.Some?, config)
    ensures GoodPlane(plane[tag := plane[tag].(config := config)], authority)
    ensures Registered(plane[tag := plane[tag].(config := config)], counters)
  {
  }

  lemma KickGood(plane: Plane, authority: map<Tag, nat>, counters: map<UserKey, Counter>, tag: Tag, id: UserId)
    requires GoodPlane(plane, authority) && Registered(plane, counters) && tag in plane
    ensures GoodPlane(Kicked(plane, tag, id), authority) && Registered(Kicked(plane, tag, id), counters)
  {
  }

  /** Bytes were only added. */
  ghost predicate Grew(before: map<UserKey, Bytes>, after: map<UserKey, Bytes>) {
    forall k: UserKey :: At(before, k).up <= At(after, k).up && At(before, k).down <= At(after, k).down
  }

  /** What was metered so far and what was booked so far. */
  datatype Ledger = Ledger(counted: map<UserKey, Bytes>, gone: map<UserKey, Bytes>)

  ghost predicate Later(before: Ledger, after: Ledger) {
    Grew(before.counted, after.counted) && Grew(before.gone, after.gone)
  }

  lemma LaterOn(a: Ledger, b: Ledger, c: Ledger)
    requires Later(a, b) && Later(b, c)
    ensures Later(a, c)
  {
  }

  lemma LaterSame(a: Ledger)
    ensures Later(a, a)
  {
  }

  lemma GrewOn(a: map<UserKey, Bytes>, b: map<UserKey, Bytes>, c: map<UserKey, Bytes>)
    requires Grew(a, b) && Grew(b, c)
    ensures Grew(a, c)
  {
  }

  lemma GrewSame(m: map<UserKey, Bytes>)
    ensures Grew(m, m)
  {
  }

  /** Every byte metered for a user at an earlier moment is booked by now. */
  ghost predicate Paid(lost: bool, gone: map<UserKey, Bytes>, metered: map<UserKey, Bytes>, k: UserKey) {
    !lost ==> At(metered, k).up <= At(gone, k).up && At(metered, k).down <= At(gone, k).down
  }

  lemma PaidNow(engine: Engine, before: Ledger, k: UserKey)
    requires engine.Valid() && Later(before, engine.Account()) && k !in engine.counters
    ensures Paid(engine.lost, engine.gone, before.counted, k)
  {
  }

  lemma PaidStill(lost: bool, a: Ledger, lost': bool, b: Ledger, metered: map<UserKey, Bytes>, k: UserKey)
    requires Paid(lost, a.gone, metered, k) && Later(a, b) && (lost ==> lost')
    ensures Paid(lost', b.gone, metered, k)
  {
  }

  lemma PaidEarlier(lost: bool, gone: map<UserKey, Bytes>, before: Ledger, now: Ledger, k: UserKey)
    requires Paid(lost, gone, now.counted, k) && Later(before, now)
    ensures Paid(lost, gone, before.counted, k)
  {
  }

  /** The same for every user of an inbound. */
  ghost predicate PaidUp(lost: bool, gone: map<UserKey, Bytes>, metered: map<UserKey, Bytes>, tag: Tag) {
    forall id: UserId :: Paid(lost, gone, metered, (tag, id))
  }

  lemma AbsentPaid(engine: Engine, before: Ledger, tag: Tag)
    requires engine.Valid() && Later(before, engine.Account()) && tag !in engine.plane
    ensures PaidUp(engine.lost, engine.gone, before.counted, tag)
  {
    hide GoodPlane, Later;
    forall id: UserId ensures Paid(engine.lost, engine.gone, before.counted, (tag, id)) {
      PaidNow(engine, before, (tag, id));
    }
  }

  lemma PaidUpStill(lost: bool, a: Ledger, lost': bool, b: Ledger, metered: map<UserKey, Bytes>, tag: Tag)
    requires PaidUp(lost, a.gone, metered, tag) && Later(a, b) && (lost ==> lost')
    ensures PaidUp(lost', b.gone, metered, tag)
  {
    hide Later, Paid;
    forall id: UserId ensures Paid(lost', b.gone, metered, (tag, id)) {
      PaidStill(lost, a, lost', b, metered, (tag, id));
    }
  }

  lemma PaidUpEarlier(lost: bool, gone: map<UserKey, Bytes>, before: Ledger, now: Ledger, tag: Tag)
    requires PaidUp(lost, gone, now.counted, tag) && Later(before, now)
    ensures PaidUp(lost, gone, before.counted, tag)
  {
    hide Later, Paid;
    forall id: UserId ensures Paid(lost, gone, before.counted, (tag, id)) {
      PaidEarlier(lost, gone, before, now, (tag, id));
    }
  }

  lemma AllSwept(plane: Plane, counters: map<UserKey, Counter>, tag: Tag, ids: seq<UserId>)
    requires tag in plane && plane[tag].users.Some? && ids == Ordered(plane[tag].users.value.Keys)
    requires forall j | 0 <= j < |ids| :: (tag, ids[j]) !in counters
    ensures forall id | HasUser(plane, tag, id) :: (tag, id) !in counters
  {
    hide Ordered, Ascending;
    forall id | HasUser(plane, tag, id) ensures (tag, id) !in counters {
      assert id in ids;
      var j :| 0 <= j < |ids| && ids[j] == id;
    }
  }

  class Engine {
    var plane: Plane
    var authority: map<Tag, nat>
    var nextLineage: nat
    var counters: map<UserKey, Counter>
    var dnsGeneration: nat
    /** The probe resolver bound in this DNS generation. */
    var probe: Option<Probe>
    /** Inbounds whose resolvers were built in an older DNS generation. */
    var outdated: set<Tag>

    /** Faults are possible only when false. */
    const healthy: bool

    /** Bytes ever metered per user. */
    var counted: map<UserKey, Bytes>
    /** Bytes that left the counters in a receipt, per user. */
    ghost var gone: map<UserKey, Bytes>
    /** Some registry was dropped while it still held bytes. */
    ghost var lost: bool
    /** Some user removal failed twice, so its final receipt is outstanding. */
    ghost var uncertain: bool
    /** Successful listener, user and DNS-generation changes so far. */
    ghost var mutations: nat
    /** Some receipt of this engine found the queue full since the last drain. */
    ghost var starved: bool

    ghost predicate Metered() reads this {
      && Registered(plane, counters)
      && (forall k: UserKey :: At(counted, k).up <= U64_MAX && At(counted, k).down <= U64_MAX)
      && (!lost ==> forall k: UserKey ::
            && At(counted, k).up == CounterAt(counters, k).rx + At(gone, k).up
            && At(counted, k).down == CounterAt(counters, k).tx + At(gone, k).down)
    }

    ghost predicate Valid() reads this {
      && GoodPlane(plane, authority)
      && (forall t | t in authority :: authority[t] < nextLineage)
      && outdated <= plane.Keys && Metered()
    }

    constructor (healthy: bool)
      ensures Valid() && plane == map[] && this.healthy == healthy && probe.None? && outdated == {}
      ensures !lost && !uncertain && gone == map[] && mutations == 0 && !starved
    {
      plane, authority, nextLineage, counters, dnsGeneration, probe, outdated := map[], map[], 0, map[], 0, None, {};
      this.healthy := healthy;
      counted, gone, lost, uncertain, mutations, starved := map[], map[], false, false, 0, false;
    }

    /** Any registered user may move any bytes; nobody ever moves 2^64 of them. */
    method Arrive()
      requires Valid()
      modifies this`counters, this`counted
      ensures Valid() && Grew(old(counted), counted)
    {
      var n: nat := *;
      while n > 0
        invariant Valid() && Grew(old(counted), counted)
      {
        n := n - 1;
        var t, u, rx: nat, tx: nat, now: nat := *, *, *, *, *;
        var k := (t, u);
        var total := Bytes(At(counted, k).up + rx, At(counted, k).down + tx);
        if HasUser(plane, t, u) && total.up <= U64_MAX && total.down <= U64_MAX {
          var c := CounterAt(counters, k);
          counters := PutCounter(counters, k, Counter(c.rx + rx, c.tx + tx, now));
          counted := Put(counted, k, total);
        }
      }
    }

    ghost function Account(): Ledger reads this {
      Ledger(counted, gone)
    }

    /** Still the same DNS generation and the probe resolver bound in it, inbounds can only have come
        up to date with it, and bytes were only added to what was metered and to what was booked. */
    twostate predicate Onward() reads this {
      && dnsGeneration == old(dnsGeneration) && outdated <= old(outdated)
      && (probe == old(probe) || (old(probe).None? && probe == Some(System)))
      && Later(old(Account()), Account()) && (old(lost) ==> lost) && (old(starved) ==> starved)
    }

    /** The same, and no registry was dropped with bytes in it. */
    twostate predicate Lossless() reads this {
      Onward() && lost == old(lost)
    }

    /** No listener, registry or account has changed: bytes may have arrived and the system resolver
        may have been bound, that is all. */
    twostate predicate Idle() reads this {
      && plane == old(plane) && authority == old(authority) && mutations == old(mutations)
      && gone == old(gone) && lost == old(lost) && uncertain == old(uncertain)
      && Onward()
    }

    /** A listener or registry changed, but no bytes left the counters. */
    twostate predicate Reshaped() reads this {
      && mutations == old(mutations) + 1 && gone == old(gone)
      && lost == old(lost) && uncertain == old(uncertain) && Onward()
    }

    /** Install a new plane that keeps the engine's invariant. */
    method Install(p: Plane)
      requires Valid() && GoodPlane(p, authority) && Registered(p, counters) && outdated <= p.Keys
      modifies this`plane, this`mutations
      ensures Valid() && plane == p && mutations == old(mutations) + 1
    {
      plane := p;
      mutations := mutations + 1;
    }

    /** Starting or updating a listener binds the system resolver where nothing was bound. */
    method BindDefault() returns (ok: bool)
      requires Valid()
      modifies this`probe
      ensures Valid() && (probe == old(probe) || (old(probe).None? && probe == Some(System)))
      ensures (ok ==> probe.Some?) && (healthy ==> ok)
    {
      var fault := Fault();
      ok := probe.Some? || !fault;
      if probe.None? && ok {
        probe := Some(System);
      }
    }

    ghost method Starve()
      requires Valid()
      modifies this`starved
      ensures Valid() && starved
    {
      starved := true;
    }

    ghost method Feed()
      requires Valid()
      modifies this`starved
      ensures Valid() && !starved
    {
      starved := false;
    }

    method Fault() returns (fault: bool)
      ensures healthy ==> !fault
    {
      fault := *;
      fault := fault && !healthy;
    }

    /** Publish a replay authority under a tag that is not live. */
    method AdmitLineage(tag: Tag, lineage: nat)
      requires Valid() && tag !in plane && lineage < nextLineage
      modifies this`authority
      ensures Valid() && authority == old(authority)[tag := lineage]
    {
      authority := authority[tag := lineage];
    }

    /** Start an inbound, in a fresh replay namespace or in the one a lease preserves. */
    method AddInbound(i: Inbound, lease: Option<Lease>) returns (r: Option<EngineError>)
      requires Valid()
      modifies this
      ensures starved == old(starved)
      ensures Valid()
      ensures r.Some? ==> Idle()
      ensures r.None? ==>
        && AddRefusal(old(plane), old(authority), i, lease).None?
        && Reshaped()
        && i.tag in authority && authority == old(authority)[i.tag := authority[i.tag]]
        && plane == old(plane)[i.tag := SlotFor(i, authority[i.tag])]
        && (lease.Some? ==> authority == old(authority)) && probe.Some?
      ensures r == Some(LineageLimit) ==> Crowded(old(authority), i.tag, lease)
      ensures healthy ==> r == AddRefusal(old(plane), old(authority), i, lease) || r == Some(LineageLimit)
    {
      hide Valid, BindsFree, GoodInbound, SlotFor, Grew;
      GrewSame(gone);
      Arrive();
      r := AddRefusal(plane, authority, i, lease);
      var full: bool := *;
      if full && Crowded(authority, i.tag, lease) && (r.None? || r.value.AddressInUse?) {
        return Some(LineageLimit);
      }
      if r.Some? {
        return;
      }
      var ok := Launch(i, lease);
      r := if ok then None else Some(Io);
    }

    /** Open the sockets of an admitted listener. A failure on the way may leave the system resolver
        bound. */
    method Launch(i: Inbound, lease: Option<Lease>) returns (ok: bool)
      requires Valid() && AddRefusal(plane, authority, i, lease).None?
      modifies this`probe, this`nextLineage, this`authority, this`plane, this`mutations
      ensures Valid() && (probe == old(probe) || (old(probe).None? && probe == Some(System)))
      ensures !ok ==> plane == old(plane) && authority == old(authority) && mutations == old(mutations)
      ensures ok ==>
        && i.tag in authority && authority == old(authority)[i.tag := authority[i.tag]]
        && plane == old(plane)[i.tag := SlotFor(i, authority[i.tag])] && mutations == old(mutations) + 1
        && (lease.Some? ==> authority == old(authority)) && probe.Some?
      ensures healthy ==> ok
    {
      hide Valid, BindsFree, GoodInbound, SlotFor;
      var unavailable := Fault();
      if unavailable {
        return false;
      }
      ok := BindDefault();
      var fault := Fault();
      if !ok || fault {
        return false;
      }
      var lineage := ChooseLineage(i.tag, lease);
      Open(i, lineage);
    }

    /** The leased replay namespace, the one still on record, or a fresh one. */
    method ChooseLineage(tag: Tag, lease: Option<Lease>) returns (lineage: nat)
      requires Valid() && (lease.Some? ==> tag in authority && authority[tag] == lease.value.lineage)
      modifies this`nextLineage
      ensures Valid() && lineage < nextLineage && (lease.Some? ==> lineage == lease.value.lineage)
    {
      var reuse: bool := *;
      if lease.Some? {
        return lease.value.lineage;
      }
      if reuse && tag in authority {
        return authority[tag];
      }
      lineage := nextLineage;
      nextLineage := nextLineage + 1;
    }

    /** Register a listener that passed every check. */
    method Open(i: Inbound, lineage: nat)
      requires Valid() && i.tag !in plane && GoodInbound(i) && BindsFree(plane, i.config.binds) && lineage < nextLineage
      modifies this`authority, this`plane, this`mutations
      ensures Valid() && authority == old(authority)[i.tag := lineage]
      ensures plane == old(plane)[i.tag := SlotFor(i, lineage)]
      ensures mutations == old(mutations) + 1
    {
      hide GoodPlane, Registered, BindsFree, GoodInbound, SlotFor;
      AddGood(plane, authority, i, lineage);
      AddRegistered(plane, counters, i, lineage);
      AdmitLineage(i.tag, lineage);
      Install(plane[i.tag := SlotFor(i, lineage)]);
    }

    /** Swap rules in place. A config that the running listener cannot take over, and nothing else,
        answers `ReloadRequired` and changes nothing. */
    method UpdateInbound(tag: Tag, config: Config) returns (r: Option<EngineError>)
      requires Valid()
      modifies this
      ensures starved == old(starved)
      ensures Valid()
      ensures r.Some? ==> Idle()
      ensures r.None? ==>
        && tag in old(plane) && InPlace(old(plane)[tag].config, old(plane)[tag].users.Some?, config)
        && Reshaped() && tag !in outdated
        && plane == old(plane)[tag := old(plane)[tag].(config := config)] && authority == old(authority) && probe.Some?
      ensures r == Some(ReloadRequired) ==>
        tag in old(plane) && !InPlace(old(plane)[tag].config, old(plane)[tag].users.Some?, config)
      ensures healthy && tag in old(plane) ==> r.None? || r.value.ReloadRequired?
    {
      hide Valid, Grew;
      GrewSame(gone);
      Arrive();
      if tag !in plane {
        return Some(UnknownTag);
      }
      if plane[tag].users.Some? && KindsOf(plane[tag]) != config.listener.kinds {
        return Some(ReloadRequired);
      }
      var ready := BindDefault();
      var fault := Fault();
      if !ready || fault {
        return Some(Io);
      }
      if !InPlace(plane[tag].config, plane[tag].users.Some?, config) {
        return Some(ReloadRequired);
      }
      Swap(tag, config);
      r := None;
    }

    /** New rules and new resolvers behind the same listener. */
    method Swap(tag: Tag, config: Config)
      requires Valid() && tag in plane && InPlace(plane[tag].config, plane[tag].users.Some?, config)
      modifies this`plane, this`outdated, this`mutations
      ensures Valid() && plane == old(plane)[tag := old(plane)[tag].(config := config)]
      ensures outdated == old(outdated) - {tag} && mutations == old(mutations) + 1
    {
      hide GoodPlane, Registered;
      UpdateGood(plane, authority, counters, tag, config);
      outdated := outdated - {tag};
      Install(plane[tag := plane[tag].(config := config)]);
    }

    /** The counters of a registry go with it; dropping any is recorded as a loss. */
    method DropRegistry(tag: Tag)
      requires Valid()
      modifies this`counters, this`lost
      ensures Valid() && forall k | k in counters :: k.0 != tag
      ensures old(lost) ==> lost
      ensures tag in plane && NoUsers(plane[tag]) ==> lost == old(lost)
    {
      var drop := set k | k in counters && k.0 == tag;
      lost := lost || drop != {};
      counters := DropCounters(counters, drop);
    }

    /** Stop an inbound and drop its registry, counters included. */
    method RemoveInboundHard(tag: Tag) returns (r: Option<EngineError>)
      requires Valid()
      modifies this
      ensures starved == old(starved)
      ensures Valid()
      ensures r.Some? ==> Idle()
      ensures r.None? ==>
        && tag in old(plane) && plane == old(plane) - {tag} && authority == old(authority)
        && gone == old(gone) && uncertain == old(uncertain) && Onward()
        && mutations == old(mutations) + 1
        && (old(lost) ==> lost) && (NoUsers(old(plane)[tag]) ==> lost == old(lost))
      ensures healthy && tag in old(plane) ==> r.None?
    {
      hide Valid, Grew, NoUsers;
      GrewSame(gone);
      Arrive();
      var fault := Fault();
      if tag !in plane {
        return Some(UnknownTag);
      }
      if fault {
        return Some(Refused);
      }
      Drop(tag);
      r := None;
    }

    /** A listener goes, and its registry with it. */
    method Drop(tag: Tag)
      requires Valid() && tag in plane
      modifies this`plane, this`counters, this`lost, this`outdated, this`mutations
      ensures Valid() && plane == old(plane) - {tag} && mutations == old(mutations) + 1
      ensures outdated == old(outdated) - {tag}
      ensures (old(lost) ==> lost) && (NoUsers(old(plane)[tag]) ==> lost == old(lost))
    {
      hide GoodPlane, Registered, NoUsers;
      DropRegistry(tag);
      outdated := outdated - {tag};
      RemoveGood(plane, authority, counters, tag);
      Install(plane - {tag});
    }

    method AddUser(tag: Tag, user: UserSpec) returns (r: Option<EngineError>)
      requires Valid()
      modifies this
      ensures starved == old(starved)
      ensures Valid()
      ensures r.Some? ==> Idle()
      ensures r.None? ==>
        && UpsertRefusal(old(plane), tag, user).None? && Reshaped()
        && plane == Upserted1(old(plane), tag, user) && authority == old(authority)
      ensures healthy ==> r == UpsertRefusal(old(plane), tag, user)
    {
      hide GoodPlane, Registered;
      Arrive();
      var fault := Fault();
      r := UpsertRefusal(plane, tag, user);
      if r.Some? {
        return;
      }
      if fault {
        return Some(Io);
      }
      UpsertGood(plane, authority, tag, user);
      UpsertRegistered(plane, counters, tag, user);
      Install(Upserted1(plane, tag, user));
    }

    /** Zero one user's counters into a receipt. */
    method TakeCounters(tag: Tag, id: UserId) returns (info: UserInfo)
      requires Valid()
      modifies this`counters, this`gone
      ensures Valid() && info.id == id && Took(old(gone), gone, tag, info) && Grew(old(gone), gone)
      ensures counters.Keys == old(counters).Keys - {(tag, id)}
    {
      var c := CounterAt(counters, (tag, id));
      counters := DropCounters(counters, {(tag, id)});
      gone := Put(gone, (tag, id), Bytes(At(gone, (tag, id)).up + c.rx, At(gone, (tag, id)).down + c.tx));
      info := UserInfo(id, c.rx, c.tx, c.seen);
    }

    /** Revocation of a registered user; `Io` is an interrupted finalizer. */
    method Revoke(tag: Tag, id: UserId) returns (r: Result<UserInfo>)
      requires Valid() && HasUser(plane, tag, id)
      modifies this`plane, this`counters, this`gone, this`mutations
      ensures Valid()
      ensures r.Ok? ==>
        && r.value.id == id && Took(old(gone), gone, tag, r.value)
        && plane == WithoutUser(old(plane), tag, id) && mutations == old(mutations) + 1
      ensures r.Err? ==> gone == old(gone)
      ensures Grew(old(gone), gone)
      ensures r.Err? ==> r.error.Io? || r.error.Refused?
      ensures r == Err(Refused) ==> plane == old(plane) && mutations == old(mutations)
      ensures r == Err(Io) ==> plane == Drained(old(plane), tag, id)
      ensures healthy ==> r.Ok?
    {
      var fault := Fault();
      var clean: bool := *;
      if fault && clean {
        return Err(Refused);
      }
      RevokeGood(plane, authority, tag, id);
      if fault {
        RevokeRegistered(plane, counters, tag, id);
        Install(Drained(plane, tag, id));
        return Err(Io);
      }
      var info := TakeCounters(tag, id);
      RevokeRegistered(plane, counters, tag, id);
      Install(WithoutUser(plane, tag, id));
      r := Ok(info);
    }

    /** Revoke a user and return its final counters. An interrupted finalizer (`Io`) leaves the
        revoked user draining; a repeated call collects the same counters. */
    method RemoveUser(tag: Tag, id: UserId) returns (r: Result<UserInfo>)
      requires Valid()
      modifies this
      ensures starved == old(starved)
      ensures Valid() && authority == old(authority) && lost == old(lost) && Onward()
      ensures r.Ok? ==>
        && r.value.id == id && uncertain == old(uncertain) && Took(old(gone), gone, tag, r.value)
        && Removable(old(plane), tag, id) && plane == Collected(old(plane), tag, id)
        && mutations == old(mutations) + 1
      ensures r.Err? ==> gone == old(gone)
      ensures r.Err? && !r.error.Io? ==> Idle() && !IsDraining(old(plane), tag, id)
      ensures r == Err(UnknownUser) ==> !HasUser(old(plane), tag, id)
      ensures r == Err(Io) && HasUser(old(plane), tag, id) ==>
        plane == Drained(old(plane), tag, id) && uncertain == old(uncertain)
      ensures r == Err(Io) && !HasUser(old(plane), tag, id) ==>
        IsDraining(old(plane), tag, id) && plane == old(plane) && uncertain
      ensures healthy && Removable(old(plane), tag, id) ==> r.Ok?
      ensures tag in old(plane) && old(plane)[tag].users.Some? && !Removable(old(plane), tag, id) ==>
        r == Err(UnknownUser)
    {
      hide Valid, Took, Grew;
      GrewSame(gone);
      NotBoth(tag, id);
      Arrive();
      if tag !in plane {
        return Err(UnknownTag);
      }
      if plane[tag].users.None? {
        return Err(Unsupported);
      }
      if id in plane[tag].users.value {
        r := Revoke(tag, id);
        return;
      }
      if id !in plane[tag].draining {
        return Err(UnknownUser);
      }
      var fault := Fault();
      if fault {
        Unfinished();
        return Err(Io);
      }
      var info := Collect(tag, id);
      r := Ok(info);
    }

    /** A second failure leaves the final receipt outstanding. */
    method Unfinished()
      requires Valid()
      modifies this`uncertain
      ensures Valid() && uncertain
    {
      uncertain := true;
    }

    /** Collect the final counters of a draining user. */
    method Collect(tag: Tag, id: UserId) returns (info: UserInfo)
      requires Valid() && IsDraining(plane, tag, id)
      modifies this`plane, this`counters, this`gone, this`mutations
      ensures Valid() && info.id == id && Took(old(gone), gone, tag, info) && Grew(old(gone), gone)
      ensures plane == Undrained(old(plane), tag, id) && mutations == old(mutations) + 1
    {
      hide GoodPlane, Registered, Took, Grew;
      info := TakeCounters(tag, id);
      UndrainGood(plane, authority, counters, tag, id);
      Install(Undrained(plane, tag, id));
    }

    lemma NotBoth(tag: Tag, id: UserId)
      requires Valid()
      ensures !(HasUser(plane, tag, id) && IsDraining(plane, tag, id))
    {
    }

    /** Close a user's sessions without revoking it. */
    method KickUser(tag: Tag, id: UserId) returns (r: Option<EngineError>)
      requires Valid()
      modifies this
      ensures starved == old(starved)
      ensures Valid() && authority == old(authority) && mutations == old(mutations) && gone == old(gone)
      ensures lost == old(lost) && uncertain == old(uncertain) && Onward()
      ensures r.Some? ==> plane == old(plane)
      ensures r.None? ==> HasUser(old(plane), tag, id) && plane == Kicked(old(plane), tag, id)
      ensures healthy && HasUser(old(plane), tag, id) ==> r.None?
    {
      hide GoodPlane, Registered;
      Arrive();
      var fault := Fault();
      if tag !in plane {
        return Some(UnknownTag);
      }
      if plane[tag].users.None? {
        return Some(Unsupported);
      }
      if id !in plane[tag].users.value {
        return Some(UnknownUser);
      }
      if fault {
        return Some(Io);
      }
      KickGood(plane, authority, counters, tag, id);
      plane := Kicked(plane, tag, id);
      r := None;
    }

    /** Report one user's traffic and zero it in the same step. */
    method TakeUserTraffic(tag: Tag, id: UserId) returns (r: Result<UserInfo>)
      requires Valid()
      modifies this
      ensures starved == old(starved)
      ensures Valid() && plane == old(plane) && authority == old(authority) && mutations == old(mutations)
      ensures lost == old(lost) && uncertain == old(uncertain) && Onward()
      ensures r.Ok? ==> r.value.id == id && Took(old(gone), gone, tag, r.value) && (tag, id) !in counters
      ensures r.Err? ==> gone == old(gone)
      ensures healthy && HasUser(old(plane), tag, id) ==> r.Ok?
    {
      Arrive();
      var fault := Fault();
      if !HasUser(plane, tag, id) {
        return Err(if tag !in plane then UnknownTag else if plane[tag].users.None? then Unsupported else UnknownUser);
      }
      if fault {
        return Err(Io);
      }
      var info := TakeCounters(tag, id);
      r := Ok(info);
    }

    /** Take every user's traffic on one inbound, leaving out users that carried none. */
    method TakeNonzeroTraffic(tag: Tag) returns (r: Result<seq<UserInfo>>)
      requires Valid()
      modifies this
      ensures starved == old(starved)
      ensures Valid() && plane == old(plane) && authority == old(authority) && mutations == old(mutations)
      ensures lost == old(lost) && uncertain == old(uncertain) && probe == old(probe) && Onward()
      ensures r.Ok? ==>
        Swept(old(gone), gone, tag, r.value) && forall id | HasUser(plane, tag, id) :: (tag, id) !in counters
      ensures r == Err(Unsupported) ==> tag in plane && plane[tag].users.None?
      ensures healthy && tag in plane ==> r.Ok? || r.error.Unsupported?
      ensures r.Err? ==> gone == old(gone)
    {
      hide Swept, GoodPlane, Registered, Ordered, Grew, Ascending;
      GrewSame(gone);
      Arrive();
      var fault := Fault();
      if tag !in plane {
        return Err(UnknownTag);
      }
      if plane[tag].users.None? {
        return Err(Unsupported);
      }
      if fault {
        return Err(Io);
      }
      var ids := Ordered(plane[tag].users.value.Keys);
      var infos := SweepRegistry(tag, ids);
      AllSwept(plane, counters, tag, ids);
      r := Ok(infos);
    }

    /** Zero the listed users' counters, reporting those that had bytes. */
    method SweepRegistry(tag: Tag, ids: seq<UserId>) returns (infos: seq<UserInfo>)
      requires Valid()
      modifies this`counters, this`gone
      ensures Valid() && Swept(old(gone), gone, tag, infos) && Grew(old(gone), gone)
      ensures forall j | 0 <= j < |ids| :: (tag, ids[j]) !in counters
    {
      hide Swept, Took, GoodPlane, Registered, Grew;
      GrewSame(gone);
      SweptNone(gone, tag);
      infos := [];
      for i := 0 to |ids|
        invariant Valid() && Swept(old(gone), gone, tag, infos) && Grew(old(gone), gone)
        invariant forall j | 0 <= j < i :: (tag, ids[j]) !in counters
      {
        ghost var mid := gone;
        var info := TakeCounters(tag, ids[i]);
        GrewOn(old(gone), mid, gone);
        SweepStep(old(gone), mid, gone, tag, infos, info);
        if info.rx != 0 || info.tx != 0 {
          infos := infos + [info];
        }
      }
    }

    /** The ids with a registry entry, in order; an inbound without a registry has no answer. */
    method ListUsers(tag: Tag) returns (r: Result<seq<UserId>>)
      requires Valid()
      modifies this
      ensures starved == old(starved)
      ensures Valid() && Idle()
      ensures r.Ok? ==> tag in plane && plane[tag].users.Some? && r.value == Ordered(plane[tag].users.value.Keys)
      ensures r == Err(Unsupported) <==> tag in plane && plane[tag].users.None?
      ensures healthy && tag in plane ==> r.Ok? || r.error.Unsupported?
    {
      Arrive();
      var fault := Fault();
      if tag !in plane {
        return Err(UnknownTag);
      }
      if plane[tag].users.None? {
        return Err(Unsupported);
      }
      if fault {
        return Err(Io);
      }
      r := Ok(Ordered(plane[tag].users.value.Keys));
    }

    /** A lease on the replay namespace of a live inbound. */
    method PreserveReplay(tag: Tag) returns (r: Result<Lease>)
      requires Valid()
      modifies this
      ensures starved == old(starved)
      ensures Valid() && Idle()
      ensures probe == old(probe) && (r.Ok? <==> tag in plane)
      ensures r.Ok? ==> r.value == Lease(tag, plane[tag].lineage)
    {
      Arrive();
      r := if tag in plane then Ok(Lease(tag, plane[tag].lineage)) else Err(UnknownTag);
    }

    /** A new DNS generation: nothing is bound in it, and no live inbound was built in it. */
    method RotateDns()
      requires Valid()
      modifies this
      ensures starved == old(starved)
      ensures Valid() && plane == old(plane) && authority == old(authority) && gone == old(gone)
      ensures lost == old(lost) && uncertain == old(uncertain) && probe.None? && outdated == plane.Keys
      ensures dnsGeneration == old(dnsGeneration) + 1 && mutations == old(mutations) + 1
      ensures Later(old(Account()), Account())
    {
      Arrive();
      dnsGeneration := dnsGeneration + 1;
      probe, outdated := None, plane.Keys;
      mutations := mutations + 1;
    }

    /** Bind the probe resolver of a DNS generation. Binding the same graph again does nothing;
        another graph needs another generation. */
    method ConfigureProbe(p: Probe) returns (ok: bool)
      requires Valid()
      modifies this
      ensures starved == old(starved)
      ensures Valid() && plane == old(plane) && authority == old(authority) && mutations == old(mutations)
      ensures gone == old(gone) && lost == old(lost) && uncertain == old(uncertain)
      ensures dnsGeneration == old(dnsGeneration) && outdated == old(outdated) && Later(old(Account()), Account())
      ensures probe == if ok then Some(p) else old(probe)
      ensures old(probe).Some? ==> (ok <==> old(probe) == Some(p))
      ensures healthy ==> (ok <==> old(probe).None? || old(probe) == Some(p))
    {
      Arrive();
      var fault := Fault();
      if probe.Some? {
        return probe == Some(p);
      }
      if fault {
        return false;
      }
      probe := Some(p);
      ok := true;
    }
  }
}
