/** The smallest reversible steps of a transaction: collecting a user's final counters and
    stopping one inbound (crates/node-agent/src/runtime.rs:1115-1189, 1678-1770). */
module Steps {
  import opened Basics
  import opened Topology
  import opened Accounting
  import opened EngineModel

  datatype Cause = PendingFull | NamespacesFull | UnknownLiveUser | EngineFailed(error: EngineError) {
    /** A bounded table had no room: the receipt queue, or the engine's replay namespaces. */
    predicate NoCapacity() { PendingFull? || NamespacesFull? }
  }

  /** A failed step: whether it changed live state, and whether it put that state back. */
  datatype StepFailure = StepFailure(cause: Cause, rollbackErrors: nat, changed: bool, restored: bool)

  function Unchanged(cause: Cause): StepFailure {
    StepFailure(cause, 0, false, true)
  }

  // ---------------------------------------------------------------- the books

  /** What the books are measured against: receipts already delivered by drains, the queue at the
      start of the operation, the identities the operation may book to, and the engine's change
      count at the start. */
  datatype Books = Books(delivered: seq<Receipt>, base: Entries, mine: iset<Key>, mutations: nat)

  /** Every byte that left a counter is queued or was delivered. */
  ghost predicate Balanced(gone: map<UserKey, Bytes>, e: Entries, delivered: seq<Receipt>) {
    forall k: UserKey ::
      && At(gone, k).up == HeldFor(e, k.0, k.1).up + HeldFor(delivered, k.0, k.1).up
      && At(gone, k).down == HeldFor(e, k.0, k.1).down + HeldFor(delivered, k.0, k.1).down
  }

  /** Only identities in `mine` were booked since `base`. */
  ghost predicate BookedOnly(base: Entries, e: Entries, mine: iset<Key>) {
    forall k: Key | k !in mine :: RecordsOf(e, k) == RecordsOf(base, k)
  }

  ghost predicate Owns(mine: iset<Key>, owner: Inbound) {
    forall id :: KeyOf(owner, id) in mine
  }

  ghost predicate Settled(plane: Plane, uncertain: bool) {
    forall t | t in plane && plane[t].draining != {} :: uncertain
  }

  /** No byte is lost unless a final receipt is outstanding; no reservation is left open. */
  ghost predicate Sound(engine: Engine, pending: PendingTraffic, x: Books)
    reads engine, pending
  {
    && engine.Valid() && pending.Valid() && pending.reserved == {}
    && (engine.lost ==> engine.uncertain)
    && Settled(engine.plane, engine.uncertain)
    && (!engine.lost ==> Balanced(engine.gone, pending.entries, x.delivered))
    && BookedOnly(x.base, pending.entries, x.mine)
    && (engine.starved ==> QueueFull(pending))
  }

  /** Every key of the queue's budget is taken by a receipt. */
  ghost predicate QueueFull(pending: PendingTraffic)
    reads pending
  {
    |Identities(pending.entries)| == pending.maxKeys
  }

  /** A full queue stays full: receipts only join the identities it has. */
  lemma Merging(pending: PendingTraffic, r: Receipt)
    requires pending.Valid() && r.key in Identities(pending.entries) + pending.reserved
    ensures QueueFull(pending) ==> |Identities(Merge(pending.entries, r))| == pending.maxKeys
  {
    if QueueFull(pending) && !r.Empty() {
      FileShape(pending.entries, r);
      if pending.reserved != {} {
        assert false;
      }
      assert Identities(pending.entries) + {r.key} == Identities(pending.entries);
    }
  }

  /** A full table is named as the cause only when it is full. */
  ghost predicate Earned(engine: Engine, cause: Cause)
    reads engine
  {
    && (cause.PendingFull? ==> engine.starved)
    && (cause.NamespacesFull? ==> |engine.authority| >= MAX_LINEAGES)
  }

  lemma EarnedOther(engine: Engine, cause: Cause)
    requires !cause.NoCapacity()
    ensures Earned(engine, cause)
  {
  }

  lemma EarnedCrowded(engine: Engine, tag: Tag, lease: Option<Lease>)
    requires Crowded(engine.authority, tag, lease)
    ensures Earned(engine, NamespacesFull)
  {
  }

  /** `traffic_drain`: the engine's `rx` is the client's uplink. */
  function TrafficDrain(owner: Inbound, info: UserInfo): Receipt {
    Receipt(KeyOf(owner, info.id), info.rx, info.tx,
            if info.seen == 0 then None else Some(info.seen * 1_000_000))
  }

  lemma BookReceipt(before: map<UserKey, Bytes>, after: map<UserKey, Bytes>, e: Entries, delivered: seq<Receipt>,
                    owner: Inbound, info: UserInfo)
    requires Balanced(before, e, delivered) && Took(before, after, owner.tag, info)
    requires At(after, (owner.tag, info.id)).up <= U64_MAX && At(after, (owner.tag, info.id)).down <= U64_MAX
    ensures Balanced(after, Merge(e, TrafficDrain(owner, info)), delivered)
  {
    var r := TrafficDrain(owner, info);
    var own: UserKey := (owner.tag, info.id);
    assert At(before, own).up == HeldFor(e, own.0, own.1).up + HeldFor(delivered, own.0, own.1).up;
    assert At(before, own).down == HeldFor(e, own.0, own.1).down + HeldFor(delivered, own.0, own.1).down;
    forall k: UserKey
      ensures At(after, k).up == HeldFor(Merge(e, r), k.0, k.1).up + HeldFor(delivered, k.0, k.1).up
      ensures At(after, k).down == HeldFor(Merge(e, r), k.0, k.1).down + HeldFor(delivered, k.0, k.1).down
    {
      MergeAdds(e, r, k.0, k.1);
      assert k == own <==> k.0 == own.0 && k.1 == own.1;
    }
  }

  lemma GoneFits(engine: Engine)
    requires engine.Valid() && !engine.lost
    ensures forall k: UserKey :: At(engine.gone, k).up <= U64_MAX && At(engine.gone, k).down <= U64_MAX
  {
  }

  lemma BookFrame(base: Entries, e: Entries, mine: iset<Key>, r: Receipt)
    requires BookedOnly(base, e, mine) && r.key in mine
    ensures BookedOnly(base, Merge(e, r), mine)
  {
    forall k: Key | k !in mine ensures RecordsOf(Merge(e, r), k) == RecordsOf(base, k) {
      MergeKeepsOthers(e, r, k);
    }
  }

  // ---------------------------------------------------------------- engine calls that keep the books

  /** `add_inbound`, or `add_inbound_with_replay` under a lease. */
  method StartInbound(engine: Engine, pending: PendingTraffic, ghost x: Books, i: Inbound, lease: Option<Lease>)
    returns (r: Option<EngineError>)
    requires Sound(engine, pending, x)
    modifies engine
    ensures Sound(engine, pending, x) && engine.uncertain == old(engine.uncertain)
    ensures engine.Onward() && engine.lost == old(engine.lost)
    ensures r.Some? ==> engine.Idle()
    ensures r.None? ==>
      && AddRefusal(old(engine.plane), old(engine.authority), i, lease).None?
      && i.tag in engine.authority && engine.authority == old(engine.authority)[i.tag := engine.authority[i.tag]]
      && engine.plane == old(engine.plane)[i.tag := SlotFor(i, engine.authority[i.tag])]
      && (lease.Some? ==> engine.authority == old(engine.authority) && engine.authority[i.tag] == lease.value.lineage)
    ensures r == Some(LineageLimit) ==> Crowded(old(engine.authority), i.tag, lease)
    ensures engine.healthy ==>
      r == AddRefusal(old(engine.plane), old(engine.authority), i, lease) || r == Some(LineageLimit)
  {
    hide engine.Valid, Balanced, BookedOnly;
    r := engine.AddInbound(i, lease);
  }

  method UpsertUser(engine: Engine, pending: PendingTraffic, ghost x: Books, tag: Tag, user: UserSpec)
    returns (r: Option<EngineError>)
    requires Sound(engine, pending, x)
    modifies engine
    ensures Sound(engine, pending, x) && engine.uncertain == old(engine.uncertain)
    ensures engine.authority == old(engine.authority) && engine.Lossless()
    ensures r.Some? ==> engine.Idle()
    ensures r.None? ==>
      UpsertRefusal(old(engine.plane), tag, user).None? && engine.plane == Upserted1(old(engine.plane), tag, user)
    ensures engine.healthy ==> r == UpsertRefusal(old(engine.plane), tag, user)
  {
    hide GoodPlane, Balanced, BookedOnly, Registered;
    r := engine.AddUser(tag, user);
  }

  method KickSessions(engine: Engine, pending: PendingTraffic, ghost x: Books, tag: Tag, id: UserId)
    returns (r: Option<EngineError>)
    requires Sound(engine, pending, x)
    modifies engine
    ensures Sound(engine, pending, x) && engine.mutations == old(engine.mutations)
    ensures engine.uncertain == old(engine.uncertain)
    ensures engine.authority == old(engine.authority) && engine.Lossless()
    ensures r.Some? ==> engine.plane == old(engine.plane)
    ensures r.None? ==> HasUser(old(engine.plane), tag, id) && engine.plane == Kicked(old(engine.plane), tag, id)
    ensures engine.healthy && HasUser(old(engine.plane), tag, id) ==> r.None?
  {
    hide GoodPlane, Balanced, BookedOnly, Registered;
    r := engine.KickUser(tag, id);
  }

  method PreserveLease(engine: Engine, pending: PendingTraffic, ghost x: Books, tag: Tag) returns (r: Result<Lease>)
    requires Sound(engine, pending, x)
    modifies engine
    ensures Sound(engine, pending, x) && engine.Idle()
    ensures engine.probe == old(engine.probe) && (r.Ok? <==> tag in engine.plane)
    ensures r.Ok? ==> r.value == Lease(tag, engine.plane[tag].lineage)
  {
    hide GoodPlane, Balanced, BookedOnly, Registered, Settled;
    r := engine.PreserveReplay(tag);
  }

  /** `list_users`, where an inbound without a registry simply has none. */
  method LiveUsers(engine: Engine, pending: PendingTraffic, ghost x: Books, tag: Tag) returns (r: Result<seq<UserId>>)
    requires Sound(engine, pending, x)
    modifies engine
    ensures Sound(engine, pending, x) && engine.Idle()
    ensures r.Ok? ==> tag in engine.plane
    ensures r.Ok? ==>
      r.value == if engine.plane[tag].users.Some? then Ordered(engine.plane[tag].users.value.Keys) else []
    ensures engine.healthy && tag in engine.plane ==> r.Ok?
  {
    hide GoodPlane, Balanced, BookedOnly, Registered, Settled;
    r := engine.ListUsers(tag);
    if r.Err? && r.error.Unsupported? {
      r := Ok([]);
    }
  }

  /** `queue_traffic`: a collected receipt goes where its room was reserved. */
  method QueueTraffic(engine: Engine, pending: PendingTraffic, ghost x: Books, owner: Inbound, info: UserInfo,
                      owned: bool, ghost before: map<UserKey, Bytes>)
    requires engine.Valid() && pending.Valid() && (engine.lost ==> engine.uncertain)
    requires Settled(engine.plane, engine.uncertain) && Owns(x.mine, owner)
    requires pending.reserved == if owned then {KeyOf(owner, info.id)} else {}
    requires !owned ==> KeyOf(owner, info.id) in Identities(pending.entries)
    requires Took(before, engine.gone, owner.tag, info)
    requires !engine.lost ==> Balanced(before, pending.entries, x.delivered)
    requires BookedOnly(x.base, pending.entries, x.mine) && (engine.starved ==> QueueFull(pending))
    modifies pending
    ensures Sound(engine, pending, x)
  {
    hide pending.Valid, engine.Valid, Settled, Merge, HeldFor, Balanced, BookedOnly, Took, Identities, Filed;
    var drain := TrafficDrain(owner, info);
    if !engine.lost {
      GoneFits(engine);
      BookReceipt(before, engine.gone, pending.entries, x.delivered, owner, info);
    }
    BookFrame(x.base, pending.entries, x.mine, drain);
    Merging(pending, drain);
    pending.MergeReserved(drain, owned);
  }

  /** Move one live user's bytes to the queue under `owner`, the user staying registered. */
  method FlushUser(engine: Engine, pending: PendingTraffic, ghost x: Books, owner: Inbound, id: UserId)
    returns (r: Option<Cause>)
    requires Sound(engine, pending, x) && Owns(x.mine, owner)
    modifies engine, pending
    ensures Sound(engine, pending, x)
    ensures engine.plane == old(engine.plane) && engine.authority == old(engine.authority)
    ensures engine.mutations == old(engine.mutations)
    ensures engine.Lossless() && engine.uncertain == old(engine.uncertain)
    ensures engine.healthy && HasUser(engine.plane, owner.tag, id) ==> r.None? || r.value.PendingFull?
    ensures r.Some? ==> Earned(engine, r.value)
    ensures r.None? ==> Paid(engine.lost, engine.gone, old(engine.counted), (owner.tag, id))
  {
    hide pending.Valid, engine.Valid, Settled, Later, Balanced, BookedOnly, Took, Identities, Paid, HasUser, Filed;
    LaterSame(engine.Account());
    var key := KeyOf(owner, id);
    var admission := pending.Reserve(key);
    assert !admission.Reserved?;
    if admission.Full? {
      engine.Starve();
      return Some(PendingFull);
    }
    var taken := engine.TakeUserTraffic(owner.tag, id);
    if taken.Ok? {
      PaidNow(engine, old(engine.Account()), (owner.tag, id));
    }
    if taken.Err? {
      if admission.Owned? {
        pending.Release(key);
      }
      return Some(EngineFailed(taken.error));
    }
    QueueTraffic(engine, pending, x, owner, taken.value, admission.Owned?, old(engine.gone));
    r := None;
  }

  method SwapRules(engine: Engine, pending: PendingTraffic, ghost x: Books, tag: Tag, config: Config)
    returns (r: Option<EngineError>)
    requires Sound(engine, pending, x)
    modifies engine
    ensures Sound(engine, pending, x) && engine.uncertain == old(engine.uncertain)
    ensures engine.authority == old(engine.authority) && engine.Lossless()
    ensures r.Some? ==> engine.Idle()
    ensures r.None? ==>
      && tag in old(engine.plane) && tag !in engine.outdated
      && InPlace(old(engine.plane)[tag].config, old(engine.plane)[tag].users.Some?, config)
      && engine.plane == old(engine.plane)[tag := old(engine.plane)[tag].(config := config)]
    ensures r == Some(ReloadRequired) ==>
      && tag in old(engine.plane)
      && !InPlace(old(engine.plane)[tag].config, old(engine.plane)[tag].users.Some?, config)
    ensures engine.healthy && tag in old(engine.plane) ==> r.None? || r.value.ReloadRequired?
  {
    hide GoodPlane, Balanced, BookedOnly, Registered;
    r := engine.UpdateInbound(tag, config);
  }

  // ---------------------------------------------------------------- one user

  datatype Removal = Removed(info: UserInfo) | NotRemoved(error: EngineError, changed: bool, missing: bool)

  /** An interrupted removal is retried once; a second failure is an outstanding receipt. */
  method RemoveUserWithRetry(engine: Engine, tag: Tag, id: UserId) returns (r: Removal)
    requires engine.Valid() && Settled(engine.plane, engine.uncertain)
    modifies engine
    ensures engine.Valid() && Settled(engine.plane, engine.uncertain)
    ensures engine.authority == old(engine.authority) && engine.lost == old(engine.lost)
    ensures engine.Onward() && engine.starved == old(engine.starved)
    ensures r.Removed? ==>
      && r.info.id == id && Took(old(engine.gone), engine.gone, tag, r.info)
      && engine.uncertain == old(engine.uncertain)
      && Removable(old(engine.plane), tag, id) && engine.plane == Collected(old(engine.plane), tag, id)
    ensures r.NotRemoved? ==> engine.gone == old(engine.gone)
    ensures r.NotRemoved? && !r.changed ==> engine.Idle() && (r.missing ==> !Removable(old(engine.plane), tag, id))
    ensures r.NotRemoved? && r.changed ==>
      && engine.uncertain && !r.missing
      && (engine.plane == old(engine.plane)
          || (HasUser(old(engine.plane), tag, id) && engine.plane == Drained(old(engine.plane), tag, id)))
    ensures engine.healthy && tag in old(engine.plane) && old(engine.plane)[tag].users.Some? ==>
      r.Removed? || (!Removable(old(engine.plane), tag, id) && r.missing && !r.changed)
  {
    hide Later;
    var first := engine.RemoveUser(tag, id);
    ghost var tried := engine.Account();
    if first.Ok? {
      return Removed(first.value);
    }
    if !first.error.Io? {
      return NotRemoved(first.error, false, first.error.UnknownUser?);
    }
    label Tried:
    ghost var registered := HasUser(old(engine.plane), tag, id);
    var second := engine.RemoveUser(tag, id);
    LaterOn(old(engine.Account()), tried, engine.Account());
    assert IsDraining(old@Tried(engine.plane), tag, id);
    if second.Ok? {
      assert registered ==> engine.plane == WithoutUser(old(engine.plane), tag, id);
      return Removed(second.value);
    }
    r := NotRemoved(second.error, true, false);
  }

  datatype Retirement = Retired | NoRoom | Failed(error: EngineError, changed: bool, missing: bool)

  /** Reserve room for a user's final receipt, remove the user, queue the receipt. The
      reservation is spent or given back before returning. */
  method RetireUser(engine: Engine, pending: PendingTraffic, ghost x: Books, owner: Inbound, id: UserId)
    returns (r: Retirement)
    requires Sound(engine, pending, x) && Owns(x.mine, owner)
    modifies engine, pending
    ensures Sound(engine, pending, x)
    ensures engine.authority == old(engine.authority) && engine.lost == old(engine.lost) && engine.Onward()
    ensures r.Retired? ==>
      && engine.uncertain == old(engine.uncertain) && Removable(old(engine.plane), owner.tag, id)
      && engine.plane == Collected(old(engine.plane), owner.tag, id)
    ensures r.NoRoom? || (r.Failed? && !r.changed) ==> engine.Idle()
    ensures r.NoRoom? ==> engine.starved
    ensures r.Failed? && r.missing ==> !r.changed && !Removable(old(engine.plane), owner.tag, id)
    ensures r.Failed? && r.changed ==>
      && engine.uncertain
      && (engine.plane == old(engine.plane)
          || (HasUser(old(engine.plane), owner.tag, id) && engine.plane == Drained(old(engine.plane), owner.tag, id)))
    ensures engine.healthy && owner.tag in old(engine.plane) && old(engine.plane)[owner.tag].users.Some? ==>
      r.Retired? || r.NoRoom? || (!Removable(old(engine.plane), owner.tag, id) && r.missing && !r.changed)
  {
    hide pending.Valid, engine.Valid, GoodPlane, Registered, Merge, HeldFor, BookedOnly, Balanced, Took, Settled;
    hide Collected, Drained, Identities, Filed, Later;
    LaterSame(engine.Account());
    var key := KeyOf(owner, id);
    var admission := pending.Reserve(key);
    assert !admission.Reserved?;
    if admission.Full? {
      engine.Starve();
      return NoRoom;
    }
    var removal := RemoveUserWithRetry(engine, owner.tag, id);
    if removal.NotRemoved? {
      if admission.Owned? {
        pending.Release(key);
      }
      return Failed(removal.error, removal.changed, removal.missing);
    }
    QueueTraffic(engine, pending, x, owner, removal.info, admission.Owned?, old(engine.gone));
    r := Retired;
  }

  // ---------------------------------------------------------------- one inbound

  lemma LessAll(users: Users, ids: seq<UserId>)
    requires forall id | id in users :: id in ids
    ensures Less(users, ids) == map[]
  {
    forall id ensures id !in Less(users, ids) {
      LessHas(users, ids, id);
    }
  }

  /** Putting the last departed user back undoes its departure. */
  lemma LessRestore(users: Users, ids: seq<UserId>, n: nat)
    requires n < |ids| && ids[n] in users && Ascending(ids)
    ensures Less(users, ids[..n + 1])[ids[n] := users[ids[n]]] == Less(users, ids[..n])
    ensures Less(users, ids[..n + 1]) == Less(users, ids[..n]) - {ids[n]}
    ensures ids[n] in Less(users, ids[..n])
  {
    assert ids[..n + 1][..n] == ids[..n];
    LessHas(users, ids[..n], ids[n]);
  }

  /** The live registry of a tag is what the runtime recorded for it. */
  ghost predicate Recorded(plane: Plane, registry: Inbound) {
    && registry.tag in plane && plane[registry.tag].draining == {}
    && (plane[registry.tag].users.Some? ==>
          forall id | id in plane[registry.tag].users.value ::
            id in registry.users && registry.users[id] == plane[registry.tag].users.value[id])
  }

  /** Same listener, same replay namespace; only the registry of `tag` may differ. */
  ghost predicate SameListeners(before: Plane, after: Plane, tag: Tag) {
    && before.Keys == after.Keys
    && (forall t | t in before && t != tag :: after[t] == before[t])
    && (tag in before ==> after[tag].config == before[tag].config && after[tag].lineage == before[tag].lineage)
  }

  lemma SameElsewhere(before: Plane, after: Plane, tag: Tag)
    requires SameListeners(before, after, tag)
    ensures before - {tag} == after - {tag}
  {
    assert forall t | t in before - {tag} :: after[t] == before[t];
  }

  /** `plane` is `start` after the first `n` listed users left the registry of `tag`. */
  ghost predicate Departed(start: Plane, plane: Plane, tag: Tag, ids: seq<UserId>, n: nat) {
    && n <= |ids| && Ascending(ids) && tag in start && start[tag].users.Some?
    && GoodUsers(KindsOf(start[tag]), start[tag].users.value) && start[tag].users.value.Keys !! start[tag].draining
    && (forall i | 0 <= i < |ids| :: ids[i] in start[tag].users.value)
    && plane == WithUsers(start, tag, Less(start[tag].users.value, ids[..n]))
  }

  lemma DepartedStart(plane: Plane, authority: map<Tag, nat>, tag: Tag)
    requires GoodPlane(plane, authority) && tag in plane && plane[tag].users.Some?
    ensures Departed(plane, plane, tag, Ordered(plane[tag].users.value.Keys), 0)
  {
    var ids := Ordered(plane[tag].users.value.Keys);
    assert forall i | 0 <= i < |ids| :: ids[i] in ids;
    DepartedNone(plane, tag, ids);
  }

  lemma DepartedAll(start: Plane, plane: Plane, tag: Tag, ids: seq<UserId>)
    requires Departed(start, plane, tag, ids, |ids|) && ids == Ordered(start[tag].users.value.Keys)
    ensures tag in plane && plane[tag].users == Some(map[]) && plane[tag].draining == start[tag].draining
    ensures plane - {tag} == start - {tag}
  {
    hide Ordered, Less, GoodUsers;
    assert ids[..|ids|] == ids;
    LessAll(start[tag].users.value, ids);
  }

  lemma DepartedNone(start: Plane, tag: Tag, ids: seq<UserId>)
    requires tag in start && start[tag].users.Some?
    ensures WithUsers(start, tag, Less(start[tag].users.value, ids[..0])) == start
  {
  }

  lemma DepartedBack(start: Plane, plane: Plane, tag: Tag, ids: seq<UserId>)
    requires Departed(start, plane, tag, ids, 0)
    ensures plane == start
  {
    DepartedNone(start, tag, ids);
  }

  /** The next listed user is still registered, and its departure moves the list on by one. */
  lemma DepartedLeave(start: Plane, plane: Plane, tag: Tag, ids: seq<UserId>, n: nat)
    requires n < |ids| && Departed(start, plane, tag, ids, n)
    ensures HasUser(plane, tag, ids[n]) && Departed(start, Collected(plane, tag, ids[n]), tag, ids, n + 1)
    ensures SameListeners(start, Drained(plane, tag, ids[n]), tag)
  {
    LessRestore(start[tag].users.value, ids, n);
  }

  lemma DepartedSame(start: Plane, plane: Plane, tag: Tag, ids: seq<UserId>, n: nat)
    requires Departed(start, plane, tag, ids, n)
    ensures SameListeners(start, plane, tag) && tag in start && start[tag].users.Some? && n <= |ids|
    ensures forall i | 0 <= i < |ids| :: ids[i] in start[tag].users.value
  {
  }

  /** The recorded specs of the departed users are the live ones. */
  ghost predicate Faithful(start: Plane, tag: Tag, ids: seq<UserId>, removed: seq<UserSpec>) {
    && tag in start && start[tag].users.Some? && |removed| <= |ids|
    && forall i | 0 <= i < |removed| :: ids[i] in start[tag].users.value && removed[i] == start[tag].users.value[ids[i]]
  }

  lemma FaithfulStep(start: Plane, registry: Inbound, ids: seq<UserId>, removed: seq<UserSpec>)
    requires Recorded(start, registry) && Faithful(start, registry.tag, ids, removed) && |removed| < |ids|
    requires ids[|removed|] in start[registry.tag].users.value
    ensures ids[|removed|] in registry.users
    ensures Faithful(start, registry.tag, ids, removed + [registry.users[ids[|removed|]]])
  {
    var users := start[registry.tag].users.value;
    assert forall id | id in users :: id in registry.users && registry.users[id] == users[id];
  }

  /** The departed users come from the registry they left. */
  ghost predicate Returning(start: Plane, tag: Tag, removed: seq<UserSpec>) {
    && tag in start
    && forall i | 0 <= i < |removed| ::
      removed[i].ResolvedId().Some? && removed[i].ResolvedId().value in Billable(start[tag])
  }

  lemma ReturningMore(start: Plane, registry: Inbound, removed: seq<UserSpec>, id: UserId)
    requires GoodInbound(registry) && Returning(start, registry.tag, removed) && id in registry.users
    requires start[registry.tag].users.Some? && id in start[registry.tag].users.value
    ensures Returning(start, registry.tag, removed + [registry.users[id]])
  {
  }

  /** The last departed user can always return, and its return undoes its departure. */
  lemma DepartedReturn(start: Plane, plane: Plane, tag: Tag, ids: seq<UserId>, n: nat)
    requires n < |ids| && Departed(start, plane, tag, ids, n + 1)
    ensures UpsertRefusal(plane, tag, start[tag].users.value[ids[n]]).None?
    ensures Departed(start, Upserted1(plane, tag, start[tag].users.value[ids[n]]), tag, ids, n)
  {
    var users := start[tag].users.value;
    LessRestore(users, ids, n);
    var now := Less(users, ids[..n + 1]);
    assert plane[tag].users.value == now;
    forall o | o in now ensures o in users && now[o] == users[o] {
      LessHas(users, ids[..n + 1], o);
    }
    assert CredentialFree(KindsOf(plane[tag]), now, ids[n], users[ids[n]]);
  }

  lemma FaithfulAt(start: Plane, tag: Tag, ids: seq<UserId>, removed: seq<UserSpec>, n: nat)
    requires Faithful(start, tag, ids, removed) && n < |removed|
    ensures tag in start && start[tag].users.Some? && n < |ids| && ids[n] in start[tag].users.value
    ensures removed[n] == start[tag].users.value[ids[n]]
  {
  }

  /** Re-add departed users, newest first; returns how many could not be restored. */
  method RestoreUsers(engine: Engine, tag: Tag, removed: seq<UserSpec>, ghost start: Plane, ghost ids: seq<UserId>)
    returns (errors: nat)
    requires engine.Valid() && SameListeners(start, engine.plane, tag)
    modifies engine
    ensures engine.Valid() && SameListeners(start, engine.plane, tag)
    ensures engine.authority == old(engine.authority) && engine.Onward()
    ensures engine.gone == old(engine.gone) && engine.lost == old(engine.lost)
    ensures engine.uncertain == old(engine.uncertain)
    ensures engine.starved == old(engine.starved)
    ensures tag in start ==> engine.plane[tag].draining == old(engine.plane)[tag].draining
    ensures removed == [] ==>
      engine.plane == old(engine.plane) && engine.mutations == old(engine.mutations) && errors == 0
    ensures Returning(start, tag, removed) && Fewer(start, old(engine.plane), tag) ==> Fewer(start, engine.plane, tag)
    ensures Departed(start, old(engine.plane), tag, ids, |removed|)
      && Faithful(start, tag, ids, removed)
      ==> (errors == 0 ==> engine.plane == start) && (engine.healthy ==> errors == 0)
  {
    hide engine.Valid, Later, Departed, Faithful, Rotates, CredentialFree, Fewer, Billable;
    errors := 0;
    ghost var fewer := Returning(start, tag, removed) && Fewer(start, engine.plane, tag);
    var n: nat := |removed|;
    LaterSame(engine.Account());
    ghost var departed := Departed(start, engine.plane, tag, ids, |removed|) && Faithful(start, tag, ids, removed);
    while n > 0
      invariant n <= |removed|
      invariant engine.Valid() && SameListeners(start, engine.plane, tag)
      invariant engine.authority == old(engine.authority) && engine.Onward()
      invariant engine.gone == old(engine.gone) && engine.lost == old(engine.lost)
      invariant engine.uncertain == old(engine.uncertain)
      invariant engine.starved == old(engine.starved)
      invariant tag in start ==> engine.plane[tag].draining == old(engine.plane)[tag].draining
      invariant removed == [] ==>
        engine.plane == old(engine.plane) && engine.mutations == old(engine.mutations) && errors == 0
      invariant fewer ==> Fewer(start, engine.plane, tag)
      invariant departed && errors == 0 ==> Departed(start, engine.plane, tag, ids, n)
      invariant departed && engine.healthy ==> errors == 0
    {
      n := n - 1;
      if departed && errors == 0 {
        FaithfulAt(start, tag, ids, removed, n);
        DepartedReturn(start, engine.plane, tag, ids, n);
      }
      ghost var before, was := engine.Account(), engine.plane;
      var r := engine.AddUser(tag, removed[n]);
      LaterOn(old(engine.Account()), before, engine.Account());
      if fewer && r.None? {
        FewerReturned(start, was, engine.plane, tag, removed[n]);
      }
      if r.Some? {
        errors := errors + 1;
      }
    }
    if departed && errors == 0 {
      DepartedBack(start, engine.plane, tag, ids);
    }
  }

  /** Give up on stopping an inbound: put back the users that already left. */
  method Abort(engine: Engine, pending: PendingTraffic, ghost x: Books, tag: Tag, removed: seq<UserSpec>, cause: Cause,
               uncertain: bool, ghost start: Plane, ghost ids: seq<UserId>)
    returns (f: StepFailure)
    requires Sound(engine, pending, x) && SameListeners(start, engine.plane, tag)
    requires tag in start && start[tag].draining != {} ==> engine.uncertain
    modifies engine
    ensures Sound(engine, pending, x) && SameListeners(start, engine.plane, tag)
    ensures engine.authority == old(engine.authority) && engine.Onward()
    ensures f.cause == cause && f.changed == (uncertain || removed != [])
    ensures (f.restored ==> !uncertain && f.rollbackErrors == 0)
    ensures !f.changed ==> engine.plane == old(engine.plane) && engine.mutations == old(engine.mutations)
    ensures !uncertain && removed == [] ==> f.restored
    ensures Returning(start, tag, removed) && Fewer(start, old(engine.plane), tag) ==> Fewer(start, engine.plane, tag)
    ensures engine.lost == old(engine.lost)
    ensures Departed(start, old(engine.plane), tag, ids, |removed|)
      && Faithful(start, tag, ids, removed)
      ==> (f.restored ==> engine.plane == start) && (engine.healthy && !uncertain ==> f.restored)
  {
    var errors := RestoreUsers(engine, tag, removed, start, ids);
    f := StepFailure(cause, errors, uncertain || removed != [], !uncertain && errors == 0);
  }

  /** Collect the listed users one by one. Stops at the first that cannot be collected. */
  method RetireAll(engine: Engine, pending: PendingTraffic, ghost x: Books, registry: Inbound, accounting: Inbound,
                   ids: seq<UserId>)
    returns (removed: seq<UserSpec>, cause: Option<Cause>, uncertain: bool)
    requires Sound(engine, pending, x) && Owns(x.mine, accounting) && accounting.tag == registry.tag
    requires Departed(engine.plane, engine.plane, registry.tag, ids, 0)
    modifies engine, pending
    ensures Sound(engine, pending, x)
    ensures engine.authority == old(engine.authority) && engine.Onward()
    ensures SameListeners(old(engine.plane), engine.plane, registry.tag) && |removed| <= |ids|
    ensures !uncertain ==>
      && Departed(old(engine.plane), engine.plane, registry.tag, ids, |removed|)
      && engine.uncertain == old(engine.uncertain)
    ensures uncertain ==> engine.uncertain && cause.Some?
    ensures cause.Some? ==> Earned(engine, cause.value)
    ensures cause.None? ==> |removed| == |ids|
    ensures removed == [] && !uncertain ==>
      engine.plane == old(engine.plane) && engine.mutations == old(engine.mutations)
    ensures Fewer(old(engine.plane), engine.plane, registry.tag) && engine.lost == old(engine.lost)
    ensures GoodInbound(registry) ==> Returning(old(engine.plane), registry.tag, removed)
    ensures Recorded(old(engine.plane), registry) ==>
      && Faithful(old(engine.plane), registry.tag, ids, removed)
      && (engine.healthy ==> !uncertain && (cause.None? || cause.value.PendingFull?))
  {
    hide Departed, Recorded, Sound, Collected, Drained, SameListeners, WithUsers, HasUser, Later, Fewer, Billable;
    hide GoodInbound;
    LaterSame(engine.Account());
    var tag := registry.tag;
    removed, cause, uncertain := [], None, false;
    ghost var start := engine.plane;
    DepartedSame(start, start, tag, ids, 0);
    FewerSame(start, tag);
    while |removed| < |ids|
      invariant Sound(engine, pending, x) && |removed| <= |ids|
      invariant engine.authority == old(engine.authority) && engine.Onward()
      invariant engine.uncertain == old(engine.uncertain)
      invariant removed == [] ==> engine.plane == start && engine.mutations == old(engine.mutations)
      invariant Departed(start, engine.plane, tag, ids, |removed|) && SameListeners(start, engine.plane, tag)
      invariant Fewer(start, engine.plane, tag) && engine.lost == old(engine.lost)
      invariant GoodInbound(registry) ==> Returning(start, tag, removed)
      invariant Recorded(start, registry) ==> Faithful(start, tag, ids, removed)
    {
      var id := ids[|removed|];
      DepartedLeave(start, engine.plane, tag, ids, |removed|);
      if Recorded(start, registry) {
        FaithfulStep(start, registry, ids, removed);
      }
      if id !in registry.users {
        cause := Some(UnknownLiveUser);
        return;
      }
      ghost var before, was := engine.Account(), engine.plane;
      var r := RetireUser(engine, pending, x, accounting, id);
      LaterOn(old(engine.Account()), before, engine.Account());
      FewerRetired(start, was, engine.plane, tag, id);
      if !r.Retired? {
        cause := Some(if r.NoRoom? then PendingFull else EngineFailed(r.error));
        uncertain := r.Failed? && r.changed;
        return;
      }
      if GoodInbound(registry) {
        ReturningMore(start, registry, removed, id);
      }
      removed := removed + [registry.users[id]];
      DepartedSame(start, engine.plane, tag, ids, |removed|);
    }
  }

  /** How a stop fails: the listener is still there, an unchanged failure touched nothing, and a
      restored one left the registry as it was. */
  ghost predicate Failing(engine: Engine, start: Plane, mutations: nat, registry: Inbound, f: StepFailure)
    reads engine
  {
    && Earned(engine, f.cause)
    && SameListeners(start, engine.plane, registry.tag)
    && (!f.changed ==> f.restored && engine.plane == start && engine.mutations == mutations)
    && (f.restored ==> f.rollbackErrors == 0)
    && (f.restored && Recorded(start, registry) ==> engine.plane == start)
    && (GoodInbound(registry) ==> Fewer(start, engine.plane, registry.tag))
  }

  /** Collect every listed user, or put the departed ones back. */
  method EmptyRegistry(engine: Engine, pending: PendingTraffic, ghost x: Books, registry: Inbound, accounting: Inbound,
                       ids: seq<UserId>)
    returns (f: Option<StepFailure>, removed: seq<UserSpec>)
    requires Sound(engine, pending, x) && Owns(x.mine, accounting) && accounting.tag == registry.tag
    requires Departed(engine.plane, engine.plane, registry.tag, ids, 0)
    modifies engine, pending
    ensures Sound(engine, pending, x)
    ensures engine.authority == old(engine.authority) && engine.Onward()
    ensures f.None? ==>
      && |removed| == |ids| && Departed(old(engine.plane), engine.plane, registry.tag, ids, |ids|)
      && engine.uncertain == old(engine.uncertain)
      && (removed == [] ==> engine.plane == old(engine.plane) && engine.mutations == old(engine.mutations))
      && (Recorded(old(engine.plane), registry) ==> Faithful(old(engine.plane), registry.tag, ids, removed))
      && Fewer(old(engine.plane), engine.plane, registry.tag)
      && (GoodInbound(registry) ==> Returning(old(engine.plane), registry.tag, removed))
    ensures engine.lost == old(engine.lost)
    ensures f.Some? ==> Failing(engine, old(engine.plane), old(engine.mutations), registry, f.value)
    ensures engine.healthy && Recorded(old(engine.plane), registry) ==>
      f.None? || (f.value.cause.PendingFull? && f.value.restored)
  {
    hide engine.Valid, Balanced, BookedOnly, Departed, Faithful, Recorded, Later, Fewer, Returning, GoodInbound;
    ghost var start := engine.plane;
    f := None;
    var cause, uncertain;
    removed, cause, uncertain := RetireAll(engine, pending, x, registry, accounting, ids);
    if cause.None? {
      return;
    }
    ghost var mid := engine.Account();
    var failure := Abort(engine, pending, x, registry.tag, removed, cause.value, uncertain, start, ids);
    LaterOn(old(engine.Account()), mid, engine.Account());
    f := Some(failure);
  }

  /** Drop a listener whose users have all been collected, or put them back. */
  method DropEmptied(engine: Engine, pending: PendingTraffic, ghost x: Books, registry: Inbound, removed: seq<UserSpec>,
                     ghost start: Plane, ghost ids: seq<UserId>, ghost mutations: nat)
    returns (f: Option<StepFailure>)
    requires Sound(engine, pending, x) && SameListeners(start, engine.plane, registry.tag)
    requires registry.tag in engine.plane ==>
      engine.plane[registry.tag].users.Some? ==> engine.plane[registry.tag].users.value == map[]
    requires removed == [] ==> engine.plane == start && engine.mutations == mutations
    requires registry.tag in start && start[registry.tag].draining != {} ==> engine.uncertain
    requires Recorded(start, registry) ==>
      removed == []
        || (Departed(start, engine.plane, registry.tag, ids, |removed|) && Faithful(start, registry.tag, ids, removed))
    requires Fewer(start, engine.plane, registry.tag)
    requires GoodInbound(registry) ==> removed == [] || Returning(start, registry.tag, removed)
    modifies engine
    ensures Sound(engine, pending, x)
    ensures engine.authority == old(engine.authority) && engine.Onward()
    ensures f.None? ==>
      registry.tag in start && engine.plane == old(engine.plane) - {registry.tag} && registry.tag !in engine.outdated
    ensures f.Some? ==> Failing(engine, start, mutations, registry, f.value)
    ensures registry.tag in old(engine.plane) && old(engine.plane)[registry.tag].draining == {} ==>
      engine.lost == old(engine.lost)
    ensures engine.healthy && registry.tag in start ==> f.None?
  {
    hide GoodPlane, Balanced, BookedOnly, Departed, Faithful, Registered, Later, Returning, GoodInbound, Billable;
    var tag := registry.tag;
    var r := engine.RemoveInboundHard(tag);
    if r.None? {
      return None;
    }
    ghost var mid := engine.Account();
    var failure := Abort(engine, pending, x, tag, removed, EngineFailed(r.value), false, start, ids);
    LaterOn(old(engine.Account()), mid, engine.Account());
    f := Some(failure);
  }

  /** `stop_inbound_with_owners`: every live user's final counters are booked to `accounting`
      before the listener goes; a failure half way puts the departed users back. */
  method StopInbound(engine: Engine, pending: PendingTraffic, ghost x: Books, registry: Inbound, accounting: Inbound)
    returns (f: Option<StepFailure>)
    requires Sound(engine, pending, x) && Owns(x.mine, accounting) && accounting.tag == registry.tag
    modifies engine, pending
    ensures Sound(engine, pending, x)
    ensures engine.authority == old(engine.authority) && engine.Onward()
    ensures f.None? ==> registry.tag in old(engine.plane) && engine.plane == old(engine.plane) - {registry.tag}
    ensures f.None? ==> registry.tag !in engine.outdated
    ensures f.Some? ==> Failing(engine, old(engine.plane), old(engine.mutations), registry, f.value)
    ensures registry.tag in old(engine.plane) && old(engine.plane)[registry.tag].draining == {} ==>
      engine.lost == old(engine.lost)
    ensures engine.healthy && Recorded(old(engine.plane), registry) ==>
      f.None? || (f.value.cause.PendingFull? && f.value.restored)
  {
    hide engine.Valid, Balanced, BookedOnly, Departed, Faithful, Ordered, Later, Returning, GoodInbound;
    var tag := registry.tag;
    ghost var start := engine.plane;
    var live := ListLive(engine, pending, x, tag);
    ghost var listed := engine.Account();
    if live.Err? {
      return Some(Unchanged(EngineFailed(live.error)));
    }
    var removed: seq<UserSpec> := [];
    ghost var ids: seq<UserId> := [];
    if live.value.Some? {
      SoundGood(engine, pending, x);
      DepartedStart(start, engine.authority, tag);
      ids := live.value.value;
      f, removed := EmptyRegistry(engine, pending, x, registry, accounting, live.value.value);
      LaterOn(old(engine.Account()), listed, engine.Account());
      if f.Some? {
        return;
      }
      DepartedAll(start, engine.plane, tag, ids);
      DepartedSame(start, engine.plane, tag, ids, |ids|);
    }
    listed := engine.Account();
    f := DropEmptied(engine, pending, x, registry, removed, start, ids, old(engine.mutations));
    LaterOn(old(engine.Account()), listed, engine.Account());
  }

  /** `list_users`, telling an inbound without a registry from a failed listing. */
  method ListLive(engine: Engine, pending: PendingTraffic, ghost x: Books, tag: Tag)
    returns (r: Result<Option<seq<UserId>>>)
    requires Sound(engine, pending, x)
    modifies engine
    ensures Sound(engine, pending, x) && engine.Idle()
    ensures r.Ok? ==> tag in engine.plane && (r.value.Some? <==> engine.plane[tag].users.Some?)
    ensures r.Ok? && r.value.Some? ==> r.value.value == Ordered(engine.plane[tag].users.value.Keys)
    ensures engine.healthy && tag in engine.plane ==> r.Ok?
  {
    hide engine.Valid, Balanced, BookedOnly, Ordered;
    var listed := engine.ListUsers(tag);
    if listed.Ok? {
      return Ok(Some(listed.value));
    }
    r := if listed.error.Unsupported? then Ok(None) else Err(listed.error);
  }

  lemma SoundGood(engine: Engine, pending: PendingTraffic, x: Books)
    requires Sound(engine, pending, x)
    ensures GoodPlane(engine.plane, engine.authority)
  {
  }
}
