/** Inverse operations, the plane they lead back to, and the rollback loop
    (crates/node-agent/src/runtime.rs:569-599, 1618-1676, 1872-2034). */
module Journal {
  import opened Basics
  import opened Topology
  import opened Accounting
  import opened EngineModel
  import opened Steps

  datatype Undo =
    | UndoAddInbound(inbound: Inbound, lease: Lease)
    | UndoRemoveInbound(live: Inbound, accounting: Inbound)
    | UndoRestoreHot(current: Inbound, previous: Inbound, replay: Lease)
    | UndoAddUser(owner: Inbound, user: UserSpec)
    | UndoRemoveUser(candidate: Inbound, booked: Inbound, id: UserId)
    | UndoRestoreUser(restored: Inbound, spec: UserSpec, kick: bool)

  /** A listener generation that survived a failed rollback, and who its bytes belong to. */
  datatype Retiring = Retiring(live: Inbound, accounting: Inbound)

  /** The plane after an undo that succeeded. */
  ghost function Undone(u: Undo, plane: Plane): Plane {
    match u
    case UndoAddInbound(i, lease) => plane[i.tag := SlotFor(i, lease.lineage)]
    case UndoRemoveInbound(live, _) => plane - {live.tag}
    case UndoRestoreHot(_, previous, lease) => plane[previous.tag := SlotFor(previous, lease.lineage)]
    case UndoAddUser(i, user) =>
      if UpsertRefusal(plane, i.tag, user).None? then Upserted1(plane, i.tag, user) else plane
    case UndoRemoveUser(live, _, id) => if HasUser(plane, live.tag, id) then WithoutUser(plane, live.tag, id) else plane
    case UndoRestoreUser(i, user, kick) =>
      if UpsertRefusal(plane, i.tag, user).Some? then plane
      else if kick then Kicked(Upserted1(plane, i.tag, user), i.tag, user.ResolvedId().value)
      else Upserted1(plane, i.tag, user)
  }

  ghost predicate Leased(start: Plane, tag: Tag, lease: Lease) {
    tag in start && lease == Lease(tag, start[tag].lineage)
  }

  /** The undo meets no duplicate tag, claimed socket, claimed credential or unknown user. */
  ghost predicate Ready(u: Undo, plane: Plane, start: Plane) {
    match u
    case UndoAddInbound(i, lease) =>
      Leased(start, i.tag, lease) && i.tag !in plane && GoodInbound(i) && BindsFree(plane, i.config.binds)
    case UndoRemoveInbound(live, accounting) => live.tag == accounting.tag && Recorded(plane, live)
    case UndoRestoreHot(current, previous, lease) =>
      && current.tag == previous.tag && Leased(start, previous.tag, lease) && GoodInbound(previous)
      && Recorded(plane, previous) && plane[previous.tag].config.binds == previous.config.binds
    case UndoAddUser(i, user) => UpsertRefusal(plane, i.tag, user).None?
    case UndoRemoveUser(live, accounting, id) => live.tag == accounting.tag && HasUser(plane, live.tag, id)
    case UndoRestoreUser(i, user, _) =>
      UpsertRefusal(plane, i.tag, user).None? && HasUser(plane, i.tag, user.ResolvedId().value)
  }

  /** Undoing the journal newest first leads from `plane` back to `start`, every step ready. */
  ghost predicate Rewinds(journal: seq<Undo>, plane: Plane, start: Plane) {
    if journal == [] then plane == start else
      var u := journal[|journal| - 1];
      Ready(u, plane, start) && Rewinds(journal[..|journal| - 1], Undone(u, plane), start)
  }

  lemma RewindsPush(journal: seq<Undo>, u: Undo, before: Plane, after: Plane, start: Plane)
    requires Rewinds(journal, before, start) && Ready(u, after, start) && Undone(u, after) == before
    ensures Rewinds(journal + [u], after, start)
  {
    assert (journal + [u])[..|journal|] == journal;
  }

  /** The replay namespaces of the starting plane are still the admissible ones. */
  ghost predicate KeepsAuthority(start: Plane, authority: map<Tag, nat>) {
    forall t | t in start :: t in authority && authority[t] == start[t].lineage
  }

  // ---------------------------------------------------------------- ownership of bytes

  /** The published owner of a tag, or the tag itself where nothing was published. */
  ghost predicate Accounts(published: NormalizedConfig, owner: Inbound) {
    if owner.tag in published.inbounds then owner == published.inbounds[owner.tag] else owner.node == owner.tag
  }

  /** Who an undo books bytes to, and which generation it takes away: the one the transaction wants. */
  ghost predicate UndoOwned(u: Undo, published: NormalizedConfig, desired: NormalizedConfig, mine: iset<Key>) {
    match u
    case UndoAddInbound(i, _) => i.tag in published.inbounds && i == published.inbounds[i.tag]
    case UndoRemoveInbound(live, accounting) =>
      && live.tag == accounting.tag && Accounts(published, accounting) && Owns(mine, accounting)
      && live.tag in desired.inbounds && live == desired.inbounds[live.tag] && GoodInbound(live)
    case UndoRestoreHot(current, previous, _) =>
      && current.tag == previous.tag && previous.tag in published.inbounds
      && previous == published.inbounds[previous.tag] && GoodInbound(previous)
      && Owns(mine, previous)
      && current.tag in desired.inbounds && current == desired.inbounds[current.tag]
      && current.dynamic == previous.dynamic
    case UndoRemoveUser(live, accounting, id) =>
      && live.tag == accounting.tag && accounting.tag in published.inbounds
      && Accounts(published, accounting) && Owns(mine, accounting)
      && live.tag in desired.inbounds && live == desired.inbounds[live.tag] && live.dynamic && id in live.users
    case UndoAddUser(i, user) => FromRegistry(i, user, published)
    case UndoRestoreUser(i, user, _) => FromRegistry(i, user, published)
  }

  /** The record is one the published registry has. */
  ghost predicate FromRegistry(i: Inbound, user: UserSpec, published: NormalizedConfig) {
    && i.tag in published.inbounds && i == published.inbounds[i.tag]
    && user.ResolvedId().Some? && user.ResolvedId().value in i.users
  }

  ghost predicate JournalOwned(journal: seq<Undo>, published: NormalizedConfig, desired: NormalizedConfig,
                               mine: iset<Key>) {
    && (forall i | 0 <= i < |journal| :: UndoOwned(journal[i], published, desired, mine))
    && forall i, j | 0 <= i < j < |journal| && journal[j].UndoAddInbound? ::
      !Removes(journal[i], journal[j].inbound.tag)
  }

  ghost predicate LabelsOwned(labels: map<Tag, Retiring>, published: NormalizedConfig) {
    forall t | t in labels ::
      labels[t].live.tag == t && labels[t].accounting.tag == t && Accounts(published, labels[t].accounting)
  }

  /** Tags whose candidates the journal still has to remove. */
  ghost function Candidates(journal: seq<Undo>): set<Tag> {
    if journal == [] then {} else
      var u := journal[|journal| - 1];
      Candidates(journal[..|journal| - 1]) + (if u.UndoRemoveInbound? then {u.live.tag} else {})
  }

  /** Every live tag is published, labelled, or a candidate the journal will remove, and nobody on it
      can be forgotten. */
  ghost predicate Tracked(plane: Plane, published: NormalizedConfig, labels: map<Tag, Retiring>, journal: seq<Undo>) {
    && plane.Keys <= published.inbounds.Keys + labels.Keys + Candidates(journal)
    && forall t | t in plane :: Covered(plane[t], t, published, labels, journal)
  }

  // ---------------------------------------------------------------- whose counters recovery will ask for

  /** The ids of the labelled generation, whose outstanding receipts a listing leaves out. */
  function Labelled(known: Option<Retiring>): set<UserId> {
    if known.Some? && known.value.live.dynamic then known.value.live.users.Keys + known.value.accounting.users.Keys
    else {}
  }

  /** Who is billed for a live tag: the generation a failed rollback labelled, or the topology. */
  function BilledTo(labels: Labels, known: NormalizedConfig, tag: Tag): Option<Retiring> {
    if tag in labels then Some(labels[tag])
    else if tag in known.inbounds then Some(Retiring(known.inbounds[tag], known.inbounds[tag]))
    else None
  }

  ghost predicate Removes(u: Undo, t: Tag) {
    u.UndoRemoveInbound? && u.live.tag == t
  }

  /** The journal still has to take the live generation of the tag away. */
  ghost predicate Doomed(journal: seq<Undo>, t: Tag) {
    exists i | 0 <= i < |journal| :: Removes(journal[i], t)
  }

  /** Users whose registration the journal still has to take back. */
  ghost function Admitted(journal: seq<Undo>, t: Tag): set<UserId> {
    set i | 0 <= i < |journal| && journal[i].UndoRemoveUser? && journal[i].candidate.tag == t :: journal[i].id
  }

  /** Asking for the generation's users, and for `more`, collects everybody on the slot. */
  ghost predicate Names(who: Option<Retiring>, s: Slot, more: set<UserId>) {
    who.Some? && who.value.live.dynamic && Billable(s) <= Labelled(who) + more
  }

  /** Everybody on a live registry is named by the generation billed for it or by what the journal has
      yet to undo; once an undo fails, its label names them. */
  ghost predicate Covered(s: Slot, t: Tag, published: NormalizedConfig, labels: map<Tag, Retiring>,
                          journal: seq<Undo>) {
    s.users.Some? ==>
      if Doomed(journal, t) then
        forall i | 0 <= i < |journal| && Removes(journal[i], t) ::
          Names(Some(Retiring(journal[i].live, journal[i].accounting)), s, {})
      else Names(BilledTo(labels, published, t), s, Admitted(journal, t))
  }

  lemma DoomedPush(journal: seq<Undo>, u: Undo, t: Tag)
    ensures Doomed(journal + [u], t) <==> Doomed(journal, t) || Removes(u, t)
  {
    if Doomed(journal, t) {
      var i :| 0 <= i < |journal| && Removes(journal[i], t);
      assert Removes((journal + [u])[i], t);
    }
    if Removes(u, t) {
      assert Removes((journal + [u])[|journal|], t);
    }
  }

  lemma AdmittedPush(journal: seq<Undo>, u: Undo, t: Tag)
    ensures Admitted(journal + [u], t)
         == Admitted(journal, t) + (if u.UndoRemoveUser? && u.candidate.tag == t then {u.id} else {})
  {
    var longer := journal + [u];
    forall id | id in Admitted(journal, t) ensures id in Admitted(longer, t) {
      var i :| 0 <= i < |journal| && journal[i].UndoRemoveUser? && journal[i].candidate.tag == t && journal[i].id == id;
      assert longer[i] == journal[i];
    }
    if u.UndoRemoveUser? && u.candidate.tag == t {
      assert longer[|journal|] == u;
    }
  }

  lemma CoveredFewer(before: Plane, after: Plane, t: Tag, published: NormalizedConfig, labels: map<Tag, Retiring>,
                     journal: seq<Undo>)
    requires Fewer(before, after, t) && t in after
    requires t in before ==> Covered(before[t], t, published, labels, journal)
    ensures Covered(after[t], t, published, labels, journal)
  {
    hide BilledTo, Doomed, Admitted, Labelled, Billable;
  }

  // ---------------------------------------------------------------- rollback

  /** `replace_inbound_with_replay_owners`: stop, start the replacement under the same replay
      namespace, and start the old generation again if the replacement will not. */
  method ReplaceInbound(engine: Engine, pending: PendingTraffic, ghost x: Books, current: Inbound, registry: Inbound,
                        accounting: Inbound, next: Inbound, lease: Lease)
    returns (f: Option<StepFailure>)
    requires Sound(engine, pending, x) && Owns(x.mine, accounting)
    requires current.tag == registry.tag == accounting.tag == next.tag
    modifies engine, pending
    ensures Sound(engine, pending, x)
    ensures engine.authority == old(engine.authority) && engine.Onward()
    ensures engine.plane.Keys <= old(engine.plane).Keys && engine.plane - {next.tag} == old(engine.plane) - {next.tag}
    ensures f.None? ==>
      && next.tag in old(engine.plane) && engine.plane == old(engine.plane)[next.tag := SlotFor(next, lease.lineage)]
      && next.tag !in engine.outdated
    ensures f.Some? ==> Earned(engine, f.value.cause)
    ensures f.Some? && f.value.restored && Recorded(old(engine.plane), registry) ==>
      || engine.plane == old(engine.plane)
      || engine.plane == old(engine.plane)[next.tag := SlotFor(current, lease.lineage)]
    ensures f.Some? && GoodInbound(registry) ==>
      || Fewer(old(engine.plane), engine.plane, next.tag)
      || (next.tag in engine.plane && engine.plane[next.tag] == SlotFor(current, lease.lineage))
    ensures engine.healthy && Recorded(old(engine.plane), registry) && GoodInbound(next)
      && lease.tag == next.tag && next.tag in engine.authority && engine.authority[next.tag] == lease.lineage
      && BindsFree(old(engine.plane) - {next.tag}, next.config.binds)
      ==> f.None? || f.value.cause.PendingFull?
  {
    hide Sound, GoodInbound, Recorded, BindsFree, SlotFor, Later, Earned, Crowded, Billable;
    f := StopInbound(engine, pending, x, registry, accounting);
    if f.Some? {
      SameElsewhere(old(engine.plane), engine.plane, next.tag);
      return;
    }
    ghost var stopped := engine.Account();
    NotCrowded(engine.authority, next.tag, lease);
    var r := StartInbound(engine, pending, x, next, Some(lease));
    LaterOn(old(engine.Account()), stopped, engine.Account());
    stopped := engine.Account();
    if r.None? {
      return None;
    }
    var back := StartInbound(engine, pending, x, current, Some(lease));
    LaterOn(old(engine.Account()), stopped, engine.Account());
    EarnedOther(engine, EngineFailed(r.value));
    f := Some(StepFailure(EngineFailed(r.value), if back.None? then 0 else 1, true, back.None?));
  }

  lemma NotCrowded(authority: map<Tag, nat>, tag: Tag, lease: Lease)
    ensures !Crowded(authority, tag, Some(lease))
  {
  }

  /** What an inverse operation, done or failed, may have made of the plane, ready or not. */
  ghost predicate Stepped(u: Undo, before: Plane, after: Plane, ok: bool) {
    match u
    case UndoAddInbound(i, _) =>
      if ok then i.tag in after && after == before[i.tag := SlotFor(i, after[i.tag].lineage)] else after == before
    case UndoRemoveInbound(live, _) =>
      && after - {live.tag} == before - {live.tag} && Fewer(before, after, live.tag) && (ok ==> live.tag !in after)
    case UndoRestoreHot(current, previous, lease) =>
      && after - {previous.tag} == before - {previous.tag}
      && if ok then after == before[previous.tag := SlotFor(previous, lease.lineage)]
         else
           || Fewer(before, after, previous.tag)
           || (previous.tag in after && after[previous.tag] == SlotFor(current, lease.lineage))
    case UndoAddUser(i, user) => Joined(before, after, i.tag, user)
    case UndoRemoveUser(live, _, id) =>
      && after - {live.tag} == before - {live.tag} && Fewer(before, after, live.tag)
      && (ok && live.tag in after ==> id !in Billable(after[live.tag]))
    case UndoRestoreUser(i, user, _) => Joined(before, after, i.tag, user)
  }

  /** At most this user is new on the tag, and nothing else has changed. */
  ghost predicate Joined(before: Plane, after: Plane, tag: Tag, user: UserSpec) {
    && after - {tag} == before - {tag}
    && (tag in after ==>
      && tag in before && (after[tag].users.Some? <==> before[tag].users.Some?)
      && user.ResolvedId().Some? && Billable(after[tag]) <= Billable(before[tag]) + {user.ResolvedId().value})
  }

  /** One inverse operation. `full` reports that a receipt found no room. */
  method UndoStep(engine: Engine, pending: PendingTraffic, ghost x: Books, u: Undo, ghost published: NormalizedConfig,
                  ghost desired: NormalizedConfig, ghost start: Plane)
    returns (ok: bool, full: bool)
    requires Sound(engine, pending, x) && UndoOwned(u, published, desired, x.mine)
    modifies engine, pending
    ensures Sound(engine, pending, x) && Stepped(u, old(engine.plane), engine.plane, ok)
    ensures engine.authority == old(engine.authority) && engine.Onward()
    ensures engine.plane.Keys <= old(engine.plane).Keys + (if u.UndoAddInbound? then {u.inbound.tag} else {})
    ensures ok && u.UndoRemoveInbound? ==> u.live.tag !in engine.plane
    ensures full ==> engine.starved
    ensures Ready(u, old(engine.plane), start) && KeepsAuthority(start, engine.authority) ==>
      (ok ==> engine.plane == Undone(u, old(engine.plane))) && (engine.healthy ==> ok || full)
  {
    hide Stepped, Fewer, Billable, Sound, Owns, Later, BindsFree, CredentialFree, Rotates;
    ok, full := false, false;
    match u
    case UndoAddInbound(i, lease) =>
      var r := StartInbound(engine, pending, x, i, Some(lease));
      ok := r.None?;
      SteppedStart(u, old(engine.plane), engine.plane, ok);
    case UndoRemoveInbound(live, accounting) =>
      var f := StopInbound(engine, pending, x, live, accounting);
      ok, full := f.None?, f.Some? && f.value.cause.PendingFull?;
      SteppedStop(u, old(engine.plane), engine.plane, ok);
    case UndoRestoreHot(current, previous, lease) =>
      OwnSockets(engine, pending, x, previous);
      var f := ReplaceInbound(engine, pending, x, current, previous, previous, previous, lease);
      ok, full := f.None?, f.Some? && f.value.cause.PendingFull?;
      SteppedHot(u, old(engine.plane), engine.plane, ok);
    case UndoAddUser(i, user) =>
      var r := UpsertUser(engine, pending, x, i.tag, user);
      ok := r.None?;
      SteppedUpsert(u, i.tag, user, old(engine.plane), engine.plane, ok);
    case UndoRemoveUser(live, accounting, id) =>
      SoundGood(engine, pending, x);
      var r := RetireUser(engine, pending, x, accounting, id);
      ok, full := r.Retired?, r.NoRoom?;
      SteppedRetire(u, old(engine.plane), old(engine.authority), engine.plane, ok);
    case UndoRestoreUser(i, user, kick) =>
      var r := UpsertUser(engine, pending, x, i.tag, user);
      ok := r.None?;
      if ok && kick {
        ghost var was := engine.Account();
        r := KickSessions(engine, pending, x, i.tag, user.ResolvedId().value);
        LaterOn(old(engine.Account()), was, engine.Account());
        ok := r.None?;
      }
      SteppedUpsert(u, i.tag, user, old(engine.plane), engine.plane, ok);
  }

  /** The sockets of a live inbound are its own. */
  lemma OwnSockets(engine: Engine, pending: PendingTraffic, x: Books, i: Inbound)
    requires Sound(engine, pending, x)
    ensures i.tag in engine.plane && engine.plane[i.tag].config.binds == i.config.binds ==>
      BindsFree(engine.plane - {i.tag}, i.config.binds)
  {
  }

  lemma SteppedStart(u: Undo, before: Plane, after: Plane, ok: bool)
    requires u.UndoAddInbound?
    requires if ok then exists lineage: nat :: after == before[u.inbound.tag := SlotFor(u.inbound, lineage)]
             else after == before
    ensures Stepped(u, before, after, ok)
  {
  }

  lemma SteppedStop(u: Undo, before: Plane, after: Plane, ok: bool)
    requires u.UndoRemoveInbound?
    requires if ok then after == before - {u.live.tag}
             else SameListeners(before, after, u.live.tag) && Fewer(before, after, u.live.tag)
    ensures Stepped(u, before, after, ok)
  {
    hide Billable;
    if !ok {
      SameElsewhere(before, after, u.live.tag);
    }
  }

  lemma SteppedHot(u: Undo, before: Plane, after: Plane, ok: bool)
    requires u.UndoRestoreHot? && u.current.tag == u.previous.tag
    requires if ok then after == before[u.previous.tag := SlotFor(u.previous, u.replay.lineage)]
             else
               && after - {u.previous.tag} == before - {u.previous.tag}
               && (|| Fewer(before, after, u.previous.tag)
                   || (u.previous.tag in after && after[u.previous.tag] == SlotFor(u.current, u.replay.lineage)))
    ensures Stepped(u, before, after, ok)
  {
    hide Fewer;
  }

  lemma SteppedRetire(u: Undo, before: Plane, authority: map<Tag, nat>, after: Plane, ok: bool)
    requires u.UndoRemoveUser? && GoodPlane(before, authority)
    requires if ok then Removable(before, u.candidate.tag, u.id) && after == Collected(before, u.candidate.tag, u.id)
             else after == before || (HasUser(before, u.candidate.tag, u.id)
                                      && after == Drained(before, u.candidate.tag, u.id))
    ensures Stepped(u, before, after, ok)
  {
    FewerSame(before, u.candidate.tag);
    FewerRetired(before, before, after, u.candidate.tag, u.id);
  }

  lemma SteppedUpsert(u: Undo, tag: Tag, user: UserSpec, before: Plane, after: Plane, ok: bool)
    requires (u.UndoAddUser? && u.owner.tag == tag && u.user == user)
          || (u.UndoRestoreUser? && u.restored.tag == tag && u.spec == user)
    requires user.ResolvedId().Some?
    requires after == before
          || (UpsertRefusal(before, tag, user).None?
              && (after == Upserted1(before, tag, user)
                  || after == Kicked(Upserted1(before, tag, user), tag, user.ResolvedId().value)))
    ensures Stepped(u, before, after, ok)
  {
  }


  type Labels = map<Tag, Retiring>

  /** The label of a generation an undo brought back or took away. */
  function LabelDone(u: Undo, labels: Labels): Labels {
    match u
    case UndoAddInbound(i, _) => labels[i.tag := Retiring(i, i)]
    case UndoRemoveInbound(live, _) => labels - {live.tag}
    case UndoRestoreHot(_, previous, _) => labels[previous.tag := Retiring(previous, previous)]
    case _ => labels
  }

  /** The generation a failed undo may have left behind. */
  function Survivor(u: Undo): Option<Retiring> {
    match u
    case UndoRemoveInbound(live, accounting) => Some(Retiring(live, accounting))
    case UndoRestoreHot(current, previous, _) => Some(Retiring(current, previous))
    case UndoRemoveUser(live, accounting, _) => Some(Retiring(live, accounting))
    case _ => None
  }

  function LabelFailed(u: Undo, labels: Labels, plane: Plane): Labels {
    var survivor := Survivor(u);
    if survivor.Some? && survivor.value.live.tag in plane then labels[survivor.value.live.tag := survivor.value]
    else labels
  }

  /** A label names the published generation of its tag or the one the transaction wants. */
  ghost predicate LabelsDrafted(labels: Labels, published: NormalizedConfig, desired: NormalizedConfig) {
    forall t | t in labels ::
      || (t in published.inbounds && labels[t].live == published.inbounds[t])
      || (t in desired.inbounds && labels[t].live == desired.inbounds[t])
  }

  /** As long as every undo has succeeded, labels name the published generations. */
  ghost predicate Plain(labels: Labels, published: NormalizedConfig) {
    forall t | t in labels ::
      t in published.inbounds && labels[t] == Retiring(published.inbounds[t], published.inbounds[t])
  }

  lemma LabelStep(u: Undo, labels: Labels, after: Plane, ok: bool, published: NormalizedConfig,
                  desired: NormalizedConfig, mine: iset<Key>)
    requires UndoOwned(u, published, desired, mine) && LabelsOwned(labels, published)
    requires LabelsDrafted(labels, published, desired)
    ensures ok ==>
      && LabelsOwned(LabelDone(u, labels), published) && LabelsDrafted(LabelDone(u, labels), published, desired)
      && (Plain(labels, published) ==> Plain(LabelDone(u, labels), published))
    ensures !ok ==>
      && LabelsOwned(LabelFailed(u, labels, after), published)
      && LabelsDrafted(LabelFailed(u, labels, after), published, desired)
  {
  }

  function Relabelled(u: Undo, labels: Labels, after: Plane, ok: bool): Labels {
    if ok then LabelDone(u, labels) else LabelFailed(u, labels, after)
  }

  function TagOf(u: Undo): Tag {
    match u
    case UndoAddInbound(i, _) => i.tag
    case UndoRemoveInbound(live, _) => live.tag
    case UndoRestoreHot(_, previous, _) => previous.tag
    case UndoAddUser(i, _) => i.tag
    case UndoRemoveUser(live, _, _) => live.tag
    case UndoRestoreUser(i, _, _) => i.tag
  }

  lemma OlderEntries(journal: seq<Undo>, u: Undo)
    ensures forall i | 0 <= i < |journal| :: (journal + [u])[i] == journal[i]
    ensures (journal + [u])[|journal|] == u
  {
  }

  lemma OlderOwned(journal: seq<Undo>, u: Undo, published: NormalizedConfig, desired: NormalizedConfig, mine: iset<Key>)
    requires JournalOwned(journal + [u], published, desired, mine)
    ensures JournalOwned(journal, published, desired, mine) && UndoOwned(u, published, desired, mine)
    ensures u.UndoAddInbound? ==> !Doomed(journal, u.inbound.tag)
  {
    hide UndoOwned;
    OlderEntries(journal, u);
    var longer := journal + [u];
    assert UndoOwned(longer[|journal|], published, desired, mine);
    forall i | 0 <= i < |journal| ensures UndoOwned(journal[i], published, desired, mine) {
      assert UndoOwned(longer[i], published, desired, mine);
    }
    if u.UndoAddInbound? {
      forall i | 0 <= i < |journal| ensures !Removes(journal[i], u.inbound.tag) {
        assert longer[|journal|].UndoAddInbound? && !Removes(longer[i], longer[|journal|].inbound.tag);
      }
    }
    forall i, j | 0 <= i < j < |journal| && journal[j].UndoAddInbound?
      ensures !Removes(journal[i], journal[j].inbound.tag)
    {
      assert longer[j].UndoAddInbound? && !Removes(longer[i], longer[j].inbound.tag);
    }
  }

  /** A slot the popped undo did not touch stays covered. */
  lemma CoveredPop(s: Slot, t: Tag, published: NormalizedConfig, labels: Labels, after: Labels, journal: seq<Undo>,
                   u: Undo)
    requires Covered(s, t, published, labels, journal + [u])
    requires t in labels <==> t in after
    requires t in labels ==> labels[t] == after[t]
    requires !Removes(u, t) && !(u.UndoRemoveUser? && u.candidate.tag == t)
    ensures Covered(s, t, published, after, journal)
  {
    hide Billable, Labelled, Names;
    DoomedPush(journal, u, t);
    AdmittedPush(journal, u, t);
    OlderEntries(journal, u);
    forall i | 0 <= i < |journal| && Removes(journal[i], t) && s.users.Some?
      ensures Names(Some(Retiring(journal[i].live, journal[i].accounting)), s, {})
    {
      assert Removes((journal + [u])[i], t);
      assert Doomed(journal + [u], t);
    }
    assert BilledTo(labels, published, t) == BilledTo(after, published, t);
    assert Admitted(journal + [u], t) == Admitted(journal, t);
  }

  lemma AdmittedDrafted(journal: seq<Undo>, published: NormalizedConfig, desired: NormalizedConfig, mine: iset<Key>,
                       t: Tag)
    requires JournalOwned(journal, published, desired, mine) && Admitted(journal, t) != {}
    ensures t in desired.inbounds && desired.inbounds[t].dynamic
    ensures Admitted(journal, t) <= desired.inbounds[t].users.Keys
  {
    hide Owns, Accounts;
    forall id | id in Admitted(journal, t)
      ensures t in desired.inbounds && desired.inbounds[t].dynamic && id in desired.inbounds[t].users
    {
      var i :| 0 <= i < |journal| && journal[i].UndoRemoveUser? && journal[i].candidate.tag == t && journal[i].id == id;
      assert UndoOwned(journal[i], published, desired, mine);
    }
    var id :| id in Admitted(journal, t);
  }

  /** The wanted generation under its published owner names everybody who can be on the slot. */
  lemma NamedByCandidate(s: Slot, t: Tag, published: NormalizedConfig, desired: NormalizedConfig, mine: iset<Key>,
                         labels: Labels, journal: seq<Undo>)
    requires JournalOwned(journal, published, desired, mine) && Covered(s, t, published, labels, journal)
    requires LabelsOwned(labels, published) && LabelsDrafted(labels, published, desired)
    requires t in published.inbounds && t in desired.inbounds && published.inbounds[t].tag == t
    requires desired.inbounds[t].dynamic || !published.inbounds[t].dynamic
    ensures s.users.Some? ==> Names(Some(Retiring(desired.inbounds[t], published.inbounds[t])), s, {})
  {
    hide Billable, Owns;
    if s.users.Some? {
      if Doomed(journal, t) {
        var i :| 0 <= i < |journal| && Removes(journal[i], t);
        assert UndoOwned(journal[i], published, desired, mine);
      } else if Admitted(journal, t) != {} {
        AdmittedDrafted(journal, published, desired, mine, t);
      }
    }
  }

  /** Once labelled with the wanted generation, the slot is covered. */
  lemma CoveredByCandidate(s: Slot, t: Tag, published: NormalizedConfig, desired: NormalizedConfig, mine: iset<Key>,
                           labels: Labels, journal: seq<Undo>)
    requires JournalOwned(journal, published, desired, mine)
    requires t in published.inbounds && t in desired.inbounds && published.inbounds[t].tag == t
    requires s.users.Some? ==> Names(Some(Retiring(desired.inbounds[t], published.inbounds[t])), s, {})
    requires t in labels && labels[t] == Retiring(desired.inbounds[t], published.inbounds[t])
    ensures Covered(s, t, published, labels, journal)
  {
    hide Billable, Owns, Labelled, Admitted;
    forall i | 0 <= i < |journal| && Removes(journal[i], t) && s.users.Some?
      ensures Names(Some(Retiring(journal[i].live, journal[i].accounting)), s, {})
    {
      assert UndoOwned(journal[i], published, desired, mine);
    }
  }

  lemma NamesFewer(before: Plane, after: Plane, t: Tag, who: Option<Retiring>)
    requires Fewer(before, after, t) && t in after && (before[t].users.Some? ==> Names(who, before[t], {}))
    ensures after[t].users.Some? ==> Names(who, after[t], {})
  {
    hide Billable, Labelled;
  }

  lemma AddedCovered(u: Undo, before: Plane, after: Plane, ok: bool, published: NormalizedConfig,
                     desired: NormalizedConfig, mine: iset<Key>, labels: Labels, journal: seq<Undo>)
    requires u.UndoAddInbound? && Stepped(u, before, after, ok) && u.inbound.tag in after
    requires JournalOwned(journal + [u], published, desired, mine)
    requires u.inbound.tag in before ==> Covered(before[u.inbound.tag], u.inbound.tag, published, labels, journal + [u])
    ensures Covered(after[u.inbound.tag], u.inbound.tag, published, Relabelled(u, labels, after, ok), journal)
  {
    hide Doomed, Admitted, UndoOwned, JournalOwned;
    OlderOwned(journal, u, published, desired, mine);
    if !ok {
      CoveredPop(before[u.inbound.tag], u.inbound.tag, published, labels, labels, journal, u);
    }
  }

  lemma RemovedCovered(u: Undo, before: Plane, after: Plane, ok: bool, published: NormalizedConfig, labels: Labels,
                       journal: seq<Undo>)
    requires u.UndoRemoveInbound? && Stepped(u, before, after, ok) && u.live.tag in after
    requires u.live.tag in before ==> Covered(before[u.live.tag], u.live.tag, published, labels, journal + [u])
    ensures Covered(after[u.live.tag], u.live.tag, published, Relabelled(u, labels, after, ok), journal)
  {
    hide Billable, Labelled, Admitted, Names;
    var t := u.live.tag;
    DoomedPush(journal, u, t);
    OlderEntries(journal, u);
    CoveredFewer(before, after, t, published, labels, journal + [u]);
    forall i | 0 <= i < |journal| && Removes(journal[i], t) && after[t].users.Some?
      ensures Names(Some(Retiring(journal[i].live, journal[i].accounting)), after[t], {})
    {
      assert Removes((journal + [u])[i], t);
    }
    if after[t].users.Some? {
      assert Removes((journal + [u])[|journal|], t);
      NamesMore(Some(Retiring(u.live, u.accounting)), after[t], Admitted(journal, t));
    }
  }

  lemma NamesMore(who: Option<Retiring>, s: Slot, more: set<UserId>)
    requires Names(who, s, {})
    ensures Names(who, s, more)
  {
  }

  lemma RefreshedCovered(u: Undo, before: Plane, after: Plane, ok: bool, published: NormalizedConfig,
                         desired: NormalizedConfig, mine: iset<Key>, labels: Labels, journal: seq<Undo>)
    requires u.UndoRestoreHot? && Stepped(u, before, after, ok) && u.previous.tag in after
    requires JournalOwned(journal + [u], published, desired, mine)
    requires LabelsOwned(labels, published) && LabelsDrafted(labels, published, desired)
    requires u.previous.tag in before ==>
      Covered(before[u.previous.tag], u.previous.tag, published, labels, journal + [u])
    ensures Covered(after[u.previous.tag], u.previous.tag, published, Relabelled(u, labels, after, ok), journal)
  {
    hide Doomed, Admitted, JournalOwned, Owns, LabelsOwned, LabelsDrafted, Covered, Fewer;
    var t := u.previous.tag;
    OlderOwned(journal, u, published, desired, mine);
    if ok {
      CoveredByPublished(after[t], t, published, desired, mine, LabelDone(u, labels), journal);
    } else {
      if Fewer(before, after, t) {
        FewerHad(before, after, t);
        NamedByCandidate(before[t], t, published, desired, mine, labels, journal + [u]);
        NamesFewer(before, after, t, Some(Retiring(desired.inbounds[t], published.inbounds[t])));
      }
      CoveredByCandidate(after[t], t, published, desired, mine, LabelFailed(u, labels, after), journal);
    }
  }

  lemma FewerHad(before: Plane, after: Plane, t: Tag)
    requires Fewer(before, after, t) && t in after
    ensures t in before
  {
  }

  /** The published registry, brought back under its own label. */
  lemma CoveredByPublished(s: Slot, t: Tag, published: NormalizedConfig, desired: NormalizedConfig, mine: iset<Key>,
                           labels: Labels, journal: seq<Undo>)
    requires JournalOwned(journal, published, desired, mine)
    requires t in published.inbounds && t in desired.inbounds && published.inbounds[t].tag == t
    requires desired.inbounds[t].dynamic == published.inbounds[t].dynamic
    requires exists lineage :: s == SlotFor(published.inbounds[t], lineage)
    requires t in labels && labels[t] == Retiring(published.inbounds[t], published.inbounds[t])
    ensures Covered(s, t, published, labels, journal)
  {
    hide Owns, Admitted;
    forall i | 0 <= i < |journal| && Removes(journal[i], t) && s.users.Some?
      ensures Names(Some(Retiring(journal[i].live, journal[i].accounting)), s, {})
    {
      assert UndoOwned(journal[i], published, desired, mine);
    }
  }

  lemma JoinedCovered(before: Plane, after: Plane, owner: Inbound, user: UserSpec, published: NormalizedConfig,
                      desired: NormalizedConfig, mine: iset<Key>, labels: Labels, journal: seq<Undo>)
    requires FromRegistry(owner, user, published) && Joined(before, after, owner.tag, user) && owner.tag in after
    requires JournalOwned(journal, published, desired, mine) && LabelsOwned(labels, published)
    requires owner.tag in before ==> Covered(before[owner.tag], owner.tag, published, labels, journal)
    ensures Covered(after[owner.tag], owner.tag, published, labels, journal)
  {
    hide Admitted, Owns;
    var t := owner.tag;
    forall i | 0 <= i < |journal| && Removes(journal[i], t) && after[t].users.Some?
      ensures Names(Some(Retiring(journal[i].live, journal[i].accounting)), after[t], {})
    {
      assert UndoOwned(journal[i], published, desired, mine);
    }
  }

  lemma UnwrittenCovered(u: Undo, before: Plane, after: Plane, ok: bool, published: NormalizedConfig,
                         desired: NormalizedConfig, mine: iset<Key>, labels: Labels, journal: seq<Undo>)
    requires u.UndoRemoveUser? && Stepped(u, before, after, ok) && u.candidate.tag in after
    requires JournalOwned(journal + [u], published, desired, mine)
    requires LabelsOwned(labels, published) && LabelsDrafted(labels, published, desired)
    requires u.candidate.tag in before ==>
      Covered(before[u.candidate.tag], u.candidate.tag, published, labels, journal + [u])
    ensures Covered(after[u.candidate.tag], u.candidate.tag, published, Relabelled(u, labels, after, ok), journal)
  {
    hide Doomed, Admitted, JournalOwned, Owns, LabelsOwned, LabelsDrafted, Covered, Fewer, Billable;
    var t := u.candidate.tag;
    OlderOwned(journal, u, published, desired, mine);
    FewerHad(before, after, t);
    if ok {
      CoveredFewer(before, after, t, published, labels, journal + [u]);
      CoveredWithout(after[t], published, labels, journal, u);
    } else {
      NamedByCandidate(before[t], t, published, desired, mine, labels, journal + [u]);
      NamesFewer(before, after, t, Some(Retiring(desired.inbounds[t], published.inbounds[t])));
      CoveredByCandidate(after[t], t, published, desired, mine, LabelFailed(u, labels, after), journal);
    }
  }

  lemma CoveredWithout(s: Slot, published: NormalizedConfig, labels: Labels, journal: seq<Undo>, u: Undo)
    requires u.UndoRemoveUser? && u.id !in Billable(s)
    requires Covered(s, u.candidate.tag, published, labels, journal + [u])
    ensures Covered(s, u.candidate.tag, published, labels, journal)
  {
    hide Billable, Labelled;
    var t := u.candidate.tag;
    DoomedPush(journal, u, t);
    AdmittedPush(journal, u, t);
    OlderEntries(journal, u);
    forall i | 0 <= i < |journal| && Removes(journal[i], t) && s.users.Some?
      ensures Names(Some(Retiring(journal[i].live, journal[i].accounting)), s, {})
    {
      assert Removes((journal + [u])[i], t);
      assert Doomed(journal + [u], t);
    }
  }

  /** An undo, done or failed, leaves everybody on a live tag named by a label or by the older entries. */
  lemma SteppedCovered(u: Undo, before: Plane, after: Plane, ok: bool, published: NormalizedConfig,
                       desired: NormalizedConfig, mine: iset<Key>, labels: Labels, journal: seq<Undo>, t: Tag)
    requires Stepped(u, before, after, ok) && JournalOwned(journal + [u], published, desired, mine)
    requires LabelsOwned(labels, published) && LabelsDrafted(labels, published, desired) && t in after
    requires t in before ==> Covered(before[t], t, published, labels, journal + [u])
    ensures Covered(after[t], t, published, Relabelled(u, labels, after, ok), journal)
  {
    hide Covered, JournalOwned, LabelsOwned, LabelsDrafted, Fewer, Billable, Owns;
    OlderOwned(journal, u, published, desired, mine);
    if t != TagOf(u) {
      assert t in before && after[t] == before[t] by {
        assert t in after - {TagOf(u)};
        assert t in before - {TagOf(u)};
      }
      CoveredPop(before[t], t, published, labels, Relabelled(u, labels, after, ok), journal, u);
      return;
    }
    match u
    case UndoAddInbound(_, _) => AddedCovered(u, before, after, ok, published, desired, mine, labels, journal);
    case UndoRemoveInbound(_, _) => RemovedCovered(u, before, after, ok, published, labels, journal);
    case UndoRestoreHot(_, _, _) => RefreshedCovered(u, before, after, ok, published, desired, mine, labels, journal);
    case UndoAddUser(i, user) => ReaddedCovered(u, i, user, before, after, published, desired, mine, labels, journal);
    case UndoRemoveUser(_, _, _) => UnwrittenCovered(u, before, after, ok, published, desired, mine, labels, journal);
    case UndoRestoreUser(i, user, _) =>
      ReaddedCovered(u, i, user, before, after, published, desired, mine, labels, journal);
  }

  lemma ReaddedCovered(u: Undo, i: Inbound, user: UserSpec, before: Plane, after: Plane, published: NormalizedConfig,
                       desired: NormalizedConfig, mine: iset<Key>, labels: Labels, journal: seq<Undo>)
    requires !u.UndoRemoveInbound? && !u.UndoRemoveUser? && JournalOwned(journal + [u], published, desired, mine)
    requires FromRegistry(i, user, published) && Joined(before, after, i.tag, user) && i.tag in after
    requires LabelsOwned(labels, published)
    requires i.tag in before ==> Covered(before[i.tag], i.tag, published, labels, journal + [u])
    ensures Covered(after[i.tag], i.tag, published, labels, journal)
  {
    hide Covered, JournalOwned, LabelsOwned, Owns, Billable;
    OlderOwned(journal, u, published, desired, mine);
    CoveredPop(before[i.tag], i.tag, published, labels, labels, journal, u);
    JoinedCovered(before, after, i, user, published, desired, mine, labels, journal);
  }

  lemma SteppedTracked(u: Undo, before: Plane, after: Plane, ok: bool, published: NormalizedConfig,
                       desired: NormalizedConfig, mine: iset<Key>, labels: Labels, journal: seq<Undo>)
    requires Stepped(u, before, after, ok) && JournalOwned(journal + [u], published, desired, mine)
    requires LabelsOwned(labels, published) && LabelsDrafted(labels, published, desired)
    requires Tracked(before, published, labels, journal + [u])
    ensures Tracked(after, published, Relabelled(u, labels, after, ok), journal)
  {
    hide Covered, JournalOwned, LabelsOwned, LabelsDrafted, Billable, Owns;
    forall t | t in after ensures Covered(after[t], t, published, Relabelled(u, labels, after, ok), journal) {
      SteppedCovered(u, before, after, ok, published, desired, mine, labels, journal, t);
    }
    OlderOwned(journal, u, published, desired, mine);
    SteppedKnown(u, before, after, ok, published, labels, journal);
  }

  lemma SteppedKnown(u: Undo, before: Plane, after: Plane, ok: bool, published: NormalizedConfig, labels: Labels,
                     journal: seq<Undo>)
    requires Stepped(u, before, after, ok) && (u.UndoRestoreHot? ==> u.current.tag == u.previous.tag)
    requires before.Keys <= published.inbounds.Keys + labels.Keys + Candidates(journal + [u])
    ensures after.Keys <= published.inbounds.Keys + Relabelled(u, labels, after, ok).Keys + Candidates(journal)
  {
    hide Billable;
    assert (journal + [u])[..|journal|] == journal;
    assert Candidates(journal + [u]) == Candidates(journal) + (if u.UndoRemoveInbound? then {u.live.tag} else {});
    forall t | t in after.Keys
      ensures t in published.inbounds.Keys + Relabelled(u, labels, after, ok).Keys + Candidates(journal)
    {
      if t != TagOf(u) {
        assert t in after - {TagOf(u)};
        assert t in before - {TagOf(u)};
        assert t in before.Keys;
      } else if !ok || !(u.UndoAddInbound? || u.UndoRestoreHot?) {
        assert t in before.Keys || t in Relabelled(u, labels, after, ok).Keys;
      }
    }
  }

  /** Undo everything, newest first, carrying on past failures. With no error the plane is the one
      the journal started from; with healthy I/O only a full receipt queue can cause an error. The
      labels it returns name everybody whose counters are still out. */
  method RollbackJournal(engine: Engine, pending: PendingTraffic, ghost x: Books, entries: seq<Undo>,
                         ghost published: NormalizedConfig, ghost desired: NormalizedConfig, ghost start: Plane)
    returns (errors: nat, labels: Labels, full: bool)
    requires Sound(engine, pending, x) && JournalOwned(entries, published, desired, x.mine)
    requires KeepsAuthority(start, engine.authority) && Tracked(engine.plane, published, map[], entries)
    modifies engine, pending
    ensures Sound(engine, pending, x)
    ensures engine.authority == old(engine.authority) && engine.Onward()
    ensures errors == 0 ==> labels == map[]
    ensures full ==> engine.starved
    ensures LabelsOwned(labels, published) && Tracked(engine.plane, published, labels, [])
    ensures Rewinds(entries, old(engine.plane), start) ==>
      (errors == 0 ==> engine.plane == start) && (engine.healthy && !full ==> errors == 0)
    ensures entries == [] ==>
      errors == 0 && !full && engine.plane == old(engine.plane) && engine.mutations == old(engine.mutations)
  {
    hide Sound, Ready, Undone, UndoOwned, KeepsAuthority, Tracked, LabelsOwned, LabelDone, LabelFailed, Later;
    hide JournalOwned, Stepped, LabelsDrafted, Plain;
    LaterSame(engine.Account());
    errors, labels, full := 0, map[], false;
    LabelsNone(published, desired);
    var journal := entries;
    ghost var rewinds := Rewinds(entries, engine.plane, start);
    while journal != []
      invariant Sound(engine, pending, x) && JournalOwned(journal, published, desired, x.mine)
      invariant engine.authority == old(engine.authority) && engine.Onward()
      invariant LabelsOwned(labels, published) && Tracked(engine.plane, published, labels, journal)
      invariant LabelsDrafted(labels, published, desired)
      invariant errors == 0 ==> Plain(labels, published)
      invariant full ==> engine.starved
      invariant rewinds && errors == 0 ==> Rewinds(journal, engine.plane, start)
      invariant rewinds && engine.healthy && !full ==> errors == 0
      invariant entries == [] ==>
        && journal == [] && engine.plane == old(engine.plane) && engine.mutations == old(engine.mutations)
        && errors == 0 && !full
      decreases |journal|
    {
      var u := journal[|journal| - 1];
      ghost var before, was := engine.plane, engine.Account();
      assert journal == journal[..|journal| - 1] + [u];
      journal := journal[..|journal| - 1];
      OlderOwned(journal, u, published, desired, x.mine);
      var ok, noRoom := UndoStep(engine, pending, x, u, published, desired, start);
      LaterOn(old(engine.Account()), was, engine.Account());
      LabelStep(u, labels, engine.plane, ok, published, desired, x.mine);
      SteppedTracked(u, before, engine.plane, ok, published, desired, x.mine, labels, journal);
      full := full || noRoom;
      if ok {
        labels := LabelDone(u, labels);
      } else {
        labels := LabelFailed(u, labels, engine.plane);
        errors := errors + 1;
      }
    }
    if errors == 0 {
      TrackedPlain(engine.plane, published, labels);
      LabelsNone(published, published);
      labels := map[];
    }
  }

  lemma LabelsNone(published: NormalizedConfig, desired: NormalizedConfig)
    ensures LabelsOwned(map[], published) && LabelsDrafted(map[], published, desired) && Plain(map[], published)
  {
  }

  /** Labels that only name published generations say nothing new. */
  lemma TrackedPlain(plane: Plane, published: NormalizedConfig, labels: Labels)
    requires Tracked(plane, published, labels, []) && Plain(labels, published)
    ensures Tracked(plane, published, map[], [])
  {
    hide Names;
    forall t ensures t in plane ==> BilledTo(labels, published, t) == BilledTo(map[], published, t) {
    }
    assert forall t | t in labels :: t in published.inbounds.Keys;
  }
}
