/** A topology change as a sequence of journalled steps
    (crates/node-agent/src/runtime.rs:1091-1109, 1191-1592). */
module Transaction {
  import opened Basics
  import opened Topology
  import opened Accounting
  import opened EngineModel
  import opened Steps
  import opened Journal

  /** The plane shows exactly this topology: tags, configs and registries. */
  ghost predicate Matches(plane: Plane, c: NormalizedConfig) {
    plane.Keys == c.inbounds.Keys && forall t | t in plane :: plane[t] == SlotFor(c.inbounds[t], plane[t].lineage)
  }

  /** Before commit, bytes belong to the published owner; a new tag owns its own bytes. */
  function UncommittedOwner(published: Option<Inbound>, candidate: Inbound): (owner: Inbound)
    ensures owner.tag == candidate.tag || published.Some?
    ensures published.None? ==> owner.node == candidate.tag && owner.protocol == candidate.protocol
  {
    if published.Some? then published.value else candidate.(node := candidate.tag)
  }

  function Published(c: NormalizedConfig, tag: Tag): Option<Inbound> {
    if tag in c.inbounds then Some(c.inbounds[tag]) else None
  }

  /** The identities a transaction may book to. */
  ghost function Entitled(current: NormalizedConfig, desired: NormalizedConfig): iset<Key> {
    iset k: Key |
      if k.tag in current.inbounds then
        k.node == current.inbounds[k.tag].node && k.protocol == current.inbounds[k.tag].protocol
      else
        k.tag in desired.inbounds && k.node == k.tag && k.protocol == desired.inbounds[k.tag].protocol
  }

  /** The fixed setting of one transaction. */
  datatype Tx = Tx(current: NormalizedConfig, desired: NormalizedConfig, start: Plane, books: Books)

  ghost predicate GoodTx(tx: Tx) {
    && Normal(tx.current) && Normal(tx.desired) && Matches(tx.start, tx.current)
    && tx.books.mine == Entitled(tx.current, tx.desired)
  }

  /** What holds at every moment of a transaction, also after a failed step. */
  ghost predicate Safe(engine: Engine, pending: PendingTraffic, tx: Tx, journal: seq<Undo>)
    reads engine, pending
  {
    && Sound(engine, pending, tx.books) && JournalOwned(journal, tx.current, tx.desired, tx.books.mine)
    && KeepsAuthority(tx.start, engine.authority) && Tracked(engine.plane, tx.current, map[], journal)
  }

  /** Between steps, undoing the journal leads back to the starting plane. */
  ghost predicate Live(engine: Engine, pending: PendingTraffic, tx: Tx, journal: seq<Undo>)
    reads engine, pending
  {
    && Safe(engine, pending, tx, journal) && Rewinds(journal, engine.plane, tx.start)
    && (journal == [] ==> engine.mutations == tx.books.mutations)
  }

  /** After a failed step that was locally restored, the same is true. */
  ghost predicate Halted(engine: Engine, pending: PendingTraffic, tx: Tx, journal: seq<Undo>, f: StepFailure)
    reads engine, pending
  {
    && Safe(engine, pending, tx, journal) && (f.restored ==> Rewinds(journal, engine.plane, tx.start))
    && (f.restored ==> f.rollbackErrors == 0) && (engine.healthy ==> f.restored) && Earned(engine, f.cause)
    && (!f.changed ==> f.restored && (journal == [] ==> engine.mutations == tx.books.mutations))
  }

  lemma OwnsPublished(tx: Tx, tag: Tag)
    requires GoodTx(tx) && tag in tx.current.inbounds
    ensures Owns(tx.books.mine, tx.current.inbounds[tag]) && Accounts(tx.current, tx.current.inbounds[tag])
  {
  }

  lemma OwnsUncommitted(tx: Tx, tag: Tag)
    requires GoodTx(tx) && tag in tx.desired.inbounds
    ensures var owner := UncommittedOwner(Published(tx.current, tag), tx.desired.inbounds[tag]);
      owner.tag == tag && Owns(tx.books.mine, owner) && Accounts(tx.current, owner)
  {
  }

  /** A step and its undo: a candidate that was started, a user that was written, or registries that
      nobody has joined. */
  ghost predicate Logged(u: Undo, before: Plane, after: Plane) {
    forall t | t in after ::
      if Removes(u, t) then after[t] == SlotFor(u.live, after[t].lineage)
      else if u.UndoRemoveUser? && u.candidate.tag == t then
        && t in before && (after[t].users.Some? <==> before[t].users.Some?)
        && Billable(after[t]) <= Billable(before[t]) + {u.id}
      else Fewer(before, after, t)
  }

  /** Nothing was started yet: every listener is still published. */
  ghost predicate NoStarts(journal: seq<Undo>) {
    forall i | 0 <= i < |journal| :: !journal[i].UndoRemoveInbound?
  }

  lemma CoveredPush(s: Slot, t: Tag, tx: Tx, journal: seq<Undo>, u: Undo)
    requires Covered(s, t, tx.current, map[], journal) && !Removes(u, t)
    ensures Covered(s, t, tx.current, map[], journal + [u])
  {
    hide Billable, Labelled, BilledTo;
    DoomedPush(journal, u, t);
    AdmittedPush(journal, u, t);
    OlderEntries(journal, u);
  }

  lemma CoveredStart(s: Slot, t: Tag, tx: Tx, journal: seq<Undo>, u: Undo)
    requires JournalOwned(journal + [u], tx.current, tx.desired, tx.books.mine)
    requires Removes(u, t) && s == SlotFor(u.live, s.lineage)
    ensures Covered(s, t, tx.current, map[], journal + [u])
  {
    hide Owns, Accounts;
    DoomedPush(journal, u, t);
    OlderOwned(journal, u, tx.current, tx.desired, tx.books.mine);
    forall i | 0 <= i < |journal + [u]| && Removes((journal + [u])[i], t) && s.users.Some?
      ensures Names(Some(Retiring((journal + [u])[i].live, (journal + [u])[i].accounting)), s, {})
    {
      assert UndoOwned((journal + [u])[i], tx.current, tx.desired, tx.books.mine);
    }
  }

  lemma CoveredWrite(before: Slot, after: Slot, t: Tag, tx: Tx, journal: seq<Undo>, u: Undo)
    requires JournalOwned(journal + [u], tx.current, tx.desired, tx.books.mine)
    requires Covered(before, t, tx.current, map[], journal) && u.UndoRemoveUser? && u.candidate.tag == t
    requires (after.users.Some? <==> before.users.Some?) && Billable(after) <= Billable(before) + {u.id}
    ensures Covered(after, t, tx.current, map[], journal + [u])
  {
    hide Billable, Owns, BilledTo, Admitted;
    DoomedPush(journal, u, t);
    AdmittedPush(journal, u, t);
    OlderEntries(journal, u);
    OlderOwned(journal, u, tx.current, tx.desired, tx.books.mine);
    forall i | 0 <= i < |journal| && Removes(journal[i], t) && after.users.Some?
      ensures Names(Some(Retiring(journal[i].live, journal[i].accounting)), after, {})
    {
      assert UndoOwned(journal[i], tx.current, tx.desired, tx.books.mine);
    }
  }

  lemma OwnedPush(journal: seq<Undo>, u: Undo, tx: Tx)
    requires JournalOwned(journal, tx.current, tx.desired, tx.books.mine)
    requires UndoOwned(u, tx.current, tx.desired, tx.books.mine) && (u.UndoAddInbound? ==> NoStarts(journal))
    ensures JournalOwned(journal + [u], tx.current, tx.desired, tx.books.mine)
  {
    hide UndoOwned;
    OlderEntries(journal, u);
  }

  lemma JournalPush(journal: seq<Undo>, u: Undo, before: Plane, after: Plane, tx: Tx)
    requires JournalOwned(journal, tx.current, tx.desired, tx.books.mine)
    requires UndoOwned(u, tx.current, tx.desired, tx.books.mine) && (u.UndoAddInbound? ==> NoStarts(journal))
    requires Tracked(before, tx.current, map[], journal) && Logged(u, before, after)
    ensures JournalOwned(journal + [u], tx.current, tx.desired, tx.books.mine)
    ensures Tracked(after, tx.current, map[], journal + [u])
  {
    hide UndoOwned, JournalOwned, Covered, Billable, Fewer;
    OwnedPush(journal, u, tx);
    forall t | t in after ensures Covered(after[t], t, tx.current, map[], journal + [u]) {
      if Removes(u, t) {
        CoveredStart(after[t], t, tx, journal, u);
      } else if u.UndoRemoveUser? && u.candidate.tag == t {
        CoveredWrite(before[t], after[t], t, tx, journal, u);
      } else {
        FewerHad(before, after, t);
        CoveredFewer(before, after, t, tx.current, map[], journal);
        CoveredPush(after[t], t, tx, journal, u);
      }
    }
    KnownPush(journal, u, before, after, tx);
  }

  lemma KnownPush(journal: seq<Undo>, u: Undo, before: Plane, after: Plane, tx: Tx)
    requires before.Keys <= tx.current.inbounds.Keys + Candidates(journal) && Logged(u, before, after)
    ensures after.Keys <= tx.current.inbounds.Keys + Candidates(journal + [u])
  {
    hide Billable;
    assert (journal + [u])[..|journal|] == journal;
    assert Candidates(journal + [u]) == Candidates(journal) + (if u.UndoRemoveInbound? then {u.live.tag} else {});
    forall t | t in after.Keys ensures t in tx.current.inbounds.Keys + Candidates(journal + [u]) {
      assert Removes(u, t) || t in before.Keys;
    }
  }

  // ---------------------------------------------------------------- stopping one published inbound

  lemma StoppedReady(tx: Tx, plane: Plane, authority: map<Tag, nat>, tag: Tag)
    requires GoodTx(tx) && GoodPlane(plane, authority)
    requires tag in tx.start && tag in plane && plane[tag] == tx.start[tag]
    ensures var u := UndoAddInbound(tx.current.inbounds[tag], Lease(tag, tx.start[tag].lineage));
      && Ready(u, plane - {tag}, tx.start) && Undone(u, plane - {tag}) == plane
      && UndoOwned(u, tx.current, tx.desired, tx.books.mine)
    ensures Recorded(plane, tx.current.inbounds[tag]) && tx.current.inbounds[tag].tag == tag
    ensures plane[tag].draining == {}
  {
  }

  method StopPublished(engine: Engine, pending: PendingTraffic, ghost tx: Tx, journal: seq<Undo>, oldInbound: Inbound,
                       lease: Lease)
    returns (f: Option<StepFailure>, journal': seq<Undo>)
    requires GoodTx(tx) && Live(engine, pending, tx, journal) && NoStarts(journal)
    requires oldInbound.tag in tx.start && oldInbound == tx.current.inbounds[oldInbound.tag]
    requires Leased(tx.start, oldInbound.tag, lease)
    requires oldInbound.tag in engine.plane && engine.plane[oldInbound.tag] == tx.start[oldInbound.tag]
    modifies engine, pending
    ensures engine.Lossless()
    ensures f.None? ==>
      Live(engine, pending, tx, journal') && engine.plane == old(engine.plane) - {oldInbound.tag} && journal' != []
        && NoStarts(journal')
    ensures f.Some? ==> Halted(engine, pending, tx, journal', f.value)
    ensures engine.healthy ==> f.None? || f.value.cause.NoCapacity()
  {
    hide GoodPlane, Ready, Undone, UndoOwned, Balanced, BookedOnly, Settled, Owns, GoodTx, Recorded, JournalOwned;
    hide Tracked, KeepsAuthority;
    StoppedReady(tx, engine.plane, engine.authority, oldInbound.tag);
    OwnsPublished(tx, oldInbound.tag);
    journal' := journal;
    f := StopInbound(engine, pending, tx.books, oldInbound, oldInbound);
    if f.Some? {
      TrackedSame(old(engine.plane), engine.plane, tx, journal, oldInbound.tag);
      return;
    }
    var u := UndoAddInbound(oldInbound, lease);
    JournalPush(journal, u, old(engine.plane), engine.plane, tx);
    RewindsPush(journal, u, old(engine.plane), engine.plane, tx.start);
    journal' := journal + [u];
  }

  lemma TrackedSame(before: Plane, after: Plane, tx: Tx, journal: seq<Undo>, tag: Tag)
    requires Tracked(before, tx.current, map[], journal) && SameListeners(before, after, tag)
    requires Fewer(before, after, tag)
    ensures Tracked(after, tx.current, map[], journal)
  {
    hide Covered, Billable, Fewer;
    forall t | t in after ensures Covered(after[t], t, tx.current, map[], journal) {
      if t == tag {
        CoveredFewer(before, after, t, tx.current, map[], journal);
      }
    }
  }

  // ---------------------------------------------------------------- starting one candidate

  lemma StartedReady(tx: Tx, plane: Plane, tag: Tag, lineage: nat)
    requires GoodTx(tx) && tag in tx.desired.inbounds && tag !in plane
    ensures var newInbound := tx.desired.inbounds[tag];
      var u := UndoRemoveInbound(newInbound, UncommittedOwner(Published(tx.current, tag), newInbound));
      var after := plane[tag := SlotFor(newInbound, lineage)];
      Ready(u, after, tx.start) && Undone(u, after) == plane && UndoOwned(u, tx.current, tx.desired, tx.books.mine)
    ensures GoodInbound(tx.desired.inbounds[tag]) && tx.desired.inbounds[tag].tag == tag
  {
    OwnsUncommitted(tx, tag);
  }

  /** A lease is held for exactly the tags that were live at the start. */
  ghost predicate LeaseFor(tx: Tx, tag: Tag, lease: Option<Lease>) {
    if tag in tx.start then lease == Some(Lease(tag, tx.start[tag].lineage)) else lease.None?
  }

  /** The slot a candidate ends up in: its own config and users, the tag's own replay namespace. */
  ghost predicate Installed(tx: Tx, plane: Plane, tag: Tag) {
    && tag in plane && tag in tx.desired.inbounds
    && plane[tag] == SlotFor(tx.desired.inbounds[tag], plane[tag].lineage)
    && (tag in tx.start ==> plane[tag].lineage == tx.start[tag].lineage)
  }

  /** Neither the tag nor a socket of the inbound is taken. */
  ghost predicate Clear(plane: Plane, i: Inbound) {
    i.tag !in plane && BindsFree(plane, i.config.binds)
  }

  method StartCandidate(engine: Engine, pending: PendingTraffic, ghost tx: Tx, journal: seq<Undo>,
                        published: Option<Inbound>, newInbound: Inbound, lease: Option<Lease>)
    returns (f: Option<StepFailure>, journal': seq<Undo>)
    requires GoodTx(tx) && Live(engine, pending, tx, journal)
    requires newInbound.tag in tx.desired.inbounds && newInbound == tx.desired.inbounds[newInbound.tag]
    requires published == Published(tx.current, newInbound.tag) && LeaseFor(tx, newInbound.tag, lease)
    modifies engine, pending
    ensures engine.Lossless()
    ensures f.None? ==>
      && Live(engine, pending, tx, journal') && newInbound.tag !in old(engine.plane) && journal' != []
      && Installed(tx, engine.plane, newInbound.tag)
      && engine.plane == old(engine.plane)[newInbound.tag := engine.plane[newInbound.tag]]
    ensures f.Some? ==> Halted(engine, pending, tx, journal', f.value)
    ensures engine.healthy && Clear(old(engine.plane), newInbound) ==> f.None? || f.value.cause.NoCapacity()
  {
    hide Sound, Ready, Undone, UndoOwned, JournalOwned, Tracked, Rewinds, KeepsAuthority, UncommittedOwner;
    hide GoodTx, GoodPlane, BindsFree, AddRefusal, Installed, SlotFor, LeaseFor, Crowded, Earned, Later;
    journal' := journal;
    Startable(tx, engine.plane, engine.authority, newInbound, lease);
    var r := StartInbound(engine, pending, tx.books, newInbound, lease);
    if r.Some? {
      if r.value.LineageLimit? {
        EarnedCrowded(engine, newInbound.tag, lease);
        return Some(Unchanged(NamespacesFull)), journal;
      }
      EarnedOther(engine, EngineFailed(r.value));
      return Some(Unchanged(EngineFailed(r.value))), journal;
    }
    Started(tx, old(engine.plane), old(engine.authority), engine.authority, newInbound.tag, lease);
    StartedReady(tx, old(engine.plane), newInbound.tag, engine.authority[newInbound.tag]);
    var u := UndoRemoveInbound(newInbound, UncommittedOwner(published, newInbound));
    JournalPush(journal, u, old(engine.plane), engine.plane, tx);
    RewindsPush(journal, u, old(engine.plane), engine.plane, tx.start);
    f, journal' := None, journal + [u];
  }

  /** Only the engine's table of replay namespaces can refuse a candidate on free sockets. */
  lemma Startable(tx: Tx, plane: Plane, authority: map<Tag, nat>, newInbound: Inbound, lease: Option<Lease>)
    requires GoodTx(tx) && KeepsAuthority(tx.start, authority) && newInbound.tag in tx.desired.inbounds
    requires newInbound == tx.desired.inbounds[newInbound.tag] && LeaseFor(tx, newInbound.tag, lease)
    ensures newInbound.tag in plane ==> AddRefusal(plane, authority, newInbound, lease).Some?
    ensures newInbound.tag !in plane && BindsFree(plane, newInbound.config.binds) ==>
      AddRefusal(plane, authority, newInbound, lease).None?
  {
    hide BindsFree, GoodInbound;
    assert GoodInbound(tx.desired.inbounds[newInbound.tag]);
  }

  lemma Started(tx: Tx, plane: Plane, before: map<Tag, nat>, after: map<Tag, nat>, tag: Tag, lease: Option<Lease>)
    requires KeepsAuthority(tx.start, before) && tag in tx.desired.inbounds && LeaseFor(tx, tag, lease)
    requires tag in after && after == before[tag := after[tag]]
    requires lease.Some? ==> after == before && after[tag] == lease.value.lineage
    ensures KeepsAuthority(tx.start, after)
    ensures Installed(tx, plane[tag := SlotFor(tx.desired.inbounds[tag], after[tag])], tag)
  {
  }

  // ---------------------------------------------------------------- whole phases

  ghost predicate Distinct(tags: seq<Tag>) {
    forall i, j | 0 <= i < j < |tags| :: tags[i] != tags[j]
  }

  /** Stop every listed inbound, keeping a lease on each replay namespace; leases already held
      are the ones journalled. */
  method StopAll(engine: Engine, pending: PendingTraffic, ghost tx: Tx, current: NormalizedConfig, tags: seq<Tag>,
                 held: map<Tag, Lease>, entries: seq<Undo>)
    returns (f: Option<StepFailure>, journal: seq<Undo>, leases: map<Tag, Lease>)
    requires GoodTx(tx) && Live(engine, pending, tx, entries) && current == tx.current && Distinct(tags)
    requires NoStarts(entries)
    requires forall i | 0 <= i < |tags| ::
      tags[i] in tx.start && tags[i] in engine.plane && engine.plane[tags[i]] == tx.start[tags[i]]
    requires forall t | t in held :: Leased(tx.start, t, held[t])
    modifies engine, pending
    ensures engine.Lossless()
    ensures f.None? ==> Live(engine, pending, tx, journal) && engine.plane == Less(old(engine.plane), tags)
    ensures f.None? ==> NoStarts(journal)
    ensures f.None? ==> leases.Keys == (set t | t in tags) && forall t | t in leases :: Leased(tx.start, t, leases[t])
    ensures f.None? ==> forall i | 0 <= i < |tags| :: PaidUp(engine.lost, engine.gone, old(engine.counted), tags[i])
    ensures f.Some? ==> Halted(engine, pending, tx, journal, f.value)
    ensures engine.healthy ==> f.None? || f.value.cause.NoCapacity()
  {
    hide Sound, Rewinds, JournalOwned, KeepsAuthority, Tracked, Later, PaidUp;
    f, journal, leases := None, entries, map[];
    LaterSame(engine.Account());
    for i := 0 to |tags|
      invariant engine.Lossless()
      invariant Live(engine, pending, tx, journal) && f.None? && NoStarts(journal)
      invariant engine.plane == Less(old(engine.plane), tags[..i])
      invariant leases.Keys == (set t | t in tags[..i]) && forall t | t in leases :: Leased(tx.start, t, leases[t])
    {
      var tag := tags[i];
      assert tag !in tags[..i];
      LessHas(old(engine.plane), tags[..i], tag);
      var lease;
      if tag in held {
        lease := held[tag];
      } else {
        ghost var before := engine.Account();
        var preserved := PreserveLease(engine, pending, tx.books, tag);
        LaterOn(old(engine.Account()), before, engine.Account());
        lease := preserved.value;
      }
      ghost var was := engine.Account();
      f, journal := StopPublished(engine, pending, tx, journal, current.inbounds[tag], lease);
      LaterOn(old(engine.Account()), was, engine.Account());
      if f.Some? {
        return;
      }
      leases := leases[tag := lease];
      assert tags[..i + 1][..i] == tags[..i];
      assert tags[..i + 1] == tags[..i] + [tag];
    }
    assert tags[..|tags|] == tags;
    StoppedPaid(engine, pending, tx.books, old(engine.Account()), old(engine.plane), tags);
  }

  /** Stopped inbounds owe nothing: their counters went with a receipt. */
  lemma StoppedPaid(engine: Engine, pending: PendingTraffic, x: Books, before: Ledger, plane: Plane, tags: seq<Tag>)
    requires Sound(engine, pending, x) && Later(before, engine.Account()) && engine.plane == Less(plane, tags)
    ensures forall i | 0 <= i < |tags| :: PaidUp(engine.lost, engine.gone, before.counted, tags[i])
  {
    hide Later, PaidUp, Balanced, BookedOnly, Less, GoodPlane, Registered;
    forall i | 0 <= i < |tags| ensures PaidUp(engine.lost, engine.gone, before.counted, tags[i]) {
      var tag := tags[i];
      LessHas(plane, tags, tag);
      AbsentPaid(engine, before, tag);
    }
  }

  /** Every socket of the listed candidates is free, also with respect to each other. */
  ghost predicate RoomFor(tx: Tx, plane: Plane, tags: seq<Tag>) {
    && DisjointBinds(tx.desired)
    && forall i | 0 <= i < |tags| ::
      tags[i] in tx.desired.inbounds && tags[i] !in plane && BindsFree(plane, tx.desired.inbounds[tags[i]].config.binds)
  }

  /** The plane gained exactly the first `n` listed candidates. */
  ghost predicate Gained(tx: Tx, before: Plane, after: Plane, tags: seq<Tag>, n: nat) {
    && n <= |tags|
    && (forall t | t in before :: t in after && after[t] == before[t])
    && (forall i | 0 <= i < n :: Installed(tx, after, tags[i]))
    && (forall t | t in after :: t in before || t in tags[..n])
  }

  lemma GainedStep(tx: Tx, before: Plane, mid: Plane, after: Plane, tags: seq<Tag>, n: nat)
    requires Gained(tx, before, mid, tags, n) && n < |tags| && tags[n] !in mid
    requires Installed(tx, after, tags[n]) && after == mid[tags[n] := after[tags[n]]]
    ensures Gained(tx, before, after, tags, n + 1)
  {
    assert forall i | 0 <= i < n :: Installed(tx, mid, tags[i]);
    assert tags[..n + 1] == tags[..n] + [tags[n]];
  }

  lemma GainedRoom(tx: Tx, before: Plane, mid: Plane, tags: seq<Tag>, n: nat)
    requires Gained(tx, before, mid, tags, n) && RoomFor(tx, before, tags) && Distinct(tags) && n < |tags|
    ensures tags[n] !in mid && BindsFree(mid, tx.desired.inbounds[tags[n]].config.binds)
  {
    var next := tags[n];
    assert next !in before && next !in tags[..n];
    forall t | t in mid ensures mid[t].config.binds !! tx.desired.inbounds[tags[n]].config.binds {
      if t !in before {
        assert t in tags[..n];
        var i :| 0 <= i < n && t == tags[i];
        assert Installed(tx, mid, tags[i]);
      }
    }
  }

  /** Start every listed candidate. */
  method StartAll(engine: Engine, pending: PendingTraffic, ghost tx: Tx, current: NormalizedConfig,
                  desired: NormalizedConfig, tags: seq<Tag>,
                  leases: map<Tag, Lease>, entries: seq<Undo>)
    returns (f: Option<StepFailure>, journal: seq<Undo>)
    requires GoodTx(tx) && Live(engine, pending, tx, entries) && current == tx.current && desired == tx.desired
    requires Distinct(tags)
    requires forall i | 0 <= i < |tags| ::
      tags[i] in desired.inbounds && LeaseFor(tx, tags[i], if tags[i] in leases then Some(leases[tags[i]]) else None)
    modifies engine, pending
    ensures engine.Lossless()
    ensures f.None? ==> Live(engine, pending, tx, journal) && Gained(tx, old(engine.plane), engine.plane, tags, |tags|)
    ensures f.Some? ==> Halted(engine, pending, tx, journal, f.value)
    ensures engine.healthy && RoomFor(tx, old(engine.plane), tags) ==> f.None? || f.value.cause.NoCapacity()
  {
    hide Live, Halted, Installed, BindsFree, DisjointBinds, LeaseFor, Later;
    LaterSame(engine.Account());
    f, journal := None, entries;
    for i := 0 to |tags|
      invariant engine.Lossless()
      invariant Live(engine, pending, tx, journal) && f.None?
      invariant Gained(tx, old(engine.plane), engine.plane, tags, i)
    {
      var tag := tags[i];
      ghost var mid := engine.plane;
      ghost var was := engine.Account();
      if RoomFor(tx, old(engine.plane), tags) {
        GainedRoom(tx, old(engine.plane), mid, tags, i);
      }
      NormalTag(tx, tag);
      f, journal := StartCandidate(engine, pending, tx, journal, Published(current, tag), desired.inbounds[tag],
                                   if tag in leases then Some(leases[tag]) else None);
      LaterOn(old(engine.Account()), was, engine.Account());
      if f.Some? {
        return;
      }
      GainedStep(tx, old(engine.plane), mid, engine.plane, tags, i);
    }
  }

  lemma NormalTag(tx: Tx, tag: Tag)
    requires GoodTx(tx) && tag in tx.desired.inbounds
    ensures tx.desired.inbounds[tag].tag == tag
  {
  }

  /** What a successful transaction leaves: the desired topology, every surviving tag still in its
      own replay namespace. */
  ghost predicate Reached(tx: Tx, plane: Plane) {
    Matches(plane, tx.desired) && forall t | t in plane && t in tx.start :: plane[t].lineage == tx.start[t].lineage
  }

  lemma OrderedDistinct(s: set<Tag>)
    ensures Distinct(Ordered(s)) && (forall i | 0 <= i < |Ordered(s)| :: Ordered(s)[i] in s)
  {
    var r := Ordered(s);
    assert forall i | 0 <= i < |r| :: r[i] in r;
  }

  lemma LessEverything(plane: Plane, tags: seq<Tag>)
    requires forall t | t in plane :: t in tags
    ensures Less(plane, tags) == map[]
  {
    forall t ensures t !in Less(plane, tags) { LessHas(plane, tags, t); }
  }

  lemma GainedReached(tx: Tx, plane: Plane)
    requires Gained(tx, map[], plane, Ordered(tx.desired.inbounds.Keys), |tx.desired.inbounds.Keys|)
    ensures Reached(tx, plane)
  {
    hide Ordered;
    var tags := Ordered(tx.desired.inbounds.Keys);
    OrderedDistinct(tx.desired.inbounds.Keys);
    assert tags[..|tags|] == tags;
    forall t | t in plane ensures Installed(tx, plane, t) {
      var i :| 0 <= i < |tags| && tags[i] == t;
    }
    forall t | t in tx.desired.inbounds ensures t in plane {
      var i :| 0 <= i < |tags| && tags[i] == t;
      assert Installed(tx, plane, tags[i]);
    }
    assert plane.Keys <= tx.desired.inbounds.Keys by {
      forall t | t in plane.Keys ensures t in tx.desired.inbounds.Keys {
        assert Installed(tx, plane, t);
      }
    }
  }

  /** `execute_full_reload`: every old listener stops before the first candidate starts. */
  method ExecuteFullReload(engine: Engine, pending: PendingTraffic, ghost tx: Tx, current: NormalizedConfig,
                           desired: NormalizedConfig)
    returns (f: Option<StepFailure>, journal: seq<Undo>)
    requires GoodTx(tx) && Live(engine, pending, tx, []) && current == tx.current && desired == tx.desired
    modifies engine, pending
    ensures engine.Lossless()
    ensures f.None? ==> Safe(engine, pending, tx, journal) && Reached(tx, engine.plane) && engine.outdated == {}
    ensures f.None? ==> forall t | t in tx.start :: PaidUp(engine.lost, engine.gone, old(engine.counted), t)
    ensures f.Some? ==> Halted(engine, pending, tx, journal, f.value)
    ensures engine.healthy && DisjointBinds(desired) ==> f.None? || f.value.cause.NoCapacity()
  {
    hide Sound, JournalOwned, KeepsAuthority, Tracked, Halted, Gained, Ordered, DisjointBinds, Less, GoodTx, Leased;
    hide LeaseFor, Reached, RoomFor, Later, PaidUp;
    var stop, start := Ordered(current.inbounds.Keys), Ordered(desired.inbounds.Keys);
    AllStoppable(tx, stop);
    OrderedDistinct(desired.inbounds.Keys);
    var leases;
    f, journal, leases := StopAll(engine, pending, tx, current, stop, map[], []);
    if f.Some? {
      return;
    }
    LessEverything(old(engine.plane), stop);
    NothingOutdated(engine, pending, tx.books);
    AllStartable(tx, stop, start, leases);
    ghost var mid, lost := engine.Account(), engine.lost;
    f, journal := StartAll(engine, pending, tx, current, desired, start, leases, journal);
    LaterOn(old(engine.Account()), mid, engine.Account());
    if f.None? {
      GainedReached(tx, engine.plane);
      StillPaid(tx, stop, lost, mid, engine.lost, engine.Account(), old(engine.counted));
    }
  }

  lemma StillPaid(tx: Tx, tags: seq<Tag>, lost: bool, a: Ledger, lost': bool, b: Ledger, metered: map<UserKey, Bytes>)
    requires (forall i | 0 <= i < |tags| :: PaidUp(lost, a.gone, metered, tags[i])) && Later(a, b) && (lost ==> lost')
    requires forall t | t in tx.start :: t in tags
    ensures forall t | t in tx.start :: PaidUp(lost', b.gone, metered, t)
  {
    hide Later, PaidUp;
    forall t | t in tx.start ensures PaidUp(lost', b.gone, metered, t) {
      var i :| 0 <= i < |tags| && tags[i] == t;
      PaidUpStill(lost, a, lost', b, metered, t);
    }
  }

  lemma AllStoppable(tx: Tx, tags: seq<Tag>)
    requires GoodTx(tx) && tags == Ordered(tx.current.inbounds.Keys)
    ensures Distinct(tags) && (forall i | 0 <= i < |tags| :: tags[i] in tx.start)
    ensures forall t | t in tx.start :: t in tags
  {
    hide Ordered;
    OrderedDistinct(tx.current.inbounds.Keys);
    forall i | 0 <= i < |tags| ensures tags[i] in tx.start {
      var t := tags[i];
      assert t in tx.start.Keys;
    }
    forall t | t in tx.start ensures t in tags {
      assert t in tx.current.inbounds.Keys;
    }
  }

  /** With everything stopped, every candidate has its lease and all the room it needs. */
  lemma AllStartable(tx: Tx, stopped: seq<Tag>, tags: seq<Tag>, leases: map<Tag, Lease>)
    requires tags == Ordered(tx.desired.inbounds.Keys)
    requires leases.Keys == (set t | t in stopped) && (forall t | t in leases :: Leased(tx.start, t, leases[t]))
    requires forall t | t in tx.start :: t in stopped
    ensures forall i | 0 <= i < |tags| ::
      tags[i] in tx.desired.inbounds && LeaseFor(tx, tags[i], if tags[i] in leases then Some(leases[tags[i]]) else None)
    ensures DisjointBinds(tx.desired) ==> RoomFor(tx, map[], tags)
  {
    hide Ordered, DisjointBinds;
    OrderedDistinct(tx.desired.inbounds.Keys);
    forall i | 0 <= i < |tags|
      ensures tags[i] in tx.desired.inbounds
      ensures LeaseFor(tx, tags[i], if tags[i] in leases then Some(leases[tags[i]]) else None)
    {
      var t := tags[i];
      assert t in tx.desired.inbounds.Keys;
      if t in tx.start {
        assert t in stopped;
        assert t in leases.Keys;
      }
    }
  }

  lemma NothingOutdated(engine: Engine, pending: PendingTraffic, x: Books)
    requires Sound(engine, pending, x)
    ensures engine.plane == map[] ==> engine.outdated == {}
    ensures engine.outdated <= engine.plane.Keys
  {
  }
}
