/** The incremental path of an apply: removals, in-place updates, two-phase replacement, user
    reconciliation, additions and the hand-over of traffic ownership
    (crates/node-agent/src/runtime.rs:1191-1515). */
module Incremental {
  import opened Basics
  import opened Topology
  import opened Accounting
  import opened EngineModel
  import opened Steps
  import opened Journal
  import opened Transaction

  // ---------------------------------------------------------------- what the diff says

  ghost function Kept(tx: Tx): set<Tag> {
    tx.current.inbounds.Keys * tx.desired.inbounds.Keys
  }

  ghost function DeltaFor(tx: Tx, t: Tag): InboundDelta
    requires t in Kept(tx)
  {
    InboundDeltaOf(tx.current.inbounds[t], tx.desired.inbounds[t], tx.current.digest != tx.desired.digest)
  }

  /** What the new registry of a surviving inbound authenticates with. */
  ghost function KindsFor(tx: Tx, t: Tag): Kinds
    requires t in tx.desired.inbounds
  {
    tx.desired.inbounds[t].config.listener.kinds
  }

  /** The inbound stays live: its user mode is kept, and its config is the same or one that the running
      listener can take over. Any other inbound is replaced. */
  predicate Stays(before: Inbound, after: Inbound, digestChanged: bool) {
    && before.dynamic == after.dynamic
    && ((!digestChanged && before.config == after.config) || InPlace(before.config, before.dynamic, after.config))
  }

  ghost predicate StaysLive(tx: Tx, t: Tag)
    requires t in Kept(tx)
  {
    Stays(tx.current.inbounds[t], tx.desired.inbounds[t], tx.current.digest != tx.desired.digest)
  }

  /** The changed deltas are exactly the non-trivial ones, once each. */
  ghost predicate DeltasOf(tx: Tx, deltas: seq<InboundDelta>) {
    && (forall i | 0 <= i < |deltas| :: deltas[i].tag in Kept(tx) && deltas[i] == DeltaFor(tx, deltas[i].tag))
    && (forall i, j | 0 <= i < j < |deltas| :: deltas[i].tag < deltas[j].tag)
    && (forall t | t in Kept(tx) :: (exists i | 0 <= i < |deltas| :: deltas[i].tag == t) || Trivial(DeltaFor(tx, t)))
  }

  ghost predicate AllKept(tx: Tx, tags: seq<Tag>) {
    forall i | 0 <= i < |tags| :: tags[i] in tx.current.inbounds && tags[i] in tx.desired.inbounds
  }

  lemma DeltaTag(tx: Tx, t: Tag)
    requires GoodTx(tx) && t in Kept(tx)
    ensures DeltaFor(tx, t).tag == t
  {
  }

  lemma {:induction false} ChangedAre(tx: Tx, tags: seq<Tag>, i: nat)
    requires GoodTx(tx) && AllKept(tx, tags) && i < |ChangedDeltas(tx.current, tx.desired, tags)|
    ensures var d := ChangedDeltas(tx.current, tx.desired, tags)[i];
      d.tag in tags && d.tag in Kept(tx) && d == DeltaFor(tx, d.tag)
  {
    hide Trivial, InboundDeltaOf, Matches, Entitled, GoodInbound;
    if tags != [] {
      var d := DeltaFor(tx, tags[0]);
      DeltaTag(tx, tags[0]);
      if Trivial(d) {
        ChangedAre(tx, tags[1..], i);
      } else if i > 0 {
        ChangedAre(tx, tags[1..], i - 1);
      }
    }
  }

  lemma {:induction false} ChangedAscend(tx: Tx, tags: seq<Tag>, i: nat, j: nat)
    requires GoodTx(tx) && AllKept(tx, tags) && Ascending(tags)
    requires i < j < |ChangedDeltas(tx.current, tx.desired, tags)|
    ensures var ds := ChangedDeltas(tx.current, tx.desired, tags); ds[i].tag < ds[j].tag
  {
    hide Trivial, InboundDeltaOf, Matches, Entitled, GoodInbound;
    if tags != [] {
      var d := DeltaFor(tx, tags[0]);
      DeltaTag(tx, tags[0]);
      if Trivial(d) {
        ChangedAscend(tx, tags[1..], i, j);
      } else if i > 0 {
        ChangedAscend(tx, tags[1..], i - 1, j - 1);
      } else {
        ChangedAre(tx, tags[1..], j - 1);
      }
    }
  }

  lemma {:induction false} ChangedCover(tx: Tx, tags: seq<Tag>, t: Tag) returns (i: nat)
    requires GoodTx(tx) && AllKept(tx, tags) && t in tags
    ensures t in Kept(tx)
    ensures var ds := ChangedDeltas(tx.current, tx.desired, tags);
      Trivial(DeltaFor(tx, t)) || (i < |ds| && ds[i].tag == t)
  {
    hide Trivial, InboundDeltaOf, Matches, Entitled, GoodInbound;
    i := 0;
    var d := DeltaFor(tx, tags[0]);
    DeltaTag(tx, tags[0]);
    if t != tags[0] {
      i := ChangedCover(tx, tags[1..], t);
      i := if Trivial(d) then i else i + 1;
    }
  }

  lemma DiffDeltas(tx: Tx)
    requires GoodTx(tx)
    ensures DeltasOf(tx, DiffConfigs(tx.current, tx.desired).changed)
  {
    hide Trivial, Ordered, ChangedDeltas, GoodTx;
    var tags := Ordered(Kept(tx));
    assert forall i | 0 <= i < |tags| :: tags[i] in tags;
    var ds := ChangedDeltas(tx.current, tx.desired, tags);
    assert DiffConfigs(tx.current, tx.desired).changed == ds;
    forall i | 0 <= i < |ds| ensures ds[i].tag in Kept(tx) && ds[i] == DeltaFor(tx, ds[i].tag) {
      ChangedAre(tx, tags, i);
    }
    forall i, j | 0 <= i < j < |ds| ensures ds[i].tag < ds[j].tag {
      ChangedAscend(tx, tags, i, j);
    }
    forall t | t in Kept(tx) ensures (exists i | 0 <= i < |ds| :: ds[i].tag == t) || Trivial(DeltaFor(tx, t)) {
      var i := ChangedCover(tx, tags, t);
    }
  }

  lemma OrderedNone(s: set<Name>)
    requires Ordered(s) == []
    ensures s == {}
  {
  }

  /** A trivial delta means nothing differs. */
  lemma TrivialSame(before: Inbound, after: Inbound, digestChanged: bool)
    requires Trivial(InboundDeltaOf(before, after, digestChanged))
    ensures before.config == after.config && before.dynamic == after.dynamic && before.users == after.users
    ensures !digestChanged
  {
    hide Ordered, Deltas;
    NothingToReconcile(before, after, digestChanged);
  }

  // ---------------------------------------------------------------- in-place updates

  /** A kept inbound with its new rules and its old registry. */
  ghost function Updated(tx: Tx, t: Tag): Slot
    requires t in tx.start && t in tx.desired.inbounds
  {
    tx.start[t].(config := tx.desired.inbounds[t].config)
  }

  lemma HotReady(tx: Tx, plane: Plane, tag: Tag)
    requires GoodTx(tx) && tag in Kept(tx) && tag in plane && plane[tag] == tx.start[tag]
    requires tx.current.inbounds[tag].config.binds == tx.desired.inbounds[tag].config.binds
    requires tx.current.inbounds[tag].dynamic == tx.desired.inbounds[tag].dynamic
    ensures
      var lease := Lease(tag, tx.start[tag].lineage);
      var u := UndoRestoreHot(tx.desired.inbounds[tag], tx.current.inbounds[tag], lease);
      var after := plane[tag := Updated(tx, tag)];
      && Ready(u, after, tx.start) && Undone(u, after) == plane
      && UndoOwned(u, tx.current, tx.desired, tx.books.mine) && Logged(u, plane, after)
  {
    OwnsPublished(tx, tag);
  }

  lemma KeptTag(tx: Tx, tag: Tag)
    requires GoodTx(tx) && tag in Kept(tx)
    ensures tag in tx.start && tx.current.inbounds[tag].tag == tag && tx.desired.inbounds[tag].tag == tag
    ensures tx.start[tag] == SlotFor(tx.current.inbounds[tag], tx.start[tag].lineage)
  {
  }

  /** One changed inbound: swap its rules in place, or set it aside for replacement. */
  method HotUpdate(engine: Engine, pending: PendingTraffic, ghost tx: Tx, d: InboundDelta, before: Inbound,
                   after: Inbound, journal: seq<Undo>)
    returns (f: Option<StepFailure>, journal': seq<Undo>, replace: Option<Lease>)
    requires GoodTx(tx) && Live(engine, pending, tx, journal)
    requires d.tag in Kept(tx) && d == DeltaFor(tx, d.tag)
    requires before == tx.current.inbounds[d.tag] && after == tx.desired.inbounds[d.tag]
    requires d.tag in engine.plane && d.tag in tx.start && engine.plane[d.tag] == tx.start[d.tag]
    modifies engine, pending
    ensures engine.Lossless()
    ensures f.None? ==> Live(engine, pending, tx, journal') && (NoStarts(journal) ==> NoStarts(journal'))
    ensures f.None? && replace.Some? ==>
      engine.plane == old(engine.plane) && Leased(tx.start, d.tag, replace.value) && !StaysLive(tx, d.tag)
    ensures f.None? && replace.None? ==>
      engine.plane == old(engine.plane)[d.tag := Updated(tx, d.tag)] && StaysLive(tx, d.tag)
    ensures f.Some? ==> Halted(engine, pending, tx, journal', f.value)
    ensures engine.healthy ==> f.None?
  {
    hide Sound, Ready, Undone, UndoOwned, JournalOwned, Tracked, KeepsAuthority, GoodTx, Ordered, Deltas, Later, Earned;
    hide Logged, Rewinds;
    KeptTag(tx, d.tag);
    LaterSame(engine.Account());
    f, journal', replace := None, journal, None;
    if !d.userModeChanged && !d.configChanged {
      return;
    }
    var lease := PreserveLease(engine, pending, tx.books, d.tag);
    if d.userModeChanged {
      replace := Some(lease.value);
      return;
    }
    ghost var was := engine.Account();
    var r := SwapRules(engine, pending, tx.books, d.tag, after.config);
    LaterOn(old(engine.Account()), was, engine.Account());
    if r.Some? {
      if r.value.ReloadRequired? {
        replace := Some(lease.value);
      } else {
        EarnedOther(engine, EngineFailed(r.value));
        f := Some(Unchanged(EngineFailed(r.value)));
      }
      return;
    }
    HotReady(tx, old(engine.plane), d.tag);
    var u := UndoRestoreHot(after, before, lease.value);
    JournalPush(journal, u, old(engine.plane), engine.plane, tx);
    RewindsPush(journal, u, old(engine.plane), engine.plane, tx.start);
    journal' := journal + [u];
  }

  /** Part way through the updates: processed inbounds carry their new rules, inbounds set aside
      and inbounds not reached are untouched. */
  ghost predicate HotState(tx: Tx, plane: Plane, done: set<Tag>, replaced: seq<Tag>) {
    && plane.Keys == Kept(tx) && Kept(tx) <= tx.start.Keys && done <= Kept(tx)
    && (forall t | t in plane :: plane[t] == if t in done && t !in replaced then Updated(tx, t) else tx.start[t])
    && (forall t | t in done && t !in replaced :: StaysLive(tx, t))
  }

  /** The inbounds set aside for replacement: distinct, leased, and none that could have stayed live. */
  ghost predicate SetAside(tx: Tx, replaced: seq<Tag>, leases: map<Tag, Lease>, done: set<Tag>) {
    && Ascending(replaced) && done <= Kept(tx)
    && (forall i | 0 <= i < |replaced| :: replaced[i] in done && replaced[i] in leases)
    && (forall t | t in leases :: t in replaced && Leased(tx.start, t, leases[t]))
    && (forall t | t in done && t in replaced :: !StaysLive(tx, t))
  }

  lemma HotStep(tx: Tx, before: Plane, after: Plane, done: set<Tag>, replaced: seq<Tag>, leases: map<Tag, Lease>,
                tag: Tag, replace: Option<Lease>)
    requires HotState(tx, before, done, replaced) && SetAside(tx, replaced, leases, done)
    requires tag in Kept(tx) && forall t | t in done :: t < tag
    requires replace.Some? ==>
      after == before && Leased(tx.start, tag, replace.value) && !StaysLive(tx, tag)
    requires replace.None? ==>
      after == before[tag := Updated(tx, tag)] && StaysLive(tx, tag)
    ensures replace.None? ==>
      HotState(tx, after, done + {tag}, replaced) && SetAside(tx, replaced, leases, done + {tag})
    ensures replace.Some? ==>
      && HotState(tx, after, done + {tag}, replaced + [tag])
      && SetAside(tx, replaced + [tag], leases[tag := replace.value], done + {tag})
  {
    hide InboundDeltaOf, Updated;
    forall i | 0 <= i < |replaced| ensures replaced[i] < tag {
      var t := replaced[i];
      assert t in done;
    }
    assert tag !in replaced;
  }

  /** After the updates every kept inbound carries its new rules or is set aside. */
  ghost predicate HotDone(tx: Tx, plane: Plane, replaced: seq<Tag>) {
    && plane.Keys == Kept(tx) && Kept(tx) <= tx.start.Keys
    && forall t | t in plane ::
      if t in replaced then plane[t] == tx.start[t]
      else plane[t] == Updated(tx, t) && StaysLive(tx, t)
  }

  lemma HotFinish(tx: Tx, plane: Plane, done: set<Tag>, replaced: seq<Tag>, deltas: seq<InboundDelta>)
    requires GoodTx(tx) && DeltasOf(tx, deltas) && HotState(tx, plane, done, replaced)
    requires forall i | 0 <= i < |deltas| :: deltas[i].tag in done
    ensures HotDone(tx, plane, replaced)
  {
    hide Trivial;
    forall t | t in plane && t !in replaced
      ensures plane[t] == Updated(tx, t) && StaysLive(tx, t)
    {
      if t !in done {
        assert Trivial(DeltaFor(tx, t));
        TrivialSame(tx.current.inbounds[t], tx.desired.inbounds[t], tx.current.digest != tx.desired.digest);
      }
    }
  }

  method HotPhase(engine: Engine, pending: PendingTraffic, ghost tx: Tx, current: NormalizedConfig,
                  desired: NormalizedConfig, deltas: seq<InboundDelta>, entries: seq<Undo>)
    returns (f: Option<StepFailure>, journal: seq<Undo>, replaced: seq<Tag>, leases: map<Tag, Lease>)
    requires GoodTx(tx) && Live(engine, pending, tx, entries) && current == tx.current && desired == tx.desired
    requires DeltasOf(tx, deltas) && HotState(tx, engine.plane, {}, [])
    modifies engine, pending
    ensures engine.Lossless()
    ensures f.None? ==>
      && Live(engine, pending, tx, journal) && (NoStarts(entries) ==> NoStarts(journal))
      && HotDone(tx, engine.plane, replaced) && SetAside(tx, replaced, leases, Kept(tx))
    ensures f.Some? ==> Halted(engine, pending, tx, journal, f.value)
    ensures engine.healthy ==> f.None?
  {
    hide Live, Halted, GoodTx, InboundDeltaOf, Updated, Leased, Later;
    LaterSame(engine.Account());
    f, journal, replaced, leases := None, entries, [], map[];
    ghost var done: set<Tag> := {};
    for i := 0 to |deltas|
      invariant engine.Lossless()
      invariant Live(engine, pending, tx, journal) && f.None? && (NoStarts(entries) ==> NoStarts(journal))
      invariant HotState(tx, engine.plane, done, replaced) && SetAside(tx, replaced, leases, done)
      invariant forall j | 0 <= j < i :: deltas[j].tag in done
      invariant forall t | t in done :: exists j | 0 <= j < i :: deltas[j].tag == t
    {
      var d := deltas[i];
      assert d.tag in Kept(tx);
      forall t | t in done ensures t < d.tag {
        var j :| 0 <= j < i && deltas[j].tag == t;
      }
      ghost var before, was := engine.plane, engine.Account();
      var replace;
      var held, wanted := current.inbounds[d.tag], desired.inbounds[d.tag];
      f, journal, replace := HotUpdate(engine, pending, tx, d, held, wanted, journal);
      LaterOn(old(engine.Account()), was, engine.Account());
      if f.Some? {
        return;
      }
      HotStep(tx, before, engine.plane, done, replaced, leases, d.tag, replace);
      if replace.Some? {
        replaced, leases := replaced + [d.tag], leases[d.tag := replace.value];
      }
      done := done + {d.tag};
    }
    HotFinish(tx, engine.plane, done, replaced, deltas);
    SetAsideWidens(tx, replaced, leases, done);
  }

  lemma SetAsideWidens(tx: Tx, replaced: seq<Tag>, leases: map<Tag, Lease>, done: set<Tag>)
    requires SetAside(tx, replaced, leases, done)
    ensures SetAside(tx, replaced, leases, Kept(tx))
  {
    hide InboundDeltaOf;
    forall t | t in Kept(tx) && t in replaced ensures t in done {
      var i :| 0 <= i < |replaced| && replaced[i] == t;
      assert replaced[i] in done;
    }
  }

  // ---------------------------------------------------------------- users

  /** A registry after the listed ids were written from `after`. */
  ghost function Blend(base: Users, after: Users, ids: seq<UserId>): Users
    requires forall i | 0 <= i < |ids| :: ids[i] in after
  {
    if ids == [] then base else
      var last := ids[|ids| - 1];
      Blend(base, after, ids[..|ids| - 1])[last := after[last]]
  }

  lemma {:induction false} BlendHas(base: Users, after: Users, ids: seq<UserId>, id: UserId)
    requires forall i | 0 <= i < |ids| :: ids[i] in after
    ensures id in Blend(base, after, ids) <==> id in base || id in ids
    ensures id in ids ==> id in after && Blend(base, after, ids)[id] == after[id]
    ensures id in base && id !in ids ==> Blend(base, after, ids)[id] == base[id]
  {
    if ids != [] {
      BlendHas(base, after, ids[..|ids| - 1], id);
      assert ids == ids[..|ids| - 1] + [ids[|ids| - 1]];
    }
  }

  /** Some written record takes a credential that a surviving user with a later id still holds. */
  ghost predicate Handover(kinds: Kinds, before: Users, after: Users) {
    exists a, b :: a in Upserted(before, after) && b in before && b in after && a < b
      && !(Claims(kinds, b, before[b]) !! Claims(kinds, a, after[a]))
  }

  /** The registry once the departing users are gone. */
  ghost function Staying(before: Users, after: Users): Users {
    Less(before, Ordered(before.Keys - after.Keys))
  }

  lemma StayingHas(before: Users, after: Users, id: UserId)
    ensures id in Staying(before, after) <==> id in before && id in after
    ensures id in Staying(before, after) ==> Staying(before, after)[id] == before[id]
  {
    LessHas(before, Ordered(before.Keys - after.Keys), id);
  }

  /** Removing the departing and writing the changed reaches the new registry. */
  lemma BlendFinal(before: Users, after: Users, ids: seq<UserId>)
    requires ids == Ordered(Upserted(before, after)) && forall i | 0 <= i < |ids| :: ids[i] in after
    ensures Blend(Staying(before, after), after, ids) == after
  {
    hide Ordered, Staying, Less;
    var r := Blend(Staying(before, after), after, ids);
    forall id ensures id in r <==> id in after
      ensures id in r && id in after ==> r[id] == after[id]
    {
      StayingHas(before, after, id);
      BlendHas(Staying(before, after), after, ids, id);
      assert id in ids <==> id in Upserted(before, after);
      if id in before && id in after && id !in ids {
        SameUserIsEquality(before[id], after[id]);
      }
    }
  }

  /** At the n-th write, the credential is free exactly when no later survivor still holds it. */
  lemma WriteFree(kinds: Kinds, before: Users, after: Users, ids: seq<UserId>, n: nat)
    requires ids == Ordered(Upserted(before, after)) && n < |ids| && (forall i | 0 <= i < |ids| :: ids[i] in after)
    requires GoodUsers(kinds, after)
    ensures CredentialFree(kinds, Blend(Staying(before, after), after, ids[..n]), ids[n], after[ids[n]]) <==>
            forall b | b in before && b in after && ids[n] < b ::
              Claims(kinds, b, before[b]) !! Claims(kinds, ids[n], after[ids[n]])
  {
    hide Ordered, Staying, Less, Claims;
    var now := Blend(Staying(before, after), after, ids[..n]);
    var a := ids[n];
    forall o ensures o in now <==> (o in before && o in after) || o in ids[..n]
      ensures o in now && o in ids[..n] ==> o in after && now[o] == after[o]
      ensures o in now && o !in ids[..n] ==> o in before && now[o] == before[o]
      ensures o in ids[..n] ==> o < a
      ensures o in before && o in after && o < a && o !in ids[..n] ==> before[o] == after[o]
    {
      StayingHas(before, after, o);
      BlendHas(Staying(before, after), after, ids[..n], o);
      if o in before && o in after && o < a && o !in ids[..n] {
        assert o !in ids;
        assert o !in Upserted(before, after);
        SameUserIsEquality(before[o], after[o]);
      }
    }
    forall o | o in now && o < a ensures Claims(kinds, o, now[o]) !! Claims(kinds, a, after[a]) {
      assert o in after && now[o] == after[o];
    }
    assert forall b | b in before && b in after && a < b :: b in now && now[b] == before[b];
  }

  /** Retire the departing users of one inbound, booking their last bytes to the published owner. */
  method RetireDeparting(engine: Engine, pending: PendingTraffic, ghost tx: Tx, oldInbound: Inbound, ids: seq<UserId>,
                         entries: seq<Undo>)
    returns (f: Option<StepFailure>, journal: seq<Undo>)
    requires GoodTx(tx) && Live(engine, pending, tx, entries)
    requires oldInbound.tag in Kept(tx) && oldInbound == tx.current.inbounds[oldInbound.tag]
    requires Departed(engine.plane, engine.plane, oldInbound.tag, ids, 0)
    requires engine.plane[oldInbound.tag].users.value == oldInbound.users
    modifies engine, pending
    ensures engine.Lossless()
    ensures f.None? ==>
      Live(engine, pending, tx, journal) && Departed(old(engine.plane), engine.plane, oldInbound.tag, ids, |ids|)
    ensures f.Some? ==> Halted(engine, pending, tx, journal, f.value)
    ensures engine.healthy ==> f.None? || f.value.cause.NoCapacity()
  {
    hide Sound, JournalOwned, Tracked, KeepsAuthority, Departed, GoodTx, Collected, Upserted1, UpsertRefusal, HasUser;
    hide SameListeners, Drained, Rewinds, Later;
    LaterSame(engine.Account());
    var tag := oldInbound.tag;
    ghost var start := engine.plane;
    OwnsPublished(tx, tag);
    f, journal := None, entries;
    for i := 0 to |ids|
      invariant engine.Lossless()
      invariant Live(engine, pending, tx, journal) && f.None?
      invariant Departed(start, engine.plane, tag, ids, i)
    {
      var id := ids[i];
      ghost var before, was := engine.plane, engine.Account();
      DepartedSame(start, before, tag, ids, i);
      DepartedLeave(start, before, tag, ids, i);
      var r := RetireUser(engine, pending, tx.books, oldInbound, id);
      LaterOn(old(engine.Account()), was, engine.Account());
      if !r.Retired? {
        f := Some(if r.NoRoom? then Unchanged(PendingFull)
                  else StepFailure(EngineFailed(r.error), 0, r.changed, !r.changed));
        DrainedTracked(tx, before, engine.plane, tag, id, journal);
        return;
      }
      DepartedReturn(start, engine.plane, tag, ids, i);
      var u := UndoAddUser(oldInbound, oldInbound.users[id]);
      DepartedUnique(start, before, Upserted1(engine.plane, tag, oldInbound.users[id]), tag, ids, i);
      LoggedAway(u, before, engine.plane, tag, id);
      FromPublished(tx, tag, id);
      PushUser(journal, u, before, engine.plane, tx);
      journal := journal + [u];
    }
  }

  lemma DepartedUnique(start: Plane, a: Plane, b: Plane, tag: Tag, ids: seq<UserId>, n: nat)
    requires Departed(start, a, tag, ids, n) && Departed(start, b, tag, ids, n)
    ensures a == b
  {
  }

  lemma LoggedAway(u: Undo, before: Plane, after: Plane, tag: Tag, id: UserId)
    requires u.UndoAddUser? && Removable(before, tag, id) && after == Collected(before, tag, id)
    ensures Logged(u, before, after)
  {
    hide Billable;
    forall t | t in after ensures Fewer(before, after, t) {
      if t == tag {
        FewerSame(before, tag);
        FewerRetired(before, before, after, tag, id);
      }
    }
  }

  lemma FromPublished(tx: Tx, tag: Tag, id: UserId)
    requires GoodTx(tx) && tag in tx.current.inbounds && id in tx.current.inbounds[tag].users
    ensures FromRegistry(tx.current.inbounds[tag], tx.current.inbounds[tag].users[id], tx.current)
  {
  }

  lemma DrainedTracked(tx: Tx, before: Plane, after: Plane, tag: Tag, id: UserId, journal: seq<Undo>)
    requires Tracked(before, tx.current, map[], journal)
    requires after == before || (HasUser(before, tag, id) && after == Drained(before, tag, id))
    ensures Tracked(after, tx.current, map[], journal)
  {
  }

  /** Journalling a registry change. */
  lemma PushUser(journal: seq<Undo>, u: Undo, before: Plane, after: Plane, tx: Tx)
    requires JournalOwned(journal, tx.current, tx.desired, tx.books.mine) && Tracked(before, tx.current, map[], journal)
    requires Rewinds(journal, before, tx.start) && Logged(u, before, after)
    requires u.UndoAddUser? && UpsertRefusal(after, u.owner.tag, u.user).None?
    requires Upserted1(after, u.owner.tag, u.user) == before && FromRegistry(u.owner, u.user, tx.current)
    ensures JournalOwned(journal + [u], tx.current, tx.desired, tx.books.mine)
    ensures Tracked(after, tx.current, map[], journal + [u])
    ensures Rewinds(journal + [u], after, tx.start)
  {
    hide JournalOwned, Tracked, Rewinds, Logged, FromRegistry, Upserted1, UpsertRefusal;
    JournalPush(journal, u, before, after, tx);
    RewindsPush(journal, u, before, after, tx.start);
  }

  /** The inverse of writing one record. */
  function WriteUndo(oldInbound: Inbound, newInbound: Inbound, d: UserDelta): Undo
    requires !d.added ==> d.id in oldInbound.users
  {
    if d.added then UndoRemoveUser(newInbound, oldInbound, d.id)
    else UndoRestoreUser(oldInbound, oldInbound.users[d.id], d.credentialChanged)
  }

  /** The plane with one record written and no session of its old credential left. */
  ghost function Written(plane: Plane, tag: Tag, id: UserId, u: UserSpec): Plane
    requires tag in plane && plane[tag].users.Some?
  {
    WithUsers(plane, tag, plane[tag].users.value[id := u])
  }

  /** A written record is undoable before its sessions are closed and afterwards. */
  lemma WriteReady(tx: Tx, plane: Plane, authority: map<Tag, nat>, tag: Tag, id: UserId)
    requires GoodTx(tx) && GoodPlane(plane, authority) && tag in Kept(tx)
    requires id in tx.desired.inbounds[tag].users && UpsertRefusal(plane, tag, tx.desired.inbounds[tag].users[id]).None?
    requires tx.desired.inbounds[tag].users[id].ResolvedId() == Some(id) && plane[tag].stale == {}
    requires id in tx.current.inbounds[tag].users <==> id in plane[tag].users.value
    requires id in plane[tag].users.value ==> plane[tag].users.value[id] == tx.current.inbounds[tag].users[id]
    ensures
      var oldInbound, newInbound := tx.current.inbounds[tag], tx.desired.inbounds[tag];
      var d := DeltaOf(oldInbound.users, newInbound.users, id);
      var u := WriteUndo(oldInbound, newInbound, d);
      var after, written := Upserted1(plane, tag, newInbound.users[id]), Written(plane, tag, id, newInbound.users[id]);
      && Ready(u, after, tx.start) && Undone(u, after) == plane && UndoOwned(u, tx.current, tx.desired, tx.books.mine)
      && Ready(u, written, tx.start) && Undone(u, written) == plane
      && HasUser(after, tag, id) && Logged(u, plane, after) && Logged(u, plane, written)
      && written == (if d.credentialChanged then Kicked(after, tag, id) else after)
  {
    hide Claims, CredentialChanged;
    OwnsPublished(tx, tag);
    var oldInbound, newInbound := tx.current.inbounds[tag], tx.desired.inbounds[tag];
    var users := plane[tag].users.value;
    var after, written := Upserted1(plane, tag, newInbound.users[id]), Written(plane, tag, id, newInbound.users[id]);
    assert after[tag].users == written[tag].users == Some(users[id := newInbound.users[id]]);
    if id in users {
      assert users[id].ResolvedId() == Some(id);
      assert CredentialFree(KindsOf(written[tag]), written[tag].users.value, id, users[id]);
      assert users[id := newInbound.users[id]][id := users[id]] == users;
      CredentialBack(users[id], newInbound.users[id]);
    } else {
      assert users[id := newInbound.users[id]] - {id} == users;
      assert WithoutUser(after, tag, id) == plane;
    }
  }

  lemma CredentialBack(left: UserSpec, right: UserSpec)
    ensures CredentialChanged(left, right) <==> CredentialChanged(right, left)
  {
  }

  /** Write one record of the new registry and evict sessions of a rotated credential. */
  method WriteUser(engine: Engine, pending: PendingTraffic, ghost tx: Tx, oldInbound: Inbound, newInbound: Inbound,
                   d: UserDelta, journal: seq<Undo>)
    returns (f: Option<StepFailure>, journal': seq<Undo>)
    requires GoodTx(tx) && Live(engine, pending, tx, journal)
    requires oldInbound.tag in Kept(tx) && oldInbound == tx.current.inbounds[oldInbound.tag]
    requires newInbound == tx.desired.inbounds[oldInbound.tag]
    requires d.id in newInbound.users && d == DeltaOf(oldInbound.users, newInbound.users, d.id)
    requires oldInbound.tag in engine.plane && engine.plane[oldInbound.tag].users.Some?
    requires d.id in oldInbound.users <==> d.id in engine.plane[oldInbound.tag].users.value
    requires d.id in engine.plane[oldInbound.tag].users.value ==>
      engine.plane[oldInbound.tag].users.value[d.id] == oldInbound.users[d.id]
    requires engine.plane[oldInbound.tag].stale == {}
    modifies engine, pending
    ensures engine.Lossless()
    ensures f.None? ==>
      && UpsertRefusal(old(engine.plane), oldInbound.tag, newInbound.users[d.id]).None?
      && Live(engine, pending, tx, journal')
      && engine.plane == Written(old(engine.plane), oldInbound.tag, d.id, newInbound.users[d.id])
    ensures f.Some? ==> Halted(engine, pending, tx, journal', f.value)
    ensures engine.healthy ==>
      (f.None? <==> UpsertRefusal(old(engine.plane), oldInbound.tag, newInbound.users[d.id]).None?)
    ensures engine.healthy && f.Some? ==>
      f.value.cause == EngineFailed(UpsertRefusal(old(engine.plane), oldInbound.tag, newInbound.users[d.id]).value)
  {
    hide Sound, GoodPlane, Ready, Undone, UndoOwned, JournalOwned, Tracked, Rewinds, GoodUsers, KeepsAuthority, GoodTx;
    hide UpsertRefusal, Upserted1, Written, Kicked, HasUser, Matches, Entitled, Logged;
    var user := newInbound.users[d.id];
    journal' := journal;
    NormalUser(tx, oldInbound.tag, d.id);
    SoundGood(engine, pending, tx.books);
    var r := UpsertUser(engine, pending, tx.books, oldInbound.tag, user);
    if r.Some? {
      f := Some(Unchanged(EngineFailed(r.value)));
      return;
    }
    WriteReady(tx, old(engine.plane), old(engine.authority), oldInbound.tag, d.id);
    var u := WriteUndo(oldInbound, newInbound, d);
    JournalPush(journal, u, old(engine.plane), engine.plane, tx);
    RewindsPush(journal, u, old(engine.plane), engine.plane, tx.start);
    journal' := journal + [u];
    f := None;
    if d.credentialChanged {
      ghost var written := Written(old(engine.plane), oldInbound.tag, d.id, user);
      JournalPush(journal, u, old(engine.plane), written, tx);
      RewindsPush(journal, u, old(engine.plane), written, tx.start);
      r := KickSessions(engine, pending, tx.books, oldInbound.tag, d.id);
      if r.Some? {
        f := Some(Unchanged(EngineFailed(r.value)));
      }
    }
  }

  /** Write every changed record, in id order. Succeeds on a healthy engine exactly when no
      written record takes a credential from a survivor with a later id. */
  method WriteUsers(engine: Engine, pending: PendingTraffic, ghost tx: Tx, oldInbound: Inbound, newInbound: Inbound,
                    changes: seq<UserDelta>, ghost ids: seq<UserId>, entries: seq<Undo>)
    returns (f: Option<StepFailure>, journal: seq<Undo>)
    requires GoodTx(tx) && Live(engine, pending, tx, entries)
    requires oldInbound.tag in Kept(tx) && oldInbound == tx.current.inbounds[oldInbound.tag]
    requires newInbound == tx.desired.inbounds[oldInbound.tag]
    requires ids == Ordered(Upserted(oldInbound.users, newInbound.users))
    requires (forall i | 0 <= i < |ids| :: ids[i] in newInbound.users)
    requires |changes| == |ids|
    requires forall i | 0 <= i < |ids| :: changes[i] == DeltaOf(oldInbound.users, newInbound.users, ids[i])
    requires oldInbound.tag in engine.plane && engine.plane[oldInbound.tag].draining == {}
    requires KindsOf(engine.plane[oldInbound.tag]) == newInbound.config.listener.kinds
    requires engine.plane[oldInbound.tag].users == Some(Staying(oldInbound.users, newInbound.users))
    requires engine.plane[oldInbound.tag].stale == {}
    modifies engine, pending
    ensures engine.Lossless()
    ensures f.None? ==>
      && Live(engine, pending, tx, journal)
      && engine.plane == WithUsers(old(engine.plane), oldInbound.tag, newInbound.users)
      && !Handover(newInbound.config.listener.kinds, oldInbound.users, newInbound.users)
    ensures f.Some? ==> Halted(engine, pending, tx, journal, f.value)
    ensures engine.healthy && f.Some? ==>
      && Handover(newInbound.config.listener.kinds, oldInbound.users, newInbound.users)
      && f.value.cause == EngineFailed(DuplicateCredential)
  {
    hide Live, Halted, GoodTx, Ordered, Staying, Handover, Blend, Claims, CredentialFree, Upserted, CredentialChanged;
    hide Later;
    LaterSame(engine.Account());
    f, journal := None, entries;
    var tag := oldInbound.tag;
    ghost var base, kinds := Staying(oldInbound.users, newInbound.users), newInbound.config.listener.kinds;
    NormalUsers(tx, tag);
    BlendNone(base, newInbound.users, ids);
    for i := 0 to |changes|
      invariant engine.Lossless()
      invariant Live(engine, pending, tx, journal) && f.None?
      invariant engine.plane == WithUsers(old(engine.plane), tag, Blend(base, newInbound.users, ids[..i]))
      invariant forall j | 0 <= j < i :: LaterFree(kinds, oldInbound.users, newInbound.users, ids[j])
    {
      var d := changes[i];
      WritePoint(oldInbound.users, newInbound.users, ids, i);
      WriteFree(kinds, oldInbound.users, newInbound.users, ids, i);
      assert d.id == ids[i] && newInbound.users[d.id].ResolvedId() == Some(d.id);
      ghost var was := engine.Account();
      f, journal := WriteUser(engine, pending, tx, oldInbound, newInbound, d, journal);
      LaterOn(old(engine.Account()), was, engine.Account());
      if f.Some? {
        if engine.healthy {
          HandoverFound(kinds, oldInbound.users, newInbound.users, ids[i]);
        }
        return;
      }
    }
    assert ids[..|ids|] == ids;
    BlendFinal(oldInbound.users, newInbound.users, ids);
    NoHandover(kinds, oldInbound.users, newInbound.users, ids);
  }

  ghost predicate LaterFree(kinds: Kinds, before: Users, after: Users, a: UserId) {
    a in after ==> forall b | b in before && b in after && a < b ::
      Claims(kinds, b, before[b]) !! Claims(kinds, a, after[a])
  }

  lemma HandoverFound(kinds: Kinds, before: Users, after: Users, a: UserId)
    requires a in Upserted(before, after) && !LaterFree(kinds, before, after, a)
    ensures Handover(kinds, before, after)
  {
  }

  lemma NoHandover(kinds: Kinds, before: Users, after: Users, ids: seq<UserId>)
    requires ids == Ordered(Upserted(before, after))
    requires forall i | 0 <= i < |ids| :: LaterFree(kinds, before, after, ids[i])
    ensures !Handover(kinds, before, after)
  {
    hide Ordered, Claims;
    forall a | a in Upserted(before, after) ensures LaterFree(kinds, before, after, a) {
      assert a in ids;
      var i :| 0 <= i < |ids| && ids[i] == a;
    }
  }

  lemma NormalUser(tx: Tx, tag: Tag, id: UserId)
    requires GoodTx(tx) && tag in Kept(tx) && id in tx.desired.inbounds[tag].users
    ensures tx.desired.inbounds[tag].users[id].ResolvedId() == Some(id)
  {
  }

  lemma NormalUsers(tx: Tx, tag: Tag)
    requires GoodTx(tx) && tag in Kept(tx)
    ensures GoodUsers(tx.current.inbounds[tag].config.listener.kinds, tx.current.inbounds[tag].users)
    ensures GoodUsers(KindsFor(tx, tag), tx.desired.inbounds[tag].users)
  {
  }

  lemma BlendNone(base: Users, after: Users, ids: seq<UserId>)
    ensures Blend(base, after, ids[..0]) == base
  {
  }

  /** The record written next is new, or still the one the old registry had. */
  lemma WritePoint(before: Users, after: Users, ids: seq<UserId>, n: nat)
    requires ids == Ordered(Upserted(before, after)) && n < |ids| && (forall i | 0 <= i < |ids| :: ids[i] in after)
    ensures ids[n] in Upserted(before, after)
    ensures
      var now := Blend(Staying(before, after), after, ids[..n]);
      && (ids[n] in before <==> ids[n] in now) && (ids[n] in now ==> now[ids[n]] == before[ids[n]])
      && Blend(Staying(before, after), after, ids[..n + 1]) == now[ids[n] := after[ids[n]]]
  {
    hide Ordered, Staying;
    var a := ids[n];
    assert a in ids;
    StayingHas(before, after, a);
    BlendHas(Staying(before, after), after, ids[..n], a);
    assert a !in ids[..n];
    assert ids[..n + 1][..n] == ids[..n];
  }

  /** Nothing to remove and nothing to write means the registries agree. */
  lemma NothingToReconcile(before: Inbound, after: Inbound, digestChanged: bool)
    requires InboundDeltaOf(before, after, digestChanged).removedUsers == []
    requires InboundDeltaOf(before, after, digestChanged).upsertUsers == []
    ensures before.users == after.users
  {
    OrderedNone(before.users.Keys - after.users.Keys);
    OrderedNone(Upserted(before.users, after.users));
    forall id | id in after.users ensures id in before.users && before.users[id] == after.users[id] {
      assert id !in Upserted(before.users, after.users);
    }
    assert before.users.Keys == after.users.Keys by {
      forall id | id in before.users ensures id in after.users {
        assert id !in before.users.Keys - after.users.Keys;
      }
    }
  }

  lemma ReconcileStart(tx: Tx, plane: Plane, authority: map<Tag, nat>, tag: Tag)
    requires GoodTx(tx) && GoodPlane(plane, authority) && tag in Kept(tx) && tag in tx.start && tag in plane
    requires plane[tag] == Updated(tx, tag)
    requires StaysLive(tx, tag)
    requires tx.current.inbounds[tag].users != tx.desired.inbounds[tag].users
    ensures plane[tag].users == Some(tx.current.inbounds[tag].users) && plane[tag].draining == {}
    ensures Departed(plane, plane, tag,
                     Ordered(tx.current.inbounds[tag].users.Keys - tx.desired.inbounds[tag].users.Keys), 0)
  {
    hide Ordered;
    var gone := tx.current.inbounds[tag].users.Keys - tx.desired.inbounds[tag].users.Keys;
    OrderedDistinct(gone);
    DepartedNone(plane, tag, Ordered(gone));
  }

  /** Bring one kept inbound's registry to its new contents: revoke first, then write. */
  method ReconcileUsers(engine: Engine, pending: PendingTraffic, ghost tx: Tx, d: InboundDelta, oldInbound: Inbound,
                        newInbound: Inbound, entries: seq<Undo>)
    returns (f: Option<StepFailure>, journal: seq<Undo>)
    requires GoodTx(tx) && Live(engine, pending, tx, entries)
    requires d.tag in Kept(tx) && d == DeltaFor(tx, d.tag) && d.tag in tx.start
    requires oldInbound == tx.current.inbounds[d.tag] && newInbound == tx.desired.inbounds[d.tag]
    requires StaysLive(tx, d.tag)
    requires d.tag in engine.plane && engine.plane[d.tag] == Updated(tx, d.tag)
    modifies engine, pending
    ensures engine.Lossless()
    ensures f.None? ==>
      && Live(engine, pending, tx, journal)
      && !Handover(newInbound.config.listener.kinds, oldInbound.users, newInbound.users)
      && engine.plane == old(engine.plane)[d.tag := SlotFor(newInbound, tx.start[d.tag].lineage)]
    ensures f.Some? ==> Halted(engine, pending, tx, journal, f.value)
    ensures engine.healthy && f.Some? ==>
      f.value.cause.NoCapacity()
        || (f.value.cause == EngineFailed(DuplicateCredential)
          && Handover(newInbound.config.listener.kinds, oldInbound.users, newInbound.users))
  {
    hide GoodPlane, Balanced, BookedOnly, Settled, Ordered, Deltas, JournalOwned, Tracked, KeepsAuthority, Rewinds;
    hide Handover, GoodTx, Halted, Upserted, Departed, WithUsers, SlotFor, Updated, Staying, Later;
    LaterSame(engine.Account());
    KeptTag(tx, d.tag);
    ghost var start := engine.plane;
    f, journal := None, entries;
    if d.removedUsers == [] && d.upsertUsers == [] {
      NothingToReconcile(oldInbound, newInbound, tx.current.digest != tx.desired.digest);
      NoHandoverSame(newInbound.config.listener.kinds, oldInbound.users);
      ReconciledAlready(tx, engine.plane, d.tag);
      return;
    }
    SomethingToReconcile(oldInbound, newInbound, tx.current.digest != tx.desired.digest);
    ReconcileStart(tx, engine.plane, engine.authority, d.tag);
    f, journal := RetireDeparting(engine, pending, tx, oldInbound, d.removedUsers, entries);
    ghost var was := engine.Account();
    if f.Some? {
      return;
    }
    Reconciled(tx, start, engine.plane, d.tag);
    f, journal := WriteUsers(engine, pending, tx, oldInbound, newInbound, d.upsertUsers,
                             Ordered(Upserted(oldInbound.users, newInbound.users)), journal);
    LaterOn(old(engine.Account()), was, engine.Account());
  }

  lemma ReconciledAlready(tx: Tx, plane: Plane, tag: Tag)
    requires GoodTx(tx) && tag in Kept(tx) && tag in tx.start && tag in plane && plane[tag] == Updated(tx, tag)
    requires StaysLive(tx, tag)
    requires tx.current.inbounds[tag].users == tx.desired.inbounds[tag].users
    ensures plane == plane[tag := SlotFor(tx.desired.inbounds[tag], tx.start[tag].lineage)]
  {
  }

  /** Departures leave the staying users; writing the new records then completes the slot. */
  lemma Reconciled(tx: Tx, start: Plane, plane: Plane, tag: Tag)
    requires GoodTx(tx) && tag in Kept(tx) && tag in tx.start && tag in start && start[tag] == Updated(tx, tag)
    requires start[tag].users == Some(tx.current.inbounds[tag].users) && start[tag].draining == {}
    requires StaysLive(tx, tag)
    requires
      var ids := Ordered(tx.current.inbounds[tag].users.Keys - tx.desired.inbounds[tag].users.Keys);
      Departed(start, plane, tag, ids, |ids|)
    ensures tag in plane && plane[tag].draining == {} && plane[tag].stale == {}
    ensures KindsOf(plane[tag]) == KindsFor(tx, tag)
    ensures plane[tag].users == Some(Staying(tx.current.inbounds[tag].users, tx.desired.inbounds[tag].users))
    ensures WithUsers(plane, tag, tx.desired.inbounds[tag].users)
         == start[tag := SlotFor(tx.desired.inbounds[tag], tx.start[tag].lineage)]
  {
    hide Ordered, GoodUsers, Less;
    var ids := Ordered(tx.current.inbounds[tag].users.Keys - tx.desired.inbounds[tag].users.Keys);
    assert ids[..|ids|] == ids;
  }

  lemma NoHandoverSame(kinds: Kinds, users: Users)
    ensures !Handover(kinds, users, users)
  {
  }

  lemma SomethingToReconcile(before: Inbound, after: Inbound, digestChanged: bool)
    requires var d := InboundDeltaOf(before, after, digestChanged); d.removedUsers != [] || d.upsertUsers != []
    ensures before.users != after.users
    ensures
      var ids := Ordered(Upserted(before.users, after.users));
      var changes := InboundDeltaOf(before, after, digestChanged).upsertUsers;
      && (forall i | 0 <= i < |ids| :: ids[i] in after.users)
      && |changes| == |ids| && forall i | 0 <= i < |ids| :: changes[i] == DeltaOf(before.users, after.users, ids[i])
  {
    hide Ordered, Deltas;
    var ids := Ordered(Upserted(before.users, after.users));
    assert forall i | 0 <= i < |ids| :: ids[i] in ids;
    if before.users == after.users {
      assert false;
    }
  }

  /** Part way through the reconciliation: replaced and processed inbounds are final. */
  ghost predicate UserState(tx: Tx, plane: Plane, done: set<Tag>, replaced: seq<Tag>) {
    && plane.Keys == Kept(tx) && Kept(tx) <= tx.start.Keys
    && (forall t | t in plane ::
          if t in replaced || t in done then Installed(tx, plane, t)
          else plane[t] == Updated(tx, t) && StaysLive(tx, t))
    && (forall t | t in done && t in plane && t !in replaced ::
          !Handover(KindsFor(tx, t), tx.current.inbounds[t].users, tx.desired.inbounds[t].users))
  }

  lemma UserStep(tx: Tx, before: Plane, after: Plane, done: set<Tag>, replaced: seq<Tag>, tag: Tag)
    requires UserState(tx, before, done, replaced) && tag in Kept(tx)
    requires tag in replaced ==> after == before
    requires tag !in replaced ==>
      && after == before[tag := SlotFor(tx.desired.inbounds[tag], tx.start[tag].lineage)]
      && !Handover(KindsFor(tx, tag), tx.current.inbounds[tag].users, tx.desired.inbounds[tag].users)
    ensures UserState(tx, after, done + {tag}, replaced)
  {
    hide Handover, Updated;
  }

  /** Every kept inbound is final, and no kept registry was reconciled through a handover. */
  ghost predicate KeptDone(tx: Tx, plane: Plane, replaced: seq<Tag>) {
    && plane.Keys == Kept(tx)
    && forall t | t in plane ::
      && Installed(tx, plane, t)
      && (t !in replaced ==> !Handover(KindsFor(tx, t), tx.current.inbounds[t].users, tx.desired.inbounds[t].users))
  }

  lemma UserFinish(tx: Tx, plane: Plane, done: set<Tag>, replaced: seq<Tag>, deltas: seq<InboundDelta>)
    requires GoodTx(tx) && DeltasOf(tx, deltas) && UserState(tx, plane, done, replaced)
    requires forall i | 0 <= i < |deltas| :: deltas[i].tag in done
    ensures KeptDone(tx, plane, replaced)
  {
    hide Trivial, Handover;
    forall t | t in plane
      ensures Installed(tx, plane, t)
      ensures t !in replaced ==> !Handover(KindsFor(tx, t), tx.current.inbounds[t].users, tx.desired.inbounds[t].users)
    {
      if t !in done && t !in replaced {
        assert Trivial(DeltaFor(tx, t));
        TrivialSame(tx.current.inbounds[t], tx.desired.inbounds[t], tx.current.digest != tx.desired.digest);
        NoHandoverSame(KindsFor(tx, t), tx.current.inbounds[t].users);
      }
    }
  }

  /** Some inbound that stays live gives a credential of a kept user to a user with a smaller id. */
  ghost predicate HandsOver(current: NormalizedConfig, desired: NormalizedConfig) {
    exists t | t in current.inbounds && t in desired.inbounds ::
      && Stays(current.inbounds[t], desired.inbounds[t], current.digest != desired.digest)
      && Handover(desired.inbounds[t].config.listener.kinds, current.inbounds[t].users, desired.inbounds[t].users)
  }

  method UserPhase(engine: Engine, pending: PendingTraffic, ghost tx: Tx, current: NormalizedConfig,
                   desired: NormalizedConfig, deltas: seq<InboundDelta>, replaced: seq<Tag>, entries: seq<Undo>)
    returns (f: Option<StepFailure>, journal: seq<Undo>)
    requires GoodTx(tx) && Live(engine, pending, tx, entries) && current == tx.current && desired == tx.desired
    requires DeltasOf(tx, deltas) && UserState(tx, engine.plane, {}, replaced)
    modifies engine, pending
    ensures engine.Lossless()
    ensures f.None? ==> Live(engine, pending, tx, journal) && KeptDone(tx, engine.plane, replaced)
    ensures f.Some? ==> Halted(engine, pending, tx, journal, f.value)
    ensures engine.healthy && f.Some? ==>
      || f.value.cause.NoCapacity()
      || (f.value.cause == EngineFailed(DuplicateCredential) && HandsOver(tx.current, tx.desired))
  {
    hide Live, Halted, GoodTx, InboundDeltaOf, Updated, Handover, Installed, Later;
    LaterSame(engine.Account());
    f, journal := None, entries;
    ghost var done: set<Tag> := {};
    for i := 0 to |deltas|
      invariant engine.Lossless()
      invariant Live(engine, pending, tx, journal) && f.None?
      invariant UserState(tx, engine.plane, done, replaced)
      invariant forall j | 0 <= j < i :: deltas[j].tag in done
      invariant forall t | t in done :: exists j | 0 <= j < i :: deltas[j].tag == t
    {
      var d := deltas[i];
      assert d.tag in Kept(tx);
      ghost var before, was := engine.plane, engine.Account();
      if d.tag !in replaced {
        assert d.tag !in done;
        f, journal := ReconcileUsers(engine, pending, tx, d, current.inbounds[d.tag], desired.inbounds[d.tag], journal);
        LaterOn(old(engine.Account()), was, engine.Account());
        if f.Some? {
          return;
        }
      }
      UserStep(tx, before, engine.plane, done, replaced, d.tag);
      done := done + {d.tag};
    }
    UserFinish(tx, engine.plane, done, replaced, deltas);
  }

  // ---------------------------------------------------------------- traffic ownership

  /** The published owner of a surviving inbound changes. */
  predicate OwnerChanges(current: NormalizedConfig, desired: NormalizedConfig, tag: Tag) {
    && tag in current.inbounds && tag in desired.inbounds
    && (current.inbounds[tag].node != desired.inbounds[tag].node
      || current.inbounds[tag].protocol != desired.inbounds[tag].protocol)
  }

  /** Queue every live byte of one inbound under its old owner. */
  method FlushInbound(engine: Engine, pending: PendingTraffic, ghost tx: Tx, oldInbound: Inbound,
                      ghost journal: seq<Undo>)
    returns (f: Option<StepFailure>)
    requires GoodTx(tx) && Live(engine, pending, tx, journal) && oldInbound.tag in tx.current.inbounds
    requires oldInbound == tx.current.inbounds[oldInbound.tag]
    requires Reached(tx, engine.plane) && oldInbound.tag in engine.plane
    modifies engine, pending
    ensures engine.Lossless()
    ensures f.None? ==> Live(engine, pending, tx, journal) && engine.plane == old(engine.plane)
    ensures f.None? ==> PaidUp(engine.lost, engine.gone, old(engine.counted), oldInbound.tag)
    ensures f.Some? ==> Halted(engine, pending, tx, journal, f.value)
    ensures engine.healthy ==> f.None? || f.value.cause.NoCapacity()
  {
    hide Sound, JournalOwned, KeepsAuthority, Tracked, Rewinds, GoodTx, Owns, Accounts, Later, Paid, Reached, Ordered;
    var tag := oldInbound.tag;
    f := None;
    OwnsPublished(tx, tag);
    var users := LiveUsers(engine, pending, tx.books, tag);
    if users.Err? {
      return Some(Unchanged(EngineFailed(users.error)));
    }
    OrderedIn(engine.plane[tag], users.value);
    for j := 0 to |users.value|
      invariant engine.Lossless()
      invariant Live(engine, pending, tx, journal) && f.None? && engine.plane == old(engine.plane)
      invariant forall i | 0 <= i < j :: Paid(engine.lost, engine.gone, old(engine.counted), (tag, users.value[i]))
    {
      ghost var was, lost, gone := engine.Account(), engine.lost, engine.gone;
      var r := FlushUser(engine, pending, tx.books, oldInbound, users.value[j]);
      LaterOn(old(engine.Account()), was, engine.Account());
      if r.Some? {
        return Some(Unchanged(r.value));
      }
      PaidEarlier(engine.lost, engine.gone, old(engine.Account()), was, (tag, users.value[j]));
      forall i | 0 <= i < j ensures Paid(engine.lost, engine.gone, old(engine.counted), (tag, users.value[i])) {
        PaidStill(lost, was, engine.lost, engine.Account(), old(engine.counted), (tag, users.value[i]));
      }
    }
    FlushedPaid(engine, pending, tx, old(engine.Account()), tag, users.value);
  }

  /** Listed users were flushed; nobody else on the inbound has bytes. */
  lemma FlushedPaid(engine: Engine, pending: PendingTraffic, tx: Tx, before: Ledger, tag: Tag, ids: seq<UserId>)
    requires Sound(engine, pending, tx.books) && Later(before, engine.Account()) && Reached(tx, engine.plane)
    requires tag in engine.plane
    requires ids == if engine.plane[tag].users.Some? then Ordered(engine.plane[tag].users.value.Keys) else []
    requires forall i | 0 <= i < |ids| :: Paid(engine.lost, engine.gone, before.counted, (tag, ids[i]))
    ensures PaidUp(engine.lost, engine.gone, before.counted, tag)
  {
    hide Later, Paid, Ordered, Balanced, BookedOnly, GoodPlane;
    forall id: UserId ensures Paid(engine.lost, engine.gone, before.counted, (tag, id)) {
      if HasUser(engine.plane, tag, id) {
        assert id in ids;
        var i :| 0 <= i < |ids| && ids[i] == id;
      } else {
        PaidNow(engine, before, (tag, id));
      }
    }
  }

  /** Before new ownership metadata is published, the live bytes of every surviving listener whose
      metadata changes are queued under the old owner. */
  method FlushChangedMetadata(engine: Engine, pending: PendingTraffic, ghost tx: Tx, current: NormalizedConfig,
                              desired: NormalizedConfig, replaced: seq<Tag>, ghost journal: seq<Undo>)
    returns (f: Option<StepFailure>)
    requires GoodTx(tx) && Live(engine, pending, tx, journal) && current == tx.current && desired == tx.desired
    requires Reached(tx, engine.plane)
    modifies engine, pending
    ensures engine.Lossless()
    ensures f.None? ==> Live(engine, pending, tx, journal) && engine.plane == old(engine.plane)
    ensures f.None? ==>
      forall t | OwnerChanges(current, desired, t) && t !in replaced ::
        PaidUp(engine.lost, engine.gone, old(engine.counted), t)
    ensures f.Some? ==> Halted(engine, pending, tx, journal, f.value)
    ensures engine.healthy ==> f.None? || f.value.cause.NoCapacity()
  {
    hide Live, Halted, GoodTx, Later, PaidUp, Ordered, OwnerChanges;
    var tags := Ordered(current.inbounds.Keys);
    OrderedDistinct(current.inbounds.Keys);
    LaterSame(engine.Account());
    f := None;
    for i := 0 to |tags|
      invariant engine.Lossless()
      invariant Live(engine, pending, tx, journal) && f.None? && engine.plane == old(engine.plane)
      invariant forall j | 0 <= j < i && OwnerChanges(current, desired, tags[j]) && tags[j] !in replaced ::
        PaidUp(engine.lost, engine.gone, old(engine.counted), tags[j])
    {
      var tag := tags[i];
      if tag in replaced || !OwnerChanges(current, desired, tag) {
        continue;
      }
      ChangedTag(tx, engine.plane, tag);
      ghost var was, lost := engine.Account(), engine.lost;
      f := FlushInbound(engine, pending, tx, current.inbounds[tag], journal);
      LaterOn(old(engine.Account()), was, engine.Account());
      if f.Some? {
        return;
      }
      PaidUpEarlier(engine.lost, engine.gone, old(engine.Account()), was, tag);
      forall j | 0 <= j < i && OwnerChanges(current, desired, tags[j]) && tags[j] !in replaced
        ensures PaidUp(engine.lost, engine.gone, old(engine.counted), tags[j])
      {
        PaidUpStill(lost, was, engine.lost, engine.Account(), old(engine.counted), tags[j]);
      }
    }
    forall t | OwnerChanges(current, desired, t) && t !in replaced
      ensures PaidUp(engine.lost, engine.gone, old(engine.counted), t)
    {
      ChangedTag(tx, engine.plane, t);
      assert t in tags;
      var i :| 0 <= i < |tags| && tags[i] == t;
    }
  }

  lemma ChangedTag(tx: Tx, plane: Plane, tag: Tag)
    requires GoodTx(tx) && Reached(tx, plane) && OwnerChanges(tx.current, tx.desired, tag)
    ensures tag in tx.current.inbounds && tag in plane && tx.current.inbounds[tag].tag == tag
  {
    assert tag in plane.Keys;
  }

  lemma OrderedIn(slot: Slot, ids: seq<UserId>)
    requires ids == if slot.users.Some? then Ordered(slot.users.value.Keys) else []
    ensures forall i | 0 <= i < |ids| :: slot.users.Some? && ids[i] in slot.users.value
  {
    hide Ordered;
    assert forall i | 0 <= i < |ids| :: ids[i] in ids;
  }

  // ---------------------------------------------------------------- the whole path

  lemma RemovedState(tx: Tx)
    requires GoodTx(tx)
    ensures var gone := Ordered(tx.current.inbounds.Keys - tx.desired.inbounds.Keys);
      HotState(tx, Less(tx.start, gone), {}, [])
  {
    hide Ordered, Less, Updated;
    var gone := Ordered(tx.current.inbounds.Keys - tx.desired.inbounds.Keys);
    forall t ensures t in Less(tx.start, gone) <==> t in Kept(tx)
      ensures t in Kept(tx) && t in Less(tx.start, gone) ==> Less(tx.start, gone)[t] == tx.start[t]
    {
      LessHas(tx.start, gone, t);
    }
    assert Less(tx.start, gone).Keys == Kept(tx);
  }

  lemma ReplacedState(tx: Tx, hot: Plane, plane: Plane, replaced: seq<Tag>, leases: map<Tag, Lease>)
    requires HotDone(tx, hot, replaced) && SetAside(tx, replaced, leases, Kept(tx))
    requires Gained(tx, Less(hot, replaced), plane, replaced, |replaced|)
    ensures UserState(tx, plane, {}, replaced)
  {
    hide Less, Updated, InboundDeltaOf;
    assert replaced[..|replaced|] == replaced;
    forall t | t in replaced ensures t in Kept(tx) && Installed(tx, plane, t) {
      var i :| 0 <= i < |replaced| && replaced[i] == t;
      assert Installed(tx, plane, replaced[i]);
      assert replaced[i] in Kept(tx);
    }
    forall t | t in Kept(tx) ensures t in plane && (t !in replaced ==> plane[t] == hot[t]) {
      LessHas(hot, replaced, t);
    }
    forall t | t in plane.Keys ensures t in Kept(tx) {
      LessHas(hot, replaced, t);
    }
  }

  lemma ReplacedRoom(tx: Tx, hot: Plane, replaced: seq<Tag>, leases: map<Tag, Lease>)
    requires HotDone(tx, hot, replaced) && SetAside(tx, replaced, leases, Kept(tx)) && DisjointBinds(tx.desired)
    ensures RoomFor(tx, Less(hot, replaced), replaced)
  {
    hide Less, InboundDeltaOf;
    forall t ensures t in Less(hot, replaced) <==> t in hot && t !in replaced
      ensures t in Less(hot, replaced) ==> Less(hot, replaced)[t] == hot[t]
    {
      LessHas(hot, replaced, t);
    }
    forall i | 0 <= i < |replaced|
      ensures replaced[i] in tx.desired.inbounds && replaced[i] !in Less(hot, replaced)
      ensures BindsFree(Less(hot, replaced), tx.desired.inbounds[replaced[i]].config.binds)
    {
      var tag := replaced[i];
      assert tag in Kept(tx) && tag in replaced;
      forall t | t in Less(hot, replaced)
        ensures Less(hot, replaced)[t].config.binds !! tx.desired.inbounds[tag].config.binds
      {
        assert hot[t] == Updated(tx, t);
      }
    }
  }

  lemma AddedRoom(tx: Tx, plane: Plane, replaced: seq<Tag>, added: seq<Tag>)
    requires KeptDone(tx, plane, replaced) && DisjointBinds(tx.desired)
    requires forall i | 0 <= i < |added| :: added[i] in tx.desired.inbounds.Keys - tx.current.inbounds.Keys
    ensures RoomFor(tx, plane, added)
  {
    hide Handover;
    forall i | 0 <= i < |added|
      ensures added[i] in tx.desired.inbounds && added[i] !in plane
      ensures BindsFree(plane, tx.desired.inbounds[added[i]].config.binds)
    {
      var tag := added[i];
      assert tag in tx.desired.inbounds.Keys - tx.current.inbounds.Keys;
      assert tag !in plane.Keys;
      forall t | t in plane ensures plane[t].config.binds !! tx.desired.inbounds[tag].config.binds {
        assert Installed(tx, plane, t);
      }
    }
  }

  lemma AddedReached(tx: Tx, before: Plane, plane: Plane, replaced: seq<Tag>)
    requires GoodTx(tx) && KeptDone(tx, before, replaced)
    requires
      var added := Ordered(tx.desired.inbounds.Keys - tx.current.inbounds.Keys);
      Gained(tx, before, plane, added, |added|)
    ensures Reached(tx, plane)
  {
    hide Ordered, Handover, GoodTx;
    var added := Ordered(tx.desired.inbounds.Keys - tx.current.inbounds.Keys);
    assert added[..|added|] == added;
    forall t | t in added ensures Installed(tx, plane, t) {
      var i :| 0 <= i < |added| && added[i] == t;
    }
    forall t | t in Kept(tx) ensures t in plane && Installed(tx, plane, t) {
      assert t in before.Keys;
      assert Installed(tx, before, t);
    }
    forall t | t in plane ensures Installed(tx, plane, t) {
      assert t in before ==> t in Kept(tx);
    }
    forall t | t in tx.desired.inbounds ensures t in plane {
      assert t in Kept(tx) || t in added;
    }
    AllInstalled(tx, plane);
  }

  lemma AllInstalled(tx: Tx, plane: Plane)
    requires (forall t | t in plane :: Installed(tx, plane, t)) && forall t | t in tx.desired.inbounds :: t in plane
    ensures Reached(tx, plane)
  {
    assert plane.Keys <= tx.desired.inbounds.Keys by {
      forall t | t in plane.Keys ensures t in tx.desired.inbounds.Keys {
        assert Installed(tx, plane, t);
      }
    }
    assert tx.desired.inbounds.Keys <= plane.Keys by {
      forall t | t in tx.desired.inbounds.Keys ensures t in plane.Keys {
        assert t in tx.desired.inbounds;
      }
    }
  }

  lemma SetAsideDistinct(tx: Tx, plane: Plane, replaced: seq<Tag>, leases: map<Tag, Lease>)
    requires HotDone(tx, plane, replaced) && SetAside(tx, replaced, leases, Kept(tx))
    ensures Distinct(replaced) && forall i | 0 <= i < |replaced| ::
      replaced[i] in tx.start && replaced[i] in plane && plane[replaced[i]] == tx.start[replaced[i]]
        && replaced[i] in tx.desired.inbounds
    ensures forall t | t in leases :: Leased(tx.start, t, leases[t])
    ensures forall i | 0 <= i < |replaced| ::
      replaced[i] in leases && LeaseFor(tx, replaced[i], Some(leases[replaced[i]]))
  {
    hide Updated, InboundDeltaOf;
    forall i | 0 <= i < |replaced|
      ensures replaced[i] in tx.start && replaced[i] in plane && plane[replaced[i]] == tx.start[replaced[i]]
      ensures replaced[i] in tx.desired.inbounds
      ensures replaced[i] in leases && LeaseFor(tx, replaced[i], Some(leases[replaced[i]]))
    {
      var t := replaced[i];
      assert t in Kept(tx) && t in replaced && t in plane.Keys;
    }
  }

  /** Two-phase replacement: every old owner releases its sockets before any candidate claims one. */
  method ReplacePhase(engine: Engine, pending: PendingTraffic, ghost tx: Tx, current: NormalizedConfig,
                      desired: NormalizedConfig, replaced: seq<Tag>,
                      leases: map<Tag, Lease>, entries: seq<Undo>)
    returns (f: Option<StepFailure>, journal: seq<Undo>)
    requires GoodTx(tx) && Live(engine, pending, tx, entries) && current == tx.current && desired == tx.desired
    requires HotDone(tx, engine.plane, replaced) && SetAside(tx, replaced, leases, Kept(tx)) && NoStarts(entries)
    modifies engine, pending
    ensures engine.Lossless()
    ensures f.None? ==> Live(engine, pending, tx, journal) && UserState(tx, engine.plane, {}, replaced)
    ensures f.None? ==>
      forall k | 0 <= k < |replaced| :: PaidUp(engine.lost, engine.gone, old(engine.counted), replaced[k])
    ensures f.Some? ==> Halted(engine, pending, tx, journal, f.value)
    ensures engine.healthy && DisjointBinds(desired) ==> f.None? || f.value.cause.NoCapacity()
  {
    hide Live, Halted, GoodTx, HotDone, SetAside, DisjointBinds, UserState, RoomFor, Gained, Leased, LeaseFor, Less;
    hide Later, PaidUp;
    SetAsideDistinct(tx, engine.plane, replaced, leases);
    ghost var hot := engine.plane;
    var kept;
    f, journal, kept := StopAll(engine, pending, tx, current, replaced, leases, entries);
    if f.Some? {
      return;
    }
    if DisjointBinds(desired) {
      ReplacedRoom(tx, hot, replaced, leases);
    }
    ghost var mid, lost := engine.Account(), engine.lost;
    f, journal := StartAll(engine, pending, tx, current, desired, replaced, leases, journal);
    LaterOn(old(engine.Account()), mid, engine.Account());
    if f.None? {
      ReplacedState(tx, hot, engine.plane, replaced, leases);
      forall k | 0 <= k < |replaced| ensures PaidUp(engine.lost, engine.gone, old(engine.counted), replaced[k]) {
        PaidUpStill(lost, mid, engine.lost, engine.Account(), old(engine.counted), replaced[k]);
      }
    }
  }

  /** What an engine with no faults may still refuse, and nothing else. */
  ghost predicate OnlyRefusals(tx: Tx, f: Option<StepFailure>) {
    f.Some? ==>
      || f.value.cause.NoCapacity()
      || (f.value.cause == EngineFailed(DuplicateCredential) && HandsOver(tx.current, tx.desired))
  }

  /** Every byte metered before the transaction is booked to the old owner of a tag that goes away
      or changes hands. */
  ghost predicate Boundary(current: NormalizedConfig, desired: NormalizedConfig, lost: bool, gone: map<UserKey, Bytes>,
                           metered: map<UserKey, Bytes>) {
    forall t | t in current.inbounds && (t !in desired.inbounds || OwnerChanges(current, desired, t)) ::
      PaidUp(lost, gone, metered, t)
  }

  /** Removals, in-place updates and replacements: afterwards only registries and additions are missing. */
  method ReshapeListeners(engine: Engine, pending: PendingTraffic, ghost tx: Tx, current: NormalizedConfig,
                          desired: NormalizedConfig, diff: ConfigDiff)
    returns (f: Option<StepFailure>, journal: seq<Undo>, replaced: seq<Tag>, ghost leases: map<Tag, Lease>)
    requires GoodTx(tx) && Live(engine, pending, tx, []) && current == tx.current && desired == tx.desired
    requires diff == DiffConfigs(current, desired)
    modifies engine, pending
    ensures engine.Lossless()
    ensures f.None? ==>
      && Live(engine, pending, tx, journal) && UserState(tx, engine.plane, {}, replaced)
      && SetAside(tx, replaced, leases, Kept(tx))
      && forall k | 0 <= k < |replaced| :: PaidUp(engine.lost, engine.gone, old(engine.counted), replaced[k])
    ensures f.Some? ==> Halted(engine, pending, tx, journal, f.value)
    ensures engine.healthy && DisjointBinds(desired) ==> f.None? || f.value.cause.NoCapacity()
  {
    hide Sound, JournalOwned, KeepsAuthority, Tracked, GoodTx, Halted, HotState, HotDone, SetAside, UserState, RoomFor;
    hide DeltasOf, Ordered, ChangedDeltas, Less, DisjointBinds, Later, PaidUp;
    DiffDeltas(tx);
    TxBasics(tx);
    RewindsNone(engine.plane, tx.start);
    OrderedDistinct(current.inbounds.Keys - desired.inbounds.Keys);
    replaced, leases := [], map[];
    var dropped;
    f, journal, dropped := StopAll(engine, pending, tx, current, diff.removed, map[], []);
    ghost var was := engine.Account();
    if f.Some? {
      return;
    }
    RemovedState(tx);
    var held;
    f, journal, replaced, held := HotPhase(engine, pending, tx, current, desired, diff.changed, journal);
    LaterOn(old(engine.Account()), was, engine.Account());
    was := engine.Account();
    if f.Some? {
      return;
    }
    leases := held;
    f, journal := ReplacePhase(engine, pending, tx, current, desired, replaced, held, journal);
    if f.None? {
      forall k | 0 <= k < |replaced| ensures PaidUp(engine.lost, engine.gone, old(engine.counted), replaced[k]) {
        PaidUpEarlier(engine.lost, engine.gone, old(engine.Account()), was, replaced[k]);
      }
    }
    LaterOn(old(engine.Account()), was, engine.Account());
  }

  /** The incremental path. Success means the desired topology, and that no inbound which stays live
      hands a credential over; on a healthy engine with capacity left, and sockets that do not
      clash, nothing else prevents it. */
  method ExecuteIncremental(engine: Engine, pending: PendingTraffic, ghost tx: Tx, current: NormalizedConfig,
                            desired: NormalizedConfig)
    returns (f: Option<StepFailure>, journal: seq<Undo>)
    requires GoodTx(tx) && Live(engine, pending, tx, []) && current == tx.current && desired == tx.desired
    modifies engine, pending
    ensures engine.Lossless()
    ensures f.None? ==> Safe(engine, pending, tx, journal) && Reached(tx, engine.plane) && !HandsOver(current, desired)
    ensures f.None? ==> Boundary(current, desired, engine.lost, engine.gone, old(engine.counted))
    ensures f.Some? ==> Halted(engine, pending, tx, journal, f.value)
    ensures engine.healthy && DisjointBinds(desired) ==> OnlyRefusals(tx, f)
  {
    hide Sound, JournalOwned, KeepsAuthority, Tracked, GoodTx, Halted, HotState, HotDone, SetAside, UserState, KeptDone;
    hide Gained, RoomFor, DeltasOf, Ordered, ChangedDeltas, Less, DisjointBinds, HandsOver, Reached;
    hide Later, PaidUp, Boundary;
    var diff := DiffConfigs(current, desired);
    DiffDeltas(tx);
    OrderedDistinct(desired.inbounds.Keys - current.inbounds.Keys);
    var replaced;
    ghost var aside;
    f, journal, replaced, aside := ReshapeListeners(engine, pending, tx, current, desired, diff);
    ghost var reshaped, lost := engine.Account(), engine.lost;
    if f.Some? {
      return;
    }
    f, journal := UserPhase(engine, pending, tx, current, desired, diff.changed, replaced, journal);
    LaterOn(old(engine.Account()), reshaped, engine.Account());
    ghost var was := engine.Account();
    if f.Some? {
      return;
    }
    ghost var kept := engine.plane;
    if DisjointBinds(desired) {
      AddedRoom(tx, kept, replaced, diff.added);
    }
    AddedFresh(tx, diff.added);
    f, journal := StartAll(engine, pending, tx, current, desired, diff.added, map[], journal);
    LaterOn(reshaped, was, engine.Account());
    LaterOn(old(engine.Account()), was, engine.Account());
    was := engine.Account();
    if f.Some? {
      return;
    }
    AddedReached(tx, kept, engine.plane, replaced);
    NoHandsOver(tx, kept, replaced, aside);
    f := FlushChangedMetadata(engine, pending, tx, current, desired, replaced, journal);
    LaterOn(reshaped, was, engine.Account());
    LaterOn(old(engine.Account()), was, engine.Account());
    if f.None? {
      BoundaryHeld(engine, pending, tx, old(engine.Account()), reshaped, lost, was, replaced);
    }
  }

  /** Removed tags are gone, replaced tags were stopped on the way, and the others were flushed last. */
  lemma BoundaryHeld(engine: Engine, pending: PendingTraffic, tx: Tx, first: Ledger, reshaped: Ledger, lost: bool,
                     last: Ledger, replaced: seq<Tag>)
    requires Sound(engine, pending, tx.books) && Reached(tx, engine.plane) && (lost ==> engine.lost)
    requires Later(first, engine.Account()) && Later(reshaped, engine.Account()) && Later(first, last)
    requires forall k | 0 <= k < |replaced| :: PaidUp(lost, reshaped.gone, first.counted, replaced[k])
    requires forall t | OwnerChanges(tx.current, tx.desired, t) && t !in replaced ::
      PaidUp(engine.lost, engine.gone, last.counted, t)
    ensures Boundary(tx.current, tx.desired, engine.lost, engine.gone, first.counted)
  {
    hide Later, PaidUp, OwnerChanges, Balanced, BookedOnly, GoodPlane, Registered;
    forall t | t in tx.current.inbounds && (t !in tx.desired.inbounds || OwnerChanges(tx.current, tx.desired, t))
      ensures PaidUp(engine.lost, engine.gone, first.counted, t)
    {
      if t !in tx.desired.inbounds {
        assert t !in engine.plane.Keys;
        AbsentPaid(engine, first, t);
      } else if t in replaced {
        var k :| 0 <= k < |replaced| && replaced[k] == t;
        PaidUpStill(lost, reshaped, engine.lost, engine.Account(), first.counted, t);
      } else {
        PaidUpEarlier(engine.lost, engine.gone, first, last, t);
      }
    }
  }

  lemma TxBasics(tx: Tx)
    requires GoodTx(tx)
    ensures tx.start.Keys == tx.current.inbounds.Keys
  {
  }

  lemma RewindsNone(plane: Plane, start: Plane)
    requires Rewinds([], plane, start)
    ensures plane == start
  {
  }

  lemma AddedFresh(tx: Tx, added: seq<Tag>)
    requires GoodTx(tx)
    requires forall i | 0 <= i < |added| :: added[i] in tx.desired.inbounds.Keys - tx.current.inbounds.Keys
    ensures forall i | 0 <= i < |added| :: added[i] in tx.desired.inbounds && LeaseFor(tx, added[i], None)
  {
    forall i | 0 <= i < |added| ensures added[i] in tx.desired.inbounds && LeaseFor(tx, added[i], None) {
      var t := added[i];
      assert t in tx.desired.inbounds.Keys - tx.current.inbounds.Keys;
      assert t !in tx.start.Keys;
    }
  }

  lemma NoHandsOver(tx: Tx, plane: Plane, replaced: seq<Tag>, leases: map<Tag, Lease>)
    requires KeptDone(tx, plane, replaced) && SetAside(tx, replaced, leases, Kept(tx))
    ensures !HandsOver(tx.current, tx.desired)
  {
    hide Handover, Stays;
    forall t | t in Kept(tx) && StaysLive(tx, t)
      ensures !Handover(KindsFor(tx, t), tx.current.inbounds[t].users, tx.desired.inbounds[t].users)
    {
      assert t in plane.Keys;
    }
  }
}
