/** The building blocks of the runtime: books across transactions, labels of surviving listeners,
    DNS generations, and the way back and the way forward
    (crates/node-agent/src/runtime.rs:791-957, 1772-1870, 2036-2309). */
module Publication {
  import opened Basics
  import opened Topology
  import opened Accounting
  import opened EngineModel
  import opened Steps
  import opened Journal
  import opened Transaction
  import opened Incremental
  import opened Recovery

  // ---------------------------------------------------------------- the books

  /** The identities that may be booked while a topology is the published one. */
  ghost function Claimable(published: NormalizedConfig): iset<Key> {
    iset k: Key |
      if k.tag in published.inbounds then
        k.node == published.inbounds[k.tag].node && k.protocol == published.inbounds[k.tag].protocol
      else k.node == k.tag
  }

  lemma AccountsOwns(published: NormalizedConfig, owner: Inbound)
    requires Normal(published) && Accounts(published, owner)
    ensures Owns(Claimable(published), owner)
  {
  }

  /** Sound accounts, whatever was booked. */
  ghost predicate Fair(engine: Engine, pending: PendingTraffic, delivered: seq<Receipt>)
    reads engine, pending
  {
    Sound(engine, pending, Books(delivered, pending.entries, iset{}, 0))
  }

  lemma OpenBooks(engine: Engine, pending: PendingTraffic, delivered: seq<Receipt>, mine: iset<Key>, n: nat)
    requires Fair(engine, pending, delivered)
    ensures Sound(engine, pending, Books(delivered, pending.entries, mine, n))
  {
  }

  lemma CloseBooks(engine: Engine, pending: PendingTraffic, x: Books)
    requires Sound(engine, pending, x)
    ensures Fair(engine, pending, x.delivered)
  {
  }

  lemma OpenParts(engine: Engine, pending: PendingTraffic, delivered: seq<Receipt>)
    requires Fair(engine, pending, delivered)
    ensures engine.Valid() && pending.Valid() && pending.reserved == {} && (engine.lost ==> engine.uncertain)
    ensures Filed(pending.entries) && Settled(engine.plane, engine.uncertain)
    ensures !engine.lost ==> Balanced(engine.gone, pending.entries, delivered)
    ensures engine.starved ==> QueueFull(pending)
  {
  }

  lemma CloseParts(engine: Engine, pending: PendingTraffic, delivered: seq<Receipt>)
    requires engine.Valid() && pending.Valid() && pending.reserved == {} && (engine.lost ==> engine.uncertain)
    requires Settled(engine.plane, engine.uncertain)
    requires !engine.lost ==> Balanced(engine.gone, pending.entries, delivered)
    requires engine.starved ==> QueueFull(pending)
    ensures Fair(engine, pending, delivered)
  {
  }

  /** A receipt without room means a full queue, until it is drained. */
  lemma StarvedFull(engine: Engine, pending: PendingTraffic, x: Books)
    requires Sound(engine, pending, x) && engine.starved
    ensures QueueFull(pending)
  {
  }

  lemma SoundBooked(engine: Engine, pending: PendingTraffic, x: Books)
    requires Sound(engine, pending, x)
    ensures BookedOnly(x.base, pending.entries, x.mine)
  {
  }

  lemma SoundPlane(engine: Engine, pending: PendingTraffic, x: Books)
    requires Sound(engine, pending, x)
    ensures GoodPlane(engine.plane, engine.authority)
  {
  }

  lemma BookedNone(e: Entries)
    ensures forall mine: iset<Key> :: BookedOnly(e, e, mine)
  {
  }

  lemma BookedChain(a: Entries, b: Entries, c: Entries, base: NormalizedConfig, desired: NormalizedConfig)
    requires BookedOnly(b, c, Entitled(base, desired))
    ensures a == b ==> BookedOnly(a, c, Entitled(base, desired))
    ensures BookedOnly(a, b, Claimable(base)) ==> BookedOnly(a, c, Claimable(base))
  {
    forall k: Key | k !in Claimable(base) ensures RecordsOf(c, k) == RecordsOf(b, k) {
      assert k !in Entitled(base, desired);
    }
  }

  lemma OwnsAll(c: NormalizedConfig)
    requires Normal(c)
    ensures forall t | t in c.inbounds :: c.inbounds[t].tag == t && Owns(Claimable(c), c.inbounds[t])
  {
    forall t | t in c.inbounds ensures c.inbounds[t].tag == t && Owns(Claimable(c), c.inbounds[t]) {
      AccountsOwns(c, c.inbounds[t]);
    }
  }

  lemma MatchedSettled(plane: Plane, c: NormalizedConfig)
    requires Matches(plane, c)
    ensures forall t | t in c.inbounds :: t in plane && plane[t].draining == {}
  {
    forall t | t in c.inbounds ensures t in plane && plane[t].draining == {} {
      assert t in plane.Keys;
    }
  }

  /** Every byte metered for a user at an earlier moment is in the answer of some drain. */
  ghost predicate Delivered(delivered: seq<Receipt>, metered: map<UserKey, Bytes>, k: UserKey) {
    At(metered, k).up <= HeldFor(delivered, k.0, k.1).up && At(metered, k).down <= HeldFor(delivered, k.0, k.1).down
  }

  lemma DeliveredAll(gone: map<UserKey, Bytes>, delivered: seq<Receipt>, metered: map<UserKey, Bytes>, k: UserKey)
    requires Balanced(gone, [], delivered) && PaidUp(false, gone, metered, k.0)
    ensures Delivered(delivered, metered, k)
  {
    assert Paid(false, gone, metered, (k.0, k.1));
    assert k == (k.0, k.1);
  }

  // ---------------------------------------------------------------- who a surviving listener belongs to

  /** The labels recovery starts from: what the rollback recorded about live tags, and the
      retained topology for live tags it recorded nothing about. */
  function Relabel(labels: Labels, c: NormalizedConfig, live: set<Tag>): (r: Labels)
    ensures forall t :: t in r <==> t in live && (t in labels || t in c.inbounds)
  {
    map t | t in live && (t in labels || t in c.inbounds) ::
      if t in labels then labels[t] else Retiring(c.inbounds[t], c.inbounds[t])
  }

  lemma RelabelTracks(labels: Labels, c: NormalizedConfig, plane: Plane)
    requires Normal(c) && LabelsOwned(labels, c) && Tracked(plane, c, labels, [])
    ensures LabelsOwned(Relabel(labels, c, plane.Keys), c) && Relabel(labels, c, plane.Keys).Keys == plane.Keys
    ensures Tracked(plane, c, Relabel(labels, c, plane.Keys), [])
  {
    hide Names;
    var relabelled := Relabel(labels, c, plane.Keys);
    forall t | t in plane ensures BilledTo(relabelled, c, t) == BilledTo(labels, c, t) {
      assert t in c.inbounds.Keys + labels.Keys + Candidates([]);
    }
    forall t | t in plane.Keys ensures t in Relabel(labels, c, plane.Keys).Keys {
      assert t in c.inbounds.Keys + labels.Keys + Candidates([]);
    }
  }

  lemma TrackedMap(tx: Tx, plane: Plane, labels: Labels)
    requires Tracked(plane, tx.current, labels, []) && labels == map[]
    ensures Tracked(plane, tx.current, map[], [])
    ensures JournalOwned([], tx.current, tx.desired, tx.books.mine)
  {
  }

  lemma TrackedMatch(plane: Plane, c: NormalizedConfig)
    requires Matches(plane, c)
    ensures Tracked(plane, c, map[], [])
  {
  }

  /** A registry that nobody has joined is still named, and so is a listener that is gone. */
  lemma TrackedLess(before: Plane, after: Plane, known: NormalizedConfig, labels: Labels, tag: Tag)
    requires Tracked(before, known, labels, [])
    requires after - {tag} == before - {tag} && Fewer(before, after, tag)
    ensures Tracked(after, known, labels, []) && (tag !in after ==> Tracked(after, known, labels - {tag}, []))
  {
    hide Billable, Names, Fewer;
    forall t | t in after ensures t in before && Covered(after[t], t, known, labels, []) {
      if t == tag {
        FewerHad(before, after, t);
        CoveredFewer(before, after, t, known, labels, []);
      } else {
        assert t in after - {tag};
        assert t in before - {tag};
      }
    }
    if tag !in after {
      forall t | t in after ensures BilledTo(labels - {tag}, known, t) == BilledTo(labels, known, t) {
      }
      assert forall t | t in after.Keys :: t in known.inbounds.Keys + (labels - {tag}).Keys;
    }
  }

  /** A published inbound, started again under its own label or under none. */
  lemma TrackedMore(before: Plane, after: Plane, known: NormalizedConfig, labels: Labels, tag: Tag)
    requires Tracked(before, known, labels, []) && tag in known.inbounds && tag in after
    requires after - {tag} == before - {tag} && after[tag] == SlotFor(known.inbounds[tag], after[tag].lineage)
    ensures tag !in labels ==> Tracked(after, known, labels, [])
    ensures Tracked(after, known, labels[tag := Retiring(known.inbounds[tag], known.inbounds[tag])], [])
  {
    hide Names;
    var own := Some(Retiring(known.inbounds[tag], known.inbounds[tag]));
    var more := labels[tag := own.value];
    assert after[tag].users.Some? ==> Names(own, after[tag], {}) by { PublishedNamed(known.inbounds[tag], after[tag]); }
    forall t | t in after.Keys && t != tag ensures t in before.Keys && after[t] == before[t] {
      assert t in after - {tag};
      assert t in before - {tag};
    }
    assert Admitted([], tag) == {};
  }

  lemma TrackedStart(before: Plane, known: NormalizedConfig, labels: Labels, tag: Tag, lineage: nat)
    requires Tracked(before, known, labels, []) && tag in known.inbounds
    ensures
      var after := before[tag := SlotFor(known.inbounds[tag], lineage)];
      Tracked(after, known, labels[tag := Retiring(known.inbounds[tag], known.inbounds[tag])], [])
  {
    hide Tracked;
    var after := before[tag := SlotFor(known.inbounds[tag], lineage)];
    assert after - {tag} == before - {tag};
    TrackedMore(before, after, known, labels, tag);
  }

  lemma TrackedNobody(known: NormalizedConfig, labels: Labels)
    ensures Tracked(map[], known, labels, [])
  {
  }

  lemma PublishedNamed(i: Inbound, s: Slot)
    requires s == SlotFor(i, s.lineage)
    ensures s.users.Some? ==> Names(Some(Retiring(i, i)), s, {})
  {
  }

  lemma LabelsLess(labels: Labels, c: NormalizedConfig, tag: Tag)
    requires LabelsOwned(labels, c)
    ensures LabelsOwned(labels - {tag}, c)
  {
  }

  lemma LabelsMore(labels: Labels, c: NormalizedConfig, tag: Tag)
    requires LabelsOwned(labels, c) && Normal(c) && tag in c.inbounds
    ensures LabelsOwned(labels[tag := Retiring(c.inbounds[tag], c.inbounds[tag])], c)
  {
  }

  lemma BilledOwner(labels: Labels, known: NormalizedConfig, plane: Plane, tag: Tag)
    requires Normal(known) && LabelsOwned(labels, known) && Tracked(plane, known, labels, []) && tag in plane
    ensures var who := BilledTo(labels, known, tag);
      && who.Some? && who.value.accounting.tag == tag && Owns(Claimable(known), who.value.accounting)
      && (plane[tag].users.Some? ==> plane[tag].draining <= Labelled(who))
  {
    assert Covered(plane[tag], tag, known, labels, []);
    assert Admitted([], tag) == {};
    assert tag in known.inbounds.Keys + labels.Keys + Candidates([]);
    AccountsOwns(known, BilledTo(labels, known, tag).value.accounting);
  }

  /** Stop every listener the engine reports, whatever happens to the others. */
  method StopEverything(engine: Engine, pending: PendingTraffic, ghost x: Books, known: NormalizedConfig,
                        labels: Labels)
    returns (errors: nat, noRoom: bool)
    requires Sound(engine, pending, x) && Normal(known) && x.mine == Claimable(known)
    requires LabelsOwned(labels, known) && Tracked(engine.plane, known, labels, [])
    modifies engine, pending
    ensures Sound(engine, pending, x) && Tracked(engine.plane, known, labels, [])
    ensures errors == 0 <==> engine.plane == map[]
    ensures engine.lost == old(engine.lost)
    ensures (noRoom ==> engine.starved) && (engine.healthy && !noRoom ==> errors == 0)
  {
    hide Sound, LabelsOwned, Ordered, Claimable, Owns, Normal, Tracked, BilledTo, Less, Labelled, Fewer;
    var tags := Ordered(engine.plane.Keys);
    OrderedDistinct(engine.plane.Keys);
    LessHere(engine.plane, tags);
    errors, noRoom := 0, false;
    ghost var stuck := 0;
    for i := 0 to |tags|
      invariant Sound(engine, pending, x) && Tracked(engine.plane, known, labels, [])
      invariant engine.lost == old(engine.lost)
      invariant forall j | i <= j < |tags| :: tags[j] in engine.plane
      invariant errors == 0 ==> engine.plane == Less(old(engine.plane), tags[..i])
      invariant errors > 0 ==> stuck in engine.plane && forall j | i <= j < |tags| :: tags[j] != stuck
      invariant (noRoom ==> engine.starved) && (engine.healthy && !noRoom ==> errors == 0)
    {
      var tag := tags[i];
      ghost var before := engine.plane;
      BilledOwner(labels, known, before, tag);
      LessNext(old(engine.plane), tags, i);
      var ok, full := ForceStop(engine, pending, x, tag, BilledTo(labels, known, tag));
      assert engine.plane.Keys <= before.Keys;
      TrackedLess(before, engine.plane, known, labels, tag);
      noRoom := noRoom || full;
      if !ok {
        errors, stuck := errors + 1, tag;
      }
    }
    assert tags[..|tags|] == tags;
    LessEverything(old(engine.plane), tags);
  }

  // ---------------------------------------------------------------- the retained topology

  ghost predicate Captured(plane: Plane, replay: map<Tag, Lease>) {
    forall t | t in plane :: t in replay && replay[t] == Lease(t, plane[t].lineage)
  }

  /** The retained leases rebuild the retained topology in its own replay namespaces. */
  ghost predicate Retained(c: NormalizedConfig, leases: map<Tag, Lease>, authority: map<Tag, nat>) {
    forall t | t in c.inbounds :: t in leases && t in authority && leases[t] == Lease(t, authority[t])
  }

  lemma RetainedSlot(c: NormalizedConfig, leases: map<Tag, Lease>, authority: map<Tag, nat>, tag: Tag)
    requires Normal(c) && Retained(c, leases, authority) && tag in c.inbounds
    ensures c.inbounds[tag].tag == tag && GoodInbound(c.inbounds[tag])
    ensures tag in leases && tag in authority && leases[tag] == Lease(tag, authority[tag])
  {
  }

  lemma RetainedFrom(tx: Tx, replay: map<Tag, Lease>, authority: map<Tag, nat>)
    requires GoodTx(tx) && Captured(tx.start, replay) && KeepsAuthority(tx.start, authority)
    ensures Retained(tx.current, replay, authority)
  {
    forall t | t in tx.current.inbounds ensures t in replay && t in authority && replay[t] == Lease(t, authority[t]) {
      assert t in tx.start.Keys;
    }
  }

  lemma MatchedDisjoint(plane: Plane, authority: map<Tag, nat>, c: NormalizedConfig)
    requires GoodPlane(plane, authority) && Matches(plane, c)
    ensures DisjointBinds(c)
  {
    forall a, b | a in c.inbounds && b in c.inbounds && a != b
      ensures c.inbounds[a].config.binds !! c.inbounds[b].config.binds
    {
      assert a in plane.Keys && b in plane.Keys;
    }
  }

  lemma LessHere(plane: Plane, tags: seq<Tag>)
    ensures Less(plane, tags[..0]) == plane
  {
  }

  /** The plane shows exactly the first `n` listed inbounds of a topology, under their leases. */
  ghost predicate Rebuilt(plane: Plane, c: NormalizedConfig, leases: map<Tag, Lease>, tags: seq<Tag>, n: nat) {
    && n <= |tags|
    && (forall t | t in plane ::
          && t in c.inbounds && t in leases && t in tags[..n]
          && plane[t] == SlotFor(c.inbounds[t], leases[t].lineage))
    && (forall i | 0 <= i < n :: tags[i] in plane)
  }

  lemma RebuiltNone(c: NormalizedConfig, leases: map<Tag, Lease>, tags: seq<Tag>)
    ensures Rebuilt(map[], c, leases, tags, 0)
  {
  }

  lemma RebuiltStep(plane: Plane, c: NormalizedConfig, leases: map<Tag, Lease>, tags: seq<Tag>, n: nat)
    requires Rebuilt(plane, c, leases, tags, n) && n < |tags| && tags[n] in c.inbounds && tags[n] in leases
    ensures Rebuilt(plane[tags[n] := SlotFor(c.inbounds[tags[n]], leases[tags[n]].lineage)], c, leases, tags, n + 1)
  {
    assert tags[..n + 1] == tags[..n] + [tags[n]];
  }

  lemma RebuiltRoom(plane: Plane, c: NormalizedConfig, leases: map<Tag, Lease>, tags: seq<Tag>, n: nat)
    requires Rebuilt(plane, c, leases, tags, n) && n < |tags| && Distinct(tags) && DisjointBinds(c)
    requires tags[n] in c.inbounds
    ensures tags[n] !in plane && BindsFree(plane, c.inbounds[tags[n]].config.binds)
  {
    var next := tags[n];
    assert next !in tags[..n];
  }

  /** The next inbound of the retained topology is not refused. */
  lemma Restartable(plane: Plane, c: NormalizedConfig, leases: map<Tag, Lease>, n: nat, authority: map<Tag, nat>)
    requires var tags := Ordered(c.inbounds.Keys); n < |tags| && Rebuilt(plane, c, leases, tags, n)
    requires Normal(c) && Retained(c, leases, authority)
    ensures
      var tag := Ordered(c.inbounds.Keys)[n];
      && tag in c.inbounds && tag in leases
      && (DisjointBinds(c) ==> AddRefusal(plane, authority, c.inbounds[tag], Some(leases[tag])).None?)
  {
    hide Normal, Retained, Rebuilt, GoodInbound, BindsFree, DisjointBinds, Distinct, Ordered;
    var tags := Ordered(c.inbounds.Keys);
    OrderedDistinct(c.inbounds.Keys);
    RetainedSlot(c, leases, authority, tags[n]);
    if DisjointBinds(c) {
      RebuiltRoom(plane, c, leases, tags, n);
    }
  }

  lemma RebuiltAll(plane: Plane, c: NormalizedConfig, leases: map<Tag, Lease>)
    requires var tags := Ordered(c.inbounds.Keys); Rebuilt(plane, c, leases, tags, |tags|)
    ensures Matches(plane, c)
  {
    hide Ordered;
    var tags := Ordered(c.inbounds.Keys);
    assert tags[..|tags|] == tags;
    assert c.inbounds.Keys <= plane.Keys by {
      forall t | t in c.inbounds.Keys ensures t in plane.Keys {
        assert t in tags;
        var i :| 0 <= i < |tags| && tags[i] == t;
        assert tags[i] in plane;
      }
    }
    assert plane.Keys <= c.inbounds.Keys by {
      forall t | t in plane.Keys ensures t in c.inbounds.Keys {
        assert t in plane;
      }
    }
  }

  // ---------------------------------------------------------------- the two states of a runtime

  /** The published topology is what the engine runs, with resolvers of the current DNS generation
      and, once anything was committed, with its own probe resolver. */
  ghost predicate Running(engine: Engine, c: NormalizedConfig, committed: bool)
    reads engine
  {
    && Normal(c) && Matches(engine.plane, c) && engine.outdated == {}
    && (if committed then engine.probe == Some(c.probe) else c.inbounds == map[])
  }

  /** Nothing is published, but a topology is retained, every live tag is accounted for, and the
      retained topology can be rebuilt. */
  ghost predicate Retaining(engine: Engine, c: NormalizedConfig, committed: bool, labels: Labels,
                            replay: map<Tag, Lease>, closed: bool)
    reads engine
  {
    && Normal(c) && LabelsOwned(labels, c) && Tracked(engine.plane, c, labels, [])
    && (!closed ==> Retained(c, replay, engine.authority) && DisjointBinds(c))
    && (!committed ==> c.inbounds == map[])
  }

  lemma RunningEmpty(engine: Engine)
    requires engine.plane == map[] && engine.outdated == {}
    ensures Running(engine, EmptyConfig, false)
  {
  }

  /** What is known about every live tag, whichever of the two states the runtime is in. */
  lemma Accountable(engine: Engine, c: NormalizedConfig, committed: bool, labels: Labels, replay: map<Tag, Lease>,
                    closed: bool)
    requires Retaining(engine, c, committed, labels, replay, closed)
          || (labels == map[] && Running(engine, c, committed))
    ensures Normal(c) && LabelsOwned(labels, c) && Tracked(engine.plane, c, labels, [])
    ensures !committed ==> c.inbounds == map[]
  {
  }

  lemma RetainingClosed(engine: Engine, c: NormalizedConfig, committed: bool, labels: Labels, replay: map<Tag, Lease>)
    requires Normal(c) && LabelsOwned(labels, c) && Tracked(engine.plane, c, labels, [])
    requires !committed ==> c.inbounds == map[]
    ensures Retaining(engine, c, committed, labels, replay, true)
  {
  }

  lemma RunningAgain(engine: Engine, tx: Tx, committed: bool)
    requires GoodTx(tx) && engine.plane == tx.start && engine.outdated == {}
    requires if committed then engine.probe == Some(tx.current.probe) else tx.current.inbounds == map[]
    ensures Running(engine, tx.current, committed)
  {
  }

  lemma RetainingAll(engine: Engine, tx: Tx, committed: bool, labels: Labels, replay: map<Tag, Lease>)
    requires GoodTx(tx) && Captured(tx.start, replay) && KeepsAuthority(tx.start, engine.authority)
    requires LabelsOwned(labels, tx.current) && Tracked(engine.plane, tx.current, labels, [])
    requires DisjointBinds(tx.current) && (!committed ==> tx.current.inbounds == map[])
    ensures Retaining(engine, tx.current, committed, labels, replay, false)
  {
    hide LabelsOwned, Tracked, DisjointBinds, Captured, KeepsAuthority, Retained;
    RetainedFrom(tx, replay, engine.authority);
  }

  // ---------------------------------------------------------------- DNS generations

  /** The DNS generation already has another probe resolver. */
  predicate ProbeTaken(bound: Option<Probe>, desired: NormalizedConfig) {
    bound.Some? && bound != Some(desired.probe)
  }

  /** The compiler makes the probe resolver from the DNS section and the rule-set bytes. */
  predicate Coherent(a: NormalizedConfig, b: NormalizedConfig) {
    a.dns == b.dns && a.digest == b.digest ==> a.probe == b.probe
  }

  /** DNS generations a transaction goes through: one before a full reload of a committed
      generation, one more before its rollback. */
  function Rotations(full: bool, committed: bool, ok: bool): nat {
    if !full then 0 else (if committed then 1 else 0) + (if ok then 0 else 1)
  }

  method Rotate(engine: Engine, pending: PendingTraffic, ghost x: Books)
    requires Sound(engine, pending, x)
    modifies engine
    ensures Sound(engine, pending, x) && engine.plane == old(engine.plane) && engine.authority == old(engine.authority)
    ensures engine.dnsGeneration == old(engine.dnsGeneration) + 1 && engine.mutations == old(engine.mutations) + 1
    ensures engine.probe.None? && engine.outdated == engine.plane.Keys && Later(old(engine.Account()), engine.Account())
    ensures engine.lost == old(engine.lost)
  {
    hide Balanced, BookedOnly, Settled, GoodPlane, Registered;
    engine.RotateDns();
  }

  method BindProbe(engine: Engine, pending: PendingTraffic, ghost x: Books, p: Probe) returns (ok: bool)
    requires Sound(engine, pending, x)
    modifies engine
    ensures Sound(engine, pending, x) && engine.plane == old(engine.plane) && engine.authority == old(engine.authority)
    ensures engine.mutations == old(engine.mutations) && engine.dnsGeneration == old(engine.dnsGeneration)
    ensures engine.outdated == old(engine.outdated) && Later(old(engine.Account()), engine.Account())
    ensures engine.lost == old(engine.lost)
    ensures engine.probe == if ok then Some(p) else old(engine.probe)
    ensures old(engine.probe).Some? ==> (ok <==> old(engine.probe) == Some(p))
    ensures engine.healthy ==> (ok <==> old(engine.probe).None? || old(engine.probe) == Some(p))
  {
    hide Balanced, BookedOnly, Settled, GoodPlane, Registered;
    ok := engine.ConfigureProbe(p);
  }

  // ---------------------------------------------------------------- going back to the previous topology

  /** The plane runs exactly this inbound. */
  ghost predicate Shows(plane: Plane, i: Inbound) {
    i.tag in plane && plane[i.tag] == SlotFor(i, plane[i.tag].lineage)
  }

  /** Bring a restored inbound onto the rollback DNS generation: in place where possible. */
  method RefreshOne(engine: Engine, pending: PendingTraffic, ghost x: Books, i: Inbound)
    returns (ok: bool, noRoom: bool)
    requires Sound(engine, pending, x) && Owns(x.mine, i)
    modifies engine, pending
    ensures Sound(engine, pending, x)
    ensures engine.authority == old(engine.authority) && engine.Onward()
    ensures engine.plane - {i.tag} == old(engine.plane) - {i.tag}
    ensures GoodInbound(i) ==>
      || Fewer(old(engine.plane), engine.plane, i.tag)
      || (i.tag in engine.plane && engine.plane[i.tag] == SlotFor(i, engine.plane[i.tag].lineage))
    ensures GoodInbound(i) && Shows(old(engine.plane), i) ==>
      (ok ==> engine.plane == old(engine.plane)) && (engine.healthy ==> ok || noRoom)
    ensures (ok ==> i.tag !in engine.outdated) && (noRoom ==> engine.starved)
  {
    hide Balanced, BookedOnly, Settled, Registered, Owns;
    ok, noRoom := false, false;
    var r := SwapRules(engine, pending, x, i.tag, i.config);
    if r.None? {
      return true, false;
    }
    if !r.value.ReloadRequired? {
      return;
    }
    var lease := PreserveLease(engine, pending, x, i.tag);
    if lease.Err? {
      return;
    }
    var f := ReplaceInbound(engine, pending, x, i, i, i, i, lease.value);
    ok, noRoom := f.None?, f.Some? && f.value.cause.PendingFull?;
  }

  method RefreshAll(engine: Engine, pending: PendingTraffic, ghost tx: Tx, previous: NormalizedConfig)
    returns (errors: nat, noRoom: bool)
    requires GoodTx(tx) && Safe(engine, pending, tx, []) && engine.plane == tx.start && previous == tx.current
    modifies engine, pending
    ensures Safe(engine, pending, tx, [])
    ensures engine.authority == old(engine.authority) && engine.Onward()
    ensures errors == 0 ==> engine.plane == tx.start && engine.outdated == {}
    ensures (noRoom ==> engine.starved) && (engine.healthy && !noRoom ==> errors == 0)
  {
    hide Sound, KeepsAuthority, JournalOwned, Tracked, Ordered, GoodTx, SlotFor, GoodInbound, Owns, Accounts, Less;
    hide Later, Distinct, Ascending;
    LaterSame(engine.Account());
    var tags := Ordered(previous.inbounds.Keys);
    OrderedDistinct(previous.inbounds.Keys);
    errors, noRoom := 0, false;
    NothingOutdated(engine, pending, tx.books);
    LessHere(tx.start, tags);
    for i := 0 to |tags|
      invariant Safe(engine, pending, tx, [])
      invariant engine.authority == old(engine.authority) && engine.Onward()
      invariant errors == 0 ==> engine.plane == tx.start && engine.outdated <= Less(tx.start, tags[..i]).Keys
      invariant (noRoom ==> engine.starved) && (engine.healthy && !noRoom ==> errors == 0)
    {
      var tag := tags[i];
      OwnsPublished(tx, tag);
      PublishedSlot(tx, tag);
      LessNext(tx.start, tags, i);
      ghost var before, was := engine.plane, engine.Account();
      var ok, full := RefreshOne(engine, pending, tx.books, previous.inbounds[tag]);
      LaterOn(old(engine.Account()), was, engine.Account());
      if Fewer(before, engine.plane, tag) {
        TrackedLess(before, engine.plane, tx.current, map[], tag);
      } else {
        TrackedMore(before, engine.plane, tx.current, map[], tag);
      }
      noRoom := noRoom || full;
      if !ok {
        errors := errors + 1;
      }
    }
    assert tags[..|tags|] == tags;
    PublishedTags(tx, tags);
    LessEverything(tx.start, tags);
  }

  lemma PublishedTags(tx: Tx, tags: seq<Tag>)
    requires GoodTx(tx) && tags == Ordered(tx.current.inbounds.Keys)
    ensures forall t | t in tx.start :: t in tags
  {
    hide Ordered;
    forall t | t in tx.start ensures t in tags {
      assert t in tx.current.inbounds.Keys;
    }
  }

  lemma PublishedSlot(tx: Tx, tag: Tag)
    requires GoodTx(tx) && tag in tx.current.inbounds
    ensures tag in tx.start && tx.current.inbounds[tag].tag == tag && GoodInbound(tx.current.inbounds[tag])
    ensures tx.start[tag] == SlotFor(tx.current.inbounds[tag], tx.start[tag].lineage)
  {
    assert tag in tx.start.Keys;
  }

  /** Everything a failed transaction does to the engine: a fresh DNS generation after a full
      reload, the journal newest first, and a refresh of what was restored. */
  method RestorePrevious(engine: Engine, pending: PendingTraffic, ghost tx: Tx, previous: NormalizedConfig,
                         f: StepFailure, journal: seq<Undo>, rotated: bool, fullReload: bool)
    returns (errors: nat, labels: Labels, noRoom: bool)
    requires GoodTx(tx) && Halted(engine, pending, tx, journal, f) && previous == tx.current
    requires if fullReload then rotated || previous.inbounds == map[] else !rotated && engine.outdated == {}
    modifies engine, pending
    ensures Sound(engine, pending, tx.books) && KeepsAuthority(tx.start, engine.authority)
    ensures LabelsOwned(labels, previous) && Tracked(engine.plane, previous, labels, [])
    ensures f.restored && errors == 0 ==> engine.plane == tx.start && labels == map[] && engine.outdated == {}
    ensures errors == 0 && fullReload ==> engine.probe == Some(previous.probe)
    ensures !fullReload && old(engine.probe).Some? ==> engine.probe == old(engine.probe)
    ensures engine.dnsGeneration == old(engine.dnsGeneration) + if fullReload then 1 else 0
    ensures engine.authority == old(engine.authority) && (old(engine.starved) ==> engine.starved)
    ensures (noRoom ==> engine.starved) && (engine.healthy && f.restored && !noRoom ==> errors == 0)
    ensures !fullReload && journal == [] && !f.changed ==> engine.mutations == tx.books.mutations
    ensures errors >= f.rollbackErrors
  {
    hide Balanced, BookedOnly, Settled, GoodPlane, Registered, KeepsAuthority, JournalOwned, Tracked, LabelsOwned;
    hide GoodTx, Rewinds, Ordered;
    errors := f.rollbackErrors;
    if fullReload {
      engine.RotateDns();
      var ok := engine.ConfigureProbe(previous.probe);
      if !ok {
        errors := errors + 1;
      }
    }
    var more, full;
    more, labels, full := RollbackJournal(engine, pending, tx.books, journal, previous, tx.desired, tx.start);
    errors, noRoom := errors + more, full;
    if rotated && f.restored && errors == 0 {
      TrackedMap(tx, engine.plane, labels);
      more, full := RefreshAll(engine, pending, tx, previous);
      errors, noRoom := errors + more, noRoom || full;
    }
    if previous.inbounds == map[] {
      NobodyThere(tx);
      NothingOutdated(engine, pending, tx.books);
    }
  }

  lemma NobodyThere(tx: Tx)
    requires GoodTx(tx) && tx.current.inbounds == map[]
    ensures tx.start == map[]
  {
    assert tx.start.Keys == {};
  }

  // ---------------------------------------------------------------- going forward

  /** A new DNS client or new rule-set bytes are reached through a full reload. */
  predicate FullReload(previous: NormalizedConfig, desired: NormalizedConfig, force: bool) {
    force || previous.dns != desired.dns || previous.digest != desired.digest
  }

  /** What an engine without faults refuses although the topology is valid: a handover on the incremental
      path, and before the first commit a probe resolver other than the bound one. */
  ghost predicate Blocked(previous: NormalizedConfig, desired: NormalizedConfig, full: bool, committed: bool,
                          bound: Option<Probe>) {
    (!full && HandsOver(previous, desired)) || (!committed && ProbeTaken(bound, desired))
  }

  /** Every surviving tag is still in its own replay namespace. */
  ghost predicate SameNamespaces(before: Plane, after: Plane) {
    forall t | t in before && t in after :: after[t].lineage == before[t].lineage
  }

  lemma Opening(engine: Engine, pending: PendingTraffic, tx: Tx)
    requires Normal(tx.current) && Normal(tx.desired) && Matches(engine.plane, tx.current)
    requires tx.start == engine.plane && Sound(engine, pending, tx.books)
    requires tx.books.mine == Entitled(tx.current, tx.desired)
    requires tx.books.mutations == engine.mutations
    ensures GoodTx(tx) && Live(engine, pending, tx, [])
  {
    hide Normal, Entitled, Sound, Matches;
    SoundPlane(engine, pending, tx.books);
    assert Tracked(engine.plane, tx.current, map[], []) by { TrackedMatch(engine.plane, tx.current); }
  }

  lemma Committing(tx: Tx, plane: Plane)
    requires Reached(tx, plane)
    ensures Matches(plane, tx.desired) && SameNamespaces(tx.start, plane)
  {
  }

  lemma HaltedRestored(engine: Engine, pending: PendingTraffic, tx: Tx, journal: seq<Undo>, f: StepFailure)
    requires Halted(engine, pending, tx, journal, f)
    ensures (engine.healthy ==> f.restored) && (!f.changed ==> f.restored)
  {
  }

  lemma HaltedEarned(engine: Engine, pending: PendingTraffic, tx: Tx, journal: seq<Undo>, f: StepFailure)
    requires Halted(engine, pending, tx, journal, f) && f.cause.NoCapacity()
    ensures engine.starved || |engine.authority| >= MAX_LINEAGES
  {
  }

  lemma SafeSound(engine: Engine, pending: PendingTraffic, tx: Tx, journal: seq<Undo>)
    requires Safe(engine, pending, tx, journal)
    ensures Sound(engine, pending, tx.books)
  {
  }

  /** Bind the probe resolver when the generation needs one, then take one of the two paths. */
  method Execute(engine: Engine, pending: PendingTraffic, ghost tx: Tx, current: NormalizedConfig,
                 desired: NormalizedConfig, full: bool, probe: bool)
    returns (f: Option<StepFailure>, journal: seq<Undo>)
    requires GoodTx(tx) && Live(engine, pending, tx, []) && current == tx.current && desired == tx.desired
    requires (full ==> probe)
    modifies engine, pending
    ensures engine.lost == old(engine.lost)
    ensures engine.dnsGeneration == old(engine.dnsGeneration) && engine.outdated <= old(engine.outdated)
    ensures old(engine.probe).Some? ==> engine.probe == old(engine.probe)
    ensures f.None? ==>
      Safe(engine, pending, tx, journal) && Reached(tx, engine.plane) && (!full ==> !HandsOver(current, desired))
    ensures f.None? && full ==> engine.outdated == {}
    ensures f.None? ==> Boundary(current, desired, engine.lost, engine.gone, old(engine.counted))
    ensures f.None? && probe ==> engine.probe == Some(desired.probe)
    ensures f.Some? ==> Halted(engine, pending, tx, journal, f.value)
    ensures probe && ProbeTaken(old(engine.probe), desired) ==> f.Some?
    ensures engine.healthy && DisjointBinds(desired) && f.Some? ==>
      || f.value.cause.NoCapacity() || (!full && HandsOver(current, desired))
      || (probe && ProbeTaken(old(engine.probe), desired))
  {
    hide Sound, GoodTx, Rewinds, Tracked, JournalOwned, KeepsAuthority, Reached, HandsOver;
    hide DisjointBinds, Later, Boundary, PaidUp;
    LaterSame(engine.Account());
    if probe {
      var ok := BindProbe(engine, pending, tx.books, desired.probe);
      if !ok {
        return Some(Unchanged(EngineFailed(Io))), [];
      }
    }
    ghost var bound := engine.Account();
    if full {
      f, journal := ExecuteFullReload(engine, pending, tx, current, desired);
      if f.None? {
        AllPaid(tx, engine.lost, engine.gone, bound.counted);
      }
    } else {
      f, journal := ExecuteIncremental(engine, pending, tx, current, desired);
    }
    if f.None? {
      BoundaryEarlier(current, desired, engine.lost, engine.gone, old(engine.Account()), bound);
    }
  }

  lemma AllPaid(tx: Tx, lost: bool, gone: map<UserKey, Bytes>, metered: map<UserKey, Bytes>)
    requires GoodTx(tx) && forall t | t in tx.start :: PaidUp(lost, gone, metered, t)
    ensures Boundary(tx.current, tx.desired, lost, gone, metered)
  {
    hide PaidUp, OwnerChanges;
    forall t | t in tx.current.inbounds ensures PaidUp(lost, gone, metered, t) {
      assert t in tx.start.Keys;
    }
  }

  lemma BoundaryEarlier(current: NormalizedConfig, desired: NormalizedConfig, lost: bool, gone: map<UserKey, Bytes>,
                        before: Ledger, now: Ledger)
    requires Boundary(current, desired, lost, gone, now.counted) && Later(before, now)
    ensures Boundary(current, desired, lost, gone, before.counted)
  {
    hide PaidUp, OwnerChanges, Later;
    forall t | t in current.inbounds && (t !in desired.inbounds || OwnerChanges(current, desired, t))
      ensures PaidUp(lost, gone, before.counted, t)
    {
      PaidUpEarlier(lost, gone, before, now, t);
    }
  }
}
