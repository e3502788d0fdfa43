/** The runtime that owns the engine, the published topology and the recovery state
    (crates/node-agent/src/runtime.rs:531-556, 791-957, 1772-1870, 2036-2309, 2411-2451). */
module Runtime {
  import opened Basics
  import opened Topology
  import opened Accounting
  import opened EngineModel
  import opened Steps
  import opened Journal
  import opened Transaction
  import opened Incremental
  import opened Recovery
  import opened Draining
  import opened Publication

  datatype RuntimeError = RuntimeError(rollbackErrors: nat, rolledBack: bool, stateUnchanged: bool, running: bool)

  /** What the checks that precede the first live change say about a candidate: normalization
      comes before recovery, engine validation after it. */
  datatype Preflight = Malformed | Invalid | Accepted

  predicate TurnedAway(closed: bool, closing: bool, check: Preflight) {
    closed || closing || check.Malformed?
  }

  class ShoesRuntime {
    const engine: Engine
    const pending: PendingTraffic
    var current: Option<NormalizedConfig>
    var recovery: Option<NormalizedConfig>
    var recoveryLive: Labels
    var recoveryReplay: map<Tag, Lease>
    var committed: bool
    var closing: bool
    var closed: bool
    /** Every receipt ever returned by a drain. */
    ghost var delivered: seq<Receipt>

    /** Exactly one topology stands, published or retained. */
    ghost predicate Inv() reads this, engine, pending {
      && Fair(engine, pending, delivered) && (current.Some? <==> recovery.None?)
      && (current.Some? ==> recoveryLive == map[] && Running(engine, current.value, committed))
      && (recovery.Some? ==> Retaining(engine, recovery.value, committed, recoveryLive, recoveryReplay, closed))
      && (closed ==> closing && (current.Some? ==> current.value == EmptyConfig))
    }

    constructor (healthy: bool, maxKeys: nat)
      ensures Inv() && fresh(engine) && fresh(pending) && pending.maxKeys == maxKeys
      ensures current == Some(EmptyConfig) && !committed && !closing && !closed && delivered == []
      ensures engine.healthy == healthy && engine.probe.None?
    {
      engine := new Engine(healthy);
      pending := new PendingTraffic(maxKeys);
      current, recovery, recoveryLive, recoveryReplay := Some(EmptyConfig), None, map[], map[];
      committed, closing, closed, delivered := false, false, false, [];
    }

    /** A topology is published and every recovery record dropped. */
    method Publish(c: NormalizedConfig, commit: bool)
      modifies this`current, this`recovery, this`recoveryLive, this`recoveryReplay, this`committed
      ensures current == Some(c) && recovery == None && recoveryLive == map[] && recoveryReplay == map[]
      ensures committed == commit
    {
      current, recovery, recoveryLive, recoveryReplay, committed := Some(c), None, map[], map[], commit;
    }

    /** Nothing is published; a topology is kept with what is known about live listeners. */
    method Retain(c: NormalizedConfig, labels: Labels, replay: map<Tag, Lease>)
      modifies this`current, this`recovery, this`recoveryLive, this`recoveryReplay
      ensures current == None && recovery == Some(c) && recoveryLive == labels && recoveryReplay == replay
    {
      current, recovery, recoveryLive, recoveryReplay := None, Some(c), labels, replay;
    }

    /** Stop everything the engine reports. The published labels name exactly the live tags after
        every step. */
    method CleanUp(ghost x: Books) returns (errors: nat, noRoom: bool)
      requires Sound(engine, pending, x) && recovery.Some? && Normal(recovery.value)
      requires x.mine == Claimable(recovery.value)
      requires LabelsOwned(recoveryLive, recovery.value) && recoveryLive.Keys == engine.plane.Keys
      requires Tracked(engine.plane, recovery.value, recoveryLive, [])
      modifies engine, pending, this`recoveryLive
      ensures Sound(engine, pending, x) && LabelsOwned(recoveryLive, recovery.value)
      ensures recoveryLive.Keys == engine.plane.Keys && Tracked(engine.plane, recovery.value, recoveryLive, [])
      ensures engine.lost == old(engine.lost)
      ensures engine.authority == old(engine.authority) && engine.Onward()
      ensures errors == 0 ==> engine.plane == map[] && recoveryLive == map[]
      ensures (noRoom ==> engine.starved) && (engine.healthy && !noRoom ==> errors == 0)
    {
      hide Sound, LabelsOwned, Ordered, Claimable, Owns, Less, Normal, Later, Tracked, Labelled, Fewer;
      LaterSame(engine.Account());
      var tags := Ordered(engine.plane.Keys);
      LessHere(engine.plane, tags);
      OrderedDistinct(engine.plane.Keys);
      errors, noRoom := 0, false;
      for i := 0 to |tags|
        invariant Sound(engine, pending, x) && LabelsOwned(recoveryLive, recovery.value)
        invariant recoveryLive.Keys == engine.plane.Keys && Tracked(engine.plane, recovery.value, recoveryLive, [])
        invariant engine.lost == old(engine.lost)
        invariant engine.authority == old(engine.authority) && engine.Onward()
        invariant forall j | i <= j < |tags| :: tags[j] in engine.plane
        invariant errors == 0 ==> engine.plane == Less(old(engine.plane), tags[..i])
        invariant (noRoom ==> engine.starved) && (engine.healthy && !noRoom ==> errors == 0)
      {
        var tag := tags[i];
        assert tag in recoveryLive.Keys;
        BilledOwner(recoveryLive, recovery.value, engine.plane, tag);
        ghost var before, was := engine.plane, engine.Account();
        var ok, full := ForceStop(engine, pending, x, tag, Some(recoveryLive[tag]));
        LaterOn(old(engine.Account()), was, engine.Account());
        noRoom := noRoom || full;
        LessNext(old(engine.plane), tags, i);
        TrackedLess(before, engine.plane, recovery.value, recoveryLive, tag);
        if ok {
          LabelsLess(recoveryLive, recovery.value, tag);
          recoveryLive := recoveryLive - {tag};
        } else {
          errors := errors + 1;
        }
      }
      if errors == 0 {
        assert tags[..|tags|] == tags;
        LessEverything(old(engine.plane), tags);
        assert recoveryLive.Keys == {};
      }
    }

    /** Start one retained inbound under its lease and label it. */
    method Restart(ghost x: Books, tag: Tag) returns (ok: bool)
      requires Sound(engine, pending, x) && recovery.Some? && Normal(recovery.value) && tag in recovery.value.inbounds
      requires LabelsOwned(recoveryLive, recovery.value) && recoveryLive.Keys == engine.plane.Keys
      requires Tracked(engine.plane, recovery.value, recoveryLive, [])
      requires Retained(recovery.value, recoveryReplay, engine.authority)
      modifies engine, this`recoveryLive
      ensures Sound(engine, pending, x) && LabelsOwned(recoveryLive, recovery.value)
      ensures recoveryLive.Keys == engine.plane.Keys && Tracked(engine.plane, recovery.value, recoveryLive, [])
      ensures engine.authority == old(engine.authority) && engine.lost == old(engine.lost) && engine.Onward()
      ensures tag in recoveryReplay
      ensures
        var back := SlotFor(recovery.value.inbounds[tag], recoveryReplay[tag].lineage);
        engine.plane == if ok then old(engine.plane)[tag := back] else old(engine.plane)
      ensures
        var inbound, lease := recovery.value.inbounds[tag], Some(recoveryReplay[tag]);
        engine.healthy && AddRefusal(old(engine.plane), engine.authority, inbound, lease).None? ==> ok
    {
      hide Sound, LabelsOwned, GoodInbound, SlotFor, Crowded, Tracked, Normal, Retained, AddRefusal;
      var inbound := recovery.value.inbounds[tag];
      RetainedSlot(recovery.value, recoveryReplay, engine.authority, tag);
      NotCrowded(engine.authority, tag, recoveryReplay[tag]);
      ghost var before := engine.plane;
      var r := StartInbound(engine, pending, x, inbound, Some(recoveryReplay[tag]));
      if r.Some? {
        return false;
      }
      TrackedStart(before, recovery.value, recoveryLive, tag, recoveryReplay[tag].lineage);
      LabelsMore(recoveryLive, recovery.value, tag);
      recoveryLive := recoveryLive[tag := Retiring(inbound, inbound)];
      ok := true;
    }

    /** Start the retained topology again, publishing each rebuilt listener. */
    method Rebuild(ghost x: Books) returns (ok: bool)
      requires Sound(engine, pending, x) && recovery.Some? && Normal(recovery.value)
      requires engine.plane == map[] && recoveryLive == map[]
      requires Retained(recovery.value, recoveryReplay, engine.authority)
      modifies engine, this`recoveryLive
      ensures Sound(engine, pending, x) && LabelsOwned(recoveryLive, recovery.value)
      ensures recoveryLive.Keys == engine.plane.Keys && Tracked(engine.plane, recovery.value, recoveryLive, [])
      ensures engine.authority == old(engine.authority) && engine.lost == old(engine.lost) && engine.Onward()
      ensures ok ==> Matches(engine.plane, recovery.value)
      ensures engine.healthy && DisjointBinds(recovery.value) ==> ok
    {
      hide Sound, LabelsOwned, Ordered, DisjointBinds, Later, Tracked, Normal, Retained, Rebuilt, Matches;
      hide Ascending, AddRefusal, SlotFor;
      LaterSame(engine.Account());
      var tags := Ordered(recovery.value.inbounds.Keys);
      LabelsNone(recovery.value, recovery.value);
      TrackedNobody(recovery.value, recoveryLive);
      RebuiltNone(recovery.value, recoveryReplay, tags);
      for i := 0 to |tags|
        invariant Sound(engine, pending, x) && LabelsOwned(recoveryLive, recovery.value)
        invariant recoveryLive.Keys == engine.plane.Keys && Tracked(engine.plane, recovery.value, recoveryLive, [])
        invariant engine.authority == old(engine.authority) && engine.lost == old(engine.lost) && engine.Onward()
        invariant Rebuilt(engine.plane, recovery.value, recoveryReplay, tags, i)
      {
        var tag := tags[i];
        assert tag in tags;
        Restartable(engine.plane, recovery.value, recoveryReplay, i, engine.authority);
        RebuiltStep(engine.plane, recovery.value, recoveryReplay, tags, i);
        ghost var was := engine.Account();
        ok := Restart(x, tag);
        LaterOn(old(engine.Account()), was, engine.Account());
        if !ok {
          return;
        }
      }
      RebuiltAll(engine.plane, recovery.value, recoveryReplay);
      ok := true;
    }

    /** From an empty engine: a new DNS generation with the retained topology's probe resolver, then
        the retained topology itself. */
    method StartOver(ghost x: Books) returns (ok: bool)
      requires Sound(engine, pending, x) && recovery.Some? && Normal(recovery.value)
      requires engine.plane == map[] && recoveryLive == map[]
      requires Retained(recovery.value, recoveryReplay, engine.authority)
      modifies engine, this`recoveryLive
      ensures Sound(engine, pending, x) && LabelsOwned(recoveryLive, recovery.value)
      ensures recoveryLive.Keys == engine.plane.Keys && Tracked(engine.plane, recovery.value, recoveryLive, [])
      ensures engine.lost == old(engine.lost)
      ensures engine.authority == old(engine.authority) && engine.dnsGeneration == old(engine.dnsGeneration) + 1
      ensures ok ==>
        Matches(engine.plane, recovery.value) && engine.outdated == {} && engine.probe == Some(recovery.value.probe)
      ensures engine.healthy && DisjointBinds(recovery.value) ==> ok
    {
      hide Sound, LabelsOwned, Normal, Retained, DisjointBinds, Matches, Later, Tracked;
      LabelsNone(recovery.value, recovery.value);
      TrackedNobody(recovery.value, recoveryLive);
      Rotate(engine, pending, x);
      ok := BindProbe(engine, pending, x, recovery.value.probe);
      if ok {
        ok := Rebuild(x);
      }
    }

    /** Converge through the one state that is known: stop everything, rebuild the retained
        topology. A failed attempt keeps the topology and the leases for the next one. */
    method RecoverIfNeeded() returns (r: Option<RuntimeError>, noRoom: bool)
      requires Inv() && !closed
      modifies this, engine, pending
      ensures Inv() && delivered == old(delivered)
      ensures closed == old(closed) && closing == old(closing) && committed == old(committed)
      ensures old(current).Some? ==>
        && r.None? && current == old(current) && engine.plane == old(engine.plane)
        && engine.mutations == old(engine.mutations)
        && engine.dnsGeneration == old(engine.dnsGeneration) && engine.probe == old(engine.probe)
        && pending.entries == old(pending.entries)
        && engine.Account() == old(engine.Account())
      ensures old(current).None? && r.None? ==>
        && current == Some(old(recovery).value) && engine.dnsGeneration == old(engine.dnsGeneration) + 1
        && engine.probe == Some(old(recovery).value.probe)
      ensures r.Some? ==>
        && recovery == old(recovery) && recoveryReplay == old(recoveryReplay) && recoveryLive.Keys == engine.plane.Keys
        && !r.value.rolledBack && !r.value.stateUnchanged
      ensures old(current).None? ==> BookedOnly(old(pending.entries), pending.entries, Claimable(old(recovery).value))
      ensures (noRoom ==> QueueFull(pending)) && (engine.healthy && !noRoom ==> r.None?)
      ensures engine.lost == old(engine.lost)
    {
      hide Fair, Sound, QueueFull, LabelsOwned, Tracked, Normal, Claimable, Retained, DisjointBinds, Matches, Relabel;
      hide Later, BookedOnly;
      noRoom := false;
      if current.Some? {
        return None, false;
      }
      ghost var c := recovery.value;
      ghost var x := Books(delivered, pending.entries, Claimable(c), engine.mutations);
      OpenBooks(engine, pending, delivered, x.mine, x.mutations);
      RelabelTracks(recoveryLive, recovery.value, engine.plane);
      recoveryLive := Relabel(recoveryLive, recovery.value, engine.plane.Keys);
      var errors;
      errors, noRoom := CleanUp(x);
      if noRoom {
        StarvedFull(engine, pending, x);
      }
      CloseBooks(engine, pending, x);
      SoundBooked(engine, pending, x);
      if errors != 0 {
        return Some(RuntimeError(errors, false, false, engine.plane != map[])), noRoom;
      }
      var rebuilt := StartOver(x);
      CloseBooks(engine, pending, x);
      SoundBooked(engine, pending, x);
      if !rebuilt {
        return Some(RuntimeError(0, false, false, engine.plane != map[])), noRoom;
      }
      Publish(recovery.value, committed);
      r := None;
    }

    /** The previous topology is published when the engine is back on it, and retained otherwise. */
    method Settle(ghost tx: Tx, previous: NormalizedConfig, replay: map<Tag, Lease>, labels: Labels, restored: bool)
      requires GoodTx(tx) && previous == tx.current && tx.books.delivered == delivered && !closed
      requires Sound(engine, pending, tx.books) && (!committed ==> previous.inbounds == map[])
      requires restored ==>
        && engine.plane == tx.start && engine.outdated == {} && (committed ==> engine.probe == Some(previous.probe))
      requires DisjointBinds(previous) && Captured(tx.start, replay) && KeepsAuthority(tx.start, engine.authority)
      requires LabelsOwned(labels, previous) && Tracked(engine.plane, previous, labels, [])
      modifies this`current, this`recovery, this`recoveryLive, this`recoveryReplay, this`committed
      ensures Inv() && committed == old(committed)
      ensures if restored then current == Some(previous)
              else current == None && recovery == Some(previous) && recoveryReplay == replay
    {
      hide Fair, Sound, LabelsOwned, Tracked, DisjointBinds, Captured, KeepsAuthority, GoodTx, Running, Retaining;
      CloseBooks(engine, pending, tx.books);
      if restored {
        RunningAgain(engine, tx, committed);
        Publish(previous, committed);
      } else {
        RetainingAll(engine, tx, committed, labels, replay);
        Retain(previous, labels, replay);
      }
    }

    /** Publish the outcome of a failed transaction: the previous topology when the engine is back
        to it, the recovery state otherwise. */
    method FinishFailedTransaction(ghost tx: Tx, previous: NormalizedConfig, replay: map<Tag, Lease>, f: StepFailure,
                                   journal: seq<Undo>, rotated: bool, fullReload: bool)
      returns (e: RuntimeError, noRoom: bool)
      requires GoodTx(tx) && Halted(engine, pending, tx, journal, f) && previous == tx.current
      requires rotated == (fullReload && committed)
      requires !committed ==> previous.inbounds == map[]
      requires !fullReload ==> engine.outdated == {} && (committed ==> engine.probe == Some(previous.probe))
      requires !closed && tx.books.delivered == delivered && DisjointBinds(previous) && Captured(tx.start, replay)
      modifies this, engine, pending
      ensures Inv() && delivered == old(delivered)
      ensures closed == old(closed) && closing == old(closing) && committed == old(committed)
      ensures BookedOnly(tx.books.base, pending.entries, tx.books.mine)
      ensures if current.Some? then current == Some(previous) && engine.plane == tx.start
              else recovery == Some(previous) && recoveryReplay == replay
      ensures e.running <==> current.Some?
      ensures e.rolledBack <==>
        current.Some? && (fullReload || f.changed || journal != []) && previous.inbounds != map[]
      ensures e.stateUnchanged <==> current.Some? && !fullReload && !f.changed && journal == []
      ensures e.stateUnchanged ==> engine.mutations == tx.books.mutations
      ensures engine.dnsGeneration == old(engine.dnsGeneration) + if fullReload then 1 else 0
      ensures current.Some? && fullReload ==> engine.probe == Some(previous.probe)
      ensures !fullReload && old(engine.probe).Some? ==> engine.probe == old(engine.probe)
      ensures engine.starved ==> QueueFull(pending)
      ensures (noRoom ==> engine.starved) && (engine.healthy && !noRoom ==> current.Some?)
      ensures engine.authority == old(engine.authority) && (old(engine.starved) ==> engine.starved)
    {
      hide Fair, Sound, QueueFull, LabelsOwned, Tracked, Halted, DisjointBinds, BookedOnly, Captured, KeepsAuthority;
      hide GoodTx, Running, Retaining;
      HaltedRestored(engine, pending, tx, journal, f);
      var attempted := fullReload || f.changed || journal != [];
      var errors, labels;
      errors, labels, noRoom := RestorePrevious(engine, pending, tx, previous, f, journal, rotated, fullReload);
      if engine.starved {
        StarvedFull(engine, pending, tx.books);
      }
      SoundBooked(engine, pending, tx.books);
      var restored := f.restored && errors == 0;
      Settle(tx, previous, replay, labels, restored);
      e := RuntimeError(errors, restored && attempted && previous.inbounds != map[], restored && !attempted, restored);
    }

    /** One lease per published inbound, held until the transaction is decided. */
    method CaptureReplay(ghost x: Books, config: NormalizedConfig) returns (replay: map<Tag, Lease>)
      requires Sound(engine, pending, x) && Matches(engine.plane, config)
      modifies engine
      ensures Sound(engine, pending, x) && engine.Idle() && engine.probe == old(engine.probe)
      ensures Captured(engine.plane, replay)
    {
      hide Sound, Ordered, SlotFor;
      replay := map[];
      var tags := Ordered(config.inbounds.Keys);
      OrderedDistinct(config.inbounds.Keys);
      for i := 0 to |tags|
        invariant Sound(engine, pending, x) && engine.Idle() && engine.probe == old(engine.probe)
        invariant forall j | 0 <= j < i ::
          && tags[j] in engine.plane && tags[j] in replay
          && replay[tags[j]] == Lease(tags[j], engine.plane[tags[j]].lineage)
      {
        var tag := tags[i];
        assert tag in engine.plane.Keys;
        var lease := PreserveLease(engine, pending, x, tag);
        replay := replay[tag := lease.value];
      }
      forall t | t in engine.plane ensures t in replay && replay[t] == Lease(t, engine.plane[t].lineage) {
        assert t in config.inbounds.Keys;
        assert t in tags;
        var j :| 0 <= j < |tags| && tags[j] == t;
      }
    }

    /** The topology the runtime stands for: the published one, or the one it has yet to restore. */
    ghost function Base(): NormalizedConfig
      requires Inv()
      reads this, engine, pending
    {
      if current.Some? then current.value else recovery.value
    }

    /** The probe resolver the next transaction will find: recovery binds that of its topology. */
    ghost function Bound(): Option<Probe>
      requires Inv()
      reads this, engine, pending
    {
      if current.Some? then engine.probe else Some(recovery.value.probe)
    }

    /** Lease every published replay namespace and, before a full reload of a committed generation,
        rotate the DNS client. */
    method OpenTransaction(desired: NormalizedConfig, full: bool)
      returns (replay: map<Tag, Lease>, rotated: bool, ghost tx: Tx)
      requires Inv() && current.Some? && Normal(desired)
      modifies engine
      ensures tx == Tx(current.value, desired, old(engine.plane),
                       Books(delivered, pending.entries, Entitled(current.value, desired), engine.mutations))
      ensures GoodTx(tx) && Live(engine, pending, tx, []) && Captured(tx.start, replay) && DisjointBinds(current.value)
      ensures rotated == (full && committed)
      ensures engine.dnsGeneration == old(engine.dnsGeneration) + (if rotated then 1 else 0)
      ensures engine.probe == (if rotated then None else old(engine.probe)) && (!rotated ==> engine.outdated == {})
      ensures !rotated ==> engine.mutations == old(engine.mutations)
      ensures engine.lost == old(engine.lost)
      ensures Later(old(engine.Account()), engine.Account())
    {
      hide Sound, GoodPlane, Live, GoodTx, LabelsOwned, Tracked, DisjointBinds, Entitled, Captured, Normal, Later;
      var previous := current.value;
      ghost var x := Books(delivered, pending.entries, Entitled(previous, desired), 0);
      OpenBooks(engine, pending, delivered, x.mine, 0);
      SoundPlane(engine, pending, x);
      MatchedDisjoint(engine.plane, engine.authority, previous);
      replay := CaptureReplay(x, previous);
      rotated := full && committed;
      if rotated {
        ghost var was := engine.Account();
        Rotate(engine, pending, x);
        LaterOn(old(engine.Account()), was, engine.Account());
      }
      CloseBooks(engine, pending, x);
      OpenBooks(engine, pending, delivered, x.mine, engine.mutations);
      tx := Tx(previous, desired, engine.plane, x.(mutations := engine.mutations));
      Opening(engine, pending, tx);
    }

    /** One transaction from a known state, after every preflight. */
    method Transact(desired: NormalizedConfig, full: bool) returns (r: Option<RuntimeError>, noRoom: bool)
      requires Inv() && current.Some? && !closed && Normal(desired)
      requires !full && committed ==> current.value.probe == desired.probe
      modifies this, engine, pending
      ensures Inv() && delivered == old(delivered) && closed == old(closed) && closing == old(closing)
      ensures BookedOnly(old(pending.entries), pending.entries, Entitled(old(current).value, desired))
      ensures r.None? ==>
        && current == Some(desired) && committed && SameNamespaces(old(engine.plane), engine.plane)
        && DisjointBinds(desired)
        && !Blocked(old(current).value, desired, full, old(committed), old(engine.probe))
        && Boundary(old(current).value, desired, engine.lost, engine.gone, old(engine.counted))
      ensures r.None? ==> engine.lost == old(engine.lost)
      ensures r.Some? ==> committed == old(committed)
      ensures r.Some? ==>
        if current.Some? then current == old(current) && engine.plane == old(engine.plane) else recovery == old(current)
      ensures r.Some? && r.value.rolledBack ==> current.Some? && current.value.inbounds != map[]
      ensures r.Some? && r.value.stateUnchanged ==>
        current.Some? && !full && engine.mutations == old(engine.mutations) && !r.value.rolledBack
      ensures engine.dnsGeneration == old(engine.dnsGeneration) + Rotations(full, old(committed), r.None?)
      ensures r.Some? && full && current.Some? ==> engine.probe == Some(current.value.probe)
      ensures r.Some? && !full && old(engine.probe).Some? ==> engine.probe == old(engine.probe)
      ensures noRoom ==> QueueFull(pending) || |engine.authority| >= MAX_LINEAGES
      ensures engine.healthy && r.Some? && !noRoom ==>
        && current.Some?
        && (DisjointBinds(desired) ==> Blocked(old(current).value, desired, full, old(committed), old(engine.probe)))
    {
      hide Fair, Sound, QueueFull, GoodPlane, Live, Halted, Safe, GoodTx, Boundary, Later, LabelsOwned, Tracked;
      hide Rewinds, DisjointBinds, Entitled, BookedOnly, Reached, JournalOwned, KeepsAuthority, Captured, HandsOver;
      hide SameNamespaces, Normal;
      var previous := current.value;
      var replay, rotated, tx := OpenTransaction(desired, full);
      ghost var begun := engine.Account();
      var f, journal := Execute(engine, pending, tx, previous, desired, full, full || !committed);
      if f.None? {
        SafeSound(engine, pending, tx, journal);
        CloseBooks(engine, pending, tx.books);
        SoundBooked(engine, pending, tx.books);
        Committing(tx, engine.plane);
        SoundPlane(engine, pending, tx.books);
        MatchedDisjoint(engine.plane, engine.authority, desired);
        BoundaryEarlier(previous, desired, engine.lost, engine.gone, old(engine.Account()), begun);
        Publish(desired, true);
        return None, false;
      }
      if f.value.cause.NoCapacity() {
        HaltedEarned(engine, pending, tx, journal, f.value);
      }
      var e;
      e, noRoom := FinishFailedTransaction(tx, previous, replay, f.value, journal, rotated, full);
      r, noRoom := Some(e), noRoom || f.value.cause.NoCapacity();
    }

    /** `apply_transaction_locked`. An error claiming that the state is unchanged is right about
        the engine exactly when no recovery had to run first. */
    method Apply(desired: NormalizedConfig, check: Preflight, force: bool)
      returns (r: Option<RuntimeError>, noRoom: bool)
      requires Inv() && (check.Accepted? ==> Normal(desired) && (committed ==> Coherent(Base(), desired)))
      modifies this, engine, pending
      ensures Inv() && delivered == old(delivered) && closed == old(closed) && closing == old(closing)
      ensures BookedOnly(old(pending.entries), pending.entries,
                         if old(current).Some? then Entitled(old(Base()), desired) else Claimable(old(Base())))
      ensures r.None? ==> !old(closed) && !old(closing) && check.Accepted? && current == Some(desired) && committed
      ensures r.None? && old(current).Some? ==>
        && SameNamespaces(old(engine.plane), engine.plane)
        && Boundary(old(Base()), desired, engine.lost, engine.gone, old(engine.counted))
      ensures r.None? ==>
        && DisjointBinds(desired)
        && !Blocked(old(Base()), desired, FullReload(old(Base()), desired, force), old(committed), old(Bound()))
      ensures r.Some? ==> Base() == old(Base()) && committed == old(committed)
      ensures r.None? || !check.Accepted? || old(closing) ==> engine.lost == old(engine.lost)
      ensures r.Some? && old(current).Some? && current.Some? ==> engine.plane == old(engine.plane)
      ensures r.Some? && r.value.rolledBack ==>
        current.Some? && current.value.inbounds != map[] && !r.value.stateUnchanged
      ensures r.Some? && r.value.stateUnchanged ==>
        (engine.mutations == old(engine.mutations) && engine.dnsGeneration == old(engine.dnsGeneration)
         <==> TurnedAway(old(closed), old(closing), check) || old(current).Some?)
      ensures TurnedAway(old(closed), old(closing), check) ==> r.Some? && r.value.stateUnchanged
      ensures !TurnedAway(old(closed), old(closing), check) && check.Invalid? ==>
        && r.Some? && (r.value.stateUnchanged <==> current.Some?)
        && (current.Some? ==> engine.dnsGeneration == old(engine.dnsGeneration) + if old(current).Some? then 0 else 1)
      ensures noRoom ==> QueueFull(pending) || |engine.authority| >= MAX_LINEAGES
      ensures engine.healthy && !noRoom && !TurnedAway(old(closed), old(closing), check) ==> current.Some?
      ensures engine.healthy && !noRoom && !TurnedAway(old(closed), old(closing), check) && check.Accepted? ==>
        && (r.Some? <==>
            || !DisjointBinds(desired)
            || Blocked(old(Base()), desired, FullReload(old(Base()), desired, force), old(committed), old(Bound())))
        && (r.Some? ==> current == Some(old(Base())))
      ensures r.Some? && !TurnedAway(old(closed), old(closing), check) ==>
        check.Accepted? && FullReload(old(Base()), desired, force) ==> Bound() == Some(Base().probe)
      ensures r.Some? && old(Bound()) == Some(old(Base()).probe) ==> Bound() == old(Bound())
      ensures r.None? && old(current).Some? ==>
        engine.dnsGeneration
        == old(engine.dnsGeneration) + Rotations(FullReload(old(Base()), desired, force), old(committed), true)
    {
      hide Sound, Normal, Boundary, Later, LabelsOwned, Tracked, DisjointBinds, Entitled, Claimable, BookedOnly;
      hide HandsOver, Blocked, SameNamespaces, Matches, Retained;
      noRoom := false;
      BookedNone(pending.entries);
      if closing || closed || check.Malformed? {
        return Some(RuntimeError(0, false, true, engine.plane != map[])), false;
      }
      ghost var base := Base();
      r, noRoom := RecoverIfNeeded();
      if r.Some? {
        return;
      }
      BookedNone(pending.entries);
      if check.Invalid? {
        return Some(RuntimeError(0, false, true, engine.plane != map[])), false;
      }
      var previous := current.value;
      ghost var mid := pending.entries;
      var full := FullReload(previous, desired, force);
      r, noRoom := Transact(desired, full);
      BookedChain(old(pending.entries), mid, pending.entries, base, desired);
    }

    /** `drain_traffic_owned`: the queue and a sweep of the published inbounds, one record per
        identity and hour. */
    method DrainTraffic() returns (out: seq<Receipt>)
      requires Inv()
      modifies this`delivered, engine, pending
      ensures Inv() && delivered == old(delivered) + out && pending.entries == []
      ensures Filed(out)
      ensures if current.None? then out == old(pending.entries)
              else BookedOnly(old(pending.entries), out, Claimable(current.value))
      ensures engine.healthy && current.Some? && !engine.lost ==>
        forall k: UserKey | k.0 in current.value.inbounds :: Delivered(delivered, old(engine.counted), k)
      ensures engine.plane == old(engine.plane) && engine.mutations == old(engine.mutations)
      ensures engine.dnsGeneration == old(engine.dnsGeneration) && engine.probe == old(engine.probe)
      ensures engine.lost == old(engine.lost)
    {
      hide Fair, engine.Valid, QueueFull, Balanced, BookedOnly, Owns, Filed, Identities, Matches, LabelsOwned, Tracked;
      hide Claimable, DisjointBinds, Retained, Later, PaidUp, Delivered;
      LaterSame(engine.Account());
      OpenParts(engine, pending, delivered);
      engine.Feed();
      var receipts := pending.Drain();
      out := CopyReceipts(receipts);
      if current.Some? {
        OwnsAll(current.value);
        MatchedSettled(engine.plane, current.value);
        out := SweepAll(engine, current.value, out, delivered, Claimable(current.value));
      }
      if !engine.lost {
        Deliver(engine.gone, out, delivered);
      }
      delivered := delivered + out;
      CloseParts(engine, pending, delivered);
      if current.Some? && engine.healthy && !engine.lost {
        forall k: UserKey | k.0 in current.value.inbounds ensures Delivered(delivered, old(engine.counted), k) {
          DeliveredAll(engine.gone, delivered, old(engine.counted), k);
        }
      }
    }

    /** `begin_close`: from now on every candidate is turned away. */
    method BeginClose()
      requires Inv()
      modifies this`closing
      ensures Inv() && closing
    {
      hide Fair, Running, Retaining;
      closing := true;
    }

    /** `close_owned`: no apply can start afterwards; listeners that would not stop are kept for
        the next close. */
    method Close() returns (r: Option<RuntimeError>, noRoom: bool)
      requires Inv()
      modifies this, engine, pending
      ensures Inv() && delivered == old(delivered) && closing && closed
      ensures BookedOnly(old(pending.entries), pending.entries, Claimable(old(Base())))
      ensures r.None? ==> engine.plane == map[] && current == Some(EmptyConfig) && !committed && recoveryReplay == map[]
      ensures r.Some? ==>
        engine.plane != map[] && current.None? && recovery == Some(old(Base())) && committed == old(committed)
      ensures (noRoom ==> QueueFull(pending)) && (engine.healthy && !noRoom ==> r.None?)
      ensures engine.lost == old(engine.lost)
    {
      hide Fair, Sound, QueueFull, Normal, LabelsOwned, Tracked, Claimable, BookedOnly, Running, Retaining;
      closing, noRoom := true, false;
      ghost var base := Base();
      var known := if current.Some? then current.value else recovery.value;
      var labels := recoveryLive;
      ghost var x := Books(delivered, pending.entries, Claimable(base), 0);
      OpenBooks(engine, pending, delivered, x.mine, 0);
      SoundBooked(engine, pending, x);
      NothingOutdated(engine, pending, x);
      if closed && engine.plane == map[] {
        RunningEmpty(engine);
        Publish(EmptyConfig, false);
        return None, false;
      }
      Accountable(engine, known, committed, labels, recoveryReplay, closed);
      var errors;
      errors, noRoom := StopEverything(engine, pending, x, known, labels);
      if noRoom {
        StarvedFull(engine, pending, x);
      }
      SoundBooked(engine, pending, x);
      Shut(x, known, labels, errors == 0);
      r := if errors == 0 then None else Some(RuntimeError(errors, false, false, true));
    }

    /** The runtime is closed for good: nothing is left, or what is left is kept for the next close. */
    method Shut(ghost x: Books, known: NormalizedConfig, labels: Labels, stopped: bool)
      requires Sound(engine, pending, x) && x.delivered == delivered && closing && (stopped ==> engine.plane == map[])
      requires Normal(known) && LabelsOwned(labels, known) && Tracked(engine.plane, known, labels, [])
      requires !committed ==> known.inbounds == map[]
      modifies this`closed, this`current, this`recovery, this`recoveryLive, this`recoveryReplay, this`committed
      ensures Inv() && closed
      ensures stopped ==> current == Some(EmptyConfig) && !committed && recoveryReplay == map[]
      ensures !stopped ==> current.None? && recovery == Some(known) && committed == old(committed)
    {
      hide Fair, Sound, Normal, LabelsOwned, Tracked, Running, Retaining;
      NothingOutdated(engine, pending, x);
      CloseBooks(engine, pending, x);
      closed := true;
      if stopped {
        RunningEmpty(engine);
        Publish(EmptyConfig, false);
      } else {
        RetainingClosed(engine, known, committed, labels, recoveryReplay);
        Retain(known, labels, recoveryReplay);
      }
    }
  }
}
