/** What holds over whole runs of the runtime (crates/node-agent/src/runtime.rs:2486-2571). */
module Runs {
  import opened Basics
  import opened Topology
  import opened Accounting
  import opened EngineModel
  import opened Steps
  import opened Transaction
  import opened Incremental
  import opened Publication
  import opened Runtime

  /** Each byte ever metered for a user is in its live counter, in the queue, or in the answer of
      some drain. */
  ghost predicate Conserves(rt: ShoesRuntime, k: UserKey)
    reads rt, rt.engine, rt.pending
  {
    && At(rt.engine.counted, k).up
       == CounterAt(rt.engine.counters, k).rx
          + HeldFor(rt.pending.entries, k.0, k.1).up + HeldFor(rt.delivered, k.0, k.1).up
    && At(rt.engine.counted, k).down
       == CounterAt(rt.engine.counters, k).tx
          + HeldFor(rt.pending.entries, k.0, k.1).down + HeldFor(rt.delivered, k.0, k.1).down
  }

  /** Bytes are conserved in every reachable state, unless a registry was dropped with the bytes of a
      user whose removal had failed twice. */
  lemma Conserved(rt: ShoesRuntime)
    requires rt.Inv() && !rt.engine.lost
    ensures forall k: UserKey :: Conserves(rt, k)
  {
    hide Running, Retaining, GoodPlane, Registered, Filed, BookedOnly;
    assert Balanced(rt.engine.gone, rt.pending.entries, rt.delivered);
  }

  /** While a topology is published, no session lives under a credential that was taken away, every
      final receipt was collected, and every resolver belongs to the current DNS generation. */
  lemma PublishedIsClean(rt: ShoesRuntime, t: Tag)
    requires rt.Inv() && rt.current.Some? && t in rt.engine.plane
    ensures rt.engine.plane[t].stale == {} && rt.engine.plane[t].draining == {} && t !in rt.engine.outdated
    ensures t in rt.current.value.inbounds && rt.engine.plane[t].config == rt.current.value.inbounds[t].config
    ensures rt.committed && rt.engine.probe == Some(rt.current.value.probe)
  {
    hide Sound, Normal;
    assert t in rt.engine.plane.Keys;
  }

  /** Both paths lead to the same tags, configs and registries, and surviving inbounds to the same
      replay namespaces. */
  lemma SameOutcome(tx: Tx, full: Plane, incremental: Plane)
    requires Reached(tx, full) && Reached(tx, incremental)
    ensures full.Keys == incremental.Keys
    ensures forall t | t in full :: t in incremental && full[t] == incremental[t].(lineage := full[t].lineage)
    ensures forall t | t in full && t in tx.start :: t in incremental && full[t] == incremental[t]
  {
    assert full.Keys == tx.desired.inbounds.Keys && incremental.Keys == tx.desired.inbounds.Keys;
    forall t | t in full ensures t in incremental && full[t] == incremental[t].(lineage := full[t].lineage) {
      assert t in full.Keys;
    }
  }

  // ---------------------------------------------------------------- promises that fail

  const ByUuids := Kinds(true, false, false, false)

  function Member(id: UserId, uuid: Name): UserSpec {
    UserSpec(Some(id), Some(uuid), None, true, None, None, None)
  }

  function Edge(tag: Tag, port: Name, users: Users): Inbound {
    Inbound(tag, 1, 1, Config({Socket(port, Tcp)}, Listener(1, false, ByUuids), 1), users, true)
  }

  function OneInbound(port: Name, users: Users): NormalizedConfig {
    NormalizedConfig(map[1 := Edge(1, port, users)], 0, 0, System)
  }

  const Before := map[1 := Member(1, 10), 2 := Member(2, 20)]
  const Exchanged := map[1 := Member(1, 20), 2 := Member(2, 10)]

  lemma ExchangedUsers()
    ensures GoodUsers(ByUuids, Before) && GoodUsers(ByUuids, Exchanged) && Handover(ByUuids, Before, Exchanged)
  {
    var before, after := Claims(ByUuids, 2, Before[2]), Claims(ByUuids, 1, Exchanged[1]);
    assert ByUuid(20) in before && ByUuid(20) in after;
    assert 1 in Upserted(Before, Exchanged) && 2 in Before && 2 in Exchanged && !(before !! after);
  }

  /** Two users exchanging credentials: a valid topology that a full reload accepts and the
      incremental path refuses, unless the inbound is replaced, say because it moves to another port. */
  lemma SwappedCredentials(port: Name)
    ensures
      var before, after := OneInbound(1, Before), OneInbound(port, Exchanged);
      && Normal(before) && Normal(after) && DisjointBinds(before) && DisjointBinds(after)
      && !FullReload(before, after, false) && (HandsOver(before, after) <==> port == 1)
  {
    hide GoodUsers, Handover;
    ExchangedUsers();
    var before, after := OneInbound(1, Before), OneInbound(port, Exchanged);
    assert 1 in before.inbounds && 1 in after.inbounds;
    assert Socket(1, Tcp) in before.inbounds[1].config.binds;
    assert Socket(port, Tcp) in after.inbounds[1].config.binds;
  }

  /** On a healthy engine the exchange is refused where the inbound stays live, and accepted as soon
      as the inbound also moves to another port. */
  method ExchangeByMoving(rt: ShoesRuntime, port: Name) returns (stayed: bool, moved: bool, noRoom: bool)
    requires rt.Inv() && rt.current == Some(OneInbound(1, Before)) && rt.committed && !rt.closing && !rt.closed
    requires rt.engine.healthy && port != 1
    modifies rt, rt.engine, rt.pending
    ensures !stayed && (moved || noRoom)
    ensures noRoom ==> QueueFull(rt.pending) || |rt.engine.authority| >= MAX_LINEAGES
  {
    hide rt.Inv, Normal, DisjointBinds, HandsOver, FullReload, ProbeTaken;
    SwappedCredentials(1);
    SwappedCredentials(port);
    var r, full := rt.Apply(OneInbound(1, Exchanged), Accepted, false);
    stayed := r.None?;
    r, noRoom := rt.Apply(OneInbound(port, Exchanged), Accepted, false);
    moved := r.None?;
  }

  /** TUIC users exchanging passwords hand nothing over: only the uuid is a key. */
  lemma ExchangedTuicPasswords(before: Users, after: Users)
    requires GoodUsers(Kinds(true, false, false, true), before) && before.Keys == after.Keys
    requires forall id | id in before :: after[id].uuid == before[id].uuid
    ensures !Handover(Kinds(true, false, false, true), before, after)
  {
    var kinds := Kinds(true, false, false, true);
    forall a, b | a in Upserted(before, after) && b in before && b in after && a < b
      ensures Claims(kinds, b, before[b]) !! Claims(kinds, a, after[a])
    {
      assert a in before && Claims(kinds, a, before[a]) == Claims(kinds, a, after[a]);
    }
  }

  /** From a retained topology, a candidate refused by engine validation is reported as having left
      the state unchanged, although recovery has just moved the engine to a new DNS generation. */
  method FalseReport(rt: ShoesRuntime, candidate: NormalizedConfig) returns (report: Option<RuntimeError>, noRoom: bool)
    requires rt.Inv() && rt.current.None? && !rt.closing && rt.engine.healthy
    modifies rt, rt.engine, rt.pending
    ensures rt.Inv() && (noRoom ==> QueueFull(rt.pending) || |rt.engine.authority| >= MAX_LINEAGES)
    ensures !noRoom ==>
      && report.Some? && report.value.stateUnchanged
      && rt.current.Some? && rt.engine.dnsGeneration == old(rt.engine.dnsGeneration) + 1
  {
    hide rt.Inv;
    NotClosed(rt);
    report, noRoom := rt.Apply(candidate, Invalid, false);
  }

  lemma NotClosed(rt: ShoesRuntime)
    requires rt.Inv() && !rt.closing
    ensures !rt.closed
  {
  }

  /** A runtime that never committed and has failed one full reload is bound to the probe resolver
      of the empty topology, and nothing but a commit would rotate it away: it refuses every
      topology with another probe resolver, on a healthy engine too. */
  method FirstTopologyStuck(rt: ShoesRuntime, tries: seq<NormalizedConfig>) returns (refused: seq<bool>)
    requires rt.Inv() && !rt.committed && rt.Bound() == Some(rt.Base().probe)
    requires forall i | 0 <= i < |tries| :: Normal(tries[i]) && tries[i].probe != rt.Base().probe
    modifies rt, rt.engine, rt.pending
    ensures rt.Inv() && !rt.committed && rt.Base() == old(rt.Base()) && rt.Bound() == old(rt.Bound())
    ensures |refused| == |tries| && forall i | 0 <= i < |refused| :: refused[i]
  {
    hide rt.Inv, Normal;
    refused := [];
    for i := 0 to |tries|
      invariant rt.Inv() && !rt.committed && rt.Base() == old(rt.Base()) && rt.Bound() == old(rt.Bound())
      invariant |refused| == i && forall j | 0 <= j < i :: refused[j]
    {
      var r, noRoom := rt.Apply(tries[i], Accepted, false);
      refused := refused + [r.Some?];
    }
  }

  /** Two inbounds without users, on the given ports, resolved by `probe`. */
  function TwoInbounds(first: Name, second: Name, probe: Probe): NormalizedConfig {
    NormalizedConfig(map[1 := Edge(1, first, map[]), 2 := Edge(2, second, map[])], 0, 1, probe)
  }

  lemma TwoNormal(first: Name, second: Name, probe: Probe)
    ensures Normal(TwoInbounds(first, second, probe))
    ensures DisjointBinds(TwoInbounds(first, second, probe)) <==> first != second
  {
    var c := TwoInbounds(first, second, probe);
    assert c.inbounds[1].config.binds == {Socket(first, Tcp)} && c.inbounds[2].config.binds == {Socket(second, Tcp)};
    if first == second {
      assert Socket(first, Tcp) in c.inbounds[1].config.binds && Socket(first, Tcp) in c.inbounds[2].config.binds;
    }
  }

  /** No topology with two inbounds on one socket is ever committed. */
  lemma NeverShared(rt: ShoesRuntime)
    requires rt.Inv() && rt.current.Some?
    ensures DisjointBinds(rt.current.value)
  {
    hide Normal, Retaining, Balanced, BookedOnly, Registered;
    MatchedDisjoint(rt.engine.plane, rt.engine.authority, rt.current.value);
  }

  /** A fresh runtime on a healthy engine: a first topology with two inbounds on one socket is
      refused, and so is its correction when its probe resolver is not the system's. With the
      system's, the correction is accepted. */
  method FirstTopologyCorrected(rt: ShoesRuntime, probe: Probe) returns (first: bool, second: bool, noRoom: bool)
    requires rt.Inv() && rt.current == Some(EmptyConfig) && !rt.committed && !rt.closing && !rt.closed
    requires rt.engine.healthy && rt.engine.probe.None?
    modifies rt, rt.engine, rt.pending
    ensures !first
    ensures probe != System ==> !second
    ensures probe == System ==> second || noRoom
    ensures noRoom ==> QueueFull(rt.pending) || |rt.engine.authority| >= MAX_LINEAGES
  {
    hide rt.Inv, Normal, DisjointBinds;
    TwoNormal(1, 1, probe);
    TwoNormal(1, 2, probe);
    var r, full := rt.Apply(TwoInbounds(1, 1, probe), Accepted, false);
    first := r.None?;
    if first {
      NeverShared(rt);
    }
    r, noRoom := rt.Apply(TwoInbounds(1, 2, probe), Accepted, false);
    second := r.None?;
  }

  // ---------------------------------------------------------------- whole runs

  datatype Op = ApplyOp(desired: NormalizedConfig, check: Preflight, force: bool) | DrainOp | BeginCloseOp | CloseOp

  predicate Closes(op: Op) {
    op.BeginCloseOp? || op.CloseOp?
  }

  /** The topology a runtime stands for after a run: the last accepted candidate, until a close. */
  function Standing(base: NormalizedConfig, ops: seq<Op>, accepted: seq<bool>): NormalizedConfig
    requires |ops| == |accepted|
  {
    if ops == [] then base else
      var n := |ops| - 1;
      if !accepted[n] || ops[n].DrainOp? || ops[n].BeginCloseOp? then Standing(base, ops[..n], accepted[..n])
      else if ops[n].CloseOp? then EmptyConfig
      else ops[n].desired
  }

  lemma StandingStep(base: NormalizedConfig, ops: seq<Op>, n: nat, accepted: seq<bool>, ok: bool)
    requires n < |ops| && |accepted| == n
    ensures Standing(base, ops[..n + 1], accepted + [ok]) ==
            if !ok || ops[n].DrainOp? || ops[n].BeginCloseOp? then Standing(base, ops[..n], accepted)
            else if ops[n].CloseOp? then EmptyConfig else ops[n].desired
  {
    assert ops[..n + 1][..n] == ops[..n];
    assert (accepted + [ok])[..n] == accepted;
  }

  /** The transaction was begun and did not commit. */
  predicate RolledBack(ops: seq<Op>, accepted: seq<bool>, i: nat)
    requires i < |ops| && i < |accepted|
  {
    ops[i].ApplyOp? && ops[i].check.Accepted? && !accepted[i] && forall j | 0 <= j < i :: !Closes(ops[j])
  }

  /** Any sequence of applies, drains and closes, whatever fails in between. */
  method Run(rt: ShoesRuntime, ops: seq<Op>) returns (accepted: seq<bool>, out: seq<Receipt>)
    requires rt.Inv() && forall i | 0 <= i < |ops| && ops[i].ApplyOp? && ops[i].check.Accepted? ::
      Normal(ops[i].desired) && (rt.committed ==> Coherent(rt.Base(), ops[i].desired))
    requires forall i, j | 0 <= i < j < |ops| && ops[i].ApplyOp? && ops[j].ApplyOp? ::
      Coherent(ops[i].desired, ops[j].desired)
    modifies rt, rt.engine, rt.pending
    ensures rt.Inv() && |accepted| == |ops| && rt.delivered == old(rt.delivered) + out
    ensures rt.Base() == Standing(old(rt.Base()), ops, accepted)
    ensures rt.current.Some? ==> Matches(rt.engine.plane, Standing(old(rt.Base()), ops, accepted))
    ensures forall i, j | 0 <= i < j < |ops| && Closes(ops[i]) && ops[j].ApplyOp? :: !accepted[j]
    ensures !rt.engine.lost ==> forall k: UserKey :: Conserves(rt, k)
    ensures rt.engine.lost ==> old(rt.engine.lost) || exists i :: 0 <= i < |ops| && RolledBack(ops, accepted, i)
  {
    hide rt.Inv, Standing, Normal, Matches, Conserves;
    accepted, out := [], [];
    ghost var base := rt.Base();
    StandingNone(base, ops[..0], accepted);
    for n := 0 to |ops|
      invariant rt.Inv() && |accepted| == n && rt.delivered == old(rt.delivered) + out
      invariant rt.Base() == Standing(base, ops[..n], accepted)
      invariant rt.committed ==> forall i | n <= i < |ops| && ops[i].ApplyOp? && ops[i].check.Accepted? ::
        Coherent(rt.Base(), ops[i].desired)
      invariant forall i | 0 <= i < n && Closes(ops[i]) :: rt.closing
      invariant forall i, j | 0 <= i < j < n && Closes(ops[i]) && ops[j].ApplyOp? :: !accepted[j]
      invariant rt.engine.lost ==> old(rt.engine.lost) || exists i :: 0 <= i < n && RolledBack(ops, accepted, i)
    {
      ghost var before, lost := accepted, rt.engine.lost;
      var ok := true;
      match ops[n] {
        case ApplyOp(desired, check, force) =>
          var r, noRoom := rt.Apply(desired, check, force);
          ok := r.None?;
        case DrainOp =>
          var receipts := rt.DrainTraffic();
          out := out + receipts;
        case BeginCloseOp => rt.BeginClose();
        case CloseOp =>
          var r, noRoom := rt.Close();
          ok := r.None?;
      }
      StandingStep(base, ops, n, before, ok);
      accepted := accepted + [ok];
      if rt.engine.lost && !lost {
        assert RolledBack(ops, accepted, n);
      }
      forall i | 0 <= i < n && RolledBack(ops, before, i) ensures RolledBack(ops, accepted, i) {
      }
    }
    assert ops[..|ops|] == ops;
    BaseRuns(rt);
    if !rt.engine.lost {
      Conserved(rt);
    }
  }

  lemma StandingNone(base: NormalizedConfig, ops: seq<Op>, accepted: seq<bool>)
    requires ops == [] && accepted == []
    ensures Standing(base, ops, accepted) == base
  {
  }

  lemma BaseRuns(rt: ShoesRuntime)
    requires rt.Inv()
    ensures rt.current.Some? ==> Matches(rt.engine.plane, rt.Base())
  {
    hide Sound, Matches, Retaining, Normal;
  }
}
