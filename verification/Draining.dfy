/** Moving every queued and live byte into one answer (crates/node-agent/src/runtime.rs:2411-2451). */
module Draining {
  import opened Basics
  import opened Topology
  import opened Accounting
  import opened EngineModel
  import opened Steps

  lemma {:induction false} FileNew(e: Entries, r: Receipt)
    requires SlotOf(r) !in Slots(e)
    ensures File(e, r) == e + [r]
  {
    if e != [] {
      FileNew(e[1..], r);
    }
  }

  lemma {:induction false} SlotsAt(e: Entries, i: nat)
    requires i < |e|
    ensures SlotOf(e[i]) in Slots(e)
  {
    if i > 0 {
      SlotsAt(e[1..], i - 1);
    }
  }

  lemma {:induction false} SlotsPrefix(e: Entries, n: nat)
    requires Filed(e) && n < |e|
    ensures SlotOf(e[n]) !in Slots(e[..n]) && !e[n].Empty()
  {
    if n > 0 {
      SlotsPrefix(e[1..], n - 1);
      SlotsAt(e[1..], n - 1);
      assert e[..n][1..] == e[1..][..n - 1];
    }
  }

  /** Replaying the records of a filed collection in order rebuilds that collection. */
  method CopyReceipts(receipts: seq<Receipt>) returns (out: Entries)
    requires Filed(receipts)
    ensures out == receipts
  {
    out := [];
    for i := 0 to |receipts|
      invariant out == receipts[..i]
    {
      SlotsPrefix(receipts, i);
      FileNew(out, receipts[i]);
      out := Merge(out, receipts[i]);
    }
  }

  lemma {:induction false} HeldForConcat(a: Entries, b: Entries, t: Tag, u: UserId)
    ensures HeldFor(a + b, t, u).up == HeldFor(a, t, u).up + HeldFor(b, t, u).up
    ensures HeldFor(a + b, t, u).down == HeldFor(a, t, u).down + HeldFor(b, t, u).down
  {
    if a == [] {
      assert a + b == b;
    } else {
      HeldForConcat(a[1..], b, t, u);
      assert (a + b)[1..] == a[1..] + b;
    }
  }

  /** Handing the answer over moves its bytes from the queue to the delivered receipts. */
  lemma Deliver(gone: map<UserKey, Bytes>, out: Entries, delivered: seq<Receipt>)
    requires Balanced(gone, out, delivered)
    ensures Balanced(gone, [], delivered + out)
  {
    forall k: UserKey
      ensures At(gone, k).up == HeldFor([], k.0, k.1).up + HeldFor(delivered + out, k.0, k.1).up
      ensures At(gone, k).down == HeldFor([], k.0, k.1).down + HeldFor(delivered + out, k.0, k.1).down
    {
      HeldForConcat(delivered, out, k.0, k.1);
    }
  }

  /** The answer holds, beyond `before`, the bytes of some snapshots of one inbound. */
  ghost predicate Booked(before: map<UserKey, Bytes>, e: Entries, delivered: seq<Receipt>, tag: Tag,
                         infos: seq<UserInfo>) {
    forall k: UserKey ::
      && HeldFor(e, k.0, k.1).up + HeldFor(delivered, k.0, k.1).up
         == At(before, k).up + (if k.0 == tag then InfoFor(infos, k.1).up else 0)
      && HeldFor(e, k.0, k.1).down + HeldFor(delivered, k.0, k.1).down
         == At(before, k).down + (if k.0 == tag then InfoFor(infos, k.1).down else 0)
  }

  /** One more snapshot, for one user. */
  lemma BookedAt(before: Bytes, e: Entries, delivered: seq<Receipt>, owner: Inbound, infos: seq<UserInfo>,
                 info: UserInfo, t: Tag, u: UserId)
    requires Fits(HeldFor(e, owner.tag, info.id), TrafficDrain(owner, info))
    requires HeldFor(e, t, u).up + HeldFor(delivered, t, u).up
          == before.up + (if t == owner.tag then InfoFor(infos, u).up else 0)
    requires HeldFor(e, t, u).down + HeldFor(delivered, t, u).down
          == before.down + (if t == owner.tag then InfoFor(infos, u).down else 0)
    ensures var merged := Merge(e, TrafficDrain(owner, info)); var more := infos + [info];
      && HeldFor(merged, t, u).up + HeldFor(delivered, t, u).up
      == before.up + (if t == owner.tag then InfoFor(more, u).up else 0)
      && HeldFor(merged, t, u).down + HeldFor(delivered, t, u).down
      == before.down + (if t == owner.tag then InfoFor(more, u).down else 0)
  {
    hide Merge, HeldFor, InfoFor, Fits;
    MergeAdds(e, TrafficDrain(owner, info), t, u);
    InfoForAppend(infos, info, u);
  }

  lemma BookedStep(before: map<UserKey, Bytes>, e: Entries, delivered: seq<Receipt>, owner: Inbound,
                   infos: seq<UserInfo>, info: UserInfo)
    requires Booked(before, e, delivered, owner.tag, infos)
    requires var k := (owner.tag, info.id);
      At(before, k).up + InfoFor(infos, info.id).up + info.rx <= U64_MAX
        && At(before, k).down + InfoFor(infos, info.id).down + info.tx <= U64_MAX
    ensures Booked(before, Merge(e, TrafficDrain(owner, info)), delivered, owner.tag, infos + [info])
  {
    hide Merge, HeldFor, InfoFor;
    var own: UserKey := (owner.tag, info.id);
    assert HeldFor(e, own.0, own.1).up + HeldFor(delivered, own.0, own.1).up
        == At(before, own).up + InfoFor(infos, own.1).up;
    forall k: UserKey
      ensures HeldFor(Merge(e, TrafficDrain(owner, info)), k.0, k.1).up + HeldFor(delivered, k.0, k.1).up
              == At(before, k).up + (if k.0 == owner.tag then InfoFor(infos + [info], k.1).up else 0)
      ensures HeldFor(Merge(e, TrafficDrain(owner, info)), k.0, k.1).down + HeldFor(delivered, k.0, k.1).down
              == At(before, k).down + (if k.0 == owner.tag then InfoFor(infos + [info], k.1).down else 0)
    {
      BookedAt(At(before, k), e, delivered, owner, infos, info, k.0, k.1);
    }
  }

  lemma {:induction false} InfoForPrefix(infos: seq<UserInfo>, n: nat, id: UserId)
    requires n <= |infos|
    ensures InfoFor(infos[..n], id).up <= InfoFor(infos, id).up
    ensures InfoFor(infos[..n], id).down <= InfoFor(infos, id).down
  {
    if n == |infos| {
      assert infos[..n] == infos;
    } else {
      InfoForPrefix(infos[..|infos| - 1], n, id);
      assert infos[..|infos| - 1][..n] == infos[..n];
    }
  }

  /** The next snapshot still fits the 64-bit counters. */
  lemma StillFits(before: map<UserKey, Bytes>, after: map<UserKey, Bytes>, tag: Tag, infos: seq<UserInfo>, n: nat)
    requires Swept(before, after, tag, infos) && n < |infos|
    requires forall k: UserKey :: At(after, k).up <= U64_MAX && At(after, k).down <= U64_MAX
    ensures var info := infos[n]; var k := (tag, info.id);
      At(before, k).up + InfoFor(infos[..n], info.id).up + info.rx <= U64_MAX
        && At(before, k).down + InfoFor(infos[..n], info.id).down + info.tx <= U64_MAX
  {
    var info := infos[n];
    var k := (tag, info.id);
    InfoForPrefix(infos, n + 1, info.id);
    assert infos[..n + 1] == infos[..n] + [info];
    InfoForAppend(infos[..n], info, info.id);
    assert At(after, k).up <= U64_MAX;
    assert At(after, k).up == At(before, k).up + InfoFor(infos, info.id).up;
  }

  /** Merge one inbound's snapshots into the answer. */
  method MergeSweep(out: Entries, owner: Inbound, infos: seq<UserInfo>, ghost before: map<UserKey, Bytes>,
                    ghost after: map<UserKey, Bytes>, ghost delivered: seq<Receipt>, ghost base: Entries,
                    ghost mine: iset<Key>, ghost exact: bool)
    returns (merged: Entries)
    requires Filed(out) && Owns(mine, owner) && BookedOnly(base, out, mine) && Swept(before, after, owner.tag, infos)
    requires exact ==>
      && Balanced(before, out, delivered)
      && forall k: UserKey :: At(after, k).up <= U64_MAX && At(after, k).down <= U64_MAX
    ensures Filed(merged) && BookedOnly(base, merged, mine)
    ensures exact ==> Balanced(after, merged, delivered)
  {
    hide Merge, BookedOnly, Swept, Owns, Filed;
    merged := out;
    assert exact ==> Booked(before, merged, delivered, owner.tag, infos[..0]);
    for i := 0 to |infos|
      invariant Filed(merged) && BookedOnly(base, merged, mine)
      invariant exact ==> Booked(before, merged, delivered, owner.tag, infos[..i])
    {
      var r := TrafficDrain(owner, infos[i]);
      if exact {
        StillFits(before, after, owner.tag, infos, i);
        BookedStep(before, merged, delivered, owner, infos[..i], infos[i]);
        assert infos[..i + 1] == infos[..i] + [infos[i]];
      }
      OwnsOne(mine, owner, infos[i].id);
      BookFrame(base, merged, mine, r);
      MergeFiled(merged, r);
      merged := Merge(merged, r);
    }
    if exact {
      assert infos[..|infos|] == infos;
      SweptBooked(before, after, merged, delivered, owner.tag, infos);
    }
  }

  lemma OwnsOne(mine: iset<Key>, owner: Inbound, id: UserId)
    requires Owns(mine, owner)
    ensures KeyOf(owner, id) in mine
  {
  }

  lemma MergeFiled(e: Entries, r: Receipt)
    requires Filed(e)
    ensures Filed(Merge(e, r))
  {
    if !r.Empty() {
      FileShape(e, r);
    }
  }

  lemma SweptBooked(before: map<UserKey, Bytes>, after: map<UserKey, Bytes>, e: Entries, delivered: seq<Receipt>,
                    tag: Tag, infos: seq<UserInfo>)
    requires Swept(before, after, tag, infos) && Booked(before, e, delivered, tag, infos)
    ensures Balanced(after, e, delivered)
  {
  }

  /** Sweep every published inbound; a failed sweep leaves its counters for the next drain. */
  method SweepAll(engine: Engine, config: NormalizedConfig, start: Entries, ghost delivered: seq<Receipt>,
                  ghost mine: iset<Key>)
    returns (out: Entries)
    requires engine.Valid() && Filed(start) && (!engine.lost ==> Balanced(engine.gone, start, delivered))
    requires forall t | t in config.inbounds :: config.inbounds[t].tag == t && Owns(mine, config.inbounds[t])
    requires forall t | t in config.inbounds :: t in engine.plane && engine.plane[t].draining == {}
    modifies engine
    ensures engine.Valid() && engine.plane == old(engine.plane) && engine.authority == old(engine.authority)
    ensures engine.mutations == old(engine.mutations) && engine.Onward()
    ensures engine.lost == old(engine.lost) && engine.uncertain == old(engine.uncertain)
    ensures engine.starved == old(engine.starved) && engine.probe == old(engine.probe)
    ensures Filed(out) && BookedOnly(start, out, mine)
    ensures !engine.lost ==> Balanced(engine.gone, out, delivered)
    ensures engine.healthy ==>
      forall t | t in config.inbounds :: PaidUp(engine.lost, engine.gone, old(engine.counted), t)
  {
    hide GoodPlane, Registered, Balanced, BookedOnly, Swept, Owns, Filed, Ordered, Ascending, Later, PaidUp;
    out := start;
    BookedSame(start, mine);
    LaterSame(engine.Account());
    var tags := Ordered(config.inbounds.Keys);
    for i := 0 to |tags|
      invariant engine.Valid() && engine.plane == old(engine.plane) && engine.authority == old(engine.authority)
      invariant engine.mutations == old(engine.mutations) && engine.Onward()
      invariant engine.lost == old(engine.lost) && engine.uncertain == old(engine.uncertain)
      invariant engine.starved == old(engine.starved) && engine.probe == old(engine.probe)
      invariant Filed(out) && BookedOnly(start, out, mine)
      invariant !engine.lost ==> Balanced(engine.gone, out, delivered)
      invariant engine.healthy ==>
        forall j | 0 <= j < i :: PaidUp(engine.lost, engine.gone, old(engine.counted), tags[j])
    {
      var tag := tags[i];
      assert tag in tags;
      ghost var before := engine.Account();
      var swept := engine.TakeNonzeroTraffic(tag);
      LaterOn(old(engine.Account()), before, engine.Account());
      if engine.healthy {
        SweptPaid(engine, old(engine.Account()), tag);
        forall j | 0 <= j < i ensures PaidUp(engine.lost, engine.gone, old(engine.counted), tags[j]) {
          PaidUpStill(engine.lost, before, engine.lost, engine.Account(), old(engine.counted), tags[j]);
        }
      }
      if swept.Ok? {
        if !engine.lost {
          GoneFits(engine);
        }
        out := MergeSweep(out, config.inbounds[tag], swept.value, before.gone, engine.gone, delivered, start, mine,
                          !engine.lost);
      }
    }
    if engine.healthy {
      forall t | t in config.inbounds ensures PaidUp(engine.lost, engine.gone, old(engine.counted), t) {
        assert t in tags;
        var j :| 0 <= j < |tags| && tags[j] == t;
      }
    }
  }

  /** A swept inbound with nobody draining owes nothing. */
  lemma SweptPaid(engine: Engine, before: Ledger, tag: Tag)
    requires engine.Valid() && Later(before, engine.Account()) && tag in engine.plane
    requires engine.plane[tag].draining == {}
    requires forall id | HasUser(engine.plane, tag, id) :: (tag, id) !in engine.counters
    ensures PaidUp(engine.lost, engine.gone, before.counted, tag)
  {
    hide Later, Paid, GoodPlane;
    forall id: UserId ensures Paid(engine.lost, engine.gone, before.counted, (tag, id)) {
      PaidNow(engine, before, (tag, id));
    }
  }

  lemma BookedSame(e: Entries, mine: iset<Key>)
    ensures BookedOnly(e, e, mine)
  {
  }
}
