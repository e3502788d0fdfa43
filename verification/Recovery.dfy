/** Stopping listeners whose recorded state can no longer be trusted
    (crates/node-agent/src/runtime.rs:2178-2234). */
module Recovery {
  import opened Basics
  import opened Topology
  import opened Accounting
  import opened EngineModel
  import opened Steps
  import opened Journal

  /** `plane` is `start` except that the first `n` listed users have left the registry of `tag`, and
      their final counters have been collected. */
  ghost predicate Emptying(start: Plane, plane: Plane, tag: Tag, ids: seq<UserId>, n: nat) {
    && SameListeners(start, plane, tag) && tag in plane && plane[tag].users.Some? && start[tag].users.Some?
    && n <= |ids|
    && (forall id | id in plane[tag].users.value :: id in start[tag].users.value && id !in ids[..n])
    && (forall id | id in plane[tag].draining :: id in start[tag].draining && id !in ids[..n])
  }

  lemma EmptyingStep(start: Plane, before: Plane, after: Plane, tag: Tag, ids: seq<UserId>, n: nat)
    requires Emptying(start, before, tag, ids, n) && n < |ids|
    requires !(HasUser(before, tag, ids[n]) && IsDraining(before, tag, ids[n]))
    requires if Removable(before, tag, ids[n]) then after == Collected(before, tag, ids[n]) else after == before
    ensures Emptying(start, after, tag, ids, n + 1)
  {
    assert ids[..n + 1] == ids[..n] + [ids[n]];
    forall id | id in after[tag].users.value ensures id in start[tag].users.value && id !in ids[..n + 1] {
      assert id in before[tag].users.value;
    }
    forall id | id in after[tag].draining ensures id in start[tag].draining && id !in ids[..n + 1] {
      assert id in before[tag].draining;
    }
  }

  lemma EmptyingDrained(start: Plane, before: Plane, after: Plane, tag: Tag, ids: seq<UserId>, n: nat)
    requires Emptying(start, before, tag, ids, n) && n < |ids|
    requires after == before || (HasUser(before, tag, ids[n]) && after == Drained(before, tag, ids[n]))
    ensures SameListeners(start, after, tag)
  {
  }

  lemma Emptied(start: Plane, plane: Plane, tag: Tag, ids: seq<UserId>)
    requires Emptying(start, plane, tag, ids, |ids|) && forall id | id in start[tag].users.value :: id in ids
    ensures tag in plane && plane[tag].users == Some(map[])
    ensures plane - {tag} == start - {tag} && plane.Keys == start.Keys
    ensures (forall id | id in start[tag].draining :: id in ids) ==> NoUsers(plane[tag])
  {
    assert ids[..|ids|] == ids;
    forall id ensures id !in plane[tag].users.value {
      if id in plane[tag].users.value {
        assert false;
      }
    }
    assert plane[tag].users.value == map[];
    if forall id | id in start[tag].draining :: id in ids {
      assert forall id :: id !in plane[tag].draining;
      assert plane[tag].draining == {};
    }
    SameElsewhere(start, plane, tag);
  }

  /** The ids to collect: listed users and labelled ones. */
  function IdsToCollect(listed: seq<UserId>, known: Option<Retiring>): (ids: set<UserId>)
    ensures forall id | id in listed :: id in ids
    ensures Labelled(known) <= ids
  {
    (set id | id in listed) + Labelled(known)
  }

  /** Collect every id on the list, live or draining; one that is neither was collected before. */
  method CollectAll(engine: Engine, pending: PendingTraffic, ghost x: Books, owner: Inbound, ids: seq<UserId>)
    returns (ok: bool, full: bool)
    requires Sound(engine, pending, x) && Owns(x.mine, owner)
    requires owner.tag in engine.plane && engine.plane[owner.tag].users.Some?
    modifies engine, pending
    ensures Sound(engine, pending, x)
    ensures engine.authority == old(engine.authority) && engine.lost == old(engine.lost) && engine.Onward()
    ensures ok ==> Emptying(old(engine.plane), engine.plane, owner.tag, ids, |ids|)
    ensures SameListeners(old(engine.plane), engine.plane, owner.tag)
    ensures Fewer(old(engine.plane), engine.plane, owner.tag)
    ensures (full ==> engine.starved) && (engine.healthy ==> ok || full)
  {
    hide Sound, Emptying, SameListeners, Collected, Drained, Removable, Later, Fewer, Billable;
    ok, full := true, false;
    ghost var start := engine.plane;
    LaterSame(engine.Account());
    EmptyingNone(start, owner.tag, ids);
    FewerSame(start, owner.tag);
    for i := 0 to |ids|
      invariant Sound(engine, pending, x) && ok && !full
      invariant engine.authority == old(engine.authority) && engine.lost == old(engine.lost) && engine.Onward()
      invariant Emptying(start, engine.plane, owner.tag, ids, i) && Fewer(start, engine.plane, owner.tag)
    {
      ghost var before, was := engine.plane, engine.Account();
      EmptyingSlot(start, before, owner.tag, ids, i);
      SoundApart(engine, pending, x, owner.tag, ids[i]);
      var r := RetireUser(engine, pending, x, owner, ids[i]);
      LaterOn(old(engine.Account()), was, engine.Account());
      FewerRetired(start, before, engine.plane, owner.tag, ids[i]);
      if r.Retired? || (r.Failed? && r.missing && !r.changed) {
        EmptyingStep(start, before, engine.plane, owner.tag, ids, i);
      } else {
        EmptyingDrained(start, before, engine.plane, owner.tag, ids, i);
        return false, r.NoRoom?;
      }
    }
    EmptyingSlot(start, engine.plane, owner.tag, ids, |ids|);
  }

  lemma SoundApart(engine: Engine, pending: PendingTraffic, x: Books, tag: Tag, id: UserId)
    requires Sound(engine, pending, x)
    ensures !(HasUser(engine.plane, tag, id) && IsDraining(engine.plane, tag, id))
  {
    engine.NotBoth(tag, id);
  }

  lemma EmptyingNone(plane: Plane, tag: Tag, ids: seq<UserId>)
    requires tag in plane && plane[tag].users.Some?
    ensures Emptying(plane, plane, tag, ids, 0)
  {
  }

  lemma EmptyingSlot(start: Plane, plane: Plane, tag: Tag, ids: seq<UserId>, n: nat)
    requires Emptying(start, plane, tag, ids, n)
    ensures tag in plane && plane[tag].users.Some? && SameListeners(start, plane, tag)
  {
  }

  /** Drop a listener whose registry is empty or absent. */
  method DropListener(engine: Engine, pending: PendingTraffic, ghost x: Books, tag: Tag) returns (ok: bool)
    requires Sound(engine, pending, x)
    requires tag in engine.plane && (engine.plane[tag].users.Some? ==> engine.plane[tag].users.value == map[])
    modifies engine
    ensures Sound(engine, pending, x)
    ensures engine.authority == old(engine.authority) && engine.Onward()
    ensures engine.plane == if ok then old(engine.plane) - {tag} else old(engine.plane)
    ensures !ok || NoUsers(old(engine.plane)[tag]) ==> engine.lost == old(engine.lost)
    ensures engine.healthy ==> ok
  {
    hide GoodPlane, Balanced, BookedOnly, Registered;
    var r := engine.RemoveInboundHard(tag);
    ok := r.None?;
  }

  /** `force_stop_tag`: collect what can still be billed, then drop the listener. Bytes can be lost
      only with a draining user the label does not name. */
  method ForceStop(engine: Engine, pending: PendingTraffic, ghost x: Books, tag: Tag, known: Option<Retiring>)
    returns (ok: bool, full: bool)
    requires Sound(engine, pending, x)
    requires known.Some? ==> known.value.accounting.tag == tag && Owns(x.mine, known.value.accounting)
    modifies engine, pending
    ensures Sound(engine, pending, x)
    ensures engine.authority == old(engine.authority) && engine.Onward()
    ensures ok ==> tag in old(engine.plane) && engine.plane == old(engine.plane) - {tag}
    ensures !ok ==> engine.plane.Keys == old(engine.plane).Keys
    ensures engine.plane - {tag} == old(engine.plane) - {tag} && Fewer(old(engine.plane), engine.plane, tag)
    ensures (tag in old(engine.plane) && old(engine.plane)[tag].users.Some? ==>
               old(engine.plane)[tag].draining <= Labelled(known)) ==> engine.lost == old(engine.lost)
    ensures (full ==> engine.starved) && (engine.healthy && known.Some? && tag in old(engine.plane) ==> ok || full)
  {
    hide Sound, Ordered, Emptying, IdsToCollect, Labelled, Owns, Later, Fewer, Billable;
    FewerSame(engine.plane, tag);
    ok, full := false, false;
    ghost var start := engine.plane;
    var listed := ListLive(engine, pending, x, tag);
    ghost var was := engine.Account();
    if listed.Err? {
      return;
    }
    SoundSlot(engine, pending, x, tag);
    if listed.value.Some? {
      var ids := IdsToCollect(listed.value.value, known);
      if known.None? {
        if ids != {} {
          return;
        }
        NobodyListed(start, tag);
      } else {
        ok, full := CollectAll(engine, pending, x, known.value.accounting, Ordered(ids));
        LaterOn(old(engine.Account()), was, engine.Account());
        was := engine.Account();
        SameElsewhere(start, engine.plane, tag);
        if !ok {
          return;
        }
        ListedAll(start, tag, Ordered(ids), listed.value.value);
        Emptied(start, engine.plane, tag, Ordered(ids));
        assert forall id | id in ids :: id in Ordered(ids);
      }
    }
    ok := DropListener(engine, pending, x, tag);
    LaterOn(old(engine.Account()), was, engine.Account());
    if ok {
      FewerGone(start, engine.plane, tag);
    }
  }

  lemma FewerGone(before: Plane, after: Plane, tag: Tag)
    requires tag !in after
    ensures Fewer(before, after, tag)
  {
  }

  lemma SoundSlot(engine: Engine, pending: PendingTraffic, x: Books, tag: Tag)
    requires Sound(engine, pending, x) && tag in engine.plane
    ensures engine.plane[tag].users.None? ==> engine.plane[tag].draining == {}
  {
  }

  lemma ListedAll(plane: Plane, tag: Tag, ids: seq<UserId>, listed: seq<UserId>)
    requires tag in plane && plane[tag].users.Some? && listed == Ordered(plane[tag].users.value.Keys)
    requires forall id | id in listed :: id in ids
    ensures forall id | id in plane[tag].users.value :: id in ids
  {
    hide Ordered;
    forall id | id in plane[tag].users.value ensures id in ids {
      assert id in listed;
    }
  }

  lemma NobodyListed(plane: Plane, tag: Tag)
    requires tag in plane && plane[tag].users.Some? && IdsToCollect(Ordered(plane[tag].users.value.Keys), None) == {}
    ensures plane[tag].users == Some(map[])
    ensures plane[tag].draining <= Labelled(None) ==> NoUsers(plane[tag])
  {
    hide Ordered;
    var users := plane[tag].users.value;
    forall id ensures id !in users {
      var listed := Ordered(users.Keys);
      assert id !in listed;
    }
    assert users == map[];
  }
}
