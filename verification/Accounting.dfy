/** Final traffic receipts and the bounded collection that keeps them until the next drain
    (crates/node-agent/src/runtime.rs:298-482). */
module Accounting {
  import opened Basics
  import opened Topology

  const U64_MAX: nat := 0xFFFF_FFFF_FFFF_FFFF
  const NANOS_PER_HOUR: nat := 3_600_000_000_000

  /** The accounting identity a receipt is booked to. */
  datatype Key = Key(tag: Tag, node: Name, protocol: Name, user: UserId)

  /** Bytes taken out of a user's counters, with the nanosecond of their last observation. */
  datatype Receipt = Receipt(key: Key, up: nat, down: nat, at: Option<int>) {
    predicate Empty() { up == 0 && down == 0 }
  }

  /** The two-level tree map of the source (identity, then observation hour), as the list of its
      records: `Filed` says that no two of them share both. */
  type Entries = seq<Receipt>

  function KeyOf(owner: Inbound, user: UserId): Key {
    Key(owner.tag, owner.node, owner.protocol, user)
  }

  function HourOf(at: Option<int>): Option<int> {
    if at.None? then None else Some(at.value / NANOS_PER_HOUR)
  }

  function SatAdd(a: nat, b: nat): nat {
    if a + b > U64_MAX then U64_MAX else a + b
  }

  function Latest(a: Option<int>, b: Option<int>): Option<int> {
    if a.None? then b else if b.None? then a else Some(Max(a.value, b.value))
  }

  function SlotOf(r: Receipt): (Key, Option<int>) {
    (r.key, HourOf(r.at))
  }

  function Absorb(a: Receipt, b: Receipt): Receipt {
    a.(up := SatAdd(a.up, b.up), down := SatAdd(a.down, b.down), at := Latest(a.at, b.at))
  }

  function File(e: Entries, r: Receipt): Entries {
    if e == [] then [r]
    else if SlotOf(e[0]) == SlotOf(r) then [Absorb(e[0], r)] + e[1..]
    else [e[0]] + File(e[1..], r)
  }

  /** `merge_traffic_entry`: one record per identity and observation hour, none for no bytes. */
  function Merge(e: Entries, r: Receipt): Entries {
    if r.Empty() then e else File(e, r)
  }

  /** The identities that occupy the bounded budget. */
  function Identities(e: Entries): set<Key> {
    if e == [] then {} else {e[0].key} + Identities(e[1..])
  }

  ghost function Slots(e: Entries): set<(Key, Option<int>)> {
    if e == [] then {} else {SlotOf(e[0])} + Slots(e[1..])
  }

  /** One record per identity and hour, and none without bytes. */
  ghost predicate Filed(e: Entries) {
    e != [] ==> !e[0].Empty() && SlotOf(e[0]) !in Slots(e[1..]) && Filed(e[1..])
  }

  /** Bytes recorded for one user of one inbound, whoever they are booked to. */
  ghost function HeldFor(e: Entries, t: Tag, u: UserId): Bytes {
    if e == [] then Zero else
      var rest := HeldFor(e[1..], t, u);
      if e[0].key.tag == t && e[0].key.user == u then Bytes(e[0].up + rest.up, e[0].down + rest.down) else rest
  }

  /** The records booked to one identity. */
  ghost function RecordsOf(e: Entries, k: Key): Entries {
    if e == [] then [] else (if e[0].key == k then [e[0]] else []) + RecordsOf(e[1..], k)
  }

  /** The receipt's bytes added to `base` when it belongs to user `u` of inbound `t`. */
  ghost function Credit(r: Receipt, t: Tag, u: UserId, base: Bytes): Bytes {
    if r.key.tag == t && r.key.user == u then Bytes(base.up + r.up, base.down + r.down) else base
  }

  ghost predicate Fits(b: Bytes, r: Receipt) {
    b.up + r.up <= U64_MAX && b.down + r.down <= U64_MAX
  }

  /** Merging a receipt adds exactly its bytes to its own user and nothing to any other,
      as long as the user's bytes fit the 64-bit counter. */
  lemma {:induction false} MergeAdds(e: Entries, r: Receipt, t: Tag, u: UserId)
    requires Fits(HeldFor(e, r.key.tag, r.key.user), r)
    ensures HeldFor(Merge(e, r), t, u) == Credit(r, t, u, HeldFor(e, t, u))
  {
    if !r.Empty() {
      FileAdds(e, r, t, u);
    }
  }

  lemma {:induction false} FileAdds(e: Entries, r: Receipt, t: Tag, u: UserId)
    requires Fits(HeldFor(e, r.key.tag, r.key.user), r)
    ensures HeldFor(File(e, r), t, u) == Credit(r, t, u, HeldFor(e, t, u))
  {
    if e == [] {
    } else if SlotOf(e[0]) == SlotOf(r) {
      assert ([Absorb(e[0], r)] + e[1..])[1..] == e[1..];
    } else {
      FileAdds(e[1..], r, t, u);
      assert ([e[0]] + File(e[1..], r))[1..] == File(e[1..], r);
    }
  }

  /** A merge touches no record of another identity. */
  lemma {:induction false} MergeKeepsOthers(e: Entries, r: Receipt, k: Key)
    requires k != r.key
    ensures RecordsOf(Merge(e, r), k) == RecordsOf(e, k)
  {
    if !r.Empty() {
      FileKeepsOthers(e, r, k);
    }
  }

  lemma {:induction false} FileKeepsOthers(e: Entries, r: Receipt, k: Key)
    requires k != r.key
    ensures RecordsOf(File(e, r), k) == RecordsOf(e, k)
  {
    if e == [] {
    } else if SlotOf(e[0]) == SlotOf(r) {
      assert ([Absorb(e[0], r)] + e[1..])[1..] == e[1..];
    } else {
      FileKeepsOthers(e[1..], r, k);
      assert ([e[0]] + File(e[1..], r))[1..] == File(e[1..], r);
    }
  }

  /** Filing keeps one record per identity and hour, and claims at most the receipt's identity. */
  lemma {:induction false} FileShape(e: Entries, r: Receipt)
    requires Filed(e) && !r.Empty()
    ensures Filed(File(e, r))
    ensures Identities(File(e, r)) == Identities(e) + {r.key}
    ensures Slots(File(e, r)) == Slots(e) + {SlotOf(r)}
  {
    var f := File(e, r);
    if e == [] {
    } else if SlotOf(e[0]) == SlotOf(r) {
      assert f[1..] == e[1..];
    } else {
      FileShape(e[1..], r);
      assert f[1..] == File(e[1..], r);
    }
  }

  // ---------------------------------------------------------------- the pending collection

  datatype Admission = Owned | Shared | Reserved | Full

  class PendingTraffic {
    var entries: Entries
    var reserved: set<Key>
    const maxKeys: nat

    /** Queued identities and open reservations are disjoint and share one budget. */
    ghost predicate Valid() reads this {
      Filed(entries) && Identities(entries) !! reserved && |Identities(entries)| + |reserved| <= maxKeys
    }

    constructor (max: nat)
      ensures Valid() && entries == [] && reserved == {} && maxKeys == max
    {
      entries, reserved, maxKeys := [], {}, max;
    }

    /** Room for one more identity is claimed before its counters are touched. */
    method Reserve(key: Key) returns (r: Admission)
      requires Valid()
      modifies this`reserved
      ensures Valid()
      ensures r.Shared? <==> key in Identities(entries)
      ensures r.Reserved? <==> key !in Identities(entries) && key in old(reserved)
      ensures r.Full? <==> key !in Identities(entries) + old(reserved)
                           && |Identities(entries)| + |old(reserved)| == maxKeys
      ensures reserved == if r.Owned? then old(reserved) + {key} else old(reserved)
      ensures r.Owned? ==> key !in old(reserved)
    {
      if key in Identities(entries) {
        return Shared;
      }
      if key in reserved {
        return Reserved;
      }
      if |Identities(entries)| + |reserved| >= maxKeys {
        return Full;
      }
      reserved := reserved + {key};
      r := Owned;
    }

    method Release(key: Key)
      requires Valid()
      modifies this`reserved
      ensures Valid() && reserved == old(reserved) - {key}
    {
      reserved := reserved - {key};
    }

    /** A receipt lands where its reservation was made; both assertions of the source hold. */
    method MergeReserved(drain: Receipt, ownsReservation: bool)
      requires Valid()
      requires if ownsReservation then drain.key in reserved else drain.key in Identities(entries)
      modifies this
      ensures Valid()
      ensures entries == Merge(old(entries), drain)
      ensures reserved == if ownsReservation then old(reserved) - {drain.key} else old(reserved)
    {
      if ownsReservation {
        assert drain.key in reserved;
        reserved := reserved - {drain.key};
      }
      if drain.Empty() {
        return;
      }
      FileShape(entries, drain);
      entries := Merge(entries, drain);
      assert |Identities(entries)| + |reserved| <= maxKeys;
    }

    /** Everything queued leaves in one step. */
    method Drain() returns (out: seq<Receipt>)
      requires Valid()
      modifies this`entries
      ensures Valid() && entries == [] && out == old(entries)
    {
      out := entries;
      entries := [];
    }
  }
}
