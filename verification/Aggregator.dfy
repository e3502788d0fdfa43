/** Hourly traffic counters between the runtime's drains and the reporting stream
    (crates/node-agent/src/traffic.rs:62-290). Times are nanoseconds since the Unix epoch. */
module Aggregator {
  import opened Basics
  import opened Accounting

  const WORD: nat := 0x1_0000_0000_0000_0000
  const I64_MAX: nat := 0x7FFF_FFFF_FFFF_FFFF
  const NANOS: nat := 1_000_000_000
  const HOUR_SECONDS: nat := 3_600
  const MINUTE_SECONDS: nat := 60

  // ---------------------------------------------------------------- time

  /** `unix_seconds`, with its truncating division on either side of the epoch. */
  function UnixSeconds(at: int): int {
    if at >= 0 then
      Clamp(at / NANOS)
    else
      var before := -at;
      var seconds: int := Clamp(before / NANOS);
      if before % NANOS == 0 then -seconds else -seconds - 1
  }

  function Clamp(seconds: nat): nat {
    if seconds > I64_MAX then I64_MAX else seconds
  }

  /** The seconds fit the source's integers. */
  predicate Representable(at: int) {
    -(I64_MAX as int) <= at / NANOS <= I64_MAX
  }

  function HourBucket(at: int): int {
    UnixSeconds(at) / HOUR_SECONDS
  }

  /** 64-bit multiplication wraps around. */
  function Wrap(x: int): int {
    (x + 0x8000_0000_0000_0000) % WORD - 0x8000_0000_0000_0000
  }

  /** `observation_bucket_start`. */
  function MinuteStart(at: int): int {
    Wrap(UnixSeconds(at) / MINUTE_SECONDS * MINUTE_SECONDS) * NANOS
  }

  /** The minute does not begin before the first representable second. */
  predicate MinuteFits(at: int) {
    UnixSeconds(at) / MINUTE_SECONDS * MINUTE_SECONDS >= -0x8000_0000_0000_0000
  }

  /** Seconds are rounded towards the past, also before the epoch. */
  lemma SecondsAreFloor(at: int)
    requires Representable(at)
    ensures UnixSeconds(at) == at / NANOS
  {
  }

  /** The runtime's nanosecond bucket and the aggregator's second-based one are the same hour. */
  lemma SameHour(at: int)
    requires Representable(at)
    ensures HourOf(Some(at)) == Some(HourBucket(at))
  {
    SecondsAreFloor(at);
    assert at / NANOS_PER_HOUR == at / NANOS / HOUR_SECONDS;
  }

  lemma SecondsRange(at: int)
    ensures -0x8000_0000_0000_0000 <= UnixSeconds(at) < 0x8000_0000_0000_0000
  {
  }

  lemma WholeSeconds(seconds: int)
    requires -(I64_MAX as int) <= seconds <= I64_MAX
    ensures UnixSeconds(seconds * NANOS) == seconds
  {
    assert seconds * NANOS / NANOS == seconds;
    SecondsAreFloor(seconds * NANOS);
  }

  lemma Floored(s: int)
    ensures var f := s / MINUTE_SECONDS * MINUTE_SECONDS;
      f % MINUTE_SECONDS == 0 && s - MINUTE_SECONDS < f <= s && f / HOUR_SECONDS == s / HOUR_SECONDS
  {
    var minutes, second := s / MINUTE_SECONDS, s % MINUTE_SECONDS;
    var hours, minute := minutes / 60, minutes % 60;
    SameQuotient(minutes * MINUTE_SECONDS, hours, minute * MINUTE_SECONDS);
    SameQuotient(s, hours, minute * MINUTE_SECONDS + second);
  }

  lemma SameQuotient(x: int, hours: int, rest: int)
    requires x == hours * HOUR_SECONDS + rest && 0 <= rest < HOUR_SECONDS
    ensures x / HOUR_SECONDS == hours
  {
  }

  lemma Wrapped(x: int)
    requires -0x8000_0000_0000_0000 - MINUTE_SECONDS < x < 0x8000_0000_0000_0000
    ensures x >= -0x8000_0000_0000_0000 ==> Wrap(x) == x
    ensures x < -0x8000_0000_0000_0000 ==> 0 < Wrap(x) <= I64_MAX
  {
  }

  /** Flooring to the minute leaves the hour exactly when the minute begins before the first
      representable second. Times that are clamped keep their hour. */
  lemma MinuteKeepsHour(at: int)
    ensures MinuteFits(at) <==> HourBucket(MinuteStart(at)) == HourBucket(at)
    ensures MinuteFits(at) && Representable(at) ==> MinuteStart(at) <= at
  {
    hide UnixSeconds, Wrap;
    SecondsRange(at);
    var s := UnixSeconds(at);
    var floored := s / MINUTE_SECONDS * MINUTE_SECONDS;
    Floored(s);
    Wrapped(floored);
    assert floored != -0x8000_0000_0000_0000;
    WholeSeconds(Wrap(floored));
    if MinuteFits(at) && Representable(at) {
      SecondsAreFloor(at);
    }
  }

  // ---------------------------------------------------------------- counters

  datatype Identity = Identity(machine: Name, node: Name, user: Name, protocol: Name)
  datatype CounterKey = CounterKey(who: Identity, hour: int)
  datatype CounterValue = CounterValue(up: nat, down: nat, first: int, last: int) {
    predicate Zero() { up == 0 && down == 0 }
  }
  datatype Report = Report(who: Identity, up: nat, down: nat, observedAt: int, firstObservedAt: int) {
    function Key(): CounterKey { CounterKey(who, HourBucket(observedAt)) }
  }

  type Counters = map<CounterKey, CounterValue>

  function WrapAdd(a: nat, b: nat): nat {
    (a + b) % WORD
  }

  /** `add_locked`. */
  function Add(m: Counters, k: CounterKey, up: nat, down: nat, first: int, at: int): Counters {
    var v := if k in m then m[k] else CounterValue(0, 0, first, at);
    m[k := CounterValue(WrapAdd(v.up, up), WrapAdd(v.down, down), if first < v.first then first else v.first,
                        Max(v.last, at))]
  }

  function Resident(m: Counters, k: CounterKey): Bytes {
    if k in m then Bytes(m[k].up, m[k].down) else Zero
  }

  ghost predicate Words(m: Counters) {
    forall k | k in m :: m[k].up < WORD && m[k].down < WORD && MinuteFits(m[k].last) && HourBucket(m[k].last) == k.hour
  }

  function RestoredOne(m: Counters, r: Report): Counters {
    if r.up == 0 && r.down == 0 then m else Add(m, r.Key(), r.up, r.down, r.firstObservedAt, r.observedAt)
  }

  function Restored(m: Counters, reports: seq<Report>): Counters {
    if reports == [] then m else RestoredOne(Restored(m, reports[..|reports| - 1]), reports[|reports| - 1])
  }

  function ReportOf(k: CounterKey, v: CounterValue): Report {
    Report(k.who, v.up, v.down, MinuteStart(v.last), v.first)
  }

  // ---------------------------------------------------------------- flushing

  /** `should_report`: enough bytes, or old enough. The 64-bit total may wrap to zero. */
  predicate ShouldReport(v: CounterValue, now: int, minDelta: nat, maxDelay: int) {
    var total := WrapAdd(v.up, v.down);
    && total != 0
    && (minDelta == 0 || total >= minDelta || (maxDelay > 0 && now >= v.first + maxDelay * NANOS))
  }

  predicate Extracted(v: CounterValue, now: int, minDelta: nat, maxDelay: int, force: bool) {
    v.Zero() || force || ShouldReport(v, now, minDelta, maxDelay)
  }

  /** The reports are exactly the extracted non-zero counters of `m`, once each; the rest stays. */
  ghost predicate Split(m: Counters, rest: Counters, reports: seq<Report>) {
    && (forall k | k in rest :: k in m && rest[k] == m[k])
    && (forall i | 0 <= i < |reports| ::
          reports[i].Key() in m && reports[i].Key() !in rest
            && reports[i] == ReportOf(reports[i].Key(), m[reports[i].Key()]))
    && (forall i, j | 0 <= i < j < |reports| :: reports[i].Key() != reports[j].Key())
    && (forall k | k in m && k !in rest && !m[k].Zero() :: exists i :: 0 <= i < |reports| && reports[i].Key() == k)
  }

  lemma ReportKey(m: Counters, k: CounterKey)
    requires Words(m) && k in m
    ensures ReportOf(k, m[k]).Key() == k
  {
    MinuteKeepsHour(m[k].last);
  }

  lemma SplitMore(m: Counters, rest: Counters, reports: seq<Report>, k: CounterKey)
    requires Words(m) && Split(m, rest, reports) && k in rest
    ensures Split(m, rest - {k}, if m[k].Zero() then reports else reports + [ReportOf(k, m[k])])
  {
    hide Words, MinuteStart, HourBucket;
    ReportKey(m, k);
    var all := if m[k].Zero() then reports else reports + [ReportOf(k, m[k])];
    assert forall i | 0 <= i < |reports| :: all[i] == reports[i];
    forall x | x in m && x !in rest - {k} && !m[x].Zero() ensures exists i :: 0 <= i < |all| && all[i].Key() == x {
      if x == k {
        assert all[|reports|].Key() == k;
      } else {
        var i :| 0 <= i < |reports| && reports[i].Key() == x;
        assert all[i].Key() == x;
      }
    }
  }

  // ---------------------------------------------------------------- restoring a flush

  lemma {:induction false} RestoredElsewhere(m: Counters, reports: seq<Report>, k: CounterKey)
    requires forall i | 0 <= i < |reports| :: reports[i].Key() != k
    ensures k in Restored(m, reports) <==> k in m
    ensures k in m ==> Restored(m, reports)[k] == m[k]
  {
    hide WrapAdd;
    if reports != [] {
      RestoredElsewhere(m, reports[..|reports| - 1], k);
    }
  }

  lemma {:induction false} RestoredHere(m: Counters, reports: seq<Report>, i: nat)
    requires i < |reports| && reports[i].Key() !in m && reports[i].up < WORD && reports[i].down < WORD
    requires forall a, b | 0 <= a < b < |reports| :: reports[a].Key() != reports[b].Key()
    ensures Resident(Restored(m, reports), reports[i].Key()) == Bytes(reports[i].up, reports[i].down)
  {
    hide HourBucket;
    var n := |reports| - 1;
    if i == n {
      RestoredElsewhere(m, reports[..n], reports[i].Key());
    } else {
      RestoredHere(m, reports[..n], i);
      assert reports[..n][i] == reports[i];
    }
  }

  /** A flush that could not be delivered and is restored leaves every identity and hour with the
      bytes it had, despite the minute flooring in between. */
  lemma RestoreUndoesFlush(m: Counters, rest: Counters, reports: seq<Report>, k: CounterKey)
    requires Words(m) && Split(m, rest, reports)
    ensures Resident(Restored(rest, reports), k) == Resident(m, k)
  {
    hide Restored, MinuteStart, HourBucket;
    if i :| 0 <= i < |reports| && reports[i].Key() == k {
      RestoredHere(rest, reports, i);
    } else {
      RestoredElsewhere(rest, reports, k);
    }
  }

  // ---------------------------------------------------------------- the aggregator

  /** Bytes of the reports that belong to one identity and hour. */
  ghost function Reported(reports: seq<Report>, k: CounterKey): Bytes {
    if reports == [] then Zero else
      var last := reports[|reports| - 1];
      var before := Reported(reports[..|reports| - 1], k);
      if last.Key() == k then Bytes(before.up + last.up, before.down + last.down) else before
  }

  lemma ReportedSnoc(reports: seq<Report>, r: Report, k: CounterKey)
    ensures Reported(reports + [r], k).up == Reported(reports, k).up + if r.Key() == k then r.up else 0
    ensures Reported(reports + [r], k).down == Reported(reports, k).down + if r.Key() == k then r.down else 0
  {
    hide HourBucket;
    assert (reports + [r])[..|reports|] == reports;
  }

  /** What came in and did not go out is what is resident, modulo 2^64. */
  ghost predicate Balances(m: Counters, into: map<CounterKey, Bytes>, out: seq<Report>) {
    forall k: CounterKey ::
      && Resident(m, k).up == (At(into, k).up - Reported(out, k).up) % WORD
      && Resident(m, k).down == (At(into, k).down - Reported(out, k).down) % WORD
  }

  lemma BalancesAdd(m: Counters, into: map<CounterKey, Bytes>, out: seq<Report>, k: CounterKey, up: nat, down: nat,
                    first: int, at: int)
    requires Balances(m, into, out)
    ensures Balances(Add(m, k, up, down, first, at), Put(into, k, Bytes(At(into, k).up + up, At(into, k).down + down)),
                     out)
  {
    hide Reported;
    var m', into' := Add(m, k, up, down, first, at), Put(into, k, Bytes(At(into, k).up + up, At(into, k).down + down));
    forall j: CounterKey
      ensures Resident(m', j).up == (At(into', j).up - Reported(out, j).up) % WORD
      ensures Resident(m', j).down == (At(into', j).down - Reported(out, j).down) % WORD
    {
      assert Resident(m, j).up == (At(into, j).up - Reported(out, j).up) % WORD;
      assert Resident(m, j).down == (At(into, j).down - Reported(out, j).down) % WORD;
    }
  }

  lemma BalancesTake(m: Counters, into: map<CounterKey, Bytes>, out: seq<Report>, k: CounterKey)
    requires Balances(m, into, out) && Words(m) && k in m
    ensures m[k].Zero() ==> Balances(m - {k}, into, out)
    ensures Balances(m - {k}, into, out + [ReportOf(k, m[k])])
  {
    hide MinuteStart, HourBucket, Reported;
    ReportKey(m, k);
    var r := ReportOf(k, m[k]);
    forall j: CounterKey
      ensures Resident(m - {k}, j).up == (At(into, j).up - Reported(out + [r], j).up) % WORD
      ensures Resident(m - {k}, j).down == (At(into, j).down - Reported(out + [r], j).down) % WORD
    {
      ReportedSnoc(out, r, j);
      assert Resident(m, j).up == (At(into, j).up - Reported(out, j).up) % WORD;
      assert Resident(m, j).down == (At(into, j).down - Reported(out, j).down) % WORD;
    }
    if m[k].Zero() {
      forall j: CounterKey
        ensures Resident(m - {k}, j).up == (At(into, j).up - Reported(out, j).up) % WORD
        ensures Resident(m - {k}, j).down == (At(into, j).down - Reported(out, j).down) % WORD
      {
        assert Resident(m, j) == Resident(m - {k}, j);
      }
    }
  }

  lemma WordsAdd(m: Counters, k: CounterKey, up: nat, down: nat, first: int, at: int)
    requires Words(m) && MinuteFits(at) && HourBucket(at) == k.hour
    ensures Words(Add(m, k, up, down, first, at))
  {
    hide MinuteFits, HourBucket;
  }

  class TrafficAggregator {
    const minDelta: nat
    var maxDelay: int
    var counters: Counters
    /** Bytes observed or restored, per identity and hour, and every report ever flushed. */
    ghost var into: map<CounterKey, Bytes>
    ghost var out: seq<Report>

    ghost predicate Valid() reads this {
      Words(counters) && Balances(counters, into, out)
    }

    constructor (minReportDelta: nat, maxReportDelay: int)
      ensures Valid() && counters == map[] && into == map[] && out == []
      ensures minDelta == minReportDelta && maxDelay == maxReportDelay
    {
      minDelta, maxDelay := minReportDelta, maxReportDelay;
      counters, into, out := map[], map[], [];
    }

    method Observe(who: Identity, up: nat, down: nat, at: int)
      requires Valid() && MinuteFits(at)
      modifies this`counters, this`into
      ensures Valid()
      ensures var k := CounterKey(who, HourBucket(at));
        into == Put(old(into), k, Bytes(At(old(into), k).up + up, At(old(into), k).down + down))
    {
      hide Words, Balances;
      var k := CounterKey(who, HourBucket(at));
      WordsAdd(counters, k, up, down, at, at);
      BalancesAdd(counters, into, out, k, up, down, at, at);
      counters := Add(counters, k, up, down, at, at);
      into := Put(into, k, Bytes(At(into, k).up + up, At(into, k).down + down));
    }

    method Restore(reports: seq<Report>)
      requires Valid()
      requires forall i | 0 <= i < |reports| :: MinuteFits(reports[i].observedAt)
      modifies this`counters, this`into
      ensures Valid() && counters == Restored(old(counters), reports)
      ensures forall k :: At(into, k).up == At(old(into), k).up + Reported(reports, k).up
      ensures forall k :: At(into, k).down == At(old(into), k).down + Reported(reports, k).down
    {
      hide Words, Balances, HourBucket, MinuteFits, Add;
      for i := 0 to |reports|
        invariant Valid() && counters == Restored(old(counters), reports[..i])
        invariant forall k :: At(into, k).up == At(old(into), k).up + Reported(reports[..i], k).up
        invariant forall k :: At(into, k).down == At(old(into), k).down + Reported(reports[..i], k).down
      {
        var r := reports[i];
        assert reports[..i + 1] == reports[..i] + [r];
        assert (reports[..i] + [r])[..i] == reports[..i];
        forall k
          ensures Reported(reports[..i + 1], k).up == Reported(reports[..i], k).up + (if r.Key() == k then r.up else 0)
          ensures Reported(reports[..i + 1], k).down
               == Reported(reports[..i], k).down + (if r.Key() == k then r.down else 0)
        {
          ReportedSnoc(reports[..i], r, k);
        }
        if r.up != 0 || r.down != 0 {
          WordsAdd(counters, r.Key(), r.up, r.down, r.firstObservedAt, r.observedAt);
          BalancesAdd(counters, into, out, r.Key(), r.up, r.down, r.firstObservedAt, r.observedAt);
          counters := Add(counters, r.Key(), r.up, r.down, r.firstObservedAt, r.observedAt);
          into := Put(into, r.Key(), Bytes(At(into, r.Key()).up + r.up, At(into, r.Key()).down + r.down));
        }
      }
      assert reports[..|reports|] == reports;
    }

    /** Emits what is due, drops empty counters, keeps the rest. */
    method Flush(now: int, force: bool) returns (reports: seq<Report>)
      requires Valid()
      modifies this`counters, this`out
      ensures Valid() && out == old(out) + reports && Split(old(counters), counters, reports)
      ensures forall k | k in old(counters) ::
        k in counters <==> !Extracted(old(counters)[k], now, minDelta, maxDelay, force)
    {
      hide Words, Balances, Split, Extracted;
      reports := [];
      ghost var m := counters;
      SplitNone(m);
      var todo := counters.Keys;
      while todo != {}
        invariant Valid() && out == old(out) + reports && Split(m, counters, reports) && maxDelay == old(maxDelay)
        invariant todo <= counters.Keys && (forall k | k in counters :: k in m && counters[k] == m[k])
        invariant forall k | k in m && k !in todo :: k in counters <==> !Extracted(m[k], now, minDelta, maxDelay, force)
        decreases todo
      {
        var k :| k in todo;
        todo := todo - {k};
        var v := counters[k];
        if Extracted(v, now, minDelta, maxDelay, force) {
          SplitMore(m, counters, reports, k);
          BalancesTake(counters, into, out, k);
          WordsLess(counters, k);
          ghost var before := counters;
          counters := counters - {k};
          if !v.Zero() {
            reports := reports + [ReportOf(k, v)];
            out := out + [ReportOf(k, v)];
          }
        }
      }
    }
  }

  lemma SplitNone(m: Counters)
    ensures Split(m, m, [])
  {
  }

  lemma WordsLess(m: Counters, k: CounterKey)
    requires Words(m)
    ensures Words(m - {k})
  {
  }
}
