/** The token bucket of the analysis stream over real-valued time, and the limits it is built from
    (crates/node-agent/src/analysis/stream.rs:18-59, crates/acp-proto/src/analysis.rs:28-104). */
module Limiter {
  import opened Basics

  // ---------------------------------------------------------------- limits

  datatype Limits = Limits(batchMaxBytes: nat, sendBytesPerSecond: nat, sendBurstBytes: nat)

  const DefaultLimits := Limits(0x4_0000, 0x4_0000, 0x8_0000)

  /** Zero means omitted; anything else is clamped. */
  function Bound(value: nat, fallback: nat, low: nat, high: nat): nat
    requires low <= high
  {
    if value == 0 then fallback else if value < low then low else if value > high then high else value
  }

  /** The fields of `normalize_config` the limiter depends on. The burst's lower bound is the batch
      size already normalized. */
  function Normalize(config: Option<Limits>): Limits {
    if config.None? then DefaultLimits else
      var batch := Bound(config.value.batchMaxBytes, DefaultLimits.batchMaxBytes, 1024, 0x4_0000);
      var rate := Bound(config.value.sendBytesPerSecond, DefaultLimits.sendBytesPerSecond, 1024, 0x100_0000);
      var burst := Bound(config.value.sendBurstBytes, DefaultLimits.sendBurstBytes, batch, 0x100_0000);
      Limits(batch, rate, burst)
  }

  /** Under every configuration a full batch fits the burst, and tokens do flow. */
  lemma BatchFitsBurst(config: Option<Limits>)
    ensures var limits := Normalize(config);
      1024 <= limits.batchMaxBytes <= limits.sendBurstBytes && limits.sendBytesPerSecond >= 1024
  {
  }

  // ---------------------------------------------------------------- the bucket

  /** Tokens that flow in between two moments. */
  function Flow(rate: real, from: real, to: real): real {
    rate * (to - from)
  }

  lemma FlowThrough(rate: real, a: real, b: real, c: real)
    requires rate >= 0.0 && b <= c
    ensures Flow(rate, a, c) == Flow(rate, a, b) + Flow(rate, b, c) && Flow(rate, b, c) >= 0.0
  {
    assert rate * (c - a) == rate * (b - a) + rate * (c - b);
    assert rate * (c - b) >= 0.0;
  }

  function Smaller(a: real, b: real): real {
    if a < b then a else b
  }

  /** One granted request. */
  datatype Grant = Grant(bytes: nat, at: real)

  function Sum(grants: seq<Grant>): real {
    if grants == [] then 0.0 else Sum(grants[..|grants| - 1]) + grants[|grants| - 1].bytes as real
  }

  lemma SumSnoc(grants: seq<Grant>, g: Grant)
    ensures Sum(grants + [g]) == Sum(grants) + g.bytes as real
  {
    assert (grants + [g])[..|grants|] == grants;
  }

  /** What was granted from the `i`-th request on and what is still in the bucket is covered by the
      burst and by what flowed in since that request. */
  ghost predicate Covered(grants: seq<Grant>, i: nat, tokens: real, now: real, rate: real, burst: real)
    requires i < |grants|
  {
    Sum(grants) - Sum(grants[..i]) + tokens <= burst + Flow(rate, grants[i].at, now)
  }

  ghost predicate AllCovered(grants: seq<Grant>, tokens: real, now: real, rate: real, burst: real) {
    forall i | 0 <= i < |grants| :: grants[i].at <= now && Covered(grants, i, tokens, now, rate, burst)
  }

  /** Every run of consecutive grants keeps to the rate. */
  ghost predicate Windows(grants: seq<Grant>, rate: real, burst: real) {
    forall j | 0 <= j < |grants| :: AllCovered(grants[..j + 1], 0.0, grants[j].at, rate, burst)
  }

  lemma RefillCovers(grants: seq<Grant>, tokens: real, before: real, now: real, rate: real, burst: real)
    requires AllCovered(grants, tokens, before, rate, burst) && before <= now && rate >= 0.0
    ensures AllCovered(grants, Smaller(tokens + Flow(rate, before, now), burst), now, rate, burst)
  {
    hide Flow, Sum;
    var filled := Smaller(tokens + Flow(rate, before, now), burst);
    forall i | 0 <= i < |grants| ensures Covered(grants, i, filled, now, rate, burst) {
      assert Covered(grants, i, tokens, before, rate, burst);
      FlowThrough(rate, grants[i].at, before, now);
    }
  }

  lemma SpendCovers(grants: seq<Grant>, tokens: real, now: real, rate: real, burst: real, bytes: nat)
    requires AllCovered(grants, tokens, now, rate, burst) && 0.0 <= tokens <= burst && rate >= 0.0
    ensures AllCovered(grants + [Grant(bytes, now)], tokens - bytes as real, now, rate, burst)
  {
    hide Flow, Sum;
    var more := grants + [Grant(bytes, now)];
    SumSnoc(grants, Grant(bytes, now));
    FlowThrough(rate, now, now, now);
    forall i | 0 <= i < |more| ensures more[i].at <= now && Covered(more, i, tokens - bytes as real, now, rate, burst) {
      if i < |grants| {
        assert Covered(grants, i, tokens, now, rate, burst);
        assert more[..i] == grants[..i];
      } else {
        assert more[..i] == grants;
      }
    }
  }

  lemma SpendWindows(grants: seq<Grant>, g: Grant, tokens: real, rate: real, burst: real)
    requires Windows(grants, rate, burst) && tokens >= 0.0 && AllCovered(grants + [g], tokens, g.at, rate, burst)
    ensures Windows(grants + [g], rate, burst)
  {
    hide Flow, Sum;
    var more := grants + [g];
    forall j | 0 <= j < |more| ensures AllCovered(more[..j + 1], 0.0, more[j].at, rate, burst) {
      if j < |grants| {
        assert more[..j + 1] == grants[..j + 1];
      } else {
        assert more[..j + 1] == more;
        forall i | 0 <= i < |more| ensures Covered(more, i, 0.0, g.at, rate, burst) {
          assert Covered(more, i, tokens, g.at, rate, burst);
        }
      }
    }
  }

  class SendLimiter {
    const rate: real
    const burst: real
    var tokens: real
    var updatedAt: real
    /** Everything granted so far. */
    ghost var grants: seq<Grant>

    ghost predicate Valid() reads this {
      && 0.0 <= tokens <= burst && 0.0 <= rate
      && AllCovered(grants, tokens, updatedAt, rate, burst) && Windows(grants, rate, burst)
    }

    constructor (limits: Limits, now: real)
      ensures Valid() && grants == [] && updatedAt == now && tokens == burst
      ensures rate == limits.sendBytesPerSecond as real && burst == limits.sendBurstBytes as real
    {
      rate, burst := limits.sendBytesPerSecond as real, limits.sendBurstBytes as real;
      tokens, updatedAt, grants := limits.sendBurstBytes as real, now, [];
    }

    /** Tokens that flowed in since the last look, up to the burst. */
    method Refill(now: real)
      requires Valid() && updatedAt <= now
      modifies this`tokens, this`updatedAt
      ensures Valid() && updatedAt == now
      ensures tokens == Smaller(old(tokens) + Flow(rate, old(updatedAt), now), burst)
    {
      hide Flow, AllCovered, Windows;
      FlowThrough(rate, updatedAt, updatedAt, now);
      RefillCovers(grants, tokens, updatedAt, now, rate, burst);
      tokens := Smaller(tokens + Flow(rate, updatedAt, now), burst);
      updatedAt := now;
    }

    /** Spend tokens for a granted request. */
    method Spend(bytes: nat)
      requires Valid() && bytes as real <= tokens
      modifies this`tokens, this`grants
      ensures Valid() && tokens == old(tokens) - bytes as real && grants == old(grants) + [Grant(bytes, updatedAt)]
    {
      hide Flow, AllCovered, Windows;
      SpendCovers(grants, tokens, updatedAt, rate, burst, bytes);
      SpendWindows(grants, Grant(bytes, updatedAt), tokens - bytes as real, rate, burst);
      tokens := tokens - bytes as real;
      grants := grants + [Grant(bytes, updatedAt)];
    }

    /** `acquire`. The sleep ends at the computed moment or later. A request is refused without
        spending a token; it is granted, or its deadline passed, after at most one sleep. */
    method Acquire(bytes: nat, start: real, expiresAt: real) returns (ok: bool, sleeps: nat)
      requires Valid() && updatedAt <= start
      modifies this
      ensures Valid() && sleeps <= 1
      ensures ok ==> grants == old(grants) + [Grant(bytes, updatedAt)] && start <= updatedAt < expiresAt
      ensures !ok ==> grants == old(grants) && tokens >= old(tokens)
      ensures !ok && sleeps == 0 <==> Hopeless(old(tokens), old(updatedAt), rate, burst, bytes, start, expiresAt)
    {
      hide Flow, AllCovered, Windows, Wait;
      sleeps := 0;
      if bytes as real > burst || rate <= 0.0 {
        return false, sleeps;
      }
      FlowThrough(rate, updatedAt, updatedAt, start);
      var now, ready := start, start;
      while true
        invariant Valid() && updatedAt <= now && start <= now && sleeps <= 1 && grants == old(grants)
        invariant tokens >= old(tokens)
        invariant sleeps == 0 ==> now == start && tokens == old(tokens) && updatedAt == old(updatedAt)
        invariant sleeps == 1 ==>
          && Owed(tokens, updatedAt, rate, bytes, ready) && ready <= now
          && !Hopeless(old(tokens), old(updatedAt), rate, burst, bytes, start, expiresAt)
        decreases 1 - sleeps
      {
        if now >= expiresAt {
          return false, sleeps;
        }
        if sleeps == 1 {
          Arrived(tokens, updatedAt, rate, burst, bytes, ready, now);
        }
        FlowThrough(rate, updatedAt, updatedAt, now);
        Refill(now);
        if tokens >= bytes as real {
          Spend(bytes);
          return true, sleeps;
        }
        ready := now + Wait(bytes, tokens, rate);
        if ready >= expiresAt {
          return false, sleeps;
        }
        OwedNow(tokens, rate, bytes, now);
        sleeps := sleeps + 1;
        var late: real := *;
        now := if late > 0.0 then ready + late else ready;
      }
    }
  }

  /** Time until the missing tokens have flowed in. */
  function Wait(bytes: nat, tokens: real, rate: real): real
    requires rate > 0.0
  {
    (bytes as real - tokens) / rate
  }

  /** At `ready` the missing tokens will have flowed in. */
  ghost predicate Owed(tokens: real, updatedAt: real, rate: real, bytes: nat, ready: real) {
    tokens + Flow(rate, updatedAt, ready) >= bytes as real && updatedAt <= ready
  }

  lemma OwedNow(tokens: real, rate: real, bytes: nat, now: real)
    requires rate > 0.0 && tokens < bytes as real
    ensures Owed(tokens, now, rate, bytes, now + Wait(bytes, tokens, rate))
  {
    var wait := Wait(bytes, tokens, rate);
    assert wait * rate == bytes as real - tokens;
    assert wait >= 0.0;
  }

  lemma Arrived(tokens: real, updatedAt: real, rate: real, burst: real, bytes: nat, ready: real, now: real)
    requires Owed(tokens, updatedAt, rate, bytes, ready) && ready <= now && rate >= 0.0 && bytes as real <= burst
    ensures Smaller(tokens + Flow(rate, updatedAt, now), burst) >= bytes as real
  {
    hide Flow;
    FlowThrough(rate, updatedAt, ready, now);
  }

  /** Refused at once: larger than the burst, already late, or not ready before the deadline. */
  ghost predicate Hopeless(tokens: real, updatedAt: real, rate: real, burst: real, bytes: nat, start: real,
                           expiresAt: real) {
    || bytes as real > burst || rate <= 0.0 || start >= expiresAt
    || (var filled := Smaller(tokens + Flow(rate, updatedAt, start), burst);
        filled < bytes as real && start + Wait(bytes, filled, rate) >= expiresAt)
  }

  /** In every window of time the granted bytes are at most the burst plus the rate times its
      length. */
  lemma WindowBound(l: SendLimiter, i: nat, j: nat, from: real, to: real)
    requires l.Valid() && i <= j < |l.grants| && from <= l.grants[i].at && l.grants[j].at <= to
    ensures Sum(l.grants[..j + 1]) - Sum(l.grants[..i]) <= l.burst + Flow(l.rate, from, to)
  {
    hide Flow, Sum;
    var g := l.grants;
    var run := g[..j + 1];
    assert AllCovered(run, 0.0, g[j].at, l.rate, l.burst);
    assert run[i] == g[i] && run[..i] == g[..i];
    assert Covered(run, i, 0.0, g[j].at, l.rate, l.burst);
    FlowThrough(l.rate, from, from, g[i].at);
    FlowThrough(l.rate, from, g[i].at, g[j].at);
    FlowThrough(l.rate, from, g[j].at, to);
  }

  lemma WaitShrinks(bytes: nat, less: real, more: real, rate: real)
    requires rate > 0.0 && less <= more
    ensures Wait(bytes, more, rate) <= Wait(bytes, less, rate)
  {
    var gap := Wait(bytes, less, rate) - Wait(bytes, more, rate);
    assert Wait(bytes, less, rate) * rate == bytes as real - less;
    assert Wait(bytes, more, rate) * rate == bytes as real - more;
    assert gap * rate == more - less;
  }

  /** A batch within the normalized limit is never refused for its size: whatever is in the bucket,
      it is hopeless only if its deadline passes before an empty bucket would have filled enough. */
  lemma BatchNeverTooLarge(config: Option<Limits>, l: SendLimiter, bytes: nat, start: real, expiresAt: real)
    requires l.Valid() && l.burst == Normalize(config).sendBurstBytes as real
    requires l.rate == Normalize(config).sendBytesPerSecond as real && l.rate > 0.0
    requires bytes <= Normalize(config).batchMaxBytes && l.updatedAt <= start
    requires start + Wait(bytes, 0.0, l.rate) < expiresAt
    ensures !Hopeless(l.tokens, l.updatedAt, l.rate, l.burst, bytes, start, expiresAt)
  {
    hide Flow, Wait, AllCovered, Windows;
    BatchFitsBurst(config);
    FlowThrough(l.rate, l.updatedAt, l.updatedAt, start);
    var filled := Smaller(l.tokens + Flow(l.rate, l.updatedAt, start), l.burst);
    WaitShrinks(bytes, 0.0, filled, l.rate);
    WaitShrinks(bytes, 0.0, bytes as real, l.rate);
    WaitZero(bytes, l.rate);
  }

  lemma WaitZero(bytes: nat, rate: real)
    requires rate > 0.0
    ensures Wait(bytes, bytes as real, rate) == 0.0
  {
  }
}
