/** Projected actions, their caches and the exact budget they are charged to
    (crates/node-agent/src/compile.rs:376-515, 562-630, 860-875, 1179-1346, 1389-1403). */
module ProjectionBudget {
  import opened Basics
  import opened JsonText
  import opened OutboundGraph
  import opened OutboundShape
  import opened OutboundAdapter

  const MAX_HOPS: nat := 65_536
  const MAX_BYTES: nat := 64 * 1024 * 1024
  const MAX_GROUPS: nat := 256
  const MAX_CANDIDATES: nat := 8_192

  datatype Action = Action(chains: Chains, selection: Option<Json>)

  function SelectionSize(a: Action): nat {
    if a.selection.Some? then Size(a.selection.value) else 0
  }

  /** What an emitted action takes: its hops, and the bytes of its rendered chains and selection. */
  function CostOf(a: Action): Cost {
    Cost(HopCount(a.chains), Size(ChainsJson(a.chains)) + SelectionSize(a))
  }

  function Total(emitted: seq<Action>): Cost {
    if emitted == [] then Cost(0, 0) else
      var rest := Total(emitted[..|emitted| - 1]);
      var last := CostOf(emitted[|emitted| - 1]);
      Cost(rest.hops + last.hops, rest.bytes + last.bytes)
  }

  lemma TotalSnoc(emitted: seq<Action>, a: Action)
    ensures Total(emitted + [a]) == Cost(Total(emitted).hops + CostOf(a).hops, Total(emitted).bytes + CostOf(a).bytes)
  {
    hide CostOf;
    assert (emitted + [a])[..|emitted|] == emitted;
  }

  predicate Affordable(used: Cost, more: Cost) {
    used.hops + more.hops <= MAX_HOPS && used.bytes + more.bytes <= MAX_BYTES
  }

  // ---------------------------------------------------------------- URLTest groups

  /** The tag Go probes: a selector's immediate choice, or the outbound itself. */
  function RealTag(c: Catalog, t: OutTag): OutTag
    requires t in c && WellFormed(c[t])
  {
    if c[t].Selector? then Selected(c[t]) else t
  }

  ghost predicate Known(c: Catalog, ms: seq<OutTag>) {
    forall m | m in ms :: m in c && WellFormed(c[m])
  }

  /** The first member for each real tag, in order. */
  ghost function Kept(c: Catalog, ms: seq<OutTag>): (r: seq<OutTag>)
    requires Known(c, ms)
    ensures Known(c, r) && |r| <= |ms|
  {
    if ms == [] then [] else
      var rest := Kept(c, ms[..|ms| - 1]);
      var last := ms[|ms| - 1];
      if RealTag(c, last) in RealTags(c, rest) then rest else rest + [last]
  }

  ghost function RealTags(c: Catalog, ms: seq<OutTag>): (r: seq<OutTag>)
    requires Known(c, ms)
    ensures |r| == |ms| && forall i | 0 <= i < |r| :: r[i] == RealTag(c, ms[i])
  {
    if ms == [] then [] else
      assert ms == ms[..|ms| - 1] + [ms[|ms| - 1]];
      RealTags(c, ms[..|ms| - 1]) + [RealTag(c, ms[|ms| - 1])]
  }

  lemma RealTagsSnoc(c: Catalog, ms: seq<OutTag>, m: OutTag)
    requires Known(c, ms) && m in c && WellFormed(c[m])
    ensures Known(c, ms + [m]) && RealTags(c, ms + [m]) == RealTags(c, ms) + [RealTag(c, m)]
  {
    assert (ms + [m])[..|ms|] == ms;
  }

  /** Duplicates are dropped, and nothing but duplicates. */
  lemma {:induction false} KeptDistinct(c: Catalog, ms: seq<OutTag>)
    requires Known(c, ms)
    ensures Distinct(RealTags(c, Kept(c, ms)))
  {
    hide RealTag, WellFormed;
    if ms != [] {
      KeptDistinct(c, ms[..|ms| - 1]);
      var rest := Kept(c, ms[..|ms| - 1]);
      if RealTag(c, ms[|ms| - 1]) !in RealTags(c, rest) {
        RealTagsSnoc(c, rest, ms[|ms| - 1]);
      }
    }
  }

  lemma {:induction false} KeptCovers(c: Catalog, ms: seq<OutTag>, i: nat)
    requires Known(c, ms) && i < |ms|
    ensures RealTag(c, ms[i]) in RealTags(c, Kept(c, ms))
  {
    hide RealTag, WellFormed;
    var init, last := ms[..|ms| - 1], ms[|ms| - 1];
    var rest := Kept(c, init);
    if RealTag(c, last) !in RealTags(c, rest) {
      RealTagsSnoc(c, rest, last);
    }
    if i < |ms| - 1 {
      KeptCovers(c, init, i);
      assert init[i] == ms[i];
    }
  }

  lemma {:induction false} KeptFrom(c: Catalog, ms: seq<OutTag>, m: OutTag)
    requires Known(c, ms) && m in Kept(c, ms)
    ensures m in ms
  {
    hide RealTag, WellFormed;
    var init := ms[..|ms| - 1];
    if m in Kept(c, init) {
      KeptFrom(c, init, m);
    }
  }

  lemma {:induction false} KeptGrows(c: Catalog, ms: seq<OutTag>, n: nat)
    requires Known(c, ms) && n <= |ms|
    ensures Known(c, ms[..n]) && |Kept(c, ms[..n])| <= |Kept(c, ms)|
  {
    hide RealTag, WellFormed;
    if n == |ms| {
      assert ms[..n] == ms;
    } else {
      KeptGrows(c, ms[..|ms| - 1], n);
      assert ms[..|ms| - 1][..n] == ms[..n];
    }
  }

  lemma KeptStep(c: Catalog, ms: seq<OutTag>, n: nat)
    requires Known(c, ms) && n < |ms|
    ensures Known(c, ms[..n]) && Known(c, ms[..n + 1]) && ms[n] in c && WellFormed(c[ms[n]])
    ensures var rest := Kept(c, ms[..n]);
      Kept(c, ms[..n + 1]) == if RealTag(c, ms[n]) in RealTags(c, rest) then rest else rest + [ms[n]]
  {
    assert ms[..n + 1][..n] == ms[..n];
  }

  function Quotes(tags: seq<OutTag>): (r: seq<Json>)
    ensures |r| == |tags| && forall i | 0 <= i < |r| :: r[i] == Quote(tags[i])
  {
    if tags == [] then [] else [Quote(tags[0])] + Quotes(tags[1..])
  }

  const SharedPrefix: string := "node-agent-urltest-v1:"
  const ZeroDigest: string := "0000000000000000000000000000000000000000000000000000000000000000"

  /** The selection as it is measured: with a placeholder for the identity. */
  function DraftFields(s: Settings, history: seq<OutTag>, failures: seq<OutTag>): seq<Field> {
    [Field("type", Quote("urltest")),
     Field("shared_id", Quote(SharedPrefix + ZeroDigest)),
     Field("url", s.url),
     Field("use_native_roots", Scalar("true")),
     Field("reselect_on_connection_failure", Scalar("false")),
     Field("interval_millis", s.interval),
     Field("idle_timeout_millis", s.idleTimeout),
     Field("tolerance_millis", s.tolerance),
     Field("history_keys", Array(Quotes(history))),
     Field("failure_history_keys", Array(Quotes(failures)))]
  }

  /** The fingerprint of an action: 64 hexadecimal digits. */
  type Fingerprint = (OutTag, Chains, Json) -> string

  predicate Hexadecimal(s: string) {
    |s| == 64
  }

  function Identified(fields: seq<Field>, digest: string): Json {
    Object(Replace(fields, "shared_id", Quote(SharedPrefix + digest)))
  }

  /** Filling in the identity changes nothing that was measured. */
  lemma IdentityKeepsSize(s: Settings, history: seq<OutTag>, failures: seq<OutTag>, digest: string)
    requires Hexadecimal(digest)
    ensures var fields := DraftFields(s, history, failures); Size(Identified(fields, digest)) == Size(Object(fields))
  {
    var fields := DraftFields(s, history, failures);
    var id := Quote(SharedPrefix + digest);
    assert |ZeroDigest| == 64;
    assert Size(id) == Size(Quote(SharedPrefix + ZeroDigest));
    forall i | 0 <= i < |fields| && fields[i].name == "shared_id" ensures Size(fields[i].value) == Size(id) {
      Names(s, history, failures, i);
    }
    ReplaceBytes(fields, "shared_id", id);
  }

  lemma Names(s: Settings, history: seq<OutTag>, failures: seq<OutTag>, i: nat)
    requires var fields := DraftFields(s, history, failures); i < |fields| && fields[i].name == "shared_id"
    ensures DraftFields(s, history, failures)[i].value == Quote(SharedPrefix + ZeroDigest)
  {
    assert "shared_id"[0] == 's';
  }

  // ---------------------------------------------------------------- the plain meaning of an action

  ghost predicate Validated(c: Catalog, d: Ranks) {
    Ranked(c, d) && Shaped(c, d)
  }

  ghost function ChainsOf(c: Catalog, d: Ranks, ms: seq<OutTag>): (r: Chains)
    requires Ranked(c, d) && forall m | m in ms :: m in c
    ensures |r| == |ms| && forall i | 0 <= i < |r| :: r[i] == ChainOf(c, d, ms[i])
  {
    if ms == [] then [] else
      assert ms == ms[..|ms| - 1] + [ms[|ms| - 1]];
      ChainsOf(c, d, ms[..|ms| - 1]) + [ChainOf(c, d, ms[|ms| - 1])]
  }

  lemma CandidatesKnown(c: Catalog, d: Ranks, t: OutTag)
    requires Ranked(c, d) && t in c && c[t].Urltest?
    ensures Known(c, c[t].candidates)
  {
    forall m | m in c[t].candidates ensures m in c && WellFormed(c[m]) {
      RankedStep(c, d, t, m);
    }
  }

  ghost function UrltestAction(c: Catalog, d: Ranks, digest: Fingerprint, t: OutTag): Action
    requires Ranked(c, d) && t in c && c[t].Urltest?
  {
    CandidatesKnown(c, d, t);
    var kept := Kept(c, c[t].candidates);
    var chains := ChainsOf(c, d, kept);
    var fields := DraftFields(c[t].settings, RealTags(c, kept), kept);
    Action(chains, Some(Identified(fields, digest(t, chains, Object(fields)))))
  }

  /** What an outbound projects to, by plain recursion. */
  ghost function Meaning(c: Catalog, d: Ranks, digest: Fingerprint, t: OutTag): Action
    requires Ranked(c, d) && t in c
  {
    if EndsInUrltest(c, d, t) then UrltestAction(c, d, digest, Terminal(c, d, t))
    else Action([ChainOf(c, d, t)], None)
  }

  // ---------------------------------------------------------------- the budget

  datatype ActionError = BudgetExceeded | GroupsExceeded | CandidatesExceeded
  datatype Compiled = Emitted(action: Action) | NotEmitted(error: ActionError)
  datatype Sample = Sample(chains: Chains, projection: Projection)
  datatype CachedAction = CachedAction(action: Action, cost: Cost)

  ghost predicate SamplesOk(c: Catalog, d: Ranks, samples: map<OutTag, Sample>)
    requires Ranked(c, d)
  {
    forall t | t in samples ::
      t in c && samples[t].chains == [ChainOf(c, d, t)] && samples[t].projection == Measure(samples[t].chains)
  }

  ghost predicate GroupsOk(c: Catalog, d: Ranks, digest: Fingerprint, groups: map<OutTag, CachedAction>)
    requires Ranked(c, d)
  {
    forall t | t in groups ::
      t in c && c[t].Urltest? && groups[t].action == UrltestAction(c, d, digest, t)
        && groups[t].cost == CostOf(groups[t].action)
  }

  /** The candidates every compiled group will probe. */
  ghost function Probes(c: Catalog, d: Ranks, groups: seq<OutTag>): nat
    requires Ranked(c, d) && forall t | t in groups :: t in c && c[t].Urltest?
  {
    if groups == [] then 0 else
      var last := groups[|groups| - 1];
      CandidatesKnown(c, d, last);
      Probes(c, d, groups[..|groups| - 1]) + |Kept(c, c[last].candidates)|
  }

  ghost predicate AllGroups(c: Catalog, ts: seq<OutTag>) {
    forall t | t in ts :: t in c && c[t].Urltest?
  }

  /** The groups compiled once an outbound has been projected. */
  ghost function NextGroups(c: Catalog, d: Ranks, compiled: seq<OutTag>, t: OutTag): (r: seq<OutTag>)
    requires Ranked(c, d) && AllGroups(c, compiled) && t in c
    ensures AllGroups(c, r)
  {
    var end := Terminal(c, d, t);
    if c[end].Urltest? && end !in compiled then compiled + [end] else compiled
  }

  /** The groups compiled after projecting a list of outbounds, in order. */
  ghost function GroupsOf(c: Catalog, d: Ranks, tags: seq<OutTag>): (r: seq<OutTag>)
    requires Ranked(c, d) && forall t | t in tags :: t in c
    ensures AllGroups(c, r)
  {
    if tags == [] then [] else NextGroups(c, d, GroupsOf(c, d, tags[..|tags| - 1]), tags[|tags| - 1])
  }

  /** Why an outbound cannot be projected after what was handed out, if so: only three budgets. */
  ghost function Refusal(c: Catalog, d: Ranks, digest: Fingerprint, used: Cost, compiled: seq<OutTag>,
                         t: OutTag): Option<ActionError>
    requires Ranked(c, d) && AllGroups(c, compiled) && t in c
  {
    var end := Terminal(c, d, t);
    if c[end].Urltest? && end !in compiled && |compiled| >= MAX_GROUPS then Some(GroupsExceeded)
    else if c[end].Urltest? && end !in compiled && Probes(c, d, compiled) + Fresh(c, d, end) > MAX_CANDIDATES then
      Some(CandidatesExceeded)
    else if !Affordable(used, CostOf(Meaning(c, d, digest, t))) then Some(BudgetExceeded)
    else None
  }

  class ClientChainProjectionBudget {
    const catalog: Catalog
    ghost const ranks: Ranks
    const digest: Fingerprint
    var used: Cost
    var selectorImmediate: map<OutTag, OutTag>
    var selectorTerminals: map<OutTag, OutTag>
    var adapterCache: map<OutTag, OutTag>
    var samples: map<OutTag, Sample>
    var groups: map<OutTag, CachedAction>
    var candidates: nat
    /** Every action and copy handed out so far, and the groups in the order they were compiled. */
    ghost var emitted: seq<Action>
    ghost var compiled: seq<OutTag>

    /** The caches agree with plain recursion. */
    ghost predicate CachesOk() reads this {
      && Validated(catalog, ranks)
      && CacheOk(catalog, selectorImmediate) && CacheOk(catalog, adapterCache)
      && TerminalsOk(catalog, ranks, selectorTerminals)
      && SamplesOk(catalog, ranks, samples) && GroupsOk(catalog, ranks, digest, groups)
    }

    /** The counters are exactly what was handed out, and within their limits. */
    ghost predicate Exact() reads this {
      && used == Total(emitted) && used.hops <= MAX_HOPS && used.bytes <= MAX_BYTES
      && Ranked(catalog, ranks) && (forall t | t in compiled :: t in catalog && catalog[t].Urltest?)
      && (forall t :: t in groups <==> t in compiled)
      && |groups| == |compiled| <= MAX_GROUPS && candidates == Probes(catalog, ranks, compiled) <= MAX_CANDIDATES
    }

    ghost predicate Valid() reads this {
      CachesOk() && Exact() && forall t, cs, v :: Hexadecimal(digest(t, cs, v))
    }

    constructor (c: Catalog, ghost d: Ranks, fingerprint: Fingerprint)
      requires Validated(c, d) && forall t, cs, v :: Hexadecimal(fingerprint(t, cs, v))
      ensures Valid() && catalog == c && ranks == d && digest == fingerprint && emitted == [] && compiled == []
    {
      catalog, ranks, digest := c, d, fingerprint;
      used, candidates, emitted, compiled := Cost(0, 0), 0, [], [];
      selectorImmediate, selectorTerminals, adapterCache, samples, groups := map[], map[], map[], map[], map[];
    }

    /** Charge an action about to be handed out, or refuse it. */
    method Reserve(cost: Cost, ghost a: Action) returns (ok: bool)
      requires Valid() && cost == CostOf(a)
      modifies this`used, this`emitted
      ensures Valid() && ok == Affordable(old(used), cost)
      ensures emitted == if ok then old(emitted) + [a] else old(emitted)
      ensures !ok ==> used == old(used)
    {
      hide SamplesOk, GroupsOk, CacheOk, TerminalsOk, Validated, Ranked, CostOf, Probes, Total, Hexadecimal;
      ok := Affordable(used, cost);
      if ok {
        used := Cost(used.hops + cost.hops, used.bytes + cost.bytes);
        TotalSnoc(emitted, a);
        emitted := emitted + [a];
      }
    }

    /** `reserve_embedded_outbound_action`: a copied action is measured again. */
    method ReserveCopy(a: Action) returns (ok: bool)
      requires Valid()
      modifies this`used, this`emitted
      ensures Valid() && ok == Affordable(old(used), CostOf(a))
      ensures emitted == if ok then old(emitted) + [a] else old(emitted)
    {
      hide SamplesOk, GroupsOk, CacheOk, TerminalsOk, Validated, Ranked, Probes, Measure;
      var projection := Inspect(a.chains);
      CostIsText(a.chains, SelectionSize(a));
      ok := Reserve(projection.CostWith(SelectionSize(a)), a);
    }

    /** Fold an outbound through the shared caches. */
    method Resolve(tag: OutTag) returns (terminal: OutTag)
      requires Valid() && tag in catalog
      modifies this`selectorTerminals, this`selectorImmediate, this`adapterCache
      ensures Valid() && terminal == Terminal(catalog, ranks, tag)
    {
      hide SamplesOk, GroupsOk, CacheOk, TerminalsOk, Ranked, Probes, Total, Hexadecimal, Terminal;
      var r;
      r, selectorTerminals, selectorImmediate, adapterCache :=
        ResolveSelector(catalog, ranks, tag, selectorTerminals, selectorImmediate, adapterCache);
      terminal := r.tag;
    }

    /** A member's real tag, through the shared caches. */
    method Immediate(tag: OutTag) returns (probed: OutTag)
      requires Valid() && tag in catalog && WellFormed(catalog[tag])
      modifies this`selectorImmediate, this`adapterCache
      ensures Valid() && probed == RealTag(catalog, tag)
    {
      hide SamplesOk, GroupsOk, CacheOk, TerminalsOk, Ranked, Probes, Total, Hexadecimal, Shaped, Expected, WellFormed;
      if !catalog[tag].Selector? {
        return tag;
      }
      SelectorMeans(catalog, ranks, tag);
      var r;
      r, selectorImmediate, adapterCache := ImmediateSelection(catalog, tag, selectorImmediate, adapterCache);
      probed := r.tag;
    }

    /** `prepare_outbound_client_chains`: compile once, reuse afterwards. */
    method Prepare(tag: OutTag)
      requires Valid() && tag in catalog && !EndsInUrltest(catalog, ranks, tag)
      modifies this`samples, this`adapterCache
      ensures Valid() && tag in samples && samples[tag].chains == [ChainOf(catalog, ranks, tag)]
      ensures samples[tag].projection == Measure(samples[tag].chains)
    {
      hide GroupsOk, CacheOk, TerminalsOk, Ranked, Probes, Total, Hexadecimal, Measure, Shaped, EndsInUrltest;
      if tag in samples {
        return;
      }
      RankedBound(catalog, ranks, tag);
      var adapter := new Adapter(catalog, ranks, adapterCache);
      Starting(catalog, ranks, tag);
      var r := adapter.Compile(tag);
      adapterCache := adapter.cache;
      var chains := [r.chain];
      var projection := Inspect(chains);
      samples := samples[tag := Sample(chains, projection)];
    }

    /** The members a group will probe, or nothing when they are too many. */
    method SelectCandidates(members: seq<OutTag>) returns (ok: bool, kept: seq<OutTag>, history: seq<OutTag>)
      requires Valid() && Known(catalog, members)
      modifies this`selectorImmediate, this`adapterCache
      ensures Valid() && ok == (candidates + |Kept(catalog, members)| <= MAX_CANDIDATES)
      ensures ok ==> kept == Kept(catalog, members) && history == RealTags(catalog, kept)
    {
      hide Valid, Kept, RealTag, WellFormed;
      ok, kept, history := true, [], [];
      KeptNone(catalog);
      ValidBound();
      for i := 0 to |members|
        invariant Valid() && ok && Known(catalog, members[..i]) && kept == Kept(catalog, members[..i])
        invariant history == RealTags(catalog, kept) && candidates + |kept| <= MAX_CANDIDATES
      {
        KeptStep(catalog, members, i);
        var probed := Immediate(members[i]);
        if probed in history {
          continue;
        }
        if candidates + |history| + 1 > MAX_CANDIDATES {
          KeptGrows(catalog, members, i + 1);
          return false, kept, history;
        }
        RealTagsSnoc(catalog, kept, members[i]);
        history := history + [probed];
        kept := kept + [members[i]];
      }
      assert members[..|members|] == members;
    }

    lemma ValidBound()
      requires Valid()
      ensures candidates <= MAX_CANDIDATES && Validated(catalog, ranks) && AllGroups(catalog, compiled)
      ensures forall t :: t in groups <==> t in compiled
    {
    }

    /** The chains of the kept members, or nothing when they would not fit the budget. */
    method GatherChains(kept: seq<OutTag>, selectionBytes: nat)
      returns (ok: bool, chains: Chains, projection: Projection)
      requires Valid() && forall m | m in kept :: m in catalog && !EndsInUrltest(catalog, ranks, m)
      modifies this`selectorTerminals, this`selectorImmediate, this`adapterCache, this`samples
      ensures Valid()
      ensures ok ==> chains == ChainsOf(catalog, ranks, kept) && projection == Measure(chains)
      ensures !ok ==> !Affordable(used, Measure(ChainsOf(catalog, ranks, kept)).CostWith(selectionBytes))
    {
      hide Valid, Ranked, Shaped, Measure, ChainOf, ChainsOf, Terminal, Affordable;
      ok, chains, projection := true, [], Projection(0, 0, 0);
      ValidBound();
      ChainsNone(catalog, ranks);
      for i := 0 to |kept|
        invariant Valid() && ok && (forall m | m in kept[..i] :: m in catalog)
        invariant chains == ChainsOf(catalog, ranks, kept[..i]) && projection == Measure(chains)
      {
        var member := kept[i];
        assert member in kept;
        var selected := Resolve(member);
        TerminalChain(catalog, ranks, member);
        SameEnd(catalog, ranks, member);
        Prepare(selected);
        ChainsStep(catalog, ranks, kept, i);
        MeasureConcat(chains, samples[selected].chains);
        projection := projection.Append(samples[selected].projection);
        chains := chains + samples[selected].chains;
        if !Affordable(used, projection.CostWith(selectionBytes)) {
          ChainsGrow(catalog, ranks, kept, i + 1, used, selectionBytes);
          return false, chains, projection;
        }
      }
      assert kept[..|kept|] == kept;
    }

    /** Why an outbound cannot be projected now, if so: only the three budgets can refuse. */
    ghost function Verdict(tag: OutTag): Option<ActionError>
      requires Ranked(catalog, ranks) && tag in catalog
      reads this
    {
      var end := Terminal(catalog, ranks, tag);
      if catalog[end].Urltest? && end !in groups && |groups| >= MAX_GROUPS then Some(GroupsExceeded)
      else if catalog[end].Urltest? && end !in groups && candidates + Fresh(catalog, ranks, end) > MAX_CANDIDATES then
        Some(CandidatesExceeded)
      else if !Affordable(used, CostOf(Meaning(catalog, ranks, digest, tag))) then Some(BudgetExceeded)
      else None
    }

    /** The verdict depends on nothing but what was handed out. */
    lemma VerdictIs(tag: OutTag)
      requires Valid() && tag in catalog
      ensures Ranked(catalog, ranks) && AllGroups(catalog, compiled)
      ensures Verdict(tag) == Refusal(catalog, ranks, digest, Total(emitted), compiled, tag)
    {
      hide CachesOk, Ranked, Total, CostOf, Meaning, Probes, Fresh;
    }

    /** Record a freshly compiled group. */
    method Remember(tag: OutTag, action: Action, cost: Cost, probes: nat)
      requires Valid() && tag in catalog && catalog[tag].Urltest? && tag !in groups && |groups| < MAX_GROUPS
      requires action == UrltestAction(catalog, ranks, digest, tag) && cost == CostOf(action)
      requires probes == Fresh(catalog, ranks, tag) && candidates + probes <= MAX_CANDIDATES
      modifies this`groups, this`candidates, this`compiled
      ensures Valid() && tag in groups && groups[tag].action == action && compiled == old(compiled) + [tag]
    {
      hide SamplesOk, CacheOk, TerminalsOk, GroupsOk, Ranked, Total, Hexadecimal, Kept, CostOf, UrltestAction, Shaped;
      hide Probes;
      ProbesSnoc(catalog, ranks, compiled, tag);
      GroupsMore(catalog, ranks, digest, groups, tag, CachedAction(action, cost));
      groups := groups[tag := CachedAction(action, cost)];
      candidates := candidates + probes;
      compiled := compiled + [tag];
    }

    /** `compile_urltest_action`: the group's own action, compiled once and charged every time. */
    method CompileUrltest(tag: OutTag) returns (r: Compiled)
      requires Valid() && tag in catalog && catalog[tag].Urltest?
      modifies this
      ensures Valid()
      ensures r == if old(Verdict(tag)).Some? then NotEmitted(old(Verdict(tag)).value)
                   else Emitted(Meaning(catalog, ranks, digest, tag))
      ensures emitted == if r.Emitted? then old(emitted) + [r.action] else old(emitted)
      ensures AllGroups(catalog, old(compiled)) && Ranked(catalog, ranks)
      ensures compiled == if r.Emitted? then NextGroups(catalog, ranks, old(compiled), tag) else old(compiled)
    {
      hide Valid, Ranked, Shaped, Kept, Affordable, CostOf, ChainsOf, DraftFields, Identified, Measure;
      ValidBound();
      CandidatesKnown(catalog, ranks, tag);
      ghost var action := UrltestAction(catalog, ranks, digest, tag);
      assert action == Meaning(catalog, ranks, digest, tag) && Terminal(catalog, ranks, tag) == tag;
      if tag in groups {
        CachedGroup(tag);
        var ok := Reserve(groups[tag].cost, groups[tag].action);
        return if ok then Emitted(groups[tag].action) else NotEmitted(BudgetExceeded);
      }
      if |groups| >= MAX_GROUPS {
        return NotEmitted(GroupsExceeded);
      }
      var ok, kept, history := SelectCandidates(catalog[tag].candidates);
      if !ok {
        return NotEmitted(CandidatesExceeded);
      }
      var fields := DraftFields(catalog[tag].settings, history, kept);
      var chains, projection;
      CandidatesPlain(catalog, ranks, tag);
      GroupCost(tag, kept, history);
      ok, chains, projection := GatherChains(kept, Size(Object(fields)));
      if !ok {
        return NotEmitted(BudgetExceeded);
      }
      var cost := projection.CostWith(Size(Object(fields)));
      ok := Reserve(cost, action);
      if !ok {
        return NotEmitted(BudgetExceeded);
      }
      r := Emitted(Action(chains, Some(Identified(fields, digest(tag, chains, Object(fields))))));
      Remember(tag, r.action, cost, |history|);
    }

    lemma CachedGroup(tag: OutTag)
      requires Valid() && tag in groups
      ensures tag in catalog && catalog[tag].Urltest?
      ensures groups[tag].action == UrltestAction(catalog, ranks, digest, tag)
      ensures groups[tag].cost == CostOf(groups[tag].action)
    {
    }

    /** What is measured before compilation is what the finished action takes. */
    lemma GroupCost(tag: OutTag, kept: seq<OutTag>, history: seq<OutTag>)
      requires Valid() && tag in catalog && catalog[tag].Urltest? && Known(catalog, catalog[tag].candidates)
      requires kept == Kept(catalog, catalog[tag].candidates) && history == RealTags(catalog, kept)
      ensures var fields := DraftFields(catalog[tag].settings, history, kept);
        Measure(ChainsOf(catalog, ranks, kept)).CostWith(Size(Object(fields)))
        == CostOf(UrltestAction(catalog, ranks, digest, tag))
    {
      hide Kept, ChainsOf, Shaped, DraftFields, Identified, Measure, Size, CachesOk, Exact;
      ValidBound();
      var fields := DraftFields(catalog[tag].settings, history, kept);
      var chains := ChainsOf(catalog, ranks, kept);
      CostIsText(chains, Size(Object(fields)));
      var id := digest(tag, chains, Object(fields));
      assert Hexadecimal(id);
      IdentityKeepsSize(catalog[tag].settings, history, kept, id);
    }

    /** `outbound_client_action`: on a validated catalog the answer is the plain meaning of the
        outbound or the refusal of one of the three budgets, and it is charged exactly. */
    method ClientAction(tag: OutTag) returns (r: Compiled)
      requires Valid() && tag in catalog
      modifies this
      ensures Valid()
      ensures r == if old(Verdict(tag)).Some? then NotEmitted(old(Verdict(tag)).value)
                   else Emitted(Meaning(catalog, ranks, digest, tag))
      ensures emitted == if r.Emitted? then old(emitted) + [r.action] else old(emitted)
      ensures AllGroups(catalog, old(compiled)) && Ranked(catalog, ranks)
      ensures compiled == if r.Emitted? then NextGroups(catalog, ranks, old(compiled), tag) else old(compiled)
    {
      hide Valid, Ranked, Shaped, Affordable, ChainOf, UrltestAction, Measure;
      ValidBound();
      var selected := Resolve(tag);
      SameMeaning(catalog, ranks, digest, tag);
      SameEnd(catalog, ranks, tag);
      if catalog[selected].Urltest? {
        r := CompileUrltest(selected);
        return;
      }
      Prepare(selected);
      var sample := samples[selected];
      CostIsText(sample.chains, 0);
      ghost var action := Action(sample.chains, None);
      var ok := Reserve(sample.projection.CostWith(0), action);
      r := if ok then Emitted(Action(sample.chains, None)) else NotEmitted(BudgetExceeded);
    }
  }

  lemma Starting(c: Catalog, d: Ranks, t: OutTag)
    requires Validated(c, d) && t in c && !EndsInUrltest(c, d, t)
    ensures Admissible(c, d, t, []) && Expected(c, d, t) == Hops(ChainOf(c, d, t))
  {
    RankedBound(c, d, t);
  }

  /** How many candidates a group adds. */
  ghost function Fresh(c: Catalog, d: Ranks, t: OutTag): nat
    requires Ranked(c, d) && t in c && c[t].Urltest?
  {
    CandidatesKnown(c, d, t);
    |Kept(c, c[t].candidates)|
  }

  lemma KeptNone(c: Catalog)
    ensures Known(c, []) && Kept(c, []) == [] && RealTags(c, []) == []
  {
  }

  lemma ChainsNone(c: Catalog, d: Ranks)
    requires Ranked(c, d)
    ensures ChainsOf(c, d, []) == [] && Measure([]) == Projection(0, 0, 0)
  {
    hide Ranked;
  }

  lemma SameEnd(c: Catalog, d: Ranks, t: OutTag)
    requires Ranked(c, d) && t in c
    ensures var u := Terminal(c, d, t); u in c && (EndsInUrltest(c, d, u) <==> EndsInUrltest(c, d, t))
  {
  }

  lemma ChainsStep(c: Catalog, d: Ranks, ms: seq<OutTag>, n: nat)
    requires Ranked(c, d) && n < |ms| && forall m | m in ms :: m in c
    ensures ms[n] in c && forall m | m in ms[..n + 1] :: m in c
    ensures ChainsOf(c, d, ms[..n + 1]) == ChainsOf(c, d, ms[..n]) + [ChainOf(c, d, ms[n])]
  {
    hide Ranked, ChainOf;
    assert ms[..n + 1][..n] == ms[..n];
  }

  /** A prefix that does not fit means that the whole does not fit. */
  lemma {:induction false} ChainsGrow(c: Catalog, d: Ranks, ms: seq<OutTag>, n: nat, used: Cost, selectionBytes: nat)
    requires Ranked(c, d) && n <= |ms| && forall m | m in ms :: m in c
    requires !Affordable(used, Measure(ChainsOf(c, d, ms[..n])).CostWith(selectionBytes))
    ensures !Affordable(used, Measure(ChainsOf(c, d, ms)).CostWith(selectionBytes))
  {
    hide Ranked, ChainOf, Measure;
    if n == |ms| {
      assert ms[..n] == ms;
    } else {
      var init := ms[..|ms| - 1];
      assert init[..n] == ms[..n];
      ChainsGrow(c, d, init, n, used, selectionBytes);
      ChainsStep(c, d, ms, |init|);
      assert ms[..|init| + 1] == ms;
      MeasureConcat(ChainsOf(c, d, init), [ChainOf(c, d, ms[|init|])]);
    }
  }

  /** No candidate of a validated group is itself an active group. */
  lemma CandidatesPlain(c: Catalog, d: Ranks, t: OutTag)
    requires Validated(c, d) && t in c && c[t].Urltest? && Known(c, c[t].candidates)
    ensures forall m | m in Kept(c, c[t].candidates) :: m in c && !EndsInUrltest(c, d, m)
  {
    forall m | m in Kept(c, c[t].candidates) ensures m in c && !EndsInUrltest(c, d, m) {
      KeptFrom(c, c[t].candidates, m);
      assert m in Embedded(c[t]);
    }
  }

  /** Folding keeps the meaning. */
  lemma SameMeaning(c: Catalog, d: Ranks, digest: Fingerprint, t: OutTag)
    requires Ranked(c, d) && t in c
    ensures var u := Terminal(c, d, t);
      u in c && Terminal(c, d, u) == u && Meaning(c, d, digest, u) == Meaning(c, d, digest, t)
  {
    hide Ranked, UrltestAction;
    TerminalChain(c, d, t);
  }

  lemma ProbesSnoc(c: Catalog, d: Ranks, groups: seq<OutTag>, t: OutTag)
    requires Ranked(c, d) && (forall g | g in groups :: g in c && c[g].Urltest?) && t in c && c[t].Urltest?
    ensures Probes(c, d, groups + [t]) == Probes(c, d, groups) + Fresh(c, d, t)
  {
    hide Ranked, Kept;
    assert (groups + [t])[..|groups|] == groups;
  }

  lemma GroupsMore(c: Catalog, d: Ranks, digest: Fingerprint, groups: map<OutTag, CachedAction>, t: OutTag,
                   g: CachedAction)
    requires Ranked(c, d) && GroupsOk(c, d, digest, groups) && t in c && c[t].Urltest?
    requires g.action == UrltestAction(c, d, digest, t) && g.cost == CostOf(g.action)
    ensures GroupsOk(c, d, digest, groups[t := g])
  {
    hide Ranked, UrltestAction, CostOf;
  }

  /** The projection of a list: the meaning of each outbound, until the first one a budget refuses. */
  ghost predicate IsProjection(c: Catalog, d: Ranks, digest: Fingerprint, tags: seq<OutTag>, actions: seq<Action>,
                             refusal: Option<ActionError>)
    requires Ranked(c, d) && forall t | t in tags :: t in c
  {
    && |actions| <= |tags| && (refusal.None? <==> |actions| == |tags|)
    && (forall i | 0 <= i < |actions| :: actions[i] == Meaning(c, d, digest, tags[i]))
    && (forall i | 0 <= i < |actions| :: RefusalAt(c, d, digest, tags, actions, i).None?)
    && (refusal.Some? ==> RefusalAt(c, d, digest, tags, actions, |actions|) == refusal)
  }

  /** What the budgets say about the `i`-th outbound when those before it were handed out. */
  ghost function RefusalAt(c: Catalog, d: Ranks, digest: Fingerprint, tags: seq<OutTag>, actions: seq<Action>,
                           i: nat): Option<ActionError>
    requires Ranked(c, d) && (forall t | t in tags :: t in c) && i < |tags| && i <= |actions|
  {
    Refusal(c, d, digest, Total(actions[..i]), GroupsOf(c, d, tags[..i]), tags[i])
  }

  lemma RefusalKept(c: Catalog, d: Ranks, digest: Fingerprint, tags: seq<OutTag>, actions: seq<Action>, a: Action,
                    i: nat)
    requires Ranked(c, d) && (forall t | t in tags :: t in c) && i < |tags| && i <= |actions|
    ensures RefusalAt(c, d, digest, tags, actions + [a], i) == RefusalAt(c, d, digest, tags, actions, i)
  {
    hide Refusal, Ranked, Total, GroupsOf;
    assert (actions + [a])[..i] == actions[..i];
  }

  /** Validate a catalog and project what its routes name, in order, until a budget refuses. */
  method ProjectAll(c: Catalog, fingerprint: Fingerprint, tags: seq<OutTag>)
    returns (valid: bool, actions: seq<Action>, refusal: Option<ActionError>, ghost d: Ranks)
    requires (forall t | t in tags :: t in c) && forall t, cs, v :: Hexadecimal(fingerprint(t, cs, v))
    ensures valid <==> AllWellFormed(c) && Resolves(c) && Acyclic(c) && Short(c) && NoEmbeddedUrltest(c)
    ensures valid ==> Ranked(c, d) && IsProjection(c, d, fingerprint, tags, actions, refusal)
    ensures valid ==> Total(actions).hops <= MAX_HOPS && Total(actions).bytes <= MAX_BYTES
  {
    hide Ranked, Shaped, IsProjection, Short, Acyclic, Resolves, AllWellFormed, NoEmbeddedUrltest, Total, Hexadecimal;
    actions, refusal := [], None;
    valid, d := ValidateCatalog(c);
    if !valid {
      return;
    }
    var budget := new ClientChainProjectionBudget(c, d, fingerprint);
    actions, refusal := Project(budget, tags);
  }

  method Project(budget: ClientChainProjectionBudget, tags: seq<OutTag>)
    returns (actions: seq<Action>, refusal: Option<ActionError>)
    requires budget.Valid() && budget.emitted == [] && budget.compiled == []
    requires forall t | t in tags :: t in budget.catalog
    modifies budget
    ensures Ranked(budget.catalog, budget.ranks)
    ensures IsProjection(budget.catalog, budget.ranks, budget.digest, tags, actions, refusal)
    ensures Total(actions).hops <= MAX_HOPS && Total(actions).bytes <= MAX_BYTES
  {
    hide budget.Valid, budget.Verdict, Ranked, Meaning, Total, Refusal, NextGroups, RefusalAt;
    actions, refusal := [], None;
    ghost var c, d, digest := budget.catalog, budget.ranks, budget.digest;
    Charged(budget);
    for i := 0 to |tags|
      invariant budget.Valid() && budget.emitted == actions && |actions| == i && refusal.None?
      invariant Ranked(c, d) && budget.compiled == GroupsOf(c, d, tags[..i])
      invariant forall j | 0 <= j < i :: actions[j] == Meaning(c, d, digest, tags[j])
      invariant forall j | 0 <= j < i :: RefusalAt(c, d, digest, tags, actions, j).None?
    {
      assert tags[i] in tags && tags[..i + 1][..i] == tags[..i];
      budget.VerdictIs(tags[i]);
      RefusalIs(budget, tags, actions);
      var r := budget.ClientAction(tags[i]);
      Charged(budget);
      if r.NotEmitted? {
        return actions, Some(r.error);
      }
      forall j | 0 <= j <= i ensures RefusalAt(c, d, digest, tags, actions + [r.action], j).None? {
        RefusalKept(c, d, digest, tags, actions, r.action, j);
      }
      actions := actions + [r.action];
    }
    assert tags[..|tags|] == tags;
    Charged(budget);
  }

  lemma RefusalIs(b: ClientChainProjectionBudget, tags: seq<OutTag>, actions: seq<Action>)
    requires b.Valid() && Ranked(b.catalog, b.ranks) && (forall t | t in tags :: t in b.catalog)
    requires b.emitted == actions && |actions| < |tags| && b.compiled == GroupsOf(b.catalog, b.ranks, tags[..|actions|])
    ensures b.Verdict(tags[|actions|]) == RefusalAt(b.catalog, b.ranks, b.digest, tags, actions, |actions|)
  {
    hide b.Valid, b.Verdict, Ranked, Refusal;
    assert tags[|actions|] in tags && actions[..|actions|] == actions;
    b.VerdictIs(tags[|actions|]);
  }

  lemma Charged(b: ClientChainProjectionBudget)
    requires b.Valid()
    ensures Ranked(b.catalog, b.ranks)
    ensures Total(b.emitted).hops <= MAX_HOPS && Total(b.emitted).bytes <= MAX_BYTES
  {
  }
}
