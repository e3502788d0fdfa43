/** The recursive projection of one outbound into a client chain, with its selector cache
    (crates/node-agent/src/outbound_adapter.rs:145-174, 284-348, 628-765).

    The methods accept any catalog and keep the source's defensive errors; their contracts say
    what happens on a catalog that validation accepted. */
module OutboundAdapter {
  import opened Basics
  import opened JsonText
  import opened OutboundGraph
  import opened OutboundShape

  datatype AdapterError = CycleAt | DepthAt | UnknownAt | MalformedAt | UrltestAt
  datatype Projected = Hops(chain: Chain) | Refused(error: AdapterError)

  /** A cached selector choice is the choice its definition makes. */
  ghost predicate CacheOk(c: Catalog, cache: map<OutTag, OutTag>) {
    forall t | t in cache ::
      t in c && c[t].Selector? && WellFormed(c[t]) && cache[t] == Selected(c[t]) && cache[t] in c
  }

  /** The catalog was validated, and every active outbound outranks `t`. */
  ghost predicate Admissible(c: Catalog, d: Ranks, t: OutTag, active: seq<OutTag>) {
    && Ranked(c, d) && Shaped(c, d) && t in c && |active| + d[t] <= MAX_DEPTH
    && forall a | a in active :: a in c && d[t] < d[a]
  }

  ghost function Expected(c: Catalog, d: Ranks, t: OutTag): Projected
    requires Ranked(c, d) && t in c
  {
    if EndsInUrltest(c, d, t) then Refused(UrltestAt) else Hops(ChainOf(c, d, t))
  }

  /** One reference further down there is still room and no cycle. */
  lemma Descend(c: Catalog, d: Ranks, t: OutTag, active: seq<OutTag>, r: OutTag)
    requires Admissible(c, d, t, active) && r in References(c[t])
    ensures Admissible(c, d, r, active + [t]) && t !in active
  {
    RankedStep(c, d, t, r);
    forall a | a in active + [t] ensures a in c && d[r] < d[a] {
      if a in active {
        assert d[t] < d[a];
      }
    }
  }

  lemma SelectorMeans(c: Catalog, d: Ranks, t: OutTag)
    requires Ranked(c, d) && t in c && c[t].Selector?
    ensures WellFormed(c[t]) && Selected(c[t]) in c && Selected(c[t]) in References(c[t])
    ensures Expected(c, d, t) == Expected(c, d, Selected(c[t]))
  {
    RankedStep(c, d, t, Selected(c[t]));
  }

  lemma DetourMeans(c: Catalog, d: Ranks, t: OutTag)
    requires Ranked(c, d) && Shaped(c, d) && t in c && c[t].Proxy? && c[t].detour.Some?
    ensures var r := c[t].detour.value;
      r in c && Expected(c, d, r).Hops? && Expected(c, d, t) == Hops(Expected(c, d, r).chain + [c[t].hop])
  {
    var r := c[t].detour.value;
    assert r in Embedded(c[t]);
    RankedStep(c, d, t, r);
  }

  class Adapter {
    const catalog: Catalog
    ghost const ranks: Ranks
    var activeIds: seq<OutTag>
    var cache: map<OutTag, OutTag>

    constructor (c: Catalog, ghost d: Ranks, cached: map<OutTag, OutTag>)
      ensures catalog == c && ranks == d && activeIds == [] && cache == cached
    {
      catalog, ranks, activeIds, cache := c, d, [], cached;
    }

    /** `compile_with_dns` for a catalog entry: on a validated catalog it computes the plain
        recursive meaning, whatever the cache holds already. */
    method Compile(tag: OutTag) returns (r: Projected)
      requires CacheOk(catalog, cache) && tag in catalog && |activeIds| <= MAX_DEPTH
      modifies this
      ensures CacheOk(catalog, cache) && activeIds == old(activeIds)
      ensures Admissible(catalog, ranks, tag, old(activeIds)) ==> r == Expected(catalog, ranks, tag)
      decreases MAX_DEPTH - |activeIds|, 1
    {
      hide Ranked, Shaped, CacheOk, WellFormed, Admissible, Expected;
      ghost var fits := Admissible(catalog, ranks, tag, activeIds);
      if fits {
        NotActive(catalog, ranks, tag, activeIds);
      }
      if tag in activeIds {
        return Refused(CycleAt);
      }
      if |activeIds| >= MAX_DEPTH {
        return Refused(DepthAt);
      }
      var outbound := catalog[tag];
      if outbound.Selector? && tag in cache {
        Cached(catalog, cache, tag);
        if fits {
          SelectorMeans(catalog, ranks, tag);
          Descend(catalog, ranks, tag, activeIds, cache[tag]);
        }
        activeIds := activeIds + [tag];
        r := Compile(cache[tag]);
        activeIds := activeIds[..|activeIds| - 1];
        return;
      }
      ghost var before := activeIds;
      activeIds := activeIds + [tag];
      match outbound {
        case Proxy(hop, detour) => r := CompileProxyChain(tag, hop, detour, before);
        case Selector(members, byDefault) => r := CompileSelector(tag, members, byDefault, before);
        case Urltest(_, _) =>
          if fits {
            UrltestMeans(catalog, ranks, tag);
          }
          r := Refused(UrltestAt);
      }
      activeIds := activeIds[..|activeIds| - 1];
    }

    method CompileSelector(tag: OutTag, members: seq<OutTag>, byDefault: Option<OutTag>,
                           ghost before: seq<OutTag>) returns (r: Projected)
      requires CacheOk(catalog, cache) && tag in catalog && catalog[tag] == Selector(members, byDefault)
      requires |activeIds| <= MAX_DEPTH && activeIds == before + [tag]
      modifies this
      ensures CacheOk(catalog, cache) && activeIds == old(activeIds)
      ensures Admissible(catalog, ranks, tag, before) ==> r == Expected(catalog, ranks, tag)
      decreases MAX_DEPTH - |activeIds|, 2
    {
      hide Ranked, Shaped, Expected;
      ghost var fits := Admissible(catalog, ranks, tag, before);
      if fits {
        SelectorMeans(catalog, ranks, tag);
        MembersKnown(catalog, ranks, tag);
        Descend(catalog, ranks, tag, before, Selected(catalog[tag]));
      }
      if members == [] || (byDefault.Some? && byDefault.value !in members) {
        return Refused(MalformedAt);
      }
      if exists m | m in members :: m !in catalog {
        return Refused(UnknownAt);
      }
      var selected := if byDefault.Some? then byDefault.value else members[0];
      assert selected in members;
      r := Compile(selected);
      if r.Hops? {
        cache := cache[tag := selected];
      }
    }

    method CompileProxyChain(tag: OutTag, hop: Json, detour: Option<OutTag>,
                             ghost before: seq<OutTag>) returns (r: Projected)
      requires CacheOk(catalog, cache) && tag in catalog && catalog[tag] == Proxy(hop, detour)
      requires |activeIds| <= MAX_DEPTH && activeIds == before + [tag]
      modifies this
      ensures CacheOk(catalog, cache) && activeIds == old(activeIds)
      ensures Admissible(catalog, ranks, tag, before) ==> r == Expected(catalog, ranks, tag)
      decreases MAX_DEPTH - |activeIds|, 2
    {
      hide Ranked, Shaped, CacheOk;
      if detour.None? {
        return Hops([hop]);
      }
      ghost var fits := Admissible(catalog, ranks, tag, before);
      if fits {
        DetourMeans(catalog, ranks, tag);
        Descend(catalog, ranks, tag, before, detour.value);
      }
      if detour.value !in catalog {
        return Refused(UnknownAt);
      }
      r := Compile(detour.value);
      if r.Hops? {
        r := Hops(r.chain + [hop]);
      }
    }
  }

  lemma NotActive(c: Catalog, d: Ranks, t: OutTag, active: seq<OutTag>)
    requires Admissible(c, d, t, active)
    ensures t !in active && |active| < MAX_DEPTH && Ranked(c, d) && Shaped(c, d)
  {
  }

  lemma Cached(c: Catalog, cache: map<OutTag, OutTag>, t: OutTag)
    requires CacheOk(c, cache) && t in cache
    ensures t in c && c[t].Selector? && WellFormed(c[t]) && cache[t] == Selected(c[t]) && cache[t] in c
  {
  }

  lemma UrltestMeans(c: Catalog, d: Ranks, t: OutTag)
    requires Ranked(c, d) && t in c && c[t].Urltest?
    ensures Expected(c, d, t) == Refused(UrltestAt)
  {
  }

  lemma MembersKnown(c: Catalog, d: Ranks, t: OutTag)
    requires Ranked(c, d) && t in c
    ensures WellFormed(c[t]) && forall m | m in References(c[t]) :: m in c
  {
  }

  // ---------------------------------------------------------------- selectors folded by the compiler

  /** A cached terminal is where plain recursion ends. */
  ghost predicate TerminalsOk(c: Catalog, d: Ranks, terminals: map<OutTag, OutTag>) {
    && (forall t | t in terminals :: t in c && terminals[t] in c && !c[terminals[t]].Selector?)
    && (Ranked(c, d) ==> forall t | t in terminals :: terminals[t] == Terminal(c, d, t))
  }

  /** Every outbound on the path folds to the same terminal as the one at its end, each having a
      higher rank than the next. */
  ghost predicate FoldPath(c: Catalog, d: Ranks, path: seq<OutTag>, current: OutTag)
    requires Ranked(c, d)
  {
    && current in c && |path| + d[current] <= MAX_DEPTH
    && forall t | t in path :: t in c && d[current] < d[t] && Terminal(c, d, t) == Terminal(c, d, current)
  }

  lemma FoldStep(c: Catalog, d: Ranks, path: seq<OutTag>, current: OutTag)
    requires Ranked(c, d) && FoldPath(c, d, path, current) && c[current].Selector?
    ensures Selected(c[current]) in c && FoldPath(c, d, path + [current], Selected(c[current]))
  {
    RankedStep(c, d, current, Selected(c[current]));
  }

  function Compressed(terminals: map<OutTag, OutTag>, path: seq<OutTag>, terminal: OutTag): (r: map<OutTag, OutTag>)
    ensures forall t :: t in r <==> t in terminals || t in path
    ensures forall t | t in r :: r[t] == if t in path then terminal else terminals[t]
  {
    if path == [] then terminals else
      var last := path[|path| - 1];
      assert path == path[..|path| - 1] + [last];
      Compressed(terminals, path[..|path| - 1], terminal)[last := terminal]
  }

  /** Path compression stores true terminals. */
  lemma CompressedOk(c: Catalog, d: Ranks, terminals: map<OutTag, OutTag>, path: seq<OutTag>, current: OutTag,
                     terminal: OutTag)
    requires TerminalsOk(c, d, terminals) && terminal in c && !c[terminal].Selector? && forall t | t in path :: t in c
    requires Ranked(c, d) ==> FoldPath(c, d, path, current) && terminal == Terminal(c, d, current)
    ensures TerminalsOk(c, d, Compressed(terminals, path, terminal))
  {
    hide Ranked;
  }

  datatype Folding = Folded(tag: OutTag) | NotFolded(error: AdapterError)

  /** `immediate_selector_outbound`, which feeds the adapter's cache. */
  method ImmediateSelection(c: Catalog, tag: OutTag, immediate: map<OutTag, OutTag>, adapter: map<OutTag, OutTag>)
    returns (r: Folding, immediate': map<OutTag, OutTag>, adapter': map<OutTag, OutTag>)
    requires tag in c && c[tag].Selector? && CacheOk(c, immediate) && CacheOk(c, adapter)
    ensures CacheOk(c, immediate') && CacheOk(c, adapter')
    ensures r.Folded? ==> WellFormed(c[tag]) && r.tag == Selected(c[tag]) && r.tag in c
    ensures r.NotFolded? ==> !WellFormed(c[tag]) || Selected(c[tag]) !in c
  {
    immediate', adapter' := immediate, adapter;
    if tag in immediate {
      return Folded(immediate[tag]), immediate, adapter;
    }
    if !WellFormed(c[tag]) {
      return NotFolded(MalformedAt), immediate, adapter;
    }
    var selected := Selected(c[tag]);
    if selected !in c {
      return NotFolded(UnknownAt), immediate, adapter;
    }
    immediate' := immediate[tag := selected];
    adapter' := adapter[tag := selected];
    r := Folded(selected);
  }

  /** `resolve_static_selector_outbound`: never refuses on a ranked catalog, and finds what plain
      recursion finds. */
  method ResolveSelector(c: Catalog, ghost d: Ranks, tag: OutTag,
                         terminals: map<OutTag, OutTag>, immediate: map<OutTag, OutTag>, adapter: map<OutTag, OutTag>)
    returns (r: Folding, terminals': map<OutTag, OutTag>, immediate': map<OutTag, OutTag>,
             adapter': map<OutTag, OutTag>)
    requires tag in c && TerminalsOk(c, d, terminals) && CacheOk(c, immediate) && CacheOk(c, adapter)
    ensures TerminalsOk(c, d, terminals') && CacheOk(c, immediate') && CacheOk(c, adapter')
    ensures r.Folded? ==> r.tag in c && !c[r.tag].Selector? && tag in terminals' && terminals'[tag] == r.tag
    ensures Ranked(c, d) ==> r == Folded(Terminal(c, d, tag))
  {
    hide Ranked, CacheOk, WellFormed;
    terminals', immediate', adapter' := terminals, immediate, adapter;
    var current, path := tag, [];
    if Ranked(c, d) {
      RankedBound(c, d, tag);
    }
    while true
      invariant TerminalsOk(c, d, terminals') && CacheOk(c, immediate') && CacheOk(c, adapter')
      invariant terminals' == terminals && current in c && (forall t | t in path :: t in c) && |path| <= MAX_DEPTH
      invariant path == [] ==> current == tag
      invariant path != [] ==> path[0] == tag
      invariant Ranked(c, d) ==> FoldPath(c, d, path, current) && Terminal(c, d, current) == Terminal(c, d, tag)
      decreases MAX_DEPTH + 1 - |path|
    {
      if current in terminals' {
        var terminal := terminals'[current];
        CompressedOk(c, d, terminals', path, current, terminal);
        terminals' := Compressed(terminals', path, terminal);
        return Folded(terminal), terminals', immediate', adapter';
      }
      if current in path {
        return NotFolded(CycleAt), terminals', immediate', adapter';
      }
      if |path| >= MAX_DEPTH {
        assert !Ranked(c, d) by {
          if Ranked(c, d) {
            RankedBound(c, d, current);
          }
        }
        return NotFolded(DepthAt), terminals', immediate', adapter';
      }
      if !c[current].Selector? {
        terminals' := terminals'[current := current];
        CompressedOk(c, d, terminals', path, current, current);
        terminals' := Compressed(terminals', path, current);
        return Folded(current), terminals', immediate', adapter';
      }
      if Ranked(c, d) {
        FoldStep(c, d, path, current);
        SelectorMeans(c, d, current);
      }
      var next;
      next, immediate', adapter' := ImmediateSelection(c, current, immediate', adapter');
      if next.NotFolded? {
        return next, terminals', immediate', adapter';
      }
      path := path + [current];
      current := next.tag;
    }
  }

  lemma RankedBound(c: Catalog, d: Ranks, t: OutTag)
    requires Ranked(c, d) && t in c
    ensures t in d && 1 <= d[t] <= MAX_DEPTH
  {
    assert t in d.Keys;
  }
}
