/** Static folding of selectors, the plain meaning of an outbound, and the check that no active
    URLTest ends up inside another action (crates/node-agent/src/compile.rs:638-657, 1023-1094). */
module OutboundShape {
  import opened Basics
  import opened JsonText
  import opened OutboundGraph

  type Ranks = map<OutTag, nat>

  /** A catalog with room for every reference path: each outbound outranks what it references. */
  ghost predicate Ranked(c: Catalog, d: Ranks) {
    && d.Keys == c.Keys
    && forall t | t in c ::
         && WellFormed(c[t]) && 1 <= d[t] <= MAX_DEPTH
         && forall r | r in References(c[t]) :: r in c && d[r] < d[t]
  }

  lemma RankedStep(c: Catalog, d: Ranks, t: OutTag, r: OutTag)
    requires Ranked(c, d) && t in c && r in References(c[t])
    ensures r in c && d[r] < d[t]
  {
  }

  // ---------------------------------------------------------------- plain recursion

  /** The outbound a chain of selectors ends at. */
  ghost function Terminal(c: Catalog, d: Ranks, t: OutTag): (r: OutTag)
    requires Ranked(c, d) && t in c
    ensures r in c && !c[r].Selector?
    decreases d[t]
  {
    if c[t].Selector? then
      RankedStep(c, d, t, Selected(c[t]));
      Terminal(c, d, Selected(c[t]))
    else t
  }

  ghost predicate EndsInUrltest(c: Catalog, d: Ranks, t: OutTag)
    requires Ranked(c, d) && t in c
  {
    c[Terminal(c, d, t)].Urltest?
  }

  /** The hops of an outbound: its detour's hops, then its own; a selector's are its selection's. */
  ghost function ChainOf(c: Catalog, d: Ranks, t: OutTag): Chain
    requires Ranked(c, d) && t in c
    decreases d[t]
  {
    match c[t]
    case Proxy(hop, None) => [hop]
    case Proxy(hop, Some(detour)) =>
      RankedStep(c, d, t, detour);
      ChainOf(c, d, detour) + [hop]
    case Selector(_, _) =>
      RankedStep(c, d, t, Selected(c[t]));
      ChainOf(c, d, Selected(c[t]))
    case Urltest(_, _) => []
  }

  /** Folding keeps the chain. */
  lemma {:induction false} TerminalChain(c: Catalog, d: Ranks, t: OutTag)
    requires Ranked(c, d) && t in c
    ensures ChainOf(c, d, Terminal(c, d, t)) == ChainOf(c, d, t)
    decreases d[t]
  {
    if c[t].Selector? {
      RankedStep(c, d, t, Selected(c[t]));
      TerminalChain(c, d, Selected(c[t]));
    }
  }

  // ---------------------------------------------------------------- folding on any catalog

  function Fold(c: Catalog, t: OutTag, n: nat): OutTag
    decreases n
  {
    if n == 0 || t !in c || !c[t].Selector? || !WellFormed(c[t]) then t else Fold(c, Selected(c[t]), n - 1)
  }

  /** Following selections reaches an active URLTest. */
  ghost predicate ActiveUrltest(c: Catalog, t: OutTag) {
    exists n: nat :: Fold(c, t, n) in c && c[Fold(c, t, n)].Urltest?
  }

  /** What an action embeds: a URLTest its candidates, a proxy its detour. */
  function Embedded(o: Outbound): seq<OutTag> {
    match o
    case Proxy(_, _) => References(o)
    case Urltest(_, _) => References(o)
    case Selector(_, _) => []
  }

  /** No URLTest candidate and no detour is an active URLTest. */
  ghost predicate NoEmbeddedUrltest(c: Catalog) {
    forall t, m | t in c && m in Embedded(c[t]) :: !ActiveUrltest(c, m)
  }

  lemma {:induction false} FoldTerminal(c: Catalog, d: Ranks, t: OutTag, n: nat)
    requires Ranked(c, d) && t in c
    ensures Fold(c, t, n) == Terminal(c, d, t) || (Fold(c, t, n) in c && c[Fold(c, t, n)].Selector? && n < d[t])
    decreases n
  {
    if c[t].Selector? && n > 0 {
      RankedStep(c, d, t, Selected(c[t]));
      FoldTerminal(c, d, Selected(c[t]), n - 1);
    }
  }

  /** On a ranked catalog folding and plain recursion agree. */
  lemma ActiveIsTerminal(c: Catalog, d: Ranks, t: OutTag)
    requires Ranked(c, d) && t in c
    ensures ActiveUrltest(c, t) <==> EndsInUrltest(c, d, t)
  {
    if ActiveUrltest(c, t) {
      var n: nat :| Fold(c, t, n) in c && c[Fold(c, t, n)].Urltest?;
      FoldTerminal(c, d, t, n);
    }
    FoldTerminal(c, d, t, d[t]);
    assert Fold(c, t, d[t]) == Terminal(c, d, t);
  }

  // ---------------------------------------------------------------- the shape check

  datatype Shape = Plain | Active

  ghost predicate Shaped(c: Catalog, d: Ranks)
    requires Ranked(c, d)
  {
    forall t, m | t in c && m in Embedded(c[t]) :: m in c && !EndsInUrltest(c, d, m)
  }

  lemma ShapedIsDeclared(c: Catalog, d: Ranks)
    requires Ranked(c, d)
    ensures Shaped(c, d) <==> NoEmbeddedUrltest(c)
  {
    forall t, m | t in c && m in Embedded(c[t]) ensures m in c && (ActiveUrltest(c, m) <==> EndsInUrltest(c, d, m)) {
      RankedStep(c, d, t, m);
      ActiveIsTerminal(c, d, m);
    }
  }

  /** The recorded shape of an outbound, and of everything it had to look at. */
  ghost predicate ShapeOk(c: Catalog, d: Ranks, completed: map<OutTag, Shape>)
    requires Ranked(c, d)
  {
    forall t | t in completed ::
      && t in c && (completed[t].Active? <==> EndsInUrltest(c, d, t))
      && forall m | m in Embedded(c[t]) :: m in c && !EndsInUrltest(c, d, m)
  }

  class OutboundActionShapeValidator {
    const catalog: Catalog
    ghost const ranks: Ranks
    var completed: map<OutTag, Shape>

    ghost predicate Valid() reads this {
      Ranked(catalog, ranks) && ShapeOk(catalog, ranks, completed)
    }

    constructor (c: Catalog, ghost d: Ranks)
      requires Ranked(c, d)
      ensures Valid() && catalog == c && ranks == d && completed == map[]
    {
      catalog, ranks, completed := c, d, map[];
    }

    method Remember(tag: OutTag, s: Shape)
      requires Valid() && tag in catalog && (s.Active? <==> EndsInUrltest(catalog, ranks, tag))
      requires forall m | m in Embedded(catalog[tag]) :: m in catalog && !EndsInUrltest(catalog, ranks, m)
      modifies this
      ensures Valid() && completed == old(completed)[tag := s]
    {
      completed := completed[tag := s];
    }

    /** The shape an outbound projects to, or nothing when it embeds an active URLTest. */
    method ShapeOf(tag: OutTag) returns (r: Option<Shape>)
      requires Valid() && tag in catalog
      modifies this
      ensures Valid() && forall t | t in old(completed) :: t in completed
      ensures r.Some? ==> tag in completed && (r.value.Active? <==> EndsInUrltest(catalog, ranks, tag))
      ensures r.None? ==> !Shaped(catalog, ranks)
      decreases ranks[tag], 1
    {
      hide Ranked, ShapeOk, Embedded, Shaped, WellFormed;
      if tag in completed {
        Recalled(catalog, ranks, completed, tag);
        return Some(completed[tag]);
      }
      var outbound := catalog[tag];
      EmbeddedIs(outbound);
      RankedAt(catalog, ranks, tag);
      match outbound {
        case Selector(_, _) =>
          SelectedIsMember(outbound);
          RankedStep(catalog, ranks, tag, Selected(outbound));
          r := ShapeOf(Selected(outbound));
          if r.None? {
            return;
          }
          Remember(tag, r.value);
        case Urltest(candidates, _) =>
          for i := 0 to |candidates|
            invariant Valid() && forall t | t in old(completed) :: t in completed
            invariant forall j | 0 <= j < i :: candidates[j] in catalog && !EndsInUrltest(catalog, ranks, candidates[j])
          {
            RankedStep(catalog, ranks, tag, candidates[i]);
            var member := ShapeOf(candidates[i]);
            if member.None? {
              return None;
            }
            if member.value.Active? {
              Misshapen(catalog, ranks, tag, candidates[i]);
              return None;
            }
          }
          r := Some(Active);
          Remember(tag, Active);
        case Proxy(_, detour) =>
          if detour.Some? {
            RankedStep(catalog, ranks, tag, detour.value);
            var through := ShapeOf(detour.value);
            if through.None? {
              return None;
            }
            if through.value.Active? {
              Misshapen(catalog, ranks, tag, detour.value);
              return None;
            }
          }
          r := Some(Plain);
          Remember(tag, Plain);
      }
    }

    /** Accepts exactly the catalogs whose actions embed no active URLTest. */
    method Validate() returns (ok: bool)
      requires Valid()
      modifies this
      ensures ok <==> Shaped(catalog, ranks)
    {
      var todo := catalog.Keys;
      while todo != {}
        invariant Valid() && todo <= catalog.Keys
        invariant forall t | t in catalog && t !in todo :: t in completed
        decreases todo
      {
        var tag :| tag in todo;
        var shape := ShapeOf(tag);
        if shape.None? {
          return false;
        }
        todo := todo - {tag};
      }
      ok := true;
    }
  }

  lemma Recalled(c: Catalog, d: Ranks, completed: map<OutTag, Shape>, t: OutTag)
    requires Ranked(c, d) && ShapeOk(c, d, completed) && t in completed
    ensures t in c && (completed[t].Active? <==> EndsInUrltest(c, d, t))
  {
  }

  lemma RankedAt(c: Catalog, d: Ranks, t: OutTag)
    requires Ranked(c, d) && t in c
    ensures t in d && WellFormed(c[t])
  {
    assert t in d.Keys;
  }

  lemma EmbeddedIs(o: Outbound)
    ensures o.Selector? ==> Embedded(o) == []
    ensures !o.Selector? ==> Embedded(o) == References(o)
  {
  }

  lemma Misshapen(c: Catalog, d: Ranks, t: OutTag, m: OutTag)
    requires Ranked(c, d) && t in c && m in Embedded(c[t]) && m in c && EndsInUrltest(c, d, m)
    ensures !Shaped(c, d)
  {
  }

  // ---------------------------------------------------------------- the whole catalog

  /** The shallow pass: each outbound's own fields and immediate references. */
  predicate Shallow(c: Catalog, o: Outbound) {
    WellFormed(o) && (!o.Urltest? ==> forall r | r in References(o) :: r in c)
  }

  ghost function RanksFrom(c: Catalog, states: map<OutTag, Visit>): (d: Ranks)
    requires forall t | t in c :: Settled(c, states, t)
    ensures d.Keys == c.Keys && forall t | t in c :: Settled(c, states, t) && d[t] == states[t].depth
  {
    map t | t in c :: assert Settled(c, states, t); states[t].depth
  }

  /** Longest paths rank a catalog. */
  lemma RanksRanked(c: Catalog, states: map<OutTag, Visit>)
    requires states.Keys == c.Keys && forall t | t in c :: Settled(c, states, t)
    ensures Ranked(c, RanksFrom(c, states)) && forall t | t in c :: Longest(c, t, RanksFrom(c, states)[t])
  {
    hide WellFormed, Longest;
    var d := RanksFrom(c, states);
    forall t | t in c ensures 1 <= d[t] && forall r | r in References(c[t]) :: r in c && d[r] < d[t] {
      SettledDepth(c, states, t);
      forall r | r in References(c[t]) ensures r in c && d[r] < d[t] {
        assert r in states.Keys;
      }
    }
  }

  /** `validate_outbound_catalog`. */
  method ValidateCatalog(c: Catalog) returns (ok: bool, ghost d: Ranks)
    ensures ok <==> AllWellFormed(c) && Resolves(c) && Acyclic(c) && Short(c) && NoEmbeddedUrltest(c)
    ensures ok ==> Ranked(c, d) && Shaped(c, d) && forall t | t in c :: Longest(c, t, d[t])
  {
    hide Short, Acyclic, Longest, NoEmbeddedUrltest, Shaped, Ranked;
    d := map[];
    var todo := c.Keys;
    while todo != {}
      invariant todo <= c.Keys && forall t | t in c && t !in todo :: Shallow(c, c[t])
      decreases todo
    {
      var tag :| tag in todo;
      if !Shallow(c, c[tag]) {
        return false, d;
      }
      todo := todo - {tag};
    }
    var graph := new ReferenceGraphValidator(c);
    var defect := graph.Validate();
    if defect.Some? {
      return false, d;
    }
    d := RanksFrom(c, graph.states);
    RanksRanked(c, graph.states);
    ShapedIsDeclared(c, d);
    var shapes := new OutboundActionShapeValidator(c, d);
    ok := shapes.Validate();
  }
}
