/** The outbound catalog and the memoised search that admits it
    (crates/node-agent/src/compile.rs:665-726, 877-1021). */
module OutboundGraph {
  import opened Basics
  import opened JsonText

  type OutTag = string

  /** An outbound's adapter-safe options: one client hop, possibly reached through another
      outbound; a statically folded selector; or an active URLTest group. */
  datatype Outbound =
    | Proxy(hop: Json, detour: Option<OutTag>)
    | Selector(members: seq<OutTag>, byDefault: Option<OutTag>)
    | Urltest(candidates: seq<OutTag>, settings: Settings)

  /** Rendered URLTest parameters. */
  datatype Settings = Settings(url: Json, interval: Json, idleTimeout: Json, tolerance: Json)

  type Catalog = map<OutTag, Outbound>

  const MAX_DEPTH: nat := 128

  /** What the selector and URLTest parsers demand. */
  predicate WellFormed(o: Outbound) {
    match o
    case Proxy(_, _) => true
    case Selector(members, byDefault) => members != [] && (byDefault.Some? ==> byDefault.value in members)
    case Urltest(candidates, _) => candidates != []
  }

  function References(o: Outbound): seq<OutTag> {
    match o
    case Proxy(_, detour) => if detour.Some? then [detour.value] else []
    case Selector(members, _) => members
    case Urltest(candidates, _) => candidates
  }

  /** `default`, or the first member. */
  function Selected(o: Outbound): OutTag
    requires o.Selector? && WellFormed(o)
  {
    if o.byDefault.Some? then o.byDefault.value else o.members[0]
  }

  lemma SelectedIsMember(o: Outbound)
    requires o.Selector? && WellFormed(o)
    ensures Selected(o) in References(o)
  {
  }

  // ---------------------------------------------------------------- reference paths

  /** A path of outbounds, each referenced by the one before. */
  ghost predicate Walk(c: Catalog, p: seq<OutTag>) {
    && p != [] && (forall i | 0 <= i < |p| :: p[i] in c)
    && (forall i | 0 <= i < |p| - 1 :: p[i + 1] in References(c[p[i]]))
  }

  ghost predicate AllWellFormed(c: Catalog) {
    forall t | t in c :: WellFormed(c[t])
  }

  ghost predicate Resolves(c: Catalog) {
    forall t, r | t in c && r in References(c[t]) :: r in c
  }

  ghost predicate Acyclic(c: Catalog) {
    forall p, i, j | Walk(c, p) && 0 <= i < j < |p| :: p[i] != p[j]
  }

  ghost predicate Short(c: Catalog) {
    forall p | Walk(c, p) :: |p| <= MAX_DEPTH
  }

  /** No path starting at `t` is longer than `d`, and one is that long. */
  ghost predicate Longest(c: Catalog, t: OutTag, d: nat) {
    && (exists p :: Walk(c, p) && p[0] == t && |p| == d)
    && (forall p | Walk(c, p) && p[0] == t :: |p| <= d)
  }

  lemma WalkTail(c: Catalog, p: seq<OutTag>)
    requires Walk(c, p) && |p| > 1
    ensures Walk(c, p[1..]) && p[1] in References(c[p[0]])
  {
    assert p[0 + 1] in References(c[p[0]]);
    forall i | 0 <= i < |p[1..]| - 1 ensures p[1..][i + 1] in References(c[p[1..][i]]) {
      assert p[i + 1 + 1] in References(c[p[i + 1]]);
    }
  }

  lemma WalkCons(c: Catalog, t: OutTag, p: seq<OutTag>)
    requires Walk(c, p) && t in c && p[0] in References(c[t])
    ensures Walk(c, [t] + p)
  {
    var q := [t] + p;
    forall i | 0 <= i < |q| - 1 ensures q[i + 1] in References(c[q[i]]) {
      if i > 0 {
        assert p[i - 1 + 1] in References(c[p[i - 1]]);
      }
    }
  }

  lemma WalkSnoc(c: Catalog, p: seq<OutTag>, t: OutTag)
    requires Walk(c, p) && t in c && t in References(c[p[|p| - 1]])
    ensures Walk(c, p + [t])
  {
  }

  lemma WalkSlice(c: Catalog, p: seq<OutTag>, i: nat, j: nat)
    requires Walk(c, p) && i < j <= |p|
    ensures Walk(c, p[i..j])
  {
    forall k | 0 <= k < |p[i..j]| - 1 ensures p[i..j][k + 1] in References(c[p[i..j][k]]) {
      assert p[i + k + 1] in References(c[p[i + k]]);
    }
  }

  lemma WalkJoin(c: Catalog, p: seq<OutTag>, q: seq<OutTag>)
    requires Walk(c, p) && Walk(c, q) && q[0] in References(c[p[|p| - 1]])
    ensures Walk(c, p + q)
  {
    var w := p + q;
    forall k | 0 <= k < |w| - 1 ensures w[k + 1] in References(c[w[k]]) {
      if k < |p| - 1 {
        assert p[k + 1] in References(c[p[k]]);
      } else if k >= |p| {
        assert q[k - |p| + 1] in References(c[q[k - |p|]]);
      }
    }
  }

  /** Going round a cycle gives a path of any length. */
  lemma {:induction false} Pump(c: Catalog, loop: seq<OutTag>, n: nat) returns (p: seq<OutTag>)
    requires Walk(c, loop) && loop[0] in References(c[loop[|loop| - 1]])
    ensures Walk(c, p) && |p| >= n && p[0] == loop[0]
  {
    if n == 0 {
      return loop;
    }
    var rest := Pump(c, loop, n - 1);
    WalkJoin(c, loop, rest);
    p := loop + rest;
  }

  /** Bounded paths leave no room for a cycle. */
  lemma ShortIsAcyclic(c: Catalog)
    requires Short(c)
    ensures Acyclic(c)
  {
    forall p, i, j | Walk(c, p) && 0 <= i < j < |p| ensures p[i] != p[j] {
      if p[i] == p[j] {
        WalkSlice(c, p, i, j);
        assert p[j - 1 + 1] in References(c[p[j - 1]]);
        var long := Pump(c, p[i..j], MAX_DEPTH + 1);
        assert false;
      }
    }
  }

  // ---------------------------------------------------------------- the search

  datatype Visit = Visiting | Complete(depth: nat)

  datatype GraphError = Malformed | UnknownReference | Cycle | TooDeep
  datatype Outcome<+T> = Good(value: T) | Bad(error: GraphError)

  /** Each error names a real defect of the catalog. */
  ghost predicate Justified(c: Catalog, e: GraphError) {
    match e
    case Malformed => !AllWellFormed(c)
    case UnknownReference => !Resolves(c)
    case Cycle => !Acyclic(c)
    case TooDeep => !Short(c)
  }

  ghost predicate Distinct(s: seq<OutTag>) {
    forall i, j | 0 <= i < j < |s| :: s[i] != s[j]
  }

  /** A completed outbound: well formed, references completed, and its depth is its longest path. */
  ghost predicate Settled(c: Catalog, states: map<OutTag, Visit>, t: OutTag) {
    && t in c && t in states && states[t].Complete? && WellFormed(c[t])
    && (forall r | r in References(c[t]) :: r in states && states[r].Complete? && states[r].depth < states[t].depth)
    && Longest(c, t, states[t].depth) && states[t].depth <= MAX_DEPTH
  }

  ghost predicate Consistent(c: Catalog, states: map<OutTag, Visit>, stack: seq<OutTag>) {
    && (stack != [] ==> Walk(c, stack)) && Distinct(stack)
    && (forall t | t in states && states[t].Visiting? :: t in stack)
    && (forall t | t in stack :: t in states && states[t].Visiting?)
    && (forall t | t in states && states[t].Complete? :: Settled(c, states, t))
  }

  /** What a search may change: outbounds it completes. */
  ghost predicate Extends(before: map<OutTag, Visit>, after: map<OutTag, Visit>) {
    && (forall t | t in before :: t in after && after[t] == before[t])
    && (forall t | t in after && t !in before :: after[t].Complete?)
  }

  lemma ExtendsSame(states: map<OutTag, Visit>)
    ensures Extends(states, states)
  {
  }

  lemma ExtendsChain(first: map<OutTag, Visit>, mid: map<OutTag, Visit>, last: map<OutTag, Visit>, tag: OutTag)
    requires Extends(first, mid) && Extends(mid, last) && tag in mid
    ensures Extends(first, last) && tag in last && last[tag] == mid[tag]
  {
  }

  /** Completing the outbound that the search entered first. */
  lemma ExtendsDone(before: map<OutTag, Visit>, open: map<OutTag, Visit>, tag: OutTag, depth: nat)
    requires tag !in before && Extends(before[tag := Visiting], open)
    ensures Extends(before, open[tag := Complete(depth)])
  {
  }

  /** Some longest path of a reference of `t`, lengthened by `t`; `d` bounds every such path. */
  ghost predicate Explored(c: Catalog, states: map<OutTag, Visit>, t: OutTag, n: nat, d: nat)
    requires t in c && n <= |References(c[t])|
  {
    && (forall i | 0 <= i < n ::
          var r := References(c[t])[i]; r in c && r in states && states[r].Complete? && states[r].depth <= d)
    && (d == 0 ==> n == 0)
    && (d > 0 ==> exists i :: 0 <= i < n && References(c[t])[i] in states && states[References(c[t])[i]] == Complete(d))
  }

  /** Exploring every reference gives the longest path of `t`. */
  lemma ExploredLongest(c: Catalog, states: map<OutTag, Visit>, t: OutTag, d: nat)
    requires t in c && Explored(c, states, t, |References(c[t])|, d)
    requires forall u | u in states && states[u].Complete? :: Settled(c, states, u)
    ensures Longest(c, t, d + 1)
  {
    hide References, WellFormed;
    var refs := References(c[t]);
    if d == 0 {
      assert Walk(c, [t]);
    } else {
      var i :| 0 <= i < |refs| && refs[i] in states && states[refs[i]] == Complete(d);
      assert Settled(c, states, refs[i]);
      var p :| Walk(c, p) && p[0] == refs[i] && |p| == d;
      WalkCons(c, t, p);
      assert ([t] + p)[0] == t && |[t] + p| == d + 1;
    }
    forall p | Walk(c, p) && p[0] == t ensures |p| <= d + 1 {
      if |p| > 1 {
        WalkTail(c, p);
        var i :| 0 <= i < |refs| && refs[i] == p[1];
        assert Settled(c, states, refs[i]);
        assert p[1..][0] == refs[i];
      }
    }
  }

  class ReferenceGraphValidator {
    const catalog: Catalog
    var states: map<OutTag, Visit>
    var stack: seq<OutTag>

    ghost predicate Valid() reads this {
      Consistent(catalog, states, stack)
    }

    constructor (c: Catalog)
      ensures Valid() && catalog == c && states == map[] && stack == []
    {
      catalog, states, stack := c, map[], [];
    }

    /** Depth-first search from one outbound. Success settles it; failure names a real defect. */
    method Visit(tag: OutTag) returns (r: Outcome<nat>)
      requires Valid() && tag in catalog
      requires stack != [] ==> tag in References(catalog[stack[|stack| - 1]])
      modifies this
      ensures r.Good? ==>
        && Valid() && stack == old(stack) && Extends(old(states), states)
        && tag in states && states[tag] == Complete(r.value)
      ensures r.Bad? ==> Justified(catalog, r.error)
      decreases MAX_DEPTH - |stack|
    {
      hide Settled, Longest, References, Explored, WellFormed, Short, Acyclic, Resolves, Walk, Distinct, Extends;
      if tag in states {
        ExtendsSame(states);
        if states[tag].Complete? {
          return Good(states[tag].depth);
        }
        CycleFound(catalog, stack, tag);
        return Bad(Cycle);
      }
      if stack != [] {
        WalkSnoc(catalog, stack, tag);
      }
      if |stack| >= MAX_DEPTH {
        LongWalk(catalog, stack + [tag]);
        return Bad(TooDeep);
      }
      var outbound := catalog[tag];
      if !WellFormed(outbound) {
        return Bad(Malformed);
      }
      var references := References(outbound);
      Entered(catalog, states, stack, tag);
      states := states[tag := Visiting];
      stack := stack + [tag];
      var deepest: nat := 0;
      ExploredNone(catalog, states, tag);
      ExtendsSame(states);
      for i := 0 to |references|
        invariant Valid() && stack == old(stack) + [tag] && tag in states && states[tag].Visiting?
        invariant Extends(old(states)[tag := Visiting], states)
        invariant Explored(catalog, states, tag, i, deepest)
      {
        var target := references[i];
        LastReference(catalog, stack, tag, i);
        if target !in catalog {
          Unresolved(catalog, tag, i);
          return Bad(UnknownReference);
        }
        ghost var before := states;
        var child := this.Visit(target);
        if child.Bad? {
          return child;
        }
        ExtendsChain(old(states)[tag := Visiting], before, states, tag);
        SettledDepth(catalog, states, target);
        ExploredStep(catalog, before, states, tag, i, deepest, child.value);
        deepest := Max(deepest, child.value);
      }
      stack := stack[..|stack| - 1];
      var depth := deepest + 1;
      ExploredLongest(catalog, states, tag, deepest);
      if depth > MAX_DEPTH {
        LongestWalk(catalog, tag, depth);
        return Bad(TooDeep);
      }
      ghost var open := states;
      states := states[tag := Complete(depth)];
      ExtendsDone(old(states), open, tag, depth);
      Left(catalog, open, old(stack), tag, deepest);
      assert stack == old(stack);
      r := Good(depth);
    }

    /** Accepts exactly the catalogs whose references resolve, form no cycle and no path of more
        than 128 outbounds, and records the longest path of every outbound. */
    method Validate() returns (r: Option<GraphError>)
      requires states == map[] && stack == []
      modifies this
      ensures r.None? <==> AllWellFormed(catalog) && Resolves(catalog) && Acyclic(catalog) && Short(catalog)
      ensures r.None? ==> states.Keys == catalog.Keys && forall t | t in catalog :: Settled(catalog, states, t)
      ensures r.Some? ==> Justified(catalog, r.value)
    {
      var todo := catalog.Keys;
      while todo != {}
        invariant Valid() && stack == [] && todo <= catalog.Keys
        invariant forall t | t in catalog && t !in todo :: t in states && states[t].Complete?
        decreases todo
      {
        var tag :| tag in todo;
        var d := Visit(tag);
        if d.Bad? {
          return Some(d.error);
        }
        todo := todo - {tag};
      }
      Accepted(catalog, states);
      r := None;
    }
  }

  lemma LastReference(c: Catalog, stack: seq<OutTag>, t: OutTag, i: nat)
    requires t in c && i < |References(c[t])| && stack != [] && stack[|stack| - 1] == t
    ensures References(c[t])[i] in References(c[stack[|stack| - 1]])
  {
  }

  lemma LongWalk(c: Catalog, p: seq<OutTag>)
    requires Walk(c, p) && |p| > MAX_DEPTH
    ensures !Short(c)
  {
  }

  lemma LongestWalk(c: Catalog, t: OutTag, d: nat)
    requires Longest(c, t, d) && d > MAX_DEPTH
    ensures !Short(c)
  {
  }

  lemma Unresolved(c: Catalog, t: OutTag, i: nat)
    requires t in c && i < |References(c[t])| && References(c[t])[i] !in c
    ensures !Resolves(c)
  {
    var r := References(c[t])[i];
    assert r in References(c[t]);
  }

  lemma SettledDepth(c: Catalog, states: map<OutTag, Visit>, t: OutTag)
    requires Settled(c, states, t)
    ensures states[t].depth > 0
  {
  }

  lemma ExploredNone(c: Catalog, states: map<OutTag, Visit>, t: OutTag)
    requires t in c
    ensures Explored(c, states, t, 0, 0)
  {
  }

  lemma CycleFound(c: Catalog, stack: seq<OutTag>, tag: OutTag)
    requires tag in stack && Walk(c, stack) && tag in References(c[stack[|stack| - 1]])
    ensures !Acyclic(c)
  {
    WalkSnoc(c, stack, tag);
    var i :| 0 <= i < |stack| && stack[i] == tag;
    var p := stack + [tag];
    assert Walk(c, p) && p[i] == p[|stack|];
  }

  /** Opening an outbound disturbs nothing settled. */
  lemma Entered(c: Catalog, states: map<OutTag, Visit>, stack: seq<OutTag>, tag: OutTag)
    requires Consistent(c, states, stack) && tag in c && tag !in states
    requires stack != [] ==> Walk(c, stack + [tag])
    ensures Consistent(c, states[tag := Visiting], stack + [tag])
  {
    var after := states[tag := Visiting];
    forall t | t in after && after[t].Complete? ensures Settled(c, after, t) {
      assert Settled(c, states, t);
    }
  }

  lemma ExploredStep(c: Catalog, before: map<OutTag, Visit>, after: map<OutTag, Visit>, t: OutTag, n: nat, d: nat,
                     child: nat)
    requires t in c && n < |References(c[t])| && Explored(c, before, t, n, d) && Extends(before, after)
    requires var r := References(c[t])[n]; r in c && r in after && after[r] == Complete(child) && child > 0
    ensures Explored(c, after, t, n + 1, Max(d, child))
  {
    var refs := References(c[t]);
    if child >= d {
      assert refs[n] in after && after[refs[n]] == Complete(Max(d, child));
    } else {
      var i :| 0 <= i < n && refs[i] in before && before[refs[i]] == Complete(d);
      assert refs[i] in after && after[refs[i]] == Complete(Max(d, child));
    }
  }

  /** Closing an outbound whose references are all settled settles it. */
  lemma Left(c: Catalog, states: map<OutTag, Visit>, stack: seq<OutTag>, tag: OutTag, d: nat)
    requires Consistent(c, states, stack + [tag]) && tag in c && WellFormed(c[tag]) && d < MAX_DEPTH
    requires Explored(c, states, tag, |References(c[tag])|, d) && Longest(c, tag, d + 1)
    ensures Consistent(c, states[tag := Complete(d + 1)], stack)
  {
    hide Longest, Explored, Settled, References, WellFormed;
    var after := states[tag := Complete(d + 1)];
    var open := stack + [tag];
    assert tag == open[|stack|] && tag in open;
    assert open[0..|stack|] == stack && tag !in stack;
    if stack != [] {
      WalkSlice(c, open, 0, |stack|);
    }
    assert forall t | t in stack :: t in open;
    forall t | t in after && after[t].Complete? ensures Settled(c, after, t) {
      if t == tag {
        LeftSelf(c, states, tag, d);
      } else {
        LeftOther(c, states, tag, d, t);
      }
    }
    forall t | t in after && after[t].Visiting? ensures t in stack {
      assert t in open;
    }
  }

  lemma LeftSelf(c: Catalog, states: map<OutTag, Visit>, tag: OutTag, d: nat)
    requires tag in c && WellFormed(c[tag]) && d < MAX_DEPTH && tag in states && states[tag].Visiting?
    requires Explored(c, states, tag, |References(c[tag])|, d) && Longest(c, tag, d + 1)
    ensures Settled(c, states[tag := Complete(d + 1)], tag)
  {
    hide Longest, WellFormed;
    var refs := References(c[tag]);
    var after := states[tag := Complete(d + 1)];
    forall r | r in refs ensures r in after && after[r].Complete? && after[r].depth < d + 1 {
      var i :| 0 <= i < |refs| && refs[i] == r;
      assert states[refs[i]].Complete?;
    }
  }

  lemma LeftOther(c: Catalog, states: map<OutTag, Visit>, tag: OutTag, d: nat, t: OutTag)
    requires Settled(c, states, t) && t != tag && tag in states && states[tag].Visiting?
    ensures Settled(c, states[tag := Complete(d + 1)], t)
  {
    hide Longest, WellFormed;
  }

  lemma Accepted(c: Catalog, states: map<OutTag, Visit>)
    requires Consistent(c, states, []) && forall t | t in c :: t in states && states[t].Complete?
    ensures AllWellFormed(c) && Resolves(c) && Acyclic(c) && Short(c)
    ensures states.Keys == c.Keys && forall t | t in c :: Settled(c, states, t)
  {
    forall t | t in states ensures t in c {
      assert Settled(c, states, t);
    }
    forall t | t in c ensures Settled(c, states, t) {
    }
    forall p | Walk(c, p) ensures |p| <= MAX_DEPTH {
      assert Settled(c, states, p[0]);
    }
    ShortIsAcyclic(c);
  }
}
