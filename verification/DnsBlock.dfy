/** The DNS servers a topology emits and the names that refer to them
    (crates/node-agent/src/compile.rs:2000-2010, 2032-2049, 2064-2139, 3012-3219, 3267-3304). */
module DnsBlock {
  import opened Basics

  datatype Strategy = Ipv4AndIpv6 | Ipv6AndIpv4 | Ipv4Only | Ipv6Only
  datatype Query = Query(disableCache: bool, rewriteTtl: Option<nat>, clientSubnet: Option<Name>) {
    predicate Default() { !disableCache && rewriteTtl.None? && clientSubnet.None? }
  }

  const DefaultQuery := Query(false, None, None)

  /** How a server is queried: through which transport, for which families, with which options. */
  datatype Profile = Profile(source: Name, strategy: Strategy, query: Query)

  datatype Resolver = Resolver(server: Name, strategy: Option<Strategy>, query: Query)
  datatype OutboundDns = OutboundDns(resolver: Option<Resolver>, inherits: bool)
  datatype RuleAction = RouteTo(server: Name, query: Query) | Answer
  datatype Rule = Rule(inbounds: set<Name>, action: RuleAction)

  /** The requested DNS section; `defaultTag` names the server used when none is configured. */
  datatype Dns = Dns(servers: seq<Name>, finalServer: Option<Name>, rules: seq<Rule>, strategies: map<Name, Strategy>,
                     byDefault: Option<Resolver>, outbounds: seq<OutboundDns>, defaultTag: Name)

  datatype Server = Server(tag: Name, profile: Profile)
  datatype Block = Block(servers: seq<Server>, finalServer: Name, rules: seq<(Rule, Option<Name>)>)

  datatype DnsError = UnknownServer | DuplicateServer | ReservedTag | NoFinal
  datatype Outcome<+T> = Good(value: T) | Bad(error: DnsError)

  /** The private tag of a profile. */
  type Naming = Profile -> Name

  ghost predicate Injective(name: Naming) {
    forall a, b :: name(a) == name(b) ==> a == b
  }

  function Listed(dns: Dns): seq<Name> {
    if dns.servers == [] then [dns.defaultTag] else dns.servers
  }

  function BaseStrategy(dns: Dns, server: Name): Strategy {
    if server in dns.strategies then dns.strategies[server] else Ipv4AndIpv6
  }

  function BaseProfile(dns: Dns, server: Name): Profile {
    Profile(server, BaseStrategy(dns, server), DefaultQuery)
  }

  /** The resolver an outbound uses: its own, or the route's when it dials by itself. */
  function EffectiveResolver(dns: Dns, o: OutboundDns): Option<Resolver> {
    if o.resolver.Some? then o.resolver else if o.inherits then dns.byDefault else None
  }

  function Wanted(dns: Dns, r: Resolver): Profile {
    Profile(r.server, if r.strategy.Some? then r.strategy.value else BaseStrategy(dns, r.server), r.query)
  }

  /** The block has exactly the profile behind a tag. */
  ghost predicate Emits(servers: seq<Server>, tag: Name, p: Profile) {
    exists i :: 0 <= i < |servers| && servers[i] == Server(tag, p)
  }

  ghost predicate DistinctTags(servers: seq<Server>) {
    forall i, j | 0 <= i < j < |servers| :: servers[i].tag != servers[j].tag
  }

  lemma EmitsMore(servers: seq<Server>, s: Server)
    ensures Emits(servers + [s], s.tag, s.profile)
    ensures forall tag, p :: Emits(servers, tag, p) ==> Emits(servers + [s], tag, p)
  {
    assert (servers + [s])[|servers|] == s;
    forall tag, p | Emits(servers, tag, p) ensures Emits(servers + [s], tag, p) {
      var i :| 0 <= i < |servers| && servers[i] == Server(tag, p);
      assert (servers + [s])[i] == servers[i];
    }
  }

  /** The tags in use. */
  ghost predicate Uses(servers: seq<Server>, used: set<Name>) {
    forall i | 0 <= i < |servers| :: servers[i].tag in used
  }

  // ---------------------------------------------------------------- outbounds

  /** What the first `n` outbounds were given, and the private profiles this takes. */
  ghost predicate Assigned(dns: Dns, name: Naming, n: nat, variants: seq<Profile>, given: seq<Option<Name>>)
    requires n <= |dns.outbounds|
  {
    && |given| == n
    && (forall i | 0 <= i < |variants| :: variants[i].source in Listed(dns) && name(variants[i]) !in Listed(dns))
    && (forall i, j | 0 <= i < j < |variants| :: variants[i] != variants[j])
    && forall i | 0 <= i < n ::
         var r := EffectiveResolver(dns, dns.outbounds[i]);
         if r.None? then given[i].None?
         else
           var p := Wanted(dns, r.value);
           && r.value.server in Listed(dns)
           && given[i] == Some(if p == BaseProfile(dns, r.value.server) then r.value.server else name(p))
           && (p != BaseProfile(dns, r.value.server) ==> p in variants)
  }

  /** The resolver is known, and a private server for it would not take a configured name. */
  ghost predicate OutboundOk(dns: Dns, name: Naming, o: OutboundDns) {
    var r := EffectiveResolver(dns, o);
    r.Some? ==>
      && r.value.server in Listed(dns)
      && (Wanted(dns, r.value) != BaseProfile(dns, r.value.server) ==> name(Wanted(dns, r.value)) !in Listed(dns))
  }

  /** `project_outbound_dns_resolvers`. */
  method ProjectOutbounds(dns: Dns, name: Naming) returns (r: Outcome<seq<Profile>>, given: seq<Option<Name>>)
    ensures r.Good? <==> forall i | 0 <= i < |dns.outbounds| :: OutboundOk(dns, name, dns.outbounds[i])
    ensures r.Good? ==> Assigned(dns, name, |dns.outbounds|, r.value, given)
  {
    var variants: seq<Profile> := [];
    given := [];
    for i := 0 to |dns.outbounds|
      invariant Assigned(dns, name, i, variants, given)
      invariant forall j | 0 <= j < i :: OutboundOk(dns, name, dns.outbounds[j])
    {
      var resolver := EffectiveResolver(dns, dns.outbounds[i]);
      if resolver.None? {
        given := given + [None];
        continue;
      }
      var server := resolver.value.server;
      if server !in Listed(dns) {
        return Bad(UnknownServer), given;
      }
      var p := Wanted(dns, resolver.value);
      if p.strategy == BaseStrategy(dns, server) && p.query.Default() {
        given := given + [Some(server)];
        continue;
      }
      if name(p) in Listed(dns) {
        return Bad(ReservedTag), given;
      }
      if p !in variants {
        variants := variants + [p];
      }
      given := given + [Some(name(p))];
    }
    r := Good(variants);
  }

  // ---------------------------------------------------------------- servers

  ghost predicate DistinctNames(names: seq<Name>) {
    forall i, j | 0 <= i < j < |names| :: names[i] != names[j]
  }

  /** Every listed server once, under its own name. */
  method ListServers(dns: Dns) returns (r: Outcome<seq<Server>>, used: set<Name>)
    ensures r.Good? <==> DistinctNames(Listed(dns))
    ensures r.Good? ==>
      && DistinctTags(r.value) && Uses(r.value, used) && (forall t :: t in used <==> t in Listed(dns))
      && forall t | t in Listed(dns) :: Emits(r.value, t, BaseProfile(dns, t))
  {
    var listed := Listed(dns);
    var servers: seq<Server> := [];
    used := {};
    for i := 0 to |listed|
      invariant DistinctTags(servers) && Uses(servers, used) && (forall t :: t in used <==> t in listed[..i])
      invariant DistinctNames(listed[..i])
      invariant forall t | t in listed[..i] :: Emits(servers, t, BaseProfile(dns, t))
    {
      if listed[i] in used {
        ghost var k :| 0 <= k < i && listed[k] == listed[i];
        return Bad(DuplicateServer), used;
      }
      assert listed[..i + 1] == listed[..i] + [listed[i]];
      EmitsMore(servers, Server(listed[i], BaseProfile(dns, listed[i])));
      servers := servers + [Server(listed[i], BaseProfile(dns, listed[i]))];
      used := used + {listed[i]};
    }
    assert listed[..|listed|] == listed;
    r := Good(servers);
  }

  /** What every later step keeps: distinct tags, and every promised profile behind its name. */
  ghost predicate Kept(dns: Dns, name: Naming, servers: seq<Server>, used: set<Name>, variants: seq<Profile>) {
    && DistinctTags(servers) && Uses(servers, used)
    && (forall t | t in Listed(dns) :: t in used && Emits(servers, t, BaseProfile(dns, t)))
    && (forall t | t in used :: t in Listed(dns) || exists p :: p in variants && t == name(p))
    && forall p | p in variants :: Emits(servers, name(p), p)
  }

  lemma KeptMore(dns: Dns, name: Naming, servers: seq<Server>, used: set<Name>, variants: seq<Profile>, p: Profile)
    requires Kept(dns, name, servers, used, variants) && name(p) !in used
    ensures Kept(dns, name, servers + [Server(name(p), p)], used + {name(p)}, variants + [p])
  {
    EmitsMore(servers, Server(name(p), p));
    forall t | t in used + {name(p)} ensures t in Listed(dns) || exists q :: q in variants + [p] && t == name(q) {
      if t == name(p) {
        assert p in variants + [p];
      } else if t !in Listed(dns) {
        var q :| q in variants && t == name(q);
        assert q in variants + [p];
      }
    }
  }

  /** A new private name can only clash with a configured one. */
  lemma NewName(dns: Dns, name: Naming, servers: seq<Server>, used: set<Name>, variants: seq<Profile>, p: Profile)
    requires Injective(name) && Kept(dns, name, servers, used, variants) && p !in variants
    ensures name(p) in used ==> name(p) in Listed(dns)
  {
    if name(p) in used && name(p) !in Listed(dns) {
      var q :| q in variants && name(p) == name(q);
      assert false;
    }
  }

  /** Append the private servers the outbounds need. */
  method AddVariants(dns: Dns, name: Naming, base: seq<Server>, listed: set<Name>, variants: seq<Profile>)
    returns (servers: seq<Server>, used: set<Name>)
    requires Injective(name) && Kept(dns, name, base, listed, []) && (forall t :: t in listed <==> t in Listed(dns))
    requires forall i | 0 <= i < |variants| :: name(variants[i]) !in Listed(dns)
    requires forall i, j | 0 <= i < j < |variants| :: variants[i] != variants[j]
    ensures Kept(dns, name, servers, used, variants)
  {
    servers, used := base, listed;
    for i := 0 to |variants|
      invariant Kept(dns, name, servers, used, variants[..i])
    {
      var p := variants[i];
      assert p !in variants[..i];
      NewName(dns, name, servers, used, variants[..i], p);
      KeptMore(dns, name, servers, used, variants[..i], p);
      assert variants[..i + 1] == variants[..i] + [p];
      servers, used := servers + [Server(name(p), p)], used + {name(p)};
    }
    assert variants[..|variants|] == variants;
  }

  // ---------------------------------------------------------------- rules

  predicate Applies(rule: Rule, inbound: Option<Name>) {
    rule.inbounds == {} || (inbound.Some? && inbound.value in rule.inbounds)
  }

  /** A compiled rule names a server with the profile its rule asks for. */
  ghost predicate RuleOk(dns: Dns, servers: seq<Server>, compiled: (Rule, Option<Name>)) {
    match compiled.0.action
    case Answer => compiled.1.None?
    case RouteTo(server, query) =>
      compiled.1.Some? && Emits(servers, compiled.1.value, BaseProfile(dns, server).(query := query))
  }

  /** The rule's server is known, and a private server for it would not take a configured name. */
  ghost predicate RuleFits(dns: Dns, name: Naming, inbound: Option<Name>, rule: Rule) {
    rule.action.RouteTo? ==>
      && rule.action.server in Listed(dns)
      && (Applies(rule, inbound) && !rule.action.query.Default() ==>
            name(BaseProfile(dns, rule.action.server).(query := rule.action.query)) !in Listed(dns))
  }

  method CompileRules(dns: Dns, name: Naming, inbound: Option<Name>, base: seq<Server>, taken: set<Name>,
                      known: seq<Profile>)
    returns (r: Outcome<seq<(Rule, Option<Name>)>>, servers: seq<Server>)
    requires Injective(name) && Kept(dns, name, base, taken, known)
    ensures r.Good? <==> forall i | 0 <= i < |dns.rules| :: RuleFits(dns, name, inbound, dns.rules[i])
    ensures r.Good? ==>
      && DistinctTags(servers) && (forall i | 0 <= i < |r.value| :: RuleOk(dns, servers, r.value[i]))
      && forall tag, p :: Emits(base, tag, p) ==> Emits(servers, tag, p)
  {
    servers := base;
    var used, variants, rules: seq<(Rule, Option<Name>)> := taken, known, [];
    for i := 0 to |dns.rules|
      invariant Kept(dns, name, servers, used, variants)
      invariant forall j | 0 <= j < i :: RuleFits(dns, name, inbound, dns.rules[j])
      invariant forall j | 0 <= j < |rules| :: RuleOk(dns, servers, rules[j])
      invariant forall tag, p :: Emits(base, tag, p) ==> Emits(servers, tag, p)
    {
      var rule := dns.rules[i];
      if rule.action.RouteTo? && rule.action.server !in Listed(dns) {
        return Bad(UnknownServer), servers;
      }
      if !Applies(rule, inbound) {
        continue;
      }
      if rule.action.Answer? {
        rules := rules + [(rule, None)];
        continue;
      }
      if rule.action.query.Default() {
        rules := rules + [(rule, Some(rule.action.server))];
        continue;
      }
      var p := BaseProfile(dns, rule.action.server).(query := rule.action.query);
      if p !in variants {
        NewName(dns, name, servers, used, variants, p);
        if name(p) in used {
          assert !RuleFits(dns, name, inbound, dns.rules[i]);
          return Bad(ReservedTag), servers;
        }
        KeptMore(dns, name, servers, used, variants, p);
        EmitsMore(servers, Server(name(p), p));
        servers, used, variants := servers + [Server(name(p), p)], used + {name(p)}, variants + [p];
      }
      rules := rules + [(rule, Some(name(p)))];
    }
    r := Good(rules);
  }

  // ---------------------------------------------------------------- the block

  /** Every name in the block and in the outbounds leads to one server with the wanted profile. */
  ghost predicate Closed(dns: Dns, b: Block, given: seq<Option<Name>>) {
    && DistinctTags(b.servers)
    && Emits(b.servers, b.finalServer, BaseProfile(dns, b.finalServer))
    && (forall i | 0 <= i < |b.rules| :: RuleOk(dns, b.servers, b.rules[i]))
    && |given| == |dns.outbounds|
    && forall i | 0 <= i < |given| ::
         var r := EffectiveResolver(dns, dns.outbounds[i]);
         if r.None? then given[i].None?
         else given[i].Some? && Emits(b.servers, given[i].value, Wanted(dns, r.value))
  }

  method ChooseFinal(dns: Dns) returns (r: Outcome<Name>)
    ensures r.Good? ==> r.value in Listed(dns)
    ensures r.Bad? <==> (if dns.finalServer.Some? then dns.finalServer.value else dns.defaultTag) !in Listed(dns)
  {
    if dns.finalServer.None? {
      return if dns.defaultTag in Listed(dns) then Good(dns.defaultTag) else Bad(NoFinal);
    }
    r := if dns.finalServer.value in Listed(dns) then Good(dns.finalServer.value) else Bad(UnknownServer);
  }

  /** Server names are distinct, every reference is known, and no private name is configured. */
  ghost predicate Acceptable(dns: Dns, name: Naming, inbound: Option<Name>) {
    && DistinctNames(Listed(dns))
    && (if dns.finalServer.Some? then dns.finalServer.value else dns.defaultTag) in Listed(dns)
    && (forall i | 0 <= i < |dns.outbounds| :: OutboundOk(dns, name, dns.outbounds[i]))
    && forall i | 0 <= i < |dns.rules| :: RuleFits(dns, name, inbound, dns.rules[i])
  }

  /** `project_outbound_dns_resolvers` followed by `compile_dns`. */
  method CompileDns(dns: Dns, name: Naming, inbound: Option<Name>) returns (r: Outcome<Block>, given: seq<Option<Name>>)
    requires Injective(name)
    ensures r.Good? <==> Acceptable(dns, name, inbound)
    ensures r.Good? ==> Closed(dns, r.value, given)
  {
    hide Injective, DistinctTags, DistinctNames, RuleOk, RuleFits, OutboundOk, Emits;
    var variants;
    variants, given := ProjectOutbounds(dns, name);
    if variants.Bad? {
      return Bad(variants.error), given;
    }
    var base, listed := ListServers(dns);
    if base.Bad? {
      return Bad(base.error), given;
    }
    var servers, used := AddVariants(dns, name, base.value, listed, variants.value);
    var last := ChooseFinal(dns);
    if last.Bad? {
      return Bad(last.error), given;
    }
    var rules, all := CompileRules(dns, name, inbound, servers, used, variants.value);
    if rules.Bad? {
      return Bad(rules.error), given;
    }
    r := Good(Block(all, last.value, rules.value));
  }
}
