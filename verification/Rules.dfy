/**
 The rule engine: one pass over the list that returns the first specific rule and defers the first
 fully wildcard one. The token matchers for process, host, port and domain lists are parameters, so
 the IPv4 and the IPv6 loop are one model.
 */
module Rules {
  import opened Basics

  datatype Protocol = Tcp | Udp | Both
  datatype Action = Proxy | Direct | Block

  datatype Rule = Rule(process: string, hosts: string, ports: string, domains: string,
                       protocol: Protocol, action: Action, proxyId: nat, enabled: bool)

  /** A destination as the matcher sees it; `domain` is the DNS cache's answer. */
  datatype Query<Host> = Query(process: string, host: Host, port: nat, udp: bool, domain: Option<string>)

  /** match_process_list, match_ip_list or match_ip_list_v6, match_port_list, match_domain_list. */
  datatype Lists<!Host> = Lists(process: (string, string) -> bool, host: (string, Host) -> bool,
                                port: (string, nat) -> bool, domain: (string, string) -> bool)

  /** rule_has_domain_filter */
  predicate HasDomain(r: Rule) { r.domains != "" && r.domains != "*" }

  /** match_domain_filter */
  predicate DomainOk<Host>(m: Lists<Host>, r: Rule, domain: Option<string>) {
    !HasDomain(r) || (domain.Some? && domain.value != "" && m.domain(r.domains, domain.value))
  }

  predicate AnyProcess(r: Rule) { r.process == "*" || r.process == "ANY" }

  predicate FullyWild(r: Rule) { AnyProcess(r) && r.hosts == "*" && r.ports == "*" && !HasDomain(r) }

  predicate IsDns<Host>(q: Query<Host>) { q.udp && q.port == 53 }

  /** Enabled and of a fitting protocol, where an application's own DNS is governed by the DNS flag alone. */
  predicate Eligible<Host>(r: Rule, q: Query<Host>, dns: bool) {
    && r.enabled
    && (if IsDns(q) && r.action == Proxy then dns
        else !(r.protocol == Tcp && q.udp) && !(r.protocol == Udp && !q.udp))
  }

  /** A rule with some filter, all of whose filters match. */
  predicate Specific<Host>(m: Lists<Host>, r: Rule, q: Query<Host>, dns: bool) {
    && Eligible(r, q, dns) && !FullyWild(r)
    && (AnyProcess(r) || m.process(r.process, q.process))
    && m.host(r.hosts, q.host) && m.port(r.ports, q.port) && DomainOk(m, r, q.domain)
  }

  predicate Fallback<Host>(r: Rule, q: Query<Host>, dns: bool) { Eligible(r, q, dns) && FullyWild(r) }

  /** The first specific rule that matches. */
  function FirstSpecific<Host>(m: Lists<Host>, rules: seq<Rule>, q: Query<Host>, dns: bool): Option<Rule> {
    if rules == [] then None
    else if Specific(m, rules[0], q, dns) then Some(rules[0])
    else FirstSpecific(m, rules[1..], q, dns)
  }

  /** The first fully wildcard rule that applies. */
  function FirstFallback<Host>(rules: seq<Rule>, q: Query<Host>, dns: bool): Option<Rule> {
    if rules == [] then None
    else if Fallback(rules[0], q, dns) then Some(rules[0])
    else FirstFallback(rules[1..], q, dns)
  }

  /** The meaning of a rule list: specific rules first, then the fallback, then DIRECT. */
  function Verdict<Host>(m: Lists<Host>, rules: seq<Rule>, q: Query<Host>, dns: bool): (Action, nat) {
    match FirstSpecific(m, rules, q, dns)
    case Some(r) => (r.action, r.proxyId)
    case None =>
      match FirstFallback(rules, q, dns)
      case Some(r) => (r.action, r.proxyId)
      case None => (Direct, 0)
  }

  /** Rule i is the first specific one that matches. */
  ghost predicate LeastSpecific<Host>(m: Lists<Host>, rules: seq<Rule>, q: Query<Host>, dns: bool, i: int) {
    0 <= i < |rules| && Specific(m, rules[i], q, dns) && forall j :: 0 <= j < i ==> !Specific(m, rules[j], q, dns)
  }

  /** Rule i is the first fully wildcard one that applies. */
  ghost predicate LeastFallback<Host>(rules: seq<Rule>, q: Query<Host>, dns: bool, i: int) {
    0 <= i < |rules| && Fallback(rules[i], q, dns) && forall j :: 0 <= j < i ==> !Fallback(rules[j], q, dns)
  }

  ghost predicate NoSpecific<Host>(m: Lists<Host>, rules: seq<Rule>, q: Query<Host>, dns: bool) {
    forall i :: 0 <= i < |rules| ==> !Specific(m, rules[i], q, dns)
  }

  /** Rule i decides: it is the first specific match, or there is none and it is the first applicable wildcard. */
  ghost predicate DecidedBy<Host>(m: Lists<Host>, rules: seq<Rule>, q: Query<Host>, dns: bool, i: int) {
    LeastSpecific(m, rules, q, dns, i) || (NoSpecific(m, rules, q, dns) && LeastFallback(rules, q, dns, i))
  }

  /** match_rule_inner and match_rule_v6_inner. */
  method MatchRule<Host>(m: Lists<Host>, rules: seq<Rule>, q: Query<Host>, dns: bool) returns (action: Action, id: nat)
    ensures (action, id) == Verdict(m, rules, q, dns)
    ensures forall i :: LeastSpecific(m, rules, q, dns, i) ==> (action, id) == (rules[i].action, rules[i].proxyId)
    ensures NoSpecific(m, rules, q, dns) ==>
              forall i :: LeastFallback(rules, q, dns, i) ==> (action, id) == (rules[i].action, rules[i].proxyId)
    ensures (forall i :: 0 <= i < |rules| ==> !Specific(m, rules[i], q, dns) && !Fallback(rules[i], q, dns)) ==>
              (action, id) == (Direct, 0)
  {
    VerdictIs(m, rules, q, dns);
    assert forall i :: LeastSpecific(m, rules, q, dns, i) ==> DecidedBy(m, rules, q, dns, i);
    assert NoSpecific(m, rules, q, dns) ==> forall i :: LeastFallback(rules, q, dns, i) ==> DecidedBy(m, rules, q, dns, i);
    action, id := MatchLoop(m, rules, q, dns);
  }

  method MatchLoop<Host>(m: Lists<Host>, rules: seq<Rule>, q: Query<Host>, dns: bool) returns (action: Action, id: nat)
    ensures (action, id) == Verdict(m, rules, q, dns)
  {
    var wildcard: Option<Rule> := None;
    var i := 0;
    assert rules[0..] == rules;
    while i < |rules|
      invariant i <= |rules|
      invariant FirstSpecific(m, rules, q, dns) == FirstSpecific(m, rules[i..], q, dns)
      invariant FirstFallback(rules, q, dns) == if wildcard.Some? then wildcard else FirstFallback(rules[i..], q, dns)
    {
      var r := rules[i];
      i := i + 1;
      assert rules[i - 1..][1..] == rules[i..];
      if !r.enabled {
        continue;
      }
      var proxyDns := q.udp && q.port == 53 && r.action == Proxy;
      if proxyDns && !dns {
        continue;
      }
      if !proxyDns && r.protocol != Both {
        if r.protocol == Tcp && q.udp { continue; }
        if r.protocol == Udp && !q.udp { continue; }
      }
      if r.process == "*" || r.process == "ANY" {
        if r.hosts != "*" || r.ports != "*" || HasDomain(r) {
          if m.host(r.hosts, q.host) && m.port(r.ports, q.port) && DomainOk(m, r, q.domain) {
            return r.action, r.proxyId;
          }
          continue;
        }
        if wildcard.None? {
          wildcard := Some(r);
        }
        continue;
      }
      if m.process(r.process, q.process) {
        if m.host(r.hosts, q.host) && m.port(r.ports, q.port) && DomainOk(m, r, q.domain) {
          return r.action, r.proxyId;
        }
      }
    }
    if wildcard.Some? {
      return wildcard.value.action, wildcard.value.proxyId;
    }
    return Direct, 0;
  }

  // ------------------------------------------------------------------ order of rules

  /** FirstSpecific is the least index that qualifies. */
  lemma {:induction false} FirstSpecificIs<Host>(m: Lists<Host>, rules: seq<Rule>, q: Query<Host>, dns: bool)
    ensures match FirstSpecific(m, rules, q, dns)
            case None => NoSpecific(m, rules, q, dns)
            case Some(r) => exists i :: LeastSpecific(m, rules, q, dns, i) && rules[i] == r
  {
    if rules == [] {
    } else if !Specific(m, rules[0], q, dns) {
      FirstSpecificIs(m, rules[1..], q, dns);
      match FirstSpecific(m, rules[1..], q, dns)
      case None =>
      case Some(r) =>
        var i :| LeastSpecific(m, rules[1..], q, dns, i) && rules[1..][i] == r;
        assert rules[i + 1] == r;
        forall j | 0 <= j < i + 1 ensures !Specific(m, rules[j], q, dns) {
          if j > 0 { assert rules[1..][j - 1] == rules[j]; }
        }
        assert LeastSpecific(m, rules, q, dns, i + 1);
    }
  }

  /** ... and so is FirstFallback. */
  lemma {:induction false} FirstFallbackIs<Host>(rules: seq<Rule>, q: Query<Host>, dns: bool)
    ensures match FirstFallback(rules, q, dns)
            case None => forall i :: 0 <= i < |rules| ==> !Fallback(rules[i], q, dns)
            case Some(r) => exists i :: LeastFallback(rules, q, dns, i) && rules[i] == r
  {
    if rules == [] {
    } else if !Fallback(rules[0], q, dns) {
      FirstFallbackIs(rules[1..], q, dns);
      match FirstFallback(rules[1..], q, dns)
      case None =>
      case Some(r) =>
        var i :| LeastFallback(rules[1..], q, dns, i) && rules[1..][i] == r;
        assert rules[i + 1] == r;
        forall j | 0 <= j < i + 1 ensures !Fallback(rules[j], q, dns) {
          if j > 0 { assert rules[1..][j - 1] == rules[j]; }
        }
        assert LeastFallback(rules, q, dns, i + 1);
    }
  }

  /** The verdict is the action and proxy of the rule that decides, and DIRECT if none does. */
  lemma VerdictIs<Host>(m: Lists<Host>, rules: seq<Rule>, q: Query<Host>, dns: bool)
    ensures forall i :: DecidedBy(m, rules, q, dns, i) ==>
              Verdict(m, rules, q, dns) == (rules[i].action, rules[i].proxyId)
    ensures (forall i :: !DecidedBy(m, rules, q, dns, i)) ==> Verdict(m, rules, q, dns) == (Direct, 0)
  {
    FirstSpecificIs(m, rules, q, dns);
    FirstFallbackIs(rules, q, dns);
    if FirstSpecific(m, rules, q, dns).Some? {
      var i :| LeastSpecific(m, rules, q, dns, i) && rules[i] == FirstSpecific(m, rules, q, dns).value;
      assert DecidedBy(m, rules, q, dns, i);
    } else if FirstFallback(rules, q, dns).Some? {
      var i :| LeastFallback(rules, q, dns, i) && rules[i] == FirstFallback(rules, q, dns).value;
      assert DecidedBy(m, rules, q, dns, i);
    }
  }

  /** The deciding rule is enabled, is meant for the protocol, and none of its filters excludes the query. */
  lemma DecidingRule<Host>(m: Lists<Host>, rules: seq<Rule>, q: Query<Host>, dns: bool, i: int)
    requires DecidedBy(m, rules, q, dns, i)
    ensures var r := rules[i];
            && r.enabled
            && (r.protocol == Tcp && q.udp ==> q.port == 53 && r.action == Proxy && dns)
            && (r.protocol == Udp ==> q.udp)
            && (q.udp && q.port == 53 && r.action == Proxy ==> dns)
            && (r.process != "*" && r.process != "ANY" ==> m.process(r.process, q.process))
            && (r.hosts != "*" ==> m.host(r.hosts, q.host))
            && (r.ports != "*" ==> m.port(r.ports, q.port))
            && (r.domains != "" && r.domains != "*" ==> q.domain.Some? && m.domain(r.domains, q.domain.value))
  {
  }

  /** Conversely, an enabled rule for both protocols whose filters all match is never passed over for nothing or a later one. */
  lemma MatchingRule<Host>(m: Lists<Host>, rules: seq<Rule>, q: Query<Host>, dns: bool, i: int)
    requires 0 <= i < |rules| && rules[i].enabled && rules[i].protocol == Both && !(q.udp && q.port == 53)
    requires var r := rules[i];
             && (r.process == "*" || r.process == "ANY" || m.process(r.process, q.process))
             && m.host(r.hosts, q.host) && m.port(r.ports, q.port) && (r.domains == "" || r.domains == "*")
    ensures var r := rules[i];
            var wild := (r.process == "*" || r.process == "ANY") && r.hosts == "*" && r.ports == "*";
            exists k :: DecidedBy(m, rules, q, dns, k) && (k <= i || (wild && LeastSpecific(m, rules, q, dns, k)))
  {
    FirstSpecificIs(m, rules, q, dns);
    FirstFallbackIs(rules, q, dns);
    if FirstSpecific(m, rules, q, dns).Some? {
      var k :| LeastSpecific(m, rules, q, dns, k) && rules[k] == FirstSpecific(m, rules, q, dns).value;
      assert DecidedBy(m, rules, q, dns, k);
    } else {
      assert Fallback(rules[i], q, dns);
      var k :| LeastFallback(rules, q, dns, k) && rules[k] == FirstFallback(rules, q, dns).value;
      assert DecidedBy(m, rules, q, dns, k);
    }
  }

  function Keep(rules: seq<Rule>, wild: bool): seq<Rule> {
    if rules == [] then []
    else (if FullyWild(rules[0]) == wild then [rules[0]] else []) + Keep(rules[1..], wild)
  }

  lemma {:induction false} KeepFirst<Host>(m: Lists<Host>, rules: seq<Rule>, q: Query<Host>, dns: bool)
    ensures FirstSpecific(m, Keep(rules, false), q, dns) == FirstSpecific(m, rules, q, dns)
    ensures FirstSpecific(m, Keep(rules, true), q, dns) == None
    ensures FirstFallback(Keep(rules, true), q, dns) == FirstFallback(rules, q, dns)
    ensures FirstFallback(Keep(rules, false), q, dns) == None
  {
    if rules == [] {
    } else {
      KeepFirst(m, rules[1..], q, dns);
      var r := rules[0];
      assert Keep(rules, FullyWild(r)) == [r] + Keep(rules[1..], FullyWild(r));
      assert Keep(rules, !FullyWild(r)) == [] + Keep(rules[1..], !FullyWild(r)) == Keep(rules[1..], !FullyWild(r));
      assert ([r] + Keep(rules[1..], FullyWild(r)))[1..] == Keep(rules[1..], FullyWild(r));
    }
  }

  /** Where the fully wildcard rules stand among the others changes no verdict. */
  lemma WildPositionIrrelevant<Host>(m: Lists<Host>, rules: seq<Rule>, rules': seq<Rule>, q: Query<Host>, dns: bool)
    requires Keep(rules, true) == Keep(rules', true) && Keep(rules, false) == Keep(rules', false)
    ensures Verdict(m, rules, q, dns) == Verdict(m, rules', q, dns)
  {
    KeepFirst(m, rules, q, dns);
    KeepFirst(m, rules', q, dns);
  }

  lemma {:induction false} KeepConcat(a: seq<Rule>, b: seq<Rule>, wild: bool)
    ensures Keep(a + b, wild) == Keep(a, wild) + Keep(b, wild)
  {
    if a == [] {
      assert a + b == b;
    } else {
      assert (a + b)[1..] == a[1..] + b && (a + b)[0] == a[0];
      KeepConcat(a[1..], b, wild);
      var first := if FullyWild(a[0]) == wild then [a[0]] else [];
      assert Keep(a + b, wild) == first + (Keep(a[1..], wild) + Keep(b, wild));
      assert first + (Keep(a[1..], wild) + Keep(b, wild)) == (first + Keep(a[1..], wild)) + Keep(b, wild);
    }
  }

  /** In particular a fully wildcard rule may be swapped with a specific neighbour. */
  lemma SwapNeighbours<Host>(m: Lists<Host>, pre: seq<Rule>, w: Rule, r: Rule, post: seq<Rule>, q: Query<Host>, dns: bool)
    requires FullyWild(w) && !FullyWild(r)
    ensures Verdict(m, pre + [w, r] + post, q, dns) == Verdict(m, pre + [r, w] + post, q, dns)
  {
    forall wild ensures Keep(pre + [w, r] + post, wild) == Keep(pre + [r, w] + post, wild) {
      KeepConcat(pre + [w, r], post, wild);
      KeepConcat(pre + [r, w], post, wild);
      KeepConcat(pre, [w, r], wild);
      KeepConcat(pre, [r, w], wild);
      assert [w, r][1..] == [r] && [r, w][1..] == [w];
      assert Keep([w, r], wild) == Keep([r, w], wild);
    }
    WildPositionIrrelevant(m, pre + [w, r] + post, pre + [r, w] + post, q, dns);
  }

  // ------------------------------------------------------------------ the DNS flag

  lemma {:induction false} NoDnsProxy<Host>(m: Lists<Host>, rules: seq<Rule>, q: Query<Host>)
    requires IsDns(q)
    ensures FirstSpecific(m, rules, q, false).Some? ==> FirstSpecific(m, rules, q, false).value.action != Proxy
    ensures FirstFallback(rules, q, false).Some? ==> FirstFallback(rules, q, false).value.action != Proxy
  {
    if rules == [] {
    } else {
      NoDnsProxy(m, rules[1..], q);
    }
  }

  lemma {:induction false} FlagIrrelevant<Host>(m: Lists<Host>, rules: seq<Rule>, q: Query<Host>)
    requires !IsDns(q)
    ensures FirstSpecific(m, rules, q, true) == FirstSpecific(m, rules, q, false)
    ensures FirstFallback(rules, q, true) == FirstFallback(rules, q, false)
  {
    if rules == [] {
    } else {
      FlagIrrelevant(m, rules[1..], q);
    }
  }

  /** The flag changes verdicts for UDP port 53 only, and when it is off that traffic is never proxied. */
  lemma DnsFlag<Host>(m: Lists<Host>, rules: seq<Rule>, q: Query<Host>)
    ensures !IsDns(q) ==> Verdict(m, rules, q, true) == Verdict(m, rules, q, false)
    ensures IsDns(q) ==> Verdict(m, rules, q, false).0 != Proxy
  {
    if IsDns(q) { NoDnsProxy(m, rules, q); } else { FlagIrrelevant(m, rules, q); }
  }

  // ------------------------------------------------------------------ fast-path flags

  /** update_has_active_rules: one pass that stops once both flags are known. */
  method ActiveFlags(rules: seq<Rule>) returns (active: bool, domain: bool)
    ensures active == exists i :: 0 <= i < |rules| && rules[i].enabled
    ensures domain == exists i :: 0 <= i < |rules| && rules[i].enabled && HasDomain(rules[i])
  {
    active, domain := false, false;
    var i := 0;
    while i < |rules|
      invariant i <= |rules| && !domain
      invariant active == exists j :: 0 <= j < i && rules[j].enabled
      invariant forall j :: 0 <= j < i && rules[j].enabled ==> !HasDomain(rules[j])
    {
      if rules[i].enabled {
        active := true;
        if HasDomain(rules[i]) {
          domain := true;
          return;
        }
      }
      i := i + 1;
    }
  }

  /** A false active flag: everything is DIRECT. */
  lemma {:induction false} Inactive<Host>(m: Lists<Host>, rules: seq<Rule>, q: Query<Host>, dns: bool)
    requires forall i :: 0 <= i < |rules| ==> !rules[i].enabled
    ensures Verdict(m, rules, q, dns) == (Direct, 0)
  {
    if rules == [] {
    } else {
      assert !rules[0].enabled;
      Inactive(m, rules[1..], q, dns);
    }
  }

  lemma {:induction false} DomainIrrelevant<Host>(m: Lists<Host>, rules: seq<Rule>, q: Query<Host>, d: Option<string>, dns: bool)
    requires forall i :: 0 <= i < |rules| && rules[i].enabled ==> !HasDomain(rules[i])
    ensures FirstSpecific(m, rules, q, dns) == FirstSpecific(m, rules, q.(domain := d), dns)
    ensures FirstFallback(rules, q, dns) == FirstFallback(rules, q.(domain := d), dns)
  {
    if rules == [] {
    } else {
      assert rules[0].enabled ==> !HasDomain(rules[0]);
      DomainIrrelevant(m, rules[1..], q, d, dns);
    }
  }

  /** A false domain flag: skipping the DNS lookup gives the same verdict as any cache content. */
  lemma SkippedLookup<Host>(m: Lists<Host>, rules: seq<Rule>, q: Query<Host>, d: Option<string>, dns: bool)
    requires forall i :: 0 <= i < |rules| && rules[i].enabled ==> !HasDomain(rules[i])
    ensures Verdict(m, rules, q.(domain := None), dns) == Verdict(m, rules, q.(domain := d), dns)
  {
    DomainIrrelevant(m, rules, q, None, dns);
    DomainIrrelevant(m, rules, q, d, dns);
  }

  // ------------------------------------------------------------------ check_process_rule

  datatype ProxyKind = Socks5 | Http
  datatype ProxyConfig = ProxyConfig(id: nat, kind: ProxyKind, host: string, port: nat)

  /** What the operating system and the settings contribute to one check. */
  datatype Owner = Owner(bothLoopback: bool, pid: nat, name: Option<string>)
  datatype Policy = Policy(loopbackBypass: bool, failClosed: bool, self: nat, dns: bool, configs: seq<ProxyConfig>)

  /** find_proxy_config: by id, else the first configured proxy. */
  function FindConfig(configs: seq<ProxyConfig>, id: nat): Option<ProxyConfig> {
    if configs == [] then None
    else if exists i :: 0 <= i < |configs| && configs[i].id == id then Some(ById(configs, id))
    else Some(configs[0])
  }

  function ById(configs: seq<ProxyConfig>, id: nat): (c: ProxyConfig)
    requires exists i :: 0 <= i < |configs| && configs[i].id == id
    ensures c in configs && c.id == id
  {
    if configs[0].id == id then configs[0]
    else
      assert exists i :: 0 <= i < |configs[1..]| && configs[1..][i].id == id by {
        var i :| 0 <= i < |configs| && configs[i].id == id;
        assert configs[1..][i - 1] == configs[i];
      }
      ById(configs[1..], id)
  }

  predicate Usable(pol: Policy, id: nat, udp: bool) {
    match FindConfig(pol.configs, id)
    case None => false
    case Some(c) => c.host != "" && c.port != 0 && !(udp && c.kind == Http)
  }

  function CheckProcess<Host>(m: Lists<Host>, rules: seq<Rule>, q: Query<Host>, own: Owner, pol: Policy): (Action, nat) {
    var unknown := if pol.failClosed then Block else Direct;
    if pol.loopbackBypass && own.bothLoopback then (Direct, 0)
    else if own.pid == 0 then (unknown, 0)
    else if own.pid == pol.self then (Direct, 0)
    else if own.name.None? then (unknown, 0)
    else
      var (action, id) := Verdict(m, rules, q.(process := own.name.value), pol.dns);
      if action == Proxy && !Usable(pol, id, q.udp) then (Block, 0) else (action, id)
  }

  /** A PROXY rule is never leaked to DIRECT, PROXY is only answered with a usable proxy, and with fail-closed an
      unknown owner is never DIRECT. */
  lemma FailsClosed<Host>(m: Lists<Host>, rules: seq<Rule>, q: Query<Host>, own: Owner, pol: Policy)
    requires !(pol.loopbackBypass && own.bothLoopback) && own.pid != pol.self
    ensures var (action, id) := CheckProcess(m, rules, q, own, pol);
            && (action == Proxy ==> Usable(pol, id, q.udp))
            && (own.pid != 0 && own.name.Some? ==>
                  (Verdict(m, rules, q.(process := own.name.value), pol.dns).0 == Proxy ==> action != Direct))
            && (pol.failClosed && (own.pid == 0 || own.name.None?) ==> action == Block)
            && (IsDns(q) && !pol.dns ==> action != Proxy)
  {
    if own.name.Some? { DnsFlag(m, rules, q.(process := own.name.value)); }
  }

  /** The proxy of an id is the first configured one that has it, else the first of all. */
  lemma {:induction false} ConfigFor(configs: seq<ProxyConfig>, id: nat)
    ensures forall i :: 0 <= i < |configs| && configs[i].id == id && (forall j :: 0 <= j < i ==> configs[j].id != id) ==>
              FindConfig(configs, id) == Some(configs[i])
    ensures (forall i :: 0 <= i < |configs| ==> configs[i].id != id) ==>
              FindConfig(configs, id) == if configs == [] then None else Some(configs[0])
  {
    forall i | 0 <= i < |configs| && configs[i].id == id && (forall j :: 0 <= j < i ==> configs[j].id != id)
      ensures FindConfig(configs, id) == Some(configs[i])
    {
      FirstById(configs, id, i);
    }
  }

  lemma {:induction false} FirstById(configs: seq<ProxyConfig>, id: nat, i: nat)
    requires i < |configs| && configs[i].id == id && (forall j :: 0 <= j < i ==> configs[j].id != id)
    ensures ById(configs, id) == configs[i]
  {
    if i > 0 {
      assert configs[1..][i - 1] == configs[i];
      FirstById(configs[1..], id, i - 1);
    }
  }

  /**
   The check, case by case: loopback traffic that is to be bypassed and the program's own are DIRECT; an
   unknown owner is blocked exactly if the policy fails closed; otherwise the deciding rule's action is
   taken, but BLOCK stands in for a PROXY that cannot be used.
   */
  lemma CheckedBy<Host>(m: Lists<Host>, rules: seq<Rule>, q: Query<Host>, own: Owner, pol: Policy)
    ensures var (action, id) := CheckProcess(m, rules, q, own, pol);
            var bypassed := pol.loopbackBypass && own.bothLoopback;
            && (bypassed || (own.pid != 0 && own.pid == pol.self) ==> action == Direct)
            && (!bypassed && (own.pid == 0 || (own.pid != pol.self && own.name.None?)) ==>
                  action == if pol.failClosed then Block else Direct)
            && (!bypassed && own.pid != 0 && own.pid != pol.self && own.name.Some? ==>
                  var q' := q.(process := own.name.value);
                  && (forall i :: DecidedBy(m, rules, q', pol.dns, i) ==>
                        if rules[i].action != Proxy then action == rules[i].action
                        else if Usable(pol, rules[i].proxyId, q.udp) then action == Proxy && id == rules[i].proxyId
                        else action == Block)
                  && ((forall i :: !DecidedBy(m, rules, q', pol.dns, i)) ==> action == Direct))
  {
    if own.name.Some? { VerdictIs(m, rules, q.(process := own.name.value), pol.dns); }
  }
}
