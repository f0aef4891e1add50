/** `populate_routing_state` in its own form: route and rule lists grown in loops with
    running offsets. */
module Planner {
  import opened Common
  import opened Ordering
  import opened Fwmark
  import opened TableIds
  import opened RoutingPlan

  method AddRoutesIfEnabled(planned: seq<RouteSpec>, routes: seq<RouteSpec>, env: Env) returns (r: seq<RouteSpec>)
    ensures r == planned + EnabledRoutes(routes, env)
  {
    r := planned;
    assert routes[..0] == [];
    for i := 0 to |routes|
      invariant r == planned + Filter(routes[..i], OfEnabledFamily(env.ipv6))
    {
      FilterStep(routes, i, OfEnabledFamily(env.ipv6));
      if env.ipv6 || !routes[i].v6 { r := r + [routes[i]]; }
    }
    assert routes[..|routes|] == routes;
  }

  lemma {:induction false} ChildRoutesStep(table: nat, children: seq<Outbound>, env: Env, metric: nat, i: nat)
    requires i < |children|
    ensures ChildRoutes(table, children[..i + 1], env, metric) ==
            ChildRoutes(table, children[..i], env, metric)
            + (if UsableChild(children[i], env)
               then CandidateRoutes(table, children[i], env, metric + UsableCount(children[..i], env),
                                    metric + UsableCount(children[..i], env))
               else [])
    decreases i
  {
    hide CandidateRoutes, UsableChild;
    if i == 0 {
      assert children[..1][1..] == [];
    } else {
      var rest := children[1..];
      assert children[..i + 1][1..] == rest[..i] && children[..i][1..] == rest[..i - 1];
      ChildRoutesStep(table, rest, env, if UsableChild(children[0], env) then metric + 1 else metric, i - 1);
    }
  }

  function UsableCount(children: seq<Outbound>, env: Env): nat
  {
    if children == [] then 0 else (if UsableChild(children[0], env) then 1 else 0) + UsableCount(children[1..], env)
  }

  lemma {:induction false} UsableCountStep(children: seq<Outbound>, env: Env, i: nat)
    requires i < |children|
    ensures UsableCount(children[..i + 1], env) ==
            UsableCount(children[..i], env) + (if UsableChild(children[i], env) then 1 else 0)
    decreases i
  {
    hide UsableChild;
    if i == 0 {
      assert children[..1][1..] == [];
    } else {
      assert children[..i + 1][1..] == children[1..][..i] && children[..i][1..] == children[1..][..i - 1];
      UsableCountStep(children[1..], env, i - 1);
    }
  }

  /** The failover part of a URLTEST table. */
  method AddChildren(planned: seq<RouteSpec>, table: nat, children: seq<Outbound>, env: Env) returns (r: seq<RouteSpec>)
    ensures r == planned + EnabledRoutes(ChildRoutes(table, children, env, 1), env)
  {
    hide CandidateRoutes, ChildRoutes, Filter;
    r := planned;
    var metric := 1;
    assert children[..0] == [] && ChildRoutes(table, [], env, 1) == [] by { NoChildren(table, env); }
    assert EnabledRoutes([], env) == [] by { NoRoutes(env); }
    for i := 0 to |children|
      invariant metric == 1 + UsableCount(children[..i], env)
      invariant r == planned + EnabledRoutes(ChildRoutes(table, children[..i], env, 1), env)
    {
      ChildRoutesStep(table, children, env, 1, i);
      UsableCountStep(children, env, i);
      if children[i].kind != INTERFACE || !env.reachable(children[i]) {
        assert ChildRoutes(table, children[..i + 1], env, 1) == ChildRoutes(table, children[..i], env, 1);
        continue;
      }
      FilterAppend(ChildRoutes(table, children[..i], env, 1),
                   CandidateRoutes(table, children[i], env, metric, metric), OfEnabledFamily(env.ipv6));
      r := AddRoutesIfEnabled(r, CandidateRoutes(table, children[i], env, metric, metric), env);
      metric := metric + 1;
    }
    assert children[..|children|] == children;
  }

  lemma NoChildren(table: nat, env: Env)
    ensures ChildRoutes(table, [], env, 1) == []
  {}

  lemma NoRoutes(env: Env)
    ensures EnabledRoutes([], env) == []
  {}

  method AddUrltest(planned: seq<RouteSpec>, table: nat, outbounds: seq<Outbound>, ob: Outbound, env: Env)
    returns (r: seq<RouteSpec>)
    ensures r == planned + UrltestRoutes(table, outbounds, ob, env)
  {
    hide CandidateRoutes, ChildRoutes, OrderedChildren, Filter, UnreachableRoutes;
    r := planned;
    NoRoutes(env);
    var tag := Selection(ob, env);
    if tag != "" {
      var selected := FindOutbound(outbounds, tag);
      ghost var first := [];
      if selected.Some? && selected.value.kind == INTERFACE && env.reachable(selected.value) {
        r := AddRoutesIfEnabled(r, CandidateRoutes(table, selected.value, env, 0, UNREACHABLE_METRIC), env);
        first := CandidateRoutes(table, selected.value, env, 0, UNREACHABLE_METRIC);
      }
      FilterAppend(first, ChildRoutes(table, OrderedChildren(outbounds, ob), env, 1), OfEnabledFamily(env.ipv6));
      r := AddChildren(r, table, OrderedChildren(outbounds, ob), env);
    }
    assert r == planned + EnabledRoutes(UrltestCandidates(table, outbounds, ob, env), env);
    if |r| == |planned| {
      r := AddRoutesIfEnabled(r, UnreachableRoutes(table), env);
    }
  }

  method AddRoutes(planned: seq<RouteSpec>, table: nat, outbounds: seq<Outbound>, ob: Outbound, env: Env)
    returns (r: seq<RouteSpec>)
    ensures r == planned + RoutesOf(outbounds, ob, env, table)
  {
    hide CandidateRoutes, UrltestRoutes, Filter, UnreachableRoutes;
    r := planned;
    if ob.kind == INTERFACE {
      if env.reachable(ob) {
        r := AddRoutesIfEnabled(r, CandidateRoutes(table, ob, env, 0, UNREACHABLE_METRIC), env);
      } else if Strict(ob, env) {
        r := AddRoutesIfEnabled(r, UnreachableRoutes(table), env);
      }
    } else if ob.kind == URLTEST {
      r := AddUrltest(r, table, outbounds, ob, env);
    }
  }

  /** The lookup rule of the pair at `ruleOffset` and, when required, its guard. */
  method AddLookupAndGuard(rules: seq<RuleSpec>, ghost pairs: seq<Pair>, key: string, table: nat,
                           guard: Option<RuleAction>,
                           env: Env, ruleOffset: nat) returns (r: seq<RuleSpec>)
    requires key in env.marks && KeysMarked(pairs, env) && rules == Rules(pairs, env) && ruleOffset == |pairs|
    ensures KeysMarked(pairs + [Pair(key, table, guard)], env)
    ensures r == Rules(pairs + [Pair(key, table, guard)], env)
  {
    var lookup := RuleSpec(env.marks[key], env.mask, table, (env.priorityStart + ruleOffset * 2) % U32, !env.ipv6,
                           Lookup);
    r := rules + [lookup];
    if guard.Some? {
      r := r + [lookup.(table := 0, priority := (lookup.priority + 1) % U32, action := guard.value)];
    }
    ghost var p := Pair(key, table, guard);
    assert (pairs + [p])[..|pairs|] == pairs;
  }

  /** The planning loop. */
  method PopulateRoutingState(configured: seq<Outbound>, env: Env)
    returns (routes: seq<RouteSpec>, rules: seq<RuleSpec>)
    requires env.tableStart < U32 && |configured| < U32
    ensures KeysMarked(PlanOf(configured, env).pairs, env)
    ensures routes == PlanOf(configured, env).routes
    ensures rules == Rules(PlanOf(configured, env).pairs, env)
  {
    hide RoutesOf, Rules;
    var outbounds := Sort(configured, OutboundLe);
    routes, rules := [], [];
    var tableOffset, ruleOffset := 0, 0;
    assert Rules([], env) == [] by { NoRules(env); }
    for i := 0 to |outbounds|
      invariant routes == PlanPrefix(outbounds, env, i).routes
      invariant tableOffset == PlanPrefix(outbounds, env, i).tables
      invariant ruleOffset == |PlanPrefix(outbounds, env, i).pairs|
      invariant KeysMarked(PlanPrefix(outbounds, env, i).pairs, env)
      invariant rules == Rules(PlanPrefix(outbounds, env, i).pairs, env)
    {
      ghost var before := PlanPrefix(outbounds, env, i);
      var ob := outbounds[i];
      if !Routable(ob.kind) || ob.tag !in env.marks { continue; }
      var table := ob.table;
      if ob.kind != TABLE {
        TablesCounted(outbounds, env, i);
        table := FindSafeTableId(env.tableStart, tableOffset);
      }
      tableOffset := tableOffset + 1;
      routes := AddRoutes(routes, table, outbounds, ob, env);
      rules, ruleOffset := AddPairs(rules, before.pairs, ob, table, env, ruleOffset);
    }
  }

  method AddPairs(rules: seq<RuleSpec>, ghost pairs: seq<Pair>, ob: Outbound, table: nat, env: Env, offset: nat)
    returns (r: seq<RuleSpec>, ruleOffset: nat)
    requires ob.tag in env.marks && KeysMarked(pairs, env) && rules == Rules(pairs, env) && offset == |pairs|
    ensures KeysMarked(pairs + PairsOf(ob, env, table), env)
    ensures r == Rules(pairs + PairsOf(ob, env, table), env) && ruleOffset == |pairs + PairsOf(ob, env, table)|
  {
    hide Rules;
    ruleOffset := offset;
    var guard := if ob.kind == URLTEST || Strict(ob, env) then Some(GuardAction(ob, env)) else None;
    r := AddLookupAndGuard(rules, pairs, ob.tag, table, guard, env, ruleOffset);
    ruleOffset := ruleOffset + 1;
    ghost var one := pairs + [Pair(ob.tag, table, guard)];
    if DetourKey(ob.tag) in env.marks && ob.tag in env.detours {
      r := AddLookupAndGuard(r, one, DetourKey(ob.tag), table, Some(GuardAction(ob, env)), env, ruleOffset);
      ruleOffset := ruleOffset + 1;
      assert one + [Pair(DetourKey(ob.tag), table, Some(GuardAction(ob, env)))] == pairs + PairsOf(ob, env, table);
    } else {
      assert one == pairs + PairsOf(ob, env, table);
    }
  }

  lemma NoRules(env: Env)
    ensures Rules([], env) == []
  {}
}
