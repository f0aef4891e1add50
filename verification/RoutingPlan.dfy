/** The routing planner: tables, default routes and policy-rule pairs for every
    outbound, computed from the configuration and the runtime state it is given. */
module RoutingPlan {
  import opened Common
  import opened Ordering
  import opened Fwmark
  import opened TableIds

  datatype Group = Group(weight: int, outbounds: seq<string>)

  datatype Outbound = Outbound(
    tag: string, kind: OutboundType, iface: string, gateway: Option<string>, gateway6: Option<string>,
    table: nat, strict: Option<bool>, blackhole: Option<bool>, groups: seq<Group>)

  datatype RouteSpec =
    | Via(table: nat, v6: bool, metric: nat, iface: string, gateway: Option<string>)
    | Unreachable(table: nat, v6: bool, metric: nat)

  datatype RuleAction = Lookup | UnreachableRule | BlackholeRule

  datatype RuleSpec = RuleSpec(mark: nat, mask: nat, table: nat, priority: nat, v4Only: bool, action: RuleAction)

  /** Configuration values and callbacks the planner reads. */
  datatype Env = Env(
    tableStart: nat, priorityStart: nat, mask: nat, strictDefault: bool, blackholeDefault: bool,
    detours: set<string>, marks: MarkMap, selections: map<string, string>, ipv6: bool,
    reachable: Outbound -> bool, carries: (Outbound, bool) -> bool)

  const UNREACHABLE_METRIC: nat := 65535

  // ---------------------------------------------------------------- routes of one outbound

  predicate FamilyAvailable(ob: Outbound, v6: bool, env: Env)
  {
    if !v6 && ob.gateway.Some? then true
    else if v6 && ob.gateway6.Some? then true
    else env.carries(ob, v6)
  }

  function DefaultRoutes(table: nat, ob: Outbound, env: Env, metric: nat): seq<RouteSpec>
  {
    if ob.gateway.None? && ob.gateway6.None? then
      (if FamilyAvailable(ob, false, env) then [Via(table, false, metric, ob.iface, None)] else [])
      + (if FamilyAvailable(ob, true, env) then [Via(table, true, metric, ob.iface, None)] else [])
    else
      (if ob.gateway.Some? then [Via(table, false, metric, ob.iface, ob.gateway)] else [])
      + (if ob.gateway6.Some? then [Via(table, true, metric, ob.iface, ob.gateway6)] else [])
  }

  function ClosureRoutes(table: nat, ob: Outbound, env: Env, metric: nat): seq<RouteSpec>
  {
    var route4 := ob.gateway.Some? || (ob.gateway6.None? && FamilyAvailable(ob, false, env));
    var route6 := ob.gateway6.Some? || (ob.gateway.None? && FamilyAvailable(ob, true, env));
    (if !route4 then [Unreachable(table, false, metric)] else [])
    + (if !route6 then [Unreachable(table, true, metric)] else [])
  }

  function UnreachableRoutes(table: nat): seq<RouteSpec>
  {
    [Unreachable(table, false, UNREACHABLE_METRIC), Unreachable(table, true, UNREACHABLE_METRIC)]
  }

  function CandidateRoutes(table: nat, ob: Outbound, env: Env, metric: nat, closureMetric: nat): seq<RouteSpec>
  {
    DefaultRoutes(table, ob, env, metric) + ClosureRoutes(table, ob, env, closureMetric)
  }

  function OfEnabledFamily(ipv6: bool): RouteSpec -> bool { (r: RouteSpec) => ipv6 || !r.v6 }

  function EnabledRoutes(routes: seq<RouteSpec>, env: Env): seq<RouteSpec>
  {
    Filter(routes, OfEnabledFamily(env.ipv6))
  }

  // ---------------------------------------------------------------- URLTEST

  function FindOutbound(outbounds: seq<Outbound>, tag: string): (r: Option<Outbound>)
    ensures r.Some? ==> r.value in outbounds && r.value.tag == tag
    ensures r.None? <==> forall o :: o in outbounds ==> o.tag != tag
  {
    if outbounds == [] then None
    else if outbounds[0].tag == tag then Some(outbounds[0])
    else FindOutbound(outbounds[1..], tag)
  }

  function LighterGroup(): (Group, Group) -> bool { (a: Group, b: Group) => a.weight <= b.weight }

  function ChildOf(outbounds: seq<Outbound>): string -> seq<Outbound>
  {
    tag => var r := FindOutbound(outbounds, tag); if r.Some? then [r.value] else []
  }

  function GroupChildren(outbounds: seq<Outbound>): Group -> seq<Outbound>
  {
    (g: Group) => FlatMap(g.outbounds, ChildOf(outbounds))
  }

  /** Children by group weight, then by position. */
  function OrderedChildren(outbounds: seq<Outbound>, urltest: Outbound): seq<Outbound>
  {
    FlatMap(Sort(urltest.groups, LighterGroup()), GroupChildren(outbounds))
  }

  predicate UsableChild(ob: Outbound, env: Env) { ob.kind == INTERFACE && env.reachable(ob) }

  /** Failover routes of the usable children, with metrics counting up. */
  function ChildRoutes(table: nat, children: seq<Outbound>, env: Env, metric: nat): seq<RouteSpec>
  {
    if children == [] then []
    else if UsableChild(children[0], env)
    then CandidateRoutes(table, children[0], env, metric, metric) + ChildRoutes(table, children[1..], env, metric + 1)
    else ChildRoutes(table, children[1..], env, metric)
  }

  function Selection(ob: Outbound, env: Env): string
  {
    if ob.tag in env.selections then env.selections[ob.tag] else ""
  }

  function SelectedChild(outbounds: seq<Outbound>, ob: Outbound, env: Env): Option<Outbound>
  {
    var tag := Selection(ob, env);
    var found := FindOutbound(outbounds, tag);
    if tag != "" && found.Some? && UsableChild(found.value, env) then found else None
  }

  function UrltestCandidates(table: nat, outbounds: seq<Outbound>, ob: Outbound, env: Env): seq<RouteSpec>
  {
    if Selection(ob, env) == "" then []
    else
      var selected := SelectedChild(outbounds, ob, env);
      (if selected.Some? then CandidateRoutes(table, selected.value, env, 0, UNREACHABLE_METRIC) else [])
      + ChildRoutes(table, OrderedChildren(outbounds, ob), env, 1)
  }

  function UrltestRoutes(table: nat, outbounds: seq<Outbound>, ob: Outbound, env: Env): seq<RouteSpec>
  {
    var candidates := EnabledRoutes(UrltestCandidates(table, outbounds, ob, env), env);
    if candidates == [] then EnabledRoutes(UnreachableRoutes(table), env) else candidates
  }

  // ---------------------------------------------------------------- the plan

  /** A lookup rule and, when guarded, the terminal rule at the next priority. */
  datatype Pair = Pair(key: string, table: nat, guard: Option<RuleAction>)

  predicate Strict(ob: Outbound, env: Env) { if ob.strict.Some? then ob.strict.value else env.strictDefault }

  function GuardAction(ob: Outbound, env: Env): (a: RuleAction)
    ensures a != Lookup
  {
    if (if ob.blackhole.Some? then ob.blackhole.value else env.blackholeDefault) then BlackholeRule else UnreachableRule
  }

  /** The table of an outbound that is planned at the given table offset. */
  function TableOf(ob: Outbound, env: Env, offset: nat): nat
  {
    if ob.kind == TABLE then ob.table else SafeTableId(env.tableStart, offset)
  }

  predicate Planned(ob: Outbound, env: Env) { Routable(ob.kind) && ob.tag in env.marks }

  function RoutesOf(outbounds: seq<Outbound>, ob: Outbound, env: Env, table: nat): seq<RouteSpec>
  {
    match ob.kind
    case INTERFACE =>
      if env.reachable(ob) then EnabledRoutes(CandidateRoutes(table, ob, env, 0, UNREACHABLE_METRIC), env)
      else if Strict(ob, env) then EnabledRoutes(UnreachableRoutes(table), env)
      else []
    case URLTEST => UrltestRoutes(table, outbounds, ob, env)
    case _ => []
  }

  function PairsOf(ob: Outbound, env: Env, table: nat): seq<Pair>
  {
    var guard := if ob.kind == URLTEST || Strict(ob, env) then Some(GuardAction(ob, env)) else None;
    [Pair(ob.tag, table, guard)]
    + (if DetourKey(ob.tag) in env.marks && ob.tag in env.detours
       then [Pair(DetourKey(ob.tag), table, Some(GuardAction(ob, env)))] else [])
  }

  datatype Plan = Plan(routes: seq<RouteSpec>, pairs: seq<Pair>, tables: nat)

  function PlanStep(outbounds: seq<Outbound>, env: Env, plan: Plan, ob: Outbound): Plan
  {
    if !Planned(ob, env) then plan
    else
      var table := TableOf(ob, env, plan.tables);
      Plan(plan.routes + RoutesOf(outbounds, ob, env, table), plan.pairs + PairsOf(ob, env, table), plan.tables + 1)
  }

  /** The plan after the first `n` outbounds. */
  function PlanPrefix(outbounds: seq<Outbound>, env: Env, n: nat): Plan
    requires n <= |outbounds|
  {
    if n == 0 then Plan([], [], 0)
    else PlanStep(outbounds, env, PlanPrefix(outbounds, env, n - 1), outbounds[n - 1])
  }

  function KindRank(kind: OutboundType): nat
  {
    match kind
    case INTERFACE => 0
    case TABLE => 1
    case URLTEST => 2
    case _ => 3
  }

  predicate OutboundLe(a: Outbound, b: Outbound)
  {
    if KindRank(a.kind) == KindRank(b.kind) then StringLe(a.tag, b.tag) else KindRank(a.kind) < KindRank(b.kind)
  }

  function PlanOf(outbounds: seq<Outbound>, env: Env): Plan
  {
    var sorted := Sort(outbounds, OutboundLe);
    PlanPrefix(sorted, env, |sorted|)
  }

  /** Priority of the k-th pair's lookup, in 32-bit arithmetic. */
  function PriorityAt(env: Env, k: nat): nat { (env.priorityStart + k * 2) % U32 }

  function RulesOfPair(env: Env, p: Pair, k: nat): seq<RuleSpec>
    requires p.key in env.marks
  {
    var lookup := RuleSpec(env.marks[p.key], env.mask, p.table, PriorityAt(env, k), !env.ipv6, Lookup);
    [lookup] + (if p.guard.Some?
                then [lookup.(table := 0, priority := (lookup.priority + 1) % U32, action := p.guard.value)] else [])
  }

  predicate KeysMarked(pairs: seq<Pair>, env: Env) { forall p :: p in pairs ==> p.key in env.marks }

  function Rules(pairs: seq<Pair>, env: Env): seq<RuleSpec>
    requires KeysMarked(pairs, env)
  {
    if pairs == [] then []
    else
      var n := |pairs| - 1;
      Rules(pairs[..n], env) + RulesOfPair(env, pairs[n], n)
  }

  lemma {:induction false} PlanKeysMarked(outbounds: seq<Outbound>, env: Env, n: nat)
    requires n <= |outbounds|
    ensures KeysMarked(PlanPrefix(outbounds, env, n).pairs, env)
  {
    if n > 0 { PlanKeysMarked(outbounds, env, n - 1); }
  }

  // ---------------------------------------------------------------- order independence

  lemma OutboundLeIsTotal()
    ensures TotalPreorder(OutboundLe)
  {
    StringLeIsTotalOrder();
    forall x, y ensures OutboundLe(x, y) || OutboundLe(y, x) {}
    forall x, y, z | OutboundLe(x, y) && OutboundLe(y, z) ensures OutboundLe(x, z) {}
  }

  ghost predicate UniqueTags(outbounds: seq<Outbound>)
  {
    forall i, j :: 0 <= i < j < |outbounds| ==> outbounds[i].tag != outbounds[j].tag
  }

  /** Listing the same outbounds in another order yields the same plan. */
  lemma PlanIgnoresOrder(a: seq<Outbound>, b: seq<Outbound>, env: Env)
    requires multiset(a) == multiset(b) && UniqueTags(a)
    ensures PlanOf(a, env) == PlanOf(b, env)
  {
    OutboundLeIsTotal();
    forall i, j | 0 <= i < |a| && 0 <= j < |a| && OutboundLe(a[i], a[j]) && OutboundLe(a[j], a[i])
      ensures a[i] == a[j]
    {
      StringLeTotal(a[i].tag, a[j].tag);
    }
    SortIgnoresOrder(a, b, OutboundLe);
  }

  // ---------------------------------------------------------------- table ownership

  lemma {:induction false} TablesCounted(outbounds: seq<Outbound>, env: Env, n: nat)
    requires n <= |outbounds|
    ensures PlanPrefix(outbounds, env, n).tables <= n
  {
    if n > 0 { TablesCounted(outbounds, env, n - 1); }
  }

  lemma {:induction false} TablesGrow(outbounds: seq<Outbound>, env: Env, i: nat, j: nat)
    requires i < j <= |outbounds| && Planned(outbounds[i], env)
    ensures PlanPrefix(outbounds, env, i).tables < PlanPrefix(outbounds, env, j).tables
    decreases j
  {
    if i + 1 < j { TablesGrow(outbounds, env, i, j - 1); }
  }

  /** Interface and URLTEST outbounds never share a table, up to 31987 outbounds. */
  lemma OwnTables(outbounds: seq<Outbound>, env: Env, i: nat, j: nat)
    requires i < j < |outbounds| && |outbounds| <= FREE
    requires Planned(outbounds[i], env) && Planned(outbounds[j], env)
    requires outbounds[i].kind != TABLE && outbounds[j].kind != TABLE
    ensures TableOf(outbounds[i], env, PlanPrefix(outbounds, env, i).tables) !=
            TableOf(outbounds[j], env, PlanPrefix(outbounds, env, j).tables)
  {
    TablesGrow(outbounds, env, i, j);
    TablesCounted(outbounds, env, j);
    TablesDistinct(env.tableStart, PlanPrefix(outbounds, env, i).tables, PlanPrefix(outbounds, env, j).tables);
  }
}
