/** Which routes a planned table holds: one entry per family and candidate, a default
    for every enabled family of a URLTEST table, and the failover order. */
module RouteCoverage {
  import opened Common
  import opened Ordering
  import opened Fwmark
  import opened RoutingPlan

  function InFamily(v6: bool): RouteSpec -> bool { (r: RouteSpec) => r.v6 == v6 }

  predicate CarriesFamily(ob: Outbound, v6: bool, env: Env)
  {
    (if v6 then ob.gateway6.Some? else ob.gateway.Some?)
    || (ob.gateway.None? && ob.gateway6.None? && env.carries(ob, v6))
  }

  /** The candidate's entry for one family: its default route, or a closure. */
  function Entry(table: nat, ob: Outbound, env: Env, metric: nat, closureMetric: nat, v6: bool): RouteSpec
  {
    if CarriesFamily(ob, v6, env) then Via(table, v6, metric, ob.iface, if v6 then ob.gateway6 else ob.gateway)
    else Unreachable(table, v6, closureMetric)
  }

  /** Default and closure routes together give each family exactly one entry. */
  lemma CandidateCovers(table: nat, ob: Outbound, env: Env, metric: nat, closureMetric: nat, v6: bool)
    ensures Filter(CandidateRoutes(table, ob, env, metric, closureMetric), InFamily(v6)) ==
            [Entry(table, ob, env, metric, closureMetric, v6)]
  {
    var a, b := DefaultRoutes(table, ob, env, metric), ClosureRoutes(table, ob, env, closureMetric);
    FilterAppend(a, b, InFamily(v6));
    if CarriesFamily(ob, false, env) && CarriesFamily(ob, true, env) {
      assert a == [a[0]] + [a[1]] && b == [];
      FilterAppend([a[0]], [a[1]], InFamily(v6));
    } else if CarriesFamily(ob, false, env) || CarriesFamily(ob, true, env) {
      assert |a| == 1 && |b| == 1;
    } else {
      assert a == [] && b == [b[0]] + [b[1]];
      FilterAppend([b[0]], [b[1]], InFamily(v6));
    }
    forall r: RouteSpec ensures Filter([r], InFamily(v6)) == if r.v6 == v6 then [r] else [] {
      assert [r][1..] == [];
    }
  }

  /** Restricting a table to enabled families does not touch an enabled one. */
  lemma EnabledKeeps(routes: seq<RouteSpec>, env: Env, r: RouteSpec)
    requires env.ipv6 || !r.v6
    ensures r in EnabledRoutes(routes, env) <==> r in routes
  {}

  lemma CandidateMember(table: nat, ob: Outbound, env: Env, metric: nat, closureMetric: nat, r: RouteSpec)
    ensures r in CandidateRoutes(table, ob, env, metric, closureMetric) <==>
            r == Entry(table, ob, env, metric, closureMetric, r.v6)
  {
    CandidateCovers(table, ob, env, metric, closureMetric, r.v6);
    assert r in CandidateRoutes(table, ob, env, metric, closureMetric) <==>
           r in Filter(CandidateRoutes(table, ob, env, metric, closureMetric), InFamily(r.v6));
  }

  function FirstUsable(children: seq<Outbound>, env: Env): Option<Outbound>
  {
    if children == [] then None
    else if UsableChild(children[0], env) then Some(children[0])
    else FirstUsable(children[1..], env)
  }

  /** Failover routes start at the given metric with the first usable child and count up. */
  lemma {:induction false} ChildMetrics(table: nat, children: seq<Outbound>, env: Env, metric: nat, r: RouteSpec)
    requires r in ChildRoutes(table, children, env, metric)
    ensures r.metric >= metric && FirstUsable(children, env).Some?
    ensures r.metric == metric ==> r == Entry(table, FirstUsable(children, env).value, env, metric, metric, r.v6)
  {
    hide CandidateRoutes, Entry, UsableChild;
    if UsableChild(children[0], env) {
      CandidateMember(table, children[0], env, metric, metric, r);
      EntryMetric(table, children[0], env, metric, r.v6);
      if r !in CandidateRoutes(table, children[0], env, metric, metric) {
        ChildMetrics(table, children[1..], env, metric + 1, r);
      }
    } else {
      ChildMetrics(table, children[1..], env, metric, r);
    }
  }

  lemma EntryMetric(table: nat, ob: Outbound, env: Env, metric: nat, v6: bool)
    ensures Entry(table, ob, env, metric, metric, v6).metric == metric
  {}

  lemma {:induction false} FirstChildListed(table: nat, children: seq<Outbound>, env: Env, metric: nat, v6: bool)
    requires FirstUsable(children, env).Some?
    ensures Entry(table, FirstUsable(children, env).value, env, metric, metric, v6) in
            ChildRoutes(table, children, env, metric)
  {
    if UsableChild(children[0], env) {
      CandidateMember(table, children[0], env, metric, metric, Entry(table, children[0], env, metric, metric, v6));
    } else {
      FirstChildListed(table, children[1..], env, metric, v6);
    }
  }

  lemma CandidateFor(table: nat, outbounds: seq<Outbound>, ob: Outbound, env: Env, v6: bool) returns (r: RouteSpec)
    requires UrltestCandidates(table, outbounds, ob, env) != []
    ensures r in UrltestCandidates(table, outbounds, ob, env) && r.v6 == v6 && r.table == table
  {
    var selected, children := SelectedChild(outbounds, ob, env), OrderedChildren(outbounds, ob);
    if selected.Some? {
      r := Entry(table, selected.value, env, 0, UNREACHABLE_METRIC, v6);
      CandidateMember(table, selected.value, env, 0, UNREACHABLE_METRIC, r);
    } else {
      ChildMetrics(table, children, env, 1, UrltestCandidates(table, outbounds, ob, env)[0]);
      FirstChildListed(table, children, env, 1, v6);
      r := Entry(table, FirstUsable(children, env).value, env, 1, 1, v6);
    }
  }

  /** Every URLTEST table has a default route for every enabled family. */
  lemma UrltestAlwaysCovered(table: nat, outbounds: seq<Outbound>, ob: Outbound, env: Env, v6: bool)
    returns (r: RouteSpec)
    requires env.ipv6 || !v6
    ensures r in UrltestRoutes(table, outbounds, ob, env) && r.v6 == v6 && r.table == table
  {
    var candidates := UrltestCandidates(table, outbounds, ob, env);
    if candidates != [] {
      r := CandidateFor(table, outbounds, ob, env, v6);
      EnabledKeeps(candidates, env, r);
    } else {
      r := Unreachable(table, v6, UNREACHABLE_METRIC);
      EnabledKeeps(UnreachableRoutes(table), env, r);
    }
  }

  /** A usable selected child that carries the family has the only metric-zero entry. */
  lemma SelectedChildWins(table: nat, outbounds: seq<Outbound>, ob: Outbound, env: Env, v6: bool, r: RouteSpec)
    requires env.ipv6 || !v6
    requires SelectedChild(outbounds, ob, env).Some? && CarriesFamily(SelectedChild(outbounds, ob, env).value, v6, env)
    ensures var best := Entry(table, SelectedChild(outbounds, ob, env).value, env, 0, UNREACHABLE_METRIC, v6);
            && best in UrltestRoutes(table, outbounds, ob, env) && best.Via? && best.metric == 0
            && (r in UrltestRoutes(table, outbounds, ob, env) && r.v6 == v6 && r != best ==> r.metric > 0)
  {
    var sel := SelectedChild(outbounds, ob, env).value;
    var best := Entry(table, sel, env, 0, UNREACHABLE_METRIC, v6);
    var candidates := UrltestCandidates(table, outbounds, ob, env);
    CandidateMember(table, sel, env, 0, UNREACHABLE_METRIC, best);
    EnabledKeeps(candidates, env, best);
    if r in UrltestRoutes(table, outbounds, ob, env) && r.v6 == v6 && r != best {
      CandidateMember(table, sel, env, 0, UNREACHABLE_METRIC, r);
      if r !in CandidateRoutes(table, sel, env, 0, UNREACHABLE_METRIC) {
        ChildMetrics(table, OrderedChildren(outbounds, ob), env, 1, r);
      }
    }
  }

  /** Otherwise, when a selection exists, the first usable child in (weight, position)
      order has the only metric-one entry and nothing is lower. */
  lemma FirstChildWins(table: nat, outbounds: seq<Outbound>, ob: Outbound, env: Env, v6: bool, r: RouteSpec)
    requires (env.ipv6 || !v6) && Selection(ob, env) != ""
    requires SelectedChild(outbounds, ob, env).Some? ==>
             !CarriesFamily(SelectedChild(outbounds, ob, env).value, v6, env)
    requires FirstUsable(OrderedChildren(outbounds, ob), env).Some?
    ensures var best := Entry(table, FirstUsable(OrderedChildren(outbounds, ob), env).value, env, 1, 1, v6);
            && best in UrltestRoutes(table, outbounds, ob, env) && best.metric == 1
            && (r in UrltestRoutes(table, outbounds, ob, env) && r.v6 == v6 && r != best ==> r.metric > 1)
  {
    var children := OrderedChildren(outbounds, ob);
    var best := Entry(table, FirstUsable(children, env).value, env, 1, 1, v6);
    var candidates := UrltestCandidates(table, outbounds, ob, env);
    FirstChildListed(table, children, env, 1, v6);
    EnabledKeeps(candidates, env, best);
    if r in UrltestRoutes(table, outbounds, ob, env) && r.v6 == v6 && r != best {
      var selected := SelectedChild(outbounds, ob, env);
      if selected.Some? { CandidateMember(table, selected.value, env, 0, UNREACHABLE_METRIC, r); }
      if r in ChildRoutes(table, children, env, 1) { ChildMetrics(table, children, env, 1, r); }
    }
  }

  function OfWeight(w: int): Group -> bool { (g: Group) => g.weight == w }

  /** Child order is by group weight, equal weights keeping their position. */
  lemma GroupsByWeightThenPosition(groups: seq<Group>, w: int)
    ensures var sorted := Sort(groups, LighterGroup());
            && (forall i, j :: 0 <= i < j < |sorted| ==> sorted[i].weight <= sorted[j].weight)
            && multiset(sorted) == multiset(groups)
            && Filter(sorted, OfWeight(w)) == Filter(groups, OfWeight(w))
  {
    var sorted := Sort(groups, LighterGroup());
    SortSorts(groups, LighterGroup());
    SortStable(groups, LighterGroup(), OfWeight(w));
    forall i, j | 0 <= i < j < |sorted| ensures sorted[i].weight <= sorted[j].weight {
      assert LighterGroup()(sorted[i], sorted[j]);
    }
  }

  /** An interface table holds exactly one entry per enabled family while reachable. */
  lemma InterfaceTableCovered(outbounds: seq<Outbound>, ob: Outbound, env: Env, table: nat, r: RouteSpec)
    requires ob.kind == INTERFACE && env.reachable(ob) && (env.ipv6 || !r.v6)
    ensures r in RoutesOf(outbounds, ob, env, table) <==> r == Entry(table, ob, env, 0, UNREACHABLE_METRIC, r.v6)
  {
    EnabledKeeps(CandidateRoutes(table, ob, env, 0, UNREACHABLE_METRIC), env, r);
    CandidateMember(table, ob, env, 0, UNREACHABLE_METRIC, r);
  }

  // ---------------------------------------------------------------- from the configuration's fields

  /** `i` is the outbound a tag refers to. */
  ghost predicate RefersTo(outbounds: seq<Outbound>, tag: string, i: nat)
  {
    i < |outbounds| && outbounds[i].tag == tag && forall j :: 0 <= j < i ==> outbounds[j].tag != tag
  }

  lemma {:induction false} FoundAt(outbounds: seq<Outbound>, tag: string, i: nat)
    requires RefersTo(outbounds, tag, i)
    ensures FindOutbound(outbounds, tag) == Some(outbounds[i])
    decreases i
  {
    if i > 0 {
      assert outbounds[0].tag != tag;
      FoundAt(outbounds[1..], tag, i - 1);
    }
  }

  lemma {:induction false} FirstUsableAt(children: seq<Outbound>, env: Env, n: nat)
    requires n < |children| && children[n].kind == INTERFACE && env.reachable(children[n])
    requires forall m :: 0 <= m < n ==> !(children[m].kind == INTERFACE && env.reachable(children[m]))
    ensures FirstUsable(children, env) == Some(children[n])
    decreases n
  {
    if n > 0 {
      assert !UsableChild(children[0], env);
      FirstUsableAt(children[1..], env, n - 1);
    }
  }

  /** The selection decides: when a URLTEST outbound has selected an interface that is
      reachable and carries the family, its table's best entry goes out through that
      interface and gateway, and every other entry of the family has a higher metric. */
  lemma SelectionDecides(table: nat, outbounds: seq<Outbound>, ob: Outbound, env: Env, v6: bool, i: nat, r: RouteSpec)
    requires (v6 ==> env.ipv6) && ob.tag in env.selections && env.selections[ob.tag] != ""
    requires RefersTo(outbounds, env.selections[ob.tag], i)
    requires outbounds[i].kind == INTERFACE && env.reachable(outbounds[i])
    requires var o := outbounds[i];
             || (v6 && o.gateway6.Some?) || (!v6 && o.gateway.Some?)
             || (o.gateway.None? && o.gateway6.None? && env.carries(o, v6))
    ensures var o := outbounds[i];
            var best := Via(table, v6, 0, o.iface, if v6 then o.gateway6 else o.gateway);
            && best in UrltestRoutes(table, outbounds, ob, env)
            && (r in UrltestRoutes(table, outbounds, ob, env) && r.v6 == v6 && r != best ==> r.metric > 0)
  {
    hide UrltestRoutes;
    FoundAt(outbounds, env.selections[ob.tag], i);
    SelectedChildWins(table, outbounds, ob, env, v6, r);
  }

  /** Failover: when the selected outbound is not a reachable interface, the best entry of every
      enabled family is that of the first reachable interface among the children. */
  lemma FailoverDecides(table: nat, outbounds: seq<Outbound>, ob: Outbound, env: Env, v6: bool, i: nat, n: nat,
                        r: RouteSpec)
    requires (v6 ==> env.ipv6) && ob.tag in env.selections && env.selections[ob.tag] != ""
    requires RefersTo(outbounds, env.selections[ob.tag], i)
    requires !(outbounds[i].kind == INTERFACE && env.reachable(outbounds[i]))
    requires var children := OrderedChildren(outbounds, ob);
             && n < |children| && children[n].kind == INTERFACE && env.reachable(children[n])
             && (forall m :: 0 <= m < n ==> !(children[m].kind == INTERFACE && env.reachable(children[m])))
    ensures var c := OrderedChildren(outbounds, ob)[n];
            var carried := || (v6 && c.gateway6.Some?) || (!v6 && c.gateway.Some?)
                           || (c.gateway.None? && c.gateway6.None? && env.carries(c, v6));
            var best := if carried then Via(table, v6, 1, c.iface, if v6 then c.gateway6 else c.gateway)
                        else Unreachable(table, v6, 1);
            && best in UrltestRoutes(table, outbounds, ob, env)
            && (r in UrltestRoutes(table, outbounds, ob, env) && r.v6 == v6 && r != best ==> r.metric > 1)
  {
    hide UrltestRoutes, OrderedChildren;
    FoundAt(outbounds, env.selections[ob.tag], i);
    FirstUsableAt(OrderedChildren(outbounds, ob), env, n);
    FirstChildWins(table, outbounds, ob, env, v6, r);
  }

  /** The children of a URLTEST outbound are the outbounds its groups refer to. */
  lemma ChildrenAre(outbounds: seq<Outbound>, ob: Outbound, i: nat, g: Group)
    requires g in ob.groups && i < |outbounds| && outbounds[i].tag in g.outbounds
    requires RefersTo(outbounds, outbounds[i].tag, i)
    ensures outbounds[i] in OrderedChildren(outbounds, ob)
  {
    hide FlatMap;
    var sorted := Sort(ob.groups, LighterGroup());
    SameMembers(ob.groups, sorted);
    FoundAt(outbounds, outbounds[i].tag, i);
    assert outbounds[i] in ChildOf(outbounds)(outbounds[i].tag);
    FlatMapMember(g.outbounds, ChildOf(outbounds), outbounds[i]);
    FlatMapMember(sorted, GroupChildren(outbounds), outbounds[i]);
  }

  lemma ChildFrom(outbounds: seq<Outbound>, groups: seq<Group>, c: Outbound)
    requires c in FlatMap(groups, GroupChildren(outbounds))
    ensures exists g :: g in groups && c.tag in g.outbounds
  {
    hide FlatMap;
    FlatMapMember(groups, GroupChildren(outbounds), c);
    var g :| g in groups && c in GroupChildren(outbounds)(g);
    FlatMapMember(g.outbounds, ChildOf(outbounds), c);
  }

  lemma {:induction false} SplitAtWeight(groups: seq<Group>, w: int) returns (n: nat)
    requires forall i, j :: 0 <= i < j < |groups| ==> groups[i].weight <= groups[j].weight
    ensures n <= |groups|
    ensures (forall g :: g in groups[..n] ==> g.weight <= w) && forall g :: g in groups[n..] ==> g.weight > w
  {
    n := 0;
    while n < |groups| && groups[n].weight <= w
      invariant 0 <= n <= |groups| && forall j :: 0 <= j < n ==> groups[j].weight <= w
    {
      n := n + 1;
    }
  }

  /** Lighter groups come first: the children fall into those of the groups of weight up to `w`
      and, behind them, those of the heavier groups. */
  lemma LighterGroupsFirst(outbounds: seq<Outbound>, ob: Outbound, w: int)
    returns (front: seq<Outbound>, back: seq<Outbound>)
    ensures OrderedChildren(outbounds, ob) == front + back
    ensures forall c :: c in front ==> exists g :: g in ob.groups && g.weight <= w && c.tag in g.outbounds
    ensures forall c :: c in back ==> exists g :: g in ob.groups && g.weight > w && c.tag in g.outbounds
  {
    hide FlatMap, LighterGroup, GroupChildren, Sort;
    var sorted := Sort(ob.groups, LighterGroup());
    SameMembers(ob.groups, sorted);
    GroupsByWeightThenPosition(ob.groups, w);
    var n := SplitAtWeight(sorted, w);
    var light, heavy, f := sorted[..n], sorted[n..], GroupChildren(outbounds);
    front, back := FlatMap(light, f), FlatMap(heavy, f);
    assert sorted == light + heavy;
    FlatMapAppend(light, heavy, f);
    forall c | c in front ensures exists g :: g in ob.groups && g.weight <= w && c.tag in g.outbounds {
      ChildFrom(outbounds, light, c);
      var g :| g in light && c.tag in g.outbounds;
      assert g in sorted;
    }
    forall c | c in back ensures exists g :: g in ob.groups && g.weight > w && c.tag in g.outbounds {
      ChildFrom(outbounds, heavy, c);
      var g :| g in heavy && c.tag in g.outbounds;
      assert g in sorted;
    }
  }
}
