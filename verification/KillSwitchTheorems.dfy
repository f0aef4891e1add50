/** The kill switch stated on outbounds: for a configuration and the marks allocated to
    it, which outbounds are protected, exactly when they are, and how two outbounds of one
    tag or a detour at the end of the priority range lose the protection. */
module KillSwitchTheorems {
  import opened Common
  import opened ConfigTags
  import opened Bits
  import opened Ordering
  import opened Fwmark
  import opened RoutingPlan
  import opened KillSwitch

  // ---------------------------------------------------------------- marks of a configuration

  function Typed(outbounds: seq<Outbound>): seq<(string, OutboundType)>
  {
    Map(outbounds, (o: Outbound) => (o.tag, o.kind))
  }

  /** The planner's marks are what `AllocateOutboundMarks` returns for these outbounds. */
  ghost predicate Allocated(outbounds: seq<Outbound>, env: Env, start: nat)
  {
    && env.mask < U32 && start < U32 && Accepts(env.mask)
    && (TagsOf(Typed(outbounds)) == [] || 2 * |TagsOf(Typed(outbounds))| <= Capacity(env.mask))
    && env.marks == MarkMapOf(start, LowestBit(env.mask), SortedTags(Typed(outbounds)))
  }

  lemma {:induction false} TagsMember(outbounds: seq<Outbound>, o: Outbound)
    requires o in outbounds && Routable(o.kind)
    ensures o.tag in TagsOf(Typed(outbounds))
  {
    var typed := Typed(outbounds);
    assert typed[1..] == Typed(outbounds[1..]);
    if o != outbounds[0] {
      TagsMember(outbounds[1..], o);
    }
  }

  /** Every routable outbound has a mark of its own and one for its detours. */
  lemma RoutableMarked(outbounds: seq<Outbound>, env: Env, start: nat, o: Outbound)
    requires Allocated(outbounds, env, start) && o in outbounds && Routable(o.kind)
    ensures o.tag in env.marks && "__keen_pbr_internal_detour__:" + o.tag in env.marks
  {
    hide TagsOf, Typed, MarkMapOf, Tz, OddPart, AllF, Capacity, LowestBit;
    var tags := TagsOf(Typed(outbounds));
    TagsMember(outbounds, o);
    SameMembers(tags, Sort(tags, StringLe));
    MarkKeys(start, LowestBit(env.mask), Sort(tags, StringLe));
  }

  lemma MarksDistinct(outbounds: seq<Outbound>, env: Env, start: nat)
    requires Allocated(outbounds, env, start)
    ensures DistinctUnderMask(env.marks, env.mask)
  {
    hide TagsOf, Typed, MarkMapOf, Accepts, Capacity, LowestBit, DistinctUnderMask;
    AllocationDistinct(env.mask, start, SortedTags(Typed(outbounds)));
  }

  /** The i-th tag in name order gets the i-th pair of marks, counted from the start in steps
      of the mask's lowest bit, in 32-bit arithmetic. */
  lemma {:induction false} MarkByRank(start: nat, step: nat, tags: seq<string>, i: nat)
    requires i < |tags| && (forall t :: t in tags ==> ValidTag(t))
    requires forall j, k :: 0 <= j < k < |tags| ==> tags[j] != tags[k]
    ensures var marks, detour := MarkMapOf(start, step, tags), "__keen_pbr_internal_detour__:" + tags[i];
            && tags[i] in marks && marks[tags[i]] == (start + 2 * i * step) % 0x1_0000_0000
            && detour in marks && marks[detour] == (start + (2 * i + 1) * step) % 0x1_0000_0000
    decreases |tags|
  {
    hide ValidTag;
    var n := |tags| - 1;
    assert tags[n] in tags && tags[i] in tags;
    KeysApart(tags[n], tags[n]);
    KeysApart(tags[i], tags[n]);
    KeysApart(tags[n], tags[i]);
    if i < n { MarkByRank(start, step, tags[..n], i); }
  }

  // ---------------------------------------------------------------- guarded outbounds

  /** The table the plan gives to the outbound at position `i`. */
  function TableAt(sorted: seq<Outbound>, env: Env, i: nat): nat
    requires i < |sorted|
  {
    TableOf(sorted[i], env, PlanPrefix(sorted, env, i).tables)
  }

  lemma {:induction false} PrefixGrows(sorted: seq<Outbound>, env: Env, i: nat, n: nat)
    requires i <= n <= |sorted|
    ensures PlanPrefix(sorted, env, i).pairs <= PlanPrefix(sorted, env, n).pairs
    decreases n
  {
    if i < n { PrefixGrows(sorted, env, i, n - 1); }
  }

  /** How an outbound's pairs are laid out in the plan, from the configuration's fields: its
      own pair, guarded exactly for URLTEST and strict outbounds, and behind it a guarded
      pair for its detours exactly when something detours through it. */
  lemma PairsInPlan(sorted: seq<Outbound>, env: Env, i: nat) returns (k: nat)
    requires i < |sorted| && Routable(sorted[i].kind)
    requires sorted[i].tag in env.marks && "__keen_pbr_internal_detour__:" + sorted[i].tag in env.marks
    ensures var o, table, pairs := sorted[i], TableAt(sorted, env, i), PlanPrefix(sorted, env, |sorted|).pairs;
            var action := if o.blackhole == Some(true) || (o.blackhole == None && env.blackholeDefault)
                          then BlackholeRule else UnreachableRule;
            var strict := o.kind == URLTEST || o.strict == Some(true) || (o.strict == None && env.strictDefault);
            && k < |pairs| && pairs[k] == Pair(o.tag, table, if strict then Some(action) else None)
            && (o.tag in env.detours ==>
                  k + 1 < |pairs|
                  && pairs[k + 1] == Pair("__keen_pbr_internal_detour__:" + o.tag, table, Some(action)))
  {
    hide RoutesOf, TableOf;
    var before, here := PlanPrefix(sorted, env, i), PlanPrefix(sorted, env, i + 1);
    PrefixGrows(sorted, env, i + 1, |sorted|);
    assert here.pairs == before.pairs + PairsOf(sorted[i], env, TableAt(sorted, env, i));
    k := |before.pairs|;
  }

  /** A strict or URLTEST outbound, and one that something detours through, has its guarded
      pair in the plan, with its own table. */
  lemma ProtectedPair(sorted: seq<Outbound>, env: Env, i: nat, detour: bool) returns (k: nat)
    requires i < |sorted| && Routable(sorted[i].kind)
    requires if detour then sorted[i].tag in env.detours
             else || sorted[i].kind == URLTEST || sorted[i].strict == Some(true)
                  || (sorted[i].strict == None && env.strictDefault)
    requires sorted[i].tag in env.marks && "__keen_pbr_internal_detour__:" + sorted[i].tag in env.marks
    ensures var o, pairs := sorted[i], PlanPrefix(sorted, env, |sorted|).pairs;
            && k < |pairs|
            && pairs[k] == Pair(if detour then "__keen_pbr_internal_detour__:" + o.tag else o.tag,
                                TableAt(sorted, env, i),
                                Some(if o.blackhole == Some(true) || (o.blackhole == None && env.blackholeDefault)
                                     then BlackholeRule else UnreachableRule))
  {
    hide PlanPrefix, TableAt;
    k := PairsInPlan(sorted, env, i);
    if detour { k := k + 1; }
  }

  /** Which table an outbound uses: a TABLE outbound its configured one, any other a number
      outside the reserved ones. */
  lemma TableIsOwn(sorted: seq<Outbound>, env: Env, i: nat)
    requires i < |sorted|
    ensures var table := TableAt(sorted, env, i);
            if sorted[i].kind == TABLE then table == sorted[i].table
            else 0 < table < 32000 && table != 128 && !(250 <= table <= 260)
  {}

  lemma {:induction false} RoutesGrow(sorted: seq<Outbound>, env: Env, i: nat, n: nat)
    requires i <= n <= |sorted|
    ensures PlanPrefix(sorted, env, i).routes <= PlanPrefix(sorted, env, n).routes
    decreases n
  {
    hide RoutesOf, PairsOf, TableOf;
    if i < n { RoutesGrow(sorted, env, i, n - 1); }
  }

  /** The routes of an outbound are planned into the table its rules look up. */
  lemma RoutesInOwnTable(sorted: seq<Outbound>, env: Env, i: nat, r: RouteSpec)
    requires i < |sorted| && Planned(sorted[i], env) && r in RoutesOf(sorted, sorted[i], env, TableAt(sorted, env, i))
    ensures r in PlanPrefix(sorted, env, |sorted|).routes
  {
    hide RoutesOf, PairsOf, TableOf;
    RoutesGrow(sorted, env, i + 1, |sorted|);
    var before, mine := PlanPrefix(sorted, env, i), RoutesOf(sorted, sorted[i], env, TableAt(sorted, env, i));
    var here, all := PlanPrefix(sorted, env, i + 1).routes, PlanPrefix(sorted, env, |sorted|).routes;
    assert here == before.routes + mine;
    var j :| 0 <= j < |mine| && mine[j] == r;
    assert here[|before.routes| + j] == r;
    assert all[|before.routes| + j] == r;
  }

  /** An interface that is down: when it is strict its table holds exactly an unreachable
      default for every enabled family, otherwise nothing. */
  lemma DownInterfaceRoutes(sorted: seq<Outbound>, ob: Outbound, env: Env, table: nat, r: RouteSpec)
    requires ob.kind == INTERFACE && !env.reachable(ob)
    ensures r in RoutesOf(sorted, ob, env, table) <==>
            && (ob.strict == Some(true) || (ob.strict == None && env.strictDefault))
            && r == Unreachable(table, r.v6, 65535) && (r.v6 ==> env.ipv6)
  {}

  /** The planned rules; every key of a plan has a mark. */
  function PlannedRules(outbounds: seq<Outbound>, env: Env): seq<RuleSpec>
  {
    var sorted := Sort(outbounds, OutboundLe);
    PlanKeysMarked(sorted, env, |sorted|);
    Rules(PlanOf(outbounds, env).pairs, env)
  }

  predicate CarriesKey(env: Env, key: string, mark: nat)
  {
    key in env.marks && And(mark, env.mask) == And(env.marks[key], env.mask)
  }

  /** Kill switch. For every configuration with unique tags and its allocated marks, every
      URLTEST or strict outbound by its own mark and every routable outbound by its detour
      mark once something detours through it, every content of the routing tables, every
      enabled family and every order the kernel may keep equal priorities in: a packet with
      that mark takes a route of that outbound's own table or is blocked by its own guard. */
  lemma KillSwitchHolds(outbounds: seq<Outbound>, env: Env, start: nat, i: nat, detour: bool,
                        kernel: seq<RuleSpec>, tables: nat -> Option<nat>, mark: nat, v6: bool) returns (k: nat)
    requires UniqueTags(outbounds) && (forall o :: o in outbounds ==> ValidTag(o.tag))
    requires Allocated(outbounds, env, start)
    requires var o := Sort(outbounds, OutboundLe);
             && i < |outbounds| && (o[i].kind == INTERFACE || o[i].kind == TABLE || o[i].kind == URLTEST)
             && (if detour then o[i].tag in env.detours
                 else || o[i].kind == URLTEST || o[i].strict == Some(true)
                      || (o[i].strict == None && env.strictDefault))
             && CarriesKey(env, if detour then "__keen_pbr_internal_detour__:" + o[i].tag else o[i].tag, mark)
    requires EnabledFamily(env, v6) && Kept(kernel, PlannedRules(outbounds, env))
    ensures var o, table := Sort(outbounds, OutboundLe)[i], TableAt(Sort(outbounds, OutboundLe), env, i);
            && k < |PlanOf(outbounds, env).pairs|
            && Decide(kernel, tables, mark, v6) ==
               (if tables(table).Some? && !GuardWraps(env, k) then Routed(table, tables(table).value)
                else Blocked(if o.blackhole == Some(true) || (o.blackhole == None && env.blackholeDefault)
                             then BlackholeRule else UnreachableRule))
            && (o.kind == TABLE ==> table == o.table)
  {
    hide PlanPrefix, Rules, And, Decide, Allocated, Kept, TableAt, GuardWraps, DistinctUnderMask, ValidTag;
    var sorted := Sort(outbounds, OutboundLe);
    SameMembers(outbounds, sorted);
    assert sorted[i] in sorted;
    RoutableMarked(outbounds, env, start, sorted[i]);
    MarksDistinct(outbounds, env, start);
    k := ProtectedPair(sorted, env, i, detour);
    TableIsOwn(sorted, env, i);
    SortKeepsUniqueTags(outbounds);
    PlanKeys(sorted, env, |sorted|);
    PlanKeysMarked(sorted, env, |sorted|);
    GuardedMarkNeverLeaks(env, PlanOf(outbounds, env).pairs, k, kernel, tables, mark, v6);
  }

  lemma DecideLookup(env: Env, p: Pair, k: nat, tables: nat -> Option<nat>, mark: nat, v6: bool)
    requires p.key in env.marks && p.guard.None? && Carries(env, p, mark) && EnabledFamily(env, v6)
    ensures Decide(RulesOfPair(env, p, k), tables, mark, v6) ==
            if tables(p.table).Some? then Routed(p.table, tables(p.table).value) else FellThrough
  {
    hide And;
    var r := RulesOfPair(env, p, k);
    assert r[1..] == [];
  }

  /** The other side: an interface or table outbound that is not strict has no guard, and its
      packets fall through to the main table exactly when its own table has no route. */
  lemma LaxOutboundFallsThrough(outbounds: seq<Outbound>, env: Env, start: nat, i: nat,
                                kernel: seq<RuleSpec>, tables: nat -> Option<nat>, mark: nat, v6: bool)
    requires UniqueTags(outbounds) && (forall o :: o in outbounds ==> ValidTag(o.tag))
    requires Allocated(outbounds, env, start)
    requires var o := Sort(outbounds, OutboundLe);
             && i < |outbounds| && (o[i].kind == INTERFACE || o[i].kind == TABLE)
             && (o[i].strict == Some(false) || (o[i].strict == None && !env.strictDefault))
             && CarriesKey(env, o[i].tag, mark)
    requires EnabledFamily(env, v6) && Kept(kernel, PlannedRules(outbounds, env))
    ensures var table := TableAt(Sort(outbounds, OutboundLe), env, i);
            Decide(kernel, tables, mark, v6) ==
            if tables(table).Some? then Routed(table, tables(table).value) else FellThrough
  {
    hide PlanPrefix, Rules, And, Decide, Allocated, TableAt, GuardWraps, DistinctUnderMask, ValidTag, Filter;
    var sorted, pairs := Sort(outbounds, OutboundLe), PlanOf(outbounds, env).pairs;
    SameMembers(outbounds, sorted);
    assert sorted[i] in sorted;
    RoutableMarked(outbounds, env, start, sorted[i]);
    MarksDistinct(outbounds, env, start);
    var k := PairsInPlan(sorted, env, i);
    SortKeepsUniqueTags(outbounds);
    PlanKeys(sorted, env, |sorted|);
    PlanKeysMarked(sorted, env, |sorted|);
    var keep := MatchesPacket(mark, v6);
    DecideFiltered(kernel, tables, mark, v6);
    FilterSameElements(kernel, Rules(pairs, env), keep);
    OnlyOwnPair(env, pairs, k, mark, v6);
    OneInOrder(Filter(kernel, keep), RulesOfPair(env, pairs[k], k));
    DecideLookup(env, pairs[k], k, tables, mark, v6);
  }

  lemma OneInOrder(s: seq<RuleSpec>, t: seq<RuleSpec>)
    requires multiset(s) == multiset(t) && |t| == 1
    ensures s == t
  {
    assert |s| == |multiset(s)| == |multiset(t)| == 1;
    assert s[0] in multiset(t);
  }

  // ---------------------------------------------------------------- the exact condition

  function PairDecision(p: Pair, tables: nat -> Option<nat>): Decision
  {
    if tables(p.table).Some? then Routed(p.table, tables(p.table).value)
    else if p.guard.Some? then Blocked(p.guard.value)
    else FellThrough
  }

  /** What the pairs of one key decide, in plan order. */
  function Walk(pairs: seq<Pair>, key: string, tables: nat -> Option<nat>): Decision
  {
    if pairs == [] then FellThrough
    else
      var n := |pairs| - 1;
      var before := Walk(pairs[..n], key, tables);
      if before != FellThrough || pairs[n].key != key then before else PairDecision(pairs[n], tables)
  }

  ghost predicate GuardsBlock(pairs: seq<Pair>)
  {
    forall p :: p in pairs && p.guard.Some? ==> p.guard.value != Lookup
  }

  /** The priorities of `n` pairs fit below the end of the range. */
  predicate Fits(env: Env, n: nat) { env.priorityStart + 2 * n <= U32 }

  ghost predicate Ascending(rules: seq<RuleSpec>)
  {
    forall i, j :: 0 <= i < j < |rules| ==> rules[i].priority < rules[j].priority
  }

  lemma PairAscends(env: Env, p: Pair, n: nat)
    requires p.key in env.marks && Fits(env, n + 1)
    ensures var last := RulesOfPair(env, p, n);
            && Ascending(last)
            && (forall r :: r in last ==> env.priorityStart + 2 * n <= r.priority < env.priorityStart + 2 * n + 2)
  {
    assert PriorityAt(env, n) == env.priorityStart + 2 * n;
  }

  lemma AscendAppend(a: seq<RuleSpec>, b: seq<RuleSpec>, bound: nat)
    requires Ascending(a) && Ascending(b)
    requires (forall r :: r in a ==> r.priority < bound) && forall r :: r in b ==> bound <= r.priority
    ensures Ascending(a + b)
  {}

  lemma {:induction false} RulesAscend(pairs: seq<Pair>, env: Env)
    requires KeysMarked(pairs, env) && Fits(env, |pairs|)
    ensures Ascending(Rules(pairs, env))
    ensures forall r :: r in Rules(pairs, env) ==> r.priority < env.priorityStart + 2 * |pairs|
    decreases |pairs|
  {
    hide RulesOfPair, Ascending;
    if pairs != [] {
      var n := |pairs| - 1;
      RulesAscend(pairs[..n], env);
      PairAscends(env, pairs[n], n);
      AscendAppend(Rules(pairs[..n], env), RulesOfPair(env, pairs[n], n), env.priorityStart + 2 * n);
    } else {
      NothingAscends();
    }
  }

  lemma NothingAscends()
    ensures Ascending([])
  {}

  /** Without wrap-around the kernel keeps the rules in plan order. */
  lemma KernelKeepsPlanOrder(pairs: seq<Pair>, env: Env, kernel: seq<RuleSpec>)
    requires KeysMarked(pairs, env) && Fits(env, |pairs|) && Kept(kernel, Rules(pairs, env))
    ensures kernel == Rules(pairs, env)
  {
    hide Rules, KeysMarked, Fits;
    var rules := Rules(pairs, env);
    RulesAscend(pairs, env);
    SortedUnique(rules, kernel, ByPriority);
  }

  lemma {:induction false} DecideAppend(a: seq<RuleSpec>, b: seq<RuleSpec>, tables: nat -> Option<nat>, mark: nat,
                                        v6: bool)
    ensures Decide(a + b, tables, mark, v6) ==
            (var first := Decide(a, tables, mark, v6);
             if first != FellThrough then first else Decide(b, tables, mark, v6))
  {
    hide RuleMatches;
    if a == [] {
      assert a + b == b;
    } else {
      assert (a + b)[1..] == a[1..] + b;
      DecideAppend(a[1..], b, tables, mark, v6);
    }
  }

  lemma DecideOnePair(env: Env, p: Pair, k: nat, key: string, tables: nat -> Option<nat>, mark: nat, v6: bool)
    requires p.key in env.marks && (p.guard.Some? ==> p.guard.value != Lookup)
    requires DistinctUnderMask(env.marks, env.mask) && CarriesKey(env, key, mark) && EnabledFamily(env, v6)
    ensures Decide(RulesOfPair(env, p, k), tables, mark, v6) ==
            if p.key == key then PairDecision(p, tables) else FellThrough
  {
    hide And;
    var r := RulesOfPair(env, p, k);
    assert p.key != key ==> And(mark, env.mask) != And(env.marks[p.key], env.mask);
    if p.guard.Some? {
      assert r[1..] == [r[1]];
      assert Decide([r[1]], tables, mark, v6) == if p.key == key then Blocked(p.guard.value) else FellThrough;
    } else {
      assert r[1..] == [];
    }
  }

  /** The kernel's decision is the walk over the pairs of the packet's key. */
  lemma {:induction false} DecideIsWalk(env: Env, pairs: seq<Pair>, key: string, tables: nat -> Option<nat>,
                                        mark: nat, v6: bool)
    requires KeysMarked(pairs, env) && GuardsBlock(pairs)
    requires DistinctUnderMask(env.marks, env.mask) && CarriesKey(env, key, mark) && EnabledFamily(env, v6)
    ensures Decide(Rules(pairs, env), tables, mark, v6) == Walk(pairs, key, tables)
    decreases |pairs|
  {
    hide And, RulesOfPair, DistinctUnderMask, CarriesKey, Decide;
    if pairs == [] {
      DecideNothing(tables, mark, v6);
    } else {
      var n := |pairs| - 1;
      DecideIsWalk(env, pairs[..n], key, tables, mark, v6);
      DecideAppend(Rules(pairs[..n], env), RulesOfPair(env, pairs[n], n), tables, mark, v6);
      assert pairs[n] in pairs;
      DecideOnePair(env, pairs[n], n, key, tables, mark, v6);
    }
  }

  lemma DecideNothing(tables: nat -> Option<nat>, mark: nat, v6: bool)
    ensures Decide([], tables, mark, v6) == FellThrough
  {}

  lemma {:induction false} WalkStays(pairs: seq<Pair>, n: nat, key: string, tables: nat -> Option<nat>)
    requires n <= |pairs| && Walk(pairs[..n], key, tables) != FellThrough
    ensures Walk(pairs, key, tables) == Walk(pairs[..n], key, tables)
    decreases |pairs|
  {
    if n == |pairs| {
      assert pairs[..n] == pairs;
    } else {
      var m := |pairs| - 1;
      assert pairs[..m][..n] == pairs[..n];
      WalkStays(pairs[..m], n, key, tables);
    }
  }

  /** No pair of this key before position `j` ends the walk with a guard. */
  ghost predicate Unguarded(pairs: seq<Pair>, key: string, j: nat)
    requires j <= |pairs|
  {
    forall i :: 0 <= i < j && pairs[i].key == key ==> pairs[i].guard.None?
  }

  /** An earlier pair of the same key that the walk reaches and that looks into another
      table or ends the walk with another guard. */
  ghost predicate Shadows(pairs: seq<Pair>, j: nat, k: nat)
    requires j < k < |pairs|
  {
    && pairs[j].key == pairs[k].key && Unguarded(pairs, pairs[k].key, j)
    && (pairs[j].table != pairs[k].table || (pairs[j].guard.Some? && pairs[j].guard != pairs[k].guard))
  }

  predicate OwnDecision(d: Decision, p: Pair)
  {
    (d.Routed? && d.table == p.table) || (d.Blocked? && p.guard == Some(d.action))
  }

  lemma {:induction false} WalkBefore(pairs: seq<Pair>, k: nat, n: nat, tables: nat -> Option<nat>)
    requires k < |pairs| && n <= k && forall j: nat :: j < k ==> !Shadows(pairs, j, k)
    ensures var d := Walk(pairs[..n], pairs[k].key, tables);
            OwnDecision(d, pairs[k]) || (d == FellThrough && Unguarded(pairs, pairs[k].key, n))
    decreases n
  {
    if n > 0 {
      WalkBefore(pairs, k, n - 1, tables);
      assert pairs[..n][..n - 1] == pairs[..n - 1];
      assert !Shadows(pairs, n - 1, k);
    }
  }

  function OnlyTable(table: nat): nat -> Option<nat> { t => if t == table then Some(0) else None }

  lemma {:induction false} WalkToShadow(pairs: seq<Pair>, key: string, n: nat, table: nat)
    requires n <= |pairs| && Unguarded(pairs, key, n)
    ensures Walk(pairs[..n], key, OnlyTable(table)) in {FellThrough, Routed(table, 0)}
    decreases n
  {
    if n > 0 {
      WalkToShadow(pairs, key, n - 1, table);
      assert pairs[..n][..n - 1] == pairs[..n - 1];
    }
  }

  lemma {:induction false} WalkNoTables(pairs: seq<Pair>, key: string, n: nat)
    requires n <= |pairs| && Unguarded(pairs, key, n)
    ensures Walk(pairs[..n], key, _ => None) == FellThrough
    decreases n
  {
    if n > 0 {
      WalkNoTables(pairs, key, n - 1);
      assert pairs[..n][..n - 1] == pairs[..n - 1];
    }
  }

  /** A shadowed pair has table contents under which its packets are decided elsewhere. */
  lemma ShadowDecides(pairs: seq<Pair>, j: nat, k: nat) returns (tables: nat -> Option<nat>)
    requires j < k < |pairs| && Shadows(pairs, j, k)
    ensures !OwnDecision(Walk(pairs, pairs[k].key, tables), pairs[k])
  {
    var q, key := pairs[j], pairs[k].key;
    assert pairs[..j + 1][..j] == pairs[..j];
    if q.table != pairs[k].table {
      tables := OnlyTable(q.table);
      WalkToShadow(pairs, key, j, q.table);
    } else {
      tables := _ => None;
      WalkNoTables(pairs, key, j);
    }
    WalkStays(pairs, j + 1, key, tables);
  }

  lemma UnshadowedOwn(pairs: seq<Pair>, k: nat, tables: nat -> Option<nat>)
    requires k < |pairs| && pairs[k].guard.Some? && forall j: nat :: j < k ==> !Shadows(pairs, j, k)
    ensures OwnDecision(Walk(pairs, pairs[k].key, tables), pairs[k])
  {
    WalkBefore(pairs, k, k, tables);
    assert pairs[..k + 1][..k] == pairs[..k];
    WalkStays(pairs, k + 1, pairs[k].key, tables);
  }

  ghost predicate AlwaysOwn(rules: seq<RuleSpec>, mark: nat, v6: bool, p: Pair)
  {
    forall tables: nat -> Option<nat> :: OwnDecision(Decide(rules, tables, mark, v6), p)
  }

  lemma OneTableEnough(rules: seq<RuleSpec>, tables: nat -> Option<nat>, mark: nat, v6: bool, p: Pair)
    requires !OwnDecision(Decide(rules, tables, mark, v6), p)
    ensures !AlwaysOwn(rules, mark, v6, p)
  {}

  /** For any plan, unique tags or not: a guarded pair decides its own packets for every
      content of the tables if and only if no earlier pair of its key shadows it. */
  lemma KillSwitchExactly(env: Env, pairs: seq<Pair>, k: nat, kernel: seq<RuleSpec>, mark: nat, v6: bool)
    requires KeysMarked(pairs, env) && GuardsBlock(pairs) && Fits(env, |pairs|)
    requires DistinctUnderMask(env.marks, env.mask) && EnabledFamily(env, v6)
    requires k < |pairs| && pairs[k].guard.Some? && CarriesKey(env, pairs[k].key, mark)
    requires Kept(kernel, Rules(pairs, env))
    ensures AlwaysOwn(kernel, mark, v6, pairs[k]) <==> forall j: nat :: j < k ==> !Shadows(pairs, j, k)
  {
    hide And, Rules, RuleMatches, Kept, Walk, DistinctUnderMask, CarriesKey, Shadows;
    KernelKeepsPlanOrder(pairs, env, kernel);
    var key := pairs[k].key;
    forall tables: nat -> Option<nat> ensures Decide(kernel, tables, mark, v6) == Walk(pairs, key, tables) {
      DecideIsWalk(env, pairs, key, tables, mark, v6);
    }
    if forall j: nat :: j < k ==> !Shadows(pairs, j, k) {
      forall tables: nat -> Option<nat> ensures OwnDecision(Decide(kernel, tables, mark, v6), pairs[k]) {
        UnshadowedOwn(pairs, k, tables);
      }
    } else {
      var j: nat :| j < k && Shadows(pairs, j, k);
      var tables := ShadowDecides(pairs, j, k);
      OneTableEnough(kernel, tables, mark, v6, pairs[k]);
    }
  }

  // ---------------------------------------------------------------- one tag, two outbounds

  lemma {:induction false} PlanKeyOwners(sorted: seq<Outbound>, env: Env, n: nat, tag: string)
    requires n <= |sorted| && ValidTag(tag) && forall i :: 0 <= i < n ==> sorted[i].tag != tag
    ensures forall p :: p in PlanPrefix(sorted, env, n).pairs ==> p.key != tag
    decreases n
  {
    hide ValidTag, DetourKey, RoutesOf, TableOf;
    if n > 0 {
      PlanKeyOwners(sorted, env, n - 1, tag);
      KeysApart(tag, sorted[n - 1].tag);
    }
  }

  lemma {:induction false} PlanGuards(sorted: seq<Outbound>, env: Env, n: nat)
    requires n <= |sorted|
    ensures GuardsBlock(PlanPrefix(sorted, env, n).pairs)
  {
    hide DetourKey, RoutesOf, TableOf;
    if n > 0 { PlanGuards(sorted, env, n - 1); }
  }

  lemma {:induction false} WalkSilent(pairs: seq<Pair>, key: string, tables: nat -> Option<nat>)
    requires forall p :: p in pairs ==> p.key != key
    ensures Walk(pairs, key, tables) == FellThrough
    decreases |pairs|
  {
    if pairs != [] { WalkSilent(pairs[..|pairs| - 1], key, tables); }
  }

  lemma WalkFirstOutbound(sorted: seq<Outbound>, env: Env, i: nat)
    requires i < |sorted| && Planned(sorted[i], env) && ValidTag(sorted[i].tag)
    requires forall h :: 0 <= h < i ==> sorted[h].tag != sorted[i].tag
    ensures var table := TableAt(sorted, env, i);
            Walk(PlanPrefix(sorted, env, |sorted|).pairs, sorted[i].tag, OnlyTable(table)) == Routed(table, 0)
  {
    hide RoutesOf, DetourKey, TableOf, ValidTag;
    var tag, table := sorted[i].tag, TableAt(sorted, env, i);
    var before, pairs := PlanPrefix(sorted, env, i).pairs, PlanPrefix(sorted, env, |sorted|).pairs;
    PlanKeyOwners(sorted, env, i, tag);
    WalkSilent(before, tag, OnlyTable(table));
    PrefixGrows(sorted, env, i + 1, |sorted|);
    var more := PairsOf(sorted[i], env, table);
    assert PlanPrefix(sorted, env, i + 1).pairs == before + more;
    var n := |before|;
    assert pairs[..n + 1] == before + [more[0]] && (before + [more[0]])[..n] == before;
    WalkStays(pairs, n + 1, tag, OnlyTable(table));
  }

  /** Unique tags are needed. When two planned outbounds share a tag and have different
      tables, some table contents send the second one's packets out through the first
      one's table, past the second one's own guard. */
  lemma SharedTagUsesFirstTable(outbounds: seq<Outbound>, env: Env, start: nat, i: nat, j: nat,
                                kernel: seq<RuleSpec>, mark: nat, v6: bool)
    requires Allocated(outbounds, env, start) && (forall o :: o in outbounds ==> ValidTag(o.tag))
    requires Fits(env, |PlanOf(outbounds, env).pairs|) && i < j < |outbounds|
    requires var sorted := Sort(outbounds, OutboundLe);
             && sorted[i].tag == sorted[j].tag && Routable(sorted[i].kind) && Routable(sorted[j].kind)
             && (forall h :: 0 <= h < i ==> sorted[h].tag != sorted[i].tag)
             && TableAt(sorted, env, i) != TableAt(sorted, env, j)
             && CarriesKey(env, sorted[j].tag, mark)
    requires EnabledFamily(env, v6) && Kept(kernel, PlannedRules(outbounds, env))
    ensures var table := TableAt(Sort(outbounds, OutboundLe), env, i);
            && Decide(kernel, OnlyTable(table), mark, v6) == Routed(table, 0)
            && OnlyTable(table)(TableAt(Sort(outbounds, OutboundLe), env, j)) == None
  {
    hide PlanPrefix, Rules, And, Decide, Allocated, Kept, TableAt, DistinctUnderMask, ValidTag, Walk;
    var sorted := Sort(outbounds, OutboundLe);
    SameMembers(outbounds, sorted);
    assert sorted[i] in sorted;
    RoutableMarked(outbounds, env, start, sorted[i]);
    MarksDistinct(outbounds, env, start);
    PlanKeysMarked(sorted, env, |sorted|);
    PlanGuards(sorted, env, |sorted|);
    var pairs, tag, table := PlanOf(outbounds, env).pairs, sorted[i].tag, TableAt(sorted, env, i);
    KernelKeepsPlanOrder(pairs, env, kernel);
    DecideIsWalk(env, pairs, tag, OnlyTable(table), mark, v6);
    WalkFirstOutbound(sorted, env, i);
  }

  // ---------------------------------------------------------------- the validated range

  /** What the configuration validator asks of the first rule priority. */
  predicate StartAdmitted(env: Env, routable: nat)
  {
    0 < env.priorityStart < U32 && routable <= (U32 - 1 - env.priorityStart) / 2
  }

  lemma SortOne(o: Outbound)
    ensures Sort([o], OutboundLe) == [o]
  {
    var s := Sort([o], OutboundLe);
    SameMembers([o], s);
    assert |s| == |multiset(s)| == |multiset([o])| == 1;
    assert s[0] in s;
  }

  /** The validator counts one pair per outbound, yet a detour adds a second. One outbound
      with a detour and a start the validator admits: the detour's guard wraps to priority
      0, precedes its lookup, and blocks the detour whatever its table holds. */
  lemma ValidatedStartStillWraps(o: Outbound, env: Env, start: nat, kernel: seq<RuleSpec>,
                                 tables: nat -> Option<nat>, mark: nat, v6: bool)
    requires Routable(o.kind) && ValidTag(o.tag) && o.tag in env.detours
    requires Allocated([o], env, start) && env.priorityStart == U32 - 3
    requires CarriesKey(env, "__keen_pbr_internal_detour__:" + o.tag, mark) && EnabledFamily(env, v6)
    requires Kept(kernel, PlannedRules([o], env))
    ensures StartAdmitted(env, 1)
    ensures Decide(kernel, tables, mark, v6).Blocked?
  {
    hide RoutesOf, Rules, And, Decide, Allocated, Kept, TableOf, DistinctUnderMask, ValidTag;
    SortOne(o);
    RoutableMarked([o], env, start, o);
    MarksDistinct([o], env, start);
    PlanKeys([o], env, 1);
    PlanKeysMarked([o], env, 1);
    var pairs := PlanOf([o], env).pairs;
    OneOutboundPlan(o, env);
    assert PriorityAt(env, 1) == U32 - 1;
    GuardedMarkNeverLeaks(env, pairs, 1, kernel, tables, mark, v6);
  }

  lemma OneOutboundPlan(o: Outbound, env: Env)
    requires Planned(o, env)
    ensures PlanPrefix([o], env, 1).pairs == PairsOf(o, env, TableOf(o, env, 0))
  {
    assert PlanPrefix([o], env, 0).pairs == [];
  }
}
