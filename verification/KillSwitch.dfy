/** The kill switch: how the kernel walks the planned policy rules for a marked
    packet, and why a guarded mark can only use its own table or be blocked. */
module KillSwitch {
  import opened Common
  import opened ConfigTags
  import opened Bits
  import opened Ordering
  import opened Fwmark
  import opened RoutingPlan

  // ---------------------------------------------------------------- the kernel's rule walk

  datatype Decision = Routed(table: nat, route: nat) | Blocked(action: RuleAction) | FellThrough

  /** Rules select by the masked mark; a rule without a family applies to both. */
  predicate RuleMatches(r: RuleSpec, mark: nat, v6: bool)
  {
    And(mark, r.mask) == And(r.mark, r.mask) && (r.v4Only ==> !v6)
  }

  function MatchesPacket(mark: nat, v6: bool): RuleSpec -> bool { (r: RuleSpec) => RuleMatches(r, mark, v6) }

  /** Walks rules in the given order. `tables` is whatever the routing tables hold for
      the packet at that moment: a table without a route passes on to the next rule. */
  function Decide(rules: seq<RuleSpec>, tables: nat -> Option<nat>, mark: nat, v6: bool): Decision
  {
    if rules == [] then FellThrough
    else if !RuleMatches(rules[0], mark, v6) then Decide(rules[1..], tables, mark, v6)
    else if rules[0].action != Lookup then Blocked(rules[0].action)
    else
      match tables(rules[0].table)
      case Some(route) => Routed(rules[0].table, route)
      case None => Decide(rules[1..], tables, mark, v6)
  }

  predicate ByPriority(a: RuleSpec, b: RuleSpec) { a.priority <= b.priority }

  /** The rules as the kernel keeps them: the same rules, in priority order. */
  ghost predicate Kept(kernel: seq<RuleSpec>, planned: seq<RuleSpec>)
  {
    multiset(kernel) == multiset(planned) && Sorted(kernel, ByPriority)
  }

  // ---------------------------------------------------------------- only matching rules count

  lemma {:induction false} DecideFiltered(rules: seq<RuleSpec>, tables: nat -> Option<nat>, mark: nat, v6: bool)
    ensures Decide(rules, tables, mark, v6) ==
            Decide(Filter(rules, MatchesPacket(mark, v6)), tables, mark, v6)
  {
    hide RuleMatches;
    if rules != [] {
      DecideFiltered(rules[1..], tables, mark, v6);
      var rest := Filter(rules[1..], MatchesPacket(mark, v6));
      assert ([rules[0]] + rest)[1..] == rest && [] + rest == rest;
    }
  }

  lemma {:induction false} FilterCount<T(!new)>(s: seq<T>, keep: T -> bool, x: T)
    ensures multiset(Filter(s, keep))[x] == if keep(x) then multiset(s)[x] else 0
  {
    if s != [] {
      FilterCount(s[1..], keep, x);
      assert s == [s[0]] + s[1..];
      assert multiset(s) == multiset([s[0]]) + multiset(s[1..]);
      var head := if keep(s[0]) then [s[0]] else [];
      assert multiset(head + Filter(s[1..], keep)) == multiset(head) + multiset(Filter(s[1..], keep));
    }
  }

  lemma FilterSameElements<T(!new)>(s: seq<T>, t: seq<T>, keep: T -> bool)
    requires multiset(s) == multiset(t)
    ensures multiset(Filter(s, keep)) == multiset(Filter(t, keep))
  {
    forall x ensures multiset(Filter(s, keep))[x] == multiset(Filter(t, keep))[x] {
      FilterCount(s, keep, x);
      FilterCount(t, keep, x);
    }
  }

  lemma {:induction false} FilterSorted(s: seq<RuleSpec>, keep: RuleSpec -> bool)
    requires Sorted(s, ByPriority)
    ensures Sorted(Filter(s, keep), ByPriority)
  {
    if s != [] {
      var rest := s[1..];
      FilterSorted(rest, keep);
      forall i | 0 <= i < |Filter(rest, keep)| ensures ByPriority(s[0], Filter(rest, keep)[i]) {
        assert Filter(rest, keep)[i] in rest;
      }
    }
  }

  lemma TwoInOrder(s: seq<RuleSpec>, a: RuleSpec, b: RuleSpec)
    requires multiset(s) == multiset{a, b} && Sorted(s, ByPriority) && a.priority < b.priority
    ensures s == [a, b]
  {
    assert |s| == |multiset(s)| == 2;
    assert multiset(s) == multiset{s[0], s[1]} by { assert s == [s[0], s[1]]; }
    assert s[0] in multiset{a, b} && s[1] in multiset{a, b};
    assert a in multiset{s[0], s[1]} && b in multiset{s[0], s[1]};
    assert ByPriority(s[0], s[1]);
  }

  // ---------------------------------------------------------------- the planned rules

  ghost predicate DistinctKeys(pairs: seq<Pair>)
  {
    forall i, j :: 0 <= i < j < |pairs| ==> pairs[i].key != pairs[j].key
  }

  /** Enabled families: IPv4, and IPv6 unless it is switched off. */
  predicate EnabledFamily(env: Env, v6: bool) { env.ipv6 || !v6 }

  predicate Carries(env: Env, p: Pair, mark: nat)
    requires p.key in env.marks
  {
    And(mark, env.mask) == And(env.marks[p.key], env.mask)
  }

  lemma OtherPairSilent(env: Env, p: Pair, q: Pair, k: nat, mark: nat, v6: bool)
    requires p.key in env.marks && q.key in env.marks && p.key != q.key
    requires DistinctUnderMask(env.marks, env.mask) && Carries(env, p, mark)
    ensures Filter(RulesOfPair(env, q, k), MatchesPacket(mark, v6)) == []
  {
    var rules := RulesOfPair(env, q, k);
    forall r | r in rules ensures !MatchesPacket(mark, v6)(r) {
      assert r.mark == env.marks[q.key] && r.mask == env.mask;
    }
    FilterNone(rules, MatchesPacket(mark, v6));
  }

  /** Among all planned rules a mark matches exactly its own pair. */
  lemma {:induction false} OnlyOwnPair(env: Env, pairs: seq<Pair>, k: nat, mark: nat, v6: bool)
    requires KeysMarked(pairs, env) && DistinctKeys(pairs) && DistinctUnderMask(env.marks, env.mask)
    requires k < |pairs| && Carries(env, pairs[k], mark) && EnabledFamily(env, v6)
    ensures Filter(Rules(pairs, env), MatchesPacket(mark, v6)) == RulesOfPair(env, pairs[k], k)
    decreases |pairs|
  {
    hide And, RulesOfPair, Filter;
    var n := |pairs| - 1;
    var head, last := pairs[..n], RulesOfPair(env, pairs[n], n);
    FilterAppend(Rules(head, env), last, MatchesPacket(mark, v6));
    if k == n {
      OthersSilent(env, head, pairs[k], mark, v6);
      OwnPairMatches(env, pairs[k], k, mark, v6);
    } else {
      OnlyOwnPair(env, head, k, mark, v6);
      OtherPairSilent(env, pairs[k], pairs[n], n, mark, v6);
    }
  }

  lemma OwnPairMatches(env: Env, p: Pair, k: nat, mark: nat, v6: bool)
    requires p.key in env.marks && Carries(env, p, mark) && EnabledFamily(env, v6)
    ensures Filter(RulesOfPair(env, p, k), MatchesPacket(mark, v6)) == RulesOfPair(env, p, k)
  {
    hide And;
    FilterAll(RulesOfPair(env, p, k), MatchesPacket(mark, v6));
  }

  lemma {:induction false} OthersSilent(env: Env, pairs: seq<Pair>, p: Pair, mark: nat, v6: bool)
    requires KeysMarked(pairs, env) && p.key in env.marks && (forall q :: q in pairs ==> q.key != p.key)
    requires DistinctUnderMask(env.marks, env.mask) && Carries(env, p, mark)
    ensures Filter(Rules(pairs, env), MatchesPacket(mark, v6)) == []
    decreases |pairs|
  {
    if pairs != [] {
      var n := |pairs| - 1;
      FilterAppend(Rules(pairs[..n], env), RulesOfPair(env, pairs[n], n), MatchesPacket(mark, v6));
      OthersSilent(env, pairs[..n], p, mark, v6);
      OtherPairSilent(env, p, pairs[n], n, mark, v6);
    }
  }

  /** The one pair whose guard wraps to priority 0 and so precedes its lookup. */
  predicate GuardWraps(env: Env, k: nat) { PriorityAt(env, k) == U32 - 1 }

  lemma DecidePair(env: Env, p: Pair, k: nat, tables: nat -> Option<nat>, mark: nat, v6: bool)
    requires p.key in env.marks && p.guard.Some? && p.guard.value != Lookup
    requires Carries(env, p, mark) && EnabledFamily(env, v6)
    ensures var r := RulesOfPair(env, p, k);
            && Decide(r, tables, mark, v6) ==
               (if tables(p.table).Some? then Routed(p.table, tables(p.table).value) else Blocked(p.guard.value))
            && Decide([r[1], r[0]], tables, mark, v6) == Blocked(p.guard.value)
  {
    hide And;
    var r := RulesOfPair(env, p, k);
    assert r[1..] == [r[1]];
    assert Decide(r, tables, mark, v6) ==
           if tables(p.table).Some? then Routed(p.table, tables(p.table).value) else Decide([r[1]], tables, mark, v6);
  }

  /** For every configuration, every content of the routing tables and every enabled
      family: a packet carrying a guarded mark takes a route in its own table or is
      blocked by its guard. No other mark's table is consulted and the packet never
      falls past the planned rules. */
  lemma GuardedMarkNeverLeaks(env: Env, pairs: seq<Pair>, k: nat, kernel: seq<RuleSpec>,
                              tables: nat -> Option<nat>, mark: nat, v6: bool)
    requires KeysMarked(pairs, env) && DistinctKeys(pairs) && DistinctUnderMask(env.marks, env.mask)
    requires k < |pairs| && pairs[k].guard.Some? && pairs[k].guard.value != Lookup
    requires Carries(env, pairs[k], mark) && EnabledFamily(env, v6)
    requires Kept(kernel, Rules(pairs, env))
    ensures Decide(kernel, tables, mark, v6) ==
            if tables(pairs[k].table).Some? && !GuardWraps(env, k)
            then Routed(pairs[k].table, tables(pairs[k].table).value)
            else Blocked(pairs[k].guard.value)
  {
    hide And, Rules, Decide, Filter;
    var own := RulesOfPair(env, pairs[k], k);
    var keep := MatchesPacket(mark, v6);
    DecideFiltered(kernel, tables, mark, v6);
    FilterSameElements(kernel, Rules(pairs, env), keep);
    FilterSorted(kernel, keep);
    OnlyOwnPair(env, pairs, k, mark, v6);
    assert own == [own[0], own[1]];
    assert multiset(own) == multiset{own[0], own[1]} == multiset{own[1], own[0]};
    DecidePair(env, pairs[k], k, tables, mark, v6);
    if GuardWraps(env, k) {
      TwoInOrder(Filter(kernel, keep), own[1], own[0]);
    } else {
      TwoInOrder(Filter(kernel, keep), own[0], own[1]);
    }
  }

  /** A guarded mark can reach its own routes exactly when its guard does not wrap. */
  lemma RoutesUsableExactly(env: Env, pairs: seq<Pair>, k: nat, kernel: seq<RuleSpec>, mark: nat, v6: bool)
    requires KeysMarked(pairs, env) && DistinctKeys(pairs) && DistinctUnderMask(env.marks, env.mask)
    requires k < |pairs| && pairs[k].guard.Some? && pairs[k].guard.value != Lookup
    requires Carries(env, pairs[k], mark) && EnabledFamily(env, v6)
    requires Kept(kernel, Rules(pairs, env))
    ensures (exists tables: nat -> Option<nat> :: Decide(kernel, tables, mark, v6).Routed?) <==> !GuardWraps(env, k)
  {
    forall tables: nat -> Option<nat>
      ensures Decide(kernel, tables, mark, v6).Routed? ==> !GuardWraps(env, k)
    {
      GuardedMarkNeverLeaks(env, pairs, k, kernel, tables, mark, v6);
    }
    var full: nat -> Option<nat> := _ => Some(0);
    GuardedMarkNeverLeaks(env, pairs, k, kernel, full, mark, v6);
    assert !GuardWraps(env, k) ==> Decide(kernel, full, mark, v6).Routed?;
  }

  lemma WrapStep(x: nat, k: nat)
    requires x < U32
    ensures (x + k * 2) % U32 == U32 - 1 ==> x % 2 == 1 && x + k * 2 >= U32 - 1
    ensures x + k * 2 == U32 - 1 ==> (x + k * 2) % U32 == U32 - 1
  {
    var d := (x + k * 2) / U32;
    assert x + k * 2 == d * U32 + (x + k * 2) % U32;
  }

  /** Some guard of `n` pairs wraps exactly when the start is odd and the pairs run past
      the end of the priority range. */
  lemma SomeGuardWrapsExactly(env: Env, n: nat)
    requires env.priorityStart < U32
    ensures (exists k: nat :: k < n && GuardWraps(env, k)) <==>
            env.priorityStart % 2 == 1 && env.priorityStart + 2 * n > U32
  {
    var start := env.priorityStart;
    forall k: nat | k < n && GuardWraps(env, k) ensures start % 2 == 1 && start + 2 * n > U32 {
      WrapStep(start, k);
    }
    if start % 2 == 1 && start + 2 * n > U32 {
      var last := (U32 - 1 - start) / 2;
      assert start + last * 2 == U32 - 1;
      WrapStep(start, last);
      assert GuardWraps(env, last);
    }
  }

  // ---------------------------------------------------------------- plans

  /** Configuration tags start with a letter, so none looks like a detour key. */
  lemma KeysApart(a: string, b: string)
    requires ValidTag(a)
    ensures a != DetourKey(b) && (DetourKey(a) == DetourKey(b) ==> a == b)
  {
    assert DetourKey(b)[0] == '_';
    assert DetourKey(a)[|DETOUR_PREFIX|..] == a && DetourKey(b)[|DETOUR_PREFIX|..] == b;
  }

  predicate KeyOf(key: string, tag: string) { key == tag || key == DetourKey(tag) }

  lemma {:induction false} PlanKeys(outbounds: seq<Outbound>, env: Env, n: nat)
    requires n <= |outbounds| && UniqueTags(outbounds) && forall o :: o in outbounds ==> ValidTag(o.tag)
    ensures var pairs := PlanPrefix(outbounds, env, n).pairs;
            && DistinctKeys(pairs)
            && (forall p :: p in pairs ==> exists i :: 0 <= i < n && KeyOf(p.key, outbounds[i].tag))
            && (forall p :: p in pairs && p.guard.Some? ==> p.guard.value != Lookup)
    decreases n
  {
    hide ValidTag, DetourKey, RoutesOf, TableOf;
    if n > 0 {
      PlanKeys(outbounds, env, n - 1);
      var before, ob := PlanPrefix(outbounds, env, n - 1), outbounds[n - 1];
      if Planned(ob, env) {
        var more := PairsOf(ob, env, TableOf(ob, env, before.tables));
        NewKeys(ob, env, TableOf(ob, env, before.tables));
        forall p, q | p in before.pairs && q in more ensures p.key != q.key {
          var i :| 0 <= i < n - 1 && KeyOf(p.key, outbounds[i].tag);
          KeysDiffer(outbounds[i].tag, ob.tag, p.key, q.key);
        }
      }
    }
  }

  lemma NewKeys(ob: Outbound, env: Env, table: nat)
    requires ValidTag(ob.tag)
    ensures var more := PairsOf(ob, env, table);
            && DistinctKeys(more)
            && (forall p :: p in more ==> KeyOf(p.key, ob.tag) && (p.guard.Some? ==> p.guard.value != Lookup))
  {
    KeysApart(ob.tag, ob.tag);
  }

  lemma KeysDiffer(a: string, b: string, x: string, y: string)
    requires ValidTag(a) && ValidTag(b) && a != b && KeyOf(x, a) && KeyOf(y, b)
    ensures x != y
  {
    KeysApart(a, b);
    KeysApart(b, a);
  }

  lemma SortKeepsUniqueTags(outbounds: seq<Outbound>)
    requires UniqueTags(outbounds) && forall o :: o in outbounds ==> ValidTag(o.tag)
    ensures UniqueTags(Sort(outbounds, OutboundLe)) && forall o :: o in Sort(outbounds, OutboundLe) ==> ValidTag(o.tag)
  {
    hide ValidTag;
    SameMembers(outbounds, Sort(outbounds, OutboundLe));
    PermutedTags(outbounds, Sort(outbounds, OutboundLe));
  }

  lemma {:induction false} PermutedTags(a: seq<Outbound>, b: seq<Outbound>)
    requires multiset(a) == multiset(b) && UniqueTags(a)
    ensures UniqueTags(b)
  {
    SameMembers(a, b);
    forall i, j | 0 <= i < j < |b| ensures b[i].tag != b[j].tag {
      if b[i].tag == b[j].tag {
        assert b[i] in a && b[j] in a;
        assert b[i] == b[j];
        TwiceInMultiset(b, i, j);
        OnceInMultiset(a, b[i]);
        assert false;
      }
    }
  }

  lemma TwiceInMultiset(b: seq<Outbound>, i: nat, j: nat)
    requires i < j < |b| && b[i] == b[j]
    ensures multiset(b)[b[i]] >= 2
  {
    assert b == b[..i] + [b[i]] + b[i + 1..j] + [b[j]] + b[j + 1..];
  }

  lemma {:induction false} OnceInMultiset(a: seq<Outbound>, x: Outbound)
    requires UniqueTags(a)
    ensures multiset(a)[x] <= 1
  {
    if a != [] {
      assert a == [a[0]] + a[1..];
      OnceInMultiset(a[1..], x);
      if x == a[0] { assert x !in a[1..]; }
    }
  }
}
