/** The iptables verifier: expected rules are expanded, live rules are scanned from their
    tokens, and each expected rule greedily claims one live rule. */
module Verifier {
  import opened Common

  datatype Proto = Any | Tcp | Udp | TcpUdp

  /** Ports are kept in their printed form. */
  datatype Criteria = Criteria(
    proto: Proto, dscp: Option<nat>, srcPort: string, dstPort: string, src: seq<string>, dst: seq<string>,
    notSrcPort: bool, notDstPort: bool, notSrc: bool, notDst: bool)

  datatype Parsed = Parsed(set_: string, criteria: Criteria, v6: bool, isMark: bool, isDrop: bool, isPass: bool,
                           fwmark: nat, mask: nat)

  datatype Action = MarkAction | DropAction | PassAction

  datatype Expected = Expected(set_: string, v6: bool, action: Action, fwmark: nat, criteria: Criteria)

  // ---------------------------------------------------------------- matching

  function SlashAt(s: string): (i: nat)
    ensures i <= |s|
  {
    if s == "" || s[0] == '/' then 0 else 1 + SlashAt(s[1..])
  }

  /** A host prefix is dropped; any other prefix stays. */
  function NormalizeAddr(a: string): string
  {
    var i := SlashAt(a);
    if i == |a| then a
    else
      var base, prefix := a[..i], a[i + 1..];
      if (':' !in base && prefix == "32") || (':' in base && prefix == "128") then base else a
  }

  function NormalizeList(addrs: seq<string>): seq<string>
  {
    Map(addrs, (a: string) => NormalizeAddr(a))
  }

  predicate CriteriaEqual(a: Criteria, b: Criteria)
  {
    && a.proto == b.proto && a.dscp == b.dscp && a.srcPort == b.srcPort && a.dstPort == b.dstPort
    && NormalizeList(a.src) == NormalizeList(b.src) && NormalizeList(a.dst) == NormalizeList(b.dst)
    && a.notSrcPort == b.notSrcPort && a.notDstPort == b.notDstPort && a.notSrc == b.notSrc && a.notDst == b.notDst
  }

  predicate ActionMatches(a: Parsed, e: Expected, mask: nat)
  {
    match e.action
    case MarkAction => a.isMark && a.fwmark == e.fwmark && a.mask == mask
    case DropAction => a.isDrop
    case PassAction => a.isPass
  }

  predicate RuleMatches(a: Parsed, e: Expected, mask: nat)
  {
    a.v6 == e.v6 && a.set_ == e.set_ && ActionMatches(a, e, mask) && CriteriaEqual(a.criteria, e.criteria)
  }

  predicate SameShape(a: Parsed, e: Expected)
  {
    a.v6 == e.v6 && a.set_ == e.set_ && CriteriaEqual(a.criteria, e.criteria)
  }

  /** What a live rule does is one thing: the scan sets exactly one flag. */
  predicate OneAction(a: Parsed)
  {
    (a.isMark && !a.isDrop && !a.isPass) || (!a.isMark && a.isDrop && !a.isPass) || (!a.isMark && !a.isDrop && a.isPass)
  }

  datatype Act = Marks(fwmark: nat, mask: nat) | Drops | Passes

  datatype Shape = Shape(set_: string, v6: bool, criteria: Criteria)

  /** A rule up to what the verifier compares. */
  datatype Key = Key(shape: Shape, act: Act)

  function Normal(c: Criteria): Criteria
  {
    c.(src := NormalizeList(c.src), dst := NormalizeList(c.dst))
  }

  function LiveKey(a: Parsed): Key
  {
    Key(Shape(a.set_, a.v6, Normal(a.criteria)),
        if a.isMark then Marks(a.fwmark, a.mask) else if a.isDrop then Drops else Passes)
  }

  function WantedKey(e: Expected, mask: nat): Key
  {
    Key(Shape(e.set_, e.v6, Normal(e.criteria)),
        match e.action case MarkAction => Marks(e.fwmark, mask) case DropAction => Drops case PassAction => Passes)
  }

  /** Matching is equality of keys. */
  lemma MatchIsKeyEquality(a: Parsed, e: Expected, mask: nat)
    requires OneAction(a)
    ensures RuleMatches(a, e, mask) <==> LiveKey(a) == WantedKey(e, mask)
    ensures SameShape(a, e) <==> LiveKey(a).shape == WantedKey(e, mask).shape
  {
    hide NormalizeList;
  }

  // ---------------------------------------------------------------- greedy claiming

  function LiveKeys(rules: seq<Parsed>): seq<Key>
  {
    Map(rules, (a: Parsed) => LiveKey(a))
  }

  function WantedKeys(es: seq<Expected>, mask: nat): seq<Key>
  {
    Map(es, (e: Expected) => WantedKey(e, mask))
  }

  /** Keys of the live rules nobody has claimed. */
  function Free(keys: seq<Key>, used: seq<bool>): multiset<Key>
    requires |keys| == |used|
  {
    if keys == [] then multiset{}
    else Free(keys[1..], used[1..]) + (if used[0] then multiset{} else multiset{keys[0]})
  }

  lemma {:induction false} FreeHas(keys: seq<Key>, used: seq<bool>, k: Key)
    requires |keys| == |used|
    ensures k in Free(keys, used) <==> exists j :: 0 <= j < |keys| && !used[j] && keys[j] == k
  {
    if keys != [] {
      FreeHas(keys[1..], used[1..], k);
      if j :| 0 <= j < |keys[1..]| && !used[1..][j] && keys[1..][j] == k {
        assert !used[j + 1] && keys[j + 1] == k;
      }
      if j :| 0 < j < |keys| && !used[j] && keys[j] == k {
        assert !used[1..][j - 1] && keys[1..][j - 1] == k;
      }
    }
  }

  lemma {:induction false} FreeClaim(keys: seq<Key>, used: seq<bool>, j: nat)
    requires |keys| == |used| && j < |keys| && !used[j]
    ensures Free(keys, used[j := true]) == Free(keys, used) - multiset{keys[j]}
  {
    if j == 0 {
      assert used[j := true][1..] == used[1..];
    } else {
      assert used[j := true][1..] == used[1..][j - 1 := true];
      FreeClaim(keys[1..], used[1..], j - 1);
      FreeHas(keys[1..], used[1..], keys[j]);
      assert !used[1..][j - 1] && keys[1..][j - 1] == keys[j];
    }
  }

  lemma {:induction false} AllFree(keys: seq<Key>, used: seq<bool>)
    requires |keys| == |used| && forall j :: 0 <= j < |used| ==> !used[j]
    ensures Free(keys, used) == multiset(keys)
  {
    if keys != [] {
      AllFree(keys[1..], used[1..]);
      assert keys == [keys[0]] + keys[1..];
    }
  }

  datatype Status = Verified | Missing | Mismatch

  /** Whether some unclaimed rule has the shape. */
  ghost predicate HasShape(free: multiset<Key>, s: Shape)
  {
    exists k :: k in free && k.shape == s
  }

  /** The verdict on a wanted key when `free` is unclaimed. */
  ghost function Verdict(free: multiset<Key>, k: Key): Status
  {
    if k in free then Verified else if HasShape(free, k.shape) then Mismatch else Missing
  }

  method FindMatch(rules: seq<Parsed>, used: array<bool>, e: Expected, mask: nat) returns (r: Option<nat>)
    requires used.Length == |rules| && forall a :: a in rules ==> OneAction(a)
    ensures r.Some? ==> r.value < |rules| && !used[r.value] && LiveKeys(rules)[r.value] == WantedKey(e, mask)
    ensures r.Some? <==> WantedKey(e, mask) in Free(LiveKeys(rules), used[..])
  {
    hide RuleMatches, LiveKey, WantedKey;
    var i := 0;
    while i < |rules|
      invariant 0 <= i <= |rules|
      invariant forall j :: 0 <= j < i ==> used[j] || LiveKeys(rules)[j] != WantedKey(e, mask)
    {
      MatchIsKeyEquality(rules[i], e, mask);
      if !used[i] && RuleMatches(rules[i], e, mask) {
        FreeHas(LiveKeys(rules), used[..], WantedKey(e, mask));
        assert !used[..][i] && LiveKeys(rules)[i] == WantedKey(e, mask);
        return Some(i);
      }
      i := i + 1;
    }
    FreeHas(LiveKeys(rules), used[..], WantedKey(e, mask));
    return None;
  }

  method FindSameShape(rules: seq<Parsed>, used: array<bool>, e: Expected, mask: nat) returns (found: bool)
    requires used.Length == |rules| && forall a :: a in rules ==> OneAction(a)
    ensures found <==> HasShape(Free(LiveKeys(rules), used[..]), WantedKey(e, mask).shape)
  {
    hide SameShape, LiveKey, WantedKey;
    ghost var keys, s := LiveKeys(rules), WantedKey(e, mask).shape;
    var i := 0;
    while i < |rules|
      invariant 0 <= i <= |rules|
      invariant forall j :: 0 <= j < i ==> used[j] || keys[j].shape != s
    {
      MatchIsKeyEquality(rules[i], e, mask);
      if !used[i] && SameShape(rules[i], e) {
        FreeHas(keys, used[..], keys[i]);
        assert !used[..][i] && keys[i] in Free(keys, used[..]);
        return true;
      }
      i := i + 1;
    }
    forall k | k in Free(keys, used[..]) ensures k.shape != s {
      FreeHas(keys, used[..], k);
    }
    return false;
  }

  /** Judges one expected rule and marks the live rule it claims, if any. */
  method Claim(rules: seq<Parsed>, used: array<bool>, e: Expected, mask: nat) returns (status: Status)
    requires used.Length == |rules| && forall a :: a in rules ==> OneAction(a)
    modifies used
    ensures status == Verdict(old(Free(LiveKeys(rules), used[..])), WantedKey(e, mask))
    ensures Free(LiveKeys(rules), used[..]) == old(Free(LiveKeys(rules), used[..])) - multiset{WantedKey(e, mask)}
  {
    hide OneAction, LiveKey, WantedKey, Free;
    ghost var live, free := LiveKeys(rules), Free(LiveKeys(rules), used[..]);
    var found := FindMatch(rules, used, e, mask);
    if found.Some? {
      FreeClaim(live, used[..], found.value);
      ghost var now := used[..][found.value := true];
      used[found.value] := true;
      assert used[..] == now;
      return Verified;
    }
    assert free - multiset{WantedKey(e, mask)} == free;
    var shape := FindSameShape(rules, used, e, mask);
    return if shape then Mismatch else Missing;
  }

  /** Live keys left after the first `i` wanted keys took theirs. */
  ghost function Left(live: seq<Key>, wanted: seq<Key>, i: nat): multiset<Key>
    requires i <= |wanted|
  {
    multiset(live) - multiset(wanted[..i])
  }

  lemma LeftStep(live: seq<Key>, wanted: seq<Key>, i: nat)
    requires i < |wanted|
    ensures Left(live, wanted, i + 1) == Left(live, wanted, i) - multiset{wanted[i]}
  {
    assert wanted[..i + 1] == wanted[..i] + [wanted[i]];
  }

  lemma LeftStart(rules: seq<Parsed>, wanted: seq<Key>, used: seq<bool>)
    requires |rules| == |used| && forall j :: 0 <= j < |used| ==> !used[j]
    ensures Free(LiveKeys(rules), used) == Left(LiveKeys(rules), wanted, 0)
  {
    AllFree(LiveKeys(rules), used);
    assert wanted[..0] == [];
  }

  /** Each verdict depends only on the wanted keys before it and on the multiset of live
      keys: never on the order in which the live rules were listed. */
  method VerifyRules(es: seq<Expected>, rules: seq<Parsed>, mask: nat) returns (checks: seq<Status>)
    requires forall a :: a in rules ==> OneAction(a)
    ensures |checks| == |es|
    ensures forall i :: 0 <= i < |es| ==>
              checks[i] == Verdict(Left(LiveKeys(rules), WantedKeys(es, mask), i), WantedKeys(es, mask)[i])
  {
    hide OneAction, LiveKey, WantedKey, Free, Verdict, Left;
    ghost var wanted := WantedKeys(es, mask);
    var used := new bool[|rules|](_ => false);
    LeftStart(rules, wanted, used[..]);
    checks := [];
    var i := 0;
    while i < |es|
      invariant 0 <= i <= |es| && |checks| == i
      invariant Free(LiveKeys(rules), used[..]) == Left(LiveKeys(rules), wanted, i)
      invariant forall j :: 0 <= j < i ==> checks[j] == Verdict(Left(LiveKeys(rules), wanted, j), wanted[j])
    {
      LeftStep(LiveKeys(rules), wanted, i);
      var status := Claim(rules, used, es[i], mask);
      checks := checks + [status];
      i := i + 1;
    }
  }

  // ---------------------------------------------------------------- optimality

  /** Number of ok verdicts among the first `n` wanted keys. */
  ghost function OkCount(live: multiset<Key>, wanted: seq<Key>): nat
  {
    if wanted == [] then 0
    else
      var init, k := wanted[..|wanted| - 1], wanted[|wanted| - 1];
      OkCount(live, init) + (if k in live - multiset(init) then 1 else 0)
  }

  /** The ok verdicts number exactly the overlap of the two multisets. */
  lemma {:induction false} OkCountIsOverlap(live: multiset<Key>, wanted: seq<Key>)
    ensures OkCount(live, wanted) == |multiset(wanted) * live|
  {
    if wanted != [] {
      var init, k := wanted[..|wanted| - 1], wanted[|wanted| - 1];
      assert wanted == init + [k];
      OkCountIsOverlap(live, init);
      OverlapGrows(live, multiset(init), k);
    }
  }

  lemma OverlapGrows(live: multiset<Key>, m: multiset<Key>, k: Key)
    ensures |(m + multiset{k}) * live| == |m * live| + (if k in live - m then 1 else 0)
  {
    if k in live - m {
      assert (m + multiset{k}) * live == m * live + multiset{k};
    } else {
      assert (m + multiset{k}) * live == m * live;
    }
  }

  /** Every check is ok exactly when the expected rules, with multiplicity, are all live. */
  lemma {:induction false} AllOkExactly(live: multiset<Key>, wanted: seq<Key>)
    ensures (forall i :: 0 <= i < |wanted| ==> wanted[i] in live - multiset(wanted[..i])) <==> multiset(wanted) <= live
  {
    if wanted != [] {
      var init, k := wanted[..|wanted| - 1], wanted[|wanted| - 1];
      assert wanted == init + [k];
      AllOkExactly(live, init);
      assert forall i :: 0 <= i < |init| ==> init[..i] == wanted[..i] && init[i] == wanted[i];
      assert wanted[..|init|] == init && wanted[|init|] == k;
    }
  }

  /** A one-to-one matching between expected and live rules, as pairs of indices. */
  ghost predicate Matching(wanted: seq<Key>, live: seq<Key>, ps: seq<(nat, nat)>)
  {
    && (forall i :: 0 <= i < |ps| ==> ps[i].0 < |wanted| && ps[i].1 < |live| && wanted[ps[i].0] == live[ps[i].1])
    && (forall i, j :: 0 <= i < j < |ps| ==> ps[i].0 != ps[j].0 && ps[i].1 != ps[j].1)
  }

  ghost predicate DistinctIndices(xs: seq<nat>, n: nat)
  {
    && (forall i :: 0 <= i < |xs| ==> xs[i] < n)
    && (forall i, j :: 0 <= i < j < |xs| ==> xs[i] != xs[j])
  }

  function Picked(s: seq<Key>, xs: seq<nat>): seq<Key>
    requires forall i :: 0 <= i < |xs| ==> xs[i] < |s|
  {
    seq(|xs|, i requires 0 <= i < |xs| => s[xs[i]])
  }

  /** Distinct positions pick a sub-multiset. */
  lemma {:induction false} PickedSub(s: seq<Key>, xs: seq<nat>)
    requires DistinctIndices(xs, |s|)
    ensures multiset(Picked(s, xs)) <= multiset(s)
    decreases |s|
  {
    if xs == [] {
      assert Picked(s, xs) == [];
    } else {
      assert xs[0] < |s|;
      var init, last := s[..|s| - 1], |s| - 1;
      assert s == init + [s[last]];
      if last in xs {
        var j :| 0 <= j < |xs| && xs[j] == last;
        RestDistinct(xs, j, last);
        PickedSub(init, xs[..j] + xs[j + 1..]);
        PickedWithLast(init, s[last], xs, j);
      } else {
        assert forall i :: 0 <= i < |xs| ==> xs[i] in xs && xs[i] != last;
        PickedSub(init, xs);
        assert Picked(s, xs) == Picked(init, xs);
      }
    }
  }

  lemma PickedWithLast(init: seq<Key>, k: Key, xs: seq<nat>, j: nat)
    requires DistinctIndices(xs, |init| + 1) && j < |xs| && xs[j] == |init|
    requires DistinctIndices(xs[..j] + xs[j + 1..], |init|)
    ensures multiset(Picked(init + [k], xs)) == multiset(Picked(init, xs[..j] + xs[j + 1..])) + multiset{k}
  {
    RestDistinct(xs, j, |init|);
    var a, b := Picked(init, xs[..j]), Picked(init, xs[j + 1..]);
    assert Picked(init + [k], xs) == a + [k] + b;
    assert Picked(init, xs[..j] + xs[j + 1..]) == a + b;
  }

  lemma RestDistinct(xs: seq<nat>, j: nat, last: nat)
    requires DistinctIndices(xs, last + 1) && j < |xs| && xs[j] == last
    ensures DistinctIndices(xs[..j] + xs[j + 1..], last)
    ensures DistinctIndices(xs[..j], last) && DistinctIndices(xs[j + 1..], last)
  {}

  /** No one-to-one matching is larger than the greedy one. */
  lemma GreedyIsOptimal(wanted: seq<Key>, live: seq<Key>, ps: seq<(nat, nat)>)
    requires Matching(wanted, live, ps)
    ensures |ps| <= OkCount(multiset(live), wanted)
  {
    var left := seq(|ps|, i requires 0 <= i < |ps| => ps[i].0);
    var right := seq(|ps|, i requires 0 <= i < |ps| => ps[i].1);
    PickedSub(wanted, left);
    PickedSub(live, right);
    var keys := Picked(wanted, left);
    assert keys == Picked(live, right);
    SubCard(multiset(keys), multiset(wanted) * multiset(live));
    OkCountIsOverlap(multiset(live), wanted);
  }

  lemma SubCard(a: multiset<Key>, b: multiset<Key>)
    requires a <= b
    ensures |a| <= |b|
  {
    assert b == a + (b - a);
  }

  lemma MatchingGrows(init: seq<Key>, k: Key, live: seq<Key>, ps: seq<(nat, nat)>)
    requires Matching(init, live, ps)
    ensures Matching(init + [k], live, ps)
  {}

  lemma MatchingExtends(init: seq<Key>, k: Key, live: seq<Key>, ps: seq<(nat, nat)>, used: seq<bool>, j: nat)
    requires Matching(init, live, ps) && |used| == |live| && j < |live| && !used[j] && live[j] == k
    requires forall i :: 0 <= i < |ps| ==> used[ps[i].1]
    ensures Matching(init + [k], live, ps + [(|init|, j)])
  {}

  /** The greedy claims are themselves a one-to-one matching of that size. */
  lemma {:induction false} GreedyAchieves(wanted: seq<Key>, live: seq<Key>)
    returns (ps: seq<(nat, nat)>, used: seq<bool>)
    ensures Matching(wanted, live, ps) && |ps| == OkCount(multiset(live), wanted)
    ensures |used| == |live| && Free(live, used) == multiset(live) - multiset(wanted)
    ensures forall i :: 0 <= i < |ps| ==> ps[i].1 < |used| && used[ps[i].1]
  {
    hide Free, Matching;
    if wanted == [] {
      ps, used := [], seq(|live|, _ => false);
      AllFree(live, used);
      NoMatching(live);
    } else {
      var init, k := wanted[..|wanted| - 1], wanted[|wanted| - 1];
      assert wanted == init + [k];
      ps, used := GreedyAchieves(init, live);
      Claimed(multiset(live), init, k);
      ps, used := Grow(init, k, live, ps, used);
    }
  }

  lemma Grow(init: seq<Key>, k: Key, live: seq<Key>, ps: seq<(nat, nat)>, used: seq<bool>)
    returns (ps': seq<(nat, nat)>, used': seq<bool>)
    requires Matching(init, live, ps) && |used| == |live|
    requires forall i :: 0 <= i < |ps| ==> ps[i].1 < |used| && used[ps[i].1]
    ensures Matching(init + [k], live, ps') && |ps'| == |ps| + (if k in Free(live, used) then 1 else 0)
    ensures |used'| == |live| && Free(live, used') == Free(live, used) - multiset{k}
    ensures forall i :: 0 <= i < |ps'| ==> ps'[i].1 < |used'| && used'[ps'[i].1]
  {
    hide Free, Matching;
    ps', used' := ps, used;
    FreeHas(live, used, k);
    if k in Free(live, used) {
      var j :| 0 <= j < |live| && !used[j] && live[j] == k;
      FreeClaim(live, used, j);
      MatchingExtends(init, k, live, ps, used, j);
      ps', used' := ps + [(|init|, j)], used[j := true];
    } else {
      MatchingGrows(init, k, live, ps);
      assert Free(live, used) - multiset{k} == Free(live, used);
    }
  }

  lemma NoMatching(live: seq<Key>)
    ensures Matching([], live, [])
  {}

  lemma Claimed(live: multiset<Key>, before: seq<Key>, k: Key)
    ensures live - multiset(before + [k]) == live - multiset(before) - multiset{k}
  {}

  lemma RemoveOne<T>(b: seq<T>, j: nat)
    requires j < |b|
    ensures multiset(b) == multiset(b[..j] + b[j + 1..]) + multiset{b[j]}
  {
    assert b == b[..j] + [b[j]] + b[j + 1..];
  }

  /** Live rules in another order have the same keys, so the same verdicts. */
  lemma {:induction false} KeysIgnoreOrder(a: seq<Parsed>, b: seq<Parsed>)
    requires multiset(a) == multiset(b)
    ensures multiset(LiveKeys(a)) == multiset(LiveKeys(b))
  {
    hide LiveKeys, LiveKey;
    assert |a| == |multiset(a)| == |multiset(b)| == |b|;
    if a == [] {
      assert a == b;
    } else {
      var j := IndexIn(a, b);
      var rest, without := a[..0] + a[1..], b[..j] + b[j + 1..];
      RemoveOne(a, 0);
      RemoveOne(b, j);
      Cancel(multiset(rest), multiset(without), a[0]);
      KeysIgnoreOrder(rest, without);
      KeysSplit(a, 0);
      KeysSplit(b, j);
    }
  }

  lemma IndexIn(a: seq<Parsed>, b: seq<Parsed>) returns (j: nat)
    requires multiset(a) == multiset(b) && a != []
    ensures j < |b| && b[j] == a[0]
  {
    assert a[0] in multiset(b);
    j :| 0 <= j < |b| && b[j] == a[0];
  }

  lemma Cancel<T>(a: multiset<T>, b: multiset<T>, x: T)
    requires a + multiset{x} == b + multiset{x}
    ensures a == b
  {
    assert a == a + multiset{x} - multiset{x};
    assert b == b + multiset{x} - multiset{x};
  }

  lemma KeysSplit(b: seq<Parsed>, j: nat)
    requires j < |b|
    ensures multiset(LiveKeys(b)) == multiset(LiveKeys(b[..j] + b[j + 1..])) + multiset{LiveKey(b[j])}
  {
    hide LiveKey;
    var keys := LiveKeys(b);
    RemoveOne(keys, j);
    assert keys[..j] + keys[j + 1..] == LiveKeys(b[..j] + b[j + 1..]);
  }

  function CountVerified(checks: seq<Status>): nat
  {
    if checks == [] then 0
    else CountVerified(checks[..|checks| - 1]) + (if checks[|checks| - 1].Verified? then 1 else 0)
  }

  lemma CountStep(checks: seq<Status>, n: nat)
    requires n < |checks|
    ensures CountVerified(checks[..n + 1]) == CountVerified(checks[..n]) + (if checks[n].Verified? then 1 else 0)
  {
    assert checks[..n + 1][..n] == checks[..n];
  }

  lemma OkStep(live: multiset<Key>, wanted: seq<Key>, n: nat)
    requires n < |wanted|
    ensures OkCount(live, wanted[..n + 1]) ==
            OkCount(live, wanted[..n]) + (if wanted[n] in live - multiset(wanted[..n]) then 1 else 0)
  {
    assert wanted[..n + 1][..n] == wanted[..n];
  }

  /** A check is verified exactly when its key is still among the live ones. */
  ghost predicate Agrees(live: seq<Key>, wanted: seq<Key>, checks: seq<Status>, i: nat)
    requires i < |wanted| == |checks|
  {
    checks[i].Verified? <==> wanted[i] in Left(live, wanted, i)
  }

  lemma CountedStep(live: seq<Key>, wanted: seq<Key>, checks: seq<Status>, n: nat)
    requires n < |wanted| == |checks| && Agrees(live, wanted, checks, n)
    requires CountVerified(checks[..n]) == OkCount(multiset(live), wanted[..n])
    ensures CountVerified(checks[..n + 1]) == OkCount(multiset(live), wanted[..n + 1])
  {
    hide OkCount, CountVerified;
    CountStep(checks, n);
    OkStep(multiset(live), wanted, n);
  }

  lemma {:induction false} CountedUp(live: seq<Key>, wanted: seq<Key>, checks: seq<Status>, n: nat)
    requires |checks| == |wanted| && n <= |wanted|
    requires forall i :: 0 <= i < |wanted| ==> Agrees(live, wanted, checks, i)
    ensures CountVerified(checks[..n]) == OkCount(multiset(live), wanted[..n])
  {
    hide OkCount, CountVerified, Agrees;
    if n == 0 {
      assert checks[..0] == [] && wanted[..0] == [];
      NothingCounted(multiset(live));
    } else {
      CountedUp(live, wanted, checks, n - 1);
      CountedStep(live, wanted, checks, n - 1);
    }
  }

  lemma NothingCounted(live: multiset<Key>)
    ensures CountVerified([]) == 0 && OkCount(live, []) == 0
  {}

  /** What the verifier's checks count: exactly the overlap of expected and live rules. */
  lemma VerifiedIsOverlap(live: seq<Key>, wanted: seq<Key>, checks: seq<Status>)
    requires |checks| == |wanted|
    requires forall i :: 0 <= i < |wanted| ==> checks[i] == Verdict(Left(live, wanted, i), wanted[i])
    ensures CountVerified(checks) == OkCount(multiset(live), wanted) == |multiset(wanted) * multiset(live)|
    ensures (forall i :: 0 <= i < |checks| ==> checks[i].Verified?) <==> multiset(wanted) <= multiset(live)
  {
    hide OkCount, CountVerified;
    forall i | 0 <= i < |wanted| ensures Agrees(live, wanted, checks, i) {}
    CountedUp(live, wanted, checks, |wanted|);
    assert checks[..|wanted|] == checks && wanted[..|wanted|] == wanted;
    OkCountIsOverlap(multiset(live), wanted);
    AllVerified(live, wanted, checks);
  }

  lemma AllVerified(live: seq<Key>, wanted: seq<Key>, checks: seq<Status>)
    requires |checks| == |wanted|
    requires forall i :: 0 <= i < |wanted| ==> Agrees(live, wanted, checks, i)
    ensures (forall i :: 0 <= i < |checks| ==> checks[i].Verified?) <==> multiset(wanted) <= multiset(live)
  {
    AllOkExactly(multiset(live), wanted);
    forall i | 0 <= i < |wanted|
      ensures checks[i].Verified? <==> wanted[i] in multiset(live) - multiset(wanted[..i])
    {
      assert Agrees(live, wanted, checks, i);
    }
  }

  // ---------------------------------------------------------------- what matching means

  /** The same address written with and without the prefix of a single host. */
  predicate HostForm(plain: string, a: string)
  {
    '/' !in plain && a == plain + (if ':' in plain then "/128" else "/32")
  }

  lemma {:induction false} SlashIs(a: string)
    ensures var i := SlashAt(a);
            '/' !in a[..i] && (i < |a| ==> a[i] == '/') && (i == |a| <==> '/' !in a)
  {
    if a != "" && a[0] != '/' {
      SlashIs(a[1..]);
      var i := SlashAt(a[1..]);
      assert a[..1 + i] == [a[0]] + a[1..][..i];
      assert a == [a[0]] + a[1..];
    }
  }

  lemma {:induction false} SlashBehind(plain: string, rest: string)
    requires '/' !in plain
    ensures SlashAt(plain + "/" + rest) == |plain|
  {
    var a := plain + "/" + rest;
    if plain != "" {
      SlashBehind(plain[1..], rest);
      assert a[1..] == plain[1..] + "/" + rest;
    }
  }

  /** Normalising drops exactly the prefix of a single host. */
  lemma NormalizesHost(a: string, n: string)
    ensures NormalizeAddr(a) == n <==> HostForm(n, a) || (a == n && !exists plain :: HostForm(plain, a))
  {
    hide SlashAt;
    SlashIs(a);
    var i := SlashAt(a);
    var base := a[..i];
    if i < |a| {
      assert a == base + "/" + a[i + 1..];
      assert NormalizeAddr(a) == base ==> base == a || HostForm(base, a) by {
        assert "/" + "32" == "/32" && "/" + "128" == "/128";
      }
    }
    forall plain | HostForm(plain, a) ensures plain == base && i < |a| && NormalizeAddr(a) == base {
      var rest := if ':' in plain then "128" else "32";
      assert a == plain + "/" + rest;
      SlashBehind(plain, rest);
      assert a[..|plain|] == plain && a[|plain| + 1..] == rest;
    }
  }

  /** Two addresses are taken for the same exactly when their texts agree, or one is the
      other with the prefix of a single host. */
  lemma SameAddress(a: string, b: string)
    ensures NormalizeAddr(a) == NormalizeAddr(b) <==> a == b || HostForm(a, b) || HostForm(b, a)
  {
    hide NormalizeAddr;
    NormalizesHost(a, NormalizeAddr(a));
    NormalizesHost(b, NormalizeAddr(b));
    NormalizesHost(a, NormalizeAddr(b));
    NormalizesHost(b, NormalizeAddr(a));
    if HostForm(a, b) {
      PlainIsNormal(a);
      NormalizesHost(b, a);
    }
    if HostForm(b, a) {
      PlainIsNormal(b);
      NormalizesHost(a, b);
    }
  }

  lemma PlainIsNormal(a: string)
    requires '/' !in a
    ensures NormalizeAddr(a) == a
  {
    SlashIs(a);
  }

  predicate SameAddresses(a: seq<string>, b: seq<string>)
  {
    |a| == |b| && forall i :: 0 <= i < |a| ==> a[i] == b[i] || HostForm(a[i], b[i]) || HostForm(b[i], a[i])
  }

  lemma SameLists(a: seq<string>, b: seq<string>)
    ensures NormalizeList(a) == NormalizeList(b) <==> SameAddresses(a, b)
  {
    hide NormalizeAddr, HostForm;
    forall i | 0 <= i < |a| && i < |b|
      ensures NormalizeAddr(a[i]) == NormalizeAddr(b[i]) <==>
              a[i] == b[i] || HostForm(a[i], b[i]) || HostForm(b[i], a[i])
    {
      SameAddress(a[i], b[i]);
    }
    if NormalizeList(a) == NormalizeList(b) {
      assert |NormalizeList(a)| == |a| && |NormalizeList(b)| == |b|;
      forall i | 0 <= i < |a| ensures NormalizeAddr(a[i]) == NormalizeAddr(b[i]) {
        assert NormalizeList(a)[i] == NormalizeList(b)[i];
      }
    }
    if SameAddresses(a, b) {
      assert forall i :: 0 <= i < |a| ==> NormalizeList(a)[i] == NormalizeList(b)[i];
    }
  }

  /** A live rule is taken for an expected one exactly when family, set, protocol, traffic
      class, ports, addresses and all four negations agree, and it marks with that mark and
      mask, drops, or returns, as expected. */
  lemma MatchMeans(a: Parsed, e: Expected, mask: nat)
    ensures RuleMatches(a, e, mask) <==>
            && a.v6 == e.v6 && a.set_ == e.set_
            && a.criteria.proto == e.criteria.proto && a.criteria.dscp == e.criteria.dscp
            && a.criteria.srcPort == e.criteria.srcPort && a.criteria.dstPort == e.criteria.dstPort
            && SameAddresses(a.criteria.src, e.criteria.src) && SameAddresses(a.criteria.dst, e.criteria.dst)
            && a.criteria.notSrcPort == e.criteria.notSrcPort && a.criteria.notDstPort == e.criteria.notDstPort
            && a.criteria.notSrc == e.criteria.notSrc && a.criteria.notDst == e.criteria.notDst
            && (e.action == MarkAction ==> a.isMark && a.fwmark == e.fwmark && a.mask == mask)
            && (e.action == DropAction ==> a.isDrop) && (e.action == PassAction ==> a.isPass)
  {
    hide NormalizeList, SameAddresses;
    SameLists(a.criteria.src, e.criteria.src);
    SameLists(a.criteria.dst, e.criteria.dst);
  }

  /** A status says what was left for the rule: its own key, only other actions on its
      criteria, or nothing with its criteria. */
  lemma VerdictMeans(free: multiset<Key>, k: Key)
    ensures Verdict(free, k) == Verified <==> k in free
    ensures Verdict(free, k) == Missing <==> forall x :: x in free ==> x.shape != k.shape
    ensures Verdict(free, k) == Mismatch <==>
            k !in free && exists x :: x in free && x.shape == k.shape && x.act != k.act
  {
    if x :| x in free && x.shape == k.shape {
      assert x != k ==> x.act != k.act;
    }
  }
}
