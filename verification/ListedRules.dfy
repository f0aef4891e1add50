/** The live side of the verifier: the token scan of one listed rule, and what it makes of
    a listing written out from criteria and an action. */
module ListedRules {
  import opened Common
  import opened Verifier

  const BLANK := Criteria(Any, None, "", "", [], [], false, false, false, false)

  predicate NoCriteria(c: Criteria)
  {
    c.dscp.None? && c.proto.Any? && c.srcPort == "" && c.dstPort == "" && c.src == [] && c.dst == []
  }

  /** Number and protocol parsing. */
  datatype Readers = Readers(num: string -> Option<nat>, proto: string -> Option<Proto>)

  /** Splits "mark/mask" at its slash. */
  function XmarkOf(value: string, rd: Readers): Option<(nat, nat)>
  {
    var i := SlashAt(value);
    if i == |value| then None
    else
      var mark, mask := rd.num(value[..i]), rd.num(value[i + 1..]);
      if mark.Some? && mask.Some? then Some((mark.value, mask.value)) else None
  }

  // ---------------------------------------------------------------- the scan

  /** What follows -j. */
  function Acted(t: seq<string>, rule: Parsed, rd: Readers): Parsed
    requires |t| > 1
  {
    if t[1] == "DROP" then rule.(isDrop := true)
    else if t[1] == "RETURN" then rule.(isPass := true)
    else if t[1] == "MARK" && |t| > 3 && t[2] == "--set-mark" then
      (var mark := rd.num(t[3]); if mark.Some? then rule.(isMark := true, fwmark := mark.value) else rule)
    else if t[1] == "MARK" && |t| > 3 && t[2] == "--set-xmark" then
      (var x := XmarkOf(t[3], rd);
       if x.Some? then rule.(isMark := true, fwmark := x.value.0, mask := x.value.1) else rule)
    else rule
  }

  function WithDscp(c: Criteria, value: Option<nat>): Criteria
  {
    if value.Some? && value.value <= 63 then c.(dscp := value) else c
  }

  function WithProto(c: Criteria, p: Option<Proto>): Criteria { c.(proto := if p.Some? then p.value else Any) }

  /** The rest of a rule's tokens, scanned with what was found so far. */
  function Scan(t: seq<string>, rule: Parsed, negate: bool, rd: Readers): Parsed
    decreases |t|
  {
    if t == [] then rule
    else if t[0] == "!" then Scan(t[1..], rule, true, rd)
    else if t[0] == "-m" && |t| > 1 then Scan(t[2..], rule, negate, rd)
    else if t[0] == "--match-set" && |t| > 2 then Scan(t[3..], rule.(set_ := t[1]), false, rd)
    else if t[0] == "-s" && |t| > 1 then
      Scan(t[2..], rule.(criteria := rule.criteria.(src := [t[1]], notSrc := negate)), false, rd)
    else if t[0] == "-d" && |t| > 1 then
      Scan(t[2..], rule.(criteria := rule.criteria.(dst := [t[1]], notDst := negate)), false, rd)
    else if t[0] == "-p" && |t| > 1 then
      Scan(t[2..], rule.(criteria := WithProto(rule.criteria, rd.proto(t[1]))), false, rd)
    else if (t[0] == "--sport" || t[0] == "--sports") && |t| > 1 then
      Scan(t[2..], rule.(criteria := rule.criteria.(srcPort := t[1], notSrcPort := negate)), false, rd)
    else if (t[0] == "--dport" || t[0] == "--dports") && |t| > 1 then
      Scan(t[2..], rule.(criteria := rule.criteria.(dstPort := t[1], notDstPort := negate)), false, rd)
    else if t[0] == "--dscp" && |t| > 1 then
      Scan(t[2..], rule.(criteria := WithDscp(rule.criteria, rd.num(t[1]))), false, rd)
    else if t[0] == "-j" && |t| > 1 then Acted(t, rule, rd)
    else Scan(t[1..], rule, false, rd)
  }

  function Kept(rule: Parsed): Option<Parsed>
  {
    if !rule.isMark && !rule.isDrop && !rule.isPass then None
    else if rule.set_ == "" && NoCriteria(rule.criteria) then None
    else Some(rule)
  }

  function Fresh(v6: bool): Parsed { Parsed("", BLANK, v6, false, false, false, 0, U32 - 1) }

  lemma SuffixOf(tokens: seq<string>, i: nat)
    requires i < |tokens|
    ensures var t := tokens[i..];
            && t[0] == tokens[i] && |t| == |tokens| - i && t[1..] == tokens[i + 1..]
            && (|t| > 1 ==> t[1] == tokens[i + 1] && t[2..] == tokens[i + 2..])
            && (|t| > 2 ==> t[2] == tokens[i + 2] && t[3..] == tokens[i + 3..])
            && (|t| > 3 ==> t[3] == tokens[i + 3])
  {}

  /** What follows -j, read by index. */
  method ScanAction(tokens: seq<string>, i: nat, rule: Parsed, rd: Readers) returns (r: Parsed)
    requires i + 1 < |tokens|
    ensures r == Acted(tokens[i..], rule, rd)
  {
    SuffixOf(tokens, i);
    r := rule;
    var action := tokens[i + 1];
    if action == "DROP" {
      r := r.(isDrop := true);
    } else if action == "RETURN" {
      r := r.(isPass := true);
    } else if action == "MARK" && i + 3 < |tokens| {
      if tokens[i + 2] == "--set-mark" {
        var mark := rd.num(tokens[i + 3]);
        if mark.Some? { r := r.(isMark := true, fwmark := mark.value); }
      } else if tokens[i + 2] == "--set-xmark" {
        var xmark := XmarkOf(tokens[i + 3], rd);
        if xmark.Some? { r := r.(isMark := true, fwmark := xmark.value.0, mask := xmark.value.1); }
      }
    }
  }

  /** Scans one listed rule. */
  method ScanRule(tokens: seq<string>, v6: bool, rd: Readers) returns (r: Option<Parsed>)
    ensures r == Kept(Scan(tokens, Fresh(v6), false, rd))
  {
    hide Acted;
    var rule := Fresh(v6);
    var negate := false;
    var i := 0;
    assert tokens[0..] == tokens;
    while i < |tokens|
      invariant 0 <= i <= |tokens|
      invariant Scan(tokens, Fresh(v6), false, rd) == Scan(tokens[i..], rule, negate, rd)
      decreases |tokens| - i
    {
      var tok := tokens[i];
      SuffixOf(tokens, i);
      if tok == "!" {
        negate, i := true, i + 1;
      } else if tok == "-m" && i + 1 < |tokens| {
        i := i + 2;
      } else if tok == "--match-set" && i + 2 < |tokens| {
        rule := rule.(set_ := tokens[i + 1]);
        negate, i := false, i + 3;
      } else if tok == "-s" && i + 1 < |tokens| {
        rule := rule.(criteria := rule.criteria.(src := [tokens[i + 1]], notSrc := negate));
        negate, i := false, i + 2;
      } else if tok == "-d" && i + 1 < |tokens| {
        rule := rule.(criteria := rule.criteria.(dst := [tokens[i + 1]], notDst := negate));
        negate, i := false, i + 2;
      } else if tok == "-p" && i + 1 < |tokens| {
        rule := rule.(criteria := WithProto(rule.criteria, rd.proto(tokens[i + 1])));
        negate, i := false, i + 2;
      } else if (tok == "--sport" || tok == "--sports") && i + 1 < |tokens| {
        rule := rule.(criteria := rule.criteria.(srcPort := tokens[i + 1], notSrcPort := negate));
        negate, i := false, i + 2;
      } else if (tok == "--dport" || tok == "--dports") && i + 1 < |tokens| {
        rule := rule.(criteria := rule.criteria.(dstPort := tokens[i + 1], notDstPort := negate));
        negate, i := false, i + 2;
      } else if tok == "--dscp" && i + 1 < |tokens| {
        rule := rule.(criteria := WithDscp(rule.criteria, rd.num(tokens[i + 1])));
        negate, i := false, i + 2;
      } else if tok == "-j" && i + 1 < |tokens| {
        rule := ScanAction(tokens, i, rule, rd);
        return Kept(rule);
      } else {
        negate, i := false, i + 1;
      }
    }
    assert tokens[i..] == [];
    return Kept(rule);
  }

  // ---------------------------------------------------------------- listings written out

  /** One part of a listed rule, as `iptables -S` writes it. */
  datatype Item =
    | InSet(name: string)
    | Module(name: string)
    | Src(negate: bool, addr: string)
    | Dst(negate: bool, addr: string)
    | L4(text: string)
    | Sport(negate: bool, port: string)
    | Dport(negate: bool, port: string)
    | Dscp(text: string)

  datatype Verb = DropVerb | ReturnVerb | SetMark(text: string) | SetXmark(text: string)

  function Not(negate: bool): seq<string> { if negate then ["!"] else [] }

  function ItemTokens(it: Item): seq<string>
  {
    match it
    case InSet(n) => ["--match-set", n, "dst"]
    case Module(n) => ["-m", n]
    case Src(neg, a) => Not(neg) + ["-s", a]
    case Dst(neg, a) => Not(neg) + ["-d", a]
    case L4(p) => ["-p", p]
    case Sport(neg, p) => Not(neg) + ["--sport", p]
    case Dport(neg, p) => Not(neg) + ["--dport", p]
    case Dscp(v) => ["--dscp", v]
  }

  function VerbTokens(v: Verb): seq<string>
  {
    match v
    case DropVerb => ["-j", "DROP"]
    case ReturnVerb => ["-j", "RETURN"]
    case SetMark(m) => ["-j", "MARK", "--set-mark", m]
    case SetXmark(m) => ["-j", "MARK", "--set-xmark", m]
  }

  function Tokens(items: seq<Item>): seq<string>
  {
    if items == [] then [] else ItemTokens(items[0]) + Tokens(items[1..])
  }

  /** What a part says about the rule. */
  function Noted(rule: Parsed, it: Item, rd: Readers): Parsed
  {
    var c := rule.criteria;
    match it
    case InSet(n) => rule.(set_ := n)
    case Module(_) => rule
    case Src(neg, a) => rule.(criteria := c.(src := [a], notSrc := neg))
    case Dst(neg, a) => rule.(criteria := c.(dst := [a], notDst := neg))
    case L4(p) => rule.(criteria := WithProto(c, rd.proto(p)))
    case Sport(neg, p) => rule.(criteria := c.(srcPort := p, notSrcPort := neg))
    case Dport(neg, p) => rule.(criteria := c.(dstPort := p, notDstPort := neg))
    case Dscp(v) => rule.(criteria := WithDscp(c, rd.num(v)))
  }

  function AllNoted(rule: Parsed, items: seq<Item>, rd: Readers): Parsed
    decreases |items|
  {
    if items == [] then rule else AllNoted(Noted(rule, items[0], rd), items[1..], rd)
  }

  /** What the action says; one whose numbers do not parse says nothing. */
  function Done(rule: Parsed, v: Verb, rd: Readers): Parsed
  {
    match v
    case DropVerb => rule.(isDrop := true)
    case ReturnVerb => rule.(isPass := true)
    case SetMark(m) => if rd.num(m).Some? then rule.(isMark := true, fwmark := rd.num(m).value) else rule
    case SetXmark(m) =>
      var x := XmarkOf(m, rd);
      if x.Some? then rule.(isMark := true, fwmark := x.value.0, mask := x.value.1) else rule
  }

  lemma ScanNot(rest: seq<string>, rule: Parsed, negate: bool, rd: Readers)
    ensures Scan(Not(negate) + rest, rule, false, rd) == Scan(rest, rule, negate, rd)
  {
    if negate {
      assert (["!"] + rest)[1..] == rest;
    } else {
      assert [] + rest == rest;
    }
  }

  /** A two-token part, behind whatever negation was read. */
  lemma ScanPair(key: string, value: string, rest: seq<string>, rule: Parsed, negate: bool, rd: Readers)
    requires key in {"-m", "-s", "-d", "-p", "--sport", "--dport", "--dscp"}
    ensures var t := [key, value] + rest;
            var c := rule.criteria;
            Scan(t, rule, negate, rd) ==
            if key == "-m" then Scan(rest, rule, negate, rd)
            else if key == "-s" then Scan(rest, rule.(criteria := c.(src := [value], notSrc := negate)), false, rd)
            else if key == "-d" then Scan(rest, rule.(criteria := c.(dst := [value], notDst := negate)), false, rd)
            else if key == "-p" then Scan(rest, rule.(criteria := WithProto(c, rd.proto(value))), false, rd)
            else if key == "--sport" then
              Scan(rest, rule.(criteria := c.(srcPort := value, notSrcPort := negate)), false, rd)
            else if key == "--dport" then
              Scan(rest, rule.(criteria := c.(dstPort := value, notDstPort := negate)), false, rd)
            else Scan(rest, rule.(criteria := WithDscp(c, rd.num(value))), false, rd)
  {
    hide WithDscp, WithProto;
    var t := [key, value] + rest;
    assert t[0] == key && t[1] == value && t[2..] == rest && |t| > 1;
  }

  lemma ScanSet(name: string, rest: seq<string>, rule: Parsed, rd: Readers)
    ensures Scan(["--match-set", name, "dst"] + rest, rule, false, rd) == Scan(rest, rule.(set_ := name), false, rd)
  {
    var t := ["--match-set", name, "dst"] + rest;
    assert t[0] == "--match-set" && t[1] == name && t[3..] == rest && |t| > 2;
  }

  lemma ScanItem(it: Item, rest: seq<string>, rule: Parsed, rd: Readers)
    ensures Scan(ItemTokens(it) + rest, rule, false, rd) == Scan(rest, Noted(rule, it, rd), false, rd)
  {
    hide Scan, WithDscp, WithProto, Not;
    match it
    case InSet(n) => ScanSet(n, rest, rule, rd);
    case Module(n) => ScanPair("-m", n, rest, rule, false, rd);
    case Src(neg, a) => ScanNegated(neg, "-s", a, rest, rule, rd); ScanPair("-s", a, rest, rule, neg, rd);
    case Dst(neg, a) => ScanNegated(neg, "-d", a, rest, rule, rd); ScanPair("-d", a, rest, rule, neg, rd);
    case L4(p) => ScanPair("-p", p, rest, rule, false, rd);
    case Sport(neg, p) => ScanNegated(neg, "--sport", p, rest, rule, rd); ScanPair("--sport", p, rest, rule, neg, rd);
    case Dport(neg, p) => ScanNegated(neg, "--dport", p, rest, rule, rd); ScanPair("--dport", p, rest, rule, neg, rd);
    case Dscp(v) => ScanPair("--dscp", v, rest, rule, false, rd);
  }

  lemma ScanNegated(negate: bool, key: string, value: string, rest: seq<string>, rule: Parsed, rd: Readers)
    ensures Scan(Not(negate) + [key, value] + rest, rule, false, rd) == Scan([key, value] + rest, rule, negate, rd)
  {
    hide Scan, Not;
    assert Not(negate) + [key, value] + rest == Not(negate) + ([key, value] + rest);
    ScanNot([key, value] + rest, rule, negate, rd);
  }

  lemma {:induction false} ScanItems(items: seq<Item>, rest: seq<string>, rule: Parsed, rd: Readers)
    ensures Scan(Tokens(items) + rest, rule, false, rd) == Scan(rest, AllNoted(rule, items, rd), false, rd)
    decreases |items|
  {
    hide Scan, ItemTokens, Noted;
    if items == [] {
      assert Tokens(items) + rest == rest;
    } else {
      var it := items[0];
      assert Tokens(items) + rest == ItemTokens(it) + (Tokens(items[1..]) + rest);
      ScanItem(it, Tokens(items[1..]) + rest, rule, rd);
      ScanItems(items[1..], rest, Noted(rule, it, rd), rd);
    }
  }

  lemma ScanVerb(v: Verb, rule: Parsed, rd: Readers)
    ensures Scan(VerbTokens(v), rule, false, rd) == Done(rule, v, rd)
  {
    hide XmarkOf;
    var t := VerbTokens(v);
    assert t[0] == "-j" && |t| > 1;
    assert Scan(t, rule, false, rd) == Acted(t, rule, rd);
  }

  /** Scanning a written-out listing yields exactly its set, criteria, negations and action,
      whatever its parts and their order. */
  lemma ScanReadsListing(items: seq<Item>, v: Verb, v6: bool, rd: Readers)
    ensures Scan(Tokens(items) + VerbTokens(v), Fresh(v6), false, rd) == Done(AllNoted(Fresh(v6), items, rd), v, rd)
  {
    hide Scan, Tokens, VerbTokens, AllNoted, Done, Fresh;
    ScanItems(items, VerbTokens(v), Fresh(v6), rd);
    ScanVerb(v, AllNoted(Fresh(v6), items, rd), rd);
  }

  lemma {:induction false} NotedKeeps(rule: Parsed, items: seq<Item>, rd: Readers)
    ensures var r := AllNoted(rule, items, rd);
            && r.v6 == rule.v6 && r.isMark == rule.isMark && r.isDrop == rule.isDrop && r.isPass == rule.isPass
    decreases |items|
  {
    if items != [] { NotedKeeps(Noted(rule, items[0], rd), items[1..], rd); }
  }

  /** A listing is kept exactly when its action was understood and it names a set or a
      criterion; what is kept has exactly one action. */
  lemma KeptExactly(items: seq<Item>, v: Verb, v6: bool, rd: Readers)
    ensures var noted, r := AllNoted(Fresh(v6), items, rd),
            Kept(Scan(Tokens(items) + VerbTokens(v), Fresh(v6), false, rd));
            && (r.Some? <==> (v.SetMark? ==> rd.num(v.text).Some?) && (v.SetXmark? ==> XmarkOf(v.text, rd).Some?)
                             && (noted.set_ != "" || !NoCriteria(noted.criteria)))
            && (r.Some? ==> r.value == Done(noted, v, rd) && OneAction(r.value))
  {
    hide Scan, Tokens, VerbTokens, AllNoted, XmarkOf;
    ScanReadsListing(items, v, v6, rd);
    NotedKeeps(Fresh(v6), items, rd);
  }

  // ---------------------------------------------------------------- installed rules are recognised

  /** How a rule's protocol, class and mark are written. */
  datatype Spelling = Spelling(proto: string, dscp: string, xmark: string)

  predicate Spells(sp: Spelling, e: Expected, mask: nat, rd: Readers)
  {
    && (!e.criteria.proto.Any? ==> rd.proto(sp.proto) == Some(e.criteria.proto))
    && (e.criteria.dscp.Some? ==> rd.num(sp.dscp) == e.criteria.dscp && e.criteria.dscp.value <= 63)
    && (e.action.MarkAction? ==> XmarkOf(sp.xmark, rd) == Some((e.fwmark, mask)))
  }

  /** An expanded rule: at most one address on each side, and nothing negated that is absent. */
  predicate Expanded(c: Criteria)
  {
    && |c.src| <= 1 && |c.dst| <= 1
    && (c.notSrc ==> c.src != []) && (c.notDst ==> c.dst != [])
    && (c.notSrcPort ==> c.srcPort != "") && (c.notDstPort ==> c.dstPort != "")
  }

  function When(present: bool, it: Item): seq<Item> { if present then [it] else [] }

  function AddrItems(c: Criteria): seq<Item>
    requires Expanded(c)
  {
    (if c.src != [] then [Src(c.notSrc, c.src[0])] else []) + (if c.dst != [] then [Dst(c.notDst, c.dst[0])] else [])
  }

  function PortItems(c: Criteria): seq<Item>
  {
    When(c.srcPort != "", Sport(c.notSrcPort, c.srcPort)) + When(c.dstPort != "", Dport(c.notDstPort, c.dstPort))
  }

  /** The listing of an expected rule. */
  function ItemsOf(e: Expected, sp: Spelling): seq<Item>
    requires Expanded(e.criteria)
  {
    AddrItems(e.criteria) + When(!e.criteria.proto.Any?, L4(sp.proto)) + When(e.set_ != "", InSet(e.set_))
    + PortItems(e.criteria) + When(e.criteria.dscp.Some?, Dscp(sp.dscp))
  }

  function VerbOf(e: Expected, sp: Spelling): Verb
  {
    match e.action
    case MarkAction => SetXmark(sp.xmark)
    case DropAction => DropVerb
    case PassAction => ReturnVerb
  }

  lemma {:induction false} NotedAppend(rule: Parsed, a: seq<Item>, b: seq<Item>, rd: Readers)
    ensures AllNoted(rule, a + b, rd) == AllNoted(AllNoted(rule, a, rd), b, rd)
    decreases |a|
  {
    hide Noted;
    if a == [] {
      assert a + b == b;
    } else {
      assert (a + b)[1..] == a[1..] + b;
      NotedAppend(Noted(rule, a[0], rd), a[1..], b, rd);
    }
  }

  lemma NotedWhen(rule: Parsed, present: bool, it: Item, rd: Readers)
    ensures AllNoted(rule, When(present, it), rd) == if present then Noted(rule, it, rd) else rule
  {
    hide Noted;
    if present { assert [it][1..] == []; }
  }

  lemma NotedAddrs(rule: Parsed, c: Criteria, rd: Readers)
    requires Expanded(c) && rule.criteria == BLANK
    ensures AllNoted(rule, AddrItems(c), rd) ==
            rule.(criteria := BLANK.(src := c.src, dst := c.dst, notSrc := c.notSrc, notDst := c.notDst))
  {
    var a := if c.src != [] then [Src(c.notSrc, c.src[0])] else [];
    var b := if c.dst != [] then [Dst(c.notDst, c.dst[0])] else [];
    NotedAppend(rule, a, b, rd);
    if c.src != [] { assert a[1..] == [] && c.src == [c.src[0]]; }
    if c.dst != [] { assert b[1..] == [] && c.dst == [c.dst[0]]; }
  }

  lemma NotedPorts(rule: Parsed, c: Criteria, rd: Readers)
    requires Expanded(c) && rule.criteria.srcPort == "" && rule.criteria.dstPort == ""
    requires !rule.criteria.notSrcPort && !rule.criteria.notDstPort
    ensures AllNoted(rule, PortItems(c), rd) ==
            rule.(criteria := rule.criteria.(srcPort := c.srcPort, dstPort := c.dstPort,
                                             notSrcPort := c.notSrcPort, notDstPort := c.notDstPort))
  {
    hide AllNoted;
    var sport, dport := Sport(c.notSrcPort, c.srcPort), Dport(c.notDstPort, c.dstPort);
    NotedAppend(rule, When(c.srcPort != "", sport), When(c.dstPort != "", dport), rd);
    NotedWhen(rule, c.srcPort != "", sport, rd);
    NotedWhen(AllNoted(rule, When(c.srcPort != "", sport), rd), c.dstPort != "", dport, rd);
  }

  /** The scan of an expected rule's listing finds that rule's set and criteria. */
  lemma NotedExpected(e: Expected, mask: nat, sp: Spelling, rd: Readers)
    requires Expanded(e.criteria) && Spells(sp, e, mask, rd)
    ensures AllNoted(Fresh(e.v6), ItemsOf(e, sp), rd) == Fresh(e.v6).(set_ := e.set_, criteria := e.criteria)
  {
    hide AllNoted, AddrItems, PortItems, When, Expanded;
    var c, blank := e.criteria, Fresh(e.v6);
    var a, b, d, f, g := AddrItems(c), When(!c.proto.Any?, L4(sp.proto)), When(e.set_ != "", InSet(e.set_)),
      PortItems(c), When(c.dscp.Some?, Dscp(sp.dscp));
    NotedAppend(blank, a + b + d + f, g, rd);
    NotedAppend(blank, a + b + d, f, rd);
    NotedAppend(blank, a + b, d, rd);
    NotedAppend(blank, a, b, rd);
    NotedAddrs(blank, c, rd);
    var r1 := AllNoted(blank, a, rd);
    NotedWhen(r1, !c.proto.Any?, L4(sp.proto), rd);
    var r2 := AllNoted(r1, b, rd);
    NotedWhen(r2, e.set_ != "", InSet(e.set_), rd);
    var r3 := AllNoted(r2, d, rd);
    NotedPorts(r3, c, rd);
    NotedWhen(AllNoted(r3, f, rd), c.dscp.Some?, Dscp(sp.dscp), rd);
  }

  /** Completeness of the live side: the listing of any expanded expected rule that names a
      set or a criterion is kept and matches that rule. */
  lemma ListingIsRecognised(e: Expected, mask: nat, sp: Spelling, rd: Readers)
    requires Expanded(e.criteria) && Spells(sp, e, mask, rd) && (e.set_ != "" || !NoCriteria(e.criteria))
    ensures var r := Kept(Scan(Tokens(ItemsOf(e, sp)) + VerbTokens(VerbOf(e, sp)), Fresh(e.v6), false, rd));
            r.Some? && RuleMatches(r.value, e, mask) && OneAction(r.value)
  {
    hide Scan, Tokens, VerbTokens, ItemsOf, AllNoted, XmarkOf, Expanded, NormalizeList;
    KeptExactly(ItemsOf(e, sp), VerbOf(e, sp), e.v6, rd);
    NotedExpected(e, mask, sp, rd);
  }
}
