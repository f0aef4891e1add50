/** The expected side of the verifier: the expansion of rule states into expected rules. */
module VerifierInput {
  import opened Common
  import opened Verifier
  import Netfilter

  // ---------------------------------------------------------------- expected rules

  /** A rule state; no action means the rule was skipped. */
  datatype RuleState = RuleState(action: Option<Action>, sets: seq<string>, fwmark: nat, criteria: Criteria)

  datatype Target = Target(set_: string, v6: bool)

  /** The family a set name belongs to; unknown names count as IPv4. */
  predicate SetIsV6(s: string)
  {
    "kpbr6_" <= s || "kpbr6s_" <= s || "kpbr6S_" <= s || "kpbr6d_" <= s
  }

  predicate HasSelector(c: Criteria)
  {
    c.dscp.Some? || c.srcPort != "" || c.dstPort != "" || c.src != [] || c.dst != []
  }

  function Targets(rs: RuleState): seq<Target>
  {
    if rs.sets != [] then Map(rs.sets, (s: string) => Target(s, SetIsV6(s)))
    else if HasSelector(rs.criteria) then [Target("", false), Target("", true)]
    else []
  }

  function Protos(c: Criteria): seq<Proto>
  {
    if c.proto.TcpUdp? || (c.proto.Any? && (c.srcPort != "" || c.dstPort != "")) then [Tcp, Udp] else [c.proto]
  }

  function OfFamily(v6: bool): string -> bool
  {
    (a: string) => (':' in a) == v6
  }

  /** The addresses a target is expanded over: a single unspecified one if none is given. */
  function Addrs(addrs: seq<string>, v6: bool): seq<string>
  {
    if addrs == [] then [""] else Filter(addrs, OfFamily(v6))
  }

  function Single(a: string): seq<string>
  {
    if a == "" then [] else [a]
  }

  function ForDst(rs: RuleState, act: Action, t: Target, p: Proto, src: string): string -> seq<Expected>
  {
    (dst: string) =>
      [Expected(t.set_, t.v6, act, rs.fwmark, rs.criteria.(proto := p, src := Single(src), dst := Single(dst)))]
  }

  function ForSrc(rs: RuleState, act: Action, t: Target, p: Proto): string -> seq<Expected>
  {
    (src: string) => FlatMap(Addrs(rs.criteria.dst, t.v6), ForDst(rs, act, t, p, src))
  }

  function ForProto(rs: RuleState, act: Action, t: Target): Proto -> seq<Expected>
  {
    (p: Proto) => FlatMap(Addrs(rs.criteria.src, t.v6), ForSrc(rs, act, t, p))
  }

  /** A target whose family none of the given addresses belongs to expands to nothing. */
  function ForTarget(rs: RuleState, act: Action): Target -> seq<Expected>
  {
    (t: Target) =>
      if Addrs(rs.criteria.src, t.v6) == [] || Addrs(rs.criteria.dst, t.v6) == [] then []
      else FlatMap(Protos(rs.criteria), ForProto(rs, act, t))
  }

  function ForState(): RuleState -> seq<Expected>
  {
    (rs: RuleState) => if rs.action.None? then [] else FlatMap(Targets(rs), ForTarget(rs, rs.action.value))
  }

  method ExpandDst(rs: RuleState, act: Action, t: Target, p: Proto, src: string, dsts: seq<string>)
    returns (out: seq<Expected>)
    ensures out == FlatMap(dsts, ForDst(rs, act, t, p, src))
  {
    hide FlatMap;
    out := [];
    FlatMapNone(ForDst(rs, act, t, p, src));
    for i := 0 to |dsts|
      invariant out == FlatMap(dsts[..i], ForDst(rs, act, t, p, src))
    {
      FlatMapStep(dsts, i, ForDst(rs, act, t, p, src));
      var dst := dsts[i];
      out := out + [Expected(t.set_, t.v6, act, rs.fwmark,
                             rs.criteria.(proto := p, src := Single(src), dst := Single(dst)))];
    }
    assert dsts[..|dsts|] == dsts;
  }

  method ExpandTarget(rs: RuleState, act: Action, t: Target) returns (out: seq<Expected>)
    ensures out == ForTarget(rs, act)(t)
  {
    hide FlatMap, Addrs, ForDst;
    out := [];
    var srcs, dsts := Addrs(rs.criteria.src, t.v6), Addrs(rs.criteria.dst, t.v6);
    if srcs == [] || dsts == [] { return; }
    var protos := Protos(rs.criteria);
    FlatMapNone(ForProto(rs, act, t));
    for i := 0 to |protos|
      invariant out == FlatMap(protos[..i], ForProto(rs, act, t))
    {
      FlatMapStep(protos, i, ForProto(rs, act, t));
      var part := ExpandSrc(rs, act, t, protos[i], srcs, dsts);
      out := out + part;
    }
    assert protos[..|protos|] == protos;
  }

  method ExpandSrc(rs: RuleState, act: Action, t: Target, p: Proto, srcs: seq<string>, dsts: seq<string>)
    returns (out: seq<Expected>)
    requires srcs == Addrs(rs.criteria.src, t.v6) && dsts == Addrs(rs.criteria.dst, t.v6)
    ensures out == ForProto(rs, act, t)(p)
  {
    hide FlatMap, Addrs, ForDst;
    out := [];
    FlatMapNone(ForSrc(rs, act, t, p));
    for i := 0 to |srcs|
      invariant out == FlatMap(srcs[..i], ForSrc(rs, act, t, p))
    {
      FlatMapStep(srcs, i, ForSrc(rs, act, t, p));
      var part := ExpandDst(rs, act, t, p, srcs[i], dsts);
      out := out + part;
    }
    assert srcs[..|srcs|] == srcs;
  }

  method ExpandState(rs: RuleState) returns (out: seq<Expected>)
    ensures out == ForState()(rs)
  {
    hide FlatMap, ForTarget, Targets;
    out := [];
    if rs.action.None? { return; }
    var targets := Targets(rs);
    FlatMapNone(ForTarget(rs, rs.action.value));
    for i := 0 to |targets|
      invariant out == FlatMap(targets[..i], ForTarget(rs, rs.action.value))
    {
      FlatMapStep(targets, i, ForTarget(rs, rs.action.value));
      var part := ExpandTarget(rs, rs.action.value, targets[i]);
      out := out + part;
    }
    assert targets[..|targets|] == targets;
  }

  method ExpandExpected(states: seq<RuleState>) returns (out: seq<Expected>)
    ensures out == FlatMap(states, ForState())
  {
    hide FlatMap, ForState;
    out := [];
    FlatMapNone(ForState());
    for i := 0 to |states|
      invariant out == FlatMap(states[..i], ForState())
    {
      FlatMapStep(states, i, ForState());
      var part := ExpandState(states[i]);
      out := out + part;
    }
    assert states[..|states|] == states;
  }

  function One(rs: RuleState, act: Action, t: Target, p: Proto, src: string, dst: string): Expected
  {
    Expected(t.set_, t.v6, act, rs.fwmark, rs.criteria.(proto := p, src := Single(src), dst := Single(dst)))
  }

  /** Every expanded rule comes from one protocol, source and destination of its family. */
  lemma ExpansionSound(rs: RuleState, act: Action, t: Target, e: Expected) returns (p: Proto, src: string, dst: string)
    requires e in ForTarget(rs, act)(t)
    ensures p in Protos(rs.criteria) && src in Addrs(rs.criteria.src, t.v6) && dst in Addrs(rs.criteria.dst, t.v6)
    ensures e == One(rs, act, t, p, src, dst)
  {
    hide FlatMap, Addrs, Protos, Single;
    FlatMapMember(Protos(rs.criteria), ForProto(rs, act, t), e);
    p :| p in Protos(rs.criteria) && e in ForProto(rs, act, t)(p);
    FlatMapMember(Addrs(rs.criteria.src, t.v6), ForSrc(rs, act, t, p), e);
    src :| src in Addrs(rs.criteria.src, t.v6) && e in ForSrc(rs, act, t, p)(src);
    FlatMapMember(Addrs(rs.criteria.dst, t.v6), ForDst(rs, act, t, p, src), e);
    dst :| dst in Addrs(rs.criteria.dst, t.v6) && e in ForDst(rs, act, t, p, src)(dst);
  }

  /** Every such combination is expanded. */
  lemma ExpansionComplete(rs: RuleState, act: Action, t: Target, p: Proto, src: string, dst: string)
    requires p in Protos(rs.criteria) && src in Addrs(rs.criteria.src, t.v6) && dst in Addrs(rs.criteria.dst, t.v6)
    ensures One(rs, act, t, p, src, dst) in ForTarget(rs, act)(t)
  {
    hide FlatMap, Addrs, Protos, Single;
    var e := One(rs, act, t, p, src, dst);
    assert e in ForDst(rs, act, t, p, src)(dst);
    FlatMapMember(Addrs(rs.criteria.dst, t.v6), ForDst(rs, act, t, p, src), e);
    assert e in ForSrc(rs, act, t, p)(src);
    FlatMapMember(Addrs(rs.criteria.src, t.v6), ForSrc(rs, act, t, p), e);
    assert e in ForProto(rs, act, t)(p);
    FlatMapMember(Protos(rs.criteria), ForProto(rs, act, t), e);
  }

  // ---------------------------------------------------------------- what a rule state expects

  /** A set name's family is that of the set it stands for. */
  lemma FamilyByName(n: Netfilter.SetName)
    ensures SetIsV6(Netfilter.Render(n)) <==> n.v6
  {
    var s := Netfilter.Render(n);
    assert s[4] == if n.v6 then '6' else '4';
    match n
    case Static(v6, gen, list) =>
      assert s[..7] == (if v6 then "kpbr6" else "kpbr4") + (if gen == Netfilter.A then "s_" else "S_");
    case Dynamic(v6, list) =>
      assert s[..7] == (if v6 then "kpbr6d_" else "kpbr4d_");
  }

  /** The sets and families a rule state stands for: each named set in its own family; without
      sets both families, if anything is selected at all. */
  lemma TargetsExactly(rs: RuleState, t: Target)
    ensures t in Targets(rs) <==>
            if rs.sets != [] then t.set_ in rs.sets && t.v6 == SetIsV6(t.set_)
            else t.set_ == "" && (rs.criteria.dscp.Some? || rs.criteria.srcPort != "" || rs.criteria.dstPort != ""
                                  || rs.criteria.src != [] || rs.criteria.dst != [])
  {
    if rs.sets != [] {
      MapMember(rs.sets, (s: string) => Target(s, SetIsV6(s)), t);
    }
  }

  /** One address of the family, or none when none is asked for. */
  predicate Picks(addrs: seq<string>, v6: bool, picked: seq<string>)
  {
    if addrs == [] then picked == []
    else exists a :: a in addrs && (':' in a) == v6 && picked == if a == "" then [] else [a]
  }

  lemma PickedExactly(addrs: seq<string>, v6: bool, picked: seq<string>)
    ensures Picks(addrs, v6, picked) <==> exists a :: a in Addrs(addrs, v6) && picked == Single(a)
  {
    if addrs == [] {
      assert "" in Addrs(addrs, v6);
    } else if a :| a in addrs && (':' in a) == v6 && picked == Single(a) {
      assert a in Addrs(addrs, v6);
    }
  }

  lemma ForTargetExactly(rs: RuleState, act: Action, t: Target, e: Expected)
    ensures e in ForTarget(rs, act)(t) <==>
            && e.set_ == t.set_ && e.v6 == t.v6 && e.action == act && e.fwmark == rs.fwmark
            && (if rs.criteria.proto.TcpUdp?
                   || (rs.criteria.proto.Any? && (rs.criteria.srcPort != "" || rs.criteria.dstPort != ""))
                then e.criteria.proto in {Tcp, Udp} else e.criteria.proto == rs.criteria.proto)
            && Picks(rs.criteria.src, t.v6, e.criteria.src) && Picks(rs.criteria.dst, t.v6, e.criteria.dst)
            && e.criteria == rs.criteria.(proto := e.criteria.proto, src := e.criteria.src, dst := e.criteria.dst)
  {
    hide FlatMap, Addrs, Single, Picks, ForTarget;
    PickedExactly(rs.criteria.src, t.v6, e.criteria.src);
    PickedExactly(rs.criteria.dst, t.v6, e.criteria.dst);
    if e in ForTarget(rs, act)(t) {
      var p, src, dst := ExpansionSound(rs, act, t, e);
    }
    if && e.set_ == t.set_ && e.v6 == t.v6 && e.action == act && e.fwmark == rs.fwmark
       && e.criteria.proto in Protos(rs.criteria)
       && Picks(rs.criteria.src, t.v6, e.criteria.src) && Picks(rs.criteria.dst, t.v6, e.criteria.dst)
       && e.criteria == rs.criteria.(proto := e.criteria.proto, src := e.criteria.src, dst := e.criteria.dst) {
      var src :| src in Addrs(rs.criteria.src, t.v6) && e.criteria.src == Single(src);
      var dst :| dst in Addrs(rs.criteria.dst, t.v6) && e.criteria.dst == Single(dst);
      ExpansionComplete(rs, act, t, e.criteria.proto, src, dst);
      assert e == One(rs, act, t, e.criteria.proto, src, dst);
    }
  }

  /** Exactly which rules a list of rule states is expected to have installed: for each state
      with an action, in each of its sets' families or in both, with tcp and udp apart, one
      address of that family on each side, and everything else as the state has it. */
  lemma ExpectedExactly(states: seq<RuleState>, e: Expected)
    ensures e in FlatMap(states, ForState()) <==>
            exists rs :: && rs in states && rs.action == Some(e.action)
                         && Target(e.set_, e.v6) in Targets(rs)
                         && e in ForTarget(rs, e.action)(Target(e.set_, e.v6))
  {
    hide FlatMap, ForTarget, Targets;
    FlatMapMember(states, ForState(), e);
    forall rs | rs in states
      ensures e in ForState()(rs) <==>
              rs.action == Some(e.action) && Target(e.set_, e.v6) in Targets(rs)
              && e in ForTarget(rs, e.action)(Target(e.set_, e.v6))
    {
      if rs.action.Some? {
        FlatMapMember(Targets(rs), ForTarget(rs, rs.action.value), e);
        forall t
          ensures e in ForTarget(rs, rs.action.value)(t) ==> t == Target(e.set_, e.v6) && rs.action.value == e.action
        {
          ForTargetExactly(rs, rs.action.value, t, e);
        }
      }
    }
  }
}
