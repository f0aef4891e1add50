/** What the kernel does with the lines keen-pbr writes: packets, address sets,
    and the evaluation of a user chain and of the dispatcher that jumps to it.
    This is the meaning against which the rule compiler is proved. */
module Netfilter {
  import opened Common
  import opened Bits

  datatype Generation = A | B

  function Opposite(g: Generation): (r: Generation)
    ensures r != g
  {
    if g == A then B else A
  }

  /** Destination sets: static list contents live in one of two generations per
      family, sets filled by dnsmasq are shared by both. */
  datatype SetName =
    | Static(v6: bool, gen: Generation, list: string)
    | Dynamic(v6: bool, list: string)

  /** The physical names: kpbr4s_, kpbr4S_, kpbr4d_ and their IPv6 forms. */
  function Render(n: SetName): (r: string)
  {
    match n
    case Static(v6, gen, list) =>
      (if v6 then "kpbr6" else "kpbr4") + (if gen == A then "s_" else "S_") + list
    case Dynamic(v6, list) => (if v6 then "kpbr6" else "kpbr4") + "d_" + list
  }

  /** Distinct sets never share a physical name, so the model may use `SetName`. */
  lemma RenderInjective(n: SetName, m: SetName)
    requires Render(n) == Render(m)
    ensures n == m
  {
    var a, b := Render(n), Render(m);
    assert a[4] == (if n.v6 then '6' else '4') && b[4] == (if m.v6 then '6' else '4');
    assert a[5] == (if n.Dynamic? then 'd' else if n.gen == A then 's' else 'S');
    assert b[5] == (if m.Dynamic? then 'd' else if m.gen == A then 's' else 'S');
    assert a[7..] == n.list && b[7..] == m.list;
  }

  datatype Cidr = Cidr(v6: bool, base: nat, len: nat)

  function Width(v6: bool): nat { if v6 then 128 else 32 }

  function BlockSize(c: Cidr): (r: nat)
    ensures r > 0
  {
    if c.len <= Width(c.v6) then Pow2(Width(c.v6) - c.len) else 1
  }

  predicate Covers(c: Cidr, a: nat)
  {
    a / BlockSize(c) == c.base / BlockSize(c)
  }

  type Sets = map<SetName, set<Cidr>>

  predicate InSet(sets: Sets, name: SetName, a: nat)
  {
    name in sets && exists c :: c in sets[name] && Covers(c, a)
  }

  datatype L4 = TcpSegment | UdpDatagram | OtherL4

  datatype Packet = Packet(
    v6: bool, l4: L4, sport: nat, dport: nat, src: nat, dst: nat, iface: string, dscp: nat,
    original: bool, dnat: bool, mark: nat, ctmark: nat)

  datatype Proto = AnyProto | Tcp | Udp | TcpUdp

  datatype PortRange = PortRange(from: nat, to: nat)

  datatype Ports = Ports(negate: bool, ranges: seq<PortRange>)

  datatype AddrMatch = AnyAddr | Addr(negate: bool, cidr: Cidr)

  datatype Match =
    | Selector(set_: Option<SetName>, iface: Option<string>, src: AddrMatch, dst: AddrMatch,
               dscp: Option<nat>, proto: Proto, sport: Ports, dport: Ports)
    | OriginalWithCtmark(mask: nat)
    | OriginalWithMark(mask: nat)
    | DnatState
    | AnyMark
    | NotFrom(allowed: string)
    | Everything

  datatype Target =
    | SetXmark(value: nat, mask: nat)
    | SaveMark(ctmask: nat)
    | RestoreMark(ctmask: nat)
    | Return
    | Drop
    | Accept
    | Jump(gen: Generation)

  datatype Line = Line(m: Match, target: Target)

  predicate PortOk(ports: Ports, port: nat, l4: L4)
  {
    ports.ranges == [] ||
    (!l4.OtherL4? &&
     ports.negate != exists r :: r in ports.ranges && r.from <= port <= r.to)
  }

  predicate ProtoOk(proto: Proto, l4: L4)
  {
    match proto
    case AnyProto => true
    case Tcp => l4.TcpSegment?
    case Udp => l4.UdpDatagram?
    case TcpUdp => !l4.OtherL4?
  }

  predicate AddrOk(m: AddrMatch, a: nat)
  {
    m.AnyAddr? || m.negate != Covers(m.cidr, a)
  }

  predicate Matches(m: Match, sets: Sets, p: Packet)
  {
    match m
    case Selector(set_, iface, src, dst, dscp, proto, sport, dport) =>
      && (set_.Some? ==> InSet(sets, set_.value, p.dst))
      && (iface.Some? ==> p.iface == iface.value)
      && AddrOk(src, p.src) && AddrOk(dst, p.dst)
      && (dscp.Some? ==> p.dscp == dscp.value)
      && ProtoOk(proto, p.l4) && PortOk(sport, p.sport, p.l4) && PortOk(dport, p.dport, p.l4)
    case OriginalWithCtmark(mask) => p.original && And(p.ctmark, mask) != 0
    case OriginalWithMark(mask) => p.original && And(p.mark, mask) != 0
    case DnatState => p.dnat
    case AnyMark => p.mark != 0
    case NotFrom(allowed) => p.iface != allowed
    case Everything => true
  }

  /** Where a packet stands after some lines: still in the chain, returned from
      it, dropped, or accepted by the hook. */
  datatype Outcome = Go(p: Packet) | Returned(p: Packet) | Dropped | Accepted(p: Packet)

  function StepLine(line: Line, sets: Sets, p: Packet): Outcome
  {
    if !Matches(line.m, sets, p) then Go(p)
    else
      match line.target
      case SetXmark(value, mask) => Go(p.(mark := Xmark(p.mark, value, mask)))
      case SaveMark(mask) => Go(p.(ctmark := Xmark(p.ctmark, And(p.mark, mask), mask)))
      case RestoreMark(mask) => Go(p.(mark := Xmark(p.mark, And(p.ctmark, mask), mask)))
      case Return => Returned(p)
      case Drop => Dropped
      case Accept => Accepted(p)
      case Jump(_) => Go(p)
  }

  /** A generation chain; it contains no jumps. */
  function EvalChain(lines: seq<Line>, sets: Sets, p: Packet): Outcome
  {
    if lines == [] then Go(p)
    else
      var o := StepLine(lines[0], sets, p);
      if o.Go? then EvalChain(lines[1..], sets, o.p) else o
  }

  /** The dispatcher: a jump evaluates the generation chain, and a packet that
      returns from it or reaches its end goes on with the next dispatcher line. */
  function EvalDispatcher(lines: seq<Line>, chains: map<Generation, seq<Line>>, sets: Sets, p: Packet): Outcome
  {
    if lines == [] then Go(p)
    else
      var o := if lines[0].target.Jump? && lines[0].target.gen in chains && Matches(lines[0].m, sets, p)
               then AfterCall(EvalChain(chains[lines[0].target.gen], sets, p))
               else StepLine(lines[0], sets, p);
      if o.Go? then EvalDispatcher(lines[1..], chains, sets, o.p) else o
  }

  function AfterCall(o: Outcome): Outcome
  {
    if o.Returned? then Go(o.p) else o
  }

  lemma EvalOne(line: Line, sets: Sets, p: Packet)
    ensures EvalChain([line], sets, p) == StepLine(line, sets, p)
  {
    var o := StepLine(line, sets, p);
    if o.Go? { assert EvalChain([line][1..], sets, o.p) == Go(o.p); }
  }

  lemma {:induction false} EvalAppend(a: seq<Line>, b: seq<Line>, sets: Sets, p: Packet)
    ensures EvalChain(a + b, sets, p) ==
            (var o := EvalChain(a, sets, p); if o.Go? then EvalChain(b, sets, o.p) else o)
  {
    if a == [] {
      assert a + b == b;
    } else {
      assert (a + b)[1..] == a[1..] + b;
      var o := StepLine(a[0], sets, p);
      if o.Go? { EvalAppend(a[1..], b, sets, o.p); }
    }
  }

  /** Behind its leading jump a dispatcher without further jumps behaves like a plain chain. */
  lemma {:induction false} DispatcherTail(lines: seq<Line>, chains: map<Generation, seq<Line>>, sets: Sets, p: Packet)
    requires forall l :: l in lines ==> !l.target.Jump?
    ensures EvalDispatcher(lines, chains, sets, p) == EvalChain(lines, sets, p)
  {
    if lines != [] {
      var o := StepLine(lines[0], sets, p);
      if o.Go? { DispatcherTail(lines[1..], chains, sets, o.p); }
    }
  }

  /** Set names a line consults. */
  function Refs(lines: seq<Line>): (r: set<SetName>)
    ensures forall n :: n in r <==> exists l :: l in lines && l.m.Selector? && l.m.set_ == Some(n)
  {
    if lines == [] then {}
    else
      var head := if lines[0].m.Selector? && lines[0].m.set_.Some? then {lines[0].m.set_.value} else {};
      assert lines == [lines[0]] + lines[1..];
      head + Refs(lines[1..])
  }
}
