/** The nftables backend: one document of commands, applied by the kernel as a
    transaction, that creates or replaces sets, replaces the two chains and loads the
    static sets. What the document means is stated for every table it may meet. */
module NftDocument {
  import opened Common

  datatype Schema = Schema(v6: bool, timeout: nat)

  datatype NftSet = NftSet(schema: Schema, elems: set<string>)

  datatype ChainName = Prerouting | Output

  datatype Proto = AnyProto | Tcp | Udp | TcpUdp

  datatype RuleAction = Mark(value: nat) | Drop | Pass

  /** What a rule matches on; `specific` stands for ports and DSCP. */
  datatype Criteria = Criteria(set_: Option<string>, proto: Proto, src: seq<string>, dst: seq<string>, specific: bool,
                               output: bool)

  /** A rule of a chain and the set it matches, if any. */
  datatype NftRule = NftRule(chain: ChainName, ref: Option<string>, v6: bool, action: RuleAction, criteria: Criteria)

  datatype Table = Table(sets: map<string, NftSet>, chains: map<ChainName, seq<NftRule>>)

  datatype Command =
    | AddTable
    | AddSet(name: string, schema: Schema) | DeleteSet(name: string) | FlushSet(name: string)
    | AddElements(name: string, elems: seq<string>)
    | DeleteChain(chain: ChainName) | AddChain(chain: ChainName) | AddRule(rule: NftRule)

  // ---------------------------------------------------------------- kernel

  predicate Referenced(t: Table, n: string)
  {
    exists c, i :: c in t.chains && 0 <= i < |t.chains[c]| && t.chains[c][i].ref == Some(n)
  }

  function Members(s: seq<string>): set<string>
  {
    set x | x in s
  }

  /** One command on an existing table; None when the kernel refuses it. A set that a
      rule still matches cannot be deleted. */
  function Exec(t: Table, c: Command): Option<Table>
  {
    match c
    case AddTable => Some(t)
    case AddSet(n, s) =>
      if n !in t.sets then Some(t.(sets := t.sets[n := NftSet(s, {})]))
      else if t.sets[n].schema == s then Some(t) else None
    case DeleteSet(n) => if n in t.sets && !Referenced(t, n) then Some(t.(sets := t.sets - {n})) else None
    case FlushSet(n) => if n in t.sets then Some(t.(sets := t.sets[n := t.sets[n].(elems := {})])) else None
    case AddElements(n, es) =>
      if n in t.sets then Some(t.(sets := t.sets[n := t.sets[n].(elems := t.sets[n].elems + Members(es))])) else None
    case DeleteChain(ch) => if ch in t.chains then Some(t.(chains := t.chains - {ch})) else None
    case AddChain(ch) => Some(if ch in t.chains then t else t.(chains := t.chains[ch := []]))
    case AddRule(r) =>
      if r.chain in t.chains && (r.ref.Some? ==> r.ref.value in t.sets)
      then Some(t.(chains := t.chains[r.chain := t.chains[r.chain] + [r]])) else None
  }

  function Run(cs: seq<Command>, t: Table): Option<Table>
  {
    if cs == [] then Some(t)
    else match Exec(t, cs[0])
      case None => None
      case Some(u) => Run(cs[1..], u)
  }

  /** A transaction on a table that may not exist: all of it or nothing. */
  function Transaction(cs: seq<Command>, t: Option<Table>): Option<Table>
  {
    if t.Some? then Run(cs, t.value)
    else if cs != [] && cs[0].AddTable? then Run(cs[1..], Table(map[], map[])) else None
  }

  lemma {:induction false} RunAppend(a: seq<Command>, b: seq<Command>, t: Table)
    ensures Run(a + b, t) == match Run(a, t) case None => None case Some(u) => Run(b, u)
  {
    hide Exec;
    if a == [] {
      assert a + b == b;
    } else {
      assert (a + b)[1..] == a[1..] + b;
      match Exec(t, a[0])
      case None =>
      case Some(u) => RunAppend(a[1..], b, u);
    }
  }

  lemma RunOne(c: Command, t: Table)
    ensures Run([c], t) == Exec(t, c)
  {
    hide Exec;
    match Exec(t, c)
    case None =>
    case Some(u) => assert Run([c][1..], u) == Some(u);
  }

  lemma RunTwo(c: Command, d: Command, t: Table)
    ensures Run([c, d], t) == match Exec(t, c) case None => None case Some(u) => Exec(u, d)
  {
    hide Exec;
    assert [c, d] == [c] + [d];
    RunAppend([c], [d], t);
    RunOne(c, t);
    match Exec(t, c)
    case None =>
    case Some(u) => RunOne(d, u);
  }

  // ---------------------------------------------------------------- document

  datatype PendingSet = PendingSet(name: string, schema: Schema)

  /** Elements streamed into one set. */
  datatype Load = Load(name: string, elems: seq<string>)

  /** What reading the live table reported. */
  datatype Live = Live(table: bool, chains: set<ChainName>, schemas: map<string, Schema>)

  /** How a document is built: what was read and the flags of the apply. */
  datatype Plan = Plan(live: Live, full: bool, staticOnly: bool, clear: bool)

  predicate IsDynamic(n: string)
  {
    "kpbr4d_" <= n || "kpbr6d_" <= n
  }

  predicate Known(p: Plan, n: string)
  {
    !p.full && n in p.live.schemas
  }

  function SetCmds(p: Plan): PendingSet -> seq<Command>
  {
    (ps: PendingSet) =>
      if Known(p, ps.name) && IsDynamic(ps.name) then if p.clear then [FlushSet(ps.name)] else []
      else if Known(p, ps.name) && p.live.schemas[ps.name] == ps.schema then []
      else if Known(p, ps.name) then [DeleteSet(ps.name), AddSet(ps.name, ps.schema)]
      else [AddSet(ps.name, ps.schema)]
  }

  function ChainCmds(p: Plan): seq<Command>
  {
    (if !p.full && Prerouting in p.live.chains then [DeleteChain(Prerouting)] else [])
    + (if !p.full && Output in p.live.chains then [DeleteChain(Output)] else [])
    + [AddChain(Prerouting), AddChain(Output)]
  }

  function RuleCmd(): NftRule -> Command
  {
    (r: NftRule) => AddRule(r)
  }

  function LoadCmds(p: Plan): Load -> seq<Command>
  {
    (l: Load) =>
      if Known(p, l.name) && IsDynamic(l.name) then []
      else (if Known(p, l.name) then [FlushSet(l.name)] else [])
           + (if l.elems != [] then [AddElements(l.name, l.elems)] else [])
  }

  function ChainPart(p: Plan, rules: seq<NftRule>): seq<Command>
  {
    if p.staticOnly then [] else ChainCmds(p) + Map(rules, RuleCmd())
  }

  function Document(p: Plan, pending: seq<PendingSet>, rules: seq<NftRule>, loads: seq<Load>): seq<Command>
  {
    (if p.full then [AddTable] else []) + FlatMap(pending, SetCmds(p)) + ChainPart(p, rules)
    + FlatMap(loads, LoadCmds(p))
  }

  // ---------------------------------------------------------------- sets

  /** What was read is true of the table: nothing is claimed that is not there. */
  ghost predicate Truthful(p: Plan, t: Table)
  {
    (forall n :: Known(p, n) ==> n in t.sets && p.live.schemas[n] == t.sets[n].schema) && ChainsTruthful(p, t)
  }

  ghost predicate ChainsTruthful(p: Plan, t: Table)
  {
    forall c :: !p.full && c in p.live.chains ==> c in t.chains
  }

  /** The same name is always pending with the same schema. */
  ghost predicate Consistent(pending: seq<PendingSet>)
  {
    forall i, j :: 0 <= i < j < |pending| && pending[i].name == pending[j].name ==> pending[i] == pending[j]
  }

  /** A set whose creation the kernel refuses: a changed schema on a set that live rules
      match, or one that exists unseen with another schema. */
  ghost predicate Blocked(p: Plan, t: Table, ps: PendingSet)
  {
    && ps.name in t.sets && t.sets[ps.name].schema != ps.schema
    && if Known(p, ps.name) then !IsDynamic(ps.name) && Referenced(t, ps.name) else true
  }

  /** A pending set once created or refreshed. */
  function SetAfter(p: Plan, t: Table, ps: PendingSet): NftSet
  {
    if ps.name !in t.sets then NftSet(ps.schema, {})
    else if Known(p, ps.name) && IsDynamic(ps.name) then
      if p.clear then t.sets[ps.name].(elems := {}) else t.sets[ps.name]
    else if t.sets[ps.name].schema == ps.schema then t.sets[ps.name]
    else NftSet(ps.schema, {})
  }

  predicate Pending(pending: seq<PendingSet>, n: string)
  {
    exists i :: 0 <= i < |pending| && pending[i].name == n
  }

  ghost predicate SetsAre(p: Plan, t: Table, pending: seq<PendingSet>, u: Table)
  {
    && u.chains == t.chains
    && (forall i :: 0 <= i < |pending| ==>
          pending[i].name in u.sets && u.sets[pending[i].name] == SetAfter(p, t, pending[i]))
    && (forall n :: !Pending(pending, n) ==> (n in u.sets <==> n in t.sets))
    && (forall n :: !Pending(pending, n) && n in t.sets ==> u.sets[n] == t.sets[n])
  }

  /** The commands of one pending set, met after those of `before`. */
  lemma SetStep(p: Plan, t: Table, before: seq<PendingSet>, ps: PendingSet, u: Table)
    requires Truthful(p, t) && SetsAre(p, t, before, u)
    requires forall i :: 0 <= i < |before| && before[i].name == ps.name ==> before[i] == ps && !Blocked(p, t, ps)
    ensures var r := Run(SetCmds(p)(ps), u);
            && (r.None? <==> Blocked(p, t, ps))
            && (r.Some? ==> SetStepped(p, t, ps, u, r.value))
  {
    hide Run, IsDynamic, Referenced, Exec;
    var n := ps.name;
    HereBefore(p, t, before, ps, u);
    if Known(p, n) && IsDynamic(n) {
      if p.clear {
        RunOne(FlushSet(n), u);
        Flushes(u, n);
      } else {
        RunNone(u);
      }
    } else if Known(p, n) && p.live.schemas[n] == ps.schema {
      RunNone(u);
    } else if Known(p, n) {
      RunTwo(DeleteSet(n), AddSet(n, ps.schema), u);
      Replaces(u, n, ps.schema);
    } else {
      RunOne(AddSet(n, ps.schema), u);
      Adds(u, n, ps.schema);
    }
  }

  /** The set as the earlier commands left it, and who references it. */
  lemma HereBefore(p: Plan, t: Table, before: seq<PendingSet>, ps: PendingSet, u: Table)
    requires SetsAre(p, t, before, u)
    requires forall i :: 0 <= i < |before| && before[i].name == ps.name ==> before[i] == ps && !Blocked(p, t, ps)
    ensures Referenced(u, ps.name) <==> Referenced(t, ps.name)
    ensures || (ps.name in u.sets && u.sets[ps.name] == SetAfter(p, t, ps) && !Blocked(p, t, ps))
            || ((ps.name in u.sets <==> ps.name in t.sets)
               && (ps.name in t.sets ==> u.sets[ps.name] == t.sets[ps.name]))
  {
    hide SetAfter, Blocked;
    if Pending(before, ps.name) {
      var i :| 0 <= i < |before| && before[i].name == ps.name;
      assert before[i] == ps;
    }
  }

  /** A command changed only the set `n`. */
  ghost predicate OnlySet(u: Table, n: string, v: Table)
  {
    && v.chains == u.chains
    && (forall m :: m != n ==> (m in v.sets <==> m in u.sets))
    && (forall m :: m != n && m in u.sets ==> v.sets[m] == u.sets[m])
  }

  lemma Flushes(u: Table, n: string)
    requires n in u.sets
    ensures var r := Exec(u, FlushSet(n));
            r.Some? && OnlySet(u, n, r.value) && n in r.value.sets && r.value.sets[n] == u.sets[n].(elems := {})
  {}

  lemma Adds(u: Table, n: string, s: Schema)
    ensures var r := Exec(u, AddSet(n, s));
            && (r.None? <==> n in u.sets && u.sets[n].schema != s)
            && (r.Some? ==> OnlySet(u, n, r.value) && n in r.value.sets
                            && r.value.sets[n] == if n in u.sets then u.sets[n] else NftSet(s, {}))
  {}

  lemma Replaces(u: Table, n: string, s: Schema)
    requires n in u.sets
    ensures var r := match Exec(u, DeleteSet(n)) case None => None case Some(v) => Exec(v, AddSet(n, s));
            && (r.None? <==> Referenced(u, n))
            && (r.Some? ==> OnlySet(u, n, r.value) && n in r.value.sets && r.value.sets[n] == NftSet(s, {}))
  {}

  lemma RunNone(t: Table)
    ensures Run([], t) == Some(t)
  {}

  ghost predicate SetStepped(p: Plan, t: Table, ps: PendingSet, u: Table, v: Table)
  {
    OnlySet(u, ps.name, v) && ps.name in v.sets && v.sets[ps.name] == SetAfter(p, t, ps)
  }
}
