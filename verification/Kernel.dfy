/** The external state behind the iptables backend: ipsets filled by `ipset restore`,
    which may stop after any command, and mangle tables changed by `iptables-restore`,
    which is all or nothing. */
module Kernel {
  import opened Common
  import opened Netfilter

  // ---------------------------------------------------------------- ipset restore

  datatype IpsetCmd = Create(name: SetName) | FlushSet(name: SetName) | AddEntry(name: SetName, entry: Cidr)

  /** One command under `-exist`; a set that is missing makes it fail. */
  function StepIpset(sets: Sets, cmd: IpsetCmd): Option<Sets>
  {
    match cmd
    case Create(n) => Some(if n in sets then sets else sets[n := {}])
    case FlushSet(n) => if n in sets then Some(sets[n := {}]) else None
    case AddEntry(n, c) => if n in sets then Some(sets[n := sets[n] + {c}]) else None
  }

  /** Runs commands up to the first failure. */
  function RunIpset(sets: Sets, cmds: seq<IpsetCmd>): (r: (Sets, bool))
    decreases |cmds|
  {
    if cmds == [] then (sets, true)
    else
      match StepIpset(sets, cmds[0])
      case None => (sets, false)
      case Some(next) => RunIpset(next, cmds[1..])
  }

  lemma {:induction false} RunIpsetAppend(sets: Sets, a: seq<IpsetCmd>, b: seq<IpsetCmd>)
    ensures RunIpset(sets, a + b) ==
            (var r := RunIpset(sets, a); if r.1 then RunIpset(r.0, b) else r)
    decreases |a|
  {
    if a == [] {
      assert a + b == b;
    } else {
      assert (a + b)[1..] == a[1..] + b;
      var next := StepIpset(sets, a[0]);
      if next.Some? { RunIpsetAppend(next.value, a[1..], b); }
    }
  }

  predicate SameSet(s: Sets, t: Sets, n: SetName)
  {
    (n in s <==> n in t) && (n in s ==> s[n] == t[n])
  }

  /** Whatever prefix of a script runs, sets it does not name keep their contents. */
  lemma {:induction false} RunIpsetFrame(sets: Sets, cmds: seq<IpsetCmd>, n: SetName)
    requires forall c :: c in cmds ==> c.name != n
    ensures SameSet(sets, RunIpset(sets, cmds).0, n)
    decreases |cmds|
  {
    if cmds != [] {
      var next := StepIpset(sets, cmds[0]);
      if next.Some? { RunIpsetFrame(next.value, cmds[1..], n); }
    }
  }

  /** A script that only creates a set leaves an existing one with its entries. */
  lemma {:induction false} RunIpsetKeeps(sets: Sets, cmds: seq<IpsetCmd>, n: SetName)
    requires n in sets && forall c :: c in cmds && c.name == n ==> c.Create?
    ensures n in RunIpset(sets, cmds).0 && RunIpset(sets, cmds).0[n] == sets[n]
    decreases |cmds|
  {
    if cmds != [] {
      assert cmds[0] in cmds;
      var next := StepIpset(sets, cmds[0]);
      if next.Some? { RunIpsetKeeps(next.value, cmds[1..], n); }
    }
  }

  // ---------------------------------------------------------------- iptables-restore

  datatype ChainName = Dispatcher | DispatcherOutput | GenChain(gen: Generation)

  /** The daemon's part of one family's mangle table; `hooks` counts the jumps from
      PREROUTING to the dispatcher, `outHooks` those from OUTPUT. */
  datatype Table = Table(hooks: nat, outHooks: nat, chains: map<ChainName, seq<Line>>)

  const EMPTY_TABLE := Table(0, 0, map[])

  datatype RestoreCmd =
    | Declare(chain: ChainName)
    | FlushChain(chain: ChainName)
    | AppendLine(chain: ChainName, line: Line)
    | AppendHook
    | AppendOutHook

  /** Declaring a chain creates it or, under --noflush, empties the existing one. */
  function StepRestore(t: Table, cmd: RestoreCmd): Option<Table>
  {
    match cmd
    case Declare(c) => Some(t.(chains := t.chains[c := []]))
    case FlushChain(c) => if c in t.chains then Some(t.(chains := t.chains[c := []])) else None
    case AppendLine(c, l) => if c in t.chains then Some(t.(chains := t.chains[c := t.chains[c] + [l]])) else None
    case AppendHook => Some(t.(hooks := t.hooks + 1))
    case AppendOutHook => Some(t.(outHooks := t.outHooks + 1))
  }

  function RunRestore(t: Table, cmds: seq<RestoreCmd>): Option<Table>
    decreases |cmds|
  {
    if cmds == [] then Some(t)
    else
      match StepRestore(t, cmds[0])
      case None => None
      case Some(next) => RunRestore(next, cmds[1..])
  }

  lemma {:induction false} RunRestoreAppend(t: Table, a: seq<RestoreCmd>, b: seq<RestoreCmd>)
    ensures RunRestore(t, a + b) ==
            (var r := RunRestore(t, a); if r.Some? then RunRestore(r.value, b) else None)
    decreases |a|
  {
    if a == [] {
      assert a + b == b;
    } else {
      assert (a + b)[1..] == a[1..] + b;
      var next := StepRestore(t, a[0]);
      if next.Some? { RunRestoreAppend(next.value, a[1..], b); }
    }
  }

  lemma RunRestoreCons(t: Table, cmd: RestoreCmd, rest: seq<RestoreCmd>)
    ensures RunRestore(t, [cmd] + rest) ==
            (var next := StepRestore(t, cmd); if next.Some? then RunRestore(next.value, rest) else None)
  {
    assert ([cmd] + rest)[1..] == rest;
  }

  lemma RunIpsetCons(sets: Sets, cmd: IpsetCmd, rest: seq<IpsetCmd>)
    ensures RunIpset(sets, [cmd] + rest) ==
            (var next := StepIpset(sets, cmd); if next.Some? then RunIpset(next.value, rest) else (sets, false))
  {
    assert ([cmd] + rest)[1..] == rest;
  }

  /** Sets the appended lines match against; the kernel refuses a script naming a missing one. */
  predicate SetsExist(cmds: seq<RestoreCmd>, sets: Sets)
  {
    forall c :: c in cmds && c.AppendLine? && c.line.m.Selector? && c.line.m.set_.Some? ==> c.line.m.set_.value in sets
  }

  function AtomicRestore(t: Table, sets: Sets, cmds: seq<RestoreCmd>, commandOk: bool): (r: Option<Table>)
  {
    if commandOk && SetsExist(cmds, sets) then RunRestore(t, cmds) else None
  }

  // ---------------------------------------------------------------- cleanup commands

  datatype CleanCmd = DropHook | DropOutHook | CleanFlush(chain: ChainName) | DeleteChain(chain: ChainName)

  predicate Referenced(t: Table, c: ChainName)
  {
    match c
    case Dispatcher => t.hooks > 0
    case DispatcherOutput => t.outHooks > 0
    case GenChain(g) =>
      exists d, l :: d in t.chains && l in t.chains[d] && l.target == Jump(g)
  }

  /** One `iptables -D`, `-F` or `-X` whose failure the daemon ignores. */
  function StepClean(t: Table, cmd: CleanCmd): Table
  {
    match cmd
    case DropHook => if t.hooks > 0 then t.(hooks := t.hooks - 1) else t
    case DropOutHook => if t.outHooks > 0 then t.(outHooks := t.outHooks - 1) else t
    case CleanFlush(c) => if c in t.chains then t.(chains := t.chains[c := []]) else t
    case DeleteChain(c) =>
      if c in t.chains && t.chains[c] == [] && !Referenced(t, c) then t.(chains := t.chains - {c}) else t
  }

  function RunClean(t: Table, cmds: seq<CleanCmd>, first: nat, failing: set<nat>): (r: Table)
    decreases |cmds|
  {
    if cmds == [] then t
    else RunClean(if first in failing then t else StepClean(t, cmds[0]), cmds[1..], first + 1, failing)
  }

  /** `cleanup_rules_impl` for one family, in command order. */
  const CLEANUP_CMDS: seq<CleanCmd> := [
    DropHook, DropOutHook,
    CleanFlush(DispatcherOutput), DeleteChain(DispatcherOutput),
    CleanFlush(Dispatcher), DeleteChain(Dispatcher),
    CleanFlush(GenChain(A)), DeleteChain(GenChain(A)),
    CleanFlush(GenChain(B)), DeleteChain(GenChain(B))]

  /** Position of the dispatcher flush, and of the first IPv6 command behind the IPv4 ones. */
  const FLUSH_DISPATCHER_INDEX: nat := 4
  const CLEANUP6_FIRST: nat := 10

  /** The dispatcher exists and has lines. */
  predicate Busy(t: Table) { Dispatcher in t.chains && t.chains[Dispatcher] != [] }

  /** No packet arriving at PREROUTING meets a line of the daemon's. */
  predicate Idle(t: Table) { t.hooks == 0 || !Busy(t) }

  lemma {:induction false} RunCleanSplit(t: Table, a: seq<CleanCmd>, b: seq<CleanCmd>, first: nat, failing: set<nat>)
    ensures RunClean(t, a + b, first, failing) == RunClean(RunClean(t, a, first, failing), b, first + |a|, failing)
    decreases |a|
  {
    if a == [] {
      assert a + b == b;
    } else {
      assert (a + b)[1..] == a[1..] + b;
      RunCleanSplit(if first in failing then t else StepClean(t, a[0]), a[1..], b, first + 1, failing);
    }
  }

  lemma RunCleanOne(t: Table, cmd: CleanCmd, first: nat, failing: set<nat>)
    ensures RunClean(t, [cmd], first, failing) == if first in failing then t else StepClean(t, cmd)
  {
    assert [cmd][1..] == [];
  }

  /** Commands other than removing the hook and flushing the dispatcher leave the hook
      and a dispatcher with lines alone: only an empty chain can be deleted. */
  lemma {:induction false} RunCleanNeutral(t: Table, cmds: seq<CleanCmd>, first: nat, failing: set<nat>)
    requires DropHook !in cmds && CleanFlush(Dispatcher) !in cmds
    ensures var r := RunClean(t, cmds, first, failing);
            r.hooks == t.hooks && Busy(r) == Busy(t) && (Busy(t) ==> r.chains[Dispatcher] == t.chains[Dispatcher])
    decreases |cmds|
  {
    if cmds != [] {
      assert cmds[0] in cmds;
      RunCleanNeutral(if first in failing then t else StepClean(t, cmds[0]), cmds[1..], first + 1, failing);
    }
  }

  /** What one cleanup does to the way in: the hook goes unless its removal fails, the
      dispatcher's lines go unless their flush fails. */
  lemma CleanupEffect(t: Table, first: nat, failing: set<nat>)
    ensures var r := RunClean(t, CLEANUP_CMDS, first, failing);
            && r.hooks == (if first in failing || t.hooks == 0 then t.hooks else t.hooks - 1)
            && (Busy(r) <==> Busy(t) && first + FLUSH_DISPATCHER_INDEX in failing)
            && (Busy(r) ==> r.chains[Dispatcher] == t.chains[Dispatcher])
  {
    hide RunClean;
    var a, b, c := [DropHook], CLEANUP_CMDS[1..4], CLEANUP_CMDS[5..];
    var flush := [CleanFlush(Dispatcher)];
    assert CLEANUP_CMDS == a + (b + (flush + c));
    RunCleanSplit(t, a, b + (flush + c), first, failing);
    RunCleanOne(t, DropHook, first, failing);
    var t1 := RunClean(t, a, first, failing);
    RunCleanSplit(t1, b, flush + c, first + 1, failing);
    RunCleanNeutral(t1, b, first + 1, failing);
    var t2 := RunClean(t1, b, first + 1, failing);
    RunCleanSplit(t2, flush, c, first + 4, failing);
    RunCleanOne(t2, CleanFlush(Dispatcher), first + 4, failing);
    RunCleanNeutral(RunClean(t2, flush, first + 4, failing), c, first + 5, failing);
  }

  /** Both ways of closing the dispatcher failed: its lines are still there, and so is a
      hook, because its removal failed or because there was more than one. */
  predicate CleanupMisses(t: Table, first: nat, failing: set<nat>)
  {
    first + FLUSH_DISPATCHER_INDEX in failing && (first in failing || t.hooks > 1)
  }

  /** The cleanup closes a family exactly when it was closed before, its flush of the
      dispatcher works, or the removal of the only hook works. */
  lemma CleanupIdlesExactly(t: Table, first: nat, failing: set<nat>)
    ensures Idle(RunClean(t, CLEANUP_CMDS, first, failing)) <==> Idle(t) || !CleanupMisses(t, first, failing)
  {
    hide RunClean;
    CleanupEffect(t, first, failing);
  }
}
