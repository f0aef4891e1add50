/** The single-flight refresh protocol: callers enter under a mutex, one owner
    downloads, matching callers join its flight, others wait for the slot. Every
    critical section and every notification is one step, and any interleaving of
    steps is a run. A flight is named by the call that owns it. */
module SingleFlight {
  import opened Common

  /** What a download produced: a result, or the exception it threw. */
  datatype Outcome = Value(result: int) | Threw(error: int)

  datatype Pc =
    | Arriving                      // before the first critical section
    | SlotAsleep | SlotAwake        // waiting for a flight with another key to end
    | Owning                        // downloading
    | Publishing                    // slot cleared, joiners not yet notified
    | Announcing                    // joiners notified, slot waiters not yet
    | Joining(flight: nat)          // holds a flight, before the second critical section
    | FlightAsleep(flight: nat) | FlightAwake(flight: nat)
    | Finished(flight: nat, outcome: Outcome)

  datatype Call = Call(key: string, pc: Pc)

  datatype Flight = Flight(key: string, outcome: Option<Outcome>)

  datatype State = State(calls: seq<Call>, slot: Option<nat>, flights: map<nat, Flight>)

  function At(s: State, i: nat, pc: Pc): State
    requires i < |s.calls|
  {
    s.(calls := s.calls[i := s.calls[i].(pc := pc)])
  }

  // ---------------------------------------------------------------- steps

  /** First critical section: wait on another key's flight, join a matching one, or own a new one. */
  function Enter(s: State, i: nat): State
    requires i < |s.calls| && (s.slot.Some? ==> s.slot.value in s.flights)
  {
    var key := s.calls[i].key;
    if s.slot.Some? && s.flights[s.slot.value].key != key then At(s, i, SlotAsleep)
    else if s.slot.Some? then At(s, i, Joining(s.slot.value))
    else At(s, i, Owning).(slot := Some(i), flights := s.flights[i := Flight(key, None)])
  }

  /** Second critical section of a joiner: return once the flight is done, else sleep. */
  function Check(s: State, i: nat): State
    requires i < |s.calls| && (s.calls[i].pc.Joining? || s.calls[i].pc.FlightAwake?)
             && s.calls[i].pc.flight in s.flights
  {
    var f := s.calls[i].pc.flight;
    match s.flights[f].outcome
    case Some(o) => At(s, i, Finished(f, o))
    case None => At(s, i, FlightAsleep(f))
  }

  /** The owner stores its outcome and clears the slot in one critical section. */
  function Publish(s: State, i: nat, o: Outcome): State
    requires i < |s.calls| && i in s.flights
  {
    At(s, i, Publishing).(slot := None, flights := s.flights[i := s.flights[i].(outcome := Some(o))])
  }

  function WakeJoiner(f: nat): Call -> Call
  {
    (c: Call) => if c.pc == FlightAsleep(f) then c.(pc := FlightAwake(f)) else c
  }

  function WakeWaiter(): Call -> Call
  {
    (c: Call) => if c.pc == SlotAsleep then c.(pc := SlotAwake) else c
  }

  function NotifyFlight(s: State, i: nat): State
    requires i < |s.calls|
  {
    var t := At(s, i, Announcing);
    t.(calls := Map(t.calls, WakeJoiner(i)))
  }

  function NotifySlot(s: State, i: nat): State
    requires i < |s.calls| && i in s.flights && s.flights[i].outcome.Some?
  {
    var t := At(s, i, Finished(i, s.flights[i].outcome.value));
    t.(calls := Map(t.calls, WakeWaiter()))
  }

  /** Condition variables may also wake without a notification. */
  function Spurious(s: State, i: nat): State
    requires i < |s.calls|
  {
    match s.calls[i].pc
    case SlotAsleep => At(s, i, SlotAwake)
    case FlightAsleep(f) => At(s, i, FlightAwake(f))
    case _ => s
  }

  predicate Runnable(pc: Pc)
  {
    pc.Arriving? || pc.SlotAwake? || pc.Owning? || pc.Publishing? || pc.Announcing? || pc.Joining? || pc.FlightAwake?
  }

  /** The step of call `i`; `o` is what its download produced, if that is its step. A call
      that does not exist or is asleep has no step. */
  function Step(s: State, i: nat, o: Outcome): State
  {
    if i >= |s.calls| then s
    else
      match s.calls[i].pc
      case Arriving => if SlotKnown(s) then Enter(s, i) else s
      case SlotAwake => if SlotKnown(s) then Enter(s, i) else s
      case Joining(f) => if f in s.flights then Check(s, i) else s
      case FlightAwake(f) => if f in s.flights then Check(s, i) else s
      case Owning => if i in s.flights then Publish(s, i, o) else s
      case Publishing => NotifyFlight(s, i)
      case Announcing => if i in s.flights && s.flights[i].outcome.Some? then NotifySlot(s, i) else s
      case _ => s
  }

  predicate SlotKnown(s: State) { s.slot.Some? ==> s.slot.value in s.flights }

  datatype Event = Run(call: nat, outcome: Outcome) | Wake(call: nat)

  function Do(s: State, e: Event): State
  {
    match e
    case Run(i, o) => Step(s, i, o)
    case Wake(i) => if i < |s.calls| then Spurious(s, i) else s
  }

  function Start(keys: seq<string>): State
  {
    State(Map(keys, (k: string) => Call(k, Arriving)), None, map[])
  }

  // ---------------------------------------------------------------- invariant

  predicate CallOk(s: State, i: nat)
    requires i < |s.calls|
  {
    var c := s.calls[i];
    match c.pc
    case Arriving => i !in s.flights
    case SlotAwake => i !in s.flights
    case SlotAsleep =>
      i !in s.flights &&
      (s.slot.Some? || exists j :: 0 <= j < |s.calls| && (s.calls[j].pc.Publishing? || s.calls[j].pc.Announcing?))
    case Owning => s.slot == Some(i) && i in s.flights && s.flights[i] == Flight(c.key, None)
    case Publishing => i in s.flights && s.flights[i].key == c.key && s.flights[i].outcome.Some?
    case Announcing => i in s.flights && s.flights[i].key == c.key && s.flights[i].outcome.Some?
    case Joining(f) => i !in s.flights && JoinOk(s, c, f)
    case FlightAwake(f) => i !in s.flights && JoinOk(s, c, f)
    case FlightAsleep(f) => i !in s.flights && JoinOk(s, c, f)
        && (s.flights[f].outcome.Some? ==> f < |s.calls| && s.calls[f].pc.Publishing?)
    case Finished(f, o) =>
      f in s.flights && s.flights[f] == Flight(c.key, Some(o)) && (f == i || i !in s.flights)
  }

  /** A joiner's flight has its key, and is the one in the slot until it is done. */
  predicate JoinOk(s: State, c: Call, f: nat)
  {
    f in s.flights && s.flights[f].key == c.key && (s.flights[f].outcome.None? ==> s.slot == Some(f))
  }

  ghost predicate Inv(s: State)
  {
    && (s.slot.Some? ==> s.slot.value < |s.calls| && s.calls[s.slot.value].pc.Owning? && s.slot.value in s.flights)
    && (forall f :: f in s.flights ==> f < |s.calls| && s.flights[f].key == s.calls[f].key)
    && (forall i :: 0 <= i < |s.calls| ==> CallOk(s, i))
  }

  lemma StartOk(keys: seq<string>)
    ensures Inv(Start(keys))
  {}

  lemma EnterOk(s: State, i: nat)
    requires Inv(s) && i < |s.calls| && (s.calls[i].pc.Arriving? || s.calls[i].pc.SlotAwake?)
    ensures Inv(Enter(s, i))
  {
    var t := Enter(s, i);
    assert CallOk(s, i);
    forall j | 0 <= j < |t.calls| ensures CallOk(t, j) {
      assert CallOk(s, j);
      if j != i && s.calls[j].pc.SlotAsleep? && s.slot.None? {
        var w :| 0 <= w < |s.calls| && (s.calls[w].pc.Publishing? || s.calls[w].pc.Announcing?);
        assert t.calls[w] == s.calls[w];
      }
    }
  }

  lemma CheckOk(s: State, i: nat)
    requires Inv(s) && i < |s.calls| && (s.calls[i].pc.Joining? || s.calls[i].pc.FlightAwake?)
             && s.calls[i].pc.flight in s.flights
    ensures Inv(Check(s, i))
  {
    var t := Check(s, i);
    assert CallOk(s, i);
    forall j | 0 <= j < |t.calls| ensures CallOk(t, j) {
      assert CallOk(s, j);
      if j != i && s.calls[j].pc.SlotAsleep? && s.slot.None? {
        var w :| 0 <= w < |s.calls| && (s.calls[w].pc.Publishing? || s.calls[w].pc.Announcing?);
        assert t.calls[w] == s.calls[w];
      }
    }
  }

  lemma PublishOk(s: State, i: nat, o: Outcome)
    requires Inv(s) && i < |s.calls| && s.calls[i].pc.Owning? && i in s.flights
    ensures Inv(Publish(s, i, o))
  {
    var t := Publish(s, i, o);
    assert CallOk(s, i);
    forall j | 0 <= j < |t.calls| ensures CallOk(t, j) {
      assert CallOk(s, j);
      assert t.calls[i].pc.Publishing?;
    }
  }

  lemma NotifyFlightOk(s: State, i: nat)
    requires Inv(s) && i < |s.calls| && s.calls[i].pc.Publishing?
    ensures Inv(NotifyFlight(s, i))
  {
    var t := NotifyFlight(s, i);
    assert CallOk(s, i);
    forall j | 0 <= j < |t.calls| ensures CallOk(t, j) {
      assert CallOk(s, j);
      assert t.calls[i].pc.Announcing?;
      if j != i && s.calls[j].pc.FlightAsleep? && s.calls[j].pc.flight != i {
        var f := s.calls[j].pc.flight;
        if s.flights[f].outcome.Some? { assert t.calls[f] == s.calls[f]; }
      }
    }
  }

  lemma NotifySlotOk(s: State, i: nat)
    requires Inv(s) && i < |s.calls| && s.calls[i].pc.Announcing?
    requires i in s.flights && s.flights[i].outcome.Some?
    ensures Inv(NotifySlot(s, i))
  {
    var t := NotifySlot(s, i);
    assert CallOk(s, i);
    forall j | 0 <= j < |t.calls| ensures CallOk(t, j) {
      assert CallOk(s, j);
    }
  }

  lemma SpuriousOk(s: State, i: nat)
    requires Inv(s) && i < |s.calls|
    ensures Inv(Spurious(s, i))
  {
    var t := Spurious(s, i);
    assert CallOk(s, i);
    forall j | 0 <= j < |t.calls| ensures CallOk(t, j) {
      assert CallOk(s, j);
      if j != i && s.calls[j].pc.SlotAsleep? && s.slot.None? {
        var w :| 0 <= w < |s.calls| && (s.calls[w].pc.Publishing? || s.calls[w].pc.Announcing?);
        assert t.calls[w] == s.calls[w];
      }
    }
  }

  /** Every step of every call, and every spurious wake-up, keeps the invariant. */
  lemma DoOk(s: State, e: Event)
    requires Inv(s)
    ensures Inv(Do(s, e)) && |Do(s, e).calls| == |s.calls|
  {
    hide Inv, Enter, Check, Publish, NotifyFlight, NotifySlot, Spurious;
    SizesKept(s, e);
    if e.call < |s.calls| { DoOkAt(s, e); }
  }

  lemma SizesKept(s: State, e: Event)
    ensures |Do(s, e).calls| == |s.calls|
  {}

  lemma DoOkAt(s: State, e: Event)
    requires Inv(s) && e.call < |s.calls|
    ensures Inv(Do(s, e))
  {
    var i := e.call;
    assert CallOk(s, i);
    hide Enter, Check, Publish, NotifyFlight, NotifySlot, Spurious;
    match e
    case Wake(_) => SpuriousOk(s, i);
    case Run(_, o) =>
      match s.calls[i].pc
      case Arriving => EnterOk(s, i);
      case SlotAwake => EnterOk(s, i);
      case Joining(f) => CheckOk(s, i);
      case FlightAwake(f) => CheckOk(s, i);
      case Owning => PublishOk(s, i, o);
      case Publishing => NotifyFlightOk(s, i);
      case Announcing => NotifySlotOk(s, i);
      case _ =>
  }

  // ---------------------------------------------------------------- runs

  /** Trace of a run with one call per key: any event may come next at any point. */
  ghost predicate IsRun(keys: seq<string>, states: seq<State>, events: seq<Event>)
  {
    && |states| == |events| + 1 && states[0] == Start(keys)
    && forall k :: 0 <= k < |events| ==> states[k + 1] == Do(states[k], events[k])
  }

  /** The invariant holds in every state of every run. */
  lemma {:induction false} RunInv(keys: seq<string>, states: seq<State>, events: seq<Event>, k: nat)
    requires IsRun(keys, states, events) && k < |states|
    ensures Inv(states[k]) && |states[k].calls| == |keys|
  {
    hide Inv, Do;
    if k == 0 {
      StartOk(keys);
    } else {
      RunInv(keys, states, events, k - 1);
      DoOk(states[k - 1], events[k - 1]);
    }
  }

  lemma OneOwner(s: State, i: nat, j: nat)
    requires Inv(s) && i < |s.calls| && j < |s.calls|
    ensures s.calls[i].pc.Owning? && s.calls[j].pc.Owning? ==> i == j
    ensures s.calls[i].pc.Owning? <==> s.slot == Some(i)
  {
    assert CallOk(s, i) && CallOk(s, j);
  }

  /** In every run at most one call downloads at any moment, and the slot is occupied
      exactly while it does: downloads with different keys never overlap. */
  lemma OneOwnerInEveryRun(keys: seq<string>, states: seq<State>, events: seq<Event>, k: nat, i: nat, j: nat)
    requires IsRun(keys, states, events) && k < |states| && i < |states[k].calls| && j < |states[k].calls|
    ensures var s := states[k];
            && (s.calls[i].pc.Owning? && s.calls[j].pc.Owning? ==> i == j)
            && (s.calls[i].pc.Owning? <==> s.slot == Some(i))
  {
    hide Inv;
    RunInv(keys, states, events, k);
    OneOwner(states[k], i, j);
  }

  /** Every caller that returns has its flight's exact outcome, and the flight has the
      caller's key and was published by the call that owns it. */
  lemma ReturnsTheFlight(s: State, i: nat)
    requires Inv(s) && i < |s.calls| && s.calls[i].pc.Finished?
    ensures var f := s.calls[i].pc.flight;
            && f in s.flights && f < |s.calls| && s.calls[f].key == s.calls[i].key
            && s.flights[f].outcome == Some(s.calls[i].pc.outcome)
  {
    assert CallOk(s, i);
  }

  /** A published outcome never changes, and only its owner's download publishes it. */
  lemma OutcomeWrittenOnce(s: State, e: Event, f: nat)
    requires Inv(s)
    ensures f in s.flights ==> f in Do(s, e).flights
    ensures f in s.flights && s.flights[f].outcome.Some? ==> Do(s, e).flights[f] == s.flights[f]
    ensures f in Do(s, e).flights && Do(s, e).flights[f].outcome.Some? ==>
            || (f in s.flights && s.flights[f].outcome.Some?)
            || (e == Run(f, Do(s, e).flights[f].outcome.value) && f < |s.calls| && s.calls[f].pc.Owning?)
  {
    if e.call < |s.calls| { assert CallOk(s, e.call); }
  }

  lemma {:induction false} OutcomeFromDownload(keys: seq<string>, states: seq<State>, events: seq<Event>, k: nat,
                                               f: nat)
    returns (m: nat)
    requires IsRun(keys, states, events) && k < |states|
    requires f in states[k].flights && states[k].flights[f].outcome.Some?
    ensures m < k && f < |states[m].calls| && states[m].calls[f].pc.Owning?
    ensures events[m] == Run(f, states[k].flights[f].outcome.value)
  {
    hide Inv, Do;
    RunInv(keys, states, events, k - 1);
    OutcomeWrittenOnce(states[k - 1], events[k - 1], f);
    if f in states[k - 1].flights && states[k - 1].flights[f].outcome.Some? {
      m := OutcomeFromDownload(keys, states, events, k - 1, f);
    } else {
      m := k - 1;
    }
  }

  /** In every run, a caller that has returned got exactly what some earlier download step of
      its flight's owner produced, result or exception, and that owner has the caller's key. */
  lemma ReturnsOwnersOutcome(keys: seq<string>, states: seq<State>, events: seq<Event>, k: nat, i: nat)
    returns (m: nat)
    requires IsRun(keys, states, events) && k < |states|
    requires i < |states[k].calls| && states[k].calls[i].pc.Finished?
    ensures m < k && states[k].calls[i].pc.flight < |states[m].calls|
    ensures var f := states[k].calls[i].pc.flight;
            && states[m].calls[f].pc.Owning? && f < |keys| && i < |keys| && keys[f] == keys[i]
            && events[m] == Run(f, states[k].calls[i].pc.outcome)
  {
    RunInv(keys, states, events, k);
    ReturnsTheFlight(states[k], i);
    var f := states[k].calls[i].pc.flight;
    m := OutcomeFromDownload(keys, states, events, k, f);
    RunInv(keys, states, events, m);
    RunKeepsKeys(keys, states, events, k, i);
    RunKeepsKeys(keys, states, events, k, f);
  }

  // ---------------------------------------------------------------- sharing a download

  lemma DoKeepsKeys(s: State, e: Event, i: nat)
    requires i < |s.calls|
    ensures i < |Do(s, e).calls| && Do(s, e).calls[i].key == s.calls[i].key
  {}

  /** Every call keeps the key it was made with. */
  lemma {:induction false} RunKeepsKeys(keys: seq<string>, states: seq<State>, events: seq<Event>, k: nat, i: nat)
    requires IsRun(keys, states, events) && k < |states| && i < |keys|
    ensures i < |states[k].calls| && states[k].calls[i].key == keys[i]
  {
    hide Do;
    if k > 0 {
      RunKeepsKeys(keys, states, events, k - 1, i);
      DoKeepsKeys(states[k - 1], events[k - 1], i);
    }
  }

  /** The call waits on flight `f` or has returned with its outcome. */
  predicate SharesFlight(s: State, i: nat, f: nat)
    requires i < |s.calls|
  {
    var pc := s.calls[i].pc;
    || pc in {Joining(f), FlightAsleep(f), FlightAwake(f)}
    || (pc.Finished? && pc.flight == f && f in s.flights && s.flights[f].outcome == Some(pc.outcome))
  }

  predicate Entering(pc: Pc) { pc.Arriving? || pc.SlotAwake? }

  lemma EntersFlight(s: State, i: nat, f: nat, o: Outcome)
    requires Inv(s) && i < |s.calls| && Entering(s.calls[i].pc)
    requires s.slot == Some(f) && f < |s.calls| && s.calls[f].key == s.calls[i].key
    ensures var t := Do(s, Run(i, o)); i < |t.calls| && SharesFlight(t, i, f)
  {
    assert CallOk(s, i) && CallOk(s, f);
  }

  lemma KeepsSharing(s: State, e: Event, i: nat, f: nat)
    requires Inv(s) && i < |s.calls| && SharesFlight(s, i, f)
    ensures var t := Do(s, e); i < |t.calls| && SharesFlight(t, i, f)
  {
    assert CallOk(s, i);
    if e.call < |s.calls| { assert CallOk(s, e.call); }
    OutcomeWrittenOnce(s, e, f);
  }

  /** Single flight. In every run, a caller that enters while a download for its own key is
      running joins that flight: from then on it waits on it or has returned exactly its
      outcome, and never downloads itself. */
  lemma {:induction false} SameKeyJoins(keys: seq<string>, states: seq<State>, events: seq<Event>,
                                        k: nat, m: nat, i: nat, f: nat)
    requires IsRun(keys, states, events) && k < m < |states| && i < |keys| && f < |keys| && keys[i] == keys[f]
    requires events[k].Run? && events[k].call == i && i < |states[k].calls| && Entering(states[k].calls[i].pc)
    requires states[k].slot == Some(f)
    ensures i < |states[m].calls| && SharesFlight(states[m], i, f) && !states[m].calls[i].pc.Owning?
    decreases m
  {
    hide Inv, Do;
    RunInv(keys, states, events, m - 1);
    if m == k + 1 {
      RunKeepsKeys(keys, states, events, k, i);
      RunKeepsKeys(keys, states, events, k, f);
      EntersFlight(states[k], i, f, events[k].outcome);
    } else {
      SameKeyJoins(keys, states, events, k, m - 1, i, f);
      KeepsSharing(states[m - 1], events[m - 1], i, f);
    }
  }

  lemma {:induction false} FlightsStay(keys: seq<string>, states: seq<State>, events: seq<Event>, a: nat, b: nat,
                                       f: nat)
    requires IsRun(keys, states, events) && a <= b < |states| && f in states[a].flights
    ensures f in states[b].flights
    decreases b
  {
    hide Inv, Do;
    if a < b {
      FlightsStay(keys, states, events, a, b - 1, f);
      RunInv(keys, states, events, b - 1);
      OutcomeWrittenOnce(states[b - 1], events[b - 1], f);
    }
  }

  /** Such a caller downloads at no point of the run, before or after. */
  lemma JoinerNeverDownloads(keys: seq<string>, states: seq<State>, events: seq<Event>,
                             k: nat, d: nat, i: nat, f: nat)
    requires IsRun(keys, states, events) && k < |events| && d < |states|
    requires i < |keys| && f < |keys| && keys[i] == keys[f]
    requires events[k].Run? && events[k].call == i && i < |states[k].calls| && Entering(states[k].calls[i].pc)
    requires states[k].slot == Some(f)
    ensures i < |states[d].calls| && !states[d].calls[i].pc.Owning?
  {
    RunInv(keys, states, events, d);
    RunInv(keys, states, events, k);
    if d > k {
      SameKeyJoins(keys, states, events, k, d, i, f);
    } else if states[d].calls[i].pc.Owning? {
      assert CallOk(states[d], i) && CallOk(states[k], i);
      FlightsStay(keys, states, events, d, k, i);
    }
  }

  /** Two callers that entered during one flight for their key and have both returned got the
      same outcome, from one download of the flight's owner. */
  lemma CallersShareOneDownload(keys: seq<string>, states: seq<State>, events: seq<Event>,
                                k1: nat, k2: nat, m: nat, i: nat, j: nat, f: nat) returns (d: nat)
    requires IsRun(keys, states, events) && k1 < m < |states| && k2 < m
    requires i < |keys| && j < |keys| && f < |keys| && keys[i] == keys[f] == keys[j]
    requires events[k1].Run? && events[k1].call == i && i < |states[k1].calls| && Entering(states[k1].calls[i].pc)
    requires events[k2].Run? && events[k2].call == j && j < |states[k2].calls| && Entering(states[k2].calls[j].pc)
    requires states[k1].slot == Some(f) && states[k2].slot == Some(f)
    requires i < |states[m].calls| && states[m].calls[i].pc.Finished?
    requires j < |states[m].calls| && states[m].calls[j].pc.Finished?
    ensures states[m].calls[i].pc == states[m].calls[j].pc
    ensures d < m && f < |states[d].calls| && states[d].calls[f].pc.Owning?
    ensures events[d] == Run(f, states[m].calls[i].pc.outcome)
  {
    hide Inv, Do;
    SameKeyJoins(keys, states, events, k1, m, i, f);
    SameKeyJoins(keys, states, events, k2, m, j, f);
    d := OutcomeFromDownload(keys, states, events, m, f);
  }

  /** A caller that enters a free slot downloads; one that finds a flight for another key
      waits for the slot. */
  lemma EntersByKey(keys: seq<string>, states: seq<State>, events: seq<Event>, k: nat, i: nat)
    requires IsRun(keys, states, events) && k < |events| && i < |keys|
    requires events[k].Run? && events[k].call == i && i < |states[k].calls| && Entering(states[k].calls[i].pc)
    ensures i < |states[k + 1].calls|
    ensures states[k].slot == None ==> states[k + 1].calls[i].pc.Owning? && states[k + 1].slot == Some(i)
    ensures forall f :: states[k].slot == Some(f) ==>
              f < |keys| && states[k + 1].slot == Some(f)
              && (keys[f] != keys[i] ==> states[k + 1].calls[i].pc.SlotAsleep?)
  {
    RunInv(keys, states, events, k);
    RunKeepsKeys(keys, states, events, k, i);
    if states[k].slot.Some? { RunKeepsKeys(keys, states, events, k, states[k].slot.value); }
  }

  lemma SomeStepEnabled(s: State, i: nat) returns (j: nat)
    requires Inv(s) && i < |s.calls| && !s.calls[i].pc.Finished?
    ensures j < |s.calls| && Runnable(s.calls[j].pc)
  {
    assert CallOk(s, i);
    match s.calls[i].pc
    case SlotAsleep =>
      if s.slot.Some? {
        j := s.slot.value;
      } else {
        j :| 0 <= j < |s.calls| && (s.calls[j].pc.Publishing? || s.calls[j].pc.Announcing?);
      }
    case FlightAsleep(f) =>
      j := f;
    case _ => j := i;
  }

  /** No lost wake-up: in every run, while any caller is unfinished, some call can take a
      step without a spurious wake-up. */
  lemma NoLostWakeUp(keys: seq<string>, states: seq<State>, events: seq<Event>, k: nat, i: nat) returns (j: nat)
    requires IsRun(keys, states, events) && k < |states| && i < |states[k].calls| && !states[k].calls[i].pc.Finished?
    ensures j < |states[k].calls| && Runnable(states[k].calls[j].pc)
  {
    hide Inv;
    RunInv(keys, states, events, k);
    j := SomeStepEnabled(states[k], i);
  }

  // ---------------------------------------------------------------- termination

  /** Work a call may still cause, including the wake-ups it owes to `n` others. */
  function Weight(pc: Pc, n: nat): nat
  {
    match pc
    case Arriving => 2 * n + 6
    case SlotAwake => 2 * n + 5
    case SlotAsleep => 2 * n + 4
    case Owning => 2 * n + 3
    case Publishing => 2 * n + 2
    case Announcing => n + 1
    case Joining(_) => 3
    case FlightAwake(_) => 2
    case FlightAsleep(_) => 1
    case Finished(_, _) => 0
  }

  function Total(calls: seq<Call>, n: nat): nat
  {
    if calls == [] then 0 else Weight(calls[0].pc, n) + Total(calls[1..], n)
  }

  lemma {:induction false} TotalUpdate(calls: seq<Call>, i: nat, c: Call, n: nat)
    requires i < |calls|
    ensures Total(calls[i := c], n) == Total(calls, n) - Weight(calls[i].pc, n) + Weight(c.pc, n)
  {
    if i == 0 {
      assert calls[0 := c][1..] == calls[1..];
    } else {
      assert calls[i := c][1..] == calls[1..][i - 1 := c];
      TotalUpdate(calls[1..], i - 1, c, n);
    }
  }

  lemma {:induction false} TotalMap(calls: seq<Call>, f: Call -> Call, n: nat)
    requires forall c :: Weight(f(c).pc, n) <= Weight(c.pc, n) + 1
    ensures Total(Map(calls, f), n) <= Total(calls, n) + |calls|
  {
    if calls != [] {
      assert Map(calls, f)[1..] == Map(calls[1..], f);
      TotalMap(calls[1..], f, n);
    }
  }

  lemma NotifyFlightDecreases(s: State, i: nat)
    requires i < |s.calls| && s.calls[i].pc.Publishing?
    ensures Total(NotifyFlight(s, i).calls, |s.calls|) < Total(s.calls, |s.calls|)
  {
    var n, u := |s.calls|, At(s, i, Announcing);
    TotalUpdate(s.calls, i, u.calls[i], n);
    TotalMap(u.calls, WakeJoiner(i), n);
  }

  lemma NotifySlotDecreases(s: State, i: nat)
    requires i < |s.calls| && s.calls[i].pc.Announcing? && i in s.flights && s.flights[i].outcome.Some?
    ensures Total(NotifySlot(s, i).calls, |s.calls|) < Total(s.calls, |s.calls|)
  {
    var n, u := |s.calls|, At(s, i, Finished(i, s.flights[i].outcome.value));
    TotalUpdate(s.calls, i, u.calls[i], n);
    TotalMap(u.calls, WakeWaiter(), n);
  }

  /** Every step of a runnable call uses up work, so a run without spurious wake-ups is finite. */
  lemma StepDecreases(s: State, i: nat, o: Outcome)
    requires Inv(s) && i < |s.calls| && Runnable(s.calls[i].pc)
    ensures var n := |s.calls|; Total(Step(s, i, o).calls, n) < Total(s.calls, n)
  {
    hide Total;
    assert CallOk(s, i);
    if s.calls[i].pc.Publishing? {
      NotifyFlightDecreases(s, i);
    } else if s.calls[i].pc.Announcing? {
      NotifySlotDecreases(s, i);
    } else {
      var c := Step(s, i, o).calls[i];
      assert Step(s, i, o).calls == s.calls[i := c];
      TotalUpdate(s.calls, i, c, |s.calls|);
    }
  }

  ghost predicate NoSpurious(states: seq<State>, events: seq<Event>)
    requires |states| == |events| + 1
  {
    forall k :: 0 <= k < |events| ==>
      events[k].Run? && events[k].call < |states[k].calls| && Runnable(states[k].calls[events[k].call].pc)
  }

  lemma {:induction false} RunUsesWork(keys: seq<string>, states: seq<State>, events: seq<Event>, k: nat)
    requires IsRun(keys, states, events) && NoSpurious(states, events) && k < |states|
    ensures Total(states[k].calls, |keys|) + k <= Total(states[0].calls, |keys|)
  {
    hide Inv, Total, Step;
    if k > 0 {
      RunUsesWork(keys, states, events, k - 1);
      RunInv(keys, states, events, k - 1);
      StepDecreases(states[k - 1], events[k - 1].call, events[k - 1].outcome);
    }
  }

  lemma {:induction false} StartWork(calls: seq<Call>, n: nat)
    requires forall c :: c in calls ==> c.pc.Arriving?
    ensures Total(calls, n) == |calls| * (2 * n + 6)
  {
    if calls != [] {
      StartWork(calls[1..], n);
      assert |calls| * (2 * n + 6) == (|calls| - 1) * (2 * n + 6) + (2 * n + 6);
    }
  }

  /** With n callers every run without spurious wake-ups has at most n * (2n + 6) steps,
      and once no step is left every caller has returned. */
  lemma EveryCallerReturns(keys: seq<string>, states: seq<State>, events: seq<Event>)
    requires IsRun(keys, states, events) && NoSpurious(states, events)
    ensures |events| <= |keys| * (2 * |keys| + 6)
    ensures (forall j :: 0 <= j < |states[|events|].calls| ==> !Runnable(states[|events|].calls[j].pc)) ==>
            forall i :: 0 <= i < |states[|events|].calls| ==> states[|events|].calls[i].pc.Finished?
  {
    var n, last := |keys|, states[|events|];
    RunUsesWork(keys, states, events, |events|);
    StartWork(states[0].calls, n);
    if forall j :: 0 <= j < |last.calls| ==> !Runnable(last.calls[j].pc) {
      forall i | 0 <= i < |last.calls| ensures last.calls[i].pc.Finished? {
        if !last.calls[i].pc.Finished? { var j := NoLostWakeUp(keys, states, events, |events|, i); }
      }
    }
  }
}
