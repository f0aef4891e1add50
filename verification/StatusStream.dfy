/** Status over server-sent events: subscriptions with bounded queues, a broadcaster that
    compacts its list in place, and a stream that publishes only what changed. Operations
    are serialised; each keeps every open subscriber's replayed view equal to the stored one. */
module StatusStream {
  import opened Common

  datatype View = View(service: string, outbounds: string, interfaces: string)

  datatype Frame =
    | Snapshot(view: View)
    | Service(service: string)
    | Outbounds(outbounds: string)
    | Interfaces(interfaces: string)

  function Apply(v: Option<View>, f: Frame): Option<View>
  {
    match f
    case Snapshot(w) => Some(w)
    case Service(x) => if v.Some? then Some(v.value.(service := x)) else None
    case Outbounds(x) => if v.Some? then Some(v.value.(outbounds := x)) else None
    case Interfaces(x) => if v.Some? then Some(v.value.(interfaces := x)) else None
  }

  /** What a client shows after a sequence of frames. */
  function Replay(fs: seq<Frame>): Option<View>
  {
    if fs == [] then None else Apply(Replay(fs[..|fs| - 1]), fs[|fs| - 1])
  }

  lemma ReplayOne(fs: seq<Frame>, f: Frame)
    ensures Replay(fs + [f]) == Apply(Replay(fs), f)
  {
    assert (fs + [f])[..|fs + [f]| - 1] == fs;
  }

  /** One frame per part of the status that changed. */
  function DiffFrames(v: View, w: View): seq<Frame>
  {
    (if w.service != v.service then [Service(w.service)] else [])
    + (if w.outbounds != v.outbounds then [Outbounds(w.outbounds)] else [])
    + (if w.interfaces != v.interfaces then [Interfaces(w.interfaces)] else [])
  }

  /** What the server knows of a subscription. */
  datatype Queue = Queue(open: bool, messages: seq<Frame>)

  /** An open subscriber with room for all the frames gets exactly those and stays open; one
      without room is closed; one that was not open is not touched. */
  predicate Delivered(a: Queue, b: Queue, fs: seq<Frame>, maxQueue: nat)
  {
    if !a.open then b == a
    else if fs == [] || |a.messages| + |fs| <= maxQueue then b == Queue(true, a.messages + fs)
    else !b.open
  }

  lemma DeliveredThen(a: Queue, b: Queue, c: Queue, fs: seq<Frame>, gs: seq<Frame>, maxQueue: nat)
    requires Delivered(a, b, fs, maxQueue) && Delivered(b, c, gs, maxQueue)
    ensures Delivered(a, c, fs + gs, maxQueue)
  {
    assert a.messages + fs + gs == a.messages + (fs + gs);
  }

  class Subscription {
    var messages: seq<Frame>
    var closed: bool
    /** The subscriber has let go of it. */
    var expired: bool
    /** Frames the client has already taken. */
    ghost var taken: seq<Frame>

    constructor (initial: seq<Frame>)
      ensures messages == initial && !closed && !expired && taken == []
    {
      messages, closed, expired, taken := initial, false, false, [];
    }

    predicate Open()
      reads this
    {
      !closed && !expired
    }

    ghost function Now(): Queue
      reads this
    {
      Queue(Open(), messages)
    }

    ghost function Frames(): seq<Frame>
      reads this
    {
      taken + messages
    }

    /** The client takes the oldest frame. */
    method Consume() returns (f: Frame)
      requires messages != []
      modifies this`messages, this`taken
      ensures f == old(messages[0]) && messages == old(messages[1..]) && Frames() == old(Frames())
    {
      f := messages[0];
      taken := taken + [f];
      messages := messages[1..];
    }
  }

  ghost predicate Distinct(s: seq<Subscription>)
  {
    forall i, j :: 0 <= i < j < |s| ==> s[i] != s[j]
  }

  ghost predicate Within(s: seq<Subscription>, t: seq<Subscription>)
  {
    forall i :: 0 <= i < |s| ==> s[i] in t
  }

  /** The elements of `s` whose flag is set, in order. */
  ghost function Pick(s: seq<Subscription>, flags: seq<bool>): seq<Subscription>
    requires |flags| == |s|
  {
    if s == [] then []
    else Pick(s[..|s| - 1], flags[..|s| - 1]) + (if flags[|s| - 1] then [s[|s| - 1]] else [])
  }

  lemma NonePicked()
    ensures Pick([], []) == []
  {}

  lemma PickStep(s: seq<Subscription>, flags: seq<bool>, i: nat)
    requires |flags| == |s| && i < |s|
    ensures Pick(s[..i + 1], flags[..i + 1]) == Pick(s[..i], flags[..i]) + (if flags[i] then [s[i]] else [])
  {
    assert s[..i + 1][..i] == s[..i] && flags[..i + 1][..i] == flags[..i];
  }

  /** Moving an element down over a gap. */
  lemma MovesDown(s: seq<Subscription>, w: nat, r: nat)
    requires w <= r < |s|
    ensures var t := s[w := s[r]]; t[..w + 1] == s[..w] + [s[r]] && t[r + 1..] == s[r + 1..]
  {}

  /** One step of compacting `before` down to its picked elements. */
  lemma KeepStep(s: seq<Subscription>, before: seq<Subscription>, flags: seq<bool>, w: nat, r: nat)
    requires w <= r < |s| == |before| == |flags|
    requires s[r..] == before[r..] && s[..w] == Pick(before[..r], flags[..r])
    ensures s[r] == before[r]
    ensures var t := if flags[r] then s[w := s[r]] else s;
            && t[r + 1..] == before[r + 1..]
            && t[..if flags[r] then w + 1 else w] == Pick(before[..r + 1], flags[..r + 1])
  {
    hide Pick;
    assert s[r] == s[r..][0] && before[r] == before[r..][0];
    assert s[r + 1..] == s[r..][1..] && before[r + 1..] == before[r..][1..];
    PickStep(before, flags, r);
    MovesDown(s, w, r);
  }

  class Broadcaster {
    const maxQueue: nat
    var subscriptions: seq<Subscription>

    constructor (maxQueue: nat)
      ensures this.maxQueue == maxQueue && subscriptions == []
    {
      this.maxQueue := maxQueue;
      subscriptions := [];
    }

    /** The subscriptions of `s` that are open, in order. */
    ghost function OpenOf(s: seq<Subscription>): seq<Subscription>
      reads s
    {
      if s == [] then []
      else OpenOf(s[..|s| - 1]) + (if s[|s| - 1].Open() then [s[|s| - 1]] else [])
    }

    /** The subscriptions of `s` that can take one more frame, in order. */
    ghost function Taking(s: seq<Subscription>): seq<Subscription>
      reads s
    {
      if s == [] then []
      else Taking(s[..|s| - 1]) + (if s[|s| - 1].Open() && |s[|s| - 1].messages| < maxQueue then [s[|s| - 1]] else [])
    }

    /** In-place compaction is filtering out closed and expired subscriptions, in order. */
    method Compact()
      modifies this`subscriptions
      ensures subscriptions == OpenOf(old(subscriptions))
      ensures Distinct(old(subscriptions)) ==> Distinct(subscriptions)
      ensures Within(subscriptions, old(subscriptions))
      ensures forall i :: 0 <= i < |old(subscriptions)| && old(subscriptions)[i].Open() ==>
          old(subscriptions)[i] in subscriptions
    {
      hide OpenOf;
      OpenMembers(subscriptions);
      NoneOpen();
      ghost var before := subscriptions;
      var write, read := 0, 0;
      while read < |subscriptions|
        invariant 0 <= write <= read <= |subscriptions| == |before|
        invariant subscriptions[read..] == before[read..]
        invariant subscriptions[..write] == OpenOf(before[..read])
      {
        var s := subscriptions[read];
        assert s == subscriptions[read..][0] == before[read];
        OpenStep(before, read);
        MovesDown(subscriptions, write, read);
        assert subscriptions[read + 1..] == subscriptions[read..][1..] && before[read + 1..] == before[read..][1..];
        if s.Open() {
          subscriptions := subscriptions[write := s];
          write := write + 1;
        }
        read := read + 1;
      }
      assert before[..read] == before;
      subscriptions := subscriptions[..write];
    }

    lemma OpenStep(s: seq<Subscription>, i: nat)
      requires i < |s|
      ensures OpenOf(s[..i + 1]) == OpenOf(s[..i]) + (if s[i].Open() then [s[i]] else [])
    {
      assert s[..i + 1][..i] == s[..i];
    }

    lemma {:induction false} OpenMembers(s: seq<Subscription>)
      ensures Within(OpenOf(s), s)
      ensures forall i :: 0 <= i < |s| && s[i].Open() ==> s[i] in OpenOf(s)
      ensures Distinct(s) ==> Distinct(OpenOf(s))
    {
      if s != [] {
        var init, x := s[..|s| - 1], s[|s| - 1];
        assert s == init + [x];
        OpenMembers(init);
        assert Distinct(s) ==> Distinct(init) && x !in init;
      }
    }

    lemma {:induction false} TakingMembers(s: seq<Subscription>)
      ensures Within(Taking(s), s)
      ensures forall i :: 0 <= i < |s| && s[i].Open() && |s[i].messages| < maxQueue ==> s[i] in Taking(s)
      ensures Distinct(s) ==> Distinct(Taking(s))
    {
      if s != [] {
        var init, x := s[..|s| - 1], s[|s| - 1];
        assert s == init + [x];
        TakingMembers(init);
        assert Distinct(s) ==> Distinct(init) && x !in init;
      }
    }

    lemma NoneOpen()
      ensures OpenOf([]) == [] && Taking([]) == []
    {}

    /** Offers a frame to one subscription; one whose queue is full is closed instead. */
    method Offer(s: Subscription, m: Frame) returns (keep: bool)
      modifies s`messages, s`closed
      ensures keep == old(s.Open() && |s.messages| < maxQueue)
      ensures s.messages == if keep then old(s.messages) + [m] else old(s.messages)
      ensures s.closed == (old(s.closed) || (!s.expired && |old(s.messages)| >= maxQueue))
    {
      if s.expired { return false; }
      if s.closed { return false; }
      if |s.messages| >= maxQueue {
        s.closed := true;
        return false;
      }
      s.messages := s.messages + [m];
      return true;
    }

    /** What offering `m` did to a subscription. */
    twostate predicate Offered(s: Subscription, m: Frame)
      reads s
    {
      && s.messages == (if old(s.Open() && |s.messages| < maxQueue) then old(s.messages) + [m] else old(s.messages))
      && s.closed == (old(s.closed) || (!old(s.expired) && old(|s.messages|) >= maxQueue))
    }

    /** Every subscription that can take the frame has it queued and stays, in order; one
        that could not is closed; closed and expired ones are dropped. */
    method Publish(m: Frame)
      requires Distinct(subscriptions)
      modifies this`subscriptions, subscriptions`messages, subscriptions`closed
      ensures subscriptions == old(Taking(subscriptions)) && Distinct(subscriptions)
      ensures Within(subscriptions, old(subscriptions))
      ensures forall i :: 0 <= i < |old(subscriptions)|
                          && old(subscriptions[i].Open() && |subscriptions[i].messages| < maxQueue) ==>
                          old(subscriptions)[i] in subscriptions
      ensures forall s :: s in old(subscriptions) ==> Offered(s, m)
    {
      hide Taking, Offered;
      TakingMembers(subscriptions);
      ghost var before := subscriptions;
      OfferAll(m);
      forall s | s in before ensures Offered(s, m) {
        var j :| 0 <= j < |before| && before[j] == s;
      }
    }

    /** The loop behind Publish: offers in order and compacts in place as it goes. */
    method OfferAll(m: Frame)
      requires Distinct(subscriptions)
      modifies this`subscriptions, subscriptions`messages, subscriptions`closed
      ensures subscriptions == old(Taking(subscriptions))
      ensures forall j :: 0 <= j < |old(subscriptions)| ==> Offered(old(subscriptions)[j], m)
    {
      hide Taking, Pick, Capable, Queues, Shut;
      ghost var before := subscriptions;
      ghost var can, queues, shut := Capable(before), Queues(before), Shut(before);
      var write, read := 0, 0;
      assert Pick(before[..0], can[..0]) == [] by { NonePicked(); }
      while read < |subscriptions|
        invariant 0 <= write <= read <= |subscriptions| == |before|
        invariant subscriptions[read..] == before[read..]
        invariant subscriptions[..write] == Pick(before[..read], can[..read])
        invariant forall j :: read <= j < |before| ==> before[j].messages == queues[j] && before[j].closed == shut[j]
        invariant forall j :: 0 <= j < read ==>
                    && before[j].messages == (if can[j] then queues[j] + [m] else queues[j])
                    && before[j].closed == (shut[j] || (!before[j].expired && |queues[j]| >= maxQueue))
      {
        var s := subscriptions[read];
        KeepStep(subscriptions, before, can, write, read);
        var keep := Offer(s, m);
        if keep {
          subscriptions := subscriptions[write := s];
          write := write + 1;
        }
        read := read + 1;
      }
      assert before[..read] == before && can[..read] == can;
      subscriptions := subscriptions[..write];
    }

    ghost function Queues(s: seq<Subscription>): (q: seq<seq<Frame>>)
      reads s
      ensures |q| == |s| && forall j :: 0 <= j < |s| ==> q[j] == s[j].messages
    {
      seq(|s|, j requires 0 <= j < |s| reads s => s[j].messages)
    }

    ghost function Shut(s: seq<Subscription>): (q: seq<bool>)
      reads s
      ensures |q| == |s| && forall j :: 0 <= j < |s| ==> q[j] == s[j].closed
    {
      seq(|s|, j requires 0 <= j < |s| reads s => s[j].closed)
    }

    /** Which of the subscriptions can take one more frame. */
    ghost function Capable(s: seq<Subscription>): (flags: seq<bool>)
      reads s
      ensures |flags| == |s|
      ensures forall j :: 0 <= j < |s| ==> flags[j] == (s[j].Open() && |s[j].messages| < maxQueue)
      ensures Pick(s, flags) == Taking(s)
    {
      if s == [] then []
      else
        var flags := Capable(s[..|s| - 1]) + [s[|s| - 1].Open() && |s[|s| - 1].messages| < maxQueue];
        assert flags[..|s| - 1] == Capable(s[..|s| - 1]);
        flags
    }

    method Subscribe(initial: seq<Frame>) returns (s: Subscription)
      modifies this`subscriptions
      ensures fresh(s) && subscriptions == old(subscriptions) + [s]
      ensures s.messages == initial && s.Open() && s.taken == []
    {
      s := new Subscription(initial);
      subscriptions := subscriptions + [s];
    }

    method Unsubscribe(s: Subscription)
      modifies this`subscriptions, s`closed
      ensures s.closed && subscriptions == OpenOf(old(subscriptions))
      ensures Distinct(old(subscriptions)) ==> Distinct(subscriptions)
      ensures Within(subscriptions, old(subscriptions))
      ensures forall i :: 0 <= i < |old(subscriptions)| && old(subscriptions)[i].Open() ==>
          old(subscriptions)[i] in subscriptions
    {
      s.closed := true;
      Compact();
    }

    method CloseAll()
      modifies this`subscriptions, subscriptions`closed
      ensures subscriptions == []
      ensures forall s :: s in old(subscriptions) ==> !s.Open()
    {
      var active := subscriptions;
      subscriptions := [];
      var i := 0;
      while i < |active|
        invariant 0 <= i <= |active|
        invariant forall j :: 0 <= j < i ==> !active[j].Open()
        modifies active`closed
      {
        if !active[i].expired {
          active[i].closed := true;
        }
        i := i + 1;
      }
    }
  }

  class Stream {
    const broadcaster: Broadcaster
    var stored: View
    var initialized: bool
    /** Every subscription ever handed out. */
    ghost var all: set<Subscription>

    /** Every open subscriber is on the list and replays to `v`. */
    ghost predicate Synced(v: View)
      reads this, broadcaster, all
    {
      && Distinct(broadcaster.subscriptions)
      && (forall s :: s in broadcaster.subscriptions ==> s in all)
      && (forall s :: s in all && s.Open() ==> s in broadcaster.subscriptions && Replay(s.Frames()) == Some(v))
    }

    /** The invariant of every serialised run. */
    ghost predicate Valid()
      reads this, broadcaster, all
    {
      Synced(stored) && (!initialized ==> all == {})
    }

    constructor (maxQueue: nat, blank: View)
      ensures Valid() && !initialized && all == {} && fresh(broadcaster)
    {
      broadcaster := new Broadcaster(maxQueue);
      stored, initialized, all := blank, false, {};
    }

    /** One published frame moves every open subscriber's view by that frame; a subscriber
        is closed exactly when it had no room for it. */
    method Push(f: Frame, ghost v: View, ghost w: View)
      requires Synced(v) && Apply(Some(v), f) == Some(w)
      modifies broadcaster`subscriptions, all`messages, all`closed
      ensures Synced(w)
      ensures forall s :: s in all ==> Delivered(old(s.Now()), s.Now(), [f], broadcaster.maxQueue)
    {
      hide Replay, Apply;
      forall s | s in all && s.Open() ensures Replay(s.Frames() + [f]) == Some(w) {
        ReplayOne(s.Frames(), f);
      }
      broadcaster.Publish(f);
      forall s | s in all ensures Delivered(old(s.Now()), s.Now(), [f], broadcaster.maxQueue) {
        if s in old(broadcaster.subscriptions) { assert broadcaster.Offered(s, f); }
      }
      forall s | s in all && s.Open() ensures s in broadcaster.subscriptions && Replay(s.Frames()) == Some(w) {
        assert s in old(broadcaster.subscriptions);
        assert broadcaster.Offered(s, f);
        assert s.Frames() == old(s.Frames()) + [f];
      }
    }

    /** Pushes a frame only where a part changed. */
    method PushIf(changed: bool, f: Frame, ghost v: View, ghost w: View)
      requires Synced(v) && (if changed then Apply(Some(v), f) == Some(w) else v == w)
      modifies broadcaster`subscriptions, all`messages, all`closed
      ensures Synced(w)
      ensures forall s :: s in all ==>
                Delivered(old(s.Now()), s.Now(), if changed then [f] else [], broadcaster.maxQueue)
    {
      hide Replay, Apply, Synced;
      if changed {
        Push(f, v, w);
      } else {
        forall s | s in all ensures Delivered(old(s.Now()), s.Now(), [], broadcaster.maxQueue) {
          assert s.messages + [] == s.messages;
        }
      }
    }

    /** Publishes exactly what differs from the stored view. */
    method PublishDiff(snap: View)
      requires Synced(stored)
      modifies broadcaster`subscriptions, all`messages, all`closed
      ensures Synced(snap)
      ensures forall s :: s in all ==>
                Delivered(old(s.Now()), s.Now(), DiffFrames(stored, snap), broadcaster.maxQueue)
    {
      hide Replay, Synced, Delivered, Subscription.Now;
      ghost var v1 := stored.(service := snap.service);
      ghost var v2 := v1.(outbounds := snap.outbounds);
      ghost var a := if snap.service != stored.service then [Service(snap.service)] else [];
      ghost var b := if snap.outbounds != stored.outbounds then [Outbounds(snap.outbounds)] else [];
      ghost var c := if snap.interfaces != stored.interfaces then [Interfaces(snap.interfaces)] else [];
      PushIf(snap.service != stored.service, Service(snap.service), stored, v1);
      label one:
      PushIf(snap.outbounds != stored.outbounds, Outbounds(snap.outbounds), v1, v2);
      label two:
      PushIf(snap.interfaces != stored.interfaces, Interfaces(snap.interfaces), v2, snap);
      forall s | s in all ensures Delivered(old(s.Now()), s.Now(), DiffFrames(stored, snap), broadcaster.maxQueue) {
        DeliveredThen(old(s.Now()), old@one(s.Now()), old@two(s.Now()), a, b, broadcaster.maxQueue);
        DeliveredThen(old(s.Now()), old@two(s.Now()), s.Now(), a + b, c, broadcaster.maxQueue);
      }
    }

    /** The new subscriber starts with the whole status; the others get what changed. */
    method Subscribe(snap: View) returns (s: Subscription)
      requires Valid()
      modifies this`stored, this`initialized, this`all, broadcaster`subscriptions
      modifies all`messages, all`closed
      ensures Valid() && initialized && stored == snap
      ensures fresh(s) && all == old(all) + {s} && s in broadcaster.subscriptions
      ensures s.Now() == Queue(true, [Snapshot(snap)])
      ensures forall t :: t in old(all) ==>
                Delivered(old(t.Now()), t.Now(), if old(initialized) then DiffFrames(old(stored), snap) else [],
                          broadcaster.maxQueue)
    {
      hide Replay, Delivered;
      if initialized {
        PublishDiff(snap);
      }
      stored := snap;
      initialized := true;
      s := broadcaster.Subscribe([Snapshot(snap)]);
      SnapshotReplays(snap);
      assert s.Frames() == [Snapshot(snap)];
      all := all + {s};
    }

    lemma SnapshotReplays(v: View)
      ensures Replay([Snapshot(v)]) == Some(v)
    {}

    /** Every subscriber gets exactly what changed since the stored view. */
    method Reconcile(snap: View)
      requires Valid()
      modifies this`stored, this`initialized, broadcaster`subscriptions
      modifies all`messages, all`closed
      ensures Valid() && initialized && stored == snap
      ensures forall s :: s in all ==>
                Delivered(old(s.Now()), s.Now(), if old(initialized) then DiffFrames(old(stored), snap) else [],
                          broadcaster.maxQueue)
    {
      hide Delivered;
      if !initialized {
        stored := snap;
        initialized := true;
        return;
      }
      PublishDiff(snap);
      stored := snap;
    }

    method Unsubscribe(s: Subscription)
      requires Valid() && s in all
      modifies broadcaster`subscriptions, s`closed
      ensures Valid() && !s.Open()
    {
      hide Replay;
      broadcaster.Unsubscribe(s);
    }

    /** A client takes a frame: what it has seen and will see is unchanged. */
    method Take(s: Subscription) returns (f: Frame)
      requires Valid() && s in all && s.messages != []
      modifies s`messages, s`taken
      ensures Valid() && s.Frames() == old(s.Frames())
    {
      hide Replay;
      f := s.Consume();
    }

    /** A client goes away without unsubscribing. */
    method Drop(s: Subscription)
      requires Valid() && s in all
      modifies s`expired
      ensures Valid() && !s.Open()
    {
      hide Replay;
      s.expired := true;
    }

    method CloseAll()
      requires Valid()
      modifies broadcaster`subscriptions, all`closed
      ensures Valid() && broadcaster.subscriptions == [] && forall s :: s in all ==> !s.Open()
    {
      hide Replay;
      broadcaster.CloseAll();
    }
  }
}
