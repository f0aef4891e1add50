/** What one refresh does once it owns its flight: the loop that downloads the
    configured remote lists and classifies each by what its download did. */
module ListRefresh {
  import opened Common

  datatype RemoteList = RemoteList(name: string, url: Option<string>)

  /** What the cache manager reports for one download, or that it threw. */
  datatype Download = Failed | Unchanged | Updated | Throws(error: int)

  datatype Refresh = Refresh(refreshed: seq<string>, cached: seq<string>, changed: seq<string>, same: seq<string>,
                             relevantChanged: seq<string>, dnsRelevantChanged: seq<string>, failed: seq<string>)

  datatype Scope = Scope(onlyUncached: bool, relevant: Option<set<string>>, targets: Option<set<string>>,
                         dnsRelevant: Option<set<string>>)

  predicate Targeted(sc: Scope, l: RemoteList)
  {
    l.url.Some? && (sc.targets.Some? ==> l.name in sc.targets.value)
  }

  function IsTarget(sc: Scope): RemoteList -> bool
  {
    (l: RemoteList) => Targeted(sc, l)
  }

  function Name(): RemoteList -> string
  {
    (l: RemoteList) => l.name
  }

  /** Names of the lists this refresh is about, in config order. */
  function Targets(sc: Scope, lists: seq<RemoteList>): seq<string>
  {
    Map(Filter(lists, IsTarget(sc)), Name())
  }

  function KeepCached(sc: Scope, cached: set<string>): string -> bool
  {
    (n: string) => sc.onlyUncached && n in cached
  }

  function Fetched(sc: Scope, cached: set<string>): string -> bool
  {
    (n: string) => !(sc.onlyUncached && n in cached)
  }

  function Ended(sc: Scope, cached: set<string>, downloads: string -> Download, d: Download): string -> bool
  {
    (n: string) => !(sc.onlyUncached && n in cached) && downloads(n) == d
  }

  function EndedIn(sc: Scope, cached: set<string>, downloads: string -> Download,
                   names: Option<set<string>>): string -> bool
  {
    (n: string) => !(sc.onlyUncached && n in cached) && downloads(n) == Updated && names.Some? && n in names.value
  }

  /** Each list of the result is the targets of one kind, in config order. */
  function Classified(sc: Scope, cached: set<string>, downloads: string -> Download, names: seq<string>): Refresh
  {
    Refresh(Filter(names, Fetched(sc, cached)),
            Filter(names, KeepCached(sc, cached)),
            Filter(names, Ended(sc, cached, downloads, Updated)),
            Filter(names, Ended(sc, cached, downloads, Unchanged)),
            Filter(names, EndedIn(sc, cached, downloads, sc.relevant)),
            Filter(names, EndedIn(sc, cached, downloads, sc.dnsRelevant)),
            Filter(names, Ended(sc, cached, downloads, Failed)))
  }

  predicate Throwing(sc: Scope, cached: set<string>, downloads: string -> Download, n: string)
  {
    !(sc.onlyUncached && n in cached) && downloads(n).Throws?
  }

  /** The result after one more target whose download did not throw. */
  function Add(sc: Scope, cached: set<string>, downloads: string -> Download, r: Refresh, n: string): Refresh
  {
    if sc.onlyUncached && n in cached then r.(cached := r.cached + [n])
    else
      match downloads(n)
      case Failed => r.(refreshed := r.refreshed + [n], failed := r.failed + [n])
      case Unchanged => r.(refreshed := r.refreshed + [n], same := r.same + [n])
      case Throws(_) => r.(refreshed := r.refreshed + [n])
      case Updated =>
        r.(refreshed := r.refreshed + [n], changed := r.changed + [n],
           relevantChanged := AddIf(sc.relevant, r.relevantChanged, n),
           dnsRelevantChanged := AddIf(sc.dnsRelevant, r.dnsRelevantChanged, n))
  }

  function AddIf(names: Option<set<string>>, r: seq<string>, n: string): seq<string>
  {
    if names.Some? && n in names.value then r + [n] else r
  }

  /** The refresh returns the classification of its targets, unless one of the
      downloads throws; the first such exception leaves the call. */
  method DownloadLists(lists: seq<RemoteList>, sc: Scope, cached: set<string>, downloads: string -> Download)
    returns (r: Result<Refresh, int>)
    ensures r.Ok? <==> forall n :: n in Targets(sc, lists) ==> !Throwing(sc, cached, downloads, n)
    ensures r.Ok? ==> r.value == Classified(sc, cached, downloads, Targets(sc, lists))
    ensures r.Err? ==> exists k: nat ::
                         && k < |Targets(sc, lists)| && Throwing(sc, cached, downloads, Targets(sc, lists)[k])
                         && downloads(Targets(sc, lists)[k]) == Throws(r.error)
                         && forall n :: n in Targets(sc, lists)[..k] ==> !Throwing(sc, cached, downloads, n)
  {
    hide Targets, Classified;
    var res := Refresh([], [], [], [], [], [], []);
    var i := 0;
    TargetsEmpty(sc);
    ClassifiedEmpty(sc, cached, downloads);
    while i < |lists|
      invariant 0 <= i <= |lists|
      invariant forall n :: n in Targets(sc, lists[..i]) ==> !Throwing(sc, cached, downloads, n)
      invariant res == Classified(sc, cached, downloads, Targets(sc, lists[..i]))
    {
      var l := lists[i];
      TargetsStep(sc, lists, i);
      i := i + 1;
      if l.url.None? { continue; }
      if sc.targets.Some? && l.name !in sc.targets.value { continue; }
      ClassifiedStep(sc, cached, downloads, Targets(sc, lists[..i - 1]), l.name);
      if sc.onlyUncached && l.name in cached {
        res := res.(cached := res.cached + [l.name]);
        continue;
      }
      res := res.(refreshed := res.refreshed + [l.name]);
      match downloads(l.name) {
        case Throws(e) =>
          TargetsPrefix(sc, lists, i);
          ThrowsFirst(sc, cached, downloads, Targets(sc, lists[..i - 1]), l.name, Targets(sc, lists));
          return Err(e);
        case Failed =>
          res := res.(failed := res.failed + [l.name]);
        case Unchanged =>
          res := res.(same := res.same + [l.name]);
        case Updated =>
          res := res.(changed := res.changed + [l.name]);
          if sc.relevant.Some? && l.name in sc.relevant.value {
            res := res.(relevantChanged := res.relevantChanged + [l.name]);
          }
          if sc.dnsRelevant.Some? && l.name in sc.dnsRelevant.value {
            res := res.(dnsRelevantChanged := res.dnsRelevantChanged + [l.name]);
          }
      }
    }
    assert lists[..i] == lists;
    return Ok(res);
  }

  lemma ThrowsFirst(sc: Scope, cached: set<string>, downloads: string -> Download, before: seq<string>, n: string,
                    all: seq<string>)
    requires before + [n] <= all && Throwing(sc, cached, downloads, n)
    requires forall m :: m in before ==> !Throwing(sc, cached, downloads, m)
    ensures n in all && |before| < |all| && all[|before|] == n && all[..|before|] == before
  {}

  lemma TargetsEmpty(sc: Scope)
    ensures Targets(sc, []) == []
  {}

  lemma TargetsStep(sc: Scope, lists: seq<RemoteList>, i: nat)
    requires i < |lists|
    ensures Targets(sc, lists[..i + 1]) ==
            if Targeted(sc, lists[i]) then Targets(sc, lists[..i]) + [lists[i].name] else Targets(sc, lists[..i])
  {
    FilterStep(lists, i, IsTarget(sc));
  }

  lemma TargetsPrefix(sc: Scope, lists: seq<RemoteList>, i: nat)
    requires i <= |lists|
    ensures Targets(sc, lists[..i]) <= Targets(sc, lists)
  {
    assert lists == lists[..i] + lists[i..];
    FilterAppend(lists[..i], lists[i..], IsTarget(sc));
  }

  lemma AppendOne(names: seq<string>, n: string, p: string -> bool)
    ensures Filter(names + [n], p) == if p(n) then Filter(names, p) + [n] else Filter(names, p)
  {
    FilterAppend(names, [n], p);
  }

  lemma ClassifiedStep(sc: Scope, cached: set<string>, downloads: string -> Download, names: seq<string>, n: string)
    ensures Classified(sc, cached, downloads, names + [n]) ==
            Add(sc, cached, downloads, Classified(sc, cached, downloads, names), n)
  {
    hide Filter;
    AppendOne(names, n, Fetched(sc, cached));
    AppendOne(names, n, KeepCached(sc, cached));
    AppendOne(names, n, Ended(sc, cached, downloads, Updated));
    AppendOne(names, n, Ended(sc, cached, downloads, Unchanged));
    AppendOne(names, n, EndedIn(sc, cached, downloads, sc.relevant));
    AppendOne(names, n, EndedIn(sc, cached, downloads, sc.dnsRelevant));
    AppendOne(names, n, Ended(sc, cached, downloads, Failed));
  }

  lemma ClassifiedEmpty(sc: Scope, cached: set<string>, downloads: string -> Download)
    ensures Classified(sc, cached, downloads, []) == Refresh([], [], [], [], [], [], [])
  {}

  lemma SplitAppend(a: seq<string>, b: seq<string>, c: seq<string>, n: string)
    requires multiset(a) == multiset(b) + multiset(c)
    ensures multiset(a + [n]) == multiset(b + [n]) + multiset(c)
    ensures multiset(a + [n]) == multiset(b) + multiset(c + [n])
  {}

  lemma {:induction false} SplitTwo(s: seq<string>, all: string -> bool, p: string -> bool, q: string -> bool)
    requires forall x :: x in s ==> (all(x) <==> p(x) || q(x)) && !(p(x) && q(x))
    ensures multiset(Filter(s, all)) == multiset(Filter(s, p)) + multiset(Filter(s, q))
  {
    if s != [] {
      hide Filter;
      var init, n := s[..|s| - 1], s[|s| - 1];
      assert s == init + [n];
      SplitTwo(init, all, p, q);
      AppendOne(init, n, all);
      AppendOne(init, n, p);
      AppendOne(init, n, q);
      SplitAppend(Filter(init, all), Filter(init, p), Filter(init, q), n);
    }
  }

  /** Conservation: the targets split into cached and refreshed, and a refresh that does
      not throw splits the refreshed into failed, unchanged and changed, losing none. */
  lemma NothingLost(sc: Scope, cached: set<string>, downloads: string -> Download, names: seq<string>)
    requires forall n :: n in names ==> !Throwing(sc, cached, downloads, n)
    ensures var c := Classified(sc, cached, downloads, names);
            && multiset(names) == multiset(c.cached) + multiset(c.refreshed)
            && multiset(c.refreshed) == multiset(c.failed) + multiset(c.same) + multiset(c.changed)
            && multiset(c.relevantChanged) <= multiset(c.changed)
            && multiset(c.dnsRelevantChanged) <= multiset(c.changed)
  {
    hide Filter;
    FilterAll(names, (n: string) => true);
    SplitTwo(names, n => true, KeepCached(sc, cached), Fetched(sc, cached));
    var settled := (n: string) => !(sc.onlyUncached && n in cached)
        && (downloads(n) == Failed || downloads(n) == Unchanged);
    forall n | n in names ensures downloads(n).Throws? ==> sc.onlyUncached && n in cached {
      assert !Throwing(sc, cached, downloads, n);
    }
    SplitTwo(names, Fetched(sc, cached), settled, Ended(sc, cached, downloads, Updated));
    SplitTwo(names, settled, Ended(sc, cached, downloads, Failed), Ended(sc, cached, downloads, Unchanged));
    ChangedSplit(sc, cached, downloads, names, sc.relevant);
    ChangedSplit(sc, cached, downloads, names, sc.dnsRelevant);
  }

  lemma ChangedSplit(sc: Scope, cached: set<string>, downloads: string -> Download, names: seq<string>,
                     among: Option<set<string>>)
    ensures multiset(Filter(names, EndedIn(sc, cached, downloads, among))) <=
            multiset(Filter(names, Ended(sc, cached, downloads, Updated)))
  {
    hide Filter;
    var rest := (n: string) => Ended(sc, cached, downloads, Updated)(n) && !EndedIn(sc, cached, downloads, among)(n);
    SplitTwo(names, Ended(sc, cached, downloads, Updated), EndedIn(sc, cached, downloads, among), rest);
  }

  // ---------------------------------------------------------------- what each class holds

  lemma TargetsAre(sc: Scope, lists: seq<RemoteList>, n: string)
    ensures n in Targets(sc, lists) <==>
            exists l :: l in lists && l.name == n && l.url.Some? && (sc.targets.None? || n in sc.targets.value)
  {
    MapMember(Filter(lists, IsTarget(sc)), Name(), n);
    if l :| l in lists && l.name == n && l.url.Some? && (sc.targets.None? || n in sc.targets.value) {
      assert l in Filter(lists, IsTarget(sc)) && n == Name()(l);
    }
    if l :| l in Filter(lists, IsTarget(sc)) && n == Name()(l) {
      assert Targeted(sc, l);
    }
  }

  /** Each class of the result holds exactly the lists with a URL, among those asked for, to
      which that happened: found in the cache, or downloaded with that outcome, and for the
      relevant ones also named as relevant. */
  lemma RefreshMeans(sc: Scope, cached: set<string>, downloads: string -> Download, lists: seq<RemoteList>, n: string)
    ensures var c := Classified(sc, cached, downloads, Targets(sc, lists));
            var target := exists l :: l in lists && l.name == n && l.url.Some?
                                      && (sc.targets.None? || n in sc.targets.value);
            var fetched := target && !(sc.onlyUncached && n in cached);
            && (n in c.cached <==> target && sc.onlyUncached && n in cached)
            && (n in c.refreshed <==> fetched)
            && (n in c.failed <==> fetched && downloads(n) == Failed)
            && (n in c.same <==> fetched && downloads(n) == Unchanged)
            && (n in c.changed <==> fetched && downloads(n) == Updated)
            && (n in c.relevantChanged <==>
                  fetched && downloads(n) == Updated && sc.relevant.Some? && n in sc.relevant.value)
            && (n in c.dnsRelevantChanged <==>
                  fetched && downloads(n) == Updated && sc.dnsRelevant.Some? && n in sc.dnsRelevant.value)
  {
    hide Targets, Filter;
    TargetsAre(sc, lists, n);
  }
}
