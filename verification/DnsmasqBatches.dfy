/** What batching keeps: over any run of pushes the rows hold exactly the pushed domains
    that fit, in order, and batches that share one output do not disturb each other. */
module DnsmasqBatches {
  import opened Common
  import opened DnsmasqRows

  function ReadRow(st: Style): OutLine -> seq<string>
  {
    (l: OutLine) => if l.Row? then RowDomains(Text(st, l.kind, l.path)) else []
  }

  /** A row has 1 to 50 domains and at most 1024 characters. */
  predicate RowOk(st: Style, l: OutLine)
  {
    l.Row? && 1 <= |RowDomains(Text(st, l.kind, l.path))| <= BATCH_SIZE && |Text(st, l.kind, l.path)| <= MAX_ROW
  }

  function Fits(st: Style, k: Kind): string -> bool
  {
    (d: string) => !TooLong(st, k, "/" + d)
  }

  predicate BatchOk(st: Style, b: Batch)
  {
    && Fields(b.path)[0] == "" && b.count == |PathDomains(b.path)| <= BATCH_SIZE
    && (b.count == 0 ==> b.path == "")
    && (b.count > 0 ==> !TooLong(st, b.kind, b.path))
  }

  lemma FlushKeeps(st: Style, b: Batch)
    requires b.enabled && PlainTarget(b.kind) && BatchOk(st, b)
    ensures Flushed(b).path == "" && Flushed(b).count == 0
    ensures FlatMap(FlushRows(b), ReadRow(st)) == PathDomains(b.path)
    ensures forall l :: l in FlushRows(b) ==> RowOk(st, l)
  {
    hide Fields, Text;
    if b.count != 0 {
      RowReadsPath(st, b.kind, b.path);
      LengthsAgree(st, b.kind, b.path);
      FlatMapOne(Row(b.kind, b.path), ReadRow(st));
    }
  }

  lemma EmptyPath()
    ensures Fields("") == [""] && PathDomains("") == []
  {}

  /** One push: nothing is lost between the rows written and the path still held. */
  lemma PushKeeps(st: Style, b: Batch, d: string)
    requires b.enabled && PlainTarget(b.kind) && BatchOk(st, b) && SlashFree(d)
    ensures BatchOk(st, Pushed(st, b, d)) && Pushed(st, b, d).enabled && Pushed(st, b, d).kind == b.kind
    ensures FlatMap(PushRows(st, b, d), ReadRow(st)) + PathDomains(Pushed(st, b, d).path) ==
            if Fits(st, b.kind)(d) then PathDomains(b.path) + [d] else PathDomains(b.path)
    ensures forall l :: l in PushRows(st, b, d) ==> RowOk(st, l)
  {
    hide Fields, FlatMap, RowOk;
    FieldsSlash(b.path, d);
    FieldsSlash("", d);
    assert "" + "/" + d == "/" + d && b.path + "/" + d == b.path + ("/" + d);
    EmptyPath();
    FlushKeeps(st, b);
    FlatMapNone(ReadRow(st));
  }

  // ---------------------------------------------------------------- a run of one batch

  function RunBatch(st: Style, b: Batch, ds: seq<string>): Batch
  {
    if ds == [] then b else Pushed(st, RunBatch(st, b, ds[..|ds| - 1]), ds[|ds| - 1])
  }

  function RunRows(st: Style, b: Batch, ds: seq<string>): seq<OutLine>
  {
    if ds == [] then []
    else RunRows(st, b, ds[..|ds| - 1]) + PushRows(st, RunBatch(st, b, ds[..|ds| - 1]), ds[|ds| - 1])
  }

  predicate Plain(ds: seq<string>)
  {
    forall d :: d in ds ==> SlashFree(d)
  }

  lemma {:induction false} RunKeeps(st: Style, k: Kind, ds: seq<string>)
    requires PlainTarget(k) && Plain(ds)
    ensures var b := RunBatch(st, Batch(true, k, 0, ""), ds);
            && b.enabled && b.kind == k && BatchOk(st, b)
            && FlatMap(RunRows(st, Batch(true, k, 0, ""), ds), ReadRow(st)) + PathDomains(b.path) ==
               Filter(ds, Fits(st, k))
            && forall l :: l in RunRows(st, Batch(true, k, 0, ""), ds) ==> RowOk(st, l)
  {
    hide Fields, Pushed, PushRows, RowOk, PathDomains, FlatMap, Filter, Fits;
    var b0 := Batch(true, k, 0, "");
    EmptyPath();
    if ds == [] {
      FlatMapNone(ReadRow(st));
      FilterNone<string>([], Fits(st, k));
    } else {
      var init, d := ds[..|ds| - 1], ds[|ds| - 1];
      RunKeeps(st, k, init);
      var b := RunBatch(st, b0, init);
      PushKeeps(st, b, d);
      FlatMapAppend(RunRows(st, b0, init), PushRows(st, b, d), ReadRow(st));
      assert ds[..|ds|] == ds;
      FilterStep(ds, |ds| - 1, Fits(st, k));
      RunStepReads(FlatMap(RunRows(st, b0, init), ReadRow(st)), FlatMap(PushRows(st, b, d), ReadRow(st)),
                   PathDomains(b.path),
                   PathDomains(Pushed(st, b, d).path), Filter(init, Fits(st, k)), if Fits(st, k)(d) then [d] else []);
    }
  }

  lemma RunStepReads(rows: seq<string>, more: seq<string>, held: seq<string>, held': seq<string>, before: seq<string>,
                     new1: seq<string>)
    requires rows + held == before && (more + held' == held + new1)
    ensures rows + more + held' == before + new1
  {
    assert rows + more + held' == rows + (more + held');
    assert rows + (held + new1) == rows + held + new1;
  }

  /** Every row a batch ever writes for a list, last flush included. */
  function BatchRows(st: Style, b: Batch, ds: seq<string>): seq<OutLine>
  {
    RunRows(st, b, ds) + FlushRows(RunBatch(st, b, ds))
  }

  /** The domains read back from the rows, in order, are exactly the pushed domains that fit
      a row of their own; every row has 1 to 50 of them and at most 1024 characters. */
  lemma RowsHoldTheDomains(st: Style, k: Kind, ds: seq<string>)
    requires PlainTarget(k) && Plain(ds)
    ensures FlatMap(BatchRows(st, Batch(true, k, 0, ""), ds), ReadRow(st)) == Filter(ds, Fits(st, k))
    ensures forall l :: l in BatchRows(st, Batch(true, k, 0, ""), ds) ==> RowOk(st, l)
  {
    hide RunRows, RunBatch, RowOk, Fields, PathDomains, Fits, FlatMap, Filter, Flushed, FlushRows;
    RunKeeps(st, k, ds);
    var b := RunBatch(st, Batch(true, k, 0, ""), ds);
    FlushKeeps(st, b);
    FlatMapAppend(RunRows(st, Batch(true, k, 0, ""), ds), FlushRows(b), ReadRow(st));
  }

  /** For a list whose name is a valid tag no domain is skipped, whatever the resolver. */
  lemma SetRowsSkipNothing(st: Style, list: string, ds: seq<string>)
    requires SlashFree(list) && |list| <= 24 && Plain(ds)
    requires forall d :: d in ds ==> |d| <= MAX_DOMAIN
    ensures FlatMap(BatchRows(st, Batch(true, SetRow(list), 0, ""), ds), ReadRow(st)) == ds
  {
    hide BatchRows, Filter, FlatMap;
    RowsHoldTheDomains(st, SetRow(list), ds);
    forall d | d in ds ensures Fits(st, SetRow(list))(d) {
      assert |"/" + d| <= 256;
    }
    FilterAll(ds, Fits(st, SetRow(list)));
  }

  /** The limit is exact: a row of its own fails only past the row length. */
  lemma SkippedExactly(st: Style, k: Kind, d: string)
    requires PlainTarget(k) && SlashFree(d)
    ensures BatchRows(st, Batch(true, k, 0, ""), [d]) == [] <==> |Text(st, k, "/" + d)| > MAX_ROW
  {
    var b := Batch(true, k, 0, "");
    assert RunBatch(st, b, [d]) == Pushed(st, RunBatch(st, b, [d][..0]), d);
    assert RunRows(st, b, [d]) == RunRows(st, b, [d][..0]) + PushRows(st, RunBatch(st, b, [d][..0]), d);
    assert "" + "/" + d == "/" + d;
    LengthsAgree(st, k, "/" + d);
  }

  // ---------------------------------------------------------------- batches sharing one output

  function Advance(st: Style, d: string): Batch -> Batch
  {
    (b: Batch) => Pushed(st, b, d)
  }

  function Pushing(st: Style, d: string): Batch -> seq<OutLine>
  {
    (b: Batch) => PushRows(st, b, d)
  }

  function Flushing(): Batch -> seq<OutLine>
  {
    (b: Batch) => FlushRows(b)
  }

  function SectionBatches(st: Style, bs: seq<Batch>, ds: seq<string>): (r: seq<Batch>)
    ensures |r| == |bs|
  {
    if ds == [] then bs else Map(SectionBatches(st, bs, ds[..|ds| - 1]), Advance(st, ds[|ds| - 1]))
  }

  /** Rows written while a list streams, all batches interleaved domain by domain. */
  function SectionRows(st: Style, bs: seq<Batch>, ds: seq<string>): seq<OutLine>
  {
    if ds == [] then []
    else
      var init, d := ds[..|ds| - 1], ds[|ds| - 1];
      SectionRows(st, bs, init) + FlatMap(SectionBatches(st, bs, init), Pushing(st, d))
  }

  function SectionAll(st: Style, bs: seq<Batch>, ds: seq<string>): seq<OutLine>
  {
    SectionRows(st, bs, ds) + FlatMap(SectionBatches(st, bs, ds), Flushing())
  }

  function IsRowOf(k: Kind): OutLine -> bool
  {
    (l: OutLine) => l.Row? && l.kind == k
  }

  ghost predicate DistinctKinds(bs: seq<Batch>)
  {
    forall i, j :: 0 <= i < j < |bs| ==> bs[i].kind != bs[j].kind
  }

  lemma PickOne(bs: seq<Batch>, f: Batch -> seq<OutLine>, i: nat)
    requires i < |bs| && DistinctKinds(bs)
    requires forall b :: b in bs ==> forall l :: l in f(b) ==> l.Row? && l.kind == b.kind
    ensures Filter(FlatMap(bs, f), IsRowOf(bs[i].kind)) == f(bs[i])
  {
    hide FlatMap, Filter;
    forall j, l | 0 <= j < |bs| && j != i && l in f(bs[j]) ensures !IsRowOf(bs[i].kind)(l) {
      assert bs[j] in bs;
    }
    FilterPick(bs, f, IsRowOf(bs[i].kind), i);
    assert bs[i] in bs;
    FilterAll(f(bs[i]), IsRowOf(bs[i].kind));
  }

  lemma {:induction false} SectionBatch(st: Style, bs: seq<Batch>, ds: seq<string>, i: nat)
    requires i < |bs|
    ensures SectionBatches(st, bs, ds)[i] == RunBatch(st, bs[i], ds)
    ensures SectionBatches(st, bs, ds)[i].kind == bs[i].kind
  {
    if ds != [] {
      SectionBatch(st, bs, ds[..|ds| - 1], i);
    }
  }

  lemma SectionKinds(st: Style, bs: seq<Batch>, ds: seq<string>)
    requires DistinctKinds(bs)
    ensures DistinctKinds(SectionBatches(st, bs, ds))
  {
    hide SectionBatches;
    forall i: nat | i < |bs| ensures SectionBatches(st, bs, ds)[i].kind == bs[i].kind {
      SectionBatch(st, bs, ds, i);
    }
  }

  lemma {:induction false} SectionRun(st: Style, bs: seq<Batch>, ds: seq<string>, i: nat)
    requires i < |bs| && DistinctKinds(bs)
    ensures Filter(SectionRows(st, bs, ds), IsRowOf(bs[i].kind)) == RunRows(st, bs[i], ds)
  {
    hide FlatMap, SectionBatches;
    if ds != [] {
      hide Filter;
      var init, d := ds[..|ds| - 1], ds[|ds| - 1];
      SectionRun(st, bs, init, i);
      SectionBatch(st, bs, init, i);
      SectionKinds(st, bs, init);
      PickOne(SectionBatches(st, bs, init), Pushing(st, d), i);
      FilterAppend(SectionRows(st, bs, init), FlatMap(SectionBatches(st, bs, init), Pushing(st, d)),
                   IsRowOf(bs[i].kind));
    }
  }

  /** Each batch's rows in the shared output are those it would have written alone. */
  lemma BatchesIndependent(st: Style, bs: seq<Batch>, ds: seq<string>, i: nat)
    requires i < |bs| && DistinctKinds(bs)
    ensures Filter(SectionAll(st, bs, ds), IsRowOf(bs[i].kind)) == BatchRows(st, bs[i], ds)
  {
    hide FlatMap, SectionBatches, SectionRows, RunRows, RunBatch, Filter;
    SectionRun(st, bs, ds, i);
    SectionBatch(st, bs, ds, i);
    SectionKinds(st, bs, ds);
    PickOne(SectionBatches(st, bs, ds), Flushing(), i);
    FilterAppend(SectionRows(st, bs, ds), FlatMap(SectionBatches(st, bs, ds), Flushing()), IsRowOf(bs[i].kind));
  }
}
