/** The dnsmasq generator: one pass over rules and lists that feeds the hash and, when
    an output is given, writes directives in batches. */
module DnsmasqGen {
  import opened Common
  import opened Ordering
  import opened DnsmasqRows
  import opened DnsmasqBatches
  import opened DnsmasqConfig
  import Rfc1321
  import Md5

  /** The MD5 state behind the hash callback. */
  class Hasher {
    const md5: Md5.Md5State
    /** Every record fed so far. */
    ghost var records: seq<Record>

    ghost predicate Valid()
      reads this, md5, md5.buf
    {
      md5.Valid() && md5.message == Payload(records)
    }

    constructor ()
      ensures Valid() && fresh(md5) && fresh(md5.buf) && records == []
    {
      hide Md5.Md5State.Valid;
      md5 := new Md5.Md5State();
      records := [];
    }

    method Feed(r: Record)
      requires Valid()
      modifies this`records, md5, md5.buf
      ensures Valid() && records == old(records) + [r]
    {
      hide TextBytes, RecordText, Md5.Md5State.Valid;
      md5.Update(TextBytes(RecordText(r)));
      md5.Update([10]);
      FlatMapAppend(records, [r], RecordBytes());
      FlatMapOne(r, RecordBytes());
      ghost var bytes := TextBytes(RecordText(r));
      assert Payload(records) + bytes + [10] == Payload(records) + (bytes + [10]);
      records := records + [r];
    }

    method Hash() returns (digest: seq<Rfc1321.Byte>)
      requires Valid()
      ensures digest == Rfc1321.Digest(Payload(records))
    {
      hide Md5.Md5State.Valid, Rfc1321.Digest;
      digest := md5.DigestNow();
    }
  }

  function On(emit: bool, lines: seq<OutLine>): seq<OutLine>
  {
    if emit then lines else []
  }

  /** The output stream, if there is one, and the batches of the list being streamed. */
  class Emitter {
    const emit: bool
    const st: Style
    var out: seq<OutLine>
    var batches: seq<Batch>

    constructor (emit: bool, st: Style)
      ensures this.emit == emit && this.st == st && out == [] && batches == []
    {
      this.emit, this.st := emit, st;
      out, batches := [], [];
    }

    method Write(lines: seq<OutLine>)
      modifies this`out
      ensures out == old(out) + On(emit, lines)
    {
      if emit {
        out := out + lines;
      }
    }

    method Flush(i: nat)
      requires emit && i < |batches|
      modifies this`out, this`batches
      ensures batches == old(batches)[i := Flushed(old(batches)[i])]
      ensures out == old(out) + FlushRows(old(batches)[i])
    {
      if !batches[i].enabled || batches[i].count == 0 {
        return;
      }
      out := out + [Row(batches[i].kind, batches[i].path)];
      batches := batches[i := batches[i].(path := "", count := 0)];
    }

    method Push(i: nat, d: string)
      requires emit && i < |batches|
      modifies this`out, this`batches
      ensures batches == old(batches)[i := Pushed(st, old(batches)[i], d)]
      ensures out == old(out) + PushRows(st, old(batches)[i], d)
    {
      hide PrefixLen, SuffixLen;
      if !batches[i].enabled {
        return;
      }
      var k := batches[i].kind;
      var next := batches[i].path + "/" + d;
      if batches[i].count >= BATCH_SIZE || PrefixLen(st, k) + |next| + SuffixLen(st, k) > MAX_ROW {
        Flush(i);
        next := "/" + d;
        if PrefixLen(st, k) + |next| + SuffixLen(st, k) > MAX_ROW {
          return;
        }
      }
      batches := batches[i := batches[i].(path := next, count := batches[i].count + 1)];
    }

    method PushAll(d: string)
      requires emit
      modifies this`out, this`batches
      ensures batches == Map(old(batches), Advance(st, d))
      ensures out == old(out) + FlatMap(old(batches), Pushing(st, d))
    {
      hide PushRows, Pushed, FlatMap;
      ghost var bs, o := batches, out;
      var i := 0;
      FlatMapNone(Pushing(st, d));
      while i < |batches|
        invariant 0 <= i <= |bs| == |batches|
        invariant forall j :: 0 <= j < i ==> batches[j] == Pushed(st, bs[j], d)
        invariant forall j :: i <= j < |bs| ==> batches[j] == bs[j]
        invariant out == o + FlatMap(bs[..i], Pushing(st, d))
      {
        Push(i, d);
        FlatMapStep(bs, i, Pushing(st, d));
        i := i + 1;
      }
      assert bs[..i] == bs;
    }

    method FlushAll()
      requires emit
      modifies this`out, this`batches
      ensures out == old(out) + FlatMap(old(batches), Flushing())
    {
      hide FlushRows, Flushed, FlatMap;
      ghost var bs, o := batches, out;
      var i := 0;
      FlatMapNone(Flushing());
      while i < |batches|
        invariant 0 <= i <= |bs| == |batches|
        invariant forall j :: i <= j < |bs| ==> batches[j] == bs[j]
        invariant out == o + FlatMap(bs[..i], Flushing())
      {
        Flush(i);
        FlatMapStep(bs, i, Flushing());
        i := i + 1;
      }
      assert bs[..i] == bs;
    }
  }

  // ---------------------------------------------------------------- one list

  method FeedDomain(h: Hasher, cfg: Config, l: string, needsSet: bool, rebind: bool, servers: seq<Server>, d: string)
    requires h.Valid()
    requires needsSet == NeedsSet(cfg, l) && rebind == AllowsRebind(cfg, l) && servers == ServersFor(cfg, l)
    modifies h`records, h.md5, h.md5.buf
    ensures h.Valid() && h.records == old(h.records) + DomainRecords(cfg, l)(d)
  {
    hide NeedsSet, AllowsRebind, ServersFor, Hasher.Valid;
    ghost var before := h.records;
    ghost var first := (if needsSet then [Route(l, d)] else []) + (if rebind then [Rebind(l, d)] else []);
    if needsSet {
      h.Feed(Route(l, d));
    }
    if rebind {
      h.Feed(Rebind(l, d));
    }
    assert h.records == before + first;
    var i := 0;
    while i < |servers|
      invariant 0 <= i <= |servers| && h.Valid()
      invariant h.records == before + first + ServerRecords(l, d, servers)[..i]
    {
      h.Feed(DomainServer(l, d, i, servers[i]));
      i := i + 1;
    }
    assert ServerRecords(l, d, servers)[..i] == ServerRecords(l, d, servers);
    assert DomainRecords(cfg, l)(d) == first + ServerRecords(l, d, servers);
  }

  /** Lines of a list's section before its last flush. */
  function SoFar(cfg: Config, st: Style, l: string, ds: seq<string>): seq<OutLine>
  {
    if !Active(cfg, l) || ds == [] then [] else [Line("# List: " + l)] + SectionRows(st, ListBatches(cfg, l), ds)
  }

  lemma SoFarStep(cfg: Config, st: Style, l: string, ds: seq<string>, d: string)
    requires Active(cfg, l)
    ensures SectionBatches(st, ListBatches(cfg, l), ds + [d]) ==
            Map(SectionBatches(st, ListBatches(cfg, l), ds), Advance(st, d))
    ensures SoFar(cfg, st, l, ds + [d]) ==
            (if ds == [] then [Line("# List: " + l)] else SoFar(cfg, st, l, ds))
            + FlatMap(SectionBatches(st, ListBatches(cfg, l), ds), Pushing(st, d))
  {
    hide ListBatches, Active, FlatMap;
    assert (ds + [d])[..|ds + [d]| - 1] == ds;
    var bs := ListBatches(cfg, l);
    assert SectionRows(st, bs, ds + [d]) ==
           SectionRows(st, bs, ds) + FlatMap(SectionBatches(st, bs, ds), Pushing(st, d));
  }

  lemma {:induction false} FreshFlush(bs: seq<Batch>)
    requires forall b :: b in bs ==> b.count == 0
    ensures FlatMap(bs, Flushing()) == []
  {
    if bs != [] {
      FreshFlush(bs[1..]);
    }
  }

  /** The lines of a whole section are those so far, the last flush and a blank line. */
  lemma SectionEnds(cfg: Config, st: Style, l: string, ds: seq<string>)
    requires l in cfg.lists && ds == Bares(cfg.lists[l])
    ensures SectionLines(cfg, st)(l) ==
            if Active(cfg, l) && ds != [] then
              SoFar(cfg, st, l, ds) + FlatMap(SectionBatches(st, ListBatches(cfg, l), ds), Flushing()) + [Line("")]
            else []
    ensures FlatMap(ListBatches(cfg, l), Flushing()) == []
  {
    hide Active, FlatMap, SectionRows, Bares;
    FreshFlush(ListBatches(cfg, l));
    var rows, last := SectionRows(st, ListBatches(cfg, l), ds),
        FlatMap(SectionBatches(st, ListBatches(cfg, l), ds), Flushing());
    assert [Line("# List: " + l)] + (rows + last) == [Line("# List: " + l)] + rows + last;
  }

  /** Where the emitter stands after the domains `ds` of a list, `out` being what was there before. */
  ghost predicate Streamed(e: Emitter, cfg: Config, l: string, ds: seq<string>, out: seq<OutLine>, wroteHeader: bool)
    reads e
  {
    && e.out == out + On(e.emit, SoFar(cfg, e.st, l, ds))
    && wroteHeader == (e.emit && Active(cfg, l) && ds != [])
    && e.batches ==
       if e.emit && Active(cfg, l) then SectionBatches(e.st, ListBatches(cfg, l), ds) else ListBatches(cfg, l)
  }

  method EmitDomain(e: Emitter, cfg: Config, l: string, d: string, wrote: bool, ghost ds: seq<string>,
                    ghost out: seq<OutLine>)
    returns (wroteHeader: bool)
    requires Active(cfg, l) && Streamed(e, cfg, l, ds, out, wrote)
    modifies e`out, e`batches
    ensures Streamed(e, cfg, l, ds + [d], out, wroteHeader)
  {
    hide Active, SectionBatches, ListBatches, SoFar, SectionRows, FlatMap;
    wroteHeader := wrote;
    SoFarStep(cfg, e.st, l, ds, d);
    ghost var sofar, rows := SoFar(cfg, e.st, l, ds),
        FlatMap(SectionBatches(e.st, ListBatches(cfg, l), ds), Pushing(e.st, d));
    NothingStreamed(cfg, e.st, l);
    if e.emit {
      if !wroteHeader {
        assert sofar == [] && out + [] == out;
        e.Write([Line("# List: " + l)]);
        wroteHeader := true;
        e.PushAll(d);
        assert out + [Line("# List: " + l)] + rows == out + ([Line("# List: " + l)] + rows);
      } else {
        e.PushAll(d);
        assert out + sofar + rows == out + (sofar + rows);
      }
    }
  }

  /** Flushes every batch and ends the section with a blank line if it has a header. */
  method EndSection(e: Emitter, cfg: Config, l: string, wroteHeader: bool, ghost ds: seq<string>,
                    ghost out: seq<OutLine>)
    requires l in cfg.lists && ds == Bares(cfg.lists[l]) && Streamed(e, cfg, l, ds, out, wroteHeader)
    modifies e`out, e`batches
    ensures e.out == out + On(e.emit, SectionLines(cfg, e.st)(l))
  {
    hide Active, SectionBatches, SoFar, SectionRows, FlatMap, Bares, SectionLines;
    SectionEnds(cfg, e.st, l, ds);
    NothingStreamed(cfg, e.st, l);
    InactiveNothing(cfg, e.st, l, ds);
    if e.emit {
      e.FlushAll();
    }
    if wroteHeader {
      e.Write([Line("")]);
    }
  }

  lemma InactiveNothing(cfg: Config, st: Style, l: string, ds: seq<string>)
    ensures !Active(cfg, l) ==> SoFar(cfg, st, l, ds) == []
  {}

  /** Streams one list: its records in entry order, and its section of the output. */
  method StreamList(h: Hasher, e: Emitter, cfg: Config, l: string, needsSet: bool, rebind: bool, servers: seq<Server>)
    requires h.Valid() && l in cfg.lists
    requires needsSet == NeedsSet(cfg, l) && rebind == AllowsRebind(cfg, l) && servers == ServersFor(cfg, l)
    modifies h`records, h.md5, h.md5.buf, e`out, e`batches
    ensures h.Valid() && h.records == old(h.records) + ListRecords(cfg)(l)
    ensures e.out == old(e.out) + On(e.emit, SectionLines(cfg, e.st)(l))
  {
    hide NeedsSet, AllowsRebind, ServersFor, Hasher.Valid, SectionBatches, ListBatches, SoFar, FlatMap, DomainRecords,
      Bares, SectionLines;
    ghost var records, out := h.records, e.out;
    var entries := cfg.lists[l];
    var wroteHeader := false;
    e.batches := ListBatches(cfg, l);
    NothingStreamed(cfg, e.st, l);
    var i := 0;
    while i < |entries|
      invariant 0 <= i <= |entries| && h.Valid()
      invariant h.records == records + FlatMap(Bares(entries[..i]), DomainRecords(cfg, l))
      invariant Streamed(e, cfg, l, Bares(entries[..i]), out, wroteHeader)
    {
      ghost var ds := Bares(entries[..i]);
      BaresStep(entries, i);
      var entry := entries[i];
      i := i + 1;
      if !entry.Domain? { continue; }
      var bare := StripWildcard(entry.text);
      if bare == "" { continue; }
      if |bare| > MAX_DOMAIN { continue; }
      FeedDomain(h, cfg, l, needsSet, rebind, servers, bare);
      DomainStep(cfg, l, records, ds, bare);
      if !needsSet && !rebind && |servers| == 0 {
        InactiveStep(cfg, e.st, l, ds, bare);
        continue;
      }
      wroteHeader := EmitDomain(e, cfg, l, bare, wroteHeader, ds, out);
    }
    assert entries[..i] == entries;
    EndSection(e, cfg, l, wroteHeader, Bares(entries), out);
  }

  lemma NothingStreamed(cfg: Config, st: Style, l: string)
    ensures Bares([]) == [] && SoFar(cfg, st, l, []) == []
    ensures SectionBatches(st, ListBatches(cfg, l), []) == ListBatches(cfg, l)
    ensures FlatMap([], DomainRecords(cfg, l)) == []
  {}

  lemma BaresStep(entries: seq<Entry>, i: nat)
    requires i < |entries|
    ensures Bares(entries[..i + 1]) ==
            if entries[i].Domain? && 0 < |StripWildcard(entries[i].text)| <= MAX_DOMAIN
            then Bares(entries[..i]) + [StripWildcard(entries[i].text)] else Bares(entries[..i])
  {
    hide FlatMap;
    FlatMapStep(entries, i, Bare());
  }

  lemma DomainStep(cfg: Config, l: string, records: seq<Record>, ds: seq<string>, d: string)
    ensures records + FlatMap(ds + [d], DomainRecords(cfg, l)) ==
            records + FlatMap(ds, DomainRecords(cfg, l)) + DomainRecords(cfg, l)(d)
  {
    hide FlatMap, DomainRecords;
    FlatMapAppend(ds, [d], DomainRecords(cfg, l));
    FlatMapOne(d, DomainRecords(cfg, l));
  }

  lemma InactiveStep(cfg: Config, st: Style, l: string, ds: seq<string>, d: string)
    requires !Active(cfg, l)
    ensures SoFar(cfg, st, l, ds + [d]) == SoFar(cfg, st, l, ds)
  {}
}
