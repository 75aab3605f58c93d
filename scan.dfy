/**
 * The scan of the `errors` command: the spans the file locator found are read server by
 * server, span by span; every entry the reader yields is tagged with its file and server
 * and appended to its span's list; the lists are then gathered and sorted by time.
 */
module Scan {
  import opened Wrappers
  import opened Times
  import opened Window
  import opened Rules
  import opened Sorting

  /** One error as the reader yields it (`entry.to_dict()`). */
  datatype RawEntry = RawEntry(time: Instant, flowId: string, composite: string, version: string,
                               labelText: string, index: string)

  /** One error of the result: the reader's fields plus the file and the server it came from. */
  datatype Entry = Entry(time: Instant, flowId: string, composite: string, version: string,
                         labelText: string, index: string, file: string, server: string)

  function Tag(e: RawEntry, file: string, server: string): Entry {
    Entry(e.time, e.flowId, e.composite, e.version, e.labelText, e.index, file, server)
  }

  function Untag(e: Entry): RawEntry {
    RawEntry(e.time, e.flowId, e.composite, e.version, e.labelText, e.index)
  }

  /** Every yielded entry, in order, carrying the span's file and server and nothing else new. */
  function TagAll(es: seq<RawEntry>, file: string, server: string): (r: seq<Entry>)
    ensures |r| == |es|
    ensures forall i :: 0 <= i < |r| ==> r[i].file == file && r[i].server == server && Untag(r[i]) == es[i]
  {
    if es == [] then [] else TagAll(es[..|es| - 1], file, server) + [Tag(es[|es| - 1], file, server)]
  }

  /**
   * One span found by the file locator: a file, the byte range of it to read, and the
   * list the scan appends the file's errors to (`item["data"]`).
   */
  class SpanItem {
    const file: string
    const startPos: int
    const endPos: int
    var data: seq<Entry>

    constructor (file: string, startPos: int, endPos: int)
      ensures this.file == file && this.startPos == startPos && this.endPos == endPos
      ensures data == []
    {
      this.file := file;
      this.startPos := startPos;
      this.endPos := endPos;
      data := [];
    }
  }

  /**
   * The reader collaborator: the errors found in a file from a byte position on, up to
   * the upper time bound, labelled with the given rules.
   */
  type Reader = (string, int, Instant, seq<Rule>) -> seq<RawEntry>

  /** `_read_entries(server, item)`: every entry the reader yields, tagged, appended to the span's list. */
  method ReadEntries(server: string, item: SpanItem, read: Reader, timeTo: Instant, rules: seq<Rule>)
    modifies item
    ensures item.data == old(item.data) + TagAll(read(item.file, item.startPos, timeTo, rules), item.file, server)
  {
    var yielded := read(item.file, item.startPos, timeTo, rules);
    for k := 0 to |yielded|
      invariant item.data == old(item.data) + TagAll(yielded[..k], item.file, server)
    {
      assert yielded[..k + 1][..k] == yielded[..k];
      item.data := item.data + [Tag(yielded[k], item.file, server)];
    }
    assert yielded[..|yielded|] == yielded;
  }

  /** The spans of one server, as the locator lists them. */
  datatype ServerItems = ServerItems(server: string, items: seq<SpanItem>)

  /** One span with its server: the unit the scan works on. */
  datatype Slot = Slot(server: string, item: SpanItem)

  function SlotsOf(si: ServerItems): (r: seq<Slot>)
    ensures |r| == |si.items|
    ensures forall j :: 0 <= j < |r| ==> r[j] == Slot(si.server, si.items[j])
  {
    seq(|si.items|, j requires 0 <= j < |si.items| => Slot(si.server, si.items[j]))
  }

  /** The spans of the first n servers, server after server and each server's spans in order. */
  function SlotsUpTo(sf: seq<ServerItems>, n: nat): seq<Slot>
    requires n <= |sf|
  {
    if n == 0 then [] else SlotsUpTo(sf, n - 1) + SlotsOf(sf[n - 1])
  }

  /** All spans, in the order of the scan. */
  function Slots(sf: seq<ServerItems>): seq<Slot> {
    SlotsUpTo(sf, |sf|)
  }

  function ItemSet(slots: seq<Slot>): set<SpanItem> {
    if slots == [] then {} else ItemSet(slots[..|slots| - 1]) + {slots[|slots| - 1].item}
  }

  lemma {:induction false} ItemSetHas(slots: seq<Slot>, k: nat)
    requires k < |slots|
    ensures slots[k].item in ItemSet(slots)
  {
    if k < |slots| - 1 {
      ItemSetHas(slots[..|slots| - 1], k);
    }
  }

  /** The list of every span, as the current state holds them. */
  function Lists(slots: seq<Slot>): (r: seq<seq<Entry>>)
    reads ItemSet(slots)
    ensures |r| == |slots| && forall k {:trigger r[k]} :: 0 <= k < |slots| ==> r[k] == slots[k].item.data
  {
    if slots == [] then [] else Lists(slots[..|slots| - 1]) + [slots[|slots| - 1].item.data]
  }

  /** No span object is listed twice. */
  predicate DistinctItems(slots: seq<Slot>) {
    slots == [] || (DistinctItems(slots[..|slots| - 1]) && slots[|slots| - 1].item !in ItemSet(slots[..|slots| - 1]))
  }

  /** Two different positions of distinct spans hold two different objects. */
  lemma {:induction false} DistinctAt(slots: seq<Slot>, a: nat, b: nat)
    requires DistinctItems(slots) && a < b < |slots|
    ensures slots[a].item != slots[b].item
  {
    var init := slots[..|slots| - 1];
    if b == |slots| - 1 {
      ItemSetHas(init, a);
    } else {
      DistinctAt(init, a, b);
    }
  }

  /** The spans of the first n servers depend on those servers only. */
  lemma {:induction false} SlotsUpToAgree(a: seq<ServerItems>, c: seq<ServerItems>, n: nat)
    requires n <= |a| && n <= |c| && a[..n] == c[..n]
    ensures SlotsUpTo(a, n) == SlotsUpTo(c, n)
  {
    if n > 0 {
      assert a[n - 1] == a[..n][n - 1] == c[..n][n - 1] == c[n - 1];
      assert a[..n - 1] == a[..n][..n - 1] == c[..n][..n - 1] == c[..n - 1];
      SlotsUpToAgree(a, c, n - 1);
    }
  }

  lemma {:induction false} SlotsUpToAppend(a: seq<ServerItems>, b: seq<ServerItems>, n: nat)
    requires n <= |b|
    ensures SlotsUpTo(a + b, |a| + n) == Slots(a) + SlotsUpTo(b, n)
  {
    if n == 0 {
      assert (a + b)[..|a|] == a[..|a|];
      SlotsUpToAgree(a + b, a, |a|);
    } else {
      assert (a + b)[|a| + n - 1] == b[n - 1];
      SlotsUpToAppend(a, b, n - 1);
      var x, y, z := Slots(a), SlotsUpTo(b, n - 1), SlotsOf(b[n - 1]);
      assert SlotsUpTo(a + b, |a| + n) == (x + y) + z;
      assert (x + y) + z == x + (y + z);
    }
  }

  /** The scan order of two groups of servers is the first group's spans, then the second's. */
  lemma SlotsAppend(a: seq<ServerItems>, b: seq<ServerItems>)
    ensures Slots(a + b) == Slots(a) + Slots(b)
  {
    SlotsUpToAppend(a, b, |b|);
  }

  /** The spans of the first n servers come first in the scan order. */
  lemma {:induction false} SlotsPrefix(sf: seq<ServerItems>, n: nat, m: nat)
    requires n <= m <= |sf|
    ensures SlotsUpTo(sf, n) <= SlotsUpTo(sf, m)
  {
    if n < m {
      SlotsPrefix(sf, n, m - 1);
    }
  }

  /** The entries the scan adds to the list of one span. */
  function Scanned(s: Slot, read: Reader, timeTo: Instant, rules: seq<Rule>): seq<Entry> {
    TagAll(read(s.item.file, s.item.startPos, timeTo, rules), s.item.file, s.server)
  }

  /** The lists of the spans once the first n of them in scan order have been read. */
  ghost function ListsAfter(before: seq<seq<Entry>>, slots: seq<Slot>, n: nat,
                            read: Reader, timeTo: Instant, rules: seq<Rule>): (r: seq<seq<Entry>>)
    requires |before| == |slots|
    ensures |r| == |slots|
  {
    seq(|slots|, k requires 0 <= k < |slots| => before[k] + (if k < n then Scanned(slots[k], read, timeTo, rules) else []))
  }

  /** Reading the span at position m, and touching no other list, takes the scan one span further. */
  lemma ListsStep(before: seq<seq<Entry>>, slots: seq<Slot>, m: nat, current: seq<seq<Entry>>, next: seq<seq<Entry>>,
                  read: Reader, timeTo: Instant, rules: seq<Rule>)
    requires |before| == |slots| && m < |slots|
    requires current == ListsAfter(before, slots, m, read, timeTo, rules)
    requires |next| == |slots| && next[m] == current[m] + Scanned(slots[m], read, timeTo, rules)
    requires forall k :: 0 <= k < |slots| && k != m ==> next[k] == current[k]
    ensures next == ListsAfter(before, slots, m + 1, read, timeTo, rules)
  {
    var after := ListsAfter(before, slots, m + 1, read, timeTo, rules);
    forall k | 0 <= k < |slots|
      ensures next[k] == after[k]
    {
      if k == m {
        assert current[k] == before[k];
      }
    }
  }

  /** Reading no span yet leaves every list as it was. */
  lemma ListsAfterNone(before: seq<seq<Entry>>, slots: seq<Slot>, read: Reader, timeTo: Instant, rules: seq<Rule>)
    requires |before| == |slots|
    ensures ListsAfter(before, slots, 0, read, timeTo, rules) == before
  {
    var r := ListsAfter(before, slots, 0, read, timeTo, rules);
    forall k | 0 <= k < |slots|
      ensures r[k] == before[k]
    {
      assert before[k] + [] == before[k];
    }
  }

  /** Once every span has been read, each list holds what it held before plus what the scan added to it. */
  lemma ListsAfterAll(before: seq<seq<Entry>>, slots: seq<Slot>, now: seq<seq<Entry>>,
                      read: Reader, timeTo: Instant, rules: seq<Rule>)
    requires |before| == |slots|
    requires now == ListsAfter(before, slots, |slots|, read, timeTo, rules)
    ensures forall k :: 0 <= k < |slots| ==> now[k] == before[k] + Scanned(slots[k], read, timeTo, rules)
  {
  }

  /** The spans of the i-th server sit, in order, right after those of the servers before it. */
  lemma SlotsBlock(sf: seq<ServerItems>, i: nat)
    requires i < |sf|
    ensures |SlotsUpTo(sf, i + 1)| == |SlotsUpTo(sf, i)| + |sf[i].items| <= |Slots(sf)|
    ensures Slots(sf)[|SlotsUpTo(sf, i)|..|SlotsUpTo(sf, i)| + |sf[i].items|] == SlotsOf(sf[i])
  {
    SlotsPrefix(sf, i + 1, |sf|);
    var whole, upto, before := Slots(sf), SlotsUpTo(sf, i + 1), SlotsUpTo(sf, i);
    assert upto == before + SlotsOf(sf[i]);
    assert whole[..|upto|] == upto;
    assert whole[|before|..|upto|] == upto[|before|..];
  }

  /**
   * The inner scan loop, over the spans of one server: the spans sit at positions
   * base, base + 1, ... of the scan order, and each gets its entries appended in turn.
   */
  method ReadServer(server: string, items: seq<SpanItem>, read: Reader, timeTo: Instant, rules: seq<Rule>,
                    ghost slots: seq<Slot>, ghost base: nat, ghost before: seq<seq<Entry>>)
    requires DistinctItems(slots) && |before| == |slots|
    requires base + |items| <= |slots|
    requires slots[base..base + |items|] == SlotsOf(ServerItems(server, items))
    requires Lists(slots) == ListsAfter(before, slots, base, read, timeTo, rules)
    modifies ItemSet(slots)
    ensures Lists(slots) == ListsAfter(before, slots, base + |items|, read, timeTo, rules)
  {
    for j := 0 to |items|
      invariant Lists(slots) == ListsAfter(before, slots, base + j, read, timeTo, rules)
    {
      var item := items[j];
      ghost var m := base + j;
      assert slots[m] == slots[base..base + |items|][j] == Slot(server, item);
      ItemSetHas(slots, m);
      ghost var current := Lists(slots);
      ReadEntries(server, item, read, timeTo, rules);
      forall k | 0 <= k < |slots| && k != m
        ensures slots[k].item.data == current[k]
      {
        if k < m {
          DistinctAt(slots, k, m);
        } else {
          DistinctAt(slots, m, k);
        }
      }
      ListsStep(before, slots, m, current, Lists(slots), read, timeTo, rules);
    }
  }

  /**
   * The scan loop: every span, in scan order, gets the tagged entries of its file appended
   * to its list, and only once.
   */
  method ReadAll(sf: seq<ServerItems>, read: Reader, timeTo: Instant, rules: seq<Rule>)
    requires DistinctItems(Slots(sf))
    modifies ItemSet(Slots(sf))
    ensures forall k :: 0 <= k < |Slots(sf)| ==>
              Slots(sf)[k].item.data == old(Slots(sf)[k].item.data) + Scanned(Slots(sf)[k], read, timeTo, rules)
  {
    ghost var slots := Slots(sf);
    ghost var before := Lists(slots);
    ListsAfterNone(before, slots, read, timeTo, rules);
    ghost var done := 0;
    for i := 0 to |sf|
      invariant done == |SlotsUpTo(sf, i)|
      invariant Lists(slots) == ListsAfter(before, slots, done, read, timeTo, rules)
    {
      SlotsBlock(sf, i);
      ReadServer(sf[i].server, sf[i].items, read, timeTo, rules, slots, done, before);
      done := done + |sf[i].items|;
    }
    ListsAfterAll(before, slots, Lists(slots), read, timeTo, rules);
  }

  /** The lists of the first n spans, in scan order, one after the other, as the current state holds them. */
  function Gathered(slots: seq<Slot>, n: nat): seq<Entry>
    requires n <= |slots|
    reads ItemSet(slots)
  {
    if n == 0 then [] else ItemSetHas(slots, n - 1); Gathered(slots, n - 1) + slots[n - 1].item.data
  }

  /** The inner loop of the gathering, over the spans of one server, which sit at positions base, base + 1, ... */
  method CollectServer(server: string, items: seq<SpanItem>, data: seq<Entry>, ghost slots: seq<Slot>, ghost base: nat)
    returns (extended: seq<Entry>)
    requires base + |items| <= |slots|
    requires slots[base..base + |items|] == SlotsOf(ServerItems(server, items))
    requires data == Gathered(slots, base)
    ensures extended == Gathered(slots, base + |items|)
  {
    extended := data;
    for j := 0 to |items|
      invariant extended == Gathered(slots, base + j)
    {
      assert slots[base + j] == slots[base..base + |items|][j] == Slot(server, items[j]);
      extended := extended + items[j].data;
    }
  }

  /** The loop `data.extend(item["data"])` over servers and spans: the spans' lists, in scan order, one after the other. */
  method Collect(sf: seq<ServerItems>) returns (data: seq<Entry>)
    ensures data == Gathered(Slots(sf), |Slots(sf)|)
  {
    ghost var slots := Slots(sf);
    ghost var done := 0;
    data := [];
    for i := 0 to |sf|
      invariant done == |SlotsUpTo(sf, i)| <= |slots|
      invariant data == Gathered(slots, done)
    {
      SlotsBlock(sf, i);
      data := CollectServer(sf[i].server, sf[i].items, data, slots, done);
      done := done + |sf[i].items|;
    }
  }

  /** What the scan yields for all spans, in scan order: the concatenation the result is sorted from. */
  function ScannedAll(slots: seq<Slot>, read: Reader, timeTo: Instant, rules: seq<Rule>): seq<Entry> {
    if slots == [] then []
    else ScannedAll(slots[..|slots| - 1], read, timeTo, rules) + Scanned(slots[|slots| - 1], read, timeTo, rules)
  }

  /** Once every list holds exactly what the scan added, gathering the lists gives the scan's concatenation. */
  lemma {:induction false} GatheredScanned(slots: seq<Slot>, n: nat, read: Reader, timeTo: Instant, rules: seq<Rule>)
    requires n <= |slots|
    requires forall k :: 0 <= k < |slots| ==> slots[k].item.data == Scanned(slots[k], read, timeTo, rules)
    ensures Gathered(slots, n) == ScannedAll(slots[..n], read, timeTo, rules)
  {
    if n > 0 {
      GatheredScanned(slots, n - 1, read, timeTo, rules);
      assert slots[..n][..n - 1] == slots[..n - 1];
    }
  }

  /** Every entry of the scan comes from some span and carries that span's file and server. */
  lemma {:induction false} ScannedAllTagged(slots: seq<Slot>, read: Reader, timeTo: Instant, rules: seq<Rule>, e: Entry)
    requires e in ScannedAll(slots, read, timeTo, rules)
    ensures exists k :: 0 <= k < |slots| && e.file == slots[k].item.file && e.server == slots[k].server
  {
    var init := slots[..|slots| - 1];
    if e in ScannedAll(init, read, timeTo, rules) {
      ScannedAllTagged(init, read, timeTo, rules, e);
      var k :| 0 <= k < |init| && e.file == init[k].item.file && e.server == init[k].server;
      assert slots[k] == init[k];
    } else {
      var last := Scanned(slots[|slots| - 1], read, timeTo, rules);
      var i :| 0 <= i < |last| && last[i] == e;
    }
  }

  /** The number of bytes to read: `end_pos - start_pos` summed over the spans. */
  function SpanBytes(slots: seq<Slot>): (r: int)
    ensures (forall k :: 0 <= k < |slots| ==> slots[k].item.startPos <= slots[k].item.endPos) ==> r >= 0
  {
    if slots == [] then 0
    else SpanBytes(slots[..|slots| - 1]) + (slots[|slots| - 1].item.endPos - slots[|slots| - 1].item.startPos)
  }

  /** `total_size` of the progress bar. */
  function TotalSize(sf: seq<ServerItems>): int {
    SpanBytes(Slots(sf))
  }

  /** `num_files`: the lengths of the servers' span lists, summed. */
  function NumFiles(sf: seq<ServerItems>): nat {
    if sf == [] then 0 else NumFiles(sf[..|sf| - 1]) + |sf[|sf| - 1].items|
  }

  /** The file count is the number of spans the scan reads. */
  lemma {:induction false} NumFilesCountsSpans(sf: seq<ServerItems>)
    ensures NumFiles(sf) == |Slots(sf)|
  {
    if sf != [] {
      var init := sf[..|sf| - 1];
      NumFilesCountsSpans(init);
      assert init[..|init|] == sf[..|init|];
      SlotsUpToAgree(init, sf, |init|);
    }
  }

  /** The total size is the per-server byte counts added up. */
  lemma {:induction false} TotalSizeAppend(a: seq<ServerItems>, b: seq<ServerItems>)
    ensures TotalSize(a + b) == TotalSize(a) + TotalSize(b)
  {
    SlotsAppend(a, b);
    SpanBytesAppend(Slots(a), Slots(b));
  }

  lemma {:induction false} SpanBytesAppend(a: seq<Slot>, b: seq<Slot>)
    ensures SpanBytes(a + b) == SpanBytes(a) + SpanBytes(b)
    decreases |b|
  {
    if b == [] {
      assert a + b == a;
    } else {
      assert (a + b)[..|a + b| - 1] == a + b[..|b| - 1];
      SpanBytesAppend(a, b[..|b| - 1]);
    }
  }

  function EntryTime(e: Entry): int {
    e.time
  }

  predicate IntLe(a: int, b: int) {
    a <= b
  }

  /** `sorted(data, key=lambda x: x["time"])`. */
  function SortByTime(data: seq<Entry>): seq<Entry> {
    SortBy(data, EntryTime, IntLe)
  }

  /**
   * The result of a scan is sorted by time, holds exactly the scanned entries, keeps the
   * scan order among entries of equal time, and tags each entry with the file and server
   * of a span that produced it.
   */
  lemma ScanResult(slots: seq<Slot>, read: Reader, timeTo: Instant, rules: seq<Rule>)
    ensures var all := ScannedAll(slots, read, timeTo, rules);
            var data := SortByTime(all);
            SortedBy(data, EntryTime, IntLe)
            && multiset(data) == multiset(all)
            && (forall t :: KeyFilter(data, EntryTime, t) == KeyFilter(all, EntryTime, t))
            && (forall e :: e in data ==>
                  exists k :: 0 <= k < |slots| && e.file == slots[k].item.file && e.server == slots[k].server)
  {
    var all := ScannedAll(slots, read, timeTo, rules);
    var data := SortByTime(all);
    assert TotalOrder(IntLe);
    SortBySorted(all, EntryTime, IntLe);
    SortByPermutation(all, EntryTime, IntLe);
    forall t ensures KeyFilter(data, EntryTime, t) == KeyFilter(all, EntryTime, t) {
      SortByStable(all, EntryTime, IntLe, t);
    }
    forall e | e in data
      ensures exists k :: 0 <= k < |slots| && e.file == slots[k].item.file && e.server == slots[k].server
    {
      assert e in multiset(all);
      ScannedAllTagged(slots, read, timeTo, rules, e);
    }
  }

  /**
   * The read loop, the gathering and the sort, once the window and the rules are known:
   * every list ends up holding exactly its span's scanned entries, and the result is their
   * concatenation sorted by time.
   */
  method ScanSorted(sf: seq<ServerItems>, read: Reader, timeTo: Instant, rules: seq<Rule>) returns (data: seq<Entry>)
    requires DistinctItems(Slots(sf))
    requires forall k :: 0 <= k < |Slots(sf)| ==> Slots(sf)[k].item.data == []
    modifies ItemSet(Slots(sf))
    ensures data == SortByTime(ScannedAll(Slots(sf), read, timeTo, rules))
    ensures forall k :: 0 <= k < |Slots(sf)| ==> Slots(sf)[k].item.data == Scanned(Slots(sf)[k], read, timeTo, rules)
  {
    ghost var slots := Slots(sf);
    ghost var before := Lists(slots);
    assert forall k :: 0 <= k < |slots| ==> before[k] == [];
    ReadAll(sf, read, timeTo, rules);
    forall k | 0 <= k < |slots|
      ensures slots[k].item.data == Scanned(slots[k], read, timeTo, rules)
    {
      assert before[k] == [];
    }
    data := Collect(sf);
    GatheredScanned(slots, |slots|, read, timeTo, rules);
    assert slots[..|slots|] == slots;
    data := SortByTime(data);
  }

  /** The scan's totals, shown with the progress bar. */
  datatype Progress = Progress(totalSize: int, numFiles: nat)

  /** How the `errors` command ends. */
  datatype ErrorsOutcome =
    | Rejected(error: WindowError)
    | NoFilesFound(window: TimeWindow)
    | NoErrorsFound(window: TimeWindow, progress: Progress)
    | Report(window: TimeWindow, progress: Progress, entries: seq<Entry>)

  /**
   * What the `errors` command reports: the window error, or no files, or the scanned
   * entries of all spans, selected rules applied, sorted by time (none found, or the table).
   */
  function ErrorsResult(setName: string, logsSet: Option<LogSet>, from: Option<Instant>, to: Option<Instant>,
                        offset: Option<int>, now: Instant, soaFiles: seq<ServerItems>, parsersDef: seq<ParserDef>,
                        read: Reader): ErrorsOutcome
  {
    match ResolveWindow(setName, logsSet, from, to, offset, now)
    case Err(e) => Rejected(e)
    case Ok(w) =>
      if soaFiles == [] then NoFilesFound(w)
      else
        var progress := Progress(TotalSize(soaFiles), NumFiles(soaFiles));
        var data := SortByTime(ScannedAll(Slots(soaFiles), read, w.to, SelectRules(parsersDef, [setName])));
        if data == [] then NoErrorsFound(w, progress) else Report(w, progress, data)
  }

  /**
   * The `errors` command once its options are converted. `soaFiles` is what the file
   * locator returns for the window (each span's list still empty), `parsersDef` the
   * configured parsers and `read` the reader.
   */
  method Errors(setName: string, logsSet: Option<LogSet>, from: Option<Instant>, to: Option<Instant>,
                offset: Option<int>, now: Instant, soaFiles: seq<ServerItems>, parsersDef: seq<ParserDef>,
                read: Reader) returns (outcome: ErrorsOutcome)
    requires DistinctItems(Slots(soaFiles))
    requires forall k :: 0 <= k < |Slots(soaFiles)| ==> Slots(soaFiles)[k].item.data == []
    modifies ItemSet(Slots(soaFiles))
    ensures outcome == ErrorsResult(setName, logsSet, from, to, offset, now, soaFiles, parsersDef, read)
    ensures outcome.Rejected? || outcome.NoFilesFound? ==>
              forall k :: 0 <= k < |Slots(soaFiles)| ==> Slots(soaFiles)[k].item.data == []
    ensures outcome.NoErrorsFound? || outcome.Report? ==>
              forall k :: 0 <= k < |Slots(soaFiles)| ==>
                Slots(soaFiles)[k].item.data
                == Scanned(Slots(soaFiles)[k], read, outcome.window.to, SelectRules(parsersDef, [setName]))
  {
    ghost var slots := Slots(soaFiles);
    ghost var before := Lists(slots);
    var resolved := ResolveWindow(setName, logsSet, from, to, offset, now);
    if resolved.Err? {
      return Rejected(resolved.error);
    }
    var window := resolved.value;
    if |soaFiles| == 0 {
      return NoFilesFound(window);
    }
    var progress := Progress(TotalSize(soaFiles), NumFiles(soaFiles));
    var rules := LoadParser(parsersDef, [setName]);
    assert Lists(slots) == before;
    var data := ScanSorted(soaFiles, read, window.to, rules);
    if |data| == 0 {
      outcome := NoErrorsFound(window, progress);
    } else {
      outcome := Report(window, progress, data);
    }
  }
}
