/**
 * The `range` command: per server, the number of log files, their total size, and the
 * earliest first and latest last timestamp found in them; the rows sorted by server.
 */
module Ranges {
  import opened Wrappers
  import opened Times
  import opened Window
  import opened Sorting

  /**
   * One log file as `range` sees it: its name, its size on disk, and the first and last
   * timestamps the reader finds in it.
   */
  datatype LogFile = LogFile(name: string, size: nat, first: Instant, last: Instant)

  /** One server of the listing and its files. */
  datatype ServerFiles = ServerFiles(server: string, files: seq<LogFile>)

  /** `if min is None or first < min: min = first`. */
  function Earlier(current: Option<Instant>, t: Instant): Option<Instant> {
    if current.None? || t < current.value then Some(t) else current
  }

  /** `if max is None or last > max: max = last`. */
  function Later(current: Option<Instant>, t: Instant): Option<Instant> {
    if current.None? || t > current.value then Some(t) else current
  }

  function SizeSum(files: seq<LogFile>): nat {
    if files == [] then 0 else SizeSum(files[..|files| - 1]) + files[|files| - 1].size
  }

  /** The running minimum of the first timestamps, file by file, from `None`. */
  function EarliestFirst(files: seq<LogFile>): Option<Instant> {
    if files == [] then None else Earlier(EarliestFirst(files[..|files| - 1]), files[|files| - 1].first)
  }

  /** The running maximum of the last timestamps, file by file, from `None`. */
  function LatestLast(files: seq<LogFile>): Option<Instant> {
    if files == [] then None else Later(LatestLast(files[..|files| - 1]), files[|files| - 1].last)
  }

  /**
   * The minimum is absent exactly when there is no file; otherwise it is the first
   * timestamp of one of the files and no file starts earlier.
   */
  lemma {:induction false} EarliestFirstIsMinimum(files: seq<LogFile>)
    ensures EarliestFirst(files).None? <==> files == []
    ensures EarliestFirst(files).Some? ==>
              (forall i :: 0 <= i < |files| ==> EarliestFirst(files).value <= files[i].first)
              && exists i :: 0 <= i < |files| && EarliestFirst(files).value == files[i].first
  {
    if files != [] {
      var init := files[..|files| - 1];
      EarliestFirstIsMinimum(init);
      if init != [] {
        var i :| 0 <= i < |init| && EarliestFirst(init).value == init[i].first;
        assert files[i] == init[i];
        forall k | 0 <= k < |init| ensures files[k] == init[k] {}
      }
    }
  }

  /**
   * The maximum is absent exactly when there is no file; otherwise it is the last
   * timestamp of one of the files and no file ends later.
   */
  lemma {:induction false} LatestLastIsMaximum(files: seq<LogFile>)
    ensures LatestLast(files).None? <==> files == []
    ensures LatestLast(files).Some? ==>
              (forall i :: 0 <= i < |files| ==> LatestLast(files).value >= files[i].last)
              && exists i :: 0 <= i < |files| && LatestLast(files).value == files[i].last
  {
    if files != [] {
      var init := files[..|files| - 1];
      LatestLastIsMaximum(init);
      if init != [] {
        var i :| 0 <= i < |init| && LatestLast(init).value == init[i].last;
        assert files[i] == init[i];
        forall k | 0 <= k < |init| ensures files[k] == init[k] {}
      }
    }
  }

  /** The total size is the sizes of the two parts of a listing added up. */
  lemma {:induction false} SizeSumAppend(a: seq<LogFile>, b: seq<LogFile>)
    ensures SizeSum(a + b) == SizeSum(a) + SizeSum(b)
    decreases |b|
  {
    if b == [] {
      assert a + b == a;
    } else {
      assert (a + b)[..|a + b| - 1] == a + b[..|b| - 1];
      SizeSumAppend(a, b[..|b| - 1]);
    }
  }

  /** One row of the `range` table (`range_item`), updated file by file. */
  class RangeRow {
    const server: string
    const files: nat
    var size: int
    var min: Option<Instant>
    var max: Option<Instant>

    constructor (server: string, files: nat)
      ensures this.server == server && this.files == files
      ensures size == 0 && min == None && max == None
    {
      this.server := server;
      this.files := files;
      size := 0;
      min := None;
      max := None;
    }

    /** The body of the loop over a server's files. */
    method AddFile(f: LogFile)
      modifies this
      ensures size == old(size) + f.size
      ensures min == Earlier(old(min), f.first) && max == Later(old(max), f.last)
    {
      size := size + f.size;
      if min.None? || f.first < min.value {
        min := Some(f.first);
      }
      if max.None? || f.last > max.value {
        max := Some(f.last);
      }
    }

    /** The row holds the summary of the server's files. */
    predicate Summarises(sf: ServerFiles)
      reads this
    {
      server == sf.server && files == |sf.files| && size == SizeSum(sf.files)
      && min == EarliestFirst(sf.files) && max == LatestLast(sf.files)
    }
  }

  function RowServer(r: RangeRow): string {
    r.server
  }

  /** How the `range` command ends: an unknown log set, or the table rows. */
  datatype RangeOutcome = UnknownSet(setName: string) | Rows(rows: seq<RangeRow>)

  /**
   * The `range` command. `logsSet` is what the configuration holds under `sets.<setName>`
   * and `listing` what the file lister returns for it, server by server. `built` are the
   * rows in listing order, before the sort.
   */
  method Range(setName: string, logsSet: Option<LogSet>, listing: seq<ServerFiles>)
    returns (outcome: RangeOutcome, ghost built: seq<RangeRow>)
    ensures logsSet.None? ==> outcome == UnknownSet(setName)
    ensures logsSet.Some? ==>
              outcome.Rows? && |built| == |listing|
              && (forall i :: 0 <= i < |built| ==> fresh(built[i]) && built[i].Summarises(listing[i]))
              && outcome.rows == SortBy(built, RowServer, StrLe)
              && SortedBy(outcome.rows, RowServer, StrLe)
              && multiset(outcome.rows) == multiset(built)
  {
    built := [];
    if logsSet.None? {
      return UnknownSet(setName), built;
    }
    var rows: seq<RangeRow> := [];
    for i := 0 to |listing|
      invariant |rows| == i
      invariant forall k :: 0 <= k < i ==> fresh(rows[k]) && rows[k].Summarises(listing[k])
    {
      var files := listing[i].files;
      var row := new RangeRow(listing[i].server, |files|);
      rows := rows + [row];
      for j := 0 to |files|
        invariant |rows| == i + 1 && rows[i] == row
        invariant forall k :: 0 <= k < i ==> rows[k] != row && rows[k].Summarises(listing[k])
        invariant row.server == listing[i].server && row.files == |files|
        invariant row.size == SizeSum(files[..j])
        invariant row.min == EarliestFirst(files[..j]) && row.max == LatestLast(files[..j])
      {
        assert files[..j + 1][..j] == files[..j];
        row.AddFile(files[j]);
      }
      assert files[..|files|] == files;
    }
    built := rows;
    StrLeTotalOrder();
    SortBySorted(rows, RowServer, StrLe);
    SortByPermutation(rows, RowServer, StrLe);
    outcome := Rows(SortBy(rows, RowServer, StrLe));
  }
}
