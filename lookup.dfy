/**
 * The `index` command: an identifier is looked up in the index written by the last
 * `errors` run, and the recorded context is shown on standard output or in a pager.
 */
module Lookup {
  import opened Wrappers

  const IndexFileName: string := "wlsanalytics.index"

  /** `os.path.join(a, b)` on POSIX. */
  function PathJoin(a: string, b: string): string {
    if |b| > 0 && b[0] == '/' then b
    else if a == [] || a[|a| - 1] == '/' then a + b
    else a + "/" + b
  }

  /** `INDEX_FILE`: the index file's name inside the data directory. */
  function IndexFile(dataDir: string): (r: string)
    ensures |r| >= |IndexFileName| && r[|r| - |IndexFileName|..] == IndexFileName
    ensures dataDir != [] && dataDir[|dataDir| - 1] != '/' ==> r == dataDir + "/" + IndexFileName
    ensures dataDir == [] || dataDir[|dataDir| - 1] == '/' ==> r == dataDir + IndexFileName
  {
    PathJoin(dataDir, IndexFileName)
  }

  /** `"\n".join(ms)`. */
  function JoinLines(ms: seq<string>): string {
    if ms == [] then "" else if |ms| == 1 then ms[0] else ms[0] + "\n" + JoinLines(ms[1..])
  }

  /** `s.split("\n")`: the pieces between the line breaks; the empty text is one empty piece. */
  function SplitLines(s: string): (r: seq<string>)
    ensures |r| >= 1
  {
    if s == [] then [""]
    else
      var rest := SplitLines(s[1..]);
      if s[0] == '\n' then [""] + rest else [[s[0]] + rest[0]] + rest[1..]
  }

  lemma {:induction false} SplitPlain(a: string)
    requires '\n' !in a
    ensures SplitLines(a) == [a]
  {
    if a != [] {
      SplitPlain(a[1..]);
      assert a == [a[0]] + a[1..];
    }
  }

  lemma {:induction false} SplitAfter(a: string, b: string)
    requires '\n' !in a
    ensures SplitLines(a + "\n" + b) == [a] + SplitLines(b)
  {
    var s := a + "\n" + b;
    if a == [] {
      assert s[1..] == b;
    } else {
      assert s[1..] == a[1..] + "\n" + b;
      SplitAfter(a[1..], b);
      assert a == [a[0]] + a[1..];
    }
  }

  /** Splitting the joined lines gives the lines back, when none of them holds a line break. */
  lemma {:induction false} SplitJoin(ms: seq<string>)
    requires ms != []
    requires forall i :: 0 <= i < |ms| ==> '\n' !in ms[i]
    ensures SplitLines(JoinLines(ms)) == ms
  {
    if |ms| == 1 {
      SplitPlain(ms[0]);
    } else {
      SplitJoin(ms[1..]);
      SplitAfter(ms[0], JoinLines(ms[1..]));
      assert ms == [ms[0]] + ms[1..];
    }
  }

  /** A record of the index: the log file an error came from and its context lines. */
  datatype IndexRecord = IndexRecord(file: string, messages: seq<string>)

  function NotFoundMessage(id: string): string {
    "Index entry '" + id + "' not found."
  }

  /** No line break inside the file names or the messages. */
  predicate SingleLines(file: string, indexFile: string, messages: seq<string>) {
    '\n' !in file && '\n' !in indexFile && forall i :: 0 <= i < |messages| ==> '\n' !in messages[i]
  }

  /**
   * The text shown for a record found in the index. Read line by line, it is the log file,
   * the index file, an empty line, then the recorded messages in their order (one empty
   * line when there is none).
   */
  function Document(file: string, indexFile: string, messages: seq<string>): (r: string)
    ensures SingleLines(file, indexFile, messages) ==>
              SplitLines(r)
              == ["log_file: " + file, "index_file: " + indexFile, ""] + (if messages == [] then [""] else messages)
  {
    var doc := "log_file: " + file + "\n" + "index_file: " + indexFile + "\n\n" + JoinLines(messages);
    if SingleLines(file, indexFile, messages) then DocumentLines(file, indexFile, messages, doc); doc else doc
  }

  lemma DocumentLines(file: string, indexFile: string, messages: seq<string>, doc: string)
    requires SingleLines(file, indexFile, messages)
    requires doc == "log_file: " + file + "\n" + "index_file: " + indexFile + "\n\n" + JoinLines(messages)
    ensures SplitLines(doc)
            == ["log_file: " + file, "index_file: " + indexFile, ""] + (if messages == [] then [""] else messages)
  {
    var l1, l2, body := "log_file: " + file, "index_file: " + indexFile, JoinLines(messages);
    assert '\n' !in l1 by { assert forall k :: 0 <= k < |l1| ==> l1[k] != '\n'; }
    assert '\n' !in l2 by { assert forall k :: 0 <= k < |l2| ==> l2[k] != '\n'; }
    assert doc == l1 + "\n" + (l2 + "\n" + ("" + "\n" + body));
    SplitHeader(l1, l2, body);
    if messages != [] {
      SplitJoin(messages);
    }
  }

  /** Two header lines and an empty line before a text split into the header lines, the empty line and the text's lines. */
  lemma SplitHeader(l1: string, l2: string, body: string)
    requires '\n' !in l1 && '\n' !in l2
    ensures SplitLines(l1 + "\n" + (l2 + "\n" + ("" + "\n" + body))) == [l1, l2, ""] + SplitLines(body)
  {
    SplitAfter(l1, l2 + "\n" + ("" + "\n" + body));
    SplitAfter(l2, "" + "\n" + body);
    SplitAfter("", body);
  }

  /** Where the output goes: printed (with the newline `print` adds), or piped into `less`. */
  datatype Display = Stdout(text: string) | Pager(command: seq<string>, input: string)

  /**
   * The `index` command. `found` is what the index loaded from `INDEX_FILE` holds for the
   * identifier. A missing identifier prints the not-found message and nothing else; a
   * found one shows its document, printed with `--stdout` and paged otherwise.
   */
  function IndexCommand(id: string, found: Option<IndexRecord>, dataDir: string, toStdout: bool): (d: Display)
    ensures found.None? ==> d == Stdout(NotFoundMessage(id) + "\n")
    ensures found.Some? ==>
              var doc := Document(found.value.file, IndexFile(dataDir), found.value.messages);
              d == if toStdout then Stdout(doc + "\n") else Pager(["less"], doc)
  {
    match found
    case None => Stdout(NotFoundMessage(id) + "\n")
    case Some(record) =>
      var output := Document(record.file, IndexFile(dataDir), record.messages);
      if toStdout then Stdout(output + "\n") else Pager(["less"], output)
  }
}
