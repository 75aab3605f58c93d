# wls-analytics `log` commands in Dafny

This project models the rules behind the `soa` log commands of wls-analytics
(`wls_analytics/commands/log.py`): `errors`, `range` and `index`. It covers:

- **Option conversion.** `--offset` goes through `OffsetOption`: an integer followed by `h`, `d` or `m`, with Python's `int()` parsing of the number. `--from`/`--to` go through `DateTimeOption`: three formats tried in order, and a time alone is taken on today's date.
- **The time window of `errors`.** It is settled from the log set, `--from`, `--to`, `--offset` and the current time.
- **The label functions of the parser rules** (`make_label_function`). A template is formatted with `str.format` over `[""] + groups`. Any failure gives the sentinel `__internal_error__`.
- **Rule selection** (`load_parser`). It keeps the rules of the parser definitions whose sets meet the requested set names, in order.
- **The scan of `errors`:**
  - the byte total and the file count of the spans the locator found;
  - every yielded entry, tagged with its file and server and appended in place to its span's list;
  - the lists gathered in server and span order;
  - the result sorted stably by time.
- **The `range` aggregation.** Each server row counts its files, adds up their sizes and keeps a running minimum of first and maximum of last timestamps. The rows are sorted by server name.
- **The `index` output.** It is the not-found message, or the exact document built from the record. The document is printed or piped into `less`.

Modules, one per file:

| module | file | models |
|---|---|---|
| `Wrappers` | `wrappers.dfy` | `Option` and `Result` |
| `PyInt` | `pyint.dfy` | `int(text)` and `str(n)` |
| `Times` | `times.dfy` | instants as microseconds within `datetime`'s range, offsets as minutes |
| `CliOptions` | `cli_options.dfy` | the two option classes |
| `Window` | `window.dfy` | the window resolution |
| `Labels` | `labels.dfy` | label templates |
| `Rules` | `rules.dfy` | `load_parser` |
| `Sorting` | `sorting.dfy` | Python's stable `sorted` |
| `Scan` | `scan.dfy` | the `errors` scan and the command's outcome |
| `Ranges` | `ranges.dfy` | the `range` command |
| `Lookup` | `lookup.dfy` | the `index` command |

The source updates some things in place, and so does the model:

- A span found by the locator is a class `Scan.SpanItem` whose `data` list the scan appends to.
- A `range` row is a class `Ranges.RangeRow` whose `size`, `min` and `max` are updated file by file.
- `load_parser`, `_read_entries`, the read loop, the gathering loop and the `range` loop are methods with loops. Each is proved against a specification function (`SelectRules`, `TagAll`, `Scanned`, `Gathered`/`ScannedAll`, `SizeSum`/`EarliestFirst`/`LatestLast`).
- The pure rules are functions with lemmas.

The collaborators become inputs:

- what the configuration holds for the set (an `Option`);
- what the file locator returns (servers with their spans or files);
- the reader (a function from file, start position, upper time bound and rules to the entries it yields);
- the `strptime` formats (functions returning `Option`);
- the data directory;
- the current time and today's date.

`errors` does not check that `--from` precedes `--to`, and it accepts a window with no lower bound; `ResolveWindow` does the same.

## Model

| member | source | states |
|---|---|---|
| PyInt.ParseInt | wls_analytics/commands/log.py:54 | `int(text)` of a text without white space is the parse of the text itself; otherwise the text is first stripped of the white space `int()` skips (ASCII " \t\n\v\f\r" and non-ASCII white space, but not U+001C to U+001F) |
| PyInt.ParseSigned | wls_analytics/commands/log.py:54 | `int()` of stripped text succeeds exactly for optional sign plus digits with single underscores between digits |
| PyInt.TrimLeft | wls_analytics/commands/log.py:54 | the result is a suffix of the text that starts with no white space, and everything cut off is white space |
| PyInt.TrimRight | wls_analytics/commands/log.py:54 | the result is a prefix of the text that ends with no white space, and everything cut off is white space |
| PyInt.ShowNatDigits | wls_analytics/commands/log.py:54 | the decimal form of n is valid digits that denote n |
| PyInt.ParseShow | wls_analytics/commands/log.py:54 | `int(str(n)) == n` for every integer, negative ones included |
| PyInt.StripKeeps | wls_analytics/commands/log.py:54 | a character that is not white space survives the stripping `int()` does |
| PyInt.ParseRejectsForeign | wls_analytics/commands/log.py:54 | a character that is none of ASCII digit, underscore, sign or white space makes `int()` fail (non-ASCII decimal digits aside, see Left out) |
| CliOptions.CastOffsetSeparatorPrefix | wls_analytics/commands/log.py:53-60 | an ASCII separator such as U+001C before the number is not skipped by `int()`, so `"\x1c5h"` is a `BadParameter` |
| Times.Combine | wls_analytics/commands/log.py:33-35 | `datetime.combine(day, time)` lies on that day at that time of day |
| CliOptions.UnitMinutes | wls_analytics/commands/log.py:51-52 | exactly `h`, `d` and `m` are units, standing for 60, 1440 and 1 minutes |
| CliOptions.CastOffset | wls_analytics/commands/log.py:47-60 | absent stays absent; the empty text raises `IndexError` outside the `try`; an unknown unit is `BadParameter` with the usage text; a success is the parsed prefix times the unit's minutes, within `timedelta`'s range |
| CliOptions.CastOffsetShown | wls_analytics/commands/log.py:51-56 | `"<n>h"` is 60·n minutes, `"<n>d"` 1440·n, `"<n>m"` n, for every integer n (negative included), or `OverflowError` out of `timedelta`'s range |
| CliOptions.CastOffsetNumber | wls_analytics/commands/log.py:52-56 | a unit letter after any text `int()` reads as n gives n times the unit, or `OverflowError` |
| CliOptions.CastOffsetBadNumber | wls_analytics/commands/log.py:53-60 | a prefix that `int()` rejects gives `BadParameter` with the usage text |
| CliOptions.CastOffsetForeignPrefix | wls_analytics/commands/log.py:53-60 | a prefix with a character that is no ASCII digit, underscore, sign or white space gives `BadParameter` (non-ASCII decimal digits aside, see Left out) |
| CliOptions.CastDateTime | wls_analytics/commands/log.py:25-44 | absent stays absent; fails, with the usage text, exactly when no format parses; the full format wins; otherwise the `%H:%M:%S` time, then the `%H:%M` time, on today's date |
| Window.ResolveWindow | wls_analytics/commands/log.py:152-163 | unknown set fails first; both bounds absent fails next; no other failure but the overflow; `to` defaults to now; a given `from` is kept and the offset ignored; an absent `from` becomes `to - offset` with an offset and stays absent without; the subtraction overflows exactly when it leaves `datetime`'s range |
| Labels.FormatArgs | wls_analytics/commands/log.py:127 | the format arguments are `""` followed by the rendered groups, in order |
| Labels.FormatFromAgrees | wls_analytics/commands/log.py:127 | `str.format` over the pieces succeeds exactly when no `{}` and `{n}` are mixed and every field names an argument, and then yields the expansion |
| Labels.Label | wls_analytics/commands/log.py:124-134 | the label function never fails: a formattable template yields its expansion, anything else exactly `__internal_error__` |
| Labels.MakeLabelFunction | wls_analytics/commands/log.py:124-134 | the returned function gives, for every tuple of groups, the template's expansion when it can be filled and exactly `__internal_error__` otherwise |
| Labels.LabelFieldZero | wls_analytics/commands/log.py:127 | `{0}` yields the empty string |
| Labels.LabelGroupBetween | wls_analytics/commands/log.py:127 | `text{i}text'` yields group i between the literal texts, unchanged |
| Labels.LabelFieldOutOfRange | wls_analytics/commands/log.py:126-129 | a field index past the last group yields exactly the sentinel |
| Labels.LabelAutomaticNumbering | wls_analytics/commands/log.py:127 | `{}` counts from argument 0, so `{}{}` is the first group |
| Labels.LabelMixedNumbering | wls_analytics/commands/log.py:126-129 | mixing `{}` and `{n}` yields the sentinel |
| Rules.LoadParser | wls_analytics/commands/log.py:137-143 | the nested append loop builds exactly the rules of the active definitions, in order |
| Rules.CompileAllMembership | wls_analytics/commands/log.py:141-142 | a compiled rule list holds exactly the compiled form of each rule (pattern unchanged, template's label function) |
| Rules.SelectRulesMembership | wls_analytics/commands/log.py:137-143 | a rule is selected if and only if it comes from a rule of a definition whose sets meet the request |
| Rules.SelectRulesEmptyRequest | wls_analytics/commands/log.py:140 | an empty request selects nothing |
| Rules.SelectRulesAppend | wls_analytics/commands/log.py:139-142 | selection over two definition lists is the concatenation of the selections, in order |
| Sorting.SortByPermutation | wls_analytics/commands/log.py:220 | `sorted` returns the same multiset of elements |
| Sorting.SortBySorted | wls_analytics/commands/log.py:220 | `sorted` returns the elements in ascending key order |
| Sorting.SortByStable | wls_analytics/commands/log.py:220 | elements with equal keys keep their input order |
| Sorting.StableSortUnique | wls_analytics/commands/log.py:220 | any two sorted, stable rearrangements are equal, so the model sort is Python's result |
| Sorting.StrLeTotalOrder | wls_analytics/commands/log.py:98 | Python's string order is a total order |
| Scan.TagAll | wls_analytics/commands/log.py:201-204 | each yielded entry, in order, gets the span's file and server and keeps its own fields |
| Scan.ReadEntries | wls_analytics/commands/log.py:194-206 | the span's list grows by the tagged entries the reader yields, in order |
| Scan.ReadServer | wls_analytics/commands/log.py:209-210 | reading one server's spans, in order, appends each span's entries to it and to no other list |
| Scan.ReadAll | wls_analytics/commands/log.py:208-210 | after the read loop, each span's list is its old contents plus exactly its own scanned entries |
| Scan.SlotsAppend | wls_analytics/commands/log.py:208-209 | the scan order of two groups of servers is the first group's spans, then the second's |
| Scan.CollectServer | wls_analytics/commands/log.py:217-218 | extending by one server's lists appends them in span order |
| Scan.Collect | wls_analytics/commands/log.py:215-218 | the flatten loop yields the lists of all spans, in server then span order |
| Scan.GatheredScanned | wls_analytics/commands/log.py:215-218 | once each list holds its scanned entries, the gathered data is the scan's concatenation |
| Scan.ScannedAllTagged | wls_analytics/commands/log.py:202-204 | every scanned entry carries the file and server of some span |
| Scan.SpanBytes | wls_analytics/commands/log.py:180 | with well-formed spans the byte total is never negative |
| Scan.TotalSizeAppend | wls_analytics/commands/log.py:180 | `total_size` is additive over groups of servers |
| Scan.SpanBytesAppend | wls_analytics/commands/log.py:180 | the sum of `end_pos - start_pos` is additive over spans |
| Scan.NumFilesCountsSpans | wls_analytics/commands/log.py:181 | `num_files` is the number of spans read |
| Scan.ScanResult | wls_analytics/commands/log.py:202-220 | the data is sorted by time, a permutation of the concatenation, stable among equal times, and each entry carries the file and server of one and the same span |
| Scan.ScanSorted | wls_analytics/commands/log.py:208-220 | after the read loop, the gathering and the sort, every span's list holds exactly its own scanned entries and the result is their concatenation sorted by time |
| Scan.Errors | wls_analytics/commands/log.py:151-238 | the command's outcome is the window error, no files, or the sorted scan of all spans with the selected rules (no errors, or the report); the span lists stay empty on the first two, and otherwise each holds exactly its span's scanned entries for the resolved upper bound |
| Ranges.EarliestFirstIsMinimum | wls_analytics/commands/log.py:86-94 | `min` is absent exactly without files; else it is one file's first timestamp and no file starts earlier |
| Ranges.LatestLastIsMaximum | wls_analytics/commands/log.py:86-96 | `max` is absent exactly without files; else it is one file's last timestamp and no file ends later |
| Ranges.SizeSumAppend | wls_analytics/commands/log.py:89 | the size sum is additive over parts of a listing |
| Ranges.RangeRow.constructor | wls_analytics/commands/log.py:86 | a new row has the server, the file count, size 0 and no bounds |
| Ranges.RangeRow.AddFile | wls_analytics/commands/log.py:89-96 | one file adds its size and updates the running minimum and maximum |
| Ranges.Range | wls_analytics/commands/log.py:77-98 | unknown set fails; otherwise one row per server summarises its files (count, size sum, min, max), and the rows are sorted by server and a permutation of those built |
| Lookup.IndexFile | wls_analytics/commands/log.py:22 | `INDEX_FILE` is the data directory joined to `wlsanalytics.index` as POSIX `os.path.join` does: with a `/` in between, or directly after an empty directory or one ending in `/` |
| Lookup.SplitJoin | wls_analytics/commands/log.py:251 | for a non-empty list whose lines hold no line break, splitting `"\n".join(ms)` at line breaks gives ms back |
| Lookup.Document | wls_analytics/commands/log.py:251 | when neither name nor any message holds a line break, the output, read line by line, is the log file line, the index file line, an empty line, then the messages in recorded order (one empty line when there is none) |
| Lookup.IndexCommand | wls_analytics/commands/log.py:245-256 | a missing id prints only the not-found message; a found one prints or pages the exact document |

## Left out

- Click wiring is not modelled: the command, option and group declarations, and the configuration lookup. The configuration's answer is an input.
- The `tqdm` progress bar is not modelled. Neither are the elapsed-time report, the `print` lines and the `Table` rendering, with its GB rounding in floating point and its microsecond truncation. The model keeps the values they show (`Progress`, the rows, the entries).
- These collaborators' sources are not shown, and they are not part of this model. Their results are inputs:
  - the file locator: `get_files` and `list_files`, including how `get_files` uses the window;
  - `os.path.getsize`;
  - `LogReader.get_datetime`: a file's first and last timestamps are taken to exist;
  - `SOALogReader`, its opening and closing, and the first-match-wins labelling inside it;
  - `Index` search and `Index.write(INDEX_FILE)`.
- The reader is modelled as a function. The shared `Index` that the reader fills during the scan is not modelled.
- Scan.ReadEntries: the reader is taken never to raise. In the source an exception from `read_errors` closes the reader in the `finally` block and leaves the `errors` command, with no index written and no table. That path is not modelled.
- `os.path.join` is modelled for POSIX paths only.
- Regular expressions are kept as opaque pattern text. A rule's match reaches its label function as its groups only.
- `strptime` formats are opaque functions, and so are `datetime.now()` and `time.time()`. Today's date and the current instant are parameters.
- Labels.Label: the template arrives already split into pieces. Named fields and `str.format` syntax errors are lumped together as `Malformed`. Format specs, conversions (`!r`) and attribute or index access inside a field are not modelled.
- Lookup.Document: its line structure is stated only when neither file name nor any message holds a line break; a multi-line message (a stack trace, say) splits into several lines.
- Lookup.SplitJoin: stated for a non-empty list of lines without line breaks only; `"\n".join([])` splits into one empty line.
- PyInt.ParseRejectsForeign: stated for characters other than ASCII digits; a non-ASCII decimal digit, which `int()` reads, is rejected by the model.
- CliOptions.CastOffsetForeignPrefix: the same gap, so `--offset "\u0663h"` (180 minutes in the source) is a `BadParameter` in the model.
- PyInt.ParseInt: `int()` also accepts non-ASCII decimal digits, which are not modelled. Python 3.11's limit on the number of digits is not modelled either.
- Scan.Errors: it requires every span's list to start empty, and every span object to occur once in the locator's result. The source takes both from `get_files`, which is not part of this model.
- The empty-dictionary check `len(soa_files) == 0` is modelled as an empty server list. A server listed with no spans counts as a found file set, as in the source.
- `subprocess.run(["less"])` is modelled as the `Pager` outcome carrying the command and its input text. The UTF-8 encoding of the input and the process itself are not modelled.
- A missing `parsers` entry in the configuration is not modelled: the parser definitions are a given list. So is a parser definition without a `sets`, `rules`, `pattern` or `label` key: a definition always has them.
