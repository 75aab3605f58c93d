/** How the `errors` command settles its time window from `--from`, `--to` and `--offset`. */
module Window {
  import opened Wrappers
  import opened Times

  /** A log set of the configuration: the directories to search and the file-name pattern. */
  datatype LogSet = LogSet(directories: seq<string>, filenamePattern: string)

  /** The resolved window; the lower bound may stay open. */
  datatype TimeWindow = TimeWindow(from: Option<Instant>, to: Instant)

  /** Why the command stops before it looks for files. */
  datatype WindowError = SetNotFound(setName: string) | MissingBounds | DateOverflow {
    function Message(): string {
      match this
      case SetNotFound(name) => "The log set '" + name + "' not found in the configuration file."
      case MissingBounds => "Either --from or --to must be specified."
      case DateOverflow => "date value out of range"
    }
  }

  /**
   * The window of the `errors` command. `logsSet` is what the configuration holds under
   * `sets.<setName>`, and `now` the clock reading taken when `--to` is absent. The set is
   * checked first; then at least one bound is needed; an absent `to` is `now`; an absent
   * `from` is `to - offset` when an offset is given and stays open otherwise. Nothing
   * requires `from <= to`.
   */
  function ResolveWindow(setName: string, logsSet: Option<LogSet>, from: Option<Instant>, to: Option<Instant>,
                         offset: Option<int>, now: Instant): (r: Result<TimeWindow, WindowError>)
    ensures logsSet.None? ==> r == Err(SetNotFound(setName))
    ensures logsSet.Some? && from.None? && to.None? ==> r == Err(MissingBounds)
    ensures r.Ok? ==> r.value.to == to.GetOr(now)
    ensures logsSet.Some? && from.Some? ==> r == Ok(TimeWindow(from, to.GetOr(now)))
    ensures r.Ok? && from.None? && offset.Some? ==>
              r.value.from == Some(r.value.to - offset.value * MicrosPerMinute)
    ensures r.Ok? && from.None? && offset.None? ==> r.value.from == None
    ensures r.Err? ==> logsSet.None? || (from.None? && to.None?) || r.error == DateOverflow
    ensures r == Err(DateOverflow) <==>
              logsSet.Some? && from.None? && to.Some? && offset.Some?
              && !(0 <= to.value - offset.value * MicrosPerMinute < InstantLimit)
  {
    if logsSet.None? then Err(SetNotFound(setName))
    else if from.None? && to.None? then Err(MissingBounds)
    else
      var upper := to.GetOr(now);
      if from.None? && offset.Some? then
        match Minus(upper, offset.value)
        case Some(lower) => Ok(TimeWindow(Some(lower), upper))
        case None => Err(DateOverflow)
      else Ok(TimeWindow(from, upper))
  }
}
