/**
 * The two option types of the `errors` command: `--offset` (an `OffsetOption`) and
 * `--from`/`--to` (a `DateTimeOption`), each turning the text typed by the user into a value.
 */
module CliOptions {
  import opened Wrappers
  import opened PyInt
  import opened Times

  /** What a conversion raises: click's `BadParameter`, or a Python error it does not catch. */
  datatype ParamError = BadParameter(message: string) | IndexError | OverflowError

  const OffsetUsage: string := "use values like '1h', '2d', '10m'."
  const DateTimeUsage: string := "use values in the format '%Y-%m-%d %H:%M:%S', '%H:%M:%S' or '%H:%M'."

  /** The unit letters of an offset and the minutes each one stands for. */
  function UnitMinutes(u: char): (r: Option<int>)
    ensures r.Some? <==> u in "hdm"
    ensures u == 'h' ==> r == Some(60)
    ensures u == 'd' ==> r == Some(1440)
    ensures u == 'm' ==> r == Some(1)
  {
    if u == 'h' then Some(MinutesPerHour)
    else if u == 'd' then Some(MinutesPerDay)
    else if u == 'm' then Some(1)
    else None
  }

  /**
   * `OffsetOption.type_cast_value`: `<int><unit>` becomes that many hours, days or
   * minutes, as a number of minutes. The empty text fails on `value[-1]` with an
   * `IndexError`, which is not turned into `BadParameter`; so does a `timedelta` out of range,
   * with `OverflowError`.
   */
  function CastOffset(value: Option<string>): (r: Result<Option<int>, ParamError>)
    ensures value.None? <==> r == Ok(None)
    ensures value == Some("") ==> r == Err(IndexError)
    ensures value.Some? && |value.value| > 0 && UnitMinutes(value.value[|value.value| - 1]).None?
            ==> r == Err(BadParameter(OffsetUsage))
    ensures r.Err? && r.error.BadParameter? ==> r.error.message == OffsetUsage
    ensures r.Ok? && r.value.Some? ==>
              var v := value.value;
              |v| > 0 && UnitMinutes(v[|v| - 1]).Some? && ParseInt(v[..|v| - 1]).Some?
              && r.value.value == ParseInt(v[..|v| - 1]).value * UnitMinutes(v[|v| - 1]).value
              && DeltaInRange(r.value.value)
  {
    match value
    case None => Ok(None)
    case Some(v) =>
      if |v| == 0 then Err(IndexError)
      else
        match UnitMinutes(v[|v| - 1])
        case None => Err(BadParameter(OffsetUsage))
        case Some(unit) =>
          match ParseInt(v[..|v| - 1])
          case None => Err(BadParameter(OffsetUsage))
          case Some(n) => if DeltaInRange(n * unit) then Ok(Some(n * unit)) else Err(OverflowError)
  }

  /** `"<n>h"` is 60·n minutes, `"<n>d"` is 1440·n and `"<n>m"` is n, for every integer n in range. */
  lemma CastOffsetShown(n: int, u: char)
    requires u in "hdm"
    ensures var minutes := n * UnitMinutes(u).value;
            CastOffset(Some(Show(n) + [u]))
            == if DeltaInRange(minutes) then Ok(Some(minutes)) else Err(OverflowError)
  {
    var v := Show(n) + [u];
    assert v[..|v| - 1] == Show(n);
    ParseShow(n);
    CastOffsetNumber(v, n);
  }

  /** A unit letter after an integer n gives n times the letter's minutes, unless that is out of `timedelta`'s range. */
  lemma CastOffsetNumber(v: string, n: int)
    requires |v| > 0 && UnitMinutes(v[|v| - 1]).Some? && ParseInt(v[..|v| - 1]) == Some(n)
    ensures var minutes := n * UnitMinutes(v[|v| - 1]).value;
            CastOffset(Some(v)) == if DeltaInRange(minutes) then Ok(Some(minutes)) else Err(OverflowError)
  {
  }

  /** A text whose part before the unit letter is no integer is a `BadParameter`, whatever the letter. */
  lemma CastOffsetBadNumber(v: string)
    requires |v| > 0 && ParseInt(v[..|v| - 1]).None?
    ensures CastOffset(Some(v)) == Err(BadParameter(OffsetUsage))
  {
  }

  /** A prefix holding a character that is no ASCII digit, underscore, sign or white space is a `BadParameter`. */
  lemma CastOffsetForeignPrefix(v: string, i: nat)
    requires |v| > 0 && i < |v| - 1
    requires !IsDigit(v[i]) && v[i] != '_' && v[i] != '+' && v[i] != '-' && !IsSpace(v[i])
    ensures CastOffset(Some(v)) == Err(BadParameter(OffsetUsage))
  {
    var prefix := v[..|v| - 1];
    assert prefix[i] == v[i];
    ParseRejectsForeign(prefix, i);
    CastOffsetBadNumber(v);
  }

  /** An ASCII separator before the number is no white space to `int()`: `"\U{1c}5h"` is a `BadParameter`. */
  lemma CastOffsetSeparatorPrefix()
    ensures CastOffset(Some("\U{1c}5h")) == Err(BadParameter(OffsetUsage))
  {
    CastOffsetForeignPrefix("\U{1c}5h", 0);
  }

  /** The three `strptime` formats the option tries; each yields `None` where it raises `ValueError`. */
  datatype DateTimeFormats = DateTimeFormats(
    full: string -> Option<Instant>,     // "%Y-%m-%d %H:%M:%S"
    clock: string -> Option<TimeOfDay>,  // "%H:%M:%S", keeping only the time
    short: string -> Option<TimeOfDay>)  // "%H:%M", keeping only the time

  /**
   * `DateTimeOption.type_cast_value`: the formats are tried in order, the first that
   * parses wins, and a time alone is taken on `today`; if none parses, `BadParameter`.
   */
  function CastDateTime(value: Option<string>, today: Day, formats: DateTimeFormats): (r: Result<Option<Instant>, ParamError>)
    ensures value.None? <==> r == Ok(None)
    ensures r.Err? ==> r.error == BadParameter(DateTimeUsage)
    ensures value.Some? ==>
              (r.Err? <==> formats.full(value.value).None? && formats.clock(value.value).None?
                           && formats.short(value.value).None?)
    ensures value.Some? && formats.full(value.value).Some? ==> r == Ok(formats.full(value.value))
    ensures value.Some? && formats.full(value.value).None? && r.Ok? ==>
              r.value.Some? && r.value.value / MicrosPerDay == today
              && r.value.value % MicrosPerDay
                 == (if formats.clock(value.value).Some? then formats.clock(value.value)
                     else formats.short(value.value)).value
  {
    match value
    case None => Ok(None)
    case Some(v) =>
      match formats.full(v)
      case Some(t) => Ok(Some(t))
      case None =>
        match formats.clock(v)
        case Some(time) => Ok(Some(Combine(today, time)))
        case None =>
          match formats.short(v)
          case Some(time) => Ok(Some(Combine(today, time)))
          case None => Err(BadParameter(DateTimeUsage))
  }
}
