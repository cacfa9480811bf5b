/**
 * PositionInfo: the AVTransport position of a renderer (track, its duration,
 * metadata and URI, relative and absolute time and counters), with the
 * seconds derived from its time strings. Time-string parsing and rendering
 * (ModelUtil.fromTimeString / toTimeString) are function parameters; the
 * floating-point percentage is a function parameter behind its zero guard.
 */
module Position {
  import opened Wrappers
  import opened JavaLang

  const ZERO_TIME := "00:00:00"
  const NOT_IMPLEMENTED := "NOT_IMPLEMENTED"

  /** The value an ActionArgumentValue holds, as far as the map constructor's casts can tell. */
  datatype ArgumentValue = NullValue | UnsignedFourBytes(u: uint32) | StringValue(s: string) | IntegerValue(i: int32) | OtherValue

  datatype JavaException = NullPointerException | ClassCastException

  /** The eight arguments the map constructor passes to the full constructor. */
  datatype Arguments = Arguments(track: uint32, trackDuration: Option<string>, trackMetaData: Option<string>,
                                 trackURI: Option<string>, relTime: Option<string>, absTime: Option<string>,
                                 relCount: int32, absCount: int32)

  /** "Track": the unsigned value's long; a missing key gives a null Long that throws when unboxed. */
  function TrackArgument(args: map<string, ArgumentValue>): (r: Result<uint32, JavaException>)
    ensures r.Success? <==> "Track" in args && args["Track"].UnsignedFourBytes?
    ensures r.Success? ==> r.value == args["Track"].u
    ensures r.Failure? ==> r.error == (if "Track" in args && !args["Track"].NullValue? then ClassCastException else NullPointerException)
  {
    if "Track" !in args then Failure(NullPointerException)
    else match args["Track"]
      case UnsignedFourBytes(u) => Success(u)
      case NullValue => Failure(NullPointerException)
      case _ => Failure(ClassCastException)
  }

  /** A string key: its string, or null when the key is missing or its value is null. */
  function StringArgument(args: map<string, ArgumentValue>, key: string): (r: Result<Option<string>, JavaException>)
    ensures key !in args ==> r == Success(None)
  {
    if key !in args then Success(None)
    else match args[key]
      case StringValue(s) => Success(Some(s))
      case NullValue => Success(None)
      case _ => Failure(ClassCastException)
  }

  /** A count key: its integer, or Integer.MAX_VALUE when the key is missing; a null value throws when unboxed. */
  function CountArgument(args: map<string, ArgumentValue>, key: string): (r: Result<int32, JavaException>)
    ensures key !in args ==> r == Success(INTEGER_MAX_VALUE)
  {
    if key !in args then Success(INTEGER_MAX_VALUE)
    else match args[key]
      case IntegerValue(i) => Success(i)
      case NullValue => Failure(NullPointerException)
      case _ => Failure(ClassCastException)
  }

  /** The map constructor's argument list, evaluated left to right; the first exception wins. */
  function DecodeArguments(args: map<string, ArgumentValue>): (r: Result<Arguments, JavaException>)
    ensures "Track" !in args ==> r == Failure(NullPointerException)
    ensures r.Success? ==>
              && ("TrackDuration" !in args ==> r.value.trackDuration.None?)
              && ("TrackMetaData" !in args ==> r.value.trackMetaData.None?)
              && ("TrackURI" !in args ==> r.value.trackURI.None?)
              && ("RelTime" !in args ==> r.value.relTime.None?)
              && ("AbsTime" !in args ==> r.value.absTime.None?)
              && ("RelCount" !in args ==> r.value.relCount == INTEGER_MAX_VALUE)
              && ("AbsCount" !in args ==> r.value.absCount == INTEGER_MAX_VALUE)
  {
    match TrackArgument(args)
    case Failure(e) => Failure(e)
    case Success(track) =>
    match StringArgument(args, "TrackDuration")
    case Failure(e) => Failure(e)
    case Success(trackDuration) =>
    match StringArgument(args, "TrackMetaData")
    case Failure(e) => Failure(e)
    case Success(trackMetaData) =>
    match StringArgument(args, "TrackURI")
    case Failure(e) => Failure(e)
    case Success(trackURI) =>
    match StringArgument(args, "RelTime")
    case Failure(e) => Failure(e)
    case Success(relTime) =>
    match StringArgument(args, "AbsTime")
    case Failure(e) => Failure(e)
    case Success(absTime) =>
    match CountArgument(args, "RelCount")
    case Failure(e) => Failure(e)
    case Success(relCount) =>
    match CountArgument(args, "AbsCount")
    case Failure(e) => Failure(e)
    case Success(absCount) =>
      Success(Arguments(track, trackDuration, trackMetaData, trackURI, relTime, absTime, relCount, absCount))
  }

  /** v is what a well-typed string argument under key denotes: its string, or null when it is missing or null. */
  predicate CarriedString(args: map<string, ArgumentValue>, key: string, v: Option<string>) {
    if key in args && args[key].StringValue? then v == Some(args[key].s) else v.None?
  }

  /** v is what a well-typed count argument under key denotes: its integer, or Integer.MAX_VALUE when it is missing. */
  predicate CarriedCount(args: map<string, ArgumentValue>, key: string, v: int32) {
    if key in args && args[key].IntegerValue? then v == args[key].i else v == INTEGER_MAX_VALUE
  }

  /** Arguments of the right types for every key present are always accepted, and every one is carried over as it is. */
  lemma WellTypedArgumentsAccepted(args: map<string, ArgumentValue>)
    requires "Track" in args && args["Track"].UnsignedFourBytes?
    requires forall key | key in {"TrackDuration", "TrackMetaData", "TrackURI", "RelTime", "AbsTime"} && key in args ::
               args[key].StringValue? || args[key].NullValue?
    requires forall key | key in {"RelCount", "AbsCount"} && key in args :: args[key].IntegerValue?
    ensures DecodeArguments(args).Success?
    ensures var a := DecodeArguments(args).value;
            && a.track == args["Track"].u
            && CarriedString(args, "TrackDuration", a.trackDuration)
            && CarriedString(args, "TrackMetaData", a.trackMetaData)
            && CarriedString(args, "TrackURI", a.trackURI)
            && CarriedString(args, "RelTime", a.relTime)
            && CarriedString(args, "AbsTime", a.absTime)
            && CarriedCount(args, "RelCount", a.relCount)
            && CarriedCount(args, "AbsCount", a.absCount)
  {
  }

  /** getTrackDurationSeconds on a duration string: 0 for null. */
  function DurationSeconds(trackDuration: Option<string>, fromTimeString: string -> int64): (r: int64)
    ensures trackDuration.None? ==> r == 0
    ensures trackDuration.Some? ==> r == fromTimeString(trackDuration.value)
  {
    if trackDuration.None? then 0 else fromTimeString(trackDuration.value)
  }

  /** getTrackElapsedSeconds on a relative time string: 0 for null and for "NOT_IMPLEMENTED". */
  function ElapsedSeconds(relTime: Option<string>, fromTimeString: string -> int64): (r: int64)
    ensures relTime.None? || relTime == Some(NOT_IMPLEMENTED) ==> r == 0
    ensures relTime.Some? && relTime != Some(NOT_IMPLEMENTED) ==> r == fromTimeString(relTime.value)
  {
    if relTime.None? || relTime.value == NOT_IMPLEMENTED then 0 else fromTimeString(relTime.value)
  }

  /** getTrackRemainingSeconds: duration minus elapsed in long arithmetic, exact whenever the difference fits a long. */
  function RemainingSeconds(duration: int64, elapsed: int64): (r: int64)
    ensures (r - (duration - elapsed)) % TWO_64 == 0
    ensures 0 <= elapsed && 0 <= duration ==> r + elapsed == duration
  {
    Wrap64(duration - elapsed)
  }

  /** getElapsedPercent: 0 whenever elapsed or total is 0; otherwise the floating-point percentage, left as a parameter. */
  function ElapsedPercent(elapsed: int64, total: int64, percentage: (int64, int64) -> int32): (r: int32)
    ensures elapsed == 0 || total == 0 ==> r == 0
    ensures elapsed != 0 && total != 0 ==> r == percentage(elapsed, total)
  {
    if elapsed == 0 || total == 0 then 0 else percentage(elapsed, total)
  }

  class PositionInfo {
    var track: uint32
    var trackDuration: Option<string>
    var trackMetaData: Option<string>
    var trackURI: Option<string>
    var relTime: Option<string>
    var absTime: Option<string>
    var relCount: int32
    var absCount: int32

    /** The declared field defaults. */
    constructor ()
      ensures track == 0 && trackDuration == Some(ZERO_TIME) && trackMetaData == Some(NOT_IMPLEMENTED)
      ensures trackURI == Some("") && relTime == Some(ZERO_TIME) && absTime == Some(ZERO_TIME)
      ensures relCount == INTEGER_MAX_VALUE && absCount == INTEGER_MAX_VALUE
    {
      track := 0;
      trackDuration := Some(ZERO_TIME);
      trackMetaData := Some(NOT_IMPLEMENTED);
      trackURI := Some("");
      relTime := Some(ZERO_TIME);
      absTime := Some(ZERO_TIME);
      relCount := INTEGER_MAX_VALUE;
      absCount := INTEGER_MAX_VALUE;
    }

    /** A copy with new relative and absolute time strings; every other field is the copy's. */
    constructor CopyWithTimes(copy: PositionInfo, relTime: Option<string>, absTime: Option<string>)
      ensures track == copy.track && trackDuration == copy.trackDuration && trackMetaData == copy.trackMetaData
      ensures trackURI == copy.trackURI && relCount == copy.relCount && absCount == copy.absCount
      ensures this.relTime == relTime && this.absTime == absTime
    {
      track := copy.track;
      trackDuration := copy.trackDuration;
      trackMetaData := copy.trackMetaData;
      trackURI := copy.trackURI;
      this.relTime := relTime;
      this.absTime := absTime;
      relCount := copy.relCount;
      absCount := copy.absCount;
    }

    /** A copy with relative and absolute time rendered from seconds; every other field is the copy's. */
    constructor CopyWithSeconds(copy: PositionInfo, relTimeSeconds: int64, absTimeSeconds: int64, toTimeString: int64 -> string)
      ensures track == copy.track && trackDuration == copy.trackDuration && trackMetaData == copy.trackMetaData
      ensures trackURI == copy.trackURI && relCount == copy.relCount && absCount == copy.absCount
      ensures relTime == Some(toTimeString(relTimeSeconds)) && absTime == Some(toTimeString(absTimeSeconds))
    {
      track := copy.track;
      trackDuration := copy.trackDuration;
      trackMetaData := copy.trackMetaData;
      trackURI := copy.trackURI;
      relTime := Some(toTimeString(relTimeSeconds));
      absTime := Some(toTimeString(absTimeSeconds));
      relCount := copy.relCount;
      absCount := copy.absCount;
    }

    /** The five-argument constructor: metadata and counts keep their declared defaults. */
    constructor WithTimes(track: uint32, trackDuration: Option<string>, trackURI: Option<string>,
                          relTime: Option<string>, absTime: Option<string>)
      ensures this.track == track && this.trackDuration == trackDuration && this.trackURI == trackURI
      ensures this.relTime == relTime && this.absTime == absTime
      ensures trackMetaData == Some(NOT_IMPLEMENTED) && relCount == INTEGER_MAX_VALUE && absCount == INTEGER_MAX_VALUE
    {
      this.track := track;
      this.trackDuration := trackDuration;
      trackMetaData := Some(NOT_IMPLEMENTED);
      this.trackURI := trackURI;
      this.relTime := relTime;
      this.absTime := absTime;
      relCount := INTEGER_MAX_VALUE;
      absCount := INTEGER_MAX_VALUE;
    }

    /** The eight-argument constructor: every field from its argument. */
    constructor WithAll(track: uint32, trackDuration: Option<string>, trackMetaData: Option<string>, trackURI: Option<string>,
                        relTime: Option<string>, absTime: Option<string>, relCount: int32, absCount: int32)
      ensures this.track == track && this.trackDuration == trackDuration && this.trackMetaData == trackMetaData
      ensures this.trackURI == trackURI && this.relTime == relTime && this.absTime == absTime
      ensures this.relCount == relCount && this.absCount == absCount
    {
      this.track := track;
      this.trackDuration := trackDuration;
      this.trackMetaData := trackMetaData;
      this.trackURI := trackURI;
      this.relTime := relTime;
      this.absTime := absTime;
      this.relCount := relCount;
      this.absCount := absCount;
    }

    /** The three-argument constructor: the times and counts keep their declared defaults. */
    constructor WithMetaData(track: uint32, trackMetaData: Option<string>, trackURI: Option<string>)
      ensures this.track == track && this.trackMetaData == trackMetaData && this.trackURI == trackURI
      ensures trackDuration == Some(ZERO_TIME) && relTime == Some(ZERO_TIME) && absTime == Some(ZERO_TIME)
      ensures relCount == INTEGER_MAX_VALUE && absCount == INTEGER_MAX_VALUE
    {
      this.track := track;
      trackDuration := Some(ZERO_TIME);
      this.trackMetaData := trackMetaData;
      this.trackURI := trackURI;
      relTime := Some(ZERO_TIME);
      absTime := Some(ZERO_TIME);
      relCount := INTEGER_MAX_VALUE;
      absCount := INTEGER_MAX_VALUE;
    }

    /** The map constructor: the decoded arguments, or the exception their evaluation throws. */
    static method FromArguments(args: map<string, ArgumentValue>) returns (r: Result<PositionInfo, JavaException>)
      ensures DecodeArguments(args).Failure? ==> r == Failure(DecodeArguments(args).error)
      ensures DecodeArguments(args).Success? ==> r.Success? && fresh(r.value) && r.value.Fields() == DecodeArguments(args).value
    {
      var a := DecodeArguments(args);
      if a.Failure? {
        return Failure(a.error);
      }
      var p := new PositionInfo.WithAll(a.value.track, a.value.trackDuration, a.value.trackMetaData, a.value.trackURI,
                                        a.value.relTime, a.value.absTime, a.value.relCount, a.value.absCount);
      return Success(p);
    }

    /** All fields, as the eight constructor arguments. */
    function Fields(): Arguments
      reads this
    {
      Arguments(track, trackDuration, trackMetaData, trackURI, relTime, absTime, relCount, absCount)
    }

    method SetTrackDuration(trackDuration: Option<string>)
      modifies this
      ensures Fields() == old(Fields()).(trackDuration := trackDuration)
    {
      this.trackDuration := trackDuration;
    }

    method SetRelTime(relTime: Option<string>)
      modifies this
      ensures Fields() == old(Fields()).(relTime := relTime)
    {
      this.relTime := relTime;
    }

    /** getTrackDurationSeconds: the parsed duration, 0 when there is none. */
    function TrackDurationSeconds(fromTimeString: string -> int64): (r: int64)
      reads this
      ensures trackDuration.None? ==> r == 0
    {
      DurationSeconds(trackDuration, fromTimeString)
    }

    /** getTrackElapsedSeconds: the parsed relative time, 0 when there is none or it is "NOT_IMPLEMENTED". */
    function TrackElapsedSeconds(fromTimeString: string -> int64): (r: int64)
      reads this
      ensures relTime.None? || relTime == Some(NOT_IMPLEMENTED) ==> r == 0
    {
      ElapsedSeconds(relTime, fromTimeString)
    }

    /** getTrackRemainingSeconds: elapsed plus remaining is the duration, whenever both are non-negative. */
    function TrackRemainingSeconds(fromTimeString: string -> int64): (r: int64)
      reads this
      ensures 0 <= TrackElapsedSeconds(fromTimeString) && 0 <= TrackDurationSeconds(fromTimeString) ==>
                r + TrackElapsedSeconds(fromTimeString) == TrackDurationSeconds(fromTimeString)
      ensures relTime.None? || relTime == Some(NOT_IMPLEMENTED) ==> r == TrackDurationSeconds(fromTimeString)
    {
      RemainingSeconds(TrackDurationSeconds(fromTimeString), TrackElapsedSeconds(fromTimeString))
    }

    /** getElapsedPercent: 0 without a duration or without elapsed time, otherwise the percentage of the two. */
    function GetElapsedPercent(fromTimeString: string -> int64, percentage: (int64, int64) -> int32): (r: int32)
      reads this
      ensures trackDuration.None? || relTime.None? || relTime == Some(NOT_IMPLEMENTED) ==> r == 0
      ensures TrackElapsedSeconds(fromTimeString) == 0 || TrackDurationSeconds(fromTimeString) == 0 ==> r == 0
      ensures TrackElapsedSeconds(fromTimeString) != 0 && TrackDurationSeconds(fromTimeString) != 0 ==>
                r == percentage(TrackElapsedSeconds(fromTimeString), TrackDurationSeconds(fromTimeString))
    {
      ElapsedPercent(TrackElapsedSeconds(fromTimeString), TrackDurationSeconds(fromTimeString), percentage)
    }
  }
}
