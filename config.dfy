/** The service's log level setting. */
module Config {

  /** logrus's levels, from most to least severe. */
  datatype Level = PanicLevel | FatalLevel | ErrorLevel | WarnLevel | InfoLevel | DebugLevel | TraceLevel

  /** `parseLogLevel`: the level a configured name selects; any other name selects Info. */
  function ParseLogLevel(logLevel: string): Level
  {
    match logLevel
    case "panic" => PanicLevel
    case "fatal" => FatalLevel
    case "error" => ErrorLevel
    case "warn" => WarnLevel
    case "info" => InfoLevel
    case "debug" => DebugLevel
    case "trace" => TraceLevel
    case _ => InfoLevel
  }

  /** The configuration name of each level. */
  function LevelName(l: Level): string
  {
    match l
    case PanicLevel => "panic"
    case FatalLevel => "fatal"
    case ErrorLevel => "error"
    case WarnLevel => "warn"
    case InfoLevel => "info"
    case DebugLevel => "debug"
    case TraceLevel => "trace"
  }

  /** Every level is selected by its own name. */
  lemma ParseLevelName(l: Level)
    ensures ParseLogLevel(LevelName(l)) == l
  {
  }

  /**
   * A name selects a level other than Info only when it is that level's
   * name; every other name, such as "DEBUG", selects Info.
   */
  lemma ParseLogLevelNames(logLevel: string)
    ensures ParseLogLevel(logLevel) != InfoLevel ==> LevelName(ParseLogLevel(logLevel)) == logLevel
    ensures (forall l: Level :: LevelName(l) != logLevel) ==> ParseLogLevel(logLevel) == InfoLevel
    ensures ParseLogLevel("DEBUG") == InfoLevel && ParseLogLevel("") == InfoLevel
  {
    if logLevel != "info" {
      assert LevelName(InfoLevel) != logLevel;
    }
  }
}
