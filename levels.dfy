/**
 * The six log levels, in the order of the source's `LOGLEVEL` enum, and the two
 * static tables indexed by that order: the level tag and the ANSI colour code
 * (whose extra seventh entry is the reset code).
 */
module Levels {
  import opened Wrappers

  datatype LogLevel = INFO | WARNING | DEBUG | ERROR | FATAL | TRACE

  /** The enum's underlying value (`static_cast<int>(level)`). */
  function Index(l: LogLevel): (i: nat)
    ensures i < 6
  {
    match l
    case INFO => 0
    case WARNING => 1
    case DEBUG => 2
    case ERROR => 3
    case FATAL => 4
    case TRACE => 5
  }

  const Escape: char := 27 as char

  /** `Message::LevelFlag`. */
  const LevelFlag: seq<string> := ["INFO", "WARNING", "DEBUG", "ERROR", "FATAL", "TRACE"]

  /** `Message::LevelColor`: cyan, green, yellow, red, magenta, blue, then reset. */
  const LevelColor: seq<string> := [
    [Escape] + "[36m", [Escape] + "[32m", [Escape] + "[33m", [Escape] + "[31m",
    [Escape] + "[35m", [Escape] + "[34m", [Escape] + "[0m"]

  /** `Message::getLevelFlag`. */
  function GetLevelFlag(l: LogLevel): string {
    LevelFlag[Index(l)]
  }

  /** A tag is four to seven upper-case letters. */
  lemma FlagShape(l: LogLevel)
    ensures 4 <= |GetLevelFlag(l)| <= 7
    ensures forall k :: 0 <= k < |GetLevelFlag(l)| ==> 'A' <= GetLevelFlag(l)[k] <= 'Z'
  {
  }

  /** `Message::getLevelColor`. */
  function GetLevelColor(l: LogLevel): string {
    LevelColor[Index(l)]
  }

  /** `Message::getColorReset`: entry 6 of the colour table. */
  function GetColorReset(): string {
    LevelColor[6]
  }

  /**
   * A level's colour is the escape sequence `ESC [ 3 d m` with its own digit `d`
   * (6, 2, 3, 1, 5, 4 in enum order), and none of them is the reset `ESC [ 0 m`.
   */
  lemma ColorShape(l: LogLevel)
    ensures var color := GetLevelColor(l);
            && |color| == 5 && color[0] == Escape && color[1] == '[' && color[2] == '3'
            && color[3] == "623154"[Index(l)] && color[4] == 'm'
            && color != GetColorReset()
    ensures GetColorReset() == [Escape] + "[0m"
  {
  }

  /** The inverse of `GetLevelFlag`: which level a tag names, if any. */
  function LevelOfFlag(flag: string): (r: Option<LogLevel>)
    ensures r.Some? <==> flag in LevelFlag
    ensures r.Some? ==> GetLevelFlag(r.value) == flag
  {
    if flag == "INFO" then Some(INFO)
    else if flag == "WARNING" then Some(WARNING)
    else if flag == "DEBUG" then Some(DEBUG)
    else if flag == "ERROR" then Some(ERROR)
    else if flag == "FATAL" then Some(FATAL)
    else if flag == "TRACE" then Some(TRACE)
    else None
  }

  /** Each level has its own tag, and reading the tag back gives the level. */
  lemma FlagRoundTrip(l: LogLevel)
    ensures LevelOfFlag(GetLevelFlag(l)) == Some(l)
  {
  }

  /** Distinct levels have distinct tags and distinct colours. */
  lemma TablesInjective(l1: LogLevel, l2: LogLevel)
    ensures GetLevelFlag(l1) == GetLevelFlag(l2) <==> l1 == l2
    ensures GetLevelColor(l1) == GetLevelColor(l2) <==> l1 == l2
  {
    if l1 != l2 {
      ColorShape(l1);
      ColorShape(l2);
      assert GetLevelColor(l1)[3] != GetLevelColor(l2)[3];
    }
  }
}
