/**
 * `Logger::logConf`, its defaults, and the log paths derived from it
 * (`getLogDirName`, `getLognName`).
 */
module Config {

  datatype LogConf = LogConf(
    isStop: bool,
    isColor: bool,
    isConsole: bool,
    isWritefile: bool,
    isRotate: bool,
    fileMaxSize: nat,
    fileNum: nat,
    logDirName: string,
    logPrefixPath: string,
    logFileName: string)

  /** 128 MiB, the default rotation size. */
  const DefaultFileMaxSize: nat := 1024 * 1024 * 128

  /** What `logConf()` initialises. */
  function DefaultConf(): (c: LogConf)
    ensures !c.isStop && c.isColor && c.isConsole && c.isWritefile && !c.isRotate
    ensures c.fileMaxSize == DefaultFileMaxSize && c.fileNum == 10
    ensures c.logDirName == "log" && c.logPrefixPath == "." && c.logFileName == "app"
  {
    LogConf(
      isStop := false, isColor := true, isConsole := true, isWritefile := true,
      isRotate := false, fileMaxSize := DefaultFileMaxSize, fileNum := 10,
      logDirName := "log", logPrefixPath := ".", logFileName := "app")
  }

  /** `getLogDirName`: `prefix/dir`. */
  function LogDirName(c: LogConf): string {
    c.logPrefixPath + "/" + c.logDirName
  }

  /** `getLognName`: `prefix/dir/name`, the stem of every log file name. */
  function LogName(c: LogConf): string {
    LogDirName(c) + "/" + c.logFileName
  }

  /** The file the logger writes to: `prefix/dir/name.log`. */
  function ActivePath(c: LogConf): string {
    LogName(c) + ".log"
  }

  /** Where a rotation moves the active file: `prefix/dir/name_stamp.log`. */
  function RotatedPath(c: LogConf, stamp: string): string {
    LogName(c) + "_" + stamp + ".log"
  }

  /**
   * Both names spelled out from the configuration; the rotated name is never the
   * active one, so a rotation cannot overwrite the file it renames.
   */
  lemma PathShapes(c: LogConf, stamp: string)
    ensures ActivePath(c) == c.logPrefixPath + "/" + c.logDirName + "/" + c.logFileName + ".log"
    ensures RotatedPath(c, stamp) == c.logPrefixPath + "/" + c.logDirName + "/" + c.logFileName + "_" + stamp + ".log"
    ensures RotatedPath(c, stamp) != ActivePath(c)
  {
    var n := |LogName(c)|;
    assert RotatedPath(c, stamp)[n] == '_' && ActivePath(c)[n] == '.';
  }

  /** Rotations with different stamps move the file to different names. */
  lemma RotatedPathInjective(c: LogConf, stamp1: string, stamp2: string)
    ensures RotatedPath(c, stamp1) == RotatedPath(c, stamp2) <==> stamp1 == stamp2
  {
    if RotatedPath(c, stamp1) == RotatedPath(c, stamp2) {
      var n := |LogName(c)| + 1;
      assert stamp1 == RotatedPath(c, stamp1)[n..n + |stamp1|];
      assert stamp2 == RotatedPath(c, stamp2)[n..n + |stamp2|];
    }
  }
}
