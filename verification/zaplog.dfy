/** The tiered log sink: how `Zap` builds a logger from its configuration
    record, which formatter and level style it picks, which rotating files
    it writes to, and which destinations receive a record of a given level.
    The rotating writers and zap's encoding machinery are described only by
    the configuration values handed to them. */
module ZapLog {
  import opened Results
  import opened Levels

  /** The fields of the `zap` configuration block the sink reads. */
  datatype ZapConf = ZapConf(
    level: string,
    format: string,
    director: string,
    linkName: string,
    encodeLevel: string)

  // ---------------------------------------------------------------------
  // Formatter

  /** zapcore's four level encoders. */
  datatype LevelEncoding = LowercaseLevel | LowercaseColorLevel | CapitalLevel | CapitalColorLevel

  /** The configuration value that names each level encoder. */
  function EncodingName(e: LevelEncoding): string {
    match e
    case LowercaseLevel => "LowercaseLevelEncoder"
    case LowercaseColorLevel => "LowercaseColorLevelEncoder"
    case CapitalLevel => "CapitalLevelEncoder"
    case CapitalColorLevel => "CapitalColorLevelEncoder"
  }

  /** The `EncodeLevel` switch: an exact (case-sensitive) encoder name
      selects that encoder; anything else selects the lower-case one. */
  function ParseLevelEncoding(s: string): (e: LevelEncoding)
    ensures forall x :: s == EncodingName(x) ==> e == x
    ensures e != LowercaseLevel ==> s == EncodingName(e)
  {
    if s == "LowercaseLevelEncoder" then LowercaseLevel
    else if s == "LowercaseColorLevelEncoder" then LowercaseColorLevel
    else if s == "CapitalLevelEncoder" then CapitalLevel
    else if s == "CapitalColorLevelEncoder" then CapitalColorLevel
    else LowercaseLevel
  }

  /** zapcore's encoder configuration as the sink fills it. Times are
      rendered by `Timestamp.CustomTimeEncoder`, durations in seconds and
      callers with their full path; those three choices are fixed and not
      recorded here. */
  datatype EncoderConfig = EncoderConfig(
    messageKey: string,
    levelKey: string,
    timeKey: string,
    nameKey: string,
    callerKey: string,
    stacktraceKey: string,
    lineEnding: string,
    levelEncoding: LevelEncoding)

  /** The record framing shared by every destination. */
  datatype Formatter = Json(config: EncoderConfig) | Console(config: EncoderConfig)

  /** `getEncoderConfig`. */
  function GetEncoderConfig(cfg: ZapConf): (c: EncoderConfig)
    ensures c.messageKey == "message" && c.levelKey == "level" && c.timeKey == "time"
    ensures c.nameKey == "logger" && c.callerKey == "caller" && c.stacktraceKey == "stacktrace"
    ensures c.lineEnding == "\n"
    ensures forall x :: cfg.encodeLevel == EncodingName(x) ==> c.levelEncoding == x
    ensures c.levelEncoding != LowercaseLevel ==> cfg.encodeLevel == EncodingName(c.levelEncoding)
  {
    EncoderConfig("message", "level", "time", "logger", "caller", "stacktrace", "\n",
      ParseLevelEncoding(cfg.encodeLevel))
  }

  /** `getEncoder`: JSON framing exactly for the format "json", console
      framing for every other value, "JSON" included. */
  function GetEncoder(cfg: ZapConf): (f: Formatter)
    ensures f.Json? <==> cfg.format == "json"
    ensures f.config == GetEncoderConfig(cfg)
  {
    if cfg.format == "json" then Json(GetEncoderConfig(cfg)) else Console(GetEncoderConfig(cfg))
  }

  // ---------------------------------------------------------------------
  // Rotating writers

  /** `time.Hour` in nanoseconds, the unit of Go's `time.Duration`. */
  const Hour: int := 3_600_000_000_000

  /** The options handed to the rotating writer. */
  datatype RotateOptions = RotateOptions(pattern: string, linkName: string, maxAge: int, rotationTime: int)

  /** Go's `path.Join(dir, elem)` for parts that are already clean: an
      empty part is dropped, a directory ending in `/` is followed directly
      by the file name, and any other directory gets one `/` before it. */
  function PathJoin(dir: string, elem: string): (p: string)
    ensures |p| >= |elem| && p[|p| - |elem|..] == elem
    ensures dir != [] ==> |p| >= |dir| && p[..|dir|] == dir
  {
    if dir == [] then elem
    else if elem == [] then dir
    else if dir[|dir| - 1] == '/' then
      var p := dir + elem;
      assert p[|dir|..] == elem && p[..|dir|] == dir;
      p
    else
      var p := dir + "/" + elem;
      assert p[|dir| + 1..] == elem && p[..|dir|] == dir;
      p
  }

  /** The joined path, case by case: an empty part leaves the other, a
      directory ending in `/` is followed directly by the file name, and
      any other directory gets one `/` before it. */
  lemma PathJoinCases(dir: string, elem: string)
    ensures elem == [] ==> PathJoin(dir, elem) == dir
    ensures dir == [] ==> PathJoin(dir, elem) == elem
    ensures dir != [] && elem != [] && dir[|dir| - 1] == '/' ==> PathJoin(dir, elem) == dir + elem
    ensures dir != [] && elem != [] && dir[|dir| - 1] != '/' ==> PathJoin(dir, elem) == dir + "/" + elem
  {
  }

  /** The strftime pattern of a tier's daily file name. */
  function TierFileName(tier: string): string {
    "%Y-%m-%d_" + tier + ".log"
  }

  /** `getLogWriter`: a daily file per tier under the configured directory,
      kept seven days, with the link at the configured name. */
  function GetLogWriter(cfg: ZapConf, tier: string): (w: RotateOptions)
    ensures w.pattern == PathJoin(cfg.director, TierFileName(tier))
    ensures w.linkName == PathJoin(cfg.director, cfg.linkName)
    ensures w.rotationTime == 24 * Hour && w.maxAge == 7 * w.rotationTime
  {
    RotateOptions(
      PathJoin(cfg.director, TierFileName(tier)),
      PathJoin(cfg.director, cfg.linkName),
      7 * 24 * Hour,
      24 * Hour)
  }

  /** Both tiers point their link at the same path, while their daily files
      differ: the tier name is part of the file name. */
  lemma TiersShareLink(cfg: ZapConf)
    ensures GetLogWriter(cfg, "info").linkName == GetLogWriter(cfg, "error").linkName
    ensures GetLogWriter(cfg, "info").pattern != GetLogWriter(cfg, "error").pattern
  {
  }

  // ---------------------------------------------------------------------
  // Tee of cores and routing

  /** Where a core writes. */
  datatype Sink = Stdout | File(tier: string, writer: RotateOptions)

  /** The level filter of a core: zapcore's fixed level `min` enables
      `min` and above; the tier filters enable levels below, or at and
      above, Error. */
  datatype Enabler = AtLeast(min: Level) | Under(bound: Level)

  predicate Enabled(e: Enabler, l: Level) {
    match e
    case AtLeast(min) => !Below(l, min)
    case Under(bound) => Below(l, bound)
  }

  /** One core of the tee: a destination, its filter and its formatter. */
  datatype Core = Core(sink: Sink, enabler: Enabler, encoder: Formatter)

  /** The info tier's file. */
  function InfoFile(cfg: ZapConf): Sink {
    File("info", GetLogWriter(cfg, "info"))
  }

  /** The error tier's file. */
  function ErrorFile(cfg: ZapConf): Sink {
    File("error", GetLogWriter(cfg, "error"))
  }

  /** `getEncoderCore`: stdout at Debug and above, the info tier for levels
      below Error, the error tier for Error and above, all with one
      formatter. */
  function GetEncoderCore(cfg: ZapConf): (tee: seq<Core>)
    ensures |tee| == 3
    ensures forall i :: 0 <= i < |tee| ==> tee[i].encoder == GetEncoder(cfg)
  {
    var enc := GetEncoder(cfg);
    [ Core(Stdout, AtLeast(Debug), enc),
      Core(InfoFile(cfg), Under(Error), enc),
      Core(ErrorFile(cfg), AtLeast(Error), enc) ]
  }

  /** The destinations of a tee that accept a record of level `l`. */
  function Routes(tee: seq<Core>, l: Level): (r: set<Sink>)
    ensures forall s :: s in r <==> exists i :: 0 <= i < |tee| && tee[i].sink == s && Enabled(tee[i].enabler, l)
  {
    if tee == [] then {}
    else
      var rest := Routes(tee[1..], l);
      assert forall s :: s in rest <==> exists i :: 1 <= i < |tee| && tee[i].sink == s && Enabled(tee[i].enabler, l) by {
        forall s ensures s in rest <==> exists i :: 1 <= i < |tee| && tee[i].sink == s && Enabled(tee[i].enabler, l) {
          if s in rest {
            var j :| 0 <= j < |tee[1..]| && tee[1..][j].sink == s && Enabled(tee[1..][j].enabler, l);
            assert tee[j + 1] == tee[1..][j];
          }
          if exists i :: 1 <= i < |tee| && tee[i].sink == s && Enabled(tee[i].enabler, l) {
            var i :| 1 <= i < |tee| && tee[i].sink == s && Enabled(tee[i].enabler, l);
            assert tee[1..][i - 1] == tee[i];
          }
        }
      }
      (if Enabled(tee[0].enabler, l) then {tee[0].sink} else {}) + rest
  }

  /** The logger `Zap` builds: its tee and the level from which records
      carry a stack trace (`None`: never, zap's default). */
  datatype Logger = Logger(tee: seq<Core>, addStack: Option<Level>)

  /** `Zap`: the configured level only decides whether stack traces are
      attached, from that level upwards, and only for Debug and Error. */
  function Zap(cfg: ZapConf): (lg: Logger)
    ensures lg.tee == GetEncoderCore(cfg)
    ensures lg.addStack.Some? <==> GetLevel(cfg.level) == Debug || GetLevel(cfg.level) == Error
    ensures lg.addStack.Some? ==> lg.addStack.value == GetLevel(cfg.level)
  {
    var level := GetLevel(cfg.level);
    if level == Debug || level == Error then Logger(GetEncoderCore(cfg), Some(level))
    else Logger(GetEncoderCore(cfg), None)
  }

  /** Whether a record of level `l` carries a stack trace. */
  predicate CarriesStack(lg: Logger, l: Level) {
    lg.addStack.Some? && !Below(l, lg.addStack.value)
  }

  /** The destinations of a three-core tee, core by core. */
  lemma RoutesOfThree(c0: Core, c1: Core, c2: Core, l: Level)
    ensures Routes([c0, c1, c2], l) ==
      (if Enabled(c0.enabler, l) then {c0.sink} else {})
      + (if Enabled(c1.enabler, l) then {c1.sink} else {})
      + (if Enabled(c2.enabler, l) then {c2.sink} else {})
  {
    var tee := [c0, c1, c2];
    var want := (if Enabled(c0.enabler, l) then {c0.sink} else {})
      + (if Enabled(c1.enabler, l) then {c1.sink} else {})
      + (if Enabled(c2.enabler, l) then {c2.sink} else {});
    forall s ensures s in Routes(tee, l) <==> s in want {
      if s in want {
        if Enabled(c0.enabler, l) && s == c0.sink { assert tee[0] == c0; }
        else if Enabled(c1.enabler, l) && s == c1.sink { assert tee[1] == c1; }
        else { assert tee[2] == c2; }
      }
      if s in Routes(tee, l) {
        var i :| 0 <= i < |tee| && tee[i].sink == s && Enabled(tee[i].enabler, l);
        assert i == 0 || i == 1 || i == 2;
      }
    }
  }

  /** The routing rule for the tee `Zap` builds: stdout always, plus the
      info tier below Error or the error tier at Error and above. */
  lemma RoutingRule(cfg: ZapConf, l: Level)
    ensures Routes(Zap(cfg).tee, l) == {Stdout} + (if Below(l, Error) then {InfoFile(cfg)} else {ErrorFile(cfg)})
  {
    var enc := GetEncoder(cfg);
    RoutesOfThree(Core(Stdout, AtLeast(Debug), enc), Core(InfoFile(cfg), Under(Error), enc), Core(ErrorFile(cfg), AtLeast(Error), enc), l);
  }

  /** The destinations that receive a record of level `l`: stdout always,
      plus the info tier below Error or the error tier at Error and
      above. */
  function Destinations(cfg: ZapConf, l: Level): (r: set<Sink>)
    ensures r == {Stdout} + (if Below(l, Error) then {InfoFile(cfg)} else {ErrorFile(cfg)})
  {
    RoutingRule(cfg, l);
    Routes(Zap(cfg).tee, l)
  }

  /** A destination set of the routing rule's shape holds stdout and
      exactly one of two distinct tier files, the first exactly below
      Error. */
  lemma OneOfTwoTiers(d: set<Sink>, info: Sink, err: Sink, l: Level)
    requires info.File? && err.File? && info.tier != err.tier
    requires d == {Stdout} + (if Below(l, Error) then {info} else {err})
    ensures Stdout in d && info != err
    ensures info in d <==> err !in d
    ensures info in d <==> Rank(l) < Rank(Error)
  {
  }

  /** Every record reaches stdout and exactly one of the two tier files;
      a Warn record lands in the info tier. */
  lemma ExactlyOneTier(cfg: ZapConf, l: Level)
    ensures Stdout in Destinations(cfg, l)
    ensures InfoFile(cfg) != ErrorFile(cfg)
    ensures InfoFile(cfg) in Destinations(cfg, l) <==> ErrorFile(cfg) !in Destinations(cfg, l)
    ensures InfoFile(cfg) in Destinations(cfg, l) <==> Rank(l) < Rank(Error)
    ensures l == Warn ==> InfoFile(cfg) in Destinations(cfg, l)
  {
    OneOfTwoTiers(Destinations(cfg, l), InfoFile(cfg), ErrorFile(cfg), l);
  }

  /** The configured level filters nothing: changing it leaves every
      record's destinations as they were. */
  lemma LevelFiltersNothing(cfg: ZapConf, level: string, l: Level)
    ensures Destinations(cfg.(level := level), l) == Destinations(cfg, l)
  {
  }

  /** Stack traces: at configured level Debug every record carries one, at
      Error exactly the records at Error and above, at any other level
      none. */
  lemma StacktraceRule(cfg: ZapConf, l: Level)
    ensures GetLevel(cfg.level) == Debug ==> CarriesStack(Zap(cfg), l)
    ensures GetLevel(cfg.level) == Error ==> (CarriesStack(Zap(cfg), l) <==> !Below(l, Error))
    ensures GetLevel(cfg.level) != Debug && GetLevel(cfg.level) != Error ==> !CarriesStack(Zap(cfg), l)
  {
  }
}
