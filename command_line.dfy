/** Command-line handling of main.cpp: the early scan for --help and
    --version, the option parser that writes into the game configuration,
    the archive-name test used when building the search path, and the
    choice of the first screen from the start level's name. Printing the
    usage text, the version and warnings is output and not modelled; an
    exception becomes an Err result. main saves the configuration even
    after an exception, so the options applied before the failing one stay
    applied here as well. */
module CommandLine {
  import opened Geometry

  /** pre_parse_commandline: true iff an argument after the program name
      asks for the usage text or the version. */
  method PreParseCommandline(args: seq<string>) returns (exit: bool)
    ensures exit <==> exists i :: 1 <= i < |args| && (args[i] == "--help" || args[i] == "--version")
  {
    var i := 1;
    while i < |args|
      invariant 1 <= i
      invariant forall k :: 1 <= k < i && k < |args| ==> args[k] != "--help" && args[k] != "--version"
    {
      if args[i] == "--help" {
        return true;
      } else if args[i] == "--version" {
        return true;
      }
      i := i + 1;
    }
    return false;
  }

  // ---- sscanf("%dx%d") ----

  predicate IsDigit(c: char) { '0' <= c <= '9' }

  /** The characters isspace accepts in the C locale. */
  predicate IsSpace(c: char) {
    c == ' ' || c == '\t' || c == '\n' || c == '\r' || c == 11 as char || c == 12 as char
  }

  predicate AllDigits(s: string) {
    forall k :: 0 <= k < |s| ==> IsDigit(s[k])
  }

  /** The number a run of decimal digits spells. */
  function ValueOf(ds: string): (n: nat)
    requires AllDigits(ds)
  {
    if ds == [] then 0 else ValueOf(ds[..|ds| - 1]) * 10 + (ds[|ds| - 1] as int - '0' as int)
  }

  /** The end of the run of digits starting at i. */
  function DigitRun(s: string, i: nat): (j: nat)
    requires i <= |s|
    ensures i <= j <= |s| && AllDigits(s[i..j]) && (j == |s| || !IsDigit(s[j]))
    decreases |s| - i
  {
    if i < |s| && IsDigit(s[i]) then
      var j := DigitRun(s, i + 1);
      assert s[i..j] == [s[i]] + s[i + 1..j];
      j
    else i
  }

  /** The first character at or after i that is not white space. */
  function SkipSpace(s: string, i: nat): (j: nat)
    requires i <= |s|
    ensures i <= j <= |s| && (j == |s| || !IsSpace(s[j]))
    ensures forall k :: i <= k < j ==> IsSpace(s[k])
    decreases |s| - i
  {
    if i < |s| && IsSpace(s[i]) then SkipSpace(s, i + 1) else i
  }

  /** One %d conversion from position i: white space, an optional sign and
      at least one digit. Yields the value and where the scan stopped. */
  function ScanInt(s: string, i: nat): (r: Option<(int, nat)>)
    requires i <= |s|
    ensures r.Some? ==> i < r.value.1 <= |s|
  {
    var j := SkipSpace(s, i);
    var negative := j < |s| && s[j] == '-';
    var k := if j < |s| && (s[j] == '-' || s[j] == '+') then j + 1 else j;
    var e := DigitRun(s, k);
    var v: int := if e == k then 0 else ValueOf(s[k..e]);
    if e == k then None else Some((if negative then -v else v, e))
  }

  /** The conversions of sscanf(arg, "%dx%d", ...): the second is only
      tried when the first succeeded and is followed directly by 'x'. */
  datatype Scan = Scan(first: Option<int>, second: Option<int>) {
    predicate Complete() { first.Some? && second.Some? }
  }

  function ScanGeometry(s: string): (r: Scan)
    ensures r.second.Some? ==> r.first.Some?
  {
    var first := ScanInt(s, 0);
    if first.None? then Scan(None, None)
    else
      var (w, e) := first.value;
      if e < |s| && s[e] == 'x' then
        var second := ScanInt(s, e + 1);
        Scan(Some(w), if second.Some? then Some(second.value.0) else None)
      else Scan(Some(w), None)
  }

  /** The decimal spelling of a natural number. */
  function Decimal(n: nat): (ds: string)
    ensures |ds| > 0
  {
    var d := ['0' + (n % 10) as char];
    if n < 10 then d else Decimal(n / 10) + d
  }

  lemma {:induction false} DecimalDigits(n: nat)
    ensures AllDigits(Decimal(n)) && ValueOf(Decimal(n)) == n
  {
    if n >= 10 {
      DecimalDigits(n / 10);
      var ds := Decimal(n);
      assert ds[..|ds| - 1] == Decimal(n / 10);
    }
  }

  /** A decimal number followed by a non-digit (or the end) scans back. */
  lemma ScanIntDecimal(s: string, p: nat, n: nat)
    requires p + |Decimal(n)| <= |s| && s[p..p + |Decimal(n)|] == Decimal(n)
    requires p + |Decimal(n)| == |s| || !IsDigit(s[p + |Decimal(n)|])
    ensures ScanInt(s, p) == Some((n, p + |Decimal(n)|))
  {
    DecimalDigits(n);
    ScanIntDigits(s, p, Decimal(n));
  }

  /** A run of digits followed by a non-digit (or the end) scans as the
      number it spells. */
  lemma ScanIntDigits(s: string, p: nat, ds: string)
    requires ds != [] && AllDigits(ds)
    requires p + |ds| <= |s| && s[p..p + |ds|] == ds
    requires p + |ds| == |s| || !IsDigit(s[p + |ds|])
    ensures ScanInt(s, p) == Some((ValueOf(ds), p + |ds|))
  {
    var e := p + |ds|;
    assert IsDigit(s[p]) by { assert s[p] == ds[0]; }
    assert DigitRun(s, p) == e by {
      assert AllDigits(s[p..e]);
      DigitRunEnds(s, p, e);
    }
    ScanIntUnsigned(s, p, e);
  }

  /** A conversion that starts right at a digit reads the whole run. */
  lemma ScanIntUnsigned(s: string, p: nat, e: nat)
    requires p < e <= |s| && IsDigit(s[p]) && DigitRun(s, p) == e
    ensures ScanInt(s, p) == Some((ValueOf(s[p..e]) as int, e))
  {
    assert SkipSpace(s, p) == p;
  }

  lemma {:induction false} DigitRunEnds(s: string, i: nat, e: nat)
    requires i <= e <= |s| && AllDigits(s[i..e]) && (e == |s| || !IsDigit(s[e]))
    ensures DigitRun(s, i) == e
    decreases e - i
  {
    if i < e {
      assert IsDigit(s[i]) by { assert s[i] == s[i..e][0]; }
      assert s[i + 1..e] == s[i..e][1..];
      DigitRunEnds(s, i + 1, e);
    }
  }

  /** "WIDTHxHEIGHT" written in decimal scans back to both numbers. */
  lemma GeometryRoundTrip(w: nat, h: nat)
    ensures ScanGeometry(Decimal(w) + "x" + Decimal(h)) == Scan(Some(w), Some(h))
  {
    DecimalDigits(w);
    DecimalDigits(h);
    GeometryOfDigits(Decimal(w), Decimal(h));
  }

  /** Two runs of digits joined by 'x' scan as the two numbers. */
  lemma GeometryOfDigits(a: string, b: string)
    requires a != [] && b != [] && AllDigits(a) && AllDigits(b)
    ensures ScanGeometry(a + "x" + b) == Scan(Some(ValueOf(a)), Some(ValueOf(b)))
  {
    var s := a + "x" + b;
    var e := |a|;
    assert s[e] == 'x';
    assert ScanInt(s, 0) == Some((ValueOf(a) as int, e)) by {
      assert s[0..e] == a;
      ScanIntDigits(s, 0, a);
    }
    assert ScanInt(s, e + 1) == Some((ValueOf(b) as int, |s|)) by {
      assert s[e + 1..e + 1 + |b|] == b;
      ScanIntDigits(s, e + 1, b);
    }
    ScanGeometryOfParts(s, ValueOf(a), e, ValueOf(b));
  }

  /** When the first conversion stops at an 'x' and the second succeeds,
      both numbers are converted. */
  lemma ScanGeometryOfParts(s: string, w: int, e: nat, h: int)
    requires e < |s| && s[e] == 'x' && ScanInt(s, 0) == Some((w, e))
    requires ScanInt(s, e + 1).Some? && ScanInt(s, e + 1).value.0 == h
    ensures ScanGeometry(s) == Scan(Some(w), Some(h))
  {
  }

  // ---- parse_commandline ----

  /** The configuration fields the parser writes. */
  datatype Settings = Settings(
    useFullscreen: bool, screenWidth: int, screenHeight: int, showFps: bool, consoleEnabled: bool,
    soundEnabled: bool, musicEnabled: bool, startDemo: string, recordDemo: string,
    enableScriptDebugger: bool, startLevel: string)

  /** The runtime_errors parse_commandline throws. */
  datatype ParseError = MissingGeometry | InvalidGeometry | MissingDemoFile

  /** The result of handling the argument at one position: the settings,
      where the next argument is, and the error if one was thrown. */
  datatype Step = Step(settings: Settings, next: nat, error: Option<ParseError>)

  /** Whether an argument names no option: it does not start with '-' (an
      empty argument reads its terminating NUL). */
  predicate IsPlainArgument(arg: string) {
    |arg| == 0 || arg[0] != '-'
  }

  /** The settings after sscanf wrote what it converted. */
  function StoreGeometry(s: Settings, scan: Scan): Settings {
    s.(screenWidth := if scan.first.Some? then scan.first.value else s.screenWidth,
       screenHeight := if scan.second.Some? then scan.second.value else s.screenHeight)
  }

  /** What the chain of comparisons in parse_commandline's loop takes an
      argument for. */
  datatype OptionKind =
    | Fullscreen | Window | Geometry | ShowFps | Console | DisableSfx | DisableMusic
    | PlayDemo | RecordDemo | ScriptDebugger | StartLevel | Unknown

  function Classify(arg: string): (k: OptionKind)
    ensures k == StartLevel <==> IsPlainArgument(arg)
    ensures k == Unknown ==> |arg| > 0 && arg[0] == '-'
  {
    if arg == "--fullscreen" || arg == "-f" then Fullscreen
    else if arg == "--window" || arg == "-w" then Window
    else if arg == "--geometry" || arg == "-g" then Geometry
    else if arg == "--show-fps" then ShowFps
    else if arg == "--console" then Console
    else if arg == "--disable-sfx" then DisableSfx
    else if arg == "--disable-music" then DisableMusic
    else if arg == "--play-demo" then PlayDemo
    else if arg == "--record-demo" then RecordDemo
    else if arg == "-d" then ScriptDebugger
    else if IsPlainArgument(arg) then StartLevel
    else Unknown
  }

  /** What one iteration of the loop does with the argument at i, once it
      is known which option that argument is. */
  function StepFor(kind: OptionKind, s: Settings, args: seq<string>, i: nat): (r: Step)
    requires i < |args|
    ensures i < r.next <= |args| + 1
    ensures r.error.None? ==> r.next <= |args|
  {
    match kind
    case Fullscreen => Step(s.(useFullscreen := true), i + 1, None)
    case Window => Step(s.(useFullscreen := false), i + 1, None)
    case Geometry =>
      if i + 1 >= |args| then Step(s, i + 1, Some(MissingGeometry))
      else
        var scan := ScanGeometry(args[i + 1]);
        Step(StoreGeometry(s, scan), i + 2, if scan.Complete() then None else Some(InvalidGeometry))
    case ShowFps => Step(s.(showFps := true), i + 1, None)
    case Console => Step(s.(consoleEnabled := true), i + 1, None)
    case DisableSfx => Step(s.(soundEnabled := false), i + 1, None)
    case DisableMusic => Step(s.(musicEnabled := false), i + 1, None)
    case PlayDemo =>
      if i + 1 >= |args| then Step(s, i + 1, Some(MissingDemoFile))
      else Step(s.(startDemo := args[i + 1]), i + 2, None)
    case RecordDemo =>
      if i + 1 >= |args| then Step(s, i + 1, Some(MissingDemoFile))
      else Step(s.(recordDemo := args[i + 1]), i + 2, None)
    case ScriptDebugger => Step(s.(enableScriptDebugger := true), i + 1, None)
    case StartLevel => Step(s.(startLevel := args[i]), i + 1, None)
    case Unknown => Step(s, i + 1, None)
  }

  /** One iteration of the parser at position i. */
  function ParseStep(s: Settings, args: seq<string>, i: nat): (r: Step)
    requires i < |args|
  {
    StepFor(Classify(args[i]), s, args, i)
  }

  /** The parser from position i on: the final settings and the first
      error, at which it stops. */
  function ParseFrom(s: Settings, args: seq<string>, i: nat): (Settings, Option<ParseError>)
    decreases |args| - i
  {
    if i >= |args| then (s, None)
    else
      var step := ParseStep(s, args, i);
      if step.error.Some? then (step.settings, step.error)
      else ParseFrom(step.settings, args, step.next)
  }

  /** The game configuration; only the fields the parser writes. */
  class Config {
    var useFullscreen: bool
    var screenWidth: int
    var screenHeight: int
    var showFps: bool
    var consoleEnabled: bool
    var soundEnabled: bool
    var musicEnabled: bool
    var startDemo: string
    var recordDemo: string
    var enableScriptDebugger: bool
    var startLevel: string

    function Snapshot(): Settings
      reads this
    {
      Settings(useFullscreen, screenWidth, screenHeight, showFps, consoleEnabled, soundEnabled,
               musicEnabled, startDemo, recordDemo, enableScriptDebugger, startLevel)
    }

    constructor (s: Settings)
      ensures Snapshot() == s
    {
      useFullscreen, screenWidth, screenHeight := s.useFullscreen, s.screenWidth, s.screenHeight;
      showFps, consoleEnabled, soundEnabled, musicEnabled := s.showFps, s.consoleEnabled, s.soundEnabled, s.musicEnabled;
      startDemo, recordDemo := s.startDemo, s.recordDemo;
      enableScriptDebugger, startLevel := s.enableScriptDebugger, s.startLevel;
    }
  }

  /** parse_commandline: walks the arguments after the program name,
      applying each option to the configuration; options with a parameter
      consume the next argument or throw when there is none. It returns
      false whenever it returns at all. */
  method ParseCommandline(config: Config, args: seq<string>) returns (r: Result<bool, ParseError>)
    modifies config
    ensures config.Snapshot() == ParseFrom(old(config.Snapshot()), args, 1).0
    ensures r.Err? <==> ParseFrom(old(config.Snapshot()), args, 1).1.Some?
    ensures r.Err? ==> Some(r.error) == ParseFrom(old(config.Snapshot()), args, 1).1
    ensures r.Ok? ==> r.value == false
  {
    var i := 1;
    while i < |args|
      invariant 1 <= i
      invariant ParseFrom(config.Snapshot(), args, i) == ParseFrom(old(config.Snapshot()), args, 1)
      decreases |args| - i
    {
      var next, error := ApplyOption(config, args, i, Classify(args[i]));
      if error.Some? {
        return Err(error.value);
      }
      i := next;
    }
    return Ok(false);
  }

  /** The options that consume the argument after them. */
  predicate TakesParameter(kind: OptionKind) {
    kind == Geometry || kind == PlayDemo || kind == RecordDemo
  }

  /** The body of parse_commandline's loop for the argument at i: applies
      it and says where the next argument is, or which error is thrown. */
  method ApplyOption(config: Config, args: seq<string>, i: nat, kind: OptionKind) returns (next: nat, error: Option<ParseError>)
    requires i < |args|
    modifies config
    ensures config.Snapshot() == StepFor(kind, old(config.Snapshot()), args, i).settings
    ensures next == StepFor(kind, old(config.Snapshot()), args, i).next
    ensures error == StepFor(kind, old(config.Snapshot()), args, i).error
  {
    if TakesParameter(kind) {
      next, error := ApplyParameterOption(config, args, i, kind);
    } else {
      ApplyFlag(config, args, i, kind);
      next, error := i + 1, None;
    }
  }

  /** An option without a parameter: sets one field, or for a plain
      argument the start level; an unknown option changes nothing. */
  method ApplyFlag(config: Config, args: seq<string>, i: nat, kind: OptionKind)
    requires i < |args| && !TakesParameter(kind)
    modifies config
    ensures StepFor(kind, old(config.Snapshot()), args, i) == Step(config.Snapshot(), i + 1, None)
  {
    if kind == Fullscreen || kind == Window || kind == ShowFps || kind == Console {
      ApplyDisplayFlag(config, args, i, kind);
    } else if kind == DisableSfx {
      config.soundEnabled := false;
    } else if kind == DisableMusic {
      config.musicEnabled := false;
    } else if kind == ScriptDebugger {
      config.enableScriptDebugger := true;
    } else if kind == StartLevel {
      config.startLevel := args[i];
    }
  }

  /** The flags about the screen and the console. */
  method ApplyDisplayFlag(config: Config, args: seq<string>, i: nat, kind: OptionKind)
    requires i < |args| && (kind == Fullscreen || kind == Window || kind == ShowFps || kind == Console)
    modifies config
    ensures StepFor(kind, old(config.Snapshot()), args, i) == Step(config.Snapshot(), i + 1, None)
  {
    if kind == Fullscreen {
      config.useFullscreen := true;
    } else if kind == Window {
      config.useFullscreen := false;
    } else if kind == ShowFps {
      config.showFps := true;
    } else {
      config.consoleEnabled := true;
    }
  }

  /** An option with a parameter: throws when there is no next argument,
      otherwise consumes it (a geometry that does not scan throws after
      storing what was converted). */
  method ApplyParameterOption(config: Config, args: seq<string>, i: nat, kind: OptionKind)
    returns (next: nat, error: Option<ParseError>)
    requires i < |args| && TakesParameter(kind)
    modifies config
    ensures config.Snapshot() == StepFor(kind, old(config.Snapshot()), args, i).settings
    ensures next == StepFor(kind, old(config.Snapshot()), args, i).next
    ensures error == StepFor(kind, old(config.Snapshot()), args, i).error
  {
    if i + 1 >= |args| {
      return i + 1, Some(if kind == Geometry then MissingGeometry else MissingDemoFile);
    }
    next, error := i + 2, None;
    if kind == Geometry {
      var complete := ScanInto(config, args[i + 1]);
      if !complete {
        error := Some(InvalidGeometry);
      }
    } else if kind == PlayDemo {
      config.startDemo := args[i + 1];
    } else {
      config.recordDemo := args[i + 1];
    }
  }

  /** sscanf(spec, "%dx%d", &screenwidth, &screenheight): stores each
      conversion that succeeds and says whether both did. */
  method ScanInto(config: Config, spec: string) returns (complete: bool)
    modifies config
    ensures config.Snapshot() == StoreGeometry(old(config.Snapshot()), ScanGeometry(spec))
    ensures complete == ScanGeometry(spec).Complete()
  {
    var scan := ScanGeometry(spec);
    if scan.first.Some? {
      config.screenWidth := scan.first.value;
    }
    if scan.second.Some? {
      config.screenHeight := scan.second.value;
    }
    complete := scan.Complete();
  }

  /** Parsing more arguments after a prefix that parsed without error
      continues from where the prefix left off. */
  lemma {:induction false} ParseFromAppend(s: Settings, args: seq<string>, more: seq<string>, i: nat)
    requires ParseFrom(s, args, i).1.None?
    ensures ParseFrom(s, args + more, i) == ParseFrom(ParseFrom(s, args, i).0, args + more, if i <= |args| then |args| else i)
    decreases |args| - i
  {
    if i < |args| {
      var step := ParseStep(s, args, i);
      assert ParseStep(s, args + more, i) == step by {
        assert (args + more)[i] == args[i];
        if i + 1 < |args| {
          assert (args + more)[i + 1] == args[i + 1];
        }
      }
      ParseFromAppend(step.settings, args, more, step.next);
    }
  }

  /** The last of -f/--fullscreen and -w/--window wins. */
  lemma LastScreenModeWins(s: Settings, args: seq<string>, flag: string)
    requires ParseFrom(s, args, 1).1.None? && 1 <= |args|
    requires flag in {"-f", "--fullscreen", "-w", "--window"}
    ensures ParseFrom(s, args + [flag], 1) ==
      (ParseFrom(s, args, 1).0.(useFullscreen := flag == "-f" || flag == "--fullscreen"), None)
  {
    ParseFromAppend(s, args, [flag], 1);
  }

  /** A plain argument becomes the start level; the last one wins. */
  lemma LastStartLevelWins(s: Settings, args: seq<string>, level: string)
    requires ParseFrom(s, args, 1).1.None? && 1 <= |args|
    requires IsPlainArgument(level)
    ensures ParseFrom(s, args + [level], 1) == (ParseFrom(s, args, 1).0.(startLevel := level), None)
  {
    ParseFromAppend(s, args, [level], 1);
  }

  /** An option that is not known changes nothing (it is only warned about). */
  lemma UnknownOptionIgnored(s: Settings, args: seq<string>, option: string)
    requires ParseFrom(s, args, 1).1.None? && 1 <= |args|
    requires Classify(option) == Unknown
    ensures ParseFrom(s, args + [option], 1) == (ParseFrom(s, args, 1).0, None)
  {
    ParseFromAppend(s, args, [option], 1);
  }

  /** An option that needs a parameter throws when it comes last. */
  lemma MissingParameterThrows(s: Settings, args: seq<string>, option: string)
    requires ParseFrom(s, args, 1).1.None? && 1 <= |args|
    requires option in {"-g", "--geometry", "--play-demo", "--record-demo"}
    ensures ParseFrom(s, args + [option], 1) ==
      (ParseFrom(s, args, 1).0, Some(if option in {"-g", "--geometry"} then MissingGeometry else MissingDemoFile))
  {
    ParseFromAppend(s, args, [option], 1);
  }

  /** A well-formed geometry sets both screen dimensions. */
  lemma GeometrySetsScreenSize(s: Settings, args: seq<string>, w: nat, h: nat)
    requires ParseFrom(s, args, 1).1.None? && 1 <= |args|
    ensures ParseFrom(s, args + ["-g", Decimal(w) + "x" + Decimal(h)], 1) ==
      (ParseFrom(s, args, 1).0.(screenWidth := w, screenHeight := h), None)
  {
    var spec := Decimal(w) + "x" + Decimal(h);
    var all := args + ["-g", spec];
    ParseFromAppend(s, args, ["-g", spec], 1);
    assert all[|args|] == "-g" && all[|args| + 1] == spec;
    assert ScanGeometry(spec) == Scan(Some(w), Some(h)) by {
      GeometryRoundTrip(w, h);
    }
    var t := ParseFrom(s, args, 1).0;
    assert ParseStep(t, all, |args|) == Step(t.(screenWidth := w, screenHeight := h), |args| + 2, None);
  }

  /** A malformed geometry throws, after sscanf stored what it converted. */
  lemma BadGeometryThrows(s: Settings, args: seq<string>, spec: string)
    requires ParseFrom(s, args, 1).1.None? && 1 <= |args|
    requires !ScanGeometry(spec).Complete()
    ensures ParseFrom(s, args + ["-g", spec], 1) ==
      (StoreGeometry(ParseFrom(s, args, 1).0, ScanGeometry(spec)), Some(InvalidGeometry))
  {
    ParseFromAppend(s, args, ["-g", spec], 1);
  }

  /** A demo option takes the next argument as its file name. */
  lemma DemoConsumesFileName(s: Settings, args: seq<string>, file: string)
    requires ParseFrom(s, args, 1).1.None? && 1 <= |args|
    ensures ParseFrom(s, args + ["--play-demo", file], 1) == (ParseFrom(s, args, 1).0.(startDemo := file), None)
    ensures ParseFrom(s, args + ["--record-demo", file], 1) == (ParseFrom(s, args, 1).0.(recordDemo := file), None)
  {
    DemoOptionConsumesFileName(s, args, "--play-demo", file);
    DemoOptionConsumesFileName(s, args, "--record-demo", file);
  }

  /** One demo option followed by a file name, after an error-free prefix. */
  lemma DemoOptionConsumesFileName(s: Settings, args: seq<string>, option: string, file: string)
    requires ParseFrom(s, args, 1).1.None? && 1 <= |args|
    requires option == "--play-demo" || option == "--record-demo"
    ensures var t := ParseFrom(s, args, 1).0;
      ParseFrom(s, args + [option, file], 1) ==
        (if option == "--play-demo" then t.(startDemo := file) else t.(recordDemo := file), None)
  {
    var all := args + [option, file];
    var t := ParseFrom(s, args, 1).0;
    ParseFromAppend(s, args, [option, file], 1);
    assert all[|args|] == option && all[|args| + 1] == file;
    var kind := if option == "--play-demo" then PlayDemo else RecordDemo;
    if option == "--play-demo" {
      ClassifyPlayDemo();
    } else {
      ClassifyRecordDemo();
    }
    var step := StepFor(kind, t, all, |args|);
    assert step.next == |all| && step.error.None?;
    ParseFromLastStep(t, all, |args|);
  }

  lemma ClassifyPlayDemo()
    ensures Classify("--play-demo") == PlayDemo
  {
  }

  lemma ClassifyRecordDemo()
    ensures Classify("--record-demo") == RecordDemo
  {
  }

  /** A step that throws or consumes the rest of the arguments ends the parse. */
  lemma ParseFromLastStep(s: Settings, args: seq<string>, i: nat)
    requires i < |args|
    requires ParseStep(s, args, i).error.Some? || ParseStep(s, args, i).next >= |args|
    ensures ParseFrom(s, args, i) == (ParseStep(s, args, i).settings, ParseStep(s, args, i).error)
  {
  }

  // ---- archives and the start screen ----

  function ToLowerAscii(c: char): char {
    if 'A' <= c <= 'Z' then c - 'A' + 'a' else c
  }

  /** The archive test of init_physfs: longer than "zip", a '.' right
      before the last three characters, and those equal "zip" ignoring
      case. */
  predicate IsArchiveName(name: string) {
    var l := |name|;
    l > 3 && name[l - 4] == '.' &&
    ToLowerAscii(name[l - 3]) == 'z' && ToLowerAscii(name[l - 2]) == 'i' && ToLowerAscii(name[l - 1]) == 'p'
  }

  /** Any name ending in ".zip", in any mix of case, is an archive; the
      bare extension and other endings are not. */
  lemma ArchiveNames(base: string, ext: string)
    requires |ext| == 3 && ToLowerAscii(ext[0]) == 'z' && ToLowerAscii(ext[1]) == 'i' && ToLowerAscii(ext[2]) == 'p'
    ensures IsArchiveName(base + "." + ext)
    ensures !IsArchiveName("zip") && !IsArchiveName(base + ".zip.txt")
  {
    var s := base + "." + ext;
    assert s[|s| - 4] == '.' && s[|s| - 3..] == ext;
    var t := base + ".zip.txt";
    assert t[|t| - 4] == '.' && t[|t| - 3] == 't';
  }

  /** The search-path loop of init_physfs: the archives among the files
      the root directory lists, in listing order. */
  method FindArchives(files: seq<string>) returns (archives: seq<string>)
    ensures forall a :: a in archives ==> a in files && IsArchiveName(a)
    ensures forall f :: f in files && IsArchiveName(f) ==> f in archives
    ensures archives == ArchivesOf(files)
  {
    archives := [];
    var i := 0;
    while i < |files|
      invariant 0 <= i <= |files|
      invariant archives == ArchivesOf(files[..i])
    {
      assert files[..i + 1] == files[..i] + [files[i]];
      if IsArchiveName(files[i]) {
        archives := archives + [files[i]];
      }
      i := i + 1;
    }
    assert files[..i] == files;
    ArchivesOfMembers(files);
  }

  /** The archives of a listing, in order. */
  function ArchivesOf(files: seq<string>): seq<string> {
    if files == [] then []
    else ArchivesOf(files[..|files| - 1]) + (if IsArchiveName(files[|files| - 1]) then [files[|files| - 1]] else [])
  }

  lemma {:induction false} ArchivesOfMembers(files: seq<string>)
    ensures forall a :: a in ArchivesOf(files) <==> a in files && IsArchiveName(a)
  {
    if files != [] {
      ArchivesOfMembers(files[..|files| - 1]);
      assert files == files[..|files| - 1] + [files[|files| - 1]];
    }
  }

  /** The first screen main pushes. */
  datatype StartScreen = TitleScreen | WorldMap(level: string) | GameSession(level: string)

  /** No start level: the title screen. A start level longer than four
      characters ending in ".stwm": a world map. Anything else: a level. */
  function FirstScreen(startLevel: string): (screen: StartScreen)
    ensures startLevel == [] <==> screen == TitleScreen
    ensures screen.WorldMap? <==> |startLevel| > 4 && startLevel[|startLevel| - 5..] == ".stwm"
    ensures screen != TitleScreen ==> screen.level == startLevel
  {
    if startLevel == [] then TitleScreen
    else if |startLevel| > 4 && startLevel[|startLevel| - 5..] == ".stwm" then WorldMap(startLevel)
    else GameSession(startLevel)
  }

  /** Any path ending in ".stwm" starts a world map, every other non-empty
      one a game session. */
  lemma WorldMapSuffix(base: string)
    ensures FirstScreen(base + ".stwm") == WorldMap(base + ".stwm")
    ensures FirstScreen(base + ".stw") == GameSession(base + ".stw")
  {
    var s := base + ".stwm";
    assert s[|s| - 5..] == ".stwm";
    var t := base + ".stw";
    if |t| > 4 {
      assert t[|t| - 1] == 'w';
      assert t[|t| - 5..][4] == 'w';
    }
  }
}
