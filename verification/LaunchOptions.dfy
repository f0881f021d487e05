/** The dashboard's launch options: parsed from a command line, and forwarded as the command line of a child process
    (dashboard/cli_option_parser.py, dashboard/cli_forwarding.py, dashboard/cli_option_values.py). */
module LaunchOptions {
  import opened Wrappers

  const PORT := "--port"
  const DATA_DIR := "--data-dir"
  const EXTENSION_ROOT := "--extension-root"
  const LOG := "--log"
  const HARNESS_FLAGS: seq<string> := ["--harness-executable", "--harness-config-dir", "--harness-settings-file"]

  const PORT_VARIABLE := "BAQYLAU_DASHBOARD_PORT"
  const DATA_VARIABLE := "BAQYLAU_DATA_DIR"
  const ROOTS_VARIABLE := "BAQYLAU_EXTENSION_ROOTS"

  /** What the operating system decides: how paths are resolved or made absolute, which texts are digits, and the
      character that separates paths in the environment. */
  datatype Host = Host(resolve: string -> string, absolute: string -> string, isDigits: string -> bool, separator: char)

  /** Both path functions give a path that they give again for itself. */
  ghost predicate Lawful(host: Host) {
    && (forall path :: host.resolve(path) != [] && host.resolve(host.resolve(path)) == host.resolve(path))
    && (forall path :: host.absolute(path) != [] && host.absolute(host.absolute(path)) == host.absolute(path))
  }

  datatype HarnessFlag = HarnessFlag(name: string, setting: string)

  datatype Options = Options(variables: map<string, string>, log: Option<string>, harness: seq<HarnessFlag>)

  const NO_OPTIONS := Options(map[], None, [])

  datatype UsageError =
    | UnknownOption(argument: string)
    | NeedsValue(name: string)
    | PortNeedsNumber(content: string)
    | RootHasSeparator
    | NeedsHarnessValue(name: string)

  // ----- Text -----

  function Find(text: string, c: char): (at: Option<nat>)
    ensures at.Some? ==> at.value < |text| && text[at.value] == c && c !in text[..at.value]
    ensures at.None? ==> c !in text
  {
    if text == [] then None
    else if text[0] == c then Some(0)
    else
      var rest := Find(text[1..], c);
      if rest.None? then None
      else
        assert text[..rest.value + 1] == [text[0]] + text[1..][..rest.value];
        Some(rest.value + 1)
  }

  function SplitAll(text: string, c: char): (parts: seq<string>)
    ensures parts != []
    decreases |text|
  {
    var at := Find(text, c);
    if at.None? then [text] else [text[..at.value]] + SplitAll(text[at.value + 1..], c)
  }

  function Join(parts: seq<string>, c: char): string
    requires parts != []
  {
    if |parts| == 1 then parts[0] else Join(parts[..|parts| - 1], c) + [c] + parts[|parts| - 1]
  }

  lemma {:induction false} FindIn(left: string, right: string, c: char)
    requires c !in left
    ensures Find(left + [c] + right, c) == Some(|left|)
  {
    var text := left + [c] + right;
    if left == [] {
      assert text[0] == c;
    } else {
      assert text[1..] == left[1..] + [c] + right;
      FindIn(left[1..], right, c);
    }
  }

  /** The parts of a text with a known first separator. */
  lemma {:induction false} SplitFirst(left: string, c: char, right: string)
    requires c !in left
    ensures SplitAll(left + [c] + right, c) == [left] + SplitAll(right, c)
  {
    var all := left + [c] + right;
    FindIn(left, right, c);
    assert all[..|left|] == left && all[|left| + 1..] == right;
  }

  lemma {:induction false} CutAt(text: string, at: nat, c: char, part: string)
    requires at < |text| && text[at] == c
    ensures text == text[..at] + [c] + text[at + 1..]
    ensures text + [c] + part == text[..at] + [c] + (text[at + 1..] + [c] + part)
  {
  }

  lemma {:induction false} SplitAppend(text: string, part: string, c: char)
    requires c !in part
    ensures SplitAll(text + [c] + part, c) == SplitAll(text, c) + [part]
    decreases |text|
  {
    var at := Find(text, c);
    if at.None? {
      SplitFirst(text, c, part);
    } else {
      var left, right := text[..at.value], text[at.value + 1..];
      CutAt(text, at.value, c, part);
      SplitFirst(left, c, right);
      SplitFirst(left, c, right + [c] + part);
      SplitAppend(right, part, c);
      Regroup([left], SplitAll(right, c), [part]);
    }
  }

  // ----- Parsing -----

  predicate IsKnown(name: string) {
    name == PORT || name == DATA_DIR || name == EXTENSION_ROOT || name == LOG || name in HARNESS_FLAGS
  }

  datatype Split = Split(name: string, content: string)

  function SplitOption(argument: string): Result<Split, UsageError> {
    var at := Find(argument, '=');
    var name := if at.Some? then argument[..at.value] else argument;
    var content := if at.Some? then argument[at.value + 1..] else "";
    if IsKnown(name) then Success(Split(name, content)) else Failure(UnknownOption(argument))
  }

  datatype Taken = Taken(name: string, content: string, remaining: seq<string>)

  /** The next option and its value, which stands after the equals sign or in the next argument. */
  function NextOption(remaining: seq<string>): (taken: Result<Taken, UsageError>)
    requires remaining != []
    ensures taken.Success? ==>
      IsKnown(taken.value.name) && taken.value.content != [] && |taken.value.remaining| < |remaining|
  {
    match SplitOption(remaining[0])
    case Failure(error) => Failure(error)
    case Success(split) =>
      var rest := remaining[1..];
      var content := if split.content == [] && rest != [] then rest[0] else split.content;
      var left := if split.content == [] && rest != [] then rest[1..] else rest;
      if content == [] then Failure(NeedsValue(split.name)) else Success(Taken(split.name, content, left))
  }

  function ApplyRoot(host: Host, options: Options, content: string): Result<Options, UsageError> {
    var path := host.absolute(content);
    if host.separator in path then Failure(RootHasSeparator)
    else
      var selected := if ROOTS_VARIABLE in options.variables
        then options.variables[ROOTS_VARIABLE] + [host.separator] + path else path;
      Success(options.(variables := options.variables[ROOTS_VARIABLE := selected]))
  }

  function HarnessSetting(host: Host, name: string, content: string): Result<HarnessFlag, UsageError> {
    var at := Find(content, '=');
    if at.None? || at.value == 0 || at.value + 1 == |content| then Failure(NeedsHarnessValue(name))
    else Success(HarnessFlag(name, content[..at.value] + "=" + host.absolute(content[at.value + 1..])))
  }

  function ApplyOption(host: Host, options: Options, name: string, content: string): Result<Options, UsageError>
    requires IsKnown(name)
  {
    if name == LOG then Success(options.(log := Some(host.resolve(content))))
    else if name in HARNESS_FLAGS then
      match HarnessSetting(host, name, content)
      case Failure(error) => Failure(error)
      case Success(flag) => Success(options.(harness := options.harness + [flag]))
    else if name == EXTENSION_ROOT then ApplyRoot(host, options, content)
    else if name == PORT then
      if host.isDigits(content) then Success(options.(variables := options.variables[PORT_VARIABLE := content]))
      else Failure(PortNeedsNumber(content))
    else Success(options.(variables := options.variables[DATA_VARIABLE := host.resolve(content)]))
  }

  function ParseFrom(host: Host, options: Options, remaining: seq<string>): Result<Options, UsageError>
    decreases |remaining|
  {
    if remaining == [] then Success(options)
    else
      match NextOption(remaining)
      case Failure(error) => Failure(error)
      case Success(taken) =>
        match ApplyOption(host, options, taken.name, taken.content)
        case Failure(error) => Failure(error)
        case Success(next) => ParseFrom(host, next, taken.remaining)
  }

  function Parse(host: Host, arguments: seq<string>): Result<Options, UsageError> {
    ParseFrom(host, NO_OPTIONS, arguments)
  }

  class ParsedOptions {
    var variables: map<string, string>
    var log: Option<string>
    var harness: seq<HarnessFlag>

    function View(): Options
      reads this
    {
      Options(variables, log, harness)
    }

    constructor ()
      ensures View() == NO_OPTIONS
    {
      variables, log, harness := map[], None, [];
    }

    /** Fill the field of one option; None stands for no error. */
    method Apply(host: Host, name: string, content: string) returns (error: Option<UsageError>)
      requires IsKnown(name)
      modifies this
      ensures error.None? ==> ApplyOption(host, old(View()), name, content) == Success(View())
      ensures error.Some? ==> ApplyOption(host, old(View()), name, content) == Failure(error.value)
    {
      if name == LOG {
        log := Some(host.resolve(content));
      } else if name in HARNESS_FLAGS {
        var flag := HarnessSetting(host, name, content);
        if flag.Failure? {
          return Some(flag.error);
        }
        harness := harness + [flag.value];
      } else if name == EXTENSION_ROOT {
        var path := host.absolute(content);
        if host.separator in path {
          return Some(RootHasSeparator);
        }
        var selected := if ROOTS_VARIABLE in variables then variables[ROOTS_VARIABLE] + [host.separator] + path else path;
        variables := variables[ROOTS_VARIABLE := selected];
      } else if name == PORT {
        if !host.isDigits(content) {
          return Some(PortNeedsNumber(content));
        }
        variables := variables[PORT_VARIABLE := content];
      } else {
        variables := variables[DATA_VARIABLE := host.resolve(content)];
      }
      return None;
    }
  }

  method ParseOptions(host: Host, arguments: seq<string>) returns (parsed: Result<Options, UsageError>)
    ensures parsed == Parse(host, arguments)
  {
    var options := new ParsedOptions();
    var remaining := arguments;
    while remaining != []
      invariant ParseFrom(host, options.View(), remaining) == Parse(host, arguments)
      invariant fresh(options)
      decreases |remaining|
    {
      var taken := NextOption(remaining);
      if taken.Failure? {
        return Failure(taken.error);
      }
      var error := options.Apply(host, taken.value.name, taken.value.content);
      if error.Some? {
        return Failure(error.value);
      }
      remaining := taken.value.remaining;
    }
    return Success(options.View());
  }

  // ----- What is written -----

  /** An option with its value, as one argument or as two. */
  function Written(flag: string, content: string, joined: bool): seq<string> {
    if joined then [flag + "=" + content] else [flag, content]
  }

  lemma {:induction false} FindsTheSign(flag: string, content: string, argument: string)
    requires '=' !in flag && argument == flag + "=" + content
    ensures Find(argument, '=') == Some(|flag|)
    ensures argument[..|flag|] == flag && argument[|flag| + 1..] == content
  {
    assert argument == flag + ['='] + content;
    FindIn(flag, content, '=');
  }

  lemma {:induction false} SplitAtSign(argument: string, flag: string, content: string, at: Option<nat>)
    requires IsKnown(flag) && Find(argument, '=') == at
    requires match at
             case None => flag == argument && content == ""
             case Some(i) => flag == argument[..i] && content == argument[i + 1..]
    ensures SplitOption(argument) == Success(Split(flag, content))
  {
  }

  lemma {:induction false} JoinedIsSplit(flag: string, content: string)
    requires IsKnown(flag)
    ensures SplitOption(flag + "=" + content) == Success(Split(flag, content))
    ensures SplitOption(flag) == Success(Split(flag, ""))
  {
    KnownHasNoEquals(flag);
    FindsTheSign(flag, content, flag + "=" + content);
    SplitAtSign(flag + "=" + content, flag, content, Some(|flag|));
    SplitAtSign(flag, flag, "", None);
  }

  lemma {:induction false} FirstOption(flag: string, content: string, joined: bool, rest: seq<string>)
    requires IsKnown(flag) && content != []
    ensures NextOption(Written(flag, content, joined) + rest) == Success(Taken(flag, content, rest))
  {
    JoinedIsSplit(flag, content);
    var all := Written(flag, content, joined) + rest;
    if joined {
      assert all[1..] == rest;
    } else {
      assert all[1..][0] == content && all[1..][1..] == rest;
    }
  }

  lemma {:induction false} OptionIsApplied(
      host: Host, options: Options, flag: string, content: string, joined: bool, rest: seq<string>)
    requires IsKnown(flag) && content != []
    ensures var parsed := ParseFrom(host, options, Written(flag, content, joined) + rest);
            match ApplyOption(host, options, flag, content)
            case Failure(error) => parsed == Failure(error)
            case Success(next) => parsed == ParseFrom(host, next, rest)
  {
    FirstOption(flag, content, joined, rest);
  }

  /** The port and the data directory, in both written forms: a port of digits and the resolved directory go to the
      environment of the dashboard, and the rest of the command line is parsed behind them. */
  lemma {:induction false} VariablesAreSet(
      host: Host, options: Options, content: string, joined: bool, rest: seq<string>)
    requires content != []
    ensures ParseFrom(host, options, Written("--port", content, joined) + rest) ==
            if host.isDigits(content)
            then ParseFrom(host, options.(variables := options.variables["BAQYLAU_DASHBOARD_PORT" := content]), rest)
            else Failure(PortNeedsNumber(content))
    ensures ParseFrom(host, options, Written("--data-dir", content, joined) + rest) ==
            ParseFrom(host, options.(variables := options.variables["BAQYLAU_DATA_DIR" := host.resolve(content)]), rest)
  {
    NamesDiffer();
    OptionIsApplied(host, options, PORT, content, joined, rest);
    OptionIsApplied(host, options, DATA_DIR, content, joined, rest);
  }

  /** The log file and one more extension root, in both written forms. The roots stand behind each other, between
      separators; a root that has the separator in its path is refused. */
  lemma {:induction false} LogAndRootsAreSet(
      host: Host, options: Options, content: string, joined: bool, rest: seq<string>)
    requires content != []
    ensures ParseFrom(host, options, Written("--log", content, joined) + rest) ==
            ParseFrom(host, options.(log := Some(host.resolve(content))), rest)
    ensures var path, roots := host.absolute(content), options.variables;
            ParseFrom(host, options, Written("--extension-root", content, joined) + rest) ==
            if host.separator in path then Failure(RootHasSeparator)
            else
              ParseFrom(host, options.(variables := roots["BAQYLAU_EXTENSION_ROOTS" :=
                if "BAQYLAU_EXTENSION_ROOTS" in roots then roots["BAQYLAU_EXTENSION_ROOTS"] + [host.separator] + path
                else path]), rest)
  {
    NamesDiffer();
    OptionIsApplied(host, options, LOG, content, joined, rest);
    OptionIsApplied(host, options, EXTENSION_ROOT, content, joined, rest);
  }

  predicate IsHarnessName(flag: string) {
    flag == "--harness-executable" || flag == "--harness-config-dir" || flag == "--harness-settings-file"
  }

  /** A harness setting, in both written forms: the name of the harness before the first equals sign and an absolute path
      behind it are added to the settings; without a name or a path it is refused. */
  lemma {:induction false} HarnessIsSet(
      host: Host, options: Options, flag: string, harness: string, path: string, joined: bool, rest: seq<string>)
    requires IsHarnessName(flag) && '=' !in harness
    ensures ParseFrom(host, options, Written(flag, harness + "=" + path, joined) + rest) ==
            if harness == [] || path == [] then Failure(NeedsHarnessValue(flag))
            else
              ParseFrom(host, options.(harness := options.harness
                + [HarnessFlag(flag, harness + "=" + host.absolute(path))]), rest)
  {
    HarnessNamesDiffer(flag);
    SettingIsSplit(host, flag, harness, path);
    OptionIsApplied(host, options, flag, harness + "=" + path, joined, rest);
  }

  lemma {:induction false} SettingIsSplit(host: Host, flag: string, harness: string, path: string)
    requires '=' !in harness
    ensures HarnessSetting(host, flag, harness + "=" + path) ==
            if harness == [] || path == [] then Failure(NeedsHarnessValue(flag))
            else Success(HarnessFlag(flag, harness + "=" + host.absolute(path)))
  {
    var content := harness + "=" + path;
    assert content == harness + ['='] + path;
    FindIn(harness, path, '=');
    assert content[..|harness|] == harness && content[|harness| + 1..] == path;
  }

  lemma {:induction false} NamesDiffer()
    ensures IsKnown(PORT) && IsKnown(DATA_DIR) && IsKnown(EXTENSION_ROOT) && IsKnown(LOG)
    ensures PORT !in HARNESS_FLAGS && DATA_DIR !in HARNESS_FLAGS && EXTENSION_ROOT !in HARNESS_FLAGS && LOG !in HARNESS_FLAGS
    ensures LOG != PORT && LOG != DATA_DIR && LOG != EXTENSION_ROOT
    ensures EXTENSION_ROOT != PORT && EXTENSION_ROOT != DATA_DIR && PORT != DATA_DIR
  {
    assert |PORT| == 6 && |LOG| == 5 && |DATA_DIR| == 10 && |EXTENSION_ROOT| == 16;
    forall flag | flag in HARNESS_FLAGS
      ensures |flag| > 16
    {
      assert |HARNESS_FLAGS[0]| == 20 && |HARNESS_FLAGS[1]| == 20 && |HARNESS_FLAGS[2]| == 23;
    }
  }

  lemma {:induction false} HarnessNamesDiffer(flag: string)
    requires IsHarnessName(flag)
    ensures IsKnown(flag) && flag in HARNESS_FLAGS && flag != LOG
  {
    assert HARNESS_FLAGS[0] in HARNESS_FLAGS && HARNESS_FLAGS[1] in HARNESS_FLAGS && HARNESS_FLAGS[2] in HARNESS_FLAGS;
    assert |LOG| == 5;
  }

  predicate IsOptionName(flag: string) {
    flag == "--port" || flag == "--data-dir" || flag == "--extension-root" || flag == "--log" || IsHarnessName(flag)
  }

  lemma {:induction false} KnownNames(flag: string)
    ensures IsKnown(flag) <==> IsOptionName(flag)
  {
    assert HARNESS_FLAGS[0] in HARNESS_FLAGS && HARNESS_FLAGS[1] in HARNESS_FLAGS && HARNESS_FLAGS[2] in HARNESS_FLAGS;
  }

  lemma {:induction false} EmptyIsNoValue(flag: string, argument: string, rest: seq<string>)
    requires IsKnown(flag) && SplitOption(argument) == Success(Split(flag, "")) && (rest == [] || rest[0] == "")
    ensures NextOption([argument] + rest) == Failure(NeedsValue(flag))
  {
    assert ([argument] + rest)[1..] == rest;
  }

  lemma {:induction false} NoValueFails(host: Host, options: Options, flag: string, argument: string, rest: seq<string>)
    requires IsKnown(flag) && (argument == flag || argument == flag + "=") && (rest == [] || rest[0] == "")
    ensures ParseFrom(host, options, [argument] + rest) == Failure(NeedsValue(flag))
  {
    JoinedIsSplit(flag, "");
    assert flag + "=" + "" == flag + "=";
    EmptyIsNoValue(flag, argument, rest);
  }

  lemma {:induction false} UnknownFails(host: Host, options: Options, flag: string, rest: seq<string>)
    requires '=' !in flag && !IsKnown(flag)
    ensures ParseFrom(host, options, [flag] + rest) == Failure(UnknownOption(flag))
  {
    NotFound(flag, '=');
  }

  /** An option without a value, and a name that is no option, end the parse with their error; nothing written leaves the
      options as they are. */
  lemma {:induction false} OtherwiseItFails(
      host: Host, options: Options, flag: string, argument: string, rest: seq<string>)
    ensures ParseFrom(host, options, []) == Success(options)
    ensures IsOptionName(flag) && (argument == flag || argument == flag + "=") && (rest == [] || rest[0] == "") ==>
              ParseFrom(host, options, [argument] + rest) == Failure(NeedsValue(flag))
    ensures '=' !in flag && !IsOptionName(flag) ==> ParseFrom(host, options, [flag] + rest) == Failure(UnknownOption(flag))
  {
    KnownNames(flag);
    if IsOptionName(flag) && (argument == flag || argument == flag + "=") && (rest == [] || rest[0] == "") {
      NoValueFails(host, options, flag, argument, rest);
    }
    if '=' !in flag && !IsOptionName(flag) {
      UnknownFails(host, options, flag, rest);
    }
  }

  // ----- Forwarding -----

  function Repeat(flag: string, contents: seq<string>): seq<string> {
    if contents == [] then [] else Repeat(flag, contents[..|contents| - 1]) + [flag, contents[|contents| - 1]]
  }

  function VariableFlags(variables: map<string, string>, separator: char): seq<string> {
    (if PORT_VARIABLE in variables then [PORT, variables[PORT_VARIABLE]] else [])
    + (if DATA_VARIABLE in variables then [DATA_DIR, variables[DATA_VARIABLE]] else [])
    + (if ROOTS_VARIABLE in variables then Repeat(EXTENSION_ROOT, SplitAll(variables[ROOTS_VARIABLE], separator)) else [])
  }

  function HarnessFlags(harness: seq<HarnessFlag>): seq<string> {
    if harness == [] then []
    else HarnessFlags(harness[..|harness| - 1]) + [harness[|harness| - 1].name, harness[|harness| - 1].setting]
  }

  function Forwarded(options: Options, separator: char): seq<string> {
    VariableFlags(options.variables, separator)
    + (if options.log.Some? then [LOG, options.log.value] else [])
    + HarnessFlags(options.harness)
  }

  method ForwardedFlags(options: Options, separator: char) returns (flags: seq<string>)
    ensures flags == Forwarded(options, separator)
  {
    flags := [];
    if PORT_VARIABLE in options.variables {
      flags := flags + [PORT, options.variables[PORT_VARIABLE]];
    }
    if DATA_VARIABLE in options.variables {
      flags := flags + [DATA_DIR, options.variables[DATA_VARIABLE]];
    }
    if ROOTS_VARIABLE in options.variables {
      var roots := SplitAll(options.variables[ROOTS_VARIABLE], separator);
      var repeated := RepeatedFlag(EXTENSION_ROOT, roots);
      flags := flags + repeated;
    }
    assert flags == VariableFlags(options.variables, separator);
    if options.log.Some? {
      flags := flags + [LOG, options.log.value];
    }
    ghost var start := flags;
    for i := 0 to |options.harness|
      invariant flags == start + HarnessFlags(options.harness[..i])
    {
      assert options.harness[..i + 1][..i] == options.harness[..i];
      flags := flags + [options.harness[i].name, options.harness[i].setting];
    }
    assert options.harness[..|options.harness|] == options.harness;
  }

  method RepeatedFlag(flag: string, contents: seq<string>) returns (flags: seq<string>)
    ensures flags == Repeat(flag, contents)
  {
    flags := [];
    for i := 0 to |contents|
      invariant flags == Repeat(flag, contents[..i])
    {
      assert contents[..i + 1][..i] == contents[..i];
      flags := flags + [flag, contents[i]];
    }
    assert contents[..|contents|] == contents;
  }

  // ----- The round trip -----

  /** The value is one that parsing gives: parsing it again changes nothing. */
  predicate GoodRoot(host: Host, root: string) {
    root != [] && host.absolute(root) == root && host.separator !in root
  }

  predicate GoodFlag(host: Host, flag: HarnessFlag) {
    && flag.name in HARNESS_FLAGS
    && HarnessSetting(host, flag.name, flag.setting) == Success(flag)
  }

  predicate GoodOptions(host: Host, options: Options) {
    && (forall name <- options.variables :: name == PORT_VARIABLE || name == DATA_VARIABLE || name == ROOTS_VARIABLE)
    && (PORT_VARIABLE in options.variables ==>
          options.variables[PORT_VARIABLE] != [] && host.isDigits(options.variables[PORT_VARIABLE]))
    && (DATA_VARIABLE in options.variables ==>
          options.variables[DATA_VARIABLE] != [] && host.resolve(options.variables[DATA_VARIABLE]) == options.variables[DATA_VARIABLE])
    && (ROOTS_VARIABLE in options.variables ==>
          && (forall root <- SplitAll(options.variables[ROOTS_VARIABLE], host.separator) :: GoodRoot(host, root))
          && Join(SplitAll(options.variables[ROOTS_VARIABLE], host.separator), host.separator) == options.variables[ROOTS_VARIABLE])
    && (options.log.Some? ==> options.log.value != [] && host.resolve(options.log.value) == options.log.value)
    && (forall flag <- options.harness :: GoodFlag(host, flag))
  }

  lemma {:induction false} HarnessIsGood(host: Host, name: string, content: string)
    requires Lawful(host) && name in HARNESS_FLAGS && HarnessSetting(host, name, content).Success?
    ensures GoodFlag(host, HarnessSetting(host, name, content).value)
  {
    var at := Find(content, '=').value;
    var path := host.absolute(content[at + 1..]);
    var setting := content[..at] + "=" + path;
    FindIn(content[..at], path, '=');
    assert setting[..at] == content[..at] && setting[at + 1..] == path;
  }

  lemma {:induction false} JoinAppend(parts: seq<string>, part: string, c: char)
    requires parts != []
    ensures Join(parts + [part], c) == Join(parts, c) + [c] + part
  {
    assert (parts + [part])[..|parts|] == parts;
  }

  lemma {:induction false} RootIsGood(host: Host, options: Options, content: string)
    requires Lawful(host) && GoodOptions(host, options) && ApplyRoot(host, options, content).Success?
    ensures GoodOptions(host, ApplyRoot(host, options, content).value)
  {
    var path := host.absolute(content);
    var next := ApplyRoot(host, options, content).value;
    if ROOTS_VARIABLE in options.variables {
      var before := options.variables[ROOTS_VARIABLE];
      SplitAppend(before, path, host.separator);
      JoinAppend(SplitAll(before, host.separator), path, host.separator);
    } else {
      assert SplitAll(path, host.separator) == [path];
    }
  }

  lemma {:induction false} ApplyIsGood(host: Host, options: Options, name: string, content: string)
    requires Lawful(host) && GoodOptions(host, options) && IsKnown(name) && content != []
    requires ApplyOption(host, options, name, content).Success?
    ensures GoodOptions(host, ApplyOption(host, options, name, content).value)
  {
    if name == LOG {
    } else if name in HARNESS_FLAGS {
      HarnessIsGood(host, name, content);
    } else if name == EXTENSION_ROOT {
      RootIsGood(host, options, content);
    }
  }

  lemma {:induction false} ParsedIsGood(host: Host, options: Options, remaining: seq<string>)
    requires Lawful(host) && GoodOptions(host, options) && ParseFrom(host, options, remaining).Success?
    ensures GoodOptions(host, ParseFrom(host, options, remaining).value)
    decreases |remaining|
  {
    if remaining != [] {
      var taken := NextOption(remaining).value;
      ApplyIsGood(host, options, taken.name, taken.content);
      ParsedIsGood(host, ApplyOption(host, options, taken.name, taken.content).value, taken.remaining);
    }
  }

  /** A flag with its value as the next argument. */
  lemma {:induction false} ParsePair(host: Host, options: Options, flag: string, content: string, rest: seq<string>)
    requires IsKnown(flag) && content != [] && ApplyOption(host, options, flag, content).Success?
    ensures ParseFrom(host, options, [flag, content] + rest) ==
            ParseFrom(host, ApplyOption(host, options, flag, content).value, rest)
  {
    KnownHasNoEquals(flag);
    var all := [flag, content] + rest;
    assert all[1..][0] == content && all[1..][1..] == rest;
    assert SplitOption(flag) == Success(Split(flag, ""));
  }

  lemma {:induction false} KnownHasNoEquals(flag: string)
    requires IsKnown(flag)
    ensures Find(flag, '=').None?
  {
    if flag in HARNESS_FLAGS {
      HarnessHasNoEquals(flag);
    } else {
      OwnHasNoEquals(flag);
    }
  }

  lemma {:induction false} OwnHasNoEquals(flag: string)
    requires flag == PORT || flag == DATA_DIR || flag == EXTENSION_ROOT || flag == LOG
    ensures Find(flag, '=').None?
  {
    if flag == PORT {
      NotFound(PORT, '=');
    } else if flag == DATA_DIR {
      NotFound(DATA_DIR, '=');
    } else if flag == EXTENSION_ROOT {
      NotFound(EXTENSION_ROOT, '=');
    } else {
      NotFound(LOG, '=');
    }
  }

  lemma {:induction false} HarnessHasNoEquals(flag: string)
    requires flag in HARNESS_FLAGS
    ensures Find(flag, '=').None?
  {
    var k: nat :| k < |HARNESS_FLAGS| && HARNESS_FLAGS[k] == flag;
    HarnessFlagIsPlain(k);
    NotFound(HARNESS_FLAGS[k], '=');
  }

  lemma {:induction false} HarnessFlagIsPlain(k: nat)
    requires k < |HARNESS_FLAGS|
    ensures '=' !in HARNESS_FLAGS[k]
  {
    if k == 0 {
      assert '=' !in HARNESS_FLAGS[0];
    } else if k == 1 {
      assert '=' !in HARNESS_FLAGS[1];
    } else {
      assert '=' !in HARNESS_FLAGS[2];
    }
  }

  lemma {:induction false} NotFound(text: string, c: char)
    requires c !in text
    ensures Find(text, c).None?
  {
  }

  lemma {:induction false} Regroup(a: seq<string>, b: seq<string>, c: seq<string>)
    ensures (a + b) + c == a + (b + c)
  {
  }

  function WithRoots(options: Options, roots: string): Options {
    options.(variables := options.variables[ROOTS_VARIABLE := roots])
  }

  lemma {:induction false} ParseOneRoot(host: Host, options: Options, root: string, rest: seq<string>)
    requires GoodRoot(host, root)
    ensures ParseFrom(host, options, [EXTENSION_ROOT, root] + rest) ==
            ParseFrom(host, ApplyRoot(host, options, root).value, rest)
  {
    assert ApplyOption(host, options, EXTENSION_ROOT, root) == ApplyRoot(host, options, root);
    ParsePair(host, options, EXTENSION_ROOT, root, rest);
  }

  lemma {:induction false} RootsGrow(host: Host, options: Options, before: seq<string>, last: string)
    requires before != [] && ROOTS_VARIABLE !in options.variables && GoodRoot(host, last)
    ensures ApplyRoot(host, WithRoots(options, Join(before, host.separator)), last) ==
            Success(WithRoots(options, Join(before + [last], host.separator)))
  {
    JoinAppend(before, last, host.separator);
    var next := WithRoots(options, Join(before, host.separator));
    var joined := Join(before + [last], host.separator);
    assert next.variables[ROOTS_VARIABLE := joined] == options.variables[ROOTS_VARIABLE := joined];
  }

  lemma {:induction false} RepeatStep(flag: string, before: seq<string>, last: string, rest: seq<string>)
    ensures Repeat(flag, before + [last]) + rest == Repeat(flag, before) + ([flag, last] + rest)
  {
    assert (before + [last])[..|before|] == before;
    Regroup(Repeat(flag, before), [flag, last], rest);
  }

  lemma {:induction false} ParseRoots(host: Host, options: Options, roots: seq<string>, rest: seq<string>)
    requires roots != [] && ROOTS_VARIABLE !in options.variables && forall root <- roots :: GoodRoot(host, root)
    ensures ParseFrom(host, options, Repeat(EXTENSION_ROOT, roots) + rest) ==
            ParseFrom(host, WithRoots(options, Join(roots, host.separator)), rest)
    decreases |roots|
  {
    var before, last := roots[..|roots| - 1], roots[|roots| - 1];
    assert roots == before + [last];
    assert last in roots && forall root <- before :: root in roots;
    RepeatStep(EXTENSION_ROOT, before, last, rest);
    if before == [] {
      ParseFirstRoot(host, options, last, rest);
    } else {
      ParseRoots(host, options, before, [EXTENSION_ROOT, last] + rest);
      ParseOneRoot(host, WithRoots(options, Join(before, host.separator)), last, rest);
      RootsGrow(host, options, before, last);
    }
  }

  lemma {:induction false} ParseFirstRoot(host: Host, options: Options, root: string, rest: seq<string>)
    requires ROOTS_VARIABLE !in options.variables && GoodRoot(host, root)
    ensures ParseFrom(host, options, Repeat(EXTENSION_ROOT, []) + ([EXTENSION_ROOT, root] + rest)) ==
            ParseFrom(host, WithRoots(options, Join([root], host.separator)), rest)
  {
    assert Repeat(EXTENSION_ROOT, []) + ([EXTENSION_ROOT, root] + rest) == [EXTENSION_ROOT, root] + rest;
    ParseOneRoot(host, options, root, rest);
  }

  function WithHarness(options: Options, harness: seq<HarnessFlag>): Options {
    options.(harness := options.harness + harness)
  }

  lemma {:induction false} ParseOneHarness(host: Host, options: Options, flag: HarnessFlag, rest: seq<string>)
    requires GoodFlag(host, flag)
    ensures ParseFrom(host, options, [flag.name, flag.setting] + rest) == ParseFrom(host, WithHarness(options, [flag]), rest)
  {
    SettingIsNotEmpty(host, flag);
    assert ApplyOption(host, options, flag.name, flag.setting) == Success(WithHarness(options, [flag]));
    ParsePair(host, options, flag.name, flag.setting, rest);
  }

  lemma {:induction false} HarnessStep(before: seq<HarnessFlag>, last: HarnessFlag, rest: seq<string>)
    ensures HarnessFlags(before + [last]) + rest == HarnessFlags(before) + ([last.name, last.setting] + rest)
  {
    assert (before + [last])[..|before|] == before;
    Regroup(HarnessFlags(before), [last.name, last.setting], rest);
  }

  lemma {:induction false} HarnessTwice(options: Options, before: seq<HarnessFlag>, last: HarnessFlag)
    ensures WithHarness(WithHarness(options, before), [last]) == WithHarness(options, before + [last])
  {
    assert (options.harness + before) + [last] == options.harness + (before + [last]);
  }

  lemma {:induction false} ParseHarness(host: Host, options: Options, harness: seq<HarnessFlag>, rest: seq<string>)
    requires forall flag <- harness :: GoodFlag(host, flag)
    ensures ParseFrom(host, options, HarnessFlags(harness) + rest) == ParseFrom(host, WithHarness(options, harness), rest)
    decreases |harness|
  {
    if harness == [] {
      assert HarnessFlags(harness) + rest == rest;
      assert options.harness + harness == options.harness;
    } else {
      var before, last := harness[..|harness| - 1], harness[|harness| - 1];
      assert harness == before + [last];
      assert last in harness && forall flag <- before :: flag in harness;
      HarnessStep(before, last, rest);
      ParseHarness(host, options, before, [last.name, last.setting] + rest);
      ParseOneHarness(host, WithHarness(options, before), last, rest);
      HarnessTwice(options, before, last);
    }
  }

  lemma {:induction false} SettingIsNotEmpty(host: Host, flag: HarnessFlag)
    requires GoodFlag(host, flag)
    ensures flag.setting != [] && IsKnown(flag.name) && flag.name != LOG
  {
  }

  function PortFlags(variables: map<string, string>): seq<string> {
    if PORT_VARIABLE in variables then [PORT, variables[PORT_VARIABLE]] else []
  }

  function DataFlags(variables: map<string, string>): seq<string> {
    if DATA_VARIABLE in variables then [DATA_DIR, variables[DATA_VARIABLE]] else []
  }

  function RootFlags(variables: map<string, string>, separator: char): seq<string> {
    if ROOTS_VARIABLE in variables then Repeat(EXTENSION_ROOT, SplitAll(variables[ROOTS_VARIABLE], separator)) else []
  }

  /** The options with one more variable, when it is set. */
  function WithVariable(options: Options, variables: map<string, string>, name: string): Options {
    if name in variables then options.(variables := options.variables[name := variables[name]]) else options
  }

  lemma {:induction false} ParsePort(host: Host, options: Options, start: Options, rest: seq<string>)
    requires GoodOptions(host, options)
    ensures ParseFrom(host, start, PortFlags(options.variables) + rest) ==
            ParseFrom(host, WithVariable(start, options.variables, PORT_VARIABLE), rest)
  {
    if PORT_VARIABLE in options.variables {
      ParsePair(host, start, PORT, options.variables[PORT_VARIABLE], rest);
    } else {
      assert [] + rest == rest;
    }
  }

  lemma {:induction false} ParseData(host: Host, options: Options, start: Options, rest: seq<string>)
    requires GoodOptions(host, options)
    ensures ParseFrom(host, start, DataFlags(options.variables) + rest) ==
            ParseFrom(host, WithVariable(start, options.variables, DATA_VARIABLE), rest)
  {
    if DATA_VARIABLE in options.variables {
      ParsePair(host, start, DATA_DIR, options.variables[DATA_VARIABLE], rest);
    } else {
      assert [] + rest == rest;
    }
  }

  lemma {:induction false} ParseAllRoots(host: Host, options: Options, start: Options, rest: seq<string>)
    requires GoodOptions(host, options) && ROOTS_VARIABLE !in start.variables
    ensures ParseFrom(host, start, RootFlags(options.variables, host.separator) + rest) ==
            ParseFrom(host, WithVariable(start, options.variables, ROOTS_VARIABLE), rest)
  {
    if ROOTS_VARIABLE in options.variables {
      ParseRoots(host, start, SplitAll(options.variables[ROOTS_VARIABLE], host.separator), rest);
    } else {
      assert [] + rest == rest;
    }
  }

  lemma {:induction false} AllVariables(host: Host, options: Options)
    requires GoodOptions(host, options)
    ensures var port := WithVariable(NO_OPTIONS, options.variables, PORT_VARIABLE);
            var data := WithVariable(port, options.variables, DATA_VARIABLE);
            && ROOTS_VARIABLE !in data.variables
            && WithVariable(data, options.variables, ROOTS_VARIABLE) == Options(options.variables, None, [])
  {
    var port := WithVariable(NO_OPTIONS, options.variables, PORT_VARIABLE);
    var data := WithVariable(port, options.variables, DATA_VARIABLE);
    assert WithVariable(data, options.variables, ROOTS_VARIABLE).variables == options.variables;
  }

  lemma {:induction false} GroupVariables(variables: map<string, string>, separator: char, rest: seq<string>)
    ensures VariableFlags(variables, separator) + rest ==
            PortFlags(variables) + (DataFlags(variables) + (RootFlags(variables, separator) + rest))
  {
    Regroup(PortFlags(variables) + DataFlags(variables), RootFlags(variables, separator), rest);
    Regroup(PortFlags(variables), DataFlags(variables), RootFlags(variables, separator) + rest);
  }

  /** The flags of the three variables set them again. */
  lemma {:induction false} ParseVariables(host: Host, options: Options, rest: seq<string>)
    requires GoodOptions(host, options)
    ensures ParseFrom(host, NO_OPTIONS, VariableFlags(options.variables, host.separator) + rest) ==
            ParseFrom(host, Options(options.variables, None, []), rest)
  {
    var variables := options.variables;
    GroupVariables(variables, host.separator, rest);
    AllVariables(host, options);
    var port := WithVariable(NO_OPTIONS, variables, PORT_VARIABLE);
    var roots := RootFlags(variables, host.separator) + rest;
    ParsePort(host, options, NO_OPTIONS, DataFlags(variables) + roots);
    ParseData(host, options, port, roots);
    ParseAllRoots(host, options, WithVariable(port, variables, DATA_VARIABLE), rest);
  }

  lemma {:induction false} ForwardedParses(host: Host, options: Options)
    requires GoodOptions(host, options)
    ensures Parse(host, Forwarded(options, host.separator)) == Success(options)
  {
    var log := if options.log.Some? then [LOG, options.log.value] else [];
    var variables := VariableFlags(options.variables, host.separator);
    var harness := HarnessFlags(options.harness);
    assert Forwarded(options, host.separator) == variables + (log + (harness + []));
    ParseVariables(host, options, log + (harness + []));
    var second := Options(options.variables, None, []);
    if options.log.Some? {
      ParsePair(host, second, LOG, options.log.value, harness + []);
    } else {
      assert log + (harness + []) == harness + [];
    }
    ParseHarness(host, Options(options.variables, options.log, []), options.harness, []);
    assert [] + options.harness == options.harness;
  }

  /** For every command line that parses, the child that gets the forwarded flags has the same options. */
  lemma {:induction false} ChildGetsTheSameOptions(host: Host, arguments: seq<string>)
    requires Lawful(host) && Parse(host, arguments).Success?
    ensures Parse(host, Forwarded(Parse(host, arguments).value, host.separator)) == Parse(host, arguments)
  {
    ParsedIsGood(host, NO_OPTIONS, arguments);
    ForwardedParses(host, Parse(host, arguments).value);
  }

  /** Forwarding depends on roots without the separator: options that came from elsewhere can name a root that the
      child reads as two. */
  lemma {:induction false} ForwardingSplitsRoots(host: Host)
    requires host.separator == ':'
    ensures Forwarded(Options(map[ROOTS_VARIABLE := "/a:/b"], None, []), host.separator) ==
            [EXTENSION_ROOT, "/a", EXTENSION_ROOT, "/b"]
  {
    SplitAppend("/a", "/b", ':');
    assert "/a" + [':'] + "/b" == "/a:/b";
    assert SplitAll("/a", ':') == ["/a"];
    assert SplitAll("/a:/b", ':') == ["/a", "/b"];
    assert Repeat(EXTENSION_ROOT, ["/a"]) == [EXTENSION_ROOT, "/a"];
  }
}
