/** What the generated command line promises, stated on the model: the fixed
    frame, the presence and order of every option, the environment and
    directory options, the payload, and how the list editors affect the
    command. */
module CommandProperties {
  import opened Config
  import opened Flags
  import opened Command
  import opened CommandTokens
  import opened Edits

  // ---------------------------------------------------------------------
  // The frame: `isolate`, the options in order, `--run`, the payload.

  /** The tokens of the command end with `--run`, and every other option
      precedes it in the emission order. */
  lemma RunIsLastOption(c: IsolateConfig)
    ensures |Tokens(c)| > 0 && Tokens(c)[|Tokens(c)| - 1] == Switch(Run)
    ensures forall i :: 0 <= i < |Tokens(c)| - 1 ==> Rank(Tokens(c)[i].flag) < Rank(Run)
  {
    TokensEndWithRun(c);
  }

  /** `--run` occurs exactly once, whatever the configuration. */
  lemma RunOccursOnce(c: IsolateConfig)
    ensures Select(Tokens(c), Run) == [Switch(Run)]
  {
    SelectIs(c, Run, [Switch(Run)]);
  }

  /** The options text ends with ` --run` (`Lead(Run)`, see RunLead). */
  lemma OptionsEndWithRun(c: IsolateConfig)
    ensures |Join(Tokens(c))| >= |Lead(Run)| && Join(Tokens(c))[|Join(Tokens(c))| - |Lead(Run)|..] == Lead(Run)
  {
    RunIsLastOption(c);
    JoinEndsWith(Tokens(c), Run);
  }

  /** The command is `isolate`, the options (ending with ` --run`), then the
      payload; it always starts with `isolate` and the payload follows
      `--run` directly. */
  lemma CommandFrame(c: IsolateConfig)
    ensures CommandLine(c) == "isolate" + Join(Tokens(c)) + Payload(c)
    ensures |CommandLine(c)| >= 7 && CommandLine(c)[..7] == "isolate"
    ensures |Join(Tokens(c))| >= |Lead(Run)| && Join(Tokens(c))[|Join(Tokens(c))| - |Lead(Run)|..] == Lead(Run)
  {
    CommandLineTokens(c);
    OptionsEndWithRun(c);
    StartsWithIsolate(CommandLine(c), Join(Tokens(c)), Payload(c));
  }

  lemma StartsWithIsolate(s: string, options: string, payload: string)
    requires s == "isolate" + options + payload
    ensures |s| >= 7 && s[..7] == "isolate"
  {
  }

  /** With a program given, the command ends with ` --run -- PROGRAM`, then
      one space and the arguments exactly when arguments are given. */
  lemma ProgramTail(c: IsolateConfig)
    requires c.program != ""
    ensures var tail := " --run -- " + c.program + (if c.arguments != "" then " " + c.arguments else "");
      |CommandLine(c)| >= |tail| && CommandLine(c)[|CommandLine(c)| - |tail|..] == tail
  {
    OptionsLineEndsWithRun(c);
    LineTail(CommandLine(c), OptionsLine(c), c.program, c.arguments);
  }

  /** The options line ends with the `--run` option. */
  lemma OptionsLineEndsWithRun(c: IsolateConfig)
    ensures |OptionsLine(c)| >= |Lead(Run)|
    ensures OptionsLine(c)[|OptionsLine(c)| - |Lead(Run)|..] == Lead(Run)
  {
    var o := OptionsLine(c);
    assert o == o[..|o| - |Lead(Run)|] + Lead(Run);
  }

  /** A line made of options ending in `--run` and a program payload ends
      with ` --run -- PROGRAM[ ARGS]`. */
  lemma LineTail(s: string, o: string, program: string, arguments: string)
    requires |o| >= |Lead(Run)| && o[|o| - |Lead(Run)|..] == Lead(Run)
    requires program != ""
    requires s == o + (" -- " + program + (if arguments != "" then " " + arguments else ""))
    ensures var tail := " --run -- " + program + (if arguments != "" then " " + arguments else "");
      |s| >= |tail| && s[|s| - |tail|..] == tail
  {
    var args := if arguments != "" then " " + arguments else "";
    RunLead();
    assert s == o[..|o| - |Lead(Run)|] + (" --run -- " + program + args) by {
      assert o == o[..|o| - |Lead(Run)|] + " --run";
    }
  }

  /** Without a program the arguments never reach the command: changing them
      changes nothing. */
  lemma ArgumentsNeedProgram(c: IsolateConfig, args: string)
    requires c.program == ""
    ensures CommandLine(c.(arguments := args)) == CommandLine(c)
    ensures CommandLine(c) == OptionsLine(c)
  {
    SameOptionsLine(c, c.(arguments := args));
    AppendNil(OptionsLine(c));
  }

  /** The options line does not depend on the program or its arguments. */
  lemma OptionsIgnorePayload(c: IsolateConfig, program: string, args: string)
    ensures OptionsLine(c.(program := program, arguments := args)) == OptionsLine(c)
  {
    SameOptionsLine(c, c.(program := program, arguments := args));
  }

  // ---------------------------------------------------------------------
  // Order and shape of the option tokens.

  /** Two options appear in the command in their emission order: a token of
      an earlier option always stands before a token of a later one. */
  lemma OptionsInOrder(c: IsolateConfig)
    ensures forall i, j ::
      (0 <= i < |Tokens(c)| && 0 <= j < |Tokens(c)| && Rank(Tokens(c)[i].flag) < Rank(Tokens(c)[j].flag)) ==> i < j
  {
    TokensOrdered(c);
    OrderedPrecedes(Tokens(c));
  }

  /** Every environment option precedes `--full-env`. */
  lemma EnvBeforeFullEnv(c: IsolateConfig)
    ensures Precedes(Tokens(c), Env, FullEnv)
  {
    TokensPrecede(c, Env, FullEnv);
  }

  /** `--cg` precedes `--cg-mem` when both are present. */
  lemma CgBeforeCgMem(c: IsolateConfig)
    ensures Precedes(Tokens(c), Cg, CgMem)
  {
    TokensPrecede(c, Cg, CgMem);
  }

  /** A token is well formed when a valued option carries a non-empty value
      and a switch is an option without one. */
  predicate WellFormed(t: Token)
  {
    match t
    case Valued(f, a) => TakesValue(f) && a != ""
    case Switch(f) => !TakesValue(f)
  }

  lemma {:induction false} EnvTokensWellFormed(envs: seq<EnvVar>)
    ensures forall i :: 0 <= i < |EnvTokens(envs)| ==> WellFormed(EnvTokens(envs)[i])
    decreases |envs|
  {
    if envs != [] {
      EnvTokensWellFormed(envs[..|envs| - 1]);
    }
  }

  lemma {:induction false} DirTokensWellFormed(dirs: seq<Directory>)
    ensures forall i :: 0 <= i < |DirTokens(dirs)| ==> WellFormed(DirTokens(dirs)[i])
    decreases |dirs|
  {
    if dirs != [] {
      DirTokensWellFormed(dirs[..|dirs| - 1]);
    }
  }

  /** No option is ever emitted with an empty value or a placeholder: every
      valued option carries the non-empty text of its field, every switch
      stands alone. */
  lemma TokensWellFormed(c: IsolateConfig)
    ensures forall i :: 0 <= i < |Tokens(c)| ==> WellFormed(Tokens(c)[i])
  {
    forall g: Flag, i | 0 <= i < |Pieces(c)(g)|
      ensures WellFormed(Pieces(c)(g)[i])
    {
      PieceWellFormed(c, g);
    }
    GatherAll(Pieces(c), FlagCount, WellFormed);
  }

  lemma PieceWellFormed(c: IsolateConfig, f: Flag)
    ensures forall i :: 0 <= i < |Piece(c, f)| ==> WellFormed(Piece(c, f)[i])
  {
    if f == Env {
      EnvTokensWellFormed(c.envVars);
    } else if f == Dir {
      DirTokensWellFormed(c.directories);
    }
  }

  // ---------------------------------------------------------------------
  // The scalar options.

  /** The options backed by a single field of the configuration. */
  predicate Scalar(f: Flag)
  {
    !(f.Env? || f.Dir? || f.Run?)
  }

  /** The text field behind a scalar option that takes a value. */
  function TextField(c: IsolateConfig, f: Flag): string
    requires Scalar(f) && TakesValue(f)
  {
    match f
    case BoxId => c.boxId
    case Meta => c.metaFile
    case Stdin => c.stdin
    case Stdout => c.stdout
    case Stderr => c.stderr
    case Chdir => c.chdir
    case Mem => c.memory
    case Time => c.time
    case WallTime => c.wallTime
    case ExtraTime => c.extraTime
    case Stack => c.stack
    case OpenFiles => c.openFiles
    case Fsize => c.fileSize
    case Quota => c.quota
    case Core => c.coreSize
    case Processes => c.processes
    case CgMem => c.cgMem
  }

  /** The boolean field behind a scalar switch. */
  function BoolField(c: IsolateConfig, f: Flag): bool
    requires Scalar(f) && !TakesValue(f)
  {
    match f
    case Verbose => c.verbose
    case Silent => c.silent
    case FullEnv => c.fullEnv
    case NoDefaultDirs => c.noDefaultDirs
    case Cg => c.enableCg
    case ShareNet => c.shareNet
    case InheritFds => c.inheritFds
    case SpecialFiles => c.specialFiles
  }

  /** A scalar option with a value appears exactly once, carrying its field's
      text verbatim, when that field is non-empty, and not at all otherwise. */
  lemma ScalarValue(c: IsolateConfig, f: Flag)
    requires Scalar(f) && TakesValue(f)
    ensures TextField(c, f) != "" ==> Select(Tokens(c), f) == [Valued(f, TextField(c, f))]
    ensures TextField(c, f) == "" ==> Select(Tokens(c), f) == []
  {
    SelectTokens(c, f);
  }

  /** A scalar switch appears exactly once when its field is set and not at
      all otherwise. */
  lemma ScalarSwitch(c: IsolateConfig, f: Flag)
    requires Scalar(f) && !TakesValue(f)
    ensures BoolField(c, f) ==> Select(Tokens(c), f) == [Switch(f)]
    ensures !BoolField(c, f) ==> Select(Tokens(c), f) == []
  {
    SelectTokens(c, f);
  }

  /** The text of every option token occurs in the command line. */
  lemma TokensInCommand(c: IsolateConfig)
    ensures forall i :: 0 <= i < |Tokens(c)| ==> Contains(CommandLine(c), Render(Tokens(c)[i]))
  {
    CommandLineTokens(c);
    forall i | 0 <= i < |Tokens(c)|
      ensures Contains(CommandLine(c), Render(Tokens(c)[i]))
    {
      JoinContains(Tokens(c), i);
      ContainsWithin("isolate", Join(Tokens(c)), Payload(c), Render(Tokens(c)[i]));
    }
  }

  /** A scalar option with a non-empty field shows up in the command line as
      ` --name=VALUE`, with the field's text verbatim. */
  lemma ScalarValueInCommand(c: IsolateConfig, f: Flag)
    requires Scalar(f) && TakesValue(f) && TextField(c, f) != ""
    ensures Contains(CommandLine(c), Lead(f) + TextField(c, f))
  {
    ScalarValue(c, f);
    var i := SelectedIndex(Tokens(c), f);
    TokensInCommand(c);
  }

  /** A token picked out by Select stands somewhere in the list. */
  lemma {:induction false} SelectedIndex(ts: seq<Token>, f: Flag) returns (i: int)
    requires |Select(ts, f)| == 1
    ensures 0 <= i < |ts| && ts[i] == Select(ts, f)[0]
    decreases |ts|
  {
    var init := ts[..|ts| - 1];
    if ts[|ts| - 1].flag == f && |Select(init, f)| == 0 {
      i := |ts| - 1;
    } else {
      i := SelectedIndex(init, f);
    }
  }

  // ---------------------------------------------------------------------
  // The default configuration.

  /** The configuration the page starts with compiles to
      `isolate --box-id=0 --run`. */
  lemma DefaultCommand()
    ensures CommandLine(DefaultConfig()) == "isolate --box-id=0 --run"
  {
    var c := DefaultConfig();
    var basic := BasicOptions(c, "isolate");
    assert basic == "isolate --box-id=0";
    assert Limits(c, basic) == basic;
    assert Environment(c, basic) == basic;
    assert Directories(c, basic) == basic;
    assert ControlGroups(c, basic) == basic;
    assert SpecialOptions(c, basic) == basic;
  }

  // ---------------------------------------------------------------------
  // The environment and directory options.

  /** The environment entries that have a name, in list order. */
  function NamedEnvs(envs: seq<EnvVar>): (r: seq<EnvVar>)
    ensures forall i :: 0 <= i < |r| ==> r[i].key != ""
  {
    if envs == [] then []
    else NamedEnvs(envs[..|envs| - 1]) + (if envs[|envs| - 1].key != "" then [envs[|envs| - 1]] else [])
  }

  /** The directory rules that have an inside path, in list order. */
  function NamedDirs(dirs: seq<Directory>): (r: seq<Directory>)
    ensures forall i :: 0 <= i < |r| ==> r[i].inside != ""
  {
    if dirs == [] then []
    else NamedDirs(dirs[..|dirs| - 1]) + (if dirs[|dirs| - 1].inside != "" then [dirs[|dirs| - 1]] else [])
  }

  lemma {:induction false} EnvTokensByEntry(envs: seq<EnvVar>)
    ensures |EnvTokens(envs)| == |NamedEnvs(envs)|
    ensures forall i :: 0 <= i < |EnvTokens(envs)| ==> EnvTokens(envs)[i] == Valued(Env, EnvArg(NamedEnvs(envs)[i]))
    decreases |envs|
  {
    if envs != [] {
      EnvTokensByEntry(envs[..|envs| - 1]);
    }
  }

  lemma {:induction false} DirTokensByEntry(dirs: seq<Directory>)
    ensures |DirTokens(dirs)| == |NamedDirs(dirs)|
    ensures forall i :: 0 <= i < |DirTokens(dirs)| ==> DirTokens(dirs)[i] == Valued(Dir, DirArg(NamedDirs(dirs)[i]))
    decreases |dirs|
  {
    if dirs != [] {
      DirTokensByEntry(dirs[..|dirs| - 1]);
    }
  }


  /** The `--env` options of the command: one per entry with a name, in list
      order, carrying `NAME` or, when a value is given, `NAME=VALUE`; entries
      without a name contribute nothing. */
  lemma EnvOptions(c: IsolateConfig)
    ensures |Select(Tokens(c), Env)| == |NamedEnvs(c.envVars)|
    ensures forall i :: 0 <= i < |NamedEnvs(c.envVars)| ==>
      var e := NamedEnvs(c.envVars)[i];
      Select(Tokens(c), Env)[i] == Valued(Env, if e.value != "" then e.key + "=" + e.value else e.key)
  {
    EnvSelected(c);
    EnvTokensByEntry(c.envVars);
    var ts, named := Select(Tokens(c), Env), NamedEnvs(c.envVars);
    forall i | 0 <= i < |named|
      ensures ts[i] == Valued(Env, EnvArg(named[i]))
    {
    }
  }


  /** The `--dir` options of the command: one per rule with an inside path,
      in list order, carrying `INSIDE`, then `=OUTSIDE` when an outside path
      is given, then `:OPTIONS` when options are given; rules without an
      inside path contribute nothing. */
  lemma DirOptions(c: IsolateConfig)
    ensures |Select(Tokens(c), Dir)| == |NamedDirs(c.directories)|
    ensures forall i :: 0 <= i < |NamedDirs(c.directories)| ==>
      var d := NamedDirs(c.directories)[i];
      Select(Tokens(c), Dir)[i] ==
        Valued(Dir, d.inside + (if d.outside != "" then "=" + d.outside else "")
                             + (if d.options != "" then ":" + d.options else ""))
  {
    DirSelected(c);
    DirTokensByEntry(c.directories);
    var ts, named := Select(Tokens(c), Dir), NamedDirs(c.directories);
    forall i | 0 <= i < |named|
      ensures ts[i] == Valued(Dir, DirArg(named[i]))
    {
    }
  }

  /** `--cg-mem` follows the `cgMem` field alone: it is emitted whenever the
      field is non-empty, whether control groups are enabled or not. */
  lemma CgMemIndependentOfCg(c: IsolateConfig, enable: bool)
    ensures Select(Tokens(c.(enableCg := enable)), CgMem) == Select(Tokens(c), CgMem)
    ensures c.cgMem != "" ==> Select(Tokens(c), CgMem) == [Valued(CgMem, c.cgMem)]
    ensures c.cgMem == "" ==> Select(Tokens(c), CgMem) == []
  {
    SelectIs(c, CgMem, Opt(CgMem, c.cgMem));
    SelectIs(c.(enableCg := enable), CgMem, Opt(CgMem, c.cgMem));
  }

  // ---------------------------------------------------------------------
  // The list editors and the command.

  lemma EnvTextAppend(a: seq<EnvVar>, b: seq<EnvVar>)
    ensures EnvText(a + b) == EnvText(a) + EnvText(b)
  {
    ConcatAppend(a, b, EnvEntryText);
  }


  lemma DirTextAppend(a: seq<Directory>, b: seq<Directory>)
    ensures DirText(a + b) == DirText(a) + DirText(b)
  {
    ConcatAppend(a, b, DirEntryText);
  }


  /** The options line, group by group, of two configurations that agree on
      every field except possibly their lists and payload, when both lists
      spell out alike. */
  lemma SameOptionsLine(c: IsolateConfig, c': IsolateConfig)
    requires c' == c.(envVars := c'.envVars, directories := c'.directories,
                      program := c'.program, arguments := c'.arguments)
    requires EnvText(c'.envVars) == EnvText(c.envVars)
    requires DirText(c'.directories) == DirText(c.directories)
    ensures OptionsLine(c') == OptionsLine(c)
  {
    var basic := BasicOptions(c, "isolate");
    assert BasicOptions(c', "isolate") == basic;
    var limits := Limits(c, basic);
    assert Limits(c', basic) == limits;
    var env := Environment(c, limits);
    assert Environment(c', limits) == env;
    var dirs := Directories(c, env);
    assert Directories(c', env) == dirs;
    var cg := ControlGroups(c, dirs);
    assert ControlGroups(c', dirs) == cg;
    assert SpecialOptions(c', cg) == SpecialOptions(c, cg);
  }

  /** Two configurations that differ at most in their environment lists
      compile alike when those lists spell out alike. */
  lemma SameEnvText(c: IsolateConfig, envs: seq<EnvVar>)
    requires EnvText(envs) == EnvText(c.envVars)
    ensures CommandLine(c.(envVars := envs)) == CommandLine(c)
  {
    SameOptionsLine(c, c.(envVars := envs));
  }

  lemma SameDirText(c: IsolateConfig, dirs: seq<Directory>)
    requires DirText(dirs) == DirText(c.directories)
    ensures CommandLine(c.(directories := dirs)) == CommandLine(c)
  {
    SameOptionsLine(c, c.(directories := dirs));
  }

  /** The entry `addEnvVar` appends has no name, so the command is unchanged
      until the user fills it in. */
  lemma AddEnvVarKeepsCommand(c: IsolateConfig)
    ensures CommandLine(AddEnvVar(c)) == CommandLine(c)
  {
    EnvTextAppend(c.envVars, [EnvVar("", "")]);
    AppendNil(EnvText(c.envVars));
    SameEnvText(c, c.envVars + [EnvVar("", "")]);
  }

  /** The rule `addDirectory` appends has no inside path, so the command is
      unchanged until the user fills it in. */
  lemma AddDirectoryKeepsCommand(c: IsolateConfig)
    ensures CommandLine(AddDirectory(c)) == CommandLine(c)
  {
    DirTextAppend(c.directories, [Directory("", "", "")]);
    AppendNil(DirText(c.directories));
    SameDirText(c, c.directories + [Directory("", "", "")]);
  }

  /** An entry without a name is inert: removing it leaves the command as it
      was. */
  lemma RemoveUnnamedEnvVarKeepsCommand(c: IsolateConfig, index: int)
    requires 0 <= index < |c.envVars| && c.envVars[index].key == ""
    ensures CommandLine(RemoveEnvVar(c, index)) == CommandLine(c)
  {
    var s := c.envVars;
    assert s == s[..index] + [s[index]] + s[index + 1..];
    EnvTextAppend(s[..index] + [s[index]], s[index + 1..]);
    EnvTextAppend(s[..index], [s[index]]);
    EnvTextAppend(s[..index], s[index + 1..]);
    assert EnvText([s[index]]) == "";
    AppendNil(EnvText(s[..index]));
    SameEnvText(c, s[..index] + s[index + 1..]);
  }

  /** A rule without an inside path is inert: removing it leaves the command
      as it was. */
  lemma RemoveUnnamedDirectoryKeepsCommand(c: IsolateConfig, index: int)
    requires 0 <= index < |c.directories| && c.directories[index].inside == ""
    ensures CommandLine(RemoveDirectory(c, index)) == CommandLine(c)
  {
    var s := c.directories;
    assert s == s[..index] + [s[index]] + s[index + 1..];
    DirTextAppend(s[..index] + [s[index]], s[index + 1..]);
    DirTextAppend(s[..index], [s[index]]);
    DirTextAppend(s[..index], s[index + 1..]);
    assert DirText([s[index]]) == "";
    AppendNil(DirText(s[..index]));
    SameDirText(c, s[..index] + s[index + 1..]);
  }
}
