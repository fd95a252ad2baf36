/** The command line seen as a list of option tokens: which tokens each
    option contributes, the whole list in emission order, and the proof that
    spelling the list out gives exactly the text the generator writes. */
module CommandTokens {
  import opened Config
  import opened Flags
  import opened Command

  /** A valued option that is present exactly when its field is non-empty. */
  function Opt(f: Flag, v: string): seq<Token>
  {
    if v != "" then [Valued(f, v)] else []
  }

  /** A switch that is present exactly when its field is set. */
  function Sw(f: Flag, b: bool): seq<Token>
  {
    if b then [Switch(f)] else []
  }

  /** What one environment entry contributes: nothing when it has no name. */
  function EnvPiece(e: EnvVar): seq<Token>
  {
    if e.key != "" then [Valued(Env, EnvArg(e))] else []
  }

  /** The `--env` tokens of a list of entries, in list order. */
  function EnvTokens(envs: seq<EnvVar>): seq<Token>
  {
    if envs == [] then [] else EnvTokens(envs[..|envs| - 1]) + EnvPiece(envs[|envs| - 1])
  }

  /** What one directory rule contributes: nothing when it has no inside path. */
  function DirPiece(d: Directory): seq<Token>
  {
    if d.inside != "" then [Valued(Dir, DirArg(d))] else []
  }

  /** The `--dir` tokens of a list of rules, in list order. */
  function DirTokens(dirs: seq<Directory>): seq<Token>
  {
    if dirs == [] then [] else DirTokens(dirs[..|dirs| - 1]) + DirPiece(dirs[|dirs| - 1])
  }

  /** The tokens option `f` contributes to the command of configuration `c`. */
  function Piece(c: IsolateConfig, f: Flag): seq<Token>
  {
    match f
    case BoxId => Opt(BoxId, c.boxId)
    case Meta => Opt(Meta, c.metaFile)
    case Stdin => Opt(Stdin, c.stdin)
    case Stdout => Opt(Stdout, c.stdout)
    case Stderr => Opt(Stderr, c.stderr)
    case Chdir => Opt(Chdir, c.chdir)
    case Verbose => Sw(Verbose, c.verbose)
    case Silent => Sw(Silent, c.silent)
    case Mem => Opt(Mem, c.memory)
    case Time => Opt(Time, c.time)
    case WallTime => Opt(WallTime, c.wallTime)
    case ExtraTime => Opt(ExtraTime, c.extraTime)
    case Stack => Opt(Stack, c.stack)
    case OpenFiles => Opt(OpenFiles, c.openFiles)
    case Fsize => Opt(Fsize, c.fileSize)
    case Quota => Opt(Quota, c.quota)
    case Core => Opt(Core, c.coreSize)
    case Processes => Opt(Processes, c.processes)
    case Env => EnvTokens(c.envVars)
    case FullEnv => Sw(FullEnv, c.fullEnv)
    case Dir => DirTokens(c.directories)
    case NoDefaultDirs => Sw(NoDefaultDirs, c.noDefaultDirs)
    case Cg => Sw(Cg, c.enableCg)
    case CgMem => Opt(CgMem, c.cgMem)
    case ShareNet => Sw(ShareNet, c.shareNet)
    case InheritFds => Sw(InheritFds, c.inheritFds)
    case SpecialFiles => Sw(SpecialFiles, c.specialFiles)
    case Run => [Switch(Run)]
  }

  /** The piece of every option, as one function. */
  function Pieces(c: IsolateConfig): Flag -> seq<Token>
  {
    f => Piece(c, f)
  }

  /** All option tokens of the command, `--run` included, in emission order. */
  function Tokens(c: IsolateConfig): seq<Token>
  {
    Gather(Pieces(c), FlagCount)
  }

  // ---------------------------------------------------------------------
  // Every token of an option's piece carries that option.

  lemma {:induction false} EnvTokensFlag(envs: seq<EnvVar>)
    ensures forall i :: 0 <= i < |EnvTokens(envs)| ==> EnvTokens(envs)[i].Valued? && EnvTokens(envs)[i].flag == Env
    decreases |envs|
  {
    if envs != [] {
      EnvTokensFlag(envs[..|envs| - 1]);
    }
  }

  lemma {:induction false} DirTokensFlag(dirs: seq<Directory>)
    ensures forall i :: 0 <= i < |DirTokens(dirs)| ==> DirTokens(dirs)[i].Valued? && DirTokens(dirs)[i].flag == Dir
    decreases |dirs|
  {
    if dirs != [] {
      DirTokensFlag(dirs[..|dirs| - 1]);
    }
  }

  lemma PiecesTagged(c: IsolateConfig)
    ensures Tagged(Pieces(c))
  {
    EnvTokensFlag(c.envVars);
    DirTokensFlag(c.directories);
  }

  /** Every option's tokens, picked out of the whole command, are exactly the
      tokens its own field or list contributes, and no other field or list
      adds to them. */
  lemma SelectTokens(c: IsolateConfig, f: Flag)
    ensures Select(Tokens(c), f) == Piece(c, f)
  {
    PiecesTagged(c);
    SelectGather(Pieces(c), FlagCount, f);
  }

  /** The `--env` tokens of the command are those of its list of entries. */
  lemma EnvSelected(c: IsolateConfig)
    ensures Select(Tokens(c), Env) == EnvTokens(c.envVars)
  {
    SelectIs(c, Env, EnvTokens(c.envVars));
  }

  /** The `--dir` tokens of the command are those of its list of rules. */
  lemma DirSelected(c: IsolateConfig)
    ensures Select(Tokens(c), Dir) == DirTokens(c.directories)
  {
    SelectIs(c, Dir, DirTokens(c.directories));
  }

  /** SelectTokens, for a piece already worked out. */
  lemma SelectIs(c: IsolateConfig, f: Flag, piece: seq<Token>)
    requires Piece(c, f) == piece
    ensures Select(Tokens(c), f) == piece
  {
    SelectTokens(c, f);
  }

  /** The tokens of the command end with `--run`, and every token before it
      belongs to an earlier option. */
  lemma TokensEndWithRun(c: IsolateConfig)
    ensures |Tokens(c)| > 0 && Tokens(c)[|Tokens(c)| - 1] == Switch(Run)
    ensures forall i :: 0 <= i < |Tokens(c)| - 1 ==> Rank(Tokens(c)[i].flag) < Rank(Run)
  {
    PiecesTagged(c);
    GatherEndsWithLast(Pieces(c), Run);
  }

  /** The options of the command appear in the fixed emission order. */
  lemma TokensOrdered(c: IsolateConfig)
    ensures Ordered(Tokens(c))
  {
    PiecesTagged(c);
    GatherOrdered(Pieces(c), FlagCount);
  }

  /** A token of an earlier option always stands before a token of a later one. */
  lemma TokensPrecede(c: IsolateConfig, f: Flag, g: Flag)
    requires Rank(f) < Rank(g)
    ensures Precedes(Tokens(c), f, g)
  {
    TokensOrdered(c);
    OrderedFlagsPrecede(Tokens(c), f, g);
  }

  // ---------------------------------------------------------------------
  // Spelling the tokens out gives the generator's text.

  lemma JoinOpt(f: Flag, v: string)
    ensures Join(Opt(f, v)) == OptText(f, v)
  {
    if v != "" {
      JoinOne(Valued(f, v));
    }
  }

  lemma JoinSw(f: Flag, b: bool)
    ensures Join(Sw(f, b)) == SwText(f, b)
  {
    if b {
      JoinOne(Switch(f));
    }
  }

  lemma {:induction false} JoinEnvTokens(envs: seq<EnvVar>)
    ensures Join(EnvTokens(envs)) == EnvText(envs)
    decreases |envs|
  {
    if envs != [] {
      var e := envs[|envs| - 1];
      JoinEnvTokens(envs[..|envs| - 1]);
      JoinAppend(EnvTokens(envs[..|envs| - 1]), EnvPiece(e));
      if e.key != "" {
        JoinOne(Valued(Env, EnvArg(e)));
      }
    }
  }

  lemma {:induction false} JoinDirTokens(dirs: seq<Directory>)
    ensures Join(DirTokens(dirs)) == DirText(dirs)
    decreases |dirs|
  {
    if dirs != [] {
      var d := dirs[|dirs| - 1];
      JoinDirTokens(dirs[..|dirs| - 1]);
      JoinAppend(DirTokens(dirs[..|dirs| - 1]), DirPiece(d));
      if d.inside != "" {
        JoinOne(Valued(Dir, DirArg(d)));
      }
    }
  }

  /** The command spelled out from the tokens of the first `k` options. */
  function Spelled(c: IsolateConfig, k: nat): string
    requires k <= FlagCount
  {
    "isolate" + Join(Gather(Pieces(c), k))
  }

  /** One more option of the emission order adds the text of its piece. */
  lemma LinkStep(c: IsolateConfig, k: nat, text: string)
    requires k < FlagCount && Join(Piece(c, FlagAt(k))) == text
    ensures Spelled(c, k + 1) == Spelled(c, k) + text
  {
    JoinAppend(Gather(Pieces(c), k), Piece(c, FlagAt(k)));
    AppendAssoc("isolate", Join(Gather(Pieces(c), k)), text);
  }

  /** The same step, for the option `f` at position `k`, whose piece is `piece`. */
  lemma LinkPiece(c: IsolateConfig, k: nat, f: Flag, piece: seq<Token>, text: string)
    requires k < FlagCount && FlagAt(k) == f && Piece(c, f) == piece && Join(piece) == text
    ensures Spelled(c, k + 1) == Spelled(c, k) + text
  {
    LinkStep(c, k, text);
  }

  lemma LinkOpt(c: IsolateConfig, k: nat, f: Flag, v: string)
    requires k < FlagCount && FlagAt(k) == f && Piece(c, f) == Opt(f, v)
    ensures Spelled(c, k + 1) == Spelled(c, k) + OptText(f, v)
  {
    JoinOpt(f, v);
    LinkPiece(c, k, f, Opt(f, v), OptText(f, v));
  }

  lemma LinkSw(c: IsolateConfig, k: nat, f: Flag, b: bool)
    requires k < FlagCount && FlagAt(k) == f && Piece(c, f) == Sw(f, b)
    ensures Spelled(c, k + 1) == Spelled(c, k) + SwText(f, b)
  {
    JoinSw(f, b);
    LinkPiece(c, k, f, Sw(f, b), SwText(f, b));
  }

  // The emission order group by group, as the generator writes it. Each
  // lemma is told which options stand at positions k, k + 1, ...; the
  // position itself stays unknown, so the solver never unrolls the
  // gathering. The larger groups are taken a few options at a time.


  lemma LinkBoxIdToStdout(c: IsolateConfig, k: nat)
    requires k + 4 <= FlagCount
    requires FlagAt(k) == BoxId && FlagAt(k + 1) == Meta
    requires FlagAt(k + 2) == Stdin && FlagAt(k + 3) == Stdout
    ensures Spelled(c, k + 4) ==
      Spelled(c, k) + OptText(BoxId, c.boxId) + OptText(Meta, c.metaFile)
        + OptText(Stdin, c.stdin) + OptText(Stdout, c.stdout)
  {
    LinkOpt(c, k, BoxId, c.boxId);
    LinkOpt(c, k + 1, Meta, c.metaFile);
    LinkOpt(c, k + 2, Stdin, c.stdin);
    LinkOpt(c, k + 3, Stdout, c.stdout);
  }

  lemma LinkStderrToSilent(c: IsolateConfig, k: nat)
    requires k + 4 <= FlagCount
    requires FlagAt(k) == Stderr && FlagAt(k + 1) == Chdir
    requires FlagAt(k + 2) == Verbose && FlagAt(k + 3) == Silent
    ensures Spelled(c, k + 4) ==
      Spelled(c, k) + OptText(Stderr, c.stderr) + OptText(Chdir, c.chdir)
        + SwText(Verbose, c.verbose) + SwText(Silent, c.silent)
  {
    LinkOpt(c, k, Stderr, c.stderr);
    LinkOpt(c, k + 1, Chdir, c.chdir);
    LinkSw(c, k + 2, Verbose, c.verbose);
    LinkSw(c, k + 3, Silent, c.silent);
  }

  /** The basic options group. */
  lemma LinkBasicOptions(c: IsolateConfig, k: nat)
    requires k + 8 <= FlagCount
    requires FlagAt(k) == BoxId && FlagAt(k + 1) == Meta
    requires FlagAt(k + 2) == Stdin && FlagAt(k + 3) == Stdout
    requires FlagAt(k + 4) == Stderr && FlagAt(k + 5) == Chdir
    requires FlagAt(k + 6) == Verbose && FlagAt(k + 7) == Silent
    ensures Spelled(c, k + 8) == BasicOptions(c, Spelled(c, k))
  {
    LinkBoxIdToStdout(c, k);
    LinkStderrToSilent(c, k + 4);
  }

  lemma LinkMemToExtraTime(c: IsolateConfig, k: nat)
    requires k + 4 <= FlagCount
    requires FlagAt(k) == Mem && FlagAt(k + 1) == Time
    requires FlagAt(k + 2) == WallTime && FlagAt(k + 3) == ExtraTime
    ensures Spelled(c, k + 4) ==
      Spelled(c, k) + OptText(Mem, c.memory) + OptText(Time, c.time)
        + OptText(WallTime, c.wallTime) + OptText(ExtraTime, c.extraTime)
  {
    LinkOpt(c, k, Mem, c.memory);
    LinkOpt(c, k + 1, Time, c.time);
    LinkOpt(c, k + 2, WallTime, c.wallTime);
    LinkOpt(c, k + 3, ExtraTime, c.extraTime);
  }

  lemma LinkStackToQuota(c: IsolateConfig, k: nat)
    requires k + 4 <= FlagCount
    requires FlagAt(k) == Stack && FlagAt(k + 1) == OpenFiles
    requires FlagAt(k + 2) == Fsize && FlagAt(k + 3) == Quota
    ensures Spelled(c, k + 4) ==
      Spelled(c, k) + OptText(Stack, c.stack) + OptText(OpenFiles, c.openFiles)
        + OptText(Fsize, c.fileSize) + OptText(Quota, c.quota)
  {
    LinkOpt(c, k, Stack, c.stack);
    LinkOpt(c, k + 1, OpenFiles, c.openFiles);
    LinkOpt(c, k + 2, Fsize, c.fileSize);
    LinkOpt(c, k + 3, Quota, c.quota);
  }

  lemma LinkCoreToProcesses(c: IsolateConfig, k: nat)
    requires k + 2 <= FlagCount
    requires FlagAt(k) == Core && FlagAt(k + 1) == Processes
    ensures Spelled(c, k + 2) ==
      Spelled(c, k) + OptText(Core, c.coreSize) + OptText(Processes, c.processes)
  {
    LinkOpt(c, k, Core, c.coreSize);
    LinkOpt(c, k + 1, Processes, c.processes);
  }

  /** The limits group. */
  lemma LinkLimits(c: IsolateConfig, k: nat)
    requires k + 10 <= FlagCount
    requires FlagAt(k) == Mem && FlagAt(k + 1) == Time
    requires FlagAt(k + 2) == WallTime && FlagAt(k + 3) == ExtraTime
    requires FlagAt(k + 4) == Stack && FlagAt(k + 5) == OpenFiles
    requires FlagAt(k + 6) == Fsize && FlagAt(k + 7) == Quota
    requires FlagAt(k + 8) == Core && FlagAt(k + 9) == Processes
    ensures Spelled(c, k + 10) == Limits(c, Spelled(c, k))
  {
    LinkMemToExtraTime(c, k);
    LinkStackToQuota(c, k + 4);
    LinkCoreToProcesses(c, k + 8);
  }

  /** The environment group. */
  lemma LinkEnvironment(c: IsolateConfig, k: nat)
    requires k + 2 <= FlagCount
    requires FlagAt(k) == Env && FlagAt(k + 1) == FullEnv
    ensures Spelled(c, k + 2) == Environment(c, Spelled(c, k))
  {
    JoinEnvTokens(c.envVars);
    LinkPiece(c, k, Env, EnvTokens(c.envVars), EnvText(c.envVars));
    LinkSw(c, k + 1, FullEnv, c.fullEnv);
  }

  /** The directories group. */
  lemma LinkDirectories(c: IsolateConfig, k: nat)
    requires k + 2 <= FlagCount
    requires FlagAt(k) == Dir && FlagAt(k + 1) == NoDefaultDirs
    ensures Spelled(c, k + 2) == Directories(c, Spelled(c, k))
  {
    JoinDirTokens(c.directories);
    LinkPiece(c, k, Dir, DirTokens(c.directories), DirText(c.directories));
    LinkSw(c, k + 1, NoDefaultDirs, c.noDefaultDirs);
  }

  /** The control groups group. */
  lemma LinkControlGroups(c: IsolateConfig, k: nat)
    requires k + 2 <= FlagCount
    requires FlagAt(k) == Cg && FlagAt(k + 1) == CgMem
    ensures Spelled(c, k + 2) == ControlGroups(c, Spelled(c, k))
  {
    LinkSw(c, k, Cg, c.enableCg);
    var cg := Spelled(c, k) + SwText(Cg, c.enableCg);
    LinkOpt(c, k + 1, CgMem, c.cgMem);
    assert Spelled(c, k + 2) == cg + OptText(CgMem, c.cgMem);
  }

  /** The special options group. */
  lemma LinkSpecialOptions(c: IsolateConfig, k: nat)
    requires k + 3 <= FlagCount
    requires FlagAt(k) == ShareNet && FlagAt(k + 1) == InheritFds
    requires FlagAt(k + 2) == SpecialFiles
    ensures Spelled(c, k + 3) == SpecialOptions(c, Spelled(c, k))
  {
    LinkSw(c, k, ShareNet, c.shareNet);
    LinkSw(c, k + 1, InheritFds, c.inheritFds);
    LinkSw(c, k + 2, SpecialFiles, c.specialFiles);
  }

  /** `--run`, the last option. */
  lemma LinkRun(c: IsolateConfig, k: nat)
    requires k + 1 <= FlagCount
    requires FlagAt(k) == Run
    ensures Spelled(c, k + 1) ==
      Spelled(c, k) + Lead(Run)
  {
    JoinOne(Switch(Run));
    LinkPiece(c, k, Run, [Switch(Run)], Lead(Run));
  }

  // The groups at their positions in the emission order.

  lemma SpelledBasic(c: IsolateConfig)
    ensures Spelled(c, 8) == BasicOptions(c, "isolate")
  {
    AppendNil("isolate");
    LinkBasicOptions(c, 0);
  }

  lemma SpelledLimits(c: IsolateConfig)
    ensures Spelled(c, 18) == Limits(c, Spelled(c, 8))
  {
    LinkLimits(c, 8);
  }

  lemma SpelledEnvironment(c: IsolateConfig)
    ensures Spelled(c, 20) == Environment(c, Spelled(c, 18))
  {
    LinkEnvironment(c, 18);
  }

  lemma SpelledDirectories(c: IsolateConfig)
    ensures Spelled(c, 22) == Directories(c, Spelled(c, 20))
  {
    LinkDirectories(c, 20);
  }

  lemma SpelledControlGroups(c: IsolateConfig)
    ensures Spelled(c, 24) == ControlGroups(c, Spelled(c, 22))
  {
    LinkControlGroups(c, 22);
  }

  lemma SpelledSpecialOptions(c: IsolateConfig)
    ensures Spelled(c, 27) == SpecialOptions(c, Spelled(c, 24))
  {
    LinkSpecialOptions(c, 24);
  }

  lemma SpelledRun(c: IsolateConfig)
    ensures Spelled(c, 28) == Spelled(c, 27) + Lead(Run)
  {
    LinkRun(c, 27);
  }

  /** The options line (everything up to and including `--run`) is
      `isolate` and the option tokens spelled out in order. */
  lemma OptionsLineTokens(c: IsolateConfig)
    ensures Spelled(c, FlagCount) == OptionsLine(c)
  {
    SpelledBasic(c);
    SpelledLimits(c);
    SpelledEnvironment(c);
    SpelledDirectories(c);
    SpelledControlGroups(c);
    SpelledSpecialOptions(c);
    SpelledRun(c);
  }

  /** The command line is `isolate`, the option tokens spelled out in order,
      then the payload. */
  lemma CommandLineTokens(c: IsolateConfig)
    ensures CommandLine(c) == "isolate" + Join(Tokens(c)) + Payload(c)
  {
    OptionsLineTokens(c);
  }
}
