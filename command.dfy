/** The command generator: the text each option contributes, the command line
    as a specification function built group by group in the order the page
    writes it, and the step-by-step generator the page runs, proved to
    produce exactly that line. */
module Command {
  import opened Config
  import opened Flags

  /** ` --name=v` when the text field `v` is non-empty, nothing otherwise. */
  function OptText(f: Flag, v: string): string
  {
    if v != "" then Lead(f) + v else ""
  }

  /** ` --name` when the boolean field `b` is set, nothing otherwise. */
  function SwText(f: Flag, b: bool): string
  {
    if b then Lead(f) else ""
  }

  /** The value of `--env`: the name, then `=VALUE` when a value is given. */
  function EnvArg(e: EnvVar): string
  {
    e.key + (if e.value != "" then "=" + e.value else "")
  }

  /** The text one environment entry contributes: nothing when it has no name. */
  function EnvEntryText(e: EnvVar): string
  {
    if e.key != "" then Lead(Env) + EnvArg(e) else ""
  }

  /** The `--env` text of a list of entries, in list order. */
  function EnvText(envs: seq<EnvVar>): string
  {
    Concat(envs, EnvEntryText)
  }

  /** The value of `--dir`: the inside path, then `=OUTSIDE` when an outside
      path is given, then `:OPTIONS` when options are given. */
  function DirArg(d: Directory): string
  {
    d.inside + (if d.outside != "" then "=" + d.outside else "")
             + (if d.options != "" then ":" + d.options else "")
  }

  /** The text one directory rule contributes: nothing when it has no inside path. */
  function DirEntryText(d: Directory): string
  {
    if d.inside != "" then Lead(Dir) + DirArg(d) else ""
  }

  /** The `--dir` text of a list of rules, in list order. */
  function DirText(dirs: seq<Directory>): string
  {
    Concat(dirs, DirEntryText)
  }

  // The command line, one group of options after another. Each group
  // function appends the group's text to the command written so far.

  function BasicOptions(c: IsolateConfig, pre: string): string
  {
    pre + OptText(BoxId, c.boxId) + OptText(Meta, c.metaFile) + OptText(Stdin, c.stdin)
        + OptText(Stdout, c.stdout) + OptText(Stderr, c.stderr) + OptText(Chdir, c.chdir)
        + SwText(Verbose, c.verbose) + SwText(Silent, c.silent)
  }

  function Limits(c: IsolateConfig, pre: string): string
  {
    pre + OptText(Mem, c.memory) + OptText(Time, c.time) + OptText(WallTime, c.wallTime)
        + OptText(ExtraTime, c.extraTime) + OptText(Stack, c.stack)
        + OptText(OpenFiles, c.openFiles) + OptText(Fsize, c.fileSize)
        + OptText(Quota, c.quota) + OptText(Core, c.coreSize) + OptText(Processes, c.processes)
  }

  function Environment(c: IsolateConfig, pre: string): string
  {
    pre + EnvText(c.envVars) + SwText(FullEnv, c.fullEnv)
  }

  function Directories(c: IsolateConfig, pre: string): string
  {
    pre + DirText(c.directories) + SwText(NoDefaultDirs, c.noDefaultDirs)
  }

  function ControlGroups(c: IsolateConfig, pre: string): string
  {
    pre + SwText(Cg, c.enableCg) + OptText(CgMem, c.cgMem)
  }

  function SpecialOptions(c: IsolateConfig, pre: string): string
  {
    pre + SwText(ShareNet, c.shareNet) + SwText(InheritFds, c.inheritFds)
        + SwText(SpecialFiles, c.specialFiles)
  }

  /** `isolate`, every option group in turn, and `--run`. */
  function OptionsLine(c: IsolateConfig): string
  {
    var basic := BasicOptions(c, "isolate");
    var limits := Limits(c, basic);
    var env := Environment(c, limits);
    var dirs := Directories(c, env);
    var cg := ControlGroups(c, dirs);
    SpecialOptions(c, cg) + Lead(Run)
  }

  /** What follows `--run`: ` -- PROGRAM`, then ` ARGUMENTS`, when a program is given. */
  function Payload(c: IsolateConfig): string
  {
    if c.program != "" then
      " -- " + c.program + (if c.arguments != "" then " " + c.arguments else "")
    else ""
  }

  /** The command line the page generates for `c`. */
  function CommandLine(c: IsolateConfig): string
  {
    OptionsLine(c) + Payload(c)
  }

  /** The page's `if (field) cmd += ` --name=${field}`` step. */
  method AppendValue(cmd: string, f: Flag, v: string) returns (r: string)
    ensures r == cmd + OptText(f, v)
    ensures v == "" ==> r == cmd
  {
    r := cmd;
    if v != "" {
      r := cmd + (Lead(f) + v);
    }
  }

  /** The page's `if (field) cmd += " --name"` step. */
  method AppendSwitch(cmd: string, f: Flag, b: bool) returns (r: string)
    ensures r == cmd + SwText(f, b)
    ensures !b ==> r == cmd
  {
    r := cmd;
    if b {
      r := cmd + Lead(f);
    }
  }

  /** The page's `envVars.forEach` step: one `--env` option per entry with a
      name, in list order. */
  method AppendEnvVars(cmd: string, envs: seq<EnvVar>) returns (r: string)
    ensures r == cmd + EnvText(envs)
  {
    r := cmd;
    assert envs[..0] == [];
    AppendNil(cmd);
    for i := 0 to |envs|
      invariant r == cmd + EnvText(envs[..i])
    {
      var env := envs[i];
      assert envs[..i + 1][..i] == envs[..i];
      AppendAssoc(cmd, EnvText(envs[..i]), EnvEntryText(env));
      AppendNil(r);
      if env.key != "" {
        r := r + (" --env=" + (env.key + (if env.value != "" then "=" + env.value else "")));
      }
    }
    assert envs[..|envs|] == envs;
  }

  /** The page's `directories.forEach` step: one `--dir` option per rule with
      an inside path, in list order. */
  method AppendDirRules(cmd: string, dirs: seq<Directory>) returns (r: string)
    ensures r == cmd + DirText(dirs)
  {
    r := cmd;
    assert dirs[..0] == [];
    AppendNil(cmd);
    for i := 0 to |dirs|
      invariant r == cmd + DirText(dirs[..i])
    {
      var dir := dirs[i];
      assert dirs[..i + 1][..i] == dirs[..i];
      AppendAssoc(cmd, DirText(dirs[..i]), DirEntryText(dir));
      AppendNil(r);
      if dir.inside != "" {
        var dirCmd := " --dir=" + dir.inside;
        if dir.outside != "" { dirCmd := dirCmd + ("=" + dir.outside); }
        if dir.options != "" { dirCmd := dirCmd + (":" + dir.options); }
        DirEntryShape(dir, dirCmd);
        r := r + dirCmd;
      }
    }
    assert dirs[..|dirs|] == dirs;
  }

  /** The page's generator: builds the command by appending to a string,
      group by group in the order of the page's own headings. */
  method GenerateCommand(c: IsolateConfig) returns (cmd: string)
    ensures cmd == CommandLine(c)
  {
    cmd := "isolate";
    cmd := AppendBasicOptions(cmd, c);
    cmd := AppendLimits(cmd, c);
    cmd := AppendEnvironment(cmd, c);
    cmd := AppendDirectories(cmd, c);
    cmd := AppendControlGroups(cmd, c);
    cmd := AppendSpecialOptions(cmd, c);

    // Add run command
    RunLead();
    cmd := cmd + " --run";
    ghost var line := cmd;

    // Program and arguments
    if c.program != "" {
      cmd := cmd + (" -- " + c.program);
      if c.arguments != "" {
        cmd := cmd + (" " + c.arguments);
      }
    }
    PayloadSteps(c, line, cmd);
  }

  method AppendBasicOptions(cmd: string, c: IsolateConfig) returns (r: string)
    ensures r == BasicOptions(c, cmd)
  {
    r := AppendValue(cmd, BoxId, c.boxId);
    r := AppendValue(r, Meta, c.metaFile);
    r := AppendValue(r, Stdin, c.stdin);
    r := AppendValue(r, Stdout, c.stdout);
    r := AppendValue(r, Stderr, c.stderr);
    r := AppendValue(r, Chdir, c.chdir);
    r := AppendSwitch(r, Verbose, c.verbose);
    r := AppendSwitch(r, Silent, c.silent);
  }

  method AppendLimits(cmd: string, c: IsolateConfig) returns (r: string)
    ensures r == Limits(c, cmd)
  {
    r := AppendValue(cmd, Mem, c.memory);
    r := AppendValue(r, Time, c.time);
    r := AppendValue(r, WallTime, c.wallTime);
    r := AppendValue(r, ExtraTime, c.extraTime);
    r := AppendValue(r, Stack, c.stack);
    r := AppendValue(r, OpenFiles, c.openFiles);
    r := AppendValue(r, Fsize, c.fileSize);
    r := AppendValue(r, Quota, c.quota);
    r := AppendValue(r, Core, c.coreSize);
    r := AppendValue(r, Processes, c.processes);
  }

  method AppendEnvironment(cmd: string, c: IsolateConfig) returns (r: string)
    ensures r == Environment(c, cmd)
  {
    r := AppendEnvVars(cmd, c.envVars);
    r := AppendSwitch(r, FullEnv, c.fullEnv);
  }

  method AppendDirectories(cmd: string, c: IsolateConfig) returns (r: string)
    ensures r == Directories(c, cmd)
  {
    r := AppendDirRules(cmd, c.directories);
    r := AppendSwitch(r, NoDefaultDirs, c.noDefaultDirs);
  }

  method AppendControlGroups(cmd: string, c: IsolateConfig) returns (r: string)
    ensures r == ControlGroups(c, cmd)
  {
    r := AppendSwitch(cmd, Cg, c.enableCg);
    r := AppendValue(r, CgMem, c.cgMem);
  }

  method AppendSpecialOptions(cmd: string, c: IsolateConfig) returns (r: string)
    ensures r == SpecialOptions(c, cmd)
  {
    r := AppendSwitch(cmd, ShareNet, c.shareNet);
    r := AppendSwitch(r, InheritFds, c.inheritFds);
    r := AppendSwitch(r, SpecialFiles, c.specialFiles);
  }

  lemma RunLead()
    ensures Lead(Run) == " --run"
  {
  }

  /** The program and argument steps of the page append exactly the payload. */
  lemma PayloadSteps(c: IsolateConfig, line: string, cmd: string)
    requires c.program == "" ==> cmd == line
    requires c.program != "" && c.arguments == "" ==> cmd == line + (" -- " + c.program)
    requires c.program != "" && c.arguments != "" ==>
      cmd == line + (" -- " + c.program) + (" " + c.arguments)
    ensures cmd == line + Payload(c)
  {
    if c.program == "" {
      AppendNil(line);
    } else if c.arguments == "" {
      AppendNil(" -- " + c.program);
    } else {
      AppendAssoc(line, " -- " + c.program, " " + c.arguments);
    }
  }

  /** The `dirCmd` the page assembles for a rule with an inside path is the
      rule's `--dir` text. */
  lemma DirEntryShape(d: Directory, dirCmd: string)
    requires d.inside != ""
    requires dirCmd == (" --dir=" + d.inside)
                       + (if d.outside != "" then "=" + d.outside else "")
                       + (if d.options != "" then ":" + d.options else "")
    ensures dirCmd == DirEntryText(d)
  {
    var o := if d.outside != "" then "=" + d.outside else "";
    var p := if d.options != "" then ":" + d.options else "";
    AppendAssoc(" --dir=", d.inside, o);
    AppendAssoc(" --dir=", d.inside + o, p);
  }
}
