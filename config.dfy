/** The sandbox configuration edited by the form: a flat record of text and
    boolean fields plus two ordered lists (environment variables and
    directory rules). Text fields hold whatever the user typed; an empty
    string means "not set". */
module Config {

  /** One `--env` entry: a variable name and an optional value. */
  datatype EnvVar = EnvVar(key: string, value: string)

  /** One `--dir` rule: the path inside the box, an optional path outside it
      and an optional options string. */
  datatype Directory = Directory(inside: string, outside: string, options: string)

  datatype IsolateConfig = IsolateConfig(
    // Basic options
    boxId: string,
    metaFile: string,
    stdin: string,
    stdout: string,
    stderr: string,
    chdir: string,
    verbose: bool,
    silent: bool,
    // Limits (numbers kept as the text the user typed)
    memory: string,
    time: string,
    wallTime: string,
    extraTime: string,
    stack: string,
    openFiles: string,
    fileSize: string,
    quota: string,
    coreSize: string,
    processes: string,
    // Environment
    envVars: seq<EnvVar>,
    fullEnv: bool,
    // Directories
    directories: seq<Directory>,
    noDefaultDirs: bool,
    // Control groups
    enableCg: bool,
    cgMem: string,
    // Special options
    shareNet: bool,
    inheritFds: bool,
    specialFiles: bool,
    // Program
    program: string,
    arguments: string
  )

  /** The configuration the page starts with: box 0, everything else empty or off. */
  function DefaultConfig(): (c: IsolateConfig)
    ensures c.boxId == "0"
    ensures c.envVars == [] && c.directories == []
    ensures c.program == "" && c.arguments == ""
  {
    IsolateConfig(
      "0", "", "", "", "", "", false, false,
      "", "", "", "", "", "", "", "", "", "",
      [], false,
      [], false,
      false, "",
      false, false, false,
      "", "")
  }
}
