# isolate command builder — a Dafny model

The page `pages/index.tsx` is a form for composing a command line for
`isolate`, the sandbox used by programming-contest judges. Its decision logic
has three parts, and this project models all three:

- the `IsolateConfig` record behind the form, and its starting value;
- `generateCommand`, which turns the record into one `isolate ... --run
  [-- program [arguments]]` command line by appending to a string, flag by
  flag, in a fixed order;
- the six editors of the two ordered lists in the record: `addEnvVar`,
  `removeEnvVar`, `updateEnvVar`, `addDirectory`, `removeDirectory` and
  `updateDirectory`.

The record has a `quota` and a `coreSize` field, each a single text field,
and the generator copies them verbatim into `--quota=` and `--core=`
(pages/index.tsx:116-117). No input on the page ever sets either field, so
the page as written never emits those two options. The model treats them as
ordinary fields like the others. The starting record has box id `"0"`, so it
compiles to `isolate --box-id=0 --run` (`DefaultCommand`).

## Layout

- `config.dfy` (module `Config`): the record as a datatype, with the two
  entry types `EnvVar` and `Directory`, and `DefaultConfig`.
- `flags.dfy` (module `Flags`): the vocabulary of the command line. `Flag`
  lists every option in emission order, with `Rank` for its position and
  `Lead` for the text written before its value. `Token` is one option on the
  line, and `Join` spells a token list out as text. The module also has
  generic facts about selecting, gathering and ordering tokens.
- `command.dfy` (module `Command`): the command line as a specification
  function, `CommandLine`, built group by group as the page's own comments
  group the flags. `GenerateCommand` is the imperative generator, with
  string appends and two loops, proved to return exactly `CommandLine`.
- `tokens.dfy` (module `CommandTokens`): a second, independent description
  of the command line. `Piece` gives the tokens of each option, and `Tokens`
  puts the pieces in rank order. The lemma `CommandLineTokens` proves that
  spelling `Tokens` out gives `CommandLine`.
- `lists.dfy` (modules `Lists` and `Edits`): removal and update by position
  on sequences, and the six list editors as functions on the record.
- `properties.dfy` (module `CommandProperties`): what the command line
  promises, stated on tokens and text.

Properties about options are stated on the token list, not by searching the
text. A field's text is copied verbatim, so a value such as `--mem=1` typed
into the meta-file box puts the characters `--mem=` into the line even though
the memory field is empty, and puts them there twice when memory is also set.
A string-level claim "`--mem=` appears exactly when memory is set" would be
false. The token claim "one memory option exactly when the memory field is
non-empty, carrying that field" is what the code guarantees.
`TokensInCommand` links the two views: every token's text occurs in the
command line.

## Model

| member | source | states |
|---|---|---|
| `Config.DefaultConfig` | pages/index.tsx:60-90 | the starting record has box id `"0"`, no environment entries, no directory rules, no program and no arguments (what the rest of it compiles to is fixed by `DefaultCommand`) |
| `Command.GenerateCommand` | pages/index.tsx:95-158 | the string the generator builds step by step is exactly the specification `CommandLine(c)`: `isolate`, the option groups in order, ` --run`, then the payload |
| `Command.AppendValue` | pages/index.tsx:99-104 | a valued option appends ` --name=VALUE` when its field is non-empty and leaves the command unchanged when it is empty |
| `Command.AppendSwitch` | pages/index.tsx:105-106 | a switch appends ` --name` when its field is set and nothing otherwise |
| `Command.AppendBasicOptions` | pages/index.tsx:98-106 | box id, meta, stdin, stdout, stderr, chdir, verbose and silent are appended in this order, each only when set |
| `Command.AppendLimits` | pages/index.tsx:108-118 | the ten limit options are appended in source order, each only when its field is non-empty; quota is one verbatim value |
| `Command.AppendEnvVars` | pages/index.tsx:121-125 | the `forEach` over the environment list appends the `--env` text of every entry in list order: nothing for an entry without a name, `NAME` or `NAME=VALUE` otherwise |
| `Command.AppendEnvironment` | pages/index.tsx:120-126 | the environment options come first, then `--full-env` when it is set |
| `Command.AppendDirRules` | pages/index.tsx:129-136 | the `forEach` over the directory list appends, in list order, `--dir=INSIDE`, then `=OUTSIDE` if given, then `:OPTIONS` if given; a rule without an inside path adds nothing |
| `Command.DirEntryShape` | pages/index.tsx:131-133 | the `dirCmd` the loop assembles in three steps is the rule's `--dir` text |
| `Command.AppendDirectories` | pages/index.tsx:128-137 | the directory options come first, then `--no-default-dirs` when it is set |
| `Command.AppendControlGroups` | pages/index.tsx:139-141 | `--cg` when control groups are enabled, then `--cg-mem=` whenever the field is non-empty, each decided on its own |
| `Command.AppendSpecialOptions` | pages/index.tsx:143-146 | share-net, inherit-fds and special-files, in this order, each only when set |
| `Command.PayloadSteps` | pages/index.tsx:152-155 | the program and argument steps append exactly the payload: nothing without a program, else ` -- PROGRAM`, then ` ARGS` when arguments are given |
| `CommandTokens.CommandLineTokens` | pages/index.tsx:96-149 | the generated line is `isolate`, the per-option tokens in emission order spelled out, and the payload |
| `CommandTokens.SelectTokens` | pages/index.tsx:99-146 | for every option, the tokens of that option in the command are exactly those its own field or list contributes, and no other field or list adds to them |
| `CommandTokens.TokensOrdered` | pages/index.tsx:99-149 | option tokens appear in non-decreasing emission order |
| `CommandTokens.TokensPrecede` | pages/index.tsx:99-149 | for any two options where one is emitted before the other, every token of the first stands before every token of the second |
| `CommandProperties.RunIsLastOption` | pages/index.tsx:148-149 | `--run` is the last option token, and every other option token comes before it in the emission order |
| `CommandProperties.RunOccursOnce` | pages/index.tsx:149 | `--run` occurs exactly once, whatever the configuration |
| `CommandProperties.OptionsEndWithRun` | pages/index.tsx:148-149 | the options text ends with ` --run` |
| `CommandProperties.CommandFrame` | pages/index.tsx:96-155 | the command starts with `isolate`, the options text ends with ` --run`, and the payload comes directly after it |
| `CommandProperties.ProgramTail` | pages/index.tsx:148-155 | with a program given, the command ends with ` --run -- PROGRAM`, followed by one space and the raw arguments exactly when arguments are given |
| `CommandProperties.ArgumentsNeedProgram` | pages/index.tsx:152-155 | without a program, the arguments field has no effect on the command, which then ends at ` --run` |
| `CommandProperties.OptionsIgnorePayload` | pages/index.tsx:96-149 | the options part of the line does not depend on the program or the arguments |
| `CommandProperties.OptionsInOrder` | pages/index.tsx:99-149 | a token of an earlier option always stands before a token of a later option |
| `CommandProperties.EnvBeforeFullEnv` | pages/index.tsx:121-126 | every `--env` option precedes `--full-env` |
| `CommandProperties.CgBeforeCgMem` | pages/index.tsx:140-141 | `--cg` precedes `--cg-mem` when both are present |
| `CommandProperties.TokensWellFormed` | pages/index.tsx:99-146 | no option is emitted with an empty value: a valued option always carries non-empty text, and a switch never carries a value |
| `CommandProperties.ScalarValue` | pages/index.tsx:99-141 | each scalar valued option appears exactly once, with its field text verbatim, when the field is non-empty, and not at all otherwise |
| `CommandProperties.ScalarSwitch` | pages/index.tsx:105-146 | each scalar switch (verbose, silent, full-env, no-default-dirs, cg, share-net, inherit-fds, special-files) appears exactly once when set and not at all otherwise |
| `CommandProperties.TokensInCommand` | pages/index.tsx:96-155 | the text of every option token occurs in the command line |
| `CommandProperties.ScalarValueInCommand` | pages/index.tsx:99-118 | a non-empty scalar field shows up in the command line as ` --name=VALUE`, verbatim |
| `CommandProperties.DefaultCommand` | pages/index.tsx:60-90 | the starting configuration compiles to exactly `isolate --box-id=0 --run` |
| `CommandProperties.EnvOptions` | pages/index.tsx:121-125 | the `--env` options are one per named entry, in list order, carrying `NAME` or `NAME=VALUE` (the latter only when the value is non-empty) |
| `CommandProperties.DirOptions` | pages/index.tsx:129-136 | the `--dir` options are one per rule with an inside path, in list order, carrying `INSIDE[=OUTSIDE][:OPTIONS]` with each part present only when non-empty |
| `CommandProperties.CgMemIndependentOfCg` | pages/index.tsx:140-141 | `--cg-mem` depends on the `cgMem` field alone: present exactly when it is non-empty, whatever `enableCg` is |
| `CommandProperties.AddEnvVarKeepsCommand` | pages/index.tsx:160-165 | the unnamed entry that `addEnvVar` appends leaves the command unchanged |
| `CommandProperties.AddDirectoryKeepsCommand` | pages/index.tsx:183-188 | the empty rule that `addDirectory` appends leaves the command unchanged |
| `CommandProperties.RemoveUnnamedEnvVarKeepsCommand` | pages/index.tsx:167-172 | removing an entry without a name leaves the command unchanged: such entries are inert but kept |
| `CommandProperties.RemoveUnnamedDirectoryKeepsCommand` | pages/index.tsx:190-195 | removing a rule without an inside path leaves the command unchanged |
| `Lists.RemoveAtSlices` | pages/index.tsx:170 | filtering out position `index` drops exactly that element and keeps the others in order; an index outside the list changes nothing |
| `Lists.RemoveAtIndex` | pages/index.tsx:170 | after a removal, elements before the index keep their position and later ones move down by one |
| `Edits.SetEnvField` | pages/index.tsx:178 | updating the key leaves the value, and updating the value leaves the key |
| `Edits.SetDirField` | pages/index.tsx:201 | updating one of inside, outside and options leaves the other two as they were |
| `Edits.AddEnvVar` | pages/index.tsx:160-165 | the environment list gains one all-empty entry at the end; the existing entries and every other field are unchanged |
| `Edits.RemoveEnvVar` | pages/index.tsx:167-172 | the entry at `index` is dropped and the others keep their order; an out-of-range index leaves the list as it was; no other field changes |
| `Edits.UpdateEnvVar` | pages/index.tsx:174-181 | only the named field of the entry at `index` changes; the length, the other entries and the other fields of the record are unchanged |
| `Edits.AddDirectory` | pages/index.tsx:183-188 | the directory list gains one all-empty rule at the end; the existing rules and every other field are unchanged |
| `Edits.RemoveDirectory` | pages/index.tsx:190-195 | the rule at `index` is dropped and the others keep their order; an out-of-range index leaves the list as it was; no other field changes |
| `Edits.UpdateDirectory` | pages/index.tsx:197-204 | only the named field of the rule at `index` changes; the length, the other rules and the other fields of the record are unchanged |
| `Edits.AddThenRemoveEnvVar` | pages/index.tsx:160-172 | removing the entry just added restores the record |
| `Edits.AddThenRemoveDirectory` | pages/index.tsx:183-195 | removing the rule just added restores the record |

## Left out

- The React state around the core: `useState`, `setConfig`,
  `setGeneratedCommand` and the `prev => ...` updater form. The record is a
  value, each editor returns the new record, and `GenerateCommand` returns
  the string instead of storing it.
- JSX rendering, tabs and the tab list, font loading, and the clipboard
  write: these are user interface and platform I/O, with no decision logic.
- The form shows the `cgMem` input only while `enableCg` is set. This is a
  visibility rule of the form, and the generator does not consult it.
- The list index is a JavaScript number. It is modelled as an unbounded
  integer. A fractional or `NaN` index matches no position in the source, and
  behaves like an out-of-range integer here.
- JavaScript truthiness: every text field is a string and every switch a
  boolean, so "set" means "non-empty string" or `true`, exactly as modelled.
  Values of other types, which the types of the record exclude, are not
  modelled.
