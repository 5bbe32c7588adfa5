# cmdsignature in Dafny

A model of the core of `cmdsignature`, a library that turns a command
signature and the arguments given to a command into the invocation to run:

- `CmdSignatureInterpreter` (class `Interpreter.CmdSignatureInterpreter`)
  keeps the option namespace and the positional arguments that the signature's
  argument parser produced, together with the overrides given to `interpret`.
  Each renderer resolves the options in the same way:
  - list the flags whose value differs from their default, in table order;
  - give each unset directory flag whose default action is `set-cwd` the
    working directory, and do the same for each `set-cwd` positional argument;
  - reject a blank positional argument that is followed by a non-blank one;
  - apply the overrides, looked up by long flag name.

  The renderer then prints one of three things: a command line on the host
  (`hostSignature`), a `docker run` line that mounts every host path onto
  itself (`dockerSignature`), or a Kubernetes job whose container script
  creates scratch directories for the out-direction flags, runs the command,
  and archives and uploads the results (`kubeSignature`).
- `ProgramSignatureParser` (class `Program.ProgramSignatureParser`) validates
  the command records of the loaded program signature documents and merges
  them into a command table, with a later record replacing an earlier one of
  the same name. It prints the help aligned on the longest command name, and
  builds the invocation of a command's entry point, with `python` or `bash`
  chosen by the entry file's extension.

Modules:

- `Signatures`: the flag table, option values, the environment
  (working directory, `abspath`, `dirname`, `repr`) and the errors.
- `Resolution`: the shared resolution, stated once as functions of the
  parsed options, with its lemmas.
- `Rendering`: the host and docker lines.
- `KubeJob`: the job document.
- `Interpreter`: the class and the loops of its renderers.
- `Program`: the program dispatcher.
- `Strings`: `join`, `endswith`, padding and sorting.

These points of the model follow the code as written and may surprise a reader:

- A `set-cwd` positional argument gets the working directory whether or not
  it was given a value.
- The working-directory default of a flag is stored in the namespace under
  the flag's key, not under its target variable. So the target keeps its
  default, which the renderers read (`Resolution.CwdDefaultMissesTarget`).
  The host and docker lines print that default's absolute path
  (`Rendering.CwdDefaultRendered`); Python's `abspath` of an empty default is
  the working directory, so there the quirk can be hidden. The docker mounts
  use the raw target value. The Kubernetes job replaces an out directory
  flag by its scratch path, so it does not print the default either.
- The description is the first non-empty one among the preset value and the
  documents' descriptions. It is not simply the first document's description.
- Blank directory positional arguments are collected as mount paths.
- The Kubernetes main command carries no positional arguments
  (`KubeJob.MainStepOmitsArgs`). kubeSignature still refuses non-contiguous
  positional arguments.

Where the code iterates a Python set, the model does not fix an order:

- setDefaultPaths iterates the set of empty-path flags.
- dockerSignature deduplicates its mounts with `list(set(...))`.
- help computes the width of the command names over a dict.

The methods choose elements with `:|`. The order they chose is returned as a
ghost out-parameter (`cwdOrder`, `mountOrder`), and the contracts hold for
every order.

## Model

| member | source | states |
|---|---|---|
| Interpreter.CmdSignatureInterpreter.constructor | cmdsignature/interpreter.py:11-19 | A new interpreter stores its command, task, image and binary. It is not in short-evaluation mode and has no overrides. |
| Interpreter.CmdSignatureInterpreter.Interpret | cmdsignature/interpreter.py:21-31 | With `-h` or `--help` among the arguments, only the short-evaluation mark is set. Otherwise the parser's namespace and positional arguments are taken over. A failed check yields `false` (the exit). On success the overrides are stored. |
| Interpreter.CmdSignatureInterpreter.SetDefaultPaths | cmdsignature/interpreter.py:37-72 | The returned flags enumerate the empty-path flags whose default action is `set-cwd`, each exactly once, and the returned options map each of them to the working directory. Each `set-cwd` positional argument gets the working directory in place, and every other argument is unchanged. There is no offender iff no blank argument is followed by a non-blank one. An offender is the first non-blank argument after a blank one. |
| Interpreter.CmdSignatureInterpreter.ResolveOptions | cmdsignature/interpreter.py:79-105 | The namespace and the non-default list become `Resolved(...)` of the parsed namespace, for the order in which the working-directory defaults were filled. If the contiguity check fails, the namespace is left unchanged. |
| Interpreter.ListNonDefault | cmdsignature/interpreter.py:81-84 | The first loop yields `NonDefault`, the flags whose value differs from their default, in table order. |
| Interpreter.AddCwdDefaults | cmdsignature/interpreter.py:92-94 | The filled flags are appended after the initial list. Each filled flag's value is stored under its key, and every other entry is unchanged. |
| Interpreter.OverrideFlags | cmdsignature/interpreter.py:97-105 | The override loop computes `ApplyOverrides` over the table's keys in order. |
| Interpreter.RenderCmdFlags | cmdsignature/interpreter.py:367-377 | The flag-argument loop computes `CmdFlags` of the non-default list. |
| Interpreter.CmdSignatureInterpreter.HostSignature | cmdsignature/interpreter.py:334-383 | After a help request the result is `<binary> <command> -h` and nothing changes. Otherwise the positional arguments have the working directory filled in. The result is an error iff they are not contiguous, and the error names the first gap. On success the result is binary, command, the flag arguments of the resolved list and the positional values. |
| Interpreter.CollectHostPaths | cmdsignature/interpreter.py:289-303 | The collected paths are `HostPaths`: one path per non-empty directory or file flag (for a file flag, the directory of its absolute path), then the values of the directory positional arguments. |
| Interpreter.Dedup | cmdsignature/interpreter.py:305 | Each collected path appears exactly once, in some order. |
| Interpreter.MountsFor | cmdsignature/interpreter.py:307-312 | There is one mount per path, and each mount has host equal to container equal to that path. |
| Interpreter.CmdSignatureInterpreter.DockerSignature | cmdsignature/interpreter.py:254-332 | After a help request the result is `docker run -t <image> <binary> <command> -h`. Otherwise contiguity is checked as on the host. On success every distinct collected host path is mounted onto itself, followed by the image and the host command line. |
| Interpreter.KubeFlagLoop | cmdsignature/interpreter.py:107-134 | The flag loop, which stops at the first refused flag, computes `KubeFlags`. |
| Interpreter.KubeScript | cmdsignature/interpreter.py:194-235 | The script is `post_start ++ [main] ++ pre_stop` joined by ` && `. Hostname, server and target default to ichiba, storage and /var/www/html/pub/ichiba. |
| Interpreter.CmdSignatureInterpreter.KubeSignature | cmdsignature/interpreter.py:74-246 | After a help request the result is an error. Otherwise the contiguity error comes first. Then the result is `KubeDocument` of the resolved list: the refusal of the first rejected directory flag, or the job document. |
| Resolution.NonDefaultIsFilter | cmdsignature/interpreter.py:81-84 | A flag is in the initial list iff it is in the table and its value differs from its default. The list has no duplicates and keeps table order. |
| Resolution.FillCwd | cmdsignature/interpreter.py:53-59 | Only `set-cwd` arguments change, and only in their value, which becomes the working directory. |
| Resolution.ContiguityExamples | cmdsignature/interpreter.py:62-70 | `[a, "", b]` is rejected and `[a, b, ""]` is accepted. |
| Resolution.Resolved | cmdsignature/interpreter.py:79-105 | Every target stays present in the resolved namespace, and the resolved list names only flags of the table. |
| Resolution.OverridesList | cmdsignature/interpreter.py:97-105 | The override loop keeps the list as a prefix. It adds exactly the overridden flags that are missing, and adds none twice. |
| Resolution.OverridesOptions | cmdsignature/interpreter.py:97-105 | The override loop writes only targets of overridden flags. When targets are unique, an overridden flag's target holds the override, absolute-pathed for a filesystem resource. |
| Resolution.ResolvedNonDefault | cmdsignature/interpreter.py:79-105 | The final list has no duplicates. A flag is in it iff its value differs from its default, or it received the working directory, or it is overridden. |
| Resolution.ResolvedValues | cmdsignature/interpreter.py:79-105 | When targets are unique, an override wins, absolute-pathed for a filesystem resource. A value neither overridden nor filled keeps its parsed value. A filled flag's key holds the working directory. |
| Resolution.CwdDefaultMissesTarget | cmdsignature/interpreter.py:47-49 | A flag filled with the working directory, whose target is neither a filled key nor overridden, keeps its default in its target, which the renderers read (host and docker print its absolute path). |
| Rendering.CmdFlagsFollowList | cmdsignature/interpreter.py:367-377 | There is one flag argument per listed flag, in list order: `--long` for a boolean flag, `--long <quoted value>` otherwise, absolute-pathed for filesystem resources. |
| Rendering.HostLine | cmdsignature/interpreter.py:381-383 | The host line starts with the binary and a blank and ends with a blank and the positional values. With no positional arguments it ends in a blank. |
| Rendering.DockerLine | cmdsignature/interpreter.py:330-332 | The docker line starts with `docker run `, and with no mounts with `docker run  -t ` (two blanks). It ends with a blank and the positional values, so with no positional arguments it ends in a blank. |
| Rendering.CwdDefaultRendered | cmdsignature/interpreter.py:47-49 | A flag filled with the working directory under its key, whose target nothing else writes, is a listed directory flag rendered from its declared default: a string default as `--long` and the quoted absolute path. |
| Rendering.FlagHostPathsMembers | cmdsignature/interpreter.py:290-299 | A path is collected from the flags iff some flag mounts it: a non-empty directory value, or the directory of a non-empty file value. Empty values are skipped. |
| Rendering.ArgHostPathsMembers | cmdsignature/interpreter.py:301-303 | A path is collected from the positional arguments iff it is the value of a directory argument. |
| Rendering.BlankDirArgMounted | cmdsignature/interpreter.py:301-303 | A blank directory positional argument contributes the empty path. |
| KubeJob.KubeFlags | cmdsignature/interpreter.py:107-134 | The out flags are flags of the non-default list. |
| KubeJob.KubeFlagStep | cmdsignature/interpreter.py:109-134 | An earlier refusal is kept. Otherwise the flag is refused iff it is a directory flag without direction `out`, with MissingDirection or InDirectionUnsupported. An accepted flag appends its argument, and a directory flag also appends its key to the out flags. |
| KubeJob.KubeFlagsErrSticks | cmdsignature/interpreter.py:123-134 | Once a flag is refused, the loop's outcome is that refusal. |
| KubeJob.KubeFlagsVerdict | cmdsignature/interpreter.py:107-134 | The loop succeeds iff no listed directory flag lacks direction `out`. Otherwise it fails with the first such flag's error: MissingDirection when there is no direction, InDirectionUnsupported otherwise. |
| KubeJob.KubeFlagsOutput | cmdsignature/interpreter.py:107-131 | On success there is one argument per listed flag, in order. An out directory flag becomes `--long /tmp/var/run/ichiba/<key>`, and any other flag is rendered as on the host. The out flags are the listed directory flags, in order. |
| KubeJob.PostStartAt | cmdsignature/interpreter.py:222-224 | There is one `mkdir -p /tmp/var/run/ichiba/<key>` step per out flag, in order. |
| KubeJob.ArtifactStepsAt | cmdsignature/interpreter.py:227-233 | Each out flag gets a tar step and an scp step, named after its target, in order. |
| KubeJob.MainStepOmitsArgs | cmdsignature/interpreter.py:194 | The main command is the host line without positional arguments or its trailing blank, run by `/bin/sh -c` with its output piped through `tee build.log`. |
| KubeJob.JobDocument | cmdsignature/interpreter.py:148-186 | The document is a `batch/v1` Job whose metadata name and template name are the job name. It has one container with the job name, the image and the command `/bin/sh -ec <script>`, and restart policy `Never`. Every volume mount is read-only and names a volume of the pod. |
| KubeJob.StepsLayout | cmdsignature/interpreter.py:194-235 | The script has 3n+5 steps: n mkdir steps, the main command, the four key and log steps, then n archive/upload pairs. |
| Program.Validate | cmdsignature/program.py:58-67 | A record passes iff it has a name, an entry point and a description, and it or its document has an image. The missing fields are reported in the order name, entry-point, description. A record without an image inherits its document's image. A record that has the three fields, but no image of its own or from its document, fails with MissingImage (the `exit(1)`). |
| Program.RecordsVerdict | cmdsignature/program.py:57-69 | The record loop succeeds iff every record is valid. Otherwise it fails with the first invalid record's error. |
| Program.DocStep | cmdsignature/program.py:50-69 | A document without `commands` fails on that field first, then one without `description`. The step succeeds iff the document is valid. The description is taken from the document only when none is set yet. |
| Program.DocsVerdict | cmdsignature/program.py:45-69 | Parsing succeeds iff every document has `commands` and `description` and all its records are valid. |
| Program.RecordsTable | cmdsignature/program.py:57-69 | After the record loop the table holds the earlier names plus the records' names. Each name's entry is its last record, validated. Entries no record names are unchanged. |
| Program.DocsTable | cmdsignature/program.py:43-69 | Across documents, the table holds exactly the names the records carry. A later record with the same name, in the same or a later document, replaces an earlier one. |
| Program.FirstNonEmpty | cmdsignature/program.py:54-55 | The result is empty iff all entries are empty. Otherwise it is the first non-empty entry. |
| Program.DocsDescription | cmdsignature/program.py:54-55 | A preset description is kept. Otherwise the description is the first non-empty document description. |
| Program.ProgramSignatureParser.constructor | cmdsignature/program.py:16-21 | A new parser has an empty table and no arguments, and keeps its program name, command root and preset description. |
| Program.ProgramSignatureParser.Parse | cmdsignature/program.py:42-77 | The table is rebuilt from an empty one as `Docs` describes, and the first error is returned. Empty arguments, or a first argument of `-h`, `--help` or `help`, show the help and leave the arguments unset. Otherwise the arguments are stored. |
| Program.ProgramSignatureParser.Help | cmdsignature/program.py:23-40 | The width is `max(4, longest name)`. The command lines follow sorted name order, after the synopsis, the description when there is one, and the help line. |
| Program.HelpWidth | cmdsignature/program.py:24-26 | The width is at least 4 and at least every name's length, and it is 4 or some name's length. |
| Program.RenderCommandLines | cmdsignature/program.py:36-38 | There is one aligned line per name, in the order given. |
| Program.HelpAligned | cmdsignature/program.py:33-38 | The help line and every command line start their text at column w+4, after a tab, the name and blanks only. |
| Strings.Sorted | cmdsignature/program.py:36 | `sorted(keys)` is ascending without duplicates and has the same members. |
| Strings.SortedUnique | cmdsignature/program.py:36 | There is only one sorted list of a key set, so the help text is determined by the table. |
| Strings.Spaces | cmdsignature/program.py:33-37 | `n * " "` has length n and contains only blanks. |
| Program.ProgramSignatureParser.GetCommandFlags | cmdsignature/program.py:79-83 | The result is the command's flags, or an empty list when the command or the field is missing. |
| Program.ProgramSignatureParser.GetCommandImage | cmdsignature/program.py:85-89 | The result is the command's image, inherited when needed, or an empty mapping for an unknown command. |
| Program.EntryPath | cmdsignature/program.py:108-110 | The entry point is unchanged without a command root. Otherwise it is prefixed by the root and `/`. |
| Program.InterpreterFor | cmdsignature/program.py:117-121 | The result is `python` iff the file ends with `.py`, `bash` iff it ends with `.sh`, and empty otherwise. |
| Program.ProgramSignatureParser.Signature | cmdsignature/program.py:91-124 | Without arguments, or for `help`, the result is `<program> help`. It is an error iff the command is unknown. Otherwise it is the interpreter chosen by the entry file (the link target's name for a link), the entry point and the quoted remaining arguments. |

## Left out

- The signature's argument parser (`CmdSignatureParser`: generate, parse, check, flags, options, FSDirs, full_args, isFSDir, isFSFile, isFSResource) is not part of this model. Its results are inputs:
  - a flag table with classifications;
  - a `ParseOutcome` with the namespace, the positional arguments and the check verdict.
- Writes to the namespace are modelled as persisting in the interpreter's `options` field. The source writes to `vars(options())`, and whether that object is shared between calls depends on that parser.
- `os.getcwd`, `os.path.abspath`, `os.path.dirname`, `os.path.basename`, `os.path.islink`, `os.readlink` and `repr` are uninterpreted functions. They are fields of `Signatures.Env` and `Program.FileSystem`, or parameters.
- `uuid.uuid4().hex` in the job name is the parameter `suffix`.
- YAML loading and the file reads in `parse` are left out. The documents are given as loaded values.
- `print` output is left out. The help text is returned as lines.
- `logging` is left out.
- `exit(0)` after the help is the `HelpShown` outcome.
- `exit(1)` is an error result, or `false` from `Interpret`.
- `printHelp`, `jenkinsSignature` and `vagrantSignature` are left out: the first only delegates to the parser, and the others are empty.
- `keep_default_flags` is stored but never used by the source.
- `os.path.abspath` applied to a boolean override raises an exception (an AttributeError under Python 2). The model leaves the boolean unchanged.
- When the parser's check fails, `exit(1)` also ends the process. `Interpret` only returns `false`, with the namespace already replaced.
- YAML values other than strings for names, entry points and descriptions are not modelled.
