/**
 * CmdSignatureInterpreter: interprets the arguments of one command against
 * its signature and renders the resolved invocation for the host, for a
 * container, or as a Kubernetes job.
 */
module Interpreter {
  import opened Wrappers
  import opened Signatures
  import opened Resolution
  import opened Rendering
  import opened KubeJob
  import opened Strings

  /**
   * What the signature's argument parser (not part of this model) makes of
   * the arguments: whether its check passed, the option namespace (target
   * variable to value) and the positional arguments with their values.
   */
  datatype ParseOutcome = ParseOutcome(valid: bool, options: Options, posArgs: seq<PosArg>)

  predicate HelpRequested(args: seq<string>)
  {
    "-h" in args || "--help" in args
  }

  /** The flag-argument loop of hostSignature and dockerSignature. */
  method RenderCmdFlags(t: FlagTable, options: Options, env: Env, nonDefault: seq<string>) returns (cmdFlags: seq<string>)
    requires Listed(t, nonDefault) && TargetsPresent(t, options)
    ensures cmdFlags == CmdFlags(t, options, env, nonDefault)
  {
    cmdFlags := [];
    for i := 0 to |nonDefault|
      invariant cmdFlags == CmdFlags(t, options, env, nonDefault[..i])
    {
      var f := t.flags[nonDefault[i]];
      if f.isBoolean {
        cmdFlags := cmdFlags + ["--" + f.long];
      } else {
        var value := options[f.target];
        if IsFSResource(f) {
          value := AbsValue(env, value);
        }
        cmdFlags := cmdFlags + ["--" + f.long + " " + env.quote(value)];
      }
      assert nonDefault[..i + 1][..i] == nonDefault[..i];
    }
    assert nonDefault[..|nonDefault|] == nonDefault;
  }

  /** The host-path collection loops of dockerSignature, before deduplication. */
  method CollectHostPaths(t: FlagTable, options: Options, env: Env, args: seq<PosArg>) returns (hostPaths: seq<string>)
    requires ValidTable(t) && TargetsPresent(t, options)
    ensures hostPaths == HostPaths(t, options, env, args)
  {
    hostPaths := [];
    for i := 0 to |t.keys|
      invariant hostPaths == FlagHostPaths(t, options, env, t.keys[..i])
    {
      var f := t.flags[t.keys[i]];
      var path := options[f.target];
      if f.fs == FsDir && Text(path) != "" {
        hostPaths := hostPaths + [Text(path)];
      }
      if f.fs == FsFile && Text(path) != "" {
        hostPaths := hostPaths + [env.dirName(env.absPath(Text(path)))];
      }
      assert t.keys[..i + 1][..i] == t.keys[..i];
    }
    assert t.keys[..|t.keys|] == t.keys;
    ghost var flagPaths := hostPaths;
    for i := 0 to |args|
      invariant hostPaths == flagPaths + ArgHostPaths(args[..i])
    {
      if args[i].fs == FsDir {
        hostPaths := hostPaths + [args[i].value];
      }
      assert args[..i + 1][..i] == args[..i];
    }
    assert args[..|args|] == args;
  }

  /** `list(set(paths))`: every path once, in the set's iteration order. */
  method Dedup(paths: seq<string>) returns (unique: seq<string>)
    ensures Enumerates(unique, set p | p in paths)
  {
    unique := [];
    var rest := set p | p in paths;
    while rest != {}
      invariant rest <= set p | p in paths
      invariant Enumerates(unique, (set p | p in paths) - rest)
      decreases rest
    {
      var p :| p in rest;
      unique := unique + [p];
      rest := rest - {p};
    }
  }

  /** The mount loop of dockerSignature: each host path mounted onto itself. */
  method MountsFor(hostPaths: seq<string>) returns (mounts: seq<Mount>)
    ensures |mounts| == |hostPaths|
    ensures forall i :: 0 <= i < |mounts| ==> mounts[i].host == hostPaths[i] && mounts[i].container == hostPaths[i]
  {
    mounts := [];
    for i := 0 to |hostPaths|
      invariant |mounts| == i
      invariant forall j :: 0 <= j < i ==> mounts[j].host == hostPaths[j] && mounts[j].container == hostPaths[j]
    {
      mounts := mounts + [Mount(hostPaths[i], hostPaths[i])];
    }
  }

  class CmdSignatureInterpreter {
    const table: FlagTable     // the command's flag table, loaded once from the signature files
    const command: string
    const task: string
    const image: string
    const binary: string
    const keepDefaultFlags: bool
    const env: Env
    var shortEval: bool        // a help request was seen
    var overrides: Options     // long flag name to forced value
    var options: Options       // the argument parser's option namespace, which the renderers update
    var fullArgs: array<PosArg> // the argument parser's positional arguments, updated in place

    constructor(table: FlagTable, command: string, task: string, image: string, binary: string,
                keepDefaultFlags: bool, env: Env)
      ensures this.table == table && this.command == command && this.task == task
      ensures this.image == image && this.binary == binary && this.keepDefaultFlags == keepDefaultFlags
      ensures this.env == env
      ensures !shortEval && overrides == map[] && options == map[] && fullArgs.Length == 0
    {
      this.table := table;
      this.command := command;
      this.task := task;
      this.image := image;
      this.binary := binary;
      this.keepDefaultFlags := keepDefaultFlags;
      this.env := env;
      shortEval := false;
      overrides := map[];
      options := map[];
      fullArgs := new PosArg[0](_ => PosArg("", "", None, NotFs));
    }

    /**
     * A help request only sets the short-evaluation mark. Otherwise the
     * parser's results are taken over; a failed check is fatal, and on
     * success the overrides are kept for the renderers.
     */
    method Interpret(args: seq<string>, overrides: Options, parsed: ParseOutcome) returns (ok: bool)
      modifies this
      ensures HelpRequested(args) ==>
                ok && shortEval && this.overrides == old(this.overrides) &&
                options == old(options) && fullArgs == old(fullArgs)
      ensures !HelpRequested(args) ==>
                && shortEval == old(shortEval)
                && options == parsed.options
                && fresh(fullArgs) && fullArgs[..] == parsed.posArgs
                && ok == parsed.valid
                && this.overrides == if parsed.valid then overrides else old(this.overrides)
    {
      if "-h" in args || "--help" in args {
        shortEval := true;
        return true;
      }
      options := parsed.options;
      fullArgs := new PosArg[|parsed.posArgs|](i requires 0 <= i < |parsed.posArgs| => parsed.posArgs[i]);
      if !parsed.valid {
        return false;
      }
      this.overrides := overrides;
      ok := true;
    }

    /**
     * Fills the "set-cwd" defaults: each empty directory flag whose default
     * action is "set-cwd" gets the working directory, under its key, and is
     * listed; each "set-cwd" positional argument gets it in place. Then a
     * blank positional argument followed by a non-blank one is fatal; the
     * offender is the first such argument.
     */
    method SetDefaultPaths(emptyPathFlags: set<string>, activePosArgs: array<PosArg>)
        returns (cwdOptions: Options, nonDefaultFlags: seq<string>, offender: Option<string>)
      requires emptyPathFlags <= table.flags.Keys
      modifies activePosArgs
      ensures Enumerates(nonDefaultFlags, CwdFlags(table, emptyPathFlags))
      ensures cwdOptions == CwdOptions(nonDefaultFlags, env.cwd)
      ensures activePosArgs[..] == FillCwd(old(activePosArgs[..]), env.cwd)
      ensures offender.None? <==> Contiguous(activePosArgs[..])
      ensures offender.Some? ==> FirstGap(activePosArgs[..], offender.value)
    {
      cwdOptions := map[];
      nonDefaultFlags := [];
      var rest := emptyPathFlags;
      while rest != {}
        invariant rest <= emptyPathFlags
        invariant Enumerates(nonDefaultFlags, CwdFlags(table, emptyPathFlags - rest))
        invariant cwdOptions == CwdOptions(nonDefaultFlags, env.cwd)
        decreases rest
      {
        var flag :| flag in rest;
        assert flag !in nonDefaultFlags;
        rest := rest - {flag};
        var action := table.flags[flag].defaultAction;
        if action.None? {
          continue;
        }
        if action.value == SET_CWD {
          cwdOptions := cwdOptions[flag := StrValue(env.cwd)];
          nonDefaultFlags := nonDefaultFlags + [flag];
          continue;
        }
      }
      assert emptyPathFlags - rest == emptyPathFlags;

      ghost var before := activePosArgs[..];
      for i := 0 to activePosArgs.Length
        invariant forall j :: 0 <= j < i ==> activePosArgs[j] == FillCwd(before, env.cwd)[j]
        invariant forall j :: i <= j < activePosArgs.Length ==> activePosArgs[j] == before[j]
      {
        var arg := activePosArgs[i];
        if arg.defaultAction.None? {
          continue;
        }
        if arg.defaultAction.value == SET_CWD {
          activePosArgs[i] := arg.(value := env.cwd);
          continue;
        }
      }

      assert activePosArgs[..] == FillCwd(before, env.cwd);
      var blank := false;
      for i := 0 to activePosArgs.Length
        invariant blank <==> exists j :: 0 <= j < i && activePosArgs[j].value == ""
        invariant Contiguous(activePosArgs[..i])
      {
        if activePosArgs[i].value == "" {
          blank := true;
          continue;
        }
        if blank {
          return cwdOptions, nonDefaultFlags, Some(activePosArgs[i].name);
        }
      }
      offender := None;
    }

    /**
     * The resolution every renderer performs: the flags whose value differs
     * from their default, in table order; then the working-directory defaults
     * of setDefaultPaths, stored under the flag keys and listed in the order
     * they were filled; then the overrides, by long name. A blank positional
     * argument followed by a non-blank one ends the program before the
     * options change.
     */
    method ResolveOptions() returns (nonDefault: seq<string>, offender: Option<string>, ghost cwdOrder: seq<string>)
      requires ValidTable(table) && TargetsPresent(table, options)
      modifies this`options, fullArgs
      ensures Enumerates(cwdOrder, PendingCwd(table, old(options)))
      ensures fullArgs[..] == FillCwd(old(fullArgs[..]), env.cwd)
      ensures offender.None? <==> Contiguous(fullArgs[..])
      ensures offender.Some? ==> FirstGap(fullArgs[..], offender.value) && options == old(options)
      ensures offender.None? ==> Resolution(options, nonDefault) == Resolved(table, old(options), overrides, env, cwdOrder)
    {
      nonDefault := ListNonDefault(table, options);
      var emptyPathFlags := FSDirs(table) - set k | k in nonDefault;
      var cwdOptions, cwdFlags;
      cwdOptions, cwdFlags, offender := SetDefaultPaths(emptyPathFlags, fullArgs);
      cwdOrder := cwdFlags;
      if offender.Some? {
        return;
      }
      var withCwd, listed := AddCwdDefaults(options, nonDefault, cwdOptions, cwdFlags);
      assert withCwd == options + CwdOptions(cwdFlags, env.cwd);
      var resolved := OverrideFlags(table, overrides, env, Resolution(withCwd, listed));
      options := resolved.options;
      nonDefault := resolved.nonDefault;
    }

    /**
     * The command line on the host: the help invocation after a help request;
     * otherwise the binary, the command, the flag argument of each flag of
     * the resolved list, and the positional values with the working directory
     * filled in.
     */
    method HostSignature() returns (r: Result<string, SignatureError>, ghost cwdOrder: seq<string>)
      requires ValidTable(table) && (!shortEval ==> TargetsPresent(table, options))
      modifies this`options, fullArgs
      ensures shortEval ==> r == Ok(HostHelp(binary, command)) && options == old(options) && fullArgs[..] == old(fullArgs[..])
      ensures !shortEval ==>
                var args := FillCwd(old(fullArgs[..]), env.cwd);
                && Enumerates(cwdOrder, PendingCwd(table, old(options)))
                && fullArgs[..] == args
                && (r.Ok? <==> Contiguous(args))
                && (r.Err? ==> r.error.NonContiguousArgs? && FirstGap(args, r.error.name) && options == old(options))
                && (r.Ok? ==>
                      var res := Resolved(table, old(options), overrides, env, cwdOrder);
                      && options == res.options
                      && r.value == HostLine(binary, command, CmdFlags(table, res.options, env, res.nonDefault), args))
    {
      if shortEval {
        return Ok(binary + " " + command + " -h"), [];
      }
      var nonDefault, offender;
      nonDefault, offender, cwdOrder := ResolveOptions();
      if offender.Some? {
        return Err(NonContiguousArgs(offender.value)), cwdOrder;
      }
      var cmdFlags := RenderCmdFlags(table, options, env, nonDefault);
      r := Ok(binary + " " + command + " " + Join(cmdFlags, " ") + " " + Join(PosValues(fullArgs[..]), " "));
    }

    /**
     * The command line in a container: every host path the flags and the
     * directory positional arguments name, once each, mounted onto itself,
     * then the image and the command line as on the host.
     */
    method DockerSignature() returns (r: Result<string, SignatureError>, ghost cwdOrder: seq<string>, ghost mountOrder: seq<string>)
      requires ValidTable(table) && (!shortEval ==> TargetsPresent(table, options))
      modifies this`options, fullArgs
      ensures shortEval ==> r == Ok(DockerHelp(image, binary, command)) && options == old(options) && fullArgs[..] == old(fullArgs[..])
      ensures !shortEval ==>
                var args := FillCwd(old(fullArgs[..]), env.cwd);
                && Enumerates(cwdOrder, PendingCwd(table, old(options)))
                && fullArgs[..] == args
                && (r.Ok? <==> Contiguous(args))
                && (r.Err? ==> r.error.NonContiguousArgs? && FirstGap(args, r.error.name) && options == old(options))
                && (r.Ok? ==>
                      var res := Resolved(table, old(options), overrides, env, cwdOrder);
                      && options == res.options
                      && Enumerates(mountOrder, set p | p in HostPaths(table, res.options, env, args))
                      && r.value == DockerLine(image, binary, command, SelfMounts(mountOrder),
                                               CmdFlags(table, res.options, env, res.nonDefault), args))
    {
      if shortEval {
        return Ok("docker run -t " + image + " " + binary + " " + command + " -h"), [], [];
      }
      var nonDefault, offender;
      nonDefault, offender, cwdOrder := ResolveOptions();
      if offender.Some? {
        return Err(NonContiguousArgs(offender.value)), cwdOrder, [];
      }
      var hostPaths := CollectHostPaths(table, options, env, fullArgs[..]);
      var unique := Dedup(hostPaths);
      mountOrder := unique;
      var mounts := MountsFor(unique);
      assert mounts == SelfMounts(unique);
      var cmdFlags := RenderCmdFlags(table, options, env, nonDefault);
      r := Ok("docker run " + Join(MountOptions(mounts), " ") + " -t " + image + " " + binary + " " + command
              + " " + Join(cmdFlags, " ") + " " + Join(PosValues(fullArgs[..]), " "));
    }

    /**
     * The Kubernetes job: refused after a help request; otherwise the flag
     * loop (out directories redirected to scratch directories, other
     * directory flags refused), then the container script of post-start
     * steps, the main command and the pre-stop steps. `suffix` stands for the
     * random hex that makes the job name unique.
     */
    method KubeSignature(config: map<string, string>, suffix: string)
        returns (r: Result<Job, SignatureError>, ghost cwdOrder: seq<string>)
      requires ValidTable(table) && (!shortEval ==> TargetsPresent(table, options))
      modifies this`options, fullArgs
      ensures shortEval ==> r == Err(HelpNotSupported) && options == old(options) && fullArgs[..] == old(fullArgs[..])
      ensures !shortEval ==>
                var args := FillCwd(old(fullArgs[..]), env.cwd);
                && Enumerates(cwdOrder, PendingCwd(table, old(options)))
                && fullArgs[..] == args
                && (!Contiguous(args) ==>
                      r.Err? && r.error.NonContiguousArgs? && FirstGap(args, r.error.name) && options == old(options))
                && (Contiguous(args) ==>
                      var res := Resolved(table, old(options), overrides, env, cwdOrder);
                      && options == res.options
                      && r == KubeDocument(table, res.options, env, res.nonDefault, binary, command, task, image, config, suffix))
    {
      if shortEval {
        return Err(HelpNotSupported), [];
      }
      var nonDefault, offender;
      nonDefault, offender, cwdOrder := ResolveOptions();
      if offender.Some? {
        return Err(NonContiguousArgs(offender.value)), cwdOrder;
      }
      var flagsOut := KubeFlagLoop(table, options, env, nonDefault);
      if flagsOut.Err? {
        return Err(flagsOut.error), cwdOrder;
      }
      var jobName := "job-" + task + "-" + command + "-" + suffix;
      var script := KubeScript(table, flagsOut.value, binary, command, config, jobName);
      r := Ok(JobDocument(jobName, image, script));
    }
  }

  /** The first loop of each renderer: the flags whose value differs from their default, in table order. */
  method ListNonDefault(t: FlagTable, options: Options) returns (nonDefault: seq<string>)
    requires ValidTable(t) && TargetsPresent(t, options)
    ensures nonDefault == NonDefault(t, options, t.keys)
  {
    nonDefault := [];
    for i := 0 to |t.keys|
      invariant nonDefault == NonDefault(t, options, t.keys[..i])
    {
      var f := t.flags[t.keys[i]];
      if options[f.target] != f.default {
        nonDefault := nonDefault + [t.keys[i]];
      }
      assert t.keys[..i + 1][..i] == t.keys[..i];
    }
    assert t.keys[..|t.keys|] == t.keys;
  }

  /** The loop over setDefaultPaths' results: each filled flag is listed, and its value stored under its key. */
  method AddCwdDefaults(options: Options, nonDefault: seq<string>, cwdOptions: Options, cwdFlags: seq<string>)
      returns (withCwd: Options, listed: seq<string>)
    requires forall k :: k in cwdFlags ==> k in cwdOptions
    ensures listed == nonDefault + cwdFlags
    ensures withCwd.Keys == options.Keys + (set k | k in cwdFlags)
    ensures forall k :: k in withCwd ==> withCwd[k] == if k in cwdFlags then cwdOptions[k] else options[k]
  {
    withCwd, listed := options, nonDefault;
    for i := 0 to |cwdFlags|
      invariant listed == nonDefault + cwdFlags[..i]
      invariant withCwd.Keys == options.Keys + (set k | k in cwdFlags[..i])
      invariant forall k :: k in withCwd ==> withCwd[k] == if k in cwdFlags[..i] then cwdOptions[k] else options[k]
    {
      listed := listed + [cwdFlags[i]];
      withCwd := withCwd[cwdFlags[i] := cwdOptions[cwdFlags[i]]];
      assert cwdFlags[..i + 1] == cwdFlags[..i] + [cwdFlags[i]];
    }
    assert cwdFlags[..|cwdFlags|] == cwdFlags;
  }

  /** The override loop of each renderer, over the table in order. */
  method OverrideFlags(t: FlagTable, overrides: Options, env: Env, r: Resolution) returns (after: Resolution)
    requires ValidTable(t)
    ensures after == ApplyOverrides(t, overrides, env, r, t.keys)
  {
    var options, nonDefault := r.options, r.nonDefault;
    for i := 0 to |t.keys|
      invariant Resolution(options, nonDefault) == ApplyOverrides(t, overrides, env, r, t.keys[..i])
    {
      var k := t.keys[i];
      var f := t.flags[k];
      assert t.keys[..i + 1][..i] == t.keys[..i];
      if f.long in overrides {
        options := options[f.target := overrides[f.long]];
        if IsFSResource(f) {
          options := options[f.target := AbsValue(env, options[f.target])];
        }
        if k !in nonDefault {
          nonDefault := nonDefault + [k];
        }
      }
    }
    assert t.keys[..|t.keys|] == t.keys;
    after := Resolution(options, nonDefault);
  }

  /** The flag loop of kubeSignature; the first refused directory flag raises. */
  method KubeFlagLoop(t: FlagTable, options: Options, env: Env, nonDefault: seq<string>)
      returns (r: Result<KubeFlagsOut, SignatureError>)
    requires Listed(t, nonDefault) && TargetsPresent(t, options)
    ensures r == KubeFlags(t, options, env, nonDefault)
  {
    var cmdFlags, outFlags := [], [];
    for i := 0 to |nonDefault|
      invariant KubeFlags(t, options, env, nonDefault[..i]) == Ok(KubeFlagsOut(cmdFlags, outFlags))
    {
      var k := nonDefault[i];
      var f := t.flags[k];
      assert nonDefault[..i + 1][..i] == nonDefault[..i];
      if f.fs != FsDir {
        if f.isBoolean {
          cmdFlags := cmdFlags + ["--" + f.long];
        } else {
          var value := options[f.target];
          if IsFSResource(f) {
            value := AbsValue(env, value);
          }
          cmdFlags := cmdFlags + ["--" + f.long + " " + env.quote(value)];
        }
        continue;
      }
      if f.direction.None? {
        KubeFlagsErrSticks(t, options, env, nonDefault, i + 1);
        return Err(MissingDirection(k));
      }
      if f.direction.value == OUT {
        cmdFlags := cmdFlags + ["--" + f.long + " " + ScratchDir(k)];
        outFlags := outFlags + [k];
      } else {
        KubeFlagsErrSticks(t, options, env, nonDefault, i + 1);
        return Err(InDirectionUnsupported);
      }
    }
    assert nonDefault[..|nonDefault|] == nonDefault;
    r := Ok(KubeFlagsOut(cmdFlags, outFlags));
  }

  /** The container script of kubeSignature: post-start steps, the main command and the pre-stop steps, joined by " && ". */
  method KubeScript(t: FlagTable, o: KubeFlagsOut, binary: string, command: string,
                    config: map<string, string>, jobName: string) returns (script: string)
    requires Listed(t, o.outFlags)
    ensures script == Join(Steps(t, o.outFlags, MainStep(binary, command, o.cmdFlags), RemoteOf(config), jobName), " && ")
  {
    var main := "/bin/sh -c \"" + binary + " " + command + " " + Join(o.cmdFlags, " ") + "\" 2>&1 | tee build.log";
    var hostname, servername, target := "ichiba", "storage", "/var/www/html/pub/ichiba";
    if "hostname" in config {
      hostname := config["hostname"];
    }
    if "servername" in config {
      servername := config["servername"];
    }
    if "target" in config {
      target := config["target"];
    }
    var remote := Remote(hostname, servername, target);
    var preStop := ["cp /etc/storage-pk/* " + KEY_FILE, "chmod 0600 " + KEY_FILE];
    preStop := preStop + ["ssh -o StrictHostKeyChecking=no -i " + KEY_FILE + " " + hostname + "@" + servername
                          + " 'mkdir -p " + target + "/" + jobName + "'"];
    preStop := preStop + [Upload("build.log", remote, jobName)];
    var postStart := [];
    var outFlags := o.outFlags;
    for i := 0 to |outFlags|
      invariant postStart == PostStart(outFlags[..i])
    {
      postStart := postStart + [MkdirStep(outFlags[i])];
      assert outFlags[..i + 1][..i] == outFlags[..i];
    }
    for i := 0 to |outFlags|
      invariant preStop == LogSteps(remote, jobName) + ArtifactSteps(t, outFlags[..i], remote, jobName)
    {
      var fileName := t.flags[outFlags[i]].target;
      preStop := preStop + [ArchiveStep(fileName, outFlags[i]), Upload(fileName + ".tar.gz", remote, jobName)];
      assert outFlags[..i + 1][..i] == outFlags[..i];
    }
    assert outFlags[..|outFlags|] == outFlags;
    assert remote == RemoteOf(config) && main == MainStep(binary, command, o.cmdFlags);
    assert postStart + [main] + preStop == Steps(t, outFlags, main, remote, jobName);
    script := Join(postStart + [main] + preStop, " && ");
  }
}
