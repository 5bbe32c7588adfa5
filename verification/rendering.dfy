/**
 * What hostSignature and dockerSignature produce from a resolved option set:
 * the flag arguments, the command lines, and the container's volume mounts.
 */
module Rendering {
  import opened Signatures
  import opened Resolution
  import opened Strings

  /**
   * One flag on the command line: "--long" for a boolean flag, otherwise
   * "--long " followed by the quoted value, absolute-pathed for a filesystem
   * resource.
   */
  function FlagArgument(f: FlagSpec, v: Value, env: Env): string
  {
    if f.isBoolean then "--" + f.long
    else "--" + f.long + " " + env.quote(AbsIfResource(f, v, env))
  }

  /** The flag arguments for the non-default list `nd`, in its order. */
  function CmdFlags(t: FlagTable, options: Options, env: Env, nd: seq<string>): seq<string>
    requires Listed(t, nd) && TargetsPresent(t, options)
    decreases |nd|
  {
    if nd == [] then []
    else
      var k := nd[|nd| - 1];
      CmdFlags(t, options, env, nd[..|nd| - 1]) + [FlagArgument(t.flags[k], options[t.flags[k].target], env)]
  }

  /**
   * The i-th flag argument renders the i-th flag of the non-default list:
   * bare "--long" when it is boolean, "--long <quoted value>" otherwise.
   */
  lemma {:induction false} CmdFlagsFollowList(t: FlagTable, options: Options, env: Env, nd: seq<string>)
    requires Listed(t, nd) && TargetsPresent(t, options)
    ensures |CmdFlags(t, options, env, nd)| == |nd|
    ensures forall i :: 0 <= i < |nd| ==>
              var f := t.flags[nd[i]];
              CmdFlags(t, options, env, nd)[i] ==
                if f.isBoolean then "--" + f.long
                else "--" + f.long + " " + env.quote(AbsIfResource(f, options[f.target], env))
    decreases |nd|
  {
    if nd != [] {
      var n := |nd| - 1;
      var init := nd[..n];
      CmdFlagsFollowList(t, options, env, init);
      var prev := CmdFlags(t, options, env, init);
      var flags := CmdFlags(t, options, env, nd);
      assert flags == prev + [FlagArgument(t.flags[nd[n]], options[t.flags[nd[n]].target], env)];
      forall i | 0 <= i < |nd|
        ensures flags[i] == FlagArgument(t.flags[nd[i]], options[t.flags[nd[i]].target], env)
      {
        if i < n {
          assert flags[i] == prev[i] && nd[i] == init[i];
        }
      }
    }
  }

  /** The positional arguments' values, in declared order. */
  function PosValues(args: seq<PosArg>): seq<string>
  {
    seq(|args|, i requires 0 <= i < |args| => args[i].value)
  }

  /** `"%s %s %s %s" % (binary, command, flags, positional args)` */
  function HostLine(binary: string, command: string, cmdFlags: seq<string>, args: seq<PosArg>): (r: string)
    ensures |r| > |binary| && r[..|binary|] == binary && r[|binary|] == ' '
    ensures var tail := Join(PosValues(args), " ");
            |r| > |tail| && r[|r| - |tail|..] == tail && r[|r| - |tail| - 1] == ' '
    ensures args == [] ==> r[|r| - 1] == ' '
  {
    binary + " " + command + " " + Join(cmdFlags, " ") + " " + Join(PosValues(args), " ")
  }

  /** The short help invocation on the host. */
  function HostHelp(binary: string, command: string): string
  {
    binary + " " + command + " -h"
  }

  /** `p` is the host path a flag with value `v` contributes to the mounts. */
  predicate MountedBy(f: FlagSpec, v: Value, env: Env, p: string)
  {
    || (f.fs == FsDir && Text(v) != "" && p == Text(v))
    || (f.fs == FsFile && Text(v) != "" && p == env.dirName(env.absPath(Text(v))))
  }

  /** The host paths one flag contributes: its directory, or the directory holding its file; nothing when empty. */
  function FlagHostPath(f: FlagSpec, v: Value, env: Env): seq<string>
  {
    (if f.fs == FsDir && Text(v) != "" then [Text(v)] else [])
    + (if f.fs == FsFile && Text(v) != "" then [env.dirName(env.absPath(Text(v)))] else [])
  }

  /** The host paths of the flags `ks`, in order, before deduplication. */
  function FlagHostPaths(t: FlagTable, options: Options, env: Env, ks: seq<string>): seq<string>
    requires Listed(t, ks) && TargetsPresent(t, options)
    decreases |ks|
  {
    if ks == [] then []
    else
      var k := ks[|ks| - 1];
      FlagHostPaths(t, options, env, ks[..|ks| - 1]) + FlagHostPath(t.flags[k], options[t.flags[k].target], env)
  }

  /** The values of the directory positional arguments, in order (blank ones included). */
  function ArgHostPaths(args: seq<PosArg>): seq<string>
    decreases |args|
  {
    if args == [] then []
    else
      var a := args[|args| - 1];
      ArgHostPaths(args[..|args| - 1]) + (if a.fs == FsDir then [a.value] else [])
  }

  /**
   * A path is collected from the flags exactly when some flag mounts it: a
   * non-empty directory value, or the directory of a non-empty file value.
   */
  lemma {:induction false} FlagHostPathsMembers(t: FlagTable, options: Options, env: Env, ks: seq<string>)
    requires Listed(t, ks) && TargetsPresent(t, options)
    ensures forall p :: p in FlagHostPaths(t, options, env, ks) <==>
              exists k :: k in ks && MountedBy(t.flags[k], options[t.flags[k].target], env, p)
    decreases |ks|
  {
    if ks != [] {
      var n := |ks| - 1;
      var init := ks[..n];
      assert ks == init + [ks[n]];
      FlagHostPathsMembers(t, options, env, init);
      forall p ensures p in FlagHostPaths(t, options, env, ks) <==>
                       exists k :: k in ks && MountedBy(t.flags[k], options[t.flags[k].target], env, p)
      {
        if exists k :: k in ks && MountedBy(t.flags[k], options[t.flags[k].target], env, p) {
          var k :| k in ks && MountedBy(t.flags[k], options[t.flags[k].target], env, p);
          if k != ks[n] {
            assert k in init;
          }
        }
      }
    }
  }

  /** A path is collected from the positional arguments exactly when it is the value of a directory argument. */
  lemma {:induction false} ArgHostPathsMembers(args: seq<PosArg>)
    ensures forall p :: p in ArgHostPaths(args) <==> exists a :: a in args && a.fs == FsDir && a.value == p
    decreases |args|
  {
    if args != [] {
      var n := |args| - 1;
      assert args == args[..n] + [args[n]];
      ArgHostPathsMembers(args[..n]);
    }
  }

  /**
   * A flag given the working directory under its key, whose target nothing
   * else writes, is in the resolved list and is rendered from its declared
   * default: a string default is printed as its absolute path.
   */
  lemma CwdDefaultRendered(t: FlagTable, options: Options, overrides: Options, env: Env, cwdOrder: seq<string>, k: string)
    requires ValidTable(t) && TargetsPresent(t, options)
    requires Enumerates(cwdOrder, PendingCwd(t, options)) && k in cwdOrder
    requires t.flags[k].target !in cwdOrder && !OverriddenTarget(t, overrides, t.keys, t.flags[k].target)
    ensures var r := Resolved(t, options, overrides, env, cwdOrder);
            var f := t.flags[k];
            && k in r.nonDefault && f.fs == FsDir
            && FlagArgument(f, r.options[f.target], env) == FlagArgument(f, f.default, env)
            && (!f.isBoolean && f.default.StrValue? ==>
                  FlagArgument(f, r.options[f.target], env) ==
                    "--" + f.long + " " + env.quote(StrValue(env.absPath(f.default.s))))
  {
    CwdDefaultMissesTarget(t, options, overrides, env, cwdOrder, k);
    ResolvedNonDefault(t, options, overrides, env, cwdOrder);
  }

  /**
   * Unlike an empty flag value, a blank directory argument is not skipped:
   * the empty path is collected and mounted.
   */
  lemma BlankDirArgMounted(args: seq<PosArg>, i: int)
    requires 0 <= i < |args| && args[i].fs == FsDir && args[i].value == ""
    ensures "" in ArgHostPaths(args)
  {
  }

  /** All host paths collected for the container, before deduplication. */
  function HostPaths(t: FlagTable, options: Options, env: Env, args: seq<PosArg>): seq<string>
    requires ValidTable(t) && TargetsPresent(t, options)
  {
    FlagHostPaths(t, options, env, t.keys) + ArgHostPaths(args)
  }

  /** A volume mount: a host path and where it appears in the container. */
  datatype Mount = Mount(host: string, container: string)

  /** Each host path mounted onto itself. */
  function SelfMounts(paths: seq<string>): seq<Mount>
  {
    seq(|paths|, i requires 0 <= i < |paths| => Mount(paths[i], paths[i]))
  }

  /** `"-v %s:%s" % (host, container)` for each mount. */
  function MountOptions(mounts: seq<Mount>): seq<string>
  {
    seq(|mounts|, i requires 0 <= i < |mounts| => "-v " + mounts[i].host + ":" + mounts[i].container)
  }

  /** `"docker run %s -t %s %s %s %s %s" % (mounts, image, binary, command, flags, positional args)` */
  function DockerLine(image: string, binary: string, command: string, mounts: seq<Mount>,
                      cmdFlags: seq<string>, args: seq<PosArg>): (r: string)
    ensures |r| > 11 && r[..11] == "docker run "
    ensures mounts == [] ==> |r| > 15 && r[..15] == "docker run  -t "
    ensures var tail := Join(PosValues(args), " ");
            |r| > |tail| && r[|r| - |tail|..] == tail && r[|r| - |tail| - 1] == ' '
    ensures args == [] ==> r[|r| - 1] == ' '
  {
    "docker run " + Join(MountOptions(mounts), " ") + " -t " + image + " " + binary + " " + command
      + " " + Join(cmdFlags, " ") + " " + Join(PosValues(args), " ")
  }

  /** The short help invocation in a container. */
  function DockerHelp(image: string, binary: string, command: string): string
  {
    "docker run -t " + image + " " + binary + " " + command + " -h"
  }
}
