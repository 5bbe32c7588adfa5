/**
 * What kubeSignature produces: a batch/v1 Job whose single container runs
 * `/bin/sh -ec <script>`, the script being the " && " join of the post-start
 * steps (one mkdir per out flag), the main command, and the pre-stop steps
 * (key staging, log upload, and one archive and upload per out flag).
 */
module KubeJob {
  import opened Wrappers
  import opened Signatures
  import opened Resolution
  import opened Rendering
  import opened Strings

  /** Where an out directory flag is rewritten to inside the container. */
  const SCRATCH_ROOT := "/tmp/var/run/ichiba/"
  const KEY_FILE := "/tmp/storage-pk"

  function ScratchDir(k: string): string
  {
    SCRATCH_ROOT + k
  }

  /** The rendered flag arguments and the out flags, in the order of the non-default list. */
  datatype KubeFlagsOut = KubeFlagsOut(cmdFlags: seq<string>, outFlags: seq<string>)

  /** A directory flag kubeSignature refuses: no direction, or a direction other than "out". */
  predicate Rejected(f: FlagSpec)
  {
    f.fs == FsDir && f.direction != Some(OUT)
  }

  /** One iteration of the flag loop of kubeSignature. */
  function KubeFlagStep(t: FlagTable, options: Options, env: Env,
                        acc: Result<KubeFlagsOut, SignatureError>, k: string): (r: Result<KubeFlagsOut, SignatureError>)
    requires k in t.flags && t.flags[k].target in options
    ensures acc.Err? ==> r == acc
    ensures acc.Ok? ==> (r.Err? <==> Rejected(t.flags[k]))
    ensures acc.Ok? && r.Err? ==> r.error == RejectionOf(t.flags[k], k)
    ensures acc.Ok? && r.Ok? ==>
              var f := t.flags[k];
              r.value == KubeFlagsOut(acc.value.cmdFlags + [KubeArgument(f, k, options[f.target], env)],
                                      acc.value.outFlags + (if f.fs == FsDir then [k] else []))
  {
    match acc
    case Err(_) => acc
    case Ok(o) =>
      var f := t.flags[k];
      if f.fs != FsDir then
        Ok(o.(cmdFlags := o.cmdFlags + [FlagArgument(f, options[f.target], env)]))
      else if f.direction.None? then
        Err(MissingDirection(k))
      else if f.direction.value == OUT then
        Ok(KubeFlagsOut(o.cmdFlags + ["--" + f.long + " " + ScratchDir(k)], o.outFlags + [k]))
      else
        Err(InDirectionUnsupported)
  }

  /** The flag loop of kubeSignature over the non-default list `nd`. */
  function KubeFlags(t: FlagTable, options: Options, env: Env, nd: seq<string>): (r: Result<KubeFlagsOut, SignatureError>)
    requires Listed(t, nd) && TargetsPresent(t, options)
    ensures r.Ok? ==> forall k :: k in r.value.outFlags ==> k in nd
    decreases |nd|
  {
    if nd == [] then Ok(KubeFlagsOut([], []))
    else KubeFlagStep(t, options, env, KubeFlags(t, options, env, nd[..|nd| - 1]), nd[|nd| - 1])
  }

  /** Once a prefix of the list is refused, the whole list is refused with the same error. */
  lemma {:induction false} KubeFlagsErrSticks(t: FlagTable, options: Options, env: Env, nd: seq<string>, n: nat)
    requires Listed(t, nd) && TargetsPresent(t, options) && n <= |nd|
    requires KubeFlags(t, options, env, nd[..n]).Err?
    ensures KubeFlags(t, options, env, nd) == KubeFlags(t, options, env, nd[..n])
    decreases |nd| - n
  {
    if n == |nd| {
      assert nd[..n] == nd;
    } else {
      assert nd[..n + 1][..n] == nd[..n];
      KubeFlagsErrSticks(t, options, env, nd, n + 1);
    }
  }

  /** The directory flags of `nd`, in order. */
  function DirFlags(t: FlagTable, nd: seq<string>): seq<string>
    requires Listed(t, nd)
    decreases |nd|
  {
    if nd == [] then []
    else DirFlags(t, nd[..|nd| - 1]) + (if t.flags[nd[|nd| - 1]].fs == FsDir then [nd[|nd| - 1]] else [])
  }

  /** The error the first rejected flag `k` raises. */
  function RejectionOf(f: FlagSpec, k: string): SignatureError
  {
    if f.direction.None? then MissingDirection(k) else InDirectionUnsupported
  }

  /**
   * The flag loop fails exactly when some directory flag of the list lacks
   * "out" as its direction, and then with the error of the first such flag:
   * MissingDirection when it has no direction, InDirectionUnsupported
   * otherwise.
   */
  lemma {:induction false} KubeFlagsVerdict(t: FlagTable, options: Options, env: Env, nd: seq<string>)
    requires Listed(t, nd) && TargetsPresent(t, options)
    ensures KubeFlags(t, options, env, nd).Ok? <==> forall k :: k in nd ==> !Rejected(t.flags[k])
    ensures KubeFlags(t, options, env, nd).Err? ==>
              exists i :: 0 <= i < |nd| && Rejected(t.flags[nd[i]]) &&
                (forall j :: 0 <= j < i ==> !Rejected(t.flags[nd[j]])) &&
                KubeFlags(t, options, env, nd).error == RejectionOf(t.flags[nd[i]], nd[i])
    decreases |nd|
  {
    if nd != [] {
      var n := |nd| - 1;
      var init := nd[..n];
      assert nd == init + [nd[n]];
      KubeFlagsVerdict(t, options, env, init);
      var r := KubeFlags(t, options, env, nd);
      if KubeFlags(t, options, env, init).Err? {
        var i :| 0 <= i < |init| && Rejected(t.flags[init[i]]) &&
                 (forall j :: 0 <= j < i ==> !Rejected(t.flags[init[j]])) &&
                 KubeFlags(t, options, env, init).error == RejectionOf(t.flags[init[i]], init[i]);
        assert nd[i] == init[i];
        assert forall j :: 0 <= j < i ==> nd[j] == init[j];
      } else if r.Err? {
        assert forall j :: 0 <= j < n ==> nd[j] == init[j] && nd[j] in init;
      }
    }
  }

  /** The argument a flag the loop accepts renders as: an out directory flag points at its scratch directory. */
  function KubeArgument(f: FlagSpec, k: string, v: Value, env: Env): string
  {
    if f.fs == FsDir then "--" + f.long + " " + ScratchDir(k) else FlagArgument(f, v, env)
  }

  /**
   * When the flag loop succeeds: one argument per flag of the list, in order;
   * an out directory flag renders as "--long /tmp/var/run/ichiba/<key>",
   * any other flag as on the host; the out flags are the list's directory
   * flags, in order.
   */
  lemma {:induction false} KubeFlagsOutput(t: FlagTable, options: Options, env: Env, nd: seq<string>)
    requires Listed(t, nd) && TargetsPresent(t, options)
    requires KubeFlags(t, options, env, nd).Ok?
    ensures var o := KubeFlags(t, options, env, nd).value;
            && |o.cmdFlags| == |nd|
            && o.outFlags == DirFlags(t, nd)
            && forall i :: 0 <= i < |nd| ==>
                 o.cmdFlags[i] == KubeArgument(t.flags[nd[i]], nd[i], options[t.flags[nd[i]].target], env)
    decreases |nd|
  {
    if nd != [] {
      var n := |nd| - 1;
      var init := nd[..n];
      var k := nd[n];
      assert KubeFlags(t, options, env, init).Ok?;
      KubeFlagsOutput(t, options, env, init);
      var prev := KubeFlags(t, options, env, init).value;
      var o := KubeFlags(t, options, env, nd).value;
      assert o.cmdFlags == prev.cmdFlags + [KubeArgument(t.flags[k], k, options[t.flags[k].target], env)];
      forall i | 0 <= i < n
        ensures o.cmdFlags[i] == KubeArgument(t.flags[nd[i]], nd[i], options[t.flags[nd[i]].target], env)
      {
        assert o.cmdFlags[i] == prev.cmdFlags[i] && nd[i] == init[i];
      }
    }
  }

  /** The artifact store the pre-stop steps upload to (the `config` knobs). */
  datatype Remote = Remote(hostname: string, servername: string, target: string)

  function RemoteOf(config: map<string, string>): Remote
  {
    Remote(if "hostname" in config then config["hostname"] else "ichiba",
           if "servername" in config then config["servername"] else "storage",
           if "target" in config then config["target"] else "/var/www/html/pub/ichiba")
  }

  function Upload(file: string, remote: Remote, jobName: string): string
  {
    "scp -o StrictHostKeyChecking=no -i " + KEY_FILE + " " + file + " "
      + remote.hostname + "@" + remote.servername + ":" + remote.target + "/" + jobName + "/."
  }

  function MkdirStep(k: string): string
  {
    "mkdir -p " + ScratchDir(k)
  }

  function ArchiveStep(fileName: string, k: string): string
  {
    "tar -czf " + fileName + ".tar.gz " + ScratchDir(k)
  }

  /** The post-start steps: one scratch directory per out flag, in order. */
  function PostStart(outFlags: seq<string>): seq<string>
    decreases |outFlags|
  {
    if outFlags == [] then []
    else PostStart(outFlags[..|outFlags| - 1]) + [MkdirStep(outFlags[|outFlags| - 1])]
  }

  /** Key staging and log upload, the first pre-stop steps. */
  function LogSteps(remote: Remote, jobName: string): seq<string>
  {
    [ "cp /etc/storage-pk/* " + KEY_FILE,
      "chmod 0600 " + KEY_FILE,
      "ssh -o StrictHostKeyChecking=no -i " + KEY_FILE + " " + remote.hostname + "@" + remote.servername
        + " 'mkdir -p " + remote.target + "/" + jobName + "'",
      Upload("build.log", remote, jobName) ]
  }

  /** The archive and upload pair of each out flag, named after its target, in order. */
  function ArtifactSteps(t: FlagTable, outFlags: seq<string>, remote: Remote, jobName: string): seq<string>
    requires Listed(t, outFlags)
    decreases |outFlags|
  {
    if outFlags == [] then []
    else
      var k := outFlags[|outFlags| - 1];
      ArtifactSteps(t, outFlags[..|outFlags| - 1], remote, jobName)
        + [ArchiveStep(t.flags[k].target, k), Upload(t.flags[k].target + ".tar.gz", remote, jobName)]
  }

  /** The main command; its output is piped through tee so the container's status is tee's. */
  function MainStep(binary: string, command: string, cmdFlags: seq<string>): string
  {
    "/bin/sh -c \"" + binary + " " + command + " " + Join(cmdFlags, " ") + "\" 2>&1 | tee build.log"
  }

  /**
   * The main command is the host line with no positional arguments, less
   * that line's trailing blank: the positional values never reach the job.
   */
  lemma MainStepOmitsArgs(binary: string, command: string, cmdFlags: seq<string>)
    ensures var host := HostLine(binary, command, cmdFlags, []);
            MainStep(binary, command, cmdFlags) == "/bin/sh -c \"" + host[..|host| - 1] + "\" 2>&1 | tee build.log"
  {
  }

  /** The container script's steps: post-start, main, pre-stop. */
  function Steps(t: FlagTable, outFlags: seq<string>, main: string, remote: Remote, jobName: string): seq<string>
    requires Listed(t, outFlags)
  {
    PostStart(outFlags) + [main] + LogSteps(remote, jobName) + ArtifactSteps(t, outFlags, remote, jobName)
  }

  lemma {:induction false} PostStartAt(outFlags: seq<string>)
    ensures |PostStart(outFlags)| == |outFlags|
    ensures forall i :: 0 <= i < |outFlags| ==> PostStart(outFlags)[i] == MkdirStep(outFlags[i])
    decreases |outFlags|
  {
    if outFlags != [] {
      PostStartAt(outFlags[..|outFlags| - 1]);
    }
  }

  lemma {:induction false} ArtifactStepsAt(t: FlagTable, outFlags: seq<string>, remote: Remote, jobName: string)
    requires Listed(t, outFlags)
    ensures |ArtifactSteps(t, outFlags, remote, jobName)| == 2 * |outFlags|
    ensures forall i :: 0 <= i < |outFlags| ==>
              var target := t.flags[outFlags[i]].target;
              && ArtifactSteps(t, outFlags, remote, jobName)[2 * i] == ArchiveStep(target, outFlags[i])
              && ArtifactSteps(t, outFlags, remote, jobName)[2 * i + 1] == Upload(target + ".tar.gz", remote, jobName)
    decreases |outFlags|
  {
    if outFlags != [] {
      ArtifactStepsAt(t, outFlags[..|outFlags| - 1], remote, jobName);
    }
  }

  /**
   * The script's layout: the i-th step creates the i-th out flag's scratch
   * directory; then the main command; then the four log steps; then, for the
   * i-th out flag, the archive of its scratch directory named after its
   * target and the upload of that archive.
   */
  lemma StepsLayout(t: FlagTable, outFlags: seq<string>, main: string, remote: Remote, jobName: string)
    requires Listed(t, outFlags)
    ensures var steps := Steps(t, outFlags, main, remote, jobName);
            var n := |outFlags|;
            && |steps| == 3 * n + 5
            && (forall i :: 0 <= i < n ==> steps[i] == MkdirStep(outFlags[i]))
            && steps[n] == main
            && steps[n + 1..n + 5] == LogSteps(remote, jobName)
            && forall i :: 0 <= i < n ==>
                 && steps[n + 5 + 2 * i] == ArchiveStep(t.flags[outFlags[i]].target, outFlags[i])
                 && steps[n + 6 + 2 * i] == Upload(t.flags[outFlags[i]].target + ".tar.gz", remote, jobName)
  {
    PostStartAt(outFlags);
    ArtifactStepsAt(t, outFlags, remote, jobName);
    var n := |outFlags|;
    var steps := Steps(t, outFlags, main, remote, jobName);
    var post := PostStart(outFlags);
    var logs := LogSteps(remote, jobName);
    var art := ArtifactSteps(t, outFlags, remote, jobName);
    var tail := logs + art;
    assert |logs| == 4 && |post| == n && |art| == 2 * n;
    assert steps == post + [main] + tail;
    forall i | 0 <= i < n
      ensures steps[i] == MkdirStep(outFlags[i])
    {
      assert steps[i] == post[i];
    }
    assert steps[n] == main;
    assert steps[n + 1..n + 5] == logs by {
      assert steps[n + 1..] == tail;
      assert tail[..4] == logs;
    }
    forall i | 0 <= i < n
      ensures steps[n + 5 + 2 * i] == art[2 * i]
      ensures steps[n + 6 + 2 * i] == art[2 * i + 1]
    {
      assert steps[n + 5 + 2 * i] == tail[4 + 2 * i];
      assert steps[n + 6 + 2 * i] == tail[5 + 2 * i];
    }
  }

  function JobName(task: string, command: string, suffix: string): string
  {
    "job-" + task + "-" + command + "-" + suffix
  }

  datatype VolumeMount = VolumeMount(name: string, mountPath: string, readOnly: bool)
  datatype Container = Container(name: string, image: string, command: seq<string>, volumeMounts: seq<VolumeMount>)
  datatype Volume = Volume(name: string, secretName: string)
  datatype PodSpec = PodSpec(containers: seq<Container>, restartPolicy: string, volumes: seq<Volume>)
  /** The job document: apiVersion, kind, metadata.name, spec.template.metadata.name and spec.template.spec. */
  datatype Job = Job(apiVersion: string, kind: string, name: string, templateName: string, pod: PodSpec)

  /** The job document running `script` in one container, with the storage key mounted from its secret. */
  function JobDocument(name: string, image: string, script: string): (r: Job)
    ensures r.apiVersion == "batch/v1" && r.kind == "Job"
    ensures r.name == name && r.templateName == name
    ensures |r.pod.containers| == 1 && r.pod.restartPolicy == "Never"
    ensures var c := r.pod.containers[0];
            c.name == name && c.image == image && c.command == ["/bin/sh", "-ec", script]
    ensures forall m :: m in r.pod.containers[0].volumeMounts ==>
              m.readOnly && exists v :: v in r.pod.volumes && v.name == m.name
  {
    Job("batch/v1", "Job", name, name,
        PodSpec([Container(name, image, ["/bin/sh", "-ec", script],
                           [VolumeMount("storage-pk", "/etc/storage-pk", true)])],
                "Never",
                [Volume("storage-pk", "storage-pk")]))
  }

  /** The document kubeSignature returns for the resolved non-default list `nd`, or the error it raises. */
  function KubeDocument(t: FlagTable, options: Options, env: Env, nd: seq<string>, binary: string,
                        command: string, task: string, image: string, config: map<string, string>,
                        suffix: string): Result<Job, SignatureError>
    requires Listed(t, nd) && TargetsPresent(t, options)
  {
    match KubeFlags(t, options, env, nd)
    case Err(e) => Err(e)
    case Ok(o) =>
      var jobName := JobName(task, command, suffix);
      Ok(JobDocument(jobName, image,
                     Join(Steps(t, o.outFlags, MainStep(binary, command, o.cmdFlags), RemoteOf(config), jobName), " && ")))
  }
}
