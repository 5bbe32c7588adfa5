/**
 * The resolution that hostSignature, dockerSignature and kubeSignature each
 * perform before rendering, stated once as functions of the parsed options:
 *   1. the non-default list: flags whose parsed value differs from the default,
 *      in flag-table order;
 *   2. the default-path step: directory flags left at their default whose
 *      `default-action` is "set-cwd" get the working directory (stored under
 *      the flag's KEY, as the source does), and positional arguments tagged
 *      "set-cwd" get it too; a blank positional argument may not be followed
 *      by a non-blank one;
 *   3. the caller's overrides, keyed by long name, win and force the flag
 *      into the non-default list.
 */
module Resolution {
  import opened Wrappers
  import opened Signatures

  type Options = map<string, Value>

  /** Every key of `ks` is in the flag table. */
  ghost predicate Listed(t: FlagTable, ks: seq<string>)
  {
    forall k :: k in ks ==> k in t.flags
  }

  /** The flag's parsed value is not its declared default. */
  predicate Differs(t: FlagTable, options: Options, k: string)
    requires k in t.flags && t.flags[k].target in options
  {
    options[t.flags[k].target] != t.flags[k].default
  }

  /** The flags of `ks` whose value differs from the default, in the order of `ks`. */
  function NonDefault(t: FlagTable, options: Options, ks: seq<string>): seq<string>
    requires Listed(t, ks) && TargetsPresent(t, options)
    decreases |ks|
  {
    if ks == [] then []
    else
      var k := ks[|ks| - 1];
      NonDefault(t, options, ks[..|ks| - 1]) + (if Differs(t, options, k) then [k] else [])
  }

  /** `a` occurs before `b` in `ks`. */
  ghost predicate Before(ks: seq<string>, a: string, b: string)
  {
    exists p, q :: 0 <= p < q < |ks| && ks[p] == a && ks[q] == b
  }

  /**
   * The initial non-default list is exactly the flags whose value differs
   * from their default, each once, in the order of the table.
   */
  lemma {:induction false} NonDefaultIsFilter(t: FlagTable, options: Options, ks: seq<string>)
    requires Listed(t, ks) && TargetsPresent(t, options)
    ensures forall k :: k in NonDefault(t, options, ks) <==> k in ks && Differs(t, options, k)
    ensures Distinct(ks) ==> Distinct(NonDefault(t, options, ks))
    ensures var r := NonDefault(t, options, ks);
            forall i, j :: 0 <= i < j < |r| ==> Before(ks, r[i], r[j])
    decreases |ks|
  {
    if ks != [] {
      var n := |ks| - 1;
      var init := ks[..n];
      assert ks == init + [ks[n]];
      NonDefaultIsFilter(t, options, init);
      var prev := NonDefault(t, options, init);
      var r := NonDefault(t, options, ks);
      assert r == prev + (if Differs(t, options, ks[n]) then [ks[n]] else []);
      forall i, j | 0 <= i < j < |r| ensures Before(ks, r[i], r[j]) {
        if j < |prev| {
          assert prev[i] == NonDefault(t, options, init)[i];
          assert Before(init, prev[i], prev[j]);
          var p, q :| 0 <= p < q < |init| && init[p] == prev[i] && init[q] == prev[j];
          assert ks[p] == r[i] && ks[q] == r[j];
        } else {
          assert r[i] == prev[i] && prev[i] in init;
          var p :| 0 <= p < |init| && init[p] == r[i];
          assert ks[p] == r[i] && ks[n] == r[j];
        }
      }
      if Distinct(ks) {
        assert Distinct(init);
        assert ks[n] !in init;
      }
    }
  }

  /** The directory flags that did not get a value: candidates for a computed default. */
  function EmptyPathFlags(t: FlagTable, nonDefault: seq<string>): set<string>
  {
    FSDirs(t) - set k | k in nonDefault
  }

  /** The flags setDefaultPaths fills with the working directory. */
  function CwdFlags(t: FlagTable, emptyPathFlags: set<string>): set<string>
  {
    set k | k in emptyPathFlags && k in t.flags && IsSetCwd(t.flags[k].defaultAction)
  }

  /** The flags that get the working directory when resolving from `options`. */
  function PendingCwd(t: FlagTable, options: Options): set<string>
    requires ValidTable(t) && TargetsPresent(t, options)
  {
    CwdFlags(t, EmptyPathFlags(t, NonDefault(t, options, t.keys)))
  }

  /** The options setDefaultPaths returns: the working directory under each flag KEY it filled. */
  function CwdOptions(filled: seq<string>, cwd: string): Options
  {
    map k | k in filled :: StrValue(cwd)
  }

  /** The positional arguments after setDefaultPaths: every "set-cwd" one holds the working directory. */
  function FillCwd(args: seq<PosArg>, cwd: string): (r: seq<PosArg>)
    ensures |r| == |args|
    ensures forall i :: 0 <= i < |args| ==>
              && r[i].name == args[i].name && r[i].defaultAction == args[i].defaultAction && r[i].fs == args[i].fs
              && (IsSetCwd(args[i].defaultAction) ==> r[i].value == cwd)
              && (!IsSetCwd(args[i].defaultAction) ==> r[i] == args[i])
  {
    seq(|args|, i requires 0 <= i < |args| =>
      if IsSetCwd(args[i].defaultAction) then args[i].(value := cwd) else args[i])
  }

  /** No blank positional argument is followed by a non-blank one. */
  ghost predicate Contiguous(args: seq<PosArg>)
  {
    forall i, j :: 0 <= i < j < |args| && args[i].value == "" ==> args[j].value == ""
  }

  /** A blank argument between two non-blank ones is refused; trailing blank arguments are accepted. */
  lemma ContiguityExamples(a: string, b: string)
    requires a != "" && b != ""
    ensures !Contiguous([PosArg("first", a, None, NotFs), PosArg("second", "", None, NotFs), PosArg("third", b, None, NotFs)])
    ensures Contiguous([PosArg("first", a, None, NotFs), PosArg("second", b, None, NotFs), PosArg("third", "", None, NotFs)])
  {
    var gap := [PosArg("first", a, None, NotFs), PosArg("second", "", None, NotFs), PosArg("third", b, None, NotFs)];
    assert gap[1].value == "" && gap[2].value != "";
  }

  /** `name` is the first non-blank positional argument that follows a blank one. */
  ghost predicate FirstGap(args: seq<PosArg>, name: string)
  {
    exists j :: 0 <= j < |args| && args[j].name == name && args[j].value != "" &&
      (exists i :: 0 <= i < j && args[i].value == "") && Contiguous(args[..j])
  }

  /** The option values and the non-default list. */
  datatype Resolution = Resolution(options: Options, nonDefault: seq<string>)

  /** A value as the source stores or renders it for `f`: absolute-pathed when `f` is a filesystem resource. */
  function AbsIfResource(f: FlagSpec, v: Value, env: Env): Value
  {
    if IsFSResource(f) then AbsValue(env, v) else v
  }

  /** The override step for one flag of the table. */
  function ApplyOverride(t: FlagTable, overrides: Options, env: Env, r: Resolution, k: string): Resolution
    requires k in t.flags
  {
    var f := t.flags[k];
    if f.long in overrides then
      Resolution(r.options[f.target := AbsIfResource(f, overrides[f.long], env)],
                 if k in r.nonDefault then r.nonDefault else r.nonDefault + [k])
    else r
  }

  /** The override loop over the flags `ks`, in order. */
  function ApplyOverrides(t: FlagTable, overrides: Options, env: Env, r: Resolution, ks: seq<string>): Resolution
    requires Listed(t, ks)
    decreases |ks|
  {
    if ks == [] then r
    else
      ApplyOverride(t, overrides, env, ApplyOverrides(t, overrides, env, r, ks[..|ks| - 1]), ks[|ks| - 1])
  }

  /**
   * The resolved options and non-default list, given the order in which the
   * working-directory defaults were filled (the source iterates a set).
   */
  function Resolved(t: FlagTable, options: Options, overrides: Options, env: Env, cwdOrder: seq<string>): (r: Resolution)
    requires ValidTable(t) && TargetsPresent(t, options)
    ensures TargetsPresent(t, r.options)
    ensures Listed(t, cwdOrder) ==> Listed(t, r.nonDefault)
  {
    var start := Resolution(options + CwdOptions(cwdOrder, env.cwd), NonDefault(t, options, t.keys) + cwdOrder);
    NonDefaultIsFilter(t, options, t.keys);
    OverridesList(t, overrides, env, start, t.keys);
    OverridesOptions(t, overrides, env, start, t.keys);
    ApplyOverrides(t, overrides, env, start, t.keys)
  }

  /** Some flag of `ks` is overridden and stores its value under `x`. */
  ghost predicate OverriddenTarget(t: FlagTable, overrides: Options, ks: seq<string>, x: string)
    requires Listed(t, ks)
  {
    exists k :: k in ks && t.flags[k].long in overrides && t.flags[k].target == x
  }

  /**
   * The override loop keeps the list it starts from as a prefix, adds exactly
   * the overridden flags missing from it, and never adds a flag twice.
   */
  lemma {:induction false} OverridesList(t: FlagTable, overrides: Options, env: Env, r: Resolution, ks: seq<string>)
    requires Listed(t, ks)
    ensures var after := ApplyOverrides(t, overrides, env, r, ks);
            && |r.nonDefault| <= |after.nonDefault|
            && after.nonDefault[..|r.nonDefault|] == r.nonDefault
            && (forall k :: k in after.nonDefault <==> k in r.nonDefault || (k in ks && t.flags[k].long in overrides))
            && (Distinct(r.nonDefault) ==> Distinct(after.nonDefault))
    decreases |ks|
  {
    if ks != [] {
      var n := |ks| - 1;
      assert ks == ks[..n] + [ks[n]];
      OverridesList(t, overrides, env, r, ks[..n]);
    }
  }

  /**
   * The override loop writes only the targets of overridden flags; with
   * distinct targets each of those ends up holding its override.
   */
  lemma {:induction false} OverridesOptions(t: FlagTable, overrides: Options, env: Env, r: Resolution, ks: seq<string>)
    requires Listed(t, ks)
    ensures r.options.Keys <= ApplyOverrides(t, overrides, env, r, ks).options.Keys
    ensures var after := ApplyOverrides(t, overrides, env, r, ks);
            forall x :: !OverriddenTarget(t, overrides, ks, x) ==>
              (x in after.options <==> x in r.options) && (x in r.options ==> after.options[x] == r.options[x])
    ensures var after := ApplyOverrides(t, overrides, env, r, ks);
            UniqueTargets(t) ==>
              forall k :: k in ks && t.flags[k].long in overrides ==>
                t.flags[k].target in after.options &&
                after.options[t.flags[k].target] == AbsIfResource(t.flags[k], overrides[t.flags[k].long], env)
    decreases |ks|
  {
    if ks != [] {
      var n := |ks| - 1;
      var init := ks[..n];
      assert ks == init + [ks[n]];
      OverridesOptions(t, overrides, env, r, init);
    }
  }

  /**
   * A flag ends up in the non-default list exactly when its parsed value
   * differs from its default, it received the working directory, or the
   * caller overrode it; and it is listed only once.
   */
  lemma ResolvedNonDefault(t: FlagTable, options: Options, overrides: Options, env: Env, cwdOrder: seq<string>)
    requires ValidTable(t) && TargetsPresent(t, options)
    requires Enumerates(cwdOrder, PendingCwd(t, options))
    ensures var r := Resolved(t, options, overrides, env, cwdOrder);
            && Distinct(r.nonDefault)
            && forall k :: k in r.nonDefault <==>
                 k in t.flags && (Differs(t, options, k) || k in PendingCwd(t, options) || t.flags[k].long in overrides)
  {
    var initial := NonDefault(t, options, t.keys);
    NonDefaultIsFilter(t, options, t.keys);
    var start := Resolution(options + CwdOptions(cwdOrder, env.cwd), initial + cwdOrder);
    assert Distinct(start.nonDefault) by {
      forall i, j | 0 <= i < j < |start.nonDefault|
        ensures start.nonDefault[i] != start.nonDefault[j]
      {
        if j < |initial| {
          assert start.nonDefault[i] == initial[i] && start.nonDefault[j] == initial[j];
        } else if i < |initial| {
          var c := cwdOrder[j - |initial|];
          assert start.nonDefault[j] == c;
          assert c in PendingCwd(t, options);
          assert c !in (set k | k in initial);
          assert start.nonDefault[i] in initial;
        } else {
          assert start.nonDefault[i] == cwdOrder[i - |initial|];
          assert start.nonDefault[j] == cwdOrder[j - |initial|];
        }
      }
    }
    OverridesList(t, overrides, env, start, t.keys);
  }

  /**
   * After resolution every target still has a value; with distinct targets
   * an overridden flag holds its override (absolute-pathed for a filesystem
   * resource); every other entry keeps its parsed value, except the entries
   * named by the keys of the flags that received the working directory,
   * which hold it.
   */
  lemma ResolvedValues(t: FlagTable, options: Options, overrides: Options, env: Env, cwdOrder: seq<string>)
    requires ValidTable(t) && TargetsPresent(t, options)
    ensures var r := Resolved(t, options, overrides, env, cwdOrder);
            && TargetsPresent(t, r.options)
            && (UniqueTargets(t) ==>
                 forall k :: k in t.flags && t.flags[k].long in overrides ==>
                   t.flags[k].target in r.options &&
                   r.options[t.flags[k].target] == AbsIfResource(t.flags[k], overrides[t.flags[k].long], env))
            && (forall x :: x in options && x !in cwdOrder && !OverriddenTarget(t, overrides, t.keys, x) ==>
                 x in r.options && r.options[x] == options[x])
            && (forall c :: c in cwdOrder && !OverriddenTarget(t, overrides, t.keys, c) ==>
                 c in r.options && r.options[c] == StrValue(env.cwd))
  {
    var start := Resolution(options + CwdOptions(cwdOrder, env.cwd), NonDefault(t, options, t.keys) + cwdOrder);
    OverridesOptions(t, overrides, env, start, t.keys);
    if UniqueTargets(t) {
      forall k | k in t.flags && t.flags[k].long in overrides
        ensures k in t.keys
      {
      }
    }
  }

  /**
   * The working directory computed for a flag is stored under the flag's
   * key: when the key is not the flag's target, the value the renderers read
   * stays the declared default.
   */
  lemma CwdDefaultMissesTarget(t: FlagTable, options: Options, overrides: Options, env: Env, cwdOrder: seq<string>, k: string)
    requires ValidTable(t) && TargetsPresent(t, options)
    requires Enumerates(cwdOrder, PendingCwd(t, options)) && k in cwdOrder
    requires t.flags[k].target !in cwdOrder && !OverriddenTarget(t, overrides, t.keys, t.flags[k].target)
    ensures var r := Resolved(t, options, overrides, env, cwdOrder);
            t.flags[k].target in r.options && r.options[t.flags[k].target] == t.flags[k].default
  {
    NonDefaultIsFilter(t, options, t.keys);
    ResolvedValues(t, options, overrides, env, cwdOrder);
  }
}
