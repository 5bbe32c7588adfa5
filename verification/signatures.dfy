/**
 * The command signature as the interpreter sees it: the flag table and the
 * positional arguments produced by the signature parser (which is not part of
 * this model), the values the argument parser stores, and the process
 * environment the interpreter consults.
 */
module Signatures {
  import opened Wrappers

  /** A parsed or forced option value: booleans for boolean flags, strings otherwise. */
  datatype Value = BoolValue(b: bool) | StrValue(s: string)

  /** Filesystem classification of a flag or positional argument (isFSFile / isFSDir). */
  datatype FsKind = NotFs | FsFile | FsDir

  /**
   * One entry of the flag table, keyed by the flag's short key: its long
   * name, the target variable its value is stored under, whether its type is
   * "boolean", its declared default, and the optional `direction` and
   * `default-action` fields.
   */
  datatype FlagSpec = FlagSpec(
    long: string,
    target: string,
    isBoolean: bool,
    default: Value,
    direction: Option<string>,
    defaultAction: Option<string>,
    fs: FsKind)

  /** A positional argument: its name, its value ("" when not supplied), its default action and classification. */
  datatype PosArg = PosArg(name: string, value: string, defaultAction: Option<string>, fs: FsKind)

  /** The flag table: the keys in iteration order and the descriptor of each key. */
  datatype FlagTable = FlagTable(keys: seq<string>, flags: map<string, FlagSpec>)

  /** The process environment and the library calls the interpreter makes. */
  datatype Env = Env(
    cwd: string,                 // os.getcwd()
    absPath: string -> string,   // os.path.abspath
    dirName: string -> string,   // os.path.dirname
    quote: Value -> string)      // repr

  /** Why a renderer produced nothing: a SignatureException, or the fatal exit of the default-path check. */
  datatype SignatureError =
    | HelpNotSupported          // SignatureException: help requested of the Kubernetes renderer
    | MissingDirection(flag: string)  // SignatureException: directory flag without `direction`
    | InDirectionUnsupported    // SignatureException: directory flag whose direction is not "out"
    | NonContiguousArgs(name: string) // exit(1): blank positional argument followed by `name`

  const SET_CWD := "set-cwd"
  const OUT := "out"

  predicate Distinct<T(==)>(s: seq<T>)
  {
    forall i, j :: 0 <= i < j < |s| ==> s[i] != s[j]
  }

  /** Keys are listed once each and every listed key has a descriptor. */
  ghost predicate ValidTable(t: FlagTable)
  {
    Distinct(t.keys) && forall k :: k in t.flags <==> k in t.keys
  }

  /** Every flag's target variable has a parsed value (the argument parser stores one for each flag). */
  predicate TargetsPresent(t: FlagTable, options: map<string, Value>)
  {
    forall k :: k in t.flags ==> t.flags[k].target in options
  }

  /** No two flags share a target variable. */
  predicate UniqueTargets(t: FlagTable)
  {
    forall a, b :: a in t.flags && b in t.flags && t.flags[a].target == t.flags[b].target ==> a == b
  }

  /** The keys of the directory flags (FSDirs). */
  function FSDirs(t: FlagTable): set<string>
  {
    set k | k in t.flags && t.flags[k].fs == FsDir
  }

  predicate IsFSResource(f: FlagSpec)
  {
    f.fs != NotFs
  }

  predicate IsSetCwd(action: Option<string>)
  {
    action == Some(SET_CWD)
  }

  /** os.path.abspath applied to a value; a boolean is left as it is. */
  function AbsValue(env: Env, v: Value): Value
  {
    match v
    case StrValue(s) => StrValue(env.absPath(s))
    case BoolValue(_) => v
  }

  /** The text `"%s" % v` produces. */
  function Text(v: Value): string
  {
    match v
    case StrValue(s) => s
    case BoolValue(b) => if b then "True" else "False"
  }

  /** `s` lists exactly the members of `m`, each once. */
  ghost predicate Enumerates(s: seq<string>, m: set<string>)
  {
    Distinct(s) && forall x :: x in s <==> x in m
  }
}
