/**
 * The command lines and working directory with which the agent binary is
 * started: `start` for the tunnel agent and `authtoken` for saving a token.
 */
module Arguments {
  import opened Wrappers

  /** The fixed head of the `start` command line. */
  const StartBase: seq<string> := ["start", "--none", "--log=stdout"]
  const RegionFlag: string := "--region="
  const ConfigFlag: string := "--config="
  const AuthCommand: string := "authtoken"

  /**
   * The caller's options object. Absent properties are `None`; `binPath`
   * maps the default binary directory to the one to use.
   */
  datatype Options = Options(
    region: Option<string>,
    configPath: Option<string>,
    binPath: Option<string -> string>,
    authtoken: Option<string>)

  /** The empty object `{}`. */
  const NoOptions: Options := Options(None, None, None, None)

  /** JavaScript truthiness of an optional string property: present and not `""`. */
  predicate Given(o: Option<string>) { o.Some? && o.value != "" }

  /** The directory the binary is started in: `binPath(defaultDir)` when `binPath` is given. */
  function WorkDir(opts: Options, defaultDir: string): (dir: string)
    ensures opts.binPath.None? ==> dir == defaultDir
  {
    if opts.binPath.Some? then opts.binPath.value(defaultDir) else defaultDir
  }

  /** The `start` command line for `opts`. */
  function StartArgv(opts: Options): (argv: seq<string>)
    ensures |argv| == |StartBase| + (if Given(opts.region) then 1 else 0) + (if Given(opts.configPath) then 1 else 0)
    ensures argv[..|StartBase|] == StartBase
    ensures Given(opts.region) ==> argv[|StartBase|] == RegionFlag + opts.region.value
    ensures Given(opts.configPath) ==> argv[|argv| - 1] == ConfigFlag + opts.configPath.value
  {
    StartBase
      + (if Given(opts.region) then [RegionFlag + opts.region.value] else [])
      + (if Given(opts.configPath) then [ConfigFlag + opts.configPath.value] else [])
  }

  /** Builds the `start` command line by pushing the optional flags, and picks the directory. */
  method PrepareStart(opts: Options, defaultDir: string) returns (argv: seq<string>, cwd: string)
    ensures argv == StartArgv(opts)
    ensures cwd == WorkDir(opts, defaultDir)
    ensures opts.binPath.None? ==> cwd == defaultDir
  {
    cwd := defaultDir;
    argv := StartBase;
    if Given(opts.region) {
      argv := argv + [RegionFlag + opts.region.value];
    }
    if Given(opts.configPath) {
      argv := argv + [ConfigFlag + opts.configPath.value];
    }
    if opts.binPath.Some? {
      cwd := opts.binPath.value(cwd);
    }
  }

  /** What the agent reads for `flag`: the rest of the first argument that starts with it. */
  function FlagValue(argv: seq<string>, flag: string): Option<string>
    decreases |argv|
  {
    if argv == [] then None
    else if flag <= argv[0] then Some(argv[0][|flag|..])
    else FlagValue(argv[1..], flag)
  }

  lemma {:induction false} FlagValueAppend(a: seq<string>, b: seq<string>, flag: string)
    ensures FlagValue(a + b, flag) == if FlagValue(a, flag).Some? then FlagValue(a, flag) else FlagValue(b, flag)
    decreases |a|
  {
    if a == [] {
      assert a + b == b;
    } else {
      assert (a + b)[0] == a[0];
      assert (a + b)[1..] == a[1..] + b;
      FlagValueAppend(a[1..], b, flag);
    }
  }

  lemma {:induction false} FlagValueSingle(x: string, flag: string)
    ensures FlagValue([x], flag) == if flag <= x then Some(x[|flag|..]) else None
  {
    assert [x][1..] == [];
  }

  /** None of the fixed arguments looks like a region or config flag. */
  lemma {:induction false} StartBaseHasNoFlag(flag: string)
    requires flag == RegionFlag || flag == ConfigFlag
    ensures FlagValue(StartBase, flag).None?
  {
    assert !(flag <= StartBase[0]) by { assert |StartBase[0]| < |flag|; }
    assert !(flag <= StartBase[1]) by { assert |StartBase[1]| < |flag|; }
    assert !(flag <= StartBase[2]) by { assert StartBase[2][2] != flag[2]; }
    assert StartBase[1..][1..][1..] == [];
  }

  /** The agent reads back exactly the region and config path that were given. */
  lemma {:induction false} StartArgvFlags(opts: Options)
    ensures FlagValue(StartArgv(opts), RegionFlag) == if Given(opts.region) then Some(opts.region.value) else None
    ensures FlagValue(StartArgv(opts), ConfigFlag) == if Given(opts.configPath) then Some(opts.configPath.value) else None
  {
    var r: seq<string> := if Given(opts.region) then [RegionFlag + opts.region.value] else [];
    var c: seq<string> := if Given(opts.configPath) then [ConfigFlag + opts.configPath.value] else [];
    assert StartArgv(opts) == StartBase + r + c;
    StartBaseHasNoFlag(RegionFlag);
    StartBaseHasNoFlag(ConfigFlag);
    FlagValueAppend(StartBase, r, RegionFlag);
    FlagValueAppend(StartBase + r, c, RegionFlag);
    FlagValueAppend(StartBase, r, ConfigFlag);
    FlagValueAppend(StartBase + r, c, ConfigFlag);
    if Given(opts.region) {
      var x := RegionFlag + opts.region.value;
      FlagValueSingle(x, RegionFlag);
      FlagValueSingle(x, ConfigFlag);
      assert x[|RegionFlag|..] == opts.region.value;
      assert x[2] != ConfigFlag[2];
    }
    if Given(opts.configPath) {
      var x := ConfigFlag + opts.configPath.value;
      FlagValueSingle(x, ConfigFlag);
      FlagValueSingle(x, RegionFlag);
      assert x[|ConfigFlag|..] == opts.configPath.value;
      assert x[2] != RegionFlag[2];
    }
  }

  /** The argument of `setAuthtoken`: a token string or an options object. */
  datatype TokenArg = Token(token: string) | Opts(opts: Options)

  /** The options in effect: the object itself, or `{}` for a plain string. */
  function OptionsOf(arg: TokenArg): (opts: Options)
    ensures arg.Token? ==> !Given(opts.configPath) && opts.binPath.None?
    ensures arg.Opts? ==> opts == arg.opts
  {
    match arg
    case Token(_) => NoOptions
    case Opts(o) => o
  }

  /** The token: the string itself, or the object's `authtoken` property (possibly absent). */
  function TokenOf(arg: TokenArg): (token: Option<string>)
    ensures arg.Token? ==> token == Some(arg.token)
    ensures arg.Opts? ==> token == OptionsOf(arg).authtoken
  {
    match arg
    case Token(t) => Some(t)
    case Opts(o) => o.authtoken
  }

  /** The `authtoken` command line; an absent token stays `None` (JavaScript's `undefined`). */
  function AuthtokenArgv(arg: TokenArg): (argv: seq<Option<string>>)
    ensures |argv| == if Given(OptionsOf(arg).configPath) then 3 else 2
    ensures argv[0] == Some(AuthCommand)
    ensures arg.Token? ==> argv[1] == Some(arg.token)
    ensures arg.Opts? ==> argv[1] == arg.opts.authtoken
    ensures |argv| == 3 ==> argv[2] == Some(ConfigFlag + OptionsOf(arg).configPath.value)
  {
    [Some(AuthCommand), TokenOf(arg)]
      + if Given(OptionsOf(arg).configPath) then [Some(ConfigFlag + OptionsOf(arg).configPath.value)] else []
  }

  /** Builds the `authtoken` command line by pushing the optional config flag, and picks the directory. */
  method PrepareAuthtoken(arg: TokenArg, defaultDir: string) returns (argv: seq<Option<string>>, cwd: string)
    ensures argv == AuthtokenArgv(arg)
    ensures cwd == WorkDir(OptionsOf(arg), defaultDir)
  {
    var isOpts := arg.Opts?;
    var opts := if isOpts then arg.opts else NoOptions;
    var token := if isOpts then opts.authtoken else Some(arg.token);
    argv := [Some(AuthCommand), token];
    if Given(opts.configPath) {
      argv := argv + [Some(ConfigFlag + opts.configPath.value)];
    }
    cwd := defaultDir;
    if opts.binPath.Some? {
      cwd := opts.binPath.value(cwd);
    }
  }

  /** A plain token string saves just that token, with no config flag, from the default directory. */
  lemma {:induction false} PlainTokenCommand(t: string, defaultDir: string)
    ensures AuthtokenArgv(Token(t)) == [Some(AuthCommand), Some(t)]
    ensures WorkDir(OptionsOf(Token(t)), defaultDir) == defaultDir
  {
  }
}
