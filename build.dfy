/**
 * The build script's argument parsing and environment (scripts/build.js).
 * The child process it spawns and its console output are not modelled.
 */
module Build {
  import opened Common

  const ModeFlag := "--mode"
  const Development := "development"
  const Production := "production"

  /** `process.argv.slice(2)` */
  function UserArgs(argv: seq<string>): seq<string>
  {
    if |argv| <= 2 then [] else argv[2..]
  }

  function IsModeFlag(a: string): bool { a == ModeFlag }

  /**
   * `mode`: the argument after the first `--mode` when there is one and it
   * is not empty, else "production".
   */
  function Mode(args: seq<string>): (mode: string)
  {
    match FindIndex(args, IsModeFlag)
    case Some(i) => if i + 1 < |args| && args[i + 1] != "" then args[i + 1] else Production
    case None => Production
  }

  /** `nodeEnv` and `reactAppEnv`: development only for the development mode. */
  function EnvFor(mode: string): string
  {
    if mode == Development then Development else Production
  }

  /** The three variables written into `process.env`, in order. */
  function BuildEnv(env: Record, args: seq<string>): Record
  {
    var e := EnvFor(Mode(args));
    Put(Put(Put(env, "NODE_ENV", e), "REACT_APP_ENV", e), "DISABLE_ESLINT_PLUGIN", "true")
  }

  /** The value after the first `--mode` is the mode when it is present and non-empty. */
  lemma {:induction false} ModeAfterFlag(args: seq<string>, i: nat)
    requires i + 1 < |args| && args[i] == ModeFlag && args[i + 1] != ""
    requires forall j :: 0 <= j < i ==> args[j] != ModeFlag
    ensures Mode(args) == args[i + 1]
  {
    assert IsModeFlag(args[i]);
  }

  /** Without a `--mode` flag, or with nothing usable after it, the mode is production. */
  lemma {:induction false} ModeDefault(args: seq<string>)
    ensures ModeFlag !in args ==> Mode(args) == Production
    ensures (|args| > 0 && args[|args| - 1] == ModeFlag
             && forall j :: 0 <= j < |args| - 1 ==> args[j] != ModeFlag) ==> Mode(args) == Production
  {
    if ModeFlag !in args {
      assert forall j :: 0 <= j < |args| ==> !IsModeFlag(args[j]);
    }
    if |args| > 0 && args[|args| - 1] == ModeFlag && forall j :: 0 <= j < |args| - 1 ==> args[j] != ModeFlag {
      assert IsModeFlag(args[|args| - 1]);
    }
  }

  /** Both variables are development exactly for the development mode, production otherwise. */
  lemma {:induction false} EnvForIff(mode: string)
    ensures EnvFor(mode) == Development <==> mode == Development
    ensures EnvFor(mode) in {Development, Production}
  {
  }

  /**
   * The environment seen by the build: NODE_ENV and REACT_APP_ENV follow
   * the mode, ESLint is switched off and every other variable is kept.
   */
  lemma {:induction false} BuildEnvValues(env: Record, args: seq<string>, k: string)
    ensures Get(BuildEnv(env, args), "NODE_ENV") == Some(EnvFor(Mode(args)))
    ensures Get(BuildEnv(env, args), "REACT_APP_ENV") == Some(EnvFor(Mode(args)))
    ensures Get(BuildEnv(env, args), "DISABLE_ESLINT_PLUGIN") == Some("true")
    ensures k !in {"NODE_ENV", "REACT_APP_ENV", "DISABLE_ESLINT_PLUGIN"} ==> Get(BuildEnv(env, args), k) == Get(env, k)
  {
    var e := EnvFor(Mode(args));
    var e1 := Put(env, "NODE_ENV", e);
    var e2 := Put(e1, "REACT_APP_ENV", e);
    GetPut(env, "NODE_ENV", e, k);
    GetPut(e1, "REACT_APP_ENV", e, k);
    GetPut(e2, "DISABLE_ESLINT_PLUGIN", "true", k);
    GetPut(e1, "REACT_APP_ENV", e, "NODE_ENV");
    GetPut(e2, "DISABLE_ESLINT_PLUGIN", "true", "NODE_ENV");
    GetPut(e2, "DISABLE_ESLINT_PLUGIN", "true", "REACT_APP_ENV");
    GetPut(env, "NODE_ENV", e, "NODE_ENV");
    GetPut(e1, "REACT_APP_ENV", e, "REACT_APP_ENV");
    GetPut(e2, "DISABLE_ESLINT_PLUGIN", "true", "DISABLE_ESLINT_PLUGIN");
  }

  /** The running script's environment, which the script writes in place. */
  class Process {
    var env: Record

    constructor(initial: Record)
      ensures env == initial
    {
      env := initial;
    }

    /** Parse the arguments and set the three variables before spawning. */
    method ConfigureEnv(argv: seq<string>) returns (mode: string)
      modifies this
      ensures mode == Mode(UserArgs(argv))
      ensures env == BuildEnv(old(env), UserArgs(argv))
    {
      var args := UserArgs(argv);
      mode := Mode(args);
      var nodeEnv := EnvFor(mode);
      var reactAppEnv := EnvFor(mode);
      env := Put(env, "NODE_ENV", nodeEnv);
      env := Put(env, "REACT_APP_ENV", reactAppEnv);
      env := Put(env, "DISABLE_ESLINT_PLUGIN", "true");
    }
  }
}
