/** nnn: the terminal file manager, built from source against three given handles. */
module Nnn {
  import opened Sdk

  const Name := "nnn"
  const Version := "5.1"

  function Url(version: string): string
  {
    "https://github.com/" + "jarun/nnn/archive/" + "refs/tags/v" + version + ".tar.gz"
  }

  /** The `PATH` line: only pkg-config's tools are added. */
  function PathLine(pkgConfig: string): string
  {
    "export PATH=\"" + pkgConfig + "/bin:$PATH\""
  }

  /** The compiler flags: the ncurses include directories, then readline's. */
  function FlagsLine(ncurses: string, readline: string): string
  {
    "export CPPFLAGS=\"-I" + ncurses + "/include -I" + ncurses + "/include/ncursesw -I" + readline + "/include\""
  }

  /** The linker flags: ncurses and readline, as search paths and as run paths. */
  function LinkLine(ncurses: string, readline: string): string
  {
    "export LDFLAGS=\"-L" + ncurses + "/lib -L" + readline + "/lib -Wl,-rpath," + ncurses + "/lib -Wl,-rpath," + readline + "/lib\""
  }

  /** The pkg-config search path: ncurses, then readline. */
  function PkgConfigLine(ncurses: string, readline: string): string
  {
    "export PKG_CONFIG_PATH=\"" + ncurses + "/lib/pkgconfig:" + readline + "/lib/pkgconfig\""
  }

  function Script(ncurses: string, pkgConfig: string, readline: string): seq<string>
  {
    [ "mkdir -pv \"$VORPAL_OUTPUT\"",
      "",
      "pushd ./source/" + Name + "/nnn-" + Version,
      "",
      PathLine(pkgConfig),
      FlagsLine(ncurses, readline),
      LinkLine(ncurses, readline),
      PkgConfigLine(ncurses, readline),
      "",
      "make PREFIX=\"$VORPAL_OUTPUT\"",
      "make PREFIX=\"$VORPAL_OUTPUT\" install" ]
  }

  /** The artifact registered for the three handles, which the step lists in parameter order. */
  function Artifact(env: Env, ncurses: Handle, pkgConfig: Handle, readline: Handle): (s: Spec)
    ensures Shaped(s, "nnn", "nnn:5.1", DefaultSystems) && Downloads(s, Url(Version))
    ensures s.steps[0] == Shell([ncurses, pkgConfig, readline], [], Script(env.key(ncurses), env.key(pkgConfig), env.key(readline)), [])
  {
    assert Alias(Name, Version) == "nnn:5.1";
    Spec(Name, [Shell([ncurses, pkgConfig, readline], [], Script(env.key(ncurses), env.key(pkgConfig), env.key(readline)), [])], DefaultSystems, [Alias(Name, Version)], [Source(Name, Url(Version), [])])
  }

  /** `build(context, ncurses, pkg_config, readline)`: one registration, with no system check. */
  function Run(env: Env, ncurses: Handle, pkgConfig: Handle, readline: Handle): Outcome
  {
    Registered(env, Artifact(env, ncurses, pkgConfig, readline))
  }

  method Build(ctx: Context, ncurses: Handle, pkgConfig: Handle, readline: Handle) returns (r: Result<Handle>)
    modifies ctx
    ensures r == Run(ctx.Environment(), ncurses, pkgConfig, readline).result
    ensures ctx.log == old(ctx.log) + Run(ctx.Environment(), ncurses, pkgConfig, readline).trace
    ensures ctx.runs == old(ctx.runs)
  {
    r := ctx.Register(Artifact(ctx.Environment(), ncurses, pkgConfig, readline));
  }

  /**
   * The script's flag lines: pkg-config is on the `PATH` (the fifth line) and
   * nowhere else, as every other line is the same whatever pkg-config's key is;
   * the compiler and linker flags and the pkg-config path name only ncurses and readline.
   */
  lemma ScriptLines(ncurses: string, pkgConfig: string, readline: string)
    ensures PathLine(pkgConfig) in Script(ncurses, pkgConfig, readline)
    ensures FlagsLine(ncurses, readline) in Script(ncurses, pkgConfig, readline)
    ensures LinkLine(ncurses, readline) in Script(ncurses, pkgConfig, readline)
    ensures PkgConfigLine(ncurses, readline) in Script(ncurses, pkgConfig, readline)
    ensures Script(ncurses, pkgConfig, readline)[4] == PathLine(pkgConfig)
    ensures forall q, i | 0 <= i < |Script(ncurses, q, readline)| && i != 4 :: Script(ncurses, q, readline)[i] == Script(ncurses, pkgConfig, readline)[i]
  {
    var s := Script(ncurses, pkgConfig, readline);
    assert s[4] == PathLine(pkgConfig) && s[5] == FlagsLine(ncurses, readline);
    assert s[6] == LinkLine(ncurses, readline) && s[7] == PkgConfigLine(ncurses, readline);
  }

  /** The given handles are used as they are: nothing else is built, and at most nnn is registered. */
  lemma RunOutcome(env: Env, ncurses: Handle, pkgConfig: Handle, readline: Handle)
    ensures Run(env, ncurses, pkgConfig, readline).result == env.submit(Artifact(env, ncurses, pkgConfig, readline))
    ensures Run(env, ncurses, pkgConfig, readline).trace == (if Run(env, ncurses, pkgConfig, readline).result.Ok? then [Artifact(env, ncurses, pkgConfig, readline)] else [])
  {
  }

  /** With an accepting engine, the build succeeds and registers nnn alone. */
  lemma Accepted(env: Env, ncurses: Handle, pkgConfig: Handle, readline: Handle)
    requires Accepts(env)
    ensures Run(env, ncurses, pkgConfig, readline).result.Ok? && Names(Run(env, ncurses, pkgConfig, readline).trace) == ["nnn"]
  {
    RunOutcome(env, ncurses, pkgConfig, readline);
  }
}
