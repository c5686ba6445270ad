/** pkg-config: built from source with its internal glib on every system. */
module PkgConfig {
  import opened Sdk

  const Name := "pkg-config"
  const Version := "0.29.2"

  function Url(version: string): string
  {
    "https://" + "pkgconfig.freedesktop.org/" + "releases/pkg-config-" + version + ".tar.gz"
  }

  function Script(name: string, version: string): seq<string>
  {
    [ "mkdir -pv \"$VORPAL_OUTPUT/bin\"",
      "",
      "pushd ./source/" + name + "/pkg-config-" + version,
      "",
      "CFLAGS=\"-Wno-error=int-conversion\"" + " ./configure" + " --prefix=$VORPAL_OUTPUT" + " --with-internal-glib",
      "",
      "make",
      "make install" ]
  }

  /** The artifact pkg-config registers, whatever the system. */
  function Artifact(env: Env): (s: Spec)
    ensures Shaped(s, "pkg-config", "pkg-config:0.29.2", DefaultSystems)
    ensures SelfContained(s) && s.steps[0].script == Script(Name, Version)
    ensures Downloads(s, Url(Version))
  {
    assert Alias(Name, Version) == "pkg-config:0.29.2";
    Spec(Name, [Shell([], [], Script(Name, Version), [])], DefaultSystems, [Alias(Name, Version)], [Source(Name, Url(Version), [])])
  }

  /** The configure line the script runs, with its glib and warning options. */
  lemma ScriptLines(env: Env)
    ensures "CFLAGS=\"-Wno-error=int-conversion\"" + " ./configure" + " --prefix=$VORPAL_OUTPUT" + " --with-internal-glib" in Artifact(env).steps[0].script
  {
  }

  /** Building pkg-config: one registration, with no system check. */
  function Run(env: Env): Outcome
  {
    Registered(env, Artifact(env))
  }

  /** The result is the engine's answer, and only an accepted artifact enters the trace. */
  lemma RunOutcome(env: Env)
    ensures Run(env).result == env.submit(Artifact(env))
    ensures Run(env).trace == (if Run(env).result.Ok? then [Artifact(env)] else [])
  {
  }

  method Build(ctx: Context) returns (r: Result<Handle>)
    modifies ctx
    ensures r == Run(ctx.Environment()).result
    ensures ctx.log == old(ctx.log) + Run(ctx.Environment()).trace
    ensures ctx.runs == old(ctx.runs)
  {
    r := ctx.Register(Artifact(ctx.Environment()));
  }

  /** Every registration the recipe makes is its own artifact. */
  lemma TraceNames(env: Env)
    ensures forall s | s in Run(env).trace :: s.name == Name
  {
  }

  /** The target system plays no part in what the recipe does. */
  lemma AnySystem(env: Env, system: System)
    ensures Run(env.(system := system)) == Run(env)
  {
  }
}
