/** libgpg-error: the GnuPG error library, built from source on every system. */
module LibgpgError {
  import opened Sdk

  const Name := "libgpg-error"
  const Version := "1.56"

  function Url(version: string): string
  {
    "https://gnupg.org/ftp/" + "gcrypt/libgpg-error/" + "libgpg-error-" + version + ".tar.bz2"
  }

  function Script(name: string, version: string): seq<string>
  {
    [ "mkdir -pv \"$VORPAL_OUTPUT\"",
      "",
      "pushd ./source/" + name + "/libgpg-error-" + version,
      "",
      "./configure --prefix=\"$VORPAL_OUTPUT\"",
      "",
      "make",
      "make install" ]
  }

  /** The artifact libgpg-error registers, whatever the system. */
  function Artifact(env: Env): (s: Spec)
    ensures Shaped(s, "libgpg-error", "libgpg-error:1.56", DefaultSystems)
    ensures SelfContained(s) && s.steps[0].script == Script(Name, Version)
    ensures Downloads(s, Url(Version))
  {
    assert Alias(Name, Version) == "libgpg-error:1.56";
    Spec(Name, [Shell([], [], Script(Name, Version), [])], DefaultSystems, [Alias(Name, Version)], [Source(Name, Url(Version), [])])
  }

  /** The configure line the script runs. */
  lemma ConfigureOptions(env: Env)
    ensures "./configure --prefix=\"$VORPAL_OUTPUT\"" in Artifact(env).steps[0].script
  {
  }

  /** Building libgpg-error: one registration, with no system check. */
  function Run(env: Env): Outcome
  {
    Registered(env, Artifact(env))
  }

  /** The result is the engine's answer, and only an accepted artifact enters the trace. */
  lemma RunOutcome(env: Env)
    ensures Run(env).result == env.submit(Artifact(env))
    ensures Run(env).trace == (if Run(env).result.Ok? then [Artifact(env)] else [])
  {
  }

  method Build(ctx: Context) returns (r: Result<Handle>)
    modifies ctx
    ensures r == Run(ctx.Environment()).result
    ensures ctx.log == old(ctx.log) + Run(ctx.Environment()).trace
    ensures ctx.runs == old(ctx.runs)
  {
    r := ctx.Register(Artifact(ctx.Environment()));
  }

  /** Every registration the recipe makes is its own artifact. */
  lemma TraceNames(env: Env)
    ensures forall s | s in Run(env).trace :: s.name == Name
  {
  }

  /** The target system plays no part in what the recipe does. */
  lemma AnySystem(env: Env, system: System)
    ensures Run(env.(system := system)) == Run(env)
  {
  }
}
