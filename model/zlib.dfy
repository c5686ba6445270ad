/** zlib: the compression library, built statically from source on every system. */
module Zlib {
  import opened Sdk

  const Name := "zlib"
  const Version := "1.3.2"

  function Url(version: string): string
  {
    "https://zlib.net/zlib-" + version + ".tar.gz"
  }

  function Script(name: string, version: string): seq<string>
  {
    [ "mkdir -pv \"$VORPAL_OUTPUT\"",
      "pushd ./source/" + name + "/" + name + "-" + version,
      "./configure --static" + " --prefix=\"$VORPAL_OUTPUT\"",
      "make -j$(nproc" + " 2>/dev/null || sysctl" + " -n hw.ncpu) install" ]
  }

  /** The artifact zlib registers, whatever the system. */
  function Artifact(env: Env): (s: Spec)
    ensures Shaped(s, "zlib", "zlib:1.3.2", DefaultSystems)
    ensures SelfContained(s) && s.steps[0].script == Script(Name, Version)
    ensures Downloads(s, Url(Version))
  {
    assert Alias(Name, Version) == "zlib:1.3.2";
    Spec(Name, [Shell([], [], Script(Name, Version), [])], DefaultSystems, [Alias(Name, Version)], [Source(Name, Url(Version), [])])
  }

  /** The configure line the script runs: a static build. */
  lemma ScriptLines(env: Env)
    ensures "./configure --static" + " --prefix=\"$VORPAL_OUTPUT\"" in Artifact(env).steps[0].script
  {
  }

  /** Building zlib: one registration, with no system check. */
  function Run(env: Env): Outcome
  {
    Registered(env, Artifact(env))
  }

  /** The result is the engine's answer, and only an accepted artifact enters the trace. */
  lemma RunOutcome(env: Env)
    ensures Run(env).result == env.submit(Artifact(env))
    ensures Run(env).trace == (if Run(env).result.Ok? then [Artifact(env)] else [])
  {
  }

  method Build(ctx: Context) returns (r: Result<Handle>)
    modifies ctx
    ensures r == Run(ctx.Environment()).result
    ensures ctx.log == old(ctx.log) + Run(ctx.Environment()).trace
    ensures ctx.runs == old(ctx.runs)
  {
    r := ctx.Register(Artifact(ctx.Environment()));
  }

  /** Every registration the recipe makes is its own artifact. */
  lemma TraceNames(env: Env)
    ensures forall s | s in Run(env).trace :: s.name == Name
  {
  }

  /** The target system plays no part in what the recipe does. */
  lemma AnySystem(env: Env, system: System)
    ensures Run(env.(system := system)) == Run(env)
  {
  }

  /** On a supported system with an accepting engine, the build succeeds and registers these artifacts, in order. */
  lemma Accepted(env: Env)
    requires Accepts(env)
    ensures Run(env).result.Ok? && Names(Run(env).trace) == ["zlib"]
  {
  }
}
