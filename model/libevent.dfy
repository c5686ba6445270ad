/** libevent: the event notification library, built from source on every system. */
module Libevent {
  import opened Sdk

  const Name := "libevent"
  const Version := "2.1.12"

  function Url(version: string): string
  {
    "https://github.com/" + "libevent/libevent/" + "releases/download/" + "release-" + version + "-stable/libevent-" + version + "-stable.tar.gz"
  }

  function Script(name: string, version: string): seq<string>
  {
    [ "mkdir -pv \"$VORPAL_OUTPUT\"",
      "pushd ./source/" + name + "/" + name + "-" + version + "-stable",
      "./configure \\",
      "    --disable-openssl \\",
      "    --enable-shared \\",
      "    --prefix=\"$VORPAL_OUTPUT\"",
      "make",
      "make install" ]
  }

  /** The artifact libevent registers, whatever the system. */
  function Artifact(env: Env): (s: Spec)
    ensures Shaped(s, "libevent", "libevent:2.1.12", DefaultSystems)
    ensures SelfContained(s) && s.steps[0].script == Script(Name, Version)
    ensures Downloads(s, Url(Version))
  {
    assert Alias(Name, Version) == "libevent:2.1.12";
    Spec(Name, [Shell([], [], Script(Name, Version), [])], DefaultSystems, [Alias(Name, Version)], [Source(Name, Url(Version), [])])
  }

  /** The configure options the script passes, each on a line of its own. */
  lemma ConfigureOptions(env: Env)
    ensures "./configure \\" in Artifact(env).steps[0].script
    ensures "    --disable-openssl \\" in Artifact(env).steps[0].script
    ensures "    --enable-shared \\" in Artifact(env).steps[0].script
    ensures "    --prefix=\"$VORPAL_OUTPUT\"" in Artifact(env).steps[0].script
  {
  }

  /** Building libevent: one registration, with no system check. */
  function Run(env: Env): Outcome
  {
    Registered(env, Artifact(env))
  }

  /** The result is the engine's answer, and only an accepted artifact enters the trace. */
  lemma RunOutcome(env: Env)
    ensures Run(env).result == env.submit(Artifact(env))
    ensures Run(env).trace == (if Run(env).result.Ok? then [Artifact(env)] else [])
  {
  }

  method Build(ctx: Context) returns (r: Result<Handle>)
    modifies ctx
    ensures r == Run(ctx.Environment()).result
    ensures ctx.log == old(ctx.log) + Run(ctx.Environment()).trace
    ensures ctx.runs == old(ctx.runs)
  {
    r := ctx.Register(Artifact(ctx.Environment()));
  }

  /** Every registration the recipe makes is its own artifact. */
  lemma TraceNames(env: Env)
    ensures forall s | s in Run(env).trace :: s.name == Name
  {
  }

  /** The target system plays no part in what the recipe does. */
  lemma AnySystem(env: Env, system: System)
    ensures Run(env.(system := system)) == Run(env)
  {
  }
}
