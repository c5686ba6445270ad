/** glow: a prebuilt release of the glow markdown reader, chosen by the target system. */
module Glow {
  import opened Sdk

  const Name := "glow"
  const Version := "2.1.1"

  /** The platform part of the release asset; any other system is refused. */
  function Platform(system: System): (r: Result<string>)
    ensures r.Ok? <==> system.Supported()
    ensures r.Err? ==> r.error == "Unsupported system for glow artifact"
  {
    match system
    case Aarch64Darwin => Ok("Darwin_arm64")
    case Aarch64Linux => Ok("Linux_arm64")
    case X8664Darwin => Ok("Darwin_x86_64")
    case X8664Linux => Ok("Linux_x86_64")
    case Other => Err(Unsupported(Name))
  }

  function Url(platform: string): string
  {
    "https://github.com/" + "charmbracelet/glow/" + "releases/download/v" + Version + "/glow_" + Version + "_" + platform + ".tar.gz"
  }

  function Script(platform: string): seq<string>
  {
    [ "mkdir -pv \"$VORPAL_OUTPUT/bin\"",
      "pushd ./source/" + Name,
      "cp glow_" + Version + "_" + platform + "/glow \"$VORPAL_OUTPUT/bin/glow\"",
      "chmod +x \"$VORPAL_OUTPUT/bin/glow\"" ]
  }

  /** The artifact registered for a platform. */
  function Artifact(platform: string): (s: Spec)
    ensures Shaped(s, "glow", "glow:2.1.1", DefaultSystems)
    ensures SelfContained(s) && s.steps[0].script == Script(platform)
    ensures Downloads(s, Url(platform))
  {
    assert Alias(Name, Version) == "glow:2.1.1";
    Spec(Name, [Shell([], [], Script(platform), [])], DefaultSystems, [Alias(Name, Version)], [Source(Name, Url(platform), [])])
  }

  /** Building glow: dispatch on the system, then one registration. */
  function Run(env: Env): Outcome
  {
    match Platform(env.system)
    case Err(e) => Outcome(Err(e), [])
    case Ok(platform) => Registered(env, Artifact(platform))
  }

  /** A refused system fails before registering; otherwise the platform's artifact is offered once. */
  lemma RunOutcome(env: Env)
    ensures Run(env).result.Err? ==> Run(env).trace == []
    ensures !env.system.Supported() ==> Run(env) == Outcome(Err(Unsupported(Name)), [])
    ensures Run(env).result.Ok? <==> env.system.Supported() && env.submit(Artifact(Platform(env.system).value)).Ok?
    ensures Run(env).result.Ok? ==> Run(env).trace == [Artifact(Platform(env.system).value)]
  {
  }

  method Build(ctx: Context) returns (r: Result<Handle>)
    modifies ctx
    ensures r == Run(ctx.Environment()).result
    ensures ctx.log == old(ctx.log) + Run(ctx.Environment()).trace
    ensures ctx.runs == old(ctx.runs)
  {
    var platform :- Platform(ctx.system);
    r := ctx.Register(Artifact(platform));
  }

  /** The dispatch table row by row, and no two systems sharing a platform. */
  lemma Table()
    ensures Platform(Aarch64Darwin) == Ok("Darwin_arm64")
    ensures Platform(Aarch64Linux) == Ok("Linux_arm64")
    ensures Platform(X8664Darwin) == Ok("Darwin_x86_64")
    ensures Platform(X8664Linux) == Ok("Linux_x86_64")
    ensures forall a: System, b: System :: Platform(a).Ok? && Platform(a) == Platform(b) ==> a == b
  {
  }

  /** Every supported system downloads an asset of its own. */
  lemma DistinctAssets()
    ensures forall a: System, b: System :: Platform(a).Ok? && Platform(b).Ok? && Url(Platform(a).value) == Url(Platform(b).value) ==> a == b
  {
    forall a: System, b: System | Platform(a).Ok? && Platform(b).Ok? && Url(Platform(a).value) == Url(Platform(b).value)
      ensures a == b
    {
      Infix("https://github.com/" + "charmbracelet/glow/" + "releases/download/v" + Version + "/glow_" + Version + "_", Platform(a).value, Platform(b).value, ".tar.gz");
      Table();
    }
  }
}
