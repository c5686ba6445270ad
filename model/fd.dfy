/** fd: a prebuilt release of fd, chosen by the target system. */
module Fd {
  import opened Sdk

  const Name := "fd"
  const Version := "10.2.0"

  /** The platform part of the release asset; any other system is refused. */
  function Platform(system: System): (r: Result<string>)
    ensures r.Ok? <==> system.Supported()
    ensures r.Err? ==> r.error == "Unsupported system for fd artifact"
  {
    match system
    case Aarch64Darwin => Ok("aarch64-apple-darwin")
    case Aarch64Linux => Ok("aarch64-unknown-linux-gnu")
    case X8664Darwin => Ok("x86_64-apple-darwin")
    case X8664Linux => Ok("x86_64-unknown-linux-musl")
    case Other => Err(Unsupported(Name))
  }

  function Url(platform: string): string
  {
    "https://github.com/" + "sharkdp/fd/releases/" + "download/v" + Version + "/fd-v" + Version + "-" + platform + ".tar.gz"
  }

  function Script(name: string): seq<string>
  {
    [ "mkdir -pv \"$VORPAL_OUTPUT/bin\"",
      "pushd ./source/" + name,
      "cp */fd \"$VORPAL_OUTPUT/bin/fd\"",
      "chmod +x \"$VORPAL_OUTPUT/bin/fd\"" ]
  }

  /** The artifact registered for a platform. */
  function Artifact(platform: string): (s: Spec)
    ensures Shaped(s, "fd", "fd:10.2.0", DefaultSystems)
    ensures SelfContained(s) && s.steps[0].script == Script(Name)
    ensures Downloads(s, Url(platform))
  {
    assert Alias(Name, Version) == "fd:10.2.0";
    Spec(Name, [Shell([], [], Script(Name), [])], DefaultSystems, [Alias(Name, Version)], [Source(Name, Url(platform), [])])
  }

  /** Building fd: dispatch on the system, then one registration. */
  function Run(env: Env): Outcome
  {
    match Platform(env.system)
    case Err(e) => Outcome(Err(e), [])
    case Ok(platform) => Registered(env, Artifact(platform))
  }

  /** A refused system fails before registering; otherwise the platform's artifact is offered once. */
  lemma RunOutcome(env: Env)
    ensures Run(env).result.Err? ==> Run(env).trace == []
    ensures !env.system.Supported() ==> Run(env) == Outcome(Err(Unsupported(Name)), [])
    ensures Run(env).result.Ok? <==> env.system.Supported() && env.submit(Artifact(Platform(env.system).value)).Ok?
    ensures Run(env).result.Ok? ==> Run(env).trace == [Artifact(Platform(env.system).value)]
  {
  }

  method Build(ctx: Context) returns (r: Result<Handle>)
    modifies ctx
    ensures r == Run(ctx.Environment()).result
    ensures ctx.log == old(ctx.log) + Run(ctx.Environment()).trace
    ensures ctx.runs == old(ctx.runs)
  {
    var platform :- Platform(ctx.system);
    r := ctx.Register(Artifact(platform));
  }

  /** The dispatch table row by row, and no two systems sharing a platform. */
  lemma Table()
    ensures Platform(Aarch64Darwin) == Ok("aarch64-apple-darwin")
    ensures Platform(Aarch64Linux) == Ok("aarch64-unknown-linux-gnu")
    ensures Platform(X8664Darwin) == Ok("x86_64-apple-darwin")
    ensures Platform(X8664Linux) == Ok("x86_64-unknown-linux-musl")
    ensures forall a: System, b: System :: Platform(a).Ok? && Platform(a) == Platform(b) ==> a == b
  {
  }

  /** Every supported system downloads an asset of its own. */
  lemma DistinctAssets()
    ensures forall a: System, b: System :: Platform(a).Ok? && Platform(b).Ok? && Url(Platform(a).value) == Url(Platform(b).value) ==> a == b
  {
    forall a: System, b: System | Platform(a).Ok? && Platform(b).Ok? && Url(Platform(a).value) == Url(Platform(b).value)
      ensures a == b
    {
      Infix("https://github.com/" + "sharkdp/fd/releases/" + "download/v" + Version + "/fd-v" + Version + "-", Platform(a).value, Platform(b).value, ".tar.gz");
      Table();
    }
  }
}
