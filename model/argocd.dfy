/** argocd: a prebuilt Argo CD client binary, chosen by the target system. */
module Argocd {
  import opened Sdk

  const Name := "argocd"
  const Version := "3.2.3"

  /** The platform part of the release asset; any other system is refused. */
  function Platform(system: System): (r: Result<string>)
    ensures r.Ok? <==> system.Supported()
    ensures r.Err? ==> r.error == "Unsupported system for argocd artifact"
  {
    match system
    case Aarch64Darwin => Ok("darwin-arm64")
    case Aarch64Linux => Ok("linux-arm64")
    case X8664Darwin => Ok("darwin-amd64")
    case X8664Linux => Ok("linux-amd64")
    case Other => Err(Unsupported(Name))
  }

  function Url(platform: string): string
  {
    "https://github.com/" + "argoproj/argo-cd/" + "releases/download/v" + Version + "/argocd-" + platform
  }

  function Script(platform: string): seq<string>
  {
    [ "mkdir -pv \"$VORPAL_OUTPUT/bin\"",
      "pushd ./source/" + Name,
      "cp argocd-" + platform + " \"$VORPAL_OUTPUT/bin/argocd\"",
      "chmod +x \"$VORPAL_OUTPUT/bin/argocd\"" ]
  }

  /** The artifact registered for a platform. */
  function Artifact(platform: string): (s: Spec)
    ensures Shaped(s, "argocd", "argocd:3.2.3", DefaultSystems)
    ensures SelfContained(s) && s.steps[0].script == Script(platform)
    ensures Downloads(s, Url(platform))
  {
    assert Alias(Name, Version) == "argocd:3.2.3";
    Spec(Name, [Shell([], [], Script(platform), [])], DefaultSystems, [Alias(Name, Version)], [Source(Name, Url(platform), [])])
  }

  /** Building argocd: dispatch on the system, then one registration. */
  function Run(env: Env): Outcome
  {
    match Platform(env.system)
    case Err(e) => Outcome(Err(e), [])
    case Ok(platform) => Registered(env, Artifact(platform))
  }

  /** A refused system fails before registering; otherwise the platform's artifact is offered once. */
  lemma RunOutcome(env: Env)
    ensures Run(env).result.Err? ==> Run(env).trace == []
    ensures !env.system.Supported() ==> Run(env) == Outcome(Err(Unsupported(Name)), [])
    ensures Run(env).result.Ok? <==> env.system.Supported() && env.submit(Artifact(Platform(env.system).value)).Ok?
    ensures Run(env).result.Ok? ==> Run(env).trace == [Artifact(Platform(env.system).value)]
  {
  }

  method Build(ctx: Context) returns (r: Result<Handle>)
    modifies ctx
    ensures r == Run(ctx.Environment()).result
    ensures ctx.log == old(ctx.log) + Run(ctx.Environment()).trace
    ensures ctx.runs == old(ctx.runs)
  {
    var platform :- Platform(ctx.system);
    r := ctx.Register(Artifact(platform));
  }

  /** The dispatch table row by row, and no two systems sharing a platform. */
  lemma Table()
    ensures Platform(Aarch64Darwin) == Ok("darwin-arm64")
    ensures Platform(Aarch64Linux) == Ok("linux-arm64")
    ensures Platform(X8664Darwin) == Ok("darwin-amd64")
    ensures Platform(X8664Linux) == Ok("linux-amd64")
    ensures forall a: System, b: System :: Platform(a).Ok? && Platform(a) == Platform(b) ==> a == b
  {
  }

  /** Every supported system downloads an asset of its own. */
  lemma DistinctAssets()
    ensures forall a: System, b: System :: Platform(a).Ok? && Platform(b).Ok? && Url(Platform(a).value) == Url(Platform(b).value) ==> a == b
  {
    forall a: System, b: System | Platform(a).Ok? && Platform(b).Ok? && Url(Platform(a).value) == Url(Platform(b).value)
      ensures a == b
    {
      Infix("https://github.com/" + "argoproj/argo-cd/" + "releases/download/v" + Version + "/argocd-", Platform(a).value, Platform(b).value, "");
      Table();
    }
  }
}
