/** openjdk: a prebuilt OpenJDK, chosen by the target system. */
module Openjdk {
  import opened Sdk

  const Name := "openjdk"
  const Version := "25.0.1"

  /** The platform part of the release asset; any other system is refused. */
  function Platform(system: System): (r: Result<string>)
    ensures r.Ok? <==> system.Supported()
    ensures r.Err? ==> r.error == "Unsupported system for openjdk artifact"
  {
    match system
    case Aarch64Darwin => Ok("macos-aarch64")
    case Aarch64Linux => Ok("linux-aarch64")
    case X8664Darwin => Ok("macos-x64")
    case X8664Linux => Ok("linux-x64")
    case Other => Err(Unsupported(Name))
  }

  /** The release asset; the GA path segment names the release itself, not `Version`. */
  function Url(platform: string): string
  {
    "https://" + "download.java.net/" + "java/GA/jdk25.0.1/" + "2fbf10d8c78e40bd87641c434705079d/" + "8/GPL/openjdk-" + Version + "_" + platform + "_bin.tar.gz"
  }

  /** The suffix of the unpacked directory: `.jdk` on macOS, nothing elsewhere. */
  function Affix(system: System): string
  {
    match system
    case Aarch64Darwin | X8664Darwin => ".jdk"
    case _ => ""
  }

  function Script(affix: string): seq<string>
  {
    [ "pushd ./source/" + Name + "/jdk-" + Version + affix,
      "cp -Rv * \"$VORPAL_OUTPUT/.\"" ]
  }

  /** The artifact registered on `system` once dispatch produced `platform`. */
  function Artifact(system: System, platform: string): (s: Spec)
    ensures Shaped(s, "openjdk", "openjdk:25.0.1", DefaultSystems)
    ensures SelfContained(s) && s.steps[0].script == Script(Affix(system))
    ensures Downloads(s, Url(platform))
  {
    assert Alias(Name, Version) == "openjdk:25.0.1";
    Spec(Name, [Shell([], [], Script(Affix(system)), [])], DefaultSystems, [Alias(Name, Version)], [Source(Name, Url(platform), [])])
  }

  /** Building openjdk: dispatch on the system, then one registration. */
  function Run(env: Env): Outcome
  {
    match Platform(env.system)
    case Err(e) => Outcome(Err(e), [])
    case Ok(platform) => Registered(env, Artifact(env.system, platform))
  }

  /** A refused system fails before registering; otherwise the system's artifact is offered once. */
  lemma RunOutcome(env: Env)
    ensures Run(env).result.Err? ==> Run(env).trace == []
    ensures !env.system.Supported() ==> Run(env) == Outcome(Err(Unsupported(Name)), [])
    ensures Run(env).result.Ok? <==> env.system.Supported() && env.submit(Artifact(env.system, Platform(env.system).value)).Ok?
    ensures Run(env).result.Ok? ==> Run(env).trace == [Artifact(env.system, Platform(env.system).value)]
  {
  }

  method Build(ctx: Context) returns (r: Result<Handle>)
    modifies ctx
    ensures r == Run(ctx.Environment()).result
    ensures ctx.log == old(ctx.log) + Run(ctx.Environment()).trace
    ensures ctx.runs == old(ctx.runs)
  {
    var platform :- Platform(ctx.system);
    r := ctx.Register(Artifact(ctx.system, platform));
  }

  /** The dispatch table row by row, and no two systems sharing a platform. */
  lemma Table()
    ensures Platform(Aarch64Darwin) == Ok("macos-aarch64")
    ensures Platform(Aarch64Linux) == Ok("linux-aarch64")
    ensures Platform(X8664Darwin) == Ok("macos-x64")
    ensures Platform(X8664Linux) == Ok("linux-x64")
    ensures forall a: System, b: System :: Platform(a).Ok? && Platform(a) == Platform(b) ==> a == b
  {
  }

  /** The step enters `jdk-25.0.1.jdk` exactly on macOS, and `jdk-25.0.1` on every other system. */
  lemma AffixOnDarwin(system: System)
    ensures system.Darwin() <==> Affix(system) == ".jdk"
    ensures !system.Darwin() ==> Script(Affix(system))[0] == "pushd ./source/openjdk/jdk-25.0.1"
  {
  }

  /** Every supported system downloads an asset of its own. */
  lemma DistinctAssets()
    ensures forall a: System, b: System :: Platform(a).Ok? && Platform(b).Ok? && Url(Platform(a).value) == Url(Platform(b).value) ==> a == b
  {
    forall a: System, b: System | Platform(a).Ok? && Platform(b).Ok? && Url(Platform(a).value) == Url(Platform(b).value)
      ensures a == b
    {
      Infix("https://" + "download.java.net/" + "java/GA/jdk25.0.1/" + "2fbf10d8c78e40bd87641c434705079d/" + "8/GPL/openjdk-" + Version + "_", Platform(a).value, Platform(b).value, "_bin.tar.gz");
      Table();
    }
  }
}
