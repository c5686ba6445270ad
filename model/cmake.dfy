/** cmake: a prebuilt CMake release; both macOS systems share one universal build. */
module Cmake {
  import opened Sdk

  const Name := "cmake"
  const Version := "4.2.3"

  /** The platform part of the release asset; any other system is refused. */
  function Platform(system: System): (r: Result<string>)
    ensures r.Ok? <==> system.Supported()
    ensures r.Err? ==> r.error == "Unsupported system for cmake artifact"
  {
    match system
    case Aarch64Darwin | X8664Darwin => Ok("macos-universal")
    case Aarch64Linux => Ok("linux-aarch64")
    case X8664Linux => Ok("linux-x86_64")
    case Other => Err(Unsupported(Name))
  }

  function Url(platform: string): string
  {
    "https://github.com/" + "Kitware/CMake/" + "releases/download/v" + Version + "/cmake-" + Version + "-" + platform + ".tar.gz"
  }

  /** The unpacked release tree, where the macOS build keeps its files under `CMake.app/Contents`. */
  function Tree(system: System, platform: string): string
  {
    var root := "./source/" + Name + "/" + Name + "-" + Version + "-" + platform;
    match system
    case Aarch64Darwin | X8664Darwin => root + "/CMake.app/Contents"
    case _ => root
  }

  /** The second match on the system: copy `bin` and `share` out of the release tree. */
  function Script(system: System, platform: string): seq<string>
  {
    [ "mkdir -pv \"$VORPAL_OUTPUT/bin\"",
      "cp -v " + Tree(system, platform) + "/bin/* \"$VORPAL_OUTPUT/bin/\"",
      "cp -rv " + Tree(system, platform) + "/share \"$VORPAL_OUTPUT/share\"" ]
  }

  /** The artifact registered on `system` once dispatch produced `platform`. */
  function Artifact(system: System, platform: string): (s: Spec)
    ensures Shaped(s, "cmake", "cmake:4.2.3", DefaultSystems)
    ensures SelfContained(s) && s.steps[0].script == Script(system, platform)
    ensures Downloads(s, Url(platform))
  {
    assert Alias(Name, Version) == "cmake:4.2.3";
    Spec(Name, [Shell([], [], Script(system, platform), [])], DefaultSystems, [Alias(Name, Version)], [Source(Name, Url(platform), [])])
  }

  /** Building cmake: dispatch on the system, then one registration. */
  function Run(env: Env): Outcome
  {
    match Platform(env.system)
    case Err(e) => Outcome(Err(e), [])
    case Ok(platform) => Registered(env, Artifact(env.system, platform))
  }

  /** A refused system fails before registering; otherwise the system's artifact is offered once. */
  lemma RunOutcome(env: Env)
    ensures Run(env).result.Err? ==> Run(env).trace == []
    ensures !env.system.Supported() ==> Run(env) == Outcome(Err(Unsupported(Name)), [])
    ensures Run(env).result.Ok? <==> env.system.Supported() && env.submit(Artifact(env.system, Platform(env.system).value)).Ok?
    ensures Run(env).result.Ok? ==> Run(env).trace == [Artifact(env.system, Platform(env.system).value)]
  {
  }

  method Build(ctx: Context) returns (r: Result<Handle>)
    modifies ctx
    ensures r == Run(ctx.Environment()).result
    ensures ctx.log == old(ctx.log) + Run(ctx.Environment()).trace
    ensures ctx.runs == old(ctx.runs)
  {
    var platform :- Platform(ctx.system);
    r := ctx.Register(Artifact(ctx.system, platform));
  }

  /** The dispatch table row by row: the two macOS rows coincide, the Linux rows differ. */
  lemma Table()
    ensures Platform(Aarch64Darwin) == Ok("macos-universal")
    ensures Platform(X8664Darwin) == Ok("macos-universal")
    ensures Platform(Aarch64Linux) == Ok("linux-aarch64")
    ensures Platform(X8664Linux) == Ok("linux-x86_64")
    ensures Platform(Aarch64Linux) != Platform(X8664Linux)
  {
  }

  /** Both macOS systems register the very same artifact; a Linux system registers its own. */
  lemma SharedDarwinBuild(env: Env)
    requires env.system.Supported()
    ensures env.system.Darwin() <==> Artifact(env.system, Platform(env.system).value) == Artifact(Aarch64Darwin, "macos-universal")
  {
    if !env.system.Darwin() {
      var s := Artifact(env.system, Platform(env.system).value);
      assert s.sources[0].path != Url("macos-universal") by {
        Table();
        if s.sources[0].path == Url("macos-universal") {
          Infix("https://github.com/" + "Kitware/CMake/" + "releases/download/v" + Version + "/cmake-" + Version + "-", Platform(env.system).value, "macos-universal", ".tar.gz");
        }
      }
    }
  }

  /** The macOS layout is used exactly on the macOS systems. */
  lemma AppBundleOnDarwin(system: System, platform: string)
    ensures system.Darwin() <==> Tree(system, platform) == "./source/cmake/cmake-4.2.3-" + platform + "/CMake.app/Contents"
  {
    var root := "./source/" + Name + "/" + Name + "-" + Version + "-" + platform;
    assert root == "./source/cmake/cmake-4.2.3-" + platform;
    if !system.Darwin() {
      assert Tree(system, platform) == root;
      assert |root| < |root + "/CMake.app/Contents"|;
    }
  }

  /** Every registration the recipe makes is its own artifact. */
  lemma TraceNames(env: Env)
    ensures forall s | s in Run(env).trace :: s.name == Name
  {
  }

  /** On a supported system with an accepting engine, the build succeeds and registers these artifacts, in order. */
  lemma Accepted(env: Env)
    requires env.system.Supported() && Accepts(env)
    ensures Run(env).result.Ok? && Names(Run(env).trace) == ["cmake"]
  {
    RunOutcome(env);
  }
}
