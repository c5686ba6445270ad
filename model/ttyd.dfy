/** ttyd: a prebuilt ttyd release; the system picks both the download and the copy script. */
module Ttyd {
  import opened Sdk

  const Name := "ttyd"
  const Version := "1.7.7"

  /** What the dispatch picks for one system: where to download from and how to install it. */
  datatype Asset = Asset(path: string, script: seq<string>)

  /** The release directory every asset comes from. */
  function Release(version: string): string
  {
    "https://github.com/" + "tsl0922/ttyd/releases/" + "download/" + version + "/"
  }

  /** A Linux asset is the bare binary `file`, copied into `bin` under the name `ttyd`. */
  function LinuxScript(file: string): seq<string>
  {
    [ "mkdir -pv \"$VORPAL_OUTPUT/bin\"",
      "cp ./source/" + Name + "/" + file + " \"$VORPAL_OUTPUT/bin/ttyd\"",
      "chmod +x \"$VORPAL_OUTPUT/bin/ttyd\"" ]
  }

  /** The macOS asset is an archive holding `ttyd`. */
  function DarwinScript(name: string): seq<string>
  {
    [ "mkdir -pv \"$VORPAL_OUTPUT/bin\"",
      "pushd ./source/" + name,
      "cp ttyd \"$VORPAL_OUTPUT/bin/ttyd\"",
      "chmod +x \"$VORPAL_OUTPUT/bin/ttyd\"" ]
  }

  /** The dispatch: a binary per Linux architecture, one archive for both macOS systems. */
  function Dispatch(system: System): Result<Asset>
  {
    match system
    case Aarch64Linux => Ok(Asset(Release(Version) + "ttyd.aarch64", LinuxScript("ttyd.aarch64")))
    case X8664Linux => Ok(Asset(Release(Version) + "ttyd.x86_64", LinuxScript("ttyd.x86_64")))
    case Aarch64Darwin | X8664Darwin => Ok(Asset(Release(Version) + "ttyd_darwin.zip", DarwinScript(Name)))
    case Other => Err(Unsupported(Name))
  }

  /** The artifact registered for the asset the dispatch picked. */
  function Artifact(asset: Asset): (s: Spec)
    ensures Shaped(s, "ttyd", "ttyd:1.7.7", DefaultSystems)
    ensures SelfContained(s) && s.steps[0].script == asset.script
    ensures Downloads(s, asset.path)
  {
    assert Alias(Name, Version) == "ttyd:1.7.7";
    Spec(Name, [Shell([], [], asset.script, [])], DefaultSystems, [Alias(Name, Version)], [Source(Name, asset.path, [])])
  }

  /** Building ttyd: dispatch on the system, then one registration. */
  function Run(env: Env): Outcome
  {
    match Dispatch(env.system)
    case Err(e) => Outcome(Err(e), [])
    case Ok(asset) => Registered(env, Artifact(asset))
  }

  /** A refused system fails before registering; otherwise the system's artifact is offered once. */
  lemma RunOutcome(env: Env)
    ensures Run(env).result.Err? ==> Run(env).trace == []
    ensures !env.system.Supported() ==> Run(env) == Outcome(Err(Unsupported(Name)), [])
    ensures Run(env).result.Ok? <==> env.system.Supported() && env.submit(Artifact(Dispatch(env.system).value)).Ok?
    ensures Run(env).result.Ok? ==> Run(env).trace == [Artifact(Dispatch(env.system).value)]
  {
  }

  method Build(ctx: Context) returns (r: Result<Handle>)
    modifies ctx
    ensures r == Run(ctx.Environment()).result
    ensures ctx.log == old(ctx.log) + Run(ctx.Environment()).trace
    ensures ctx.runs == old(ctx.runs)
  {
    var asset :- Dispatch(ctx.system);
    r := ctx.Register(Artifact(asset));
  }

  /** Exactly the four supported systems have an asset; any other gets the refusal message. */
  lemma Coverage(system: System)
    ensures Dispatch(system).Ok? <==> system.Supported()
    ensures Dispatch(system).Err? ==> Dispatch(system).error == "Unsupported system for ttyd artifact"
  {
  }

  /** Both macOS systems register the same archive with the same script. */
  lemma DarwinShared()
    ensures Dispatch(Aarch64Darwin) == Dispatch(X8664Darwin)
    ensures Dispatch(Aarch64Darwin) == Ok(Asset(Release(Version) + "ttyd_darwin.zip", DarwinScript(Name)))
  {
  }

  /** Each Linux system downloads its own binary and copies exactly that file. */
  lemma LinuxBinaries()
    ensures Dispatch(Aarch64Linux) == Ok(Asset(Release(Version) + "ttyd.aarch64", LinuxScript("ttyd.aarch64")))
    ensures Dispatch(X8664Linux) == Ok(Asset(Release(Version) + "ttyd.x86_64", LinuxScript("ttyd.x86_64")))
    ensures Dispatch(Aarch64Linux).value.path != Dispatch(X8664Linux).value.path
    ensures Dispatch(Aarch64Linux).value.script != Dispatch(X8664Linux).value.script
  {
    var n := |Release(Version)|;
    assert Dispatch(Aarch64Linux).value.path[n + 5] == 'a';
    assert Dispatch(X8664Linux).value.path[n + 5] == 'x';
    var m := |"cp ./source/" + Name + "/"|;
    assert Dispatch(Aarch64Linux).value.script[1][m + 5] == 'a';
    assert Dispatch(X8664Linux).value.script[1][m + 5] == 'x';
  }
}
