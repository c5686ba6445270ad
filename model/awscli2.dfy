/** awscli2: the AWS command line installer; the system picks both the download and the install script. */
module Awscli2 {
  import opened Sdk

  const Name := "awscli2"
  const Version := "2.33.1"

  /** What the dispatch picks for one system: where to download from and how to install it. */
  datatype Asset = Asset(path: string, script: seq<string>)

  /** The installer that ships with the Linux archives. */
  function LinuxScript(name: string): seq<string>
  {
    [ "mkdir -pv \"$VORPAL_OUTPUT\"",
      "pushd ./source/" + name,
      "chmod +x ./aws/install",
      "./aws/install" + " --install-dir" + " \"$VORPAL_OUTPUT\"" + " --bin-dir" + " \"$VORPAL_OUTPUT/bin\"" ]
  }

  /** The macOS package: expand it, check the two executables, and link them into `bin`. */
  function DarwinScript(name: string, version: string): seq<string>
  {
    [ "mkdir -pv \"$VORPAL_OUTPUT/bin\"",
      "pushd ./source/" + name,
      "pkgutil --expand-full AWSCLIV2-" + version + ".pkg extracted",
      "cp -Rv extracted/" + "aws-cli.pkg/Payload/" + "aws-cli/*" + " \"$VORPAL_OUTPUT/.\"",
      "",
      "# Verify extracted" + " files exist before" + " creating symlinks",
      "test -f \"$VORPAL_OUTPUT/" + "aws\" || (echo 'ERROR:" + " aws executable not" + " found after" + " extraction' && exit" + " 1)",
      "test -f \"$VORPAL_OUTPUT/" + "aws_completer\" ||" + " (echo 'ERROR:" + " aws_completer not" + " found after" + " extraction' && exit" + " 1)",
      "",
      "ln -sf \"$VORPAL_OUTPUT/" + "aws\" \"$VORPAL_OUTPUT/" + "bin/aws\"",
      "ln -sf \"$VORPAL_OUTPUT/" + "aws_completer\"" + " \"$VORPAL_OUTPUT/bin/" + "aws_completer\"" ]
  }

  /** The dispatch: a zip per Linux architecture, one package for both macOS systems. */
  function Dispatch(system: System): Result<Asset>
  {
    match system
    case Aarch64Linux =>
      Ok(Asset("https://" + "awscli.amazonaws.com/" + "awscli-exe-linux-aarch64-" + Version + ".zip", LinuxScript(Name)))
    case X8664Linux =>
      Ok(Asset("https://" + "awscli.amazonaws.com/" + "awscli-exe-linux-x86_64-" + Version + ".zip", LinuxScript(Name)))
    case Aarch64Darwin | X8664Darwin =>
      Ok(Asset("https://awscli.amazonaws.com/AWSCLIV2-" + Version + ".pkg", DarwinScript(Name, Version)))
    case Other => Err(Unsupported(Name))
  }

  /** The artifact registered for the asset the dispatch picked. */
  function Artifact(asset: Asset): (s: Spec)
    ensures Shaped(s, "awscli2", "awscli2:2.33.1", DefaultSystems)
    ensures SelfContained(s) && s.steps[0].script == asset.script
    ensures Downloads(s, asset.path)
  {
    assert Alias(Name, Version) == "awscli2:2.33.1";
    Spec(Name, [Shell([], [], asset.script, [])], DefaultSystems, [Alias(Name, Version)], [Source(Name, asset.path, [])])
  }

  /** Building awscli2: dispatch on the system, then one registration. */
  function Run(env: Env): Outcome
  {
    match Dispatch(env.system)
    case Err(e) => Outcome(Err(e), [])
    case Ok(asset) => Registered(env, Artifact(asset))
  }

  /** A refused system fails before registering; otherwise the system's artifact is offered once. */
  lemma RunOutcome(env: Env)
    ensures Run(env).result.Err? ==> Run(env).trace == []
    ensures !env.system.Supported() ==> Run(env) == Outcome(Err(Unsupported(Name)), [])
    ensures Run(env).result.Ok? <==> env.system.Supported() && env.submit(Artifact(Dispatch(env.system).value)).Ok?
    ensures Run(env).result.Ok? ==> Run(env).trace == [Artifact(Dispatch(env.system).value)]
  {
  }

  method Build(ctx: Context) returns (r: Result<Handle>)
    modifies ctx
    ensures r == Run(ctx.Environment()).result
    ensures ctx.log == old(ctx.log) + Run(ctx.Environment()).trace
    ensures ctx.runs == old(ctx.runs)
  {
    var asset :- Dispatch(ctx.system);
    r := ctx.Register(Artifact(asset));
  }

  /** Exactly the four supported systems have an asset; any other gets the refusal message. */
  lemma Coverage(system: System)
    ensures Dispatch(system).Ok? <==> system.Supported()
    ensures Dispatch(system).Err? ==> Dispatch(system).error == "Unsupported system for awscli2 artifact"
  {
  }

  /** Both macOS systems register the same package with the same install script. */
  lemma DarwinShared()
    ensures Dispatch(Aarch64Darwin) == Dispatch(X8664Darwin)
    ensures Dispatch(Aarch64Darwin) == Ok(Asset("https://awscli.amazonaws.com/AWSCLIV2-" + Version + ".pkg", DarwinScript(Name, Version)))
  {
  }

  /** The two Linux systems share the archive installer but download different archives. */
  lemma LinuxArchives()
    ensures Dispatch(Aarch64Linux) == Ok(Asset("https://" + "awscli.amazonaws.com/" + "awscli-exe-linux-aarch64-" + Version + ".zip", LinuxScript(Name)))
    ensures Dispatch(X8664Linux) == Ok(Asset("https://" + "awscli.amazonaws.com/" + "awscli-exe-linux-x86_64-" + Version + ".zip", LinuxScript(Name)))
    ensures Dispatch(Aarch64Linux).value.path != Dispatch(X8664Linux).value.path
  {
    assert Dispatch(Aarch64Linux).value.path[46] == 'a';
    assert Dispatch(X8664Linux).value.path[46] == 'x';
  }
}
