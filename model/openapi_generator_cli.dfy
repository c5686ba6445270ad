/** openapi-generator-cli: the OpenAPI generator jar, wrapped in a launcher that uses a given openjdk. */
module OpenapiGeneratorCli {
  import opened Sdk

  const Name := "openapi-generator-cli"
  const Version := "7.18.0"

  function Url(version: string): string
  {
    "https://" + "repo1.maven.org/" + "maven2/org/" + "openapitools/" + "openapi-generator-cli/" + version + "/openapi-generator-cli-" + version + ".jar"
  }

  /** `JAVA_HOME` for the key of the openjdk handle. */
  function JavaHome(openjdk: string): string
  {
    "JAVA_HOME=" + openjdk + "/Contents/Home"
  }

  /** The step's environment: `JAVA_HOME`, then the `PATH` that uses it. */
  function Environments(openjdk: string): seq<string>
  {
    [JavaHome(openjdk), "PATH=$JAVA_HOME/bin:$PATH"]
  }

  /** The script: repack the jar, then write a launcher that sets the same `JAVA_HOME`. */
  function Script(openjdk: string): seq<string>
  {
    [ "mkdir -p \"$VORPAL_OUTPUT/bin\"",
      "",
      "pushd ./source/" + Name,
      "",
      "cp META-INF/" + "MANIFEST.MF" + " ../MANIFEST.MF",
      "",
      "jar cfm ../" + "openapi-generator-cli.jar" + " ../MANIFEST.MF .",
      "",
      "mv -v ../" + "openapi-generator-cli.jar" + " \"$VORPAL_OUTPUT/" + "openapi-generator-cli.jar\"",
      "",
      "cat << 'EOF' >" + " \"$VORPAL_OUTPUT/bin/" + "openapi-generator-cli\"",
      "#!/bin/sh",
      JavaHome(openjdk),
      "PATH=$JAVA_HOME/bin:$PATH",
      "java -jar" + " \"$VORPAL_OUTPUT/" + "openapi-generator-cli.jar\"" + " \"$@\"",
      "EOF",
      "",
      "chmod +x \"$VORPAL_OUTPUT/" + "bin/openapi-generator-cli\"" ]
  }

  /** The artifact registered for the openjdk handle `openjdk`. */
  function Artifact(env: Env, openjdk: Handle): (s: Spec)
    ensures Shaped(s, "openapi-generator-cli", "openapi-generator-cli:7.18.0", DefaultSystems) && Downloads(s, Url(Version))
    ensures s.steps[0] == Shell([openjdk], Environments(env.key(openjdk)), Script(env.key(openjdk)), [])
    ensures s.steps[0].environments == [JavaHome(env.key(openjdk)), "PATH=$JAVA_HOME/bin:$PATH"]
  {
    assert Alias(Name, Version) == "openapi-generator-cli:7.18.0";
    Spec(Name, [Shell([openjdk], Environments(env.key(openjdk)), Script(env.key(openjdk)), [])], DefaultSystems, [Alias(Name, Version)], [Source(Name, Url(Version), [])])
  }

  /** The wrapper script sets the same JAVA_HOME as the step environment. */
  lemma ScriptLines(env: Env, openjdk: Handle)
    ensures JavaHome(env.key(openjdk)) in Artifact(env, openjdk).steps[0].script
  {
    assert Script(env.key(openjdk))[12] == JavaHome(env.key(openjdk));
  }

  /** `build(context, openjdk)`: one registration, with no system check. */
  function Run(env: Env, openjdk: Handle): Outcome
  {
    Registered(env, Artifact(env, openjdk))
  }

  method Build(ctx: Context, openjdk: Handle) returns (r: Result<Handle>)
    modifies ctx
    ensures r == Run(ctx.Environment(), openjdk).result
    ensures ctx.log == old(ctx.log) + Run(ctx.Environment(), openjdk).trace
    ensures ctx.runs == old(ctx.runs)
  {
    r := ctx.Register(Artifact(ctx.Environment(), openjdk));
  }

  /** The given handle is used as it is: nothing else is built, and at most this artifact is registered. */
  lemma RunOutcome(env: Env, openjdk: Handle)
    ensures Run(env, openjdk).result == env.submit(Artifact(env, openjdk))
    ensures Run(env, openjdk).trace == (if Run(env, openjdk).result.Ok? then [Artifact(env, openjdk)] else [])
  {
  }

  /** The target system plays no part in what the recipe does. */
  lemma AnySystem(env: Env, system: System, openjdk: Handle)
    ensures Run(env.(system := system), openjdk) == Run(env, openjdk)
  {
  }

  /** With an accepting engine, the build succeeds and registers this artifact alone. */
  lemma Accepted(env: Env, openjdk: Handle)
    requires Accepts(env)
    ensures Run(env, openjdk).result.Ok? && Names(Run(env, openjdk).trace) == ["openapi-generator-cli"]
  {
    RunOutcome(env, openjdk);
  }
}
