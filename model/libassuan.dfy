/** libassuan: the Assuan IPC library, built from source against a given libgpg-error. */
module Libassuan {
  import opened Sdk

  const Name := "libassuan"
  const Version := "3.0.2"

  function Url(version: string): string
  {
    "https://gnupg.org/ftp/" + "gcrypt/libassuan/" + "libassuan-" + version + ".tar.bz2"
  }

  /** The line that puts the libgpg-error tools on the `PATH`. */
  function PathLine(gpgError: string): string
  {
    "export PATH=\"" + gpgError + "/bin:$PATH\""
  }

  /** The configure line, which names the libgpg-error prefix. */
  function ConfigureLine(gpgError: string): string
  {
    "./configure" + " --prefix=\"$VORPAL_OUTPUT\"" + " --with-libgpg-error-prefix=" + gpgError
  }

  /** The script, for the key of the libgpg-error handle. */
  function Script(gpgError: string): seq<string>
  {
    [ "mkdir -pv \"$VORPAL_OUTPUT\"",
      "",
      "pushd ./source/" + Name + "/libassuan-" + Version,
      "",
      PathLine(gpgError),
      "export CPPFLAGS=\"-I" + gpgError + "/include\"",
      "export LDFLAGS=\"-L" + gpgError + "/lib -Wl,-rpath," + gpgError + "/lib\"",
      "",
      ConfigureLine(gpgError),
      "",
      "make",
      "make install" ]
  }

  /** The artifact registered for the libgpg-error handle `gpgError`. */
  function Artifact(env: Env, gpgError: Handle): (s: Spec)
    ensures Shaped(s, "libassuan", "libassuan:3.0.2", DefaultSystems) && Downloads(s, Url(Version))
    ensures s.steps[0] == Shell([gpgError], [], Script(env.key(gpgError)), [])
  {
    assert Alias(Name, Version) == "libassuan:3.0.2";
    Spec(Name, [Shell([gpgError], [], Script(env.key(gpgError)), [])], DefaultSystems, [Alias(Name, Version)], [Source(Name, Url(Version), [])])
  }

  /** The script puts libgpg-error on the PATH and hands its prefix to configure. */
  lemma ScriptLines(env: Env, gpgError: Handle)
    ensures PathLine(env.key(gpgError)) in Artifact(env, gpgError).steps[0].script
    ensures ConfigureLine(env.key(gpgError)) in Artifact(env, gpgError).steps[0].script
  {
    assert Script(env.key(gpgError))[4] == PathLine(env.key(gpgError));
    assert Script(env.key(gpgError))[8] == ConfigureLine(env.key(gpgError));
  }

  /** `build(context, libgpg_error)`: one registration, with no system check. */
  function Run(env: Env, gpgError: Handle): Outcome
  {
    Registered(env, Artifact(env, gpgError))
  }

  method Build(ctx: Context, gpgError: Handle) returns (r: Result<Handle>)
    modifies ctx
    ensures r == Run(ctx.Environment(), gpgError).result
    ensures ctx.log == old(ctx.log) + Run(ctx.Environment(), gpgError).trace
    ensures ctx.runs == old(ctx.runs)
  {
    r := ctx.Register(Artifact(ctx.Environment(), gpgError));
  }

  /** The given handle is used as it is: nothing else is built, and at most libassuan is registered. */
  lemma RunOutcome(env: Env, gpgError: Handle)
    ensures Run(env, gpgError).result == env.submit(Artifact(env, gpgError))
    ensures Run(env, gpgError).trace == (if Run(env, gpgError).result.Ok? then [Artifact(env, gpgError)] else [])
  {
  }

  /** The target system plays no part in what the recipe does. */
  lemma AnySystem(env: Env, system: System, gpgError: Handle)
    ensures Run(env.(system := system), gpgError) == Run(env, gpgError)
  {
  }

  /** With an accepting engine, the build succeeds and registers libassuan alone. */
  lemma Accepted(env: Env, gpgError: Handle)
    requires Accepts(env)
    ensures Run(env, gpgError).result.Ok? && Names(Run(env, gpgError).trace) == ["libassuan"]
  {
    RunOutcome(env, gpgError);
  }
}
