/** libksba: the X.509 and CMS library; it always builds its own libgpg-error first. */
module Libksba {
  import opened Sdk
  import LibgpgError

  const Name := "libksba"
  const Version := "1.6.7"

  function Url(version: string): string
  {
    "https://gnupg.org/ftp/" + "gcrypt/libksba/" + "libksba-" + version + ".tar.bz2"
  }

  /** The configure line, which names the libgpg-error prefix. */
  function ConfigureLine(gpgError: string): string
  {
    "./configure" + " --prefix=\"$VORPAL_OUTPUT\"" + " --with-libgpg-error-prefix=" + gpgError
  }

  /** The script, for the key of the libgpg-error handle. */
  function Script(gpgError: string): seq<string>
  {
    [ "mkdir -pv \"$VORPAL_OUTPUT\"",
      "",
      "pushd ./source/" + Name + "/libksba-" + Version,
      "",
      "export PATH=\"" + gpgError + "/bin:$PATH\"",
      "export CPPFLAGS=\"-I" + gpgError + "/include\"",
      "export LDFLAGS=\"-L" + gpgError + "/lib -Wl,-rpath," + gpgError + "/lib\"",
      "",
      ConfigureLine(gpgError),
      "",
      "make",
      "make install" ]
  }

  /** The artifact registered once libgpg-error has produced `gpgError`. */
  function Artifact(env: Env, gpgError: Handle): (s: Spec)
    ensures Shaped(s, "libksba", "libksba:1.6.7", DefaultSystems) && Downloads(s, Url(Version))
    ensures s.steps[0] == Shell([gpgError], [], Script(env.key(gpgError)), [])
  {
    assert Alias(Name, Version) == "libksba:1.6.7";
    Spec(Name, [Shell([gpgError], [], Script(env.key(gpgError)), [])], DefaultSystems, [Alias(Name, Version)], [Source(Name, Url(Version), [])])
  }

  /** configure is handed the prefix of the libgpg-error build. */
  lemma ScriptLines(env: Env, gpgError: Handle)
    ensures ConfigureLine(env.key(gpgError)) in Artifact(env, gpgError).steps[0].script
  {
    assert Script(env.key(gpgError))[8] == ConfigureLine(env.key(gpgError));
  }

  /** `build(context)`: build libgpg-error, then register libksba with its handle. */
  function Run(env: Env): Outcome
  {
    var e := LibgpgError.Run(env);
    Then(e, Registered(env, Artifact(env, HandleOf(e))))
  }

  method Build(ctx: Context) returns (r: Result<Handle>)
    modifies ctx
    ensures r == Run(ctx.Environment()).result
    ensures ctx.log == old(ctx.log) + Run(ctx.Environment()).trace
    ensures ctx.runs == old(ctx.runs)
  {
    var gpgError :- LibgpgError.Build(ctx);
    r := ctx.Register(Artifact(ctx.Environment(), gpgError));
  }

  /**
   * A failed libgpg-error build is the result and nothing is registered;
   * otherwise libgpg-error's artifact comes first, then libksba's with its handle.
   */
  lemma RunOutcome(env: Env)
    ensures LibgpgError.Run(env).result.Err? ==> Run(env) == Outcome(LibgpgError.Run(env).result, [])
    ensures LibgpgError.Run(env).result.Ok? ==> Run(env) == Outcome(
      env.submit(Artifact(env, LibgpgError.Run(env).result.value)),
      [LibgpgError.Artifact(env)] + Registered(env, Artifact(env, LibgpgError.Run(env).result.value)).trace)
  {
    LibgpgError.RunOutcome(env);
  }

  /** The target system plays no part in what the recipe does. */
  lemma AnySystem(env: Env, system: System)
    ensures Run(env.(system := system)) == Run(env)
  {
    LibgpgError.AnySystem(env, system);
  }

  /** With an accepting engine, the build succeeds and registers libgpg-error, then libksba. */
  lemma Accepted(env: Env)
    requires Accepts(env)
    ensures Run(env).result.Ok? && Names(Run(env).trace) == ["libgpg-error", "libksba"]
  {
    RunOutcome(env);
  }
}
