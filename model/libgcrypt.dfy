/** libgcrypt: the GnuPG crypto library, built from source; the libgpg-error handle is a builder slot. */
module Libgcrypt {
  import opened Sdk
  import LibgpgError

  const Name := "libgcrypt"
  const Version := "1.11.0"

  function Url(version: string): string
  {
    "https://gnupg.org/ftp/" + "gcrypt/libgcrypt/" + "libgcrypt-" + version + ".tar.bz2"
  }

  /** The configure line, which names the libgpg-error prefix. */
  function ConfigureLine(gpgError: string): string
  {
    "./configure" + " --prefix=\"$VORPAL_OUTPUT\"" + " --with-libgpg-error-prefix=" + gpgError + " --disable-doc"
  }

  /** The script, for the key of the libgpg-error handle. */
  function Script(gpgError: string): seq<string>
  {
    [ "mkdir -pv \"$VORPAL_OUTPUT\"",
      "",
      "pushd ./source/" + Name + "/libgcrypt-" + Version,
      "",
      "export PATH=\"" + gpgError + "/bin:$PATH\"",
      "export CPPFLAGS=\"-I" + gpgError + "/include\"",
      "export LDFLAGS=\"-L" + gpgError + "/lib -Wl,-rpath," + gpgError + "/lib\"",
      "",
      ConfigureLine(gpgError),
      "",
      "make",
      "make install" ]
  }

  /** The artifact registered once the libgpg-error slot is resolved to `gpgError`. */
  function Artifact(env: Env, gpgError: Handle): (s: Spec)
    ensures Shaped(s, "libgcrypt", "libgcrypt:1.11.0", DefaultSystems) && Downloads(s, Url(Version))
    ensures s.steps[0] == Shell([gpgError], [], Script(env.key(gpgError)), [])
  {
    assert Alias(Name, Version) == "libgcrypt:1.11.0";
    Spec(Name, [Shell([gpgError], [], Script(env.key(gpgError)), [])], DefaultSystems, [Alias(Name, Version)], [Source(Name, Url(Version), [])])
  }

  /** Configure is pointed at the libgpg-error handle's key. */
  lemma ScriptLines(env: Env, gpgError: Handle)
    ensures ConfigureLine(env.key(gpgError)) in Artifact(env, gpgError).steps[0].script
  {
    assert Script(env.key(gpgError))[8] == ConfigureLine(env.key(gpgError));
  }

  /** `build` for the slot value `gpgError`: resolve it, then register; there is no system check. */
  function Run(env: Env, gpgError: Option<Handle>): Outcome
  {
    var e := Resolve(gpgError, LibgpgError.Run(env));
    Then(e, Registered(env, Artifact(env, HandleOf(e))))
  }

  /** `Libgcrypt`: a builder with one optional libgpg-error handle. */
  class Builder {
    var gpgError: Option<Handle>

    /** `new()`: the slot is empty. */
    constructor ()
      ensures gpgError == None
    {
      gpgError := None;
    }

    /** `with_libgpg_error`: fills the slot. */
    method WithLibgpgError(h: Handle)
      modifies this
      ensures gpgError == Some(h)
    {
      gpgError := Some(h);
    }

    method Build(ctx: Context) returns (r: Result<Handle>)
      modifies ctx
      ensures r == Run(ctx.Environment(), gpgError).result
      ensures ctx.log == old(ctx.log) + Run(ctx.Environment(), gpgError).trace
      ensures ctx.runs == old(ctx.runs)
    {
      var e: Handle;
      match gpgError {
        case Some(val) =>
          e := val;
        case None =>
          e :- LibgpgError.Build(ctx);
      }
      r := ctx.Register(Artifact(ctx.Environment(), e));
    }
  }

  /** An injected handle is used as it is: the only registration is libgcrypt itself, with that handle. */
  lemma Injected(env: Env, h: Handle)
    ensures Run(env, Some(h)) == Registered(env, Artifact(env, h))
    ensures Run(env, Some(h)).result.Ok? ==> Names(Run(env, Some(h)).trace) == ["libgcrypt"]
  {
  }

  /**
   * Without an injection libgpg-error is built first: its failure is the
   * result and nothing is registered; otherwise its artifact comes first.
   */
  lemma SelfBuilt(env: Env)
    ensures LibgpgError.Run(env).result.Err? ==> Run(env, None) == Outcome(LibgpgError.Run(env).result, [])
    ensures LibgpgError.Run(env).result.Ok? ==> Run(env, None).trace == [LibgpgError.Artifact(env)] + Registered(env, Artifact(env, LibgpgError.Run(env).result.value)).trace
  {
    LibgpgError.RunOutcome(env);
  }

  /** The target system plays no part in what the recipe does. */
  lemma AnySystem(env: Env, system: System, gpgError: Option<Handle>)
    ensures Run(env.(system := system), gpgError) == Run(env, gpgError)
  {
    LibgpgError.AnySystem(env, system);
  }

  /** With an accepting engine, the build succeeds and registers these artifacts, in order. */
  lemma Accepted(env: Env, gpgError: Option<Handle>)
    requires Accepts(env)
    ensures Run(env, gpgError).result.Ok?
    ensures Names(Run(env, gpgError).trace) == (if gpgError.None? then ["libgpg-error", "libgcrypt"] else ["libgcrypt"])
  {
    LibgpgError.RunOutcome(env);
  }
}
