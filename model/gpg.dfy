/** gpg: GnuPG, built from source against five given library handles. */
module Gpg {
  import opened Sdk

  const Name := "gpg"
  const Version := "2.5.16"

  function Url(version: string): string
  {
    "https://gnupg.org/ftp/" + "gcrypt/gnupg/gnupg-" + version + ".tar.bz2"
  }

  /** The keys of the five handles, under the names the script uses for them. */
  datatype Keys = Keys(libassuan: string, libgcrypt: string, gpgError: string, libksba: string, npth: string)

  /** The `PATH` line: each library's `bin`, in script order, then the old `PATH`. */
  function PathLine(k: Keys): string
  {
    "export PATH=\"" + k.gpgError + "/bin:" + k.npth + "/bin:" + k.libgcrypt + "/bin:" + k.libassuan + "/bin:" + k.libksba + "/bin:$PATH\""
  }

  /** The configure options that name the five library prefixes. */
  function PrefixOptions(k: Keys): seq<string>
  {
    [ "    --with-libgpg-error-prefix=" + k.gpgError + " \\",
      "    --with-npth-prefix=" + k.npth + " \\",
      "    --with-libgcrypt-prefix=" + k.libgcrypt + " \\",
      "    --with-libassuan-prefix=" + k.libassuan + " \\",
      "    --with-ksba-prefix=" + k.libksba + " \\" ]
  }

  /** The script up to and including configure's `--prefix` option. */
  function Preamble(k: Keys): (ls: seq<string>)
    ensures |ls| == 11 && ls[4] == PathLine(k)
  {
    [ "mkdir -pv \"$VORPAL_OUTPUT\"",
      "",
      "pushd ./source/" + Name + "/gnupg-" + Version,
      "",
      PathLine(k),
      "export PKG_CONFIG_PATH=\"" + k.gpgError + "/lib/pkgconfig:" + k.npth + "/lib/pkgconfig:" + k.libgcrypt + "/lib/pkgconfig:" + k.libassuan + "/lib/pkgconfig:" + k.libksba + "/lib/pkgconfig\"",
      "export CPPFLAGS=\"-I" + k.gpgError + "/include -I" + k.npth + "/include -I" + k.libgcrypt + "/include -I" + k.libassuan + "/include -I" + k.libksba + "/include\"",
      "export LDFLAGS=\"-L" + k.gpgError + "/lib -L" + k.npth + "/lib -L" + k.libgcrypt + "/lib -L" + k.libassuan + "/lib -L" + k.libksba + "/lib"
        + " -Wl,-rpath," + k.gpgError + "/lib -Wl,-rpath," + k.npth + "/lib -Wl,-rpath," + k.libgcrypt + "/lib -Wl,-rpath," + k.libassuan + "/lib -Wl,-rpath," + k.libksba + "/lib\"",
      "",
      "./configure \\",
      "    --prefix=\"$VORPAL_OUTPUT\" \\" ]
  }

  /** The configure options after the prefix options. */
  const Tail: seq<string> := ["    --disable-doc", "", "make", "make install"]

  function Script(k: Keys): seq<string>
  {
    Preamble(k) + PrefixOptions(k) + Tail
  }

  /** The keys `get_env_key` gives for the five handles. */
  function KeysOf(env: Env, libassuan: Handle, libgcrypt: Handle, gpgError: Handle, libksba: Handle, npth: Handle): Keys
  {
    Keys(env.key(libassuan), env.key(libgcrypt), env.key(gpgError), env.key(libksba), env.key(npth))
  }

  /** The artifact registered for the five handles, which the step lists in parameter order. */
  function Artifact(env: Env, libassuan: Handle, libgcrypt: Handle, gpgError: Handle, libksba: Handle, npth: Handle): (s: Spec)
    ensures Shaped(s, "gpg", "gpg:2.5.16", DefaultSystems) && Downloads(s, Url(Version))
    ensures s.steps[0].artifacts == [libassuan, libgcrypt, gpgError, libksba, npth]
    ensures s.steps[0].environments == [] && s.steps[0].secrets == []
    ensures s.steps[0].script == Script(KeysOf(env, libassuan, libgcrypt, gpgError, libksba, npth))
  {
    assert Alias(Name, Version) == "gpg:2.5.16";
    var k := KeysOf(env, libassuan, libgcrypt, gpgError, libksba, npth);
    Spec(Name, [Shell([libassuan, libgcrypt, gpgError, libksba, npth], [], Script(k), [])], DefaultSystems, [Alias(Name, Version)], [Source(Name, Url(Version), [])])
  }

  /** `build(context, libassuan, libgcrypt, libgpg_error, libksba, npth)`: one registration, with no system check. */
  function Run(env: Env, libassuan: Handle, libgcrypt: Handle, gpgError: Handle, libksba: Handle, npth: Handle): Outcome
  {
    Registered(env, Artifact(env, libassuan, libgcrypt, gpgError, libksba, npth))
  }

  method Build(ctx: Context, libassuan: Handle, libgcrypt: Handle, gpgError: Handle, libksba: Handle, npth: Handle) returns (r: Result<Handle>)
    modifies ctx
    ensures r == Run(ctx.Environment(), libassuan, libgcrypt, gpgError, libksba, npth).result
    ensures ctx.log == old(ctx.log) + Run(ctx.Environment(), libassuan, libgcrypt, gpgError, libksba, npth).trace
    ensures ctx.runs == old(ctx.runs)
  {
    r := ctx.Register(Artifact(ctx.Environment(), libassuan, libgcrypt, gpgError, libksba, npth));
  }

  /**
   * The `PATH` line is the fifth line, and configure gets the five prefix
   * options together, right after `--prefix` and before `--disable-doc`.
   */
  lemma ScriptUsesKeys(k: Keys)
    ensures Script(k)[4] == PathLine(k)
    ensures Script(k)[10] == "    --prefix=\"$VORPAL_OUTPUT\" \\"
    ensures Script(k)[11..16] == PrefixOptions(k)
    ensures Script(k)[16] == "    --disable-doc"
  {
    var p := Preamble(k);
    assert Script(k)[..11] == p;
    assert Script(k)[11..16] == PrefixOptions(k);
  }

  /** The given handles are used as they are: nothing else is built, and at most gpg is registered. */
  lemma RunOutcome(env: Env, libassuan: Handle, libgcrypt: Handle, gpgError: Handle, libksba: Handle, npth: Handle)
    ensures Run(env, libassuan, libgcrypt, gpgError, libksba, npth).result == env.submit(Artifact(env, libassuan, libgcrypt, gpgError, libksba, npth))
    ensures Run(env, libassuan, libgcrypt, gpgError, libksba, npth).trace
      == (if Run(env, libassuan, libgcrypt, gpgError, libksba, npth).result.Ok? then [Artifact(env, libassuan, libgcrypt, gpgError, libksba, npth)] else [])
  {
  }

  /** With an accepting engine, the build succeeds and registers gpg alone. */
  lemma Accepted(env: Env, libassuan: Handle, libgcrypt: Handle, gpgError: Handle, libksba: Handle, npth: Handle)
    requires Accepts(env)
    ensures Run(env, libassuan, libgcrypt, gpgError, libksba, npth).result.Ok?
    ensures Names(Run(env, libassuan, libgcrypt, gpgError, libksba, npth).trace) == ["gpg"]
  {
    RunOutcome(env, libassuan, libgcrypt, gpgError, libksba, npth);
  }
}
