/** ncurses: the terminal library, built from source with pkg-config files on every system. */
module Ncurses {
  import opened Sdk

  const Name := "ncurses"
  const Version := "6.5"

  function Url(version: string): string
  {
    "https://" + "invisible-island.net/" + "archives/ncurses/" + "ncurses-" + version + ".tar.gz"
  }

  function Script(name: string, version: string): seq<string>
  {
    [ "mkdir -pv \"$VORPAL_OUTPUT\"",
      "pushd ./source/" + name + "/" + name + "-" + version,
      "./configure \\",
      "    --enable-pc-files \\",
      "    --prefix=\"$VORPAL_OUTPUT\" \\",
      "    --with-pkg-config-libdir=\"$VORPAL_OUTPUT/" + "lib/pkgconfig\" \\",
      "    --with-shared \\",
      "    --with-termlib",
      "make",
      "make install" ]
  }

  /** The artifact ncurses registers, whatever the system. */
  function Artifact(env: Env): (s: Spec)
    ensures Shaped(s, "ncurses", "ncurses:6.5", DefaultSystems)
    ensures SelfContained(s) && s.steps[0].script == Script(Name, Version)
    ensures Downloads(s, Url(Version))
  {
    assert Alias(Name, Version) == "ncurses:6.5";
    Spec(Name, [Shell([], [], Script(Name, Version), [])], DefaultSystems, [Alias(Name, Version)], [Source(Name, Url(Version), [])])
  }

  /** The configure options the script passes, each on a line of its own. */
  lemma ConfigureOptions()
    ensures "./configure \\" in Script(Name, Version)
    ensures "    --enable-pc-files \\" in Script(Name, Version)
    ensures "    --prefix=\"$VORPAL_OUTPUT\" \\" in Script(Name, Version)
    ensures "    --with-pkg-config-libdir=\"$VORPAL_OUTPUT/" + "lib/pkgconfig\" \\" in Script(Name, Version)
    ensures "    --with-shared \\" in Script(Name, Version)
    ensures "    --with-termlib" in Script(Name, Version)
  {
    var s := Script(Name, Version);
    assert s[2] == "./configure \\" && s[3] == "    --enable-pc-files \\";
  }

  /** Building ncurses: one registration, with no system check. */
  function Run(env: Env): Outcome
  {
    Registered(env, Artifact(env))
  }

  /** The result is the engine's answer, and only an accepted artifact enters the trace. */
  lemma RunOutcome(env: Env)
    ensures Run(env).result == env.submit(Artifact(env))
    ensures Run(env).trace == (if Run(env).result.Ok? then [Artifact(env)] else [])
  {
  }

  method Build(ctx: Context) returns (r: Result<Handle>)
    modifies ctx
    ensures r == Run(ctx.Environment()).result
    ensures ctx.log == old(ctx.log) + Run(ctx.Environment()).trace
    ensures ctx.runs == old(ctx.runs)
  {
    r := ctx.Register(Artifact(ctx.Environment()));
  }

  /** Every registration the recipe makes is its own artifact. */
  lemma TraceNames(env: Env)
    ensures forall s | s in Run(env).trace :: s.name == Name
  {
  }

  /** The target system plays no part in what the recipe does. */
  lemma AnySystem(env: Env, system: System)
    ensures Run(env.(system := system)) == Run(env)
  {
  }
}
