/** sqlite3: the autoconf release of SQLite, built from source on every system. */
module Sqlite3 {
  import opened Sdk

  const Name := "sqlite3"
  const Version := "3.51.2"
  const VersionTag := "3510200"
  const Year := "2026"

  function Url(year: string, versionTag: string): string
  {
    "https://www.sqlite.org/" + year + "/sqlite-autoconf-" + versionTag + ".tar.gz"
  }

  function Script(name: string): seq<string>
  {
    [ "mkdir -pv \"$VORPAL_OUTPUT\"",
      "pushd ./source/" + name + "/sqlite-autoconf-" + VersionTag,
      "./configure --prefix=\"$VORPAL_OUTPUT\"",
      "make",
      "make install" ]
  }

  /** The artifact sqlite3 registers, whatever the system. */
  function Artifact(env: Env): (s: Spec)
    ensures Shaped(s, "sqlite3", "sqlite3:3.51.2", DefaultSystems)
    ensures SelfContained(s) && s.steps[0].script == Script(Name)
    ensures Downloads(s, Url(Year, VersionTag))
  {
    assert Alias(Name, Version) == "sqlite3:3.51.2";
    Spec(Name, [Shell([], [], Script(Name), [])], DefaultSystems, [Alias(Name, Version)], [Source(Name, Url(Year, VersionTag), [])])
  }

  /** The configure line the script runs. */
  lemma ScriptLines(env: Env)
    ensures "./configure --prefix=\"$VORPAL_OUTPUT\"" in Artifact(env).steps[0].script
  {
  }

  /** Building sqlite3: one registration, with no system check. */
  function Run(env: Env): Outcome
  {
    Registered(env, Artifact(env))
  }

  /** The result is the engine's answer, and only an accepted artifact enters the trace. */
  lemma RunOutcome(env: Env)
    ensures Run(env).result == env.submit(Artifact(env))
    ensures Run(env).trace == (if Run(env).result.Ok? then [Artifact(env)] else [])
  {
  }

  method Build(ctx: Context) returns (r: Result<Handle>)
    modifies ctx
    ensures r == Run(ctx.Environment()).result
    ensures ctx.log == old(ctx.log) + Run(ctx.Environment()).trace
    ensures ctx.runs == old(ctx.runs)
  {
    r := ctx.Register(Artifact(ctx.Environment()));
  }

  /** Every registration the recipe makes is its own artifact. */
  lemma TraceNames(env: Env)
    ensures forall s | s in Run(env).trace :: s.name == Name
  {
  }

  /** The target system plays no part in what the recipe does. */
  lemma AnySystem(env: Env, system: System)
    ensures Run(env.(system := system)) == Run(env)
  {
  }
}
