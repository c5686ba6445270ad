/** readline: the GNU line-editing library, built from source against a given ncurses. */
module Readline {
  import opened Sdk

  const Name := "readline"
  const Version := "8.2"

  function Url(version: string): string
  {
    "https://" + "ftpmirror.gnu.org/" + "readline/readline-" + version + ".tar.gz"
  }

  /** The compiler flags: both ncurses include directories. */
  function FlagsLine(ncurses: string): string
  {
    "export CPPFLAGS=\"-I" + ncurses + "/include -I" + ncurses + "/include/ncursesw\""
  }

  /** The linker flags: the ncurses library directory, as search path and as run path. */
  function LinkLine(ncurses: string): string
  {
    "export LDFLAGS=\"-L" + ncurses + "/lib -Wl,-rpath," + ncurses + "/lib\""
  }

  /** The script, for the key of the ncurses handle. */
  function Script(ncurses: string): seq<string>
  {
    [ "mkdir -pv \"$VORPAL_OUTPUT\"",
      "pushd ./source/" + Name + "/" + Name + "-" + Version,
      "",
      FlagsLine(ncurses),
      LinkLine(ncurses),
      "",
      "./configure \\",
      "    --prefix=\"$VORPAL_OUTPUT\" \\",
      "    --with-curses",
      "",
      "make",
      "make install" ]
  }

  /** The artifact registered for the ncurses handle `ncurses`. */
  function Artifact(env: Env, ncurses: Handle): (s: Spec)
    ensures Shaped(s, "readline", "readline:8.2", DefaultSystems) && Downloads(s, Url(Version))
    ensures s.steps[0] == Shell([ncurses], [], Script(env.key(ncurses)), [])
  {
    assert Alias(Name, Version) == "readline:8.2";
    var script := Script(env.key(ncurses));
    Spec(Name, [Shell([ncurses], [], script, [])], DefaultSystems, [Alias(Name, Version)], [Source(Name, Url(Version), [])])
  }

  /** The compiler and linker flags name the ncurses prefix, and configure is asked for curses support. */
  lemma ScriptLines(env: Env, ncurses: Handle)
    ensures FlagsLine(env.key(ncurses)) in Artifact(env, ncurses).steps[0].script && LinkLine(env.key(ncurses)) in Artifact(env, ncurses).steps[0].script
    ensures "    --with-curses" in Artifact(env, ncurses).steps[0].script
  {
    var script := Script(env.key(ncurses));
    assert script[3] == FlagsLine(env.key(ncurses)) && script[4] == LinkLine(env.key(ncurses));
    assert script[8] == "    --with-curses";
  }

  /** `build(context, ncurses)`: one registration, with no system check. */
  function Run(env: Env, ncurses: Handle): Outcome
  {
    Registered(env, Artifact(env, ncurses))
  }

  method Build(ctx: Context, ncurses: Handle) returns (r: Result<Handle>)
    modifies ctx
    ensures r == Run(ctx.Environment(), ncurses).result
    ensures ctx.log == old(ctx.log) + Run(ctx.Environment(), ncurses).trace
    ensures ctx.runs == old(ctx.runs)
  {
    r := ctx.Register(Artifact(ctx.Environment(), ncurses));
  }

  /** The given handle is used as it is: nothing else is built, and at most readline is registered. */
  lemma RunOutcome(env: Env, ncurses: Handle)
    ensures Run(env, ncurses).result == env.submit(Artifact(env, ncurses))
    ensures Run(env, ncurses).trace == (if Run(env, ncurses).result.Ok? then [Artifact(env, ncurses)] else [])
  {
  }

  /** The target system plays no part in what the recipe does. */
  lemma AnySystem(env: Env, system: System, ncurses: Handle)
    ensures Run(env.(system := system), ncurses) == Run(env, ncurses)
  {
  }

  /** With an accepting engine, the build succeeds and registers readline alone. */
  lemma Accepted(env: Env, ncurses: Handle)
    requires Accepts(env)
    ensures Run(env, ncurses).result.Ok? && Names(Run(env, ncurses).trace) == ["readline"]
  {
    RunOutcome(env, ncurses);
  }
}
