/** zsh: the Z shell, built from source; the ncurses handle is a builder slot. */
module Zsh {
  import opened Sdk
  import Ncurses

  const Name := "zsh"
  const Version := "5.9"

  function Url(version: string): string
  {
    "https://" + "downloads.sourceforge.net/" + "project/zsh/zsh/" + version + "/zsh-" + version + ".tar.xz"
  }

  /** The compiler flags: both ncurses include directories. */
  function FlagsLine(ncurses: string): string
  {
    "export CPPFLAGS=\"-I" + ncurses + "/include -I" + ncurses + "/include/ncursesw\""
  }

  /** The linker flags: the ncurses library directory, as search path and as run path. */
  function LinkLine(ncurses: string): string
  {
    "export LDFLAGS=\"-L" + ncurses + "/lib -Wl,-rpath," + ncurses + "/lib\""
  }

  /** The script, for the key of the ncurses handle. */
  function Script(ncurses: string): seq<string>
  {
    [ "mkdir -pv \"$VORPAL_OUTPUT\"",
      "",
      "pushd ./source/" + Name + "/zsh-" + Version,
      "",
      "export CFLAGS=\"-Wno-incompatible-pointer-types\"",
      FlagsLine(ncurses),
      LinkLine(ncurses),
      "",
      "./configure --prefix=\"$VORPAL_OUTPUT\"",
      "",
      "make",
      "make install" ]
  }

  /** The artifact registered once the ncurses slot is resolved to `ncurses`. */
  function Artifact(env: Env, ncurses: Handle): (s: Spec)
    ensures Shaped(s, "zsh", "zsh:5.9", DefaultSystems) && Downloads(s, Url(Version))
    ensures s.steps[0] == Shell([ncurses], [], Script(env.key(ncurses)), [])
  {
    assert Alias(Name, Version) == "zsh:5.9";
    var script := Script(env.key(ncurses));
    Spec(Name, [Shell([ncurses], [], script, [])], DefaultSystems, [Alias(Name, Version)], [Source(Name, Url(Version), [])])
  }

  /** The compiler and linker flags name the ncurses handle's key. */
  lemma ScriptLines(env: Env, ncurses: Handle)
    ensures FlagsLine(env.key(ncurses)) in Artifact(env, ncurses).steps[0].script && LinkLine(env.key(ncurses)) in Artifact(env, ncurses).steps[0].script
  {
    var script := Script(env.key(ncurses));
    assert script[5] == FlagsLine(env.key(ncurses)) && script[6] == LinkLine(env.key(ncurses));
  }

  /** `build` for the slot value `ncurses`: resolve it, then register; there is no system check. */
  function Run(env: Env, ncurses: Option<Handle>): Outcome
  {
    var n := Resolve(ncurses, Ncurses.Run(env));
    Then(n, Registered(env, Artifact(env, HandleOf(n))))
  }

  /** `Zsh`: a builder with one optional ncurses handle. */
  class Builder {
    var ncurses: Option<Handle>

    /** `new()`: the slot is empty. */
    constructor ()
      ensures ncurses == None
    {
      ncurses := None;
    }

    /** `with_ncurses`: fills the slot. */
    method WithNcurses(h: Handle)
      modifies this
      ensures ncurses == Some(h)
    {
      ncurses := Some(h);
    }

    method Build(ctx: Context) returns (r: Result<Handle>)
      modifies ctx
      ensures r == Run(ctx.Environment(), ncurses).result
      ensures ctx.log == old(ctx.log) + Run(ctx.Environment(), ncurses).trace
      ensures ctx.runs == old(ctx.runs)
    {
      var n: Handle;
      match ncurses {
        case Some(val) =>
          n := val;
        case None =>
          n :- Ncurses.Build(ctx);
      }
      r := ctx.Register(Artifact(ctx.Environment(), n));
    }
  }

  /** An injected handle is used as it is: the only registration is zsh itself, with that handle. */
  lemma Injected(env: Env, h: Handle)
    ensures Run(env, Some(h)) == Registered(env, Artifact(env, h))
    ensures Run(env, Some(h)).result.Ok? ==> Names(Run(env, Some(h)).trace) == ["zsh"]
  {
  }

  /** Without an injection ncurses is built first: its failure is the result and nothing is registered. */
  lemma SelfBuilt(env: Env)
    ensures Ncurses.Run(env).result.Err? ==> Run(env, None) == Outcome(Ncurses.Run(env).result, [])
    ensures Ncurses.Run(env).result.Ok? ==> Run(env, None).trace == [Ncurses.Artifact(env)] + Registered(env, Artifact(env, Ncurses.Run(env).result.value)).trace
  {
    Ncurses.RunOutcome(env);
  }

  /** The target system plays no part in what the recipe does. */
  lemma AnySystem(env: Env, system: System, ncurses: Option<Handle>)
    ensures Run(env.(system := system), ncurses) == Run(env, ncurses)
  {
    Ncurses.AnySystem(env, system);
  }

  /** With an accepting engine, the build succeeds and registers these artifacts, in order. */
  lemma Accepted(env: Env, ncurses: Option<Handle>)
    requires Accepts(env)
    ensures Run(env, ncurses).result.Ok?
    ensures Names(Run(env, ncurses).trace) == (if ncurses.None? then ["ncurses", "zsh"] else ["zsh"])
  {
    Ncurses.RunOutcome(env);
  }
}
