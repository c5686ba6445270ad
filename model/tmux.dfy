/** tmux: the terminal multiplexer, built from source; the libevent and ncurses handles are builder slots. */
module Tmux {
  import opened Sdk
  import Libevent
  import Ncurses

  const Name := "tmux"
  const Version := "3.5a"

  function Url(version: string): string
  {
    "https://github.com/" + "tmux/tmux/releases/" + "download/" + version + "/tmux-" + version + ".tar.gz"
  }

  /** The compiler flags: the libevent include directory, then both ncurses ones. */
  function FlagsLine(libevent: string, ncurses: string): string
  {
    "export CPPFLAGS=\"-I" + libevent + "/include -I" + ncurses + "/include -I" + ncurses + "/include/ncursesw\""
  }

  /** The linker flags: both library directories, as search paths and as run paths. */
  function LinkLine(libevent: string, ncurses: string): string
  {
    "export LDFLAGS=\"-L" + libevent + "/lib -L" + ncurses + "/lib -Wl,-rpath," + libevent + "/lib -Wl,-rpath," + ncurses + "/lib\""
  }

  /** The script, for the keys of the two handles. */
  function Script(libevent: string, ncurses: string): seq<string>
  {
    [ "mkdir -pv \"$VORPAL_OUTPUT\"",
      "",
      "pushd ./source/" + Name + "/tmux-" + Version,
      "",
      FlagsLine(libevent, ncurses),
      LinkLine(libevent, ncurses),
      "",
      "./configure" + " --disable-utf8proc" + " --prefix=\"$VORPAL_OUTPUT\"",
      "",
      "make",
      "make install" ]
  }

  /** The artifact registered once both slots are resolved. */
  function Artifact(env: Env, libevent: Handle, ncurses: Handle): (s: Spec)
    ensures Shaped(s, "tmux", "tmux:3.5a", DefaultSystems) && Downloads(s, Url(Version))
    ensures s.steps[0] == Shell([libevent, ncurses], [], Script(env.key(libevent), env.key(ncurses)), [])
  {
    assert Alias(Name, Version) == "tmux:3.5a";
    var script := Script(env.key(libevent), env.key(ncurses));
    Spec(Name, [Shell([libevent, ncurses], [], script, [])], DefaultSystems, [Alias(Name, Version)], [Source(Name, Url(Version), [])])
  }

  /** The compiler and linker flags name both handles' keys. */
  lemma ScriptLines(env: Env, libevent: Handle, ncurses: Handle)
    ensures FlagsLine(env.key(libevent), env.key(ncurses)) in Artifact(env, libevent, ncurses).steps[0].script
    ensures LinkLine(env.key(libevent), env.key(ncurses)) in Artifact(env, libevent, ncurses).steps[0].script
  {
    var script := Script(env.key(libevent), env.key(ncurses));
    assert script[4] == FlagsLine(env.key(libevent), env.key(ncurses));
    assert script[5] == LinkLine(env.key(libevent), env.key(ncurses));
  }

  /** `build` for the slot values: libevent is resolved before ncurses, then tmux registers; there is no system check. */
  function Run(env: Env, libevent: Option<Handle>, ncurses: Option<Handle>): Outcome
  {
    var l := Resolve(libevent, Libevent.Run(env));
    var n := Resolve(ncurses, Ncurses.Run(env));
    Then(Then(l, n), Registered(env, Artifact(env, HandleOf(l), HandleOf(n))))
  }

  /** `Tmux`: a builder with two optional dependency handles. */
  class Builder {
    var libevent: Option<Handle>
    var ncurses: Option<Handle>

    /** `new()`: both slots are empty. */
    constructor ()
      ensures libevent == None && ncurses == None
    {
      libevent := None;
      ncurses := None;
    }

    /** `with_libevent`: fills its own slot and leaves the other alone. */
    method WithLibevent(h: Handle)
      modifies this
      ensures libevent == Some(h) && ncurses == old(ncurses)
    {
      libevent := Some(h);
    }

    /** `with_ncurses`: fills its own slot and leaves the other alone. */
    method WithNcurses(h: Handle)
      modifies this
      ensures ncurses == Some(h) && libevent == old(libevent)
    {
      ncurses := Some(h);
    }

    method Build(ctx: Context) returns (r: Result<Handle>)
      modifies ctx
      ensures r == Run(ctx.Environment(), libevent, ncurses).result
      ensures ctx.log == old(ctx.log) + Run(ctx.Environment(), libevent, ncurses).trace
      ensures ctx.runs == old(ctx.runs)
    {
      ghost var env := ctx.Environment();
      ghost var first := Resolve(libevent, Libevent.Run(env));
      ghost var second := Resolve(ncurses, Ncurses.Run(env));
      var l: Handle;
      match libevent {
        case Some(val) =>
          l := val;
        case None =>
          l :- Libevent.Build(ctx);
      }
      Appended(old(ctx.log), first, second);
      var n: Handle;
      match ncurses {
        case Some(val) =>
          n := val;
        case None =>
          n :- Ncurses.Build(ctx);
      }
      Appended(old(ctx.log), Then(first, second), Registered(env, Artifact(env, l, n)));
      r := ctx.Register(Artifact(ctx.Environment(), l, n));
    }
  }

  /** With both handles injected, tmux is the only registration, and it uses them as given. */
  lemma Injected(env: Env, libevent: Handle, ncurses: Handle)
    ensures Run(env, Some(libevent), Some(ncurses)) == Registered(env, Artifact(env, libevent, ncurses))
  {
  }

  /**
   * With only ncurses injected, libevent is built first: its failure is the
   * result and nothing is registered; otherwise its artifact precedes tmux's
   * and ncurses is never built.
   */
  lemma OnlyNcursesInjected(env: Env, ncurses: Handle)
    ensures Libevent.Run(env).result.Err? ==> Run(env, None, Some(ncurses)) == Outcome(Libevent.Run(env).result, [])
    ensures Libevent.Run(env).result.Ok? ==> Run(env, None, Some(ncurses)).trace == [Libevent.Artifact(env)] + Registered(env, Artifact(env, Libevent.Run(env).result.value, ncurses)).trace
  {
    Libevent.RunOutcome(env);
  }

  /** The target system plays no part in what the recipe does. */
  lemma AnySystem(env: Env, system: System, libevent: Option<Handle>, ncurses: Option<Handle>)
    ensures Run(env.(system := system), libevent, ncurses) == Run(env, libevent, ncurses)
  {
    Libevent.AnySystem(env, system);
    Ncurses.AnySystem(env, system);
  }

  /** With an accepting engine and nothing injected, the build registers libevent, ncurses, then tmux. */
  lemma Accepted(env: Env)
    requires Accepts(env)
    ensures Run(env, None, None).result.Ok? && Names(Run(env, None, None).trace) == ["libevent", "ncurses", "tmux"]
  {
    Libevent.RunOutcome(env);
    Ncurses.RunOutcome(env);
  }

  /** With an accepting engine and both handles injected, the build registers tmux alone. */
  lemma AcceptedInjected(env: Env, libevent: Handle, ncurses: Handle)
    requires Accepts(env)
    ensures Run(env, Some(libevent), Some(ncurses)).result.Ok?
    ensures Names(Run(env, Some(libevent), Some(ncurses)).trace) == ["tmux"]
  {
  }
}
