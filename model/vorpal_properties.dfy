/**
 * Whole-run properties of `main`: the order of its calls, fail-fast on the
 * first error, the registrations of a run that succeeds, and which calls
 * share the handles `main` keeps.
 */
module VorpalProperties {
  import opened Sdk
  import opened Vorpal
  import Gpg
  import Libassuan
  import Libgcrypt
  import LibgpgError
  import Libksba
  import Nnn
  import OpenapiGeneratorCli
  import Readline
  import Tmux
  import Zsh

  /** `main` makes 43 calls: the development environment, then the ten libraries, then the 32 tools. */
  lemma CallOrder(env: Env, o: Outcomes)
    ensures |Calls(env, o)| == 43
    ensures Calls(env, o)[0] == Dev(env)
    ensures Calls(env, o)[1..11] == LibraryCalls(o)
  {
    assert Calls(env, o) == [Dev(env)] + LibraryCalls(o) + (ToolCalls0(env, o) + ToolCalls1(env, o) + ToolCalls2(env, o) + ToolCalls3(env, o) + SecondCalls(env, o));
  }

  /** `main` reaches `context.run()` exactly when every one of its calls succeeds. */
  lemma RunsIffAllSucceed(env: Env, o: Outcomes)
    ensures Main(env, o).ran <==> forall i | 0 <= i < |Calls(env, o)| :: Calls(env, o)[i].result.Ok?
  {
    SucceedsIffAll(Calls(env, o));
  }

  /** When every call succeeds, `main` returns what `context.run()` returns, and every call's registrations are kept in call order. */
  lemma AllSucceed(env: Env, o: Outcomes)
    requires forall i | 0 <= i < |Calls(env, o)| :: Calls(env, o)[i].result.Ok?
    ensures Main(env, o) == Session(env.run, Traces(Calls(env, o)), true)
  {
    SucceedsIffAll(Calls(env, o));
    AllRegistered(Calls(env, o));
  }

  /**
   * The first call that fails ends `main`: its error is returned, the
   * registrations of the calls up to and including it are all that is
   * left, and `context.run()` is never reached.
   */
  lemma FailFast(env: Env, o: Outcomes, i: nat)
    requires i < |Calls(env, o)| && Calls(env, o)[i].result.Err?
    requires forall j | 0 <= j < i :: Calls(env, o)[j].result.Ok?
    ensures Main(env, o) == Session(Err(Calls(env, o)[i].result.error), Traces(Calls(env, o)[..i + 1]), false)
  {
    FirstFailure(Calls(env, o), i);
  }

  /** A failing development environment ends `main` before any library or tool is built. */
  lemma DevFails(env: Env, o: Outcomes)
    requires Dev(env).result.Err?
    ensures Main(env, o) == Session(Err(Dev(env).result.error), Dev(env).trace, false)
  {
    CallOrder(env, o);
    FailFast(env, o, 0);
    ghost var first := Calls(env, o)[..1];
    assert first == [Dev(env)];
    assert first[1..] == [];
  }

  /** libassuan and libgcrypt are given libgpg-error's handle and register only themselves; libksba builds libgpg-error once more. */
  lemma GpgErrorShared(env: Env, o: Outcomes)
    requires FaithfulLibraries(env, o)
    ensures o.libassuan.result.Ok? ==> o.libassuan.trace == [Libassuan.Artifact(env, HandleOf(o.libgpgError))]
    ensures o.libgcrypt.result.Ok? ==> o.libgcrypt.trace == [Libgcrypt.Artifact(env, HandleOf(o.libgpgError))]
    ensures o.libksba.result.Ok? ==> Names(o.libksba.trace) == ["libgpg-error", "libksba"]
  {
    ghost var h := HandleOf(o.libgpgError);
    assert o.libassuan == Libassuan.Run(env, h);
    Libassuan.RunOutcome(env, h);
    assert o.libgcrypt == Libgcrypt.Run(env, Some(h));
    Libgcrypt.Injected(env, h);
    assert o.libksba == Libksba.Run(env);
    Libksba.RunOutcome(env);
    if o.libksba.result.Ok? {
      var own := Registered(env, Libksba.Artifact(env, LibgpgError.Run(env).result.value));
      assert own.result.Ok?;
      NamesAppend([LibgpgError.Artifact(env)], own.trace);
    }
  }

  /** gpg is given the handles of `main`'s own libassuan, libgcrypt, libgpg-error, libksba and npth calls, in that order. */
  lemma GpgUsesKeptHandles(env: Env, o: Outcomes)
    requires FaithfulTools2(env, o)
    ensures o.gpg.result.Ok? ==> o.gpg.trace == [Gpg.Artifact(env, HandleOf(o.libassuan), HandleOf(o.libgcrypt), HandleOf(o.libgpgError), HandleOf(o.libksba), HandleOf(o.npth))]
    ensures o.gpg.result.Ok? ==> o.gpg.trace[0].steps[0].artifacts == [HandleOf(o.libassuan), HandleOf(o.libgcrypt), HandleOf(o.libgpgError), HandleOf(o.libksba), HandleOf(o.npth)]
  {
    assert o.gpg == Gpg.Run(env, HandleOf(o.libassuan), HandleOf(o.libgcrypt), HandleOf(o.libgpgError), HandleOf(o.libksba), HandleOf(o.npth));
    Gpg.RunOutcome(env, HandleOf(o.libassuan), HandleOf(o.libgcrypt), HandleOf(o.libgpgError), HandleOf(o.libksba), HandleOf(o.npth));
  }

  /** readline and nnn use the handle of `main`'s one ncurses call, and nnn the handle of its readline call too. */
  lemma NcursesShared(env: Env, o: Outcomes)
    requires FaithfulLibraries(env, o) && FaithfulTools4(env, o)
    ensures o.readline.result.Ok? ==> o.readline.trace == [Readline.Artifact(env, HandleOf(o.ncurses))]
    ensures o.nnn.result.Ok? ==> o.nnn.trace == [Nnn.Artifact(env, HandleOf(o.ncurses), HandleOf(o.pkgConfig), HandleOf(o.readline))]
  {
    ghost var n := HandleOf(o.ncurses);
    assert o.readline == Readline.Run(env, n);
    Readline.RunOutcome(env, n);
    assert o.nnn == Nnn.Run(env, n, HandleOf(o.pkgConfig), HandleOf(o.readline));
    Nnn.RunOutcome(env, n, HandleOf(o.pkgConfig), HandleOf(o.readline));
  }

  /** tmux and zsh are handed `main`'s ncurses (and tmux its libevent) and so register only themselves, building neither again. */
  lemma NcursesInjected(env: Env, o: Outcomes)
    requires FaithfulTools5(env, o) && FaithfulTools6(env, o)
    ensures o.tmux.result.Ok? ==> o.tmux.trace == [Tmux.Artifact(env, HandleOf(o.libevent), HandleOf(o.ncurses))]
    ensures o.zsh.result.Ok? ==> o.zsh.trace == [Zsh.Artifact(env, HandleOf(o.ncurses))]
  {
    ghost var n := HandleOf(o.ncurses);
    assert o.tmux == Tmux.Run(env, Some(HandleOf(o.libevent)), Some(n));
    Tmux.Injected(env, HandleOf(o.libevent), n);
    assert o.zsh == Zsh.Run(env, Some(n));
    Zsh.Injected(env, n);
  }

  /** openapi-generator-cli runs on the JDK of `main`'s own openjdk call. */
  lemma OpenjdkShared(env: Env, o: Outcomes)
    requires FaithfulTools4(env, o)
    ensures o.openapiGeneratorCli.result.Ok? ==> o.openapiGeneratorCli.trace == [OpenapiGeneratorCli.Artifact(env, HandleOf(o.openjdk))]
  {
    assert o.openapiGeneratorCli == OpenapiGeneratorCli.Run(env, HandleOf(o.openjdk));
    OpenapiGeneratorCli.RunOutcome(env, HandleOf(o.openjdk));
  }
}
