/**
 * `main` in src/vorpal.rs: the development environment first, then the
 * libraries whose handles later calls need, then every tool, and `context.run()`
 * last. Each call stops `main` on failure (`?`).
 */
module Vorpal {
  import opened Sdk
  import Argocd
  import Awscli2
  import Bat
  import Bottom
  import Cue
  import Direnv
  import Doppler
  import Fd
  import Fluxcd
  import GolangciLint
  import Gpg
  import Helm
  import Jq
  import Just
  import K9s
  import Kubeseal
  import Lazygit
  import Libassuan
  import Libevent
  import Libgcrypt
  import LibgpgError
  import Libksba
  import Ncurses
  import Neovim
  import Nnn
  import Npth
  import OpenapiGeneratorCli
  import Openjdk
  import PkgConfig
  import Readline
  import Ripgrep
  import Starship
  import Terraform
  import Tmux
  import Yq
  import Zsh

  /** The outcome of every recipe call `main` makes. */
  datatype Outcomes = Outcomes(
    libevent: Outcome,
    libgpgError: Outcome,
    libassuan: Outcome,
    libgcrypt: Outcome,
    libksba: Outcome,
    ncurses: Outcome,
    npth: Outcome,
    openjdk: Outcome,
    pkgConfig: Outcome,
    readline: Outcome,
    argocd: Outcome,
    awscli2: Outcome,
    bat: Outcome,
    bottom: Outcome,
    cue: Outcome,
    direnv: Outcome,
    doppler: Outcome,
    fd: Outcome,
    fluxcd: Outcome,
    golangciLint: Outcome,
    gpg: Outcome,
    helm: Outcome,
    jq: Outcome,
    just: Outcome,
    k9s: Outcome,
    kubeseal: Outcome,
    lazygit: Outcome,
    neovim: Outcome,
    nnn: Outcome,
    openapiGeneratorCli: Outcome,
    ripgrep: Outcome,
    starship: Outcome,
    terraform: Outcome,
    tmux: Outcome,
    yq: Outcome,
    zsh: Outcome)

  /** The handles `main` keeps for the calls that consume them. */
  datatype Kept = Kept(libevent: Handle, libgpgError: Handle, libassuan: Handle, libgcrypt: Handle, libksba: Handle, ncurses: Handle, npth: Handle, openjdk: Handle, pkgConfig: Handle, readline: Handle)

  /** The handles of the first group of library calls. */
  datatype LibraryKept0 = LibraryKept0(libevent: Handle, libgpgError: Handle, libassuan: Handle, libgcrypt: Handle)

  /** The handles of the second group of library calls. */
  datatype LibraryKept1 = LibraryKept1(libksba: Handle, ncurses: Handle, npth: Handle)

  /** The handles of the third group of library calls. */
  datatype LibraryKept2 = LibraryKept2(openjdk: Handle, pkgConfig: Handle, readline: Handle)

  /** The library calls have their recipes' outcomes. */
  ghost predicate FaithfulLibraries(env: Env, o: Outcomes)
  {
    && (forall e: Env {:trigger Libevent.Run(e)} :: e == env ==> o.libevent == Libevent.Run(e))
    && (forall e: Env {:trigger LibgpgError.Run(e)} :: e == env ==> o.libgpgError == LibgpgError.Run(e))
    && (forall e: Env, h0: Handle {:trigger Libassuan.Run(e, h0)} :: e == env && h0 == HandleOf(o.libgpgError) ==> o.libassuan == Libassuan.Run(e, h0))
    && (forall e: Env, h0: Handle {:trigger Libgcrypt.Run(e, Some(h0))} :: e == env && h0 == HandleOf(o.libgpgError) ==> o.libgcrypt == Libgcrypt.Run(e, Some(h0)))
    && (forall e: Env {:trigger Libksba.Run(e)} :: e == env ==> o.libksba == Libksba.Run(e))
    && (forall e: Env {:trigger Ncurses.Run(e)} :: e == env ==> o.ncurses == Ncurses.Run(e))
    && (forall e: Env {:trigger Npth.Run(e)} :: e == env ==> o.npth == Npth.Run(e))
    && (forall e: Env {:trigger Openjdk.Run(e)} :: e == env ==> o.openjdk == Openjdk.Run(e))
    && (forall e: Env {:trigger PkgConfig.Run(e)} :: e == env ==> o.pkgConfig == PkgConfig.Run(e))
    && (forall e: Env, h0: Handle {:trigger Readline.Run(e, h0)} :: e == env && h0 == HandleOf(o.ncurses) ==> o.readline == Readline.Run(e, h0))
  }

  /** The calls of tool group 0 have their recipes' outcomes. */
  ghost predicate FaithfulTools0(env: Env, o: Outcomes)
  {
    && (forall e: Env {:trigger Argocd.Run(e)} :: e == env ==> o.argocd == Argocd.Run(e))
    && (forall e: Env {:trigger Awscli2.Run(e)} :: e == env ==> o.awscli2 == Awscli2.Run(e))
    && (forall e: Env {:trigger Bat.Run(e)} :: e == env ==> o.bat == Bat.Run(e))
    && (forall e: Env {:trigger Bottom.Run(e)} :: e == env ==> o.bottom == Bottom.Run(e))
  }

  /** The calls of tool group 1 have their recipes' outcomes. */
  ghost predicate FaithfulTools1(env: Env, o: Outcomes)
  {
    && (forall e: Env {:trigger Cue.Run(e)} :: e == env ==> o.cue == Cue.Run(e))
    && (forall e: Env {:trigger Direnv.Run(e)} :: e == env ==> o.direnv == Direnv.Run(e))
    && (forall e: Env {:trigger Doppler.Run(e)} :: e == env ==> o.doppler == Doppler.Run(e))
    && (forall e: Env {:trigger Fd.Run(e)} :: e == env ==> o.fd == Fd.Run(e))
    && (forall e: Env {:trigger Fluxcd.Run(e)} :: e == env ==> o.fluxcd == Fluxcd.Run(e))
  }

  /** The calls of tool group 2 have their recipes' outcomes. */
  ghost predicate FaithfulTools2(env: Env, o: Outcomes)
  {
    && (forall e: Env {:trigger GolangciLint.Run(e)} :: e == env ==> o.golangciLint == GolangciLint.Run(e))
    && (forall e: Env, h0: Handle, h1: Handle, h2: Handle, h3: Handle, h4: Handle {:trigger Gpg.Run(e, h0, h1, h2, h3, h4)} :: e == env && h0 == HandleOf(o.libassuan) && h1 == HandleOf(o.libgcrypt) && h2 == HandleOf(o.libgpgError) && h3 == HandleOf(o.libksba) && h4 == HandleOf(o.npth) ==> o.gpg == Gpg.Run(e, h0, h1, h2, h3, h4))
    && (forall e: Env {:trigger Helm.Run(e)} :: e == env ==> o.helm == Helm.Run(e))
    && (forall e: Env {:trigger Jq.Run(e)} :: e == env ==> o.jq == Jq.Run(e))
    && (forall e: Env {:trigger Just.Run(e)} :: e == env ==> o.just == Just.Run(e))
  }

  /** The calls of tool group 3 have their recipes' outcomes. */
  ghost predicate FaithfulTools3(env: Env, o: Outcomes)
  {
    && (forall e: Env {:trigger K9s.Run(e)} :: e == env ==> o.k9s == K9s.Run(e))
    && (forall e: Env {:trigger Kubeseal.Run(e)} :: e == env ==> o.kubeseal == Kubeseal.Run(e))
    && (forall e: Env {:trigger Lazygit.Run(e)} :: e == env ==> o.lazygit == Lazygit.Run(e))
  }

  /** The calls of tool group 4 have their recipes' outcomes. */
  ghost predicate FaithfulTools4(env: Env, o: Outcomes)
  {
    && (forall e: Env {:trigger Neovim.Run(e)} :: e == env ==> o.neovim == Neovim.Run(e))
    && (forall e: Env, h0: Handle, h1: Handle, h2: Handle {:trigger Nnn.Run(e, h0, h1, h2)} :: e == env && h0 == HandleOf(o.ncurses) && h1 == HandleOf(o.pkgConfig) && h2 == HandleOf(o.readline) ==> o.nnn == Nnn.Run(e, h0, h1, h2))
    && (forall e: Env, h0: Handle {:trigger OpenapiGeneratorCli.Run(e, h0)} :: e == env && h0 == HandleOf(o.openjdk) ==> o.openapiGeneratorCli == OpenapiGeneratorCli.Run(e, h0))
    && (forall e: Env {:trigger Ripgrep.Run(e)} :: e == env ==> o.ripgrep == Ripgrep.Run(e))
  }

  /** The calls of tool group 5 have their recipes' outcomes. */
  ghost predicate FaithfulTools5(env: Env, o: Outcomes)
  {
    && (forall e: Env {:trigger Starship.Run(e)} :: e == env ==> o.starship == Starship.Run(e))
    && (forall e: Env {:trigger Terraform.Run(e)} :: e == env ==> o.terraform == Terraform.Run(e))
    && (forall e: Env, h0: Handle, h1: Handle {:trigger Tmux.Run(e, Some(h0), Some(h1))} :: e == env && h0 == HandleOf(o.libevent) && h1 == HandleOf(o.ncurses) ==> o.tmux == Tmux.Run(e, Some(h0), Some(h1)))
  }

  /** The calls of tool group 6 have their recipes' outcomes. */
  ghost predicate FaithfulTools6(env: Env, o: Outcomes)
  {
    && (forall e: Env {:trigger Yq.Run(e)} :: e == env ==> o.yq == Yq.Run(e))
    && (forall e: Env, h0: Handle {:trigger Zsh.Run(e, Some(h0))} :: e == env && h0 == HandleOf(o.ncurses) ==> o.zsh == Zsh.Run(e, Some(h0)))
  }

  /** The calls of the first stage have their recipes' outcomes. */
  ghost predicate FaithfulFirst(env: Env, o: Outcomes)
  {
    FaithfulLibraries(env, o) && FaithfulTools0(env, o) && FaithfulTools1(env, o) && FaithfulTools2(env, o) && FaithfulTools3(env, o)
  }

  /** The calls of the second stage have their recipes' outcomes. */
  ghost predicate FaithfulSecond(env: Env, o: Outcomes)
  {
    FaithfulTools4(env, o) && FaithfulTools5(env, o) && FaithfulTools6(env, o)
  }

  /** Every call has its recipe's outcome, given the handles of the calls before it. */
  ghost predicate Faithful(env: Env, o: Outcomes)
  {
    FaithfulFirst(env, o) && FaithfulSecond(env, o)
  }

  /** `ProjectEnvironment::new("dev", DEFAULT_SYSTEMS).build(context)`. */
  function Dev(env: Env): Outcome
  {
    ForeignRun(env, ProjectEnvironment("dev", DefaultSystems))
  }

  /** The first group of library calls, in order. */
  function LibraryCalls0(o: Outcomes): seq<Outcome>
  {
    [o.libevent, o.libgpgError, o.libassuan, o.libgcrypt]
  }

  /** The second group of library calls, in order. */
  function LibraryCalls1(o: Outcomes): seq<Outcome>
  {
    [o.libksba, o.ncurses, o.npth]
  }

  /** The third group of library calls, in order. */
  function LibraryCalls2(o: Outcomes): seq<Outcome>
  {
    [o.openjdk, o.pkgConfig, o.readline]
  }

  /** The library calls, in order. */
  function LibraryCalls(o: Outcomes): seq<Outcome>
  {
    LibraryCalls0(o) + LibraryCalls1(o) + LibraryCalls2(o)
  }

  /** The handles of the first group of library calls. */
  function LibraryHandles0(o: Outcomes): LibraryKept0
  {
    LibraryKept0(HandleOf(o.libevent), HandleOf(o.libgpgError), HandleOf(o.libassuan), HandleOf(o.libgcrypt))
  }

  /** The handles of the second group of library calls. */
  function LibraryHandles1(o: Outcomes): LibraryKept1
  {
    LibraryKept1(HandleOf(o.libksba), HandleOf(o.ncurses), HandleOf(o.npth))
  }

  /** The handles of the third group of library calls. */
  function LibraryHandles2(o: Outcomes): LibraryKept2
  {
    LibraryKept2(HandleOf(o.openjdk), HandleOf(o.pkgConfig), HandleOf(o.readline))
  }

  /** The handles of the library calls. */
  function KeptHandles(o: Outcomes): Kept
  {
    Kept(HandleOf(o.libevent), HandleOf(o.libgpgError), HandleOf(o.libassuan), HandleOf(o.libgcrypt), HandleOf(o.libksba), HandleOf(o.ncurses), HandleOf(o.npth), HandleOf(o.openjdk), HandleOf(o.pkgConfig), HandleOf(o.readline))
  }

  /** Tool group 0, in the order of `main`. */
  function ToolCalls0(env: Env, o: Outcomes): seq<Outcome>
  {
    [o.argocd, o.awscli2, o.bat, o.bottom, ForeignRun(env, Crane)]
  }

  /** Tool group 1, in the order of `main`. */
  function ToolCalls1(env: Env, o: Outcomes): seq<Outcome>
  {
    [o.cue, o.direnv, o.doppler, o.fd, o.fluxcd]
  }

  /** Tool group 2, in the order of `main`. */
  function ToolCalls2(env: Env, o: Outcomes): seq<Outcome>
  {
    [o.golangciLint, o.gpg, o.helm, o.jq, o.just]
  }

  /** Tool group 3, in the order of `main`. */
  function ToolCalls3(env: Env, o: Outcomes): seq<Outcome>
  {
    [o.k9s, ForeignRun(env, Kn), ForeignRun(env, Kubectl), o.kubeseal, o.lazygit]
  }

  /** Tool group 4, in the order of `main`. */
  function ToolCalls4(env: Env, o: Outcomes): seq<Outcome>
  {
    [o.neovim, ForeignRun(env, Nginx), o.nnn, o.openapiGeneratorCli, o.ripgrep]
  }

  /** Tool group 5, in the order of `main`. */
  function ToolCalls5(env: Env, o: Outcomes): seq<Outcome>
  {
    [ForeignRun(env, Skopeo), o.starship, o.terraform, o.tmux, ForeignRun(env, Umoci)]
  }

  /** Tool group 6, in the order of `main`. */
  function ToolCalls6(env: Env, o: Outcomes): seq<Outcome>
  {
    [o.yq, o.zsh]
  }

  /** The calls up to the handle-consuming tools: the environment, the libraries, the first tools. */
  function FirstCalls(env: Env, o: Outcomes): seq<Outcome>
  {
    [Dev(env)] + LibraryCalls(o) + ToolCalls0(env, o) + ToolCalls1(env, o) + ToolCalls2(env, o) + ToolCalls3(env, o)
  }

  /** The remaining tool calls. */
  function SecondCalls(env: Env, o: Outcomes): seq<Outcome>
  {
    ToolCalls4(env, o) + ToolCalls5(env, o) + ToolCalls6(env, o)
  }

  /** Every call `main` makes, in order. */
  function Calls(env: Env, o: Outcomes): seq<Outcome>
  {
    FirstCalls(env, o) + SecondCalls(env, o)
  }

  /**
   * Calls made one after another, each followed by `?`: the first failure
   * ends the run with its error and the registrations made so far; otherwise
   * the run has the last call's result and every call's registrations.
   */
  function Sequence(os: seq<Outcome>): Outcome
  {
    if os == [] then Outcome(Ok(""), []) else if |os| == 1 then os[0] else Then(os[0], Sequence(os[1..]))
  }

  /** The registrations of every call, in order. */
  function Traces(os: seq<Outcome>): seq<Spec>
  {
    if os == [] then [] else os[0].trace + Traces(os[1..])
  }

  /** Running two non-empty lists of calls one after the other is running their concatenation. */
  lemma {:induction false} Joined(p: seq<Outcome>, q: seq<Outcome>)
    requires p != [] && q != []
    ensures Sequence(p + q) == Then(Sequence(p), Sequence(q))
    decreases |p|
  {
    assert (p + q)[0] == p[0];
    assert (p + q)[1..] == p[1..] + q;
    if |p| > 1 {
      Joined(p[1..], q);
      ThenAssociative(p[0], Sequence(p[1..]), Sequence(q));
    }
  }

  /** The run succeeds exactly when every call does. */
  lemma {:induction false} SucceedsIffAll(os: seq<Outcome>)
    ensures Sequence(os).result.Ok? <==> forall i | 0 <= i < |os| :: os[i].result.Ok?
    decreases |os|
  {
    if |os| > 1 {
      SucceedsIffAll(os[1..]);
      assert forall i | 1 <= i < |os| :: os[1..][i - 1] == os[i];
    }
  }

  /** When every call succeeds, every call's registrations are kept, in order. */
  lemma {:induction false} AllRegistered(os: seq<Outcome>)
    requires forall i | 0 <= i < |os| :: os[i].result.Ok?
    ensures Sequence(os).trace == Traces(os)
    decreases |os|
  {
    if |os| == 1 {
      assert os[1..] == [];
    } else if |os| > 1 {
      assert forall i | 0 <= i < |os| - 1 :: os[1..][i] == os[i + 1];
      AllRegistered(os[1..]);
    }
  }

  /**
   * The first failed call decides the run: its error, and the registrations
   * of the calls before it and its own.
   */
  lemma {:induction false} FirstFailure(os: seq<Outcome>, i: nat)
    requires i < |os| && os[i].result.Err?
    requires forall j | 0 <= j < i :: os[j].result.Ok?
    ensures Sequence(os) == Outcome(os[i].result, Traces(os[..i + 1]))
    decreases i
  {
    if i == 0 {
      assert os[..1][1..] == [];
    } else {
      var rest := os[1..];
      assert forall j | 0 <= j < i - 1 :: rest[j] == os[j + 1];
      assert rest[i - 1] == os[i];
      FirstFailure(rest, i - 1);
      assert os[..i + 1][1..] == rest[..i];
    }
  }

  /** What `main` returns, what it registered, and whether it reached `context.run()`. */
  datatype Session = Session(result: Result<()>, trace: seq<Spec>, ran: bool)

  /** `context.run().await` after the calls, unless one of them failed. */
  function Finish(env: Env, o: Outcome): (s: Session)
    ensures s.trace == o.trace && s.ran == o.result.Ok?
    ensures s.ran ==> s.result == env.run
    ensures !s.ran ==> s.result == Err(o.result.error)
  {
    if o.result.Err? then Session(Err(o.result.error), o.trace, false) else Session(env.run, o.trace, true)
  }

  /** `main`, given the context's environment and the outcome of each of its calls. */
  function Main(env: Env, o: Outcomes): Session
  {
    Finish(env, Sequence(Calls(env, o)))
  }

  /** The calls of `LibraryCalls0`, chained one after another from the left. */
  lemma Libraries0Chained(o: Outcomes)
    ensures Sequence(LibraryCalls0(o)) == Then(Then(Then(o.libevent, o.libgpgError), o.libassuan), o.libgcrypt)
  {
    ghost var d0 := LibraryCalls0(o);
    ghost var d1 := [o.libgpgError, o.libassuan, o.libgcrypt];
    ghost var d2 := [o.libassuan, o.libgcrypt];
    ghost var d3 := [o.libgcrypt];
    assert d0 == [o.libevent] + d1;
    assert d0[1..] == d1;
    assert d1[1..] == d2;
    assert d2[1..] == d3;
    ThenAssociative(o.libevent, o.libgpgError, Sequence(d2));
    ThenAssociative(Then(o.libevent, o.libgpgError), o.libassuan, Sequence(d3));
    assert Sequence(d3) == o.libgcrypt;
  }

  /** The calls of `LibraryCalls1`, chained one after another from the left. */
  lemma Libraries1Chained(o: Outcomes)
    ensures Sequence(LibraryCalls1(o)) == Then(Then(o.libksba, o.ncurses), o.npth)
  {
    ghost var d0 := LibraryCalls1(o);
    ghost var d1 := [o.ncurses, o.npth];
    ghost var d2 := [o.npth];
    assert d0 == [o.libksba] + d1;
    assert d0[1..] == d1;
    assert d1[1..] == d2;
    ThenAssociative(o.libksba, o.ncurses, Sequence(d2));
    assert Sequence(d2) == o.npth;
  }

  /** The calls of `LibraryCalls2`, chained one after another from the left. */
  lemma Libraries2Chained(o: Outcomes)
    ensures Sequence(LibraryCalls2(o)) == Then(Then(o.openjdk, o.pkgConfig), o.readline)
  {
    ghost var d0 := LibraryCalls2(o);
    ghost var d1 := [o.pkgConfig, o.readline];
    ghost var d2 := [o.readline];
    assert d0 == [o.openjdk] + d1;
    assert d0[1..] == d1;
    assert d1[1..] == d2;
    ThenAssociative(o.openjdk, o.pkgConfig, Sequence(d2));
    assert Sequence(d2) == o.readline;
  }

  /** The library calls, group by group. */
  lemma LibrariesGrouped(o: Outcomes)
    ensures Sequence(LibraryCalls(o)) == Then(Then(Sequence(LibraryCalls0(o)), Sequence(LibraryCalls1(o))), Sequence(LibraryCalls2(o)))
  {
    ghost var p0 := LibraryCalls0(o);
    Joined(p0, LibraryCalls1(o));
    ghost var p1 := p0 + LibraryCalls1(o);
    Joined(p1, LibraryCalls2(o));
    ghost var p2 := p1 + LibraryCalls2(o);
    assert LibraryCalls(o) == p2;
  }

  /** The calls of `ToolCalls0`, chained one after another from the left. */
  lemma Tools0Chained(env: Env, o: Outcomes)
    ensures Sequence(ToolCalls0(env, o)) == Then(Then(Then(Then(o.argocd, o.awscli2), o.bat), o.bottom), ForeignRun(env, Crane))
  {
    ghost var d0 := ToolCalls0(env, o);
    ghost var d1 := [o.awscli2, o.bat, o.bottom, ForeignRun(env, Crane)];
    ghost var d2 := [o.bat, o.bottom, ForeignRun(env, Crane)];
    ghost var d3 := [o.bottom, ForeignRun(env, Crane)];
    ghost var d4 := [ForeignRun(env, Crane)];
    assert d0 == [o.argocd] + d1;
    assert d0[1..] == d1;
    assert d1[1..] == d2;
    assert d2[1..] == d3;
    assert d3[1..] == d4;
    ThenAssociative(o.argocd, o.awscli2, Sequence(d2));
    ThenAssociative(Then(o.argocd, o.awscli2), o.bat, Sequence(d3));
    ThenAssociative(Then(Then(o.argocd, o.awscli2), o.bat), o.bottom, Sequence(d4));
    assert Sequence(d4) == ForeignRun(env, Crane);
  }

  /** The calls of `ToolCalls1`, chained one after another from the left. */
  lemma Tools1Chained(env: Env, o: Outcomes)
    ensures Sequence(ToolCalls1(env, o)) == Then(Then(Then(Then(o.cue, o.direnv), o.doppler), o.fd), o.fluxcd)
  {
    ghost var d0 := ToolCalls1(env, o);
    ghost var d1 := [o.direnv, o.doppler, o.fd, o.fluxcd];
    ghost var d2 := [o.doppler, o.fd, o.fluxcd];
    ghost var d3 := [o.fd, o.fluxcd];
    ghost var d4 := [o.fluxcd];
    assert d0 == [o.cue] + d1;
    assert d0[1..] == d1;
    assert d1[1..] == d2;
    assert d2[1..] == d3;
    assert d3[1..] == d4;
    ThenAssociative(o.cue, o.direnv, Sequence(d2));
    ThenAssociative(Then(o.cue, o.direnv), o.doppler, Sequence(d3));
    ThenAssociative(Then(Then(o.cue, o.direnv), o.doppler), o.fd, Sequence(d4));
    assert Sequence(d4) == o.fluxcd;
  }

  /** The calls of `ToolCalls2`, chained one after another from the left. */
  lemma Tools2Chained(env: Env, o: Outcomes)
    ensures Sequence(ToolCalls2(env, o)) == Then(Then(Then(Then(o.golangciLint, o.gpg), o.helm), o.jq), o.just)
  {
    ghost var d0 := ToolCalls2(env, o);
    ghost var d1 := [o.gpg, o.helm, o.jq, o.just];
    ghost var d2 := [o.helm, o.jq, o.just];
    ghost var d3 := [o.jq, o.just];
    ghost var d4 := [o.just];
    assert d0 == [o.golangciLint] + d1;
    assert d0[1..] == d1;
    assert d1[1..] == d2;
    assert d2[1..] == d3;
    assert d3[1..] == d4;
    ThenAssociative(o.golangciLint, o.gpg, Sequence(d2));
    ThenAssociative(Then(o.golangciLint, o.gpg), o.helm, Sequence(d3));
    ThenAssociative(Then(Then(o.golangciLint, o.gpg), o.helm), o.jq, Sequence(d4));
    assert Sequence(d4) == o.just;
  }

  /** The calls of `ToolCalls3`, chained one after another from the left. */
  lemma Tools3Chained(env: Env, o: Outcomes)
    ensures Sequence(ToolCalls3(env, o)) == Then(Then(Then(Then(o.k9s, ForeignRun(env, Kn)), ForeignRun(env, Kubectl)), o.kubeseal), o.lazygit)
  {
    ghost var d0 := ToolCalls3(env, o);
    ghost var d1 := [ForeignRun(env, Kn), ForeignRun(env, Kubectl), o.kubeseal, o.lazygit];
    ghost var d2 := [ForeignRun(env, Kubectl), o.kubeseal, o.lazygit];
    ghost var d3 := [o.kubeseal, o.lazygit];
    ghost var d4 := [o.lazygit];
    assert d0 == [o.k9s] + d1;
    assert d0[1..] == d1;
    assert d1[1..] == d2;
    assert d2[1..] == d3;
    assert d3[1..] == d4;
    ThenAssociative(o.k9s, ForeignRun(env, Kn), Sequence(d2));
    ThenAssociative(Then(o.k9s, ForeignRun(env, Kn)), ForeignRun(env, Kubectl), Sequence(d3));
    ThenAssociative(Then(Then(o.k9s, ForeignRun(env, Kn)), ForeignRun(env, Kubectl)), o.kubeseal, Sequence(d4));
    assert Sequence(d4) == o.lazygit;
  }

  /** The calls of `ToolCalls4`, chained one after another from the left. */
  lemma Tools4Chained(env: Env, o: Outcomes)
    ensures Sequence(ToolCalls4(env, o)) == Then(Then(Then(Then(o.neovim, ForeignRun(env, Nginx)), o.nnn), o.openapiGeneratorCli), o.ripgrep)
  {
    ghost var d0 := ToolCalls4(env, o);
    ghost var d1 := [ForeignRun(env, Nginx), o.nnn, o.openapiGeneratorCli, o.ripgrep];
    ghost var d2 := [o.nnn, o.openapiGeneratorCli, o.ripgrep];
    ghost var d3 := [o.openapiGeneratorCli, o.ripgrep];
    ghost var d4 := [o.ripgrep];
    assert d0 == [o.neovim] + d1;
    assert d0[1..] == d1;
    assert d1[1..] == d2;
    assert d2[1..] == d3;
    assert d3[1..] == d4;
    ThenAssociative(o.neovim, ForeignRun(env, Nginx), Sequence(d2));
    ThenAssociative(Then(o.neovim, ForeignRun(env, Nginx)), o.nnn, Sequence(d3));
    ThenAssociative(Then(Then(o.neovim, ForeignRun(env, Nginx)), o.nnn), o.openapiGeneratorCli, Sequence(d4));
    assert Sequence(d4) == o.ripgrep;
  }

  /** The calls of `ToolCalls5`, chained one after another from the left. */
  lemma Tools5Chained(env: Env, o: Outcomes)
    ensures Sequence(ToolCalls5(env, o)) == Then(Then(Then(Then(ForeignRun(env, Skopeo), o.starship), o.terraform), o.tmux), ForeignRun(env, Umoci))
  {
    ghost var d0 := ToolCalls5(env, o);
    ghost var d1 := [o.starship, o.terraform, o.tmux, ForeignRun(env, Umoci)];
    ghost var d2 := [o.terraform, o.tmux, ForeignRun(env, Umoci)];
    ghost var d3 := [o.tmux, ForeignRun(env, Umoci)];
    ghost var d4 := [ForeignRun(env, Umoci)];
    assert d0 == [ForeignRun(env, Skopeo)] + d1;
    assert d0[1..] == d1;
    assert d1[1..] == d2;
    assert d2[1..] == d3;
    assert d3[1..] == d4;
    ThenAssociative(ForeignRun(env, Skopeo), o.starship, Sequence(d2));
    ThenAssociative(Then(ForeignRun(env, Skopeo), o.starship), o.terraform, Sequence(d3));
    ThenAssociative(Then(Then(ForeignRun(env, Skopeo), o.starship), o.terraform), o.tmux, Sequence(d4));
    assert Sequence(d4) == ForeignRun(env, Umoci);
  }

  /** The calls of `ToolCalls6`, chained one after another from the left. */
  lemma Tools6Chained(env: Env, o: Outcomes)
    ensures Sequence(ToolCalls6(env, o)) == Then(o.yq, o.zsh)
  {
    ghost var d0 := ToolCalls6(env, o);
    ghost var d1 := [o.zsh];
    assert d0 == [o.yq] + d1;
    assert d0[1..] == d1;
    assert Sequence(d1) == o.zsh;
  }

  /** The calls of `FirstCalls`, grouped. */
  lemma FirstChained(env: Env, o: Outcomes)
    ensures Sequence(FirstCalls(env, o)) == Then(Then(Then(Then(Then(Dev(env), Sequence(LibraryCalls(o))), Sequence(ToolCalls0(env, o))), Sequence(ToolCalls1(env, o))), Sequence(ToolCalls2(env, o))), Sequence(ToolCalls3(env, o)))
  {
    ghost var p0 := [Dev(env)];
    assert Sequence(p0) == Dev(env);
    Joined(p0, LibraryCalls(o));
    ghost var p1 := p0 + LibraryCalls(o);
    Joined(p1, ToolCalls0(env, o));
    ghost var p2 := p1 + ToolCalls0(env, o);
    Joined(p2, ToolCalls1(env, o));
    ghost var p3 := p2 + ToolCalls1(env, o);
    Joined(p3, ToolCalls2(env, o));
    ghost var p4 := p3 + ToolCalls2(env, o);
    Joined(p4, ToolCalls3(env, o));
    ghost var p5 := p4 + ToolCalls3(env, o);
    assert FirstCalls(env, o) == p5;
  }

  /** The calls of `SecondCalls`, grouped. */
  lemma SecondChained(env: Env, o: Outcomes)
    ensures Sequence(SecondCalls(env, o)) == Then(Then(Sequence(ToolCalls4(env, o)), Sequence(ToolCalls5(env, o))), Sequence(ToolCalls6(env, o)))
  {
    ghost var p0 := ToolCalls4(env, o);
    Joined(p0, ToolCalls5(env, o));
    ghost var p1 := p0 + ToolCalls5(env, o);
    Joined(p1, ToolCalls6(env, o));
    ghost var p2 := p1 + ToolCalls6(env, o);
    assert SecondCalls(env, o) == p2;
  }

  method BuildLibraries0(ctx: Context, ghost o: Outcomes) returns (r: Result<LibraryKept0>)
    modifies ctx
    requires FaithfulLibraries(ctx.Environment(), o)
    ensures r.Ok? == Sequence(LibraryCalls0(o)).result.Ok?
    ensures r.Err? ==> r.error == Sequence(LibraryCalls0(o)).result.error
    ensures r.Ok? ==> r.value == LibraryHandles0(o)
    ensures ctx.log == old(ctx.log) + Sequence(LibraryCalls0(o)).trace
    ensures ctx.runs == old(ctx.runs)
  {
    ghost var env := ctx.Environment();
    Libraries0Chained(o);
    ghost var log0 := ctx.log;
    var h: Result<Handle>;
    h := Libevent.Build(ctx);
    ghost var done := o.libevent;
    if h.Err? {
      return Err(h.error);
    }
    var libevent := h.value;
    Appended(log0, done, o.libgpgError);
    h := LibgpgError.Build(ctx);
    done := Then(done, o.libgpgError);
    if h.Err? {
      return Err(h.error);
    }
    var libgpgError := h.value;
    Appended(log0, done, o.libassuan);
    h := Libassuan.Build(ctx, libgpgError);
    done := Then(done, o.libassuan);
    if h.Err? {
      return Err(h.error);
    }
    var libassuan := h.value;
    Appended(log0, done, o.libgcrypt);
    var libgcryptBuilder := new Libgcrypt.Builder();
    libgcryptBuilder.WithLibgpgError(libgpgError);
    h := libgcryptBuilder.Build(ctx);
    done := Then(done, o.libgcrypt);
    if h.Err? {
      return Err(h.error);
    }
    var libgcrypt := h.value;
    r := Ok(LibraryKept0(libevent, libgpgError, libassuan, libgcrypt));
  }

  method BuildLibraries1(ctx: Context, ghost o: Outcomes) returns (r: Result<LibraryKept1>)
    modifies ctx
    requires FaithfulLibraries(ctx.Environment(), o)
    ensures r.Ok? == Sequence(LibraryCalls1(o)).result.Ok?
    ensures r.Err? ==> r.error == Sequence(LibraryCalls1(o)).result.error
    ensures r.Ok? ==> r.value == LibraryHandles1(o)
    ensures ctx.log == old(ctx.log) + Sequence(LibraryCalls1(o)).trace
    ensures ctx.runs == old(ctx.runs)
  {
    ghost var env := ctx.Environment();
    Libraries1Chained(o);
    ghost var log0 := ctx.log;
    var h: Result<Handle>;
    h := Libksba.Build(ctx);
    ghost var done := o.libksba;
    if h.Err? {
      return Err(h.error);
    }
    var libksba := h.value;
    Appended(log0, done, o.ncurses);
    h := Ncurses.Build(ctx);
    done := Then(done, o.ncurses);
    if h.Err? {
      return Err(h.error);
    }
    var ncurses := h.value;
    Appended(log0, done, o.npth);
    h := Npth.Build(ctx);
    done := Then(done, o.npth);
    if h.Err? {
      return Err(h.error);
    }
    var npth := h.value;
    r := Ok(LibraryKept1(libksba, ncurses, npth));
  }

  method BuildLibraries2(ctx: Context, ghost o: Outcomes, ncurses: Handle) returns (r: Result<LibraryKept2>)
    modifies ctx
    requires FaithfulLibraries(ctx.Environment(), o)
    requires ncurses == HandleOf(o.ncurses)
    ensures r.Ok? == Sequence(LibraryCalls2(o)).result.Ok?
    ensures r.Err? ==> r.error == Sequence(LibraryCalls2(o)).result.error
    ensures r.Ok? ==> r.value == LibraryHandles2(o)
    ensures ctx.log == old(ctx.log) + Sequence(LibraryCalls2(o)).trace
    ensures ctx.runs == old(ctx.runs)
  {
    ghost var env := ctx.Environment();
    Libraries2Chained(o);
    ghost var log0 := ctx.log;
    var h: Result<Handle>;
    h := Openjdk.Build(ctx);
    ghost var done := o.openjdk;
    if h.Err? {
      return Err(h.error);
    }
    var openjdk := h.value;
    Appended(log0, done, o.pkgConfig);
    h := PkgConfig.Build(ctx);
    done := Then(done, o.pkgConfig);
    if h.Err? {
      return Err(h.error);
    }
    var pkgConfig := h.value;
    Appended(log0, done, o.readline);
    h := Readline.Build(ctx, ncurses);
    done := Then(done, o.readline);
    if h.Err? {
      return Err(h.error);
    }
    var readline := h.value;
    r := Ok(LibraryKept2(openjdk, pkgConfig, readline));
  }

  /** The library calls of `main`, group by group. */
  method BuildLibraries(ctx: Context, ghost o: Outcomes) returns (r: Result<Kept>)
    modifies ctx
    requires FaithfulLibraries(ctx.Environment(), o)
    ensures r.Ok? == Sequence(LibraryCalls(o)).result.Ok?
    ensures r.Err? ==> r.error == Sequence(LibraryCalls(o)).result.error
    ensures r.Ok? ==> r.value == KeptHandles(o)
    ensures ctx.log == old(ctx.log) + Sequence(LibraryCalls(o)).trace
    ensures ctx.runs == old(ctx.runs)
  {
    LibrariesGrouped(o);
    ghost var log0 := ctx.log;
    var g0 := BuildLibraries0(ctx, o);
    ghost var done := Sequence(LibraryCalls0(o));
    if g0.Err? {
      return Err(g0.error);
    }
    Appended(log0, done, Sequence(LibraryCalls1(o)));
    var g1 := BuildLibraries1(ctx, o);
    done := Then(done, Sequence(LibraryCalls1(o)));
    if g1.Err? {
      return Err(g1.error);
    }
    Appended(log0, done, Sequence(LibraryCalls2(o)));
    var g2 := BuildLibraries2(ctx, o, g1.value.ncurses);
    done := Then(done, Sequence(LibraryCalls2(o)));
    if g2.Err? {
      return Err(g2.error);
    }
    r := Ok(Kept(g0.value.libevent, g0.value.libgpgError, g0.value.libassuan, g0.value.libgcrypt, g1.value.libksba, g1.value.ncurses, g1.value.npth, g2.value.openjdk, g2.value.pkgConfig, g2.value.readline));
  }

  method BuildTools0(ctx: Context, ghost o: Outcomes, k: Kept) returns (r: Result<Handle>)
    modifies ctx
    requires FaithfulTools0(ctx.Environment(), o)
    requires k == KeptHandles(o)
    ensures r == Sequence(ToolCalls0(ctx.Environment(), o)).result
    ensures ctx.log == old(ctx.log) + Sequence(ToolCalls0(ctx.Environment(), o)).trace
    ensures ctx.runs == old(ctx.runs)
  {
    ghost var env := ctx.Environment();
    Tools0Chained(env, o);
    ghost var log0 := ctx.log;
    var h: Result<Handle>;
    h := Argocd.Build(ctx);
    ghost var done := o.argocd;
    if h.Err? {
      return Err(h.error);
    }
    Appended(log0, done, o.awscli2);
    h := Awscli2.Build(ctx);
    done := Then(done, o.awscli2);
    if h.Err? {
      return Err(h.error);
    }
    Appended(log0, done, o.bat);
    h := Bat.Build(ctx);
    done := Then(done, o.bat);
    if h.Err? {
      return Err(h.error);
    }
    Appended(log0, done, o.bottom);
    h := Bottom.Build(ctx);
    done := Then(done, o.bottom);
    if h.Err? {
      return Err(h.error);
    }
    Appended(log0, done, ForeignRun(env, Crane));
    h := ctx.BuildForeign(Crane);
    done := Then(done, ForeignRun(env, Crane));
    r := h;
  }

  method BuildTools1(ctx: Context, ghost o: Outcomes, k: Kept) returns (r: Result<Handle>)
    modifies ctx
    requires FaithfulTools1(ctx.Environment(), o)
    requires k == KeptHandles(o)
    ensures r == Sequence(ToolCalls1(ctx.Environment(), o)).result
    ensures ctx.log == old(ctx.log) + Sequence(ToolCalls1(ctx.Environment(), o)).trace
    ensures ctx.runs == old(ctx.runs)
  {
    ghost var env := ctx.Environment();
    Tools1Chained(env, o);
    ghost var log0 := ctx.log;
    var h: Result<Handle>;
    h := Cue.Build(ctx);
    ghost var done := o.cue;
    if h.Err? {
      return Err(h.error);
    }
    Appended(log0, done, o.direnv);
    h := Direnv.Build(ctx);
    done := Then(done, o.direnv);
    if h.Err? {
      return Err(h.error);
    }
    Appended(log0, done, o.doppler);
    h := Doppler.Build(ctx);
    done := Then(done, o.doppler);
    if h.Err? {
      return Err(h.error);
    }
    Appended(log0, done, o.fd);
    h := Fd.Build(ctx);
    done := Then(done, o.fd);
    if h.Err? {
      return Err(h.error);
    }
    Appended(log0, done, o.fluxcd);
    h := Fluxcd.Build(ctx);
    done := Then(done, o.fluxcd);
    r := h;
  }

  method BuildTools2(ctx: Context, ghost o: Outcomes, k: Kept) returns (r: Result<Handle>)
    modifies ctx
    requires FaithfulTools2(ctx.Environment(), o)
    requires k == KeptHandles(o)
    ensures r == Sequence(ToolCalls2(ctx.Environment(), o)).result
    ensures ctx.log == old(ctx.log) + Sequence(ToolCalls2(ctx.Environment(), o)).trace
    ensures ctx.runs == old(ctx.runs)
  {
    ghost var env := ctx.Environment();
    Tools2Chained(env, o);
    ghost var log0 := ctx.log;
    var h: Result<Handle>;
    h := GolangciLint.Build(ctx);
    ghost var done := o.golangciLint;
    if h.Err? {
      return Err(h.error);
    }
    Appended(log0, done, o.gpg);
    h := Gpg.Build(ctx, k.libassuan, k.libgcrypt, k.libgpgError, k.libksba, k.npth);
    done := Then(done, o.gpg);
    if h.Err? {
      return Err(h.error);
    }
    Appended(log0, done, o.helm);
    h := Helm.Build(ctx);
    done := Then(done, o.helm);
    if h.Err? {
      return Err(h.error);
    }
    Appended(log0, done, o.jq);
    h := Jq.Build(ctx);
    done := Then(done, o.jq);
    if h.Err? {
      return Err(h.error);
    }
    Appended(log0, done, o.just);
    h := Just.Build(ctx);
    done := Then(done, o.just);
    r := h;
  }

  method BuildTools3(ctx: Context, ghost o: Outcomes, k: Kept) returns (r: Result<Handle>)
    modifies ctx
    requires FaithfulTools3(ctx.Environment(), o)
    requires k == KeptHandles(o)
    ensures r == Sequence(ToolCalls3(ctx.Environment(), o)).result
    ensures ctx.log == old(ctx.log) + Sequence(ToolCalls3(ctx.Environment(), o)).trace
    ensures ctx.runs == old(ctx.runs)
  {
    ghost var env := ctx.Environment();
    Tools3Chained(env, o);
    ghost var log0 := ctx.log;
    var h: Result<Handle>;
    h := K9s.Build(ctx);
    ghost var done := o.k9s;
    if h.Err? {
      return Err(h.error);
    }
    Appended(log0, done, ForeignRun(env, Kn));
    h := ctx.BuildForeign(Kn);
    done := Then(done, ForeignRun(env, Kn));
    if h.Err? {
      return Err(h.error);
    }
    Appended(log0, done, ForeignRun(env, Kubectl));
    h := ctx.BuildForeign(Kubectl);
    done := Then(done, ForeignRun(env, Kubectl));
    if h.Err? {
      return Err(h.error);
    }
    Appended(log0, done, o.kubeseal);
    h := Kubeseal.Build(ctx);
    done := Then(done, o.kubeseal);
    if h.Err? {
      return Err(h.error);
    }
    Appended(log0, done, o.lazygit);
    h := Lazygit.Build(ctx);
    done := Then(done, o.lazygit);
    r := h;
  }

  method BuildTools4(ctx: Context, ghost o: Outcomes, k: Kept) returns (r: Result<Handle>)
    modifies ctx
    requires FaithfulTools4(ctx.Environment(), o)
    requires k == KeptHandles(o)
    ensures r == Sequence(ToolCalls4(ctx.Environment(), o)).result
    ensures ctx.log == old(ctx.log) + Sequence(ToolCalls4(ctx.Environment(), o)).trace
    ensures ctx.runs == old(ctx.runs)
  {
    ghost var env := ctx.Environment();
    Tools4Chained(env, o);
    ghost var log0 := ctx.log;
    var h: Result<Handle>;
    h := Neovim.Build(ctx);
    ghost var done := o.neovim;
    if h.Err? {
      return Err(h.error);
    }
    Appended(log0, done, ForeignRun(env, Nginx));
    h := ctx.BuildForeign(Nginx);
    done := Then(done, ForeignRun(env, Nginx));
    if h.Err? {
      return Err(h.error);
    }
    Appended(log0, done, o.nnn);
    h := Nnn.Build(ctx, k.ncurses, k.pkgConfig, k.readline);
    done := Then(done, o.nnn);
    if h.Err? {
      return Err(h.error);
    }
    Appended(log0, done, o.openapiGeneratorCli);
    h := OpenapiGeneratorCli.Build(ctx, k.openjdk);
    done := Then(done, o.openapiGeneratorCli);
    if h.Err? {
      return Err(h.error);
    }
    Appended(log0, done, o.ripgrep);
    h := Ripgrep.Build(ctx);
    done := Then(done, o.ripgrep);
    r := h;
  }

  method BuildTools5(ctx: Context, ghost o: Outcomes, k: Kept) returns (r: Result<Handle>)
    modifies ctx
    requires FaithfulTools5(ctx.Environment(), o)
    requires k == KeptHandles(o)
    ensures r == Sequence(ToolCalls5(ctx.Environment(), o)).result
    ensures ctx.log == old(ctx.log) + Sequence(ToolCalls5(ctx.Environment(), o)).trace
    ensures ctx.runs == old(ctx.runs)
  {
    ghost var env := ctx.Environment();
    Tools5Chained(env, o);
    ghost var log0 := ctx.log;
    var h: Result<Handle>;
    h := ctx.BuildForeign(Skopeo);
    ghost var done := ForeignRun(env, Skopeo);
    if h.Err? {
      return Err(h.error);
    }
    Appended(log0, done, o.starship);
    h := Starship.Build(ctx);
    done := Then(done, o.starship);
    if h.Err? {
      return Err(h.error);
    }
    Appended(log0, done, o.terraform);
    h := Terraform.Build(ctx);
    done := Then(done, o.terraform);
    if h.Err? {
      return Err(h.error);
    }
    Appended(log0, done, o.tmux);
    var tmuxBuilder := new Tmux.Builder();
    tmuxBuilder.WithLibevent(k.libevent);
    tmuxBuilder.WithNcurses(k.ncurses);
    h := tmuxBuilder.Build(ctx);
    done := Then(done, o.tmux);
    if h.Err? {
      return Err(h.error);
    }
    Appended(log0, done, ForeignRun(env, Umoci));
    h := ctx.BuildForeign(Umoci);
    done := Then(done, ForeignRun(env, Umoci));
    r := h;
  }

  method BuildTools6(ctx: Context, ghost o: Outcomes, k: Kept) returns (r: Result<Handle>)
    modifies ctx
    requires FaithfulTools6(ctx.Environment(), o)
    requires k == KeptHandles(o)
    ensures r == Sequence(ToolCalls6(ctx.Environment(), o)).result
    ensures ctx.log == old(ctx.log) + Sequence(ToolCalls6(ctx.Environment(), o)).trace
    ensures ctx.runs == old(ctx.runs)
  {
    ghost var env := ctx.Environment();
    Tools6Chained(env, o);
    ghost var log0 := ctx.log;
    var h: Result<Handle>;
    h := Yq.Build(ctx);
    ghost var done := o.yq;
    if h.Err? {
      return Err(h.error);
    }
    Appended(log0, done, o.zsh);
    var zshBuilder := new Zsh.Builder();
    zshBuilder.WithNcurses(k.ncurses);
    h := zshBuilder.Build(ctx);
    done := Then(done, o.zsh);
    r := h;
  }

  /** The first stage of `main`: the development environment, the libraries, the first tools. */
  method BuildFirst(ctx: Context, ghost o: Outcomes) returns (r: Result<Kept>)
    modifies ctx
    requires FaithfulFirst(ctx.Environment(), o)
    ensures r.Ok? == Sequence(FirstCalls(ctx.Environment(), o)).result.Ok?
    ensures r.Err? ==> r.error == Sequence(FirstCalls(ctx.Environment(), o)).result.error
    ensures r.Ok? ==> r.value == KeptHandles(o)
    ensures ctx.log == old(ctx.log) + Sequence(FirstCalls(ctx.Environment(), o)).trace
    ensures ctx.runs == old(ctx.runs)
  {
    ghost var env := ctx.Environment();
    FirstChained(env, o);
    ghost var log0 := ctx.log;
    var dev := ctx.BuildForeign(ProjectEnvironment("dev", DefaultSystems));
    ghost var done := Dev(env);
    if dev.Err? {
      return Err(dev.error);
    }
    Appended(log0, done, Sequence(LibraryCalls(o)));
    var kept := BuildLibraries(ctx, o);
    done := Then(done, Sequence(LibraryCalls(o)));
    if kept.Err? {
      return Err(kept.error);
    }
    Appended(log0, done, Sequence(ToolCalls0(env, o)));
    var t0 := BuildTools0(ctx, o, kept.value);
    done := Then(done, Sequence(ToolCalls0(env, o)));
    if t0.Err? {
      return Err(t0.error);
    }
    Appended(log0, done, Sequence(ToolCalls1(env, o)));
    var t1 := BuildTools1(ctx, o, kept.value);
    done := Then(done, Sequence(ToolCalls1(env, o)));
    if t1.Err? {
      return Err(t1.error);
    }
    Appended(log0, done, Sequence(ToolCalls2(env, o)));
    var t2 := BuildTools2(ctx, o, kept.value);
    done := Then(done, Sequence(ToolCalls2(env, o)));
    if t2.Err? {
      return Err(t2.error);
    }
    Appended(log0, done, Sequence(ToolCalls3(env, o)));
    var t3 := BuildTools3(ctx, o, kept.value);
    done := Then(done, Sequence(ToolCalls3(env, o)));
    if t3.Err? {
      return Err(t3.error);
    }
    r := kept;
  }

  /** The second stage of `main`: the remaining tools. */
  method BuildSecond(ctx: Context, ghost o: Outcomes, k: Kept) returns (r: Result<Handle>)
    modifies ctx
    requires FaithfulSecond(ctx.Environment(), o)
    requires k == KeptHandles(o)
    ensures r == Sequence(SecondCalls(ctx.Environment(), o)).result
    ensures ctx.log == old(ctx.log) + Sequence(SecondCalls(ctx.Environment(), o)).trace
    ensures ctx.runs == old(ctx.runs)
  {
    ghost var env := ctx.Environment();
    SecondChained(env, o);
    ghost var log0 := ctx.log;
    var t4 := BuildTools4(ctx, o, k);
    ghost var done := Sequence(ToolCalls4(env, o));
    if t4.Err? {
      return Err(t4.error);
    }
    Appended(log0, done, Sequence(ToolCalls5(env, o)));
    var t5 := BuildTools5(ctx, o, k);
    done := Then(done, Sequence(ToolCalls5(env, o)));
    if t5.Err? {
      return Err(t5.error);
    }
    Appended(log0, done, Sequence(ToolCalls6(env, o)));
    var t6 := BuildTools6(ctx, o, k);
    done := Then(done, Sequence(ToolCalls6(env, o)));
    r := t6;
  }

  /** `main`: the development environment, the libraries, the tools, then `context.run()`. */
  method Configure(ctx: Context, ghost o: Outcomes) returns (r: Result<()>)
    modifies ctx
    requires Faithful(ctx.Environment(), o)
    ensures r == Main(ctx.Environment(), o).result
    ensures ctx.log == old(ctx.log) + Main(ctx.Environment(), o).trace
    ensures ctx.runs == old(ctx.runs) + (if Main(ctx.Environment(), o).ran then 1 else 0)
  {
    ghost var env := ctx.Environment();
    Joined(FirstCalls(env, o), SecondCalls(env, o));
    ghost var log0 := ctx.log;
    var kept := BuildFirst(ctx, o);
    if kept.Err? { return Err(kept.error); }
    Appended(log0, Sequence(FirstCalls(env, o)), Sequence(SecondCalls(env, o)));
    var t := BuildSecond(ctx, o, kept.value);
    if t.Err? { return Err(t.error); }
    r := ctx.Run();
  }
}
