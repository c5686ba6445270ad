/**
 * linux-vorpal-slim: a repackaging of the linux-vorpal artifact with a local
 * script; the linux-vorpal handle is a builder slot.
 */
module LinuxVorpalSlim {
  import opened Sdk

  const Name := "linux-vorpal-slim"
  const Version := "latest"

  /** The repository-local source: the current directory, restricted to one script. */
  function LocalSource(name: string): Source
  {
    Source(name, ".", ["script/" + name + ".sh"])
  }

  function Script(name: string): seq<string>
  {
    [ "mkdir -pv \"$VORPAL_OUTPUT/bin\"",
      "",
      "pushd ./source/" + name,
      "",
      "ls -alh" ]
  }

  /** The artifact registered once the linux-vorpal slot is resolved to `base`. */
  function Artifact(base: Handle): (s: Spec)
    ensures Shaped(s, "linux-vorpal-slim", "linux-vorpal-slim:latest", DefaultSystems)
    ensures s.steps[0] == Shell([base], [], Script(Name), [])
    ensures s.sources == [LocalSource(Name)]
  {
    assert Alias(Name, Version) == "linux-vorpal-slim:latest";
    Spec(Name, [Shell([base], [], Script(Name), [])], DefaultSystems, [Alias(Name, Version)], [LocalSource(Name)])
  }

  /** `build` for the slot value `base`: resolve it, then register; there is no system check. */
  function Run(env: Env, base: Option<Handle>): Outcome
  {
    var b := Resolve(base, ForeignRun(env, LinuxVorpal));
    Then(b, Registered(env, Artifact(HandleOf(b))))
  }

  /** `LinuxVorpalSlim`: a builder with one optional linux-vorpal handle. */
  class Builder {
    var base: Option<Handle>

    /** `new()`, the default: the slot is empty. */
    constructor ()
      ensures base == None
    {
      base := None;
    }

    /** `with_linux_vorpal`: fills the slot. */
    method WithLinuxVorpal(h: Handle)
      modifies this
      ensures base == Some(h)
    {
      base := Some(h);
    }

    method Build(ctx: Context) returns (r: Result<Handle>)
      modifies ctx
      ensures r == Run(ctx.Environment(), base).result
      ensures ctx.log == old(ctx.log) + Run(ctx.Environment(), base).trace
      ensures ctx.runs == old(ctx.runs)
    {
      var b: Handle;
      match base {
        case Some(val) =>
          b := val;
        case None =>
          b :- ctx.BuildForeign(LinuxVorpal);
      }
      r := ctx.Register(Artifact(b));
    }
  }

  /** An injected handle is used as it is: the only registration is the slim artifact, with that handle. */
  lemma Injected(env: Env, h: Handle)
    ensures Run(env, Some(h)) == Registered(env, Artifact(h))
    ensures Run(env, Some(h)).result.Ok? ==> Names(Run(env, Some(h)).trace) == ["linux-vorpal-slim"]
  {
  }

  /**
   * Without an injection linux-vorpal is built first: its failure is the
   * result with its registrations; otherwise the slim artifact uses its handle.
   */
  lemma SelfBuilt(env: Env)
    ensures ForeignRun(env, LinuxVorpal).result.Err? ==> Run(env, None) == ForeignRun(env, LinuxVorpal)
    ensures ForeignRun(env, LinuxVorpal).result.Ok? ==> Run(env, None).trace == ForeignRun(env, LinuxVorpal).trace + Registered(env, Artifact(ForeignRun(env, LinuxVorpal).result.value)).trace
  {
  }
}
