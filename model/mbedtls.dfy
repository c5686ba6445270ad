/** mbedtls: built from source with cmake, for the macOS systems only; the cmake handle is a builder slot. */
module Mbedtls {
  import opened Sdk
  import Cmake

  const Name := "mbedtls"
  const Version := "3.6.5"

  function Url(version: string): string
  {
    "https://github.com/" + "Mbed-TLS/mbedtls/" + "releases/download/" + "mbedtls-" + version + "/mbedtls-" + version + ".tar.bz2"
  }

  /** The line that starts the cmake invocation, for the key of the cmake handle. */
  function CmakeLine(cmake: string): string
  {
    cmake + "/bin/cmake \\"
  }

  function Script(cmake: string): seq<string>
  {
    [ "mkdir -pv \"$VORPAL_OUTPUT\"",
      "",
      "BUILD_DIR=\"$(pwd)/build\"",
      "mkdir -p \"$BUILD_DIR\"",
      "",
      "pushd \"$BUILD_DIR\"",
      "",
      CmakeLine(cmake),
      "    -DCMAKE_BUILD_TYPE=RELEASE \\",
      "    -DCMAKE_INSTALL_PREFIX=\"$VORPAL_OUTPUT\"" + " \\",
      "    -DENABLE_TESTING=OFF \\",
      "    -DUSE_SHARED_MBEDTLS_LIBRARY=OFF" + " \\",
      "    \"$(pwd)/../source/" + Name + "/mbedtls-" + Version + "\"",
      "",
      "make -j$(sysctl -n hw.ncpu) install",
      "popd" ]
  }

  /** The artifact registered once `cmake` is resolved. */
  function Artifact(env: Env, cmake: Handle): (s: Spec)
    ensures Shaped(s, "mbedtls", "mbedtls:3.6.5", DarwinSystems) && Downloads(s, Url(Version))
    ensures s.steps[0] == Shell([cmake], [], Script(env.key(cmake)), [])
  {
    assert Alias(Name, Version) == "mbedtls:3.6.5";
    Spec(Name, [Shell([cmake], [], Script(env.key(cmake)), [])], DarwinSystems, [Alias(Name, Version)], [Source(Name, Url(Version), [])])
  }

  /** The script runs the cmake binary of the resolved handle. */
  lemma ScriptLines(env: Env, cmake: Handle)
    ensures CmakeLine(env.key(cmake)) in Artifact(env, cmake).steps[0].script
  {
    assert Script(env.key(cmake))[7] == CmakeLine(env.key(cmake));
  }

  /** `build` for the slot value `cmake`: resolve it, then register; there is no system check. */
  function Run(env: Env, cmake: Option<Handle>): Outcome
  {
    var c := Resolve(cmake, Cmake.Run(env));
    Then(c, Registered(env, Artifact(env, HandleOf(c))))
  }

  /** `Mbedtls`: a builder with one optional cmake handle. */
  class Builder {
    var cmake: Option<Handle>

    /** `new()`: the slot is empty. */
    constructor ()
      ensures cmake == None
    {
      cmake := None;
    }

    /** `with_cmake`: fills the slot. */
    method WithCmake(h: Handle)
      modifies this
      ensures cmake == Some(h)
    {
      cmake := Some(h);
    }

    method Build(ctx: Context) returns (r: Result<Handle>)
      modifies ctx
      ensures r == Run(ctx.Environment(), cmake).result
      ensures ctx.log == old(ctx.log) + Run(ctx.Environment(), cmake).trace
      ensures ctx.runs == old(ctx.runs)
    {
      var c: Handle;
      match cmake {
        case Some(val) =>
          c := val;
        case None =>
          c :- Cmake.Build(ctx);
      }
      r := ctx.Register(Artifact(ctx.Environment(), c));
    }
  }

  /** An injected cmake is used as it is: the only registration is mbedtls itself, with that handle. */
  lemma Injected(env: Env, h: Handle)
    ensures Run(env, Some(h)) == Registered(env, Artifact(env, h))
    ensures Run(env, Some(h)).result.Ok? ==> Names(Run(env, Some(h)).trace) == ["mbedtls"]
  {
  }

  /**
   * Without an injection cmake is built first: its failure is the result and
   * nothing is registered.
   */
  lemma SelfBuilt(env: Env)
    ensures Cmake.Run(env).result.Err? ==> Run(env, None) == Outcome(Cmake.Run(env).result, [])
    ensures !env.system.Supported() ==> Run(env, None).result == Err(Unsupported("cmake")) && Run(env, None).trace == []
  {
    Cmake.RunOutcome(env);
  }

  /** A run registers cmake's artifact, its own, or nothing else. */
  lemma TraceNames(env: Env, cmake: Option<Handle>)
    ensures forall s | s in Run(env, cmake).trace :: s.name == Cmake.Name || s.name == Name
  {
    Cmake.TraceNames(env);
  }

  /** On a supported system with an accepting engine, the build succeeds and registers these artifacts, in order. */
  lemma Accepted(env: Env)
    requires env.system.Supported() && Accepts(env)
    ensures Run(env, None).result.Ok? && Names(Run(env, None).trace) == ["cmake", "mbedtls"]
  {
    Cmake.Accepted(env);
  }
}
