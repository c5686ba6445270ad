/** libwebsockets: built from source with cmake against zlib, libuv and mbedtls, each of which is a builder slot. */
module Libwebsockets {
  import opened Sdk
  import Cmake
  import Zlib
  import Libuv
  import Mbedtls

  const Name := "libwebsockets"
  const Version := "4.5.2"

  function Url(version: string): string
  {
    "https://github.com/" + "warmcat/libwebsockets/" + "archive/refs/tags/v" + version + ".tar.gz"
  }

  /** The line that starts the cmake invocation, for the key of the cmake handle. */
  function CmakeLine(cmake: string): string
  {
    cmake + "/bin/cmake \\"
  }

  /** The `CMAKE_PREFIX_PATH` flag: the three library keys in the order zlib, libuv, mbedtls. */
  function PrefixLine(zlib: string, libuv: string, mbedtls: string): string
  {
    "    -DCMAKE_PREFIX_PATH=\"" + zlib + ";" + libuv + ";" + mbedtls + "\" \\"
  }

  /** The template up to the cmake invocation: patch the package config, enter the build directory. */
  function Prologue(name: string, version: string): seq<string>
  {
    [ "mkdir -pv \"$VORPAL_OUTPUT\"",
      "",
      "LWS_SRC=\"$(pwd)/source/" + name + "/" + name + "-" + version + "\"",
      "",
      "sed 's/" + " websockets_shared//g'" + " \"$LWS_SRC/cmake/" + "libwebsockets-config.cmake.in\"" + " > \"$LWS_SRC/cmake/" + "libwebsockets-config.cmake.in.tmp\"",
      "mv \"$LWS_SRC/cmake/" + "libwebsockets-config.cmake.in.tmp\"" + " \"$LWS_SRC/cmake/" + "libwebsockets-config.cmake.in\"",
      "",
      "BUILD_DIR=\"$(pwd)/build\"",
      "mkdir -p \"$BUILD_DIR\"",
      "",
      "pushd \"$BUILD_DIR\"",
      "" ]
  }

  /** The whole template, with the four keys in the two lines that hold placeholders. */
  function Script(cmake: string, zlib: string, libuv: string, mbedtls: string): seq<string>
  {
    Prologue(Name, Version)
    + [ CmakeLine(cmake),
      "    -DCMAKE_BUILD_TYPE=RELEASE \\",
      "    -DCMAKE_INSTALL_PREFIX=\"$VORPAL_OUTPUT\"" + " \\",
      "    -DCMAKE_FIND_LIBRARY_SUFFIXES=\".a\"" + " \\",
      PrefixLine(zlib, libuv, mbedtls),
      "    -DLWS_WITHOUT_TESTAPPS=ON \\",
      "    -DLWS_WITH_MBEDTLS=ON \\",
      "    -DLWS_WITH_LIBUV=ON \\",
      "    -DLWS_STATIC_PIC=ON \\",
      "    -DLWS_WITH_SHARED=OFF \\",
      "    -DLWS_UNIX_SOCK=ON \\",
      "    -DLWS_IPV6=ON \\",
      "    -DLWS_ROLE_RAW_FILE=OFF \\",
      "    -DLWS_WITH_HTTP2=ON \\",
      "    -DLWS_WITH_HTTP_BASIC_AUTH=OFF \\",
      "    -DLWS_WITH_UDP=OFF \\",
      "    -DLWS_WITHOUT_CLIENT=ON \\",
      "    -DLWS_WITHOUT_EXTENSIONS=OFF \\",
      "    -DLWS_WITH_LEJP=OFF \\",
      "    -DLWS_WITH_LEJP_CONF=OFF \\",
      "    -DLWS_WITH_LWSAC=OFF \\",
      "    -DLWS_WITH_SEQUENCER=OFF \\",
      "    -DLWS_WITH_SYS_FAULT_INJECTION=OFF" + " \\",
      "    -DLWS_WITH_SYS_METRICS=OFF \\",
      "    -DLWS_WITH_DLO=OFF \\",
      "    \"$LWS_SRC\"",
      "",
      "make -j$(nproc" + " 2>/dev/null || sysctl" + " -n hw.ncpu) install",
        "popd" ]
  }

  /** The artifact registered once all four handles are resolved. */
  function Artifact(env: Env, cmake: Handle, zlib: Handle, libuv: Handle, mbedtls: Handle): (s: Spec)
    ensures Shaped(s, "libwebsockets", "libwebsockets:4.5.2", DefaultSystems) && Downloads(s, Url(Version))
    ensures s.steps[0].artifacts == [cmake, zlib, libuv, mbedtls]
    ensures s.steps[0].environments == [] && s.steps[0].secrets == []
    ensures s.steps[0].script == Script(env.key(cmake), env.key(zlib), env.key(libuv), env.key(mbedtls))
  {
    assert Alias(Name, Version) == "libwebsockets:4.5.2";
    var script := Script(env.key(cmake), env.key(zlib), env.key(libuv), env.key(mbedtls));
    Spec(Name, [Shell([cmake, zlib, libuv, mbedtls], [], script, [])], DefaultSystems, [Alias(Name, Version)], [Source(Name, Url(Version), [])])
  }

  /** The script runs cmake from its handle and points it at the other three dependencies. */
  lemma ScriptLines(env: Env, cmake: Handle, zlib: Handle, libuv: Handle, mbedtls: Handle)
    ensures CmakeLine(env.key(cmake)) in Artifact(env, cmake, zlib, libuv, mbedtls).steps[0].script
    ensures PrefixLine(env.key(zlib), env.key(libuv), env.key(mbedtls)) in Artifact(env, cmake, zlib, libuv, mbedtls).steps[0].script
  {
    var script := Script(env.key(cmake), env.key(zlib), env.key(libuv), env.key(mbedtls));
  }

  /**
   * `build` for the four slot values: resolve cmake, zlib, libuv and mbedtls
   * in that order, each one from its own recipe with no injection when the slot
   * is empty, then register; there is no system check.
   */
  function Run(env: Env, cmake: Option<Handle>, zlib: Option<Handle>, libuv: Option<Handle>, mbedtls: Option<Handle>): Outcome
  {
    Assemble(env, Resolve(cmake, Cmake.Run(env)), Resolve(zlib, Zlib.Run(env)), Resolve(libuv, Libuv.Run(env, None)), Resolve(mbedtls, Mbedtls.Run(env, None)))
  }

  /** The four resolved dependencies one after the other, then the registration that uses their handles. */
  function Assemble(env: Env, c: Outcome, z: Outcome, u: Outcome, m: Outcome): Outcome
  {
    Then(Then(Then(Then(c, z), u), m), Registered(env, Artifact(env, HandleOf(c), HandleOf(z), HandleOf(u), HandleOf(m))))
  }

  /** `Libwebsockets`: a builder with four optional dependency handles. */
  class Builder {
    var cmake: Option<Handle>
    var zlib: Option<Handle>
    var libuv: Option<Handle>
    var mbedtls: Option<Handle>

    /** `new()`: every slot is empty. */
    constructor ()
      ensures cmake == None && zlib == None && libuv == None && mbedtls == None
    {
      cmake := None;
      zlib := None;
      libuv := None;
      mbedtls := None;
    }

    /** `with_cmake`: fills its own slot and leaves the other three alone. */
    method WithCmake(h: Handle)
      modifies this
      ensures cmake == Some(h)
      ensures zlib == old(zlib) && libuv == old(libuv) && mbedtls == old(mbedtls)
    {
      cmake := Some(h);
    }

    /** `with_zlib`: fills its own slot and leaves the other three alone. */
    method WithZlib(h: Handle)
      modifies this
      ensures zlib == Some(h)
      ensures cmake == old(cmake) && libuv == old(libuv) && mbedtls == old(mbedtls)
    {
      zlib := Some(h);
    }

    /** `with_libuv`: fills its own slot and leaves the other three alone. */
    method WithLibuv(h: Handle)
      modifies this
      ensures libuv == Some(h)
      ensures cmake == old(cmake) && zlib == old(zlib) && mbedtls == old(mbedtls)
    {
      libuv := Some(h);
    }

    /** `with_mbedtls`: fills its own slot and leaves the other three alone. */
    method WithMbedtls(h: Handle)
      modifies this
      ensures mbedtls == Some(h)
      ensures cmake == old(cmake) && zlib == old(zlib) && libuv == old(libuv)
    {
      mbedtls := Some(h);
    }

    method Build(ctx: Context) returns (r: Result<Handle>)
      modifies ctx
      ensures r == Run(ctx.Environment(), cmake, zlib, libuv, mbedtls).result
      ensures ctx.log == old(ctx.log) + Run(ctx.Environment(), cmake, zlib, libuv, mbedtls).trace
      ensures ctx.runs == old(ctx.runs)
    {
      ghost var env := ctx.Environment();
      ghost var done := Resolve(cmake, Cmake.Run(env));
      var c :- ResolveCmake(ctx, cmake);
      ghost var next := Resolve(zlib, Zlib.Run(env));
      Appended(old(ctx.log), done, next);
      done := Then(done, next);
      var z :- ResolveZlib(ctx, zlib);
      next := Resolve(libuv, Libuv.Run(env, None));
      Appended(old(ctx.log), done, next);
      done := Then(done, next);
      var u :- ResolveLibuv(ctx, libuv);
      next := Resolve(mbedtls, Mbedtls.Run(env, None));
      Appended(old(ctx.log), done, next);
      done := Then(done, next);
      var m :- ResolveMbedtls(ctx, mbedtls);
      Appended(old(ctx.log), done, Registered(env, Artifact(env, c, z, u, m)));
      r := ctx.Register(Artifact(ctx.Environment(), c, z, u, m));
    }
  }

  /** The cmake slot: the injected handle, or a fresh cmake build. */
  method ResolveCmake(ctx: Context, slot: Option<Handle>) returns (r: Result<Handle>)
    modifies ctx
    ensures r == Resolve(slot, Cmake.Run(ctx.Environment())).result
    ensures ctx.log == old(ctx.log) + Resolve(slot, Cmake.Run(ctx.Environment())).trace
    ensures ctx.runs == old(ctx.runs)
  {
    match slot {
      case Some(val) => r := Ok(val);
      case None => r := Cmake.Build(ctx);
    }
  }

  /** The zlib slot: the injected handle, or a fresh zlib build. */
  method ResolveZlib(ctx: Context, slot: Option<Handle>) returns (r: Result<Handle>)
    modifies ctx
    ensures r == Resolve(slot, Zlib.Run(ctx.Environment())).result
    ensures ctx.log == old(ctx.log) + Resolve(slot, Zlib.Run(ctx.Environment())).trace
    ensures ctx.runs == old(ctx.runs)
  {
    match slot {
      case Some(val) => r := Ok(val);
      case None => r := Zlib.Build(ctx);
    }
  }

  /** The libuv slot: the injected handle, or a libuv build with nothing injected. */
  method ResolveLibuv(ctx: Context, slot: Option<Handle>) returns (r: Result<Handle>)
    modifies ctx
    ensures r == Resolve(slot, Libuv.Run(ctx.Environment(), None)).result
    ensures ctx.log == old(ctx.log) + Resolve(slot, Libuv.Run(ctx.Environment(), None)).trace
    ensures ctx.runs == old(ctx.runs)
  {
    match slot {
      case Some(val) => r := Ok(val);
      case None =>
        var dep := new Libuv.Builder();
        r := dep.Build(ctx);
    }
  }

  /** The mbedtls slot: the injected handle, or an mbedtls build with nothing injected. */
  method ResolveMbedtls(ctx: Context, slot: Option<Handle>) returns (r: Result<Handle>)
    modifies ctx
    ensures r == Resolve(slot, Mbedtls.Run(ctx.Environment(), None)).result
    ensures ctx.log == old(ctx.log) + Resolve(slot, Mbedtls.Run(ctx.Environment(), None)).trace
    ensures ctx.runs == old(ctx.runs)
  {
    match slot {
      case Some(val) => r := Ok(val);
      case None =>
        var dep := new Mbedtls.Builder();
        r := dep.Build(ctx);
    }
  }

  /** With all four handles injected, libwebsockets is the only registration, and it uses them as given. */
  lemma Injected(env: Env, cmake: Handle, zlib: Handle, libuv: Handle, mbedtls: Handle)
    ensures Run(env, Some(cmake), Some(zlib), Some(libuv), Some(mbedtls)) == Registered(env, Artifact(env, cmake, zlib, libuv, mbedtls))
  {
  }

  /**
   * With nothing injected and an engine that accepts everything, cmake is
   * registered three times: once for libwebsockets and once each inside the
   * libuv and mbedtls builds, which get no injection either.
   */
  lemma NothingInjected(env: Env)
    requires env.system.Supported() && Accepts(env)
    ensures Names(Run(env, None, None, None, None).trace) == ["cmake", "zlib", "cmake", "libuv", "cmake", "mbedtls", "libwebsockets"]
  {
    Cmake.Accepted(env);
    Zlib.Accepted(env);
    Libuv.Accepted(env);
    Mbedtls.Accepted(env);
    AssembledNames(env, Cmake.Run(env), Zlib.Run(env), Libuv.Run(env, None), Mbedtls.Run(env, None));
    assert Run(env, None, None, None, None) == Assemble(env, Cmake.Run(env), Zlib.Run(env), Libuv.Run(env, None), Mbedtls.Run(env, None));
    SevenNames();
  }

  /** The concatenated dependency names, written out. */
  lemma SevenNames()
    ensures ["cmake"] + ["zlib"] + ["cmake", "libuv"] + ["cmake", "mbedtls"] + ["libwebsockets"] == ["cmake", "zlib", "cmake", "libuv", "cmake", "mbedtls", "libwebsockets"]
  {
  }

  /** With every dependency resolved and an accepting engine, the names are the dependencies' names, then libwebsockets. */
  lemma AssembledNames(env: Env, c: Outcome, z: Outcome, u: Outcome, m: Outcome)
    requires Accepts(env) && c.result.Ok? && z.result.Ok? && u.result.Ok? && m.result.Ok?
    ensures Names(Assemble(env, c, z, u, m).trace) == Names(c.trace) + Names(z.trace) + Names(u.trace) + Names(m.trace) + ["libwebsockets"]
  {
    var a := Artifact(env, HandleOf(c), HandleOf(z), HandleOf(u), HandleOf(m));
    assert Assemble(env, c, z, u, m).trace == c.trace + z.trace + u.trace + m.trace + [a];
    NamesAppend(c.trace, z.trace);
    NamesAppend(c.trace + z.trace, u.trace);
    NamesAppend(c.trace + z.trace + u.trace, m.trace);
    NamesAppend(c.trace + z.trace + u.trace + m.trace, [a]);
  }

  /** On a system cmake does not support, the first dependency fails and nothing is registered. */
  lemma UnsupportedSystem(env: Env)
    requires !env.system.Supported()
    ensures Run(env, None, None, None, None) == Outcome(Err(Unsupported("cmake")), [])
  {
    Cmake.RunOutcome(env);
  }

  /** A failed build never registers libwebsockets: a dependency's error comes before the final registration. */
  lemma FailFast(env: Env, cmake: Option<Handle>, zlib: Option<Handle>, libuv: Option<Handle>, mbedtls: Option<Handle>)
    ensures Run(env, cmake, zlib, libuv, mbedtls).result.Err? ==>
      forall s | s in Run(env, cmake, zlib, libuv, mbedtls).trace :: s.name != Name
  {
    Cmake.TraceNames(env);
    Zlib.TraceNames(env);
    Libuv.TraceNames(env, None);
    Mbedtls.TraceNames(env, None);
  }
}
