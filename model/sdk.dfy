/**
 * The part of the vorpal SDK that the recipes talk to: target systems,
 * the artifact description a recipe registers, and the configuration
 * context that collects registrations in order.
 */
module Sdk {

  datatype Option<T> = None | Some(value: T)

  /** `anyhow::Result`: a value, or an error message. */
  datatype Result<T> = Ok(value: T) | Err(error: string)
  {
    predicate IsFailure() { Err? }

    function PropagateFailure<U>(): Result<U>
      requires Err?
    {
      Err(error)
    }

    function Extract(): T
      requires Ok?
    {
      value
    }
  }

  /** `ArtifactSystem`: the four tags the recipes know, and every other tag. */
  datatype System = Aarch64Darwin | Aarch64Linux | X8664Darwin | X8664Linux | Other
  {
    predicate Supported() { !Other? }

    predicate Darwin() { Aarch64Darwin? || X8664Darwin? }

    predicate Linux() { Aarch64Linux? || X8664Linux? }
  }

  /** `DEFAULT_SYSTEMS`, and the system list of every recipe that builds everywhere. */
  const DefaultSystems: seq<System> := [Aarch64Darwin, Aarch64Linux, X8664Darwin, X8664Linux]

  /** The macOS-only system list. */
  const DarwinSystems: seq<System> := [Aarch64Darwin, X8664Darwin]

  /** The opaque string `Artifact::build` returns for a registered artifact. */
  type Handle = string

  /** `ArtifactSource::new(name, path)`, with the paths it includes. */
  datatype Source = Source(name: string, path: string, includes: seq<string>)

  /**
   * `step::shell(context, artifacts, environments, script, secrets)`.
   * The script is the list of lines of its template: common indentation
   * removed, placeholders substituted, and a line that ends in a backslash
   * kept apart from the line it continues.
   */
  datatype Step = Shell(artifacts: seq<Handle>, environments: seq<string>, script: seq<string>, secrets: seq<string>)

  /** `Artifact::new(name, steps, systems)` with its aliases and sources. */
  datatype Spec = Spec(name: string, steps: seq<Step>, systems: seq<System>, aliases: seq<string>, sources: seq<Source>)

  /** What one build call does: its result and the registrations it made, in order. */
  datatype Outcome = Outcome(result: Result<Handle>, trace: seq<Spec>)

  /** Builders whose code is not part of this model; only their outcome is. */
  datatype Foreign =
    | ProjectEnvironment(environment: string, systems: seq<System>)
    | LinuxVorpal | Crane | Kn | Kubectl | Nginx | Skopeo | Umoci

  /**
   * Everything a context decides that the recipes cannot see: the target
   * system, `get_env_key`, the engine's answer to a registration, the outcome
   * of the builders outside the model, and the result of `context.run()`.
   */
  datatype Env = Env(
    system: System,
    key: Handle -> string,
    submit: Spec -> Result<Handle>,
    foreign: Foreign -> Outcome,
    run: Result<()>)

  /** The error a recipe returns for a system its dispatch table lacks. */
  function Unsupported(name: string): string
  {
    "Unsupported system for " + name + " artifact"
  }

  /** `format!("{name}:{version}")`. */
  function Alias(name: string, version: string): string
  {
    name + ":" + version
  }

  /** The engine accepts every registration. */
  ghost predicate Accepts(env: Env)
  {
    forall s: Spec :: env.submit(s).Ok?
  }

  /** The names of the registered artifacts, in order. */
  function Names(trace: seq<Spec>): (names: seq<string>)
    ensures |names| == |trace|
    ensures forall i :: 0 <= i < |trace| ==> names[i] == trace[i].name
  {
    if trace == [] then [] else [trace[0].name] + Names(trace[1..])
  }

  /** The names of two traces, one after the other. */
  lemma NamesAppend(a: seq<Spec>, b: seq<Spec>)
    ensures Names(a + b) == Names(a) + Names(b)
  {
    assert |Names(a + b)| == |Names(a) + Names(b)|;
    forall i | 0 <= i < |a + b|
      ensures Names(a + b)[i] == (Names(a) + Names(b))[i]
    {
      if i < |a| {
        assert (a + b)[i] == a[i];
      } else {
        assert (a + b)[i] == b[i - |a|];
      }
    }
  }

  /** Registering `spec`: the engine's answer, and the spec in the trace when accepted. */
  function Registered(env: Env, spec: Spec): (o: Outcome)
    ensures o.result.Ok? ==> o.trace == [spec]
    ensures o.result.Err? ==> o.trace == []
    ensures o.result == env.submit(spec)
  {
    match env.submit(spec)
    case Ok(h) => Outcome(Ok(h), [spec])
    case Err(e) => Outcome(Err(e), [])
  }

  /**
   * The slot idiom `match self.x { Some(val) => val, None => X::new().build(context)? }`:
   * an injected handle is used as it is and registers nothing; otherwise the
   * dependency's own recipe runs.
   */
  function Resolve(injected: Option<Handle>, own: Outcome): (o: Outcome)
  {
    match injected
    case Some(h) => Outcome(Ok(h), [])
    case None => own
  }

  /**
   * `let h = first?; next`: a failed first call ends the build with its error
   * and its registrations; otherwise the next call follows, and the traces add up.
   */
  function Then(first: Outcome, next: Outcome): Outcome
  {
    if first.result.Err? then first else Outcome(next.result, first.trace + next.trace)
  }

  /** Appending two outcomes to a log one after the other is appending their chain. */
  lemma Appended(log: seq<Spec>, first: Outcome, next: Outcome)
    requires first.result.Ok?
    ensures log + first.trace + next.trace == log + Then(first, next).trace
  {
  }

  /** Chaining is associative: grouping a run of calls differently changes nothing. */
  lemma ThenAssociative(a: Outcome, b: Outcome, c: Outcome)
    ensures Then(Then(a, b), c) == Then(a, Then(b, c))
  {
    if a.result.Ok? && b.result.Ok? {
      assert a.trace + b.trace + c.trace == a.trace + (b.trace + c.trace);
    }
  }

  /** The outcome of a builder outside the model. */
  function ForeignRun(env: Env, builder: Foreign): Outcome
  {
    env.foreign(builder)
  }

  /** The handle of a successful outcome; later calls only read it when the call succeeded. */
  function HandleOf(o: Outcome): Handle
  {
    if o.result.Ok? then o.result.value else ""
  }

  /** One step with no inputs: no artifacts, no environment, no secrets. */
  predicate SelfContained(s: Spec)
  {
    |s.steps| == 1 && s.steps[0].artifacts == [] && s.steps[0].environments == [] && s.steps[0].secrets == []
  }

  /** The common shape of a recipe: its name, one alias, and its single source, if any. */
  predicate Shaped(s: Spec, name: string, alias: string, systems: seq<System>)
  {
    s.name == name && s.aliases == [alias] && s.systems == systems && |s.steps| == 1
  }

  /** The single source of a recipe that downloads `path` under the recipe's own name. */
  predicate Downloads(s: Spec, path: string)
  {
    s.sources == [Source(s.name, path, [])]
  }

  /** A string that differs only in its middle part came from a different middle part. */
  lemma Infix(pre: string, p: string, q: string, post: string)
    requires pre + p + post == pre + q + post
    ensures p == q
  {
    var n := |pre|;
    assert |p| == |q|;
    assert p == (pre + p + post)[n..n + |p|];
    assert q == (pre + q + post)[n..n + |q|];
  }

  /**
   * `ConfigContext`: the target system it was created for, and the
   * registrations the engine accepted so far, in order.
   */
  class Context {
    const system: System
    const key: Handle -> string
    const submit: Spec -> Result<Handle>
    const foreign: Foreign -> Outcome
    const run: Result<()>
    var log: seq<Spec>
    var runs: nat

    function Environment(): Env
    {
      Env(system, key, submit, foreign, run)
    }

    constructor (system: System, key: Handle -> string, submit: Spec -> Result<Handle>, foreign: Foreign -> Outcome, run: Result<()>)
      ensures this.system == system && this.key == key && this.submit == submit
      ensures this.foreign == foreign && this.run == run
      ensures log == [] && runs == 0
    {
      this.system := system;
      this.key := key;
      this.submit := submit;
      this.foreign := foreign;
      this.run := run;
      log := [];
      runs := 0;
    }

    /** `Artifact::build`: hand `spec` to the engine; an accepted spec joins the log. */
    method Register(spec: Spec) returns (r: Result<Handle>)
      modifies this
      ensures r == Registered(Environment(), spec).result
      ensures log == old(log) + Registered(Environment(), spec).trace
      ensures runs == old(runs)
    {
      r := submit(spec);
      if r.Ok? {
        log := log + [spec];
      }
    }

    /** A builder outside the model: its outcome is the context's to decide. */
    method BuildForeign(builder: Foreign) returns (r: Result<Handle>)
      modifies this
      ensures r == ForeignRun(Environment(), builder).result
      ensures log == old(log) + ForeignRun(Environment(), builder).trace
      ensures runs == old(runs)
    {
      var o := foreign(builder);
      r := o.result;
      log := log + o.trace;
    }

    /** `context.run()`: hand the collected registrations to the engine. */
    method Run() returns (r: Result<()>)
      modifies this
      ensures r == run
      ensures log == old(log)
      ensures runs == old(runs) + 1
    {
      r := run;
      runs := runs + 1;
    }
  }
}
