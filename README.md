# artifacts.vorpal recipes, modelled in Dafny

The repository is a catalogue of build recipes for the Vorpal build engine. Each recipe computes one
artifact description. That description holds a name, the target systems, an alias `name:version`,
the download sources, and one shell step with its input artifacts, environment and script. The
recipe registers it through a mutable configuration context. `main` in `src/vorpal.rs` builds a
development environment, ten libraries and 32 tools, one after another. It passes the handles of
earlier registrations to the recipes that depend on them. Every call is followed by `?`, and
`context.run()` comes last.

The model has these parts, all under `model/`:

- `sdk.dfy` (module `Sdk`) holds the context and its vocabulary.
  - The systems are the four supported tags plus `Other`, the tag every `_ =>` arm catches.
  - The artifact description is the `Spec` datatype, and `Shell` is its step.
  - `Context` is a class. Its constants are the system, `get_env_key`, the engine's answer to a
    registration, the outcomes of builders outside the model, and the result of
    `context.run()`. Its fields are the registration log and a count of runs.
  - `Outcome` pairs a call's result with the registrations it made. `Then` chains two calls
    joined by `?`, and `Resolve` is the builder-slot idiom
    `match self.x { Some(v) => v, None => X::new().build(context)? }`.
- One file and one module per recipe in `src/artifact/`.
  - The pure parts are functions: the platform dispatch `match`, the URL, the script lines and the
    artifact.
  - `Run(env, …)` is the recipe's outcome as a value. `Build` is an imperative method on the
    context that is proved to produce exactly that outcome.
  - Recipes whose struct has `Option` slots are classes (`Builder`). Their `with_*` methods assign
    fields, and their `Build` resolves the slots in the source's order.
  - Lemmas state the dispatch table, the registration trace in each injection case, the
    fail-before-register behaviour, and the keys and options the scripts embed.
- `vorpal.dfy` (module `Vorpal`) models `main`.
  - `Configure` is the straight-line method. It is proved to return `Main(env, o).result`, to
    append exactly `Main(env, o).trace` to the log, and to run the engine once exactly when every
    call succeeded.
  - `Main` is computed from the list `Calls(env, o)` of the 43 call outcomes, folded with `Then`.
  - The methods `BuildLibraries*`, `BuildTools*`, `BuildFirst` and `BuildSecond` are groups of
    consecutive lines of `main`, kept apart so that each proof stays small.
- `vorpal_properties.dfy` (module `VorpalProperties`) proves whole-run properties of `main`.
  - `context.run()` is reached exactly when all calls succeed.
  - The first failure decides the result.
  - Every registration is kept, in call order.
  - The handles of libgpg-error, ncurses and openjdk are shared among their consumers.

## Model

| member | source | states |
|---|---|---|
| Argocd.Platform | src/artifact/argocd.rs:21-27 | Ok exactly on the four supported systems; any other system gives the error "Unsupported system for argocd artifact" |
| Argocd.Artifact | src/artifact/argocd.rs:18-50 | name `argocd`, alias `argocd:3.2.3`, the four systems, one source named `argocd` at the platform's release URL, one step with no input artifacts, environments or secrets that runs the platform's script |
| Argocd.Run | src/artifact/argocd.rs:17-51 | `build` as a value: the dispatch, then one registration of the platform's artifact; it has no contract of its own, and `Argocd.RunOutcome` and `Argocd.Build` state what it does |
| Argocd.RunOutcome | src/artifact/argocd.rs:17-51 | an unsupported system fails with the refusal and registers nothing; otherwise the build succeeds exactly when the engine accepts the platform's artifact, which is then the only registration |
| Argocd.Build | src/artifact/argocd.rs:17-51 | returns the result of `Run`, appends exactly `Run`'s registrations to the context log and never calls `context.run()` |
| Argocd.Table | src/artifact/argocd.rs:21-27 | the dispatch rows: Aarch64Darwin to `darwin-arm64`, Aarch64Linux to `linux-arm64`, X8664Darwin to `darwin-amd64`, X8664Linux to `linux-amd64`; no two systems share a platform string |
| Argocd.DistinctAssets | src/artifact/argocd.rs:21-27 | two supported systems that download the same URL are the same system |
| Bat.Platform | src/artifact/bat.rs:13-19 | Ok exactly on the four supported systems; any other system gives the error "Unsupported system for bat artifact" |
| Bat.Artifact | src/artifact/bat.rs:10-42 | name `bat`, alias `bat:0.25.0`, the four systems, one source named `bat` at the platform's release URL, one step with no input artifacts, environments or secrets that runs the platform's script |
| Bat.Run | src/artifact/bat.rs:9-43 | `build` as a value: the dispatch, then one registration of the platform's artifact; it has no contract of its own, and `Bat.RunOutcome` and `Bat.Build` state what it does |
| Bat.RunOutcome | src/artifact/bat.rs:9-43 | an unsupported system fails with the refusal and registers nothing; otherwise the build succeeds exactly when the engine accepts the platform's artifact, which is then the only registration |
| Bat.Build | src/artifact/bat.rs:9-43 | returns the result of `Run`, appends exactly `Run`'s registrations to the context log and never calls `context.run()` |
| Bat.Table | src/artifact/bat.rs:13-19 | the dispatch rows: Aarch64Darwin to `aarch64-apple-darwin`, Aarch64Linux to `aarch64-unknown-linux-gnu`, X8664Darwin to `x86_64-apple-darwin`, X8664Linux to `x86_64-unknown-linux-musl`; no two systems share a platform string |
| Bat.DistinctAssets | src/artifact/bat.rs:13-19 | two supported systems that download the same URL are the same system |
| Bottom.Platform | src/artifact/bottom.rs:13-19 | Ok exactly on the four supported systems; any other system gives the error "Unsupported system for bottom artifact" |
| Bottom.Artifact | src/artifact/bottom.rs:10-44 | name `bottom`, alias `bottom:0.11.1`, the four systems, one source named `bottom` at the platform's release URL, one step with no input artifacts, environments or secrets that runs the platform's script |
| Bottom.Run | src/artifact/bottom.rs:9-45 | `build` as a value: the dispatch, then one registration of the platform's artifact; it has no contract of its own, and `Bottom.RunOutcome` and `Bottom.Build` state what it does |
| Bottom.RunOutcome | src/artifact/bottom.rs:9-45 | an unsupported system fails with the refusal and registers nothing; otherwise the build succeeds exactly when the engine accepts the platform's artifact, which is then the only registration |
| Bottom.Build | src/artifact/bottom.rs:9-45 | returns the result of `Run`, appends exactly `Run`'s registrations to the context log and never calls `context.run()` |
| Bottom.Table | src/artifact/bottom.rs:13-19 | the dispatch rows: Aarch64Darwin to `aarch64-apple-darwin`, Aarch64Linux to `aarch64-unknown-linux-gnu`, X8664Darwin to `x86_64-apple-darwin`, X8664Linux to `x86_64-unknown-linux-musl`; no two systems share a platform string |
| Bottom.DistinctAssets | src/artifact/bottom.rs:13-19 | two supported systems that download the same URL are the same system |
| Cue.Platform | src/artifact/cue.rs:21-27 | Ok exactly on the four supported systems; any other system gives the error "Unsupported system for cue artifact" |
| Cue.Artifact | src/artifact/cue.rs:18-50 | name `cue`, alias `cue:0.15.1`, the four systems, one source named `cue` at the platform's release URL, one step with no input artifacts, environments or secrets that runs the platform's script |
| Cue.Run | src/artifact/cue.rs:17-51 | `build` as a value: the dispatch, then one registration of the platform's artifact; it has no contract of its own, and `Cue.RunOutcome` and `Cue.Build` state what it does |
| Cue.RunOutcome | src/artifact/cue.rs:17-51 | an unsupported system fails with the refusal and registers nothing; otherwise the build succeeds exactly when the engine accepts the platform's artifact, which is then the only registration |
| Cue.Build | src/artifact/cue.rs:17-51 | returns the result of `Run`, appends exactly `Run`'s registrations to the context log and never calls `context.run()` |
| Cue.Table | src/artifact/cue.rs:21-27 | the dispatch rows: Aarch64Darwin to `darwin_arm64`, Aarch64Linux to `linux_arm64`, X8664Darwin to `darwin_amd64`, X8664Linux to `linux_amd64`; no two systems share a platform string |
| Cue.DistinctAssets | src/artifact/cue.rs:21-27 | two supported systems that download the same URL are the same system |
| Direnv.Platform | src/artifact/direnv.rs:13-19 | Ok exactly on the four supported systems; any other system gives the error "Unsupported system for direnv artifact" |
| Direnv.Artifact | src/artifact/direnv.rs:10-34 | name `direnv`, alias `direnv:v2.37.1` (the version keeps its `v`), the four systems, no declared source, one step with no inputs that runs the platform's script |
| Direnv.ScriptLines | src/artifact/direnv.rs:21-25 | the script itself downloads the platform's binary with `curl` into `bin/direnv` |
| Direnv.Run | src/artifact/direnv.rs:9-35 | `build` as a value: the dispatch, then one registration of the platform's artifact; it has no contract of its own, and `Direnv.RunOutcome` and `Direnv.Build` state what it does |
| Direnv.RunOutcome | src/artifact/direnv.rs:9-35 | an unsupported system fails with the refusal and registers nothing; otherwise the build succeeds exactly when the engine accepts the platform's artifact, which is then the only registration |
| Direnv.Build | src/artifact/direnv.rs:9-35 | returns the result of `Run`, appends exactly `Run`'s registrations to the context log and never calls `context.run()` |
| Direnv.Table | src/artifact/direnv.rs:13-19 | the dispatch rows: Aarch64Darwin to `darwin-arm64`, Aarch64Linux to `linux-arm64`, X8664Darwin to `darwin-amd64`, X8664Linux to `linux-amd64`; no two systems share a platform string |
| Direnv.DistinctAssets | src/artifact/direnv.rs:13-19 | two supported systems that download the same URL are the same system |
| Doppler.Platform | src/artifact/doppler.rs:21-27 | Ok exactly on the four supported systems; any other system gives the error "Unsupported system for doppler artifact" |
| Doppler.Artifact | src/artifact/doppler.rs:18-50 | name `doppler`, alias `doppler:3.75.1`, the four systems, one source named `doppler` at the platform's release URL, one step with no input artifacts, environments or secrets that runs the platform's script |
| Doppler.Run | src/artifact/doppler.rs:17-51 | `build` as a value: the dispatch, then one registration of the platform's artifact; it has no contract of its own, and `Doppler.RunOutcome` and `Doppler.Build` state what it does |
| Doppler.RunOutcome | src/artifact/doppler.rs:17-51 | an unsupported system fails with the refusal and registers nothing; otherwise the build succeeds exactly when the engine accepts the platform's artifact, which is then the only registration |
| Doppler.Build | src/artifact/doppler.rs:17-51 | returns the result of `Run`, appends exactly `Run`'s registrations to the context log and never calls `context.run()` |
| Doppler.Table | src/artifact/doppler.rs:21-27 | the dispatch rows: Aarch64Darwin to `macOS_arm64`, Aarch64Linux to `linux_arm64`, X8664Darwin to `macOS_amd64`, X8664Linux to `linux_amd64`; no two systems share a platform string |
| Doppler.DistinctAssets | src/artifact/doppler.rs:21-27 | two supported systems that download the same URL are the same system |
| Fd.Platform | src/artifact/fd.rs:13-19 | Ok exactly on the four supported systems; any other system gives the error "Unsupported system for fd artifact" |
| Fd.Artifact | src/artifact/fd.rs:10-42 | name `fd`, alias `fd:10.2.0`, the four systems, one source named `fd` at the platform's release URL, one step with no input artifacts, environments or secrets that runs the platform's script |
| Fd.Run | src/artifact/fd.rs:9-43 | `build` as a value: the dispatch, then one registration of the platform's artifact; it has no contract of its own, and `Fd.RunOutcome` and `Fd.Build` state what it does |
| Fd.RunOutcome | src/artifact/fd.rs:9-43 | an unsupported system fails with the refusal and registers nothing; otherwise the build succeeds exactly when the engine accepts the platform's artifact, which is then the only registration |
| Fd.Build | src/artifact/fd.rs:9-43 | returns the result of `Run`, appends exactly `Run`'s registrations to the context log and never calls `context.run()` |
| Fd.Table | src/artifact/fd.rs:13-19 | the dispatch rows: Aarch64Darwin to `aarch64-apple-darwin`, Aarch64Linux to `aarch64-unknown-linux-gnu`, X8664Darwin to `x86_64-apple-darwin`, X8664Linux to `x86_64-unknown-linux-musl`; no two systems share a platform string |
| Fd.DistinctAssets | src/artifact/fd.rs:13-19 | two supported systems that download the same URL are the same system |
| Fluxcd.Platform | src/artifact/fluxcd.rs:13-19 | Ok exactly on the four supported systems; any other system gives the error "Unsupported system for fluxcd artifact" |
| Fluxcd.Artifact | src/artifact/fluxcd.rs:10-42 | name `fluxcd`, alias `fluxcd:2.7.5`, the four systems, one source named `fluxcd` at the platform's release URL, one step with no input artifacts, environments or secrets that runs the platform's script |
| Fluxcd.Run | src/artifact/fluxcd.rs:9-43 | `build` as a value: the dispatch, then one registration of the platform's artifact; it has no contract of its own, and `Fluxcd.RunOutcome` and `Fluxcd.Build` state what it does |
| Fluxcd.RunOutcome | src/artifact/fluxcd.rs:9-43 | an unsupported system fails with the refusal and registers nothing; otherwise the build succeeds exactly when the engine accepts the platform's artifact, which is then the only registration |
| Fluxcd.Build | src/artifact/fluxcd.rs:9-43 | returns the result of `Run`, appends exactly `Run`'s registrations to the context log and never calls `context.run()` |
| Fluxcd.Table | src/artifact/fluxcd.rs:13-19 | the dispatch rows: Aarch64Darwin to `darwin_arm64`, Aarch64Linux to `linux_arm64`, X8664Darwin to `darwin_amd64`, X8664Linux to `linux_amd64`; no two systems share a platform string |
| Fluxcd.DistinctAssets | src/artifact/fluxcd.rs:13-19 | two supported systems that download the same URL are the same system |
| Glow.Platform | src/artifact/glow.rs:21-27 | Ok exactly on the four supported systems; any other system gives the error "Unsupported system for glow artifact" |
| Glow.Artifact | src/artifact/glow.rs:18-50 | name `glow`, alias `glow:2.1.1`, the four systems, one source named `glow` at the platform's release URL, one step with no input artifacts, environments or secrets that runs the platform's script |
| Glow.Run | src/artifact/glow.rs:17-51 | `build` as a value: the dispatch, then one registration of the platform's artifact; it has no contract of its own, and `Glow.RunOutcome` and `Glow.Build` state what it does |
| Glow.RunOutcome | src/artifact/glow.rs:17-51 | an unsupported system fails with the refusal and registers nothing; otherwise the build succeeds exactly when the engine accepts the platform's artifact, which is then the only registration |
| Glow.Build | src/artifact/glow.rs:17-51 | returns the result of `Run`, appends exactly `Run`'s registrations to the context log and never calls `context.run()` |
| Glow.Table | src/artifact/glow.rs:21-27 | the dispatch rows: Aarch64Darwin to `Darwin_arm64`, Aarch64Linux to `Linux_arm64`, X8664Darwin to `Darwin_x86_64`, X8664Linux to `Linux_x86_64`; no two systems share a platform string |
| Glow.DistinctAssets | src/artifact/glow.rs:21-27 | two supported systems that download the same URL are the same system |
| GolangciLint.Platform | src/artifact/golangci_lint.rs:13-23 | Ok exactly on the four supported systems; any other system gives the error "Unsupported system for golangci-lint artifact" |
| GolangciLint.Artifact | src/artifact/golangci_lint.rs:10-45 | name `golangci-lint`, alias `golangci-lint:2.7.2`, the four systems, one source named `golangci-lint` at the platform's release URL, one step with no input artifacts, environments or secrets that runs the platform's script |
| GolangciLint.Run | src/artifact/golangci_lint.rs:9-46 | `build` as a value: the dispatch, then one registration of the platform's artifact; it has no contract of its own, and `GolangciLint.RunOutcome` and `GolangciLint.Build` state what it does |
| GolangciLint.RunOutcome | src/artifact/golangci_lint.rs:9-46 | an unsupported system fails with the refusal and registers nothing; otherwise the build succeeds exactly when the engine accepts the platform's artifact, which is then the only registration |
| GolangciLint.Build | src/artifact/golangci_lint.rs:9-46 | returns the result of `Run`, appends exactly `Run`'s registrations to the context log and never calls `context.run()` |
| GolangciLint.Table | src/artifact/golangci_lint.rs:13-23 | the dispatch rows: Aarch64Darwin to `darwin-arm64`, Aarch64Linux to `linux-arm64`, X8664Darwin to `darwin-amd64`, X8664Linux to `linux-amd64`; no two systems share a platform string |
| GolangciLint.DistinctAssets | src/artifact/golangci_lint.rs:13-23 | two supported systems that download the same URL are the same system |
| Helm.Platform | src/artifact/helm.rs:13-19 | Ok exactly on the four supported systems; any other system gives the error "Unsupported system for helm artifact" |
| Helm.Artifact | src/artifact/helm.rs:10-40 | name `helm`, alias `helm:4.0.4`, the four systems, one source named `helm` at the platform's release URL, one step with no input artifacts, environments or secrets that runs the platform's script |
| Helm.Run | src/artifact/helm.rs:9-41 | `build` as a value: the dispatch, then one registration of the platform's artifact; it has no contract of its own, and `Helm.RunOutcome` and `Helm.Build` state what it does |
| Helm.RunOutcome | src/artifact/helm.rs:9-41 | an unsupported system fails with the refusal and registers nothing; otherwise the build succeeds exactly when the engine accepts the platform's artifact, which is then the only registration |
| Helm.Build | src/artifact/helm.rs:9-41 | returns the result of `Run`, appends exactly `Run`'s registrations to the context log and never calls `context.run()` |
| Helm.Table | src/artifact/helm.rs:13-19 | the dispatch rows: Aarch64Darwin to `darwin-arm64`, Aarch64Linux to `linux-arm64`, X8664Darwin to `darwin-amd64`, X8664Linux to `linux-amd64`; no two systems share a platform string |
| Helm.DistinctAssets | src/artifact/helm.rs:13-19 | two supported systems that download the same URL are the same system |
| Jj.Platform | src/artifact/jj.rs:21-27 | Ok exactly on the four supported systems; any other system gives the error "Unsupported system for jj artifact" |
| Jj.Artifact | src/artifact/jj.rs:18-49 | name `jj`, alias `jj:0.37.0`, the four systems, one source named `jj` at the platform's release URL, one step with no input artifacts, environments or secrets that runs the platform's script |
| Jj.Run | src/artifact/jj.rs:17-50 | `build` as a value: the dispatch, then one registration of the platform's artifact; it has no contract of its own, and `Jj.RunOutcome` and `Jj.Build` state what it does |
| Jj.RunOutcome | src/artifact/jj.rs:17-50 | an unsupported system fails with the refusal and registers nothing; otherwise the build succeeds exactly when the engine accepts the platform's artifact, which is then the only registration |
| Jj.Build | src/artifact/jj.rs:17-50 | returns the result of `Run`, appends exactly `Run`'s registrations to the context log and never calls `context.run()` |
| Jj.Table | src/artifact/jj.rs:21-27 | the dispatch rows: Aarch64Darwin to `aarch64-apple-darwin`, Aarch64Linux to `aarch64-unknown-linux-musl`, X8664Darwin to `x86_64-apple-darwin`, X8664Linux to `x86_64-unknown-linux-musl`; no two systems share a platform string |
| Jj.DistinctAssets | src/artifact/jj.rs:21-27 | two supported systems that download the same URL are the same system |
| Jq.Platform | src/artifact/jq.rs:13-19 | Ok exactly on the four supported systems; any other system gives the error "Unsupported system for jq artifact" |
| Jq.Artifact | src/artifact/jq.rs:10-41 | name `jq`, alias `jq:1.8.1`, the four systems, one source named `jq` at the platform's release URL, one step with no input artifacts, environments or secrets that runs the platform's script |
| Jq.Run | src/artifact/jq.rs:9-42 | `build` as a value: the dispatch, then one registration of the platform's artifact; it has no contract of its own, and `Jq.RunOutcome` and `Jq.Build` state what it does |
| Jq.RunOutcome | src/artifact/jq.rs:9-42 | an unsupported system fails with the refusal and registers nothing; otherwise the build succeeds exactly when the engine accepts the platform's artifact, which is then the only registration |
| Jq.Build | src/artifact/jq.rs:9-42 | returns the result of `Run`, appends exactly `Run`'s registrations to the context log and never calls `context.run()` |
| Jq.Table | src/artifact/jq.rs:13-19 | the dispatch rows: Aarch64Darwin to `macos-arm64`, Aarch64Linux to `linux-arm64`, X8664Darwin to `macos-amd64`, X8664Linux to `linux-amd64`; no two systems share a platform string |
| Jq.DistinctAssets | src/artifact/jq.rs:13-19 | two supported systems that download the same URL are the same system |
| Just.Platform | src/artifact/just.rs:13-19 | Ok exactly on the four supported systems; any other system gives the error "Unsupported system for just artifact" |
| Just.Artifact | src/artifact/just.rs:10-41 | name `just`, alias `just:1.45.0`, the four systems, one source named `just` at the platform's release URL, one step with no input artifacts, environments or secrets that runs the platform's script |
| Just.Run | src/artifact/just.rs:9-42 | `build` as a value: the dispatch, then one registration of the platform's artifact; it has no contract of its own, and `Just.RunOutcome` and `Just.Build` state what it does |
| Just.RunOutcome | src/artifact/just.rs:9-42 | an unsupported system fails with the refusal and registers nothing; otherwise the build succeeds exactly when the engine accepts the platform's artifact, which is then the only registration |
| Just.Build | src/artifact/just.rs:9-42 | returns the result of `Run`, appends exactly `Run`'s registrations to the context log and never calls `context.run()` |
| Just.Table | src/artifact/just.rs:13-19 | the dispatch rows: Aarch64Darwin to `aarch64-apple-darwin`, Aarch64Linux to `aarch64-unknown-linux-musl`, X8664Darwin to `x86_64-apple-darwin`, X8664Linux to `x86_64-unknown-linux-musl`; no two systems share a platform string |
| Just.DistinctAssets | src/artifact/just.rs:13-19 | two supported systems that download the same URL are the same system |
| K9s.Platform | src/artifact/k9s.rs:13-19 | Ok exactly on the four supported systems; any other system gives the error "Unsupported system for k9s artifact" |
| K9s.Artifact | src/artifact/k9s.rs:10-42 | name `k9s`, alias `k9s:0.50.18`, the four systems, one source named `k9s` at the platform's release URL, one step with no input artifacts, environments or secrets that runs the platform's script |
| K9s.Run | src/artifact/k9s.rs:9-43 | `build` as a value: the dispatch, then one registration of the platform's artifact; it has no contract of its own, and `K9s.RunOutcome` and `K9s.Build` state what it does |
| K9s.RunOutcome | src/artifact/k9s.rs:9-43 | an unsupported system fails with the refusal and registers nothing; otherwise the build succeeds exactly when the engine accepts the platform's artifact, which is then the only registration |
| K9s.Build | src/artifact/k9s.rs:9-43 | returns the result of `Run`, appends exactly `Run`'s registrations to the context log and never calls `context.run()` |
| K9s.Table | src/artifact/k9s.rs:13-19 | the dispatch rows: Aarch64Darwin to `Darwin_arm64`, Aarch64Linux to `Linux_arm64`, X8664Darwin to `Darwin_amd64`, X8664Linux to `Linux_amd64`; no two systems share a platform string |
| K9s.DistinctAssets | src/artifact/k9s.rs:13-19 | two supported systems that download the same URL are the same system |
| Kubeseal.Platform | src/artifact/kubeseal.rs:21-27 | Ok exactly on the four supported systems; any other system gives the error "Unsupported system for kubeseal artifact" |
| Kubeseal.Artifact | src/artifact/kubeseal.rs:18-50 | name `kubeseal`, alias `kubeseal:0.34.0`, the four systems, one source named `kubeseal` at the platform's release URL, one step with no input artifacts, environments or secrets that runs the platform's script |
| Kubeseal.Run | src/artifact/kubeseal.rs:17-51 | `build` as a value: the dispatch, then one registration of the platform's artifact; it has no contract of its own, and `Kubeseal.RunOutcome` and `Kubeseal.Build` state what it does |
| Kubeseal.RunOutcome | src/artifact/kubeseal.rs:17-51 | an unsupported system fails with the refusal and registers nothing; otherwise the build succeeds exactly when the engine accepts the platform's artifact, which is then the only registration |
| Kubeseal.Build | src/artifact/kubeseal.rs:17-51 | returns the result of `Run`, appends exactly `Run`'s registrations to the context log and never calls `context.run()` |
| Kubeseal.Table | src/artifact/kubeseal.rs:21-27 | the dispatch rows: Aarch64Darwin to `darwin-arm64`, Aarch64Linux to `linux-arm64`, X8664Darwin to `darwin-amd64`, X8664Linux to `linux-amd64`; no two systems share a platform string |
| Kubeseal.DistinctAssets | src/artifact/kubeseal.rs:21-27 | two supported systems that download the same URL are the same system |
| Lazygit.Platform | src/artifact/lazygit.rs:21-27 | Ok exactly on the four supported systems; any other system gives the error "Unsupported system for lazygit artifact" |
| Lazygit.Artifact | src/artifact/lazygit.rs:18-50 | name `lazygit`, alias `lazygit:0.44.1`, the four systems, one source named `lazygit` at the platform's release URL, one step with no input artifacts, environments or secrets that runs the platform's script |
| Lazygit.Run | src/artifact/lazygit.rs:17-51 | `build` as a value: the dispatch, then one registration of the platform's artifact; it has no contract of its own, and `Lazygit.RunOutcome` and `Lazygit.Build` state what it does |
| Lazygit.RunOutcome | src/artifact/lazygit.rs:17-51 | an unsupported system fails with the refusal and registers nothing; otherwise the build succeeds exactly when the engine accepts the platform's artifact, which is then the only registration |
| Lazygit.Build | src/artifact/lazygit.rs:17-51 | returns the result of `Run`, appends exactly `Run`'s registrations to the context log and never calls `context.run()` |
| Lazygit.Table | src/artifact/lazygit.rs:21-27 | the dispatch rows: Aarch64Darwin to `Darwin_arm64`, Aarch64Linux to `Linux_arm64`, X8664Darwin to `Darwin_x86_64`, X8664Linux to `Linux_x86_64`; no two systems share a platform string |
| Lazygit.DistinctAssets | src/artifact/lazygit.rs:21-27 | two supported systems that download the same URL are the same system |
| Lima.Platform | src/artifact/lima.rs:21-27 | Ok exactly on the four supported systems; any other system gives the error "Unsupported system for lima artifact" |
| Lima.Artifact | src/artifact/lima.rs:18-52 | name `lima`, alias `lima:2.0.3`, the four systems, one source named `lima` at the platform's release URL, one step with no input artifacts, environments or secrets that runs the platform's script |
| Lima.Run | src/artifact/lima.rs:17-53 | `build` as a value: the dispatch, then one registration of the platform's artifact; it has no contract of its own, and `Lima.RunOutcome` and `Lima.Build` state what it does |
| Lima.RunOutcome | src/artifact/lima.rs:17-53 | an unsupported system fails with the refusal and registers nothing; otherwise the build succeeds exactly when the engine accepts the platform's artifact, which is then the only registration |
| Lima.Build | src/artifact/lima.rs:17-53 | returns the result of `Run`, appends exactly `Run`'s registrations to the context log and never calls `context.run()` |
| Lima.Table | src/artifact/lima.rs:21-27 | the dispatch rows: Aarch64Darwin to `Darwin-arm64`, Aarch64Linux to `Linux-aarch64`, X8664Darwin to `Darwin-x86_64`, X8664Linux to `Linux-x86_64`; no two systems share a platform string |
| Lima.DistinctAssets | src/artifact/lima.rs:21-27 | two supported systems that download the same URL are the same system |
| Neovim.Platform | src/artifact/neovim.rs:21-27 | Ok exactly on the four supported systems; any other system gives the error "Unsupported system for neovim artifact" |
| Neovim.Artifact | src/artifact/neovim.rs:18-48 | name `neovim`, alias `neovim:0.11.5`, the four systems, one source named `neovim` at the platform's release URL, one step with no input artifacts, environments or secrets that runs the platform's script |
| Neovim.Run | src/artifact/neovim.rs:17-49 | `build` as a value: the dispatch, then one registration of the platform's artifact; it has no contract of its own, and `Neovim.RunOutcome` and `Neovim.Build` state what it does |
| Neovim.RunOutcome | src/artifact/neovim.rs:17-49 | an unsupported system fails with the refusal and registers nothing; otherwise the build succeeds exactly when the engine accepts the platform's artifact, which is then the only registration |
| Neovim.Build | src/artifact/neovim.rs:17-49 | returns the result of `Run`, appends exactly `Run`'s registrations to the context log and never calls `context.run()` |
| Neovim.Table | src/artifact/neovim.rs:21-27 | the dispatch rows: Aarch64Darwin to `macos-arm64`, Aarch64Linux to `linux-arm64`, X8664Darwin to `macos-x86_64`, X8664Linux to `linux-x86_64`; no two systems share a platform string |
| Neovim.DistinctAssets | src/artifact/neovim.rs:21-27 | two supported systems that download the same URL are the same system |
| Ripgrep.Platform | src/artifact/ripgrep.rs:13-19 | Ok exactly on the four supported systems; any other system gives the error "Unsupported system for ripgrep artifact" |
| Ripgrep.Artifact | src/artifact/ripgrep.rs:10-42 | name `ripgrep`, alias `ripgrep:14.1.1`, the four systems, one source named `ripgrep` at the platform's release URL, one step with no input artifacts, environments or secrets that runs the platform's script |
| Ripgrep.Run | src/artifact/ripgrep.rs:9-43 | `build` as a value: the dispatch, then one registration of the platform's artifact; it has no contract of its own, and `Ripgrep.RunOutcome` and `Ripgrep.Build` state what it does |
| Ripgrep.RunOutcome | src/artifact/ripgrep.rs:9-43 | an unsupported system fails with the refusal and registers nothing; otherwise the build succeeds exactly when the engine accepts the platform's artifact, which is then the only registration |
| Ripgrep.Build | src/artifact/ripgrep.rs:9-43 | returns the result of `Run`, appends exactly `Run`'s registrations to the context log and never calls `context.run()` |
| Ripgrep.Table | src/artifact/ripgrep.rs:13-19 | the dispatch rows: Aarch64Darwin to `aarch64-apple-darwin`, Aarch64Linux to `aarch64-unknown-linux-gnu`, X8664Darwin to `x86_64-apple-darwin`, X8664Linux to `x86_64-unknown-linux-musl`; no two systems share a platform string |
| Ripgrep.DistinctAssets | src/artifact/ripgrep.rs:13-19 | two supported systems that download the same URL are the same system |
| Starship.Platform | src/artifact/starship.rs:13-19 | Ok exactly on the four supported systems; any other system gives the error "Unsupported system for starship artifact" |
| Starship.Artifact | src/artifact/starship.rs:10-42 | name `starship`, alias `starship:1.21.1`, the four systems, one source named `starship` at the platform's release URL, one step with no input artifacts, environments or secrets that runs the platform's script |
| Starship.Run | src/artifact/starship.rs:9-43 | `build` as a value: the dispatch, then one registration of the platform's artifact; it has no contract of its own, and `Starship.RunOutcome` and `Starship.Build` state what it does |
| Starship.RunOutcome | src/artifact/starship.rs:9-43 | an unsupported system fails with the refusal and registers nothing; otherwise the build succeeds exactly when the engine accepts the platform's artifact, which is then the only registration |
| Starship.Build | src/artifact/starship.rs:9-43 | returns the result of `Run`, appends exactly `Run`'s registrations to the context log and never calls `context.run()` |
| Starship.Table | src/artifact/starship.rs:13-19 | the dispatch rows: Aarch64Darwin to `aarch64-apple-darwin`, Aarch64Linux to `aarch64-unknown-linux-musl`, X8664Darwin to `x86_64-apple-darwin`, X8664Linux to `x86_64-unknown-linux-musl`; no two systems share a platform string |
| Starship.DistinctAssets | src/artifact/starship.rs:13-19 | two supported systems that download the same URL are the same system |
| Terraform.Platform | src/artifact/terraform.rs:13-19 | Ok exactly on the four supported systems; any other system gives the error "Unsupported system for terraform artifact" |
| Terraform.Artifact | src/artifact/terraform.rs:10-42 | name `terraform`, alias `terraform:1.13.1`, the four systems, one source named `terraform` at the platform's release URL, one step with no input artifacts, environments or secrets that runs the platform's script |
| Terraform.Run | src/artifact/terraform.rs:9-43 | `build` as a value: the dispatch, then one registration of the platform's artifact; it has no contract of its own, and `Terraform.RunOutcome` and `Terraform.Build` state what it does |
| Terraform.RunOutcome | src/artifact/terraform.rs:9-43 | an unsupported system fails with the refusal and registers nothing; otherwise the build succeeds exactly when the engine accepts the platform's artifact, which is then the only registration |
| Terraform.Build | src/artifact/terraform.rs:9-43 | returns the result of `Run`, appends exactly `Run`'s registrations to the context log and never calls `context.run()` |
| Terraform.Table | src/artifact/terraform.rs:13-19 | the dispatch rows: Aarch64Darwin to `darwin_arm64`, Aarch64Linux to `linux_arm64`, X8664Darwin to `darwin_amd64`, X8664Linux to `linux_amd64`; no two systems share a platform string |
| Terraform.DistinctAssets | src/artifact/terraform.rs:13-19 | two supported systems that download the same URL are the same system |
| Vhs.Platform | src/artifact/vhs.rs:21-27 | Ok exactly on the four supported systems; any other system gives the error "Unsupported system for vhs artifact" |
| Vhs.Artifact | src/artifact/vhs.rs:18-50 | name `vhs`, alias `vhs:0.10.0`, the four systems, one source named `vhs` at the platform's release URL, one step with no input artifacts, environments or secrets that runs the platform's script |
| Vhs.Run | src/artifact/vhs.rs:17-51 | `build` as a value: the dispatch, then one registration of the platform's artifact; it has no contract of its own, and `Vhs.RunOutcome` and `Vhs.Build` state what it does |
| Vhs.RunOutcome | src/artifact/vhs.rs:17-51 | an unsupported system fails with the refusal and registers nothing; otherwise the build succeeds exactly when the engine accepts the platform's artifact, which is then the only registration |
| Vhs.Build | src/artifact/vhs.rs:17-51 | returns the result of `Run`, appends exactly `Run`'s registrations to the context log and never calls `context.run()` |
| Vhs.Table | src/artifact/vhs.rs:21-27 | the dispatch rows: Aarch64Darwin to `Darwin_arm64`, Aarch64Linux to `Linux_arm64`, X8664Darwin to `Darwin_x86_64`, X8664Linux to `Linux_x86_64`; no two systems share a platform string |
| Vhs.DistinctAssets | src/artifact/vhs.rs:21-27 | two supported systems that download the same URL are the same system |
| Yq.Platform | src/artifact/yq.rs:21-27 | Ok exactly on the four supported systems; any other system gives the error "Unsupported system for yq artifact" |
| Yq.Artifact | src/artifact/yq.rs:18-50 | name `yq`, alias `yq:4.50.1`, the four systems, one source named `yq` at the platform's release URL, one step with no input artifacts, environments or secrets that runs the platform's script |
| Yq.Run | src/artifact/yq.rs:17-51 | `build` as a value: the dispatch, then one registration of the platform's artifact; it has no contract of its own, and `Yq.RunOutcome` and `Yq.Build` state what it does |
| Yq.RunOutcome | src/artifact/yq.rs:17-51 | an unsupported system fails with the refusal and registers nothing; otherwise the build succeeds exactly when the engine accepts the platform's artifact, which is then the only registration |
| Yq.Build | src/artifact/yq.rs:17-51 | returns the result of `Run`, appends exactly `Run`'s registrations to the context log and never calls `context.run()` |
| Yq.Table | src/artifact/yq.rs:21-27 | the dispatch rows: Aarch64Darwin to `darwin_arm64`, Aarch64Linux to `linux_arm64`, X8664Darwin to `darwin_amd64`, X8664Linux to `linux_amd64`; no two systems share a platform string |
| Yq.DistinctAssets | src/artifact/yq.rs:21-27 | two supported systems that download the same URL are the same system |
| Awscli2.Artifact | src/artifact/awscli2.rs:10-68 | name `awscli2`, alias `awscli2:2.33.1`, the four systems, one source at the chosen asset's URL, one step with no inputs that runs the chosen asset's script |
| Awscli2.Run | src/artifact/awscli2.rs:9-69 | `build` as a value: the dispatch picks the asset, then one registration; it has no contract of its own, and `Awscli2.RunOutcome`, `Awscli2.Coverage` and `Awscli2.Build` state what it does |
| Awscli2.RunOutcome | src/artifact/awscli2.rs:9-69 | an unsupported system fails with the refusal and registers nothing; otherwise the build succeeds exactly when the engine accepts the system's artifact, which is then the only registration |
| Awscli2.Build | src/artifact/awscli2.rs:9-69 | returns the result of `Run`, appends exactly `Run`'s registrations to the log and never calls `context.run()` |
| Awscli2.Coverage | src/artifact/awscli2.rs:13-56 | an asset exists exactly for the four supported systems; any other system gets "Unsupported system for awscli2 artifact" |
| Awscli2.DarwinShared | src/artifact/awscli2.rs:38-54 | both macOS systems pick the same `AWSCLIV2-2.33.1.pkg` with the same `pkgutil` script |
| Awscli2.LinuxArchives | src/artifact/awscli2.rs:14-37 | the Linux systems pick `awscli-exe-linux-aarch64-2.33.1.zip` and `awscli-exe-linux-x86_64-2.33.1.zip`, two different archives, with the same installer script |
| Ttyd.Artifact | src/artifact/ttyd.rs:18-69 | name `ttyd`, alias `ttyd:1.7.7`, the four systems, one source at the chosen asset's URL, one step with no inputs that runs the chosen asset's script |
| Ttyd.Run | src/artifact/ttyd.rs:17-70 | `build` as a value: the dispatch picks the asset, then one registration; it has no contract of its own, and `Ttyd.RunOutcome`, `Ttyd.Coverage` and `Ttyd.Build` state what it does |
| Ttyd.RunOutcome | src/artifact/ttyd.rs:17-70 | an unsupported system fails with the refusal and registers nothing; otherwise the build succeeds exactly when the engine accepts the system's artifact, which is then the only registration |
| Ttyd.Build | src/artifact/ttyd.rs:17-70 | returns the result of `Run`, appends exactly `Run`'s registrations to the log and never calls `context.run()` |
| Ttyd.Coverage | src/artifact/ttyd.rs:21-57 | an asset exists exactly for the four supported systems; any other system gets "Unsupported system for ttyd artifact" |
| Ttyd.DarwinShared | src/artifact/ttyd.rs:44-55 | both macOS systems pick `ttyd_darwin.zip` with the same script |
| Ttyd.LinuxBinaries | src/artifact/ttyd.rs:22-43 | Aarch64Linux downloads and copies `ttyd.aarch64`, X8664Linux `ttyd.x86_64`; the URLs and the scripts differ |
| Cmake.Platform | src/artifact/cmake.rs:21-26 | Ok exactly on the four supported systems; any other system gives "Unsupported system for cmake artifact" |
| Cmake.Artifact | src/artifact/cmake.rs:18-55 | name `cmake`, alias `cmake:4.2.3`, the four systems, one source at `cmake-4.2.3-<platform>.tar.gz`, one step with no inputs running the system's copy script |
| Cmake.Run | src/artifact/cmake.rs:17-56 | `build` as a value: the dispatch, then one registration of the platform's artifact; it has no contract of its own, and `Cmake.RunOutcome` and `Cmake.Build` state what it does |
| Cmake.RunOutcome | src/artifact/cmake.rs:17-56 | an unsupported system fails before any registration; otherwise the build succeeds exactly when the engine accepts the artifact, the only registration |
| Cmake.Build | src/artifact/cmake.rs:17-56 | returns the result of `Run`, appends exactly `Run`'s registrations to the log and never calls `context.run()` |
| Cmake.Table | src/artifact/cmake.rs:21-25 | both macOS systems map to `macos-universal`, Aarch64Linux to `linux-aarch64`, X8664Linux to `linux-x86_64`; the Linux rows differ |
| Cmake.SharedDarwinBuild | src/artifact/cmake.rs:21-45 | on a supported system, the registered artifact is the macOS one exactly when the system is macOS |
| Cmake.AppBundleOnDarwin | src/artifact/cmake.rs:34-45 | the script copies from `CMake.app/Contents` exactly on macOS; the second match's `_` arm serves only the two Linux systems |
| Cmake.TraceNames | src/artifact/cmake.rs:17-56 | every registration the recipe makes is named `cmake` |
| Cmake.Accepted | src/artifact/cmake.rs:17-56 | on a supported system with an accepting engine the build succeeds and registers only `cmake` |
| Openjdk.Platform | src/artifact/openjdk.rs:21-27 | Ok exactly on the four supported systems; any other system gives "Unsupported system for openjdk artifact" |
| Openjdk.Artifact | src/artifact/openjdk.rs:18-52 | name `openjdk`, alias `openjdk:25.0.1`, the four systems, one source at `openjdk-25.0.1_<platform>_bin.tar.gz`, one step with no inputs whose script enters the system's JDK directory |
| Openjdk.Run | src/artifact/openjdk.rs:17-53 | `build` as a value: the dispatch, then one registration of the platform's artifact; it has no contract of its own, and `Openjdk.RunOutcome` and `Openjdk.Build` state what it does |
| Openjdk.RunOutcome | src/artifact/openjdk.rs:17-53 | an unsupported system fails before any registration; otherwise the build succeeds exactly when the engine accepts the artifact, the only registration |
| Openjdk.Build | src/artifact/openjdk.rs:17-53 | returns the result of `Run`, appends exactly `Run`'s registrations to the log and never calls `context.run()` |
| Openjdk.Table | src/artifact/openjdk.rs:21-25 | the dispatch rows: Aarch64Darwin to `macos-aarch64`, Aarch64Linux to `linux-aarch64`, X8664Darwin to `macos-x64`, X8664Linux to `linux-x64`; no two systems share a platform string |
| Openjdk.AffixOnDarwin | src/artifact/openjdk.rs:34-40 | the affix is `.jdk` exactly on macOS; elsewhere the script enters `./source/openjdk/jdk-25.0.1` |
| Openjdk.DistinctAssets | src/artifact/openjdk.rs:21-31 | two supported systems that download the same URL are the same system |
| Libevent.Artifact | src/artifact/libevent.rs:18-46 | name `libevent`, alias `libevent:2.1.12`, the four systems, one source at the release URL, one step with no inputs; the same on every system |
| Libevent.ConfigureOptions | src/artifact/libevent.rs:27-36 | configure gets `--disable-openssl`, `--enable-shared` and the output prefix, each on its own line |
| Libevent.Run | src/artifact/libevent.rs:17-47 | `build` as a value: one registration, with no system check; it has no contract of its own, and `Libevent.RunOutcome`, `Libevent.TraceNames` and `Libevent.AnySystem` state what it does |
| Libevent.RunOutcome | src/artifact/libevent.rs:17-47 | the result is the engine's answer to the artifact, and the trace holds the artifact exactly when it was accepted |
| Libevent.Build | src/artifact/libevent.rs:17-47 | returns the result of `Run`, appends exactly `Run`'s registrations to the log and never calls `context.run()` |
| Libevent.TraceNames | src/artifact/libevent.rs:17-47 | every registration the recipe makes is named `libevent` |
| Libevent.AnySystem | src/artifact/libevent.rs:17-47 | the target system plays no part: there is no system check |
| LibgpgError.Artifact | src/artifact/libgpg_error.rs:18-45 | name `libgpg-error`, alias `libgpg-error:1.56`, the four systems, one source at the release URL, one step with no inputs; the same on every system |
| LibgpgError.ConfigureOptions | src/artifact/libgpg_error.rs:26-35 | the script runs `./configure --prefix="$VORPAL_OUTPUT"` |
| LibgpgError.Run | src/artifact/libgpg_error.rs:17-46 | `build` as a value: one registration, with no system check; it has no contract of its own, and `LibgpgError.RunOutcome`, `LibgpgError.TraceNames` and `LibgpgError.AnySystem` state what it does |
| LibgpgError.RunOutcome | src/artifact/libgpg_error.rs:17-46 | the result is the engine's answer to the artifact, and the trace holds the artifact exactly when it was accepted |
| LibgpgError.Build | src/artifact/libgpg_error.rs:17-46 | returns the result of `Run`, appends exactly `Run`'s registrations to the log and never calls `context.run()` |
| LibgpgError.TraceNames | src/artifact/libgpg_error.rs:17-46 | every registration the recipe makes is named `libgpg-error` |
| LibgpgError.AnySystem | src/artifact/libgpg_error.rs:17-46 | the target system plays no part: there is no system check |
| Ncurses.Artifact | src/artifact/ncurses.rs:10-36 | name `ncurses`, alias `ncurses:6.5`, the four systems, one source at the release URL, one step with no inputs; the same on every system |
| Ncurses.ConfigureOptions | src/artifact/ncurses.rs:16-27 | configure gets `--enable-pc-files`, the output prefix, the pkg-config libdir under the output, `--with-shared` and `--with-termlib` |
| Ncurses.Run | src/artifact/ncurses.rs:9-37 | `build` as a value: one registration, with no system check; it has no contract of its own, and `Ncurses.RunOutcome`, `Ncurses.TraceNames` and `Ncurses.AnySystem` state what it does |
| Ncurses.RunOutcome | src/artifact/ncurses.rs:9-37 | the result is the engine's answer to the artifact, and the trace holds the artifact exactly when it was accepted |
| Ncurses.Build | src/artifact/ncurses.rs:9-37 | returns the result of `Run`, appends exactly `Run`'s registrations to the log and never calls `context.run()` |
| Ncurses.TraceNames | src/artifact/ncurses.rs:9-37 | every registration the recipe makes is named `ncurses` |
| Ncurses.AnySystem | src/artifact/ncurses.rs:9-37 | the target system plays no part: there is no system check |
| Npth.Artifact | src/artifact/npth.rs:18-44 | name `npth`, alias `npth:1.8`, the four systems, one source at the release URL, one step with no inputs; the same on every system |
| Npth.ScriptLines | src/artifact/npth.rs:25-34 | the script runs `./configure --prefix="$VORPAL_OUTPUT"` |
| Npth.Run | src/artifact/npth.rs:17-45 | `build` as a value: one registration, with no system check; it has no contract of its own, and `Npth.RunOutcome`, `Npth.TraceNames` and `Npth.AnySystem` state what it does |
| Npth.RunOutcome | src/artifact/npth.rs:17-45 | the result is the engine's answer to the artifact, and the trace holds the artifact exactly when it was accepted |
| Npth.Build | src/artifact/npth.rs:17-45 | returns the result of `Run`, appends exactly `Run`'s registrations to the log and never calls `context.run()` |
| Npth.TraceNames | src/artifact/npth.rs:17-45 | every registration the recipe makes is named `npth` |
| Npth.AnySystem | src/artifact/npth.rs:17-45 | the target system plays no part: there is no system check |
| PkgConfig.Artifact | src/artifact/pkg_config.rs:10-38 | name `pkg-config`, alias `pkg-config:0.29.2`, the four systems, one source at the release URL, one step with no inputs; the same on every system |
| PkgConfig.ScriptLines | src/artifact/pkg_config.rs:19-28 | configure runs with `-Wno-error=int-conversion` and `--with-internal-glib` |
| PkgConfig.Run | src/artifact/pkg_config.rs:9-39 | `build` as a value: one registration, with no system check; it has no contract of its own, and `PkgConfig.RunOutcome`, `PkgConfig.TraceNames` and `PkgConfig.AnySystem` state what it does |
| PkgConfig.RunOutcome | src/artifact/pkg_config.rs:9-39 | the result is the engine's answer to the artifact, and the trace holds the artifact exactly when it was accepted |
| PkgConfig.Build | src/artifact/pkg_config.rs:9-39 | returns the result of `Run`, appends exactly `Run`'s registrations to the log and never calls `context.run()` |
| PkgConfig.TraceNames | src/artifact/pkg_config.rs:9-39 | every registration the recipe makes is named `pkg-config` |
| PkgConfig.AnySystem | src/artifact/pkg_config.rs:9-39 | the target system plays no part: there is no system check |
| Zlib.Artifact | src/artifact/zlib.rs:18-40 | name `zlib`, alias `zlib:1.3.2`, the four systems, one source at the release URL, one step with no inputs; the same on every system |
| Zlib.ScriptLines | src/artifact/zlib.rs:25-30 | configure gets `--static` and the output prefix |
| Zlib.Run | src/artifact/zlib.rs:17-41 | `build` as a value: one registration, with no system check; it has no contract of its own, and `Zlib.RunOutcome`, `Zlib.TraceNames` and `Zlib.AnySystem` state what it does |
| Zlib.RunOutcome | src/artifact/zlib.rs:17-41 | the result is the engine's answer to the artifact, and the trace holds the artifact exactly when it was accepted |
| Zlib.Build | src/artifact/zlib.rs:17-41 | returns the result of `Run`, appends exactly `Run`'s registrations to the log and never calls `context.run()` |
| Zlib.TraceNames | src/artifact/zlib.rs:17-41 | every registration the recipe makes is named `zlib` |
| Zlib.AnySystem | src/artifact/zlib.rs:17-41 | the target system plays no part: there is no system check |
| Zlib.Accepted | src/artifact/zlib.rs:17-41 | with an accepting engine the build succeeds and registers only `zlib` |
| Ffmpeg.Artifact | src/artifact/ffmpeg.rs:18-49 | name `ffmpeg`, alias `ffmpeg:7.1.3`, the four systems, one source at the release URL, one step with no inputs; the same on every system |
| Ffmpeg.ScriptLines | src/artifact/ffmpeg.rs:26-39 | configure gets the output prefix, `--disable-doc`, `--disable-debug` and `--enable-gpl` |
| Ffmpeg.Run | src/artifact/ffmpeg.rs:17-50 | `build` as a value: one registration, with no system check; it has no contract of its own, and `Ffmpeg.RunOutcome`, `Ffmpeg.TraceNames` and `Ffmpeg.AnySystem` state what it does |
| Ffmpeg.RunOutcome | src/artifact/ffmpeg.rs:17-50 | the result is the engine's answer to the artifact, and the trace holds the artifact exactly when it was accepted |
| Ffmpeg.Build | src/artifact/ffmpeg.rs:17-50 | returns the result of `Run`, appends exactly `Run`'s registrations to the log and never calls `context.run()` |
| Ffmpeg.TraceNames | src/artifact/ffmpeg.rs:17-50 | every registration the recipe makes is named `ffmpeg` |
| Ffmpeg.AnySystem | src/artifact/ffmpeg.rs:17-50 | the target system plays no part: there is no system check |
| Sqlite3.Artifact | src/artifact/sqlite3.rs:18-43 | name `sqlite3`, alias `sqlite3:3.51.2`, the four systems, one source at the release URL (the URL is built from the year `2026` and the tag `3510200`, not from the version), one step with no inputs; the same on every system |
| Sqlite3.ScriptLines | src/artifact/sqlite3.rs:27-33 | the script runs `./configure --prefix="$VORPAL_OUTPUT"` |
| Sqlite3.Run | src/artifact/sqlite3.rs:17-44 | `build` as a value: one registration, with no system check; it has no contract of its own, and `Sqlite3.RunOutcome`, `Sqlite3.TraceNames` and `Sqlite3.AnySystem` state what it does |
| Sqlite3.RunOutcome | src/artifact/sqlite3.rs:17-44 | the result is the engine's answer to the artifact, and the trace holds the artifact exactly when it was accepted |
| Sqlite3.Build | src/artifact/sqlite3.rs:17-44 | returns the result of `Run`, appends exactly `Run`'s registrations to the log and never calls `context.run()` |
| Sqlite3.TraceNames | src/artifact/sqlite3.rs:17-44 | every registration the recipe makes is named `sqlite3` |
| Sqlite3.AnySystem | src/artifact/sqlite3.rs:17-44 | the target system plays no part: there is no system check |
| JsonC.Artifact | src/artifact/json_c.rs:31-70 | name `json-c`, alias `json-c:0.18`, only the two macOS systems; the URL uses the tag `json-c-0.18-20240915`; the step's artifacts are exactly `[cmake]` and its script runs with cmake's key |
| JsonC.ScriptLines | src/artifact/json_c.rs:39-59 | the script runs `<key(cmake)>/bin/cmake` |
| JsonC.Builder.constructor | src/artifact/json_c.rs:16-18 | `new()` leaves the cmake slot empty |
| JsonC.Builder.WithCmake | src/artifact/json_c.rs:20-23 | `with_cmake` fills the slot with the given handle |
| JsonC.Builder.Build | src/artifact/json_c.rs:25-71 | returns the result of `Run` for the slot, appends exactly its registrations to the log and never calls `context.run()` |
| JsonC.Run | src/artifact/json_c.rs:25-71 | `build` for the slot value: the slot resolved to its handle or to `Cmake::new().build`, then one registration; it has no contract of its own, and `JsonC.Injected`, `JsonC.SelfBuilt` and `JsonC.TraceNames` state what it does |
| JsonC.Injected | src/artifact/json_c.rs:25-71 | an injected cmake is used as given: the only registration is `json-c` itself, on any system, with no system check |
| JsonC.SelfBuilt | src/artifact/json_c.rs:26-29 | without an injection cmake is built first; its failure (such as an unsupported system) is the result and nothing is registered |
| JsonC.TraceNames | src/artifact/json_c.rs:25-71 | a run registers only `cmake` and `json-c` artifacts |
| JsonC.Accepted | src/artifact/json_c.rs:25-71 | on a supported system with an accepting engine and an empty slot, the registrations are `cmake`, then `json-c` |
| Mbedtls.Artifact | src/artifact/mbedtls.rs:31-69 | name `mbedtls`, alias `mbedtls:3.6.5`, only the two macOS systems; the step's artifacts are exactly `[cmake]` and its script runs with cmake's key |
| Mbedtls.ScriptLines | src/artifact/mbedtls.rs:40-58 | the script runs `<key(cmake)>/bin/cmake` |
| Mbedtls.Builder.constructor | src/artifact/mbedtls.rs:16-18 | `new()` leaves the cmake slot empty |
| Mbedtls.Builder.WithCmake | src/artifact/mbedtls.rs:20-23 | `with_cmake` fills the slot with the given handle |
| Mbedtls.Builder.Build | src/artifact/mbedtls.rs:25-70 | returns the result of `Run` for the slot, appends exactly its registrations to the log and never calls `context.run()` |
| Mbedtls.Run | src/artifact/mbedtls.rs:25-70 | `build` for the slot value: the slot resolved to its handle or to `Cmake::new().build`, then one registration; it has no contract of its own, and `Mbedtls.Injected`, `Mbedtls.SelfBuilt` and `Mbedtls.TraceNames` state what it does |
| Mbedtls.Injected | src/artifact/mbedtls.rs:25-70 | an injected cmake is used as given: the only registration is `mbedtls` itself, on any system, with no system check |
| Mbedtls.SelfBuilt | src/artifact/mbedtls.rs:26-29 | without an injection cmake is built first; its failure (such as an unsupported system) is the result and nothing is registered |
| Mbedtls.TraceNames | src/artifact/mbedtls.rs:25-70 | a run registers only `cmake` and `mbedtls` artifacts |
| Mbedtls.Accepted | src/artifact/mbedtls.rs:25-70 | on a supported system with an accepting engine and an empty slot, the registrations are `cmake`, then `mbedtls` |
| Libuv.Artifact | src/artifact/libuv.rs:31-66 | name `libuv`, alias `libuv:1.52.0`, only the two macOS systems; the step's artifacts are exactly `[cmake]` and its script runs with cmake's key |
| Libuv.ScriptLines | src/artifact/libuv.rs:38-55 | the script runs `<key(cmake)>/bin/cmake` |
| Libuv.Builder.constructor | src/artifact/libuv.rs:16-18 | `new()` leaves the cmake slot empty |
| Libuv.Builder.WithCmake | src/artifact/libuv.rs:20-23 | `with_cmake` fills the slot with the given handle |
| Libuv.Builder.Build | src/artifact/libuv.rs:25-67 | returns the result of `Run` for the slot, appends exactly its registrations to the log and never calls `context.run()` |
| Libuv.Run | src/artifact/libuv.rs:25-67 | `build` for the slot value: the slot resolved to its handle or to `Cmake::new().build`, then one registration; it has no contract of its own, and `Libuv.Injected`, `Libuv.SelfBuilt` and `Libuv.TraceNames` state what it does |
| Libuv.Injected | src/artifact/libuv.rs:25-67 | an injected cmake is used as given: the only registration is `libuv` itself, on any system, with no system check |
| Libuv.SelfBuilt | src/artifact/libuv.rs:26-29 | without an injection cmake is built first; its failure (such as an unsupported system) is the result and nothing is registered |
| Libuv.TraceNames | src/artifact/libuv.rs:25-67 | a run registers only `cmake` and `libuv` artifacts |
| Libuv.Accepted | src/artifact/libuv.rs:25-67 | on a supported system with an accepting engine and an empty slot, the registrations are `cmake`, then `libuv` |
| Libwebsockets.Artifact | src/artifact/libwebsockets.rs:69-147 | name `libwebsockets`, alias `libwebsockets:4.5.2`, the four systems, the release URL; the step's artifacts are exactly `[cmake, zlib, libuv, mbedtls]`, with no environments or secrets |
| Libwebsockets.ScriptLines | src/artifact/libwebsockets.rs:77-123 | the script runs `<key(cmake)>/bin/cmake` with `CMAKE_PREFIX_PATH="<key(zlib)>;<key(libuv)>;<key(mbedtls)>"` |
| Libwebsockets.Builder.constructor | src/artifact/libwebsockets.rs:19-26 | `new()` leaves all four slots empty |
| Libwebsockets.Builder.WithCmake | src/artifact/libwebsockets.rs:28-31 | `with_cmake` fills its slot and leaves the other three unchanged |
| Libwebsockets.Builder.WithZlib | src/artifact/libwebsockets.rs:33-36 | `with_zlib` fills its slot and leaves the other three unchanged |
| Libwebsockets.Builder.WithLibuv | src/artifact/libwebsockets.rs:38-41 | `with_libuv` fills its slot and leaves the other three unchanged |
| Libwebsockets.Builder.WithMbedtls | src/artifact/libwebsockets.rs:43-46 | `with_mbedtls` fills its slot and leaves the other three unchanged |
| Libwebsockets.Builder.Build | src/artifact/libwebsockets.rs:48-148 | returns the result of `Run` for the four slots, appends exactly its registrations to the log and never calls `context.run()` |
| Libwebsockets.ResolveCmake | src/artifact/libwebsockets.rs:49-52 | the cmake slot: the injected handle with no registration, or a fresh cmake build |
| Libwebsockets.ResolveZlib | src/artifact/libwebsockets.rs:54-57 | the zlib slot: the injected handle, or a fresh zlib build |
| Libwebsockets.ResolveLibuv | src/artifact/libwebsockets.rs:59-62 | the libuv slot: the injected handle, or a libuv build with nothing injected |
| Libwebsockets.ResolveMbedtls | src/artifact/libwebsockets.rs:64-67 | the mbedtls slot: the injected handle, or an mbedtls build with nothing injected |
| Libwebsockets.Run | src/artifact/libwebsockets.rs:48-148 | `build` for the four slot values: each slot resolved in order, then the registration; it has no contract of its own, and `Libwebsockets.Injected`, `Libwebsockets.NothingInjected`, `Libwebsockets.UnsupportedSystem` and `Libwebsockets.FailFast` state what it does |
| Libwebsockets.Assemble | src/artifact/libwebsockets.rs:48-148 | the four resolved dependencies chained with `?`, then the registration that uses their handles; it has no contract of its own, and `Libwebsockets.AssembledNames` and `Libwebsockets.FailFast` state what it does |
| Libwebsockets.Injected | src/artifact/libwebsockets.rs:48-148 | with all four handles injected, libwebsockets is the only registration and uses them as given |
| Libwebsockets.NothingInjected | src/artifact/libwebsockets.rs:49-67 | with nothing injected on a supported system and an accepting engine, the registrations are cmake, zlib, cmake, libuv, cmake, mbedtls, libwebsockets: cmake three times |
| Libwebsockets.AssembledNames | src/artifact/libwebsockets.rs:48-148 | once every dependency has resolved, the registrations are the dependencies' own, in slot order, then libwebsockets |
| Libwebsockets.UnsupportedSystem | src/artifact/libwebsockets.rs:49-52 | with nothing injected on an unsupported system, the first dependency (cmake) fails and nothing is registered |
| Libwebsockets.FailFast | src/artifact/libwebsockets.rs:48-148 | a failed build never registers libwebsockets itself |
| Tmux.Artifact | src/artifact/tmux.rs:45-87 | name `tmux`, alias `tmux:3.5a`, the four systems, the release URL; the step's artifacts are exactly `[libevent, ncurses]` |
| Tmux.ScriptLines | src/artifact/tmux.rs:54-68 | CPPFLAGS has libevent's include and ncurses' `include` and `include/ncursesw`; LDFLAGS has `-L` and an rpath for both |
| Tmux.Builder.constructor | src/artifact/tmux.rs:17-22 | `new()` leaves both slots empty |
| Tmux.Builder.WithLibevent | src/artifact/tmux.rs:24-27 | `with_libevent` fills its slot and leaves ncurses unchanged |
| Tmux.Builder.WithNcurses | src/artifact/tmux.rs:29-32 | `with_ncurses` fills its slot and leaves libevent unchanged |
| Tmux.Builder.Build | src/artifact/tmux.rs:34-88 | returns the result of `Run` for the two slots, appends exactly its registrations to the log and never calls `context.run()` |
| Tmux.Run | src/artifact/tmux.rs:34-88 | `build` for the two slot values: libevent, then ncurses, each resolved to its handle or to its own recipe, then the registration; it has no contract of its own, and `Tmux.Injected`, `Tmux.OnlyNcursesInjected`, `Tmux.Accepted` and `Tmux.AcceptedInjected` state what it does |
| Tmux.Injected | src/artifact/tmux.rs:35-43 | with both handles injected, tmux is the only registration and uses them as given |
| Tmux.OnlyNcursesInjected | src/artifact/tmux.rs:35-43 | with only ncurses injected, libevent is built first (its failure ends the build with nothing registered), then tmux; ncurses is not built |
| Tmux.AnySystem | src/artifact/tmux.rs:34-88 | the target system plays no part: there is no system check |
| Tmux.Accepted | src/artifact/tmux.rs:34-88 | with an accepting engine and empty slots the registrations are libevent, ncurses, tmux |
| Tmux.AcceptedInjected | src/artifact/tmux.rs:34-88 | with an accepting engine and both slots filled the build succeeds and registers only tmux |
| Zsh.Artifact | src/artifact/zsh.rs:31-65 | name `zsh`, alias `zsh:5.9`, the four systems, the release URL; the step's artifacts are exactly `[ncurses]` |
| Zsh.ScriptLines | src/artifact/zsh.rs:40-54 | CPPFLAGS has ncurses' `include` and `include/ncursesw`; LDFLAGS has `-L` and an rpath for its `lib` |
| Zsh.Builder.constructor | src/artifact/zsh.rs:16-18 | `new()` leaves the ncurses slot empty |
| Zsh.Builder.WithNcurses | src/artifact/zsh.rs:20-23 | `with_ncurses` fills the slot |
| Zsh.Builder.Build | src/artifact/zsh.rs:25-66 | returns the result of `Run` for the slot, appends exactly its registrations to the log and never calls `context.run()` |
| Zsh.Run | src/artifact/zsh.rs:25-66 | `build` for the slot value: the slot resolved to its handle or to a ncurses build, then the registration; it has no contract of its own, and `Zsh.Injected` and `Zsh.SelfBuilt` state what it does |
| Zsh.Injected | src/artifact/zsh.rs:26-29 | an injected ncurses is used as given and zsh is the only registration |
| Zsh.SelfBuilt | src/artifact/zsh.rs:26-29 | without an injection ncurses is built first: its failure is the result with nothing registered, otherwise its artifact precedes zsh's |
| Zsh.AnySystem | src/artifact/zsh.rs:25-66 | the target system plays no part: there is no system check |
| Zsh.Accepted | src/artifact/zsh.rs:25-66 | with an accepting engine the build succeeds; the registrations are ncurses, zsh with an empty slot and zsh alone with a filled one |
| Libgcrypt.Artifact | src/artifact/libgcrypt.rs:31-71 | name `libgcrypt`, alias `libgcrypt:1.11.0`, the four systems, `libgcrypt-1.11.0.tar.bz2`; the step's artifacts are exactly `[libgpg_error]` |
| Libgcrypt.ScriptLines | src/artifact/libgcrypt.rs:38-52 | configure gets `--with-libgpg-error-prefix=<key(libgpg_error)>` |
| Libgcrypt.Builder.constructor | src/artifact/libgcrypt.rs:16-18 | `new()` leaves the libgpg-error slot empty |
| Libgcrypt.Builder.WithLibgpgError | src/artifact/libgcrypt.rs:20-23 | `with_libgpg_error` fills the slot |
| Libgcrypt.Builder.Build | src/artifact/libgcrypt.rs:25-72 | returns the result of `Run` for the slot, appends exactly its registrations to the log and never calls `context.run()` |
| Libgcrypt.Run | src/artifact/libgcrypt.rs:25-72 | `build` for the slot value: the slot resolved to its handle or to a libgpg-error build, then the registration; it has no contract of its own, and `Libgcrypt.Injected` and `Libgcrypt.SelfBuilt` state what it does |
| Libgcrypt.Injected | src/artifact/libgcrypt.rs:26-29 | an injected handle is used as given and libgcrypt is the only registration |
| Libgcrypt.SelfBuilt | src/artifact/libgcrypt.rs:26-29 | without an injection libgpg-error is built first: its failure is the result with nothing registered, otherwise its artifact precedes libgcrypt's |
| Libgcrypt.AnySystem | src/artifact/libgcrypt.rs:25-72 | the target system plays no part: there is no system check |
| Libgcrypt.Accepted | src/artifact/libgcrypt.rs:25-72 | with an accepting engine the build succeeds; the registrations are libgpg-error, libgcrypt with an empty slot and libgcrypt alone with a filled one |
| LinuxVorpalSlim.Artifact | src/artifact/linux_vorpal_slim.rs:25-55 | name `linux-vorpal-slim`, alias `linux-vorpal-slim:latest`, the four systems; the one source is named `linux-vorpal-slim` at path `.` including only `script/linux-vorpal-slim.sh`; the step's artifacts are exactly `[linux_vorpal]` |
| LinuxVorpalSlim.Builder.constructor | src/artifact/linux_vorpal_slim.rs:15-17 | `new()` (the default) leaves the slot empty |
| LinuxVorpalSlim.Builder.WithLinuxVorpal | src/artifact/linux_vorpal_slim.rs:19-22 | `with_linux_vorpal` fills the slot |
| LinuxVorpalSlim.Builder.Build | src/artifact/linux_vorpal_slim.rs:24-56 | returns the result of `Run` for the slot, appends exactly its registrations to the log and never calls `context.run()` |
| LinuxVorpalSlim.Run | src/artifact/linux_vorpal_slim.rs:24-56 | `build` for the slot value: the slot resolved to its handle or to a linux-vorpal build, then the registration; it has no contract of its own, and `LinuxVorpalSlim.Injected` and `LinuxVorpalSlim.SelfBuilt` state what it does |
| LinuxVorpalSlim.Injected | src/artifact/linux_vorpal_slim.rs:40-47 | an injected handle is used as given and the slim artifact is the only registration |
| LinuxVorpalSlim.SelfBuilt | src/artifact/linux_vorpal_slim.rs:40-47 | without an injection linux-vorpal is built first: its failure is the result, otherwise its registrations precede the slim artifact, which uses its handle |
| Gpg.Preamble | src/artifact/gpg.rs:24-30 | the script opens with eleven lines, the fifth of which is the PATH line |
| Gpg.Artifact | src/artifact/gpg.rs:17-75 | name `gpg`, alias `gpg:2.5.16`, the four systems, `gnupg-2.5.16.tar.bz2`; the step's artifacts are exactly `[libassuan, libgcrypt, libgpg_error, libksba, npth]`, with no environments or secrets |
| Gpg.Build | src/artifact/gpg.rs:9-76 | returns the result of `Run`, appends exactly `Run`'s registrations to the log and never calls `context.run()` |
| Gpg.ScriptUsesKeys | src/artifact/gpg.rs:24-50 | PATH puts the `bin` of libgpg-error, npth, libgcrypt, libassuan, libksba before `$PATH`; configure gets one `--with-*-prefix=<key>` per dependency, then `--disable-doc` |
| Gpg.Run | src/artifact/gpg.rs:9-76 | `build` for the given handles: one registration, with no system check; it has no contract of its own, and `Gpg.RunOutcome` and `Gpg.Accepted` state what it does |
| Gpg.RunOutcome | src/artifact/gpg.rs:9-76 | no dependency is resolved: the result is the engine's answer to the one artifact, which is the whole trace when accepted |
| Gpg.Accepted | src/artifact/gpg.rs:9-76 | with an accepting engine the build succeeds and registers only gpg |
| Nnn.Artifact | src/artifact/nnn.rs:15-56 | name `nnn`, alias `nnn:5.1`, the four systems, `v5.1.tar.gz`; the step's artifacts are exactly `[ncurses, pkg_config, readline]` |
| Nnn.Build | src/artifact/nnn.rs:9-57 | returns the result of `Run`, appends exactly `Run`'s registrations to the log and never calls `context.run()` |
| Nnn.ScriptLines | src/artifact/nnn.rs:22-37 | the fifth line puts pkg-config's `bin` on PATH, and every other line, CPPFLAGS, LDFLAGS and PKG_CONFIG_PATH included, is the same whatever pkg-config's key is; those three name ncurses, then readline |
| Nnn.Run | src/artifact/nnn.rs:9-57 | `build` for the given handles: one registration, with no system check; it has no contract of its own, and `Nnn.RunOutcome` and `Nnn.Accepted` state what it does |
| Nnn.RunOutcome | src/artifact/nnn.rs:9-57 | the result is the engine's answer to the one artifact, which is the whole trace when accepted |
| Nnn.Accepted | src/artifact/nnn.rs:9-57 | with an accepting engine the build succeeds and registers only nnn |
| Readline.Artifact | src/artifact/readline.rs:10-40 | name `readline`, alias `readline:8.2`, the four systems, `ftpmirror.gnu.org/readline/readline-8.2.tar.gz`; the step's artifacts are exactly `[ncurses]` |
| Readline.ScriptLines | src/artifact/readline.rs:16-30 | CPPFLAGS has ncurses' `include` and `include/ncursesw`, LDFLAGS its `lib` rpath, and configure gets `--with-curses` |
| Readline.Build | src/artifact/readline.rs:9-41 | returns the result of `Run`, appends exactly `Run`'s registrations to the log and never calls `context.run()` |
| Readline.Run | src/artifact/readline.rs:9-41 | `build` for the given handles: one registration, with no system check; it has no contract of its own, and `Readline.RunOutcome` and `Readline.Accepted` state what it does |
| Readline.RunOutcome | src/artifact/readline.rs:9-41 | the result is the engine's answer to the one artifact, which is the whole trace when accepted |
| Readline.AnySystem | src/artifact/readline.rs:9-41 | the target system plays no part: there is no system check |
| Readline.Accepted | src/artifact/readline.rs:9-41 | with an accepting engine the build succeeds and registers only readline |
| Libassuan.Artifact | src/artifact/libassuan.rs:10-42 | name `libassuan`, alias `libassuan:3.0.2`, the four systems, `libassuan-3.0.2.tar.bz2`; the step's artifacts are exactly `[libgpg_error]` |
| Libassuan.ScriptLines | src/artifact/libassuan.rs:17-31 | PATH gains libgpg-error's `bin`, and configure gets `--with-libgpg-error-prefix=<key(libgpg_error)>` |
| Libassuan.Build | src/artifact/libassuan.rs:9-43 | returns the result of `Run`, appends exactly `Run`'s registrations to the log and never calls `context.run()` |
| Libassuan.Run | src/artifact/libassuan.rs:9-43 | `build` for the given handles: one registration, with no system check; it has no contract of its own, and `Libassuan.RunOutcome` and `Libassuan.Accepted` state what it does |
| Libassuan.RunOutcome | src/artifact/libassuan.rs:9-43 | the result is the engine's answer to the one artifact, which is the whole trace when accepted |
| Libassuan.AnySystem | src/artifact/libassuan.rs:9-43 | the target system plays no part: there is no system check |
| Libassuan.Accepted | src/artifact/libassuan.rs:9-43 | with an accepting engine the build succeeds and registers only libassuan |
| Libksba.Artifact | src/artifact/libksba.rs:13-44 | name `libksba`, alias `libksba:1.6.7`, the four systems, `libksba-1.6.7.tar.bz2`; the step's artifacts are exactly `[libgpg_error]` |
| Libksba.ScriptLines | src/artifact/libksba.rs:20-34 | configure gets `--with-libgpg-error-prefix=<key(libgpg_error)>` |
| Libksba.Build | src/artifact/libksba.rs:10-45 | returns the result of `Run`, appends exactly `Run`'s registrations to the log and never calls `context.run()` |
| Libksba.Run | src/artifact/libksba.rs:10-45 | `build`: a libgpg-error build, then the registration with its handle; it has no contract of its own, and `Libksba.RunOutcome` and `Libksba.Accepted` state what it does |
| Libksba.RunOutcome | src/artifact/libksba.rs:10-45 | libgpg-error is always built first: its failure is the result with nothing registered; otherwise its artifact comes first, then libksba's with its handle |
| Libksba.AnySystem | src/artifact/libksba.rs:10-45 | the target system plays no part: there is no system check |
| Libksba.Accepted | src/artifact/libksba.rs:10-45 | with an accepting engine the registrations are libgpg-error, then libksba |
| OpenapiGeneratorCli.Artifact | src/artifact/openapi_generator_cli.rs:10-64 | name `openapi-generator-cli`, alias `openapi-generator-cli:7.18.0`, the four systems, the maven `.jar`; the step's artifacts are exactly `[openjdk]` and its environments exactly `JAVA_HOME=<key(openjdk)>/Contents/Home`, `PATH=$JAVA_HOME/bin:$PATH` |
| OpenapiGeneratorCli.ScriptLines | src/artifact/openapi_generator_cli.rs:19-40 | the wrapper script sets the same `JAVA_HOME` as the step environment |
| OpenapiGeneratorCli.Build | src/artifact/openapi_generator_cli.rs:9-65 | returns the result of `Run`, appends exactly `Run`'s registrations to the log and never calls `context.run()` |
| OpenapiGeneratorCli.Run | src/artifact/openapi_generator_cli.rs:9-65 | `build` for the given handles: one registration, with no system check; it has no contract of its own, and `OpenapiGeneratorCli.RunOutcome` and `OpenapiGeneratorCli.Accepted` state what it does |
| OpenapiGeneratorCli.RunOutcome | src/artifact/openapi_generator_cli.rs:9-65 | the result is the engine's answer to the one artifact, which is the whole trace when accepted |
| OpenapiGeneratorCli.AnySystem | src/artifact/openapi_generator_cli.rs:9-65 | the target system plays no part: there is no system check |
| OpenapiGeneratorCli.Accepted | src/artifact/openapi_generator_cli.rs:9-65 | with an accepting engine the build succeeds and registers only openapi-generator-cli |
| Sdk.Registered | src/artifact/argocd.rs:46-50 | `Artifact::build(context)`: the result is the engine's answer, and the spec is registered exactly when accepted |
| Sdk.Context.constructor | src/vorpal.rs:15 | the context `get_context` yields: its system, keys, engine and run result, with an empty log and no run yet |
| Sdk.Context.Register | src/artifact/argocd.rs:46-50 | registration returns the engine's answer and appends the spec to the log exactly when accepted; `context.run()` is not called |
| Sdk.Context.BuildForeign | src/vorpal.rs:19-21 | a builder outside the model (the development environment and the tools whose recipes are not modelled) returns its outcome and appends its registrations |
| Sdk.Context.Run | src/vorpal.rs:77 | `context.run()` returns the engine's run result, leaves the log alone and counts one run |
| Vorpal.SucceedsIffAll | src/vorpal.rs:19-75 | a chain of `?` calls succeeds exactly when every call does |
| Vorpal.AllRegistered | src/vorpal.rs:19-75 | when every call in a chain succeeds, every call's registrations are kept, in order |
| Vorpal.FirstFailure | src/vorpal.rs:19-75 | the first failing call decides a chain: its error, and the registrations up to and including it |
| Vorpal.Joined | src/vorpal.rs:19-75 | running two lists of calls one after the other is running their concatenation |
| Vorpal.Finish | src/vorpal.rs:77 | `context.run()` is reached exactly when the calls succeeded, and its result is then `main`'s; otherwise the first error is |
| Vorpal.BuildLibraries0 | src/vorpal.rs:25-28 | libevent, libgpg-error, libassuan, libgcrypt, with libgpg-error's handle passed to the next two; the result and log are those of the chain of their outcomes |
| Vorpal.BuildLibraries1 | src/vorpal.rs:29-31 | libksba, ncurses, npth; the result and log are those of the chain of their outcomes |
| Vorpal.BuildLibraries2 | src/vorpal.rs:32-34 | openjdk, pkg-config, then readline given ncurses' handle; the result and log are those of the chain of their outcomes |
| Vorpal.BuildLibraries | src/vorpal.rs:25-34 | the ten library calls in order; on success every handle kept is the handle of that call's outcome |
| Vorpal.BuildTools0 | src/vorpal.rs:36-40 | argocd, awscli2, bat, bottom, crane, in order, stopping at the first failure |
| Vorpal.BuildTools1 | src/vorpal.rs:41-45 | cue, direnv, doppler, fd, fluxcd, in order, stopping at the first failure |
| Vorpal.BuildTools2 | src/vorpal.rs:46-58 | golangci-lint, gpg with the five kept handles, helm, jq, just, in order, stopping at the first failure |
| Vorpal.BuildTools3 | src/vorpal.rs:59-63 | k9s, kn, kubectl, kubeseal, lazygit, in order, stopping at the first failure |
| Vorpal.BuildTools4 | src/vorpal.rs:64-68 | neovim, nginx, nnn with ncurses', pkg-config's and readline's handles, openapi-generator-cli with openjdk's, ripgrep |
| Vorpal.BuildTools5 | src/vorpal.rs:69-73 | skopeo, starship, terraform, tmux with libevent's and ncurses' handles, umoci |
| Vorpal.BuildTools6 | src/vorpal.rs:74-75 | yq, then zsh with ncurses' handle |
| Vorpal.BuildFirst | src/vorpal.rs:19-63 | the development environment, the libraries and the first tools, as one chain; on success the kept handles are those of the library calls |
| Vorpal.BuildSecond | src/vorpal.rs:64-75 | the remaining tools, as one chain, given the kept handles |
| Vorpal.Calls | src/vorpal.rs:19-75 | the 43 call outcomes of `main` in call order; it has no contract of its own, and `VorpalProperties.CallOrder` states its length and first entries |
| Vorpal.Main | src/vorpal.rs:14-78 | `main` as a value: the calls chained with `?`, then `context.run()`; it has no contract of its own, and `Vorpal.Configure`, `VorpalProperties.RunsIffAllSucceed`, `VorpalProperties.AllSucceed` and `VorpalProperties.FailFast` state what it does |
| Vorpal.Configure | src/vorpal.rs:14-78 | `main`: its result is `Main`'s, the log grows by exactly `Main`'s registrations, and `context.run()` is called once when every call succeeded and never otherwise |
| VorpalProperties.CallOrder | src/vorpal.rs:19-75 | 43 calls: the development environment first, then the ten libraries, then the tools |
| VorpalProperties.RunsIffAllSucceed | src/vorpal.rs:15-77 | `context.run()` is reached exactly when every call succeeds |
| VorpalProperties.AllSucceed | src/vorpal.rs:25-77 | when every call succeeds, `main` returns the run result and keeps every registration in call order |
| VorpalProperties.FailFast | src/vorpal.rs:19-77 | the first failing call ends `main` with its error and the registrations up to it; later calls and `context.run()` are not reached |
| VorpalProperties.DevFails | src/vorpal.rs:19-21 | a failing development environment ends `main` before any library or tool is built |
| VorpalProperties.GpgErrorShared | src/vorpal.rs:26-29 | libassuan and libgcrypt get libgpg-error's handle and register only themselves; libksba builds libgpg-error a second time |
| VorpalProperties.GpgUsesKeptHandles | src/vorpal.rs:47-55 | gpg's step lists the handles of `main`'s own libassuan, libgcrypt, libgpg-error, libksba and npth calls, in that order |
| VorpalProperties.NcursesShared | src/vorpal.rs:30-66 | readline and nnn use the handle of `main`'s one ncurses call, and nnn its readline and pkg-config handles |
| VorpalProperties.NcursesInjected | src/vorpal.rs:72-75 | tmux and zsh are handed `main`'s ncurses (tmux also libevent) and build neither again |
| VorpalProperties.OpenjdkShared | src/vorpal.rs:67 | openapi-generator-cli is registered with `main`'s openjdk handle |

## Left out

- Handles are opaque values. `get_env_key` is a function on them that the context supplies, and
  the engine's answer to a registration is another such function. The model does not compute
  digests, content addressing or de-duplication: libwebsockets with empty slots registers cmake
  three times, and the model says so.
- `step::shell` is the `Shell` constructor, and it cannot fail. The `?` after it in every recipe is
  therefore not modelled: an SDK failure while preparing a step is not part of this model.
- Scripts are sequences of lines, written as the `formatdoc!` template gives them after dedenting
  and substitution. A line ending in `\` is kept as its own line with the backslash. In the real
  string, Rust's escape joins it to the next line. The lemmas speak about the lines, not about
  shell words.
- String literals longer than about 30 characters are written as concatenated pieces, cut at
  a space or after a `/`. The error messages and most contract literals stay whole. The pieces
  keep each literal's value and only change how it is spelled. Long literals make the solver
  slower than short ones do.
- Shell semantics, downloads, archive extraction and the engine's execution of steps are outside
  the code and are not modelled.
- `get_context` becomes the `Context` constructor, whose arguments stand for what the engine
  provides. The `?` on `get_context` is not modelled.
- The recipes whose files are not part of this model are not modelled; they are outcomes the context
  supplies (`Context.BuildForeign`). These are `ProjectEnvironment` (src/lib.rs), crane, kn,
  kubectl, nginx, skopeo, umoci and the `LinuxVorpal` builder that linux-vorpal-slim falls back on.
- `Vorpal.Configure`: the recipe outcomes are linked to `main`'s calls through the ghost argument `o`.
  It must satisfy `Faithful`: each field is the outcome of that recipe's `Run`, given the handles
  of the earlier calls that `main` passes on. The whole-run lemmas are stated over `Calls(env, o)`
  and `Main(env, o)`.
- `Vorpal.BuildLibraries0` to `Vorpal.BuildLibraries2`, `Vorpal.BuildTools0` to `Vorpal.BuildTools6`,
  `Vorpal.BuildFirst` and `Vorpal.BuildSecond`: this grouping of `main`'s lines is the model's
  own. The calls, their order and their arguments are `main`'s.
- `main` as written does not match the recipes' own signatures:
  - Every call to a recipe that is a struct uses a free `build` function that its file does not
    define. These are src/vorpal.rs:25 (libevent), 26 (libgpg-error), 28 (libgcrypt), 31 (npth),
    32 (openjdk), 36 (argocd), 41 (cue), 43 (doppler), 62 (kubeseal), 63 (lazygit),
    64 (neovim), 69 (skopeo), 72 (tmux), 73 (umoci), 74 (yq) and 75 (zsh). The same holds for
    src/artifact/libksba.rs:11, which calls `libgpg_error::build(context)`. The model takes
    each such call to be the struct's `new().build(context)` with the slots `main` fills, and
    takes libksba's call to be `LibgpgError::new().build(context)`.
  - src/vorpal.rs:29 passes libgpg-error's handle to `libksba::build`, which takes none.
  - tmux and zsh name an `Ncurses` struct where `ncurses.rs` has a free function.

  The model gives each recipe its own file's behaviour. For libgcrypt, tmux and zsh, `main` fills
  the slots with the handles it passes. libksba ignores the handle and builds libgpg-error
  itself, as its file does. The model does not claim that `main` type-checks.
- Ownership is not modelled. `main` moves the openjdk handle into openapi-generator-cli and lends
  the others, but the model treats all handles as plain values.
- The unit structs of the dispatch and leaf recipes have a `new()` with no state. It is not
  modelled, and their `Build` methods take only the context.
- Some `Artifact` functions take an `env` parameter they do not use (libevent, libgpg-error,
  ncurses, npth, pkg-config, ffmpeg, sqlite3, zlib), and some take the key function without
  calling it. The target system plays no part in those recipes, which each `AnySystem` lemma
  states.
- The async runtime is not modelled. The `.await`s are sequential, and nothing runs
  concurrently.
