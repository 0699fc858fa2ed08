# Carpentry: the validation gate and build/publish pipeline

This project models the core of an image builder, `Carpentry` and its helper
`AllTrue` in `internal/carpentry/carpentry.go`, and proves properties about it.
`Carpentry` runs three requirement checks in a fixed order: basic, then
Containerfile, then language. The first check that fails to complete aborts
the run with its error. A check that completes with `false` does not stop the
others. The three outcomes are combined by `AllTrue` into one gate value. If
the gate is closed the run returns `(false, nil)`. If it is open, the image is
built once. A build error is fatal. Then one push is attempted per configured
registry, in list order. Push errors are logged and never returned, and the
run returns `(true, nil)`.

The collaborators (`BasicRequirements`, `ContainerfileRequirements`,
`LanguageRequirements`, `BuildImage`, `PushImage`) are oracles. A
`Carpentry.Oracle` value supplies what each one returns: a
`Result<bool, Error>` per check, an `Option<Error>` for the build, and an
`Option<Error>` for each push attempt, indexed by the registry's position. A
run produces its Go result `(passed, err)` together with a trace of
`Trace.Event`s. Each event is either a collaborator invocation carrying the
configuration, path, file-name and flag arguments passed to it, or an error written to the logger. Ordering, "called
exactly once" and "never called" properties are statements about that trace.

Files:
- `wrappers.dfy`: `Option` (with `None` for Go's `nil`) and `Result`.
- `dto.dfy`: the configuration `Carpenter`, its `Registry` entries, and `Error`.
- `trace.dfy`: checks, calls, events, and the projections `ChecksInvoked`,
  `BuildsInvoked`, `PushesInvoked` and `ErrorsLogged` of a trace.
- `carpentry.dfy`: the specification function `Run`, the imperative method
  `Carpentry`, and `AllTrue`. `Carpentry` fills a three-element `array<bool>`
  in place, returns early on errors, and loops over the registries. The method
  is proved to produce exactly `Run`'s result and trace.
- `properties.dfy`: the properties of `Run` (and so, of the method).

Modelling decisions tied to the source:
- A check's error is returned as is (carpentry.go:23, 28, 34), and so is a
  build error (line 43).
- Push errors are only written to the logger (line 48). `ErrorsLogged` lists
  them in trace order.
- The `build_img && all_checks` and `push_img` gates sit inside `BuildImage`
  and `PushImage`, which are not part of this model. The model records only
  that `Carpentry` calls them and which flags it passes: `all_checks` (always
  `true` at those points), `build_img` and `push_img`.

## Model

| member | source | states |
|---|---|---|
| Carpentry.AllTrue | internal/carpentry/carpentry.go:54-61 | the result is true exactly when every element of the array is true; an empty array yields true |
| Carpentry.Carpentry | internal/carpentry/carpentry.go:16-52 | the step-by-step pipeline (slice of three outcomes filled in place, early returns, push loop) returns exactly the result and trace of `Run`, so every lemma below holds of it |
| Carpentry.Run | internal/carpentry/carpentry.go:16-52 | whenever an error is returned, the returned bool is false |
| CarpentryProperties.ChecksTraceContents | internal/carpentry/carpentry.go:20-36 | the check phase up to check `n` invokes the first `n` checks in order, and makes no build or push call and logs nothing |
| CarpentryProperties.CheckErrorAborts | internal/carpentry/carpentry.go:21-35 | if check `k` is the first to return an error, the run returns `(false, that error)` unchanged, and the trace ends with that check: no later check, no build, no push |
| CarpentryProperties.ChecksRunInOrder | internal/carpentry/carpentry.go:20-36 | when no check errors, the first three events are the three checks in order basic, Containerfile, language, and each check is invoked exactly once in the whole run, whatever booleans they return |
| CarpentryProperties.GateFailedSkipsBuild | internal/carpentry/carpentry.go:37-40 | when no check errors but one returns false, the result is `(false, nil)` after the three checks, with no build call, no push call and nothing logged |
| CarpentryProperties.BuildInvokedOnce | internal/carpentry/carpentry.go:41-44 | when all checks pass, the build is invoked exactly once with `all_checks` true and the caller's `build_img`, path, image name, tag and expiry; a build error is returned unchanged and no push is attempted |
| CarpentryProperties.PushStepContents | internal/carpentry/carpentry.go:45-50 | one loop iteration makes exactly the push for its registry and logs that push's error if it returned one |
| CarpentryProperties.PushPhaseContents | internal/carpentry/carpentry.go:45-50 | the loop makes one push per registry in list order, duplicates included, forwarding the flags and that registry's credentials, URL and namespace; it logs exactly the push errors, in order, and calls no check or build |
| CarpentryProperties.FailedPushErrorsCount | internal/carpentry/carpentry.go:46-49 | the number of errors collected from the push attempts equals the number of attempts that failed |
| CarpentryProperties.PushesEveryRegistry | internal/carpentry/carpentry.go:45-51 | after passing checks and a successful build, the build is the fourth event and every push comes after it; every registry gets exactly one push in order regardless of earlier push failures, the run returns `(true, nil)` even if all pushes fail, and the errors logged are the failed pushes' errors, one per failure |
| CarpentryProperties.SucceedsExactlyWhenGateAndBuildPass | internal/carpentry/carpentry.go:37-51 | the run returns `(true, nil)` if and only if all three checks return true without error and the build returns no error; passed implies no error; a returned error is one a check or the build returned |
| CarpentryProperties.ExampleLanguageCheckFails | internal/carpentry/carpentry.go:31-40 | basic and Containerfile pass and the language check returns false: `(false, nil)`, with no build and no push |
| CarpentryProperties.ExampleFirstOfTwoPushesFails | internal/carpentry/carpentry.go:45-51 | two registries, the first push fails and the second succeeds: `(true, nil)`, two push attempts, and the first push's error is the only one logged |

## Left out

- `CliCarpentry` (configuration unmarshalling, path cleaning, reading the
  project directory, choosing the container-engine client by name, error
  wrapping, process termination through `log.Fatalf`): I/O plumbing around the
  core.
- The bodies of the requirement checks, the style checker and `BuildImage` and
  `PushImage` (filesystem access, subprocesses, the container engine): these
  are oracle results, not modelled code. The injected style-checker function,
  the logger and the container-engine client `cec` are collaborator arguments
  and do not appear in the trace's call records.
- The check oracles do not depend on the arguments passed to the checks. Those
  arguments are fixed for a run, and the trace records them on each call.
- Logger formatting (`Errorf("(%w)", …)`): a log entry is modelled as a
  `Logged(error)` event.
- Running the pipeline twice with the same inputs gives the same result. This
  holds by construction, since `Run` is a function of its inputs, so no lemma
  states it.
- `internal/dto/env_test.go` (environment-variable lookup): outside the core.
