/**
 The validation gate and build/publish pipeline: three requirement checks in a
 fixed order, a gate that is the conjunction of their outcomes, one build when
 the gate passes, and one push per configured registry whose failures are logged
 and never escalated.

 The collaborators (the checks, the build and the pushes) are not modelled; what
 they return is given by an `Oracle`, and what the pipeline does with them is
 recorded as a trace of `Event`s.
 */
module Carpentry {
  import opened Wrappers
  import opened Dto
  import opened Trace

  /** What the collaborators return during one run. `push(i)` is the outcome of the
      push attempt for the registry at position `i`. */
  datatype Oracle = Oracle(
    basic: Result<bool, Error>,
    containerfile: Result<bool, Error>,
    language: Result<bool, Error>,
    build: Option<Error>,
    push: nat -> Option<Error>)

  /** The pipeline's result `(passed, err)` together with the trace of the run. */
  datatype Outcome = Outcome(passed: bool, err: Option<Error>, trace: seq<Event>)

  function CheckResult(env: Oracle, c: Check): Result<bool, Error>
  {
    match c
    case Basic => env.basic
    case Containerfile => env.containerfile
    case Language => env.language
  }

  /** The call that runs check `c`, with the arguments the pipeline forwards to it. */
  function CheckCall(c: Check, conf: Carpenter, abspath: string, filenames: seq<string>): Call
  {
    match c
    case Basic => BasicRequirements(filenames)
    case Containerfile => ContainerfileRequirements(abspath)
    case Language => LanguageRequirements(abspath, filenames, conf.imageName, conf.imageTag)
  }

  /** The build call made once every check has passed. */
  function BuildCall(buildImg: bool, conf: Carpenter, abspath: string): Call
  {
    BuildImage(buildImg, true, abspath, conf.imageName, conf.imageTag, conf.quayImgExp)
  }

  /** The push call made for registry `r` once the build has succeeded. */
  function PushCall(buildImg: bool, pushImg: bool, conf: Carpenter, r: Registry): Call
  {
    PushImage(true, buildImg, pushImg, conf.imageName, conf.imageTag, r.username, r.password, r.url, r.namespace)
  }

  /** The invocations of the first `n` checks, in check order. */
  function ChecksTrace(n: nat, conf: Carpenter, abspath: string, filenames: seq<string>): seq<Event>
    requires n <= |CheckOrder|
  {
    if n == 0 then []
    else ChecksTrace(n - 1, conf, abspath, filenames) + [Invoked(CheckCall(CheckOrder[n - 1], conf, abspath, filenames))]
  }

  /** One iteration of the push loop: the push for registry `i`, then its error if it failed. */
  function PushStep(buildImg: bool, pushImg: bool, conf: Carpenter, env: Oracle, i: nat): seq<Event>
    requires i < |conf.registries|
  {
    [Invoked(PushCall(buildImg, pushImg, conf, conf.registries[i]))] +
    match env.push(i)
    case Some(e) => [Logged(e)]
    case None => []
  }

  /** The first `n` iterations of the push loop. */
  function PushPhase(buildImg: bool, pushImg: bool, conf: Carpenter, env: Oracle, n: nat): seq<Event>
    requires n <= |conf.registries|
  {
    if n == 0 then []
    else PushPhase(buildImg, pushImg, conf, env, n - 1) + PushStep(buildImg, pushImg, conf, env, n - 1)
  }

  /** The error push attempt `i` returned, if any. */
  function PushError(env: Oracle, i: nat): seq<Error>
  {
    match env.push(i)
    case Some(e) => [e]
    case None => []
  }

  /** The errors returned by the first `n` push attempts, in attempt order. */
  function FailedPushErrors(env: Oracle, n: nat): seq<Error>
  {
    if n == 0 then [] else FailedPushErrors(env, n - 1) + PushError(env, n - 1)
  }

  /** The positions among the first `n` push attempts that failed. */
  function FailedAttempts(env: Oracle, n: nat): set<nat>
  {
    set i: nat | i < n && env.push(i).Some?
  }

  /** The run of the pipeline on the given inputs: the result and the trace. */
  function Run(buildImg: bool, pushImg: bool, conf: Carpenter, abspath: string, filenames: seq<string>,
               env: Oracle): (o: Outcome)
    ensures o.err.Some? ==> !o.passed
  {
    match env.basic
    case Failure(e) => Outcome(false, Some(e), ChecksTrace(1, conf, abspath, filenames))
    case Success(basicReqs) =>
      match env.containerfile
      case Failure(e) => Outcome(false, Some(e), ChecksTrace(2, conf, abspath, filenames))
      case Success(containerReqs) =>
        match env.language
        case Failure(e) => Outcome(false, Some(e), ChecksTrace(3, conf, abspath, filenames))
        case Success(langReq) =>
          var checked := ChecksTrace(3, conf, abspath, filenames);
          if !(basicReqs && containerReqs && langReq) then Outcome(false, None, checked)
          else
            var built := checked + [Invoked(BuildCall(buildImg, conf, abspath))];
            match env.build
            case Some(e) => Outcome(false, Some(e), built)
            case None => Outcome(true, None, built + PushPhase(buildImg, pushImg, conf, env, |conf.registries|))
  }

  /** True exactly when every entry of `checks` is true; true for an empty array. */
  method AllTrue(checks: array<bool>) returns (r: bool)
    ensures r <==> forall i :: 0 <= i < checks.Length ==> checks[i]
  {
    for i := 0 to checks.Length
      invariant forall j :: 0 <= j < i ==> checks[j]
    {
      if !checks[i] {
        return false;
      }
    }
    return true;
  }

  /** The pipeline itself, step by step; its result and trace are those of `Run`. */
  method Carpentry(buildImg: bool, pushImg: bool, conf: Carpenter, abspath: string, filenames: seq<string>,
                   env: Oracle)
    returns (passed: bool, err: Option<Error>, trace: seq<Event>)
    ensures Outcome(passed, err, trace) == Run(buildImg, pushImg, conf, abspath, filenames, env)
  {
    var meetsReqs := new bool[3];
    trace := [Invoked(BasicRequirements(filenames))];
    assert trace == ChecksTrace(1, conf, abspath, filenames);
    var basicReqs := env.basic;
    if basicReqs.Failure? {
      return false, Some(basicReqs.error), trace;
    }
    meetsReqs[0] := basicReqs.value;
    trace := trace + [Invoked(ContainerfileRequirements(abspath))];
    assert trace == ChecksTrace(2, conf, abspath, filenames);
    var containerReqs := env.containerfile;
    if containerReqs.Failure? {
      return false, Some(containerReqs.error), trace;
    }
    meetsReqs[1] := containerReqs.value;
    trace := trace + [Invoked(LanguageRequirements(abspath, filenames, conf.imageName, conf.imageTag))];
    assert trace == ChecksTrace(3, conf, abspath, filenames);
    var langReq := env.language;
    if langReq.Failure? {
      return false, Some(langReq.error), trace;
    }
    meetsReqs[2] := langReq.value;
    var allChecks := AllTrue(meetsReqs);
    if !allChecks {
      return false, None, trace;
    }
    assert meetsReqs[0] && meetsReqs[1] && meetsReqs[2];
    trace := trace + [Invoked(BuildImage(buildImg, allChecks, abspath, conf.imageName, conf.imageTag, conf.quayImgExp))];
    var buildErr := env.build;
    if buildErr.Some? {
      return false, buildErr, trace;
    }
    ghost var built := trace;
    for i := 0 to |conf.registries|
      invariant trace == built + PushPhase(buildImg, pushImg, conf, env, i)
    {
      var registry := conf.registries[i];
      trace := trace + [Invoked(PushImage(allChecks, buildImg, pushImg, conf.imageName, conf.imageTag,
                                          registry.username, registry.password, registry.url, registry.namespace))];
      var pushErr := env.push(i);
      if pushErr.Some? {
        trace := trace + [Logged(pushErr.value)];
      }
    }
    return true, None, trace;
  }
}
