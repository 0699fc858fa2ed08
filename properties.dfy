/** What a run of the pipeline does, stated over `Carpentry.Run` and its trace. */
module CarpentryProperties {
  import opened Wrappers
  import opened Dto
  import opened Trace
  import opened Carpentry

  lemma CollectSingle<U>(e: Event, f: Event -> seq<U>)
    ensures Collect([e], f) == f(e)
  {
  }

  /** The check prefix of a trace invokes the first `n` checks in order and nothing else. */
  lemma {:induction false} ChecksTraceContents(n: nat, conf: Carpenter, abspath: string, filenames: seq<string>)
    requires n <= |CheckOrder|
    ensures var t := ChecksTrace(n, conf, abspath, filenames);
      |t| == n && ChecksInvoked(t) == CheckOrder[..n] && BuildsInvoked(t) == [] &&
      PushesInvoked(t) == [] && ErrorsLogged(t) == []
  {
    if n > 0 {
      var prev := ChecksTrace(n - 1, conf, abspath, filenames);
      var e := Invoked(CheckCall(CheckOrder[n - 1], conf, abspath, filenames));
      ChecksTraceContents(n - 1, conf, abspath, filenames);
      CollectAppend(prev, [e], CheckOf);
      CollectAppend(prev, [e], BuildOf);
      CollectAppend(prev, [e], PushOf);
      CollectAppend(prev, [e], ErrorOf);
      CollectSingle(e, CheckOf);
      CollectSingle(e, BuildOf);
      CollectSingle(e, PushOf);
      CollectSingle(e, ErrorOf);
      assert CheckOrder[..n] == CheckOrder[..n - 1] + [CheckOrder[n - 1]];
    }
  }

  /** One iteration of the push loop makes exactly the push for registry `i`, and logs the
      error that push returned, if any. */
  lemma PushStepContents(buildImg: bool, pushImg: bool, conf: Carpenter, env: Oracle, i: nat)
    requires i < |conf.registries|
    ensures var s := PushStep(buildImg, pushImg, conf, env, i);
      && ChecksInvoked(s) == [] && BuildsInvoked(s) == []
      && PushesInvoked(s) == [PushCall(buildImg, pushImg, conf, conf.registries[i])]
      && ErrorsLogged(s) == PushError(env, i)
  {
    var e := Invoked(PushCall(buildImg, pushImg, conf, conf.registries[i]));
    match env.push(i)
    case None =>
      assert PushStep(buildImg, pushImg, conf, env, i) == [e];
      CollectSingle(e, CheckOf);
      CollectSingle(e, BuildOf);
      CollectSingle(e, PushOf);
      CollectSingle(e, ErrorOf);
    case Some(err) =>
      var l := Logged(err);
      assert PushStep(buildImg, pushImg, conf, env, i) == [e, l];
      assert [e, l][1..] == [l];
      CollectSingle(l, CheckOf);
      CollectSingle(l, BuildOf);
      CollectSingle(l, PushOf);
      CollectSingle(l, ErrorOf);
  }

  /** The push loop makes one push per registry, in list order, forwarding the flags and the
      registry's fields, invokes no check and no build, and logs exactly the errors the
      pushes returned, in order. */
  lemma {:induction false} PushPhaseContents(buildImg: bool, pushImg: bool, conf: Carpenter, env: Oracle, n: nat)
    requires n <= |conf.registries|
    ensures var p := PushPhase(buildImg, pushImg, conf, env, n);
      && ChecksInvoked(p) == [] && BuildsInvoked(p) == []
      && |PushesInvoked(p)| == n
      && (forall i :: 0 <= i < n ==> PushesInvoked(p)[i] == PushCall(buildImg, pushImg, conf, conf.registries[i]))
      && ErrorsLogged(p) == FailedPushErrors(env, n)
  {
    if n > 0 {
      var prev := PushPhase(buildImg, pushImg, conf, env, n - 1);
      var step := PushStep(buildImg, pushImg, conf, env, n - 1);
      PushPhaseContents(buildImg, pushImg, conf, env, n - 1);
      PushStepContents(buildImg, pushImg, conf, env, n - 1);
      CollectAppend(prev, step, CheckOf);
      CollectAppend(prev, step, BuildOf);
      CollectAppend(prev, step, PushOf);
      CollectAppend(prev, step, ErrorOf);
    }
  }

  /** One error is logged per failed push attempt. */
  lemma {:induction false} FailedPushErrorsCount(env: Oracle, n: nat)
    ensures |FailedPushErrors(env, n)| == |FailedAttempts(env, n)|
  {
    if n > 0 {
      FailedPushErrorsCount(env, n - 1);
      assert n - 1 !in FailedAttempts(env, n - 1);
      if env.push(n - 1).Some? {
        assert FailedAttempts(env, n) == FailedAttempts(env, n - 1) + {n - 1};
      } else {
        assert FailedAttempts(env, n) == FailedAttempts(env, n - 1);
      }
    }
  }

  /** An execution error from check `k` is returned unchanged, and after that check nothing
      is invoked: no later check, no build, no push. */
  lemma CheckErrorAborts(buildImg: bool, pushImg: bool, conf: Carpenter, abspath: string,
                         filenames: seq<string>, env: Oracle, k: nat, e: Error)
    requires k < |CheckOrder|
    requires forall j :: 0 <= j < k ==> CheckResult(env, CheckOrder[j]).Success?
    requires CheckResult(env, CheckOrder[k]) == Failure(e)
    ensures var o := Run(buildImg, pushImg, conf, abspath, filenames, env);
      && o.passed == false && o.err == Some(e)
      && o.trace == ChecksTrace(k + 1, conf, abspath, filenames)
      && ChecksInvoked(o.trace) == CheckOrder[..k + 1]
      && BuildsInvoked(o.trace) == [] && PushesInvoked(o.trace) == []
  {
    ChecksTraceContents(k + 1, conf, abspath, filenames);
    if k > 0 {
      assert CheckResult(env, CheckOrder[0]).Success?;
    }
    if k > 1 {
      assert CheckResult(env, CheckOrder[1]).Success?;
    }
  }

  /** When no check errors, each check is invoked exactly once, basic, then Containerfile,
      then language, before anything else happens; a failing check does not stop the others. */
  lemma ChecksRunInOrder(buildImg: bool, pushImg: bool, conf: Carpenter, abspath: string,
                         filenames: seq<string>, env: Oracle)
    requires env.basic.Success? && env.containerfile.Success? && env.language.Success?
    ensures var o := Run(buildImg, pushImg, conf, abspath, filenames, env);
      && |o.trace| >= 3
      && o.trace[..3] == ChecksTrace(3, conf, abspath, filenames)
      && ChecksInvoked(o.trace) == CheckOrder
  {
    var o := Run(buildImg, pushImg, conf, abspath, filenames, env);
    var checked := ChecksTrace(3, conf, abspath, filenames);
    ChecksTraceContents(3, conf, abspath, filenames);
    assert CheckOrder[..3] == CheckOrder;
    assert o.trace[..3] == checked by {
      assert o.trace == checked + o.trace[3..];
    }
    if o.trace != checked {
      var built := checked + [Invoked(BuildCall(buildImg, conf, abspath))];
      var e := Invoked(BuildCall(buildImg, conf, abspath));
      CollectAppend(checked, [e], CheckOf);
      CollectSingle(e, CheckOf);
      if o.trace != built {
        var p := PushPhase(buildImg, pushImg, conf, env, |conf.registries|);
        assert o.trace == built + p;
        CollectAppend(built, p, CheckOf);
        PushPhaseContents(buildImg, pushImg, conf, env, |conf.registries|);
      }
    }
  }

  /** When no check errors but one reports failure, the result is `(false, nil)` and neither
      the build nor any push is invoked. */
  lemma GateFailedSkipsBuild(buildImg: bool, pushImg: bool, conf: Carpenter, abspath: string,
                             filenames: seq<string>, env: Oracle)
    requires env.basic.Success? && env.containerfile.Success? && env.language.Success?
    requires !(env.basic.value && env.containerfile.value && env.language.value)
    ensures var o := Run(buildImg, pushImg, conf, abspath, filenames, env);
      && o == Outcome(false, None, ChecksTrace(3, conf, abspath, filenames))
      && BuildsInvoked(o.trace) == [] && PushesInvoked(o.trace) == [] && ErrorsLogged(o.trace) == []
  {
    ChecksTraceContents(3, conf, abspath, filenames);
  }

  /** When every check passes, the build is invoked exactly once with `allChecks` true and the
      caller's `buildImg` flag; a build error is returned unchanged and no push is attempted. */
  lemma BuildInvokedOnce(buildImg: bool, pushImg: bool, conf: Carpenter, abspath: string,
                         filenames: seq<string>, env: Oracle)
    requires env.basic == Success(true) && env.containerfile == Success(true) && env.language == Success(true)
    ensures var o := Run(buildImg, pushImg, conf, abspath, filenames, env);
      BuildsInvoked(o.trace) == [BuildImage(buildImg, true, abspath, conf.imageName, conf.imageTag, conf.quayImgExp)]
    ensures env.build.Some? ==>
      var o := Run(buildImg, pushImg, conf, abspath, filenames, env);
      && o.passed == false && o.err == env.build
      && o.trace == ChecksTrace(3, conf, abspath, filenames) + [Invoked(BuildCall(buildImg, conf, abspath))]
      && PushesInvoked(o.trace) == []
  {
    var checked := ChecksTrace(3, conf, abspath, filenames);
    var e := Invoked(BuildCall(buildImg, conf, abspath));
    var built := checked + [e];
    ChecksTraceContents(3, conf, abspath, filenames);
    CollectAppend(checked, [e], BuildOf);
    CollectAppend(checked, [e], PushOf);
    CollectSingle(e, BuildOf);
    CollectSingle(e, PushOf);
    if env.build.None? {
      var p := PushPhase(buildImg, pushImg, conf, env, |conf.registries|);
      CollectAppend(built, p, BuildOf);
      PushPhaseContents(buildImg, pushImg, conf, env, |conf.registries|);
    }
  }

  /** After the checks pass and the build succeeds, every registry gets exactly one push
      attempt, in list order and duplicates included, whatever earlier pushes returned; the
      run returns `(true, nil)` and logs one error per failed push. */
  lemma PushesEveryRegistry(buildImg: bool, pushImg: bool, conf: Carpenter, abspath: string,
                            filenames: seq<string>, env: Oracle)
    requires env.basic == Success(true) && env.containerfile == Success(true) && env.language == Success(true)
    requires env.build.None?
    ensures var o := Run(buildImg, pushImg, conf, abspath, filenames, env);
      && |o.trace| >= 4 && o.trace[3] == Invoked(BuildCall(buildImg, conf, abspath))
      && PushesInvoked(o.trace[..4]) == []
      && ChecksInvoked(o.trace[4..]) == [] && BuildsInvoked(o.trace[4..]) == []
    ensures var o := Run(buildImg, pushImg, conf, abspath, filenames, env);
      && o.passed && o.err.None?
      && |PushesInvoked(o.trace)| == |conf.registries|
      && (forall i :: 0 <= i < |conf.registries| ==>
            PushesInvoked(o.trace)[i] == PushCall(buildImg, pushImg, conf, conf.registries[i]))
      && ErrorsLogged(o.trace) == FailedPushErrors(env, |conf.registries|)
      && |ErrorsLogged(o.trace)| == |FailedAttempts(env, |conf.registries|)|
  {
    var n := |conf.registries|;
    var checked := ChecksTrace(3, conf, abspath, filenames);
    var e := Invoked(BuildCall(buildImg, conf, abspath));
    var built := checked + [e];
    var p := PushPhase(buildImg, pushImg, conf, env, n);
    ChecksTraceContents(3, conf, abspath, filenames);
    PushPhaseContents(buildImg, pushImg, conf, env, n);
    FailedPushErrorsCount(env, n);
    var o := Run(buildImg, pushImg, conf, abspath, filenames, env);
    assert o.trace == built + p;
    assert o.trace[..4] == built;
    assert o.trace[4..] == p;
    CollectAppend(checked, [e], PushOf);
    CollectAppend(checked, [e], ErrorOf);
    CollectAppend(built, p, PushOf);
    CollectAppend(built, p, ErrorOf);
    CollectSingle(e, PushOf);
    CollectSingle(e, ErrorOf);
  }

  /** The run reports success exactly when all three checks complete with true and the build
      returns no error; any returned error is one a check or the build returned. */
  lemma SucceedsExactlyWhenGateAndBuildPass(buildImg: bool, pushImg: bool, conf: Carpenter, abspath: string,
                                            filenames: seq<string>, env: Oracle)
    ensures var o := Run(buildImg, pushImg, conf, abspath, filenames, env);
      (o.passed && o.err.None?) <==>
      (env.basic == Success(true) && env.containerfile == Success(true) && env.language == Success(true) &&
       env.build.None?)
    ensures var o := Run(buildImg, pushImg, conf, abspath, filenames, env);
      o.passed ==> o.err.None?
    ensures var o := Run(buildImg, pushImg, conf, abspath, filenames, env);
      o.err.Some? ==>
        env.basic == Failure(o.err.value) || env.containerfile == Failure(o.err.value) ||
        env.language == Failure(o.err.value) || env.build == o.err
  {
  }

  /** Checks basic and Containerfile pass, the language check fails: `(false, nil)`, and
      neither the build nor a push is invoked. */
  lemma ExampleLanguageCheckFails(buildImg: bool, pushImg: bool, conf: Carpenter, abspath: string,
                                  filenames: seq<string>, build: Option<Error>, push: nat -> Option<Error>)
    ensures var o := Run(buildImg, pushImg, conf, abspath, filenames,
                         Oracle(Success(true), Success(true), Success(false), build, push));
      o.passed == false && o.err.None? && BuildsInvoked(o.trace) == [] && PushesInvoked(o.trace) == []
  {
    GateFailedSkipsBuild(buildImg, pushImg, conf, abspath, filenames,
                         Oracle(Success(true), Success(true), Success(false), build, push));
  }

  /** Two registries, the first push fails and the second succeeds: `(true, nil)`, two push
      attempts, and the first push's error is the only one logged. */
  lemma ExampleFirstOfTwoPushesFails(pushImg: bool, conf: Carpenter, abspath: string, filenames: seq<string>,
                                     env: Oracle, failure: Error)
    requires env.basic == Success(true) && env.containerfile == Success(true) && env.language == Success(true)
    requires env.build.None?
    requires |conf.registries| == 2 && env.push(0) == Some(failure) && env.push(1).None?
    ensures var o := Run(true, pushImg, conf, abspath, filenames, env);
      o.passed && o.err.None? && |PushesInvoked(o.trace)| == 2 && ErrorsLogged(o.trace) == [failure]
  {
    PushesEveryRegistry(true, pushImg, conf, abspath, filenames, env);
    assert FailedPushErrors(env, 1) == FailedPushErrors(env, 0) + [failure];
    assert FailedPushErrors(env, 2) == FailedPushErrors(env, 1);
  }
}
