/**
 The observable behaviour of one pipeline run: the calls it makes into its
 collaborators, with the arguments it forwards, and the errors it logs.
 */
module Trace {
  import opened Dto

  /** The three requirement checks. */
  datatype Check = Basic | Containerfile | Language

  /** The order in which the pipeline runs the checks. */
  const CheckOrder: seq<Check> := [Basic, Containerfile, Language]

  /** A call into a collaborator, carrying the arguments passed to it. */
  datatype Call =
    | BasicRequirements(filenames: seq<string>)
    | ContainerfileRequirements(abspath: string)
    | LanguageRequirements(abspath: string, filenames: seq<string>, imageName: string, imageTag: string)
    | BuildImage(buildImg: bool, allChecks: bool, abspath: string,
                 imageName: string, imageTag: string, quayImgExp: string)
    | PushImage(allChecks: bool, buildImg: bool, pushImg: bool, imageName: string, imageTag: string,
                username: string, password: string, url: string, namespace: string)

  /** One step of a run: a collaborator is invoked, or an error is written to the logger. */
  datatype Event = Invoked(call: Call) | Logged(error: Error)

  /** Concatenates what `f` picks out of each event, in trace order. */
  function Collect<U>(t: seq<Event>, f: Event -> seq<U>): seq<U>
  {
    if t == [] then [] else f(t[0]) + Collect(t[1..], f)
  }

  lemma {:induction false} CollectAppend<U>(a: seq<Event>, b: seq<Event>, f: Event -> seq<U>)
    ensures Collect(a + b, f) == Collect(a, f) + Collect(b, f)
  {
    if a == [] {
      assert a + b == b;
    } else {
      assert (a + b)[1..] == a[1..] + b;
      CollectAppend(a[1..], b, f);
    }
  }

  function CheckOf(e: Event): seq<Check>
  {
    match e
    case Invoked(BasicRequirements(_)) => [Basic]
    case Invoked(ContainerfileRequirements(_)) => [Containerfile]
    case Invoked(LanguageRequirements(_, _, _, _)) => [Language]
    case _ => []
  }

  function BuildOf(e: Event): seq<Call>
  {
    if e.Invoked? && e.call.BuildImage? then [e.call] else []
  }

  function PushOf(e: Event): seq<Call>
  {
    if e.Invoked? && e.call.PushImage? then [e.call] else []
  }

  function ErrorOf(e: Event): seq<Error>
  {
    if e.Logged? then [e.error] else []
  }

  /** The requirement checks invoked, in order. */
  function ChecksInvoked(t: seq<Event>): seq<Check> { Collect(t, CheckOf) }

  /** The build calls made, in order. */
  function BuildsInvoked(t: seq<Event>): seq<Call> { Collect(t, BuildOf) }

  /** The push calls made, in order. */
  function PushesInvoked(t: seq<Event>): seq<Call> { Collect(t, PushOf) }

  /** The errors written to the logger, in order. */
  function ErrorsLogged(t: seq<Event>): seq<Error> { Collect(t, ErrorOf) }
}
