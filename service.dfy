/** The service abstraction shared by both backends: the errors its operations report. */
module Service {

  /** The errors the service operations return. */
  datatype Error =
    | ApiError(message: string)           // a failed remote call, passed on unchanged
    | NotImplemented                      // the sentinel for a capability a backend lacks
    | NoLogs(buildId: string)             // the build has no log reference
    | MissingLogStream(buildId: string)   // the log reference lacks its group or stream
    | NoRetriedBuild(buildId: string)     // the retry response names no new build

  /** The sentinel a backend returns for an operation it does not support. */
  const ErrNotImplemented: Error := NotImplemented

  /** The text of an error, as `err.Error()` renders it. */
  function Message(e: Error): (m: string)
    ensures e.NoLogs? || e.MissingLogStream? || e.NoRetriedBuild? ==>
              |e.buildId| < |m| && m[|m| - |e.buildId|..] == e.buildId
  {
    match e
    case ApiError(msg) => msg
    case NotImplemented => "not implemented"
    case NoLogs(id) => "no logs for " + id
    case MissingLogStream(id) => "missing log stream for " + id
    case NoRetriedBuild(id) => "retry build returned no build for " + id
  }

  /** The three errors the cloud backend raises itself can be told apart by their text. */
  lemma MessagesDistinguishKinds(a: string, b: string)
    ensures Message(NoLogs(a)) != Message(MissingLogStream(b))
    ensures Message(NoLogs(a)) != Message(NoRetriedBuild(b))
    ensures Message(MissingLogStream(a)) != Message(NoRetriedBuild(b))
    ensures Message(NoLogs(a)) != Message(ErrNotImplemented)
    ensures Message(MissingLogStream(a)) != Message(ErrNotImplemented)
    ensures Message(NoRetriedBuild(a)) != Message(ErrNotImplemented)
  {
    assert Message(NoLogs(a))[0] == 'n' && Message(NoLogs(a))[1] == 'o' && Message(NoLogs(a))[3] == 'l';
    assert Message(MissingLogStream(a))[0] == 'm' && Message(MissingLogStream(b))[0] == 'm';
    assert Message(NoRetriedBuild(b))[0] == 'r' && Message(NoRetriedBuild(a))[0] == 'r';
    assert Message(ErrNotImplemented)[3] == ' ';
  }
}

/** The offline backend: every operation is a fixed string-building expression.
    The clock is a parameter `now`: the current UTC time already formatted. */
module Stub {
  import opened Wrappers
  import opened Service

  const Tail: string := "\nStep 1: ...\nStep 2: ...\nSuccess."

  /** The two canned project names. */
  function ListProjects(): (r: Result<seq<string>, Error>)
    ensures r.Success? && r.value == ["project-a", "project-b"]
    ensures r.value[0] != r.value[1]
  {
    Success(["project-a", "project-b"])
  }

  /** Two build identifiers that share the project name and one timestamp and
      differ only in their last character. */
  function ListProjectBuilds(project: string, now: string): (r: Result<seq<string>, Error>)
    ensures r.Success? && |r.value| == 2
    ensures forall k :: 0 <= k < 2 ==> project + ":" + now + ":" <= r.value[k]
    ensures |r.value[0]| == |r.value[1]| == |project| + |now| + 3
    ensures r.value[0][..|r.value[0]| - 1] == r.value[1][..|r.value[1]| - 1]
    ensures r.value[0][|r.value[0]| - 1] == '1' && r.value[1][|r.value[1]| - 1] == '2'
    ensures r.value[0] != r.value[1]
  {
    var stem := project + ":" + now + ":";
    Success([stem + "1", stem + "2"])
  }

  /** A four-line log that names the build and ends without a newline. */
  function GetBuildLog(buildID: string): (r: Result<string, Error>)
    ensures r.Success?
    ensures "[stub] build log for " <= r.value
    ensures |r.value| == 21 + |buildID| + |Tail|
    ensures r.value[21..21 + |buildID|] == buildID
    ensures r.value[|r.value| - |Tail|..] == Tail
    ensures r.value[|r.value| - 1] != '\n'
  {
    Success("[stub] build log for " + buildID + Tail)
  }

  /** A new build identifier that extends the given one, so it never equals it. */
  function RerunBuild(buildID: string, now: string): (r: Result<string, Error>)
    ensures r.Success?
    ensures buildID < r.value && |r.value| == |buildID| + 7 + |now|
    ensures r.value != buildID
    ensures r.value[|buildID|..|buildID| + 7] == "/rerun-"
    ensures r.value[|buildID| + 7..] == now
  {
    Success(buildID + "/rerun-" + now)
  }

  /** Reruns taken at one instant keep distinct builds distinct: the input is
      recovered from the new identifier. */
  lemma RerunBuildInjective(a: string, b: string, now: string)
    requires RerunBuild(a, now) == RerunBuild(b, now)
    ensures a == b
  {
    var r := RerunBuild(a, now).value;
    assert |a| == |b|;
    assert a == r[..|a|];
  }

  /** No stub operation fails; in particular none returns ErrNotImplemented. */
  lemma NeverFails(project: string, buildID: string, now: string)
    ensures ListProjects() != Failure(ErrNotImplemented) && ListProjects().Success?
    ensures ListProjectBuilds(project, now).Success?
    ensures GetBuildLog(buildID).Success?
    ensures RerunBuild(buildID, now).Success? && RerunBuild(buildID, now) != Failure(ErrNotImplemented)
  {
  }
}
