/** The cloud backend. Every remote call is replaced by a scripted response:
    the n-th call of a kind receives the n-th element of its script. The
    methods return the requests they send, so the chaining of continuation
    tokens is part of their contracts. */
module Aws {
  import opened Wrappers
  import opened Service

  // ------------------------------------------------------------------
  // Shapes of the remote requests and responses
  // ------------------------------------------------------------------

  /** One page of the "list projects" call. */
  datatype ProjectsPage = ProjectsPage(projects: seq<string>, nextToken: Option<string>)

  datatype SortOrder = Ascending | Descending

  /** The request of the "list builds for project" call. */
  datatype ListBuildsRequest = ListBuildsRequest(projectName: string, sortOrder: SortOrder)

  /** Where a build's log events are stored. */
  datatype LogsLocation = LogsLocation(groupName: Option<string>, streamName: Option<string>)

  /** One build record of the "batch get builds" call; `startTime` is the start
      time already rendered in UTC as "YYYY-MM-DD HH:MM:SSZ". */
  datatype Build = Build(id: Option<string>, status: string, startTime: Option<string>, logs: Option<LogsLocation>)

  datatype LogEvent = LogEvent(message: Option<string>)

  /** One page of the "get log events" call. */
  datatype LogEventsPage = LogEventsPage(events: seq<LogEvent>, nextForwardToken: Option<string>)

  /** The request of the "get log events" call. */
  datatype LogEventsRequest = LogEventsRequest(groupName: string, streamName: string, nextToken: Option<string>, startFromHead: bool)

  /** The response of the "retry build" call. */
  datatype RetryBuildResponse = RetryBuildResponse(build: Option<Build>)

  /** The text behind an optional string, "" when it is absent. */
  function Deref(s: Option<string>): string
  {
    if s.Some? then s.value else ""
  }

  // ------------------------------------------------------------------
  // ListProjects: accumulate every page until the token runs out
  // ------------------------------------------------------------------

  /** A response after which the listing loop makes no further call. */
  predicate EndsListing(resp: Result<ProjectsPage, Error>)
  {
    match resp
    case Failure(_) => true
    case Success(page) => page.nextToken == None || page.nextToken == Some("")
  }

  /** The script answers every call the listing loop makes. */
  predicate ListingAnswered(responses: seq<Result<ProjectsPage, Error>>)
  {
    exists k :: 0 <= k < |responses| && EndsListing(responses[k])
  }

  /** The first response at or after `i` that ends the listing. */
  function FirstListingEnd(responses: seq<Result<ProjectsPage, Error>>, i: nat): (k: nat)
    requires exists k :: i <= k < |responses| && EndsListing(responses[k])
    ensures i <= k < |responses| && EndsListing(responses[k])
    ensures forall j :: i <= j < k ==> !EndsListing(responses[j])
    decreases |responses| - i
  {
    if EndsListing(responses[i]) then i else FirstListingEnd(responses, i + 1)
  }

  /** The index of the last call the listing loop makes. */
  function LastListingCall(responses: seq<Result<ProjectsPage, Error>>): nat
    requires ListingAnswered(responses)
  {
    FirstListingEnd(responses, 0)
  }

  function ProjectsOf(resp: Result<ProjectsPage, Error>): seq<string>
  {
    if resp.Success? then resp.value.projects else []
  }

  /** The projects of the given responses, concatenated in response order. */
  function ProjectsIn(responses: seq<Result<ProjectsPage, Error>>): seq<string>
  {
    if |responses| == 0 then []
    else ProjectsIn(responses[..|responses| - 1]) + ProjectsOf(responses[|responses| - 1])
  }

  /** Concatenation distributes over splitting the responses. */
  lemma {:induction false} ProjectsInAppend(a: seq<Result<ProjectsPage, Error>>, b: seq<Result<ProjectsPage, Error>>)
    ensures ProjectsIn(a + b) == ProjectsIn(a) + ProjectsIn(b)
    decreases |b|
  {
    if b == [] {
      assert a + b == a;
    } else {
      assert (a + b)[..|a + b| - 1] == a + b[..|b| - 1];
      ProjectsInAppend(a, b[..|b| - 1]);
    }
  }

  /** A page's projects appear as one block, after those of every earlier
      page and before those of every later page. */
  lemma PageInOrder(before: seq<Result<ProjectsPage, Error>>, page: Result<ProjectsPage, Error>, after: seq<Result<ProjectsPage, Error>>)
    ensures ProjectsIn(before + [page] + after) == ProjectsIn(before) + ProjectsOf(page) + ProjectsIn(after)
  {
    ProjectsInAppend(before + [page], after);
    assert (before + [page])[..|before|] == before;
  }

  /** Lists every project. The first request carries no token; each later one
      carries the previous page's token. The loop stops at the first page whose
      token is absent or empty; a failed call discards what was gathered. */
  method ListProjects(responses: seq<Result<ProjectsPage, Error>>)
    returns (r: Result<seq<string>, Error>, sent: seq<Option<string>>)
    requires ListingAnswered(responses)
    ensures |sent| == LastListingCall(responses) + 1
    ensures sent[0] == None
    ensures forall j :: 0 < j < |sent| ==>
              responses[j - 1].Success? && sent[j] == responses[j - 1].value.nextToken &&
              sent[j] != None && sent[j] != Some("")
    ensures responses[|sent| - 1].Failure? ==> r == Failure(responses[|sent| - 1].error)
    ensures responses[|sent| - 1].Success? ==> r == Success(ProjectsIn(responses[..|sent|]))
  {
    var out: seq<string> := [];
    var next: Option<string> := None;
    var i := 0;
    sent := [];
    ghost var last := LastListingCall(responses);
    while true
      invariant i <= last
      invariant |sent| == i
      invariant forall j :: 0 < j < i ==> sent[j] == responses[j - 1].value.nextToken
      invariant i > 0 ==> sent[0] == None
      invariant next == if i == 0 then None else responses[i - 1].value.nextToken
      invariant out == ProjectsIn(responses[..i])
      decreases last - i
    {
      sent := sent + [next];
      var resp := responses[i];
      if resp.Failure? {
        return Failure(resp.error), sent;
      }
      assert responses[..i + 1][..i] == responses[..i];
      out := out + resp.value.projects;
      if resp.value.nextToken == None || resp.value.nextToken.value == "" {
        return Success(out), sent;
      }
      next := resp.value.nextToken;
      i := i + 1;
    }
  }

  // ------------------------------------------------------------------
  // ListProjectBuilds: list the IDs, then render one line per detail record
  // ------------------------------------------------------------------

  /** The display line of one build: its ID and status, then its start time
      when it has one, separated by two spaces. */
  function RenderBuild(b: Build): string
  {
    var head := Deref(b.id) + "  " + b.status;
    if b.startTime.Some? then head + "  " + b.startTime.value else head
  }

  /** A rendered line starts with the build's ID, two spaces and the status;
      without a start time that is the whole line, and a start time only ever
      extends the line rendered without one. */
  lemma RenderBuildFields(b: Build)
    ensures Deref(b.id) + "  " <= RenderBuild(b)
    ensures |Deref(b.id)| + 2 + |b.status| <= |RenderBuild(b)|
    ensures RenderBuild(b)[|Deref(b.id)| + 2..|Deref(b.id)| + 2 + |b.status|] == b.status
    ensures b.startTime.None? ==> |RenderBuild(b)| == |Deref(b.id)| + 2 + |b.status|
    ensures b.startTime.Some? ==>
              RenderBuild(b.(startTime := None)) + "  " + b.startTime.value == RenderBuild(b)
  {
  }

  /** Lists a project's builds, newest first. No IDs means an empty result and
      no detail call; otherwise one line per detail record, in that order. */
  method ListProjectBuilds(project: string, idsResp: Result<seq<string>, Error>, details: Result<seq<Build>, Error>)
    returns (r: Result<seq<string>, Error>, listRequest: ListBuildsRequest, batchRequest: Option<seq<string>>)
    ensures listRequest == ListBuildsRequest(project, Descending)
    ensures idsResp.Failure? ==> r == Failure(idsResp.error) && batchRequest == None
    ensures idsResp == Success([]) ==> r == Success([]) && batchRequest == None
    ensures idsResp.Success? && idsResp.value != [] ==> batchRequest == Some(idsResp.value)
    ensures idsResp.Success? && idsResp.value != [] && details.Failure? ==> r == Failure(details.error)
    ensures idsResp.Success? && idsResp.value != [] && details.Success? ==>
              r.Success? && |r.value| == |details.value| &&
              forall j :: 0 <= j < |r.value| ==> r.value[j] == RenderBuild(details.value[j])
  {
    listRequest := ListBuildsRequest(project, Descending);
    batchRequest := None;
    if idsResp.Failure? {
      return Failure(idsResp.error), listRequest, batchRequest;
    }
    if |idsResp.value| == 0 {
      return Success([]), listRequest, batchRequest;
    }
    batchRequest := Some(idsResp.value);
    if details.Failure? {
      return Failure(details.error), listRequest, batchRequest;
    }
    var builds := details.value;
    var lines: seq<string> := [];
    for j := 0 to |builds|
      invariant |lines| == j
      invariant forall k :: 0 <= k < j ==> lines[k] == RenderBuild(builds[k])
    {
      var b := builds[j];
      var id := Deref(b.id);
      if b.startTime.Some? {
        lines := lines + [id + "  " + b.status + "  " + b.startTime.value];
      } else {
        lines := lines + [id + "  " + b.status];
      }
    }
    r := Success(lines);
  }

  // ------------------------------------------------------------------
  // GetBuildLog: validate the log destination, then drain the stream
  // ------------------------------------------------------------------

  /** The log group and stream of the first build returned, or why there is none. */
  function LogDestination(buildID: string, builds: seq<Build>): (r: Result<(string, string), Error>)
    ensures r == Failure(NoLogs(buildID)) <==> |builds| == 0 || builds[0].logs.None?
    ensures r == Failure(MissingLogStream(buildID)) <==>
              |builds| > 0 && builds[0].logs.Some? &&
              (builds[0].logs.value.groupName.None? || builds[0].logs.value.streamName.None?)
    ensures r.Success? <==>
              |builds| > 0 && builds[0].logs.Some? &&
              builds[0].logs.value.groupName.Some? && builds[0].logs.value.streamName.Some?
    ensures r.Success? ==>
              |builds| > 0 && builds[0].logs == Some(LogsLocation(Some(r.value.0), Some(r.value.1)))
  {
    if |builds| == 0 || builds[0].logs.None? then Failure(NoLogs(buildID))
    else
      var lg := builds[0].logs.value;
      if lg.groupName.None? || lg.streamName.None? then Failure(MissingLogStream(buildID))
      else Success((lg.groupName.value, lg.streamName.value))
  }

  function EndsInNewline(s: string): bool
  {
    |s| > 0 && s[|s| - 1] == '\n'
  }

  /** Appends one message and then a newline unless the buffer already ends in one. */
  function Normalize(buf: string, msg: string): string
  {
    var s := buf + msg;
    if EndsInNewline(s) then s else s + "\n"
  }

  /** The buffer after appending each message in turn. */
  function AppendMessages(buf: string, msgs: seq<string>): string
  {
    if |msgs| == 0 then buf
    else Normalize(AppendMessages(buf, msgs[..|msgs| - 1]), msgs[|msgs| - 1])
  }

  /** The messages of one page's events; an absent message reads as "". */
  function Messages(events: seq<LogEvent>): (msgs: seq<string>)
    ensures |msgs| == |events|
  {
    seq(|events|, j requires 0 <= j < |events| => Deref(events[j].message))
  }

  function PageMessages(resp: Result<LogEventsPage, Error>): seq<string>
  {
    if resp.Success? then Messages(resp.value.events) else []
  }

  /** Every message of the given pages, in page order. */
  function AllMessages(pages: seq<Result<LogEventsPage, Error>>): seq<string>
  {
    if |pages| == 0 then [] else AllMessages(pages[..|pages| - 1]) + PageMessages(pages[|pages| - 1])
  }

  /** The log text after the given pages have been drained, page by page. */
  function LogText(pages: seq<Result<LogEventsPage, Error>>): string
  {
    if |pages| == 0 then "" else AppendMessages(LogText(pages[..|pages| - 1]), PageMessages(pages[|pages| - 1]))
  }

  /** A response after which the drain loop makes no further call: a failure,
      no forward token, or the same token as the one just sent (which, after
      the first call, is the previous page's token). */
  predicate DrainStops(pages: seq<Result<LogEventsPage, Error>>, i: nat)
    requires i < |pages|
  {
    || pages[i].Failure?
    || pages[i].value.nextForwardToken.None?
    || (i > 0 && pages[i - 1].Success? &&
        pages[i].value.nextForwardToken == pages[i - 1].value.nextForwardToken)
  }

  /** The script answers every call the drain loop makes. */
  predicate DrainAnswered(pages: seq<Result<LogEventsPage, Error>>)
  {
    exists k :: 0 <= k < |pages| && DrainStops(pages, k)
  }

  /** The first response at or after `i` that stops the drain. */
  function FirstDrainStop(pages: seq<Result<LogEventsPage, Error>>, i: nat): (k: nat)
    requires exists k :: i <= k < |pages| && DrainStops(pages, k)
    ensures i <= k < |pages| && DrainStops(pages, k)
    ensures forall j :: i <= j < k ==> !DrainStops(pages, j)
    decreases |pages| - i
  {
    if DrainStops(pages, i) then i else FirstDrainStop(pages, i + 1)
  }

  /** The index of the last call the drain loop makes. */
  function LastDrainCall(pages: seq<Result<LogEventsPage, Error>>): nat
    requires DrainAnswered(pages)
  {
    FirstDrainStop(pages, 0)
  }

  /** The token the drain sends with its call number `j`: none on the first
      call, then the forward token of the page before. */
  function TokenSent(pages: seq<Result<LogEventsPage, Error>>, j: nat): Option<string>
    requires j <= |pages|
  {
    if j == 0 || pages[j - 1].Failure? then None else pages[j - 1].value.nextForwardToken
  }

  /** Every call after the first carries a token, and never the one sent just
      before it: a repeated token would have ended the drain. */
  lemma DrainTokensAdvance(pages: seq<Result<LogEventsPage, Error>>, j: nat)
    requires DrainAnswered(pages)
    requires 0 < j <= LastDrainCall(pages)
    ensures pages[j - 1].Success? && TokenSent(pages, j) == pages[j - 1].value.nextForwardToken
    ensures TokenSent(pages, j).Some?
    ensures TokenSent(pages, j) != TokenSent(pages, j - 1)
  {
    assert !DrainStops(pages, j - 1);
  }

  /** Writes one page's events to the buffer: each message, then a newline
      unless the buffer already ends in one. */
  method WriteEvents(buf: string, events: seq<LogEvent>) returns (b: string)
    ensures b == AppendMessages(buf, Messages(events))
  {
    var msgs := Messages(events);
    b := buf;
    for k := 0 to |events|
      invariant b == AppendMessages(buf, msgs[..k])
    {
      assert msgs[..k + 1][..k] == msgs[..k];
      b := b + Deref(events[k].message);
      if !EndsInNewline(b) {
        b := b + "\n";
      }
    }
    assert msgs[..|msgs|] == msgs;
  }

  /** Fetches a build's whole log. The destination is checked before any log
      call; a failed call discards what was gathered. */
  method GetBuildLog(buildID: string, details: Result<seq<Build>, Error>, pages: seq<Result<LogEventsPage, Error>>)
    returns (r: Result<string, Error>, requests: seq<LogEventsRequest>)
    requires details.Success? && LogDestination(buildID, details.value).Success? ==> DrainAnswered(pages)
    ensures details.Failure? ==> r == Failure(details.error) && requests == []
    ensures details.Success? && LogDestination(buildID, details.value).Failure? ==>
              r == Failure(LogDestination(buildID, details.value).error) && requests == []
    ensures details.Success? && LogDestination(buildID, details.value).Success? ==>
              var dest := LogDestination(buildID, details.value).value;
              DrainOutcome(dest.0, dest.1, pages, r, requests)
  {
    requests := [];
    if details.Failure? {
      return Failure(details.error), requests;
    }
    var builds := details.value;
    if |builds| == 0 || builds[0].logs.None? {
      return Failure(NoLogs(buildID)), requests;
    }
    var lg := builds[0].logs.value;
    if lg.groupName.None? || lg.streamName.None? {
      return Failure(MissingLogStream(buildID)), requests;
    }
    var group, stream := lg.groupName.value, lg.streamName.value;
    r, requests := Drain(group, stream, pages);
  }

  /** The first `n` requests of the drain: all from the head of the stream,
      call `j` carrying TokenSent(pages, j). */
  function DrainRequests(group: string, stream: string, pages: seq<Result<LogEventsPage, Error>>, n: nat): seq<LogEventsRequest>
    requires n <= |pages|
  {
    if n == 0 then []
    else DrainRequests(group, stream, pages, n - 1) + [LogEventsRequest(group, stream, TokenSent(pages, n - 1), true)]
  }

  /** Call `j` of the drain reads `group`/`stream` from the head with TokenSent(pages, j). */
  lemma {:induction false} DrainRequestAt(group: string, stream: string, pages: seq<Result<LogEventsPage, Error>>, n: nat, j: nat)
    requires n <= |pages| && j < n
    ensures |DrainRequests(group, stream, pages, n)| == n
    ensures DrainRequests(group, stream, pages, n)[j] == LogEventsRequest(group, stream, TokenSent(pages, j), true)
    decreases n
  {
    if j < n - 1 {
      DrainRequestAt(group, stream, pages, n - 1, j);
    } else if n > 1 {
      DrainRequestAt(group, stream, pages, n - 1, 0);
    }
  }

  /** What draining the stream `group`/`stream` against the script `pages`
      yields: one request per call up to the first page that stops the drain,
      all from the head of the stream and each carrying the token the drain
      sends with it; the error of a failed call, or else the log text of every
      page drained. */
  ghost predicate DrainOutcome(group: string, stream: string, pages: seq<Result<LogEventsPage, Error>>,
                               r: Result<string, Error>, requests: seq<LogEventsRequest>)
    requires DrainAnswered(pages)
  {
    var last := LastDrainCall(pages);
    && requests == DrainRequests(group, stream, pages, last + 1)
    && (pages[last].Failure? ==> r == Failure(pages[last].error))
    && (pages[last].Success? ==> r == Success(LogText(pages[..last + 1])))
  }

  /** The drain loop: reads the stream from its head, each request carrying
      the previous page's forward token, until the token is absent or repeats
      the one just sent. */
  method Drain(group: string, stream: string, pages: seq<Result<LogEventsPage, Error>>)
    returns (r: Result<string, Error>, requests: seq<LogEventsRequest>)
    requires DrainAnswered(pages)
    ensures DrainOutcome(group, stream, pages, r, requests)
  {
    requests := [];
    var next: Option<string> := None;
    var b := "";
    var i := 0;
    ghost var last := LastDrainCall(pages);
    while true
      invariant i <= last
      invariant requests == DrainRequests(group, stream, pages, i)
      invariant next == TokenSent(pages, i)
      invariant b == LogText(pages[..i])
      decreases last - i
    {
      requests := requests + [LogEventsRequest(group, stream, next, true)];
      var out := pages[i];
      DrainStep(pages, i);
      if out.Failure? {
        return Failure(out.error), requests;
      }
      b := WriteEvents(b, out.value.events);
      if out.value.nextForwardToken.None? || (next.Some? && out.value.nextForwardToken.value == next.value) {
        return Success(b), requests;
      }
      next := out.value.nextForwardToken;
      i := i + 1;
    }
  }

  /** One turn of the drain loop: the loop's own test agrees with DrainStops,
      the drain stops exactly at its last call, and the text grows by the
      page's messages. */
  lemma DrainStep(pages: seq<Result<LogEventsPage, Error>>, i: nat)
    requires DrainAnswered(pages) && i <= LastDrainCall(pages)
    ensures pages[i].Failure? ==> i == LastDrainCall(pages)
    ensures pages[i].Success? ==>
              var token, next := pages[i].value.nextForwardToken, TokenSent(pages, i);
              && (token.None? || (next.Some? && token.value == next.value) <==> i == LastDrainCall(pages))
              && LogText(pages[..i + 1]) == AppendMessages(LogText(pages[..i]), Messages(pages[i].value.events))
  {
    assert pages[..i + 1][..i] == pages[..i];
    if i < LastDrainCall(pages) {
      assert !DrainStops(pages, i);
    } else {
      assert DrainStops(pages, i);
    }
  }

  /** Draining only ever appends to the buffer. */
  lemma {:induction false} AppendMessagesExtends(buf: string, msgs: seq<string>)
    ensures buf <= AppendMessages(buf, msgs)
    decreases |msgs|
  {
    if msgs != [] {
      AppendMessagesExtends(buf, msgs[..|msgs| - 1]);
    }
  }

  /** Appending two runs of messages is appending their concatenation. */
  lemma {:induction false} AppendMessagesSplit(buf: string, a: seq<string>, b: seq<string>)
    ensures AppendMessages(buf, a + b) == AppendMessages(AppendMessages(buf, a), b)
    decreases |b|
  {
    if b == [] {
      assert a + b == a;
    } else {
      assert (a + b)[..|a + b| - 1] == a + b[..|b| - 1];
      AppendMessagesSplit(buf, a, b[..|b| - 1]);
    }
  }

  /** Draining page by page is the same as appending every message in order. */
  lemma {:induction false} LogTextIsAllMessages(pages: seq<Result<LogEventsPage, Error>>)
    ensures LogText(pages) == AppendMessages("", AllMessages(pages))
    decreases |pages|
  {
    if pages != [] {
      var init := pages[..|pages| - 1];
      LogTextIsAllMessages(init);
      AppendMessagesSplit("", AllMessages(init), PageMessages(pages[|pages| - 1]));
    }
  }

  /** Once any message has been appended, the text ends in a newline. */
  lemma AppendMessagesEndsInNewline(buf: string, msgs: seq<string>)
    requires msgs != []
    ensures EndsInNewline(AppendMessages(buf, msgs))
  {
  }

  /** The log text is empty exactly when no event was returned, and otherwise
      ends in a newline. */
  lemma LogTextEmptyIff(pages: seq<Result<LogEventsPage, Error>>)
    ensures LogText(pages) == "" <==> AllMessages(pages) == []
    ensures AllMessages(pages) != [] ==> EndsInNewline(LogText(pages))
  {
    LogTextIsAllMessages(pages);
    if AllMessages(pages) != [] {
      AppendMessagesEndsInNewline("", AllMessages(pages));
    }
  }

  /** One message as it appears in the text when the buffer before it is
      empty or ends in a newline: unchanged if it ends in a newline, else with
      one newline added. */
  function Line(msg: string): string
  {
    if EndsInNewline(msg) then msg else msg + "\n"
  }

  function Lines(msgs: seq<string>): string
  {
    if |msgs| == 0 then "" else Lines(msgs[..|msgs| - 1]) + Line(msgs[|msgs| - 1])
  }

  /** For non-empty messages the buffer check agrees with a per-message rule:
      the text is the messages in order, each ending in a newline, and a
      message that already ends in one is copied unchanged. */
  lemma {:induction false} AppendMessagesAsLines(buf: string, msgs: seq<string>)
    requires buf == "" || EndsInNewline(buf)
    requires forall k :: 0 <= k < |msgs| ==> |msgs[k]| > 0
    ensures AppendMessages(buf, msgs) == buf + Lines(msgs)
    decreases |msgs|
  {
    if |msgs| > 0 {
      var init, m := msgs[..|msgs| - 1], msgs[|msgs| - 1];
      AppendMessagesAsLines(buf, init);
      var s := AppendMessages(buf, init);
      NormalizeAfterLine(s, m);
      calc {
        AppendMessages(buf, msgs);
        Normalize(s, m);
        s + Line(m);
        buf + Lines(init) + Line(m);
        buf + (Lines(init) + Line(m));
        buf + Lines(msgs);
      }
    }
  }

  /** One step of AppendMessagesAsLines: a non-empty message is followed by a
      newline exactly when it does not end in one itself. */
  lemma NormalizeAfterLine(s: string, m: string)
    requires |m| > 0
    ensures Normalize(s, m) == s + Line(m)
  {
    assert (s + m)[|s + m| - 1] == m[|m| - 1];
    if !EndsInNewline(m) {
      assert s + m + "\n" == s + (m + "\n");
    }
  }

  /** An empty message adds a newline to an empty buffer but nothing after a
      message that ended in one: the check looks at the buffer, not the message. */
  lemma EmptyMessageFollowsBuffer()
    ensures AppendMessages("", [""]) == "\n"
    ensures AppendMessages("", ["a", ""]) == "a\n"
  {
    assert ["a", ""][..1] == ["a"];
  }

  /** An empty message adds a newline exactly when the buffer does not
      already end in one; so after any message it adds nothing. */
  lemma {:induction false} EmptyMessageRule(buf: string, msgs: seq<string>)
    ensures Normalize(buf, "") == if EndsInNewline(buf) then buf else buf + "\n"
    ensures msgs != [] ==> AppendMessages(buf, msgs + [""]) == AppendMessages(buf, msgs)
  {
    assert buf + "" == buf;
    if msgs != [] {
      assert (msgs + [""])[..|msgs|] == msgs;
      AppendMessagesEndsInNewline(buf, msgs);
      assert AppendMessages(buf, msgs) + "" == AppendMessages(buf, msgs);
    }
  }

  /** An empty forward token does not end the drain on its own; a repeated one does. */
  lemma DrainTokenExamples(e: seq<LogEvent>)
    ensures var pages := [Success(LogEventsPage(e, Some(""))), Success(LogEventsPage(e, Some("t"))), Success(LogEventsPage(e, Some("t")))];
            DrainAnswered(pages) && LastDrainCall(pages) == 2
  {
    var pages := [Success(LogEventsPage(e, Some(""))), Success(LogEventsPage(e, Some("t"))), Success(LogEventsPage(e, Some("t")))];
    assert DrainStops(pages, 2);
    assert !DrainStops(pages, 0) && !DrainStops(pages, 1);
  }

  // ------------------------------------------------------------------
  // RerunBuild
  // ------------------------------------------------------------------

  /** The ID of the build a retry started, verbatim, or an error when the
      response names none. */
  function RerunBuild(buildID: string, resp: Result<RetryBuildResponse, Error>): (r: Result<string, Error>)
    ensures resp.Failure? ==> r == Failure(resp.error)
    ensures r.Success? <==> resp.Success? && resp.value.build.Some? && resp.value.build.value.id.Some?
    ensures r.Success? ==> resp.value.build.value.id == Some(r.value)
    ensures resp.Success? && r.Failure? ==> r.error == NoRetriedBuild(buildID)
  {
    match resp
    case Failure(e) => Failure(e)
    case Success(out) =>
      if out.build.None? || out.build.value.id.None? then Failure(NoRetriedBuild(buildID))
      else Success(out.build.value.id.value)
  }
}
