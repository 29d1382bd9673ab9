# aws-cb service core in Dafny

`cb` is a command-line tool for AWS CodeBuild: list projects, list a project's
builds, print a build's log (read from CloudWatch Logs) and rerun a build. It
does this through a four-operation `Service` interface that has two
implementations: an AWS-backed one and an offline `Stub`. This project models
both implementations and proves what they return.

- `wrappers.dfy` (module `Wrappers`): `Option`, which stands for a Go pointer
  that may be nil, and `Result`, which stands for Go's `value, err` pair.
- `service.dfy`:
  - module `Service`: the errors the operations return, their texts, and the
    `ErrNotImplemented` sentinel.
  - module `Stub`: the offline backend as four pure functions. The clock is
    a parameter `now` that holds the already-formatted UTC time.
- `aws.dfy` (module `Aws`): the AWS-backed backend.
  - Each SDK call is replaced by a scripted response. The n-th call of a kind
    gets the n-th element of its script.
  - `ListProjects` and the log drain of `GetBuildLog` are loops over their
    scripts. They return the requests they send, so the contracts can state
    how the continuation tokens are chained.
  - The loops are proved against specification functions: `ProjectsIn`,
    `LogText`, `LastListingCall`, `LastDrainCall`, `TokenSent` and
    `DrainRequests`. The operations they build on are specification functions
    too: `RenderBuild` (one display line), `Normalize` and `AppendMessages`
    (the newline rule of the log buffer) and `Messages` (a page's message
    texts). Lemmas state the properties of all of them.

Two facts about the code that are easy to get wrong:

- `ErrNotImplemented` is defined (internal/service/service.go:18), but no stub
  operation returns it: the stub's rerun always builds a new ID
  (`Stub.NeverFails`).
- The newline test of the log drain (internal/service/aws.go:115) looks at the
  whole buffer, not at the message just written. So:
  - a newline is added only when the whole buffer does not already end in
    one;
  - a message that ends in `"\n\n"` is copied with both newlines;
  - an empty message adds nothing once the buffer already ends in a newline.

  `AppendMessagesAsLines`, `EmptyMessageRule` and `EmptyMessageFollowsBuffer`
  state this behaviour.

`ListProjectBuilds` reads only the first page of "list builds for project".
The code ignores that response's next token, and the model does the same.
Lines are produced in the order of the detail response and are not
re-sorted.

## Model

| member | source | states |
|---|---|---|
| `Service.Message` | internal/service/aws.go:92-98 | the texts of the errors the backend raises itself end with the build ID they concern |
| `Service.MessagesDistinguishKinds` | internal/service/aws.go:92-98 | "no logs for <id>", "missing log stream for <id>", "retry build returned no build for <id>" and "not implemented" have pairwise different texts, whatever the build IDs |
| `Stub.ListProjects` | internal/service/service.go:25-27 | always succeeds with exactly the two distinct names `project-a`, `project-b` |
| `Stub.ListProjectBuilds` | internal/service/service.go:29-34 | always two IDs, both starting with `<project>:<now>:`, of equal length, identical except for a final `1` and `2`, so distinct |
| `Stub.GetBuildLog` | internal/service/service.go:37-39 | the log starts with `[stub] build log for `, contains the build ID right after it, ends with the fixed three-step tail and does not end in a newline |
| `Stub.RerunBuild` | internal/service/service.go:41-45 | the input ID is a strict prefix of the new ID, followed by `/rerun-` and the timestamp, so the new ID never equals the input |
| `Stub.RerunBuildInjective` | internal/service/service.go:41-45 | two reruns taken at the same instant give the same new ID only for the same input ID |
| `Stub.NeverFails` | internal/service/service.go:18-45 | none of the four stub operations fails, so none returns `ErrNotImplemented` |
| `Aws.FirstListingEnd` | internal/service/aws.go:51-53 | the index found is the first response that is a failure or has a nil or empty token: that one ends the listing and none before it does |
| `Aws.ProjectsInAppend` | internal/service/aws.go:50 | accumulating the pages of two consecutive runs of responses gives the two accumulations concatenated |
| `Aws.PageInOrder` | internal/service/aws.go:50 | one page's projects appear as a single block, after every earlier page's and before every later page's (API order, no re-sorting) |
| `Aws.ListProjects` | internal/service/aws.go:42-57 | one call per response up to and including the first ending one; the first request has no token and each later one carries the previous page's token unchanged, never nil or empty; a failed call returns only its error, otherwise the result is every page's projects concatenated in order |
| `Aws.RenderBuildFields` | internal/service/aws.go:76-82 | a display line starts with the build ID and two spaces; without a start time it is just ID, two spaces, status; with one it is that line followed by two spaces and the time |
| `Aws.ListProjectBuilds` | internal/service/aws.go:59-85 | the ID listing asks for the project in descending order; an error is returned unchanged; no IDs gives an empty result and no detail call; otherwise one detail call for exactly those IDs, and then either its error or exactly one line per returned build, in that order |
| `Aws.LogDestination` | internal/service/aws.go:92-99 | "no logs for <id>" exactly when no build is returned or the first has no log reference; "missing log stream for <id>" exactly when that reference lacks its group or stream; success exactly when both names are present, and then the group and stream named by it |
| `Aws.GetBuildLog` | internal/service/aws.go:87-99 | a failed detail call or a failed destination check returns only that error and makes no log call; otherwise the result is the drain's outcome on the validated group and stream |
| `Aws.FirstDrainStop` | internal/service/aws.go:119-121 | the index found is the first response that is a failure, has no forward token, or repeats the token of the page before; that one stops the drain and none before it does |
| `Aws.DrainRequestAt` | internal/service/aws.go:104-109 | request `j` of the drain names the validated group and stream, reads from the head and carries the token sent with call `j` |
| `Aws.DrainTokensAdvance` | internal/service/aws.go:119-122 | every request after the first carries the previous page's forward token, which is present and differs from the token sent just before |
| `Aws.DrainStep` | internal/service/aws.go:113-122 | the loop's own exit test (token nil, or equal to a non-nil token just sent) holds exactly at the drain's last call, a failed call is always the last, and each page grows the text by its messages |
| `Aws.Drain` | internal/service/aws.go:101-124 | the requests sent are exactly the drain's requests up to its last call; that call's error is returned alone if it failed, otherwise the text of every page drained |
| `Aws.WriteEvents` | internal/service/aws.go:113-118 | writing a page's events leaves the buffer equal to appending its messages one by one with the newline rule |
| `Aws.AppendMessagesExtends` | internal/service/aws.go:113-118 | writing messages only appends: the earlier buffer is a prefix of the later one |
| `Aws.AppendMessagesSplit` | internal/service/aws.go:113-118 | writing two runs of messages in turn equals writing their concatenation |
| `Aws.LogTextIsAllMessages` | internal/service/aws.go:103-118 | draining page by page gives the same text as writing every message of every page in order into an empty buffer |
| `Aws.AppendMessagesEndsInNewline` | internal/service/aws.go:113-118 | after at least one message has been written, the buffer ends in a newline |
| `Aws.LogTextEmptyIff` | internal/service/aws.go:113-124 | the log text is empty if and only if no event was returned, and otherwise ends in a newline |
| `Aws.NormalizeAfterLine` | internal/service/aws.go:114-117 | writing a non-empty message adds it unchanged if it ends in a newline, and adds it plus one newline otherwise |
| `Aws.AppendMessagesAsLines` | internal/service/aws.go:113-118 | starting from an empty or newline-terminated buffer, writing non-empty messages gives the buffer followed by each message in order, each ending in a newline and copied unchanged if it already ended in one |
| `Aws.EmptyMessageRule` | internal/service/aws.go:114-117 | an empty message (a nil `Message` included) adds a newline exactly when the buffer does not already end in one, so after any written message it adds nothing |
| `Aws.EmptyMessageFollowsBuffer` | internal/service/aws.go:114-117 | an empty message adds a newline to an empty buffer but nothing after a message that ended in one |
| `Aws.DrainTokenExamples` | internal/service/aws.go:119 | an empty forward token does not end the drain on its own; a token equal to the one just sent does |
| `Aws.RerunBuild` | internal/service/aws.go:127-136 | a failed retry call returns its error unchanged; it succeeds exactly when the response has a build with an ID, and then returns that ID verbatim; otherwise it fails with "retry build returned no build for <id>" |

## Left out

- `NewAWS` (internal/service/aws.go:22-40) is not part of this model. It reads `AWS_PROFILE`, loads the SDK configuration and builds the clients, which is I/O over libraries that are not shown.
- The CodeBuild and CloudWatch Logs calls themselves, their transport, and `context` cancellation are not modelled. Each call is a scripted response, a `Result`, and a failed call stands for any SDK error, cancellation included.
- Time formatting is not modelled. `Build.startTime` holds the start time already rendered as `YYYY-MM-DD HH:MM:SSZ`, and the stub's `time.Now()` is the string parameter `now`.
- The requests of the single-shot calls are not returned by the model: `BatchGetBuilds` with `[buildID]` in `GetBuildLog`, and `RetryBuild` with `buildID` in `RerunBuild`. The requests of `ListBuildsForProject`, the `ListProjectBuilds` detail call and every paginated call are returned.
- Log events carry only their message. Timestamps and ingestion times are not read by the code.
- Aws.ListProjects: requires its script to contain a response that ends the listing (`ListingAnswered`). The Go listing loop (internal/service/aws.go:45-55) has no repeated-token guard, unlike the log drain: a service that keeps returning the same non-empty token makes it loop forever. `ListingAnswered` excludes exactly those runs, which a finite script cannot describe.
- Aws.GetBuildLog: requires, when the destination is valid, a log script that contains a response stopping the drain (`DrainAnswered`). Nothing in the code or in the API guarantees that the drain ends. Runs that never end are not described.
- Aws.Drain: the same requirement as `Aws.GetBuildLog`, for the same reason.
- The `Service` interface (internal/service/service.go:11-16) holds no logic. Each backend is modelled as its own module.
- internal/cli/cli.go, internal/cli/cli_test.go, cmd/cb/main.go and internal/service/factory.go are not part of this model. They are argument parsing through the `kong` library, exit-code mapping and process wiring. The test file calls a `Run` method that `CLI` does not define.
