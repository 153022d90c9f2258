# Pull-request handler: gates and dispatch

This project models `handlePullRequest`, the entry point of a GitHub Action.
The Action assigns reviewers and assignees to a pull request when a
pull-request event arrives. The handler tests a fixed sequence of gates:

1. a missing payload is an error;
2. a title matching a skip keyword skips the event;
3. a draft is skipped unless `runOnDraft` is true;
4. a group switch that is on while its group map is absent is a configuration error, reviewers first;
5. the label include list is checked, then the exclude list.

It then computes today's unavailable users once and runs two guarded paths.
The reviewer path runs, then the assignee path. A chooser that throws, or a
request the platform rejects, is caught, so the assignee path always runs.

The model is written in Dafny:

- `Handler.Decide` is the decision as a pure function. Its result is an `Outcome`: one of the seven early exits, or `Proceeded(reviewerActions, assigneeActions)`.
- `Handler.HandlePullRequest` is the handler written the way the source runs it: early returns, a reassigned `unavailableUsers`, and a `PullRequest` object that records each request sent. It is proved to return `Decide`'s outcome and exactly the requests that outcome implies.
- `Precedence` is an independent reference definition of "the first gate that fires decides". `HandlerProperties.DecideIsFirstFiringGate` proves that the nested early returns are that rule applied to the list `Handler.Gates`.

The helpers the handler calls are fields of `Handler.Environment` and are left
uninterpreted. These are `includesSkipKeywords`, `getUnavailableUsers` (which
reads the clock, so "today" is folded into it), `chooseReviewers`,
`chooseAssignees`, and the platform's reply to a request. `pr.hasAnyLabel` is
modelled as "some listed label name is among the pull request's labels". The
labels are a field of the event.

JavaScript truthiness is written out:

- `skipKeywords` that is present, even as an empty list, consults the matcher;
- `!reviewGroups` is true only for an absent map, so an empty map `{}` raises no error;
- `!runOnDraft` is false only for `true`;
- `addAssignees` is truthy when it is `true` or a non-empty string.

The handler only checks that a group map is defined, so an empty map `{}`
raises no error: `HandlerProperties.DefinedGroupMapsAreNoError` states this.

## Model

| member | source | states |
|---|---|---|
| `Handler.Decide` | src/handler.ts:33-35 | the outcome is the payload error exactly when the payload is missing, whatever the configuration and helpers |
| `Handler.HandlePullRequest` | src/handler.ts:28-141 | the handler as written returns `Decide`'s outcome and sends exactly `Requests` of that outcome, in order |
| `Handler.RunReviewerPath` | src/handler.ts:108-123 | the reviewer try block yields the reviewer path result and appends a review request only when one was sent |
| `Handler.RunAssigneePath` | src/handler.ts:125-140 | the assignee try block yields the assignee path result and appends an assignee request only when one was sent |
| `PullRequests.PullRequest.constructor` | src/handler.ts:78 | a fresh pull-request object over the event's labels has sent nothing |
| `PullRequests.PullRequest.AddReviewers` | src/handler.ts:113 | requesting reviewers appends exactly that request and returns the platform's reply |
| `PullRequests.PullRequest.AddAssignees` | src/handler.ts:130 | adding assignees appends exactly that request and returns the platform's reply |
| `Precedence.FiringIndex` | src/handler.ts:52-99 | the index found is the first gate that fires, or the gate count when none fires |
| `Precedence.FirstFiringAtIndex` | src/handler.ts:52-99 | the first-firing rule yields the outcome of the gate at that index, or the fallback |
| `Precedence.FirstFiringPicksEarliest` | src/handler.ts:52-99 | a gate that fires, with no earlier gate firing, decides the outcome |
| `Precedence.FirstFiringWhenNoneFires` | src/handler.ts:52-107 | when no gate fires, the run goes on to the fallback |
| `Precedence.FirstFiringIff` | src/handler.ts:52-99 | with distinct outcomes, gate i decides iff it fires and no earlier gate fires |
| `Precedence.FirstFiringOtherwiseIff` | src/handler.ts:52-107 | with distinct outcomes, the fallback is reached iff no gate fires |
| `HandlerProperties.GateOutcomesDistinct` | src/handler.ts:52-99 | the six gates have six different outcomes, none equal to the dispatch outcome |
| `HandlerProperties.DecideIsFirstFiringGate` | src/handler.ts:52-107 | the handler's nested early returns equal the first-firing rule over the gates in source order |
| `HandlerProperties.DecideGateIff` | src/handler.ts:52-99 | each gate's outcome occurs iff that gate fires and every earlier gate passes |
| `HandlerProperties.ProceedsIffGatesPass` | src/handler.ts:52-107 | the dispatch tail is reached iff every gate passes |
| `HandlerProperties.EarlyExitSendsNothing` | src/handler.ts:52-99 | every early exit leaves the pull request untouched |
| `HandlerProperties.SkipKeywordWins` | src/handler.ts:52-57 | a matching skip keyword skips, sending nothing, even when a draft, group or label gate would also apply |
| `HandlerProperties.NoKeywordsNoKeywordSkip` | src/handler.ts:52 | with `skipKeywords` absent no event is skipped for keywords |
| `HandlerProperties.DraftSkippedIff` | src/handler.ts:58-63 | past the keyword gate, a draft skip happens iff the PR is a draft and `runOnDraft` is false or absent |
| `HandlerProperties.RunOnDraftIgnoresDraftFlag` | src/handler.ts:58 | with `runOnDraft` true, flipping the draft flag changes nothing |
| `HandlerProperties.ReviewGroupErrorIff` | src/handler.ts:65-69 | the review-group error occurs iff both skip gates pass, the switch is on and the map is absent |
| `HandlerProperties.AssigneeGroupErrorIff` | src/handler.ts:71-75 | the assignee-group error additionally requires the review-group check to pass |
| `HandlerProperties.DefinedGroupMapsAreNoError` | src/handler.ts:65-75 | a defined group map, even an empty one, never raises a configuration error |
| `HandlerProperties.NotIncludedIff` | src/handler.ts:80-89 | past the earlier gates, a non-empty include list with none of its labels on the PR skips it, and only then |
| `HandlerProperties.EmptyIncludeNoConstraint` | src/handler.ts:81 | an absent or empty include list never skips |
| `HandlerProperties.ExcludedIff` | src/handler.ts:91-99 | past the include check, an exclude list with a label on the PR skips it, and only then |
| `HandlerProperties.EmptyExcludeNoConstraint` | src/handler.ts:91 | an absent or empty exclude list never skips |
| `HandlerProperties.LabelsIrrelevantWithoutFilter` | src/handler.ts:80 | without `filterLabels` the PR's labels do not affect the outcome |
| `HandlerProperties.NoExceptionsNobodyUnavailable` | src/handler.ts:102-106 | nobody is unavailable when `availabilityExceptions` is absent |
| `HandlerProperties.ChoosersShareUnavailableList` | src/handler.ts:102-127 | both choosers receive the author and the same unavailable list |
| `HandlerProperties.ReviewerRequestIff` | src/handler.ts:108-114 | reviewers are requested iff all gates pass, `addReviewers` is on and the chooser returns that non-empty list |
| `HandlerProperties.AssigneeRequestIff` | src/handler.ts:125-131 | assignees are added iff all gates pass, `addAssignees` is true or a non-empty string, and the chooser returns that non-empty list |
| `HandlerProperties.RequestsInOrder` | src/handler.ts:108-140 | at most one review request and at most one assignee request are sent, the review request first |
| `HandlerProperties.ReviewerChooserFailureContained` | src/handler.ts:109-122 | a throwing reviewer chooser yields a caught failure and leaves the assignee path unchanged |
| `HandlerProperties.ReviewerRejectionContained` | src/handler.ts:113-122 | a rejected review request leaves the assignee path unchanged |

## Left out

- Logging through `core.info` and `core.warning` is left out. It is output only. The `error instanceof Error` test only decides whether a warning is logged.
- `async`/`await` is left out. The handler awaits each request before going on, so the model runs sequentially.
- The bodies of `includesSkipKeywords`, `getUnavailableUsers`, `chooseReviewers`, `chooseAssignees` and `hasAnyLabel` are not part of this model. They live in `src/utils.ts` and `src/pr.ts`. The first four are uninterpreted functions; `hasAnyLabel` is read as "some listed label is on the PR". No property of candidate sampling, weekday lookup or keyword matching is claimed.
- Exceptions thrown outside the two try blocks are not modelled: by the keyword matcher, the unavailability lookup or the label check. Those helpers are taken to be total.
- The GitHub client is network I/O and is not modelled. A request is recorded on the `PullRequest` object, and the platform's reply is a function of the request alone.
- A `null` value (as an empty YAML key produces) for `filterLabels`, `filterLabels.include`, `filterLabels.exclude` or `availabilityExceptions` is not modelled. The source tests these with `!== undefined`, which `null` passes. A `null` `filterLabels` or list then throws a `TypeError` when `.include` or `.length` is read (src/handler.ts:81, 91). A `null` `availabilityExceptions` is handed to `getUnavailableUsers` (src/handler.ts:104). The model has only "absent" (`None`) for these fields, so it promises nothing about these inputs.
- The PR number is not modelled. It appears only in log messages.
- The webhook payload is reduced to title, draft flag, author login and labels. A falsy `pull_request` is modelled as absent.
- `reviewers`, `assignees`, `numberOfReviewers`, `numberOfAssignees` and the contents of the group maps are only passed through to the choosers inside `config`.
- The self-assign use of a string `addAssignees` happens inside `chooseAssignees`. The handler only tests its truthiness.
