/** `handlePullRequest`: the gates applied to a pull-request event, in order,
    then the reviewer and assignee dispatch with their failures contained.
    The helpers the handler calls but whose code is not part of this model are
    fields of `Environment`, left uninterpreted. */
module Handler {
  import opened Wrappers
  import opened Configuration
  import opened PullRequests
  import opened Precedence

  /** The fields of the webhook's pull request that the handler uses. */
  datatype PullRequestEvent = PullRequestEvent(
    title: string,
    draft: bool,
    author: string,
    labels: set<string>)

  /** What the handler learns from code outside this model. `getUnavailableUsers`
      reads the clock, so "today" is folded into the function; the choosers may
      throw (`Failure`); `reply` is the platform's answer to a request. */
  datatype Environment = Environment(
    includesSkipKeywords: (string, seq<string>) -> bool,
    getUnavailableUsers: map<string, seq<string>> -> seq<string>,
    chooseReviewers: (string, Config, seq<string>) -> Result<seq<string>, string>,
    chooseAssignees: (string, Config, seq<string>) -> Result<seq<string>, string>,
    reply: ApiCall -> Reply)

  /** What one dispatch path (reviewers or assignees) did. */
  datatype PathResult =
    | Off                                         // the switch is off; the path did not run
    | ChooseFailed(message: string)               // the chooser threw; caught
    | NoneAvailable                               // the chooser returned nobody
    | Requested(users: seq<string>, reply: Reply) // a request was sent; a rejection is caught

  datatype Outcome =
    | PayloadError
    | SkipKeyword
    | SkipDraft
    | ReviewGroupConfigError
    | AssigneeGroupConfigError
    | SkipNotIncluded
    | SkipExcluded
    | Proceeded(reviewerActions: PathResult, assigneeActions: PathResult)

  // The gates, one predicate each, in the order the handler tests them.

  /** `skipKeywords` is present (an empty list is truthy) and the title matches. */
  predicate KeywordGate(event: PullRequestEvent, config: Config, env: Environment)
  {
    config.skipKeywords.Some? && env.includesSkipKeywords(event.title, config.skipKeywords.value)
  }

  predicate DraftGate(event: PullRequestEvent, config: Config)
  {
    !RunsOnDraft(config) && event.draft
  }

  /** Only an absent map is an error: an empty map is truthy. */
  predicate ReviewGroupsMissing(config: Config)
  {
    config.useReviewGroups && config.reviewGroups.None?
  }

  predicate AssigneeGroupsMissing(config: Config)
  {
    config.useAssigneeGroups && config.assigneeGroups.None?
  }

  /** A non-empty include list none of whose labels is on the PR. */
  predicate NotIncluded(event: PullRequestEvent, config: Config)
  {
    && config.filterLabels.Some?
    && config.filterLabels.value.includeLabels.Some?
    && |config.filterLabels.value.includeLabels.value| > 0
    && !LabelSetMeets(event.labels, config.filterLabels.value.includeLabels.value)
  }

  /** A non-empty exclude list some label of which is on the PR. */
  predicate Excluded(event: PullRequestEvent, config: Config)
  {
    && config.filterLabels.Some?
    && config.filterLabels.value.excludeLabels.Some?
    && |config.filterLabels.value.excludeLabels.value| > 0
    && LabelSetMeets(event.labels, config.filterLabels.value.excludeLabels.value)
  }

  /** The gates after the payload check, in the order they are tested. */
  function Gates(event: PullRequestEvent, config: Config, env: Environment): (gates: seq<Gate<Outcome>>)
  {
    [ Gate(KeywordGate(event, config, env), SkipKeyword),
      Gate(DraftGate(event, config), SkipDraft),
      Gate(ReviewGroupsMissing(config), ReviewGroupConfigError),
      Gate(AssigneeGroupsMissing(config), AssigneeGroupConfigError),
      Gate(NotIncluded(event, config), SkipNotIncluded),
      Gate(Excluded(event, config), SkipExcluded) ]
  }

  /** The users unavailable today; nobody when no exceptions are configured. */
  function Unavailable(config: Config, env: Environment): (unavailable: seq<string>)
  {
    match config.availabilityExceptions
    case None => []
    case Some(exceptions) => env.getUnavailableUsers(exceptions)
  }

  function ReviewerPath(owner: string, config: Config, unavailable: seq<string>, env: Environment): (path: PathResult)
  {
    if !config.addReviewers then Off
    else match env.chooseReviewers(owner, config, unavailable)
      case Failure(message) => ChooseFailed(message)
      case Success(reviewers) =>
        if |reviewers| > 0 then Requested(reviewers, env.reply(ReviewRequest(reviewers)))
        else NoneAvailable
  }

  function AssigneePath(owner: string, config: Config, unavailable: seq<string>, env: Environment): (path: PathResult)
  {
    if !AssigneesEnabled(config.addAssignees) then Off
    else match env.chooseAssignees(owner, config, unavailable)
      case Failure(message) => ChooseFailed(message)
      case Success(assignees) =>
        if |assignees| > 0 then Requested(assignees, env.reply(AssigneeRequest(assignees)))
        else NoneAvailable
  }

  /** The tail of the handler, once every gate has passed: one unavailable list,
      handed to both paths; the assignee path runs whatever the reviewer path did. */
  function Dispatch(event: PullRequestEvent, config: Config, env: Environment): (o: Outcome)
  {
    var unavailable := Unavailable(config, env);
    Proceeded(ReviewerPath(event.author, config, unavailable, env),
              AssigneePath(event.author, config, unavailable, env))
  }

  /** The decision `handlePullRequest` takes for one event. */
  function Decide(payload: Option<PullRequestEvent>, config: Config, env: Environment): (o: Outcome)
    ensures o == PayloadError <==> payload.None?
  {
    match payload
    case None => PayloadError
    case Some(event) =>
      if KeywordGate(event, config, env) then SkipKeyword
      else if DraftGate(event, config) then SkipDraft
      else if ReviewGroupsMissing(config) then ReviewGroupConfigError
      else if AssigneeGroupsMissing(config) then AssigneeGroupConfigError
      else if NotIncluded(event, config) then SkipNotIncluded
      else if Excluded(event, config) then SkipExcluded
      else Dispatch(event, config, env)
  }

  /** The request a path sent, if any: one for `Requested`, none otherwise. */
  function ReviewerRequests(path: PathResult): (calls: seq<ApiCall>)
  {
    if path.Requested? then [ReviewRequest(path.users)] else []
  }

  function AssigneeRequests(path: PathResult): (calls: seq<ApiCall>)
  {
    if path.Requested? then [AssigneeRequest(path.users)] else []
  }

  /** The requests sent to the platform for an outcome, in the order sent. */
  function Requests(o: Outcome): (calls: seq<ApiCall>)
  {
    match o
    case Proceeded(reviewerActions, assigneeActions) =>
      ReviewerRequests(reviewerActions) + AssigneeRequests(assigneeActions)
    case _ => []
  }

  /** The reviewer path (the first try block): choose, then request if anyone was chosen. */
  method RunReviewerPath(pr: PullRequest, owner: string, config: Config, unavailable: seq<string>, env: Environment)
    returns (result: PathResult)
    requires pr.respond == env.reply
    modifies pr
    ensures result == ReviewerPath(owner, config, unavailable, env)
    ensures pr.requests == old(pr.requests) + ReviewerRequests(result)
  {
    result := Off;
    if config.addReviewers {
      var chosen := env.chooseReviewers(owner, config, unavailable);
      match chosen
      case Failure(message) =>
        result := ChooseFailed(message);
      case Success(reviewers) =>
        if |reviewers| > 0 {
          var reply := pr.AddReviewers(reviewers);
          result := Requested(reviewers, reply);
        } else {
          result := NoneAvailable;
        }
    }
  }

  /** The assignee path (the second try block). */
  method RunAssigneePath(pr: PullRequest, owner: string, config: Config, unavailable: seq<string>, env: Environment)
    returns (result: PathResult)
    requires pr.respond == env.reply
    modifies pr
    ensures result == AssigneePath(owner, config, unavailable, env)
    ensures pr.requests == old(pr.requests) + AssigneeRequests(result)
  {
    result := Off;
    if AssigneesEnabled(config.addAssignees) {
      var chosen := env.chooseAssignees(owner, config, unavailable);
      match chosen
      case Failure(message) =>
        result := ChooseFailed(message);
      case Success(assignees) =>
        if |assignees| > 0 {
          var reply := pr.AddAssignees(assignees);
          result := Requested(assignees, reply);
        } else {
          result := NoneAvailable;
        }
    }
  }

  /** The handler as the source runs it: early returns, then the two guarded
      paths against the pull request object, recording each request sent. */
  method HandlePullRequest(payload: Option<PullRequestEvent>, config: Config, env: Environment)
    returns (outcome: Outcome, requests: seq<ApiCall>)
    ensures outcome == Decide(payload, config, env)
    ensures requests == Requests(outcome)
  {
    if payload.None? {
      return PayloadError, [];
    }
    var event := payload.value;
    if config.skipKeywords.Some? && env.includesSkipKeywords(event.title, config.skipKeywords.value) {
      return SkipKeyword, [];
    }
    if config.runOnDraft != Some(true) && event.draft {
      return SkipDraft, [];
    }
    if config.useReviewGroups && config.reviewGroups.None? {
      return ReviewGroupConfigError, [];
    }
    if config.useAssigneeGroups && config.assigneeGroups.None? {
      return AssigneeGroupConfigError, [];
    }

    var owner := event.author;
    var pr := new PullRequest(event.labels, env.reply);

    if config.filterLabels.Some? {
      var filter := config.filterLabels.value;
      if filter.includeLabels.Some? && |filter.includeLabels.value| > 0 {
        var hasLabels := pr.HasAnyLabel(filter.includeLabels.value);
        if !hasLabels {
          return SkipNotIncluded, pr.requests;
        }
      }
      if filter.excludeLabels.Some? && |filter.excludeLabels.value| > 0 {
        var hasLabels := pr.HasAnyLabel(filter.excludeLabels.value);
        if hasLabels {
          return SkipExcluded, pr.requests;
        }
      }
    }

    var unavailableUsers: seq<string> := [];
    if config.availabilityExceptions.Some? {
      unavailableUsers := env.getUnavailableUsers(config.availabilityExceptions.value);
    }

    var reviewerActions := RunReviewerPath(pr, owner, config, unavailableUsers, env);
    var assigneeActions := RunAssigneePath(pr, owner, config, unavailableUsers, env);
    outcome := Proceeded(reviewerActions, assigneeActions);
    requests := pr.requests;
  }
}
