/** What `handlePullRequest` promises, stated over `Decide` and `Requests`. */
module HandlerProperties {
  import opened Wrappers
  import opened Configuration
  import opened PullRequests
  import opened Precedence
  import opened Handler

  /** Every gate has passed. */
  predicate GatesPass(event: PullRequestEvent, config: Config, env: Environment)
  {
    NoneFiresBefore(Gates(event, config, env), |Gates(event, config, env)|)
  }

  lemma GateOutcomesDistinct(event: PullRequestEvent, config: Config, env: Environment)
    ensures DistinctOutcomes(Gates(event, config, env), Dispatch(event, config, env))
  {
  }

  // ---- Precedence: the gates are tested in order, the first that fires decides.

  /** The nested early returns are the "first gate that fires" rule over `Gates`. */
  lemma DecideIsFirstFiringGate(event: PullRequestEvent, config: Config, env: Environment)
    ensures Decide(Some(event), config, env) == FirstFiring(Gates(event, config, env), Dispatch(event, config, env))
  {
    var gates := Gates(event, config, env);
    var rest := Dispatch(event, config, env);
    assert gates[1..][1..][1..][1..][1..][1..] == [];
    assert FirstFiring(gates[1..][1..][1..][1..][1..], rest) == (if gates[5].fires then gates[5].outcome else rest);
    assert FirstFiring(gates[1..][1..][1..][1..], rest) == (if gates[4].fires then gates[4].outcome else FirstFiring(gates[1..][1..][1..][1..][1..], rest));
    assert FirstFiring(gates[1..][1..][1..], rest) == (if gates[3].fires then gates[3].outcome else FirstFiring(gates[1..][1..][1..][1..], rest));
    assert FirstFiring(gates[1..][1..], rest) == (if gates[2].fires then gates[2].outcome else FirstFiring(gates[1..][1..][1..], rest));
  }

  /** Gate `i` decides exactly when it fires and none of the gates before it does. */
  lemma DecideGateIff(event: PullRequestEvent, config: Config, env: Environment, i: nat)
    requires i < |Gates(event, config, env)|
    ensures Decide(Some(event), config, env) == Gates(event, config, env)[i].outcome
        <==> Gates(event, config, env)[i].fires && NoneFiresBefore(Gates(event, config, env), i)
  {
    DecideIsFirstFiringGate(event, config, env);
    GateOutcomesDistinct(event, config, env);
    FirstFiringIff(Gates(event, config, env), Dispatch(event, config, env), i);
  }

  /** The handler reaches the dispatch tail exactly when every gate passes. */
  lemma ProceedsIffGatesPass(event: PullRequestEvent, config: Config, env: Environment)
    ensures Decide(Some(event), config, env).Proceeded? <==> GatesPass(event, config, env)
    ensures GatesPass(event, config, env) ==> Decide(Some(event), config, env) == Dispatch(event, config, env)
  {
    DecideIsFirstFiringGate(event, config, env);
    GateOutcomesDistinct(event, config, env);
    FirstFiringOtherwiseIff(Gates(event, config, env), Dispatch(event, config, env));
    FirstFiringAtIndex(Gates(event, config, env), Dispatch(event, config, env));
  }

  /** A gate outcome sends no request. */
  lemma EarlyExitSendsNothing(payload: Option<PullRequestEvent>, config: Config, env: Environment)
    ensures !Decide(payload, config, env).Proceeded? ==> Requests(Decide(payload, config, env)) == []
  {
  }

  // ---- The individual gates.

  /** A matching skip keyword wins over the draft gate, the configuration errors and the label filter. */
  lemma SkipKeywordWins(event: PullRequestEvent, config: Config, env: Environment)
    requires KeywordGate(event, config, env)
    ensures Decide(Some(event), config, env) == SkipKeyword
    ensures Requests(Decide(Some(event), config, env)) == []
  {
  }

  /** Absent `skipKeywords` never skips, whatever the matcher would say. */
  lemma NoKeywordsNoKeywordSkip(payload: Option<PullRequestEvent>, config: Config, env: Environment)
    requires config.skipKeywords.None?
    ensures Decide(payload, config, env) != SkipKeyword
  {
  }

  /** Past the keyword gate, a draft is skipped iff `runOnDraft` is false or absent. */
  lemma DraftSkippedIff(event: PullRequestEvent, config: Config, env: Environment)
    requires !KeywordGate(event, config, env)
    ensures Decide(Some(event), config, env) == SkipDraft <==> event.draft && config.runOnDraft != Some(true)
  {
  }

  /** With `runOnDraft` true the draft flag changes nothing. */
  lemma RunOnDraftIgnoresDraftFlag(event: PullRequestEvent, config: Config, env: Environment)
    requires config.runOnDraft == Some(true)
    ensures Decide(Some(event), config, env) == Decide(Some(event.(draft := !event.draft)), config, env)
  {
  }

  /** The review-group error needs both skip gates passed, the switch on and the map absent. */
  lemma ReviewGroupErrorIff(event: PullRequestEvent, config: Config, env: Environment)
    ensures Decide(Some(event), config, env) == ReviewGroupConfigError
        <==> !KeywordGate(event, config, env) && !DraftGate(event, config)
             && config.useReviewGroups && config.reviewGroups.None?
  {
  }

  /** The assignee-group error additionally needs the review-group check passed:
      the review-group check comes first. */
  lemma AssigneeGroupErrorIff(event: PullRequestEvent, config: Config, env: Environment)
    ensures Decide(Some(event), config, env) == AssigneeGroupConfigError
        <==> !KeywordGate(event, config, env) && !DraftGate(event, config) && !ReviewGroupsMissing(config)
             && config.useAssigneeGroups && config.assigneeGroups.None?
  {
  }

  /** A defined group map, even an empty one, never raises the error. */
  lemma DefinedGroupMapsAreNoError(payload: Option<PullRequestEvent>, config: Config, env: Environment)
    ensures config.reviewGroups.Some? ==> Decide(payload, config, env) != ReviewGroupConfigError
    ensures config.assigneeGroups.Some? ==> Decide(payload, config, env) != AssigneeGroupConfigError
  {
  }

  /** Past the earlier gates, a non-empty include list none of whose labels is on the PR skips it. */
  lemma NotIncludedIff(event: PullRequestEvent, config: Config, env: Environment)
    ensures Decide(Some(event), config, env) == SkipNotIncluded
        <==> && !KeywordGate(event, config, env) && !DraftGate(event, config)
             && !ReviewGroupsMissing(config) && !AssigneeGroupsMissing(config)
             && config.filterLabels.Some?
             && config.filterLabels.value.includeLabels.Some?
             && |config.filterLabels.value.includeLabels.value| > 0
             && forall i :: 0 <= i < |config.filterLabels.value.includeLabels.value| ==>
                  config.filterLabels.value.includeLabels.value[i] !in event.labels
  {
  }

  /** An absent or empty include list imposes no constraint. */
  lemma EmptyIncludeNoConstraint(payload: Option<PullRequestEvent>, config: Config, env: Environment)
    requires config.filterLabels.None? || config.filterLabels.value.includeLabels.None?
             || config.filterLabels.value.includeLabels.value == []
    ensures Decide(payload, config, env) != SkipNotIncluded
  {
  }

  /** Past the include check, a non-empty exclude list some label of which is on the PR skips it. */
  lemma ExcludedIff(event: PullRequestEvent, config: Config, env: Environment)
    ensures Decide(Some(event), config, env) == SkipExcluded
        <==> && !KeywordGate(event, config, env) && !DraftGate(event, config)
             && !ReviewGroupsMissing(config) && !AssigneeGroupsMissing(config)
             && !NotIncluded(event, config)
             && config.filterLabels.Some?
             && config.filterLabels.value.excludeLabels.Some?
             && exists i :: 0 <= i < |config.filterLabels.value.excludeLabels.value|
                  && config.filterLabels.value.excludeLabels.value[i] in event.labels
  {
  }

  /** An absent or empty exclude list imposes no constraint. */
  lemma EmptyExcludeNoConstraint(payload: Option<PullRequestEvent>, config: Config, env: Environment)
    requires config.filterLabels.None? || config.filterLabels.value.excludeLabels.None?
             || config.filterLabels.value.excludeLabels.value == []
    ensures Decide(payload, config, env) != SkipExcluded
  {
  }

  /** Without `filterLabels` the PR's labels do not matter. */
  lemma LabelsIrrelevantWithoutFilter(event: PullRequestEvent, config: Config, env: Environment, labels: set<string>)
    requires config.filterLabels.None?
    ensures Decide(Some(event), config, env) == Decide(Some(event.(labels := labels)), config, env)
  {
  }

  // ---- The dispatch tail.

  /** Nobody is unavailable when no availability exceptions are configured. */
  lemma NoExceptionsNobodyUnavailable(config: Config, env: Environment)
    requires config.availabilityExceptions.None?
    ensures Unavailable(config, env) == []
  {
  }

  /** Both choosers receive the author and the same unavailable list. */
  lemma ChoosersShareUnavailableList(event: PullRequestEvent, config: Config, env: Environment)
    requires Decide(Some(event), config, env).Proceeded?
    ensures Decide(Some(event), config, env)
         == Proceeded(ReviewerPath(event.author, config, Unavailable(config, env), env),
                      AssigneePath(event.author, config, Unavailable(config, env), env))
  {
    ProceedsIffGatesPass(event, config, env);
  }

  /** Reviewers are requested iff every gate passes, `addReviewers` is on and the
      chooser returns a non-empty list; the request names exactly that list. */
  lemma ReviewerRequestIff(event: PullRequestEvent, config: Config, env: Environment, reviewers: seq<string>)
    ensures ReviewRequest(reviewers) in Requests(Decide(Some(event), config, env))
        <==> && GatesPass(event, config, env)
             && config.addReviewers
             && env.chooseReviewers(event.author, config, Unavailable(config, env)) == Success(reviewers)
             && |reviewers| > 0
  {
    ProceedsIffGatesPass(event, config, env);
  }

  /** Assignees are added iff every gate passes, `addAssignees` is truthy and the
      chooser returns a non-empty list; the request names exactly that list. */
  lemma AssigneeRequestIff(event: PullRequestEvent, config: Config, env: Environment, assignees: seq<string>)
    ensures AssigneeRequest(assignees) in Requests(Decide(Some(event), config, env))
        <==> && GatesPass(event, config, env)
             && (config.addAssignees == Flag(true) || (config.addAssignees.Directive? && config.addAssignees.text != ""))
             && env.chooseAssignees(event.author, config, Unavailable(config, env)) == Success(assignees)
             && |assignees| > 0
  {
    ProceedsIffGatesPass(event, config, env);
  }

  /** At most one reviewer request and one assignee request, reviewers first. */
  lemma RequestsInOrder(payload: Option<PullRequestEvent>, config: Config, env: Environment)
    ensures |Requests(Decide(payload, config, env))| <= 2
    ensures forall i, j :: 0 <= i < j < |Requests(Decide(payload, config, env))| ==>
              Requests(Decide(payload, config, env))[i].ReviewRequest?
              && Requests(Decide(payload, config, env))[j].AssigneeRequest?
  {
  }

  /** A reviewer chooser that throws is contained: the gates decide as before,
      and the assignee path does exactly what it would have done. */
  lemma ReviewerChooserFailureContained(event: PullRequestEvent, config: Config, env: Environment, message: string)
    ensures var failing := env.(chooseReviewers := (owner: string, c: Config, u: seq<string>) => Failure(message));
      && Decide(Some(event), config, failing).Proceeded? == Decide(Some(event), config, env).Proceeded?
      && (Decide(Some(event), config, env).Proceeded? ==>
            && Decide(Some(event), config, failing).reviewerActions
               == (if config.addReviewers then ChooseFailed(message) else Off)
            && Decide(Some(event), config, failing).assigneeActions
               == Decide(Some(event), config, env).assigneeActions)
  {
  }

  /** A rejected reviewer request is contained in the same way. */
  lemma ReviewerRejectionContained(event: PullRequestEvent, config: Config, env: Environment, message: string)
    ensures var rejecting := env.(reply := (call: ApiCall) => if call.ReviewRequest? then Rejected(message) else env.reply(call));
      && Decide(Some(event), config, rejecting).Proceeded? == Decide(Some(event), config, env).Proceeded?
      && (Decide(Some(event), config, env).Proceeded? ==>
            Decide(Some(event), config, rejecting).assigneeActions
            == Decide(Some(event), config, env).assigneeActions)
  {
  }
}
