/** The `Config` shape read by the pull-request handler. A field that the
    handler tests for `undefined` or for truthiness is an `Option` whose `None`
    is an absent field. A JavaScript `null` has no value of its own here: it
    behaves as `None` under the truthiness tests, but not under the
    `!== undefined` tests on `filterLabels`, its two lists and
    `availabilityExceptions`, so `null` in those fields is outside the model. */
module Configuration {
  import opened Wrappers

  /** `filterLabels: { include?: string[]; exclude?: string[] }`
      (`include` is a Dafny keyword, hence the field names). */
  datatype FilterLabels = FilterLabels(
    includeLabels: Option<seq<string>>,
    excludeLabels: Option<seq<string>>)

  /** `addAssignees: boolean | string`: a flag, or a literal directive string. */
  datatype AssigneeSetting = Flag(on: bool) | Directive(text: string)

  datatype Config = Config(
    addReviewers: bool,
    addAssignees: AssigneeSetting,
    reviewers: seq<string>,
    assignees: seq<string>,
    filterLabels: Option<FilterLabels>,
    numberOfAssignees: int,
    numberOfReviewers: int,
    skipKeywords: Option<seq<string>>,
    useReviewGroups: bool,
    useAssigneeGroups: bool,
    reviewGroups: Option<map<string, seq<string>>>,
    assigneeGroups: Option<map<string, seq<string>>>,
    availabilityExceptions: Option<map<string, seq<string>>>,
    runOnDraft: Option<bool>)

  /** JavaScript truthiness of `addAssignees`: `true`, or a non-empty string. */
  predicate AssigneesEnabled(setting: AssigneeSetting)
  {
    match setting
    case Flag(on) => on
    case Directive(text) => text != ""
  }

  /** `!runOnDraft` is false only when `runOnDraft` is `true`. */
  predicate RunsOnDraft(config: Config)
  {
    config.runOnDraft == Some(true)
  }
}
