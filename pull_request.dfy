/** The pull request the handler acts on: its labels, and a record of the
    requests sent to the hosting platform on its behalf. The platform's answer
    to a request is a parameter (`respond`); nothing is sent anywhere. */
module PullRequests {

  /** A request the handler sends about the pull request. */
  datatype ApiCall = ReviewRequest(reviewers: seq<string>) | AssigneeRequest(assignees: seq<string>)

  /** The platform's answer: a rejection is thrown by the client in the source. */
  datatype Reply = Accepted | Rejected(message: string)

  /** A label set meets a list of label names when some listed name is in the set. */
  predicate LabelSetMeets(labels: set<string>, names: seq<string>)
  {
    exists i :: 0 <= i < |names| && names[i] in labels
  }

  class PullRequest {
    const labels: set<string>
    const respond: ApiCall -> Reply
    /** The requests sent so far, oldest first. */
    var requests: seq<ApiCall>

    constructor (labels: set<string>, respond: ApiCall -> Reply)
      ensures this.labels == labels && this.respond == respond
      ensures requests == []
    {
      this.labels := labels;
      this.respond := respond;
      requests := [];
    }

    predicate HasAnyLabel(names: seq<string>)
    {
      LabelSetMeets(labels, names)
    }

    method AddReviewers(reviewers: seq<string>) returns (reply: Reply)
      modifies this
      ensures requests == old(requests) + [ReviewRequest(reviewers)]
      ensures reply == respond(ReviewRequest(reviewers))
    {
      requests := requests + [ReviewRequest(reviewers)];
      reply := respond(ReviewRequest(reviewers));
    }

    method AddAssignees(assignees: seq<string>) returns (reply: Reply)
      modifies this
      ensures requests == old(requests) + [AssigneeRequest(assignees)]
      ensures reply == respond(AssigneeRequest(assignees))
    {
      requests := requests + [AssigneeRequest(assignees)];
      reply := respond(AssigneeRequest(assignees));
    }
  }
}
