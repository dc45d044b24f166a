/** Talking to GitHub as an App (`src/token/github.rs`): failures and the search for an installation. */
module GitHubTokens {

  import opened Wrappers
  import opened GitHubRequest

  /** A request that never got an answer, or got one without a success status. */
  datatype HttpFailure = Transport | Status(status: nat, message: string)

  function HttpError(failure: HttpFailure): GitHubTokenError {
    match failure
    case Transport => Http
    case Status(status, message) => GitHubError(status, message)
  }

  const NOT_FOUND := 404

  predicate Missing(answer: Result<nat, HttpFailure>) {
    answer.Failure? && answer.error.Status? && answer.error.status == NOT_FOUND
  }

  /** A failure that ends the search. */
  predicate Fatal(answer: Result<nat, HttpFailure>) {
    answer.Failure? && !Missing(answer)
  }

  /** One round of the search: what is found so far, after one more account kind was asked. */
  function SearchStep(found: Option<nat>, answer: Result<nat, HttpFailure>): Result<Option<nat>, GitHubTokenError> {
    match answer
    case Success(id) => Success(Some(id))
    case Failure(failure) => if Missing(answer) then Success(found) else Failure(HttpError(failure))
  }

  /** The loop over account kinds; `answers[k]` is what GitHub says for kind `k`. The first failure
      other than status 404 ends it, with that very failure; otherwise the last success wins; and the
      App is reported as not installed exactly when every answer is a 404. */
  method FindInstallation(namespace: string, answers: seq<Result<nat, HttpFailure>>)
    returns (r: Result<nat, GitHubTokenError>)
    ensures (forall k | 0 <= k < |answers| ::
               answers[k].Success? || (answers[k].error.Status? && answers[k].error.status == 404)) <==>
            r.Success? || r.error == AppNotInstalled(namespace)
    ensures (forall k | 0 <= k < |answers| ::
               answers[k].Failure? && answers[k].error.Status? && answers[k].error.status == 404) <==>
            r == Failure(AppNotInstalled(namespace))
    ensures r.Success? ==>
              exists k | 0 <= k < |answers| ::
                answers[k] == Success(r.value) && forall m | k < m < |answers| :: answers[m].Failure?
    ensures r.Failure? && r.error != AppNotInstalled(namespace) ==>
              exists k | 0 <= k < |answers| ::
                && answers[k].Failure?
                && (match answers[k].error
                    case Transport => r.error == Http
                    case Status(status, message) => status != 404 && r.error == GitHubError(status, message))
                && forall m | 0 <= m < k ::
                     answers[m].Success? || (answers[m].error.Status? && answers[m].error.status == 404)
  {
    var found: Option<nat> := None;
    ghost var last := 0;
    for k := 0 to |answers|
      invariant forall m | 0 <= m < k :: !Fatal(answers[m])
      invariant found.None? ==> forall m | 0 <= m < k :: Missing(answers[m])
      invariant found.Some? ==> 0 <= last < k && answers[last] == Success(found.value)
                                && forall m | last < m < k :: Missing(answers[m])
    {
      var step := SearchStep(found, answers[k]);
      if step.Failure? {
        return Failure(step.error);
      }
      if answers[k].Success? {
        last := k;
      }
      found := step.value;
    }
    match found {
      case Some(installation) => return Success(installation);
      case None => return Failure(AppNotInstalled(namespace));
    }
  }
}
