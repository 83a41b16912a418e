/**
 * Challenges (`htbcli/modules/challenges.py`): the requests
 * `ChallengesModule` builds and the `--difficulty` choice of `list`.
 */
module Challenges {
  import opened Wrappers
  import opened PyStr
  import opened Json
  import opened Http
  import Machines

  /** `get_challenges(page, per_page, difficulty, category)`: each filter only when truthy. */
  function GetChallenges(page: int, perPage: int, difficulty: Option<string>, category: Option<string>): (r: Request)
    ensures r.verb == GET && r.path == "/challenges" && r.body.None?
    ensures PassesPage(r.params, page, perPage)
    ensures "difficulty" in r.params <==> Machines.Given(difficulty)
    ensures "category" in r.params <==> Machines.Given(category)
    ensures Machines.Given(difficulty) ==> r.params["difficulty"] == PStr(difficulty.value)
    ensures Machines.Given(category) ==> r.params["category"] == PStr(category.value)
    ensures r.params.Keys <= {"page", "per_page", "difficulty", "category"}
  {
    var params := PageParams(page, perPage);
    var params := if Machines.Given(difficulty) then params["difficulty" := PStr(difficulty.value)] else params;
    var params := if Machines.Given(category) then params["category" := PStr(category.value)] else params;
    Get("/challenges", params)
  }

  /** `submit_challenge_flag(flag)`: only the flag is sent, no challenge id. */
  function SubmitChallengeFlag(flag: string): (r: Request)
    ensures r.verb == POST && r.path == "/challenge/own" && r.params == map[]
    ensures r.body == Some(map["flag" := JStr(flag)])
  {
    Post("/challenge/own", Some(map["flag" := JStr(flag)]))
  }

  /** `mark_review_helpful(review_id)`: a POST with no body. */
  function MarkReviewHelpful(reviewId: int): (r: Request)
    ensures r.verb == POST && r.path == "/challenge/review/helpful/" + IntToString(reviewId)
    ensures r.body.None? && r.params == map[]
  {
    Post("/challenge/review/helpful/" + IntToString(reviewId), None)
  }

  /** `start_challenge(challenge_id)` */
  function StartChallenge(challengeId: int): (r: Request)
    ensures r.verb == POST && r.path == "/challenge/start" && r.params == map[] && r.body == Some(map["challenge_id" := JInt(challengeId)])
  {
    Post("/challenge/start", Some(map["challenge_id" := JInt(challengeId)]))
  }

  /** `stop_challenge(challenge_id)` */
  function StopChallenge(challengeId: int): (r: Request)
    ensures r.verb == POST && r.path == "/challenge/stop" && r.params == map[] && r.body == Some(map["challenge_id" := JInt(challengeId)])
  {
    Post("/challenge/stop", Some(map["challenge_id" := JInt(challengeId)]))
  }

  /** Starting and stopping send the same body to different paths. */
  lemma StartStopDiffer(challengeId: int)
    ensures StartChallenge(challengeId).body == StopChallenge(challengeId).body
    ensures StartChallenge(challengeId).path != StopChallenge(challengeId).path
  {
    assert |StartChallenge(challengeId).path| == 16 && |StopChallenge(challengeId).path| == 15;
  }

  /** The values `click.Choice` accepts for `list --difficulty`, compared case-sensitively. */
  const DifficultyChoices: seq<string> := ["Easy", "Medium", "Hard", "Insane"]

  /** Click's usage error for a value outside the choice. */
  datatype UsageError = InvalidChoice(value: string)

  /** `--difficulty` as Click parses it: absent, one of the choices, or rejected before any request. */
  function ParseDifficulty(value: Option<string>): (r: Result<Option<string>, UsageError>)
    ensures value.None? ==> r == Success(None)
    ensures value.Some? ==> (r.Success? <==> value.value in DifficultyChoices)
    ensures r.Success? ==> r.value == value
  {
    match value
    case None => Success(None)
    case Some(v) => if v in DifficultyChoices then Success(Some(v)) else Failure(InvalidChoice(v))
  }

  /** The command `list` sends a request only for an accepted difficulty, and passes it through unchanged. */
  function ListChallengesRequest(page: int, perPage: int, difficulty: Option<string>, category: Option<string>): (r: Result<Request, UsageError>)
    ensures r.Success? <==> difficulty.None? || difficulty.value in DifficultyChoices
    ensures r.Success? ==> r.value == GetChallenges(page, perPage, difficulty, category)
  {
    match ParseDifficulty(difficulty)
    case Success(d) => Success(GetChallenges(page, perPage, d, category))
    case Failure(e) => Failure(e)
  }

  /** The comparison is case-sensitive: the lower-case names the completion lists offer are rejected. */
  lemma LowerCaseDifficultyRejected()
    ensures ParseDifficulty(Some("easy")).Failure?
    ensures ParseDifficulty(Some("very-easy")).Failure?
    ensures ParseDifficulty(Some("Easy")) == Success(Some("Easy"))
  {
    assert "easy" != "Easy" by { assert "easy"[0] != "Easy"[0]; }
    assert "easy" != "Medium" && "easy" != "Hard" && "easy" != "Insane";
    assert "very-easy" !in DifficultyChoices;
  }
}
