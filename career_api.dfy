/**
 * The `/api/career/analyze` handler of backend/server.js: it checks that the
 * request body carries a `skills` array, runs the skill analyser on it and
 * wraps the result in the response envelope, echoing the input back.
 *
 * The handler is stated for any analysis function (`HandleAnalyze`), so its
 * properties do not depend on the 21 keyword tables; `AnalyzeEndpoint` plugs
 * in `Classifier.AnalyzeSkills`.
 */
module CareerApi {
  import opened Classifier

  /** What `req.body.skills` holds. */
  datatype SkillsField =
    | Absent            // missing, or another falsy value (null, "", 0, false)
    | NotAnArray        // present and truthy, but not an array
    | Skills(list: seq<string>)

  /** The `topMatch` object of a successful response. */
  datatype TopMatch = TopMatch(title: string, matchScore: nat, averageSalary: nat, description: string)

  /** The `data` object of a successful response (its ISO timestamp is not modelled). */
  datatype ResponseData = ResponseData(
    userSkills: seq<string>, topMatch: TopMatch,
    recommendations: seq<string>, skillGaps: seq<string>)

  /** The JSON body the handler sends, with its HTTP status. */
  datatype Response =
    | Failure(status: nat, message: string)
    | Success(status: nat, message: string, data: ResponseData)

  const InvalidSkillsMessage: string := "Please provide skills array"
  const CompletedMessage: string := "Career analysis completed"

  /** Copies the fields of an analysis into the response data, echoing the skills. */
  function Envelope(skills: seq<string>, a: Analysis): ResponseData {
    ResponseData(skills, TopMatch(a.title, a.matchScore, a.averageSalary, a.description),
                 a.recommendations, a.skillGaps)
  }

  /** backend/server.js:846-882 with the analysis function `analyze`. */
  function HandleAnalyze(field: SkillsField, analyze: seq<string> -> Analysis): Response {
    match field
    case Skills(list) => Success(200, CompletedMessage, Envelope(list, analyze(list)))
    case _ => Failure(400, InvalidSkillsMessage)
  }

  /** The handler as deployed, with the skill analyser. */
  function AnalyzeEndpoint(field: SkillsField): Response {
    HandleAnalyze(field, AnalyzeSkills)
  }

  /**
   * A request is accepted exactly when `skills` is an array (the empty array
   * included); otherwise the answer is 400 with the fixed message and no
   * analysis is run.
   */
  lemma AcceptsExactlyArrays(field: SkillsField, analyze: seq<string> -> Analysis)
    ensures HandleAnalyze(field, analyze).Success? <==> field.Skills?
    ensures !field.Skills? ==> HandleAnalyze(field, analyze) == Failure(400, InvalidSkillsMessage)
    ensures HandleAnalyze(Skills([]), analyze).Success?
  {
  }

  /**
   * On success the input list comes back unchanged as `userSkills`, and every
   * other field is the analysis of exactly that list.
   */
  lemma SuccessEchoesInput(list: seq<string>, analyze: seq<string> -> Analysis)
    ensures var r := HandleAnalyze(Skills(list), analyze);
      && r.status == 200 && r.message == CompletedMessage
      && r.data.userSkills == list
      && r.data.topMatch.title == analyze(list).title
      && r.data.topMatch.matchScore == analyze(list).matchScore
      && r.data.topMatch.averageSalary == analyze(list).averageSalary
      && r.data.topMatch.description == analyze(list).description
      && r.data.recommendations == analyze(list).recommendations
      && r.data.skillGaps == analyze(list).skillGaps
  {
  }
}
