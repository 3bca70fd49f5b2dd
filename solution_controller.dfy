/** The `submit` and `run` handlers of `Backend/src/domains/solution/solution.controller.js`.
    Both build one Judge0 request per test case, send the batch, reduce the results with
    `Verdict.ReduceResults` and answer with a verdict report; `submit` also records the
    verdict on a fresh `Pending` submission and, on acceptance, adds the problem to the
    user's solved list. The Judge0 round trip (`createBatchedSubmission` then
    `getBatchedSubmission`) is an oracle: its result list is the parameter `results`,
    which need not have one entry per request. The database lookups are parameters too:
    `problem` is what `problem_model.findById` returned and `user` what
    `user_model.findById` returned. A missing request field is the empty string. */
module SolutionController {
  import opened Wrappers
  import opened Text
  import opened Judge
  import opened Verdict
  import opened Http

  /** The parts of a Problem document the handlers read. */
  datatype ProblemRecord = ProblemRecord(visibleTestCases: seq<TestCase>, hiddenTestCases: seq<TestCase>)

  /** One request per test case, in test-case order, each with the same language id and the
      trimmed source code. */
  predicate RequestsFor(requests: seq<JudgeRequest>, languageId: Option<LanguageId>, code: string,
                        cases: seq<TestCase>)
  {
    |requests| == |cases| &&
    forall i :: 0 <= i < |cases| ==>
      requests[i] == JudgeRequest(languageId, Trim(code), cases[i].stdin, cases[i].expectedOutput)
  }

  /** The loop that pushes one batch entry per test case. */
  method BuildRequests(languageId: Option<LanguageId>, code: string, cases: seq<TestCase>)
    returns (requests: seq<JudgeRequest>)
    ensures RequestsFor(requests, languageId, code, cases)
  {
    requests := [];
    var i := 0;
    while i < |cases|
      invariant 0 <= i <= |cases|
      invariant RequestsFor(requests, languageId, code, cases[..i])
    {
      requests := requests + [JudgeRequest(languageId, Trim(code), cases[i].stdin, cases[i].expectedOutput)];
      i := i + 1;
    }
  }

  /** The solved list after `if (!problemSolved.includes(id)) problemSolved.push(id)`. */
  function WithSolved(solved: seq<string>, id: string): (r: seq<string>)
    ensures id in r
    ensures forall x :: x in r <==> x in solved || x == id
    ensures solved <= r && |r| <= |solved| + 1
    ensures Distinct(solved) ==> Distinct(r)
  {
    if id in solved then solved else solved + [id]
  }

  /** A Submission document; `submit` creates it and updates its verdict fields in place. */
  class Submission {
    const userId: string
    const problemId: string
    const code: string
    const language: string
    const totalTestCases: nat
    var status: string
    var runtime: Seconds
    var memory: nat
    var errorMessage: Option<string>
    var totalTestCasesPassed: nat

    /** `submission_model.create`: status "Pending", the test-case total given, and the
        schema defaults (0 and "") for the verdict fields. */
    constructor Create(userId: string, problemId: string, code: string, language: string,
                       totalTestCases: nat)
      ensures this.userId == userId && this.problemId == problemId
      ensures this.code == code && this.language == language
      ensures this.totalTestCases == totalTestCases
      ensures status == "Pending" && runtime == 0.0 && memory == 0
      ensures errorMessage == Some("") && totalTestCasesPassed == 0
    {
      this.userId := userId;
      this.problemId := problemId;
      this.code := code;
      this.language := language;
      this.totalTestCases := totalTestCases;
      status := "Pending";
      runtime := 0.0;
      memory := 0;
      errorMessage := Some("");
      totalTestCasesPassed := 0;
    }

    /** Writes the aggregate onto the record: exactly the status, memory, runtime, passed
        count and error message change. */
    method Record(agg: Aggregate)
      modifies this
      ensures status == agg.overallStatus && memory == agg.totalMemory
      ensures runtime == agg.totalTime && totalTestCasesPassed == agg.passedCount
      ensures errorMessage == agg.errorMessage
    {
      status := agg.overallStatus;
      memory := agg.totalMemory;
      runtime := agg.totalTime;
      totalTestCasesPassed := agg.passedCount;
      errorMessage := agg.errorMessage;
    }
  }

  /** A User document, reduced to the solved list `submit` updates. */
  class User {
    var problemSolved: seq<string>

    constructor (problemSolved: seq<string>)
      ensures this.problemSolved == problemSolved
    {
      this.problemSolved := problemSolved;
    }

    /** Adds the problem id unless it is already present. */
    method MarkSolved(problemId: string)
      modifies this
      ensures problemSolved == WithSolved(old(problemSolved), problemId)
    {
      if problemId !in problemSolved {
        problemSolved := problemSolved + [problemId];
      }
    }
  }

  /** The request passed the handler's guards and named an existing problem. */
  predicate Admitted(userId: string, problemId: string, code: string, language: string,
                     problem: Option<ProblemRecord>)
  {
    userId != "" && problemId != "" && code != "" && language != "" && problem.Some?
  }

  /** The guard responses, in the order the handlers check them. */
  function GuardResponse(userId: string, problemId: string, code: string, language: string,
                         problem: Option<ProblemRecord>): (r: Option<Response>)
    ensures r.None? <==> Admitted(userId, problemId, code, language, problem)
    ensures userId == "" ==> r == Some(Response(401, Message("User not authenticated.")))
    ensures userId != "" && problemId == "" ==>
              r == Some(Response(400, Message("Problem ID not provided.")))
    ensures (userId != "" && problemId != "" && (code == "" || language == "")) ==>
              r == Some(Response(400, Message("Code or language missing in solution.")))
    ensures (userId != "" && problemId != "" && code != "" && language != "" && problem.None?) ==>
              r == Some(Response(404, Message("Problem not found")))
  {
    if userId == "" then Some(Response(401, Message("User not authenticated.")))
    else if problemId == "" then Some(Response(400, Message("Problem ID not provided.")))
    else if code == "" || language == "" then
      Some(Response(400, Message("Code or language missing in solution.")))
    else if problem.None? then Some(Response(404, Message("Problem not found")))
    else None
  }

  /** `statuses[firstErrorStatusId] || "Unknown Error"`. */
  function Description(statuses: StatusLabels, id: Option<int>): (d: string)
    ensures d != ""
    ensures id.Some? && id.value in statuses && statuses[id.value] != "" ==> d == statuses[id.value]
    ensures !(id.Some? && id.value in statuses && statuses[id.value] != "") ==> d == "Unknown Error"
  {
    match id
    case None => "Unknown Error"
    case Some(i) => LabelOr(statuses, i, "Unknown Error")
  }

  /** The verdict report both handlers send, with their own messages. */
  function Report(acceptedMessage: string, failedMessage: string, statuses: StatusLabels,
                  agg: Aggregate, passed: Tally): (b: Body)
    ensures b.AcceptedReport? <==> agg.overallStatus == "Accepted"
    ensures b.AcceptedReport? ==>
              b == AcceptedReport(acceptedMessage, "Accepted", passed, agg.totalTime, agg.totalMemory)
    ensures !b.AcceptedReport? ==>
              b.FailedReport? && b.message == failedMessage && b.status == agg.overallStatus
              && b.passed == passed && b.error == agg.errorMessage
              && b.description == Description(statuses, agg.firstErrorStatusId)
  {
    if agg.overallStatus == "Accepted" then
      AcceptedReport(acceptedMessage, agg.overallStatus, passed, agg.totalTime, agg.totalMemory)
    else
      FailedReport(failedMessage, agg.overallStatus, passed, agg.errorMessage,
                   Description(statuses, agg.firstErrorStatusId))
  }

  /** The `language` enum of the Submission schema: `submission_model.create` refuses any
      other value, exactly as spelled. */
  const SubmissionLanguages: set<string> := {"C++", "Java", "Python", "JavaScript", "Rust", "C"}

  /** The `status` enum of the Submission schema: `submission.save` refuses any other value. */
  const SubmissionStatuses: set<string> := {"Pending", "Accepted", "Error"}

  /** `submit`: evaluates the code against the hidden test cases and records the verdict.
      A language outside the schema's enum makes `create` throw before anything is sent, and
      a verdict label outside the status enum makes `save` throw after the batch was judged;
      both end in the catch-all 500 with the user untouched. */
  method Submit(userId: string, problemId: string, code: string, language: string,
                problem: Option<ProblemRecord>, user: User?, statuses: StatusLabels,
                results: seq<JudgeResult>)
    returns (requests: seq<JudgeRequest>, submission: Submission?, response: Response)
    modifies user
    ensures !Admitted(userId, problemId, code, language, problem) ==>
              GuardResponse(userId, problemId, code, language, problem) == Some(response)
              && requests == [] && submission == null && (user != null ==> unchanged(user))
    ensures Admitted(userId, problemId, code, language, problem) && language !in SubmissionLanguages ==>
              response == Response(500, ServerError)
              && requests == [] && submission == null && (user != null ==> unchanged(user))
    ensures Admitted(userId, problemId, code, language, problem) && language in SubmissionLanguages ==>
              var hidden := problem.value.hiddenTestCases;
              var agg := Reduce(statuses, results);
              && RequestsFor(requests, GetLanguageId(language), code, hidden)
              && submission != null && fresh(submission)
              && submission.userId == userId && submission.problemId == problemId
              && submission.code == code && submission.language == language
              && submission.totalTestCases == |hidden|
              && submission.status == agg.overallStatus
              && submission.runtime == PassedTime(results)
              && submission.memory == PassedMaxMemory(results)
              && submission.totalTestCasesPassed == PassedCount(results)
              && submission.errorMessage == agg.errorMessage
              && (agg.overallStatus !in SubmissionStatuses ==>
                    (user != null ==> unchanged(user)) && response == Response(500, ServerError))
              && (agg.overallStatus == "Accepted" && user != null ==>
                    user.problemSolved == WithSolved(old(user.problemSolved), problemId)
                    && response == Response(200, Report("Submission accepted!", "Submission failed",
                                                        statuses, agg, Count(agg.passedCount))))
              && (agg.overallStatus == "Accepted" && user == null ==>
                    response == Response(500, ServerError))
              && (agg.overallStatus in SubmissionStatuses && agg.overallStatus != "Accepted" ==>
                    (user != null ==> unchanged(user))
                    && response == Response(200, Report("Submission accepted!", "Submission failed",
                                                        statuses, agg, Count(agg.passedCount))))
    ensures Admitted(userId, problemId, code, language, problem) && WellFormedLabels(statuses)
            && user != null ==>
              (problemId in user.problemSolved <==>
                 problemId in old(user.problemSolved)
                 || (language in SubmissionLanguages && AllPassed(results)))
  {
    var guard := GuardResponse(userId, problemId, code, language, problem);
    if guard.Some? {
      return [], null, guard.value;
    }
    if language !in SubmissionLanguages {
      return [], null, Response(500, ServerError);
    }
    var hidden := problem.value.hiddenTestCases;
    submission := new Submission.Create(userId, problemId, code, language, |hidden|);
    var languageId := GetLanguageId(language);
    requests := BuildRequests(languageId, code, hidden);
    var agg := ReduceResults(statuses, results);
    submission.Record(agg);
    if WellFormedLabels(statuses) {
      VerdictAcceptedIff(statuses, results);
    }
    if agg.overallStatus !in SubmissionStatuses {
      return requests, submission, Response(500, ServerError);
    }
    if agg.overallStatus == "Accepted" {
      if user == null {
        return requests, submission, Response(500, ServerError);
      }
      user.MarkSolved(problemId);
    }
    response := Response(200, Report("Submission accepted!", "Submission failed", statuses, agg,
                                     Count(agg.passedCount)));
  }

  /** `run`: evaluates the code against the visible test cases; nothing is recorded. */
  method Run(userId: string, problemId: string, code: string, language: string,
             problem: Option<ProblemRecord>, statuses: StatusLabels, results: seq<JudgeResult>)
    returns (requests: seq<JudgeRequest>, response: Response)
    ensures !Admitted(userId, problemId, code, language, problem) ==>
              GuardResponse(userId, problemId, code, language, problem) == Some(response)
              && requests == []
    ensures Admitted(userId, problemId, code, language, problem) ==>
              var visible := problem.value.visibleTestCases;
              var agg := Reduce(statuses, results);
              && RequestsFor(requests, GetLanguageId(language), code, visible)
              && agg.passedCount == PassedCount(results)
              && response == Response(200, Report("Solution accepted!", "Incorrect Solution", statuses,
                                                  agg, OutOf(agg.passedCount, |visible|)))
    ensures Admitted(userId, problemId, code, language, problem) && WellFormedLabels(statuses) ==>
              (response.body.AcceptedReport? <==> AllPassed(results))
  {
    var guard := GuardResponse(userId, problemId, code, language, problem);
    if guard.Some? {
      return [], guard.value;
    }
    var visible := problem.value.visibleTestCases;
    var languageId := GetLanguageId(language);
    requests := BuildRequests(languageId, code, visible);
    var agg := ReduceResults(statuses, results);
    if WellFormedLabels(statuses) {
      VerdictAcceptedIff(statuses, results);
    }
    response := Response(200, Report("Solution accepted!", "Incorrect Solution", statuses, agg,
                                     OutOf(agg.passedCount, |visible|)));
  }
}
