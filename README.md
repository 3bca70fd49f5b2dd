# Submission evaluation of a coding-challenge platform, in Dafny

This project models the core of a LeetCode-style platform. Users submit code for a
problem. The backend sends one Judge0 request per test case. It reduces the per-case
results into one verdict, records that verdict on a `Submission` document and, on
acceptance, adds the problem to the user's solved list. A second handler, `run`,
evaluates code against the visible test cases and records nothing. `createProblem`
accepts a new problem only if every reference solution passes every visible test case.
Around this core the model covers the backend's validators, the Judge0 language table,
the two Redux slices of the frontend, and the pure helpers of the problem list page, the
practice editor and the signup form.

Modules, one per source file or shared concept:

- `Text`: the JavaScript string operations the code relies on. These are `trim`,
  `split`/`join` on one character, and `toLowerCase` on ASCII letters. The lemmas cover
  the split/join round trips and what trimming keeps.
- `Wrappers`, `JsValue`, `Http`: `Option`, the validators' pass/throw outcome, JavaScript
  values with their truthiness, and the handlers' responses.
- `Judge` (`judge.0.js`): `getLanguageId`, the status-label table, and the request and
  result records.
- `Verdict`: the result loop shared by `submit` and `run`. `ReduceResults` is the loop.
  `Reduce` is the same loop as a fold. `Verdict` is a reference definition stated
  without the loop (first failing case, count, sum, maximum). The lemmas prove that the
  loop computes the reference.
- `SolutionController` (`solution.controller.js`): request building, `Submit` with the
  `Submission` and `User` records as classes, and `Run`.
- `ProblemValidation`, `ProblemController` (`validate.problem.js`, `problem.controller.js`):
  the mandatory-key check, the reference-solution batch and the all-accepted gate.
- `UserValidation` (`validate.user.js`): the registration and login guards.
- `AuthSlice`, `ProblemSlice`: the reducers as classes with one method per action case.
- `ProblemPage`, `Practice`, `Signup`: the page helpers, the formatter and the zod schemas.

The Judge0 round trip is an oracle. `Submit`, `Run` and `CreateProblem` take the result
list as a parameter and do not assume it has one entry per request. The label table
`statuses` is imported by both controllers but defined in no modelled file, so it is a
parameter. Its labels are read the JavaScript way. An absent or empty label is falsy
where a fallback follows (`statuses[id] || "Error"`). The error message
`stderr || statuses[id]` takes the label as it stands, even when it is "".

The loop uses the label "Accepted" as its "no failure yet" flag. So "the first failure
decides the verdict" holds only when no status other than 3 is labelled "Accepted".
`WellFormedLabels` states that condition, and Judge0's real table meets it. The
count, run time and memory results hold for every table.

Facts about the code that the model keeps:

- `getLanguageId` indexes a plain object literal. A name outside the table gives
  `undefined`, except "constructor" and "__proto__" in any letter case, which give the
  members inherited from `Object.prototype`. `run` and `createProblem` send whatever it
  returns. `submit` first creates the Submission document, whose schema admits only
  "C++", "Java", "Python", "JavaScript", "Rust" and "C" (exactly as spelled). Any other
  language makes `create` throw, and the handler answers 500 before anything is sent.
  Of the admitted names, "Rust" and "C" go out with `language_id: undefined`.
- The Submission schema admits only the statuses "Pending", "Accepted" and "Error". When
  the loop's verdict label is any other string, `save` throws and `submit` answers 500.
  The user's solved list is then left as it was.
- Recording a verdict has no "already finalized" guard. `Submission.Record` overwrites.
- Judge0 results are fetched once, with no polling loop.

## Model

| member | source | states |
|---|---|---|
| Text.Leading | Backend/src/domains/solution/solution.controller.js:65 | the count of leading characters `trim` removes: all of them are white space and the next one is not |
| Text.Trailing | Backend/src/domains/solution/solution.controller.js:65 | the count of trailing characters `trim` removes: all of them are white space and the one before them is not |
| Text.Trim | Backend/src/domains/solution/solution.controller.js:65 | `trim` gives the slice of its input between maximal runs of white space at both ends; the result has no white space at either end |
| Text.Join | Frontend/src/component/Practice/Practice.jsx:33 | `join` of no parts is "", of one part that part, and otherwise starts with the first part followed by the separator; `Text.SplitJoin` shows `split` inverts it (also ProblemPage.jsx:57) |
| Text.Split | Frontend/src/component/Practice/Practice.jsx:31 | `split` on one character gives at least one piece, and no piece contains the separator |
| Text.JoinSplit | Frontend/src/component/Practice/Practice.jsx:31-33 | joining the pieces of a split with the same separator gives back the original string |
| Text.SplitJoin | Frontend/src/component/Problems/ProblemPage.jsx:37-39 | splitting the join of one or more separator-free parts gives back the parts |
| Text.Lower | Backend/src/utils/judge.0.js:11 | ASCII `toLowerCase` maps A–Z to a–z, keeps every other character and keeps the length |
| Text.LowerIdempotent | Backend/src/utils/judge.0.js:11 | lower-casing twice equals lower-casing once |
| Judge.GetLanguageId | Backend/src/utils/judge.0.js:4-12 | a name resolves iff its lower-case form is c++, javascript, java or python; these map to 105, "102", 91 and "109"; "constructor" and "__proto__" in any case give the inherited `Object.prototype` member; any other name gives undefined (None) |
| Judge.InheritedNames | Backend/src/utils/judge.0.js:5-11 | "Constructor" and "__PROTO__" resolve to inherited members, not to undefined |
| Judge.GetLanguageIdIgnoresCase | Backend/src/utils/judge.0.js:11 | the lookup gives the same result for a name and its lower-case form |
| Judge.SchemaLanguages | Backend/src/models/Problem.model.js:76 | C++, Java, Python and JavaScript resolve; Rust and C, also allowed by the schema enum, give undefined |
| Judge.Label | Backend/src/domains/solution/solution.controller.js:92 | `statuses[id]` is a usable label only when present and non-empty |
| Verdict.FailureMessage | Backend/src/domains/solution/solution.controller.js:93 | a failing case's message is its stderr when non-empty, otherwise its status label as it stands ("" included); it is undefined (None) only when stderr is empty and the label is absent |
| Verdict.Step | Backend/src/domains/solution/solution.controller.js:85-106 | one iteration: an accepted case adds one to the count and never lowers time or memory; a failing case changes neither metric and sets status, message and id only while the status reads "Accepted" |
| Verdict.Reduce | Backend/src/domains/solution/solution.controller.js:78-106 | the loop as a fold: the count never exceeds the number of results, a status other than "Accepted" comes with a recorded failing id, and that id is never 3 |
| Verdict.Verdict | Backend/src/domains/solution/solution.controller.js:78-106 | the reference verdict: no failing id iff every case passed, and then "Accepted" with no message; the count is at most the number of results |
| Verdict.PassedCount | Backend/src/domains/solution/solution.controller.js:85-99 | the number of status-3 results is at most the number of results, and equals it iff every result has status 3 |
| Verdict.PassedMaxMemory | Backend/src/domains/solution/solution.controller.js:102-105 | the reported memory bounds every accepted case's memory and is either 0 or one accepted case's memory |
| Verdict.FirstFailure | Backend/src/domains/solution/solution.controller.js:88-95 | the earliest index whose status is not 3; None iff every case passed |
| Verdict.ReduceResults | Backend/src/domains/solution/solution.controller.js:78-106 | the loop yields the count of status-3 results, the summed time and the maximum memory of accepted cases, and notes a failing status iff some case failed; with a well-formed label table it yields the reference verdict |
| Verdict.ReduceMetrics | Backend/src/domains/solution/solution.controller.js:96-105 | whatever the label table, the loop's count, run time and memory are the reference ones; the loop goes on past failures |
| Verdict.ReduceNotesFailure | Backend/src/domains/solution/solution.controller.js:80-95 | whatever the label table, a failing status id is recorded iff some case failed, and with none recorded the status stays "Accepted" |
| Verdict.ReduceIsVerdict | Backend/src/domains/solution/solution.controller.js:85-106 | with a well-formed label table, only the first failing case sets the status (label or "Error"), the message and the status id; later failures change none of them |
| Verdict.VerdictAcceptedIff | Backend/src/domains/solution/solution.controller.js:80-97 | the status is "Accepted" iff every case passed, iff the passed count equals the number of results |
| Verdict.AcceptedOnly | Backend/src/domains/solution/solution.controller.js:96-101 | the passed count is the number of accepted results, and the reported run time never exceeds the total time of all results |
| Verdict.PassedTimeAppend | Backend/src/domains/solution/solution.controller.js:101 | run time adds up over consecutive stretches of results |
| Verdict.AllAcceptedExample | Backend/src/domains/solution/solution.controller.js:78-106 | three accepted cases with times 10, 20, 30 and memory 100, 150, 120 give Accepted, 3 passed, time 60, memory 150 |
| Verdict.EmptyLabelExample | Backend/src/domains/solution/solution.controller.js:92-94 | a failing case with no stderr and the label "" gives the status "Error", the message "" and the status id |
| Verdict.WrongAnswerExample | Backend/src/domains/solution/solution.controller.js:85-106 | accepted, wrong answer with stderr "mismatch", accepted gives "Wrong Answer", 2 passed, message "mismatch", status 4 |
| SolutionController.BuildRequests | Backend/src/domains/solution/solution.controller.js:61-69 | exactly one request per test case, in order, each with the same language id and the trimmed code (also the loop at 174-182) |
| SolutionController.WithSolved | Backend/src/domains/solution/solution.controller.js:119-121 | the list gains the id, keeps its old entries as a prefix, grows by at most one and never gains a duplicate |
| SolutionController.GuardResponse | Backend/src/domains/solution/solution.controller.js:29-45 | a missing user gives 401 "User not authenticated."; then a missing problem id 400 "Problem ID not provided."; then missing code or language 400 "Code or language missing in solution."; then an unknown problem 404 "Problem not found"; the handler proceeds iff every guard passes |
| SolutionController.Description | Backend/src/domains/solution/solution.controller.js:137 | `status_description` is never empty: the first failing status's label when present and non-empty, otherwise "Unknown Error" |
| SolutionController.Report | Backend/src/domains/solution/solution.controller.js:118-138 | the report is an acceptance iff the status is "Accepted", with time and memory; otherwise it is a failure report with the status, the message, the passed count and the description (the same shape at 221-236) |
| SolutionController.Submission.Create | Backend/src/domains/solution/solution.controller.js:50-57 | a new record is "Pending" with the hidden-case total and the schema defaults |
| SolutionController.Submission.Record | Backend/src/domains/solution/solution.controller.js:109-113 | exactly status, memory, runtime, passed count and error message are overwritten with the verdict |
| SolutionController.User.MarkSolved | Backend/src/domains/solution/solution.controller.js:119-121 | the problem id is appended only if absent |
| SolutionController.Submit | Backend/src/domains/solution/solution.controller.js:23-144 | a language outside the Submission schema's enum gives 500 before anything is sent; otherwise the record stores the reduction of the hidden-case results; a status outside the schema's status enum gives 500 with the user unchanged; on "Accepted" the user gains the problem id without duplicates (500 if the user is missing); on another admitted status the user is unchanged and 200 carries the failure report; with a well-formed table the id is added iff the language is admitted and every case passed |
| SolutionController.Run | Backend/src/domains/solution/solution.controller.js:146-241 | the same evaluation over the visible cases with `passed` as k out of n; nothing is written; with a well-formed table the report is an acceptance iff every case passed |
| ProblemValidation.EveryIncluded | Backend/src/utils/validate.problem.js:13 | `every`/`includes` holds iff each listed field is among the keys |
| ProblemValidation.ValidateProblem | Backend/src/utils/validate.problem.js:3-14 | passes iff all 8 mandatory names are keys; otherwise throws "mandatory fields are missing" |
| ProblemValidation.ValidateIgnoresOrder | Backend/src/utils/validate.problem.js:13 | the outcome depends only on which keys are present, not on their order |
| ProblemValidation.ValidateIgnoresExtraKeys | Backend/src/utils/validate.problem.js:13 | extra keys never turn a pass into a failure |
| ProblemValidation.ValidateNeedsEachField | Backend/src/utils/validate.problem.js:3-14 | lacking any one mandatory key fails |
| ProblemController.ReferenceRequest | Backend/src/domains/problem/problem.controller.js:31-38 | an entry carries the solution's language id, its source trimmed (no white space at either end), and the test case's input and expected output |
| ProblemController.SolutionRow | Backend/src/domains/problem/problem.controller.js:32-39 | one request per visible test case for one reference solution, with that solution's language id and trimmed source |
| ProblemController.CrossProduct | Backend/src/domains/problem/problem.controller.js:30-40 | the batch has \|solutions\| × \|visible cases\| entries |
| ProblemController.CrossProductAt | Backend/src/domains/problem/problem.controller.js:30-40 | entry i·\|cases\| + j runs solution i on visible test case j (solution-major order) |
| ProblemController.BuildReferenceRequests | Backend/src/domains/problem/problem.controller.js:28-40 | the nested loops build exactly the solution-major product batch |
| ProblemController.CreateProblem | Backend/src/domains/problem/problem.controller.js:11-58 | a missing key gives 400 before any request is built; otherwise the batch is the product over the visible cases only; the problem is stored (201) iff every result has status 3; otherwise 400 carries the first failing result's label or the fallback text |
| UserValidation.RegistrationValidation | Backend/src/utils/validate.user.js:4-14 | passes iff the first name has 3–20 characters, the email is present and valid, and the password is present and strong; otherwise the first failing check (first name, email, password) picks the message |
| UserValidation.FirstNameCheckedFirst | Backend/src/utils/validate.user.js:5-7 | a bad first name decides the outcome whatever the email and password |
| UserValidation.LoginValidation | Backend/src/utils/validate.user.js:16-19 | throws only for a missing email (checked first) or password |
| AuthSlice.AuthState.constructor | Frontend/src/utils/authSlice.js:54-59 | user null, error null, loading true, not authenticated |
| AuthSlice.AuthState.Pending | Frontend/src/utils/authSlice.js:63-66 | loading true and error null; user and authentication flag unchanged (the same for the pending cases at 79-82, 95-98, 111-114) |
| AuthSlice.AuthState.RegisterUserFulfilled | Frontend/src/utils/authSlice.js:67-72 | user is the payload, loading false, authenticated iff the payload is truthy; the state's error is untouched |
| AuthSlice.AuthState.RegisterUserRejected | Frontend/src/utils/authSlice.js:73-78 | error is the payload, loading false, user null, authenticated iff the payload is truthy |
| AuthSlice.AuthState.LoginFulfilled | Frontend/src/utils/authSlice.js:83-88 | authenticated iff the payload is truthy, user is the payload, loading false, error null |
| AuthSlice.AuthState.LoginRejected | Frontend/src/utils/authSlice.js:89-94 | error stored, loading false, user null, not authenticated |
| AuthSlice.AuthState.AuthUserFulfilled | Frontend/src/utils/authSlice.js:99-104 | authenticated whatever the payload, user is the payload, loading false, error null |
| AuthSlice.AuthState.AuthUserRejected | Frontend/src/utils/authSlice.js:105-110 | error stored, loading false, user null, not authenticated |
| AuthSlice.AuthState.LogoutFulfilled | Frontend/src/utils/authSlice.js:115-120 | loading false, error null, user null, not authenticated |
| AuthSlice.AuthState.LogoutRejected | Frontend/src/utils/authSlice.js:121-126 | loading false, error stored, user null, not authenticated |
| AuthSlice.RejectedRegistrationAuthenticates | Frontend/src/utils/authSlice.js:73-78 | a registration rejected with a non-empty message leaves the store authenticated with no user |
| ProblemSlice.ProblemState.constructor | Frontend/src/utils/problemSlice.js:30-35 | both lists empty, loading false, error null |
| ProblemSlice.ProblemState.Pending | Frontend/src/utils/problemSlice.js:39-42 | loading true, error null, both lists unchanged (the same for the case at 53-56) |
| ProblemSlice.ProblemState.GetAllProblemsFulfilled | Frontend/src/utils/problemSlice.js:43-47 | the payload becomes the problem list, loading and error cleared, the solved list unchanged |
| ProblemSlice.ProblemState.GetAllProblemsRejected | Frontend/src/utils/problemSlice.js:48-52 | the problem list emptied, the error stored, loading false, the solved list unchanged |
| ProblemSlice.ProblemState.GetSolvedProblemsFulfilled | Frontend/src/utils/problemSlice.js:57-61 | the payload becomes the solved list, loading and error cleared, the problem list unchanged |
| ProblemSlice.ProblemState.GetSolvedProblemsRejected | Frontend/src/utils/problemSlice.js:62-66 | the solved list emptied, the error stored, loading false, the problem list unchanged |
| ProblemSlice.SharedLoadingFlag | Frontend/src/utils/problemSlice.js:39-66 | with both requests pending, one fulfilment clears the shared loading flag |
| ProblemPage.PageWindow | Frontend/src/component/Problems/ProblemPage.jsx:138-145 | for at least one page the window lies within 1..totalPages; its size is min(5, totalPages); it contains any page in 1..totalPages |
| ProblemPage.GoPrev | Frontend/src/component/Problems/ProblemPage.jsx:109-118 | nothing happens when the page is 1 or less; otherwise the target is page − 1 |
| ProblemPage.RowNumber | Frontend/src/component/Problems/ProblemPage.jsx:272 | on page p the four rows are numbered from (p−1)·4 + 1 to p·4 |
| ProblemPage.RowsContiguous | Frontend/src/component/Problems/ProblemPage.jsx:272 | the first row of the next page follows the last row of this page |
| ProblemPage.Remove | Frontend/src/component/Problems/ProblemPage.jsx:105 | the filter drops every occurrence of the topic and keeps every other topic |
| ProblemPage.ToggleTopic | Frontend/src/component/Problems/ProblemPage.jsx:103-107 | an absent topic is appended at the end; a present one is removed entirely and the others are kept |
| ProblemPage.RemoveKeepsDistinct | Frontend/src/component/Problems/ProblemPage.jsx:105 | filtering a duplicate-free list leaves it duplicate-free |
| ProblemPage.ToggleKeepsDistinct | Frontend/src/component/Problems/ProblemPage.jsx:103-107 | toggling keeps the selected topics duplicate-free |
| ProblemPage.RemoveAppended | Frontend/src/component/Problems/ProblemPage.jsx:105 | filtering out a topic just appended restores the list |
| ProblemPage.ToggleTwice | Frontend/src/component/Problems/ProblemPage.jsx:103-107 | toggling an absent topic twice restores the original list |
| ProblemPage.DifficultyClass | Frontend/src/component/Problems/ProblemPage.jsx:153-159 | easy/medium/hard in any ASCII case get their badge; anything else, "" included, gives "bg-gray-600" |
| ProblemPage.SchemaDifficulties | Frontend/src/component/Problems/ProblemPage.jsx:153-159 | the schema values Easy, Medium, Hard get their badges and "" gets grey; the page's only call (line 284) substitutes "Easy" for a missing value, so "" never reaches it there |
| ProblemPage.NonEmpty | Frontend/src/component/Problems/ProblemPage.jsx:38 | `filter(Boolean)` keeps exactly the non-empty pieces |
| ProblemPage.NonEmptyKeeps | Frontend/src/component/Problems/ProblemPage.jsx:38 | a list without empty pieces is kept whole |
| ProblemPage.TopicsFromQuery | Frontend/src/component/Problems/ProblemPage.jsx:37-39 | the parsed topics are non-empty and comma-free; an empty query gives none |
| ProblemPage.TopicsRoundTrip | Frontend/src/component/Problems/ProblemPage.jsx:37-39 | parsing `selectedTopics.join(",")` gives back the topics when each is non-empty and comma-free |
| Practice.TrimAll | Frontend/src/component/Practice/Practice.jsx:32 | every line trimmed, same count, same order |
| Practice.AutoFormat | Frontend/src/component/Practice/Practice.jsx:30-33 | the formatted text's lines are the trimmed input lines (same number, same order, none with white space at either end), and the text is never longer than the input |
| Practice.AutoFormatIdempotent | Frontend/src/component/Practice/Practice.jsx:30-33 | formatting formatted code changes nothing |
| Signup.PasswordIssues | Frontend/src/component/Signup.jsx:11-17 | a password is accepted iff it has at least 8 characters and contains A–Z, a–z, 0–9 and one of @$!%*?&; each rule's message is reported iff that rule fails, and no other message appears |
| Signup.NameIssues | Frontend/src/component/Signup.jsx:18-21 | a name is accepted iff it has at least 3 characters, all ASCII letters or white space; the length message appears iff it is shorter than 3, the character message iff it is empty or holds another character |
| Signup.PasswordExamples | Frontend/src/component/Signup.jsx:13-17 | "Password1!" passes and no password under 8 characters does |
| Signup.SignupIssues | Frontend/src/component/Signup.jsx:9-22 | the form is accepted iff the email passes the format check and password and firstName pass their rules |
| Signup.LegacySignupIssues | Frontend/Leetcode-Project/src/component/Signup.jsx:6-19 | the older form is accepted iff the email passes and password and fullName pass the same rules |
| Signup.SchemasAgree | Frontend/Leetcode-Project/src/component/Signup.jsx:6-19 | both copies of the schema report the same issues for the same values |

## Left out

- Judge0 HTTP calls (`batchSubmission`, `createBatchedSubmission`, `getBatchedSubmission`) are network I/O. They are an oracle result list. `createBatchedSubmission`, `getBatchedSubmission` and `statuses` are imported from `judge.0.js` but not defined in it, so none of them is modelled beyond that list and the label map. Their failures (500 responses) are not modelled.
- `parseFloat`/`parseInt`: time is a non-negative real and memory a natural number, with 0 standing for a missing or unparseable value.
- Database calls (`findById`, `create`, `save`) are library calls. Their results are parameters, and the created document is a fresh object. Thrown database errors are not modelled.
- SolutionController.Submit: `submission` is the in-memory document. When `save` refuses its status, the stored copy keeps its created state, and the model does not keep a separate stored copy. Of the schema's checks, only the `language` and `status` enums are modelled. The `ObjectId` casts of `userId` and `problemId` are not.
- SolutionController.Submit, SolutionController.Run: type errors are not modelled. These are `code.trim()` or `lang.toLowerCase()` on a non-string, and a missing `req.user`. Missing or falsy request fields are the empty string.
- SolutionController.Run: `passed` is the pair (k, n) rather than the text "k/n".
- `totalSubmissions` and the empty handlers of `problem.controller.js` (`deleteProblem`, `getAllProblems`, `getProblem`, `solvedProblems`, `updateProblem`) are not part of the core.
- ProblemController.CreateProblem: the stored document (`{...req.body, problemCreator}`) is reduced to the flag `created`. The Problem schema's validation in `problem_model.create` is not modelled. This covers the language enums, the difficulty enum and the required fields. When it fails the source answers 400 with Mongoose's message, while the model answers 201. Errors thrown while building the batch, such as a null `referenceSolution`, are not modelled.
- Text.Lower: only ASCII letters are lower-cased. The only non-ASCII characters JavaScript lower-cases to ASCII are U+212A (to "k") and U+0130 (to "i" followed by U+0307). None of the language names, the inherited keys "constructor" and "__proto__", or the difficulty words contains "k", and U+0130 yields two characters, so lookups give the same results.
- String lengths count code points; JavaScript's `length` and zod's `min` count UTF-16 code units. They differ only outside the Basic Multilingual Plane.
- UserValidation.RegistrationValidation: `validator.isEmail` and `validator.isStrongPassword(password, {minLength: 8, minSymbols: 0})` are library predicates. They are parameters, not definitions.
- Signup.SignupIssues, Signup.LegacySignupIssues: zod's `email()` check is a library predicate and is a parameter. Its message and the order of issues across fields are not modelled. The form wiring (`useForm`, dispatch, navigation) is UI.
- ProblemPage.PageWindow, ProblemPage.GoPrev, ProblemPage.RowNumber: `page` and `totalPages` are integers. A `page` parameter that is not a number (NaN) or is fractional is not modelled. The React state setters, `goNext`, `goToPage`, timers and fetching are UI.
- Practice: only `autoFormatCode`'s transformation is modelled. `setCode`, `alert`, the clipboard, the timers and the JSX are UI.
- The async thunks' axios calls are not modelled. A fulfilled action carries the response data and a rejected one the error message. Auth plumbing (JWT, Redis, bcrypt, cookies), routing and app bootstrapping are outside the core.
- Concurrency between requests is not modelled: each handler is one sequential flow.
