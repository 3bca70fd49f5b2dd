/** `createProblem` of `Backend/src/domains/problem/problem.controller.js`: after the
    mandatory-key check, every reference solution is run against every visible test case,
    and the problem is stored only if Judge0 accepts every run. The Judge0 round trip is an
    oracle (the parameter `results`); storing the document is the output `created`. */
module ProblemController {
  import opened Wrappers
  import opened Text
  import opened Judge
  import opened Verdict
  import opened Http
  import opened ProblemValidation

  datatype ReferenceSolution = ReferenceSolution(language: string, sourceCode: string)

  /** The request body: its key names (for `validateProblem`) and the fields read. */
  datatype ProblemBody = ProblemBody(
    keys: seq<string>,
    visibleTestCases: seq<TestCase>,
    hiddenTestCases: seq<TestCase>,
    referenceSolution: seq<ReferenceSolution>)

  /** The batch entry for reference solution `s` on test case `t`. */
  function ReferenceRequest(s: ReferenceSolution, t: TestCase): (r: JudgeRequest)
    ensures r.languageId == GetLanguageId(s.language)
    ensures r.sourceCode == Trim(s.sourceCode) && NoEdgeSpace(r.sourceCode)
    ensures r.stdin == t.stdin && r.expectedOutput == t.expectedOutput
  {
    JudgeRequest(GetLanguageId(s.language), Trim(s.sourceCode), t.stdin, t.expectedOutput)
  }

  /** The entries for one reference solution: one per test case, in order. */
  function SolutionRow(s: ReferenceSolution, cases: seq<TestCase>): (row: seq<JudgeRequest>)
    ensures |row| == |cases|
    ensures forall j :: 0 <= j < |cases| ==> row[j] == ReferenceRequest(s, cases[j])
  {
    seq(|cases|, j requires 0 <= j < |cases| => ReferenceRequest(s, cases[j]))
  }

  /** The solutions-by-test-cases batch: the rows of the solutions, in solution order. */
  function CrossProduct(solutions: seq<ReferenceSolution>, cases: seq<TestCase>): (r: seq<JudgeRequest>)
    ensures |r| == |solutions| * |cases|
  {
    if solutions == [] then []
    else
      var n, m := |solutions|, |cases|;
      assert n * m == (n - 1) * m + m;
      CrossProduct(solutions[..n - 1], cases) + SolutionRow(solutions[n - 1], cases)
  }

  lemma {:induction false} MulMonotone(a: nat, b: nat, m: nat)
    requires a <= b
    ensures a * m <= b * m
  {
    if a < b {
      MulMonotone(a, b - 1, m);
      assert b * m == (b - 1) * m + m;
    }
  }

  /** Row i of an n-row table with m columns starts at i * m and ends within n * m. */
  lemma RowBounds(i: nat, n: nat, m: nat)
    requires i < n
    ensures 0 <= i * m && i * m + m <= n * m
  {
    MulMonotone(0, i, m);
    MulMonotone(i + 1, n, m);
    assert (i + 1) * m == i * m + m;
  }

  /** The batch has |solutions| * |cases| entries in solution-major order: entry
      i * |cases| + j runs solution i on test case j, so every test case is paired with
      every solution's own language id and trimmed source. */
  lemma {:induction false} CrossProductAt(solutions: seq<ReferenceSolution>, cases: seq<TestCase>,
                                          i: nat, j: nat)
    requires i < |solutions| && j < |cases|
    ensures |CrossProduct(solutions, cases)| == |solutions| * |cases|
    ensures i * |cases| + j < |CrossProduct(solutions, cases)|
    ensures CrossProduct(solutions, cases)[i * |cases| + j] == ReferenceRequest(solutions[i], cases[j])
  {
    var n, m := |solutions|, |cases|;
    var prefix := solutions[..n - 1];
    var whole, head := CrossProduct(solutions, cases), CrossProduct(prefix, cases);
    var row := SolutionRow(solutions[n - 1], cases);
    assert whole == head + row;
    RowBounds(i, n, m);
    var k := i * m;
    if i < n - 1 {
      CrossProductAt(prefix, cases, i, j);
      RowBounds(i, n - 1, m);
      assert whole[k + j] == head[k + j];
      assert prefix[i] == solutions[i];
    } else {
      assert k == |head|;
      assert whole[k + j] == row[j];
    }
  }

  /** Extending the test cases by one extends a row by that case's entry. */
  lemma SolutionRowSnoc(s: ReferenceSolution, cases: seq<TestCase>, j: nat)
    requires j < |cases|
    ensures SolutionRow(s, cases[..j + 1]) == SolutionRow(s, cases[..j]) + [ReferenceRequest(s, cases[j])]
  {
  }

  /** Extending the solutions by one appends that solution's row. */
  lemma CrossProductSnoc(solutions: seq<ReferenceSolution>, cases: seq<TestCase>, i: nat)
    requires i < |solutions|
    ensures CrossProduct(solutions[..i + 1], cases) == CrossProduct(solutions[..i], cases) + SolutionRow(solutions[i], cases)
  {
    assert solutions[..i + 1][..i] == solutions[..i];
  }

  /** The two nested loops that push the batch entries. */
  method BuildReferenceRequests(solutions: seq<ReferenceSolution>, cases: seq<TestCase>)
    returns (requests: seq<JudgeRequest>)
    ensures requests == CrossProduct(solutions, cases)
  {
    requests := [];
    var i := 0;
    while i < |solutions|
      invariant 0 <= i <= |solutions|
      invariant requests == CrossProduct(solutions[..i], cases)
    {
      var s := solutions[i];
      ghost var done := requests;
      var j := 0;
      while j < |cases|
        invariant 0 <= j <= |cases|
        invariant requests == done + SolutionRow(s, cases[..j])
      {
        SolutionRowSnoc(s, cases, j);
        requests := requests + [ReferenceRequest(s, cases[j])];
        j := j + 1;
      }
      assert cases[..j] == cases;
      CrossProductSnoc(solutions, cases, i);
      i := i + 1;
    }
    assert solutions[..i] == solutions;
  }

  /** `createProblem`. A body missing a mandatory key is refused with 400 before any request
      is built. Otherwise the product batch is sent; the first result whose status id is
      not 3 ends the handler with 400 and that status's label (or the fallback text), and
      only when every result is accepted is the problem stored and 201 sent. */
  method CreateProblem(body: ProblemBody, statuses: StatusLabels, results: seq<JudgeResult>)
    returns (requests: seq<JudgeRequest>, created: bool, response: Response)
    ensures ValidateProblem(body.keys).Fail? ==>
              requests == [] && !created && response == Response(400, Error(MissingFieldsMessage))
    ensures ValidateProblem(body.keys).Pass? ==>
              requests == CrossProduct(body.referenceSolution, body.visibleTestCases)
    ensures created <==> ValidateProblem(body.keys).Pass? && AllPassed(results)
    ensures created ==> response == Response(201, Plain("Problem created successfully"))
    ensures ValidateProblem(body.keys).Pass? && FirstFailure(results).Some? ==>
              var k := FirstFailure(results).value;
              response == Response(400, Error(LabelOr(statuses, results[k].statusId,
                                                      "reference solution failed validation")))
  {
    var check := ValidateProblem(body.keys);
    if check.Fail? {
      return [], false, Response(400, Error(check.message));
    }
    requests := BuildReferenceRequests(body.referenceSolution, body.visibleTestCases);
    var i := 0;
    while i < |results|
      invariant 0 <= i <= |results|
      invariant forall j :: 0 <= j < i ==> Passed(results[j])
    {
      var statusId := results[i].statusId;
      if statusId != AcceptedId {
        assert FirstFailure(results) == Some(i);
        return requests, false,
          Response(400, Error(LabelOr(statuses, statusId, "reference solution failed validation")));
      }
      i := i + 1;
    }
    created := true;
    response := Response(201, Plain("Problem created successfully"));
  }
}
