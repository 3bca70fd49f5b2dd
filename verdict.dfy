/** The reduction of Judge0's per-test-case results into one verdict, as the result loop
    of `submit` and `run` in `Backend/src/domains/solution/solution.controller.js` performs
    it: a count of accepted cases, the first failure's label, message and status id, the
    summed run time and the largest memory of the accepted cases. */
module Verdict {
  import opened Wrappers
  import opened Judge

  /** The variables the result loop maintains. */
  datatype Aggregate = Aggregate(
    overallStatus: string,
    passedCount: nat,
    totalTime: Seconds,
    totalMemory: nat,
    errorMessage: Option<string>,
    firstErrorStatusId: Option<int>)

  /** The loop's starting point: "Accepted" until proven otherwise, everything else empty. */
  const Initial: Aggregate := Aggregate("Accepted", 0, 0.0, 0, None, None)

  predicate Passed(r: JudgeResult) {
    r.statusId == AcceptedId
  }

  predicate AllPassed(rs: seq<JudgeResult>) {
    forall i :: 0 <= i < |rs| ==> Passed(rs[i])
  }

  /** `stderr || statuses[status_id]`: the message reported for a failing case. A falsy
      stderr gives way to the label as it stands, so an empty label yields "" and only an
      absent one yields `undefined` (None). */
  function FailureMessage(statuses: StatusLabels, r: JudgeResult): (m: Option<string>)
    ensures r.stderr != "" ==> m == Some(r.stderr)
    ensures r.stderr == "" && r.statusId in statuses ==> m == Some(statuses[r.statusId])
    ensures m.None? <==> r.stderr == "" && r.statusId !in statuses
  {
    if r.stderr != "" then Some(r.stderr)
    else if r.statusId in statuses then Some(statuses[r.statusId])
    else None
  }

  /** One iteration of the result loop. A failing case overwrites the status, message and
      status id only while the status still reads "Accepted"; an accepted case bumps the
      count, adds its time and raises the memory maximum. */
  function Step(statuses: StatusLabels, acc: Aggregate, r: JudgeResult): (next: Aggregate)
    ensures next.passedCount == acc.passedCount + (if Passed(r) then 1 else 0)
    ensures acc.totalTime <= next.totalTime && acc.totalMemory <= next.totalMemory
    ensures !Passed(r) ==> next.totalTime == acc.totalTime && next.totalMemory == acc.totalMemory
    ensures Passed(r) || acc.overallStatus != "Accepted" ==>
              next.overallStatus == acc.overallStatus && next.errorMessage == acc.errorMessage
              && next.firstErrorStatusId == acc.firstErrorStatusId
    ensures !Passed(r) && acc.overallStatus == "Accepted" ==> next.firstErrorStatusId == Some(r.statusId)
  {
    if !Passed(r) then
      if acc.overallStatus == "Accepted" then
        acc.(overallStatus := LabelOr(statuses, r.statusId, "Error"),
             errorMessage := FailureMessage(statuses, r),
             firstErrorStatusId := Some(r.statusId))
      else acc
    else
      acc.(passedCount := acc.passedCount + 1,
           totalTime := acc.totalTime + r.time,
           totalMemory := if r.memory > acc.totalMemory then r.memory else acc.totalMemory)
  }

  /** The loop run over `rs` in order, from `Initial`. */
  function Reduce(statuses: StatusLabels, rs: seq<JudgeResult>): (agg: Aggregate)
    ensures agg.passedCount <= |rs|
    ensures agg.overallStatus != "Accepted" ==> agg.firstErrorStatusId.Some?
    ensures agg.firstErrorStatusId.Some? ==> agg.firstErrorStatusId.value != AcceptedId
  {
    if rs == [] then Initial else Step(statuses, Reduce(statuses, rs[..|rs| - 1]), rs[|rs| - 1])
  }

  // ---------------------------------------------------------------------------------------
  // Reference definitions, stated without the loop.

  /** The number of results whose status id is 3. */
  function PassedCount(rs: seq<JudgeResult>): (n: nat)
    ensures n <= |rs|
    ensures n == |rs| <==> AllPassed(rs)
  {
    if rs == [] then 0
    else
      var n := PassedCount(rs[..|rs| - 1]);
      assert AllPassed(rs) ==> AllPassed(rs[..|rs| - 1]);
      n + if Passed(rs[|rs| - 1]) then 1 else 0
  }

  /** The accepted results, in order. */
  function AcceptedResults(rs: seq<JudgeResult>): (acc: seq<JudgeResult>)
    ensures forall i :: 0 <= i < |acc| ==> Passed(acc[i])
    ensures forall r :: r in acc ==> r in rs
  {
    if rs == [] then []
    else
      var prefix := AcceptedResults(rs[..|rs| - 1]);
      if Passed(rs[|rs| - 1]) then prefix + [rs[|rs| - 1]] else prefix
  }

  /** The sum of the run times of all results given. */
  function SumTime(rs: seq<JudgeResult>): Seconds {
    if rs == [] then 0.0 else SumTime(rs[..|rs| - 1]) + rs[|rs| - 1].time
  }

  /** The run time the verdict reports: the sum over accepted results only. */
  function PassedTime(rs: seq<JudgeResult>): Seconds {
    SumTime(AcceptedResults(rs))
  }

  /** The largest memory figure among accepted results, 0 when none is accepted. */
  function PassedMaxMemory(rs: seq<JudgeResult>): (m: nat)
    ensures forall i :: 0 <= i < |rs| && Passed(rs[i]) ==> rs[i].memory <= m
    ensures m == 0 || exists i :: 0 <= i < |rs| && Passed(rs[i]) && rs[i].memory == m
  {
    if rs == [] then 0
    else
      var prefix := rs[..|rs| - 1];
      var m := PassedMaxMemory(prefix);
      var last := rs[|rs| - 1];
      assert forall i :: 0 <= i < |prefix| ==> rs[i] == prefix[i];
      if Passed(last) && last.memory > m then last.memory else m
  }

  /** The index of the earliest result whose status id is not 3, if any. */
  function FirstFailure(rs: seq<JudgeResult>): (k: Option<nat>)
    ensures k.None? <==> AllPassed(rs)
    ensures k.Some? ==> k.value < |rs| && !Passed(rs[k.value])
    ensures k.Some? ==> forall j :: 0 <= j < k.value ==> Passed(rs[j])
  {
    if rs == [] then None
    else
      var prefix := rs[..|rs| - 1];
      assert forall i :: 0 <= i < |prefix| ==> rs[i] == prefix[i];
      match FirstFailure(prefix)
      case Some(k) => Some(k)
      case None => if Passed(rs[|rs| - 1]) then None else Some(|rs| - 1)
  }

  /** The verdict the handlers are meant to compute: "Accepted" with no error when every
      case passed, and otherwise the label (or "Error"), the message and the status id of
      the earliest failing case; the metrics range over accepted cases only. */
  function Verdict(statuses: StatusLabels, rs: seq<JudgeResult>): (v: Aggregate)
    ensures v.firstErrorStatusId.None? <==> AllPassed(rs)
    ensures AllPassed(rs) ==> v.overallStatus == "Accepted" && v.errorMessage.None?
    ensures v.firstErrorStatusId.Some? ==> v.firstErrorStatusId.value != AcceptedId
    ensures v.passedCount <= |rs|
  {
    match FirstFailure(rs)
    case None =>
      Aggregate("Accepted", PassedCount(rs), PassedTime(rs), PassedMaxMemory(rs), None, None)
    case Some(k) =>
      Aggregate(LabelOr(statuses, rs[k].statusId, "Error"), PassedCount(rs), PassedTime(rs),
                PassedMaxMemory(rs), FailureMessage(statuses, rs[k]), Some(rs[k].statusId))
  }

  /** No status other than 3 is labelled "Accepted" (true of Judge0's table). The loop uses
      the label "Accepted" as its "no failure yet" flag, so the first-failure-wins rule
      depends on this. */
  predicate WellFormedLabels(statuses: StatusLabels) {
    forall id :: id in statuses && id != AcceptedId ==> statuses[id] != "Accepted"
  }

  // ---------------------------------------------------------------------------------------
  // The loop.

  /** The result loop of `submit` and `run`, written once for both handlers. */
  method ReduceResults(statuses: StatusLabels, rs: seq<JudgeResult>) returns (agg: Aggregate)
    ensures agg == Reduce(statuses, rs)
    ensures agg.passedCount == PassedCount(rs) && agg.totalTime == PassedTime(rs)
    ensures agg.totalMemory == PassedMaxMemory(rs)
    ensures agg.firstErrorStatusId.None? <==> AllPassed(rs)
    ensures WellFormedLabels(statuses) ==> agg == Verdict(statuses, rs)
  {
    var totalTime: Seconds := 0.0;
    var totalMemory: nat := 0;
    var overallStatus := "Accepted";
    var passedCount: nat := 0;
    var overallErrorMessage: Option<string> := None;
    var firstErrorStatusId: Option<int> := None;
    var i := 0;
    while i < |rs|
      invariant 0 <= i <= |rs|
      invariant Reduce(statuses, rs[..i]) == Aggregate(overallStatus, passedCount, totalTime,
                                                        totalMemory, overallErrorMessage,
                                                        firstErrorStatusId)
    {
      var r := rs[i];
      assert rs[..i + 1][..i] == rs[..i];
      if r.statusId != AcceptedId {
        if overallStatus == "Accepted" {
          overallStatus := LabelOr(statuses, r.statusId, "Error");
          overallErrorMessage := FailureMessage(statuses, r);
          firstErrorStatusId := Some(r.statusId);
        }
        i := i + 1;
        continue;
      }
      passedCount := passedCount + 1;
      totalTime := totalTime + r.time;
      totalMemory := if r.memory > totalMemory then r.memory else totalMemory;
      i := i + 1;
    }
    assert rs[..i] == rs;
    agg := Aggregate(overallStatus, passedCount, totalTime, totalMemory, overallErrorMessage,
                     firstErrorStatusId);
    ReduceMetrics(statuses, rs);
    ReduceNotesFailure(statuses, rs);
    if WellFormedLabels(statuses) {
      ReduceIsVerdict(statuses, rs);
    }
  }

  // ---------------------------------------------------------------------------------------
  // What the loop computes.

  /** The count, run time and memory the loop produces are the reference ones, whatever
      the label table holds. */
  lemma {:induction false} ReduceMetrics(statuses: StatusLabels, rs: seq<JudgeResult>)
    ensures Reduce(statuses, rs).passedCount == PassedCount(rs)
    ensures Reduce(statuses, rs).totalTime == PassedTime(rs)
    ensures Reduce(statuses, rs).totalMemory == PassedMaxMemory(rs)
  {
    if rs != [] {
      ReduceMetrics(statuses, rs[..|rs| - 1]);
    }
  }

  /** The loop records a failing status id exactly when some case failed, whatever the
      label table holds. */
  lemma {:induction false} ReduceNotesFailure(statuses: StatusLabels, rs: seq<JudgeResult>)
    ensures Reduce(statuses, rs).firstErrorStatusId.None? <==> AllPassed(rs)
    ensures Reduce(statuses, rs).firstErrorStatusId.None? ==> Reduce(statuses, rs).overallStatus == "Accepted"
  {
    if rs != [] {
      var prefix := rs[..|rs| - 1];
      assert forall i :: 0 <= i < |prefix| ==> rs[i] == prefix[i];
      ReduceNotesFailure(statuses, prefix);
    }
  }

  /** With a well-formed label table the loop computes the reference verdict: the first
      failing case decides status, message and status id, and later failures change none
      of them. */
  lemma {:induction false} ReduceIsVerdict(statuses: StatusLabels, rs: seq<JudgeResult>)
    requires WellFormedLabels(statuses)
    ensures Reduce(statuses, rs) == Verdict(statuses, rs)
  {
    if rs != [] {
      var prefix := rs[..|rs| - 1];
      ReduceIsVerdict(statuses, prefix);
      ReduceMetrics(statuses, rs);
      ReduceMetrics(statuses, prefix);
      var k := FirstFailure(prefix);
      if k.Some? {
        assert FirstFailure(rs) == k;
        assert rs[k.value] == prefix[k.value];
        var id := prefix[k.value].statusId;
        assert LabelOr(statuses, id, "Error") != "Accepted";
      }
    }
  }

  /** The status stays "Accepted" exactly when every case passed, which is exactly when
      the passed count equals the number of results. */
  lemma VerdictAcceptedIff(statuses: StatusLabels, rs: seq<JudgeResult>)
    requires WellFormedLabels(statuses)
    ensures Verdict(statuses, rs).overallStatus == "Accepted" <==> AllPassed(rs)
    ensures Verdict(statuses, rs).overallStatus == "Accepted" <==> Verdict(statuses, rs).passedCount == |rs|
  {
    var k := FirstFailure(rs);
    if k.Some? {
      assert LabelOr(statuses, rs[k.value].statusId, "Error") != "Accepted";
    }
  }

  /** The passed count is the number of accepted results, and the reported run time is
      at most the time of all results together, since it leaves the failing ones out. */
  lemma {:induction false} AcceptedOnly(rs: seq<JudgeResult>)
    ensures PassedCount(rs) == |AcceptedResults(rs)|
    ensures PassedTime(rs) <= SumTime(rs)
  {
    if rs != [] {
      var prefix := rs[..|rs| - 1];
      var last := rs[|rs| - 1];
      AcceptedOnly(prefix);
      if Passed(last) {
        var acc := AcceptedResults(prefix) + [last];
        assert acc[..|acc| - 1] == AcceptedResults(prefix);
        assert SumTime(acc) == SumTime(AcceptedResults(prefix)) + last.time;
      }
    }
  }

  /** Run time adds up across consecutive stretches of results, so each accepted case
      contributes its own time exactly once. */
  lemma {:induction false} PassedTimeAppend(a: seq<JudgeResult>, b: seq<JudgeResult>)
    ensures PassedTime(a + b) == PassedTime(a) + PassedTime(b)
  {
    if b == [] {
      assert a + b == a;
    } else {
      var b' := b[..|b| - 1];
      assert (a + b)[..|a + b| - 1] == a + b';
      PassedTimeAppend(a, b');
      var last := b[|b| - 1];
      assert (a + b)[|a + b| - 1] == last;
      if Passed(last) {
        assert AcceptedResults(a + b) == AcceptedResults(a + b') + [last];
        assert AcceptedResults(b) == AcceptedResults(b') + [last];
        assert (AcceptedResults(a + b') + [last])[..|AcceptedResults(a + b')|] == AcceptedResults(a + b');
        assert (AcceptedResults(b') + [last])[..|AcceptedResults(b')|] == AcceptedResults(b');
      }
    }
  }

  /** Example of three accepted cases with times 10, 20, 30 and memory 100, 150, 120. */
  lemma AllAcceptedExample(statuses: StatusLabels)
    ensures
      var rs := [JudgeResult(3, 10.0, 100, ""), JudgeResult(3, 20.0, 150, ""), JudgeResult(3, 30.0, 120, "")];
      Reduce(statuses, rs) == Aggregate("Accepted", 3, 60.0, 150, None, None)
  {
    var rs := [JudgeResult(3, 10.0, 100, ""), JudgeResult(3, 20.0, 150, ""), JudgeResult(3, 30.0, 120, "")];
    assert rs[..1][..0] == [];
    assert Reduce(statuses, rs[..1]) == Aggregate("Accepted", 1, 10.0, 100, None, None);
    assert rs[..2][..1] == rs[..1];
    assert Reduce(statuses, rs[..2]) == Aggregate("Accepted", 2, 30.0, 150, None, None);
    assert rs[..3][..2] == rs[..2];
    assert rs[..3] == rs;
  }

  /** Example of an accepted, a wrong-answer (status 4, stderr "mismatch") and an accepted
      case: the count still reaches 2 and the wrong answer is reported. */
  lemma WrongAnswerExample(statuses: StatusLabels)
    requires 4 in statuses && statuses[4] == "Wrong Answer"
    ensures
      var rs := [JudgeResult(3, 1.0, 10, ""), JudgeResult(4, 2.0, 20, "mismatch"), JudgeResult(3, 3.0, 30, "")];
      Reduce(statuses, rs) == Aggregate("Wrong Answer", 2, 4.0, 30, Some("mismatch"), Some(4))
  {
    var rs := [JudgeResult(3, 1.0, 10, ""), JudgeResult(4, 2.0, 20, "mismatch"), JudgeResult(3, 3.0, 30, "")];
    assert rs[..1][..0] == [];
    assert Reduce(statuses, rs[..1]) == Aggregate("Accepted", 1, 1.0, 10, None, None);
    assert rs[..2][..1] == rs[..1];
    assert Reduce(statuses, rs[..2]) == Aggregate("Wrong Answer", 1, 1.0, 10, Some("mismatch"), Some(4));
    assert rs[..3][..2] == rs[..2];
    assert rs[..3] == rs;
  }

  /** Example of a failing case with no stderr whose label is present but empty: the
      status falls back to "Error" while the message is the empty label itself. */
  lemma EmptyLabelExample()
    ensures Reduce(map[4 := ""], [JudgeResult(4, 0.0, 0, "")])
         == Aggregate("Error", 0, 0.0, 0, Some(""), Some(4))
  {
    var rs := [JudgeResult(4, 0.0, 0, "")];
    assert rs[..0] == [];
  }
}
