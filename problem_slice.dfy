/** The `problemSlice` of `Frontend/src/utils/problemSlice.js`: the problem list, the
    solved list, one shared loading flag and an error, updated in place by the reducer
    cases of the thunks `getAllProblems` and `getSolvedProblems`. A fulfilled action
    carries the response data, a rejected one the error's message. */
module ProblemSlice {
  import opened JsValue

  class ProblemState {
    var allProblems: Json
    var solvedProblems: Json
    var loading: bool
    var error: Json

    /** `initialState`. */
    constructor ()
      ensures allProblems == Arr([]) && solvedProblems == Arr([]) && !loading && error == Null
    {
      allProblems := Arr([]);
      solvedProblems := Arr([]);
      loading := false;
      error := Null;
    }

    /** Either `pending` case (the two are identical): loading starts, the error is
        cleared, both lists are left alone. */
    method Pending()
      modifies this
      ensures loading && error == Null
      ensures allProblems == old(allProblems) && solvedProblems == old(solvedProblems)
    {
      loading := true;
      error := Null;
    }

    /** `getAllProblems.fulfilled`: the payload becomes the problem list. */
    method GetAllProblemsFulfilled(payload: Json)
      modifies this
      ensures !loading && error == Null && allProblems == payload
      ensures solvedProblems == old(solvedProblems)
    {
      loading := false;
      error := Null;
      allProblems := payload;
    }

    /** `getAllProblems.rejected`: the problem list is emptied and the error stored. */
    method GetAllProblemsRejected(payload: Json)
      modifies this
      ensures error == payload && !loading && allProblems == Arr([])
      ensures solvedProblems == old(solvedProblems)
    {
      error := payload;
      loading := false;
      allProblems := Arr([]);
    }

    /** `getSolvedProblems.fulfilled`: the payload becomes the solved list. */
    method GetSolvedProblemsFulfilled(payload: Json)
      modifies this
      ensures !loading && error == Null && solvedProblems == payload
      ensures allProblems == old(allProblems)
    {
      loading := false;
      error := Null;
      solvedProblems := payload;
    }

    /** `getSolvedProblems.rejected`: the solved list is emptied and the error stored. */
    method GetSolvedProblemsRejected(payload: Json)
      modifies this
      ensures error == payload && !loading && solvedProblems == Arr([])
      ensures allProblems == old(allProblems)
    {
      error := payload;
      loading := false;
      solvedProblems := Arr([]);
    }
  }

  /** With both requests in flight, the problem list arriving clears the one loading flag
      although the solved list is still being fetched. */
  method SharedLoadingFlag(problems: Json) returns (state: ProblemState)
    ensures !state.loading && state.allProblems == problems
    ensures state.solvedProblems == Arr([])
  {
    state := new ProblemState();
    state.Pending();
    state.Pending();
    state.GetAllProblemsFulfilled(problems);
  }
}
