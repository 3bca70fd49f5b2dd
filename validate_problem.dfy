/** `validateProblem` of `Backend/src/utils/validate.problem.js`: a problem body must carry
    every mandatory key. Only the key names of the body matter, so a body is modelled by
    the list `Object.keys(problem)`; the values, null or empty ones included, are never
    inspected. */
module ProblemValidation {
  import opened Wrappers

  const MandatoryFields: seq<string> :=
    ["title", "description", "difficulty", "tags", "visibleTestCases", "hiddenTestCases",
     "boilerplateCode", "referenceSolution"]

  const MissingFieldsMessage: string := "mandatory fields are missing"

  /** `fields.every((e) => keys.includes(e))`. */
  function EveryIncluded(fields: seq<string>, keys: seq<string>): (b: bool)
    ensures b <==> forall f :: f in fields ==> f in keys
  {
    if fields == [] then true
    else fields[0] in keys && EveryIncluded(fields[1..], keys)
  }

  /** Passes exactly when every mandatory name is among the keys, and otherwise throws
      "mandatory fields are missing". */
  function ValidateProblem(keys: seq<string>): (r: Outcome)
    ensures r.Pass? <==> forall f :: f in MandatoryFields ==> f in keys
    ensures r.Fail? ==> r.message == MissingFieldsMessage
  {
    if EveryIncluded(MandatoryFields, keys) then Pass else Fail(MissingFieldsMessage)
  }

  /** The outcome depends on the set of keys only: neither their order nor repetitions
      matter. */
  lemma ValidateIgnoresOrder(keys1: seq<string>, keys2: seq<string>)
    requires forall k :: k in keys1 <==> k in keys2
    ensures ValidateProblem(keys1) == ValidateProblem(keys2)
  {
  }

  /** Extra keys never make a passing body fail. */
  lemma ValidateIgnoresExtraKeys(keys: seq<string>, extra: seq<string>)
    requires ValidateProblem(keys).Pass?
    ensures ValidateProblem(keys + extra).Pass?
  {
  }

  /** Dropping any one mandatory key makes the body fail. */
  lemma ValidateNeedsEachField(keys: seq<string>, f: string)
    requires f in MandatoryFields && f !in keys
    ensures ValidateProblem(keys) == Fail(MissingFieldsMessage)
  {
  }
}
