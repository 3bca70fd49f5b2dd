/** The boundary with the Judge0 code-execution service: the language table of
    `Backend/src/utils/judge.0.js`, the status-label table, and the shapes of one
    execution request and one execution result. */
module Judge {
  import opened Wrappers
  import opened Text

  /** Judge0 language ids; the source's table mixes numbers and numeric strings.
      `Inherited(key)` is what indexing the table's plain object literal yields for a key
      it inherits from `Object.prototype` rather than holds itself: the `Object` function
      for "constructor", the prototype object for "__proto__". */
  datatype LanguageId = NumericId(n: int) | StringId(s: string) | Inherited(key: string)

  /** The table of `getLanguageId`, keyed by lower-case language name. */
  const Languages: map<string, LanguageId> :=
    map["c++" := NumericId(105), "javascript" := StringId("102"),
        "java" := NumericId(91), "python" := StringId("109")]

  /** The members of `Object.prototype` whose names are all lower case, so that a lower-cased
      key can reach them. The other members (`toString`, `valueOf`, `hasOwnProperty`, ...)
      contain capitals and never match a lower-cased key. */
  const InheritedKeys: set<string> := {"constructor", "__proto__"}

  /** `getLanguageId(lang)`: the table entry for the lower-cased name, the inherited member
      for "constructor" and "__proto__", and otherwise `undefined` (None). */
  function GetLanguageId(lang: string): (r: Option<LanguageId>)
    ensures r.Some? <==> Lower(lang) in {"c++", "javascript", "java", "python", "constructor", "__proto__"}
    ensures Lower(lang) == "c++" ==> r == Some(NumericId(105))
    ensures Lower(lang) == "javascript" ==> r == Some(StringId("102"))
    ensures Lower(lang) == "java" ==> r == Some(NumericId(91))
    ensures Lower(lang) == "python" ==> r == Some(StringId("109"))
    ensures Lower(lang) in InheritedKeys ==> r == Some(Inherited(Lower(lang)))
  {
    var key := Lower(lang);
    if key in Languages then Some(Languages[key])
    else if key in InheritedKeys then Some(Inherited(key))
    else None
  }

  /** The lookup ignores letter case: a name and its lower-case form resolve alike. */
  lemma GetLanguageIdIgnoresCase(lang: string)
    ensures GetLanguageId(lang) == GetLanguageId(Lower(lang))
  {
    LowerIdempotent(lang);
  }

  /** Of the six languages the Problem and Submission schemas admit, "C++", "Java",
      "Python" and "JavaScript" resolve, while "Rust" and "C" give `undefined`. */
  lemma SchemaLanguages()
    ensures GetLanguageId("C++") == Some(NumericId(105))
    ensures GetLanguageId("Java") == Some(NumericId(91))
    ensures GetLanguageId("Python") == Some(StringId("109"))
    ensures GetLanguageId("JavaScript") == Some(StringId("102"))
    ensures GetLanguageId("Rust") == None
    ensures GetLanguageId("C") == None
  {
    assert Lower("C++") == "c++";
    assert Lower("Java") == "java";
    assert Lower("Python") == "python";
    assert Lower("JavaScript") == "javascript";
    assert Lower("Rust") == "rust";
    assert Lower("C") == "c";
  }

  /** Names that lower-case to an inherited member's name resolve to that member, not to
      `undefined`: "Constructor" yields the `Object` function and "__PROTO__" the prototype. */
  lemma InheritedNames()
    ensures GetLanguageId("Constructor") == Some(Inherited("constructor"))
    ensures GetLanguageId("__PROTO__") == Some(Inherited("__proto__"))
  {
    assert Lower("Constructor") == "constructor";
    assert Lower("__PROTO__") == "__proto__";
  }

  /** Judge0 status id 3 is "Accepted". */
  const AcceptedId: int := 3

  /** The `statuses` table, from Judge0 status id to its label. It is imported by the
      controllers but not defined in the modelled utilities, so it stays a parameter. */
  type StatusLabels = map<int, string>

  /** `statuses[id]` read as a JavaScript value in a `||` chain: an absent or empty
      label is falsy (None). */
  function Label(statuses: StatusLabels, id: int): (r: Option<string>)
    ensures r.Some? ==> id in statuses && r.value == statuses[id] && r.value != ""
    ensures r.None? ==> id !in statuses || statuses[id] == ""
  {
    if id in statuses && statuses[id] != "" then Some(statuses[id]) else None
  }

  /** `statuses[id] || fallback`. */
  function LabelOr(statuses: StatusLabels, id: int, fallback: string): string {
    match Label(statuses, id)
    case Some(l) => l
    case None => fallback
  }

  /** Run time as Judge0 reports it, a non-negative number of seconds. */
  type Seconds = t: real | 0.0 <= t

  /** One test case: the input fed to the program and the output expected from it. */
  datatype TestCase = TestCase(stdin: string, expectedOutput: string)

  /** One entry of a batch submission. `languageId` is None when the name was not in the
      table: the source sends `language_id: undefined` rather than failing. */
  datatype JudgeRequest = JudgeRequest(
    languageId: Option<LanguageId>, sourceCode: string, stdin: string, expectedOutput: string)

  /** One entry of a batch result. `time` and `memory` are the parsed values, 0 standing for
      missing or unparseable; `stderr` is "" when Judge0 reports none. */
  datatype JudgeResult = JudgeResult(statusId: int, time: Seconds, memory: nat, stderr: string)
}
