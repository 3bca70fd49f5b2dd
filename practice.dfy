/** `autoFormatCode` of `Frontend/src/component/Practice/Practice.jsx`: the editor text is
    split into lines, each line is trimmed, and the lines are joined again. */
module Practice {
  import opened Text

  /** Every line trimmed, in order. */
  function TrimAll(lines: seq<string>): (r: seq<string>)
    ensures |r| == |lines|
    ensures forall i :: 0 <= i < |r| ==> r[i] == Trim(lines[i])
  {
    seq(|lines|, i requires 0 <= i < |lines| => Trim(lines[i]))
  }

  /** `autoFormatCode`: `code.split("\n").map((line) => line.trim()).join("\n")`. The lines
      of the result are exactly the trimmed input lines (as many as before, none starting or
      ending with white space), and the result is never longer than the input. */
  function AutoFormat(code: string): (r: string)
    ensures Split(r, '\n') == TrimAll(Split(code, '\n'))
    ensures forall i :: 0 <= i < |Split(r, '\n')| ==> NoEdgeSpace(Split(r, '\n')[i])
    ensures |r| <= |code|
  {
    var lines := Split(code, '\n');
    var trimmed := TrimAll(lines);
    assert forall i :: 0 <= i < |trimmed| ==> '\n' !in trimmed[i] by {
      forall i | 0 <= i < |trimmed|
        ensures '\n' !in trimmed[i]
      {
        TrimKeepsOut(lines[i], '\n');
      }
    }
    SplitJoin(trimmed, '\n');
    JoinNoLonger(trimmed, lines, '\n');
    JoinSplit(code, '\n');
    Join(trimmed, '\n')
  }

  /** Formatting formatted text changes nothing. */
  lemma AutoFormatIdempotent(code: string)
    ensures AutoFormat(AutoFormat(code)) == AutoFormat(code)
  {
    var once := AutoFormat(code);
    var lines := Split(once, '\n');
    forall i | 0 <= i < |lines|
      ensures Trim(lines[i]) == lines[i]
    {
      TrimFixed(lines[i]);
    }
    assert TrimAll(lines) == lines;
    JoinSplit(once, '\n');
  }
}
