/** String primitives of JavaScript that the modelled code relies on:
    `String.prototype.trim`, `split` and `join` on a one-character separator,
    and `toLowerCase` restricted to ASCII letters. */
module Text {

  /** The code points that `trim` strips and that the regular-expression class `\s`
      matches: the WhiteSpace and LineTerminator code points of ECMA-262. */
  predicate IsSpace(c: char) {
    c == '\t' || c == '\n' || c == '\U{000B}' || c == '\U{000C}' || c == '\r' || c == ' '
    || c == '\U{00A0}' || c == '\U{1680}' || ('\U{2000}' <= c <= '\U{200A}')
    || c == '\U{2028}' || c == '\U{2029}' || c == '\U{202F}' || c == '\U{205F}'
    || c == '\U{3000}' || c == '\U{FEFF}'
  }

  /** Neither the first nor the last character is white space. */
  predicate NoEdgeSpace(s: string) {
    s == [] || (!IsSpace(s[0]) && !IsSpace(s[|s| - 1]))
  }

  /** The number of white-space characters at the start of `s`. */
  function Leading(s: string): (n: nat)
    ensures n <= |s|
    ensures forall i :: 0 <= i < n ==> IsSpace(s[i])
    ensures n < |s| ==> !IsSpace(s[n])
  {
    if s != [] && IsSpace(s[0]) then
      var n := Leading(s[1..]) + 1;
      assert forall i :: 1 <= i < n ==> s[i] == s[1..][i - 1];
      n
    else 0
  }

  /** The number of white-space characters at the end of `s`. */
  function Trailing(s: string): (n: nat)
    ensures n <= |s|
    ensures forall i :: |s| - n <= i < |s| ==> IsSpace(s[i])
    ensures n < |s| ==> !IsSpace(s[|s| - 1 - n])
  {
    if s != [] && IsSpace(s[|s| - 1]) then
      var n := Trailing(s[..|s| - 1]) + 1;
      assert forall i :: |s| - n <= i < |s| - 1 ==> s[i] == s[..|s| - 1][i];
      n
    else 0
  }

  /** `s.trim()`: the contiguous slice of `s` left after removing white space at both ends. */
  function Trim(s: string): (r: string)
    ensures NoEdgeSpace(r)
    ensures Leading(s) + |r| <= |s|
    ensures r == s[Leading(s)..Leading(s) + |r|]
    ensures forall i :: 0 <= i < Leading(s) ==> IsSpace(s[i])
    ensures forall i :: Leading(s) + |r| <= i < |s| ==> IsSpace(s[i])
  {
    var lo := Leading(s);
    var hi := if |s| - Trailing(s) < lo then lo else |s| - Trailing(s);
    s[lo..hi]
  }

  /** Trimming a string with no white space at its ends leaves it unchanged; in particular
      trimming is idempotent. */
  lemma TrimFixed(s: string)
    requires NoEdgeSpace(s)
    ensures Trim(s) == s
  {
  }

  /** A trimmed string holds no character its input did not hold. */
  lemma TrimKeepsOut(s: string, c: char)
    requires c !in s
    ensures c !in Trim(s)
  {
    var off := Leading(s);
    assert Trim(s) == s[off..off + |Trim(s)|];
  }

  /** `parts.join(sep)`: the parts with one separator between neighbours; `[].join(sep)` is "". */
  function Join(parts: seq<string>, sep: char): (r: string)
    ensures |parts| == 0 ==> r == []
    ensures |parts| >= 1 ==> parts[0] <= r
    ensures |parts| == 1 ==> r == parts[0]
    ensures |parts| >= 2 ==> |r| > |parts[0]| && r[|parts[0]|] == sep
  {
    if |parts| == 0 then []
    else if |parts| == 1 then parts[0]
    else parts[0] + [sep] + Join(parts[1..], sep)
  }

  /** `s.split(sep)`: the maximal separator-free pieces between separators, so there is
      always at least one piece ("".split(",") is [""]). */
  function Split(s: string, sep: char): (r: seq<string>)
    ensures |r| >= 1
    ensures forall i :: 0 <= i < |r| ==> sep !in r[i]
  {
    if s == [] then [[]]
    else
      var rest := Split(s[1..], sep);
      if s[0] == sep then [[]] + rest
      else [[s[0]] + rest[0]] + rest[1..]
  }

  /** Joining the pieces of a split with the same separator gives back the string. */
  lemma {:induction false} JoinSplit(s: string, sep: char)
    ensures Join(Split(s, sep), sep) == s
  {
    if s != [] {
      var rest := Split(s[1..], sep);
      JoinSplit(s[1..], sep);
      if s[0] == sep {
        assert Split(s, sep) == [[]] + rest;
        assert Split(s, sep)[1..] == rest;
      } else {
        var r := Split(s, sep);
        assert r == [[s[0]] + rest[0]] + rest[1..];
        if |rest| == 1 {
          assert r == [[s[0]] + rest[0]];
        } else {
          assert r[1..] == rest[1..];
          assert Join(rest, sep) == rest[0] + [sep] + Join(rest[1..], sep);
        }
      }
    }
  }

  /** Splitting a string that starts with a separator-free piece `x` glues `x` onto the
      first piece of the rest. */
  lemma {:induction false} SplitPrefix(x: string, t: string, sep: char)
    requires sep !in x
    ensures Split(x + t, sep) == [x + Split(t, sep)[0]] + Split(t, sep)[1..]
  {
    if x != [] {
      var r := Split(t, sep);
      assert (x + t)[1..] == x[1..] + t;
      assert (x + t)[0] == x[0] && x[0] != sep;
      SplitPrefix(x[1..], t, sep);
      var rest := Split(x[1..] + t, sep);
      assert rest == [x[1..] + r[0]] + r[1..];
      assert Split(x + t, sep) == [[x[0]] + rest[0]] + rest[1..];
      assert [x[0]] + (x[1..] + r[0]) == x + r[0];
    } else {
      var r := Split(t, sep);
      assert x + t == t;
      assert x + r[0] == r[0];
      assert r == [r[0]] + r[1..];
    }
  }

  /** Splitting the join of separator-free parts gives back the parts (for at least one part). */
  lemma {:induction false} SplitJoin(parts: seq<string>, sep: char)
    requires |parts| >= 1
    requires forall i :: 0 <= i < |parts| ==> sep !in parts[i]
    ensures Split(Join(parts, sep), sep) == parts
  {
    if |parts| == 1 {
      SplitPrefix(parts[0], [], sep);
      assert parts[0] + [] == parts[0];
    } else {
      var tail := Join(parts[1..], sep);
      SplitJoin(parts[1..], sep);
      assert Join(parts, sep) == parts[0] + ([sep] + tail);
      SplitPrefix(parts[0], [sep] + tail, sep);
      assert ([sep] + tail)[1..] == tail;
      assert Split([sep] + tail, sep) == [[]] + parts[1..];
      assert Split(Join(parts, sep), sep) == [parts[0] + []] + parts[1..];
      assert parts[0] + [] == parts[0];
      assert parts == [parts[0]] + parts[1..];
    }
  }

  /** Joins of equally many parts, each no longer than its counterpart, compare the same way. */
  lemma {:induction false} JoinNoLonger(shorter: seq<string>, longer: seq<string>, sep: char)
    requires |shorter| == |longer|
    requires forall i :: 0 <= i < |shorter| ==> |shorter[i]| <= |longer[i]|
    ensures |Join(shorter, sep)| <= |Join(longer, sep)|
  {
    if |shorter| > 1 {
      JoinNoLonger(shorter[1..], longer[1..], sep);
    }
  }

  /** No entry occurs twice. */
  predicate Distinct(s: seq<string>) {
    forall i, j :: 0 <= i < j < |s| ==> s[i] != s[j]
  }

  /** ASCII part of `toLowerCase` on one character. */
  function LowerChar(c: char): (r: char)
    ensures 'A' <= c <= 'Z' ==> 'a' <= r <= 'z' && r as int == c as int + 32
    ensures !('A' <= c <= 'Z') ==> r == c
  {
    if 'A' <= c <= 'Z' then (c as int + 32) as char else c
  }

  /** `s.toLowerCase()` on ASCII letters; every other character is kept. */
  function Lower(s: string): (r: string)
    ensures |r| == |s|
    ensures forall i :: 0 <= i < |s| ==> r[i] == LowerChar(s[i])
  {
    seq(|s|, i requires 0 <= i < |s| => LowerChar(s[i]))
  }

  /** Lower-casing twice is lower-casing once. */
  lemma LowerIdempotent(s: string)
    ensures Lower(Lower(s)) == Lower(s)
  {
  }
}
