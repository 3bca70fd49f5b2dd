/** The pure helpers of `Frontend/src/component/Problems/ProblemPage.jsx`: the pagination
    window, the topic toggle, the difficulty badge class, the previous-page target, row
    numbering and the parsing of the `topics` query parameter. */
module ProblemPage {
  import opened Wrappers
  import opened Text

  /** Problems per page (`limit`). */
  const Limit: nat := 4

  /** Page buttons shown at most (`MAX_VISIBLE`). */
  const MaxVisible: nat := 5

  function Min(a: int, b: int): int { if a <= b then a else b }
  function Max(a: int, b: int): int { if a >= b then a else b }

  datatype Window = Window(startPage: int, endPage: int)

  /** `startPage` and `endPage` for the current page: a run of at most five page numbers,
      centred on the page where possible, that stays within 1..totalPages. */
  function PageWindow(page: int, totalPages: int): (w: Window)
    ensures totalPages >= 1 ==> 1 <= w.startPage && w.endPage <= totalPages
    ensures w.endPage - w.startPage + 1 == Min(MaxVisible, totalPages)
    ensures 1 <= page <= totalPages ==> w.startPage <= page <= w.endPage
  {
    var startPage := Max(1, Min(page - MaxVisible / 2, totalPages - MaxVisible + 1));
    var endPage := Min(totalPages, startPage + MaxVisible - 1);
    Window(startPage, endPage)
  }

  /** `goPrev`: the page to navigate to, or None when the page is 1 (or less) and nothing
      changes. */
  function GoPrev(page: int): (target: Option<int>)
    ensures target.None? <==> page <= 1
    ensures target.Some? ==> 1 <= target.value && target.value + 1 == page
  {
    if page > 1 then Some(page - 1) else None
  }

  /** The number shown before the title of the row at `index` on `page`. On page p the
      rows are numbered (p - 1) * 4 + 1 through p * 4. */
  function RowNumber(page: int, index: int): (n: int)
    ensures page >= 1 && 0 <= index < Limit ==> (page - 1) * Limit < n <= page * Limit
  {
    (page - 1) * Limit + index + 1
  }

  /** The last row of a page and the first row of the next are numbered consecutively. */
  lemma RowsContiguous(page: int)
    ensures RowNumber(page + 1, 0) == RowNumber(page, Limit - 1) + 1
  {
  }

  /** `prev.filter((x) => x !== t)`. */
  function Remove(prev: seq<string>, t: string): (r: seq<string>)
    ensures t !in r
    ensures forall x :: x in r <==> x in prev && x != t
    ensures |r| <= |prev|
    ensures t !in prev ==> r == prev
  {
    if prev == [] then []
    else if prev[0] == t then Remove(prev[1..], t)
    else [prev[0]] + Remove(prev[1..], t)
  }

  /** `toggleTopic`: an absent topic is appended at the end; a present one is removed,
      every occurrence of it. */
  function ToggleTopic(prev: seq<string>, t: string): (r: seq<string>)
    ensures t !in prev ==> r == prev + [t]
    ensures t in prev ==> t !in r && forall x :: x != t ==> (x in r <==> x in prev)
  {
    if t in prev then Remove(prev, t) else prev + [t]
  }

  /** Removing keeps the remaining topics in their order, so distinct topics stay distinct. */
  lemma {:induction false} RemoveKeepsDistinct(prev: seq<string>, t: string)
    requires Distinct(prev)
    ensures Distinct(Remove(prev, t))
  {
    if prev != [] {
      RemoveKeepsDistinct(prev[1..], t);
      if prev[0] != t {
        assert prev[0] !in prev[1..];
        assert prev[0] !in Remove(prev[1..], t);
      }
    }
  }

  /** Toggling keeps a list of distinct topics distinct. */
  lemma ToggleKeepsDistinct(prev: seq<string>, t: string)
    requires Distinct(prev)
    ensures Distinct(ToggleTopic(prev, t))
  {
    if t in prev {
      RemoveKeepsDistinct(prev, t);
    }
  }

  /** Toggling an absent topic twice gives back the original list. */
  lemma {:induction false} ToggleTwice(prev: seq<string>, t: string)
    requires t !in prev
    ensures ToggleTopic(ToggleTopic(prev, t), t) == prev
  {
    RemoveAppended(prev, t);
  }

  lemma {:induction false} RemoveAppended(prev: seq<string>, t: string)
    requires t !in prev
    ensures Remove(prev + [t], t) == prev
  {
    if prev != [] {
      assert (prev + [t])[1..] == prev[1..] + [t];
      RemoveAppended(prev[1..], t);
    } else {
      assert Remove([t][1..], t) == [];
    }
  }

  /** `difficultyClass`: "easy", "medium" and "hard" in any letter case pick their badge;
      anything else, the empty or missing value included, is grey. */
  function DifficultyClass(d: string): (cls: string)
    ensures Lower(d) == "easy" ==> cls == "bg-green-600 text-black"
    ensures Lower(d) == "medium" ==> cls == "bg-yellow-400 text-black"
    ensures Lower(d) == "hard" ==> cls == "bg-red-600 text-white"
    ensures cls == "bg-gray-600" <==> Lower(d) !in {"easy", "medium", "hard"}
  {
    var dd := Lower(d);
    if dd == "easy" then "bg-green-600 text-black"
    else if dd == "medium" then "bg-yellow-400 text-black"
    else if dd == "hard" then "bg-red-600 text-white"
    else "bg-gray-600"
  }

  /** The difficulty values of the Problem schema each get their own badge. */
  lemma SchemaDifficulties()
    ensures DifficultyClass("Easy") == "bg-green-600 text-black"
    ensures DifficultyClass("Medium") == "bg-yellow-400 text-black"
    ensures DifficultyClass("Hard") == "bg-red-600 text-white"
    ensures DifficultyClass("") == "bg-gray-600"
  {
    assert Lower("Easy") == "easy";
    assert Lower("Medium") == "medium";
    assert Lower("Hard") == "hard";
  }

  /** `.filter(Boolean)` on strings: the non-empty ones, in order. */
  function NonEmpty(parts: seq<string>): (r: seq<string>)
    ensures forall i :: 0 <= i < |r| ==> r[i] != ""
    ensures forall x :: x in r <==> x in parts && x != ""
  {
    if parts == [] then []
    else if parts[0] == "" then NonEmpty(parts[1..])
    else [parts[0]] + NonEmpty(parts[1..])
  }

  /** The initial selected topics: the query split on "," with empty pieces dropped; an
      empty query selects nothing. */
  function TopicsFromQuery(query: string): (topics: seq<string>)
    ensures forall i :: 0 <= i < |topics| ==> topics[i] != "" && ',' !in topics[i]
    ensures query == "" ==> topics == []
  {
    if query == "" then []
    else
      var parts := Split(query, ',');
      assert forall x :: x in parts ==> ',' !in x;
      NonEmpty(parts)
  }

  lemma {:induction false} NonEmptyKeeps(parts: seq<string>)
    requires forall i :: 0 <= i < |parts| ==> parts[i] != ""
    ensures NonEmpty(parts) == parts
  {
    if parts != [] {
      NonEmptyKeeps(parts[1..]);
    }
  }

  /** The page writes `selectedTopics.join(",")` into the `topics` parameter; reading it
      back gives the same topics, provided each is non-empty and free of commas. */
  lemma TopicsRoundTrip(topics: seq<string>)
    requires forall i :: 0 <= i < |topics| ==> topics[i] != "" && ',' !in topics[i]
    ensures TopicsFromQuery(Join(topics, ',')) == topics
  {
    if topics != [] {
      SplitJoin(topics, ',');
      NonEmptyKeeps(topics);
      assert |Join(topics, ',')| >= |topics[0]|;
    }
  }
}
