/** The positional line diff of src/utils/diffUtils.js: `calculateDiff`
    compares expected and actual text index by index (no re-alignment after an
    inserted line) and `formatDiffForDisplay` turns the result into display
    lines ordered by line number. */
module Diff {
  import opened Common

  datatype LineEntry = LineEntry(line: nat, content: string)
  datatype ModifiedEntry = ModifiedEntry(line: nat, expected: Option<string>, actual: Option<string>)

  /** `{added, removed, modified, similarity}`; `similarity` is the exact
      percentage `matches / lines * 100`. */
  datatype LineDiff = LineDiff(added: seq<LineEntry>, removed: seq<LineEntry>,
                               modified: seq<ModifiedEntry>, similarity: real)

  /** `text.split('\n')`. */
  function Lines(text: string): seq<string> {
    SplitOn(text, "\n")
  }

  /** `lines[i]`: `undefined` past the end. */
  function At(lines: seq<string>, i: nat): Option<string> {
    if i < |lines| then Some(lines[i]) else None
  }

  /** How one index is classified by the chain of tests in the loop. */
  datatype Kind = Same | Removal | Addition | Change

  function KindOf(e: Option<string>, a: Option<string>): Kind {
    if e == a then Same
    else if !Truthy(a) && Truthy(e) then Removal
    else if Truthy(a) && !Truthy(e) then Addition
    else Change
  }

  function KindAt(el: seq<string>, al: seq<string>, i: nat): Kind {
    KindOf(At(el, i), At(al, i))
  }

  /** What the loop has accumulated. */
  datatype Tally = Tally(matches: nat, added: seq<LineEntry>, removed: seq<LineEntry>,
                         modified: seq<ModifiedEntry>)

  function Step(t: Tally, el: seq<string>, al: seq<string>, i: nat): Tally {
    var e, a := At(el, i), At(al, i);
    match KindOf(e, a)
    case Same => t.(matches := t.matches + 1)
    case Removal => t.(removed := t.removed + [LineEntry(i, e.value)])
    case Addition => t.(added := t.added + [LineEntry(i, a.value)])
    case Change => t.(modified := t.modified + [ModifiedEntry(i, e, a)])
  }

  /** The accumulators after the first `n` indices. */
  function Scan(el: seq<string>, al: seq<string>, n: nat): Tally {
    if n == 0 then Tally(0, [], [], []) else Step(Scan(el, al, n - 1), el, al, n - 1)
  }

  function Similarity(matches: nat, total: nat): real {
    if total > 0 then (matches as real / total as real) * 100.0 else 100.0
  }

  /** The diff of two present, non-empty texts. */
  function DiffOf(expected: string, actual: string): LineDiff {
    var el, al := Lines(expected), Lines(actual);
    var n := Max(|el|, |al|);
    var t := Scan(el, al, n);
    LineDiff(t.added, t.removed, t.modified, Similarity(t.matches, n))
  }

  /** What `calculateDiff` returns, as a value of its two arguments. */
  function DiffResult(expected: Option<string>, actual: Option<string>): Option<LineDiff> {
    if Truthy(expected) && Truthy(actual) then Some(DiffOf(expected.value, actual.value)) else None
  }

  /** `calculateDiff(expected, actual)`: `null` when either text is missing or
      empty, otherwise the positional diff. */
  method CalculateDiff(expected: Option<string>, actual: Option<string>) returns (r: Option<LineDiff>)
    ensures r.None? <==> !Truthy(expected) || !Truthy(actual)
    ensures r.Some? ==> r.value == DiffOf(expected.value, actual.value)
    ensures r == DiffResult(expected, actual)
  {
    if !Truthy(expected) || !Truthy(actual) {
      return None;
    }
    var expectedLines := Lines(expected.value);
    var actualLines := Lines(actual.value);
    var added: seq<LineEntry>, removed: seq<LineEntry>, modified: seq<ModifiedEntry> := [], [], [];
    var maxLength := Max(|expectedLines|, |actualLines|);
    var matchingLines := 0;
    for i := 0 to maxLength
      invariant Scan(expectedLines, actualLines, i) == Tally(matchingLines, added, removed, modified)
    {
      var expectedLine := At(expectedLines, i);
      var actualLine := At(actualLines, i);
      if expectedLine == actualLine {
        matchingLines := matchingLines + 1;
      } else if !Truthy(actualLine) && Truthy(expectedLine) {
        removed := removed + [LineEntry(i, expectedLine.value)];
      } else if Truthy(actualLine) && !Truthy(expectedLine) {
        added := added + [LineEntry(i, actualLine.value)];
      } else if actualLine != expectedLine {
        modified := modified + [ModifiedEntry(i, expectedLine, actualLine)];
      }
    }
    var similarity := if maxLength > 0 then (matchingLines as real / maxLength as real) * 100.0 else 100.0;
    r := Some(LineDiff(added, removed, modified, similarity));
  }

  // ---------------------------------------------------------------------------
  // What the scan records

  /** Every index is counted exactly once: as a match or in one of the lists. */
  lemma {:induction false} ScanPartition(el: seq<string>, al: seq<string>, n: nat)
    ensures var t := Scan(el, al, n);
      t.matches + |t.added| + |t.removed| + |t.modified| == n
  {
    if n > 0 {
      ScanPartition(el, al, n - 1);
    }
  }

  /** Every removed entry is an index below `n` classified as a removal, carrying
      its expected line, and the entries are in strictly increasing order;
      completeness: every such index has an entry. */
  predicate RemovedSound(t: Tally, el: seq<string>, al: seq<string>, n: nat) {
    && (forall j :: 0 <= j < |t.removed| ==>
          t.removed[j].line < n && KindAt(el, al, t.removed[j].line) == Removal
          && At(el, t.removed[j].line) == Some(t.removed[j].content))
    && (forall j, k :: 0 <= j < k < |t.removed| ==> t.removed[j].line < t.removed[k].line)
  }

  predicate RemovedComplete(t: Tally, el: seq<string>, al: seq<string>, n: nat) {
    forall i :: 0 <= i < n && KindAt(el, al, i) == Removal ==>
      exists j :: 0 <= j < |t.removed| && t.removed[j].line == i
  }

  /** The same for additions, with the actual line as content. */
  predicate AddedSound(t: Tally, el: seq<string>, al: seq<string>, n: nat) {
    && (forall j :: 0 <= j < |t.added| ==>
          t.added[j].line < n && KindAt(el, al, t.added[j].line) == Addition
          && At(al, t.added[j].line) == Some(t.added[j].content))
    && (forall j, k :: 0 <= j < k < |t.added| ==> t.added[j].line < t.added[k].line)
  }

  predicate AddedComplete(t: Tally, el: seq<string>, al: seq<string>, n: nat) {
    forall i :: 0 <= i < n && KindAt(el, al, i) == Addition ==>
      exists j :: 0 <= j < |t.added| && t.added[j].line == i
  }

  /** The same for modifications, with both lines. */
  predicate ModifiedSound(t: Tally, el: seq<string>, al: seq<string>, n: nat) {
    && (forall j :: 0 <= j < |t.modified| ==>
          t.modified[j].line < n && KindAt(el, al, t.modified[j].line) == Change
          && t.modified[j].expected == At(el, t.modified[j].line) && t.modified[j].actual == At(al, t.modified[j].line))
    && (forall j, k :: 0 <= j < k < |t.modified| ==> t.modified[j].line < t.modified[k].line)
  }

  predicate ModifiedComplete(t: Tally, el: seq<string>, al: seq<string>, n: nat) {
    forall i :: 0 <= i < n && KindAt(el, al, i) == Change ==>
      exists j :: 0 <= j < |t.modified| && t.modified[j].line == i
  }

  /** One step of the scan appends to exactly the list the index's kind selects. */
  lemma ScanStep(el: seq<string>, al: seq<string>, n: nat)
    requires n > 0
    ensures var t, t', i := Scan(el, al, n - 1), Scan(el, al, n), n - 1;
      var k := KindAt(el, al, i);
      && t'.matches == t.matches + (if k == Same then 1 else 0)
      && t'.removed == t.removed + (if k == Removal then [LineEntry(i, At(el, i).value)] else [])
      && t'.added == t.added + (if k == Addition then [LineEntry(i, At(al, i).value)] else [])
      && t'.modified == t.modified + (if k == Change then [ModifiedEntry(i, At(el, i), At(al, i))] else [])
  {
  }

  lemma {:induction false} ScanRemovedSound(el: seq<string>, al: seq<string>, n: nat)
    ensures RemovedSound(Scan(el, al, n), el, al, n)
  {
    if n > 0 {
      ScanRemovedSound(el, al, n - 1);
      ScanStep(el, al, n);
      var t, t', i := Scan(el, al, n - 1), Scan(el, al, n), n - 1;
      if KindAt(el, al, i) == Removal {
        assert t'.removed == t.removed + [LineEntry(i, At(el, i).value)];
        assert t'.removed[|t.removed|].line == i;
      } else {
        assert t'.removed == t.removed;
      }
    }
  }

  lemma {:induction false} ScanRemovedComplete(el: seq<string>, al: seq<string>, n: nat)
    ensures RemovedComplete(Scan(el, al, n), el, al, n)
  {
    if n > 0 {
      ScanRemovedComplete(el, al, n - 1);
      ScanStep(el, al, n);
      var t, t', i := Scan(el, al, n - 1), Scan(el, al, n), n - 1;
      forall i' | 0 <= i' < n && KindAt(el, al, i') == Removal
        ensures exists j :: 0 <= j < |t'.removed| && t'.removed[j].line == i'
      {
        if i' < i {
          var j :| 0 <= j < |t.removed| && t.removed[j].line == i';
          assert t'.removed[j] == t.removed[j];
        } else {
          assert t'.removed[|t.removed|].line == i;
        }
      }
    }
  }

  lemma {:induction false} ScanAddedSound(el: seq<string>, al: seq<string>, n: nat)
    ensures AddedSound(Scan(el, al, n), el, al, n)
  {
    if n > 0 {
      ScanAddedSound(el, al, n - 1);
      ScanStep(el, al, n);
      var t, t', i := Scan(el, al, n - 1), Scan(el, al, n), n - 1;
      if KindAt(el, al, i) == Addition {
        assert t'.added == t.added + [LineEntry(i, At(al, i).value)];
        assert t'.added[|t.added|].line == i;
      } else {
        assert t'.added == t.added;
      }
    }
  }

  lemma {:induction false} ScanAddedComplete(el: seq<string>, al: seq<string>, n: nat)
    ensures AddedComplete(Scan(el, al, n), el, al, n)
  {
    if n > 0 {
      ScanAddedComplete(el, al, n - 1);
      ScanStep(el, al, n);
      var t, t', i := Scan(el, al, n - 1), Scan(el, al, n), n - 1;
      forall i' | 0 <= i' < n && KindAt(el, al, i') == Addition
        ensures exists j :: 0 <= j < |t'.added| && t'.added[j].line == i'
      {
        if i' < i {
          var j :| 0 <= j < |t.added| && t.added[j].line == i';
          assert t'.added[j] == t.added[j];
        } else {
          assert t'.added[|t.added|].line == i;
        }
      }
    }
  }

  lemma {:induction false} ScanModifiedSound(el: seq<string>, al: seq<string>, n: nat)
    ensures ModifiedSound(Scan(el, al, n), el, al, n)
  {
    if n > 0 {
      ScanModifiedSound(el, al, n - 1);
      ScanStep(el, al, n);
      var t, t', i := Scan(el, al, n - 1), Scan(el, al, n), n - 1;
      if KindAt(el, al, i) == Change {
        assert t'.modified == t.modified + [ModifiedEntry(i, At(el, i), At(al, i))];
        assert t'.modified[|t.modified|].line == i;
      } else {
        assert t'.modified == t.modified;
      }
    }
  }

  lemma {:induction false} ScanModifiedComplete(el: seq<string>, al: seq<string>, n: nat)
    ensures ModifiedComplete(Scan(el, al, n), el, al, n)
  {
    if n > 0 {
      ScanModifiedComplete(el, al, n - 1);
      ScanStep(el, al, n);
      var t, t', i := Scan(el, al, n - 1), Scan(el, al, n), n - 1;
      forall i' | 0 <= i' < n && KindAt(el, al, i') == Change
        ensures exists j :: 0 <= j < |t'.modified| && t'.modified[j].line == i'
      {
        if i' < i {
          var j :| 0 <= j < |t.modified| && t.modified[j].line == i';
          assert t'.modified[j] == t.modified[j];
        } else {
          assert t'.modified[|t.modified|].line == i;
        }
      }
    }
  }

  lemma ScanEntries(el: seq<string>, al: seq<string>, n: nat)
    ensures RemovedSound(Scan(el, al, n), el, al, n) && RemovedComplete(Scan(el, al, n), el, al, n)
    ensures AddedSound(Scan(el, al, n), el, al, n) && AddedComplete(Scan(el, al, n), el, al, n)
    ensures ModifiedSound(Scan(el, al, n), el, al, n) && ModifiedComplete(Scan(el, al, n), el, al, n)
  {
    ScanRemovedSound(el, al, n);
    ScanRemovedComplete(el, al, n);
    ScanAddedSound(el, al, n);
    ScanAddedComplete(el, al, n);
    ScanModifiedSound(el, al, n);
    ScanModifiedComplete(el, al, n);
  }

  /** An index whose expected line is non-empty and whose actual line is
      missing or empty is recorded as removed, with its expected line; the
      symmetric case is recorded as added. */
  lemma RemovedAndAddedLines(expected: string, actual: string, i: nat)
    ensures var el, al := Lines(expected), Lines(actual);
      var d := DiffOf(expected, actual);
      (Truthy(At(el, i)) && !Truthy(At(al, i)) ==> LineEntry(i, el[i]) in d.removed)
      && (Truthy(At(al, i)) && !Truthy(At(el, i)) ==> LineEntry(i, al[i]) in d.added)
  {
    var el, al := Lines(expected), Lines(actual);
    var n := Max(|el|, |al|);
    ScanEntries(el, al, n);
    var t := Scan(el, al, n);
    if Truthy(At(el, i)) && !Truthy(At(al, i)) {
      assert KindAt(el, al, i) == Removal;
      var j :| 0 <= j < |t.removed| && t.removed[j].line == i;
      assert t.removed[j] == LineEntry(i, el[i]);
    }
    if Truthy(At(al, i)) && !Truthy(At(el, i)) {
      assert KindAt(el, al, i) == Addition;
      var j :| 0 <= j < |t.added| && t.added[j].line == i;
      assert t.added[j] == LineEntry(i, al[i]);
    }
  }

  // ---------------------------------------------------------------------------
  // Similarity

  lemma {:induction false} MatchesAtMost(el: seq<string>, al: seq<string>, n: nat)
    ensures Scan(el, al, n).matches <= n
    ensures Scan(el, al, n).matches == n <==> forall i :: 0 <= i < n ==> KindAt(el, al, i) == Same
  {
    if n > 0 {
      MatchesAtMost(el, al, n - 1);
      var m := Scan(el, al, n - 1).matches;
      if KindAt(el, al, n - 1) == Same {
        assert Scan(el, al, n).matches == m + 1;
      } else {
        assert Scan(el, al, n).matches == m;
      }
    }
  }

  /** The percentage of `m` matches out of `n` lines lies between 0 and 100
      and is 100 exactly when every line matches. */
  lemma SimilarityRange(m: nat, n: nat)
    requires m <= n
    ensures 0.0 <= Similarity(m, n) <= 100.0
    ensures Similarity(m, n) == 100.0 <==> m == n
  {
    if n > 0 {
      var q := m as real / n as real;
      RatioAtMostOne(m, n);
      if q * 100.0 == 100.0 {
        assert q == 1.0;
        assert q * n as real == m as real;
      }
    }
  }

  lemma RatioAtMostOne(m: nat, n: nat)
    requires 0 < n && m <= n
    ensures 0.0 <= m as real / n as real <= 1.0
  {
    assert (m as real / n as real) * n as real == m as real;
  }

  /** The similarity is a percentage. */
  lemma SimilarityBounds(expected: string, actual: string)
    ensures 0.0 <= DiffOf(expected, actual).similarity <= 100.0
  {
    var el, al := Lines(expected), Lines(actual);
    var n := Max(|el|, |al|);
    MatchesAtMost(el, al, n);
    SimilarityRange(Scan(el, al, n).matches, n);
  }

  /** Every index matches exactly when the two line sequences are equal. */
  lemma AllSameIffEqual(el: seq<string>, al: seq<string>)
    ensures (forall i :: 0 <= i < Max(|el|, |al|) ==> KindAt(el, al, i) == Same) <==> el == al
  {
    var n := Max(|el|, |al|);
    if el != al {
      var i: nat;
      if |el| != |al| {
        i := if |el| < |al| then |el| else |al|;
      } else {
        i :| 0 <= i < |el| && el[i] != al[i];
      }
      assert KindAt(el, al, i) != Same;
    }
  }

  /** Similarity is 100 exactly when the two texts are identical. */
  lemma SimilarityFullIffEqual(expected: string, actual: string)
    ensures DiffOf(expected, actual).similarity == 100.0 <==> expected == actual
  {
    var el, al := Lines(expected), Lines(actual);
    var n := Max(|el|, |al|);
    MatchesAtMost(el, al, n);
    AllSameIffEqual(el, al);
    SimilarityRange(Scan(el, al, n).matches, n);
    if el == al {
      JoinSplit(expected, "\n");
      JoinSplit(actual, "\n");
    }
  }

  // ---------------------------------------------------------------------------
  // The two worked examples

  /** A one-character text that is not a line break is a single line. */
  lemma OneLine(x: char)
    requires x != '\n'
    ensures Lines([x]) == [[x]]
  {
    assert "\n" == ['\n'];
    assert [x][..1] == [x];
    assert [x][0] != ['\n'][0];
    assert [x][1..] == [];
    var rest := SplitOn([x][1..], "\n");
    assert rest == [""];
    assert SplitOn([x], "\n") == [[[x][0]] + rest[0]] + rest[1..];
    assert [[x][0]] + rest[0] == [x];
    assert rest[1..] == [];
  }

  /** Splitting `[x] + "\n" + [y]` on line breaks, for two characters that are not line breaks. */
  lemma TwoLines(x: char, y: char)
    requires x != '\n' && y != '\n'
    ensures Lines([x, '\n', y]) == [[x], [y]]
  {
    var s := [x, '\n', y];
    OneLine(y);
    assert "\n" == ['\n'];
    assert s[1..][..1] == "\n";
    assert s[1..][1..] == [y];
    assert SplitOn(s[1..], "\n") == ["", [y]];
    assert s[..1] == [x];
    assert s[..1][0] != ['\n'][0];
    var rest := SplitOn(s[1..], "\n");
    assert SplitOn(s, "\n") == [[s[0]] + rest[0]] + rest[1..];
    assert [s[0]] + rest[0] == [x];
    assert rest[1..] == [[y]];
  }

  lemma ExampleModifiedLine()
    ensures DiffOf("a\nb", "a\nX")
         == LineDiff([], [], [ModifiedEntry(1, Some("b"), Some("X"))], 50.0)
  {
    TwoLines('a', 'b');
    TwoLines('a', 'X');
    assert "a\nb" == ['a', '\n', 'b'];
    assert "a\nX" == ['a', '\n', 'X'];
    var el, al := Lines("a\nb"), Lines("a\nX");
    assert KindAt(el, al, 0) == Same;
    assert KindAt(el, al, 1) == Change;
    ScanStep(el, al, 1);
    ScanStep(el, al, 2);
  }

  lemma ExampleAddedLine()
    ensures DiffOf("a", "a\nb") == LineDiff([LineEntry(1, "b")], [], [], 50.0)
  {
    OneLine('a');
    TwoLines('a', 'b');
    assert "a\nb" == ['a', '\n', 'b'];
    var el, al := Lines("a"), Lines("a\nb");
    assert KindAt(el, al, 0) == Same;
    assert KindAt(el, al, 1) == Addition;
    ScanStep(el, al, 1);
    ScanStep(el, al, 2);
  }

  // ---------------------------------------------------------------------------
  // formatDiffForDisplay

  datatype DisplayKind = ShowRemoved | ShowAdded
  datatype DisplayLine = DisplayLine(kind: DisplayKind, lineNumber: nat, content: string)

  function RemovedLine(line: nat, text: string): DisplayLine {
    DisplayLine(ShowRemoved, line + 1, "- " + text)
  }

  function AddedLine(line: nat, text: string): DisplayLine {
    DisplayLine(ShowAdded, line + 1, "+ " + text)
  }

  function RemovedPart(rs: seq<LineEntry>): seq<DisplayLine> {
    if rs == [] then [] else RemovedPart(rs[..|rs| - 1]) + [RemovedLine(rs[|rs| - 1].line, rs[|rs| - 1].content)]
  }

  function AddedPart(xs: seq<LineEntry>): seq<DisplayLine> {
    if xs == [] then [] else AddedPart(xs[..|xs| - 1]) + [AddedLine(xs[|xs| - 1].line, xs[|xs| - 1].content)]
  }

  /** Each modified pair becomes a removed line followed by an added line. */
  function ModifiedPart(ms: seq<ModifiedEntry>): seq<DisplayLine> {
    if ms == [] then []
    else
      var m := ms[|ms| - 1];
      ModifiedPart(ms[..|ms| - 1]) + [RemovedLine(m.line, Template(m.expected)), AddedLine(m.line, Template(m.actual))]
  }

  /** The lines in the order they are pushed, before sorting. */
  function Unsorted(d: LineDiff): seq<DisplayLine> {
    RemovedPart(d.removed) + AddedPart(d.added) + ModifiedPart(d.modified)
  }

  /** Inserts `x` in front of the first line whose number is not smaller. */
  function InsertByLine(x: DisplayLine, s: seq<DisplayLine>): seq<DisplayLine> {
    if s == [] || x.lineNumber <= s[0].lineNumber then [x] + s
    else [s[0]] + InsertByLine(x, s[1..])
  }

  /** `Array.prototype.sort` with the comparator `a.lineNumber - b.lineNumber`,
      which is a stable sort. */
  function SortByLine(s: seq<DisplayLine>): seq<DisplayLine> {
    if s == [] then [] else InsertByLine(s[0], SortByLine(s[1..]))
  }

  /** `formatDiffForDisplay(diff)`. */
  method FormatDiffForDisplay(diff: Option<LineDiff>) returns (lines: seq<DisplayLine>)
    ensures diff.None? ==> lines == []
    ensures diff.Some? ==> lines == SortByLine(Unsorted(diff.value))
  {
    if diff.None? {
      return [];
    }
    var d := diff.value;
    lines := [];
    for i := 0 to |d.removed|
      invariant lines == RemovedPart(d.removed[..i])
    {
      lines := lines + [RemovedLine(d.removed[i].line, d.removed[i].content)];
      assert d.removed[..i + 1][..i] == d.removed[..i];
    }
    assert d.removed[..|d.removed|] == d.removed;
    var pushed := lines;
    for i := 0 to |d.added|
      invariant lines == pushed + AddedPart(d.added[..i])
    {
      lines := lines + [AddedLine(d.added[i].line, d.added[i].content)];
      assert d.added[..i + 1][..i] == d.added[..i];
    }
    assert d.added[..|d.added|] == d.added;
    pushed := lines;
    for i := 0 to |d.modified|
      invariant lines == pushed + ModifiedPart(d.modified[..i])
    {
      var m := d.modified[i];
      lines := lines + [RemovedLine(m.line, Template(m.expected))];
      lines := lines + [AddedLine(m.line, Template(m.actual))];
      assert d.modified[..i + 1][..i] == d.modified[..i];
    }
    assert d.modified[..|d.modified|] == d.modified;
    lines := SortByLine(lines);
  }

  // ---------------------------------------------------------------------------
  // What formatDiffForDisplay promises

  predicate SortedByLine(s: seq<DisplayLine>) {
    forall i, j :: 0 <= i < j < |s| ==> s[i].lineNumber <= s[j].lineNumber
  }

  /** The lines with a given line number, in order. */
  function OnLine(s: seq<DisplayLine>, k: nat): seq<DisplayLine> {
    if s == [] then []
    else (if s[0].lineNumber == k then [s[0]] else []) + OnLine(s[1..], k)
  }

  lemma {:induction false} InsertPermutes(x: DisplayLine, s: seq<DisplayLine>)
    ensures multiset(InsertByLine(x, s)) == multiset(s) + multiset{x}
  {
    if s == [] || x.lineNumber <= s[0].lineNumber {
    } else {
      InsertPermutes(x, s[1..]);
      assert s == [s[0]] + s[1..];
    }
  }

  lemma {:induction false} InsertKeepsSorted(x: DisplayLine, s: seq<DisplayLine>)
    requires SortedByLine(s)
    ensures SortedByLine(InsertByLine(x, s))
  {
    if s == [] || x.lineNumber <= s[0].lineNumber {
    } else {
      InsertKeepsSorted(x, s[1..]);
      InsertPermutes(x, s[1..]);
      var r := InsertByLine(x, s[1..]);
      var out := [s[0]] + r;
      assert InsertByLine(x, s) == out;
      forall j | 0 < j < |out|
        ensures s[0].lineNumber <= out[j].lineNumber
      {
        assert out[j] == r[j - 1];
        assert r[j - 1] in multiset(s[1..]) + multiset{x};
        if r[j - 1] != x {
          var q :| 0 <= q < |s[1..]| && s[1..][q] == r[j - 1];
          assert s[1..][q] == s[q + 1];
        }
      }
    }
  }

  lemma {:induction false} InsertOnLine(x: DisplayLine, s: seq<DisplayLine>, k: nat)
    ensures OnLine(InsertByLine(x, s), k) == (if x.lineNumber == k then [x] else []) + OnLine(s, k)
  {
    var hx := if x.lineNumber == k then [x] else [];
    if s == [] || x.lineNumber <= s[0].lineNumber {
      assert ([x] + s)[0] == x;
      assert ([x] + s)[1..] == s;
    } else {
      InsertOnLine(x, s[1..], k);
      var r := InsertByLine(x, s[1..]);
      var h0 := if s[0].lineNumber == k then [s[0]] else [];
      assert ([s[0]] + r)[0] == s[0];
      assert ([s[0]] + r)[1..] == r;
      assert OnLine(InsertByLine(x, s), k) == h0 + (hx + OnLine(s[1..], k));
      assert OnLine(s, k) == h0 + OnLine(s[1..], k);
      if x.lineNumber == k {
        assert h0 == [];
      } else {
        assert hx == [];
      }
    }
  }

  /** Sorting keeps every line (it is a permutation), orders the lines by
      number, and keeps lines with the same number in their original order. */
  lemma {:induction false} SortByLineFacts(s: seq<DisplayLine>)
    ensures multiset(SortByLine(s)) == multiset(s)
    ensures |SortByLine(s)| == |s|
    ensures SortedByLine(SortByLine(s))
    ensures forall k :: OnLine(SortByLine(s), k) == OnLine(s, k)
  {
    if s != [] {
      SortByLineFacts(s[1..]);
      InsertPermutes(s[0], SortByLine(s[1..]));
      InsertKeepsSorted(s[0], SortByLine(s[1..]));
      assert s == [s[0]] + s[1..];
      assert multiset(SortByLine(s)) == multiset(s);
      calc {
        |SortByLine(s)|;
        |multiset(SortByLine(s))|;
        |multiset(s)|;
        |s|;
      }
      forall k: nat
        ensures OnLine(SortByLine(s), k) == OnLine(s, k)
      {
        InsertOnLine(s[0], SortByLine(s[1..]), k);
      }
    }
  }

  lemma PartLengths(d: LineDiff)
    ensures |Unsorted(d)| == |d.removed| + |d.added| + 2 * |d.modified|
  {
    RemovedPartLength(d.removed);
    AddedPartLength(d.added);
    ModifiedPartLength(d.modified);
  }

  lemma {:induction false} RemovedPartLength(rs: seq<LineEntry>)
    ensures |RemovedPart(rs)| == |rs|
    ensures forall i :: 0 <= i < |rs| ==> RemovedPart(rs)[i] == RemovedLine(rs[i].line, rs[i].content)
  {
    if rs != [] {
      RemovedPartLength(rs[..|rs| - 1]);
    }
  }

  lemma {:induction false} AddedPartLength(xs: seq<LineEntry>)
    ensures |AddedPart(xs)| == |xs|
    ensures forall i :: 0 <= i < |xs| ==> AddedPart(xs)[i] == AddedLine(xs[i].line, xs[i].content)
  {
    if xs != [] {
      AddedPartLength(xs[..|xs| - 1]);
    }
  }

  lemma {:induction false} ModifiedPartLength(ms: seq<ModifiedEntry>)
    ensures |ModifiedPart(ms)| == 2 * |ms|
  {
    if ms != [] {
      ModifiedPartLength(ms[..|ms| - 1]);
    }
  }

  /** `formatDiffForDisplay` yields one line per removed and added entry and
      two per modified entry, in non-decreasing line-number order, as a
      permutation of the pushed lines that keeps lines of the same number in
      the order they were pushed. */
  lemma FormatFacts(d: LineDiff)
    ensures var out := SortByLine(Unsorted(d));
      && |out| == |d.removed| + |d.added| + 2 * |d.modified|
      && SortedByLine(out)
      && multiset(out) == multiset(Unsorted(d))
      && (forall k :: OnLine(out, k) == OnLine(Unsorted(d), k))
  {
    PartLengths(d);
    SortByLineFacts(Unsorted(d));
  }

  /** Every removed and added entry shows up, numbered from 1. */
  lemma FormatKeepsEntries(d: LineDiff)
    ensures forall i :: 0 <= i < |d.removed| ==>
      RemovedLine(d.removed[i].line, d.removed[i].content) in SortByLine(Unsorted(d))
    ensures forall i :: 0 <= i < |d.added| ==>
      AddedLine(d.added[i].line, d.added[i].content) in SortByLine(Unsorted(d))
  {
    var u := Unsorted(d);
    var rp, ap := RemovedPart(d.removed), AddedPart(d.added);
    RemovedPartLength(d.removed);
    AddedPartLength(d.added);
    assert u == rp + ap + ModifiedPart(d.modified);
    forall i | 0 <= i < |d.removed|
      ensures RemovedLine(d.removed[i].line, d.removed[i].content) in SortByLine(u)
    {
      assert u[i] == rp[i];
      SortKeeps(u, i);
    }
    forall i | 0 <= i < |d.added|
      ensures AddedLine(d.added[i].line, d.added[i].content) in SortByLine(u)
    {
      assert u[|rp| + i] == ap[i];
      SortKeeps(u, |rp| + i);
    }
  }

  /** Sorting loses no line. */
  lemma SortKeeps(s: seq<DisplayLine>, i: int)
    requires 0 <= i < |s|
    ensures s[i] in SortByLine(s)
  {
    SortByLineFacts(s);
    assert s[i] in multiset(s);
  }

  lemma {:induction false} OnLineConcat(s: seq<DisplayLine>, t: seq<DisplayLine>, k: nat)
    ensures OnLine(s + t, k) == OnLine(s, k) + OnLine(t, k)
  {
    if s == [] {
      assert s + t == t;
    } else {
      OnLineConcat(s[1..], t, k);
      assert (s + t)[0] == s[0];
      assert (s + t)[1..] == s[1..] + t;
      var head := if s[0].lineNumber == k then [s[0]] else [];
      calc {
        OnLine(s + t, k);
        head + OnLine(s[1..] + t, k);
        head + (OnLine(s[1..], k) + OnLine(t, k));
        (head + OnLine(s[1..], k)) + OnLine(t, k);
      }
    }
  }

  /** The lines of a removed/added pair that fall on line `k`. */
  lemma OnLinePair(a: DisplayLine, b: DisplayLine, k: nat)
    ensures OnLine([a, b], k) == (if a.lineNumber == k then [a] else []) + (if b.lineNumber == k then [b] else [])
  {
    assert [a, b][1..] == [b];
    assert [b][1..] == [];
    var hb := if b.lineNumber == k then [b] else [];
    assert OnLine([b], k) == hb + OnLine([], k);
    assert hb + [] == hb;
  }

  lemma {:induction false} OnLineOfAppend(s: seq<DisplayLine>, x: DisplayLine, k: nat)
    ensures OnLine(s + [x], k) == OnLine(s, k) + (if x.lineNumber == k then [x] else [])
  {
    OnLineConcat(s, [x], k);
  }

  lemma {:induction false} RemovedPartOffLine(rs: seq<LineEntry>, line: nat)
    requires forall j :: 0 <= j < |rs| ==> rs[j].line != line
    ensures OnLine(RemovedPart(rs), line + 1) == []
  {
    if rs != [] {
      RemovedPartOffLine(rs[..|rs| - 1], line);
      OnLineOfAppend(RemovedPart(rs[..|rs| - 1]), RemovedLine(rs[|rs| - 1].line, rs[|rs| - 1].content), line + 1);
    }
  }

  lemma {:induction false} AddedPartOffLine(xs: seq<LineEntry>, line: nat)
    requires forall j :: 0 <= j < |xs| ==> xs[j].line != line
    ensures OnLine(AddedPart(xs), line + 1) == []
  {
    if xs != [] {
      AddedPartOffLine(xs[..|xs| - 1], line);
      OnLineOfAppend(AddedPart(xs[..|xs| - 1]), AddedLine(xs[|xs| - 1].line, xs[|xs| - 1].content), line + 1);
    }
  }

  lemma {:induction false} ModifiedPartOnLine(ms: seq<ModifiedEntry>, j: nat)
    requires j < |ms|
    requires forall a, b :: 0 <= a < b < |ms| ==> ms[a].line < ms[b].line
    ensures OnLine(ModifiedPart(ms), ms[j].line + 1)
         == [RemovedLine(ms[j].line, Template(ms[j].expected)), AddedLine(ms[j].line, Template(ms[j].actual))]
  {
    var n := |ms|;
    var m := ms[n - 1];
    var init := ms[..n - 1];
    var pre := ModifiedPart(init);
    var k := ms[j].line + 1;
    var pair := [RemovedLine(m.line, Template(m.expected)), AddedLine(m.line, Template(m.actual))];
    assert ModifiedPart(ms) == pre + pair;
    OnLineConcat(pre, pair, k);
    OnLinePair(pair[0], pair[1], k);
    if j == n - 1 {
      InitBelowLast(ms, init);
      ModifiedPartBelow(init, m.line);
      assert OnLine(pair, k) == pair;
    } else {
      InitIncreasing(ms, init);
      assert init[j] == ms[j];
      ModifiedPartOnLine(init, j);
      assert m.line > ms[j].line;
      assert OnLine(pair, k) == [];
      assert OnLine(ModifiedPart(ms), k) == OnLine(pre, k) + [];
    }
  }

  lemma InitIncreasing(ms: seq<ModifiedEntry>, init: seq<ModifiedEntry>)
    requires |ms| > 0 && init == ms[..|ms| - 1]
    requires forall a, b :: 0 <= a < b < |ms| ==> ms[a].line < ms[b].line
    ensures forall a, b :: 0 <= a < b < |init| ==> init[a].line < init[b].line
  {
  }

  lemma InitBelowLast(ms: seq<ModifiedEntry>, init: seq<ModifiedEntry>)
    requires |ms| > 0 && init == ms[..|ms| - 1]
    requires forall a, b :: 0 <= a < b < |ms| ==> ms[a].line < ms[b].line
    ensures forall a :: 0 <= a < |init| ==> init[a].line < ms[|ms| - 1].line
  {
  }

  lemma {:induction false} ModifiedPartBelow(ms: seq<ModifiedEntry>, line: nat)
    requires forall a :: 0 <= a < |ms| ==> ms[a].line < line
    ensures OnLine(ModifiedPart(ms), line + 1) == []
  {
    if ms != [] {
      var m := ms[|ms| - 1];
      ModifiedPartBelow(ms[..|ms| - 1], line);
      OnLineConcat(ModifiedPart(ms[..|ms| - 1]),
                   [RemovedLine(m.line, Template(m.expected)), AddedLine(m.line, Template(m.actual))], line + 1);
      OnLinePair(RemovedLine(m.line, Template(m.expected)), AddedLine(m.line, Template(m.actual)), line + 1);
    }
  }

  /** For a diff computed by `calculateDiff`, the display lines of a modified
      line are exactly its removed line followed by its added line. */
  lemma ModifiedLineDisplay(expected: string, actual: string, j: nat)
    requires j < |DiffOf(expected, actual).modified|
    ensures var d := DiffOf(expected, actual);
      var m := d.modified[j];
      OnLine(SortByLine(Unsorted(d)), m.line + 1)
        == [RemovedLine(m.line, Template(m.expected)), AddedLine(m.line, Template(m.actual))]
  {
    var el, al := Lines(expected), Lines(actual);
    var n := Max(|el|, |al|);
    var t := Scan(el, al, n);
    assert DiffOf(expected, actual).modified == t.modified;
    ScanKindsDisjoint(el, al, n, j);
    ModifiedDisplayOf(t.removed, t.added, t.modified, j);
    assert Unsorted(DiffOf(expected, actual)) == RemovedPart(t.removed) + AddedPart(t.added) + ModifiedPart(t.modified);
  }

  /** The modified lines of a scan increase, and none of them is also a
      removed or an added line. */
  lemma ScanKindsDisjoint(el: seq<string>, al: seq<string>, n: nat, j: nat)
    requires j < |Scan(el, al, n).modified|
    ensures var t := Scan(el, al, n);
      && (forall a, b :: 0 <= a < b < |t.modified| ==> t.modified[a].line < t.modified[b].line)
      && (forall i :: 0 <= i < |t.removed| ==> t.removed[i].line != t.modified[j].line)
      && (forall i :: 0 <= i < |t.added| ==> t.added[i].line != t.modified[j].line)
  {
    ScanRemovedSound(el, al, n);
    ScanAddedSound(el, al, n);
    ScanModifiedSound(el, al, n);
  }

  /** In any diff whose modified lines increase and share no line with a
      removed or added entry, a modified line displays as its pair. */
  lemma ModifiedDisplayOf(rs: seq<LineEntry>, xs: seq<LineEntry>, ms: seq<ModifiedEntry>, j: nat)
    requires j < |ms|
    requires forall a, b :: 0 <= a < b < |ms| ==> ms[a].line < ms[b].line
    requires forall i :: 0 <= i < |rs| ==> rs[i].line != ms[j].line
    requires forall i :: 0 <= i < |xs| ==> xs[i].line != ms[j].line
    ensures var m := ms[j];
      OnLine(SortByLine(RemovedPart(rs) + AddedPart(xs) + ModifiedPart(ms)), m.line + 1)
        == [RemovedLine(m.line, Template(m.expected)), AddedLine(m.line, Template(m.actual))]
  {
    var m := ms[j];
    PartsOffLine(rs, xs, m.line);
    ModifiedPartOnLine(ms, j);
    ShowsOnLine(RemovedPart(rs) + AddedPart(xs), ModifiedPart(ms), m.line + 1,
                [RemovedLine(m.line, Template(m.expected)), AddedLine(m.line, Template(m.actual))]);
  }

  /** `SecondPartOnLine` with the lines the second part shows on `k` named,
      so that the caller matches them against its own statement. */
  lemma ShowsOnLine(p: seq<DisplayLine>, q: seq<DisplayLine>, k: nat, shown: seq<DisplayLine>)
    requires OnLine(p, k) == [] && OnLine(q, k) == shown
    ensures OnLine(SortByLine(p + q), k) == shown
  {
    SecondPartOnLine(p, q, k);
  }

  /** When the first part has nothing on line `k`, the sorted whole shows on
      line `k` what the second part does. */
  lemma SecondPartOnLine(p: seq<DisplayLine>, q: seq<DisplayLine>, k: nat)
    requires OnLine(p, k) == []
    ensures OnLine(SortByLine(p + q), k) == OnLine(q, k)
  {
    OnLineConcat(p, q, k);
    SortKeepsLines(p + q, k);
    assert [] + OnLine(q, k) == OnLine(q, k);
  }

  /** Removed and added entries off a line put nothing on it together. */
  lemma PartsOffLine(rs: seq<LineEntry>, xs: seq<LineEntry>, line: nat)
    requires forall i :: 0 <= i < |rs| ==> rs[i].line != line
    requires forall i :: 0 <= i < |xs| ==> xs[i].line != line
    ensures OnLine(RemovedPart(rs) + AddedPart(xs), line + 1) == []
  {
    RemovedPartOffLine(rs, line);
    AddedPartOffLine(xs, line);
    OnLineConcat(RemovedPart(rs), AddedPart(xs), line + 1);
  }

  /** Sorting keeps the lines of each number in their order. */
  lemma SortKeepsLines(s: seq<DisplayLine>, k: nat)
    ensures OnLine(SortByLine(s), k) == OnLine(s, k)
  {
    SortByLineFacts(s);
  }
}
