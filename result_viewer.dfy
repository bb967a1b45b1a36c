/** The result viewer's own line diff (`createSimpleDiff` in
    src/components/ResultsDashboard/ResultViewer.jsx): a missing line on either
    side reads as the empty string, equal lines give one `equal` entry, and
    unequal lines give a `removed` entry for a non-empty expected line followed
    by an `added` entry for a non-empty actual line. */
module ResultViewer {
  import opened Common
  import Diff

  datatype EntryType = Equal | Removed | Added
  datatype SimpleLine = SimpleLine(kind: EntryType, expectedLine: string, actualLine: string, lineNumber: nat)

  /** `lines[i] || ''`. */
  function LineOr(lines: seq<string>, i: nat): string {
    if i < |lines| then lines[i] else ""
  }

  /** The entries pushed for index `i`. */
  function EntriesAt(el: seq<string>, al: seq<string>, i: nat): (r: seq<SimpleLine>)
    ensures 1 <= |r| <= 2
    ensures forall k :: 0 <= k < |r| ==> r[k].lineNumber == i + 1
  {
    var e, a := LineOr(el, i), LineOr(al, i);
    if e == a then [SimpleLine(Equal, e, a, i + 1)]
    else
      (if e != "" then [SimpleLine(Removed, e, "", i + 1)] else [])
      + (if a != "" then [SimpleLine(Added, "", a, i + 1)] else [])
  }

  /** The entries for the first `n` indices. */
  function SimpleUpTo(el: seq<string>, al: seq<string>, n: nat): seq<SimpleLine> {
    if n == 0 then [] else SimpleUpTo(el, al, n - 1) + EntriesAt(el, al, n - 1)
  }

  function SimpleDiffOf(expected: string, actual: string): seq<SimpleLine> {
    var el, al := Diff.Lines(expected), Diff.Lines(actual);
    SimpleUpTo(el, al, Max(|el|, |al|))
  }

  /** The loop of `createSimpleDiff` on two strings. */
  method SimpleDiff(expected: string, actual: string) returns (diff: seq<SimpleLine>)
    ensures diff == SimpleDiffOf(expected, actual)
  {
    var expectedLines := Diff.Lines(expected);
    var actualLines := Diff.Lines(actual);
    var maxLines := Max(|expectedLines|, |actualLines|);
    diff := [];
    for i := 0 to maxLines
      invariant diff == SimpleUpTo(expectedLines, actualLines, i)
    {
      var expectedLine := LineOr(expectedLines, i);
      var actualLine := LineOr(actualLines, i);
      if expectedLine == actualLine {
        diff := diff + [SimpleLine(Equal, expectedLine, actualLine, i + 1)];
      } else {
        var step: seq<SimpleLine> := [];
        if expectedLine != "" {
          step := step + [SimpleLine(Removed, expectedLine, "", i + 1)];
        }
        if actualLine != "" {
          step := step + [SimpleLine(Added, "", actualLine, i + 1)];
        }
        diff := diff + step;
      }
    }
  }

  /** The Diff View tab as written: it is shown only when the test case has an
      expected result, and it calls `split` on the result's output, which a
      failed result does not have; that call throws. */
  method ViewerDiff(expected: string, output: Option<string>) returns (r: Result<seq<SimpleLine>, string>)
    ensures output.None? <==> r.Err?
    ensures r.Ok? ==> r.value == SimpleDiffOf(expected, output.value)
  {
    if output.None? {
      return Err("TypeError: Cannot read properties of undefined (reading 'split')");
    }
    var d := SimpleDiff(expected, output.value);
    r := Ok(d);
  }

  /** The Diff View tab with a missing output read as the empty string. */
  method ViewerDiffFixed(expected: string, output: Option<string>) returns (diff: seq<SimpleLine>)
    ensures diff == SimpleDiffOf(expected, OrElse(output, ""))
    ensures output.None? ==> forall k :: 0 <= k < |diff| ==> diff[k].kind != Added
  {
    diff := SimpleDiff(expected, OrElse(output, ""));
    if output.None? {
      NothingAddedAgainstEmpty(expected);
    }
  }

  // ---------------------------------------------------------------------------
  // Properties

  /** An index with equal lines (both empty or missing included) gives exactly
      one `equal` entry; otherwise a `removed` entry exactly when the expected
      line is non-empty, before an `added` entry exactly when the actual line is
      non-empty. */
  lemma EntriesAtCases(el: seq<string>, al: seq<string>, i: nat)
    ensures var e, a, r := LineOr(el, i), LineOr(al, i), EntriesAt(el, al, i);
      && (e == a ==> r == [SimpleLine(Equal, e, a, i + 1)])
      && (e != a ==>
            && (SimpleLine(Removed, e, "", i + 1) in r <==> e != "")
            && (SimpleLine(Added, "", a, i + 1) in r <==> a != "")
            && (forall k :: 0 <= k < |r| ==> r[k].kind != Equal)
            && r[0].kind == (if e != "" then Removed else Added))
  {
  }

  /** The entries are ordered by line number, lie within `1..n`, and every line
      number of `1..n` occurs. */
  lemma {:induction false} SimpleUpToOrdered(el: seq<string>, al: seq<string>, n: nat)
    ensures var d := SimpleUpTo(el, al, n);
      && n <= |d| <= 2 * n
      && (forall k :: 0 <= k < |d| ==> 1 <= d[k].lineNumber <= n)
      && (forall j, k :: 0 <= j < k < |d| ==> d[j].lineNumber <= d[k].lineNumber)
  {
    if n > 0 {
      SimpleUpToOrdered(el, al, n - 1);
      AppendOrdered(SimpleUpTo(el, al, n - 1), EntriesAt(el, al, n - 1), n);
    }
  }

  /** Appending the entries of line `n` to an ordered diff of lines `1..n-1`
      gives an ordered diff of lines `1..n`. */
  lemma AppendOrdered(p: seq<SimpleLine>, q: seq<SimpleLine>, n: nat)
    requires n >= 1 && n - 1 <= |p| <= 2 * (n - 1)
    requires forall k :: 0 <= k < |p| ==> 1 <= p[k].lineNumber <= n - 1
    requires forall j, k :: 0 <= j < k < |p| ==> p[j].lineNumber <= p[k].lineNumber
    requires 1 <= |q| <= 2 && forall k :: 0 <= k < |q| ==> q[k].lineNumber == n
    ensures var d := p + q;
      && n <= |d| <= 2 * n
      && (forall k :: 0 <= k < |d| ==> 1 <= d[k].lineNumber <= n)
      && (forall j, k :: 0 <= j < k < |d| ==> d[j].lineNumber <= d[k].lineNumber)
  {
    var d := p + q;
    forall k | 0 <= k < |d|
      ensures d[k] == if k < |p| then p[k] else q[k - |p|]
    {
    }
  }

  lemma {:induction false} SimpleUpToCovers(el: seq<string>, al: seq<string>, n: nat, line: nat)
    requires 1 <= line <= n
    ensures exists k :: 0 <= k < |SimpleUpTo(el, al, n)| && SimpleUpTo(el, al, n)[k].lineNumber == line
  {
    var p, q := SimpleUpTo(el, al, n - 1), EntriesAt(el, al, n - 1);
    assert SimpleUpTo(el, al, n) == p + q;
    if line == n {
      AppendCovers(p, q, 0, |p|, line);
    } else {
      SimpleUpToCovers(el, al, n - 1, line);
      var k :| 0 <= k < |p| && p[k].lineNumber == line;
      AppendCovers(p, q, k, k, line);
    }
  }

  /** An entry for `line` in either part is one in their concatenation:
      `j` is its position in `p + q`, and `k` its position in the part. */
  lemma AppendCovers(p: seq<SimpleLine>, q: seq<SimpleLine>, k: nat, j: nat, line: nat)
    requires (j == k < |p| && p[k].lineNumber == line) || (j == |p| + k && k < |q| && q[k].lineNumber == line)
    ensures exists i :: 0 <= i < |p + q| && (p + q)[i].lineNumber == line
  {
    assert (p + q)[j].lineNumber == line;
  }

  /** Against an empty actual text nothing is reported as added. */
  lemma NothingAddedAgainstEmpty(expected: string)
    ensures forall k :: 0 <= k < |SimpleDiffOf(expected, "")| ==> SimpleDiffOf(expected, "")[k].kind != Added
  {
    var el, al := Diff.Lines(expected), Diff.Lines("");
    assert al == [""];
    NothingAddedUpTo(el, al, Max(|el|, |al|));
  }

  lemma {:induction false} NothingAddedUpTo(el: seq<string>, al: seq<string>, n: nat)
    requires forall i :: 0 <= i < |al| ==> al[i] == ""
    ensures forall k :: 0 <= k < |SimpleUpTo(el, al, n)| ==> SimpleUpTo(el, al, n)[k].kind != Added
  {
    if n > 0 {
      NothingAddedUpTo(el, al, n - 1);
      var p, q := SimpleUpTo(el, al, n - 1), EntriesAt(el, al, n - 1);
      var d: seq<SimpleLine> := p + q;
      assert LineOr(al, n - 1) == "";
      forall k | 0 <= k < |d| ensures d[k].kind != Added {
        if k >= |p| {
          assert d[k] == q[k - |p|];
        }
      }
    }
  }

  /** Where the two diffs disagree: an empty last expected line against a
      missing actual line is `equal` here but a modification in `calculateDiff`. */
  lemma EmptyAgainstMissing()
    ensures SimpleDiffOf("a\n", "a") == [SimpleLine(Equal, "a", "a", 1), SimpleLine(Equal, "", "", 2)]
    ensures Diff.DiffOf("a\n", "a").modified == [Diff.ModifiedEntry(1, Some(""), None)]
  {
    var el, al := Diff.Lines("a\n"), Diff.Lines("a");
    Diff.OneLine('a');
    assert "a\n" == ['a', '\n'];
    assert "\n"[..1] == "\n";
    assert "\n"[1..] == [];
    assert Diff.Lines("\n") == ["", ""];
    assert "a\n"[..1] == ['a'];
    assert "a\n"[..1][0] != "\n"[0];
    assert "a\n"[1..] == "\n";
    var rest := SplitOn("a\n"[1..], "\n");
    assert SplitOn("a\n", "\n") == [["a\n"[0]] + rest[0]] + rest[1..];
    assert el == ["a", ""];
    assert al == ["a"];
    assert SimpleUpTo(el, al, 1) == [SimpleLine(Equal, "a", "a", 1)];
    Diff.ScanStep(el, al, 1);
    Diff.ScanStep(el, al, 2);
    assert Diff.KindAt(el, al, 0) == Diff.Same;
    assert Diff.KindAt(el, al, 1) == Diff.Change;
  }
}
