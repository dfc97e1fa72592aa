/** Deciding the outcome from two digests, and rendering the change records
    of the line-diff library as a bounded, human-readable diff (src/differ.ts). */
module Differ {
  import opened Types
  import opened Text

  /** Unchanged lines shown before a change run. */
  const ContextLines: nat := 2
  /** Rendered lines kept in the output. */
  const MaxLines: nat := 50

  /** `compareContent`: first run when there is no earlier digest (no entry,
      or an empty hash); otherwise changed exactly when the digests differ,
      with a diff only when changed. */
  function CompareContent(newEntry: SnapshotEntry, oldEntry: Option<SnapshotEntry>, url: string, name: string,
                          lineDiff: (string, string) -> seq<Change>): (r: ChangeResult)
    ensures r.url == url && r.name == name && r.error == None && r.newHash == Some(newEntry.hash)
    ensures r.isFirstRun <==> oldEntry.None? || oldEntry.value.hash == ""
    ensures r.isFirstRun ==> !r.changed && r.oldHash == None && r.diff == Some("")
    ensures !r.isFirstRun ==> r.oldHash == Some(oldEntry.value.hash)
    ensures !r.isFirstRun ==> (r.changed <==> newEntry.hash != oldEntry.value.hash)
    ensures !r.isFirstRun ==>
      r.diff == Some(if r.changed then DiffText(lineDiff(oldEntry.value.content, newEntry.content)) else "")
    ensures !(r.changed && r.isFirstRun)
  {
    if oldEntry.None? || oldEntry.value.hash == "" then
      ChangeResult(url, name, false, true, None, Some(newEntry.hash), Some(""), None)
    else
      var oldHash := oldEntry.value.hash;
      var changed := newEntry.hash != oldHash;
      var diff := if changed then DiffText(lineDiff(oldEntry.value.content, newEntry.content)) else "";
      ChangeResult(url, name, changed, false, Some(oldHash), Some(newEntry.hash), Some(diff), None)
  }

  /** The state of the rendering loop: rendered lines, the two counters and
      the buffer of recent unchanged lines. */
  datatype Render = Render(lines: seq<string>, additions: nat, deletions: nat, pending: seq<string>)

  function Min(a: nat, b: nat): nat
  {
    if a <= b then a else b
  }

  /** `s.slice(-n)` for n > 0: the last `n` elements, or all of them. */
  function Last(s: seq<string>, n: nat): (r: seq<string>)
    ensures |r| == Min(|s|, n)
    ensures r == s[|s| - |r|..]
  {
    if |s| <= n then s else s[|s| - n..]
  }

  /** Each line trimmed at the end and prefixed with a marker. */
  function Mark(marker: string, ls: seq<string>): (r: seq<string>)
    ensures |r| == |ls|
  {
    seq(|ls|, i requires 0 <= i < |ls| => marker + TrimEnd(ls[i]))
  }

  /** Emits the last two buffered lines as context and empties the buffer. */
  function Flush(st: Render): Render
  {
    if |st.pending| > 0 then
      st.(lines := st.lines + Mark("  ", Last(st.pending, ContextLines)), pending := [])
    else st
  }

  /** One iteration of the loop over the change records. */
  function Step(st: Render, c: Change): Render
  {
    match c
    case Added(v) =>
      var f := Flush(st);
      var ls := NonEmptyLines(v);
      f.(lines := f.lines + Mark("+ ", ls), additions := f.additions + |ls|)
    case Removed(v) =>
      var f := Flush(st);
      var ls := NonEmptyLines(v);
      f.(lines := f.lines + Mark("- ", ls), deletions := f.deletions + |ls|)
    case Unchanged(v) =>
      var buffered := st.pending + NonEmptyLines(v);
      st.(pending := if |buffered| > ContextLines * 2 then Last(buffered, ContextLines * 2) else buffered)
  }

  /** The loop state after the given records. */
  function Scan(cs: seq<Change>): Render
  {
    if cs == [] then Render([], 0, 0, [])
    else Step(Scan(cs[..|cs| - 1]), cs[|cs| - 1])
  }

  function SummaryLine(additions: nat, deletions: nat): string
  {
    "Changes summary: " + NatToString(additions) + " additions, " + NatToString(deletions) + " deletions"
  }

  function Trailer(more: nat): string
  {
    "... and " + NatToString(more) + " more lines"
  }

  /** The first `MaxLines` rendered lines, then a trailer if some were cut. */
  function Body(lines: seq<string>): string
  {
    var shown := Join(lines[..Min(|lines|, MaxLines)]);
    if |lines| > MaxLines then shown + "\n" + Trailer(|lines| - MaxLines) else shown
  }

  /** The text `generateDiff` returns for the given change records. */
  function DiffText(cs: seq<Change>): string
  {
    var st := Scan(cs);
    SummaryLine(st.additions, st.deletions) + "\n\n" + Body(st.lines)
  }

  /** Appends each item, trimmed and marked, to `lines`. */
  method PushMarked(lines: seq<string>, marker: string, items: seq<string>) returns (out: seq<string>)
    ensures out == lines + Mark(marker, items)
  {
    out := lines;
    for j := 0 to |items|
      invariant out == lines + Mark(marker, items[..j])
    {
      assert Mark(marker, items[..j + 1]) == Mark(marker, items[..j]) + [marker + TrimEnd(items[j])];
      out := out + [marker + TrimEnd(items[j])];
    }
    assert items[..|items|] == items;
  }

  /** Emits the last two buffered lines as context, if any, and empties the buffer. */
  method FlushContext(lines: seq<string>, additions: nat, deletions: nat, lastUnchangedLines: seq<string>)
    returns (lines': seq<string>, lastUnchangedLines': seq<string>)
    ensures Render(lines', additions, deletions, lastUnchangedLines')
      == Flush(Render(lines, additions, deletions, lastUnchangedLines))
  {
    lines', lastUnchangedLines' := lines, lastUnchangedLines;
    if |lastUnchangedLines| > 0 {
      lines' := PushMarked(lines, "  ", Last(lastUnchangedLines, ContextLines));
      lastUnchangedLines' := [];
    }
  }

  /** The body of `generateDiff`'s loop for one change record: a change run
      first flushes up to two buffered context lines, then appends its own
      lines and counts them; unchanged text goes to the buffer, which keeps
      its last four lines. */
  method ProcessChange(lines: seq<string>, additions: nat, deletions: nat, lastUnchangedLines: seq<string>, change: Change)
    returns (lines': seq<string>, additions': nat, deletions': nat, lastUnchangedLines': seq<string>)
    ensures Render(lines', additions', deletions', lastUnchangedLines')
      == Step(Render(lines, additions, deletions, lastUnchangedLines), change)
  {
    lines', additions', deletions', lastUnchangedLines' := lines, additions, deletions, lastUnchangedLines;
    match change {
      case Added(value) =>
        lines', lastUnchangedLines' := FlushContext(lines', additions', deletions', lastUnchangedLines');
        var changeLines := NonEmptyLines(value);
        lines' := PushMarked(lines', "+ ", changeLines);
        additions' := additions' + |changeLines|;
      case Removed(value) =>
        lines', lastUnchangedLines' := FlushContext(lines', additions', deletions', lastUnchangedLines');
        var changeLines := NonEmptyLines(value);
        lines' := PushMarked(lines', "- ", changeLines);
        deletions' := deletions' + |changeLines|;
      case Unchanged(value) =>
        lastUnchangedLines' := lastUnchangedLines' + NonEmptyLines(value);
        if |lastUnchangedLines'| > ContextLines * 2 {
          lastUnchangedLines' := Last(lastUnchangedLines', ContextLines * 2);
        }
    }
  }

  lemma ScanSnoc(cs: seq<Change>, k: nat)
    requires k < |cs|
    ensures Scan(cs[..k + 1]) == Step(Scan(cs[..k]), cs[k])
  {
    assert cs[..k + 1][..k] == cs[..k];
  }

  /** `generateDiff`: the loop over the change records, then truncation and summary. */
  method GenerateDiff(oldContent: string, newContent: string, lineDiff: (string, string) -> seq<Change>)
    returns (diffOutput: string)
    ensures diffOutput == DiffText(lineDiff(oldContent, newContent))
  {
    var changes := lineDiff(oldContent, newContent);
    var lines: seq<string> := [];
    var additions: nat, deletions: nat := 0, 0;
    var lastUnchangedLines: seq<string> := [];
    for k := 0 to |changes|
      invariant Render(lines, additions, deletions, lastUnchangedLines) == Scan(changes[..k])
    {
      ScanSnoc(changes, k);
      lines, additions, deletions, lastUnchangedLines :=
        ProcessChange(lines, additions, deletions, lastUnchangedLines, changes[k]);
    }
    assert changes[..|changes|] == changes;
    diffOutput := Join(lines[..Min(|lines|, MaxLines)]);
    if |lines| > MaxLines {
      diffOutput := diffOutput + "\n" + Trailer(|lines| - MaxLines);
    }
    diffOutput := SummaryLine(additions, deletions) + "\n\n" + diffOutput;
  }

  /** The non-empty lines of the Added records, counted front to back. */
  function AddedLineCount(cs: seq<Change>): nat
  {
    if cs == [] then 0
    else (if cs[0].Added? then |NonEmptyLines(cs[0].value)| else 0) + AddedLineCount(cs[1..])
  }

  /** The non-empty lines of the Removed records, counted front to back. */
  function RemovedLineCount(cs: seq<Change>): nat
  {
    if cs == [] then 0
    else (if cs[0].Removed? then |NonEmptyLines(cs[0].value)| else 0) + RemovedLineCount(cs[1..])
  }

  lemma {:induction false} LineCountsSnoc(cs: seq<Change>, c: Change)
    ensures AddedLineCount(cs + [c]) == AddedLineCount(cs) + (if c.Added? then |NonEmptyLines(c.value)| else 0)
    ensures RemovedLineCount(cs + [c]) == RemovedLineCount(cs) + (if c.Removed? then |NonEmptyLines(c.value)| else 0)
  {
    if cs == [] {
      assert [c][1..] == [];
    } else {
      assert (cs + [c])[1..] == cs[1..] + [c];
      LineCountsSnoc(cs[1..], c);
    }
  }

  /** `additions` and `deletions` count the non-empty lines of the Added and
      of the Removed records. */
  lemma {:induction false} CountsAreLineCounts(cs: seq<Change>)
    ensures Scan(cs).additions == AddedLineCount(cs)
    ensures Scan(cs).deletions == RemovedLineCount(cs)
  {
    if cs != [] {
      var init := cs[..|cs| - 1];
      CountsAreLineCounts(init);
      LineCountsSnoc(init, cs[|cs| - 1]);
      assert init + [cs[|cs| - 1]] == cs;
    }
  }

  /** The diff opens with a summary of those counts and a blank line. */
  lemma SummaryStatesLineCounts(cs: seq<Change>)
    ensures var head := SummaryLine(AddedLineCount(cs), RemovedLineCount(cs)) + "\n\n";
      |head| <= |DiffText(cs)| && DiffText(cs)[..|head|] == head
  {
    CountsAreLineCounts(cs);
  }

  /** The non-empty lines of the Unchanged records after the last change run. */
  function PendingContext(cs: seq<Change>): seq<string>
  {
    if cs == [] then []
    else match cs[|cs| - 1]
      case Unchanged(v) => PendingContext(cs[..|cs| - 1]) + NonEmptyLines(v)
      case _ => []
  }

  lemma LastOfLast(p: seq<string>, l: seq<string>, n: nat)
    ensures Last(Last(p, n) + l, n) == Last(p + l, n)
  {
    if |p| > n {
      var a := p[|p| - n..] + l;
      assert a == (p + l)[|p| - n..];
    }
  }

  lemma LastOfShorter(p: seq<string>, m: nat, n: nat)
    requires m <= n
    ensures Last(Last(p, n), m) == Last(p, m)
  {
  }

  /** The buffer holds the last four unchanged lines since the last change
      run, so it never holds more than four. */
  lemma {:induction false} BufferIsRecentContext(cs: seq<Change>)
    ensures Scan(cs).pending == Last(PendingContext(cs), 2 * ContextLines)
    ensures |Scan(cs).pending| <= 2 * ContextLines
  {
    if cs != [] {
      var init := cs[..|cs| - 1];
      BufferIsRecentContext(init);
      match cs[|cs| - 1]
      case Unchanged(v) =>
        LastOfLast(PendingContext(init), NonEmptyLines(v), 2 * ContextLines);
      case Added(_) =>
      case Removed(_) =>
    }
  }

  /** What a change record contributes given the unchanged lines before it:
      at most two of them as context, then its own lines, marked. */
  function Emitted(pending: seq<string>, c: Change): seq<string>
  {
    match c
    case Added(v) => Mark("  ", Last(pending, ContextLines)) + Mark("+ ", NonEmptyLines(v))
    case Removed(v) => Mark("  ", Last(pending, ContextLines)) + Mark("- ", NonEmptyLines(v))
    case Unchanged(_) => []
  }

  /** The rendered lines as an unbounded context buffer would give them. */
  function Rendered(cs: seq<Change>): seq<string>
  {
    if cs == [] then []
    else
      var init := cs[..|cs| - 1];
      Rendered(init) + Emitted(PendingContext(init), cs[|cs| - 1])
  }

  /** Keeping only four buffered lines loses no context: the loop renders
      exactly what an unbounded buffer would. */
  lemma {:induction false} BoundedBufferLosesNothing(cs: seq<Change>)
    ensures Scan(cs).lines == Rendered(cs)
  {
    if cs != [] {
      var init := cs[..|cs| - 1];
      var c := cs[|cs| - 1];
      BoundedBufferLosesNothing(init);
      BufferIsRecentContext(init);
      StepLines(Scan(init), c);
      EmittedOfBuffer(PendingContext(init), c);
    }
  }

  /** A step appends what its record emits for the buffered lines. */
  lemma StepLines(st: Render, c: Change)
    ensures Step(st, c).lines == st.lines + Emitted(st.pending, c)
  {
    if |st.pending| == 0 {
      assert Mark("  ", Last(st.pending, ContextLines)) == [];
    }
  }

  /** The context a record emits depends only on the last four buffered lines. */
  lemma EmittedOfBuffer(p: seq<string>, c: Change)
    ensures Emitted(Last(p, 2 * ContextLines), c) == Emitted(p, c)
  {
    LastOfShorter(p, ContextLines, 2 * ContextLines);
  }

  /** A rendered line: a marker (`+ `, `- ` or two spaces) and no newline. */
  predicate IsRenderedLine(l: string)
  {
    |l| >= 2 && (l[..2] == "+ " || l[..2] == "- " || l[..2] == "  ") && '\n' !in l
  }

  predicate IsMarker(m: string)
  {
    m == "+ " || m == "- " || m == "  "
  }

  lemma TrimEndKeepsLine(x: string)
    requires '\n' !in x
    ensures '\n' !in TrimEnd(x)
  {
    var r := TrimEnd(x);
    assert forall i :: 0 <= i < |r| ==> r[i] == x[i];
  }

  lemma MarkGivesRenderedLines(marker: string, ls: seq<string>)
    requires IsMarker(marker)
    requires forall i :: 0 <= i < |ls| ==> '\n' !in ls[i]
    ensures forall i :: 0 <= i < |ls| ==> IsRenderedLine(Mark(marker, ls)[i])
  {
    forall i | 0 <= i < |ls| ensures IsRenderedLine(Mark(marker, ls)[i]) {
      TrimEndKeepsLine(ls[i]);
      var l := marker + TrimEnd(ls[i]);
      assert l[..2] == marker;
    }
  }

  /** Every rendered line starts with a marker and holds no newline. */
  lemma {:induction false} RenderedLineShape(cs: seq<Change>)
    ensures forall i :: 0 <= i < |Scan(cs).lines| ==> IsRenderedLine(Scan(cs).lines[i])
    ensures forall i :: 0 <= i < |Scan(cs).pending| ==> '\n' !in Scan(cs).pending[i]
  {
    if cs != [] {
      var init := cs[..|cs| - 1];
      RenderedLineShape(init);
      var st := Scan(init);
      var ctx := Last(st.pending, ContextLines);
      MarkGivesRenderedLines("  ", ctx);
      match cs[|cs| - 1]
      case Added(v) =>
        MarkGivesRenderedLines("+ ", NonEmptyLines(v));
      case Removed(v) =>
        MarkGivesRenderedLines("- ", NonEmptyLines(v));
      case Unchanged(v) =>
    }
  }

  lemma SummaryLineHasNoNewline(additions: nat, deletions: nat)
    ensures '\n' !in SummaryLine(additions, deletions)
  {
    var a, d := NatToString(additions), NatToString(deletions);
    assert forall i :: 0 <= i < |a| ==> IsDigit(a[i]);
    assert forall i :: 0 <= i < |d| ==> IsDigit(d[i]);
  }

  lemma TrailerHasNoNewline(more: nat)
    ensures '\n' !in Trailer(more)
  {
    var m := NatToString(more);
    assert forall i :: 0 <= i < |m| ==> IsDigit(m[i]);
  }

  lemma BodyLines(lines: seq<string>)
    requires forall i :: 0 <= i < |lines| ==> '\n' !in lines[i]
    ensures var n := |lines|;
      Split(Body(lines)) == (if n == 0 then [""] else lines[..Min(n, MaxLines)])
        + (if n > MaxLines then [Trailer(n - MaxLines)] else [])
  {
    var n := |lines|;
    var shown := lines[..Min(n, MaxLines)];
    if n == 0 {
      assert Body(lines) == "";
    } else if n > MaxLines {
      TrailerHasNoNewline(n - MaxLines);
      JoinSnoc(shown, Trailer(n - MaxLines));
      SplitJoin(shown + [Trailer(n - MaxLines)]);
    } else {
      SplitJoin(shown);
    }
  }

  /** Read line by line, the diff is the summary, a blank line, at most
      `MaxLines` rendered lines, and one `... and N more lines` trailer
      exactly when lines were cut, N being the number cut. */
  lemma DiffTextLines(cs: seq<Change>)
    ensures var st := Scan(cs); var n := |st.lines|;
      Split(DiffText(cs)) == [SummaryLine(st.additions, st.deletions), ""]
        + (if n == 0 then [""] else st.lines[..Min(n, MaxLines)])
        + (if n > MaxLines then [Trailer(n - MaxLines)] else [])
  {
    var st := Scan(cs);
    SummaryLineHasNoNewline(st.additions, st.deletions);
    HeaderLines(SummaryLine(st.additions, st.deletions), Body(st.lines));
    RenderedLineShape(cs);
    BodyLines(st.lines);
  }

  lemma HeaderLines(head: string, body: string)
    requires '\n' !in head
    ensures Split(head + "\n\n" + body) == [head, ""] + Split(body)
  {
    assert head + "\n\n" + body == head + "\n" + ("" + "\n" + body);
    SplitAfterLine(head, "" + "\n" + body);
    SplitAfterLine("", body);
  }

  /** A single line of text and no newline. */
  predicate IsPlainLine(l: string)
  {
    l != [] && '\n' !in l && !IsSpace(l[|l| - 1])
  }

  lemma OneLine(l: string)
    requires IsPlainLine(l)
    ensures NonEmptyLines(l) == [l]
    ensures NonEmptyLines(l + "\n") == [l]
    ensures NonEmptyLines("\n" + l) == [l]
    ensures TrimEnd(l) == l
  {
    SplitWithoutNewline(l);
    assert [l][1..] == [];
    assert Split("") == [""];
    assert DropEmpty([""]) == [] by {
      assert [""][1..] == [];
    }
    SplitAfterLine(l, "");
    assert l + "\n" == l + "\n" + "";
    assert Split(l + "\n") == [l, ""];
    assert [l, ""][1..] == [""];
    assert DropEmpty([l, ""]) == [l] + DropEmpty([""]);
    SplitAfterLine("", l);
    assert "\n" + l == "" + "\n" + l;
    assert ["", l][1..] == [l];
  }

  lemma StepKeepsLine(st: Render, a: string)
    requires IsPlainLine(a) && st.pending == []
    ensures Step(st, Unchanged(a + "\n")) == st.(pending := [a])
    ensures Step(st, Unchanged("\n" + a)) == st.(pending := [a])
  {
    OneLine(a);
  }

  lemma StepEmitsLine(st: Render, c: Change)
    requires !c.Unchanged? && IsPlainLine(c.value) && |st.pending| <= 1
    ensures var marker := if c.Added? then "+ " else "- ";
      Step(st, c).lines == st.lines + Mark("  ", st.pending) + [marker + c.value]
      && Step(st, c).pending == []
      && Step(st, c).additions == st.additions + (if c.Added? then 1 else 0)
      && Step(st, c).deletions == st.deletions + (if c.Removed? then 1 else 0)
  {
    OneLine(c.value);
    if |st.pending| == 0 {
      assert Mark("  ", Last(st.pending, ContextLines)) == [];
    }
  }

  lemma MarkOne(marker: string, a: string)
    requires IsPlainLine(a)
    ensures Mark(marker, [a]) == [marker + a]
  {
    OneLine(a);
  }

  lemma ScanAppend(p: seq<Change>, c: Change)
    ensures Scan(p + [c]) == Step(Scan(p), c)
  {
    assert (p + [c])[..|p|] == p;
  }

  lemma ScanContextLine(a: string)
    requires IsPlainLine(a)
    ensures Scan([Unchanged(a + "\n")]) == Render([], 0, 0, [a])
  {
    ScanAppend([], Unchanged(a + "\n"));
    assert [] + [Unchanged(a + "\n")] == [Unchanged(a + "\n")];
    StepKeepsLine(Render([], 0, 0, []), a);
  }

  lemma ScanRemovedLine(a: string, b: string)
    requires IsPlainLine(a) && IsPlainLine(b)
    ensures Scan([Unchanged(a + "\n"), Removed(b)]) == Render(["  " + a, "- " + b], 0, 1, [])
  {
    ScanContextLine(a);
    ScanAppend([Unchanged(a + "\n")], Removed(b));
    assert [Unchanged(a + "\n")] + [Removed(b)] == [Unchanged(a + "\n"), Removed(b)];
    StepEmitsLine(Render([], 0, 0, [a]), Removed(b));
    MarkOne("  ", a);
  }

  lemma ScanAddedLine(a: string, b: string, x: string)
    requires IsPlainLine(a) && IsPlainLine(b) && IsPlainLine(x)
    ensures Scan([Unchanged(a + "\n"), Removed(b), Added(x)]) == Render(["  " + a, "- " + b, "+ " + x], 1, 1, [])
  {
    var p := [Unchanged(a + "\n"), Removed(b)];
    ScanRemovedLine(a, b);
    ScanAppend(p, Added(x));
    assert p + [Added(x)] == [Unchanged(a + "\n"), Removed(b), Added(x)];
    StepEmitsLine(Render(["  " + a, "- " + b], 0, 1, []), Added(x));
    assert Mark("  ", []) == [];
  }

  lemma ScanReplacedLine(a: string, b: string, x: string, c: string)
    requires IsPlainLine(a) && IsPlainLine(b) && IsPlainLine(x) && IsPlainLine(c)
    ensures Scan([Unchanged(a + "\n"), Removed(b), Added(x), Unchanged("\n" + c)])
      == Render(["  " + a, "- " + b, "+ " + x], 1, 1, [c])
  {
    var p := [Unchanged(a + "\n"), Removed(b), Added(x)];
    ScanAddedLine(a, b, x);
    ScanAppend(p, Unchanged("\n" + c));
    assert p + [Unchanged("\n" + c)] == [Unchanged(a + "\n"), Removed(b), Added(x), Unchanged("\n" + c)];
    StepKeepsLine(Render(["  " + a, "- " + b, "+ " + x], 1, 1, []), c);
  }

  lemma JoinThree(p: string, q: string, r: string)
    ensures Join([p, q, r]) == p + "\n" + q + "\n" + r
  {
    assert [p, q, r][1..] == [q, r];
    assert [q, r][1..] == [r];
    assert Join([q, r]) == q + "\n" + r;
    assert p + "\n" + (q + "\n" + r) == p + "\n" + q + "\n" + r;
  }

  /** One line replaced between two others: the line before it is shown as
      context, then the removed and the added line; the line after it stays
      in the buffer and is not shown. */
  lemma ReplacedLine(a: string, b: string, x: string, c: string)
    requires IsPlainLine(a) && IsPlainLine(b) && IsPlainLine(x) && IsPlainLine(c)
    ensures DiffText([Unchanged(a + "\n"), Removed(b), Added(x), Unchanged("\n" + c)])
      == SummaryLine(1, 1) + "\n\n" + "  " + a + "\n" + "- " + b + "\n" + "+ " + x
  {
    var cs := [Unchanged(a + "\n"), Removed(b), Added(x), Unchanged("\n" + c)];
    var lines := ["  " + a, "- " + b, "+ " + x];
    ScanReplacedLine(a, b, x, c);
    ShortBody(lines);
    JoinThree("  " + a, "- " + b, "+ " + x);
    calc {
      DiffText(cs);
      SummaryLine(1, 1) + "\n\n" + Body(lines);
      SummaryLine(1, 1) + "\n\n" + ("  " + a + "\n" + "- " + b + "\n" + "+ " + x);
    }
  }

  /** A body of at most `MaxLines` lines shows them all, without a trailer. */
  lemma ShortBody(lines: seq<string>)
    requires |lines| <= MaxLines
    ensures Body(lines) == Join(lines)
  {
    assert lines[..|lines|] == lines;
  }
}
