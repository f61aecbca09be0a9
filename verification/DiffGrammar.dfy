/** What the exact parser accepts: printed hunk bodies under headers whose counts are theirs, and nothing else. */
module DiffGrammar {
  import opened Records
  import opened Text
  import opened Diff

  // ----- hunk bodies ---------------------------------------------------------------------------

  predicate AtBackslash(lines: seq<string>, i: nat) { i < |lines| && StartsWith(lines[i], "\\") }

  /** No marker line is waiting for its missing newline. */
  predicate Clean(lines: seq<string>, c: Cursor) { c.previous.None? || !AtBackslash(lines, c.index) }

  /** The cursor moved over one printed edit. */
  ghost predicate Moved(lines: seq<string>, c: Cursor, e: Edit, d: Cursor) {
    && d.index == c.index + |PrintEdit(e)| <= |lines| && lines[c.index..d.index] == PrintEdit(e)
    && c.oldLeft == d.oldLeft + (if InOld(e) then 1 else 0) && c.newLeft == d.newLeft + (if InNew(e) then 1 else 0)
    && d.oldText == (if InOld(e) then c.oldText + e.text else c.oldText)
    && d.newText == (if InNew(e) then c.newText + e.text else c.newText)
  }

  function TagOf(marker: char): Tag {
    if marker == ' ' then Keep else if marker == '-' then Remove else Add
  }

  lemma MarkerLine(lines: seq<string>, c: Cursor)
    requires FullLines(lines) && SoundCursor(lines, c) && Clean(lines, c) && !Finished(lines, c)
    requires ReadBodyLine(lines, c, true).Some?
    ensures var line := lines[c.index];
            && |line| >= 2 && line[0] in " -+" && Terminated(line[1..]) && line == [Marker(TagOf(line[0]))] + line[1..]
    ensures Moved(lines, c, Edit(TagOf(lines[c.index][0]), lines[c.index][1..]), ReadBodyLine(lines, c, true).value)
    ensures ReadBodyLine(lines, c, true).value.previous == Some(lines[c.index][0])
  {
    assert FullLine(lines[c.index]);
    var line := lines[c.index];
    assert line[..1] == [line[0]];
    assert line == [line[0]] + line[1..];
    assert lines[c.index..c.index + 1] == [line];
  }

  lemma OpenLine(lines: seq<string>, c: Cursor, d: Cursor, line: string, tag: Tag)
    requires FullLines(lines) && SoundCursor(lines, d) && AtBackslash(lines, d.index)
             && ReadBodyLine(lines, d, true).Some?
    requires Terminated(line) && FullLine([Marker(tag)] + line) && Moved(lines, c, Edit(tag, line), d)
             && d.previous == Some(Marker(tag))
    ensures var text := line[..|line| - 1];
            Moved(lines, c, Edit(tag, text), ReadBodyLine(lines, d, true).value)
              && ReadBodyLine(lines, d, true).value.previous.None?
  {
    var text, e := line[..|line| - 1], ReadBodyLine(lines, d, true).value;
    var full := [Marker(tag)] + line;
    assert lines[d.index][..1] == [lines[d.index][0]];
    assert lines[d.index] == NO_NEWLINE;
    assert text != "" ==> full[|text|] == text[|text| - 1];
    assert !Terminated(text);
    assert [Marker(tag)] + text + "\n" == full;
    assert lines[c.index..d.index] == [full];
    assert lines[c.index..e.index] == lines[c.index..d.index] + [lines[d.index]];
    assert Chop(c.oldText + line) == c.oldText + text && Chop(c.newText + line) == c.newText + text;
  }

  lemma BodyStep(lines: seq<string>, c: Cursor) returns (e: Edit, d: Cursor)
    requires FullLines(lines) && SoundCursor(lines, c) && Clean(lines, c) && !Finished(lines, c)
    requires ReadBody(lines, c, true).Some?
    ensures Moved(lines, c, e, d) && SoundCursor(lines, d) && Clean(lines, d) && d.index > c.index
    ensures ReadBody(lines, d, true) == ReadBody(lines, c, true)
  {
    MarkerLine(lines, c);
    var line := lines[c.index];
    d := ReadBodyLine(lines, c, true).value;
    e := Edit(TagOf(line[0]), line[1..]);
    if AtBackslash(lines, d.index) {
      assert !Finished(lines, d);
      assert FullLine(line);
      OpenLine(lines, c, d, line[1..], TagOf(line[0]));
      e := Edit(TagOf(line[0]), line[1..][..|line[1..]| - 1]);
      d := ReadBodyLine(lines, d, true).value;
    }
  }

  /** An accepted hunk body is a printed one: its edits have the promised counts and give the recovered texts. */
  lemma {:induction false} BodyInverse(lines: seq<string>, c: Cursor) returns (edits: seq<Edit>)
    requires FullLines(lines) && SoundCursor(lines, c) && Clean(lines, c) && ReadBody(lines, c, true).Some?
    ensures var r := ReadBody(lines, c, true).value;
            && lines[c.index..r.index] == PrintEdits(edits) && OldCount(edits) == c.oldLeft
            && NewCount(edits) == c.newLeft
            && r.oldText == c.oldText + OldText(edits) && r.newText == c.newText + NewText(edits)
    decreases |lines| - c.index
  {
    hide ReadBodyLine, FullLine, PrintEdit;
    if Finished(lines, c) {
      edits := [];
      NoEdits([], c.oldText);
      NoEdits([], c.newText);
    } else {
      var e, d := BodyStep(lines, c);
      var rest := BodyInverse(lines, d);
      edits := [e] + rest;
      EditsDrop(edits);
      assert edits[1..] == rest;
      var r := ReadBody(lines, c, true).value;
      assert lines[c.index..r.index] == lines[c.index..d.index] + lines[d.index..r.index];
    }
  }

  // ----- hunks ---------------------------------------------------------------------------------

  /** A hunk as it stands in the text. */
  datatype Block = Block(header: string, edits: seq<Edit>)

  function PrintBlocks(blocks: seq<Block>): seq<string> {
    if blocks == [] then [] else [blocks[0].header] + PrintEdits(blocks[0].edits) + PrintBlocks(blocks[1..])
  }

  /** The header gives the counts of the edits and nothing after them, and the hunk repeats it with both texts. */
  ghost predicate Fits(b: Block, h: ParsedHunk) {
    && h.beforeCount == OldCount(b.edits) && h.afterCount == NewCount(b.edits)
    && h.beforeText == OldText(b.edits) && h.afterText == NewText(b.edits)
    && ReadHeader(b.header).Some?
    && var r := ReadHeader(b.header).value;
    && r.oldCount == h.beforeCount && r.newCount == h.afterCount && r.rest == "\n"
    && h.beforeStart == r.oldStart + (if r.oldCount == 0 then 1 else 0)
    && h.afterStart == r.newStart + (if r.newCount == 0 then 1 else 0)
  }

  ghost predicate AllFit(blocks: seq<Block>, hunks: seq<ParsedHunk>) {
    |blocks| == |hunks| && forall i :: 0 <= i < |blocks| ==> Fits(blocks[i], hunks[i])
  }

  lemma OneBlock(lines: seq<string>, index: nat) returns (b: Block)
    requires FullLines(lines) && index < |lines| && HeaderAccepted(ReadHeader(lines[index]), true)
    requires ReadBody(lines, Start(index + 1, ReadHeader(lines[index]).value), true).Some?
    ensures var h := ReadHeader(lines[index]).value;
            var c := ReadBody(lines, Start(index + 1, h), true).value;
            lines[index..c.index] == [b.header] + PrintEdits(b.edits) && Fits(b, HunkOf(h, c))
  {
    hide ReadHeader, ReadBody, FullLines;
    var h := ReadHeader(lines[index]).value;
    var edits := BodyInverse(lines, Start(index + 1, h));
    b := Block(lines[index], edits);
    var c := ReadBody(lines, Start(index + 1, h), true).value;
    assert lines[index..c.index] == [lines[index]] + lines[index + 1..c.index];
    assert "" + OldText(edits) == OldText(edits) && "" + NewText(edits) == NewText(edits);
  }

  lemma {:induction false} HunksInverse(lines: seq<string>, index: nat, found: seq<ParsedHunk>)
    returns (blocks: seq<Block>)
    requires FullLines(lines) && index <= |lines| && ReadHunks(lines, index, true, found).Some?
    ensures var r := ReadHunks(lines, index, true, found).value;
            && lines[index..r.0] == PrintBlocks(blocks) && |r.1| == |found| + |blocks| && r.1[..|found|] == found
            && AllFit(blocks, r.1[|found|..])
    decreases |lines| - index
  {
    hide ReadHeader, ReadBody, FullLines, Fits;
    if index >= |lines| || !StartsWith(lines[index], "@@") {
      blocks := [];
    } else {
      var h := ReadHeader(lines[index]).value;
      var c := ReadBody(lines, Start(index + 1, h), true).value;
      var b := OneBlock(lines, index);
      var next := found + [HunkOf(h, c)];
      var rest := HunksInverse(lines, c.index, next);
      blocks := [b] + rest;
      var r := ReadHunks(lines, index, true, found).value;
      assert r == ReadHunks(lines, c.index, true, next).value;
      BlocksDrop(b, rest);
      assert lines[index..r.0] == lines[index..c.index] + lines[c.index..r.0];
      FitFirst(b, rest, r.1, found, HunkOf(h, c));
    }
  }

  lemma BlocksDrop(b: Block, rest: seq<Block>)
    ensures PrintBlocks([b] + rest) == [b.header] + PrintEdits(b.edits) + PrintBlocks(rest)
  {
    assert ([b] + rest)[1..] == rest;
  }

  lemma FitFirst(b: Block, rest: seq<Block>, hunks: seq<ParsedHunk>, found: seq<ParsedHunk>, h: ParsedHunk)
    requires |hunks| == |found| + 1 + |rest| && hunks[..|found| + 1] == found + [h] && Fits(b, h)
    requires AllFit(rest, hunks[|found| + 1..])
    ensures hunks[..|found|] == found && AllFit([b] + rest, hunks[|found|..])
  {
    hide Fits;
    assert hunks[..|found|] == hunks[..|found| + 1][..|found|] && hunks[|found|] == hunks[..|found| + 1][|found|] == h;
    forall i | 0 <= i < |[b] + rest| ensures Fits(([b] + rest)[i], hunks[|found|..][i]) {
      if i > 0 { assert Fits(rest[i - 1], hunks[|found| + 1..][i - 1]); }
    }
  }

  // ----- files ---------------------------------------------------------------------------------

  datatype FileText = FileText(path: string, before: bool, after: bool, blocks: seq<Block>)

  function PrintText(f: FileText): seq<string> {
    [if f.before then "--- a/" + f.path + "\n" else "--- /dev/null\n",
     if f.after then "+++ b/" + f.path + "\n" else "+++ /dev/null\n"] + PrintBlocks(f.blocks)
  }

  function PrintTexts(files: seq<FileText>): seq<string> {
    if files == [] then [] else PrintText(files[0]) + PrintTexts(files[1..])
  }

  /** The sections and hunks that a parse adds are those of the files, in order, each under a new path. */
  ghost predicate Adds(was: Parsed, files: seq<FileText>, p: Parsed) {
    && |p.sections| == |was.sections| + |files| && p.sections[..|was.sections|] == was.sections
    && (forall i :: 0 <= i < |files| ==>
          && p.sections[|was.sections| + i] == (files[i].path, Concat(PrintText(files[i]))) && files[i].blocks != []
          && files[i].path in p.hunks && AllFit(files[i].blocks, p.hunks[files[i].path]))
    && (forall i, j :: 0 <= i < j < |files| ==> files[i].path != files[j].path)
    && (forall i :: 0 <= i < |files| ==> files[i].path !in was.hunks)
    && (forall path :: path in was.hunks ==> path in p.hunks && p.hunks[path] == was.hunks[path])
    && (forall path :: path in p.hunks ==> path in was.hunks || exists i :: 0 <= i < |files| && files[i].path == path)
  }

  lemma FileOf(lines: seq<string>, index: nat, path: string, blocks: seq<Block>) returns (f: FileText)
    requires index + 1 < |lines| && ExactHeader(lines, index, path)
    ensures f.path == path && f.blocks == blocks && PrintText(f) == lines[index..index + 2] + PrintBlocks(blocks)
  {
    f := FileText(path, lines[index] == "--- a/" + path + "\n", lines[index + 1] == "+++ b/" + path + "\n", blocks);
  }

  lemma AddsFirst(was: Parsed, next: Parsed, p: Parsed, f: FileText, hunks: seq<ParsedHunk>, rest: seq<FileText>)
    requires f.path !in was.hunks && f.blocks != [] && AllFit(f.blocks, hunks) && Adds(next, rest, p)
    requires next == Parsed(was.sections + [(f.path, Concat(PrintText(f)))], was.hunks[f.path := hunks])
    ensures Adds(was, [f] + rest, p)
  {
    hide AllFit, PrintText, Concat;
    var files := [f] + rest;
    assert p.sections[..|was.sections|] == p.sections[..|next.sections|][..|was.sections|] == was.sections;
    assert p.sections[|was.sections|] == p.sections[..|next.sections|][|was.sections|];
    forall i | 0 < i < |files|
      ensures p.sections[|was.sections| + i] == (files[i].path, Concat(PrintText(files[i])))
              && files[i].path !in next.hunks
    {
      assert files[i] == rest[i - 1];
    }
    forall path | path in p.hunks ensures path in was.hunks || exists i :: 0 <= i < |files| && files[i].path == path {
      if path !in next.hunks {
        var i :| 0 <= i < |rest| && rest[i].path == path;
        assert files[i + 1].path == path;
      } else if path !in was.hunks {
        assert files[0].path == path;
      }
    }
  }

  lemma {:induction false} FilesInverse(lines: seq<string>, index: nat, was: Parsed) returns (files: seq<FileText>)
    requires FullLines(lines) && index <= |lines| && ReadSections(lines, index, true, was).Some?
    ensures lines[index..] == PrintTexts(files) && Adds(was, files, ReadSections(lines, index, true, was).value)
    decreases |lines| - index
  {
    hide HeaderPath, ExactHeader, FullLines, ReadHunks, Fits, Adds, AllFit;
    if index >= |lines| {
      files := [];
      NothingAdded(was);
    } else {
      var path := HeaderPath(lines, index);
      var blocks := HunksInverse(lines, index + 2, []);
      var r := ReadHunks(lines, index + 2, true, []).value;
      var f := FileOf(lines, index, path, blocks);
      assert lines[index..r.0] == lines[index..index + 2] + lines[index + 2..r.0];
      assert r.1[0..] == r.1;
      var next := Parsed(was.sections + [(path, Concat(lines[index..r.0]))], was.hunks[path := r.1]);
      var rest := FilesInverse(lines, r.0, next);
      files := [f] + rest;
      assert |PrintBlocks(blocks)| == r.0 - index - 2 > 0;
      AddsFirst(was, next, ReadSections(lines, index, true, was).value, f, r.1, rest);
      assert files[1..] == rest && lines[index..] == lines[index..r.0] + lines[r.0..];
    }
  }

  lemma NothingAdded(p: Parsed)
    ensures Adds(p, [], p)
  {
  }

  /** Whatever the exact parser accepts is a list of printed files with distinct paths, each with at least one hunk
      whose header gives its counts; sections, coordinates and both texts are theirs. */
  lemma AcceptedIsPrinted(text: string) returns (files: seq<FileText>)
    requires Parse(text, true).Some?
    ensures text == Concat(PrintTexts(files)) && Adds(Parsed([], map[]), files, Parse(text, true).value)
  {
    hide Adds;
    LinesJoin(text);
    files := FilesInverse(Lines(text), 0, Parsed([], map[]));
    assert Lines(text)[0..] == Lines(text);
  }

  // ----- hunk headers ----------------------------------------------------------------------------

  /** Digits for the start and, unless it is one, digits for the count. */
  ghost predicate RangeText(s: string, start: nat, count: nat) {
    || (Numbers(s, start) && count == 1)
    || exists k :: 0 <= k < |s| && s[k] == ',' && Numbers(s[..k], start) && Numbers(s[k + 1..], count)
  }

  ghost predicate Numbers(s: string, n: nat) {
    s != "" && (forall i :: 0 <= i < |s| ==> IsDigit(s[i])) && Numeral(s) == n
  }

  lemma NumberShape(s: string) returns (digits: string)
    requires ReadNumber(s).Some?
    ensures s == digits + ReadNumber(s).value.1 && Numbers(digits, ReadNumber(s).value.0)
  {
    hide Numeral;
    digits := s[..DigitRun(s)];
  }

  lemma TwoNumbers(a: string, b: string, start: nat, count: nat)
    requires Numbers(a, start) && Numbers(b, count)
    ensures RangeText(a + ("," + b), start, count)
  {
    hide Numbers;
    var s := a + ("," + b);
    assert s[|a|] == ',' && s[..|a|] == a && s[|a| + 1..] == b;
  }

  lemma RangeShape(s: string) returns (text: string)
    requires ReadRange(s).Some?
    ensures var (start, count, rest) := ReadRange(s).value; s == text + rest && RangeText(text, start, count)
  {
    hide Numbers, ReadNumber;
    var first := ReadNumber(s).value;
    var a := NumberShape(s);
    text := a;
    if StartsWith(first.1, ",") && ReadNumber(first.1[1..]).Some? {
      var second := ReadNumber(first.1[1..]).value;
      var b := NumberShape(first.1[1..]);
      TwoNumbers(a, b, first.0, second.0);
      hide RangeText;
      text := a + ("," + b);
      assert first.1 == "," + first.1[1..];
      assert s == a + ("," + (b + second.1)) == text + second.1;
    }
  }

  /** Two ranges as a header has them. */
  function Frame(old_: string, new_: string, rest: string): string {
    "@@ -" + (old_ + (" +" + (new_ + (" @@" + rest))))
  }

  /** An accepted header is two ranges in their frame. */
  lemma HeaderShape(line: string)
    requires ReadHeader(line).Some?
    ensures var h := ReadHeader(line).value;
            exists a, b :: && line == Frame(a, b, h.rest)
                           && RangeText(a, h.oldStart, h.oldCount) && RangeText(b, h.newStart, h.newCount)
  {
    hide RangeText, ReadRange, Expect;
    var s1 := Expect(line, "@@ -").value;
    var a := RangeShape(s1);
    var old_ := ReadRange(s1).value;
    var s2 := Expect(old_.2, " +").value;
    var b := RangeShape(s2);
    var new_ := ReadRange(s2).value;
    var s3 := Expect(new_.2, " @@").value;
    ExpectShape(line, "@@ -");
    ExpectShape(old_.2, " +");
    ExpectShape(new_.2, " @@");
    assert line == Frame(a, b, s3);
  }

  lemma ExpectShape(s: string, literal: string)
    ensures Expect(s, literal).Some? ==> s == literal + Expect(s, literal).value
  {
  }

  // ----- headers that are written ------------------------------------------------------------------

  /** The printer writes this line for some hunk. */
  ghost predicate Written(line: string) {
    exists o: nat, n: nat, p: nat, m: nat :: line == Frame(PrintRange(o, n), PrintRange(p, m), "\n")
  }

  /** Plain decimals, with a count exactly unless it is one. */
  function RangeOf(start: nat, count: nat): string {
    if count == 1 then Decimal(start) else Decimal(start) + "," + Decimal(count)
  }

  predicate Canonical(line: string, h: Header) {
    && line == Frame(RangeOf(h.oldStart, h.oldCount), RangeOf(h.newStart, h.newCount), "\n")
    && (h.oldCount > 0 ==> h.oldStart > 0) && (h.newCount > 0 ==> h.newStart > 0)
  }

  lemma FrameRead(o: nat, n: nat, p: nat, m: nat)
    ensures ReadHeader(Frame(PrintRange(o, n), PrintRange(p, m), "\n")) ==
            Some(Header(if n == 0 then o else o + 1, n, if m == 0 then p else p + 1, m, "\n"))
  {
    hide ReadRange, PrintRange;
    var tail3 := " @@" + "\n";
    var tail2 := " +" + (PrintRange(p, m) + tail3);
    ExpectLiteral("@@ -", PrintRange(o, n) + tail2);
    RangeRoundTrip(o, n, tail2);
    ExpectLiteral(" +", PrintRange(p, m) + tail3);
    RangeRoundTrip(p, m, tail3);
    ExpectLiteral(" @@", "\n");
  }

  lemma RangeIs(start: nat, count: nat)
    requires count > 0 ==> start > 0
    ensures RangeOf(start, count) == PrintRange(if count == 0 then start else start - 1, count)
  {
    assert Decimal(0) == "0";
    assert Decimal(start) + "," + "0" == Decimal(start) + ",0";
  }

  /** An accepted header is one that the printer writes exactly when its numbers are plain decimals, a count is given
      unless it is one, and only an empty range starts at zero. */
  lemma WrittenExactly(line: string)
    requires ReadHeader(line).Some?
    ensures Written(line) <==> Canonical(line, ReadHeader(line).value)
  {
    hide ReadHeader, PrintRange, RangeOf, Frame;
    var h := ReadHeader(line).value;
    if Written(line) {
      var o: nat, n: nat, p: nat, m: nat :| line == Frame(PrintRange(o, n), PrintRange(p, m), "\n");
      FrameRead(o, n, p, m);
      RangeIs(h.oldStart, h.oldCount);
      RangeIs(h.newStart, h.newCount);
    }
    if Canonical(line, h) {
      RangeIs(h.oldStart, h.oldCount);
      RangeIs(h.newStart, h.newCount);
    }
  }

  lemma GivenRange(start: nat, count: nat, rest: string)
    requires rest != "" && !IsDigit(rest[0])
    ensures ReadRange(Decimal(start) + ("," + (Decimal(count) + rest))) == Some((start, count, rest))
  {
    hide Decimal;
    var tail := Decimal(count) + rest;
    ReadDecimal(start, "," + tail);
    assert ("," + tail)[1..] == tail;
    ReadDecimal(count, rest);
  }

  lemma GivenCount(a: nat, n: nat, b: nat)
    ensures ReadHeader(Frame(Decimal(a) + ("," + Decimal(n)), PrintRange(b, 1), "\n")) ==
            Some(Header(a, n, b + 1, 1, "\n"))
  {
    hide ReadRange, PrintRange, Decimal;
    var tail3 := " @@" + "\n";
    var tail2 := " +" + (PrintRange(b, 1) + tail3);
    assert (Decimal(a) + ("," + Decimal(n))) + tail2 == Decimal(a) + ("," + (Decimal(n) + tail2));
    ExpectLiteral("@@ -", Decimal(a) + ("," + (Decimal(n) + tail2)));
    GivenRange(a, n, tail2);
    ExpectLiteral(" +", PrintRange(b, 1) + tail3);
    RangeRoundTrip(b, 1, tail3);
    ExpectLiteral(" @@", "\n");
  }

  /** Not everything that is accepted is written: a count of one may be given. */
  lemma UnwrittenAccepted()
    ensures var line := "@@ -1,1 +1 @@\n"; HeaderAccepted(ReadHeader(line), true) && !Written(line)
  {
    hide ReadHeader, Written;
    var line := "@@ -1,1 +1 @@\n";
    assert Decimal(1) == "1" && PrintRange(0, 1) == "1" && RangeOf(1, 1) == "1";
    assert Frame("1" + ("," + "1"), "1", "\n") == line;
    GivenCount(1, 1, 0);
    WrittenExactly(line);
    assert |Frame("1", "1", "\n")| == |line| - 2;
  }
}
