/**
 The unified diff that records a member's changes, and the line-counting parser that splits it into file sections
 and recovers each hunk's coordinates and texts. Which hunks a diff has is an input.
 */
module Diff {
  import opened Records
  import opened Text

  // ----- printing --------------------------------------------------------------------------

  datatype Tag = Keep | Remove | Add

  /** One line of a hunk with its own ending; only a file's last line, or one ended by another line boundary,
      lacks the newline. */
  datatype Edit = Edit(tag: Tag, text: string)

  /** Starts count lines before the hunk. */
  datatype Hunk = Hunk(oldStart: nat, newStart: nat, edits: seq<Edit>)
  datatype FileDiff = FileDiff(name: string, before: bool, after: bool, hunks: seq<Hunk>)

  const NO_NEWLINE := "\\ No newline at end of file\n"

  predicate InOld(e: Edit) { !e.tag.Add? }
  predicate InNew(e: Edit) { !e.tag.Remove? }

  function OldCount(edits: seq<Edit>): nat {
    if edits == [] then 0 else (if InOld(edits[0]) then 1 else 0) + OldCount(edits[1..])
  }
  function NewCount(edits: seq<Edit>): nat {
    if edits == [] then 0 else (if InNew(edits[0]) then 1 else 0) + NewCount(edits[1..])
  }
  function OldText(edits: seq<Edit>): string {
    if edits == [] then "" else (if InOld(edits[0]) then edits[0].text else "") + OldText(edits[1..])
  }
  function NewText(edits: seq<Edit>): string {
    if edits == [] then "" else (if InNew(edits[0]) then edits[0].text else "") + NewText(edits[1..])
  }

  function Marker(tag: Tag): char {
    match tag case Keep => ' ' case Remove => '-' case Add => '+'
  }

  predicate Terminated(text: string) { |text| > 0 && text[|text| - 1] == '\n' }

  function PrintEdit(e: Edit): seq<string> {
    if Terminated(e.text) then [[Marker(e.tag)] + e.text] else [[Marker(e.tag)] + e.text + "\n", NO_NEWLINE]
  }

  function PrintEdits(edits: seq<Edit>): seq<string> {
    if edits == [] then [] else PrintEdit(edits[0]) + PrintEdits(edits[1..])
  }

  function PrintRange(start: nat, count: nat): string {
    if count == 1 then Decimal(start + 1)
    else if count == 0 then Decimal(start) + ",0"
    else Decimal(start + 1) + "," + Decimal(count)
  }

  function HunkHeader(h: Hunk): string {
    "@@ -" + (PrintRange(h.oldStart, OldCount(h.edits))
              + (" +" + (PrintRange(h.newStart, NewCount(h.edits)) + (" @@" + "\n"))))
  }

  function PrintHunks(hunks: seq<Hunk>): seq<string> {
    if hunks == [] then [] else [HunkHeader(hunks[0])] + PrintEdits(hunks[0].edits) + PrintHunks(hunks[1..])
  }

  function PrintFile(f: FileDiff): seq<string> {
    [if f.before then "--- a/" + f.name + "\n" else "--- /dev/null\n",
     if f.after then "+++ b/" + f.name + "\n" else "+++ /dev/null\n"] + PrintHunks(f.hunks)
  }

  function PrintFiles(files: seq<FileDiff>): seq<string> {
    if files == [] then [] else PrintFile(files[0]) + PrintFiles(files[1..])
  }

  // ----- parsing ---------------------------------------------------------------------------

  datatype Header = Header(oldStart: nat, oldCount: nat, newStart: nat, newCount: nat, rest: string)

  /** A start and, after a comma, a count that defaults to one. */
  function ReadRange(s: string): Option<(nat, nat, string)> {
    var start := ReadNumber(s);
    if start.None? then None
    else
      var rest := start.value.1;
      var count := if StartsWith(rest, ",") then ReadNumber(rest[1..]) else None;
      if count.Some? then Some((start.value.0, count.value.0, count.value.1)) else Some((start.value.0, 1, rest))
  }

  function ReadHeader(line: string): Option<Header> {
    var s1 := Expect(line, "@@ -");
    var old_ := if s1.Some? then ReadRange(s1.value) else None;
    var s2 := if old_.Some? then Expect(old_.value.2, " +") else None;
    var new_ := if s2.Some? then ReadRange(s2.value) else None;
    var s3 := if new_.Some? then Expect(new_.value.2, " @@") else None;
    if s3.None? then None else Some(Header(old_.value.0, old_.value.1, new_.value.0, new_.value.1, s3.value))
  }

  datatype ParsedHunk = ParsedHunk(beforeStart: nat, beforeCount: nat, beforeText: string,
                                   afterStart: nat, afterCount: nat, afterText: string)

  /** Where the parser stands inside a hunk; `previous` is the last marker whose line may still lose its newline. */
  datatype Cursor = Cursor(index: nat, oldLeft: nat, newLeft: nat, oldText: string, newText: string,
                           previous: Option<char>)

  predicate SoundCursor(lines: seq<string>, c: Cursor) {
    && c.index <= |lines|
    && (c.previous == Some(' ') || c.previous == Some('-') ==> |c.oldText| > 0)
    && (c.previous == Some(' ') || c.previous == Some('+') ==> |c.newText| > 0)
  }

  function Chop(s: string): string
    requires |s| > 0
  {
    s[..|s| - 1]
  }

  predicate Finished(lines: seq<string>, c: Cursor) {
    c.oldLeft == 0 && c.newLeft == 0 && !(c.index < |lines| && StartsWith(lines[c.index], "\\"))
  }

  /** One line of a hunk body. With `exact`, texts are recovered and only what the printer writes is accepted. */
  function ReadBodyLine(lines: seq<string>, c: Cursor, exact: bool): (r: Option<Cursor>)
    requires FullLines(lines) && SoundCursor(lines, c)
    ensures r.Some? ==> SoundCursor(lines, r.value) && r.value.index == c.index + 1
  {
    if c.index >= |lines| then None
    else
      assert FullLine(lines[c.index]);
      var line := lines[c.index];
      if line[0] == ' ' && c.oldLeft > 0 && c.newLeft > 0 then
        Some(Cursor(c.index + 1, c.oldLeft - 1, c.newLeft - 1, c.oldText + line[1..], c.newText + line[1..], Some(' ')))
      else if line[0] == '-' && c.oldLeft > 0 then
        Some(Cursor(c.index + 1, c.oldLeft - 1, c.newLeft, c.oldText + line[1..], c.newText, Some('-')))
      else if line[0] == '+' && c.newLeft > 0 then
        Some(Cursor(c.index + 1, c.oldLeft, c.newLeft - 1, c.oldText, c.newText + line[1..], Some('+')))
      else if line[0] == '\\' then
        if !exact then Some(c.(index := c.index + 1, previous := None))
        else if line != NO_NEWLINE || c.previous.None? then None
        else Some(Cursor(c.index + 1, c.oldLeft, c.newLeft,
                         if c.previous.value in " -" then Chop(c.oldText) else c.oldText,
                         if c.previous.value in " +" then Chop(c.newText) else c.newText, None))
      else None
  }

  function ReadBody(lines: seq<string>, c: Cursor, exact: bool): (r: Option<Cursor>)
    requires FullLines(lines) && SoundCursor(lines, c)
    ensures r.Some? ==> SoundCursor(lines, r.value) && r.value.index >= c.index
    decreases |lines| - c.index
  {
    if Finished(lines, c) then Some(c)
    else
      var next := ReadBodyLine(lines, c, exact);
      if next.None? then None else ReadBody(lines, next.value, exact)
  }

  function Start(index: nat, h: Header): Cursor {
    Cursor(index, h.oldCount, h.newCount, "", "", None)
  }

  function HunkOf(h: Header, c: Cursor): ParsedHunk {
    ParsedHunk(h.oldStart + (if h.oldCount == 0 then 1 else 0), h.oldCount, c.oldText,
               h.newStart + (if h.newCount == 0 then 1 else 0), h.newCount, c.newText)
  }

  predicate HeaderAccepted(h: Option<Header>, exact: bool) {
    h.Some? && (exact ==> h.value.rest == "\n")
  }

  /** Reads hunks while a line starts with `@@`. */
  function ReadHunks(lines: seq<string>, index: nat, exact: bool, hunks: seq<ParsedHunk>)
    : (r: Option<(nat, seq<ParsedHunk>)>)
    requires FullLines(lines) && index <= |lines|
    ensures r.Some? ==> index <= r.value.0 <= |lines|
    decreases |lines| - index
  {
    if index >= |lines| || !StartsWith(lines[index], "@@") then Some((index, hunks))
    else
      var h := ReadHeader(lines[index]);
      if !HeaderAccepted(h, exact) then None
      else
        var c := ReadBody(lines, Start(index + 1, h.value), exact);
        if c.None? then None else ReadHunks(lines, c.value.index, exact, hunks + [HunkOf(h.value, c.value)])
  }

  datatype Parsed = Parsed(sections: seq<(string, string)>, hunks: map<string, seq<ParsedHunk>>)

  predicate FileHeader(lines: seq<string>, index: nat) {
    index + 1 < |lines| && StartsWith(lines[index], "--- ") && StartsWith(lines[index + 1], "+++ ")
  }

  function HeaderPath(lines: seq<string>, index: nat): string
    requires FullLines(lines) && FileHeader(lines, index)
  {
    var line := if lines[index + 1] != "+++ /dev/null\n" then lines[index + 1] else lines[index];
    assert FullLine(lines[index]) && FullLine(lines[index + 1]) && line[3] == ' ';
    var name := line[4..|line| - 1];
    if StartsWith(name, "a/") || StartsWith(name, "b/") then name[2..] else name
  }

  predicate ExactHeader(lines: seq<string>, index: nat, path: string)
    requires index + 1 < |lines|
  {
    && (lines[index] == "--- a/" + path + "\n" || lines[index] == "--- /dev/null\n")
    && (lines[index + 1] == "+++ b/" + path + "\n" || lines[index + 1] == "+++ /dev/null\n")
  }

  function ReadSections(lines: seq<string>, index: nat, exact: bool, p: Parsed): Option<Parsed>
    requires FullLines(lines) && index <= |lines|
    decreases |lines| - index
  {
    if index >= |lines| then Some(p)
    else if !FileHeader(lines, index) then None
    else
      var path := HeaderPath(lines, index);
      if exact && (path in p.hunks || !ExactHeader(lines, index, path)) then None
      else
        var r := ReadHunks(lines, index + 2, exact, []);
        if r.None? || r.value.0 == index + 2 then None
        else ReadSections(lines, r.value.0, exact,
                          Parsed(p.sections + [(path, Concat(lines[index..r.value.0]))], p.hunks[path := r.value.1]))
  }

  /** Anything but the unified format is refused. */
  function Parse(text: string, exact: bool): Option<Parsed> {
    if !Terminated(text) then None else ReadSections(Lines(text), 0, exact, Parsed([], map[]))
  }

  // ----- the parser's loops ------------------------------------------------------------------

  method DiffSections(text: string, exact: bool) returns (r: Option<Parsed>)
    ensures r == Parse(text, exact)
  {
    hide ReadBodyLine, ReadHeader, Lines, HeaderPath, ExactHeader;
    if !Terminated(text) { return None; }
    var lines := Lines(text);
    var index, p := 0, Parsed([], map[]);
    while index < |lines|
      invariant index <= |lines|
      invariant ReadSections(lines, index, exact, p) == Parse(text, exact)
    {
      var start := index;
      if !FileHeader(lines, index) { return None; }
      var path := HeaderPath(lines, index);
      if exact && (path in p.hunks || !ExactHeader(lines, index, path)) { return None; }
      index := index + 2;
      var hunks := [];
      while index < |lines| && StartsWith(lines[index], "@@")
        invariant start + 2 <= index <= |lines|
        invariant ReadHunks(lines, index, exact, hunks) == ReadHunks(lines, start + 2, exact, [])
        decreases |lines| - index
      {
        var h := ReadHeader(lines[index]);
        if !HeaderAccepted(h, exact) { return None; }
        var c := Start(index + 1, h.value);
        while !Finished(lines, c)
          invariant SoundCursor(lines, c) && index < c.index
          invariant ReadBody(lines, c, exact) == ReadBody(lines, Start(index + 1, h.value), exact)
          decreases |lines| - c.index
        {
          var next := ReadBodyLine(lines, c, exact);
          if next.None? { return None; }
          c := next.value;
        }
        index := c.index;
        hunks := hunks + [HunkOf(h.value, c)];
      }
      if index == start + 2 { return None; }
      p := Parsed(p.sections + [(path, Concat(lines[start..index]))], p.hunks[path := hunks]);
    }
    return Some(p);
  }

  // ----- sections join to the input ----------------------------------------------------------

  function Texts(sections: seq<(string, string)>): (r: seq<string>)
    ensures |r| == |sections|
  {
    seq(|sections|, i requires 0 <= i < |sections| => sections[i].1)
  }

  lemma CoverStep(lines: seq<string>, index: nat, next: nat, sections: seq<(string, string)>, path: string)
    requires index <= next <= |lines| && Concat(Texts(sections)) == Concat(lines[..index])
    ensures Concat(Texts(sections + [(path, Concat(lines[index..next]))])) == Concat(lines[..next])
  {
    var part := Concat(lines[index..next]);
    assert Texts(sections + [(path, part)]) == Texts(sections) + [part];
    ConcatAppend(Texts(sections), [part]);
    assert Concat([part]) == part + Concat([]);
    assert lines[..next] == lines[..index] + lines[index..next];
    ConcatAppend(lines[..index], lines[index..next]);
  }

  lemma {:induction false} SectionsCover(lines: seq<string>, index: nat, exact: bool, p: Parsed)
    requires FullLines(lines) && index <= |lines| && Concat(Texts(p.sections)) == Concat(lines[..index])
    ensures var r := ReadSections(lines, index, exact, p); r.Some? ==> Concat(Texts(r.value.sections)) == Concat(lines)
    decreases |lines| - index
  {
    hide HeaderPath, ExactHeader, FullLines, Concat, Texts, ReadHunks;
    if index >= |lines| {
      assert lines[..index] == lines;
    } else if FileHeader(lines, index) {
      var path := HeaderPath(lines, index);
      var r := ReadHunks(lines, index + 2, exact, []);
      if r.Some? && r.value.0 > index + 2 {
        CoverStep(lines, index, r.value.0, p.sections, path);
        SectionsCover(lines, r.value.0, exact,
                      Parsed(p.sections + [(path, Concat(lines[index..r.value.0]))], p.hunks[path := r.value.1]));
      }
    }
  }

  /** Whatever text is accepted, its sections concatenate back to it. */
  lemma SectionsConcatenate(text: string, exact: bool)
    ensures var r := Parse(text, exact); r.Some? ==> Concat(Texts(r.value.sections)) == text
  {
    if Terminated(text) {
      LinesJoin(text);
      SectionsCover(Lines(text), 0, exact, Parsed([], map[]));
    }
  }

  /** A section of a parsed diff has its two header lines and then a hunk. */
  predicate HasHunk(section: string) {
    Terminated(section) && |Lines(section)| > 2 && StartsWith(Lines(section)[2], "@@")
  }

  lemma {:induction false} SectionsHaveHunks(lines: seq<string>, index: nat, exact: bool, p: Parsed)
    requires FullLines(lines) && index <= |lines| && forall s :: s in p.sections ==> HasHunk(s.1)
    ensures var r := ReadSections(lines, index, exact, p);
            r.Some? ==> forall s :: s in r.value.sections ==> HasHunk(s.1)
    decreases |lines| - index
  {
    hide HeaderPath, ExactHeader, FullLine, Concat, HasHunk;
    if index < |lines| && FileHeader(lines, index) {
      var path := HeaderPath(lines, index);
      var r := ReadHunks(lines, index + 2, exact, []);
      if r.Some? && r.value.0 > index + 2 {
        SliceHasHunk(lines, index, r.value.0);
        SectionsHaveHunks(lines, r.value.0, exact,
                          Parsed(p.sections + [(path, Concat(lines[index..r.value.0]))], p.hunks[path := r.value.1]));
      }
    }
  }

  lemma SliceHasHunk(lines: seq<string>, index: nat, next: nat)
    requires FullLines(lines) && index + 2 < next <= |lines| && StartsWith(lines[index + 2], "@@")
    ensures HasHunk(Concat(lines[index..next]))
  {
    var part := lines[index..next];
    JoinLines(part);
    assert part[2] == lines[index + 2];
    assert Concat(part) == part[0] + Concat(part[1..]) && FullLine(part[0]);
  }

  lemma ParsedSectionsHaveHunks(text: string, exact: bool)
    ensures var r := Parse(text, exact); r.Some? ==> forall s :: s in r.value.sections ==> HasHunk(s.1)
  {
    hide ReadSections, HasHunk;
    if Terminated(text) { SectionsHaveHunks(Lines(text), 0, exact, Parsed([], map[])); }
  }

  // ----- round trip --------------------------------------------------------------------------

  lemma RangeRoundTrip(start: nat, count: nat, rest: string)
    requires rest != "" && !IsDigit(rest[0]) && rest[0] != ','
    ensures ReadRange(PrintRange(start, count) + rest) == Some((if count == 0 then start else start + 1, count, rest))
  {
    if count == 1 {
      ReadDecimal(start + 1, rest);
    } else {
      var s, tail := if count == 0 then start else start + 1, Decimal(count) + rest;
      assert count == 0 ==> Decimal(0) == "0";
      assert PrintRange(start, count) + rest == Decimal(s) + ("," + tail);
      ReadDecimal(s, "," + tail);
      assert ("," + tail)[1..] == tail;
      ReadDecimal(count, rest);
    }
  }

  lemma HeaderRoundTrip(h: Hunk)
    ensures var old_, new_ := OldCount(h.edits), NewCount(h.edits);
            ReadHeader(HunkHeader(h)) == Some(Header(if old_ == 0 then h.oldStart else h.oldStart + 1, old_,
                                                     if new_ == 0 then h.newStart else h.newStart + 1, new_, "\n"))
  {
    hide ReadRange, PrintRange;
    var tail3 := " @@" + "\n";
    var tail2 := " +" + (PrintRange(h.newStart, NewCount(h.edits)) + tail3);
    ExpectLiteral("@@ -", PrintRange(h.oldStart, OldCount(h.edits)) + tail2);
    RangeRoundTrip(h.oldStart, OldCount(h.edits), tail2);
    ExpectLiteral(" +", PrintRange(h.newStart, NewCount(h.edits)) + tail3);
    RangeRoundTrip(h.newStart, NewCount(h.edits), tail3);
    ExpectLiteral(" @@", "\n");
  }

  /** Lines that a text splits into: not empty, with no newline before the end. */
  predicate SourceLine(text: string) {
    |text| > 0 && forall i :: 0 <= i < |text| - 1 ==> text[i] != '\n'
  }

  predicate Printable(f: FileDiff) {
    && NoBreak(f.name) && (f.before || f.after) && |f.hunks| > 0
    && forall h :: h in f.hunks ==> SourceLines(h)
  }

  /** A hunk body is followed by a hunk header, a file header or nothing. */
  predicate NoBackslash(rest: seq<string>) {
    rest != [] ==> !StartsWith(rest[0], "\\")
  }

  /** Where the parser stands after a printed edit. */
  function AfterEdit(c: Cursor, e: Edit, exact: bool): Cursor
    requires (InOld(e) ==> c.oldLeft > 0) && (InNew(e) ==> c.newLeft > 0)
  {
    var text := if exact || Terminated(e.text) then e.text else e.text + "\n";
    Cursor(c.index + |PrintEdit(e)|, if InOld(e) then c.oldLeft - 1 else c.oldLeft,
           if InNew(e) then c.newLeft - 1 else c.newLeft,
           if InOld(e) then c.oldText + text else c.oldText, if InNew(e) then c.newText + text else c.newText,
           if Terminated(e.text) then Some(Marker(e.tag)) else None)
  }

  lemma TerminatedEdit(lines: seq<string>, c: Cursor, e: Edit, exact: bool)
    requires FullLines(lines) && SoundCursor(lines, c) && SourceLine(e.text) && Terminated(e.text)
    requires c.index < |lines| && lines[c.index] == PrintEdit(e)[0]
    requires (InOld(e) ==> c.oldLeft > 0) && (InNew(e) ==> c.newLeft > 0)
    ensures ReadBodyLine(lines, c, exact) == Some(AfterEdit(c, e, exact))
  {
    hide FullLines;
    assert PrintEdit(e)[0][0] == Marker(e.tag) && PrintEdit(e)[0][1..] == e.text;
  }

  lemma OpenEdit(lines: seq<string>, c: Cursor, e: Edit, exact: bool)
    requires FullLines(lines) && SoundCursor(lines, c) && SourceLine(e.text) && !Terminated(e.text)
    requires c.index + 1 < |lines| && lines[c.index] == PrintEdit(e)[0] && lines[c.index + 1] == NO_NEWLINE
    requires (InOld(e) ==> c.oldLeft > 0) && (InNew(e) ==> c.newLeft > 0)
    ensures var c1 := ReadBodyLine(lines, c, exact);
            c1.Some? && !Finished(lines, c1.value)
              && ReadBodyLine(lines, c1.value, exact) == Some(AfterEdit(c, e, exact))
  {
    hide FullLines;
    assert PrintEdit(e)[0][0] == Marker(e.tag) && PrintEdit(e)[0][1..] == e.text + "\n";
    assert Chop(c.oldText + (e.text + "\n")) == c.oldText + e.text;
    assert Chop(c.newText + (e.text + "\n")) == c.newText + e.text;
    assert NO_NEWLINE[..1] == "\\";
  }

  lemma EditRoundTrip(lines: seq<string>, c: Cursor, e: Edit, tail: seq<string>, exact: bool)
    requires FullLines(lines) && SoundCursor(lines, c) && lines[c.index..] == PrintEdit(e) + tail && SourceLine(e.text)
    requires (InOld(e) ==> c.oldLeft > 0) && (InNew(e) ==> c.newLeft > 0)
    ensures var c' := AfterEdit(c, e, exact);
            SoundCursor(lines, c') && lines[c'.index..] == tail
              && ReadBody(lines, c, exact) == ReadBody(lines, c', exact)
  {
    Continues(lines, c.index, PrintEdit(e), tail);
    hide FullLines, ReadBodyLine, SourceLine;
    if Terminated(e.text) { TerminatedEdit(lines, c, e, exact); } else { OpenEdit(lines, c, e, exact); }
  }

  lemma Associate<T>(a: seq<T>, b: seq<T>, c: seq<T>)
    ensures a + (b + c) == (a + b) + c
  {
  }

  lemma EditsDrop(edits: seq<Edit>)
    requires edits != []
    ensures OldCount(edits) == (if InOld(edits[0]) then 1 else 0) + OldCount(edits[1..])
    ensures NewCount(edits) == (if InNew(edits[0]) then 1 else 0) + NewCount(edits[1..])
    ensures OldText(edits) == (if InOld(edits[0]) then edits[0].text else "") + OldText(edits[1..])
    ensures NewText(edits) == (if InNew(edits[0]) then edits[0].text else "") + NewText(edits[1..])
    ensures PrintEdits(edits) == PrintEdit(edits[0]) + PrintEdits(edits[1..])
  {
    hide PrintEdit;
  }

  lemma NoEdits(rest: seq<string>, text: string)
    ensures OldCount([]) == 0 && NewCount([]) == 0 && text + OldText([]) == text && text + NewText([]) == text
    ensures PrintEdits([]) == [] && PrintEdits([]) + rest == [] + rest
  {
  }

  lemma {:induction false} BodyRoundTrip(lines: seq<string>, c: Cursor, edits: seq<Edit>, rest: seq<string>,
                                         exact: bool)
    requires FullLines(lines) && SoundCursor(lines, c) && lines[c.index..] == PrintEdits(edits) + rest
             && NoBackslash(rest)
    requires c.oldLeft == OldCount(edits) && c.newLeft == NewCount(edits)
    requires forall e :: e in edits ==> SourceLine(e.text)
    ensures var r := ReadBody(lines, c, exact);
            && r.Some? && r.value.index == c.index + |PrintEdits(edits)|
            && (exact ==> r.value.oldText == c.oldText + OldText(edits)
                          && r.value.newText == c.newText + NewText(edits))
    decreases |edits|
  {
    hide ReadBodyLine, PrintEdit, PrintEdits, SourceLine, FullLines, OldText, NewText, OldCount, NewCount;
    if edits == [] {
      NoEdits(rest, c.oldText);
      NoEdits(rest, c.newText);
      Continues(lines, c.index, [], rest);
    } else {
      var e, tail := edits[0], PrintEdits(edits[1..]) + rest;
      EditsDrop(edits);
      Associate(PrintEdit(e), PrintEdits(edits[1..]), rest);
      EditRoundTrip(lines, c, e, tail, exact);
      hide ReadBody;
      var c' := AfterEdit(c, e, exact);
      BodyRoundTrip(lines, c', edits[1..], rest, exact);
      if exact {
        Associate(c.oldText, if InOld(e) then e.text else "", OldText(edits[1..]));
        Associate(c.newText, if InNew(e) then e.text else "", NewText(edits[1..]));
        assert c.oldText + "" == c.oldText && c.newText + "" == c.newText;
      }
    }
  }

  /** What the parser reports for a printed hunk: one-based first lines and both texts. */
  function Coordinates(h: Hunk): ParsedHunk {
    ParsedHunk(h.oldStart + 1, OldCount(h.edits), OldText(h.edits), h.newStart + 1, NewCount(h.edits), NewText(h.edits))
  }

  function AllCoordinates(hunks: seq<Hunk>): seq<ParsedHunk> {
    if hunks == [] then [] else [Coordinates(hunks[0])] + AllCoordinates(hunks[1..])
  }

  /** Hunks are followed by the next file header or nothing. */
  predicate AtFileHeader(rest: seq<string>) {
    rest != [] ==> StartsWith(rest[0], "--- ")
  }

  lemma HunkStarts(hunks: seq<Hunk>, rest: seq<string>)
    requires AtFileHeader(rest)
    ensures NoBackslash(PrintHunks(hunks) + rest)
    ensures hunks == [] && rest != [] ==> !StartsWith(rest[0], "@@")
    ensures forall h :: StartsWith(HunkHeader(h), "@@")
  {
    hide PrintRange, PrintEdits, OldCount, NewCount;
    assert rest != [] ==> rest[0][..4][0] == '-';
    forall h ensures HunkHeader(h)[0] == '@' && HunkHeader(h)[..2] == "@@" {}
    if hunks != [] { assert (PrintHunks(hunks) + rest)[0] == HunkHeader(hunks[0]); }
  }

  lemma {:induction false} HunksRoundTrip(lines: seq<string>, index: nat, hunks: seq<Hunk>, rest: seq<string>,
                                          exact: bool,
                                          found: seq<ParsedHunk>)
    requires FullLines(lines) && index <= |lines| && lines[index..] == PrintHunks(hunks) + rest && AtFileHeader(rest)
    requires forall h :: h in hunks ==> SourceLines(h)
    ensures var r := ReadHunks(lines, index, exact, found);
            && r.Some? && r.value.0 == index + |PrintHunks(hunks)|
            && (exact ==> r.value.1 == found + AllCoordinates(hunks))
    decreases |hunks|
  {
    hide ReadHeader, HunkHeader, ReadBody, PrintEdits, PrintHunks, SourceLines, FullLines, OldText, NewText, OldCount,
         NewCount,
         NoBackslash, AtFileHeader, AllCoordinates, Coordinates;
    HunkStarts(hunks, rest);
    if hunks == [] {
      NoHunks(rest, found);
      Continues(lines, index, [], rest);
    } else {
      var h, more := hunks[0], PrintHunks(hunks[1..]) + rest;
      HunkStarts(hunks[1..], rest);
      HunksDrop(hunks, rest, found);
      Continues(lines, index, [HunkHeader(h)], PrintEdits(h.edits) + more);
      OneHunk(lines, index, h, more, exact);
      var header := ReadHeader(HunkHeader(h)).value;
      var c := ReadBody(lines, Start(index + 1, header), exact).value;
      Continues(lines, index + 1, PrintEdits(h.edits), more);
      HunksRoundTrip(lines, c.index, hunks[1..], rest, exact, found + [HunkOf(header, c)]);
    }
  }

  lemma NoHunks(rest: seq<string>, found: seq<ParsedHunk>)
    ensures PrintHunks([]) == [] && PrintHunks([]) + rest == [] + rest && found + AllCoordinates([]) == found
  {
  }

  lemma HunksDrop(hunks: seq<Hunk>, rest: seq<string>, found: seq<ParsedHunk>)
    requires hunks != []
    ensures PrintHunks(hunks) + rest == [HunkHeader(hunks[0])]
            + (PrintEdits(hunks[0].edits) + (PrintHunks(hunks[1..]) + rest))
    ensures |PrintHunks(hunks)| == 1 + |PrintEdits(hunks[0].edits)| + |PrintHunks(hunks[1..])|
    ensures found + AllCoordinates(hunks) == (found + [Coordinates(hunks[0])]) + AllCoordinates(hunks[1..])
  {
    hide HunkHeader, PrintEdits, Coordinates;
    var header, edits, more := [HunkHeader(hunks[0])], PrintEdits(hunks[0].edits), PrintHunks(hunks[1..]);
    Associate(header + edits, more, rest);
    Associate(header, edits, more + rest);
    Associate(found, [Coordinates(hunks[0])], AllCoordinates(hunks[1..]));
  }

  predicate SourceLines(h: Hunk) {
    forall e :: e in h.edits ==> SourceLine(e.text)
  }

  lemma OneHunk(lines: seq<string>, index: nat, h: Hunk, more: seq<string>, exact: bool)
    requires FullLines(lines) && index < |lines| && lines[index + 1..] == PrintEdits(h.edits) + more
             && NoBackslash(more) && SourceLines(h)
    ensures var header := ReadHeader(HunkHeader(h));
            && HeaderAccepted(header, exact)
            && var c := ReadBody(lines, Start(index + 1, header.value), exact);
            && c.Some? && c.value.index == index + 1 + |PrintEdits(h.edits)|
            && (exact ==> HunkOf(header.value, c.value) == Coordinates(h))
  {
    hide ReadHeader, HunkHeader, ReadBody, FullLines, OldText, NewText, OldCount, NewCount, PrintEdits, SourceLine;
    HeaderRoundTrip(h);
    BodyRoundTrip(lines, Start(index + 1, ReadHeader(HunkHeader(h)).value), h.edits, more, exact);
    assert "" + OldText(h.edits) == OldText(h.edits) && "" + NewText(h.edits) == NewText(h.edits);
  }

  function Sections(files: seq<FileDiff>): seq<(string, string)> {
    if files == [] then [] else [(files[0].name, Concat(PrintFile(files[0])))] + Sections(files[1..])
  }

  function HunksOf(files: seq<FileDiff>, found: map<string, seq<ParsedHunk>>): map<string, seq<ParsedHunk>> {
    if files == [] then found else HunksOf(files[1..], found[files[0].name := AllCoordinates(files[0].hunks)])
  }

  /** A recorded diff: printable files with distinct names. */
  predicate Recordable(files: seq<FileDiff>) {
    && (forall f :: f in files ==> Printable(f))
    && forall i, j :: 0 <= i < j < |files| ==> files[i].name != files[j].name
  }

  lemma PathRoundTrip(lines: seq<string>, index: nat, f: FileDiff)
    requires FullLines(lines) && index + 1 < |lines| && Printable(f)
    requires lines[index] == PrintFile(f)[0] && lines[index + 1] == PrintFile(f)[1]
    ensures FileHeader(lines, index) && HeaderPath(lines, index) == f.name && ExactHeader(lines, index, f.name)
  {
    hide PrintHunks, SourceLines, FullLines, NoBreak;
    var line := if f.after then lines[index + 1] else lines[index];
    assert f.after ==> lines[index + 1][4] == 'b' && "+++ /dev/null\n"[4] == '/';
    assert line[4..|line| - 1] == (if f.after then "b/" else "a/") + f.name;
  }

  /** Files still to be read: recordable, under names not seen yet. */
  ghost predicate Unseen(files: seq<FileDiff>, p: Parsed) {
    Recordable(files) && forall f :: f in files ==> f.name !in p.hunks
  }

  lemma UnseenTail(files: seq<FileDiff>, p: Parsed, sections: seq<(string, string)>, hunks: seq<ParsedHunk>)
    requires files != [] && Unseen(files, p)
    ensures Printable(files[0]) && files[0].name !in p.hunks
    ensures Unseen(files[1..], Parsed(sections, p.hunks[files[0].name := hunks]))
    ensures PrintFiles(files) == PrintFile(files[0]) + PrintFiles(files[1..])
    ensures Sections(files) == [(files[0].name, Concat(PrintFile(files[0])))] + Sections(files[1..])
    ensures hunks == AllCoordinates(files[0].hunks) ==>
              HunksOf(files, p.hunks) == HunksOf(files[1..], p.hunks[files[0].name := hunks])
  {
    hide Printable, PrintFile, Concat, AllCoordinates;
    forall f | f in files[1..] ensures f in files && f.name != files[0].name {
      var i :| 0 <= i < |files[1..]| && files[1..][i] == f;
      assert files[i + 1] == f;
    }
  }

  lemma {:induction false} FilesRoundTrip(lines: seq<string>, index: nat, files: seq<FileDiff>, exact: bool, p: Parsed)
    requires FullLines(lines) && index <= |lines| && lines[index..] == PrintFiles(files) && Unseen(files, p)
    ensures var r := ReadSections(lines, index, exact, p);
            && r.Some? && r.value.sections == p.sections + Sections(files)
            && (exact ==> r.value.hunks == HunksOf(files, p.hunks))
    decreases |files|
  {
    hide PrintFile, FullLines, Printable, Concat, AllCoordinates, Unseen, AtFileHeader, ReadHunks, ReadSections,
         Sections, HunksOf,
         PrintFiles;
    if files == [] {
      NoFiles(lines, index, exact, p);
    } else {
      var f, rest := files[0], PrintFiles(files[1..]);
      UnseenTail(files, p, [], []);
      Continues(lines, index, PrintFile(f), rest);
      NextHeader(files[1..]);
      FileStep(lines, index, f, rest, exact, p);
      var p' := AfterFile(lines, index, f, exact, p);
      UnseenTail(files, p, p'.sections, p'.hunks[f.name]);
      FilesRoundTrip(lines, index + |PrintFile(f)|, files[1..], exact, p');
      Associate(p.sections, [(f.name, Concat(PrintFile(f)))], Sections(files[1..]));
    }
  }

  lemma NoFiles(lines: seq<string>, index: nat, exact: bool, p: Parsed)
    requires FullLines(lines) && index <= |lines| && lines[index..] == PrintFiles([])
    ensures ReadSections(lines, index, exact, p) == Some(p) && p.sections + Sections([]) == p.sections
            && HunksOf([], p.hunks) == p.hunks
  {
    hide FullLines, FileHeader, HeaderPath, ExactHeader, ReadHunks;
    assert |lines[index..]| == 0;
  }

  /** The parser's result after one printed file. */
  function AfterFile(lines: seq<string>, index: nat, f: FileDiff, exact: bool, p: Parsed): Parsed
    requires FullLines(lines) && index + 2 <= |lines| && ReadHunks(lines, index + 2, exact, []).Some?
  {
    Parsed(p.sections + [(f.name, Concat(PrintFile(f)))],
           p.hunks[f.name := ReadHunks(lines, index + 2, exact, []).value.1])
  }

  lemma FileStep(lines: seq<string>, index: nat, f: FileDiff, rest: seq<string>, exact: bool, p: Parsed)
    requires FullLines(lines) && index <= |lines| && lines[index..] == PrintFile(f) + rest && Printable(f)
             && AtFileHeader(rest)
    requires index + |PrintFile(f)| <= |lines| && lines[index..index + |PrintFile(f)|] == PrintFile(f)
             && f.name !in p.hunks
    ensures index + 2 <= |lines| && ReadHunks(lines, index + 2, exact, []).Some?
    ensures exact ==> ReadHunks(lines, index + 2, exact, []).value.1 == AllCoordinates(f.hunks)
    ensures ReadSections(lines, index, exact, p) == ReadSections(lines, index + |PrintFile(f)|, exact,
                                                                 AfterFile(lines, index, f, exact, p))
  {
    hide HeaderPath, ExactHeader, PrintFile, FullLines, Printable, ReadHunks, Concat, AllCoordinates, AtFileHeader;
    OneFile(lines, index, f, rest, exact);
  }

  lemma OneFile(lines: seq<string>, index: nat, f: FileDiff, rest: seq<string>, exact: bool)
    requires FullLines(lines) && index <= |lines| && lines[index..] == PrintFile(f) + rest && Printable(f)
             && AtFileHeader(rest)
    ensures FileHeader(lines, index) && HeaderPath(lines, index) == f.name && ExactHeader(lines, index, f.name)
    ensures var r := ReadHunks(lines, index + 2, exact, []);
            && r.Some? && r.value.0 == index + |PrintFile(f)| && r.value.0 > index + 2
            && (exact ==> r.value.1 == AllCoordinates(f.hunks))
  {
    hide HeaderPath, ExactHeader, FileHeader, FullLines, ReadHunks, SourceLines, AtFileHeader, PrintHunks;
    Continues(lines, index, PrintFile(f), rest);
    PathRoundTrip(lines, index, f);
    assert lines[index..] == PrintFile(f)[..2] + (PrintHunks(f.hunks) + rest);
    Continues(lines, index, PrintFile(f)[..2], PrintHunks(f.hunks) + rest);
    HunksRoundTrip(lines, index + 2, f.hunks, rest, exact, []);
    HunksPrinted(f.hunks);
    assert [] + AllCoordinates(f.hunks) == AllCoordinates(f.hunks);
  }

  lemma NextHeader(files: seq<FileDiff>)
    ensures AtFileHeader(PrintFiles(files))
  {
    if files != [] {
      var line := PrintFile(files[0])[0];
      assert PrintFiles(files)[0] == line && line[..4] == "--- ";
    }
  }

  lemma HunksPrinted(hunks: seq<Hunk>)
    requires hunks != []
    ensures |PrintHunks(hunks)| > 0
  {
  }

  lemma EditFull(e: Edit)
    requires SourceLine(e.text)
    ensures FullLines(PrintEdit(e))
  {
    var line := [Marker(e.tag)] + e.text;
    if Terminated(e.text) {
      assert FullLine(line);
    } else {
      assert NoBreak(line);
      LineOf(line);
      assert FullLine(NO_NEWLINE);
    }
  }

  lemma {:induction false} EditsFull(edits: seq<Edit>)
    requires forall e :: e in edits ==> SourceLine(e.text)
    ensures FullLines(PrintEdits(edits))
  {
    hide FullLine, SourceLine, PrintEdit;
    if edits != [] {
      EditFull(edits[0]);
      EditsFull(edits[1..]);
      FullLinesJoin(PrintEdit(edits[0]), PrintEdits(edits[1..]));
    }
  }

  lemma HeaderFull(h: Hunk)
    ensures FullLines([HunkHeader(h)])
  {
    hide PrintRange, OldCount, NewCount;
    var a, b := PrintRange(h.oldStart, OldCount(h.edits)), PrintRange(h.newStart, NewCount(h.edits));
    RangePrinted(h.oldStart, OldCount(h.edits));
    RangePrinted(h.newStart, NewCount(h.edits));
    NoBreakJoin("@@ -", a);
    NoBreakJoin("@@ -" + a, " +");
    NoBreakJoin("@@ -" + a + " +", b);
    NoBreakJoin("@@ -" + a + " +" + b, " @@");
    LineOf("@@ -" + a + " +" + b + " @@");
    assert HunkHeader(h) == ("@@ -" + a + " +" + b + " @@") + "\n";
  }

  lemma DecimalPrinted(n: nat)
    ensures NoBreak(Decimal(n))
  {
    forall i | 0 <= i < |Decimal(n)| ensures Decimal(n)[i] != '\n' { assert Decimal(n)[i] in Decimal(n); }
  }

  lemma RangePrinted(start: nat, count: nat)
    ensures NoBreak(PrintRange(start, count))
  {
    hide Decimal;
    DecimalPrinted(start);
    DecimalPrinted(start + 1);
    DecimalPrinted(count);
  }

  lemma {:induction false} HunksFull(hunks: seq<Hunk>)
    requires forall h :: h in hunks ==> SourceLines(h)
    ensures FullLines(PrintHunks(hunks))
  {
    hide FullLine, HunkHeader, PrintEdits, SourceLine;
    if hunks != [] {
      HeaderFull(hunks[0]);
      assert SourceLines(hunks[0]);
      EditsFull(hunks[0].edits);
      HunksFull(hunks[1..]);
      FullLinesJoin([HunkHeader(hunks[0])], PrintEdits(hunks[0].edits));
      FullLinesJoin([HunkHeader(hunks[0])] + PrintEdits(hunks[0].edits), PrintHunks(hunks[1..]));
    }
  }

  lemma FileFull(f: FileDiff)
    requires Printable(f)
    ensures FullLines(PrintFile(f))
  {
    hide PrintHunks, SourceLines;
    HunksFull(f.hunks);
    NoBreakJoin("--- a/", f.name);
    NoBreakJoin("+++ b/", f.name);
    LineOf("--- a/" + f.name);
    LineOf("+++ b/" + f.name);
    assert FullLine("--- /dev/null\n") && FullLine("+++ /dev/null\n");
    assert FullLines(PrintFile(f)[..2]);
    FullLinesJoin(PrintFile(f)[..2], PrintHunks(f.hunks));
  }

  lemma {:induction false} FilesFull(files: seq<FileDiff>)
    requires forall f :: f in files ==> Printable(f)
    ensures FullLines(PrintFiles(files))
  {
    hide FullLine, PrintFile, Printable;
    if files != [] {
      FileFull(files[0]);
      FilesFull(files[1..]);
      FullLinesJoin(PrintFile(files[0]), PrintFiles(files[1..]));
    }
  }

  /** Parsing a recorded diff gives back exactly its paths, sections, hunk coordinates and texts. */
  lemma DiffRoundTrip(files: seq<FileDiff>, exact: bool)
    requires Recordable(files) && files != []
    ensures var r := Parse(Concat(PrintFiles(files)), exact);
            r.Some? && r.value.sections == Sections(files) && (exact ==> r.value.hunks == HunksOf(files, map[]))
  {
    hide PrintFile, Lines, ReadSections;
    FilesFull(files);
    JoinLines(PrintFiles(files));
    PrintedNotEmpty(files);
    assert PrintFiles(files)[0..] == PrintFiles(files);
    FilesRoundTrip(PrintFiles(files), 0, files, exact, Parsed([], map[]));
  }

  lemma PrintedNotEmpty(files: seq<FileDiff>)
    requires files != []
    ensures Concat(PrintFiles(files)) != ""
  {
    assert PrintFiles(files)[0] == PrintFile(files[0])[0];
  }

  // ----- the printing loop and its counters ----------------------------------------------------

  /** The lines the differ yields for a file: a last line may still lack its newline. */
  function RawEdits(edits: seq<Edit>): seq<string> {
    if edits == [] then [] else [[Marker(edits[0].tag)] + edits[0].text] + RawEdits(edits[1..])
  }

  function RawHunks(hunks: seq<Hunk>): seq<string> {
    if hunks == [] then [] else [HunkHeader(hunks[0])] + RawEdits(hunks[0].edits) + RawHunks(hunks[1..])
  }

  function RawLines(f: FileDiff): seq<string> {
    PrintFile(f)[..2] + RawHunks(f.hunks)
  }

  function Chunk(line: string): string {
    if Terminated(line) then line else line + "\n" + NO_NEWLINE
  }

  function Chunks(raw: seq<string>): string {
    if raw == [] then "" else Chunk(raw[0]) + Chunks(raw[1..])
  }

  /** A line counts as added or removed by its sign, unless it looks like a file header. */
  predicate Counted(line: string, sign: char) {
    StartsWith(line, [sign]) && !StartsWith(line, [sign, sign, sign])
  }

  function Count(raw: seq<string>, sign: char): nat {
    if raw == [] then 0 else (if Counted(raw[0], sign) then 1 else 0) + Count(raw[1..], sign)
  }

  method Unified(raw: seq<string>) returns (text: string, added: nat, removed: nat)
    ensures text == Chunks(raw) && added == Count(raw, '+') && removed == Count(raw, '-')
  {
    hide Chunk, StartsWith;
    assert "+" == ['+'] && "-" == ['-'] && "+++" == ['+', '+', '+'] && "---" == ['-', '-', '-'];
    assert forall line :: StartsWith(line, "+") ==> !StartsWith(line, "-") by { FirstDiffers(); }
    text, added, removed := "", 0, 0;
    var i := 0;
    assert raw[0..] == raw;
    while i < |raw|
      invariant 0 <= i <= |raw|
      invariant text + Chunks(raw[i..]) == Chunks(raw)
      invariant added + Count(raw[i..], '+') == Count(raw, '+') && removed + Count(raw[i..], '-') == Count(raw, '-')
    {
      assert raw[i..][1..] == raw[i + 1..];
      if StartsWith(raw[i], "+") && !StartsWith(raw[i], "+++") {
        added := added + 1;
      } else if StartsWith(raw[i], "-") && !StartsWith(raw[i], "---") {
        removed := removed + 1;
      }
      assert (text + Chunk(raw[i])) + Chunks(raw[i + 1..]) == text + Chunks(raw[i..]);
      text := text + Chunk(raw[i]);
      i := i + 1;
    }
  }

  lemma FirstDiffers()
    ensures forall line :: StartsWith(line, "+") ==> !StartsWith(line, "-")
  {
    forall line | StartsWith(line, "+") ensures !StartsWith(line, "-") { assert line[..1][0] == '+'; }
  }

  lemma {:induction false} ChunksAppend(a: seq<string>, b: seq<string>)
    ensures Chunks(a + b) == Chunks(a) + Chunks(b)
  {
    hide Chunk;
    if a == [] {
      assert a + b == b;
    } else {
      assert (a + b)[1..] == a[1..] + b;
      ChunksAppend(a[1..], b);
    }
  }

  lemma {:induction false} ChunksOfFull(lines: seq<string>)
    requires FullLines(lines)
    ensures Chunks(lines) == Concat(lines)
  {
    if lines != [] {
      assert FullLine(lines[0]);
      ChunksOfFull(lines[1..]);
    }
  }

  lemma {:induction false} ChunksOfEdits(edits: seq<Edit>)
    requires forall e :: e in edits ==> SourceLine(e.text)
    ensures Chunks(RawEdits(edits)) == Concat(PrintEdits(edits))
  {
    if edits != [] {
      var e := edits[0];
      ChunksOfEdits(edits[1..]);
      ConcatAppend(PrintEdit(e), PrintEdits(edits[1..]));
      assert Concat([NO_NEWLINE]) == NO_NEWLINE + Concat([]);
      assert Chunk([Marker(e.tag)] + e.text) == Concat(PrintEdit(e));
    }
  }

  lemma {:induction false} ChunksOfHunks(hunks: seq<Hunk>)
    requires forall h :: h in hunks ==> SourceLines(h)
    ensures Chunks(RawHunks(hunks)) == Concat(PrintHunks(hunks))
  {
    hide HunkHeader, Chunk, SourceLine;
    if hunks != [] {
      var h := hunks[0];
      assert SourceLines(h);
      HeaderFull(h);
      ChunksOfFull([HunkHeader(h)]);
      ChunksOfEdits(h.edits);
      ChunksOfHunks(hunks[1..]);
      ChunksAppend([HunkHeader(h)], RawEdits(h.edits));
      ChunksAppend([HunkHeader(h)] + RawEdits(h.edits), RawHunks(hunks[1..]));
      ConcatAppend([HunkHeader(h)], PrintEdits(h.edits));
      ConcatAppend([HunkHeader(h)] + PrintEdits(h.edits), PrintHunks(hunks[1..]));
    }
  }

  /** The printing loop writes the diff that the round trip is about. */
  lemma UnifiedPrintsFile(f: FileDiff)
    requires Printable(f)
    ensures Chunks(RawLines(f)) == Concat(PrintFile(f))
  {
    hide PrintHunks, RawHunks, Chunk, SourceLines;
    FileFull(f);
    hide FullLine;
    var top := PrintFile(f)[..2];
    assert FullLines(top) && PrintFile(f) == top + PrintHunks(f.hunks);
    ChunksOfFull(top);
    ChunksOfHunks(f.hunks);
    ChunksAppend(top, RawHunks(f.hunks));
    ConcatAppend(top, PrintHunks(f.hunks));
  }

  function Tagged(edits: seq<Edit>, tag: Tag): nat {
    if edits == [] then 0 else (if edits[0].tag == tag then 1 else 0) + Tagged(edits[1..], tag)
  }

  function AllTagged(hunks: seq<Hunk>, tag: Tag): nat {
    if hunks == [] then 0 else Tagged(hunks[0].edits, tag) + AllTagged(hunks[1..], tag)
  }

  /** A changed line whose own text repeats its sign twice prints like a file header. */
  predicate LooksLikeHeader(e: Edit, tag: Tag) {
    e.tag == tag && StartsWith(e.text, [Marker(tag), Marker(tag)])
  }

  lemma {:induction false} CountAppend(a: seq<string>, b: seq<string>, sign: char)
    ensures Count(a + b, sign) == Count(a, sign) + Count(b, sign)
  {
    hide Counted;
    if a == [] {
      assert a + b == b;
    } else {
      assert (a + b)[1..] == a[1..] + b;
      CountAppend(a[1..], b, sign);
    }
  }

  lemma CountedEdit(e: Edit, tag: Tag)
    requires !tag.Keep?
    ensures Counted([Marker(e.tag)] + e.text, Marker(tag)) <==> e.tag == tag && !LooksLikeHeader(e, tag)
    ensures LooksLikeHeader(e, tag) ==> e.tag == tag
  {
    var line, m := [Marker(e.tag)] + e.text, Marker(tag);
    if |line| >= 3 { assert line[..3] == [line[0]] + e.text[..2]; }
    assert line[..1] == [line[0]];
  }

  lemma {:induction false} CountEdits(edits: seq<Edit>, tag: Tag)
    requires !tag.Keep?
    ensures Count(RawEdits(edits), Marker(tag)) <= Tagged(edits, tag)
    ensures Count(RawEdits(edits), Marker(tag)) == Tagged(edits, tag) <==> forall e :: e in edits ==>
              !LooksLikeHeader(e, tag)
  {
    hide Counted, LooksLikeHeader;
    if edits != [] {
      CountedEdit(edits[0], tag);
      CountEdits(edits[1..], tag);
      assert forall e :: e in edits <==> e == edits[0] || e in edits[1..];
    }
  }

  lemma HeaderNotCounted(h: Hunk, sign: char)
    requires sign == '+' || sign == '-'
    ensures Count([HunkHeader(h)], sign) == 0
  {
    hide PrintRange;
    assert HunkHeader(h)[0] == '@';
  }

  lemma {:induction false} CountHunks(hunks: seq<Hunk>, tag: Tag)
    requires !tag.Keep?
    ensures Count(RawHunks(hunks), Marker(tag)) <= AllTagged(hunks, tag)
    ensures Count(RawHunks(hunks), Marker(tag)) == AllTagged(hunks, tag)
            <==> forall h, e :: h in hunks && e in h.edits ==> !LooksLikeHeader(e, tag)
  {
    hide Counted, LooksLikeHeader, HunkHeader, RawEdits, Tagged;
    if hunks != [] {
      var h := hunks[0];
      HeaderNotCounted(h, Marker(tag));
      CountEdits(h.edits, tag);
      CountHunks(hunks[1..], tag);
      CountAppend([HunkHeader(h)], RawEdits(h.edits), Marker(tag));
      CountAppend([HunkHeader(h)] + RawEdits(h.edits), RawHunks(hunks[1..]), Marker(tag));
      assert forall g :: g in hunks <==> g == h || g in hunks[1..];
    }
  }

  /** The recorded counts are never too high, and right exactly when no changed line looks like a file header. */
  lemma CountsExactly(f: FileDiff, tag: Tag)
    requires !tag.Keep?
    ensures Count(RawLines(f), Marker(tag)) <= AllTagged(f.hunks, tag)
    ensures Count(RawLines(f), Marker(tag)) == AllTagged(f.hunks, tag)
            <==> forall h, e :: h in f.hunks && e in h.edits ==> !LooksLikeHeader(e, tag)
  {
    hide PrintHunks, LooksLikeHeader, RawHunks, AllTagged;
    CountHunks(f.hunks, tag);
    CountAppend(PrintFile(f)[..2], RawHunks(f.hunks), Marker(tag));
    FileHeaderNotCounted(f, Marker(tag));
  }

  lemma FileHeaderNotCounted(f: FileDiff, sign: char)
    requires sign == '+' || sign == '-'
    ensures Count(PrintFile(f)[..2], sign) == 0
  {
    hide PrintHunks;
    var a, b := PrintFile(f)[0], PrintFile(f)[1];
    assert a[..3] == ['-', '-', '-'] && b[..3] == ['+', '+', '+'] && a[..1] == ['-'] && b[..1] == ['+'];
    assert !Counted(a, sign) && !Counted(b, sign);
    var none: seq<string> := [];
    assert PrintFile(f)[..2] == [a, b] && [a, b][1..] == [b] && [b][1..] == none;
    assert Count([b], sign) == 0;
  }

  /** A one-line file whose only line `++` was added is recorded as having nothing added. */
  lemma AddedLineMissed()
    ensures var f := FileDiff("f", false, true, [Hunk(0, 0, [Edit(Add, "++\n")])]);
            Printable(f) && AllTagged(f.hunks, Add) == 1 && Count(RawLines(f), '+') == 0
  {
    var e := Edit(Add, "++\n");
    var f := FileDiff("f", false, true, [Hunk(0, 0, [e])]);
    assert e in f.hunks[0].edits && LooksLikeHeader(e, Add);
    CountsExactly(f, Add);
    assert f.hunks[0].edits[1..] == [] && f.hunks[1..] == [];
  }
}
