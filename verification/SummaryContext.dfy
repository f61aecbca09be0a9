/** Replacing the hunk texts of a row's postimage contexts by a reference to the row's own inline diff. */
module SummaryContext {
  import opened Records
  import opened Text
  import opened Diff
  import opened Summary
  import opened SummaryEncoding

  type Hasher = string -> string
  type HunkMap = map<string, seq<ParsedHunk>>

  const CHANGES_SCHEMA := Str("nokiy_member_changes_v1")
  const DELTA_V1 := Str("nokiy_source_postimage_delta_v1")
  const DELTA_V2 := Str("nokiy_source_postimage_delta_v2")
  const REFERENCE := Str("changes.diff")
  const HEX := "0123456789abcdefABCDEF"

  /** A field, or null when it is missing. */
  function Field(row: Row, k: Key): Json { if k in row then row[k] else Null }

  /** Truth of a JSON value. */
  predicate Truthy(j: Json) {
    match j
    case Null => false
    case Bool(flag) => flag
    case Num(n) => n != 0
    case Str(text) => text != ""
    case Arr(items) => items != []
    case Obj(fields) => fields != map[]
  }

  function Utf8Length(text: string): nat {
    if text == "" then 0
    else
      var c := text[0] as int;
      (if c < 0x80 then 1 else if c < 0x800 then 2 else if c < 0x10000 then 3 else 4) + Utf8Length(text[1..])
  }

  // ----- the inline diff of a row --------------------------------------------------------------

  predicate NamedFile(f: Json) { f.Obj? && Field(f.fields, PathField).Str? }

  function PathOf(f: Json): string
    requires NamedFile(f)
  {
    f.fields[PathField].text
  }

  /** The recorded changes are complete, and the inline diff is the recorded diff of text files. */
  predicate BoundChanges(sha: Hasher, c: Row) {
    && Field(c, SchemaVersion) == CHANGES_SCHEMA && Field(c, StatusField) == Str("COMPLETE")
    && Field(c, DiffInlineTruncated) == Bool(false) && !Truthy(Field(c, DiffInlineFiles))
    && Field(c, DiffField).Str? && c[DiffField].text != "" && Field(c, Files).Arr? && c[Files].items != []
    && Field(c, DiffBytes) == Num(Utf8Length(c[DiffField].text)) && Field(c, DiffSha256) == Str(sha(c[DiffField].text))
    && forall i :: 0 <= i < |c[Files].items| ==>
         NamedFile(c[Files].items[i]) && !Truthy(Field(c[Files].items[i].fields, BinaryField))
  }

  function Bindings(files: seq<Json>): map<string, Row> {
    if files == [] then map[]
    else
      var rest, f := Bindings(files[..|files| - 1]), files[|files| - 1];
      if NamedFile(f) then rest[PathOf(f) := f.fields] else rest
  }

  /** What the inline diff of a row parses to, whoever recorded it. */
  function InlineHunks(row: Row): Option<HunkMap> {
    if ChangesField in row && row[ChangesField].Obj? && Field(row[ChangesField].fields, DiffField).Str? then
      var parsed := Parse(row[ChangesField].fields[DiffField].text, true);
      if parsed.Some? then Some(parsed.value.hunks) else None
    else None
  }

  function BindingsOf(row: Row): map<string, Row> {
    if ChangesField in row && row[ChangesField].Obj? && Field(row[ChangesField].fields, Files).Arr? then
      Bindings(row[ChangesField].fields[Files].items)
    else map[]
  }

  /** The row's diff is complete and bound, and parses to exactly the recorded files, each recorded once. */
  predicate Referenced(sha: Hasher, row: Row) {
    && ChangesField in row && row[ChangesField].Obj? && BoundChanges(sha, row[ChangesField].fields)
    && InlineHunks(row).Some? && InlineHunks(row).value.Keys == BindingsOf(row).Keys
    && |BindingsOf(row)| == |row[ChangesField].fields[Files].items|
  }

  // ----- one file of a context -----------------------------------------------------------------

  function HunkFields(h: ParsedHunk): Row {
    map[BeforeStart := Num(h.beforeStart), BeforeCount := Num(h.beforeCount), BeforeText := Str(h.beforeText),
        AfterStart := Num(h.afterStart), AfterCount := Num(h.afterCount), AfterText := Str(h.afterText)]
  }

  predicate Matches(j: Json, h: ParsedHunk) {
    j.Obj? && forall k :: k in HunkFields(h) ==> k in j.fields && j.fields[k] == HunkFields(h)[k]
  }

  predicate Digest256(j: Json) { j.Str? && |j.text| == 64 && forall i :: 0 <= i < |j.text| ==> j.text[i] in HEX }

  predicate SameDigest(f: Row, binding: Row, k: Key) { Digest256(Field(f, k)) && Field(f, k) == Field(binding, k) }

  /** The file is bound to the recorded change, and each of its hunks is in the diff, texts and coordinates. */
  predicate Projectable(f: Json, bindings: map<string, Row>, hunks: HunkMap) {
    && NamedFile(f) && PathOf(f) in bindings && PathOf(f) in hunks && hunks[PathOf(f)] != []
    && Field(f.fields, Coverage) == Str("all_text_changes")
    && SameDigest(f.fields, bindings[PathOf(f)], PreimageSha256)
    && SameDigest(f.fields, bindings[PathOf(f)], PostimageSha256)
    && Field(f.fields, Hunks).Arr? && |f.fields[Hunks].items| == |hunks[PathOf(f)]|
    && forall i :: 0 <= i < |hunks[PathOf(f)]| ==> Matches(f.fields[Hunks].items[i], hunks[PathOf(f)][i])
  }

  function StrippedHunk(j: Json): Json {
    if j.Obj? then Obj(j.fields - {BeforeText, AfterText}) else j
  }

  function StrippedHunks(items: seq<Json>): (r: seq<Json>)
    ensures |r| == |items| && forall i :: 0 <= i < |r| ==> r[i] == StrippedHunk(items[i])
  {
    seq(|items|, i requires 0 <= i < |items| => StrippedHunk(items[i]))
  }

  function StrippedFile(f: Json): Json {
    if f.Obj? && Field(f.fields, Hunks).Arr? then Obj(f.fields[Hunks := Arr(StrippedHunks(f.fields[Hunks].items))])
      else f
  }

  function RefilledHunk(j: Json, h: ParsedHunk): Json {
    if j.Obj? then Obj(j.fields[BeforeText := Str(h.beforeText)][AfterText := Str(h.afterText)]) else j
  }

  function RefilledHunks(items: seq<Json>, hunks: seq<ParsedHunk>): (r: seq<Json>)
    requires |hunks| == |items|
    ensures |r| == |items| && forall i :: 0 <= i < |r| ==> r[i] == RefilledHunk(items[i], hunks[i])
  {
    seq(|items|, i requires 0 <= i < |items| => RefilledHunk(items[i], hunks[i]))
  }

  /** Puts back, by path and position, the texts that the diff holds. */
  function RefilledFile(f: Json, hunks: HunkMap): Json {
    if NamedFile(f) && PathOf(f) in hunks && Field(f.fields, Hunks).Arr?
      && |f.fields[Hunks].items| == |hunks[PathOf(f)]| then
      Obj(f.fields[Hunks := Arr(RefilledHunks(f.fields[Hunks].items, hunks[PathOf(f)]))])
    else f
  }

  lemma HunkRefills(j: Json, h: ParsedHunk)
    requires Matches(j, h)
    ensures RefilledHunk(StrippedHunk(j), h) == j
  {
    assert BeforeText in HunkFields(h) && AfterText in HunkFields(h);
  }

  lemma FileRefills(f: Json, bindings: map<string, Row>, hunks: HunkMap)
    requires Projectable(f, bindings, hunks)
    ensures RefilledFile(StrippedFile(f), hunks) == f
  {
    hide Matches, StrippedHunk, RefilledHunk, SameDigest;
    var items, texts := f.fields[Hunks].items, hunks[PathOf(f)];
    var stripped := StrippedFile(f);
    assert NamedFile(stripped) && PathOf(stripped) == PathOf(f) && stripped.fields[Hunks] == Arr(StrippedHunks(items));
    forall i | 0 <= i < |items| ensures RefilledHunk(StrippedHunk(items[i]), texts[i]) == items[i] {
      HunkRefills(items[i], texts[i]);
    }
    assert RefilledHunks(StrippedHunks(items), texts) == items;
    assert stripped.fields[Hunks := Arr(items)] == f.fields;
  }

  // ----- one context ---------------------------------------------------------------------------

  function StrippedFiles(files: seq<Json>): (r: seq<Json>)
    ensures |r| == |files| && forall i :: 0 <= i < |r| ==> r[i] == StrippedFile(files[i])
  {
    seq(|files|, i requires 0 <= i < |files| => StrippedFile(files[i]))
  }

  function RefilledFiles(files: seq<Json>, hunks: HunkMap): (r: seq<Json>)
    ensures |r| == |files| && forall i :: 0 <= i < |r| ==> r[i] == RefilledFile(files[i], hunks)
  {
    seq(|files|, i requires 0 <= i < |files| => RefilledFile(files[i], hunks))
  }

  predicate Referable(c: Json, bindings: map<string, Row>, hunks: HunkMap) {
    && c.Obj? && Field(c.fields, SchemaVersion) in {DELTA_V1, DELTA_V2} && HunkTextReference !in c.fields
    && Field(c.fields, Files).Arr? && c.fields[Files].items != []
    && forall i :: 0 <= i < |c.fields[Files].items| ==> Projectable(c.fields[Files].items[i], bindings, hunks)
  }

  /** The context with a reference to the inline diff in place of its hunk texts. */
  function Replacement(c: Json): Json {
    if c.Obj? && Field(c.fields, Files).Arr? then
      Obj(c.fields[Files := Arr(StrippedFiles(c.fields[Files].items))][HunkTextReference := REFERENCE])
    else c
  }

  function RestoredContext(c: Json, hunks: HunkMap): Json {
    if c.Obj? && HunkTextReference in c.fields && Field(c.fields, Files).Arr? then
      Obj((c.fields - {HunkTextReference})[Files := Arr(RefilledFiles(c.fields[Files].items, hunks))])
    else c
  }

  /** A context is replaced when every hunk is in the diff and the replacement encodes shorter. */
  ghost predicate Deduplicable(c: Json, bindings: map<string, Row>, hunks: HunkMap) {
    Referable(c, bindings, hunks) && EncodedSize(Replacement(c)) < EncodedSize(c)
  }

  lemma ReplacementRestores(c: Json, bindings: map<string, Row>, hunks: HunkMap)
    requires Referable(c, bindings, hunks)
    ensures RestoredContext(Replacement(c), hunks) == c
  {
    hide Projectable, StrippedFile, RefilledFile;
    var files := c.fields[Files].items;
    forall i | 0 <= i < |files| ensures RefilledFile(StrippedFile(files[i]), hunks) == files[i] {
      FileRefills(files[i], bindings, hunks);
    }
    assert RefilledFiles(StrippedFiles(files), hunks) == files;
    assert (Replacement(c).fields - {HunkTextReference})[Files := Arr(files)] == c.fields;
  }

  // ----- the receipts of a row -----------------------------------------------------------------

  predicate HasReceipts(row: Row) {
    VerifierDelivery in row && row[VerifierDelivery].Obj? && Field(row[VerifierDelivery].fields, Receipts).Arr?
  }

  function ReceiptsOf(row: Row): seq<Json>
    requires HasReceipts(row)
  {
    row[VerifierDelivery].fields[Receipts].items
  }

  function WithReceipts(row: Row, receipts: seq<Json>): Row
    requires HasReceipts(row)
  {
    row[VerifierDelivery := Obj(row[VerifierDelivery].fields[Receipts := Arr(receipts)])]
  }

  predicate Carries(receipt: Json) { receipt.Obj? && SourcePostimageContext in receipt.fields }

  function WithContext(receipt: Json, c: Json): Json
    requires Carries(receipt)
  {
    Obj(receipt.fields[SourcePostimageContext := c])
  }

  ghost function DeduplicatedReceipt(receipt: Json, bindings: map<string, Row>, hunks: HunkMap): Json {
    if Carries(receipt) && Deduplicable(receipt.fields[SourcePostimageContext], bindings, hunks) then
      WithContext(receipt, Replacement(receipt.fields[SourcePostimageContext]))
    else receipt
  }

  ghost function DeduplicatedReceipts(receipts: seq<Json>, bindings: map<string, Row>, hunks: HunkMap): (r: seq<Json>)
    ensures |r| == |receipts| && forall i :: 0 <= i < |r| ==> r[i] == DeduplicatedReceipt(receipts[i], bindings, hunks)
  {
    seq(|receipts|, i requires 0 <= i < |receipts| => DeduplicatedReceipt(receipts[i], bindings, hunks))
  }

  /** The row with every deduplicable context replaced. */
  ghost function Deduplicated(sha: Hasher, row: Row): Row {
    if HasReceipts(row) && Referenced(sha, row) then
      WithReceipts(row, DeduplicatedReceipts(ReceiptsOf(row), BindingsOf(row), InlineHunks(row).value))
    else row
  }

  function RestoredReceipt(receipt: Json, hunks: HunkMap): Json {
    if Carries(receipt) then WithContext(receipt, RestoredContext(receipt.fields[SourcePostimageContext], hunks))
      else receipt
  }

  function RestoredReceipts(receipts: seq<Json>, hunks: HunkMap): (r: seq<Json>)
    ensures |r| == |receipts| && forall i :: 0 <= i < |r| ==> r[i] == RestoredReceipt(receipts[i], hunks)
  {
    seq(|receipts|, i requires 0 <= i < |receipts| => RestoredReceipt(receipts[i], hunks))
  }

  /** Reads a row back: references are filled in from the inline diff of the same row. */
  function Restored(row: Row): Row {
    if HasReceipts(row) && InlineHunks(row).Some? then
      WithReceipts(row, RestoredReceipts(ReceiptsOf(row), InlineHunks(row).value))
    else row
  }

  /** No context of the row is a reference already. */
  predicate Unreferenced(row: Row) {
    HasReceipts(row) ==> forall i :: 0 <= i < |ReceiptsOf(row)| ==> PlainReceipt(ReceiptsOf(row)[i])
  }

  predicate PlainReceipt(receipt: Json) {
    Carries(receipt) && receipt.fields[SourcePostimageContext].Obj? ==>
      HunkTextReference !in receipt.fields[SourcePostimageContext].fields
  }

  lemma ReceiptRestores(receipt: Json, bindings: map<string, Row>, hunks: HunkMap)
    ensures PlainReceipt(receipt) ==> RestoredReceipt(DeduplicatedReceipt(receipt, bindings, hunks), hunks) == receipt
    ensures PlainReceipt(receipt) ==> RestoredReceipt(receipt, hunks) == receipt
    ensures EncodedSize(DeduplicatedReceipt(receipt, bindings, hunks)) <= EncodedSize(receipt)
  {
    hide EncodedSize, Referable, Replacement;
    if Carries(receipt) {
      var c := receipt.fields[SourcePostimageContext];
      assert receipt.fields[SourcePostimageContext := c] == receipt.fields;
      if Deduplicable(c, bindings, hunks) {
        ReplacementRestores(c, bindings, hunks);
        FieldSet(receipt.fields, SourcePostimageContext, Replacement(c));
        assert receipt.fields[SourcePostimageContext := Replacement(c)][SourcePostimageContext := c] == receipt.fields;
      }
    }
  }

  /** Deduplication loses nothing and never lengthens a row: with the inline diff of the same row every replaced context
      reads back to itself. */
  lemma DeduplicatedRestores(sha: Hasher, row: Row)
    ensures Unreferenced(row) ==> Restored(Deduplicated(sha, row)) == row
    ensures EncodedSize(Obj(Deduplicated(sha, row))) <= EncodedSize(Obj(row))
  {
    hide EncodedSize, Parse, Referenced, BindingsOf, InlineHunks, Unreferenced, WithReceipts, DeduplicatedReceipts,
         Restored;
    ReferencedInline(sha, row);
    if HasReceipts(row) && InlineHunks(row).Some? {
      var bindings, hunks := BindingsOf(row), InlineHunks(row).value;
      EachRestores(row, bindings, hunks);
      ReceiptsShrink(row, DeduplicatedReceipts(ReceiptsOf(row), bindings, hunks));
      if Unreferenced(row) {
        ReadBack(row, ReceiptsOf(row), hunks);
        ReadBack(row, DeduplicatedReceipts(ReceiptsOf(row), bindings, hunks), hunks);
        SameReceipts(row);
      }
    } else {
      NothingRestored(row);
    }
  }

  lemma NothingRestored(row: Row)
    requires !HasReceipts(row) || InlineHunks(row).None?
    ensures Restored(row) == row
  {
    hide InlineHunks;
  }

  lemma SameReceipts(row: Row)
    requires HasReceipts(row)
    ensures WithReceipts(row, ReceiptsOf(row)) == row
  {
    var d := row[VerifierDelivery].fields;
    assert d[Receipts := Arr(ReceiptsOf(row))] == d;
  }

  lemma EachRestores(row: Row, bindings: map<string, Row>, hunks: HunkMap)
    requires HasReceipts(row)
    ensures var receipts := ReceiptsOf(row);
            var shorter := DeduplicatedReceipts(receipts, bindings, hunks);
            forall i :: 0 <= i < |receipts| ==>
              && EncodedSize(shorter[i]) <= EncodedSize(receipts[i])
              && (Unreferenced(row) ==> RestoredReceipt(shorter[i], hunks) == receipts[i]
                                        && RestoredReceipt(receipts[i], hunks) == receipts[i])
  {
    hide EncodedSize, DeduplicatedReceipt, RestoredReceipt, PlainReceipt;
    var receipts := ReceiptsOf(row);
    forall i | 0 <= i < |receipts|
      ensures var short := DeduplicatedReceipt(receipts[i], bindings, hunks);
              && EncodedSize(short) <= EncodedSize(receipts[i])
              && (PlainReceipt(receipts[i]) ==> RestoredReceipt(short, hunks) == receipts[i]
                                                && RestoredReceipt(receipts[i], hunks) == receipts[i])
    {
      ReceiptRestores(receipts[i], bindings, hunks);
    }
  }

  /** A recorded change of this path with these digests. */
  ghost predicate RecordedChange(changes: Row, path: string, before: Json, after: Json) {
    && Field(changes, Files).Arr?
    && exists j :: && 0 <= j < |changes[Files].items| && NamedFile(changes[Files].items[j])
                   && changes[Files].items[j].fields[PathField] == Str(path)
                   && Field(changes[Files].items[j].fields, PreimageSha256) == before
                   && Field(changes[Files].items[j].fields, PostimageSha256) == after
  }

  /** A context is only replaced against a complete diff that has the recorded digest and size, and each of its files is
      the recorded change of that path. */
  lemma ReplacedIsRecorded(sha: Hasher, row: Row, i: nat)
    requires HasReceipts(row) && i < |ReceiptsOf(row)|
    requires HasReceipts(Deduplicated(sha, row)) && i < |ReceiptsOf(Deduplicated(sha, row))|
    requires ReceiptsOf(Deduplicated(sha, row))[i] != ReceiptsOf(row)[i]
    ensures ChangesField in row && row[ChangesField].Obj? && Carries(ReceiptsOf(row)[i])
    ensures var changes, c := row[ChangesField].fields, ReceiptsOf(row)[i].fields[SourcePostimageContext];
            && Field(changes, StatusField) == Str("COMPLETE") && Field(changes, DiffInlineTruncated) == Bool(false)
            && Field(changes, DiffField).Str? && Field(changes, DiffSha256) == Str(sha(changes[DiffField].text))
            && Field(changes, DiffBytes) == Num(Utf8Length(changes[DiffField].text))
            && c.Obj? && HunkTextReference !in c.fields && Field(c.fields, Files).Arr?
            && forall k :: 0 <= k < |c.fields[Files].items| ==>
                 var f := c.fields[Files].items[k];
                 && NamedFile(f) && Field(f.fields, Coverage) == Str("all_text_changes")
                 && RecordedChange(changes, f.fields[PathField].text, Field(f.fields, PreimageSha256),
                                   Field(f.fields, PostimageSha256))
  {
    hide EncodedSize, Parse, Bindings, RecordedChange, Replacement, Projectable;
    var bindings, hunks := BindingsOf(row), InlineHunks(row).value;
    var c := ReceiptsOf(row)[i].fields[SourcePostimageContext];
    assert Referable(c, bindings, hunks);
    forall k | 0 <= k < |c.fields[Files].items|
      ensures var f := c.fields[Files].items[k];
              && NamedFile(f) && Field(f.fields, Coverage) == Str("all_text_changes")
              && RecordedChange(row[ChangesField].fields, f.fields[PathField].text, Field(f.fields, PreimageSha256),
                                Field(f.fields, PostimageSha256))
    {
      ProjectableRecorded(row, c.fields[Files].items[k], hunks);
    }
  }

  lemma ProjectableRecorded(row: Row, f: Json, hunks: HunkMap)
    requires ChangesField in row && row[ChangesField].Obj? && Projectable(f, BindingsOf(row), hunks)
    ensures NamedFile(f) && Field(f.fields, Coverage) == Str("all_text_changes")
    ensures RecordedChange(row[ChangesField].fields, f.fields[PathField].text, Field(f.fields, PreimageSha256),
                           Field(f.fields, PostimageSha256))
  {
    hide Bindings, Matches;
    BindingRecorded(row[ChangesField].fields[Files].items, PathOf(f));
  }

  lemma {:induction false} BindingRecorded(files: seq<Json>, path: string)
    requires path in Bindings(files)
    ensures exists j :: && 0 <= j < |files| && NamedFile(files[j]) && files[j].fields[PathField] == Str(path)
                        && files[j].fields == Bindings(files)[path]
    decreases |files|
  {
    var n := |files| - 1;
    var f := files[n];
    if NamedFile(f) && PathOf(f) == path {
      assert files[n].fields == Bindings(files)[path];
    } else {
      BindingRecorded(files[..n], path);
      var j :| 0 <= j < n && NamedFile(files[..n][j]) && files[..n][j].fields[PathField] == Str(path)
               && files[..n][j].fields == Bindings(files[..n])[path];
      assert files[j] == files[..n][j];
    }
  }

  /** Only the delivery of the row changes. */
  lemma DeduplicatedElsewhere(sha: Hasher, row: Row, k: Key)
    requires k != VerifierDelivery
    ensures k in Deduplicated(sha, row) <==> k in row
    ensures k in row ==> Deduplicated(sha, row)[k] == row[k]
  {
    hide Referenced, BindingsOf, InlineHunks, DeduplicatedReceipts;
  }

  lemma ReadBack(row: Row, receipts: seq<Json>, hunks: HunkMap)
    requires HasReceipts(row) && InlineHunks(row) == Some(hunks)
    requires |receipts| == |ReceiptsOf(row)|
    ensures (forall i :: 0 <= i < |receipts| ==> RestoredReceipt(receipts[i], hunks) == ReceiptsOf(row)[i]) ==>
              Restored(WithReceipts(row, receipts)) == row
  {
    hide Parse, RestoredReceipt;
    var changed, d := WithReceipts(row, receipts), row[VerifierDelivery].fields;
    assert HasReceipts(changed) && ReceiptsOf(changed) == receipts && InlineHunks(changed) == InlineHunks(row);
    if forall i :: 0 <= i < |receipts| ==> RestoredReceipt(receipts[i], hunks) == ReceiptsOf(row)[i] {
      assert RestoredReceipts(receipts, hunks) == ReceiptsOf(row);
      assert d[Receipts := Arr(receipts)][Receipts := Arr(ReceiptsOf(row))] == d;
      assert Restored(changed) == row;
    }
  }

  lemma ReferencedInline(sha: Hasher, row: Row)
    ensures Referenced(sha, row) ==> InlineHunks(row).Some?
  {
    hide Parse, Bindings, BoundChanges;
  }

  lemma ReceiptsShrink(row: Row, receipts: seq<Json>)
    requires HasReceipts(row) && |receipts| == |ReceiptsOf(row)|
    requires forall i :: 0 <= i < |receipts| ==> EncodedSize(receipts[i]) <= EncodedSize(ReceiptsOf(row)[i])
    ensures EncodedSize(Obj(WithReceipts(row, receipts))) <= EncodedSize(Obj(row))
  {
    hide EncodedSize;
    var d := row[VerifierDelivery].fields;
    assert d[Receipts] == Arr(ReceiptsOf(row)) && row[VerifierDelivery] == Obj(d);
    ItemsShrink(receipts, ReceiptsOf(row));
    FieldSet(d, Receipts, Arr(receipts));
    FieldSet(row, VerifierDelivery, Obj(d[Receipts := Arr(receipts)]));
  }

  // ----- the loops -------------------------------------------------------------------------------

  method DeduplicateContexts(sha: Hasher, row: Row) returns (r: Row)
    ensures r == Deduplicated(sha, row)
  {
    hide Parse, BoundChanges, Bindings, EncodedSize, Referable, Replacement;
    if !HasReceipts(row) || ChangesField !in row || !row[ChangesField].Obj?
      || !BoundChanges(sha, row[ChangesField].fields) {
      return row;
    }
    var changes := row[ChangesField].fields;
    BoundFields(sha, changes);
    var parsed := DiffSections(changes[DiffField].text, true);
    var bindings := Bindings(changes[Files].items);
    if |bindings| != |changes[Files].items| || parsed.None? || parsed.value.hunks.Keys != bindings.Keys { return row; }
    var hunks, receipts, done: seq<Json>, i := parsed.value.hunks, ReceiptsOf(row), [], 0;
    assert InlineHunks(row) == Some(hunks) && BindingsOf(row) == bindings && Referenced(sha, row);
    while i < |receipts|
      invariant 0 <= i <= |receipts| && |done| == i
      invariant forall j :: 0 <= j < i ==> done[j] == DeduplicatedReceipt(receipts[j], bindings, hunks)
    {
      var receipt := DeduplicateReceipt(receipts[i], bindings, hunks);
      done := done + [receipt];
      i := i + 1;
    }
    assert done == DeduplicatedReceipts(receipts, bindings, hunks);
    return WithReceipts(row, done);
  }

  lemma BoundFields(sha: Hasher, c: Row)
    requires BoundChanges(sha, c)
    ensures DiffField in c && c[DiffField].Str? && Files in c && c[Files].Arr?
  {
  }

  method DeduplicateReceipt(receipt: Json, bindings: map<string, Row>, hunks: HunkMap) returns (r: Json)
    ensures r == DeduplicatedReceipt(receipt, bindings, hunks)
  {
    hide EncodedSize, Referable, Replacement;
    if !Carries(receipt) { return receipt; }
    var c := receipt.fields[SourcePostimageContext];
    if !Referable(c, bindings, hunks) { return receipt; }
    var before := Measure(c);
    var after := Measure(Replacement(c));
    return if after < before then WithContext(receipt, Replacement(c)) else receipt;
  }
}
