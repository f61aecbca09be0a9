/** Making a summary fit: hunk texts that the inline diff already holds, optional parts, and result texts. */
module SummaryFit {
  import opened Records
  import opened Text
  import opened DiffDelivery
  import opened Summary
  import opened SummaryEncoding
  import opened SummaryContext

  // ----- fitting -----------------------------------------------------------------------------

  /** The two fields of a member row that fitting may still change once the optional parts are gone. */
  datatype TextRow = TextRow(text: Option<string>, truncated: bool)

  function TextSize(text: Option<string>): nat {
    if text.None? then 4 else Cost(text.value) + 2
  }

  function RowSize(row: TextRow): nat {
    TextSize(row.text) + if row.truncated then 4 else 5
  }

  function RowsSize(rows: seq<TextRow>): nat {
    if rows == [] then 0 else RowSize(rows[0]) + RowsSize(rows[1..])
  }

  predicate HasText(row: TextRow) { row.text.Some? && row.text.value != "" }

  /** A row whose text was given up entirely. */
  function Emptied(row: TextRow): TextRow {
    if HasText(row) then TextRow(Some(""), true) else row
  }

  function AllEmptied(rows: seq<TextRow>): (r: seq<TextRow>)
    ensures |r| == |rows|
  {
    seq(|rows|, i requires 0 <= i < |rows| => Emptied(rows[i]))
  }

  /** Unchanged, or cut to a prefix and marked. */
  predicate Shortened(was: TextRow, row: TextRow) {
    row == was || (HasText(was) && row.text.Some? && row.truncated && |row.text.value| < |was.text.value|
                   && StartsWith(was.text.value, row.text.value))
  }

  predicate AllShortened(was: seq<TextRow>, rows: seq<TextRow>) {
    |rows| == |was| && forall i :: 0 <= i < |rows| ==> Shortened(was[i], rows[i])
  }

  function TotalLength(rows: seq<TextRow>): nat {
    if rows == [] then 0 else (if rows[0].text.Some? then |rows[0].text.value| else 0) + TotalLength(rows[1..])
  }

  lemma {:induction false} RowsUpdate(rows: seq<TextRow>, i: nat, row: TextRow)
    requires i < |rows|
    ensures RowsSize(rows[i := row]) == RowsSize(rows) - RowSize(rows[i]) + RowSize(row)
    ensures rows[i].text.Some? && row.text.Some? ==>
              TotalLength(rows[i := row]) == TotalLength(rows) - |rows[i].text.value| + |row.text.value|
    decreases i
  {
    hide RowSize;
    if i == 0 {
      assert rows[0 := row][1..] == rows[1..];
    } else {
      assert rows[i := row][1..] == rows[1..][i - 1 := row];
      RowsUpdate(rows[1..], i - 1, row);
    }
  }

  lemma CostOfPrefix(text: string, k: nat)
    requires k <= |text|
    ensures Cost(text[..k]) <= Cost(text)
  {
    assert text == text[..k] + text[k..];
    CostAppend(text[..k], text[k..]);
  }

  /** No row can be smaller than when its text is given up. */
  lemma {:induction false} EmptiedIsLeast(was: seq<TextRow>, rows: seq<TextRow>)
    requires AllShortened(was, rows)
    ensures RowsSize(AllEmptied(was)) <= RowsSize(rows)
    ensures (forall i :: 0 <= i < |rows| ==> !HasText(rows[i])) ==> RowsSize(AllEmptied(was)) == RowsSize(rows)
  {
    if was != [] {
      assert AllEmptied(was)[1..] == AllEmptied(was[1..]);
      assert Shortened(was[0], rows[0]);
      EmptiedIsLeast(was[1..], rows[1..]);
      if forall i :: 0 <= i < |rows| ==> !HasText(rows[i]) {
        assert forall i :: 0 <= i < |rows[1..]| ==> !HasText(rows[1..][i]);
      }
    }
  }

  /** The first row whose encoded text is largest. */
  method Largest(sizes: seq<nat>) returns (index: nat)
    requires exists i :: 0 <= i < |sizes| && sizes[i] > 0
    ensures index < |sizes| && sizes[index] > 0
    ensures forall i :: 0 <= i < |sizes| ==> sizes[i] <= sizes[index] && (i < index ==> sizes[i] < sizes[index])
  {
    index := 0;
    var i := 1;
    while i < |sizes|
      invariant 0 <= index < |sizes| && index < i
      invariant forall j :: 0 <= j < i && j < |sizes| ==>
                  sizes[j] <= sizes[index] && (j < index ==> sizes[j] < sizes[index])
    {
      if sizes[i] > sizes[index] { index := i; }
      i := i + 1;
    }
  }

  function KnownSize(row: TextRow): nat {
    if HasText(row) then TextSize(row.text) else 0
  }

  /** A text is only cut when it is at least as large as every text that is left whole. */
  predicate LargestFirst(was: seq<TextRow>, rows: seq<TextRow>)
    requires |rows| == |was|
  {
    forall i, j :: 0 <= i < |was| && 0 <= j < |was| && rows[i] != was[i] && rows[j] == was[j] ==>
      KnownSize(was[j]) <= KnownSize(was[i])
  }

  lemma HalvedRow(was: TextRow, row: TextRow)
    requires Shortened(was, row) && HasText(row)
    ensures var half := TextRow(Some(row.text.value[..|row.text.value| / 2]), true);
            && Shortened(was, half) && half != was && KnownSize(row) <= KnownSize(was) && HasText(was)
            && RowSize(half) == RowSize(row) - KnownSize(row) + TextSize(half.text) - (if row.truncated then 0 else 1)
            && |half.text.value| < |row.text.value|
  {
    var text, n := row.text.value, |row.text.value| / 2;
    assert StartsWith(was.text.value, text) by { assert was.text.value[..|was.text.value|] == was.text.value; }
    assert text[..n] == was.text.value[..|text|][..n] == was.text.value[..n];
    CostOfPrefix(was.text.value, |text|);
  }

  lemma LargestFirstNext(was: seq<TextRow>, rows: seq<TextRow>, index: nat, row: TextRow)
    requires |rows| == |was| && index < |was| && LargestFirst(was, rows)
    requires KnownSize(rows[index]) <= KnownSize(was[index]) && row != was[index]
    requires forall i :: 0 <= i < |rows| ==> KnownSize(rows[i]) <= KnownSize(rows[index])
    ensures LargestFirst(was, rows[index := row])
  {
    hide KnownSize;
  }

  /** Halves the largest text until everything fits or no text is left. The running size is the encoded length. */
  method FitTexts(rest: int, was: seq<TextRow>, maxBytes: nat) returns (rows: seq<TextRow>, size: int)
    ensures AllShortened(was, rows) && LargestFirst(was, rows) && size == rest + RowsSize(rows)
    ensures rest + RowsSize(was) <= maxBytes ==> rows == was
    ensures size > maxBytes <==> rest + RowsSize(AllEmptied(was)) > maxBytes
  {
    hide RowsSize, TotalLength, KnownSize, RowSize, HasText, Shortened, TextSize, LargestFirst;
    assert LargestFirst(was, was) && AllShortened(was, was) by { Untouched(was); }
    rows, size := was, rest + RowsSize(was);
    var sizes := seq(|rows|, i requires 0 <= i < |rows| => KnownSize(rows[i]));
    while size > maxBytes && exists i :: 0 <= i < |sizes| && sizes[i] > 0
      invariant AllShortened(was, rows) && LargestFirst(was, rows) && size == rest + RowsSize(rows)
      invariant |sizes| == |rows| && forall i :: 0 <= i < |rows| ==> sizes[i] == KnownSize(rows[i])
      invariant rest + RowsSize(was) <= maxBytes ==> rows == was
      decreases TotalLength(rows)
    {
      var index := Largest(sizes);
      var row := rows[index];
      KnownText(row);
      var replacement := TextRow(Some(row.text.value[..|row.text.value| / 2]), true);
      HalvedRow(was[index], row);
      RowsUpdate(rows, index, replacement);
      LargestFirstNext(was, rows, index, replacement);
      size := size + TextSize(replacement.text) - sizes[index];
      if !row.truncated { size := size - 1; }
      rows := rows[index := replacement];
      sizes := sizes[index := KnownSize(replacement)];
    }
    EmptiedIsLeast(was, rows);
    if size > maxBytes {
      forall i | 0 <= i < |rows| ensures !HasText(rows[i]) { KnownText(rows[i]); }
    }
  }

  lemma Untouched(rows: seq<TextRow>)
    ensures LargestFirst(rows, rows) && AllShortened(rows, rows)
  {
  }

  lemma KnownText(row: TextRow)
    ensures KnownSize(row) > 0 <==> HasText(row)
    ensures HasText(row) ==> row.text.Some? && row.text.value != ""
  {
  }

  // ----- the texts inside a summary ------------------------------------------------------------

  /** The two text fields of a member row, with the flag already a boolean. */
  predicate Texted(row: Row) {
    && ResultText in row && (row[ResultText].Str? || row[ResultText].Null?)
    && ResultTruncated in row && row[ResultTruncated].Bool?
  }

  function TextRowOf(row: Row): TextRow
    requires Texted(row)
  {
    TextRow(if row[ResultText].Str? then Some(row[ResultText].text) else None, row[ResultTruncated].flag)
  }

  function WithText(row: Row, r: TextRow): Row {
    row[ResultText := if r.text.Some? then Str(r.text.value) else Null][ResultTruncated := Bool(r.truncated)]
  }

  predicate AllTexted(rows: seq<Row>) {
    forall i :: 0 <= i < |rows| ==> Texted(rows[i])
  }

  function TextRows(rows: seq<Row>): (r: seq<TextRow>)
    requires AllTexted(rows)
    ensures |r| == |rows| && forall i :: 0 <= i < |r| ==> r[i] == TextRowOf(rows[i])
  {
    seq(|rows|, i requires 0 <= i < |rows| => TextRowOf(rows[i]))
  }

  /** The summary with these texts and flags in its first `n` rows. */
  function WithTextsTo(s: Summary, texts: seq<TextRow>, n: nat): Summary
    requires |texts| == |s.members| && n <= |texts|
  {
    s.(members := seq(|texts|, i requires 0 <= i < |texts| => if i < n then WithText(s.members[i], texts[i])
                      else s.members[i]))
  }

  function WithTexts(s: Summary, texts: seq<TextRow>): Summary
    requires |texts| == |s.members|
  {
    WithTextsTo(s, texts, |texts|)
  }

  lemma WithTextSize(row: Row, r: TextRow)
    requires Texted(row)
    ensures EncodedSize(Obj(WithText(row, r))) == EncodedSize(Obj(row)) - RowSize(TextRowOf(row)) + RowSize(r)
  {
    hide Cost;
    var text := if r.text.Some? then Str(r.text.value) else Null;
    FieldSet(row, ResultText, text);
    FieldSet(row[ResultText := text], ResultTruncated, Bool(r.truncated));
    ScalarSizes(row, r);
  }

  lemma ScalarSizes(row: Row, r: TextRow)
    requires Texted(row)
    ensures EncodedSize(row[ResultText]) + EncodedSize(row[ResultTruncated]) == RowSize(TextRowOf(row))
    ensures EncodedSize(if r.text.Some? then Str(r.text.value) else Null) + EncodedSize(Bool(r.truncated)) == RowSize(r)
  {
    hide Cost;
  }

  lemma {:induction false} RowsSnoc(rows: seq<TextRow>, n: nat)
    requires n < |rows|
    ensures RowsSize(rows[..n + 1]) == RowsSize(rows[..n]) + RowSize(rows[n])
    decreases n
  {
    hide RowSize;
    if n == 0 {
      assert rows[..1][1..] == [] && rows[..0] == [];
    } else {
      RowsSnoc(rows[1..], n - 1);
      assert rows[..n + 1][1..] == rows[1..][..n] && rows[..n][1..] == rows[1..][..n - 1];
    }
  }

  lemma {:induction false} WithTextsToSize(s: Summary, texts: seq<TextRow>, n: nat)
    requires AllTexted(s.members) && |texts| == |s.members| && n <= |texts|
    ensures SummarySize(WithTextsTo(s, texts, n)) - RowsSize(texts[..n]) ==
            SummarySize(s) - RowsSize(TextRows(s.members)[..n])
    decreases n
  {
    hide RowSize, RowsSize, SummarySize, EncodedSize;
    if n == 0 {
      assert WithTextsTo(s, texts, 0) == s by { assert WithTextsTo(s, texts, 0).members == s.members; }
      assert texts[..0] == TextRows(s.members)[..0];
    } else {
      WithTextsToSize(s, texts, n - 1);
      var before, row := WithTextsTo(s, texts, n - 1), WithText(s.members[n - 1], texts[n - 1]);
      assert WithTextsTo(s, texts, n).members == before.members[n - 1 := row];
      RowSet(before, n - 1, row);
      WithTextSize(s.members[n - 1], texts[n - 1]);
      RowsSnoc(texts, n - 1);
      RowsSnoc(TextRows(s.members), n - 1);
    }
  }

  /** Writing texts into a summary changes its encoded length by exactly their difference. */
  lemma WithTextsSize(s: Summary, texts: seq<TextRow>)
    requires AllTexted(s.members) && |texts| == |s.members|
    ensures SummarySize(WithTexts(s, texts)) - RowsSize(texts) == SummarySize(s) - RowsSize(TextRows(s.members))
  {
    hide RowsSize, SummarySize;
    WithTextsToSize(s, texts, |texts|);
    assert texts[..|texts|] == texts && TextRows(s.members)[..|texts|] == TextRows(s.members);
  }

  lemma SameTexts(s: Summary)
    requires AllTexted(s.members)
    ensures WithTexts(s, TextRows(s.members)) == s
  {
    forall i | 0 <= i < |s.members| ensures WithText(s.members[i], TextRowOf(s.members[i])) == s.members[i] {}
    assert WithTexts(s, TextRows(s.members)).members == s.members;
  }

  // ----- optional parts --------------------------------------------------------------------------

  function WithoutField(j: Json, k: Key): Json {
    if j.Obj? then Obj(j.fields - {k}) else j
  }

  function EachWithout(items: seq<Json>, k: Key): (r: seq<Json>)
    ensures |r| == |items| && forall i :: 0 <= i < |r| ==> r[i] == WithoutField(items[i], k)
  {
    seq(|items|, i requires 0 <= i < |items| => WithoutField(items[i], k))
  }

  /** Removes field `k` from every entry of the list under `list`. */
  function ListWithout(j: Json, list: Key, k: Key): Json {
    if j.Obj? && list in j.fields && j.fields[list].Arr? then
      Obj(j.fields[list := Arr(EachWithout(j.fields[list].items, k))]) else j
  }

  function RowsMapped(rows: seq<Row>, f: Row -> Row): (r: seq<Row>)
    ensures |r| == |rows| && forall i :: 0 <= i < |r| ==> r[i] == f(rows[i])
  {
    seq(|rows|, i requires 0 <= i < |rows| => f(rows[i]))
  }

  /** The file texts of the post-batch verifier's outputs. */
  function WithoutVerifierText(s: Summary): Summary {
    if PostBatchVerifier in s.fields && s.fields[PostBatchVerifier].Obj?
      && VerifierOutputs in s.fields[PostBatchVerifier].fields then
      var gate := s.fields[PostBatchVerifier].fields;
      s.(fields := s.fields[PostBatchVerifier :=
                            Obj(gate[VerifierOutputs := ListWithout(gate[VerifierOutputs], Files, TextField)])])
    else s
  }

  /** The final reply and the receipts' postimage contexts of a row. */
  function RowWithoutHandoff(row: Row): Row {
    var rest := row - {TaskStatusFinalReply};
    if VerifierDelivery in rest then rest[VerifierDelivery :=
                                          ListWithout(rest[VerifierDelivery], Receipts, SourcePostimageContext)]
                                            else rest
  }

  function RowWithoutPreview(row: Row): Row { row - {ResultArtifactPreview} }

  function RowWithoutDelivery(row: Row): Row { row - {VerifierDelivery} }

  /** The summary after the first `k` optional parts were given up. */
  function Stage(s: Summary, k: nat): Summary {
    if k == 0 then s
    else if k == 1 then WithoutVerifierText(s)
    else if k == 2 then Stage(s, 1).(members := RowsMapped(Stage(s, 1).members, RowWithoutHandoff))
    else if k == 3 then Stage(s, 2).(members := RowsMapped(Stage(s, 2).members, RowWithoutPreview))
    else Stage(s, 3).(members := RowsMapped(Stage(s, 3).members, RowWithoutDelivery))
  }

  /** What a row still has after the given number of parts were given up. */
  ghost predicate Dropped(row: Row, left: Row, k: nat) {
    && (forall f :: f in left <==> && f in row && (k >= 2 ==> f != TaskStatusFinalReply)
                                   && (k >= 3 ==> f != ResultArtifactPreview) && (k >= 4 ==> f != VerifierDelivery))
    && (forall f :: f in left && f != VerifierDelivery ==> left[f] == row[f])
    && (VerifierDelivery in left ==>
          if k >= 2 then Thinned(row[VerifierDelivery], left[VerifierDelivery], Receipts, SourcePostimageContext)
          else left[VerifierDelivery] == row[VerifierDelivery])
  }

  /** `after` is `before` without field `k` in the entries of the list under `list`. */
  ghost predicate Thinned(before: Json, after: Json, list: Key, k: Key) {
    if before.Obj? && list in before.fields && before.fields[list].Arr? then
      && after.Obj? && after.fields.Keys == before.fields.Keys && after.fields[list].Arr?
      && (forall f :: f in before.fields && f != list ==> after.fields[f] == before.fields[f])
      && |after.fields[list].items| == |before.fields[list].items|
      && forall i :: 0 <= i < |before.fields[list].items| ==>
           var b, a := before.fields[list].items[i], after.fields[list].items[i];
           if b.Obj? then && a.Obj? && k !in a.fields && a.fields.Keys == b.fields.Keys - {k}
                          && forall f :: f in a.fields ==> a.fields[f] == b.fields[f]
           else a == b
    else after == before
  }

  lemma ListThinned(j: Json, list: Key, k: Key)
    ensures Thinned(j, ListWithout(j, list, k), list, k)
  {
  }

  lemma RowDropped(row: Row)
    ensures Dropped(row, row, 0) && Dropped(row, row, 1) && Dropped(row, RowWithoutHandoff(row), 2)
    ensures Dropped(row, RowWithoutPreview(RowWithoutHandoff(row)), 3)
    ensures Dropped(row, RowWithoutDelivery(RowWithoutPreview(RowWithoutHandoff(row))), 4)
  {
    hide ListWithout, Thinned;
    if VerifierDelivery in row { ListThinned(row[VerifierDelivery], Receipts, SourcePostimageContext); }
  }

  /** Giving up parts removes exactly these fields of the rows and, first, the texts of the verifier's output files. */
  lemma StageExactly(s: Summary, k: nat)
    requires k <= 4
    ensures |Stage(s, k).members| == |s.members|
    ensures forall i :: 0 <= i < |s.members| ==> Dropped(s.members[i], Stage(s, k).members[i], k)
    ensures var fields := Stage(s, k).fields;
            && fields.Keys == s.fields.Keys && (forall f :: f in fields && f != PostBatchVerifier ==>
                                                fields[f] == s.fields[f])
            && (PostBatchVerifier in fields ==> if k == 0 then fields[PostBatchVerifier] == s.fields[PostBatchVerifier]
                                                else GateThinned(s.fields[PostBatchVerifier],
                                                                 fields[PostBatchVerifier]))
  {
    hide Dropped, GateThinned, RowWithoutHandoff, RowWithoutPreview, RowWithoutDelivery;
    GateDropped(s);
    StageRows(s);
    hide Stage;
    forall i | 0 <= i < |s.members| ensures Dropped(s.members[i], Stage(s, k).members[i], k) {
      RowDropped(s.members[i]);
    }
  }

  lemma StageRows(s: Summary)
    ensures Stage(s, 0) == s && Stage(s, 1) == WithoutVerifierText(s)
    ensures forall k :: 1 <= k <= 4 ==> Stage(s, k).fields == WithoutVerifierText(s).fields
                                        && |Stage(s, k).members| == |Stage(s, 1).members|
    ensures forall i :: 0 <= i < |Stage(s, 1).members| ==>
              && Stage(s, 2).members[i] == RowWithoutHandoff(Stage(s, 1).members[i])
              && Stage(s, 3).members[i] == RowWithoutPreview(RowWithoutHandoff(Stage(s, 1).members[i]))
              && Stage(s,
                       4).members[i] == RowWithoutDelivery(RowWithoutPreview(RowWithoutHandoff(Stage(s, 1).members[i])))
  {
    hide WithoutVerifierText, RowWithoutHandoff, RowWithoutPreview, RowWithoutDelivery;
    assert Stage(s, 2).members == RowsMapped(Stage(s, 1).members, RowWithoutHandoff);
    assert Stage(s, 3).members == RowsMapped(Stage(s, 2).members, RowWithoutPreview);
    assert Stage(s, 4).members == RowsMapped(Stage(s, 3).members, RowWithoutDelivery);
  }

  /** The gate keeps everything but the texts of its outputs' files. */
  ghost predicate GateThinned(before: Json, after: Json) {
    if before.Obj? && VerifierOutputs in before.fields then
      && after.Obj? && after.fields.Keys == before.fields.Keys
      && (forall f :: f in after.fields && f != VerifierOutputs ==> after.fields[f] == before.fields[f])
      && Thinned(before.fields[VerifierOutputs], after.fields[VerifierOutputs], Files, TextField)
    else after == before
  }

  lemma GateDropped(s: Summary)
    ensures var fields := WithoutVerifierText(s).fields;
            && fields.Keys == s.fields.Keys && (forall f :: f in fields && f != PostBatchVerifier ==>
                                                fields[f] == s.fields[f])
            && (PostBatchVerifier in fields ==> GateThinned(s.fields[PostBatchVerifier], fields[PostBatchVerifier]))
            && WithoutVerifierText(s).members == s.members
  {
    hide Thinned, ListWithout;
    if PostBatchVerifier in s.fields && s.fields[PostBatchVerifier].Obj?
      && VerifierOutputs in s.fields[PostBatchVerifier].fields {
      ListThinned(s.fields[PostBatchVerifier].fields[VerifierOutputs], Files, TextField);
    }
  }

  lemma WithoutShrinks(j: Json, k: Key)
    ensures EncodedSize(WithoutField(j, k)) <= EncodedSize(j)
  {
    hide EncodedSize;
    if j.Obj? { FieldsShrink(j.fields - {k}, j.fields); }
  }

  lemma ListShrinks(j: Json, list: Key, k: Key)
    ensures EncodedSize(ListWithout(j, list, k)) <= EncodedSize(j)
  {
    hide EncodedSize;
    if j.Obj? && list in j.fields && j.fields[list].Arr? {
      var items := j.fields[list].items;
      forall i | 0 <= i < |items| ensures EncodedSize(WithoutField(items[i], k)) <= EncodedSize(items[i]) {
        WithoutShrinks(items[i], k);
      }
      ItemsShrink(EachWithout(items, k), items);
      FieldsShrink(j.fields[list := Arr(EachWithout(items, k))], j.fields);
    }
  }

  lemma HandoffShrinks(row: Row)
    ensures EncodedSize(Obj(RowWithoutHandoff(row))) <= EncodedSize(Obj(row))
    ensures Texted(row) ==> Texted(RowWithoutHandoff(row)) && TextRowOf(RowWithoutHandoff(row)) == TextRowOf(row)
  {
    hide EncodedSize, ListWithout;
    if VerifierDelivery in row { ListShrinks(row[VerifierDelivery], Receipts, SourcePostimageContext); }
    FieldsShrink(RowWithoutHandoff(row), row);
  }

  lemma VerifierTextShrinks(s: Summary)
    ensures SummarySize(WithoutVerifierText(s)) <= SummarySize(s) && WithoutVerifierText(s).members == s.members
  {
    hide EncodedSize, SummarySize, ListWithout;
    if PostBatchVerifier in s.fields && s.fields[PostBatchVerifier].Obj?
      && VerifierOutputs in s.fields[PostBatchVerifier].fields {
      var gate := s.fields[PostBatchVerifier].fields;
      ListShrinks(gate[VerifierOutputs], Files, TextField);
      FieldsShrink(gate[VerifierOutputs := ListWithout(gate[VerifierOutputs], Files, TextField)], gate);
    }
    SummaryShrinks(WithoutVerifierText(s), s);
  }

  lemma MappedShrinks(s: Summary, f: Row -> Row)
    requires forall row :: EncodedSize(Obj(f(row))) <= EncodedSize(Obj(row))
    ensures SummarySize(s.(members := RowsMapped(s.members, f))) <= SummarySize(s)
  {
    hide EncodedSize, SummarySize;
    SummaryShrinks(s.(members := RowsMapped(s.members, f)), s);
  }

  /** Giving up a part never lengthens the summary and never touches the texts. */
  lemma StageShrinks(s: Summary, k: nat)
    requires k < 4
    ensures SummarySize(Stage(s, k + 1)) <= SummarySize(Stage(s, k))
    ensures |Stage(s, k + 1).members| == |Stage(s, k).members|
    ensures AllTexted(Stage(s, k).members) ==>
              AllTexted(Stage(s, k + 1).members) && TextRows(Stage(s, k + 1).members) == TextRows(Stage(s, k).members)
  {
    hide EncodedSize, SummarySize, WithoutVerifierText, RowWithoutHandoff;
    if k == 0 {
      VerifierTextShrinks(s);
    } else if k == 1 {
      forall row ensures EncodedSize(Obj(RowWithoutHandoff(row))) <= EncodedSize(Obj(row))
                 ensures Texted(row) ==> Texted(RowWithoutHandoff(row))
                                         && TextRowOf(RowWithoutHandoff(row)) == TextRowOf(row)
      { HandoffShrinks(row); }
      MappedShrinks(Stage(s, 1), RowWithoutHandoff);
    } else if k == 2 {
      forall row ensures EncodedSize(Obj(RowWithoutPreview(row))) <= EncodedSize(Obj(row)) {
        FieldsShrink(RowWithoutPreview(row), row);
      }
      MappedShrinks(Stage(s, 2), RowWithoutPreview);
    } else {
      forall row ensures EncodedSize(Obj(RowWithoutDelivery(row))) <= EncodedSize(Obj(row)) {
        FieldsShrink(RowWithoutDelivery(row), row);
      }
      MappedShrinks(Stage(s, 3), RowWithoutDelivery);
    }
  }

  lemma {:induction false} StagesKeepTexts(s: Summary, k: nat)
    requires AllTexted(s.members) && k <= 4
    ensures AllTexted(Stage(s, k).members) && TextRows(Stage(s, k).members) == TextRows(s.members)
    ensures forall j :: 0 <= j <= k ==> SummarySize(Stage(s, k)) <= SummarySize(Stage(s, j))
    decreases k
  {
    hide SummarySize;
    if k == 0 {
      assert Stage(s, 0) == s;
    } else {
      StagesKeepTexts(s, k - 1);
      hide Stage;
      StageShrinks(s, k - 1);
    }
  }

  // ----- fitting a summary -------------------------------------------------------------------------

  predicate Fittable(row: Row) {
    ResultText in row && (row[ResultText].Str? || row[ResultText].Null?) && ResultTruncated in row
  }

  function RowNormalised(row: Row): Row {
    if ResultTruncated in row then row[ResultTruncated := Bool(Truthy(row[ResultTruncated]))] else row
  }

  function Normalised(s: Summary): Summary { s.(members := RowsMapped(s.members, RowNormalised)) }

  /** The compact form replaces a large summary exactly when it is shorter. */
  ghost function Chosen(join: Joiner, s: Summary): Summary {
    if SummarySize(s) > 8000 && SummarySize(Compact(join, s)) < SummarySize(s) then Compact(join, s) else s
  }

  /** The rows with truth values as flags and with their contexts deduplicated. */
  ghost function Prepared(sha: Hasher, s: Summary): Summary { s.(members := PreparedRows(sha, s.members)) }

  ghost function PreparedRows(sha: Hasher, rows: seq<Row>): (r: seq<Row>)
    ensures |r| == |rows| && forall i :: 0 <= i < |r| ==> r[i] == Deduplicated(sha, RowNormalised(rows[i]))
  {
    seq(|rows|, i requires 0 <= i < |rows| => Deduplicated(sha, RowNormalised(rows[i])))
  }

  lemma PreparedReady(join: Joiner, sha: Hasher, s: Summary)
    requires WellFormedV1(join, s) && forall i :: 0 <= i < |s.members| ==> Fittable(s.members[i])
    ensures WellFormedV1(join, Prepared(sha, s)) && AllTexted(Prepared(sha, s).members)
  {
    hide Deduplicated;
    forall i | 0 <= i < |s.members|
      ensures var row := Deduplicated(sha, RowNormalised(s.members[i])); WellFormedRow(join, row) && Texted(row)
    {
      RowReady(join, sha, s.members[i]);
    }
  }

  lemma RowReady(join: Joiner, sha: Hasher, row: Row)
    requires WellFormedRow(join, row) && Fittable(row)
    ensures WellFormedRow(join, Deduplicated(sha, RowNormalised(row))) && Texted(Deduplicated(sha, RowNormalised(row)))
  {
    hide Deduplicated, Truthy;
    NormalisedReady(join, row);
    hide RowNormalised, WellFormedRow, Fittable, Texted;
    var was := RowNormalised(row);
    forall k | k != VerifierDelivery
      ensures (k in Deduplicated(sha, was) <==> k in was) && (k in was ==> Deduplicated(sha, was)[k] == was[k])
    {
      DeduplicatedElsewhere(sha, was, k);
    }
    ElsewhereReady(join, was, Deduplicated(sha, was));
  }

  lemma NormalisedReady(join: Joiner, row: Row)
    requires WellFormedRow(join, row) && Fittable(row)
    ensures WellFormedRow(join, RowNormalised(row)) && Texted(RowNormalised(row))
  {
    hide Truthy;
  }

  lemma ElsewhereReady(join: Joiner, was: Row, now: Row)
    requires WellFormedRow(join, was) && Texted(was)
    requires forall k :: k != VerifierDelivery ==> (k in now <==> k in was) && (k in was ==> now[k] == was[k])
    ensures WellFormedRow(join, now) && Texted(now)
  {
    assert Identified(now) && MemberPath(join, now, "terminal.json") == MemberPath(join, was, "terminal.json");
    assert VerifierDelivery !in SHARED;
  }

  /** Before anything is given up nothing is lost: what is chosen expands to the prepared summary, unless expansion
      refuses a factored reference, and every row of that reads back with its own inline diff. */
  lemma ChosenReadsBack(join: Joiner, sha: Hasher, s: Summary)
    requires WellFormedV1(join, s) && forall i :: 0 <= i < |s.members| ==> Fittable(s.members[i])
    ensures var p := Prepared(sha, s);
            && Expand(join, Chosen(join, p)) ==
                 (if Chosen(join, p) != p && Factored(join, p.members) && exists i :: 0 <= i < |p.members|
                                                                                      && !PlainReference(p.members[i])
                  then None else Some(p))
            && forall i :: 0 <= i < |p.members| && Unreferenced(RowNormalised(s.members[i])) ==>
                 Restored(p.members[i]) == RowNormalised(s.members[i])
    ensures SummarySize(Chosen(join, Prepared(sha, s))) <= SummarySize(Normalised(s))
  {
    hide EncodedSize, Restored, Deduplicated, Compact, Factored, PlainReference, WellFormedRow, RowNormalised,
         Fittable, AllTexted;
    PreparedReady(join, sha, s);
    var p := Prepared(sha, s);
    CompactRoundTrip(join, p);
    forall i | 0 <= i < |p.members|
      ensures Unreferenced(RowNormalised(s.members[i])) ==> Restored(p.members[i]) == RowNormalised(s.members[i])
      ensures EncodedSize(Obj(p.members[i])) <= EncodedSize(Obj(RowNormalised(s.members[i])))
    {
      DeduplicatedRestores(sha, RowNormalised(s.members[i]));
    }
    assert Normalised(s).members == RowsMapped(s.members, RowNormalised);
    SummaryShrinks(p, Normalised(s));
  }

  lemma CompactTexted(join: Joiner, s: Summary)
    requires AllTexted(s.members)
    ensures AllTexted(Compact(join, s).members) && TextRows(Compact(join, s).members) == TextRows(s.members)
  {
    hide SharedKeys, CoverageShared, Factored;
    forall i | 0 <= i < |s.members|
      ensures var row := Compact(join, s).members[i]; Texted(row) && TextRowOf(row) == TextRowOf(s.members[i])
    {
      assert SharedKeys(s.members) !! {ResultText, ResultTruncated} by { TextsNotShared(s.members); }
      if CoverageShared(s.members) { CoverageEach(s.members, i); }
    }
  }

  lemma TextsNotShared(rows: seq<Row>)
    ensures SharedKeys(rows) !! {ResultText, ResultTruncated}
  {
    hide AllShare;
    assert forall k :: k in SHARED ==> k != ResultText && k != ResultTruncated;
  }

  lemma CoverageEach(rows: seq<Row>, i: nat)
    requires CoverageShared(rows) && i < |rows|
    ensures HasCoverage(rows[i])
  {
  }

  lemma SizeIs(s: Summary)
    ensures SummarySize(s) == EncodedSize(Encoded(s))
  {
  }

  /** Gives up one optional part after another while the encoding is too long. */
  method DropOptional(s: Summary, size: nat, maxBytes: nat) returns (r: Summary, n: nat, ghost stage: nat)
    requires size == SummarySize(s)
    ensures stage <= 4 && r == Stage(s, stage) && n == SummarySize(r) && (stage < 4 ==> n <= maxBytes)
    ensures forall k :: 0 <= k < stage ==> SummarySize(Stage(s, k)) > maxBytes
  {
    hide SummarySize, EncodedSize, Encoded, WithoutVerifierText, RowWithoutHandoff;
    r, n, stage := s, size, 0;
    if n > maxBytes {
      assert Stage(s, 0) == s;
      r, stage := WithoutVerifierText(r), 1;
      assert r == Stage(s, 1);
      n := Measure(Encoded(r));
      SizeIs(r);
    }
    if n > maxBytes {
      r, stage := r.(members := RowsMapped(r.members, RowWithoutHandoff)), 2;
      assert r == Stage(s, 2);
      n := Measure(Encoded(r));
      SizeIs(r);
    }
    if n > maxBytes {
      r, stage := r.(members := RowsMapped(r.members, RowWithoutPreview)), 3;
      assert r == Stage(s, 3);
      n := Measure(Encoded(r));
      SizeIs(r);
    }
    if n > maxBytes {
      r, stage := r.(members := RowsMapped(r.members, RowWithoutDelivery)), 4;
      assert r == Stage(s, 4);
      n := Measure(Encoded(r));
      SizeIs(r);
    }
  }

  /** Whether giving up every part and every text would be enough. */
  lemma LeastIs(chosen: Summary, stage: nat, maxBytes: nat)
    requires AllTexted(chosen.members) && stage <= 4 && (stage < 4 ==> SummarySize(Stage(chosen, stage)) <= maxBytes)
    ensures |Stage(chosen, 4).members| == |chosen.members|
    ensures var was := TextRows(chosen.members);
            SummarySize(WithTexts(Stage(chosen, 4), AllEmptied(was))) > maxBytes <==>
              SummarySize(Stage(chosen, stage)) - RowsSize(was) + RowsSize(AllEmptied(was)) > maxBytes
  {
    hide SummarySize, Stage, RowsSize, AllTexted, AllShortened, LargestFirst;
    StagesKeepTexts(chosen, 4);
    StagesKeepTexts(chosen, stage);
    var was := TextRows(chosen.members);
    Untouched(was);
    EmptiedIsLeast(was, was);
    WithTextsSize(Stage(chosen, 4), AllEmptied(was));
  }

  /** What fitting may return: the first stage that fits, or the last one with shortened texts. */
  ghost predicate Fits(chosen: Summary, stage: nat, texts: seq<TextRow>, maxBytes: nat)
    requires AllTexted(chosen.members)
  {
    && stage <= 4 && |texts| == |Stage(chosen, stage).members|
    && (forall k :: 0 <= k < stage ==> SummarySize(Stage(chosen, k)) > maxBytes)
    && |texts| == |chosen.members| && AllShortened(TextRows(chosen.members), texts)
    && LargestFirst(TextRows(chosen.members), texts)
    && (texts != TextRows(chosen.members) ==> stage == 4 && SummarySize(Stage(chosen, 4)) > maxBytes)
  }

  /** Optional parts go first, in order and only while the encoding is too long; then texts are shortened, largest
      first. The result is within the limit, or nothing would have been enough. */
  method FitSummary(join: Joiner, sha: Hasher, summary: Summary, maxBytes: nat)
    returns (r: Option<Summary>, ghost stage: nat, ghost texts: seq<TextRow>)
    requires WellFormedV1(join, summary) && forall i :: 0 <= i < |summary.members| ==> Fittable(summary.members[i])
    ensures var chosen := Chosen(join, Prepared(sha, summary));
            && AllTexted(chosen.members) && |Stage(chosen, 4).members| == |chosen.members|
            && (r.None? <==> SummarySize(WithTexts(Stage(chosen, 4), AllEmptied(TextRows(chosen.members)))) > maxBytes)
    ensures r.Some? ==> SummarySize(r.value) <= maxBytes
    ensures var chosen := Chosen(join, Prepared(sha, summary));
            && Fits(chosen, stage, texts, maxBytes)
            && (r.Some? ==> r.value == WithTexts(Stage(chosen, stage), texts))
  {
    hide WellFormedV1, SummarySize, Stage, EncodedSize, Encoded, Prepared, Compact, AllTexted, RowsSize, Shortened,
         LargestFirst;
    PreparedReady(join, sha, summary);
    var s := Prepare(sha, summary);
    var size := Measure(Encoded(s));
    SizeIs(s);
    if size > 8000 {
      var compact := CompactSummary(join, s);
      CompactTexted(join, s);
      var compactSize := Measure(Encoded(compact));
      SizeIs(compact);
      if compactSize < size { s, size := compact, compactSize; }
    }
    ghost var chosen := s;
    assert chosen == Chosen(join, Prepared(sha, summary));
    s, size, stage := DropOptional(s, size, maxBytes);
    StagesKeepTexts(chosen, 4);
    StagesKeepTexts(chosen, stage);
    var was := TextRows(s.members);
    var rows, fitted := FitTexts(size - RowsSize(was), was, maxBytes);
    texts := rows;
    WithTextsSize(s, rows);
    SameTexts(s);
    LeastIs(chosen, stage, maxBytes);
    return if fitted > maxBytes then None else Some(WithTexts(s, rows)), stage, texts;
  }

  /** The loop over the rows: a flag, then the contexts. */
  method Prepare(sha: Hasher, summary: Summary) returns (r: Summary)
    ensures r == Prepared(sha, summary)
  {
    hide Deduplicated, RowNormalised;
    var rows, i := [], 0;
    while i < |summary.members|
      invariant 0 <= i <= |summary.members| && rows == PreparedRows(sha, summary.members)[..i]
    {
      var row := DeduplicateContexts(sha, RowNormalised(summary.members[i]));
      rows := rows + [row];
      i := i + 1;
    }
    return summary.(members := rows);
  }
}
