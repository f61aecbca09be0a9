/** The length of the ASCII JSON encoding with sorted keys, and how it changes when one value changes. */
module SummaryEncoding {
  import opened Records
  import opened Text
  import opened DiffDelivery
  import opened Summary

  function KeyName(k: Key): string {
    match k
    case SourceReadEfficiency => "source_read_efficiency" case ModelRoute => "model_route"
    case ReasoningEffort => "reasoning_effort" case RequestedTier => "requested_service_tier"
    case ObservedTier => "observed_service_tier" case ArtifactRoot => "artifact_root"
    case RequestId => "request_id" case TerminalPath => "terminal_path" case Usage => "usage"
    case Coverage => "coverage" case InspectionSummary => "inspection_summary" case PathField => "path"
    case Sha256 => "sha256" case Bytes => "bytes" case SchemaVersion => "schema_version"
    case MemberDefaults => "member_defaults" case TerminalPathRule => "terminal_path_rule"
    case InspectionPathRule => "inspection_summary_path_rule" case Members => "members" case Files => "files"
    case ResultText => "result_text" case ResultTruncated => "result_truncated"
    case ResultArtifactPreview => "result_artifact_preview"
    case TaskStatusFinalReply => "task_status_final_reply" case VerifierDelivery => "verifier_delivery"
    case Receipts => "receipts" case SourcePostimageContext => "source_postimage_context"
    case PostBatchVerifier => "post_batch_verifier" case VerifierOutputs => "verifier_outputs"
    case TextField => "text" case Hunks => "hunks" case HunkTextReference => "hunk_text_reference"
    case BeforeStart => "before_start_line" case BeforeCount => "before_line_count"
    case BeforeText => "before_text" case AfterStart => "after_start_line" case AfterCount => "after_line_count"
    case AfterText => "after_text" case DiffInlineFiles => "diff_inline_files" case Inline => "inline"
    case ChangesField => "changes" case StatusField => "status"
    case DiffInlineTruncated => "diff_inline_truncated" case DiffField => "diff" case DiffBytes => "diff_bytes"
    case DiffSha256 => "diff_sha256" case BinaryField => "binary" case PreimageSha256 => "preimage_sha256"
    case PostimageSha256 => "postimage_sha256" case OtherField(name) => name
  }

  // ----- sums ------------------------------------------------------------------------------

  ghost function SumTo(n: nat, f: nat -> nat): nat {
    if n == 0 then 0 else SumTo(n - 1, f) + f(n - 1)
  }

  ghost function SumOver(keys: set<Key>, f: Key -> nat): nat {
    if keys == {} then 0
    else
      var k :| k in keys;
      f(k) + SumOver(keys - {k}, f)
  }

  lemma SumOverFirst(keys: set<Key>, f: Key -> nat) returns (first: Key)
    requires keys != {}
    ensures first in keys && SumOver(keys, f) == f(first) + SumOver(keys - {first}, f)
  {
    first :| first in keys && SumOver(keys, f) == f(first) + SumOver(keys - {first}, f);
  }

  lemma {:induction false} SumOverPick(keys: set<Key>, f: Key -> nat, k: Key)
    requires k in keys
    ensures SumOver(keys, f) == f(k) + SumOver(keys - {k}, f)
    decreases |keys|
  {
    hide SumOver;
    var first := SumOverFirst(keys, f);
    if first != k {
      SumOverPick(keys - {first}, f, k);
      SumOverPick(keys - {k}, f, first);
      assert keys - {first} - {k} == keys - {k} - {first};
    }
  }

  /** Larger on larger sets and for larger terms. */
  lemma {:induction false} SumOverMonotone(keys: set<Key>, more: set<Key>, f: Key -> nat, g: Key -> nat)
    requires keys <= more && forall k :: k in keys ==> f(k) <= g(k)
    ensures SumOver(keys, f) <= SumOver(more, g)
    decreases |keys|
  {
    if keys != {} {
      var k :| k in keys;
      SumOverPick(keys, f, k);
      SumOverPick(more, g, k);
      SumOverMonotone(keys - {k}, more - {k}, f, g);
    }
  }

  lemma SumOverAgree(keys: set<Key>, f: Key -> nat, g: Key -> nat)
    requires forall k :: k in keys ==> f(k) == g(k)
    ensures SumOver(keys, f) == SumOver(keys, g)
  {
    SumOverMonotone(keys, keys, f, g);
    SumOverMonotone(keys, keys, g, f);
  }

  lemma {:induction false} SumToMonotone(n: nat, f: nat -> nat, g: nat -> nat)
    requires forall i :: 0 <= i < n ==> f(i) <= g(i)
    ensures SumTo(n, f) <= SumTo(n, g)
  {
    if n > 0 { SumToMonotone(n - 1, f, g); }
  }

  /** Sums that differ in one term. */
  lemma {:induction false} SumToChange(n: nat, f: nat -> nat, g: nat -> nat, i: nat)
    requires i < n && forall j :: 0 <= j < n && j != i ==> f(j) == g(j)
    ensures SumTo(n, g) - g(i) == SumTo(n, f) - f(i)
  {
    if i < n - 1 {
      SumToChange(n - 1, f, g, i);
    } else {
      SumToMonotone(n - 1, f, g);
      SumToMonotone(n - 1, g, f);
    }
  }

  // ----- the encoded length ------------------------------------------------------------------

  /** The commas and spaces between `n` entries. */
  function Separators(n: nat): nat { if n == 0 then 0 else 2 * (n - 1) }

  function NumberSize(n: int): nat { if n < 0 then 1 + |Decimal(-n)| else |Decimal(n)| }

  ghost function EncodedSize(j: Json): nat
    decreases j, 1
  {
    match j
    case Null => 4
    case Bool(flag) => if flag then 4 else 5
    case Num(n) => NumberSize(n)
    case Str(text) => Cost(text) + 2
    case Arr(items) => 2 + SumTo(|items|, ItemSizes(j)) + Separators(|items|)
    case Obj(fields) => 2 + SumOver(fields.Keys, FieldSizes(j)) + Separators(|fields|)
  }

  ghost function ItemSizes(j: Json): nat -> nat
    requires j.Arr?
    decreases j, 0
  {
    (i: nat) => if i < |j.items| then EncodedSize(j.items[i]) else 0
  }

  /** A quoted name, a colon and a space, and the value. */
  ghost function FieldSizes(j: Json): Key -> nat
    requires j.Obj?
    decreases j, 0
  {
    (k: Key) => if k in j.fields then Cost(KeyName(k)) + 4 + EncodedSize(j.fields[k]) else 0
  }

  /** Measures a value by walking through it. */
  method Measure(j: Json) returns (n: nat)
    ensures n == EncodedSize(j)
    decreases j
  {
    hide Cost, KeyName;
    match j
    case Null => return 4;
    case Bool(flag) => return if flag then 4 else 5;
    case Num(number) => return NumberSize(number);
    case Str(text) => return Cost(text) + 2;
    case Arr(items) =>
      var total, i := 0, 0;
      while i < |items|
        invariant 0 <= i <= |items| && total == SumTo(i, ItemSizes(j))
      {
        var m := Measure(items[i]);
        total := total + m;
        i := i + 1;
      }
      return 2 + total + Separators(|items|);
    case Obj(fields) =>
      var total, rest := 0, fields.Keys;
      while rest != {}
        invariant rest <= fields.Keys && total + SumOver(rest, FieldSizes(j)) == SumOver(fields.Keys, FieldSizes(j))
      {
        var k :| k in rest;
        var m := Measure(fields[k]);
        SumOverPick(rest, FieldSizes(j), k);
        total := total + Cost(KeyName(k)) + 4 + m;
        rest := rest - {k};
      }
      return 2 + total + Separators(|fields|);
  }

  lemma FieldSet(fields: map<Key, Json>, k: Key, v: Json)
    requires k in fields
    ensures EncodedSize(Obj(fields[k := v])) == EncodedSize(Obj(fields)) - EncodedSize(fields[k]) + EncodedSize(v)
  {
    hide Cost, KeyName;
    var a, b := Obj(fields), Obj(fields[k := v]);
    assert b.fields.Keys == fields.Keys && |b.fields| == |b.fields.Keys| == |fields|;
    SumOverPick(fields.Keys, FieldSizes(a), k);
    SumOverPick(fields.Keys, FieldSizes(b), k);
    SumOverAgree(fields.Keys - {k}, FieldSizes(a), FieldSizes(b));
  }

  lemma ItemSet(items: seq<Json>, i: nat, v: Json)
    requires i < |items|
    ensures EncodedSize(Arr(items[i := v])) == EncodedSize(Arr(items)) - EncodedSize(items[i]) + EncodedSize(v)
  {
    var a, b := Arr(items), Arr(items[i := v]);
    SumToChange(|items|, ItemSizes(a), ItemSizes(b), i);
  }

  /** Fewer fields, with values that are not longer, are not longer. */
  lemma FieldsShrink(fields: map<Key, Json>, was: map<Key, Json>)
    requires fields.Keys <= was.Keys && forall k :: k in fields ==> EncodedSize(fields[k]) <= EncodedSize(was[k])
    ensures EncodedSize(Obj(fields)) <= EncodedSize(Obj(was))
  {
    hide Cost, KeyName;
    SumOverMonotone(fields.Keys, was.Keys, FieldSizes(Obj(fields)), FieldSizes(Obj(was)));
    Cardinality(fields.Keys, was.Keys);
    assert |fields| == |fields.Keys| && |was| == |was.Keys|;
  }

  lemma {:induction false} Cardinality(a: set<Key>, b: set<Key>)
    requires a <= b
    ensures |a| <= |b|
    decreases |a|
  {
    if a != {} {
      var k :| k in a;
      Cardinality(a - {k}, b - {k});
    }
  }

  lemma ItemsShrink(items: seq<Json>, was: seq<Json>)
    requires |items| == |was| && forall i :: 0 <= i < |items| ==> EncodedSize(items[i]) <= EncodedSize(was[i])
    ensures EncodedSize(Arr(items)) <= EncodedSize(Arr(was))
  {
    SumToMonotone(|items|, ItemSizes(Arr(items)), ItemSizes(Arr(was)));
  }

  // ----- summaries ---------------------------------------------------------------------------

  function RowValues(rows: seq<Row>): (r: seq<Json>)
    ensures |r| == |rows| && forall i :: 0 <= i < |r| ==> r[i] == Obj(rows[i])
  {
    seq(|rows|, i requires 0 <= i < |rows| => Obj(rows[i]))
  }

  /** The summary as one value. */
  function Encoded(s: Summary): Json { Obj(s.fields[Members := Arr(RowValues(s.members))]) }

  ghost function SummarySize(s: Summary): nat { EncodedSize(Encoded(s)) }

  lemma RowSet(s: Summary, i: nat, row: Row)
    requires i < |s.members|
    ensures SummarySize(s.(members := s.members[i := row])) == SummarySize(s) - EncodedSize(Obj(s.members[i]))
            + EncodedSize(Obj(row))
  {
    hide EncodedSize;
    var s' := s.(members := s.members[i := row]);
    var fields := s.fields[Members := Arr(RowValues(s.members))];
    assert RowValues(s'.members) == RowValues(s.members)[i := Obj(row)];
    ItemSet(RowValues(s.members), i, Obj(row));
    FieldSet(fields, Members, Arr(RowValues(s'.members)));
    assert fields[Members := Arr(RowValues(s'.members))] == s'.fields[Members := Arr(RowValues(s'.members))];
  }

  /** Rows and top-level fields that do not grow. */
  lemma SummaryShrinks(s: Summary, was: Summary)
    requires s.fields.Keys <= was.fields.Keys && |s.members| == |was.members|
    requires forall k :: k in s.fields ==> EncodedSize(s.fields[k]) <= EncodedSize(was.fields[k])
    requires forall i :: 0 <= i < |s.members| ==> EncodedSize(Obj(s.members[i])) <= EncodedSize(Obj(was.members[i]))
    ensures SummarySize(s) <= SummarySize(was)
  {
    hide EncodedSize;
    ItemsShrink(RowValues(s.members), RowValues(was.members));
    FieldsShrink(s.fields[Members := Arr(RowValues(s.members))], was.fields[Members := Arr(RowValues(was.members))]);
  }
}
