/** The batch summary: factoring shared metadata out of the member rows, and restoring it. */
module Summary {
  import opened Records
  import opened Text
  import opened Diff
  import opened DiffDelivery

  predicate KnownName(name: string) {
    || name == "source_read_efficiency" || name == "model_route" || name == "reasoning_effort"
    || name == "requested_service_tier" || name == "observed_service_tier" || name == "artifact_root"
    || name == "request_id" || name == "terminal_path" || name == "usage" || name == "coverage"
    || name == "inspection_summary" || name == "path" || name == "sha256" || name == "bytes"
    || name == "schema_version" || name == "member_defaults" || name == "terminal_path_rule"
    || name == "inspection_summary_path_rule" || name == "members" || name == "files" || name == "result_text"
    || name == "result_truncated" || name == "result_artifact_preview" || name == "task_status_final_reply"
    || name == "verifier_delivery" || name == "receipts" || name == "source_postimage_context"
    || name == "post_batch_verifier" || name == "verifier_outputs" || name == "text" || name == "hunks"
    || name == "hunk_text_reference" || name == "before_start_line" || name == "before_line_count"
    || name == "before_text" || name == "after_start_line" || name == "after_line_count" || name == "after_text"
    || name == "diff_inline_files" || name == "inline" || name == "changes" || name == "status"
    || name == "diff_inline_truncated" || name == "diff" || name == "diff_bytes" || name == "diff_sha256"
    || name == "binary" || name == "preimage_sha256" || name == "postimage_sha256"
  }

  /** A field name that the code does not know. */
  type OtherName = name: string | !KnownName(name) witness ""

  /** The field names that the code knows, and any other. */
  datatype Key = SourceReadEfficiency | ModelRoute | ReasoningEffort | RequestedTier | ObservedTier
               | ArtifactRoot | RequestId | TerminalPath | Usage | Coverage | InspectionSummary | PathField | Sha256
                 | Bytes
               | SchemaVersion | MemberDefaults | TerminalPathRule | InspectionPathRule | Members | Files
               | ResultText | ResultTruncated | ResultArtifactPreview | TaskStatusFinalReply | VerifierDelivery
                 | Receipts
               | SourcePostimageContext | PostBatchVerifier | VerifierOutputs | TextField
               | Hunks | HunkTextReference | BeforeStart | BeforeCount | BeforeText | AfterStart | AfterCount
                 | AfterText
               | DiffInlineFiles | Inline | ChangesField | StatusField | DiffInlineTruncated | DiffField | DiffBytes
                 | DiffSha256
               | BinaryField | PreimageSha256 | PostimageSha256 | OtherField(name: OtherName)

  datatype Json = Null | Bool(flag: bool) | Num(number: int) | Str(text: string) | Arr(items: seq<Json>)
    | Obj(fields: map<Key, Json>)
  type Row = map<Key, Json>

  /** The top-level fields except `members`, and the member rows. */
  datatype Summary = Summary(fields: map<Key, Json>, members: seq<Row>)

  /** How a member's file path is written: `str(Path(artifact_root) / request_id / name)`. */
  type Joiner = (string, string, string) -> string

  const SHARED: seq<Key> := [SourceReadEfficiency, ModelRoute, ReasoningEffort, RequestedTier, ObservedTier]
  const V1 := Str("nokiy_direct_batch_summary_v1")
  const V2 := Str("nokiy_direct_batch_summary_v2")
  const TERMINAL_RULE := Str("artifact_root/request_id/terminal.json")
  const INSPECTION_RULE := Str("artifact_root/request_id/inspection-summary.json")

  predicate Identified(row: Row) {
    && ArtifactRoot in row && row[ArtifactRoot].Str?
    && RequestId in row && row[RequestId].Str?
  }

  function MemberPath(join: Joiner, row: Row, name: string): string
    requires Identified(row)
  {
    join(row[ArtifactRoot].text, row[RequestId].text, name)
  }

  /** The parent-supplied shape of a version 1 summary. */
  ghost predicate WellFormedV1(join: Joiner, s: Summary) {
    && SchemaVersion in s.fields && s.fields[SchemaVersion] == V1
    && MemberDefaults !in s.fields && TerminalPathRule !in s.fields && InspectionPathRule !in s.fields
    && forall i :: 0 <= i < |s.members| ==> WellFormedRow(join, s.members[i])
  }

  ghost predicate WellFormedRow(join: Joiner, row: Row) {
    && Identified(row)
    && (forall k :: k in SHARED ==> k in row)
    && TerminalPath in row && row[TerminalPath] == Str(MemberPath(join, row, "terminal.json"))
  }

  // ----- compaction ------------------------------------------------------------------------

  predicate AllShare(rows: seq<Row>, key: Key) {
    rows != [] && forall i :: 0 <= i < |rows| ==> key in rows[i] && key in rows[0] && rows[i][key] == rows[0][key]
  }

  function SharedKeys(rows: seq<Row>): set<Key> {
    set k | k in SHARED && AllShare(rows, k)
  }

  predicate HasCoverage(row: Row) {
    Usage in row && row[Usage].Obj? && Coverage in row[Usage].fields
  }

  predicate CoverageShared(rows: seq<Row>) {
    && rows != []
    && (forall i :: 0 <= i < |rows| ==> HasCoverage(rows[i]))
    && forall i :: 0 <= i < |rows| ==> rows[i][Usage].fields[Coverage] == rows[0][Usage].fields[Coverage]
  }

  function Defaults(rows: seq<Row>): Row {
    (map k | k in SharedKeys(rows) :: rows[0][k])
    + if CoverageShared(rows) then map[Usage := Obj(map[Coverage := rows[0][Usage].fields[Coverage]])] else map[]
  }

  predicate HasReference(row: Row) {
    InspectionSummary in row && row[InspectionSummary].Obj?
  }

  predicate NoReference(row: Row) {
    InspectionSummary !in row || row[InspectionSummary].Null?
  }

  predicate DerivedReference(join: Joiner, row: Row)
    requires HasReference(row)
  {
    && Identified(row) && PathField in row[InspectionSummary].fields
    && row[InspectionSummary].fields[PathField] == Str(MemberPath(join, row, "inspection-summary.json"))
  }

  /** Some row has a reference, and every reference lies where its row says. */
  predicate Factored(join: Joiner, rows: seq<Row>) {
    && (exists i :: 0 <= i < |rows| && HasReference(rows[i]))
    && forall i :: 0 <= i < |rows| ==> NoReference(rows[i])
                                       || (HasReference(rows[i]) && DerivedReference(join, rows[i]))
  }

  function CompactRow(row: Row, keys: set<Key>, coverage: bool, factored: bool): Row
    requires coverage ==> HasCoverage(row)
  {
    var row1 := row - keys - {TerminalPath};
    var row2 := if coverage then row1[Usage := Obj(row[Usage].fields - {Coverage})] else row1;
    if factored && HasReference(row) then row2[InspectionSummary := Obj(row[InspectionSummary].fields - {PathField})]
      else row2
  }

  function CompactRows(join: Joiner, rows: seq<Row>): (r: seq<Row>)
    ensures |r| == |rows|
  {
    seq(|rows|, i requires 0 <= i < |rows| => CompactRow(rows[i], SharedKeys(rows), CoverageShared(rows),
                                                         Factored(join, rows)))
  }

  function Compact(join: Joiner, s: Summary): Summary {
    Summary(s.fields + map[SchemaVersion := V2, MemberDefaults := Obj(Defaults(s.members)),
                           TerminalPathRule := TERMINAL_RULE]
              + (if Factored(join, s.members) then map[InspectionPathRule := INSPECTION_RULE] else map[]),
            CompactRows(join, s.members))
  }

  // ----- expansion -------------------------------------------------------------------------

  predicate ValidDefaults(defaults: Row) {
    && (forall k :: k in defaults ==> k in SHARED || k == Usage)
    && (Usage in defaults ==> defaults[Usage].Obj? && defaults[Usage].fields.Keys == {Coverage})
  }

  predicate ValidSummary(s: Summary) {
    && TerminalPathRule in s.fields && s.fields[TerminalPathRule] == TERMINAL_RULE
    && MemberDefaults in s.fields && s.fields[MemberDefaults].Obj?
    && (!Ruled(s) || s.fields[InspectionPathRule] == INSPECTION_RULE)
    && ValidDefaults(s.fields[MemberDefaults].fields)
  }

  predicate Ruled(s: Summary) {
    InspectionPathRule in s.fields && !s.fields[InspectionPathRule].Null?
  }

  function ExpandRow(join: Joiner, defaults: Row, ruled: bool, member: Row): Option<Row>
    requires ValidDefaults(defaults)
  {
    if TerminalPath in member || !Identified(member) then None
    else if Usage in defaults && !(Usage in member && member[Usage].Obj?) then None
    else
      var row1 := defaults + member;
      var row2 := if Usage in defaults then row1[Usage := Obj(defaults[Usage].fields + member[Usage].fields)] else row1;
      var row3 := row2[TerminalPath := Str(MemberPath(join, member, "terminal.json"))];
      if !ruled || NoReference(member) then Some(row3)
      else if !HasReference(member) || member[InspectionSummary].fields.Keys != {Sha256, Bytes} then None
      else Some(row3[InspectionSummary := Obj(member[InspectionSummary].fields[PathField :=
                                                                               Str(MemberPath(join, member,
                                                                                   "inspection-summary.json"))])])
  }

  function ExpandRows(join: Joiner, defaults: Row, ruled: bool, members: seq<Row>): Option<seq<Row>>
    requires ValidDefaults(defaults)
  {
    if members == [] then Some([])
    else
      var row := ExpandRow(join, defaults, ruled, members[0]);
      var rest := ExpandRows(join, defaults, ruled, members[1..]);
      if row.None? then None else Prepend([row.value], rest)
  }

  function Expand(join: Joiner, s: Summary): Option<Summary> {
    if SchemaVersion in s.fields && s.fields[SchemaVersion] == V1 then Some(s)
    else if !(SchemaVersion in s.fields && s.fields[SchemaVersion] == V2) || !ValidSummary(s) then None
    else
      var rows := ExpandRows(join, s.fields[MemberDefaults].fields, Ruled(s), s.members);
      if rows.None? then None
      else Some(Summary((s.fields - {MemberDefaults, TerminalPathRule, InspectionPathRule})[SchemaVersion := V1],
                        rows.value))
  }

  // ----- the loops ---------------------------------------------------------------------------

  method CompactSummary(join: Joiner, s: Summary) returns (r: Summary)
    requires WellFormedV1(join, s)
    ensures r == Compact(join, s)
  {
    hide WellFormedV1, Factored, CompactRows, Defaults;
    var defaults, rows, factored := CompactMembers(join, s.members);
    var fields := s.fields[SchemaVersion := V2][MemberDefaults := Obj(defaults)][TerminalPathRule := TERMINAL_RULE];
    if factored { fields := fields[InspectionPathRule := INSPECTION_RULE]; }
    assert fields == Compact(join, s).fields;
    return Summary(fields, rows);
  }

  method CompactMembers(join: Joiner, members: seq<Row>) returns (defaults: Row, rows: seq<Row>, factored: bool)
    ensures defaults == Defaults(members) && rows == CompactRows(join, members) && factored == Factored(join, members)
  {
    hide Factored, CompactRow, SharedKeys, CoverageShared, Trimmed;
    defaults, rows := FactorShared(members);
    KeysShared(members);
    CoverageKept(members, rows, SharedKeys(members));
    var coverage := CoverageShared(rows);
    if coverage {
      CoverageFirst(members, rows);
      defaults := defaults[Usage := Obj(map[Coverage := rows[0][Usage].fields[Coverage]])];
      rows := FactorCoverage(rows);
    }
    rows := Without(rows, TerminalPath);
    forall i | 0 <= i < |rows| ensures rows[i] == Trimmed(members[i], SharedKeys(members), coverage) {
      TrimmedRow(members[i], SharedKeys(members), coverage);
    }
    ReferencesKept(join, members, rows, SharedKeys(members), coverage);
    factored := Factored(join, rows);
    if factored { rows := FactorReferences(rows); }
    forall i | 0 <= i < |rows| ensures rows[i] == CompactRow(members[i], SharedKeys(members), coverage, factored) {
      RowsCompacted(members[i], SharedKeys(members), coverage, factored);
    }
    assert rows == CompactRows(join, members);
  }

  lemma TrimmedRow(row: Row, keys: set<Key>, coverage: bool)
    requires Usage !in keys && (coverage ==> HasCoverage(row))
    ensures Trimmed(row, keys, coverage) == (if coverage then WithoutCoverage(row - keys)
                                             else row - keys) - {TerminalPath}
  {
  }

  lemma CoverageFirst(members: seq<Row>, rows: seq<Row>)
    requires |members| == |rows| && CoverageShared(rows) && CoverageShared(members)
    requires forall i :: 0 <= i < |rows| ==> HasCoverage(rows[i]) && rows[i][Usage] == members[i][Usage]
    ensures rows != [] && HasCoverage(rows[0]) && rows[0][Usage].fields[Coverage] == members[0][Usage].fields[Coverage]
  {
  }

  /** Moves every shared field that all rows agree on into the defaults. */
  method FactorShared(members: seq<Row>) returns (defaults: Row, rows: seq<Row>)
    ensures defaults == map k | k in SharedKeys(members) :: members[0][k]
    ensures |rows| == |members| && forall i :: 0 <= i < |rows| ==> rows[i] == members[i] - SharedKeys(members)
  {
    rows, defaults := members, map[];
    var n := 0;
    ghost var done: set<Key> := {};
    while n < |SHARED|
      invariant 0 <= n <= |SHARED| && |rows| == |members|
      invariant done == SharedUpTo(members, n)
      invariant forall i :: 0 <= i < |rows| ==> rows[i] == members[i] - done
      invariant defaults.Keys == done && forall k :: k in done ==>
                  AllShare(members, k) && members != [] && k in members[0] && defaults[k] == members[0][k]
    {
      var key := SHARED[n];
      SharedNext(members, n);
      StillShared(members, rows, done, key);
      if AllShare(rows, key) {
        assert rows != [] && key in rows[0];
        defaults := defaults[key := rows[0][key]];
        rows := Without(rows, key);
        done := done + {key};
      }
      n := n + 1;
    }
    assert SharedUpTo(members, n) == SharedKeys(members) by { assert SHARED[..n] == SHARED; }
  }

  ghost function SharedUpTo(rows: seq<Row>, n: nat): set<Key>
    requires n <= |SHARED|
  {
    set k | k in SHARED[..n] && AllShare(rows, k)
  }

  lemma SharedNext(rows: seq<Row>, n: nat)
    requires n < |SHARED|
    ensures SHARED[n] !in SharedUpTo(rows, n)
    ensures SharedUpTo(rows, n + 1) == if AllShare(rows, SHARED[n]) then SharedUpTo(rows, n) + {SHARED[n]}
            else SharedUpTo(rows, n)
  {
    hide AllShare;
    assert SHARED[..n + 1] == SHARED[..n] + [SHARED[n]];
    assert forall i, j :: 0 <= i < j < |SHARED| ==> SHARED[i] != SHARED[j];
  }

  method Without(rows: seq<Row>, key: Key) returns (r: seq<Row>)
    ensures |r| == |rows| && forall i :: 0 <= i < |rows| ==> r[i] == rows[i] - {key}
  {
    r := rows;
    var i := 0;
    while i < |rows|
      invariant 0 <= i <= |rows| == |r|
      invariant forall j :: 0 <= j < |rows| ==> r[j] == if j < i then rows[j] - {key} else rows[j]
    {
      r := r[i := r[i] - {key}];
      i := i + 1;
    }
  }

  lemma StillShared(original: seq<Row>, rows: seq<Row>, done: set<Key>, key: Key)
    requires |rows| == |original| && key !in done && forall i :: 0 <= i < |rows| ==> rows[i] == original[i] - done
    ensures AllShare(rows, key) <==> AllShare(original, key)
    ensures AllShare(rows, key) ==> rows[0][key] == original[0][key]
  {
  }

  function WithoutCoverage(row: Row): Row {
    if HasCoverage(row) then row[Usage := Obj(row[Usage].fields - {Coverage})] else row
  }

  method FactorCoverage(rows: seq<Row>) returns (r: seq<Row>)
    ensures |r| == |rows| && forall i :: 0 <= i < |rows| ==> r[i] == WithoutCoverage(rows[i])
  {
    hide WithoutCoverage;
    r := [];
    var i := 0;
    while i < |rows|
      invariant 0 <= i <= |rows| && |r| == i
      invariant forall j :: 0 <= j < i ==> r[j] == WithoutCoverage(rows[j])
    {
      r := r + [WithoutCoverage(rows[i])];
      i := i + 1;
    }
  }

  function WithoutPath(row: Row): Row {
    if HasReference(row) then row[InspectionSummary := Obj(row[InspectionSummary].fields - {PathField})] else row
  }

  method FactorReferences(rows: seq<Row>) returns (r: seq<Row>)
    ensures |r| == |rows| && forall i :: 0 <= i < |rows| ==> r[i] == WithoutPath(rows[i])
  {
    hide WithoutPath;
    r := [];
    var i := 0;
    while i < |rows|
      invariant 0 <= i <= |rows| && |r| == i
      invariant forall j :: 0 <= j < i ==> r[j] == WithoutPath(rows[j])
    {
      r := r + [WithoutPath(rows[i])];
      i := i + 1;
    }
  }

  lemma KeysShared(rows: seq<Row>)
    ensures SharedKeys(rows) !! {Usage, TerminalPath, InspectionSummary, ArtifactRoot, RequestId}
  {
    ReservedNotShared();
  }

  lemma CoverageKept(members: seq<Row>, rows: seq<Row>, keys: set<Key>)
    requires |rows| == |members| && (forall i :: 0 <= i < |rows| ==> rows[i] == members[i] - keys) && Usage !in keys
    ensures CoverageShared(rows) <==> CoverageShared(members)
    ensures forall i :: 0 <= i < |rows| ==> (HasCoverage(rows[i]) <==> HasCoverage(members[i]))
    ensures CoverageShared(rows) ==> forall i :: 0 <= i < |rows| ==>
              HasCoverage(rows[i]) && HasCoverage(members[i]) && rows[i][Usage] == members[i][Usage]
  {
    assert forall i :: 0 <= i < |rows| ==> (Usage in rows[i] <==> Usage in members[i]);
  }

  /** The row as it stands before references are factored. */
  function Trimmed(row: Row, keys: set<Key>, coverage: bool): Row
    requires coverage ==> HasCoverage(row)
  {
    (if coverage then (row - keys)[Usage := Obj(row[Usage].fields - {Coverage})] else row - keys) - {TerminalPath}
  }

  lemma ReferencesKept(join: Joiner, members: seq<Row>, rows: seq<Row>, keys: set<Key>, coverage: bool)
    requires |rows| == |members| && keys !! {Usage, TerminalPath, InspectionSummary, ArtifactRoot, RequestId}
    requires coverage ==> forall i :: 0 <= i < |members| ==> HasCoverage(members[i])
    requires forall i :: 0 <= i < |rows| ==> rows[i] == Trimmed(members[i], keys, coverage)
    ensures Factored(join, rows) <==> Factored(join, members)
  {
    hide Factored, Trimmed;
    forall i | 0 <= i < |rows|
      ensures HasReference(rows[i]) == HasReference(members[i]) && NoReference(rows[i]) == NoReference(members[i])
      ensures HasReference(rows[i]) ==> DerivedReference(join, rows[i]) == DerivedReference(join, members[i])
    {
      TrimmedReference(join, members[i], keys, coverage);
    }
    SameFactored(join, members, rows);
  }

  lemma TrimmedReference(join: Joiner, row: Row, keys: set<Key>, coverage: bool)
    requires keys !! {Usage, TerminalPath, InspectionSummary, ArtifactRoot, RequestId}
             && (coverage ==> HasCoverage(row))
    ensures var r := Trimmed(row, keys, coverage);
            && HasReference(r) == HasReference(row) && NoReference(r) == NoReference(row)
            && (HasReference(row) ==> DerivedReference(join, r) == DerivedReference(join, row))
  {
    var r := Trimmed(row, keys, coverage);
    assert forall k :: k in {InspectionSummary, ArtifactRoot, RequestId} ==>
      (k in r <==> k in row) && (k in r ==> r[k] == row[k]);
  }

  lemma SameFactored(join: Joiner, a: seq<Row>, b: seq<Row>)
    requires |a| == |b| && forall i :: 0 <= i < |a| ==>
               HasReference(b[i]) == HasReference(a[i]) && NoReference(b[i]) == NoReference(a[i])
    requires forall i :: 0 <= i < |a| && HasReference(b[i]) ==>
               DerivedReference(join, b[i]) == DerivedReference(join, a[i])
    ensures Factored(join, a) <==> Factored(join, b)
  {
    hide HasReference, NoReference, DerivedReference;
  }

  lemma RowsCompacted(row: Row, keys: set<Key>, coverage: bool, factored: bool)
    requires keys !! {Usage, TerminalPath, InspectionSummary, ArtifactRoot, RequestId}
             && (coverage ==> HasCoverage(row))
    ensures CompactRow(row, keys, coverage, factored)
            == if factored then WithoutPath(Trimmed(row, keys, coverage)) else Trimmed(row, keys, coverage)
  {
    var r := Trimmed(row, keys, coverage);
    assert (InspectionSummary in r <==> InspectionSummary in row)
           && (InspectionSummary in r ==> r[InspectionSummary] == row[InspectionSummary]);
  }

  function Prepend(rows: seq<Row>, rest: Option<seq<Row>>): Option<seq<Row>> {
    if rest.None? then None else Some(rows + rest.value)
  }

  lemma PrependNext(rows: seq<Row>, row: Row, rest: Option<seq<Row>>)
    ensures Prepend(rows + [row], rest) == Prepend(rows, Prepend([row], rest))
    ensures Prepend([], rest) == rest
  {
    if rest.Some? {
      assert (rows + [row]) + rest.value == rows + ([row] + rest.value);
      assert [] + rest.value == rest.value;
    }
  }

  method ExpandSummary(join: Joiner, s: Summary) returns (r: Option<Summary>)
    ensures r == Expand(join, s)
  {
    hide ExpandRow, ValidDefaults;
    if SchemaVersion in s.fields && s.fields[SchemaVersion] == V1 { return Some(s); }
    if !(SchemaVersion in s.fields && s.fields[SchemaVersion] == V2) || !ValidSummary(s) { return None; }
    var defaults := s.fields[MemberDefaults].fields;
    var rows, i := [], 0;
    assert s.members[0..] == s.members;
    PrependNext([], map[], ExpandRows(join, defaults, Ruled(s), s.members));
    while i < |s.members|
      invariant 0 <= i <= |s.members|
      invariant ExpandRows(join, defaults, Ruled(s), s.members) == Prepend(rows,
                                                                           ExpandRows(join, defaults, Ruled(s),
                                                                               s.members[i..]))
    {
      assert s.members[i..][0] == s.members[i] && s.members[i..][1..] == s.members[i + 1..];
      var row := ExpandRow(join, defaults, Ruled(s), s.members[i]);
      if row.None? { return None; }
      PrependNext(rows, row.value, ExpandRows(join, defaults, Ruled(s), s.members[i + 1..]));
      rows := rows + [row.value];
      i := i + 1;
    }
    assert s.members[i..] == [] && rows + [] == rows;
    return Some(Summary((s.fields - {MemberDefaults, TerminalPathRule, InspectionPathRule})[SchemaVersion := V1],
                        rows));
  }

  // ----- round trip --------------------------------------------------------------------------

  /** Every factored reference has exactly the fields that expansion accepts. */
  predicate PlainReference(row: Row) {
    HasReference(row) ==> row[InspectionSummary].fields.Keys == {PathField, Sha256, Bytes}
  }

  lemma DefaultsValid(rows: seq<Row>)
    ensures ValidDefaults(Defaults(rows))
  {
  }

  lemma DefaultsAgree(rows: seq<Row>, i: nat)
    requires i < |rows|
    ensures forall k :: k in SharedKeys(rows) ==>
              k in rows[i] && k in Defaults(rows) && Defaults(rows)[k] == rows[i][k] && k != Usage
    ensures forall k :: k in Defaults(rows) ==> k in SharedKeys(rows) || k == Usage
    ensures Usage in Defaults(rows) <==> CoverageShared(rows)
    ensures CoverageShared(rows) ==> HasCoverage(rows[i])
    ensures CoverageShared(rows) ==> Defaults(rows)[Usage] == Obj(map[Coverage := rows[i][Usage].fields[Coverage]])
  {
    assert forall k :: k in SHARED ==> k != Usage;
  }

  lemma RowRoundTrip(join: Joiner, rows: seq<Row>, i: nat)
    requires i < |rows| && WellFormedRow(join, rows[i])
    requires ValidDefaults(Defaults(rows)) && (CoverageShared(rows) ==> HasCoverage(rows[i]))
    ensures ExpandRow(join, Defaults(rows), Factored(join, rows),
                      CompactRow(rows[i], SharedKeys(rows), CoverageShared(rows), Factored(join, rows)))
            == if Factored(join, rows) && !PlainReference(rows[i]) then None else Some(rows[i])
  {
    hide CompactRow, ExpandRow, PlainReference, WellFormedRow;
    DefaultsAgree(rows, i);
    FactoredRow(join, rows, i);
    KeysShared(rows);
    hide Defaults, CoverageShared, SharedKeys, Factored, ValidDefaults;
    OneRow(join, rows[i], Defaults(rows), SharedKeys(rows), CoverageShared(rows), Factored(join, rows));
  }

  lemma CompactFields(row: Row, keys: set<Key>, coverage: bool, factored: bool)
    requires keys !! {Usage, TerminalPath, InspectionSummary, ArtifactRoot, RequestId}
             && (coverage ==> HasCoverage(row))
    ensures var member := CompactRow(row, keys, coverage, factored);
            && (forall k :: k in member <==> k in row && k !in keys && k != TerminalPath)
            && (forall k :: k in member && k != Usage && k != InspectionSummary ==> member[k] == row[k])
            && (Usage in member ==> member[Usage] == if coverage then Obj(row[Usage].fields - {Coverage})
                else row[Usage])
            && (InspectionSummary in member && factored && HasReference(row) ==>
                  member[InspectionSummary] == Obj(row[InspectionSummary].fields - {PathField}))
            && (InspectionSummary in member && !(factored && HasReference(row)) ==>
                member[InspectionSummary] == row[InspectionSummary])
  {
  }

  /** Defaults that hold exactly what was factored out of the row. */
  ghost predicate Restores(defaults: Row, row: Row, keys: set<Key>, coverage: bool) {
    && ValidDefaults(defaults)
    && keys !! {Usage, TerminalPath, InspectionSummary, ArtifactRoot, RequestId}
    && (forall k :: k in keys ==> k in row && k in defaults && defaults[k] == row[k])
    && (forall k :: k in defaults ==> k in keys || k == Usage)
    && (Usage in defaults <==> coverage)
    && (coverage ==> HasCoverage(row) && defaults[Usage] == Obj(map[Coverage := row[Usage].fields[Coverage]]))
  }

  /** One row before its reference is restored. */
  function Merged(row: Row, defaults: Row, member: Row, coverage: bool): Row
    requires TerminalPath in row && (coverage ==> Usage in row)
  {
    (if coverage then (defaults + member)[Usage := row[Usage]]
     else defaults + member)[TerminalPath := row[TerminalPath]]
  }

  lemma MergedFields(row: Row, defaults: Row, member: Row, keys: set<Key>, coverage: bool)
    requires TerminalPath in row && Restores(defaults, row, keys, coverage)
    requires forall k :: k in member <==> k in row && k !in keys && k != TerminalPath
    requires forall k :: k in member && k != Usage && k != InspectionSummary ==> member[k] == row[k]
    requires !coverage && Usage in member ==> member[Usage] == row[Usage]
    ensures var r := Merged(row, defaults, member, coverage);
            && r.Keys == row.Keys
            && (forall k :: k in row && k != InspectionSummary ==> r[k] == row[k])
            && (InspectionSummary in row ==> InspectionSummary in member
                                             && r[InspectionSummary] == member[InspectionSummary])
  {
    hide Restores, Merged;
    CoverageInRow(row, defaults, keys, coverage);
    var r := Merged(row, defaults, member, coverage);
    forall k ensures k in r <==> k in row
             ensures k in row && k != InspectionSummary ==> r[k] == row[k]
             ensures k == InspectionSummary && k in row ==> k in member && r[k] == member[k]
    {
      MergedAt(row, defaults, member, keys, coverage, k);
    }
  }

  lemma MergedAt(row: Row, defaults: Row, member: Row, keys: set<Key>, coverage: bool, k: Key)
    requires TerminalPath in row && Restores(defaults, row, keys, coverage)
    requires k in member <==> k in row && k !in keys && k != TerminalPath
    requires k in member && k != InspectionSummary && !(coverage && k == Usage) ==> member[k] == row[k]
    ensures var r := Merged(row, defaults, member, coverage);
            && (k in r <==> k in row) && (k in row && k != InspectionSummary ==> r[k] == row[k])
            && (k == InspectionSummary && k in row ==> k in member && r[k] == member[k])
  {
    hide ValidDefaults;
  }

  lemma UsageRestored(row: Row, defaults: Row, keys: set<Key>)
    requires Restores(defaults, row, keys, true)
    ensures defaults[Usage].fields + (row[Usage].fields - {Coverage}) == row[Usage].fields
  {
  }

  lemma PlainMember(join: Joiner, row: Row, defaults: Row, keys: set<Key>, coverage: bool, factored: bool)
    requires WellFormedRow(join, row) && Restores(defaults, row, keys, coverage)
    ensures var member := CompactRow(row, keys, coverage, factored);
            && Identified(member) && TerminalPath !in member && (coverage ==> Usage in member && member[Usage].Obj?)
            && MemberPath(join, member, "terminal.json") == MemberPath(join, row, "terminal.json")
            && MemberPath(join, member, "inspection-summary.json") == MemberPath(join, row, "inspection-summary.json")
            && (coverage ==> defaults[Usage].fields + member[Usage].fields == row[Usage].fields)
  {
    CompactFields(row, keys, coverage, factored);
    hide CompactRow, ValidDefaults, HasReference;
    if coverage { UsageRestored(row, defaults, keys); }
  }

  lemma PlainRow(row: Row, defaults: Row, keys: set<Key>, coverage: bool, factored: bool)
    requires TerminalPath in row && Restores(defaults, row, keys, coverage)
    ensures var member := CompactRow(row, keys, coverage, factored);
            && (InspectionSummary in row ==> Merged(row, defaults, member,
                                                    coverage)[InspectionSummary := row[InspectionSummary]] == row)
            && (!(factored && HasReference(row)) ==> Merged(row, defaults, member, coverage) == row)
  {
    CompactFields(row, keys, coverage, factored);
    hide CompactRow, Restores, HasReference, Merged;
    assert coverage ==> Usage in row by { CoverageInRow(row, defaults, keys, coverage); }
    var member := CompactRow(row, keys, coverage, factored);
    MergedFields(row, defaults, member, keys, coverage);
    SameRow(Merged(row, defaults, member, coverage), row);
  }

  lemma CoverageInRow(row: Row, defaults: Row, keys: set<Key>, coverage: bool)
    requires Restores(defaults, row, keys, coverage)
    ensures coverage ==> HasCoverage(row)
    ensures keys !! {Usage, TerminalPath, InspectionSummary, ArtifactRoot, RequestId}
  {
    hide ValidDefaults;
  }

  /** Rows with the same fields that can only differ in the reference. */
  lemma SameRow(r: Row, row: Row)
    requires r.Keys == row.Keys && forall k :: k in row && k != InspectionSummary ==> r[k] == row[k]
    ensures InspectionSummary in row ==> r[InspectionSummary := row[InspectionSummary]] == row
    ensures (InspectionSummary in row ==> r[InspectionSummary] == row[InspectionSummary]) ==> r == row
  {
  }

  lemma ReferenceRestored(reference: Row, path: Json)
    requires PathField in reference && reference[PathField] == path
    ensures (reference - {PathField})[PathField := path] == reference
    ensures (reference - {PathField}).Keys == {Sha256, Bytes} <==> reference.Keys == {PathField, Sha256, Bytes}
  {
    assert reference.Keys == (reference - {PathField}).Keys + {PathField};
  }

  lemma OneRow(join: Joiner, row: Row, defaults: Row, keys: set<Key>, coverage: bool, factored: bool)
    requires WellFormedRow(join, row) && Restores(defaults, row, keys, coverage)
    requires factored ==> NoReference(row) || (HasReference(row) && DerivedReference(join, row))
    ensures ExpandRow(join, defaults, factored, CompactRow(row, keys, coverage, factored))
            == if factored && !PlainReference(row) then None else Some(row)
  {
    hide Restores, CompactRow, ExpandRow, Merged;
    CoverageInRow(row, defaults, keys, coverage);
    PlainMember(join, row, defaults, keys, coverage, factored);
    PlainRow(row, defaults, keys, coverage, factored);
    CompactFields(row, keys, coverage, factored);
    ExpandMerges(join, row, defaults, CompactRow(row, keys, coverage, factored), keys, coverage, factored);
    if factored && HasReference(row) {
      ReferenceRestored(row[InspectionSummary].fields, Str(MemberPath(join, row, "inspection-summary.json")));
    }
  }

  /** Expansion merges the defaults back and then only deals with the reference. */
  lemma ExpandMerges(join: Joiner, row: Row, defaults: Row, member: Row, keys: set<Key>, coverage: bool, factored: bool)
    requires WellFormedRow(join, row) && Restores(defaults, row, keys, coverage) && Identified(member)
             && TerminalPath !in member
    requires coverage ==> Usage in member && member[Usage].Obj?
                          && defaults[Usage].fields + member[Usage].fields == row[Usage].fields
    requires MemberPath(join, member, "terminal.json") == MemberPath(join, row, "terminal.json")
    ensures ExpandRow(join, defaults, factored, member) ==
            (var merged := Merged(row, defaults, member, coverage);
             if !factored || NoReference(member) then Some(merged)
             else if !HasReference(member) || member[InspectionSummary].fields.Keys != {Sha256, Bytes} then None
             else Some(merged[InspectionSummary :=
                              Obj(member[InspectionSummary].fields[PathField :=
                                                                   Str(MemberPath(join, member,
                                                                       "inspection-summary.json"))])]))
  {
    hide NoReference, HasReference;
  }

  lemma ReservedNotShared()
    ensures forall k :: k in SHARED ==> k !in {Usage, TerminalPath, InspectionSummary, ArtifactRoot, RequestId}
  {
  }

  lemma FactoredRow(join: Joiner, rows: seq<Row>, i: nat)
    requires i < |rows|
    ensures Factored(join, rows) ==> NoReference(rows[i]) || (HasReference(rows[i]) && DerivedReference(join, rows[i]))
  {
  }

  lemma {:induction false} RowsExpand(join: Joiner, defaults: Row, ruled: bool, members: seq<Row>, rows: seq<Row>,
                                      plain: seq<bool>)
    requires ValidDefaults(defaults) && |members| == |rows| == |plain|
    requires forall i :: 0 <= i < |members| ==>
               ExpandRow(join, defaults, ruled, members[i]) == if plain[i] then Some(rows[i]) else None
    ensures ExpandRows(join, defaults, ruled, members) == if forall i :: 0 <= i < |plain| ==>
              plain[i] then Some(rows) else None
  {
    hide ExpandRow, ValidDefaults;
    if members != [] {
      RowsExpand(join, defaults, ruled, members[1..], rows[1..], plain[1..]);
      assert [rows[0]] + rows[1..] == rows;
      AllTrue(plain);
    }
  }

  lemma AllTrue(plain: seq<bool>)
    requires plain != []
    ensures (forall i :: 0 <= i < |plain| ==> plain[i]) <==>
              (plain[0] && forall i :: 0 <= i < |plain[1..]| ==> plain[1..][i])
  {
    if plain[0] && forall i :: 0 <= i < |plain[1..]| ==> plain[1..][i] {
      forall i | 0 <= i < |plain| ensures plain[i] { assert i > 0 ==> plain[i] == plain[1..][i - 1]; }
    }
  }

  /** Expanding a compacted summary gives the summary back, exactly when every reference that was factored carried
      only a path, a digest and a size; otherwise expansion refuses it. */
  lemma CompactRoundTrip(join: Joiner, s: Summary)
    requires WellFormedV1(join, s)
    ensures Expand(join, Compact(join, s)) ==
            if Factored(join, s.members) && exists i :: 0 <= i < |s.members|
                                                        && !PlainReference(s.members[i]) then None else Some(s)
  {
    hide Factored, PlainReference, ExpandRow, CompactRow, WellFormedRow, CoverageShared, SharedKeys, ValidDefaults,
         Defaults;
    var rows, c := s.members, Compact(join, s);
    var factored := Factored(join, rows);
    DefaultsValid(rows);
    RowsRoundTrip(join, rows);
    FieldsRoundTrip(s.fields, Defaults(rows), factored);
    assert Ruled(c) == factored && c.fields[MemberDefaults].fields == Defaults(rows);
  }

  lemma RowsRoundTrip(join: Joiner, rows: seq<Row>)
    requires forall i :: 0 <= i < |rows| ==> WellFormedRow(join, rows[i])
    requires ValidDefaults(Defaults(rows))
    ensures ExpandRows(join, Defaults(rows), Factored(join, rows), CompactRows(join, rows)) ==
            if Factored(join, rows) && exists i :: 0 <= i < |rows| && !PlainReference(rows[i]) then None else Some(rows)
  {
    var factored, members := Factored(join, rows), CompactRows(join, rows);
    var plain := seq(|rows|, i requires 0 <= i < |rows| => !factored || PlainReference(rows[i]));
    hide Factored, PlainReference, ExpandRow, CompactRow, WellFormedRow, CoverageShared, SharedKeys, HasCoverage,
         ValidDefaults, Defaults;
    forall i | 0 <= i < |rows| ensures ExpandRow(join, Defaults(rows), factored, members[i]) == if plain[i] then
      Some(rows[i]) else None {
      if CoverageShared(rows) { DefaultsAgree(rows, i); }
      RowRoundTrip(join, rows, i);
    }
    RowsExpand(join, Defaults(rows), factored, members, rows, plain);
  }

  lemma FieldsRoundTrip(fields: Row, defaults: Row, factored: bool)
    requires SchemaVersion in fields && fields[SchemaVersion] == V1
    requires MemberDefaults !in fields && TerminalPathRule !in fields && InspectionPathRule !in fields
    ensures var c := fields + map[SchemaVersion := V2, MemberDefaults := Obj(defaults),
                                  TerminalPathRule := TERMINAL_RULE]
                     + (if factored then map[InspectionPathRule := INSPECTION_RULE] else map[]);
            (c - {MemberDefaults, TerminalPathRule, InspectionPathRule})[SchemaVersion := V1] == fields
  {
  }

  /** A concrete summary that compacts but is refused on expansion: its inspection reference carries one more field. */
  lemma ExtraFieldRefused(join: Joiner)
    ensures var s := ExtraField(join); WellFormedV1(join, s) && Expand(join, Compact(join, s)) == None
  {
    var s := ExtraField(join);
    var row := s.members[0];
    assert HasReference(row) && DerivedReference(join, row);
    assert SourceReadEfficiency in row[InspectionSummary].fields.Keys;
    assert !PlainReference(row);
    CompactRoundTrip(join, s);
  }

  function ExtraField(join: Joiner): Summary {
    var path := Str(join("root", "id", "inspection-summary.json"));
    Summary(map[SchemaVersion := V1],
            [map[ArtifactRoot := Str("root"), RequestId := Str("id"),
                 TerminalPath := Str(join("root", "id", "terminal.json")),
                 SourceReadEfficiency := Null, ModelRoute := Null, ReasoningEffort := Null, RequestedTier := Null,
                 ObservedTier := Null,
                 InspectionSummary := Obj(map[PathField := path, Sha256 := Null, Bytes := Null,
                                              SourceReadEfficiency := Null])]])
  }

  // ----- what compaction and expansion change -----------------------------------------------------

  ghost predicate Agree(rows: seq<Row>, k: Key) {
    rows != [] && forall i, j :: 0 <= i < |rows| && 0 <= j < |rows| ==>
      k in rows[i] && k in rows[j] && rows[i][k] == rows[j][k]
  }

  ghost predicate CoverageAgrees(rows: seq<Row>) {
    && rows != []
    && (forall i :: 0 <= i < |rows| ==> Usage in rows[i] && rows[i][Usage].Obj? && Coverage in rows[i][Usage].fields)
    && forall i, j :: 0 <= i < |rows| && 0 <= j < |rows| ==>
      rows[i][Usage].fields[Coverage] == rows[j][Usage].fields[Coverage]
  }

  /** The row has no reference, or one whose path is where the row says it lies. */
  ghost predicate LiesInPlace(join: Joiner, row: Row) {
    InspectionSummary in row && !row[InspectionSummary].Null? ==>
      && row[InspectionSummary].Obj? && Identified(row) && PathField in row[InspectionSummary].fields
      && row[InspectionSummary].fields[PathField] ==
         Str(join(row[ArtifactRoot].text, row[RequestId].text, "inspection-summary.json"))
  }

  /** A field of a compacted row. */
  ghost predicate CompactField(row: Row, member: Row, k: Key, defaults: Row, ruled: bool) {
    && (k in member <==> k in row && k != TerminalPath && (k in defaults ==> k == Usage))
    && (k in member ==>
          if k == Usage && Usage in defaults then
            row[k].Obj? && Coverage in row[k].fields && member[k] == Obj(row[k].fields - {Coverage})
          else if k == InspectionSummary && ruled && row[k].Obj? then member[k] == Obj(row[k].fields - {PathField})
          else member[k] == row[k])
  }

  /** A shared field becomes a default exactly when all rows agree on it, and only then leaves the rows; the same for
      the coverage of the usage and, when every reference lies where its row says, for the references' paths. */
  lemma CompactsExactly(join: Joiner, s: Summary)
    requires WellFormedV1(join, s)
    ensures var c := Compact(join, s);
            && MemberDefaults in c.fields && c.fields[MemberDefaults].Obj? && |c.members| == |s.members|
            && var defaults := c.fields[MemberDefaults].fields;
            && (forall k :: k in SHARED ==> (k in defaults <==> Agree(s.members, k)))
            && (forall k, i :: k in SHARED && k in defaults && 0 <= i < |s.members| ==>
                  k in s.members[i] && defaults[k] == s.members[i][k])
            && (Usage in defaults <==> CoverageAgrees(s.members))
            && (forall i :: Usage in defaults && 0 <= i < |s.members| ==>
                  HasCoverage(s.members[i]) && defaults[Usage] ==
                    Obj(map[Coverage := s.members[i][Usage].fields[Coverage]]))
            && (forall k :: k in defaults ==> k in SHARED || k == Usage)
            && (InspectionPathRule in c.fields <==>
                  && (forall i :: 0 <= i < |s.members| ==> LiesInPlace(join, s.members[i]))
                  && exists i :: 0 <= i < |s.members| && InspectionSummary in s.members[i]
                       && s.members[i][InspectionSummary].Obj?)
            && (forall i, k :: 0 <= i < |s.members| ==>
                  CompactField(s.members[i], c.members[i], k, defaults, InspectionPathRule in c.fields))
            && (forall k :: k !in {SchemaVersion, MemberDefaults, TerminalPathRule, InspectionPathRule} ==>
                  (k in c.fields <==> k in s.fields) && (k in s.fields ==> c.fields[k] == s.fields[k]))
  {
    hide Factored, WellFormedRow, Defaults, SharedKeys, CompactRow, CompactField;
    var c, rows := Compact(join, s), s.members;
    var defaults := c.fields[MemberDefaults].fields;
    DefaultsExactly(rows);
    KeysShared(rows);
    CoverageAgree(rows);
    SharedOnly(rows);
    FactoredExactly(join, rows);
    assert defaults == Defaults(rows);
    hide CoverageAgrees, Agree;
    forall i, k | 0 <= i < |rows| ensures CompactField(rows[i], c.members[i], k, defaults, Factored(join, rows)) {
      assert CoverageShared(rows) ==> HasCoverage(rows[i]);
      CompactedField(rows[i], SharedKeys(rows), CoverageShared(rows), Factored(join, rows), k, defaults);
    }
  }

  lemma FactoredExactly(join: Joiner, rows: seq<Row>)
    ensures Factored(join, rows) <==>
            && (forall i :: 0 <= i < |rows| ==> LiesInPlace(join, rows[i]))
            && exists i :: 0 <= i < |rows| && InspectionSummary in rows[i] && rows[i][InspectionSummary].Obj?
  {
    forall i | 0 <= i < |rows|
      ensures LiesInPlace(join, rows[i]) <==>
              NoReference(rows[i]) || (HasReference(rows[i]) && DerivedReference(join, rows[i])) {}
  }

  lemma SharedOnly(rows: seq<Row>)
    ensures forall k :: k in Defaults(rows) <==> k in SharedKeys(rows) || (CoverageShared(rows) && k == Usage)
  {
    hide AllShare, CoverageShared;
  }

  lemma DefaultsExactly(rows: seq<Row>)
    ensures var defaults := Defaults(rows);
            && (forall k :: k in SHARED ==> (k in defaults <==> Agree(rows, k)))
            && (forall k, i :: k in SHARED && k in defaults && 0 <= i < |rows| ==>
                  k in rows[i] && defaults[k] == rows[i][k])
            && (Usage in defaults <==> CoverageAgrees(rows))
            && (forall i :: Usage in defaults && 0 <= i < |rows| ==>
                  HasCoverage(rows[i]) && defaults[Usage] == Obj(map[Coverage := rows[i][Usage].fields[Coverage]]))
            && (forall k :: k in defaults ==> k in SHARED || k == Usage)
  {
    assert Usage !in SHARED;
    forall k ensures AllShare(rows, k) <==> Agree(rows, k) { SharedAgree(rows, k); }
    CoverageAgree(rows);
    hide Agree, CoverageAgrees, HasCoverage;
  }

  lemma SharedAgree(rows: seq<Row>, k: Key)
    ensures AllShare(rows, k) <==> Agree(rows, k)
  {
  }

  lemma CoverageAgree(rows: seq<Row>)
    ensures CoverageShared(rows) <==> CoverageAgrees(rows)
  {
  }

  lemma CompactAt(row: Row, keys: set<Key>, coverage: bool, factored: bool, k: Key)
    requires keys !! {Usage, TerminalPath, InspectionSummary, ArtifactRoot, RequestId}
             && (coverage ==> HasCoverage(row))
    ensures var member := CompactRow(row, keys, coverage, factored);
            && (k in member <==> k in row && k !in keys && k != TerminalPath)
            && (k in member && k != Usage && k != InspectionSummary ==> member[k] == row[k])
            && (k in member && k == Usage ==> member[k] == if coverage then Obj(row[k].fields - {Coverage}) else row[k])
            && (k in member && k == InspectionSummary ==>
                  member[k] == if factored && row[k].Obj? then Obj(row[k].fields - {PathField}) else row[k])
  {
  }

  lemma CompactedField(row: Row, keys: set<Key>, coverage: bool, factored: bool, k: Key, defaults: Row)
    requires keys !! {Usage, TerminalPath, InspectionSummary, ArtifactRoot, RequestId}
             && (coverage ==> HasCoverage(row))
    requires forall x :: x in defaults <==> x in keys || (coverage && x == Usage)
    ensures CompactField(row, CompactRow(row, keys, coverage, factored), k, defaults, factored)
  {
    hide CompactRow;
    CompactAt(row, keys, coverage, factored, k);
    assert Usage !in keys;
  }

  // ----- expansion, row by row --------------------------------------------------------------------

  /** What a compacted member row must be for its expansion to be accepted. */
  ghost predicate Expandable(member: Row, defaults: Row, ruled: bool) {
    && TerminalPath !in member && Identified(member)
    && (Usage in defaults ==> Usage in member && member[Usage].Obj?)
    && (ruled && InspectionSummary in member && !member[InspectionSummary].Null? ==>
          member[InspectionSummary].Obj? && member[InspectionSummary].fields.Keys == {Sha256, Bytes})
  }

  /** A field of an expanded row: its own value if the member has one, else the default; the coverage, the terminal
      path and the path of a reference are put back. */
  ghost predicate ExpandedField(join: Joiner, member: Row, row: Row, k: Key, defaults: Row, ruled: bool)
    requires Expandable(member, defaults, ruled) && ValidDefaults(defaults)
  {
    && (k in row <==> k in member || k in defaults || k == TerminalPath)
    && (k in row ==>
          if k == TerminalPath then row[k] == Str(MemberPath(join, member, "terminal.json"))
          else if k == Usage && Usage in defaults then
            row[k] == Obj(defaults[Usage].fields + member[Usage].fields)
          else if k == InspectionSummary && ruled && k in member && !member[k].Null? then
            row[k] == Obj(member[k].fields[PathField := Str(MemberPath(join, member, "inspection-summary.json"))])
          else row[k] == if k in member then member[k] else defaults[k])
  }

  lemma RowExpands(join: Joiner, defaults: Row, ruled: bool, member: Row)
    requires ValidDefaults(defaults)
    ensures ExpandRow(join, defaults, ruled, member).Some? <==> Expandable(member, defaults, ruled)
  {
  }

  /** The row before the path of its reference is put back. */
  function Filled(join: Joiner, defaults: Row, member: Row): Row
    requires Identified(member) && (Usage in defaults ==> defaults[Usage].Obj? && Usage in member && member[Usage].Obj?)
  {
    var row := defaults + member;
    (if Usage in defaults then row[Usage := Obj(defaults[Usage].fields + member[Usage].fields)]
     else row)[TerminalPath := Str(MemberPath(join, member, "terminal.json"))]
  }

  lemma FilledField(join: Joiner, defaults: Row, member: Row, k: Key)
    requires Identified(member) && (Usage in defaults ==> defaults[Usage].Obj? && Usage in member && member[Usage].Obj?)
    ensures var row := Filled(join, defaults, member);
            && (k in row <==> k in member || k in defaults || k == TerminalPath)
            && (k in row ==>
                  if k == TerminalPath then row[k] == Str(MemberPath(join, member, "terminal.json"))
                  else if k == Usage && Usage in defaults then
                    row[k] == Obj(defaults[Usage].fields + member[Usage].fields)
                  else row[k] == if k in member then member[k] else defaults[k])
  {
    hide Identified;
  }

  lemma ExpandFilled(join: Joiner, defaults: Row, ruled: bool, member: Row)
    requires ValidDefaults(defaults) && Expandable(member, defaults, ruled)
    ensures ExpandRow(join, defaults, ruled, member) ==
            Some(if ruled && HasReference(member) then
                   Filled(join, defaults, member)[InspectionSummary :=
                     Obj(member[InspectionSummary].fields[PathField :=
                                                          Str(MemberPath(join, member, "inspection-summary.json"))])]
                 else Filled(join, defaults, member))
  {
  }

  lemma RowExpandsTo(join: Joiner, defaults: Row, ruled: bool, member: Row, k: Key)
    requires ValidDefaults(defaults) && Expandable(member, defaults, ruled)
    ensures ExpandRow(join, defaults, ruled, member).Some?
    ensures ExpandedField(join, member, ExpandRow(join, defaults, ruled, member).value, k, defaults, ruled)
  {
    hide ExpandRow, Filled, Identified;
    ExpandFilled(join, defaults, ruled, member);
    FilledField(join, defaults, member, k);
  }

  lemma {:induction false} RowsExpandExactly(join: Joiner, defaults: Row, ruled: bool, members: seq<Row>)
    requires ValidDefaults(defaults)
    ensures var r := ExpandRows(join, defaults, ruled, members);
            && (r.Some? <==> forall i :: 0 <= i < |members| ==> Expandable(members[i], defaults, ruled))
            && (r.Some? ==> |r.value| == |members| && forall i :: 0 <= i < |members| ==>
                  ExpandRow(join, defaults, ruled, members[i]) == Some(r.value[i]))
    decreases |members|
  {
    hide ValidDefaults, Expandable, ExpandRow;
    if members != [] {
      RowExpands(join, defaults, ruled, members[0]);
      RowsExpandExactly(join, defaults, ruled, members[1..]);
      if forall i :: 0 <= i < |members[1..]| ==> Expandable(members[1..][i], defaults, ruled) {
        forall i | 1 <= i < |members| ensures Expandable(members[i], defaults, ruled) {
          assert Expandable(members[1..][i - 1], defaults, ruled);
        }
      }
      var r := ExpandRows(join, defaults, ruled, members);
      if r.Some? {
        forall i | 1 <= i < |members| ensures ExpandRow(join, defaults, ruled, members[i]) == Some(r.value[i]) {
          assert ExpandRow(join, defaults, ruled,
                           members[1..][i - 1]) == Some(ExpandRows(join, defaults, ruled, members[1..]).value[i - 1]);
        }
      }
    }
  }

  /** A summary of the second version is expanded exactly when its rules, its defaults and all its rows are valid, and
      then field by field. */
  lemma ExpandsExactly(join: Joiner, c: Summary)
    requires SchemaVersion in c.fields && c.fields[SchemaVersion] == V2
    ensures Expand(join, c).Some? <==>
            && TerminalPathRule in c.fields && c.fields[TerminalPathRule] == TERMINAL_RULE
            && MemberDefaults in c.fields && c.fields[MemberDefaults].Obj?
            && (InspectionPathRule in c.fields ==> c.fields[InspectionPathRule] in {Null, INSPECTION_RULE})
            && var defaults := c.fields[MemberDefaults].fields;
            && (forall k :: k in defaults ==> k in SHARED || k == Usage)
            && (Usage in defaults ==> defaults[Usage].Obj? && defaults[Usage].fields.Keys == {Coverage})
            && forall i :: 0 <= i < |c.members| ==> Expandable(c.members[i], defaults, Ruled(c))
    ensures Expand(join, c).Some? ==>
              var s, defaults := Expand(join, c).value, c.fields[MemberDefaults].fields;
              && SchemaVersion in s.fields && s.fields[SchemaVersion] == V1 && |s.members| == |c.members|
              && (forall k :: k != SchemaVersion ==>
                    && (k in s.fields <==> k in c.fields
                                           && k !in {MemberDefaults, TerminalPathRule, InspectionPathRule})
                    && (k in s.fields ==> s.fields[k] == c.fields[k]))
              && forall i, k :: 0 <= i < |c.members| ==>
                   && Expandable(c.members[i], defaults, Ruled(c))
                   && ExpandedField(join, c.members[i], s.members[i], k, defaults, Ruled(c))
  {
    hide Expandable, ExpandRow, ExpandedField, ExpandRows;
    if ValidSummary(c) {
      var defaults := c.fields[MemberDefaults].fields;
      RowsExpandExactly(join, defaults, Ruled(c), c.members);
      if Expand(join, c).Some? {
        forall i, k | 0 <= i < |c.members|
          ensures ExpandedField(join, c.members[i], Expand(join, c).value.members[i], k, defaults, Ruled(c))
        {
          RowExpandsTo(join, defaults, Ruled(c), c.members[i], k);
        }
      }
    }
  }
}
