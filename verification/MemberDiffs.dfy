/**
 From recorded diff texts to inlined diffs: parsing each text into sections, charging its worst-case manifest, sharing
 the budget, and listing what was cut.
 */
module MemberDiffs {
  import opened Records
  import opened Text
  import opened Diff
  import opened DiffDelivery
  import opened Summary
  import opened SummaryEncoding

  // ----- lines of text that is not a diff ------------------------------------------------------

  /** Where Python's `splitlines` ends a line. */
  predicate Boundary(c: char) {
    var n := c as int;
    10 <= n <= 13 || 28 <= n <= 30 || n == 0x85 || n == 0x2028 || n == 0x2029
  }

  function BreakLength(text: string): (n: nat)
    requires text != ""
    ensures 0 < n <= |text|
  {
    if Boundary(text[0]) then if text[0] == '\r' && |text| > 1 && text[1] == '\n' then 2 else 1
    else if |text| == 1 then 1
    else 1 + BreakLength(text[1..])
  }

  function SplitLines(text: string): seq<string>
    decreases |text|
  {
    if text == "" then [] else [text[..BreakLength(text)]] + SplitLines(text[BreakLength(text)..])
  }

  lemma {:induction false} SplitJoin(text: string)
    ensures Concat(SplitLines(text)) == text
    decreases |text|
  {
    if text != "" {
      SplitJoin(text[BreakLength(text)..]);
      assert SplitLines(text)[1..] == SplitLines(text[BreakLength(text)..]);
    }
  }

  // ----- test paths ------------------------------------------------------------------------------

  function Parts(path: string): (r: seq<string>)
    ensures |r| > 0
  {
    if path == "" then [""]
    else
      var rest := Parts(path[1..]);
      if path[0] == '/' then [""] + rest else [[path[0]] + rest[0]] + rest[1..]
  }

  predicate EndsWith(s: string, suffix: string) {
    |suffix| <= |s| && s[|s| - |suffix|..] == suffix
  }

  /** Named like a test: a prefix, `conftest.py`, or a marked stem before the only remaining extension. */
  predicate TestFile(name: string) {
    || StartsWith(name, "test_") || StartsWith(name, "tests_") || name == "conftest.py"
    || exists dot :: && 0 <= dot < |name| - 1 && name[dot] == '.' && (forall i :: dot < i < |name| ==> name[i] != '.')
                     && (EndsWith(name[..dot], "_test") || EndsWith(name[..dot], "_tests")
                         || EndsWith(name[..dot], "_spec")
                         || EndsWith(name[..dot], ".test") || EndsWith(name[..dot], ".spec"))
  }

  predicate TestPath(path: string) {
    var parts := Parts(path);
    || (exists i :: 0 <= i < |parts| - 1 && parts[i] in ["test", "tests", "testing", "__tests__", "spec", "specs"])
    || TestFile(parts[|parts| - 1])
  }

  // ----- manifests -------------------------------------------------------------------------------

  function Entry(mark: string, path: string): Json { Obj(map[Inline := Str(mark), PathField := Str(path)]) }

  function Manifest(entries: seq<Json>): Json { Obj(map[DiffInlineFiles := Arr(entries)]) }

  /** Quotes around the diff, and for a parsed diff the manifest that names every file as omitted. */
  ghost function Charge(paths: seq<string>, parsed: bool): nat {
    2 + if parsed then EncodedSize(Manifest(Omitted(paths))) + 2 else 0
  }

  function Omitted(paths: seq<string>): (r: seq<Json>)
    ensures |r| == |paths|
  {
    if paths == [] then [] else Omitted(paths[..|paths| - 1]) + [Entry("omitted", paths[|paths| - 1])]
  }

  /** The files that are not inlined whole. */
  function Short(sections: seq<Section>, kept: seq<Kept>, paths: seq<string>): (r: seq<Json>)
    requires |kept| == |sections| == |paths|
    ensures |r| <= |paths|
    decreases |paths|
  {
    if paths == [] then []
    else
      var n := |paths| - 1;
      Short(sections[..n], kept[..n], paths[..n])
      + if Whole(sections[n], kept[n]) then [] else [Entry(if kept[n].None? then "omitted" else "partial", paths[n])]
  }

  /** File `i` is not inlined whole, and the entry says whether some of it is. */
  ghost predicate Misses(section: Section, kept: Kept, path: string, entry: Json) {
    && !Whole(section, kept)
    && entry == Obj(map[PathField := Str(path), Inline := Str(if kept.Some? then "partial" else "omitted")])
  }

  lemma EntryMisses(section: Section, kept: Kept, path: string, entry: Json)
    requires !Whole(section, kept)
    ensures Misses(section, kept, path, entry) <==> entry == Entry(if kept.None? then "omitted" else "partial", path)
  {
    hide Whole;
    var mark := if kept.Some? then "partial" else "omitted";
    assert map[Inline := Str(mark), PathField := Str(path)] == map[PathField := Str(path), Inline := Str(mark)];
  }

  /** The manifest names exactly the files that are not inlined whole: omitted without any of their lines, and else as
      partial. */
  lemma {:induction false} ShortExactly(sections: seq<Section>, kept: seq<Kept>, paths: seq<string>, entry: Json)
    requires |kept| == |sections| == |paths|
    ensures entry in Short(sections, kept, paths) <==>
            exists i :: 0 <= i < |paths| && Misses(sections[i], kept[i], paths[i], entry)
    decreases |paths|
  {
    hide Whole, Misses, Entry;
    if paths != [] {
      var n := |paths| - 1;
      var ss, ks, ps := sections[..n], kept[..n], paths[..n];
      ShortExactly(ss, ks, ps, entry);
      assert Misses(sections[n], kept[n], paths[n], entry) ==>
        !Whole(sections[n], kept[n]) by { MissesNotWhole(sections[n], kept[n], paths[n], entry); }
      if !Whole(sections[n], kept[n]) { EntryMisses(sections[n], kept[n], paths[n], entry); }
      if entry in Short(ss, ks, ps) {
        var i :| 0 <= i < n && Misses(ss[i], ks[i], ps[i], entry);
        assert Misses(sections[i], kept[i], paths[i], entry);
      }
      if i :| 0 <= i < n && Misses(sections[i], kept[i], paths[i], entry) { assert Misses(ss[i], ks[i], ps[i], entry); }
    }
  }

  lemma MissesNotWhole(section: Section, kept: Kept, path: string, entry: Json)
    ensures Misses(section, kept, path, entry) ==> !Whole(section, kept)
  {
    hide Whole;
  }

  ghost function ListSum(items: seq<Json>): nat {
    if items == [] then 0 else ListSum(items[..|items| - 1]) + EncodedSize(items[|items| - 1])
  }

  lemma {:induction false} SumToList(items: seq<Json>, n: nat)
    requires n <= |items|
    ensures SumTo(n, ItemSizes(Arr(items))) == ListSum(items[..n])
    decreases n
  {
    hide EncodedSize;
    if n == 0 {
      assert items[..0] == [];
    } else {
      SumToList(items, n - 1);
      assert items[..n][..n - 1] == items[..n - 1];
    }
  }

  lemma ListLength(items: seq<Json>)
    ensures EncodedSize(Arr(items)) == 2 + ListSum(items) + Separators(|items|)
  {
    SumToList(items, |items|);
    assert items[..|items|] == items;
  }

  predicate Plain(s: string) {
    forall i :: 0 <= i < |s| ==> CharCost(s[i]) == 1
  }

  lemma {:induction false} PlainCost(s: string)
    requires Plain(s)
    ensures Cost(s) == |s|
  {
    if s != "" {
      assert CharCost(s[0]) == 1;
      PlainCost(s[1..]);
    }
  }

  /** Both marks are equally long, so it does not matter which one a file gets. */
  lemma MarksEqual(path: string)
    ensures EncodedSize(Entry("partial", path)) == EncodedSize(Entry("omitted", path))
  {
    hide EncodedSize, Cost;
    var fields := map[Inline := Str("omitted"), PathField := Str(path)];
    MarkCosts();
    FieldSet(fields, Inline, Str("partial"));
    assert fields[Inline := Str("partial")] == map[Inline := Str("partial"), PathField := Str(path)];
    StringSizes("omitted", "partial");
  }

  lemma MarkCosts()
    ensures Cost("omitted") == Cost("partial")
  {
    hide Cost;
    PlainCost("omitted");
    PlainCost("partial");
  }

  lemma StringSizes(a: string, b: string)
    requires Cost(a) == Cost(b)
    ensures EncodedSize(Str(a)) == EncodedSize(Str(b))
  {
  }

  lemma {:induction false} ShortWithinOmitted(sections: seq<Section>, kept: seq<Kept>, paths: seq<string>)
    requires |kept| == |sections| == |paths|
    ensures ListSum(Short(sections, kept, paths)) <= ListSum(Omitted(paths))
    decreases |paths|
  {
    hide EncodedSize, Whole, Entry;
    if paths != [] {
      var n := |paths| - 1;
      ShortWithinOmitted(sections[..n], kept[..n], paths[..n]);
      MarksEqual(paths[n]);
      var front := Short(sections[..n], kept[..n], paths[..n]);
      assert (front + [Entry("omitted", paths[n])])[..|front|] == front
        && (front + [Entry("partial", paths[n])])[..|front|] == front;
      assert Omitted(paths)[..n] == Omitted(paths[..n]);
      assert front + [] == front;
    }
  }

  /** The manifest that is written is never longer than the one that was charged. */
  lemma ManifestWithinCharge(sections: seq<Section>, kept: seq<Kept>, paths: seq<string>)
    requires |kept| == |sections| == |paths|
    ensures EncodedSize(Manifest(Short(sections, kept, paths))) <= EncodedSize(Manifest(Omitted(paths)))
  {
    hide EncodedSize, Short, Omitted;
    var short, all := Short(sections, kept, paths), Omitted(paths);
    ShortWithinOmitted(sections, kept, paths);
    ListLength(short);
    ListLength(all);
    FieldsShrink(map[DiffInlineFiles := Arr(short)], map[DiffInlineFiles := Arr(all)]);
  }

  // ----- one member ------------------------------------------------------------------------------

  function PathsOf(parts: seq<(string, string)>): (r: seq<string>)
    ensures |r| == |parts|
  {
    seq(|parts|, i requires 0 <= i < |parts| => parts[i].0)
  }

  function ParsedPaths(text: string): Option<seq<string>> {
    var parsed := Parse(text, false);
    if parsed.None? then None else Some(PathsOf(parsed.value.sections))
  }

  /** What a member's recorded text is delivered as. */
  ghost predicate Represents(d: Delivery, paths: seq<string>, text: string) {
    && WellFormed(d) && FullText(d.sections) == text && |paths| == |d.sections|
    && d.parsed == ParsedPaths(text).Some? && d.charge == Charge(paths, d.parsed)
    && (d.parsed ==> ParsedPaths(text) == Some(paths))
  }

  method MemberDelivery(text: string) returns (d: Delivery, paths: seq<string>)
    requires text != ""
    ensures Represents(d, paths, text)
  {
    hide Parse, Lines, EncodedSize, TestPath, Concat;
    var parsed := DiffSections(text, false);
    if parsed.None? {
      SplitJoin(text);
      CostPositive(text);
      var s := Section(SplitLines(text), false);
      assert FullText([s]) == text by { OneSection(s); }
      return Delivery([s], false, 2), [""];
    }
    var parts := parsed.value.sections;
    ParsedSectionsHaveHunks(text, false);
    SectionsConcatenate(text, false);
    paths := PathsOf(parts);
    forall i | 0 <= i < |parts| ensures Terminated(parts[i].1) { PartLines(parts, i); }
    var sections := seq(|parts|, i requires 0 <= i < |parts| => Section(Lines(parts[i].1), TestPath(parts[i].0)));
    var manifest := Measure(Manifest(Omitted(paths)));
    d := Delivery(sections, true, 2 + (manifest + 2));
    forall i | 0 <= i < |parts|
      ensures SectionCost(sections[i]) > 0 && |sections[i].lines| > 2 && StartsWith(sections[i].lines[2], "@@")
              && Concat(sections[i].lines) == parts[i].1
    {
      PartLines(parts, i);
      CostPositive(parts[i].1);
    }
    SectionsText(sections, parts);
  }

  lemma PartLines(parts: seq<(string, string)>, i: nat)
    requires i < |parts| && forall s :: s in parts ==> HasHunk(s.1)
    ensures Terminated(parts[i].1) && |Lines(parts[i].1)| > 2 && StartsWith(Lines(parts[i].1)[2], "@@")
            && Concat(Lines(parts[i].1)) == parts[i].1
  {
    assert parts[i] in parts;
    LinesJoin(parts[i].1);
  }

  lemma CostPositive(text: string)
    requires text != ""
    ensures Cost(text) > 0
  {
  }

  lemma OneSection(s: Section)
    ensures FullText([s]) == Concat(s.lines)
  {
    var none: seq<Section> := [];
    assert [s][1..] == none;
  }

  lemma {:induction false} SectionsText(sections: seq<Section>, parts: seq<(string, string)>)
    requires |sections| == |parts| && forall i :: 0 <= i < |parts| ==> Concat(sections[i].lines) == parts[i].1
    ensures FullText(sections) == Concat(Texts(parts))
  {
    if parts != [] {
      assert Texts(parts)[1..] == Texts(parts[1..]);
      SectionsText(sections[1..], parts[1..]);
    }
  }

  // ----- all members -----------------------------------------------------------------------------

  lemma {:induction false} DeliveredCost(sections: seq<Section>, kept: seq<Kept>)
    requires AllInlined(sections, kept)
    ensures Cost(Delivered(sections, kept)) == PhaseSpent(sections, kept, false) + PhaseSpent(sections, kept, true)
  {
    if kept != [] {
      DeliveredCost(sections[1..], kept[1..]);
      CostAppend(if kept[0].Some? then Concat(sections[0].lines[..kept[0].value]) else "",
                 Delivered(sections[1..], kept[1..]));
    }
  }

  lemma {:induction false} FullCost(sections: seq<Section>)
    ensures Cost(FullText(sections)) == Need(sections, false) + Need(sections, true)
  {
    if sections != [] {
      FullCost(sections[1..]);
      CostAppend(Concat(sections[0].lines), FullText(sections[1..]));
    }
  }

  lemma {:induction false} SumOfSums(a: seq<nat>, b: seq<nat>, c: seq<nat>)
    requires |a| == |b| == |c| && forall i :: 0 <= i < |a| ==> c[i] == a[i] + b[i]
    ensures Sum(c) == Sum(a) + Sum(b)
  {
    if a != [] { SumOfSums(a[1..], b[1..], c[1..]); }
  }

  /** What one member adds to the summary: its quoted text, and the manifest if files are cut or missing. */
  ghost function Added(diff: string, manifest: seq<Json>): nat {
    2 + Cost(diff) + if manifest != [] then EncodedSize(Manifest(manifest)) + 2 else 0
  }

  ghost function AllAdded(diffs: seq<string>, manifests: seq<seq<Json>>): (r: seq<nat>)
    requires |diffs| == |manifests|
    ensures |r| == |diffs| && forall m :: 0 <= m < |r| ==> r[m] == Added(diffs[m], manifests[m])
  {
    seq(|diffs|, m requires 0 <= m < |diffs| => Added(diffs[m], manifests[m]))
  }

  function Costs(texts: seq<string>): (r: seq<nat>)
    ensures |r| == |texts| && forall m :: 0 <= m < |r| ==> r[m] == Cost(texts[m])
  {
    seq(|texts|, m requires 0 <= m < |texts| => Cost(texts[m]))
  }

  /** Inlines all recorded diffs: a member not marked truncated carries exactly its recorded text, everything is inlined
      if the texts and their charges fit, and nothing is added beyond the budget unless the charges alone exceed it. */
  method DeliverDiffs(texts: seq<string>, budget: int)
    returns (diffs: seq<string>, truncated: seq<bool>, manifests: seq<seq<Json>>, ghost members: seq<Delivery>,
             ghost paths: seq<seq<string>>)
    requires forall m :: 0 <= m < |texts| ==> texts[m] != ""
    ensures |diffs| == |truncated| == |manifests| == |members| == |paths| == |texts|
    ensures forall m :: 0 <= m < |texts| ==> Represents(members[m], paths[m], texts[m])
    ensures forall m :: 0 <= m < |texts| && !truncated[m] ==> diffs[m] == texts[m] && manifests[m] == []
    ensures Sum(Costs(texts)) + Sum(Charges(members)) <= budget ==> forall m :: 0 <= m < |texts| ==> !truncated[m]
    ensures Sum(Charges(members)) <= budget ==> Sum(AllAdded(diffs, manifests)) <= budget
  {
    hide Represents, Sum, Truncated, Delivered, AllWhole, Need, PhaseSpent, WellFormed, Share, Short, Cost;
    var deliveries, names, i := [], [], 0;
    while i < |texts|
      invariant 0 <= i <= |texts| && |deliveries| == |names| == i
      invariant forall m :: 0 <= m < i ==> Represents(deliveries[m], names[m], texts[m])
    {
      var d, p := MemberDelivery(texts[i]);
      deliveries, names := deliveries + [d], names + [p];
      i := i + 1;
    }
    members, paths := deliveries, names;
    forall m | 0 <= m < |texts| ensures WellFormed(members[m]) && |paths[m]| == |members[m].sections| {
      RepresentedShape(members[m], paths[m], texts[m]);
    }
    var kept;
    kept, truncated := InlineDiffs(deliveries, budget);
    diffs := seq(|texts|, m requires 0 <= m < |texts| => Delivered(deliveries[m].sections, kept[m]));
    manifests := seq(|texts|, m requires 0 <= m < |texts| => if deliveries[m].parsed then
                     Short(deliveries[m].sections, kept[m], names[m]) else []);
    forall m | 0 <= m < |texts| && !truncated[m] ensures diffs[m] == texts[m] && manifests[m] == [] {
      CompleteIsRecorded(members[m], paths[m], texts[m], kept[m]);
    }
    TextsNeeded(members, paths, texts);
    AddedWithinBudget(members, paths, texts, kept, diffs, manifests);
  }

  lemma RepresentedShape(d: Delivery, paths: seq<string>, text: string)
    requires Represents(d, paths, text)
    ensures WellFormed(d) && |paths| == |d.sections| && FullText(d.sections) == text
            && d.charge == Charge(paths, d.parsed)
  {
    hide ParsedPaths;
  }

  lemma CompleteIsRecorded(d: Delivery, paths: seq<string>, text: string, kept: seq<Kept>)
    requires Represents(d, paths, text) && AllInlined(d.sections, kept) && !Truncated(d.sections, kept)
    ensures Delivered(d.sections, kept) == text && |paths| == |d.sections| && Short(d.sections, kept, paths) == []
  {
    hide Represents;
    RepresentedShape(d, paths, text);
    UntruncatedIsComplete(d.sections, kept);
    NothingShort(d.sections, kept, paths);
  }

  lemma {:induction false} NothingShort(sections: seq<Section>, kept: seq<Kept>, paths: seq<string>)
    requires |kept| == |sections| == |paths| && !Truncated(sections, kept)
    ensures Short(sections, kept, paths) == []
    decreases |paths|
  {
    if paths != [] {
      var n := |paths| - 1;
      assert forall i :: 0 <= i < |kept| ==> Whole(sections[i], kept[i]);
      NothingShort(sections[..n], kept[..n], paths[..n]);
    }
  }

  lemma TextsNeeded(members: seq<Delivery>, paths: seq<seq<string>>, texts: seq<string>)
    requires |members| == |paths| == |texts| && forall m :: 0 <= m < |texts| ==>
               Represents(members[m], paths[m], texts[m])
    ensures Sum(Costs(texts)) == Sum(Needs(members, false)) + Sum(Needs(members, true))
  {
    hide Represents, Cost, Need, Sum;
    forall m | 0 <= m < |texts| ensures Cost(texts[m]) == Need(members[m].sections, false) + Need(members[m].sections,
        true) {
      RepresentedShape(members[m], paths[m], texts[m]);
      FullCost(members[m].sections);
    }
    SumOfSums(Needs(members, false), Needs(members, true), Costs(texts));
  }

  lemma AddedWithinBudget(members: seq<Delivery>, paths: seq<seq<string>>, texts: seq<string>, kept: seq<seq<Kept>>,
                          diffs: seq<string>, manifests: seq<seq<Json>>)
    requires |members| == |paths| == |texts| == |diffs| == |manifests| && Batched(members, kept)
    requires forall m :: 0 <= m < |texts| ==>
               Represents(members[m], paths[m], texts[m]) && |paths[m]| == |members[m].sections|
    requires forall m :: 0 <= m < |texts| ==>
               && diffs[m] == Delivered(members[m].sections, kept[m])
               && manifests[m] == if members[m].parsed then Short(members[m].sections, kept[m], paths[m]) else []
    ensures Sum(AllAdded(diffs, manifests)) <= Sum(Given(members, kept, false)) + Sum(Given(members, kept, true))
            + Sum(Charges(members))
  {
    hide Represents, Cost, Sum, Delivered, Short, PhaseSpent, WellFormed, Added;
    var spent := seq(|texts|, m requires 0 <= m < |texts| => Given(members, kept, false)[m] + Given(members, kept,
        true)[m]);
    SumOfSums(Given(members, kept, false), Given(members, kept, true), spent);
    var total := seq(|texts|, m requires 0 <= m < |texts| => spent[m] + members[m].charge);
    SumOfSums(spent, Charges(members), total);
    forall m | 0 <= m < |texts| ensures Added(diffs[m], manifests[m]) <= total[m] {
      MemberWithin(members[m], paths[m], texts[m], kept[m]);
    }
    SumMonotone(AllAdded(diffs, manifests), total);
  }

  lemma MemberWithin(d: Delivery, paths: seq<string>, text: string, kept: seq<Kept>)
    requires Represents(d, paths, text) && |paths| == |d.sections| && AllInlined(d.sections, kept)
    ensures Added(Delivered(d.sections, kept), if d.parsed then Short(d.sections, kept, paths) else [])
            <= PhaseSpent(d.sections, kept, false) + PhaseSpent(d.sections, kept, true) + d.charge
  {
    hide Represents, Cost, Short, EncodedSize, Manifest, Delivered, PhaseSpent;
    RepresentedShape(d, paths, text);
    DeliveredCost(d.sections, kept);
    ManifestWithinCharge(d.sections, kept, paths);
  }
}
