/**
 Delivering member diffs inside a byte budget: cutting one section at line boundaries, and sharing the budget
 fairly among the members, implementation files before tests.
 */
module DiffDelivery {
  import opened Records
  import opened Text

  // ----- the cost of text in an ASCII JSON string ------------------------------------------

  function CharCost(c: char): (n: nat)
    ensures n > 0
  {
    if c in "\"\\\n\r\t" || c as int == 8 || c as int == 12 then 2
    else if 0x20 <= c as int <= 0x7e then 1
    else if c as int < 0x10000 then 6
    else 12
  }

  function Cost(text: string): nat {
    if text == "" then 0 else CharCost(text[0]) + Cost(text[1..])
  }

  lemma {:induction false} CostAppend(a: string, b: string)
    ensures Cost(a + b) == Cost(a) + Cost(b)
  {
    if a == "" {
      assert a + b == b;
    } else {
      assert (a + b)[1..] == a[1..] + b;
      CostAppend(a[1..], b);
    }
  }

  /** The cost of the first lines. */
  function PrefixCost(lines: seq<string>, k: nat): nat
    requires k <= |lines|
  {
    Cost(Concat(lines[..k]))
  }

  lemma PrefixCostGrows(lines: seq<string>, j: nat, k: nat)
    requires j <= k <= |lines|
    ensures PrefixCost(lines, k) == PrefixCost(lines, j) + Cost(Concat(lines[j..k]))
  {
    assert lines[..k] == lines[..j] + lines[j..k];
    ConcatAppend(lines[..j], lines[j..k]);
    CostAppend(Concat(lines[..j]), Concat(lines[j..k]));
  }

  lemma PrefixCostNext(lines: seq<string>, k: nat)
    requires k < |lines|
    ensures PrefixCost(lines, k + 1) == PrefixCost(lines, k) + Cost(lines[k])
  {
    PrefixCostGrows(lines, k, k + 1);
    assert lines[k..k + 1] == [lines[k]];
    assert Concat([lines[k]]) == lines[k] + Concat([]) == lines[k];
  }

  // ----- cutting a section -----------------------------------------------------------------

  predicate HunkStart(lines: seq<string>, i: nat) {
    i == |lines| || (2 <= i < |lines| && StartsWith(lines[i], "@@"))
  }

  /** The lines kept of a section: whole hunks as long as they fit, or else lines of the first hunk. */
  ghost predicate LongestCut(lines: seq<string>, limit: nat, k: nat) {
    && 2 < k <= |lines| && PrefixCost(lines, k) <= limit
    && if HunkStart(lines, k) then forall b :: k < b <= |lines| && HunkStart(lines, b) ==> PrefixCost(lines, b) > limit
       else
         && (forall b :: 2 < b <= |lines| && HunkStart(lines, b) ==> PrefixCost(lines, b) > limit)
         && PrefixCost(lines, k + 1) > limit
  }

  function NextStart(lines: seq<string>, i: nat): (r: nat)
    requires 2 <= i < |lines|
    ensures i < r <= |lines| && HunkStart(lines, r) && forall b :: i < b < r ==> !HunkStart(lines, b)
    decreases |lines| - i
  {
    if HunkStart(lines, i + 1) then i + 1 else NextStart(lines, i + 1)
  }

  lemma CostlierLater(lines: seq<string>, limit: nat, k: nat)
    requires k <= |lines| && PrefixCost(lines, k) > limit
    ensures forall b :: k <= b <= |lines| ==> PrefixCost(lines, b) > limit
  {
    hide PrefixCost;
    forall b | k <= b <= |lines| ensures PrefixCost(lines, b) > limit { PrefixCostGrows(lines, k, b); }
  }

  /** A parsed section starts with its two header lines and a hunk. */
  method CutSection(lines: seq<string>, limit: nat) returns (kept: nat)
    requires |lines| > 2 && StartsWith(lines[2], "@@")
    ensures kept == 0 || LongestCut(lines, limit, kept)
    ensures kept == 0 <==> PrefixCost(lines, 3) > limit
  {
    hide PrefixCost, StartsWith;
    var cost := PrefixCost(lines, 2);
    kept := 2;
    PrefixCostGrows(lines, 2, 3);
    if cost > limit { return 0; }
    var begin := 2;
    while begin < |lines|
      invariant 2 <= begin <= |lines| && HunkStart(lines, begin)
      invariant kept == begin && cost == PrefixCost(lines, kept) <= limit
      decreases |lines| - begin
    {
      var end := NextStart(lines, begin);
      var size := Cost(Concat(lines[begin..end]));
      PrefixCostGrows(lines, begin, end);
      if cost + size > limit {
        CostlierLater(lines, limit, end);
        if kept == 2 {
          while kept < end && cost + Cost(lines[kept]) <= limit
            invariant 2 <= kept <= end && cost == PrefixCost(lines, kept) <= limit
          {
            PrefixCostNext(lines, kept);
            kept, cost := kept + 1, cost + Cost(lines[kept]);
          }
          PrefixCostNext(lines, kept);
        }
        break;
      }
      kept, cost, begin := end, cost + size, end;
    }
    if kept == 2 { return 0; }
    PrefixCostGrows(lines, 3, kept);
  }

  /** Text that is not a parsed diff is cut after the last line that fits. */
  method CutLines(lines: seq<string>, limit: nat) returns (kept: nat)
    ensures kept <= |lines| && PrefixCost(lines, kept) <= limit
    ensures kept < |lines| ==> PrefixCost(lines, kept + 1) > limit
  {
    hide PrefixCost;
    assert PrefixCost(lines, 0) == 0 by { NoLines(lines); }
    kept := 0;
    var cost := 0;
    while kept < |lines|
      invariant 0 <= kept <= |lines| && cost == PrefixCost(lines, kept) <= limit
    {
      PrefixCostNext(lines, kept);
      cost := cost + Cost(lines[kept]);
      if cost > limit { break; }
      kept := kept + 1;
    }
  }

  lemma NoLines(lines: seq<string>)
    ensures PrefixCost(lines, 0) == 0
  {
    assert lines[..0] == [];
  }

  // ----- sharing the budget ------------------------------------------------------------------

  datatype Section = Section(lines: seq<string>, test: bool)

  function SectionCost(s: Section): nat { Cost(Concat(s.lines)) }

  datatype Delivery = Delivery(sections: seq<Section>, parsed: bool, charge: nat)

  predicate WellFormed(d: Delivery) {
    forall s :: s in d.sections ==> SectionCost(s) > 0 && (d.parsed ==> |s.lines| > 2 && StartsWith(s.lines[2], "@@"))
  }

  /** What is inlined of a section: how many of its lines, if any. */
  type Kept = Option<nat>

  predicate Whole(s: Section, k: Kept) { k == Some(|s.lines|) }

  predicate Inlined(s: Section, k: Kept) { k.Some? ==> k.value <= |s.lines| }

  function KeptCost(s: Section, k: Kept): nat
    requires Inlined(s, k)
  {
    if k.None? then 0 else PrefixCost(s.lines, k.value)
  }

  predicate AllInlined(sections: seq<Section>, kept: seq<Kept>) {
    |kept| == |sections| && forall i :: 0 <= i < |kept| ==> Inlined(sections[i], kept[i])
  }

  /** What the sections of one phase cost in full. */
  function Need(sections: seq<Section>, test: bool): nat {
    if sections == [] then 0
    else (if sections[0].test == test then SectionCost(sections[0]) else 0) + Need(sections[1..], test)
  }

  lemma KeptCostBounded(s: Section, k: Kept)
    requires Inlined(s, k)
    ensures KeptCost(s, k) <= SectionCost(s)
    ensures Whole(s, k) ==> KeptCost(s, k) == SectionCost(s)
  {
    if k.Some? {
      PrefixCostGrows(s.lines, k.value, |s.lines|);
      assert s.lines[..|s.lines|] == s.lines;
    }
  }

  lemma NothingKept(s: Section)
    ensures Inlined(s, None) && KeptCost(s, None) == 0
  {
  }

  /** The part of `kept` that belongs to one phase. */
  function PhaseSpent(sections: seq<Section>, kept: seq<Kept>, test: bool): nat
    requires AllInlined(sections, kept)
  {
    if kept == [] then 0
    else (if sections[0].test == test then KeptCost(sections[0], kept[0]) else 0) + PhaseSpent(sections[1..],
        kept[1..], test)
  }

  lemma {:induction false} PhaseUpdate(sections: seq<Section>, kept: seq<Kept>, i: nat, k: Kept, test: bool)
    requires AllInlined(sections, kept) && i < |kept| && kept[i].None? && Inlined(sections[i], k)
             && sections[i].test == test
    ensures AllInlined(sections, kept[i := k])
    ensures PhaseSpent(sections, kept[i := k], test) == PhaseSpent(sections, kept, test) + KeptCost(sections[i], k)
    ensures PhaseSpent(sections, kept, test) + SectionCost(sections[i]) <= Need(sections, test)
    decreases i
  {
    hide KeptCost, Inlined, SectionCost;
    NothingKept(sections[i]);
    if i == 0 {
      assert kept[0 := k][1..] == kept[1..];
      PhaseWithinNeed(sections[1..], kept[1..], test);
    } else {
      assert kept[i := k][1..] == kept[1..][i - 1 := k];
      KeptCostBounded(sections[0], kept[0]);
      PhaseUpdate(sections[1..], kept[1..], i - 1, k, test);
    }
  }

  lemma {:induction false} PhaseWithinNeed(sections: seq<Section>, kept: seq<Kept>, test: bool)
    requires AllInlined(sections, kept)
    ensures PhaseSpent(sections, kept, test) <= Need(sections, test)
  {
    hide KeptCost, Inlined, SectionCost;
    if kept != [] {
      KeptCostBounded(sections[0], kept[0]);
      PhaseWithinNeed(sections[1..], kept[1..], test);
    }
  }

  // ----- ascending order ---------------------------------------------------------------------

  predicate Ordered(keys: seq<nat>, a: nat, b: nat)
    requires a < |keys| && b < |keys|
  {
    keys[a] < keys[b] || (keys[a] == keys[b] && a < b)
  }

  /** The chosen indexes by ascending key, ties in their own order. */
  ghost predicate Ascending(keys: seq<nat>, chosen: seq<bool>, order: seq<nat>)
    requires |chosen| == |keys|
  {
    && (forall p :: 0 <= p < |order| ==> order[p] < |keys| && chosen[order[p]])
    && (forall p, q :: 0 <= p < q < |order| ==> Ordered(keys, order[p], order[q]))
    && (forall i :: 0 <= i < |keys| && chosen[i] ==> i in order)
  }

  /** The chosen indexes below `n`, in ascending order. */
  ghost predicate SortedTo(keys: seq<nat>, chosen: seq<bool>, order: seq<nat>, n: nat)
    requires |chosen| == |keys|
  {
    && n <= |keys|
    && (forall p :: 0 <= p < |order| ==> order[p] < n && chosen[order[p]])
    && (forall p, q :: 0 <= p < q < |order| ==> Ordered(keys, order[p], order[q]))
    && (forall i :: 0 <= i < n && chosen[i] ==> i in order)
  }

  lemma InsertKeepsOrder(keys: seq<nat>, chosen: seq<bool>, order: seq<nat>, at: nat, i: nat)
    requires i < |keys| == |chosen| && at <= |order| && chosen[i] && SortedTo(keys, chosen, order, i)
    requires forall p :: 0 <= p < |order| ==> if p < at then keys[order[p]] <= keys[i] else keys[i] < keys[order[p]]
    ensures SortedTo(keys, chosen, order[..at] + [i] + order[at..], i + 1)
  {
    hide Ordered;
    InsertCovers(order, at, i);
    InsertSorted(keys, order, at, i);
  }

  lemma InsertCovers(order: seq<nat>, at: nat, i: nat)
    requires at <= |order|
    ensures forall j :: j in order || j == i <==> j in order[..at] + [i] + order[at..]
  {
    var r := order[..at] + [i] + order[at..];
    forall j | j in order ensures j in r {
      var p :| 0 <= p < |order| && order[p] == j;
      assert r[if p < at then p else p + 1] == j;
    }
    assert r[at] == i;
  }

  lemma InsertSorted(keys: seq<nat>, order: seq<nat>, at: nat, i: nat)
    requires i < |keys| && at <= |order| && forall p :: 0 <= p < |order| ==> order[p] < i
    requires forall p, q :: 0 <= p < q < |order| ==> Ordered(keys, order[p], order[q])
    requires forall p :: 0 <= p < |order| ==> if p < at then keys[order[p]] <= keys[i] else keys[i] < keys[order[p]]
    ensures var r := order[..at] + [i] + order[at..];
            (forall p :: 0 <= p < |r| ==> r[p] < |keys|) && forall p, q :: 0 <= p < q < |r| ==>
              Ordered(keys, r[p], r[q])
  {
  }

  /** Where an index belongs: after everything that is not larger. */
  method Place(keys: seq<nat>, chosen: seq<bool>, order: seq<nat>, i: nat) returns (at: nat)
    requires i < |keys| == |chosen| && SortedTo(keys, chosen, order, i)
    ensures at <= |order| && forall p :: 0 <= p < |order| ==>
              if p < at then keys[order[p]] <= keys[i] else keys[i] < keys[order[p]]
  {
    at := |order|;
    while at > 0 && keys[i] < keys[order[at - 1]]
      invariant 0 <= at <= |order|
      invariant forall p :: at <= p < |order| ==> keys[i] < keys[order[p]]
    {
      at := at - 1;
    }
    if at > 0 {
      forall p | 0 <= p < at - 1 ensures keys[order[p]] <= keys[i] { assert Ordered(keys, order[p], order[at - 1]); }
    }
  }

  method Sort(keys: seq<nat>, chosen: seq<bool>) returns (order: seq<nat>)
    requires |chosen| == |keys|
    ensures Ascending(keys, chosen, order)
  {
    order := [];
    var i := 0;
    while i < |keys|
      invariant 0 <= i <= |keys| && SortedTo(keys, chosen, order, i)
    {
      if chosen[i] {
        var at := Place(keys, chosen, order, i);
        InsertKeepsOrder(keys, chosen, order, at, i);
        order := order[..at] + [i] + order[at..];
      }
      i := i + 1;
    }
  }

  // ----- one member's share ------------------------------------------------------------------

  lemma {:induction false} PhaseFrame(sections: seq<Section>, kept: seq<Kept>, kept': seq<Kept>, test: bool)
    requires AllInlined(sections, kept) && AllInlined(sections, kept')
    requires forall i :: 0 <= i < |sections| && sections[i].test == test ==> kept'[i] == kept[i]
    ensures PhaseSpent(sections, kept', test) == PhaseSpent(sections, kept, test)
  {
    hide KeptCost, Inlined;
    if kept != [] { PhaseFrame(sections[1..], kept[1..], kept'[1..], test); }
  }

  lemma {:induction false} PhaseNothing(sections: seq<Section>, kept: seq<Kept>, test: bool)
    requires AllInlined(sections, kept) && forall i :: 0 <= i < |sections| && sections[i].test == test ==> kept[i].None?
    ensures PhaseSpent(sections, kept, test) == 0
  {
    if kept != [] { PhaseNothing(sections[1..], kept[1..], test); }
  }

  lemma {:induction false} PhaseWhole(sections: seq<Section>, kept: seq<Kept>, test: bool)
    requires AllInlined(sections, kept)
    requires forall i :: 0 <= i < |sections| && sections[i].test == test ==> Whole(sections[i], kept[i])
    ensures PhaseSpent(sections, kept, test) == Need(sections, test)
  {
    hide KeptCost, Inlined, SectionCost, Whole;
    if kept != [] {
      KeptCostBounded(sections[0], kept[0]);
      PhaseWhole(sections[1..], kept[1..], test);
    }
  }

  ghost predicate AllWhole(sections: seq<Section>, kept: seq<Kept>, test: bool) {
    |kept| == |sections| && forall i :: 0 <= i < |sections| && sections[i].test == test ==> Whole(sections[i], kept[i])
  }

  /** What is inlined of one section when `left` of the share remains. */
  method DeliverSection(s: Section, parsed: bool, left: nat) returns (k: Kept)
    requires parsed ==> |s.lines| > 2 && StartsWith(s.lines[2], "@@")
    ensures Inlined(s, k) && KeptCost(s, k) <= left
    ensures SectionCost(s) <= left ==> Whole(s, k)
    ensures SectionCost(s) > left && k.Some? ==>
              if parsed then LongestCut(s.lines, left, k.value)
                else k.value < |s.lines| && PrefixCost(s.lines, k.value + 1) > left
    ensures SectionCost(s) > left ==>
              |s.lines| > 0
              && (k.None? <==> left <= 2048 || PrefixCost(s.lines, if parsed then 3 else 1) > left)
    ensures SectionCost(s) > left ==> !Whole(s, k)
  {
    hide StartsWith, LongestCut;
    if SectionCost(s) <= left {
      KeptCostBounded(s, Some(|s.lines|));
      return Some(|s.lines|);
    }
    assert |s.lines| > 0 by { NoLinesNoCost(s); }
    if left <= 2048 { return None; }
    var n;
    if parsed {
      n := CutSection(s.lines, left);
      if n > 0 { CutFits(s.lines, left, n); }
    } else {
      n := CutLines(s.lines, left);
      if n > 0 { PrefixCostGrows(s.lines, 1, n); }
    }
    KeptCostBounded(s, Some(|s.lines|));
    return if n > 0 then Some(n) else None;
  }

  lemma NoLinesNoCost(s: Section)
    ensures s.lines == [] ==> SectionCost(s) == 0
  {
  }

  lemma CutFits(lines: seq<string>, limit: nat, k: nat)
    requires LongestCut(lines, limit, k)
    ensures k <= |lines| && PrefixCost(lines, k) <= limit
  {
  }

  /** A section is inlined whole whenever a larger one is. */
  ghost predicate SmallestFirst(sections: seq<Section>, kept: seq<Kept>, test: bool) {
    && |kept| == |sections|
    && forall i, j | 0 <= i < |kept| && 0 <= j < |kept| && sections[i].test == test && sections[j].test == test ::
         SectionCost(sections[i]) < SectionCost(sections[j]) && Whole(sections[j], kept[j]) ==>
           Whole(sections[i], kept[i])
  }

  lemma AscendingWhole(sections: seq<Section>, kept: seq<Kept>, test: bool, costs: seq<nat>, chosen: seq<bool>,
                       order: seq<nat>)
    requires |kept| == |sections| == |costs| == |chosen| && Ascending(costs, chosen, order)
    requires forall i :: 0 <= i < |sections| ==>
               costs[i] == SectionCost(sections[i]) && chosen[i] == (sections[i].test == test)
    requires forall p, q :: 0 <= p < q < |order| && Whole(sections[order[q]], kept[order[q]]) ==>
               Whole(sections[order[p]], kept[order[p]])
    ensures SmallestFirst(sections, kept, test)
    ensures forall left: int :: (forall p :: 0 <= p < |order| ==>
                                 Whole(sections[order[p]], kept[order[p]]) || costs[order[p]] > left) ==>
              NothingMoreFits(sections, kept, test, left)
  {
    hide Whole, SectionCost;
    forall i | 0 <= i < |kept| && sections[i].test == test ensures i in order { assert chosen[i]; }
    forall i, j | 0 <= i < |kept| && 0 <= j < |kept| && sections[i].test == test && sections[j].test == test
                  && costs[i] < costs[j] && Whole(sections[j], kept[j])
      ensures Whole(sections[i], kept[i])
    {
      assert chosen[i] && chosen[j];
      var p :| 0 <= p < |order| && order[p] == i;
      var q :| 0 <= q < |order| && order[q] == j;
      assert p != q && (q < p ==> Ordered(costs, order[q], order[p]));
    }
  }

  /** A section that is not whole would not fit into what is left. */
  ghost predicate NothingMoreFits(sections: seq<Section>, kept: seq<Kept>, test: bool, left: int) {
    |kept| == |sections| && forall i :: 0 <= i < |kept| && sections[i].test == test ==>
      Whole(sections[i], kept[i]) || SectionCost(sections[i]) > left
  }

  /** A share was given out: never more than it, everything if it suffices, smaller sections before larger ones, and
      nothing left out that would still fit. */
  ghost predicate Serves(sections: seq<Section>, kept: seq<Kept>, test: bool, share: nat) {
    && AllInlined(sections, kept) && PhaseSpent(sections, kept, test) <= share
    && (Need(sections, test) <= share ==> AllWhole(sections, kept, test))
    && SmallestFirst(sections, kept, test) && NothingMoreFits(sections, kept, test,
                                                              share - PhaseSpent(sections, kept, test))
  }

  /** Gives a member its share of one phase: whole sections first, smallest first. */
  method DeliverMember(d: Delivery, was: seq<Kept>, test: bool, share: nat) returns (kept: seq<Kept>, used: nat)
    requires WellFormed(d) && AllInlined(d.sections, was)
    requires Fresh(d.sections, was, test)
    ensures AllInlined(d.sections, kept) && used == PhaseSpent(d.sections, kept, test) <= share
    ensures forall i :: 0 <= i < |kept| && d.sections[i].test != test ==> kept[i] == was[i]
    ensures Serves(d.sections, kept, test, share)
  {
    hide Whole, KeptCost, SectionCost, Need, PhaseSpent, StartsWith, Inlined, AllInlined, Ascending, SmallestFirst,
         NothingMoreFits, AllWhole, LongestCut,
         PrefixCost, Served;
    var costs := seq(|d.sections|, i requires 0 <= i < |d.sections| => SectionCost(d.sections[i]));
    var chosen := seq(|d.sections|, i requires 0 <= i < |d.sections| => d.sections[i].test == test);
    var order := Sort(costs, chosen);
    SortedOrder(costs, chosen, order);
    InlinedLength(d.sections, was);
    kept, used := was, 0;
    PhaseNothing(d.sections, kept, test);
    NoneServed(d.sections, was, test, costs, order, share, Need(d.sections, test) <= share);
    var n := 0;
    while n < |order|
      invariant 0 <= n <= |order| && AllInlined(d.sections, kept) && |kept| == |d.sections|
      invariant used == PhaseSpent(d.sections, kept, test) <= share
      invariant forall i :: 0 <= i < |kept| && d.sections[i].test != test ==> kept[i] == was[i]
      invariant Served(d.sections, kept, costs, order, n, share - used, Need(d.sections, test) <= share)
    {
      var i := order[n];
      NextUnserved(d.sections, kept, costs, order, n, share - used, Need(d.sections, test) <= share);
      assert d.sections[i] in d.sections;
      var k := DeliverSection(d.sections[i], d.parsed, share - used);
      PhaseUpdate(d.sections, kept, i, k, test);
      ServedNext(d.sections, kept, costs, order, n, share - used, Need(d.sections, test) <= share, k,
                 share - used - KeptCostOf(d.sections[i], k));
      kept, used := kept[i := k], used + KeptCostOf(d.sections[i], k);
      n := n + 1;
    }
    ServedAll(d.sections, kept, costs, order, share - used, Need(d.sections, test) <= share);
    AscendingWhole(d.sections, kept, test, costs, chosen, order);
    if Need(d.sections, test) <= share { OrderWhole(d.sections, kept, test, costs, chosen, order); }
  }

  /** The first `n` sections in order had their turn: smaller ones are whole whenever larger ones are. */
  ghost predicate Served(sections: seq<Section>, kept: seq<Kept>, costs: seq<nat>, order: seq<nat>, n: nat, left: int,
                         fits: bool) {
    && |kept| == |sections| == |costs| && n <= |order| && (forall p :: 0 <= p < |order| ==> order[p] < |costs|)
    && (forall p :: n <= p < |order| ==> kept[order[p]].None?)
    && (fits ==> forall p :: 0 <= p < n ==> Whole(sections[order[p]], kept[order[p]]))
    && (forall p :: 0 <= p < n ==> Whole(sections[order[p]], kept[order[p]]) || costs[order[p]] > left)
    && (forall p, q :: 0 <= p < q < n && Whole(sections[order[q]], kept[order[q]]) ==>
        Whole(sections[order[p]], kept[order[p]]))
  }

  lemma NoneServed(sections: seq<Section>, kept: seq<Kept>, test: bool, costs: seq<nat>, order: seq<nat>, left: int,
                   fits: bool)
    requires |kept| == |sections| == |costs| && Fresh(sections, kept, test)
    requires forall p :: 0 <= p < |order| ==> order[p] < |costs| && sections[order[p]].test == test
    ensures Served(sections, kept, costs, order, 0, left, fits)
  {
  }

  lemma NextUnserved(sections: seq<Section>, kept: seq<Kept>, costs: seq<nat>, order: seq<nat>, n: nat, left: int,
                     fits: bool)
    requires Served(sections, kept, costs, order, n, left, fits) && n < |order|
    ensures order[n] < |kept| && kept[order[n]].None?
  {
    hide Whole;
  }

  lemma ServedNext(sections: seq<Section>, kept: seq<Kept>, costs: seq<nat>, order: seq<nat>, n: nat, left: int,
                   fits: bool, k: Kept, left': int)
    requires Served(sections, kept, costs, order, n, left, fits) && n < |order| && left' <= left
    requires forall p, q :: 0 <= p < q < |order| ==> order[p] != order[q] && costs[order[p]] <= costs[order[q]]
    requires Whole(sections[order[n]], k) <==> costs[order[n]] <= left
    requires fits ==> costs[order[n]] <= left
    ensures Served(sections, kept[order[n] := k], costs, order, n + 1, left', fits)
  {
    hide Whole;
  }

  lemma ServedAll(sections: seq<Section>, kept: seq<Kept>, costs: seq<nat>, order: seq<nat>, left: int, fits: bool)
    requires Served(sections, kept, costs, order, |order|, left, fits)
    ensures fits ==> forall p :: 0 <= p < |order| ==> Whole(sections[order[p]], kept[order[p]])
    ensures forall p, q :: 0 <= p < q < |order| && Whole(sections[order[q]], kept[order[q]]) ==>
              Whole(sections[order[p]], kept[order[p]])
    ensures forall p :: 0 <= p < |order| ==> Whole(sections[order[p]], kept[order[p]]) || costs[order[p]] > left
  {
    hide Whole;
  }

  lemma InlinedLength(sections: seq<Section>, kept: seq<Kept>)
    requires AllInlined(sections, kept)
    ensures |kept| == |sections|
  {
  }

  lemma OrderWhole(sections: seq<Section>, kept: seq<Kept>, test: bool, costs: seq<nat>, chosen: seq<bool>,
                   order: seq<nat>)
    requires |kept| == |sections| == |costs| == |chosen| && Ascending(costs, chosen, order)
    requires forall i :: 0 <= i < |sections| ==> chosen[i] == (sections[i].test == test)
    requires forall p :: 0 <= p < |order| ==> Whole(sections[order[p]], kept[order[p]])
    ensures AllWhole(sections, kept, test)
  {
    hide Whole;
    forall i | 0 <= i < |kept| && sections[i].test == test ensures Whole(sections[i], kept[i]) {
      assert chosen[i] && i in order;
    }
  }

  lemma SortedOrder(keys: seq<nat>, chosen: seq<bool>, order: seq<nat>)
    requires |chosen| == |keys| && Ascending(keys, chosen, order)
    ensures forall p :: 0 <= p < |order| ==> order[p] < |keys| && chosen[order[p]]
    ensures forall p, q :: 0 <= p < q < |order| ==> order[p] != order[q] && keys[order[p]] <= keys[order[q]]
  {
    forall p, q | 0 <= p < q < |order| ensures order[p] != order[q] && keys[order[p]] <= keys[order[q]] {
      assert Ordered(keys, order[p], order[q]);
    }
  }

  function KeptCostOf(s: Section, k: Kept): (r: nat)
    requires Inlined(s, k)
    ensures r == KeptCost(s, k)
  {
    KeptCost(s, k)
  }

  // ----- one phase ---------------------------------------------------------------------------

  function Sum(v: seq<nat>): nat {
    if v == [] then 0 else v[0] + Sum(v[1..])
  }

  function Positives(v: seq<nat>): nat {
    if v == [] then 0 else (if v[0] > 0 then 1 else 0) + Positives(v[1..])
  }

  lemma {:induction false} Zeroed(v: seq<nat>, i: nat)
    requires i < |v| && v[i] > 0
    ensures Sum(v[i := 0]) == Sum(v) - v[i] && Positives(v[i := 0]) == Positives(v) - 1
    decreases i
  {
    if i == 0 {
      assert v[0 := 0][1..] == v[1..];
    } else {
      assert v[i := 0][1..] == v[1..][i - 1 := 0];
      Zeroed(v[1..], i - 1);
    }
  }

  lemma {:induction false} SumOfPositives(v: seq<nat>, least: nat)
    requires forall i :: 0 <= i < |v| && v[i] > 0 ==> v[i] >= least
    ensures Sum(v) >= least * Positives(v)
  {
    if v != [] { SumOfPositives(v[1..], least); }
  }

  lemma {:induction false} NonePositive(v: seq<nat>)
    requires forall i :: 0 <= i < |v| ==> v[i] == 0
    ensures Positives(v) == 0
  {
    if v != [] { NonePositive(v[1..]); }
  }

  /** An order without repetition that covers the positive entries is as long as there are any. */
  lemma {:induction false} OrderLength(v: seq<nat>, order: seq<nat>)
    requires forall p :: 0 <= p < |order| ==> order[p] < |v| && v[order[p]] > 0
    requires forall p, q :: 0 <= p < q < |order| ==> order[p] != order[q]
    requires forall i :: 0 <= i < |v| && v[i] > 0 ==> i in order
    ensures Positives(v) == |order|
    decreases |order|
  {
    if order == [] {
      NonePositive(v);
    } else {
      Zeroed(v, order[0]);
      OrderLength(v[order[0] := 0], order[1..]);
    }
  }

  lemma QuotientAtLeast(b: nat, m: nat, q: nat)
    requires m > 0 && q * m <= b
    ensures b / m >= q
  {
    var d := b / m;
    assert b < m * d + m;
    if d < q { MultiplyLess(m, d + 1, q); }
  }

  lemma MultiplyLess(m: nat, a: nat, b: nat)
    requires a <= b
    ensures m * a <= m * b
  {
  }

  lemma ShareGrows(b: nat, m: nat, used: nat)
    requires m > 1 && used <= b / m
    ensures (b - used) / (m - 1) >= b / m
  {
    var q := b / m;
    assert q * m <= b;
    assert q * (m - 1) == q * m - q;
    QuotientAtLeast(b - used, m - 1, q);
  }

  function Clamp(budget: int): nat { if budget < 0 then 0 else budget }

  /** An even share of what is left for `m` members. */
  function Share(budget: int, m: nat): nat
    requires m > 0
  {
    Clamp(budget) / m
  }

  ghost predicate Batched(members: seq<Delivery>, kept: seq<seq<Kept>>) {
    && |kept| == |members|
    && forall m :: 0 <= m < |members| ==> WellFormed(members[m]) && AllInlined(members[m].sections, kept[m])
  }

  ghost predicate Untried(members: seq<Delivery>, kept: seq<seq<Kept>>, test: bool)
    requires |kept| == |members|
  {
    forall m :: 0 <= m < |members| ==> Fresh(members[m].sections, kept[m], test)
  }

  ghost predicate Fresh(sections: seq<Section>, kept: seq<Kept>, test: bool) {
    |kept| == |sections| && forall i :: 0 <= i < |kept| && sections[i].test == test ==> kept[i].None?
  }

  function Needs(members: seq<Delivery>, test: bool): (r: seq<nat>)
    ensures |r| == |members|
    ensures forall m :: 0 <= m < |r| ==> r[m] == Need(members[m].sections, test)
  {
    seq(|members|, m requires 0 <= m < |members| => Need(members[m].sections, test))
  }

  /** What the members were given in one phase. */
  ghost function Given(members: seq<Delivery>, kept: seq<seq<Kept>>, test: bool): (r: seq<nat>)
    requires Batched(members, kept)
    ensures |r| == |members|
    ensures forall m :: 0 <= m < |r| ==> r[m] == PhaseSpent(members[m].sections, kept[m], test)
  {
    seq(|members|, m requires 0 <= m < |members| => PhaseSpent(members[m].sections, kept[m], test))
  }

  lemma {:induction false} SumUpdate(v: seq<nat>, i: nat, n: nat)
    requires i < |v| && v[i] == 0
    ensures Sum(v[i := n]) == Sum(v) + n
    decreases i
  {
    if i == 0 {
      assert v[0 := n][1..] == v[1..];
    } else {
      assert v[i := n][1..] == v[1..][i - 1 := n];
      SumUpdate(v[1..], i - 1, n);
    }
  }

  lemma {:induction false} SumZero(v: seq<nat>)
    requires forall i :: 0 <= i < |v| ==> v[i] == 0
    ensures Sum(v) == 0
  {
    if v != [] { SumZero(v[1..]); }
  }

  /** The smallest of what is outstanding is within an even share of a budget that covers it all. */
  lemma SmallestFits(rest: seq<nat>, i: nat, budget: nat)
    requires i < |rest| && rest[i] > 0 && Sum(rest) <= budget
    requires forall j :: 0 <= j < |rest| && rest[j] > 0 ==> rest[j] >= rest[i]
    ensures Positives(rest) > 0 && rest[i] <= budget / Positives(rest)
  {
    Zeroed(rest, i);
    SumOfPositives(rest, rest[i]);
    QuotientAtLeast(budget, Positives(rest), rest[i]);
  }

  /** Which members need anything in a phase. */
  function Wanting(members: seq<Delivery>, test: bool): (r: seq<bool>)
    ensures |r| == |members| && forall m :: 0 <= m < |r| ==> r[m] == (Need(members[m].sections, test) > 0)
  {
    seq(|members|, m requires 0 <= m < |members| => Need(members[m].sections, test) > 0)
  }

  /** The first `n` members to have their turn were served with their shares. */
  ghost predicate AllServed(members: seq<Delivery>, kept: seq<seq<Kept>>, turns: seq<nat>, n: nat, shares: seq<nat>,
                            test: bool) {
    && |kept| == |members| && n <= |turns| && n <= |shares|
    && forall p :: 0 <= p < n ==> turns[p] < |members|
                                  && Serves(members[turns[p]].sections, kept[turns[p]], test, shares[p])
  }

  lemma NobodyServed(members: seq<Delivery>, kept: seq<seq<Kept>>, turns: seq<nat>, test: bool)
    requires |kept| == |members|
    ensures AllServed(members, kept, turns, 0, [], test)
  {
  }

  lemma NextServed(members: seq<Delivery>, kept: seq<seq<Kept>>, turns: seq<nat>, n: nat, shares: seq<nat>,
                   k: seq<Kept>, share: nat, test: bool)
    requires AllServed(members, kept, turns, n, shares, test) && n < |turns| && turns[n] < |members| && |shares| == n
    requires Serves(members[turns[n]].sections, k, test, share)
    requires forall p, q :: 0 <= p < q < |turns| ==> turns[p] != turns[q]
    ensures AllServed(members, kept[turns[n] := k], turns, n + 1, shares + [share], test)
  {
    hide Serves;
  }

  lemma OrderDistinct(keys: seq<nat>, chosen: seq<bool>, order: seq<nat>)
    requires |chosen| == |keys| && (forall m :: 0 <= m < |keys| ==> chosen[m] == (keys[m] > 0))
             && Ascending(keys, chosen, order)
    ensures forall p, q :: 0 <= p < q < |order| ==> order[p] != order[q] && keys[order[p]] <= keys[order[q]]
    ensures forall p :: 0 <= p < |order| ==> order[p] < |keys| && keys[order[p]] > 0
    ensures forall i :: 0 <= i < |keys| && keys[i] > 0 ==> i in order
  {
    forall p, q | 0 <= p < q < |order| ensures order[p] != order[q] && keys[order[p]] <= keys[order[q]] {
      assert Ordered(keys, order[p], order[q]);
    }
  }

  lemma NextFits(needs: seq<nat>, order: seq<nat>, n: nat, rest: seq<nat>, budget: int)
    requires n < |order| && Sum(rest) <= Clamp(budget) && Outstanding(needs, order, n, rest)
    requires forall p :: 0 <= p < |order| ==> order[p] < |needs| && needs[order[p]] > 0
    requires forall p, q :: 0 <= p < q < |order| ==> order[p] != order[q] && needs[order[p]] <= needs[order[q]]
    requires forall i :: 0 <= i < |needs| && needs[i] > 0 ==> i in order
    ensures needs[order[n]] <= Share(budget, |order| - n)
  {
    var m := order[n];
    assert m !in order[..n];
    assert forall q :: 0 <= q < n ==> order[q] in order[..n];
    forall j | 0 <= j < |rest| && rest[j] > 0 ensures rest[j] >= rest[m] {
      var p :| 0 <= p < |order| && order[p] == j;
    }
    SmallestFits(rest, m, Clamp(budget));
  }

  lemma ShareWithin(budget: int, m: nat, used: nat)
    requires m > 0 && used <= Share(budget, m)
    ensures used <= Clamp(budget) && Clamp(budget - used) == Clamp(budget) - used
    ensures m > 1 ==> Share(budget - used, m - 1) >= Share(budget, m)
  {
    QuotientWithin(Clamp(budget), m);
    if m > 1 { ShareGrows(Clamp(budget), m, used); }
  }

  lemma QuotientWithin(b: nat, m: nat)
    requires m > 0
    ensures b / m <= b
  {
    MultiplyLess(b / m, 1, m);
  }

  lemma NothingGiven(members: seq<Delivery>, kept: seq<seq<Kept>>, test: bool)
    requires Batched(members, kept) && Untried(members, kept, test)
    ensures Sum(Given(members, kept, test)) == 0
  {
    hide PhaseSpent, AllInlined, WellFormed;
    forall m | 0 <= m < |members| ensures Given(members, kept, test)[m] == 0 {
      PhaseNothing(members[m].sections, kept[m], test);
    }
    SumZero(Given(members, kept, test));
  }

  lemma GivenUpdate(members: seq<Delivery>, kept: seq<seq<Kept>>, m: nat, k: seq<Kept>, test: bool)
    requires Batched(members, kept) && m < |members| && Fresh(members[m].sections, kept[m], test)
             && AllInlined(members[m].sections, k)
    ensures Batched(members, kept[m := k])
    ensures Sum(Given(members, kept[m := k], test)) == Sum(Given(members, kept, test))
            + PhaseSpent(members[m].sections, k, test)
  {
    hide PhaseSpent, AllInlined, WellFormed;
    PhaseNothing(members[m].sections, kept[m], test);
    var given := Given(members, kept, test);
    assert Given(members, kept[m := k], test) == given[m := PhaseSpent(members[m].sections, k, test)];
    SumUpdate(given, m, PhaseSpent(members[m].sections, k, test));
  }

  lemma NoNeed(d: Delivery, kept: seq<Kept>, test: bool)
    requires WellFormed(d) && |kept| == |d.sections|
    ensures Need(d.sections, test) == 0 ==> AllWhole(d.sections, kept, test)
  {
    forall i | 0 <= i < |d.sections| && d.sections[i].test == test ensures Need(d.sections, test) > 0 {
      assert d.sections[i] in d.sections;
      NeedCovers(d.sections, i, test);
    }
  }

  lemma {:induction false} NeedCovers(sections: seq<Section>, i: nat, test: bool)
    requires i < |sections| && sections[i].test == test
    ensures Need(sections, test) >= SectionCost(sections[i])
    decreases i
  {
    if i > 0 { NeedCovers(sections[1..], i - 1, test); }
  }

  ghost predicate SameElsewhere(members: seq<Delivery>, was: seq<seq<Kept>>, kept: seq<seq<Kept>>, test: bool)
    requires Batched(members, was) && Batched(members, kept)
  {
    forall m, i :: 0 <= m < |members| && 0 <= i < |kept[m]| && members[m].sections[i].test != test ==>
      kept[m][i] == was[m][i]
  }

  /** Members whose turn has not come are as they were. */
  ghost predicate Waiting(was: seq<seq<Kept>>, kept: seq<seq<Kept>>, order: seq<nat>, n: nat)
    requires n <= |order|
  {
    |kept| == |was| && forall m :: 0 <= m < |was| && m !in order[..n] ==> kept[m] == was[m]
  }

  /** What the members whose turn has not come still need. */
  ghost predicate Outstanding(needs: seq<nat>, order: seq<nat>, n: nat, rest: seq<nat>)
    requires n <= |order|
  {
    && |rest| == |needs| && Positives(rest) == |order| - n
    && forall m :: 0 <= m < |rest| ==> rest[m] == if m in order[..n] then 0 else needs[m]
  }

  /** Everyone served whose need is within `limit` got everything. */
  ghost predicate Done(members: seq<Delivery>, kept: seq<seq<Kept>>, order: seq<nat>, n: nat, test: bool, limit: nat)
    requires n <= |order| && |kept| == |members|
  {
    forall p :: 0 <= p < n && order[p] < |members| && Need(members[order[p]].sections, test) <= limit ==>
      AllWhole(members[order[p]].sections, kept[order[p]], test)
  }

  lemma PhaseStarts(members: seq<Delivery>, kept: seq<seq<Kept>>, test: bool, needs: seq<nat>, order: seq<nat>)
    requires Batched(members, kept) && Untried(members, kept, test) && needs == Needs(members, test)
    requires forall p :: 0 <= p < |order| ==> order[p] < |needs| && needs[order[p]] > 0
    requires forall p, q :: 0 <= p < q < |order| ==> order[p] != order[q] && needs[order[p]] <= needs[order[q]]
    requires forall i :: 0 <= i < |needs| && needs[i] > 0 ==> i in order
    ensures Outstanding(needs, order, 0, needs) && Positives(needs) == |order|
    ensures Waiting(kept, kept, order, 0) && SameElsewhere(members, kept, kept, test)
    ensures Sum(Given(members, kept, test)) == 0
    ensures forall limit :: Done(members, kept, order, 0, test, limit)
  {
    hide Needs, PhaseSpent, AllInlined, WellFormed, AllWhole, Need;
    OrderLength(needs, order);
    NothingGiven(members, kept, test);
  }

  lemma NextWaits(members: seq<Delivery>, was: seq<seq<Kept>>, kept: seq<seq<Kept>>, order: seq<nat>, n: nat,
                  test: bool)
    requires Batched(members, was) && Untried(members, was, test) && n < |order| && order[n] < |members|
    requires Waiting(was, kept, order, n) && forall p, q :: 0 <= p < q < |order| ==> order[p] != order[q]
    ensures Fresh(members[order[n]].sections, kept[order[n]], test) && kept[order[n]] == was[order[n]]
  {
    hide Fresh;
    assert order[n] !in order[..n];
  }

  lemma NextDone(members: seq<Delivery>, was: seq<seq<Kept>>, kept: seq<seq<Kept>>, order: seq<nat>, n: nat,
                 k: seq<Kept>,
                 test: bool, limit: nat)
    requires Batched(members, was) && Batched(members, kept) && n < |order| && order[n] < |members|
    requires AllInlined(members[order[n]].sections, k)
    requires Waiting(was, kept, order, n) && SameElsewhere(members, was, kept, test)
    requires forall i :: 0 <= i < |k| && members[order[n]].sections[i].test != test ==> k[i] == kept[order[n]][i]
    requires forall p, q :: 0 <= p < q < |order| ==> order[p] != order[q]
    ensures Batched(members, kept[order[n] := k]) && SameElsewhere(members, was, kept[order[n] := k], test)
    ensures Waiting(was, kept[order[n] := k], order, n + 1)
    ensures Done(members, kept, order, n, test, limit)
            && (Need(members[order[n]].sections, test) <= limit ==> AllWhole(members[order[n]].sections, k, test)) ==>
              Done(members, kept[order[n] := k], order, n + 1, test, limit)
  {
    hide Need, AllWhole, WellFormed;
    assert order[..n + 1] == order[..n] + [order[n]];
  }

  lemma NextWhole(members: seq<Delivery>, m: nat, k: seq<Kept>, test: bool, used: nat)
    requires m < |members| && AllInlined(members[m].sections, k) && used == PhaseSpent(members[m].sections, k, test)
    ensures AllWhole(members[m].sections, k, test) ==> used == Need(members[m].sections, test)
  {
    if AllWhole(members[m].sections, k, test) { PhaseWhole(members[m].sections, k, test); }
  }

  lemma NextOutstanding(needs: seq<nat>, order: seq<nat>, n: nat, rest: seq<nat>)
    requires n < |order| && Outstanding(needs, order, n, rest) && order[n] < |needs| && needs[order[n]] > 0
    requires forall p, q :: 0 <= p < q < |order| ==> order[p] != order[q]
    ensures |rest| == |needs| && Outstanding(needs, order, n + 1, rest[order[n] := 0])
            && Sum(rest[order[n] := 0]) == Sum(rest) - needs[order[n]]
  {
    hide Sum, Positives;
    assert order[n] !in order[..n] && order[..n + 1] == order[..n] + [order[n]];
    Zeroed(rest, order[n]);
  }

  lemma PhaseEnds(members: seq<Delivery>, was: seq<seq<Kept>>, kept: seq<seq<Kept>>, test: bool, order: seq<nat>,
                  limit: nat)
    requires Batched(members, kept)
    requires forall m :: 0 <= m < |members| && Need(members[m].sections, test) > 0 ==> m in order
    ensures Done(members, kept, order, |order|, test, limit) ==>
              forall m :: 0 <= m < |members| && Need(members[m].sections, test) <= limit ==>
                AllWhole(members[m].sections, kept[m], test)
  {
    hide Need, AllWhole;
    forall m | 0 <= m < |members| && m !in order ensures AllWhole(members[m].sections, kept[m], test) {
      NoNeed(members[m], kept[m], test);
    }
  }

  lemma {:induction false} NeedWithinSum(v: seq<nat>, i: nat)
    requires i < |v|
    ensures v[i] <= Sum(v)
    decreases i
  {
    if i > 0 { NeedWithinSum(v[1..], i - 1); }
  }

  /** One phase: members by ascending need, each with an even share of what is left. */
  method Phase(members: seq<Delivery>, was: seq<seq<Kept>>, before: int, test: bool)
    returns (kept: seq<seq<Kept>>, budget: int, ghost shares: seq<nat>, ghost turns: seq<nat>)
    requires Batched(members, was) && Untried(members, was, test)
    ensures Batched(members, kept)
    ensures SameElsewhere(members, was, kept, test)
    ensures budget == before - Sum(Given(members, kept, test)) && Sum(Given(members, kept, test)) <= Clamp(before)
    ensures |shares| == Positives(Needs(members, test))
    ensures |shares| > 0 ==> shares[0] == Share(before, |shares|)
    ensures forall a, b :: 0 <= a <= b < |shares| ==> shares[a] <= shares[b]
    ensures |turns| == |shares| && Ascending(Needs(members, test), Wanting(members, test), turns)
    ensures AllServed(members, kept, turns, |turns|, shares, test)
    ensures forall m :: 0 <= m < |members| && |shares| > 0 && Need(members[m].sections, test) <= shares[0] ==>
              AllWhole(members[m].sections, kept[m], test)
    ensures Sum(Needs(members, test)) <= Clamp(before) ==>
              forall m :: 0 <= m < |members| ==> AllWhole(members[m].sections, kept[m], test)
  {
    hide AllWhole, Need, PhaseSpent, WellFormed, Fresh, Ordered, SmallestFirst, NothingMoreFits, Sum, Positives,
         AllInlined, Outstanding, Done, SameElsewhere, Waiting, Share, AllServed, Ascending;
    var needs := Needs(members, test);
    var order := Sort(needs, Wanting(members, test));
    OrderDistinct(needs, Wanting(members, test), order);
    kept, budget, shares := was, before, [];
    ghost var rest := needs;
    PhaseStarts(members, kept, test, needs, order);
    NobodyServed(members, kept, order, test);
    ghost var first := if |order| > 0 then Share(before, |order|) else 0;
    var n := 0;
    while n < |order|
      invariant 0 <= n <= |order| && Batched(members, kept) && SameElsewhere(members, was, kept, test)
      invariant Waiting(was, kept, order, n) && Outstanding(needs, order, n, rest)
      invariant budget == before - Sum(Given(members, kept, test)) && Sum(Given(members, kept, test)) <= Clamp(before)
      invariant Sum(needs) <= Clamp(before) ==> Sum(rest) <= Clamp(budget)
      invariant |shares| == n && (n > 0 ==> shares[0] == first) && (n == 0 ==> budget == before)
      invariant forall a, b :: 0 <= a <= b < n ==> shares[a] <= shares[b]
      invariant n < |order| ==> (if n > 0 then shares[n - 1] else first) <= Share(budget, |order| - n)
      invariant AllServed(members, kept, order, n, shares, test)
      invariant Done(members, kept, order, n, test, first)
      invariant Sum(needs) <= Clamp(before) ==> Done(members, kept, order, n, test, Sum(needs))
    {
      var m := order[n];
      var share := Share(budget, |order| - n);
      if Sum(needs) <= Clamp(before) { NextFits(needs, order, n, rest, budget); }
      NextWaits(members, was, kept, order, n, test);
      var k, used := DeliverMember(members[m], kept[m], test, share);
      GivenUpdate(members, kept, m, k, test);
      ShareWithin(budget, |order| - n, used);
      NextWhole(members, m, k, test, used);
      NextDone(members, was, kept, order, n, k, test, first);
      NextDone(members, was, kept, order, n, k, test, Sum(needs));
      NextOutstanding(needs, order, n, rest);
      NextServed(members, kept, order, n, shares, k, share, test);
      kept, budget, shares, rest := kept[m := k], budget - used, shares + [share], rest[m := 0];
      n := n + 1;
    }
    turns := order;
    PhaseEnds(members, was, kept, test, order, first);
    PhaseEnds(members, was, kept, test, order, Sum(needs));
    forall m | 0 <= m < |members| ensures Need(members[m].sections, test) <= Sum(needs) { NeedWithinSum(needs, m); }
  }

  // ----- the whole delivery --------------------------------------------------------------------

  function Charges(members: seq<Delivery>): (r: seq<nat>)
    ensures |r| == |members|
    ensures forall m :: 0 <= m < |r| ==> r[m] == members[m].charge
  {
    seq(|members|, m requires 0 <= m < |members| => members[m].charge)
  }

  /** The text inlined for a member. */
  function Delivered(sections: seq<Section>, kept: seq<Kept>): string
    requires AllInlined(sections, kept)
  {
    if kept == [] then ""
    else (if kept[0].Some? then Concat(sections[0].lines[..kept[0].value]) else "") + Delivered(sections[1..],
        kept[1..])
  }

  function FullText(sections: seq<Section>): string {
    if sections == [] then "" else Concat(sections[0].lines) + FullText(sections[1..])
  }

  predicate Truncated(sections: seq<Section>, kept: seq<Kept>)
    requires |kept| == |sections|
  {
    exists i :: 0 <= i < |kept| && !Whole(sections[i], kept[i])
  }

  /** A member that is not marked truncated carries its complete diff. */
  lemma {:induction false} UntruncatedIsComplete(sections: seq<Section>, kept: seq<Kept>)
    requires AllInlined(sections, kept) && !Truncated(sections, kept)
    ensures Delivered(sections, kept) == FullText(sections)
  {
    if kept != [] {
      assert Whole(sections[0], kept[0]);
      assert sections[0].lines[..|sections[0].lines|] == sections[0].lines;
      assert forall i :: 0 <= i < |kept| ==> Whole(sections[i], kept[i]);
      UntruncatedIsComplete(sections[1..], kept[1..]);
    }
  }

  lemma {:induction false} SumMonotone(a: seq<nat>, b: seq<nat>)
    requires |a| == |b| && forall i :: 0 <= i < |a| ==> a[i] <= b[i]
    ensures Sum(a) <= Sum(b)
  {
    if a != [] { SumMonotone(a[1..], b[1..]); }
  }

  lemma GivenWithinNeeds(members: seq<Delivery>, kept: seq<seq<Kept>>, test: bool)
    requires Batched(members, kept)
    ensures Sum(Given(members, kept, test)) <= Sum(Needs(members, test))
  {
    hide PhaseSpent, Need, WellFormed;
    forall m | 0 <= m < |members| ensures Given(members, kept, test)[m] <= Needs(members, test)[m] {
      PhaseWithinNeed(members[m].sections, kept[m], test);
    }
    SumMonotone(Given(members, kept, test), Needs(members, test));
  }

  lemma OtherPhaseKept(members: seq<Delivery>, was: seq<seq<Kept>>, kept: seq<seq<Kept>>, test: bool)
    requires Batched(members, was) && Batched(members, kept) && SameElsewhere(members, was, kept, test)
    ensures Given(members, kept, !test) == Given(members, was, !test)
    ensures forall m :: 0 <= m < |members| && AllWhole(members[m].sections, was[m], !test) ==>
              AllWhole(members[m].sections, kept[m], !test)
  {
    hide PhaseSpent, WellFormed;
    forall m | 0 <= m < |members|
      ensures PhaseSpent(members[m].sections, kept[m], !test) == PhaseSpent(members[m].sections, was[m], !test)
    {
      PhaseFrame(members[m].sections, was[m], kept[m], !test);
    }
  }

  lemma StillUntried(members: seq<Delivery>, was: seq<seq<Kept>>, kept: seq<seq<Kept>>, test: bool)
    requires Batched(members, was) && Batched(members, kept) && SameElsewhere(members, was, kept, test)
             && Untried(members, was, !test)
    ensures Untried(members, kept, !test)
  {
    hide WellFormed;
    forall m | 0 <= m < |members| ensures Fresh(members[m].sections, kept[m], !test) {
      assert Fresh(members[m].sections, was[m], !test);
    }
  }

  /** Quotes and manifests are charged first; then implementation files are shared out, then tests. */
  method InlineDiffs(members: seq<Delivery>, budget: int) returns (kept: seq<seq<Kept>>, truncated: seq<bool>)
    requires forall m :: 0 <= m < |members| ==> WellFormed(members[m])
    ensures Batched(members, kept)
    ensures Sum(Given(members, kept, false)) + Sum(Given(members, kept, true)) <= Clamp(budget - Sum(Charges(members)))
    ensures |truncated| == |members| && forall m :: 0 <= m < |members| ==>
              truncated[m] == Truncated(members[m].sections, kept[m])
    ensures Sum(Needs(members, false)) + Sum(Needs(members, true)) <= budget - Sum(Charges(members)) ==>
              forall m :: 0 <= m < |members| ==> !truncated[m]
    ensures Positives(Needs(members, false)) > 0 ==>
              forall m | 0 <= m < |members| && Need(members[m].sections,
                                                    false) <= Share(budget - Sum(Charges(members)),
                                                    Positives(Needs(members, false))) ::
                AllWhole(members[m].sections, kept[m], false)
  {
    hide AllWhole, Need, PhaseSpent, WellFormed, Sum, SameElsewhere, Whole, Share, AllServed, Ascending;
    var none := seq(|members|, m requires 0 <= m < |members| => seq(|members[m].sections|, _ => Option<nat>.None));
    NothingInlined(members, none);
    var left := budget - Sum(Charges(members));
    ghost var shares, turns;
    var first;
    first, left, shares, turns := Phase(members, none, left, false);
    StillUntried(members, none, first, false);
    GivenWithinNeeds(members, first, false);
    kept, left, shares, turns := Phase(members, first, left, true);
    OtherPhaseKept(members, first, kept, true);
    truncated := seq(|members|, m requires 0 <= m < |members| => Truncated(members[m].sections, kept[m]));
    forall m | 0 <= m < |members|
      ensures AllWhole(members[m].sections, kept[m], false) && AllWhole(members[m].sections, kept[m], true) ==>
                !Truncated(members[m].sections, kept[m])
    {
      BothPhasesWhole(members[m].sections, kept[m]);
    }
  }

  lemma NothingInlined(members: seq<Delivery>, none: seq<seq<Kept>>)
    requires |none| == |members|
    requires forall m :: 0 <= m < |members| ==> WellFormed(members[m]) && |none[m]| == |members[m].sections|
    requires forall m, i :: 0 <= m < |members| && 0 <= i < |none[m]| ==> none[m][i].None?
    ensures Batched(members, none) && Untried(members, none, false) && Untried(members, none, true)
  {
  }

  lemma BothPhasesWhole(sections: seq<Section>, kept: seq<Kept>)
    requires |kept| == |sections|
    ensures AllWhole(sections, kept, false) && AllWhole(sections, kept, true) ==> !Truncated(sections, kept)
  {
    hide Whole;
  }
}
