/**
 Admission of a parallel batch: the set-based overlap test, the pairwise check over members, and why an admitted
 batch may run in any interleaving.
 */
module BatchAdmission {
  import opened Records

  // ----- paths and the overlap test --------------------------------------------------------

  /** The components of an absolute, symlink-free path; the root is empty. */
  type Path = seq<string>

  datatype Identity = Identity(device: int, inode: int)

  /** What `stat` reports; a path that does not exist has no entry. */
  datatype Entry = Entry(identity: Identity, directory: bool, links: nat)
  type FileSystem = map<Path, Entry>

  /** `path` is `root` or lies below it. */
  predicate Within(root: Path, path: Path) {
    |root| <= |path| && path[..|root|] == root
  }

  function Parents(path: Path): set<Path> {
    set n | 0 <= n < |path| :: path[..n]
  }

  function Identities(fs: FileSystem, paths: set<Path>): set<Identity> {
    set p | p in paths && p in fs :: fs[p].identity
  }

  /** Linear in the number of entries: shared paths, shared inodes, or a parent of one side in the other. */
  predicate Overlap(fs: FileSystem, left: set<Path>, right: set<Path>) {
    || left * right != {}
    || Identities(fs, left) * Identities(fs, right) != {}
    || (exists p, q :: p in left && q in Parents(p) && q in right)
    || (exists p, q :: p in right && q in Parents(p) && q in left)
  }

  /** Two paths touch when one contains the other or both name the same inode. */
  predicate Touch(fs: FileSystem, p: Path, q: Path) {
    || Within(p, q) || Within(q, p)
    || (p in fs && q in fs && fs[p].identity == fs[q].identity)
  }

  lemma ParentsAreAncestors(p: Path, q: Path)
    ensures q in Parents(p) <==> Within(q, p) && q != p
  {
    if Within(q, p) && q != p {
      assert p[..|p|] == p;
      assert p[..|q|] == q;
    }
  }

  /** The set-based test is the quadratic definition. */
  lemma OverlapIsPairwiseTouch(fs: FileSystem, left: set<Path>, right: set<Path>)
    ensures Overlap(fs, left, right) <==> exists p, q :: p in left && q in right && Touch(fs, p, q)
  {
    hide Parents, Within;
    forall p, q ensures q in Parents(p) <==> Within(q, p) && q != p { ParentsAreAncestors(p, q); }
    if Overlap(fs, left, right) {
      if left * right != {} {
        var p :| p in left * right;
        SelfWithin(p);
        assert p in left && p in right && Touch(fs, p, p);
      } else if Identities(fs, left) * Identities(fs, right) != {} {
        var id :| id in Identities(fs, left) * Identities(fs, right);
        var p :| p in left && p in fs && fs[p].identity == id;
        var q :| q in right && q in fs && fs[q].identity == id;
        assert Touch(fs, p, q);
      } else if exists p, q :: p in left && q in Parents(p) && q in right {
        var p, q :| p in left && q in Parents(p) && q in right;
        assert Touch(fs, p, q);
      } else {
        var p, q :| p in right && q in Parents(p) && q in left;
        assert Touch(fs, q, p);
      }
    }
    if p, q :| p in left && q in right && Touch(fs, p, q) {
      if p == q {
        assert p in left * right;
      } else if p in fs && q in fs && fs[p].identity == fs[q].identity {
        assert fs[p].identity in Identities(fs, left) * Identities(fs, right);
      }
    }
  }

  lemma SelfWithin(p: Path)
    ensures Within(p, p)
  {
    assert p[..|p|] == p;
  }

  // ----- the pairwise check ----------------------------------------------------------------

  datatype Member = Member(inputs: set<Path>, outputs: set<Path>, artifactRoot: Path)

  /** A multiply-linked write cannot be proven disjoint from a directory that is read as a whole. */
  predicate AliasesRuledOut(fs: FileSystem, inputs: set<Path>, outputs: set<Path>) {
    (exists r :: r in inputs && r in fs && fs[r].directory) ==>
      forall w :: w in outputs && w in fs && !fs[w].directory ==> fs[w].links <= 1
  }

  predicate Compatible(fs: FileSystem, a: Member, b: Member) {
    && AliasesRuledOut(fs, a.inputs, b.outputs) && AliasesRuledOut(fs, b.inputs, a.outputs)
    && !Overlap(fs, a.outputs, {b.artifactRoot}) && !Overlap(fs, b.outputs, {a.artifactRoot})
    && !Overlap(fs, a.outputs, b.inputs) && !Overlap(fs, a.outputs, b.outputs) && !Overlap(fs, b.outputs, a.inputs)
  }

  ghost predicate Apart(fs: FileSystem, left: set<Path>, right: set<Path>) {
    forall p, q :: p in left && q in right ==> !Touch(fs, p, q)
  }

  /** Two members are compatible exactly when nothing one writes touches what the other reads or writes or its artifact
      root, and no file with several names is written beside a directory that the other reads as a whole. */
  lemma CompatibleExactly(fs: FileSystem, a: Member, b: Member)
    ensures Compatible(fs, a, b) <==>
            && Apart(fs, a.outputs, b.inputs + b.outputs + {b.artifactRoot})
            && Apart(fs, b.outputs, a.inputs + a.outputs + {a.artifactRoot})
            && (forall w, r :: w in b.outputs && r in a.inputs && w in fs && r in fs && fs[r].directory ==>
                  fs[w].directory || fs[w].links <= 1)
            && (forall w, r :: w in a.outputs && r in b.inputs && w in fs && r in fs && fs[r].directory ==>
                  fs[w].directory || fs[w].links <= 1)
  {
    hide Overlap, Touch;
    OverlapIsPairwiseTouch(fs, a.outputs, {b.artifactRoot});
    OverlapIsPairwiseTouch(fs, b.outputs, {a.artifactRoot});
    OverlapIsPairwiseTouch(fs, a.outputs, b.inputs);
    OverlapIsPairwiseTouch(fs, a.outputs, b.outputs);
    OverlapIsPairwiseTouch(fs, b.outputs, a.inputs);
    forall p, q ensures Touch(fs, p, q) <==> Touch(fs, q, p) { TouchSymmetric(fs, p, q); }
    assert Apart(fs, b.outputs, a.outputs) <==> Apart(fs, a.outputs, b.outputs);
  }

  lemma TouchSymmetric(fs: FileSystem, p: Path, q: Path)
    ensures Touch(fs, p, q) <==> Touch(fs, q, p)
  {
    hide Within;
  }

  function Paths(m: Member): set<Path> { m.inputs + m.outputs + {m.artifactRoot} }

  /** The identity of every path of both members can be read. */
  predicate Identifiable(unreadable: set<Path>, a: Member, b: Member) {
    (Paths(a) + Paths(b)) * unreadable == {}
  }

  /** Fails on a path whose identity cannot be read, although it may exist. */
  method OverlapOf(fs: FileSystem, unreadable: set<Path>, left: set<Path>, right: set<Path>) returns (r: Option<bool>)
    ensures r == if (left + right) * unreadable != {} then None else Some(Overlap(fs, left, right))
  {
    if (left + right) * unreadable != {} { return None; }
    return Some(Overlap(fs, left, right));
  }

  method CheckAliases(fs: FileSystem, unreadable: set<Path>, inputs: set<Path>, outputs: set<Path>) returns (ok: bool)
    ensures ok ==> AliasesRuledOut(fs, inputs, outputs)
    ensures AliasesRuledOut(fs, inputs, outputs) && outputs * unreadable == {} ==> ok
  {
    if outputs == {} || !exists r :: r in inputs && r in fs && fs[r].directory { return true; }
    var rest := outputs;
    while rest != {}
      invariant rest <= outputs
      invariant forall w | w in outputs && w !in rest && w in fs :: fs[w].directory || fs[w].links <= 1
    {
      var w :| w in rest;
      if w in unreadable {
        assert w in outputs * unreadable;
        return false;
      }
      if w in fs && !fs[w].directory && fs[w].links > 1 { return false; }
      rest := rest - {w};
    }
    return true;
  }

  method CheckPair(fs: FileSystem, unreadable: set<Path>, one: Member, other: Member) returns (ok: bool)
    ensures ok <==> Identifiable(unreadable, one, other) && Compatible(fs, one, other)
  {
    hide Overlap, AliasesRuledOut;
    var aliases := CheckAliases(fs, unreadable, one.inputs, other.outputs);
    var others := CheckAliases(fs, unreadable, other.inputs, one.outputs);
    assert Identifiable(unreadable, one, other) ==> other.outputs * unreadable == {} && one.outputs * unreadable == {};
    if !aliases || !others { return false; }
    var r1 := OverlapOf(fs, unreadable, one.outputs, {other.artifactRoot});
    var r2 := OverlapOf(fs, unreadable, other.outputs, {one.artifactRoot});
    if r1 != Some(false) || r2 != Some(false) { return false; }
    var r3 := OverlapOf(fs, unreadable, one.outputs, other.inputs);
    var r4 := OverlapOf(fs, unreadable, one.outputs, other.outputs);
    var r5 := OverlapOf(fs, unreadable, other.outputs, one.inputs);
    if r3 != Some(false) || r4 != Some(false) || r5 != Some(false) { return false; }
    return true;
  }

  /** Admits a batch exactly when every pair is identifiable and compatible. */
  method Admit(fs: FileSystem, unreadable: set<Path>, members: seq<Member>) returns (ok: bool)
    ensures ok <==> forall i, j :: 0 <= i < j < |members| ==>
              Identifiable(unreadable, members[i], members[j]) && Compatible(fs, members[i], members[j])
  {
    hide Compatible, Identifiable;
    var i := 0;
    while i < |members|
      invariant 0 <= i <= |members|
      invariant forall a, b :: 0 <= a < i && a < b < |members| ==>
                  Identifiable(unreadable, members[a], members[b]) && Compatible(fs, members[a], members[b])
    {
      var j := i + 1;
      while j < |members|
        invariant i < j <= |members|
        invariant forall b :: i < b < j ==> Identifiable(unreadable, members[i], members[b])
                                            && Compatible(fs, members[i], members[b])
      {
        var fine := CheckPair(fs, unreadable, members[i], members[j]);
        if !fine { return false; }
        j := j + 1;
      }
      i := i + 1;
    }
    return true;
  }

  // ----- which files a member can reach ------------------------------------------------------

  /** Link counts are true and only regular files have several names; parents of entries are directories. */
  ghost predicate Sane(fs: FileSystem) {
    && (forall p, q :: p in fs && q in fs && fs[p].identity == fs[q].identity ==> fs[p] == fs[q])
    && (forall p, q :: p in fs && q in fs && fs[p].identity == fs[q].identity && p != q ==>
        !fs[p].directory && fs[p].links > 1)
    && (forall p, q :: p in fs && Within(q, p) && q != p ==> q in fs && fs[q].directory)
  }

  /** A file is its inode, or its own path while it does not exist. */
  datatype Location = Existing(identity: Identity) | Uncreated(path: Path)

  function At(fs: FileSystem, p: Path): Location {
    if p in fs then Existing(fs[p].identity) else Uncreated(p)
  }

  /** The member's fence: everything at or below its write scopes. */
  predicate MayWrite(m: Member, p: Path) {
    exists w :: w in m.outputs && Within(w, p)
  }

  predicate MayRead(m: Member, p: Path) {
    MayWrite(m, p) || exists r :: r in m.inputs && Within(r, p)
  }

  /** Below a write scope, where admission does not look. */
  predicate Unseen(m: Member, p: Path) { p !in m.outputs && MayWrite(m, p) }

  /** Two names of one file, at least one of them unseen below a write scope: `a` may write `q`, `b` may use `p`. */
  predicate HiddenLink(fs: FileSystem, a: Member, b: Member, q: Path, p: Path) {
    && q in fs && p in fs && q != p && fs[q].identity == fs[p].identity
    && (|| (Unseen(a, q) && MayRead(b, p))
        || (MayWrite(a, q) && Unseen(b, p)))
  }

  predicate Shared(fs: FileSystem, a: Member, b: Member, q: Path, p: Path) {
    MayWrite(a, q) && MayRead(b, p) && At(fs, q) == At(fs, p)
  }

  ghost predicate HaveHiddenLink(fs: FileSystem, a: Member, b: Member) {
    exists q, p :: HiddenLink(fs, a, b, q, p)
  }

  /** Of two compatible members, one can write a file the other may read or write exactly through a hidden link. */
  lemma DisjointExactly(fs: FileSystem, a: Member, b: Member)
    requires Sane(fs) && Compatible(fs, a, b)
    ensures (forall q, p :: !Shared(fs, a, b, q, p)) <==> !HaveHiddenLink(fs, a, b)
  {
    hide Sane, Compatible, MayRead, MayWrite, Unseen;
    forall q, p ensures Shared(fs, a, b, q, p) ==> HiddenLink(fs, a, b, q, p) {
      if Shared(fs, a, b, q, p) { SharedIsHidden(fs, a, b, q, p); }
    }
    forall q, p ensures HiddenLink(fs, a, b, q, p) ==> Shared(fs, a, b, q, p) { HiddenIsShared(fs, a, b, q, p); }
  }

  lemma HiddenIsShared(fs: FileSystem, a: Member, b: Member, q: Path, p: Path)
    ensures HiddenLink(fs, a, b, q, p) ==> Shared(fs, a, b, q, p)
  {
    hide Within;
  }

  lemma SharedIsHidden(fs: FileSystem, a: Member, b: Member, q: Path, p: Path)
    requires Sane(fs) && Compatible(fs, a, b) && Shared(fs, a, b, q, p)
    ensures HiddenLink(fs, a, b, q, p)
  {
    hide Overlap, Sane, Within, Touch, AliasesRuledOut;
    OverlapIsPairwiseTouch(fs, a.outputs, b.inputs);
    OverlapIsPairwiseTouch(fs, a.outputs, b.outputs);
    var w :| w in a.outputs && Within(w, q);
    if p == q {
      forall r | Within(r, p) ensures Touch(fs, w, r) { Comparable(fs, w, r, p); }
      assert false;
    }
    SharedInode(fs, p, q);
    if !MayWrite(b, p) {
      var r :| r in b.inputs && Within(r, p);
      if r != p { DirectoryAbove(fs, r, p, b.inputs, a.outputs, q); }
    }
  }

  lemma SharedInode(fs: FileSystem, p: Path, q: Path)
    requires Sane(fs) && p in fs && q in fs && fs[p].identity == fs[q].identity && p != q
    ensures fs[p].links > 1 && fs[q].links > 1 && Touch(fs, q, p)
  {
    hide Within;
  }

  lemma DirectoryAbove(fs: FileSystem, r: Path, p: Path, inputs: set<Path>, outputs: set<Path>, q: Path)
    requires Sane(fs) && p in fs && Within(r, p) && r != p && q in fs && p != q && fs[p].identity == fs[q].identity
    ensures r in inputs && q in outputs ==> !AliasesRuledOut(fs, inputs, outputs)
  {
    hide Within;
  }

  // ----- what admission cannot see -----------------------------------------------------------------

  const SHARED_FILE := Entry(Identity(1, 9), false, 2)

  function Folder(inode: int): Entry { Entry(Identity(1, inode), true, 2) }

  const HARDLINKED: FileSystem :=
    map[[] := Folder(1), ["w"] := Folder(2), ["a"] := Folder(3), ["b"] := Folder(4), ["a", "x"] := SHARED_FILE,
        ["w", "y"] := SHARED_FILE]

  const WRITER := Member({["w"]}, {["a"]}, ["a"])
  const READER := Member({["w"]}, {["b"]}, ["b"])

  /** Two members that only write their own artifact directories are admitted together although a file below one of
      those directories is a hard link to a file the other reads. */
  lemma HardlinkBelowScopeAdmitted()
    ensures Sane(HARDLINKED) && Compatible(HARDLINKED, WRITER, READER)
    ensures HiddenLink(HARDLINKED, WRITER, READER, ["a", "x"], ["w", "y"])
  {
    assert ["a", "x"][..1] == ["a"] && ["w", "y"][..1] == ["w"];
    assert Within(["a"], ["a", "x"]) && Within(["w"], ["w", "y"]);
    HardlinkedSane();
    FoldersApart("a", "b");
    FoldersApart("a", "w");
    FoldersApart("b", "a");
    FoldersApart("b", "w");
  }

  lemma FoldersApart(a: string, b: string)
    requires a != b && a in ["w", "a", "b"] && b in ["w", "a", "b"]
    ensures !Overlap(HARDLINKED, {[a]}, {[b]})
  {
    assert [a] != [b] by { assert [a][0] != [b][0]; }
    OverlapIsPairwiseTouch(HARDLINKED, {[a]}, {[b]});
    assert !Within([a], [b]) && !Within([b], [a]) by { assert [a][..1] == [a] && [b][..1] == [b]; }
  }

  lemma HardlinkedSane()
    ensures Sane(HARDLINKED)
  {
    forall p, q | p in HARDLINKED && Within(q, p) && q != p ensures q in HARDLINKED && HARDLINKED[q].directory {
      assert p[..|p|] == p;
      assert q == p[..|q|];
      if |q| == 0 { assert q == []; } else { assert q == [p[0]]; }
    }
  }

  lemma Comparable(fs: FileSystem, a: Path, b: Path, p: Path)
    requires Within(a, p) && Within(b, p)
    ensures Touch(fs, a, b)
  {
    if |a| <= |b| { assert b[..|a|] == p[..|a|]; } else { assert a[..|b|] == p[..|b|]; }
  }

  lemma CompatibleSymmetric(fs: FileSystem, a: Member, b: Member)
    requires Compatible(fs, a, b)
    ensures Compatible(fs, b, a)
  {
    hide Overlap, AliasesRuledOut;
    OverlapSymmetric(fs, a.outputs, b.outputs);
  }

  lemma OverlapSymmetric(fs: FileSystem, a: set<Path>, b: set<Path>)
    ensures Overlap(fs, a, b) ==> Overlap(fs, b, a)
    ensures Overlap(fs, b, a) ==> Overlap(fs, a, b)
  {
    hide Parents;
    assert a * b == b * a && Identities(fs, a) * Identities(fs, b) == Identities(fs, b) * Identities(fs, a);
  }

  // ----- interleavings -----------------------------------------------------------------------

  /** What a member does next from a local state; what it inputs decides how it goes on. */
  datatype Action<!L> = Done | Read(path: Path, onRead: Option<string> -> L)
    | Write(path: Path, content: string, next: L)
  type Program<!L> = L -> Action<L>

  /** The shared files, and every member's local state. */
  datatype World<L> = World(files: map<Location, string>, locals: seq<L>)

  /** An admitted batch in which no two members have a hidden link. */
  ghost predicate Separate(fs: FileSystem, members: seq<Member>) {
    forall i, j :: 0 <= i < |members| && 0 <= j < |members| && i != j ==> !HaveHiddenLink(fs, members[i], members[j])
  }

  ghost predicate Admitted(fs: FileSystem, members: seq<Member>) {
    Sane(fs) && forall i, j :: 0 <= i < j < |members| ==> Compatible(fs, members[i], members[j])
  }

  /** Every program stays inside its member's fence. */
  ghost predicate InFences<L(!new)>(members: seq<Member>, programs: seq<Program<L>>) {
    |programs| == |members| && forall i, l :: 0 <= i < |members| ==> InFence(members[i], programs[i](l))
  }

  ghost predicate Fenced<L(!new)>(fs: FileSystem, members: seq<Member>, programs: seq<Program<L>>) {
    Admitted(fs, members) && Separate(fs, members) && InFences(members, programs)
  }

  predicate InFence<L>(m: Member, action: Action<L>) {
    match action
    case Done => true
    case Read(p, _) => MayRead(m, p)
    case Write(p, _, _) => MayWrite(m, p)
  }

  function Step<L>(fs: FileSystem, programs: seq<Program<L>>, w: World<L>, i: nat): World<L>
    requires i < |programs| == |w.locals|
  {
    match programs[i](w.locals[i])
    case Done => w
    case Read(p, onRead) => w.(locals := w.locals[i := onRead(Get(w.files, At(fs, p)))])
    case Write(p, content, next) => World(w.files[At(fs, p) := content], w.locals[i := next])
  }

  predicate Legal(schedule: seq<nat>, n: nat) {
    forall k :: 0 <= k < |schedule| ==> schedule[k] < n
  }

  /** Steps the members in the order of the schedule. */
  function Interleave<L>(fs: FileSystem, programs: seq<Program<L>>, w: World<L>, schedule: seq<nat>): (r: World<L>)
    requires |programs| == |w.locals| && Legal(schedule, |programs|)
    ensures |r.locals| == |w.locals|
    decreases |schedule|
  {
    if schedule == [] then w
    else Step(fs, programs, Interleave(fs, programs, w, schedule[..|schedule| - 1]), schedule[|schedule| - 1])
  }

  /** Worlds that member `i` cannot tell apart. */
  ghost predicate SameView<L>(fs: FileSystem, m: Member, i: nat, v: World<L>, w: World<L>)
    requires i < |v.locals| == |w.locals|
  {
    v.locals[i] == w.locals[i] && forall p :: MayRead(m, p) ==> Get(v.files, At(fs, p)) == Get(w.files, At(fs, p))
  }

  lemma OwnStep<L(!new)>(fs: FileSystem, members: seq<Member>, programs: seq<Program<L>>, v: World<L>, w: World<L>,
                         i: nat)
    requires Fenced(fs, members, programs) && i < |members| == |v.locals| == |w.locals|
             && SameView(fs, members[i], i, v, w)
    ensures SameView(fs, members[i], i, Step(fs, programs, v, i), Step(fs, programs, w, i))
  {
    hide MayRead, MayWrite, Sane, Compatible;
    assert InFence(members[i], programs[i](v.locals[i]));
  }

  lemma OtherStep<L(!new)>(fs: FileSystem, members: seq<Member>, programs: seq<Program<L>>, w: World<L>, i: nat, j: nat)
    requires Fenced(fs, members, programs) && i < |members| == |w.locals| && j < |members| && i != j
    ensures SameView(fs, members[i], i, w, Step(fs, programs, w, j))
  {
    hide MayRead, MayWrite, Sane, Compatible, Within;
    var action := programs[j](w.locals[j]);
    assert InFence(members[j], action);
    if action.Write? {
      if j > i { CompatibleSymmetric(fs, members[i], members[j]); }
      DisjointExactly(fs, members[j], members[i]);
      forall p | MayRead(members[i], p) ensures At(fs, action.path) != At(fs, p) {
        assert !Shared(fs, members[j], members[i], action.path, p);
      }
    }
  }

  function Turns(schedule: seq<nat>, i: nat): nat {
    if schedule == [] then 0
    else Turns(schedule[..|schedule| - 1], i) + if schedule[|schedule| - 1] == i then 1 else 0
  }

  function Alone(i: nat, n: nat): (r: seq<nat>)
    ensures forall k :: 0 <= k < |r| ==> r[k] == i
  {
    if n == 0 then [] else Alone(i, n - 1) + [i]
  }

  /** A member's view depends only on how many steps it took itself. */
  lemma {:induction false} ViewIsOwn<L(!new)>(fs: FileSystem, members: seq<Member>, programs: seq<Program<L>>,
                                              w: World<L>,
                                              schedule: seq<nat>, i: nat)
    requires Fenced(fs, members, programs) && i < |members| == |w.locals| && Legal(schedule, |members|)
    ensures SameView(fs, members[i], i, Interleave(fs, programs, w, schedule),
                     Interleave(fs, programs, w, Alone(i, Turns(schedule, i))))
    decreases |schedule|
  {
    hide Sane, Compatible, InFence, MayRead, Step;
    if schedule != [] {
      var last := |schedule| - 1;
      ViewIsOwn(fs, members, programs, w, schedule[..last], i);
      var v, u := Interleave(fs, programs, w, schedule[..last]),
        Interleave(fs, programs, w, Alone(i, Turns(schedule[..last], i)));
      if schedule[last] == i {
        var alone := Alone(i, Turns(schedule, i));
        assert alone[..|alone| - 1] == Alone(i, Turns(schedule[..last], i));
        OwnStep(fs, members, programs, v, u, i);
      } else {
        OtherStep(fs, members, programs, v, i, schedule[last]);
      }
    }
  }

  /** A file no member may write keeps its content. */
  lemma {:induction false} Untouched<L(!new)>(fs: FileSystem, members: seq<Member>, programs: seq<Program<L>>,
                                              w: World<L>,
                                              schedule: seq<nat>, location: Location)
    requires Fenced(fs, members, programs) && |members| == |w.locals| && Legal(schedule, |members|)
    requires forall i, p :: 0 <= i < |members| && MayWrite(members[i], p) ==> At(fs, p) != location
    ensures Get(Interleave(fs, programs, w, schedule).files, location) == Get(w.files, location)
    decreases |schedule|
  {
    hide MayWrite, MayRead, Sane, Compatible;
    if schedule != [] {
      var last := |schedule| - 1;
      Untouched(fs, members, programs, w, schedule[..last], location);
      var v := Interleave(fs, programs, w, schedule[..last]);
      assert InFence(members[schedule[last]], programs[schedule[last]](v.locals[schedule[last]]));
    }
  }

  /** Two schedules that give every member equally many steps end in the same world. */
  lemma InterleavingsAgree<L(!new)>(fs: FileSystem, members: seq<Member>, programs: seq<Program<L>>, w: World<L>,
                                    one: seq<nat>, two: seq<nat>)
    requires Fenced(fs, members, programs) && |members| == |w.locals|
    requires Legal(one, |members|) && Legal(two, |members|)
    requires forall i :: 0 <= i < |members| ==> Turns(one, i) == Turns(two, i)
    ensures Interleave(fs, programs, w, one) == Interleave(fs, programs, w, two)
  {
    hide Sane, Compatible, InFence, MayWrite, Interleave, Turns, Within;
    var u, v := Interleave(fs, programs, w, one), Interleave(fs, programs, w, two);
    forall i | 0 <= i < |members| ensures SameView(fs, members[i], i, u, v) {
      ViewIsOwn(fs, members, programs, w, one, i);
      ViewIsOwn(fs, members, programs, w, two, i);
    }
    forall location ensures Get(u.files, location) == Get(v.files, location) {
      if i, p :| 0 <= i < |members| && MayWrite(members[i], p) && At(fs, p) == location {
        assert MayRead(members[i], p);
      } else {
        Untouched(fs, members, programs, w, one, location);
        Untouched(fs, members, programs, w, two, location);
      }
    }
    assert forall location :: location in u.files <==> Get(u.files, location).Some?;
    assert u.files == v.files;
    forall i | 0 <= i < |u.locals| ensures u.locals[i] == v.locals[i] {
      assert SameView(fs, members[i], i, u, v);
    }
  }

  /** The members of a schedule, one after another. */
  function OneByOne(schedule: seq<nat>, n: nat): (r: seq<nat>)
    ensures Legal(r, n)
  {
    if n == 0 then [] else OneByOne(schedule, n - 1) + Alone(n - 1, Turns(schedule, n - 1))
  }

  lemma {:induction false} TurnsConcat(a: seq<nat>, b: seq<nat>, i: nat)
    ensures Turns(a + b, i) == Turns(a, i) + Turns(b, i)
    decreases |b|
  {
    if b == [] {
      assert a + b == a;
    } else {
      assert (a + b)[..|a + b| - 1] == a + b[..|b| - 1];
      TurnsConcat(a, b[..|b| - 1], i);
    }
  }

  lemma {:induction false} TurnsAlone(i: nat, n: nat, k: nat)
    ensures Turns(Alone(i, n), k) == if i == k then n else 0
  {
    if n > 0 {
      TurnsAlone(i, n - 1, k);
      assert Alone(i, n)[..|Alone(i, n)| - 1] == Alone(i, n - 1);
    }
  }

  lemma {:induction false} TurnsOneByOne(schedule: seq<nat>, n: nat, i: nat)
    ensures Turns(OneByOne(schedule, n), i) == if i < n then Turns(schedule, i) else 0
  {
    if n > 0 {
      TurnsOneByOne(schedule, n - 1, i);
      TurnsConcat(OneByOne(schedule, n - 1), Alone(n - 1, Turns(schedule, n - 1)), i);
      TurnsAlone(n - 1, Turns(schedule, n - 1), i);
    }
  }

  /** Any interleaving of an admitted batch ends exactly where running its members one after another ends. */
  lemma AdmittedBatchSerializable<L(!new)>(fs: FileSystem, members: seq<Member>, programs: seq<Program<L>>, w: World<L>,
                                           schedule: seq<nat>)
    requires Fenced(fs, members, programs) && |members| == |w.locals| && Legal(schedule, |members|)
    ensures Interleave(fs, programs, w, schedule) == Interleave(fs, programs, w, OneByOne(schedule, |members|))
  {
    hide Sane, Compatible, InFence;
    forall i | 0 <= i < |members| ensures Turns(schedule, i) == Turns(OneByOne(schedule, |members|), i) {
      TurnsOneByOne(schedule, |members|, i);
    }
    InterleavingsAgree(fs, members, programs, w, schedule, OneByOne(schedule, |members|));
  }

  // ----- exactly when a batch is serializable --------------------------------------------------

  /** Every interleaving from every world ends where running the members one after another ends. */
  ghost predicate Serializable<L(!new)>(fs: FileSystem, programs: seq<Program<L>>) {
    forall w: World<L>, schedule: seq<nat> :: |programs| == |w.locals| && Legal(schedule, |programs|) ==>
      Interleave(fs, programs, w, schedule) == Interleave(fs, programs, w, OneByOne(schedule, |programs|))
  }

  /** Writes `q` once. */
  function WriteOnce(q: Path): Program<nat> {
    (l: nat) => if l == 0 then Write(q, "written", 1) else Done
  }

  /** Reads `p` twice and remembers each time whether it was there. */
  function ReadTwice(p: Path): Program<nat> {
    (l: nat) => if l == 0 then Read(p, (c: Option<string>) => if c.Some? then 2 else 1)
                else if l <= 2 then Read(p, (c: Option<string>) => if c.Some? then l + 4 else l + 2)
                else Done
  }

  /** Member `i` writes, member `j` reads, all others are done. */
  function Racer(k: nat, i: nat, j: nat, q: Path, p: Path): Program<nat> {
    if k == i then WriteOnce(q) else if k == j then ReadTwice(p) else (l: nat) => Done
  }

  function Racing(n: nat, i: nat, j: nat, q: Path, p: Path): (r: seq<Program<nat>>)
    ensures |r| == n && forall k :: 0 <= k < n ==> r[k] == Racer(k, i, j, q, p)
  {
    if n == 0 then [] else Racing(n - 1, i, j, q, p) + [Racer(n - 1, i, j, q, p)]
  }

  function Idle(n: nat): (w: World<nat>)
    ensures w.files == map[] && |w.locals| == n && forall k :: 0 <= k < n ==> w.locals[k] == 0
  {
    World(map[], seq(n, _ => 0))
  }

  function Ending(fs: FileSystem, n: nat, i: nat, j: nat, q: Path, p: Path, schedule: seq<nat>): nat
    requires j < n && Legal(schedule, n)
  {
    Interleave(fs, Racing(n, i, j, q, p), Idle(n), schedule).locals[j]
  }

  /** Two members with a hidden link have programs inside their fences of which one interleaving ends like neither
      order of running them one after the other: the reader saw the file appear between its two reads. */
  lemma HiddenLinkRaces(fs: FileSystem, members: seq<Member>, i: nat, j: nat, q: Path, p: Path)
    requires i < |members| && j < |members| && i != j && HiddenLink(fs, members[i], members[j], q, p)
    ensures InFences(members, Racing(|members|, i, j, q, p))
    ensures Ending(fs, |members|, i, j, q, p, [j, i, j]) == 5
    ensures Ending(fs, |members|, i, j, q, p, [i, j, j]) == 6
    ensures Ending(fs, |members|, i, j, q, p, [j, j, i]) == 3
  {
    HiddenIsShared(fs, members[i], members[j], q, p);
    RacersFenced(members, i, j, q, p);
    hide Within, HiddenLink, MayWrite, MayRead, Racing;
    var n := |members|;
    Three(fs, n, i, j, q, p, j, i, j);
    Three(fs, n, i, j, q, p, i, j, j);
    Three(fs, n, i, j, q, p, j, j, i);
  }

  lemma RacersFenced(members: seq<Member>, i: nat, j: nat, q: Path, p: Path)
    requires i < |members| && j < |members| && i != j && MayWrite(members[i], q) && MayRead(members[j], p)
    ensures InFences(members, Racing(|members|, i, j, q, p))
  {
    hide MayWrite, MayRead;
    var programs := Racing(|members|, i, j, q, p);
    forall k, l: nat | 0 <= k < |members| ensures InFence(members[k], programs[k](l)) {
      assert programs[k] == Racer(k, i, j, q, p);
    }
  }

  lemma Three(fs: FileSystem, n: nat, i: nat, j: nat, q: Path, p: Path, a: nat, b: nat, c: nat)
    requires a < n && b < n && c < n
    ensures var programs := Racing(n, i, j, q, p);
            Interleave(fs, programs, Idle(n), [a, b, c]) == Step(fs, programs,
                                                                 Step(fs, programs, Step(fs, programs, Idle(n), a),
                                                                      b), c)
  {
    hide Step;
    var programs, w := Racing(n, i, j, q, p), Idle(n);
    assert [a, b, c][..2] == [a, b] && [a, b][..1] == [a] && [a][..0] == [];
    assert Interleave(fs, programs, w, []) == w;
    assert Interleave(fs, programs, w, [a]) == Step(fs, programs, w, a);
    assert Interleave(fs, programs, w, [a, b]) == Step(fs, programs, Step(fs, programs, w, a), b);
  }

  /** All programs of an admitted batch that stay in their fences are serializable exactly when no two members have a
      hidden link. */
  lemma SerializableExactly(fs: FileSystem, members: seq<Member>)
    requires Admitted(fs, members)
    ensures (forall programs: seq<Program<nat>> :: InFences(members, programs) ==> Serializable(fs, programs)) <==>
              Separate(fs, members)
  {
    hide Sane, Compatible, InFence, Interleave, HiddenLink, OneByOne;
    if Separate(fs, members) {
      forall programs: seq<Program<nat>> | InFences(members, programs) ensures Serializable(fs, programs) {
        forall w: World<nat>, schedule: seq<nat> | |programs| == |w.locals| && Legal(schedule, |programs|)
          ensures Interleave(fs, programs, w, schedule) == Interleave(fs, programs, w, OneByOne(schedule, |programs|))
        {
          AdmittedBatchSerializable(fs, members, programs, w, schedule);
        }
      }
    } else {
      var i, j :| 0 <= i < |members| && 0 <= j < |members| && i != j && HaveHiddenLink(fs, members[i], members[j]);
      var q, p :| HiddenLink(fs, members[i], members[j], q, p);
      HiddenLinkRaces(fs, members, i, j, q, p);
      var programs := Racing(|members|, i, j, q, p);
      OneOrTheOther(i, j, |members|);
      assert Legal([j, i, j], |members|) && |programs| == |Idle(|members|).locals|;
      assert OneByOne([j, i, j], |programs|) == if i < j then [i, j, j] else [j, j, i];
      assert Interleave(fs, programs, Idle(|members|), [j, i, j]) != Interleave(fs, programs, Idle(|members|),
                                                                                OneByOne([j, i, j], |programs|));
      assert !Serializable(fs, programs);
    }
  }

  /** A schedule of two members, one after the other. */
  lemma {:induction false} OneByOneOfTwo(schedule: seq<nat>, n: nat, low: nat, high: nat)
    requires low < high && forall k: nat :: k != low && k != high ==> Turns(schedule, k) == 0
    ensures OneByOne(schedule, n) ==
            if n <= low then [] else if n <= high then Alone(low, Turns(schedule, low))
            else Alone(low, Turns(schedule, low)) + Alone(high, Turns(schedule, high))
  {
    hide Turns;
    if n > 0 {
      OneByOneOfTwo(schedule, n - 1, low, high);
      AloneFew(n - 1);
    }
  }

  lemma OneOrTheOther(i: nat, j: nat, n: nat)
    requires i != j && i < n && j < n
    ensures OneByOne([j, i, j], n) == if i < j then [i, j, j] else [j, j, i]
  {
    hide Turns, Alone, OneByOne;
    forall k: nat ensures Turns([j, i, j], k) == if k == i then 1 else if k == j then 2 else 0 {
      TurnsOfThree(j, i, j, k);
    }
    OneByOneOfTwo([j, i, j], n, if i < j then i else j, if i < j then j else i);
    AloneFew(i);
    AloneFew(j);
  }

  lemma AloneFew(i: nat)
    ensures Alone(i, 0) == [] && Alone(i, 1) == [i] && Alone(i, 2) == [i, i]
  {
    assert Alone(i, 2) == Alone(i, 1) + [i];
  }

  lemma TurnsOfThree(a: nat, b: nat, c: nat, k: nat)
    ensures Turns([a, b, c], k) == (if a == k then 1 else 0) + (if b == k then 1 else 0) + (if c == k then 1 else 0)
  {
    assert [a, b, c][..2] == [a, b] && [a, b][..1] == [a] && [a][..0] == [];
    assert Turns([a], k) == if a == k then 1 else 0;
    assert Turns([a, b], k) == Turns([a], k) + if b == k then 1 else 0;
  }

  /** On the files above, a run of the two admitted members that no order of running them explains. */
  lemma AdmittedBatchRaces()
    ensures Admitted(HARDLINKED, [WRITER, READER])
            && InFences([WRITER, READER], Racing(2, 0, 1, ["a", "x"], ["w", "y"]))
    ensures Ending(HARDLINKED, 2, 0, 1, ["a", "x"], ["w", "y"], [1, 0, 1]) == 5
    ensures Ending(HARDLINKED, 2, 0, 1, ["a", "x"], ["w", "y"], [0, 1, 1]) == 6
    ensures Ending(HARDLINKED, 2, 0, 1, ["a", "x"], ["w", "y"], [1, 1, 0]) == 3
  {
    hide Sane, Compatible, HiddenLink, InFence;
    HardlinkBelowScopeAdmitted();
    HiddenLinkRaces(HARDLINKED, [WRITER, READER], 0, 1, ["a", "x"], ["w", "y"]);
  }
}
