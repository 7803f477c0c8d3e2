/** Tree reconciliation: `listFiles` and `reconcileDirectory` of
    scripts/reconcile.ts, and their use after a copy in scripts/build.ts. */
module Reconcile {
  import opened Text

  /** Entry names from the reconciled root down; the root itself is `[]`. */
  type Path = seq<string>

  datatype Node = Directory | File(content: seq<bv8>) | Link | Special

  type Tree = map<Path, Node>

  predicate IsName(name: string) { name != "" && '/' !in name }

  predicate IsPath(p: Path) {
    p != [] && forall i :: 0 <= i < |p| ==> IsName(p[i])
  }

  /** Every entry stands in a directory. */
  predicate IsTree(t: Tree) {
    forall p :: p in t ==>
      IsPath(p) && (|p| > 1 ==> p[..|p| - 1] in t && t[p[..|p| - 1]].Directory?)
  }

  /** The POSIX-style path relative to the root. */
  function Relative(p: Path): string { Join(p, "/") }

  datatype Options = Options(keep: set<string>, ignore: seq<string>, dryRun: bool)

  predicate Matches(p: Path, entry: string) {
    Relative(p) == entry || entry + "/" <= Relative(p)
  }

  predicate Ignored(p: Path, ignore: seq<string>) {
    exists i :: 0 <= i < |ignore| && Matches(p, ignore[i])
  }

  // ------------------------------------------------------------ ignored subtrees

  lemma NamesAreFree(p: Path)
    requires IsPath(p)
    ensures forall i :: 0 <= i < |p| ==> '/' !in p[i]
  {}

  /** Matching an ignore entry as a string prefix is matching its segments as a
      prefix of the path's, whatever the entry is. */
  lemma MatchesIsSegmentPrefix(p: Path, entry: string)
    requires IsPath(p)
    ensures Matches(p, entry) <==> Split(entry, '/') <= p
  {
    hide IsName;
    assert forall i :: 0 <= i < |p| ==> '/' !in p[i] by { NamesAreFree(p); }
    SplitJoin(p, '/');
    var parts := Split(entry, '/');
    JoinSplit(entry, '/');
    if entry + "/" <= Relative(p) {
      var rest := Relative(p)[|entry| + 1..];
      assert Relative(p) == entry + ['/'] + rest;
      SplitAppend(entry, rest, '/');
      assert p == parts + Split(rest, '/');
    }
    if parts <= p && parts != p {
      JoinConcat(parts, p[|parts|..], "/");
      assert p == parts + p[|parts|..];
    }
  }

  lemma IgnoredBelow(p: Path, q: Path, ignore: seq<string>)
    requires IsPath(p) && IsPath(q) && p <= q && Ignored(p, ignore)
    ensures Ignored(q, ignore)
  {
    hide Matches;
    var i :| 0 <= i < |ignore| && Matches(p, ignore[i]);
    MatchesIsSegmentPrefix(p, ignore[i]);
    MatchesIsSegmentPrefix(q, ignore[i]);
  }

  lemma {:induction false} AncestorIsDirectory(t: Tree, p: Path, q: Path)
    requires IsTree(t) && q in t && p < q && p != []
    ensures p in t && t[p].Directory?
    decreases |q|
  {
    var parent := q[..|q| - 1];
    if p != parent {
      AncestorIsDirectory(t, p, parent);
    }
  }

  // --------------------------------------------------------- what should be left

  /** What stays for its own sake: anything ignored, links and other special
      entries, and the files to keep. */
  predicate Anchor(t: Tree, o: Options, p: Path)
    requires p in t
  {
    Ignored(p, o.ignore) || t[p].Link? || t[p].Special? || (t[p].File? && Relative(p) in o.keep)
  }

  /** An entry stays when something at it or below it stays for its own sake. */
  predicate Survives(t: Tree, o: Options, p: Path) {
    exists q :: q in t && p <= q && Anchor(t, o, q)
  }

  /** What goes, strictly below a directory and under some of its entries. */
  function GoneAmong(t: Tree, o: Options, directory: Path, names: set<string>): (gone: set<Path>)
    ensures gone <= t.Keys
  {
    set p | p in t && directory < p && p[|directory|] in names && !Survives(t, o, p)
  }

  function Gone(t: Tree, o: Options, directory: Path): (gone: set<Path>)
    ensures gone <= t.Keys
  {
    set p | p in t && directory < p && !Survives(t, o, p)
  }

  function GoneAt(t: Tree, o: Options, p: Path): (gone: set<Path>)
    ensures gone <= t.Keys
  {
    set q | q in t && p <= q && !Survives(t, o, q)
  }

  function FilesIn(t: Tree, paths: set<Path>): set<Path> {
    set p | p in paths && p in t && t[p].File?
  }

  function Size(node: Node): nat {
    if node.File? then |node.content| else 0
  }

  /** The bytes of some entries. */
  ghost function Bytes(t: Tree, paths: set<Path>): nat
    requires paths <= t.Keys
  {
    if paths == {} then 0
    else
      var p :| p in paths;
      Size(t[p]) + Bytes(t, paths - {p})
  }

  lemma BytesPick(t: Tree, paths: set<Path>) returns (p: Path)
    requires paths <= t.Keys && paths != {}
    ensures p in paths && Bytes(t, paths) == Size(t[p]) + Bytes(t, paths - {p})
  {
    p :| p in paths && Bytes(t, paths) == Size(t[p]) + Bytes(t, paths - {p});
  }

  lemma {:induction false} BytesAdd(t: Tree, paths: set<Path>, p: Path)
    requires paths <= t.Keys && p in t && p !in paths
    ensures Bytes(t, paths + {p}) == Bytes(t, paths) + Size(t[p])
    decreases |paths|
  {
    hide *;
    var all := paths + {p};
    var q := BytesPick(t, all);
    if q == p {
      assert all - {p} == paths;
    } else {
      BytesAdd(t, paths - {q}, p);
      BytesAdd(t, paths - {q}, q);
      assert all - {q} == (paths - {q}) + {p} && paths == (paths - {q}) + {q};
    }
  }

  lemma BytesOfNothing(t: Tree)
    ensures Bytes(t, {}) == 0
  {}

  lemma {:induction false} BytesUnion(t: Tree, a: set<Path>, b: set<Path>)
    requires a <= t.Keys && b <= t.Keys && a !! b
    ensures Bytes(t, a + b) == Bytes(t, a) + Bytes(t, b)
    decreases |b|
  {
    hide *;
    if b == {} {
      BytesOfNothing(t);
      assert a + b == a;
    } else {
      var p :| p in b;
      var rest := b - {p};
      BytesUnion(t, a, rest);
      BytesAdd(t, a + rest, p);
      BytesAdd(t, rest, p);
      assert a + b == (a + rest) + {p} && b == rest + {p};
    }
  }

  lemma {:induction false} BytesAgree(t: Tree, u: Tree, paths: set<Path>)
    requires paths <= t.Keys && paths <= u.Keys
    requires forall p :: p in paths ==> t[p] == u[p]
    ensures Bytes(t, paths) == Bytes(u, paths)
    decreases |paths|
  {
    if paths != {} {
      var p :| p in paths;
      BytesAgree(t, u, paths - {p});
      BytesAdd(t, paths - {p}, p);
      BytesAdd(u, paths - {p}, p);
      assert paths == (paths - {p}) + {p};
    }
  }

  // ------------------------------------------------------------ one entry's share

  lemma SameOrBelow(p: Path, q: Path)
    requires p <= q
    ensures p == q || p < q
  {}

  lemma AtOrBelow(t: Tree, p: Path, q: Path)
    requires IsTree(t) && p in t && q in t && p <= q
    ensures IsPath(p) && IsPath(q) && (p == q || t[p].Directory?)
  {
    hide IsName;
    if p != q {
      AncestorIsDirectory(t, p, q);
    }
  }

  /** Nothing goes at an anchor. */
  lemma AnchorStays(t: Tree, o: Options, p: Path)
    requires IsTree(t) && p in t && Anchor(t, o, p)
    ensures GoneAt(t, o, p) == {}
  {
    hide Ignored, Relative, IsPath, IsTree;
    forall q | q in t && p <= q ensures Survives(t, o, q) {
      AtOrBelow(t, p, q);
      if Ignored(p, o.ignore) {
        IgnoredBelow(p, q, o.ignore);
      }
    }
  }

  lemma FileGoes(t: Tree, o: Options, p: Path)
    requires IsTree(t) && p in t && !Anchor(t, o, p) && t[p].File?
    ensures GoneAt(t, o, p) == {p}
  {
    hide Ignored, Relative, IsPath, IsTree;
    forall q | q in t && p <= q ensures q == p {
      AtOrBelow(t, p, q);
    }
  }

  /** A directory goes unless something strictly inside it stays. */
  lemma DirectoryGoes(t: Tree, o: Options, p: Path)
    requires p in t && !Anchor(t, o, p)
    ensures Survives(t, o, p) <==> exists q :: q in t && p < q && Survives(t, o, q)
    ensures GoneAt(t, o, p) == Gone(t, o, p) + (if Survives(t, o, p) then {} else {p})
  {
    hide Ignored, Relative, Anchor;
    if Survives(t, o, p) {
      var a :| a in t && p <= a && Anchor(t, o, a);
      SameOrBelow(p, a);
      assert p < a && Survives(t, o, a);
    }
    forall q | q in t && p < q && Survives(t, o, q) ensures Survives(t, o, p) {
      var a :| a in t && q <= a && Anchor(t, o, a);
      assert p <= a;
    }
    hide Survives;
    forall q | q in t && p <= q ensures p == q || p < q {
      SameOrBelow(p, q);
    }
  }

  lemma GoneAmongMore(t: Tree, o: Options, directory: Path, names: set<string>, name: string)
    requires name !in names
    ensures GoneAmong(t, o, directory, names + {name})
         == GoneAmong(t, o, directory, names) + GoneAt(t, o, directory + [name])
    ensures GoneAmong(t, o, directory, names) !! GoneAt(t, o, directory + [name])
  {}

  function Names(t: Tree, directory: Path): set<string> {
    set p | p in t && directory < p && |p| == |directory| + 1 :: p[|directory|]
  }

  lemma NamesAre(t: Tree, directory: Path, name: string)
    ensures name in Names(t, directory) <==> directory + [name] in t
  {
    if name in Names(t, directory) {
      var p :| p in t && directory < p && |p| == |directory| + 1 && p[|directory|] == name;
      assert p == directory + [name];
    }
    if directory + [name] in t {
      assert (directory + [name])[|directory|] == name;
    }
  }

  /** `now` is part of `t` and has all of it at or below `p`. */
  predicate Covers(now: Tree, t: Tree, p: Path) {
    (forall q :: q in now ==> q in t && now[q] == t[q]) && forall q :: q in t && p <= q ==> q in now
  }

  /** What a pass takes away. */
  function Without(now: Tree, gone: set<Path>, o: Options): Tree {
    if o.dryRun then now else now - gone
  }

  lemma EverythingBelow(t: Tree, o: Options, directory: Path, names: set<string>)
    requires forall p :: p in t && directory < p ==> p[|directory|] in names
    ensures GoneAmong(t, o, directory, names) == Gone(t, o, directory)
  {
    hide Survives;
  }

  lemma NamesCover(t: Tree, directory: Path)
    requires IsTree(t)
    ensures forall p :: p in t && directory < p ==> p[|directory|] in Names(t, directory)
  {
    hide IsTree, Names;
    forall p | p in t && directory < p ensures p[|directory|] in Names(t, directory) {
      var q := p[..|directory| + 1];
      assert q == directory + [p[|directory|]];
      if q != p {
        AncestorIsDirectory(t, q, p);
      }
      NamesAre(t, directory, p[|directory|]);
    }
  }

  // ------------------------------------------------------------------ the results

  /** The files a pass removes. */
  function Doomed(t: Tree, o: Options): (doomed: set<Path>)
    ensures doomed <= t.Keys
  {
    set p | p in t && t[p].File? && !Ignored(p, o.ignore) && Relative(p) !in o.keep
  }

  /** The tree a pass leaves. */
  function Swept(t: Tree, o: Options): Tree {
    map p | p in t && Survives(t, o, p) :: t[p]
  }

  function Inside(t: Tree, directory: Path): set<Path> {
    set p | p in t && directory < p
  }

  function InsideAmong(t: Tree, directory: Path, names: set<string>): set<Path> {
    set p | p in t && directory < p && p[|directory|] in names
  }

  lemma {:induction false} DepthOf(paths: set<Path>) returns (depth: nat)
    ensures forall p :: p in paths ==> |p| <= depth
    decreases |paths|
  {
    depth := 0;
    if paths != {} {
      var p :| p in paths;
      depth := DepthOf(paths - {p});
      depth := if depth < |p| then |p| else depth;
    }
  }

  /** No path is longer. */
  predicate Within(t: Tree, depth: nat) {
    forall p :: p in t ==> |p| <= depth
  }

  lemma Depth(t: Tree) returns (depth: nat)
    ensures Within(t, depth)
  {
    depth := DepthOf(t.Keys);
  }

  lemma CoversItself(t: Tree)
    ensures Covers(t, t, [])
  {}

  lemma SweptIsWithout(t: Tree, o: Options)
    requires IsTree(t)
    ensures Swept(t, o) == t - Gone(t, o, [])
    ensures Without(t, Gone(t, o, []), o) == if o.dryRun then t else Swept(t, o)
  {
    hide Survives, IsName;
  }

  lemma OnlyItselfBelow(t: Tree, o: Options, p: Path)
    requires IsTree(t) && p in t && !t[p].Directory?
    ensures Survives(t, o, p) <==> Anchor(t, o, p)
  {
    hide Anchor, IsTree;
    if Survives(t, o, p) {
      var q :| q in t && p <= q && Anchor(t, o, q);
      AtOrBelow(t, p, q);
    }
  }

  lemma {:induction false} SizelessBytes(t: Tree, paths: set<Path>)
    requires paths <= t.Keys
    ensures Bytes(t, paths) == Bytes(t, FilesIn(t, paths))
    decreases |paths|
  {
    hide Bytes;
    if paths == {} {
      assert FilesIn(t, paths) == {};
    } else {
      var p :| p in paths;
      var rest := paths - {p};
      SizelessBytes(t, rest);
      BytesAdd(t, rest, p);
      assert paths == rest + {p};
      if t[p].File? {
        BytesAdd(t, FilesIn(t, rest), p);
        assert FilesIn(t, paths) == FilesIn(t, rest) + {p};
      } else {
        assert FilesIn(t, paths) == FilesIn(t, rest);
      }
    }
  }

  lemma DoomedIsGone(t: Tree, o: Options)
    requires IsTree(t)
    ensures FilesIn(t, Gone(t, o, [])) == Doomed(t, o)
    ensures Bytes(t, Gone(t, o, [])) == Bytes(t, Doomed(t, o))
  {
    hide Survives, Ignored, Relative, Bytes;
    forall p | p in t && t[p].File? ensures p in Gone(t, o, []) <==> p in Doomed(t, o) {
      OnlyItselfBelow(t, o, p);
      AtOrBelow(t, p, p);
    }
    SizelessBytes(t, Gone(t, o, []));
    assert FilesIn(t, Gone(t, o, [])) == Doomed(t, o);
  }

  lemma InSwept(t: Tree, o: Options)
    ensures forall p :: p in Swept(t, o) <==> p in t && Survives(t, o, p)
    ensures forall p :: p in Swept(t, o) ==> Swept(t, o)[p] == t[p]
  {
    hide Survives;
  }

  lemma AnchorSurvives(t: Tree, o: Options, p: Path)
    requires p in t && Anchor(t, o, p)
    ensures Survives(t, o, p)
  {
    hide Anchor;
    assert p <= p;
  }

  lemma AnchorBelow(t: Tree, o: Options, p: Path) returns (q: Path)
    requires Survives(t, o, p)
    ensures q in t && p <= q && Anchor(t, o, q)
  {
    hide Anchor;
    q :| q in t && p <= q && Anchor(t, o, q);
  }

  lemma IsAnchor(t: Tree, o: Options, p: Path)
    requires p in t
    ensures Anchor(t, o, p) <==>
      Ignored(p, o.ignore) || t[p].Link? || t[p].Special? || (t[p].File? && Relative(p) in o.keep)
  {}

  lemma SweptBy(t: Tree, o: Options, p: Path)
    requires IsTree(t) && p in t
    ensures p in Swept(t, o) ==> Swept(t, o)[p] == t[p]
    ensures Ignored(p, o.ignore) || t[p].Link? || t[p].Special? ==> p in Swept(t, o)
    ensures t[p].File? && !Ignored(p, o.ignore) ==> (p in Swept(t, o) <==> Relative(p) in o.keep)
    ensures t[p].Directory? && !Ignored(p, o.ignore) ==>
      (p in Swept(t, o) <==> exists q :: q in Swept(t, o) && p < q)
  {
    hide *;
    InSwept(t, o);
    IsAnchor(t, o, p);
    if Anchor(t, o, p) {
      AnchorSurvives(t, o, p);
    } else if t[p].Directory? {
      DirectoryGoes(t, o, p);
    } else {
      OnlyItselfBelow(t, o, p);
    }
  }

  /** The path is one of an ignored entry, or below it, segment by segment. */
  predicate Carved(p: Path, ignore: seq<string>) {
    exists i :: 0 <= i < |ignore| && Split(ignore[i], '/') <= p
  }

  /** A file to keep has exactly these segments. */
  predicate Listed(p: Path, keep: set<string>) {
    exists entry :: entry in keep && Split(entry, '/') == p
  }

  lemma RelativeIsSegments(p: Path, entry: string)
    requires IsPath(p)
    ensures Relative(p) == entry <==> Split(entry, '/') == p
  {
    NamesAreFree(p);
    hide IsPath, Split, Join;
    SplitJoin(p, '/');
    JoinSplit(entry, '/');
  }

  lemma BySegments(p: Path, o: Options)
    requires IsPath(p)
    ensures Ignored(p, o.ignore) <==> Carved(p, o.ignore)
    ensures Relative(p) in o.keep <==> Listed(p, o.keep)
  {
    hide IsPath, Matches, Relative, Split, Join;
    forall i | 0 <= i < |o.ignore| ensures Matches(p, o.ignore[i]) <==> Split(o.ignore[i], '/') <= p {
      MatchesIsSegmentPrefix(p, o.ignore[i]);
    }
    forall entry | entry in o.keep ensures Relative(p) == entry <==> Split(entry, '/') == p {
      RelativeIsSegments(p, entry);
    }
  }

  /** Exactly what is left of a tree: whatever is of an ignored entry's segments or
      below, every link and other special entry, the files to keep, and the
      directories something is left in. The files that are not left are those
      reported as removed. */
  lemma SweptIs(t: Tree, o: Options, p: Path)
    requires IsTree(t) && p in t
    ensures p in Swept(t, o) ==> Swept(t, o)[p] == t[p]
    ensures p in Swept(t, o) <==>
      Carved(p, o.ignore)
      || match t[p]
         case Directory => exists q :: q in Swept(t, o) && p < q
         case File(_) => Listed(p, o.keep)
         case _ => true
    ensures p in Doomed(t, o) <==> t[p].File? && p !in Swept(t, o)
  {
    hide Survives, Relative, Ignored, Carved, Listed, Swept, IsPath;
    SweptBy(t, o, p);
    BySegments(p, o);
  }

  lemma Survive(t: Tree, o: Options, p: Path, q: Path)
    requires q in t && p <= q && Anchor(t, o, q)
    ensures Survives(t, o, p)
  {}

  lemma StillSurvives(t: Tree, o: Options, p: Path)
    requires p in Swept(t, o)
    ensures Survives(Swept(t, o), o, p)
  {
    hide *;
    InSwept(t, o);
    var q := AnchorBelow(t, o, p);
    AnchorSurvives(t, o, q);
    IsAnchor(t, o, q);
    IsAnchor(Swept(t, o), o, q);
    Survive(Swept(t, o), o, p, q);
  }

  lemma SweptIsTree(t: Tree, o: Options)
    requires IsTree(t)
    ensures IsTree(Swept(t, o))
  {}

  /** A second pass removes nothing, and what is left is a tree. */
  lemma SweptTwice(t: Tree, o: Options)
    requires IsTree(t)
    ensures IsTree(Swept(t, o))
    ensures Swept(Swept(t, o), o) == Swept(t, o)
    ensures Doomed(Swept(t, o), o) == {}
  {
    hide Survives, Ignored, Relative, IsTree, Swept;
    var s := Swept(t, o);
    SweptIsTree(t, o);
    InSwept(t, o);
    InSwept(s, o);
    forall p | p in s ensures Survives(s, o, p) {
      StillSurvives(t, o, p);
    }
    forall p | p in s && s[p].File? ensures p !in Doomed(s, o) {
      SweptBy(t, o, p);
    }
  }

  /** Bytes before are bytes after plus bytes reclaimed. */
  lemma BytesConserved(t: Tree, o: Options)
    requires IsTree(t)
    ensures Bytes(t, t.Keys)
         == Bytes(Swept(t, o), Swept(t, o).Keys) + Bytes(t, Doomed(t, o))
  {
    hide Bytes, Survives, IsTree;
    var gone := Gone(t, o, []);
    SweptIsWithout(t, o);
    DoomedIsGone(t, o);
    var left := Swept(t, o).Keys;
    BytesUnion(t, left, gone);
    assert left + gone == t.Keys;
    BytesAgree(t, Swept(t, o), left);
  }

  // ---------------------------------------------------------- listing and copying

  lemma NoFilesYet(t: Tree, directory: Path)
    ensures Lists([], FilesIn(t, InsideAmong(t, directory, {})))
  {}

  lemma FilesAt(t: Tree, p: Path, part: seq<Path>)
    requires IsTree(t) && p in t
    requires if t[p].Directory? then Lists(part, FilesIn(t, Inside(t, p)))
             else part == if t[p].File? then [p] else []
    ensures Lists(part, FilesIn(t, set q | q in t && p <= q))
  {
    hide IsTree;
    forall q | q in t && p <= q ensures q == p || (t[p].Directory? && p < q) {
      AtOrBelow(t, p, q);
      SameOrBelow(p, q);
    }
    if t[p].Directory? {
      assert FilesIn(t, set q | q in t && p <= q) == FilesIn(t, Inside(t, p));
    }
  }

  lemma MoreFiles(t: Tree, directory: Path, done: set<string>, name: string, results: seq<Path>, part: seq<Path>)
    requires name !in done
    requires Lists(results, FilesIn(t, InsideAmong(t, directory, done)))
    requires Lists(part, FilesIn(t, set q | q in t && directory + [name] <= q))
    ensures Lists(results + part, FilesIn(t, InsideAmong(t, directory, done + {name})))
  {
    hide Lists;
    forall p: Path ensures directory + [name] <= p <==> directory < p && p[|directory|] == name {
      if directory < p && p[|directory|] == name {
        assert p[..|directory| + 1] == directory + [name];
      }
    }
    var a := FilesIn(t, InsideAmong(t, directory, done));
    var b := FilesIn(t, set q | q in t && directory + [name] <= q);
    ListsTogether(results, part, a, b);
    assert FilesIn(t, InsideAmong(t, directory, done + {name})) == a + b;
  }

  lemma AllInside(t: Tree, directory: Path, names: seq<string>, done: set<string>)
    requires Lists(names, Names(t, directory)) && forall n :: n in done <==> n in names
    requires forall p :: p in t && directory < p ==> p[|directory|] in Names(t, directory)
    ensures InsideAmong(t, directory, done) == Inside(t, directory)
  {
    hide Names;
  }

  lemma EverythingIsInside(t: Tree)
    requires IsTree(t)
    ensures Inside(t, []) == t.Keys
  {}

  /** What `cp` makes of a destination. */
  function Copied(destination: Tree, source: Tree): Tree { destination + source }

  /** Nothing but files and directories. */
  predicate Plain(t: Tree) {
    forall p :: p in t ==> t[p].Directory? || t[p].File?
  }

  /** No file stands in the way of a directory, or the other way round. */
  predicate Compatible(a: Tree, b: Tree) {
    forall p :: p in a && p in b ==> a[p].Directory? == b[p].Directory?
  }

  function KeepAll(t: Tree): Options {
    Options(set p | p in t && t[p].File? :: Relative(p), [], false)
  }

  lemma RelativeIdentifies(p: Path, q: Path)
    requires IsPath(p) && IsPath(q) && Relative(p) == Relative(q)
    ensures p == q
  {
    NamesAreFree(p);
    NamesAreFree(q);
    hide IsPath;
    SplitJoin(p, '/');
    SplitJoin(q, '/');
  }

  lemma CopiedHas(destination: Tree, source: Tree)
    requires Plain(destination) && Plain(source)
    ensures forall p :: p in source ==> p in Copied(destination, source) && Copied(destination, source)[p] == source[p]
    ensures Plain(Copied(destination, source))
    ensures forall p :: p in Copied(destination, source) ==>
      Copied(destination, source)[p].Directory? || Copied(destination, source)[p].File?
  {}

  /** Nothing is ignored, and a path is kept exactly when it is a source file. */
  lemma CopyKept(destination: Tree, source: Tree, p: Path)
    requires IsTree(source) && IsTree(Copied(destination, source)) && p in Copied(destination, source)
    ensures !Ignored(p, KeepAll(source).ignore)
    ensures Relative(p) in KeepAll(source).keep <==> p in source && source[p].File?
  {
    hide IsPath, Relative;
    AtOrBelow(Copied(destination, source), p, p);
    if Relative(p) in KeepAll(source).keep {
      var r :| r in source && source[r].File? && Relative(r) == Relative(p);
      AtOrBelow(source, r, r);
      RelativeIdentifies(p, r);
    }
  }

  lemma KeepsForReal(source: Tree)
    ensures !KeepAll(source).dryRun
  {}

  lemma CopiedIsTree(destination: Tree, source: Tree)
    requires IsTree(destination) && IsTree(source) && Compatible(destination, source)
    ensures IsTree(Copied(destination, source))
  {
    hide IsPath;
  }

  /** Copying and then reconciling with what `listFiles` reports of the source
      leaves exactly the source's files, with their content, and no directory
      but those that hold some of them. */
  lemma CopyThenReconcile(destination: Tree, source: Tree, p: Path)
    requires IsTree(destination) && IsTree(source)
    requires Plain(destination) && Plain(source) && Compatible(destination, source)
    ensures IsTree(Copied(destination, source))
    ensures var all, o := Copied(destination, source), KeepAll(source);
            Without(all, Gone(all, o, []), o) == Swept(all, o)
    ensures var left := Swept(Copied(destination, source), KeepAll(source));
            (p in left && left[p].File? <==> p in source && source[p].File?)
            && (p in left && left[p].File? ==> left[p] == source[p])
            && (p in left && left[p].Directory? ==> exists q :: q in source && source[q].File? && p < q)
  {
    hide *;
    var all, o := Copied(destination, source), KeepAll(source);
    CopiedIsTree(destination, source);
    CopiedHas(destination, source);
    SweptIsWithout(all, o);
    KeepsForReal(source);
    InSwept(all, o);
    if p in all {
      CopyKept(destination, source, p);
      SweptBy(all, o, p);
      if p in Swept(all, o) && all[p].Directory? {
        var q := AnchorBelow(all, o, p);
        CopyKept(destination, source, q);
        IsAnchor(all, o, q);
        SameOrBelow(p, q);
      }
    }
  }

  lemma CoversHere(now: Tree, t: Tree, p: Path, depth: nat)
    requires Covers(now, t, p) && p in t && Within(t, depth)
    ensures p in now && now[p] == t[p] && |p| <= depth
    ensures Covers(now, t, p)
  {}

  lemma InTree(t: Tree, p: Path, depth: nat)
    requires Within(t, depth) && p in t
    ensures |p| <= depth
  {}

  lemma NothingGoes(t: Tree, now: Tree, o: Options)
    ensures Without(now, {}, o) == now && Lists([], FilesIn(t, {})) && Bytes(t, {}) == 0
  {}

  lemma FileReport(t: Tree, now: Tree, o: Options, p: Path)
    requires p in t && t[p].File?
    ensures Lists([p], FilesIn(t, {p})) && Bytes(t, {p}) == |t[p].content|
    ensures Without(now, {p}, o) == if o.dryRun then now else now - {p}
  {}

  lemma DirectoryReport(t: Tree, o: Options, p: Path)
    requires p in t && t[p].Directory?
    ensures Gone(t, o, p) <= t.Keys && p !in Gone(t, o, p)
    ensures FilesIn(t, Gone(t, o, p) + {p}) == FilesIn(t, Gone(t, o, p))
    ensures Bytes(t, Gone(t, o, p) + {p}) == Bytes(t, Gone(t, o, p))
    ensures Gone(t, o, p) + {} == Gone(t, o, p)
  {
    hide Survives, Bytes;
    BytesAdd(t, Gone(t, o, p), p);
  }

  /** After the walk inside it, a directory is empty exactly when it is to go. */
  lemma WalkedDirectory(was: Tree, now: Tree, t: Tree, o: Options, p: Path)
    requires p in t && Covers(was, t, p) && now == Without(was, Gone(t, o, p), o)
    requires Survives(t, o, p) <==> exists q :: q in t && p < q && Survives(t, o, q)
    ensures !o.dryRun ==> ((exists q :: q in now && p < q) <==> Survives(t, o, p))
    ensures Without(was, Gone(t, o, p) + {p}, o) == if o.dryRun then now else now - {p}
  {
    hide Survives;
    forall q | q in t && p < q && Survives(t, o, q) ensures q in now {
      assert p <= q;
    }
  }

  lemma SameNames(now: Tree, t: Tree, directory: Path)
    requires Covers(now, t, directory)
    ensures Names(now, directory) == Names(t, directory)
  {}

  lemma NoneAmong(t: Tree, now: Tree, o: Options, directory: Path)
    ensures GoneAmong(t, o, directory, {}) == {}
    ensures Without(now, {}, o) == now && Lists([], FilesIn(t, {})) && Bytes(t, {}) == 0
  {}

  lemma ListedOnce(names: seq<string>, all: set<string>, i: nat)
    requires Lists(names, all) && i < |names|
    ensures names[i] in all && names[i] !in names[..i]
  {}

  lemma StillCovers(was: Tree, t: Tree, o: Options, directory: Path, done: set<string>, name: string)
    requires Covers(was, t, directory) && name !in done
    ensures Covers(Without(was, GoneAmong(t, o, directory, done), o), t, directory + [name])
  {}

  lemma AmongAndAt(t: Tree, was: Tree, o: Options, directory: Path, done: set<string>, name: string,
                   more: seq<Path>, part: seq<Path>)
    requires name !in done
    requires Lists(more, FilesIn(t, GoneAmong(t, o, directory, done)))
    requires Lists(part, FilesIn(t, GoneAt(t, o, directory + [name])))
    ensures var a, b := GoneAmong(t, o, directory, done), GoneAt(t, o, directory + [name]);
            var all := GoneAmong(t, o, directory, done + {name});
            Without(Without(was, a, o), b, o) == Without(was, all, o)
            && Lists(more + part, FilesIn(t, all)) && Bytes(t, all) == Bytes(t, a) + Bytes(t, b)
  {
    hide Survives, Bytes, Lists;
    GoneAmongMore(t, o, directory, done, name);
    var a, b := GoneAmong(t, o, directory, done), GoneAt(t, o, directory + [name]);
    hide GoneAmong, GoneAt;
    assert FilesIn(t, a + b) == FilesIn(t, a) + FilesIn(t, b);
    ListsTogether(more, part, FilesIn(t, a), FilesIn(t, b));
    BytesUnion(t, a, b);
  }

  lemma AllAmong(t: Tree, o: Options, directory: Path, names: seq<string>, done: set<string>)
    requires IsTree(t) && Lists(names, Names(t, directory)) && forall n :: n in done <==> n in names
    ensures GoneAmong(t, o, directory, done) == Gone(t, o, directory)
  {
    hide IsTree, Names;
    NamesCover(t, directory);
    EverythingBelow(t, o, directory, done);
  }

  // ---------------------------------------------------------------- the program

  class Folder {
    const options: Options
    var nodes: Tree
    // The variables a pass accumulates its report in.
    var removed: seq<Path>
    var bytesReclaimed: nat

    constructor (nodes: Tree, options: Options)
      ensures this.nodes == nodes && this.options == options && removed == [] && bytesReclaimed == 0
    {
      this.nodes, this.options, removed, bytesReclaimed := nodes, options, [], 0;
    }

    /** `readdir`, in whatever order. */
    method ReadDirectory(directory: Path) returns (names: seq<string>)
      ensures Lists(names, Names(nodes, directory))
    {
      names := Enumerate(Names(nodes, directory));
    }

    /** `rmdir`, which leaves a directory that is not empty. */
    method RemoveDirectory(p: Path)
      modifies this`nodes
      ensures nodes == if exists q :: q in old(nodes) && p < q then old(nodes) else old(nodes) - {p}
    {
      if forall q :: q in nodes ==> !(p < q) {
        nodes := nodes - {p};
      }
    }

    /** One round of the loop in `walk` (scripts/reconcile.ts:83-103). */
    method Visit(p: Path, ghost t: Tree, ghost depth: nat) returns (ghost more: seq<Path>)
      requires IsTree(t) && p in t && Covers(nodes, t, p) && Within(t, depth)
      modifies this
      ensures nodes == Without(old(nodes), GoneAt(t, options, p), options)
      ensures removed == old(removed) + more && Lists(more, FilesIn(t, GoneAt(t, options, p)))
      ensures bytesReclaimed == old(bytesReclaimed) + Bytes(t, GoneAt(t, options, p))
      decreases depth - |p|, 1
    {
      hide *;
      CoversHere(nodes, t, p, depth);
      more := [];
      if Ignored(p, options.ignore) || nodes[p].Link? {
        IsAnchor(t, options, p);
        AnchorStays(t, options, p);
        NothingGoes(t, nodes, options);
        return;
      }
      if nodes[p].Directory? {
        IsAnchor(t, options, p);
        more := Walk(p, t, depth);
        DirectoryGoes(t, options, p);
        DirectoryReport(t, options, p);
        WalkedDirectory(old(nodes), nodes, t, options, p);
        if !options.dryRun {
          RemoveDirectory(p);
        }
        return;
      }
      IsAnchor(t, options, p);
      if !nodes[p].File? || Relative(p) in options.keep {
        AnchorStays(t, options, p);
        NothingGoes(t, nodes, options);
        return;
      }
      FileGoes(t, options, p);
      FileReport(t, nodes, options, p);
      var size := |nodes[p].content|;
      if !options.dryRun {
        nodes := nodes - {p};
      }
      removed := removed + [p];
      bytesReclaimed := bytesReclaimed + size;
      more := [p];
    }

    /** `walk`. */
    method Walk(directory: Path, ghost t: Tree, ghost depth: nat) returns (ghost more: seq<Path>)
      requires IsTree(t) && Covers(nodes, t, directory) && Within(t, depth) && |directory| <= depth
      modifies this
      ensures nodes == Without(old(nodes), Gone(t, options, directory), options)
      ensures removed == old(removed) + more && Lists(more, FilesIn(t, Gone(t, options, directory)))
      ensures bytesReclaimed == old(bytesReclaimed) + Bytes(t, Gone(t, options, directory))
      decreases depth - |directory|, 0
    {
      hide *;
      var names := ReadDirectory(directory);
      ghost var was := nodes;
      SameNames(was, t, directory);
      more := [];
      ghost var done: set<string> := {};
      NoneAmong(t, was, options, directory);
      for i := 0 to |names|
        invariant forall n :: n in done <==> n in names[..i]
        invariant nodes == Without(was, GoneAmong(t, options, directory, done), options)
        invariant removed == old(removed) + more
        invariant Lists(more, FilesIn(t, GoneAmong(t, options, directory, done)))
        invariant bytesReclaimed == old(bytesReclaimed) + Bytes(t, GoneAmong(t, options, directory, done))
      {
        var name := names[i];
        ListedOnce(names, Names(t, directory), i);
        NamesAre(t, directory, name);
        InTree(t, directory + [name], depth);
        StillCovers(was, t, options, directory, done, name);
        ghost var before := nodes;
        ghost var part := Visit(directory + [name], t, depth);
        AmongAndAt(t, was, options, directory, done, name, more, part);
        more := more + part;
        done := done + {name};
        assert names[..i + 1] == names[..i] + [name];
      }
      assert names[..|names|] == names;
      AllAmong(t, options, directory, names, done);
    }

    /** `reconcileDirectory`. A dry run reports the same and changes nothing. */
    method ReconcileDirectory()
      requires IsTree(nodes)
      modifies this
      ensures nodes == if options.dryRun then old(nodes) else Swept(old(nodes), options)
      ensures Lists(removed, Doomed(old(nodes), options))
      ensures bytesReclaimed == Bytes(old(nodes), Doomed(old(nodes), options))
    {
      hide *;
      ghost var t := nodes;
      ghost var depth := Depth(t);
      CoversItself(t);
      DoomedIsGone(t, options);
      SweptIsWithout(t, options);
      removed, bytesReclaimed := [], 0;
      ghost var more := Walk([], t, depth);
      assert [] + more == more;
    }

    /** `walk` of `listFiles`. */
    method List(directory: Path, ghost depth: nat) returns (results: seq<Path>)
      requires IsTree(nodes) && Within(nodes, depth) && |directory| <= depth
      ensures Lists(results, FilesIn(nodes, Inside(nodes, directory)))
      decreases depth - |directory|
    {
      hide *;
      var names := ReadDirectory(directory);
      results := [];
      ghost var done: set<string> := {};
      NoFilesYet(nodes, directory);
      for i := 0 to |names|
        invariant forall n :: n in done <==> n in names[..i]
        invariant Lists(results, FilesIn(nodes, InsideAmong(nodes, directory, done)))
      {
        var p := directory + [names[i]];
        ListedOnce(names, Names(nodes, directory), i);
        NamesAre(nodes, directory, names[i]);
        InTree(nodes, p, depth);
        var part: seq<Path> := [];
        if nodes[p].Directory? {
          part := List(p, depth);
        } else if nodes[p].File? {
          part := [p];
        }
        FilesAt(nodes, p, part);
        MoreFiles(nodes, directory, done, names[i], results, part);
        results := results + part;
        done := done + {names[i]};
        assert names[..i + 1] == names[..i] + [names[i]];
      }
      assert names[..|names|] == names;
      NamesCover(nodes, directory);
      AllInside(nodes, directory, names, done);
    }

    /** `listFiles`: every regular file, once. */
    method ListFiles() returns (results: seq<Path>)
      requires IsTree(nodes)
      ensures Lists(results, FilesIn(nodes, nodes.Keys))
    {
      hide *;
      ghost var depth := Depth(nodes);
      EverythingIsInside(nodes);
      results := List([], depth);
    }
  }
}
