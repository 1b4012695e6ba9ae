/** The file operations of the client over one file tree.

    A path is the list of its components from the root. A symbolic link is a leaf: the
    operations below follow it at most at the end of a path, where the source asks for a
    file's metadata. An operation may fail at any point for a reason outside the tree (no
    permission, no space, a read or write error), unless the disk is `reliable`; a path that
    is too long for the disk cannot be created, unless the disk is reliable. */
module FileTree {
  import opened Common

  type Name = string
  type Path = seq<Name>

  datatype Node = Dir | File(bytes: Bytes) | Link(target: Path) | Special

  type Tree = map<Path, Node>

  function Parent(p: Path): Path
    requires p != []
  {
    p[..|p| - 1]
  }

  predicate IsDir(t: Tree, p: Path) { p in t && t[p].Dir? }

  predicate ParentOk(t: Tree, p: Path) { p != [] ==> IsDir(t, Parent(p)) }

  /** The root is a directory, and everything else lies in a directory. */
  ghost predicate WellFormed(t: Tree) {
    IsDir(t, []) && forall p :: p in t ==> ParentOk(t, p)
  }

  /** Exclusive creation: nothing is there, not even a link, and the parent is a directory. */
  predicate CanCreate(t: Tree, p: Path) {
    p != [] && p !in t && IsDir(t, Parent(p))
  }

  lemma {:induction false} AncestorsAreDirs(t: Tree, a: Path, p: Path)
    requires WellFormed(t) && p in t && a <= p && a != p
    ensures IsDir(t, a)
  {
    assert ParentOk(t, p);
    if |a| < |p| - 1 {
      AncestorsAreDirs(t, a, Parent(p));
    } else {
      assert a == Parent(p);
    }
  }

  /** Nothing lies below a path that is absent. */
  lemma NothingBelow(t: Tree, a: Path, p: Path)
    requires WellFormed(t) && !IsDir(t, a) && a <= p && a != p
    ensures p !in t
  {
    if p in t { AncestorsAreDirs(t, a, p); }
  }

  lemma CreateKeepsWellFormed(t: Tree, p: Path, node: Node)
    requires WellFormed(t) && CanCreate(t, p)
    ensures WellFormed(t[p := node])
  {
  }

  // ---------- Recursive copy ----------

  /** What a copy takes along; links and special files are left out. */
  predicate Copyable(t: Tree, p: Path) { p in t && (t[p].Dir? || t[p].File?) }

  /** The path of the source that corresponds to `p` of the destination. */
  function Origin(src: Path, dst: Path, p: Path): Path
    requires dst <= p
  {
    src + p[|dst|..]
  }

  predicate Same(t0: Tree, t1: Tree, p: Path) {
    (p in t0 <==> p in t1) && (p in t0 ==> t0[p] == t1[p])
  }

  ghost predicate SameOutside(t0: Tree, t1: Tree, dst: Path) {
    forall p :: !(dst <= p) ==> Same(t0, t1, p)
  }

  predicate CopiedAt(t0: Tree, src: Path, dst: Path, t1: Tree, p: Path)
    requires dst <= p
  {
    && (p in t1 <==> Copyable(t0, Origin(src, dst, p)))
    && (p in t1 ==> Origin(src, dst, p) in t0 && t1[p] == t0[Origin(src, dst, p)])
  }

  /** The destination's subtree is the source's, all but directories and regular files
      pruned, and nothing else has changed. */
  ghost predicate CopyDone(t0: Tree, src: Path, dst: Path, t1: Tree) {
    && SameOutside(t0, t1, dst)
    && forall p :: dst <= p ==> CopiedAt(t0, src, dst, t1, p)
  }

  /** `node` is a part of `whole`: of a file, its bytes so far. */
  predicate PartOfNode(node: Node, whole: Node) {
    || (node.Dir? && whole.Dir?)
    || (node.File? && whole.File? && node.bytes <= whole.bytes)
  }

  predicate PartAt(t0: Tree, src: Path, dst: Path, t1: Tree, p: Path)
    requires dst <= p
  {
    p in t1 ==> Origin(src, dst, p) in t0 && PartOfNode(t1[p], t0[Origin(src, dst, p)])
  }

  /** The destination's subtree holds only parts of the source's, and nothing else has changed. */
  ghost predicate CopyPart(t0: Tree, src: Path, dst: Path, t1: Tree) {
    && SameOutside(t0, t1, dst)
    && forall p :: dst <= p ==> PartAt(t0, src, dst, t1, p)
  }

  /** What a copy that has failed leaves: a part of the source's subtree or, when the
      destination lies in the source, anything at the destination. */
  ghost predicate CopyBroken(t0: Tree, src: Path, dst: Path, t1: Tree) {
    SameOutside(t0, t1, dst) && (!(src <= dst) ==> CopyPart(t0, src, dst, t1))
  }

  /** One entry is copied: a directory with all in it, a file as a whole, anything else not. */
  ghost predicate EntryDone(t0: Tree, from: Path, to: Path, t1: Tree) {
    from in t0 &&
    match t0[from]
    case Dir => CopyDone(t0, from, to, t1)
    case File(_) => t1 == t0[to := t0[from]]
    case _ => t1 == t0
  }

  /** The entries in `done` are copied, the others are not there yet. */
  ghost predicate Progress(t0: Tree, src: Path, dst: Path, done: set<Name>, t1: Tree) {
    && SameOutside(t0, t1, dst)
    && IsDir(t1, dst)
    && forall p :: dst <= p && dst != p ==>
         if p[|dst|] in done then CopiedAt(t0, src, dst, t1, p) else p !in t1
  }

  ghost function Below(t: Tree, src: Path): set<Path> {
    set p | p in t && src <= p
  }

  /** The names that reading a directory returns. */
  function Children(t: Tree, dir: Path): set<Name> {
    set p | p in t && p != [] && Parent(p) == dir :: p[|p| - 1]
  }

  lemma ChildrenExact(t: Tree, dir: Path, name: Name)
    ensures name in Children(t, dir) <==> dir + [name] in t
  {
    assert Parent(dir + [name]) == dir;
    if name in Children(t, dir) {
      var p :| p in t && p != [] && Parent(p) == dir && p[|p| - 1] == name;
      assert p == dir + [name];
    }
  }

  /** Of two paths above the same path, one contains the other. */
  lemma Comparable(a: Path, b: Path, p: Path)
    requires a <= p && b <= p
    ensures a <= b || b <= a
  {
    if |a| <= |b| { assert b[..|a|] == p[..|a|] == a; } else { assert a[..|b|] == p[..|b|] == b; }
  }

  lemma OriginOfChild(src: Path, dst: Path, name: Name, p: Path)
    requires dst + [name] <= p
    ensures dst <= p && dst != p && p[|dst|] == name
    ensures Origin(src + [name], dst + [name], p) == Origin(src, dst, p)
    ensures src + [name] <= Origin(src, dst, p)
  {
  }

  lemma ChildPrefix(dst: Path, p: Path)
    requires dst <= p && dst != p
    ensures dst + [p[|dst|]] <= p
  {
  }

  /** After the destination directory has been created, no entry is copied yet. */
  lemma FreshProgress(t: Tree, src: Path, dst: Path)
    requires WellFormed(t) && CanCreate(t, dst)
    ensures Progress(t, src, dst, {}, t[dst := Dir])
  {
    forall p | dst <= p && dst != p ensures p !in t { NothingBelow(t, dst, p); }
  }

  /** The source is untouched by a copy under way. */
  lemma SourceUntouched(t0: Tree, src: Path, dst: Path, t1: Tree, p: Path)
    requires SameOutside(t0, t1, dst) && !(src <= dst) && !(dst <= src) && src <= p
    ensures Same(t0, t1, p)
  {
    if dst <= p { Comparable(src, dst, p); }
  }

  lemma DirProgress(t0: Tree, src: Path, dst: Path, done: set<Name>, t1: Tree, name: Name, t2: Tree)
    requires !(src <= dst) && !(dst <= src) && name !in done
    requires Progress(t0, src, dst, done, t1)
    requires CopyDone(t1, src + [name], dst + [name], t2)
    ensures Progress(t0, src, dst, done + {name}, t2)
  {
    forall p | !(dst <= p) ensures Same(t0, t2, p) {
      assert !(dst + [name] <= p);
      assert Same(t1, t2, p) && Same(t0, t1, p);
    }
    assert Same(t1, t2, dst);
    forall p | dst <= p && dst != p
      ensures if p[|dst|] in done + {name} then CopiedAt(t0, src, dst, t2, p) else p !in t2
    {
      ChildPrefix(dst, p);
      if p[|dst|] == name {
        OriginOfChild(src, dst, name, p);
        assert CopiedAt(t1, src + [name], dst + [name], t2, p);
        SourceUntouched(t0, src, dst, t1, Origin(src, dst, p));
      } else {
        assert !(dst + [name] <= p);
        assert Same(t1, t2, p);
      }
    }
  }

  /** An entry that is no directory: what is at its place afterwards is what was copied. */
  lemma LeafProgress(t0: Tree, src: Path, dst: Path, done: set<Name>, t1: Tree, name: Name, t2: Tree)
    requires WellFormed(t0) && !(src <= dst) && !(dst <= src) && name !in done
    requires Progress(t0, src, dst, done, t1)
    requires !IsDir(t0, src + [name])
    requires forall p | p != dst + [name] :: Same(t1, t2, p)
    requires CopiedAt(t0, src + [name], dst + [name], t2, dst + [name])
    ensures Progress(t0, src, dst, done + {name}, t2)
  {
    forall p | !(dst <= p) ensures Same(t0, t2, p) { assert Same(t1, t2, p) && Same(t0, t1, p); }
    assert Same(t1, t2, dst);
    forall p | dst <= p && dst != p
      ensures if p[|dst|] in done + {name} then CopiedAt(t0, src, dst, t2, p) else p !in t2
    {
      ChildPrefix(dst, p);
      if p == dst + [name] {
        OriginOfChild(src, dst, name, p);
      } else {
        assert Same(t1, t2, p);
        if p[|dst|] == name {
          OriginOfChild(src, dst, name, p);
          NothingBelow(t0, src + [name], Origin(src, dst, p));
        }
      }
    }
  }

  /** What is copied so far is a part of the whole. */
  lemma ProgressIsPart(t0: Tree, src: Path, dst: Path, done: set<Name>, t1: Tree)
    requires IsDir(t0, src) && Progress(t0, src, dst, done, t1)
    ensures CopyPart(t0, src, dst, t1)
  {
    forall p | dst <= p ensures PartAt(t0, src, dst, t1, p) {
      if p == dst { assert Origin(src, dst, p) == src; }
    }
  }

  /** The same, when the copy of entry `name` broke off. */
  lemma BrokenIsPart(t0: Tree, src: Path, dst: Path, done: set<Name>, t1: Tree, name: Name, t2: Tree)
    requires IsDir(t0, src) && !(src <= dst) && !(dst <= src)
    requires Progress(t0, src, dst, done, t1)
    requires CopyPart(t1, src + [name], dst + [name], t2)
    ensures CopyPart(t0, src, dst, t2)
  {
    ProgressIsPart(t0, src, dst, done, t1);
    forall p | !(dst <= p) ensures Same(t0, t2, p) {
      assert !(dst + [name] <= p);
      assert Same(t1, t2, p) && Same(t0, t1, p);
    }
    forall p | dst <= p ensures PartAt(t0, src, dst, t2, p) {
      if dst + [name] <= p {
        OriginOfChild(src, dst, name, p);
        assert PartAt(t1, src + [name], dst + [name], t2, p);
        SourceUntouched(t0, src, dst, t1, Origin(src, dst, p));
      } else {
        assert Same(t1, t2, p) && PartAt(t0, src, dst, t1, p);
      }
    }
  }

  /** When every entry of the directory is done, the copy is complete. */
  lemma AllDone(t0: Tree, src: Path, dst: Path, t1: Tree)
    requires WellFormed(t0) && IsDir(t0, src)
    requires Progress(t0, src, dst, Children(t0, src), t1)
    ensures CopyDone(t0, src, dst, t1)
  {
    forall p | dst <= p ensures CopiedAt(t0, src, dst, t1, p) {
      if p == dst {
        assert Origin(src, dst, p) == src;
      } else {
        ChildPrefix(dst, p);
        OriginOfChild(src, dst, p[|dst|], p);
        ChildrenExact(t0, src, p[|dst|]);
        if p[|dst|] !in Children(t0, src) {
          var o := Origin(src, dst, p);
          if o != src + [p[|dst|]] { NothingBelow(t0, src + [p[|dst|]], o); }
        }
      }
    }
  }

  /** A copied entry is progress, whatever it was. */
  lemma EntryProgress(t0: Tree, src: Path, dst: Path, done: set<Name>, t1: Tree, name: Name, t2: Tree)
    requires WellFormed(t0) && !(src <= dst) && !(dst <= src) && name !in done
    requires Progress(t0, src, dst, done, t1)
    requires dst + [name] !in t1 && EntryDone(t1, src + [name], dst + [name], t2)
    ensures Progress(t0, src, dst, done + {name}, t2)
  {
    var from, to := src + [name], dst + [name];
    SourceUntouched(t0, src, dst, t1, from);
    if t1[from].Dir? {
      DirProgress(t0, src, dst, done, t1, name, t2);
    } else {
      assert Origin(from, to, to) == from;
      LeafProgress(t0, src, dst, done, t1, name, t2);
    }
  }

  lemma EntryOutside(t0: Tree, from: Path, to: Path, t1: Tree)
    requires EntryDone(t0, from, to, t1)
    ensures SameOutside(t0, t1, to)
  {
  }

  lemma OutsideTwice(t0: Tree, t1: Tree, t2: Tree, dst: Path, name: Name)
    requires SameOutside(t0, t1, dst) && SameOutside(t1, t2, dst + [name])
    ensures SameOutside(t0, t2, dst)
  {
    forall p | !(dst <= p) ensures Same(t0, t2, p) {
      assert !(dst + [name] <= p);
      assert Same(t0, t1, p) && Same(t1, t2, p);
    }
  }

  /** What holds of an entry's path, seen from the directory. */
  lemma ParentPrefix(a: Path, x: Name, b: Path, y: Name)
    ensures a + [x] <= b + [y] ==> a <= b
    ensures a + [x] <= b + [y] && a == b ==> x == y
    ensures a + [x] <= b + [y] && a != b ==> |a| < |b| && b[|a|] == x
  {
    if a + [x] <= b + [y] {
      var prefix := (b + [y])[..|a| + 1];
      assert prefix == a + [x];
      assert prefix[..|a|] == a && prefix[|a|] == x;
      assert (b + [y])[..|a|] == b[..|a|];
    }
  }

  lemma NextBelow(src: Path, dst: Path)
    requires src <= dst && src != dst
    ensures |src| < |dst| && src + [dst[|src|]] <= dst
    ensures forall name :: src + [dst[|src|]] <= dst + [name]
  {
  }

  /** The copy of an entry leaves the other entries alone. */
  lemma OthersUntouched(src: Path, dst: Path, t1: Tree, name: Name, t2: Tree, other: Name)
    requires SameOutside(t1, t2, dst + [name]) && !(dst <= src) && other != name
    ensures Same(t1, t2, src + [other]) && Same(t1, t2, dst + [other])
  {
    ParentPrefix(dst, name, src, other);
    ParentPrefix(dst, name, dst, other);
  }

  /** A write of `content` to `p` has stopped somewhere, at the latest at its end. */
  ghost predicate BrokenOff(t0: Tree, content: Bytes, p: Path, t1: Tree) {
    exists n :: 0 <= n <= |content| && t1 == t0[p := File(content[..n])]
  }

  lemma LeafPart(t0: Tree, src: Path, dst: Path, t1: Tree)
    requires WellFormed(t0) && src in t0 && t0[src].File? && CanCreate(t0, dst)
    requires BrokenOff(t0, t0[src].bytes, dst, t1)
    ensures CopyPart(t0, src, dst, t1)
  {
    forall p | dst <= p ensures PartAt(t0, src, dst, t1, p) {
      if p == dst { assert Origin(src, dst, p) == src; } else { NothingBelow(t0, dst, p); }
    }
  }

  /** The entry under way lies below the directory, and the directory itself does not lie below it. */
  lemma FewerBelow(t0: Tree, src: Path, dst: Path, t1: Tree, name: Name)
    requires SameOutside(t0, t1, dst) && !(src <= dst) && !(dst <= src) && src in t0
    ensures Below(t1, src + [name]) < Below(t0, src)
  {
    forall p | p in Below(t1, src + [name]) ensures p in Below(t0, src) {
      SourceUntouched(t0, src, dst, t1, p);
    }
    assert src in Below(t0, src) && src !in Below(t1, src + [name]);
  }

  /** What could be created does not lie above what is there. */
  lemma NotAbove(t: Tree, src: Path, dst: Path)
    requires WellFormed(t) && IsDir(t, src) && dst !in t
    ensures !(dst <= src)
  {
    if dst <= src && dst != src { AncestorsAreDirs(t, dst, src); }
  }

  /** The listing of the source once the destination directory is created. */
  lemma Listed(t0: Tree, src: Path, dst: Path)
    requires WellFormed(t0) && IsDir(t0, src) && CanCreate(t0, dst)
    ensures var t1 := t0[dst := Dir];
            && (forall name :: name in Children(t1, src) ==> src + [name] in t1 && dst + [name] !in t1)
            && (src <= dst ==> |src| < |dst| && dst[|src|] in Children(t1, src))
            && (!(src <= dst) ==> Children(t1, src) == Children(t0, src))
  {
    var t1 := t0[dst := Dir];
    forall name ensures name in Children(t1, src) <==> src + [name] in t1 { ChildrenExact(t1, src, name); }
    forall name ensures dst + [name] !in t1 { NothingBelow(t0, dst, dst + [name]); }
    if src <= dst {
      NextBelow(src, dst);
      var next := src + [dst[|src|]];
      if next != dst { assert next <= Parent(dst); AncestorsOrSelf(t0, next, Parent(dst)); }
    } else {
      forall name ensures name in Children(t1, src) <==> name in Children(t0, src) {
        ChildrenExact(t0, src, name);
        assert src <= src + [name];
      }
    }
  }

  lemma AncestorsOrSelf(t: Tree, a: Path, p: Path)
    requires WellFormed(t) && IsDir(t, p) && a <= p
    ensures IsDir(t, a)
  {
    if a != p { AncestorsAreDirs(t, a, p); }
  }

  /** The copy of a directory under way: the entries in `todo` are still to be copied, those in
      `done` have been. In a copy into itself, the entry that leads to the destination is
      never done. */
  ghost predicate Underway(t0: Tree, src: Path, dst: Path, todo: set<Name>, done: set<Name>, t: Tree) {
    && WellFormed(t0) && IsDir(t0, src) && dst !in t0
    && IsDir(t, dst) && SameOutside(t0, t, dst)
    && (forall name :: name in todo ==> src + [name] in t && dst + [name] !in t)
    && (if src <= dst then |src| < |dst| && dst[|src|] in todo
        else todo !! done && todo + done == Children(t0, src) && Progress(t0, src, dst, done, t))
  }

  lemma UnderwayAtFirst(t0: Tree, src: Path, dst: Path)
    requires WellFormed(t0) && IsDir(t0, src) && CanCreate(t0, dst)
    ensures Underway(t0, src, dst, Children(t0[dst := Dir], src), {}, t0[dst := Dir])
  {
    Listed(t0, src, dst);
    FreshProgress(t0, src, dst);
  }

  /** The next entry can be copied. */
  lemma UnderwayEntry(t0: Tree, src: Path, dst: Path, todo: set<Name>, done: set<Name>, t1: Tree, name: Name)
    requires WellFormed(t1) && Underway(t0, src, dst, todo, done, t1) && name in todo
    ensures src + [name] in t1 && CanCreate(t1, dst + [name])
    ensures src + [name] <= dst + [name] ==> src <= dst && IsDir(t1, src + [name])
    ensures !(src <= dst) ==> Below(t1, src + [name]) < Below(t0, src)
  {
    assert Parent(dst + [name]) == dst;
    ParentPrefix(src, name, dst, name);
    NotAbove(t0, src, dst);
    if src + [name] <= dst + [name] {
      NextBelow(src, dst);
      AncestorsOrSelf(t1, src + [name], dst);
    }
    if !(src <= dst) { FewerBelow(t0, src, dst, t1, name); }
  }

  lemma UnderwayNext(t0: Tree, src: Path, dst: Path, todo: set<Name>, done: set<Name>, t1: Tree, name: Name, t2: Tree)
    requires Underway(t0, src, dst, todo, done, t1) && name in todo
    requires !(src + [name] <= dst + [name]) && EntryDone(t1, src + [name], dst + [name], t2)
    ensures Underway(t0, src, dst, todo - {name}, done + {name}, t2)
  {
    NotAbove(t0, src, dst);
    EntryOutside(t1, src + [name], dst + [name], t2);
    OutsideTwice(t0, t1, t2, dst, name);
    assert Same(t1, t2, dst);
    forall other | other in todo && other != name ensures src + [other] in t2 && dst + [other] !in t2 {
      OthersUntouched(src, dst, t1, name, t2, other);
    }
    if src <= dst {
      NextBelow(src, dst);
    } else {
      EntryProgress(t0, src, dst, done, t1, name, t2);
    }
  }

  lemma UnderwayAtLast(t0: Tree, src: Path, dst: Path, done: set<Name>, t: Tree)
    requires Underway(t0, src, dst, {}, done, t)
    ensures !(src <= dst) && CopyDone(t0, src, dst, t)
  {
    assert done == Children(t0, src);
    AllDone(t0, src, dst, t);
  }

  /** What is left when the copy of an entry has failed. */
  lemma Broken(t0: Tree, src: Path, dst: Path, todo: set<Name>, done: set<Name>, t1: Tree, name: Name, t2: Tree)
    requires Underway(t0, src, dst, todo, done, t1)
    requires t2 == t1 || CopyBroken(t1, src + [name], dst + [name], t2)
    ensures CopyBroken(t0, src, dst, t2)
  {
    NotAbove(t0, src, dst);
    ParentPrefix(src, name, dst, name);
    if t2 != t1 { OutsideTwice(t0, t1, t2, dst, name); }
    if !(src <= dst) {
      if t2 == t1 {
        ProgressIsPart(t0, src, dst, done, t1);
      } else {
        BrokenIsPart(t0, src, dst, done, t1, name, t2);
      }
    }
  }

  /** What a finished copy means for every path below the destination. */
  lemma DoneExactly(t0: Tree, src: Path, dst: Path, t1: Tree)
    requires CopyDone(t0, src, dst, t1)
    ensures forall rest ::
              (dst + rest in t1 <==> src + rest in t0 && (t0[src + rest].Dir? || t0[src + rest].File?)) &&
              (dst + rest in t1 ==> t1[dst + rest] == t0[src + rest])
    ensures forall p | !(dst <= p) :: (p in t1 <==> p in t0) && (p in t1 ==> t1[p] == t0[p])
  {
    forall rest: Path
      ensures (dst + rest in t1 <==> src + rest in t0 && (t0[src + rest].Dir? || t0[src + rest].File?)) &&
              (dst + rest in t1 ==> t1[dst + rest] == t0[src + rest])
    {
      assert (dst + rest)[|dst|..] == rest;
      assert CopiedAt(t0, src, dst, t1, dst + rest);
    }
    OutsideExactly(t0, t1, dst);
  }

  /** A directory for a directory, and for a file one with a front part of its bytes. */
  predicate IsPart(node: Node, whole: Node) {
    match node
    case Dir => whole == Dir
    case File(bytes) => whole.File? && |bytes| <= |whole.bytes| && bytes == whole.bytes[..|bytes|]
    case _ => false
  }

  lemma PartExactly(t0: Tree, src: Path, dst: Path, t1: Tree)
    requires !(src <= dst) ==> CopyPart(t0, src, dst, t1)
    ensures !(src <= dst) ==> forall rest :: dst + rest in t1 ==>
              src + rest in t0 && IsPart(t1[dst + rest], t0[src + rest])
  {
    if !(src <= dst) {
      forall rest: Path | dst + rest in t1 ensures src + rest in t0 && IsPart(t1[dst + rest], t0[src + rest]) {
        assert (dst + rest)[|dst|..] == rest;
        assert PartAt(t0, src, dst, t1, dst + rest);
      }
    }
  }

  lemma OutsideExactly(t0: Tree, t1: Tree, dst: Path)
    requires SameOutside(t0, t1, dst)
    ensures forall p | !(dst <= p) :: (p in t1 <==> p in t0) && (p in t1 ==> t1[p] == t0[p])
  {
    forall p | !(dst <= p) ensures (p in t1 <==> p in t0) && (p in t1 ==> t1[p] == t0[p]) { assert Same(t0, t1, p); }
  }

  // ---------- The disk ----------

  class Disk {
    var tree: Tree
    const reliable: bool
    const depth: nat   // how many components a path can have, if the disk is not reliable

    constructor (reliable: bool, depth: nat)
      ensures tree == map[[] := Dir] && this.reliable == reliable && this.depth == depth
      ensures WellFormed(tree)
    {
      tree := map[[] := Dir];
      this.reliable, this.depth := reliable, depth;
    }

    /** How many levels a copy of a directory into itself can still go down. */
    ghost function Room(src: Path, dst: Path): nat {
      if src <= dst && |dst| <= depth then depth + 1 - |dst| else 0
    }

    /** Exclusive creation of a file or a directory. */
    method CreateNew(p: Path, node: Node) returns (ok: bool)
      requires WellFormed(tree)
      modifies this
      ensures WellFormed(tree)
      ensures ok ==> CanCreate(old(tree), p) && tree == old(tree)[p := node]
      ensures !ok ==> tree == old(tree)
      ensures reliable ==> (ok <==> CanCreate(old(tree), p))
      ensures ok && !reliable ==> |p| <= depth
    {
      ok := CanCreate(tree, p) && (reliable || |p| <= depth);
      if ok && !reliable { ok := *; }
      if ok {
        CreateKeepsWellFormed(tree, p, node);
        tree := tree[p := node];
      }
    }

    /** Writing `content` into a file that is empty so far may stop anywhere. */
    method WriteAll(p: Path, content: Bytes) returns (ok: bool)
      requires WellFormed(tree) && p in tree && tree[p] == File([])
      modifies this
      ensures WellFormed(tree)
      ensures BrokenOff(old(tree), content, p, tree)
      ensures ok ==> tree == old(tree)[p := File(content)]
      ensures reliable ==> ok
    {
      var n := |content|;
      if !reliable { n :| 0 <= n <= |content|; }
      tree := tree[p := File(content[..n])];
      ok := n == |content|;
      assert content[..|content|] == content;
      forall q | q in tree ensures ParentOk(tree, q) { assert ParentOk(old(tree), q); }
    }

    /** The synchronous file copy of the standard library, onto a path where nothing is. */
    method CopyBytes(src: Path, dst: Path) returns (ok: bool)
      requires WellFormed(tree) && src in tree && tree[src].File? && CanCreate(tree, dst)
      modifies this
      ensures WellFormed(tree)
      ensures ok ==> tree == old(tree)[dst := old(tree)[src]]
      ensures !ok ==> tree == old(tree) || BrokenOff(old(tree), old(tree)[src].bytes, dst, tree)
      ensures reliable ==> ok
    {
      ok := CreateNew(dst, File([]));
      if ok {
        var bytes := tree[src].bytes;
        ok := WriteAll(dst, bytes);
        ghost var n :| 0 <= n <= |bytes| && tree == old(tree)[dst := File([])][dst := File(bytes[..n])];
        assert tree == old(tree)[dst := File(bytes[..n])];
      }
    }

    /** The recursive copy, with the directory read in any order. A copy of a directory to a
        place in itself goes down into its own copy until the disk refuses, and fails. */
    method CopyDirAll(src: Path, dst: Path) returns (ok: bool)
      requires WellFormed(tree) && IsDir(tree, src)
      requires reliable && src <= dst ==> !CanCreate(tree, dst)
      modifies this
      ensures WellFormed(tree)
      ensures ok ==> !(src <= dst) && dst !in old(tree) && CopyDone(old(tree), src, dst, tree)
      ensures ok ==> forall rest ::
                (dst + rest in tree <==>
                   src + rest in old(tree) && (old(tree)[src + rest].Dir? || old(tree)[src + rest].File?)) &&
                (dst + rest in tree ==> tree[dst + rest] == old(tree)[src + rest])
      ensures forall p | !(dst <= p) ::
                (p in tree <==> p in old(tree)) && (p in tree ==> tree[p] == old(tree)[p])
      ensures !ok ==> tree == old(tree) || (dst !in old(tree) && CopyBroken(old(tree), src, dst, tree))
      ensures !ok && !(src <= dst) && tree != old(tree) ==> forall rest :: dst + rest in tree ==>
                src + rest in old(tree) && IsPart(tree[dst + rest], old(tree)[src + rest])
      ensures reliable ==> (ok <==> CanCreate(old(tree), dst))
      decreases Room(src, dst), Below(tree, src), 1
    {
      ghost var t0 := tree;
      ok := CreateNew(dst, Dir);
      if !ok { return; }
      FreshProgress(t0, src, dst);
      ProgressIsPart(t0, src, dst, {}, tree);
      PartExactly(t0, src, dst, tree);
      if !reliable { ok := *; if !ok { return; } }   // reading the directory
      var todo := Children(tree, src);
      ghost var done := {};
      UnderwayAtFirst(t0, src, dst);
      while todo != {}
        invariant WellFormed(tree) && Underway(t0, src, dst, todo, done, tree)
        decreases todo
      {
        var name :| name in todo;
        ghost var t1 := tree;
        UnderwayEntry(t0, src, dst, todo, done, t1, name);
        ok := CopyEntry(src + [name], dst + [name]);
        if !ok {
          Broken(t0, src, dst, todo, done, t1, name, tree);
          OutsideExactly(t0, tree, dst);
          PartExactly(t0, src, dst, tree);
          return;
        }
        UnderwayNext(t0, src, dst, todo, done, t1, name, tree);
        todo, done := todo - {name}, done + {name};
      }
      UnderwayAtLast(t0, src, dst, done, tree);
      DoneExactly(t0, src, dst, tree);
      ok := true;
    }

    /** One turn of the loop: a directory is copied recursively, a file as a whole, and
        anything else is passed over. */
    method CopyEntry(from: Path, to: Path) returns (ok: bool)
      requires WellFormed(tree) && from in tree && CanCreate(tree, to)
      requires from <= to ==> !reliable && IsDir(tree, from)
      modifies this
      ensures WellFormed(tree)
      ensures ok ==> !(from <= to) && EntryDone(old(tree), from, to, tree)
      ensures !ok ==> tree == old(tree) || CopyBroken(old(tree), from, to, tree)
      ensures reliable ==> ok
      decreases Room(from, to), Below(tree, from), 2
    {
      ok := true;
      if !reliable { ok := *; if !ok { return; } }   // the entry, or its file type
      if tree[from].Dir? {
        ok := CopyDirAll(from, to);
      } else if tree[from].File? {
        ghost var t1 := tree;
        ok := CopyBytes(from, to);
        if !ok && tree != t1 { LeafPart(t1, from, to, tree); }
      }
    }

    // ---------- The calls of the file API ----------

    /** `fs.writeFile`: an exclusive creation, then the content. */
    method FsWriteFile(path: Option<Path>, content: Bytes) returns (r: Reply)
      requires WellFormed(tree)
      modifies this
      ensures WellFormed(tree)
      ensures Effect(WriteFile(path, content), old(tree), tree, r)
      ensures r.Ok? ==> path.Some? && path.value !in old(tree) && tree == old(tree)[path.value := File(content)]
      ensures r.Err? && tree != old(tree) ==>
                path.Some? && path.value !in old(tree) && path.value in tree &&
                tree == old(tree)[path.value := tree[path.value]] && IsPart(tree[path.value], File(content))
      ensures reliable && path.Some? && path.value != [] && path.value !in old(tree) ==>
                (Parent(path.value) in old(tree) && old(tree)[Parent(path.value)].Dir? <==> r.Ok?)
      ensures reliable ==> (r.Ok? <==> path.Some? && CanCreate(old(tree), path.value))
    {
      if path.None? { return Err(ArgumentsError); }
      var ok := CreateNew(path.value, File([]));
      if !ok { return Err(IoError); }
      ok := WriteAll(path.value, content);
      ghost var n :| 0 <= n <= |content| &&
                     tree == old(tree)[path.value := File([])][path.value := File(content[..n])];
      assert tree == old(tree)[path.value := File(content[..n])];
      if ok && !reliable { ok := *; }   // the final sync
      r := if ok then Ok(()) else Err(IoError);
    }

    /** `fs.rename`: an exclusive creation of the destination, then the rename over it. */
    method FsRename(src: Option<Path>, dst: Option<Path>) returns (r: Reply)
      requires WellFormed(tree)
      modifies this
      ensures WellFormed(tree)
      ensures Effect(Rename(src, dst), old(tree), tree, r)
      ensures r.Ok? && src != dst ==>
                src.Some? && dst.Some? && src.value in old(tree) && !old(tree)[src.value].Dir? &&
                dst.value !in old(tree) && tree == (old(tree) - {src.value})[dst.value := old(tree)[src.value]]
      ensures reliable && r.Err? && src.Some? && dst.Some? && src.value != dst.value && dst.value != [] ==>
                || src.value !in old(tree) || old(tree)[src.value].Dir? || dst.value in old(tree)
                || Parent(dst.value) !in old(tree) || !old(tree)[Parent(dst.value)].Dir?
      ensures reliable ==> (r.Ok? <==> src.Some? && dst.Some? && CanRename(old(tree), src.value, dst.value))
    {
      if src.None? || dst.None? { return Err(ArgumentsError); }
      var ok := CreateNew(dst.value, File([]));
      if !ok { return Err(IoError); }
      ok := RenameOnto(src.value, dst.value);
      r := if ok then Ok(()) else Err(IoError);
    }

    /** The rename of the operating system, for a destination that is a regular file: the
        source replaces it in one step, unless it is missing or a directory. */
    method RenameOnto(src: Path, dst: Path) returns (ok: bool)
      requires WellFormed(tree) && dst in tree && tree[dst].File?
      modifies this
      ensures WellFormed(tree)
      ensures ok ==> src in old(tree) && !old(tree)[src].Dir? && tree == Moved(old(tree), src, dst)
      ensures !ok ==> tree == old(tree)
      ensures reliable ==> (ok <==> src in old(tree) && !old(tree)[src].Dir?)
    {
      ok := src in tree && !tree[src].Dir?;
      if ok && !reliable { ok := *; }
      if ok {
        MoveKeepsWellFormed(tree, src, dst);
        tree := Moved(tree, src, dst);
      }
    }

    /** `fs.cp`: links are followed to find out what the source is; a regular file is copied
        onto a fresh file, a directory recursively, and for anything else nothing happens. */
    method FsCp(src: Option<Path>, dst: Option<Path>) returns (r: Reply)
      requires WellFormed(tree)
      requires reliable ==> CopiesApart(tree, Cp(src, dst))
      modifies this
      ensures WellFormed(tree)
      ensures Effect(Cp(src, dst), old(tree), tree, r)
      ensures src.Some? && dst.Some? && src.value in old(tree) && old(tree)[src.value].File? && r.Ok? ==>
                dst.value !in old(tree) && tree == old(tree)[dst.value := old(tree)[src.value]]
      ensures src.Some? && dst.Some? && src.value in old(tree) && old(tree)[src.value].Dir? && r.Ok? ==>
                CopyDone(old(tree), src.value, dst.value, tree)
      ensures src.Some? && dst.Some? && src.value !in old(tree) ==> r.Err? && tree == old(tree)
      ensures src.Some? && dst.Some? ==> forall chain | LeadsTo(old(tree), src.value, chain) ::
                CopiesNode(old(tree), chain[|chain| - 1], dst.value, tree, r)
      ensures src.Some? && dst.Some? && (forall chain :: !LeadsTo(old(tree), src.value, chain)) ==>
                r.Err? && tree == old(tree)
      ensures reliable ==> (r.Ok? <==> src.Some? && dst.Some? && CanCp(old(tree), src.value, dst.value))
    {
      if src.None? || dst.None? { return Err(ArgumentsError); }
      ResolveExact(tree, src.value);
      var found := Resolve(tree, src.value, MAX_LINKS);
      var ok := found.Some?;
      if ok && !reliable { ok := *; }   // the metadata
      if !ok { return Err(IoError); }
      if tree[found.value].File? {
        ok := CopyFile(found.value, dst.value);
      } else if tree[found.value].Dir? {
        ok := CopyDirAll(found.value, dst.value);
      }
      r := if ok then Ok(()) else Err(IoError);
    }

    /** The copy of one file: destination and source are opened together, so that the
        destination stays behind when the source cannot be opened. */
    method CopyFile(src: Path, dst: Path) returns (ok: bool)
      requires WellFormed(tree) && src in tree && tree[src].File?
      modifies this
      ensures WellFormed(tree)
      ensures ok ==> CanCreate(old(tree), dst) && tree == old(tree)[dst := old(tree)[src]]
      ensures !ok ==> tree == old(tree) ||
                        (CanCreate(old(tree), dst) && BrokenOff(old(tree), old(tree)[src].bytes, dst, tree))
      ensures !ok && tree != old(tree) ==>
                dst in tree && tree == old(tree)[dst := tree[dst]] && IsPart(tree[dst], old(tree)[src])
      ensures reliable ==> (ok <==> CanCreate(old(tree), dst))
    {
      ok := CreateNew(dst, File([]));
      if !ok { return; }
      var bytes := tree[src].bytes;
      assert tree == old(tree)[dst := File(bytes[..0])];
      if !reliable { ok := *; if !ok { return; } }   // opening the source
      ok := WriteAll(dst, bytes);
      ghost var n :| 0 <= n <= |bytes| && tree == old(tree)[dst := File([])][dst := File(bytes[..n])];
      assert tree == old(tree)[dst := File(bytes[..n])];
    }
  }

  // ---------- Calls and their effects ----------

  datatype Error = ArgumentsError | IoError

  type Reply = Result<(), Error>

  /** A path argument is None if it is not a list of strings. */
  datatype Call =
    | WriteFile(path: Option<Path>, content: Bytes)
    | Rename(src: Option<Path>, dst: Option<Path>)
    | Cp(src: Option<Path>, dst: Option<Path>)

  /** How many links the operating system follows before it gives up. */
  const MAX_LINKS: nat := 40

  /** The path that `p` leads to, links at its end followed. */
  function Resolve(t: Tree, p: Path, links: nat): (r: Option<Path>)
    ensures r.Some? ==> r.value in t && !t[r.value].Link?
    decreases links
  {
    if p !in t then None
    else if !t[p].Link? then Some(p)
    else if links == 0 then None
    else Resolve(t, t[p].target, links - 1)
  }

  /** The links that lead from a path to a node that is no link, at most 40 of them: each
      element of the chain is the target of the one before. */
  ghost predicate LeadsTo(t: Tree, p: Path, chain: seq<Path>) {
    && 1 <= |chain| <= 41 && chain[0] == p
    && (forall i | 0 <= i < |chain| - 1 :: chain[i] in t && t[chain[i]] == Link(chain[i + 1]))
    && chain[|chain| - 1] in t && !t[chain[|chain| - 1]].Link?
  }

  /** The copy of a node: a file's bytes, a directory's tree, nothing of anything else. */
  ghost predicate CopiesNode(t0: Tree, node: Path, dst: Path, t1: Tree, r: Reply) {
    node in t0 &&
    match t0[node]
    case File(bytes) => r.Ok? ==> dst !in t0 && t1 == t0[dst := File(bytes)]
    case Dir => r.Ok? ==> CopyDone(t0, node, dst, t1)
    case _ => t1 == t0
  }

  /** Following the links is following the chain. */
  lemma {:induction false} ResolveFollows(t: Tree, chain: seq<Path>, links: nat)
    requires 1 <= |chain| <= links + 1
    requires forall i | 0 <= i < |chain| - 1 :: chain[i] in t && t[chain[i]] == Link(chain[i + 1])
    requires chain[|chain| - 1] in t && !t[chain[|chain| - 1]].Link?
    ensures Resolve(t, chain[0], links) == Some(chain[|chain| - 1])
  {
    if |chain| == 1 {
    } else {
      assert t[chain[0]] == Link(chain[1]);
      forall i | 0 <= i < |chain[1..]| - 1 ensures chain[1..][i] in t && t[chain[1..][i]] == Link(chain[1..][i + 1]) {
        assert t[chain[i + 1]] == Link(chain[i + 2]);
      }
      ResolveFollows(t, chain[1..], links - 1);
    }
  }

  lemma {:induction false} ResolveHasChain(t: Tree, p: Path, links: nat) returns (chain: seq<Path>)
    requires Resolve(t, p, links).Some?
    ensures 1 <= |chain| <= links + 1 && chain[0] == p && chain[|chain| - 1] == Resolve(t, p, links).value
    ensures forall i | 0 <= i < |chain| - 1 :: chain[i] in t && t[chain[i]] == Link(chain[i + 1])
    decreases links
  {
    if !t[p].Link? {
      chain := [p];
    } else {
      var rest := ResolveHasChain(t, t[p].target, links - 1);
      chain := [p] + rest;
      forall i | 0 <= i < |chain| - 1 ensures chain[i] in t && t[chain[i]] == Link(chain[i + 1]) {
        if i > 0 { assert chain[i] == rest[i - 1] && chain[i + 1] == rest[i]; }
      }
    }
  }

  /** The path that is found is the end of the chain, if there is one of at most 40 links. */
  lemma ResolveExact(t: Tree, p: Path)
    ensures forall chain | LeadsTo(t, p, chain) :: Resolve(t, p, MAX_LINKS) == Some(chain[|chain| - 1])
    ensures (forall chain :: !LeadsTo(t, p, chain)) ==> Resolve(t, p, MAX_LINKS).None?
  {
    forall chain | LeadsTo(t, p, chain) ensures Resolve(t, p, MAX_LINKS) == Some(chain[|chain| - 1]) {
      ResolveFollows(t, chain, MAX_LINKS);
    }
    if Resolve(t, p, MAX_LINKS).Some? {
      var chain := ResolveHasChain(t, p, MAX_LINKS);
      assert LeadsTo(t, p, chain);
    }
  }

  /** No directory is copied to a place in itself. */
  ghost predicate CopiesApart(t: Tree, call: Call) {
    call.Cp? && call.src.Some? && call.dst.Some? ==>
      var found := Resolve(t, call.src.value, MAX_LINKS);
      found.Some? && IsDir(t, found.value) ==> !(found.value <= call.dst.value) || !CanCreate(t, call.dst.value)
  }

  /** The source is renamed if it is there and no directory. The placeholder counts: a missing
      file is renamed onto itself with success. */
  predicate CanRename(t: Tree, src: Path, dst: Path) {
    CanCreate(t, dst) && (src == dst || (src in t && !t[src].Dir?))
  }

  predicate CanCp(t: Tree, src: Path, dst: Path) {
    var found := Resolve(t, src, MAX_LINKS);
    found.Some? && (t[found.value].Special? || CanCreate(t, dst))
  }

  function Moved(t: Tree, src: Path, dst: Path): Tree
    requires src in t && dst in t
  {
    if src == dst then t else (t - {src})[dst := t[src]]
  }

  lemma MoveKeepsWellFormed(t: Tree, src: Path, dst: Path)
    requires WellFormed(t) && src in t && !t[src].Dir? && dst in t && t[dst].File?
    ensures WellFormed(Moved(t, src, dst))
  {
  }

  /** All that a call may do to the tree, for each reply. */
  ghost predicate Effect(call: Call, t0: Tree, t1: Tree, r: Reply) {
    match call
    case WriteFile(path, content) =>
      if path.None? then t1 == t0 && r == Err(ArgumentsError)
      else if r.Ok? then CanCreate(t0, path.value) && t1 == t0[path.value := File(content)]
      else t1 == t0 || (CanCreate(t0, path.value) && BrokenOff(t0, content, path.value, t1))
    case Rename(src, dst) =>
      if src.None? || dst.None? then t1 == t0 && r == Err(ArgumentsError)
      else if r.Ok? then
        CanRename(t0, src.value, dst.value) && t1 == Moved(t0[dst.value := File([])], src.value, dst.value)
      else t1 == t0 || (CanCreate(t0, dst.value) && t1 == t0[dst.value := File([])])
    case Cp(src, dst) =>
      if src.None? || dst.None? then t1 == t0 && r == Err(ArgumentsError)
      else CpEffect(t0, Resolve(t0, src.value, MAX_LINKS), dst.value, t1, r.Ok?)
  }

  ghost predicate CpEffect(t0: Tree, found: Option<Path>, dst: Path, t1: Tree, ok: bool) {
    if found.None? || found.value !in t0 then t1 == t0 && !ok
    else
      match t0[found.value]
      case File(bytes) =>
        if ok then CanCreate(t0, dst) && t1 == t0[dst := File(bytes)]
        else t1 == t0 || (CanCreate(t0, dst) && BrokenOff(t0, bytes, dst, t1))
      case Dir =>
        if ok then !(found.value <= dst) && dst !in t0 && CopyDone(t0, found.value, dst, t1)
        else t1 == t0 || (dst !in t0 && CopyBroken(t0, found.value, dst, t1))
      case _ => t1 == t0
  }

  /** Where the node at `p` is after a call. */
  function Place(call: Call, r: Reply, p: Path): Path {
    if call.Rename? && r.Ok? && call.src == Some(p) && call.dst.Some? then call.dst.value else p
  }

  /** Every node of `t0` is still there in `t1`, at its own new place, unchanged. */
  ghost predicate Kept(t0: Tree, t1: Tree, place: map<Path, Path>) {
    && place.Keys == t0.Keys
    && (forall p :: p in t0 ==> place[p] in t1 && t1[place[p]] == t0[p])
    && (forall p, q | p in t0 && q in t0 :: place[p] == place[q] ==> p == q)
  }

  function Places(call: Call, r: Reply, t0: Tree): map<Path, Path> {
    map p | p in t0 :: Place(call, r, p)
  }

  /** No single call, failed or not, changes or loses a node. */
  lemma CallKeeps(call: Call, t0: Tree, t1: Tree, r: Reply)
    requires WellFormed(t0) && Effect(call, t0, t1, r)
    ensures Kept(t0, t1, Places(call, r, t0))
  {
    if call.Cp? && call.src.Some? && call.dst.Some? {
      var dst := call.dst.value;
      forall p | p in t0 ensures p in t1 && t1[p] == t0[p] {
        if dst !in t0 && dst <= p { NothingBelow(t0, dst, p); }
        if !(dst <= p) && t1 != t0 && dst !in t0 { CpOutside(call, t0, t1, r, p); }
        if dst in t0 { assert t1 == t0; }
      }
    }
  }

  lemma CpOutside(call: Call, t0: Tree, t1: Tree, r: Reply, p: Path)
    requires call.Cp? && call.src.Some? && call.dst.Some? && Effect(call, t0, t1, r) && !(call.dst.value <= p)
    ensures Same(t0, t1, p)
  {
  }

  /** What happened in a sequence of calls, each one finished before the next. */
  ghost predicate History(trees: seq<Tree>, calls: seq<Call>, replies: seq<Reply>) {
    && |trees| == |calls| + 1 && |replies| == |calls|
    && forall i :: 0 <= i < |calls| ==> HappenedAt(trees, calls, replies, i)
  }

  ghost predicate HappenedAt(trees: seq<Tree>, calls: seq<Call>, replies: seq<Reply>, i: nat)
    requires i < |calls| && |trees| == |calls| + 1 && |replies| == |calls|
  {
    WellFormed(trees[i]) && Effect(calls[i], trees[i], trees[i + 1], replies[i])
  }

  /** Where the node that was at `p` at first is after `n` calls: it goes along with each
      successful rename of the path it is at. */
  function PlaceAfter(calls: seq<Call>, replies: seq<Reply>, n: nat, p: Path): Path
    requires n <= |calls| == |replies|
  {
    if n == 0 then p else Place(calls[n - 1], replies[n - 1], PlaceAfter(calls, replies, n - 1, p))
  }

  function PlacesAfter(t0: Tree, calls: seq<Call>, replies: seq<Reply>, n: nat): map<Path, Path>
    requires n <= |calls| == |replies|
  {
    map p | p in t0 :: PlaceAfter(calls, replies, n, p)
  }

  /** No successful rename has the path as its source. */
  ghost predicate NeverMoved(calls: seq<Call>, replies: seq<Reply>, n: nat, p: Path)
    requires n <= |calls| == |replies|
  {
    forall k | 0 <= k < n :: calls[k].Rename? && replies[k].Ok? ==> calls[k].src != Some(p)
  }

  lemma {:induction false} StaysPut(calls: seq<Call>, replies: seq<Reply>, n: nat, p: Path)
    requires n <= |calls| == |replies| && NeverMoved(calls, replies, n, p)
    ensures PlaceAfter(calls, replies, n, p) == p
  {
    if n == 0 {
    } else {
      StaysPut(calls, replies, n - 1, p);
    }
  }

  lemma {:induction false} HistoryKeeps(trees: seq<Tree>, calls: seq<Call>, replies: seq<Reply>, n: nat)
    requires History(trees, calls, replies) && n <= |calls|
    ensures Kept(trees[0], trees[n], PlacesAfter(trees[0], calls, replies, n))
  {
    if n == 0 {
      NothingHappened(trees[0], calls, replies);
    } else {
      HistoryKeeps(trees, calls, replies, n - 1);
      CallKeepsAt(trees, calls, replies, n - 1);
      NextPlaces(trees[0], trees[n - 1], trees[n], calls, replies, n);
    }
  }

  lemma CallKeepsAt(trees: seq<Tree>, calls: seq<Call>, replies: seq<Reply>, n: nat)
    requires History(trees, calls, replies) && n < |calls|
    ensures Kept(trees[n], trees[n + 1], Places(calls[n], replies[n], trees[n]))
  {
    assert HappenedAt(trees, calls, replies, n);
    CallKeeps(calls[n], trees[n], trees[n + 1], replies[n]);
  }

  lemma NothingHappened(t0: Tree, calls: seq<Call>, replies: seq<Reply>)
    requires |calls| == |replies|
    ensures Kept(t0, t0, PlacesAfter(t0, calls, replies, 0))
  {
  }

  lemma NextPlaces(t0: Tree, t1: Tree, t2: Tree, calls: seq<Call>, replies: seq<Reply>, n: nat)
    requires 0 < n <= |calls| == |replies|
    requires Kept(t0, t1, PlacesAfter(t0, calls, replies, n - 1))
    requires Kept(t1, t2, Places(calls[n - 1], replies[n - 1], t1))
    ensures Kept(t0, t2, PlacesAfter(t0, calls, replies, n))
  {
    var first, second := PlacesAfter(t0, calls, replies, n - 1), Places(calls[n - 1], replies[n - 1], t1);
    Compose(t0, t1, t2, first, second, PlacesAfter(t0, calls, replies, n));
  }

  lemma Compose(t0: Tree, t1: Tree, t2: Tree, first: map<Path, Path>, second: map<Path, Path>, both: map<Path, Path>)
    requires Kept(t0, t1, first) && Kept(t1, t2, second)
    requires both.Keys == t0.Keys && forall p :: p in t0 ==> both[p] == second[first[p]]
    ensures Kept(t0, t2, both)
  {
  }

  /** No clobbering: after any sequence of calls, failed ones included, every file, directory
      and link that was there before is unchanged at the path to which the successful renames
      have moved it, no two of them at one path; what was not renamed is where it was. */
  lemma NoClobber(trees: seq<Tree>, calls: seq<Call>, replies: seq<Reply>, n: nat)
    requires History(trees, calls, replies) && n <= |calls|
    ensures forall p :: p in trees[0] ==>
              var q := PlaceAfter(calls, replies, n, p);
              q in trees[n] && trees[n][q] == trees[0][p]
    ensures forall p, q | p in trees[0] && q in trees[0] && p != q ::
              PlaceAfter(calls, replies, n, p) != PlaceAfter(calls, replies, n, q)
    ensures forall p | p in trees[0] && NeverMoved(calls, replies, n, p) ::
              p in trees[n] && trees[n][p] == trees[0][p]
  {
    HistoryKeeps(trees, calls, replies, n);
    var places := PlacesAfter(trees[0], calls, replies, n);
    assert forall p :: p in trees[0] ==> places[p] == PlaceAfter(calls, replies, n, p);
    forall p | p in trees[0] && NeverMoved(calls, replies, n, p)
      ensures p in trees[n] && trees[n][p] == trees[0][p]
    {
      StaysPut(calls, replies, n, p);
      assert places[p] == p;
    }
  }

  /** Directories stay where they are, whatever is renamed. */
  lemma {:induction false} DirectoriesStay(trees: seq<Tree>, calls: seq<Call>, replies: seq<Reply>, n: nat, p: Path)
    requires History(trees, calls, replies) && n <= |calls| && IsDir(trees[0], p)
    ensures PlaceAfter(calls, replies, n, p) == p && IsDir(trees[n], p)
  {
    if n == 0 {
    } else {
      DirectoriesStay(trees, calls, replies, n - 1, p);
      assert HappenedAt(trees, calls, replies, n - 1);
      HistoryKeeps(trees, calls, replies, n);
      assert PlacesAfter(trees[0], calls, replies, n)[p] == PlaceAfter(calls, replies, n, p);
    }
  }

  /** A successful rename moves the source intact, or, when the source was missing and is the
      destination, leaves a new empty file; a directory is never moved. */
  lemma RenameMoves(t0: Tree, t1: Tree, src: Path, dst: Path)
    requires Effect(Rename(Some(src), Some(dst)), t0, t1, Ok(()))
    ensures dst !in t0 && dst in t1
    ensures src != dst ==> src in t0 && !t0[src].Dir? && src !in t1 && t1[dst] == t0[src]
    ensures src == dst ==> t1 == t0[dst := File([])]
    ensures forall p :: p != src && p != dst ==> Same(t0, t1, p)
  {
  }

  /** A directory cannot be renamed: the placeholder that stands in its way is a file, and
      it stays behind. */
  lemma DirectoryRenameFails(t0: Tree, t1: Tree, src: Path, dst: Path, r: Reply)
    requires IsDir(t0, src) && Effect(Rename(Some(src), Some(dst)), t0, t1, r)
    ensures r.Err? && (t1 == t0 || t1 == t0[dst := File([])])
  {
  }
}
