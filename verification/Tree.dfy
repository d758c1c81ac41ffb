/** A shared folder as a tree, its depth-first walk with pruning, and the proof that pruning is the
    same as filtering a walk of everything. */
module Tree {
  import opened Text

  datatype Meta = Meta(size: nat, mtime: int, body: Option<string>)

  /** An entry of a directory, in the order the system lists them. A folder that cannot be listed
      has no entries; links, devices and files without metadata are `Other`. */
  datatype Node = Folder(name: string, entries: seq<Node>) | Plain(name: string, meta: Meta) | Other(name: string)

  /** One thing the walk comes to, by the segments of its path. */
  datatype Event = DirAt(segs: seq<string>) | FileAt(segs: seq<string>, meta: Meta)

  /** A directory waiting on the stack: its path, its entries, and whether only its directories
      matter because it is ignored. */
  datatype Task = Task(segs: seq<string>, entries: seq<Node>, dirsOnly: bool)

  /** The ignore test on segments. */
  type Ign = (seq<string>, bool) -> bool

  // ------------------------------------------------------------------ measures

  function Size(es: seq<Node>): nat {
    if es == [] then 0 else (match es[0] case Folder(_, sub) => 1 + Size(sub) case _ => 1) + Size(es[1..])
  }

  function Weight(stack: seq<Task>): nat {
    if stack == [] then 0 else 1 + Size(stack[|stack| - 1].entries) + Weight(stack[..|stack| - 1])
  }

  lemma {:induction false} WeightAppend(xs: seq<Task>, ys: seq<Task>)
    ensures Weight(xs + ys) == Weight(xs) + Weight(ys)
    decreases |ys|
  {
    if ys == [] {
      assert xs + ys == xs;
    } else {
      assert (xs + ys)[..|xs + ys| - 1] == xs + ys[..|ys| - 1];
      WeightAppend(xs, ys[..|ys| - 1]);
    }
  }

  // ------------------------------------------------------------------ one directory

  /** Its plain files, in order. */
  function Files(segs: seq<string>, es: seq<Node>): seq<Event> {
    if es == [] then []
    else (if es[0].Plain? then [FileAt(segs + [es[0].name], es[0].meta)] else []) + Files(segs, es[1..])
  }

  /** Its folders in the order they are pushed. `only`: inside an ignored folder. */
  function Subs(ign: Ign, segs: seq<string>, es: seq<Node>, only: bool): (r: seq<Task>)
    ensures Weight(r) <= Size(es)
  {
    if es == [] then []
    else
      var more := Subs(ign, segs, es[1..], only);
      if !es[0].Folder? then more
      else
        var p := segs + [es[0].name];
        var t := Task(p, es[0].entries, only || ign(p, true));
        WeightAppend([t], more);
        assert [t][..0] == [];
        [t] + more
  }

  // ------------------------------------------------------------------ the two walks

  /** The walk of everything reachable from a stack, the last task first. */
  function FullWalk(ign: Ign, stack: seq<Task>): seq<Event>
    decreases Weight(stack)
  {
    if stack == [] then []
    else
      var t, rest := stack[|stack| - 1], stack[..|stack| - 1];
      WeightAppend(rest, Subs(ign, t.segs, t.entries, t.dirsOnly));
      [DirAt(t.segs)] + Files(t.segs, t.entries) + FullWalk(ign, rest + Subs(ign, t.segs, t.entries, t.dirsOnly))
  }

  function KeepFiles(ign: Ign, evs: seq<Event>): seq<Event> {
    if evs == [] then []
    else (if evs[0].FileAt? && !ign(evs[0].segs, false) then [evs[0]] else []) + KeepFiles(ign, evs[1..])
  }

  /** What the original walk emits: an ignored directory is named and only its directories are
      entered, any other directory yields its files that are not ignored. */
  function PrunedWalk(ign: Ign, stack: seq<Task>): seq<Event>
    decreases Weight(stack)
  {
    if stack == [] then []
    else
      var t, rest := stack[|stack| - 1], stack[..|stack| - 1];
      WeightAppend(rest, Subs(ign, t.segs, t.entries, t.dirsOnly));
      (if t.dirsOnly then [DirAt(t.segs)] else KeepFiles(ign, Files(t.segs, t.entries)))
      + PrunedWalk(ign, rest + Subs(ign, t.segs, t.entries, t.dirsOnly))
  }

  // ------------------------------------------------------------------ the stack is a recursion

  /** The same walk without a stack: a directory's own events, then all that is below its last folder, then all
      that is below the one before it, up to the first. */
  function Visit(ign: Ign, segs: seq<string>, es: seq<Node>, only: bool): seq<Event>
    decreases Size(es), 1
  {
    (if only then [DirAt(segs)] else KeepFiles(ign, Files(segs, es))) + VisitFolders(ign, segs, es, only)
  }

  function VisitFolders(ign: Ign, segs: seq<string>, es: seq<Node>, only: bool): seq<Event>
    decreases Size(es), 0
  {
    if es == [] then []
    else
      VisitFolders(ign, segs, es[1..], only)
      + match es[0]
        case Folder(name, below) => Visit(ign, segs + [name], below, only || ign(segs + [name], true))
        case _ => []
  }

  function VisitStack(ign: Ign, stack: seq<Task>): seq<Event>
    decreases |stack|
  {
    if stack == [] then []
    else
      var t := stack[|stack| - 1];
      Visit(ign, t.segs, t.entries, t.dirsOnly) + VisitStack(ign, stack[..|stack| - 1])
  }

  lemma {:induction false} VisitAppend(ign: Ign, xs: seq<Task>, ys: seq<Task>)
    ensures VisitStack(ign, xs + ys) == VisitStack(ign, ys) + VisitStack(ign, xs)
    decreases |ys|
  {
    hide Visit;
    if ys == [] {
      assert xs + ys == xs;
    } else {
      var t := ys[|ys| - 1];
      assert (xs + ys)[..|xs + ys| - 1] == xs + ys[..|ys| - 1];
      VisitAppend(ign, xs, ys[..|ys| - 1]);
      Regroup3(Visit(ign, t.segs, t.entries, t.dirsOnly), VisitStack(ign, ys[..|ys| - 1]), VisitStack(ign, xs));
    }
  }

  lemma OneVisit(ign: Ign, t: Task)
    ensures VisitStack(ign, [t]) == Visit(ign, t.segs, t.entries, t.dirsOnly)
  {
    hide Visit;
    assert [t][..0] == [];
  }

  lemma {:induction false} VisitSubs(ign: Ign, segs: seq<string>, es: seq<Node>, only: bool)
    ensures VisitStack(ign, Subs(ign, segs, es, only)) == VisitFolders(ign, segs, es, only)
  {
    hide Visit;
    if es != [] {
      var more := Subs(ign, segs, es[1..], only);
      VisitSubs(ign, segs, es[1..], only);
      if es[0].Folder? {
        var t := Task(segs + [es[0].name], es[0].entries, only || ign(segs + [es[0].name], true));
        VisitAppend(ign, [t], more);
        OneVisit(ign, t);
      }
    }
  }

  /** The explicit stack walks as the recursion does: depth first, the events of a directory together, its
      folders from the last to the first, each with everything below it. */
  lemma {:induction false} StackIsRecursion(ign: Ign, stack: seq<Task>)
    ensures PrunedWalk(ign, stack) == VisitStack(ign, stack)
    decreases Weight(stack)
  {
    if stack != [] {
      hide Subs, Files, KeepFiles;
      var t, rest := stack[|stack| - 1], stack[..|stack| - 1];
      var subs := Subs(ign, t.segs, t.entries, t.dirsOnly);
      var own := if t.dirsOnly then [DirAt(t.segs)] else KeepFiles(ign, Files(t.segs, t.entries));
      WeightAppend(rest, subs);
      StackIsRecursion(ign, rest + subs);
      VisitAppend(ign, rest, subs);
      VisitSubs(ign, t.segs, t.entries, t.dirsOnly);
      Regroup3(own, VisitFolders(ign, t.segs, t.entries, t.dirsOnly), VisitStack(ign, rest));
    }
  }

  // ------------------------------------------------------------------ what a walk is for

  /** What ought to be emitted: files that are not ignored, directories below the root that are. */
  predicate Kept(ign: Ign, root: seq<string>, e: Event) {
    match e
    case DirAt(segs) => segs != root && ign(segs, true)
    case FileAt(segs, _) => !ign(segs, false)
  }

  function Filter(ign: Ign, root: seq<string>, evs: seq<Event>): seq<Event> {
    if evs == [] then []
    else (if Kept(ign, root, evs[0]) then [evs[0]] else []) + Filter(ign, root, evs[1..])
  }

  /** The ancestor closure of the matcher, all that pruning needs. */
  ghost predicate Closed(ign: Ign) {
    forall d, e, b | ign(d, true) && e != [] :: ign(d + e, b)
  }

  /** Tasks as the walk has them: flagged exactly when ignored, except the root, never flagged. */
  predicate Flagged(ign: Ign, root: seq<string>, t: Task) {
    root <= t.segs && if t.segs == root then !t.dirsOnly else t.dirsOnly == ign(t.segs, true)
  }

  // ------------------------------------------------------------------ pruning is filtering

  lemma {:induction false} FilterAppend(ign: Ign, root: seq<string>, xs: seq<Event>, ys: seq<Event>)
    ensures Filter(ign, root, xs + ys) == Filter(ign, root, xs) + Filter(ign, root, ys)
  {
    hide Kept;
    if xs == [] {
      assert xs + ys == ys;
    } else {
      assert (xs + ys)[1..] == xs[1..] + ys;
      FilterAppend(ign, root, xs[1..], ys);
      var head := if Kept(ign, root, xs[0]) then [xs[0]] else [];
      Regroup3(head, Filter(ign, root, xs[1..]), Filter(ign, root, ys));
    }
  }

  lemma {:induction false} FilesShape(segs: seq<string>, es: seq<Node>)
    ensures forall i | 0 <= i < |Files(segs, es)| ::
              Files(segs, es)[i].FileAt? && |Files(segs, es)[i].segs| == |segs| + 1 && segs < Files(segs, es)[i].segs
  {
    if es != [] {
      FilesShape(segs, es[1..]);
      assert (segs + [es[0].name])[..|segs|] == segs;
    }
  }

  lemma {:induction false} KeepIsFilter(ign: Ign, root: seq<string>, evs: seq<Event>)
    requires forall i | 0 <= i < |evs| :: evs[i].FileAt?
    ensures KeepFiles(ign, evs) == Filter(ign, root, evs)
  {
    if evs != [] {
      KeepIsFilter(ign, root, evs[1..]);
    }
  }

  /** Nothing is kept of the files of an ignored directory. */
  lemma {:induction false} IgnoredFiles(ign: Ign, root: seq<string>, segs: seq<string>, es: seq<Node>)
    requires Closed(ign) && ign(segs, true)
    ensures Filter(ign, root, Files(segs, es)) == []
  {
    if es != [] {
      IgnoredFiles(ign, root, segs, es[1..]);
      var evs := Files(segs, es);
      if es[0].Plain? {
        assert ign(segs + [es[0].name], false);
        assert evs[1..] == Files(segs, es[1..]);
      } else {
        assert evs == Files(segs, es[1..]);
      }
    }
  }

  /** The folders pushed from a flagged task are flagged. */
  lemma {:induction false} SubsFlagged(ign: Ign, root: seq<string>, segs: seq<string>, es: seq<Node>, only: bool)
    requires Closed(ign) && root <= segs && (only ==> ign(segs, true))
    ensures forall i | 0 <= i < |Subs(ign, segs, es, only)| :: Flagged(ign, root, Subs(ign, segs, es, only)[i])
  {
    if es != [] {
      SubsFlagged(ign, root, segs, es[1..], only);
      if es[0].Folder? {
        var p := segs + [es[0].name];
        assert |p| > |root| && p[..|root|] == segs[..|root|] == root;
        if only { assert ign(segs + [es[0].name], true); }
        assert Flagged(ign, root, Task(p, es[0].entries, only || ign(p, true)));
      }
    }
  }

  /** Pruning equals filtering: for every tree, every closed ignore test and every stack the walk can
      have, the pruned walk emits, in the same order, exactly the kept part of the full walk. */
  lemma {:induction false} PrunedIsFiltered(ign: Ign, root: seq<string>, stack: seq<Task>)
    requires Closed(ign) && forall i | 0 <= i < |stack| :: Flagged(ign, root, stack[i])
    ensures PrunedWalk(ign, stack) == Filter(ign, root, FullWalk(ign, stack))
    decreases Weight(stack)
  {
    if stack != [] {
      var t, rest := stack[|stack| - 1], stack[..|stack| - 1];
      var subs := Subs(ign, t.segs, t.entries, t.dirsOnly);
      var files := Files(t.segs, t.entries);
      var more := FullWalk(ign, rest + subs);
      WeightAppend(rest, subs);
      SubsFlagged(ign, root, t.segs, t.entries, t.dirsOnly);
      PrunedIsFiltered(ign, root, rest + subs);
      FilterAppend(ign, root, [DirAt(t.segs)] + files, more);
      FilterAppend(ign, root, [DirAt(t.segs)], files);
      FilesShape(t.segs, t.entries);
      HeadKept(ign, root, t);
    }
  }

  lemma HeadKept(ign: Ign, root: seq<string>, t: Task)
    requires Closed(ign) && Flagged(ign, root, t)
    ensures Filter(ign, root, [DirAt(t.segs)]) + Filter(ign, root, Files(t.segs, t.entries))
            == if t.dirsOnly then [DirAt(t.segs)] else KeepFiles(ign, Files(t.segs, t.entries))
  {
    var files := Files(t.segs, t.entries);
    FilesShape(t.segs, t.entries);
    KeepIsFilter(ign, root, files);
    assert [DirAt(t.segs)][1..] == [];
    if t.dirsOnly {
      IgnoredFiles(ign, root, t.segs, t.entries);
    }
  }

  // ------------------------------------------------------------------ the full walk is the tree

  /** Is there a file at this path below these entries? */
  predicate IsFile(es: seq<Node>, path: seq<string>, m: Meta)
    decreases |path|
  {
    path != [] && exists e | e in es ::
      e.name == path[0]
      && if |path| == 1 then e == Plain(path[0], m) else e.Folder? && IsFile(e.entries, path[1..], m)
  }

  /** Is there a folder at this path below these entries? The empty path is the folder itself. */
  predicate IsDir(es: seq<Node>, path: seq<string>)
    decreases |path|
  {
    path == [] || exists e | e in es :: e.Folder? && e.name == path[0] && IsDir(e.entries, path[1..])
  }

  /** Does the tree of a task hold what an event names? */
  predicate Holds(t: Task, e: Event) {
    t.segs <= e.segs
    && match e
       case DirAt(segs) => IsDir(t.entries, segs[|t.segs|..])
       case FileAt(segs, m) => IsFile(t.entries, segs[|t.segs|..], m)
  }

  lemma {:induction false} InFiles(segs: seq<string>, es: seq<Node>, e: Event)
    ensures e in Files(segs, es) <==>
            e.FileAt? && exists n | n in es :: n == Plain(n.name, e.meta) && e.segs == segs + [n.name]
  {
    if es != [] {
      InFiles(segs, es[1..], e);
      var head := if es[0].Plain? then [FileAt(segs + [es[0].name], es[0].meta)] else [];
      assert e in Files(segs, es) <==> e in head || e in Files(segs, es[1..]);
      assert forall n :: n in es <==> n == es[0] || n in es[1..];
    }
  }

  lemma {:induction false} InSubs(ign: Ign, segs: seq<string>, es: seq<Node>, only: bool, u: Task)
    ensures u in Subs(ign, segs, es, only) <==>
            exists n | n in es :: n.Folder? && u == Task(segs + [n.name], n.entries, only || ign(segs + [n.name], true))
  {
    if es != [] {
      InSubs(ign, segs, es[1..], only, u);
      assert forall n :: n in es <==> n == es[0] || n in es[1..];
    }
  }

  /** What a task holds beyond its own directory and files, one of its folders holds. */
  lemma HeldBelow(ign: Ign, t: Task, e: Event) returns (u: Task)
    requires Holds(t, e) && e != DirAt(t.segs) && e !in Files(t.segs, t.entries)
    ensures u in Subs(ign, t.segs, t.entries, t.dirsOnly) && Holds(u, e)
  {
    var path := e.segs[|t.segs|..];
    assert e.segs == t.segs + path;
    InFiles(t.segs, t.entries, e);
    var n :| n in t.entries && n.name == path[0] && n.Folder?
             && (if e.DirAt? then IsDir(n.entries, path[1..]) else IsFile(n.entries, path[1..], e.meta));
    u := Task(t.segs + [n.name], n.entries, t.dirsOnly || ign(t.segs + [n.name], true));
    InSubs(ign, t.segs, t.entries, t.dirsOnly, u);
    assert u.segs == e.segs[..|u.segs|] && e.segs[|u.segs|..] == path[1..];
  }

  lemma HeldByFolder(ign: Ign, t: Task, u: Task, e: Event)
    requires u in Subs(ign, t.segs, t.entries, t.dirsOnly) && Holds(u, e)
    ensures Holds(t, e)
  {
    InSubs(ign, t.segs, t.entries, t.dirsOnly, u);
    var n :| n in t.entries && n.Folder?
        && u == Task(t.segs + [n.name], n.entries, t.dirsOnly || ign(t.segs + [n.name], true));
    var path := e.segs[|t.segs|..];
    assert t.segs == u.segs[..|t.segs|] == e.segs[..|t.segs|];
    assert path[0] == u.segs[|t.segs|] == n.name && path[1..] == e.segs[|u.segs|..];
  }

  lemma HeldOwn(t: Task, e: Event)
    requires e == DirAt(t.segs) || e in Files(t.segs, t.entries)
    ensures Holds(t, e)
  {
    if e == DirAt(t.segs) {
      assert e.segs[|t.segs|..] == [];
    } else {
      InFiles(t.segs, t.entries, e);
      var n :| n in t.entries && n == Plain(n.name, e.meta) && e.segs == t.segs + [n.name];
      assert e.segs[..|t.segs|] == t.segs && e.segs[|t.segs|..] == [n.name];
    }
  }

  /** Does one of the tasks hold it? */
  predicate AnyHolds(ts: seq<Task>, e: Event) { exists t | t in ts :: Holds(t, e) }

  lemma AnyHoldsAppend(xs: seq<Task>, ys: seq<Task>, e: Event)
    ensures AnyHolds(xs + ys, e) <==> AnyHolds(xs, e) || AnyHolds(ys, e)
  {
  }

  lemma AnyHoldsOne(t: Task, e: Event)
    ensures AnyHolds([t], e) <==> Holds(t, e)
    ensures !AnyHolds([], e)
  {
  }

  /** A task holds its own directory, its files and what its folders hold, nothing else. */
  lemma HoldsUnfolds(ign: Ign, t: Task, e: Event)
    ensures Holds(t, e) <==>
            e == DirAt(t.segs) || e in Files(t.segs, t.entries) || AnyHolds(Subs(ign, t.segs, t.entries, t.dirsOnly), e)
  {
    hide Holds;
    if e == DirAt(t.segs) || e in Files(t.segs, t.entries) {
      HeldOwn(t, e);
    } else if Holds(t, e) {
      var u := HeldBelow(ign, t, e);
    } else {
      forall u | u in Subs(ign, t.segs, t.entries, t.dirsOnly) ensures Holds(u, e) ==> Holds(t, e) {
        if Holds(u, e) { HeldByFolder(ign, t, u, e); }
      }
    }
  }

  lemma FullWalkPop(ign: Ign, stack: seq<Task>, e: Event)
    requires stack != []
    ensures var t, rest := stack[|stack| - 1], stack[..|stack| - 1];
            var subs := Subs(ign, t.segs, t.entries, t.dirsOnly);
            Weight(rest + subs) < Weight(stack)
            && (e in FullWalk(ign, stack) <==>
                  e == DirAt(t.segs) || e in Files(t.segs, t.entries) || e in FullWalk(ign, rest + subs))
  {
    hide Files, Subs;
    var t, rest := stack[|stack| - 1], stack[..|stack| - 1];
    WeightAppend(rest, Subs(ign, t.segs, t.entries, t.dirsOnly));
  }

  lemma EmptyStack(ign: Ign, e: Event)
    ensures FullWalk(ign, []) == [] && !AnyHolds([], e)
  {
  }

  /** The full walk reaches exactly what the tasks of the stack hold. */
  lemma {:induction false} WalkReaches(ign: Ign, stack: seq<Task>, e: Event)
    ensures e in FullWalk(ign, stack) <==> AnyHolds(stack, e)
    decreases Weight(stack)
  {
    hide AnyHolds, Holds, FullWalk, Files, Subs, Weight;
    if stack == [] {
      EmptyStack(ign, e);
    } else {
      var t, rest := stack[|stack| - 1], stack[..|stack| - 1];
      var subs := Subs(ign, t.segs, t.entries, t.dirsOnly);
      FullWalkPop(ign, stack, e);
      WalkReaches(ign, rest + subs, e);
      HoldsUnfolds(ign, t, e);
      AnyHoldsAppend(rest, subs, e);
      AnyHoldsAppend(rest, [t], e);
      AnyHoldsOne(t, e);
      assert stack == rest + [t];
    }
  }

  // ------------------------------------------------------------------ exactly once

  /** No two entries of a folder share a name, here and below. */
  predicate Tidy(es: seq<Node>) {
    es != [] ==>
      Tidy(es[1..]) && (forall i | 1 <= i < |es| :: es[i].name != es[0].name)
      && (es[0].Folder? ==> Tidy(es[0].entries))
  }

  /** Neither path leads through the other. */
  predicate Apart(p: seq<string>, q: seq<string>) { !(p <= q) && !(q <= p) }

  predicate Spread(stack: seq<Task>) {
    (forall i | 0 <= i < |stack| :: Tidy(stack[i].entries))
    && forall i, j | 0 <= i < j < |stack| :: Apart(stack[i].segs, stack[j].segs)
  }

  /** The same directory or the same file. */
  predicate Alike(a: Event, b: Event) { a.segs == b.segs && a.DirAt? == b.DirAt? }

  predicate Once(evs: seq<Event>) { forall i, j | 0 <= i < j < |evs| :: !Alike(evs[i], evs[j]) }

  lemma {:induction false} FilesOnce(segs: seq<string>, es: seq<Node>)
    requires Tidy(es)
    ensures Once(Files(segs, es))
  {
    if es != [] {
      FilesOnce(segs, es[1..]);
      if es[0].Plain? {
        var more := Files(segs, es[1..]);
        forall i | 0 <= i < |more| ensures more[i].segs != segs + [es[0].name] {
          InFiles(segs, es[1..], more[i]);
          var n :| n in es[1..] && more[i].segs == segs + [n.name];
          assert (segs + [n.name])[|segs|] == n.name;
          assert (segs + [es[0].name])[|segs|] == es[0].name;
        }
      }
    }
  }

  lemma SiblingsApart(segs: seq<string>, a: string, b: string)
    requires a != b
    ensures Apart(segs + [a], segs + [b])
  {
    assert (segs + [a])[|segs|] == a && (segs + [b])[|segs|] == b;
  }

  lemma {:induction false} SubsSpread(ign: Ign, segs: seq<string>, es: seq<Node>, only: bool)
    requires Tidy(es)
    ensures Spread(Subs(ign, segs, es, only))
  {
    if es != [] {
      SubsSpread(ign, segs, es[1..], only);
      var more := Subs(ign, segs, es[1..], only);
      if es[0].Folder? {
        forall i | 0 <= i < |more| ensures Apart(segs + [es[0].name], more[i].segs) {
          InSubs(ign, segs, es[1..], only, more[i]);
          var n :| n in es[1..] && more[i].segs == segs + [n.name];
          SiblingsApart(segs, es[0].name, n.name);
        }
      }
    }
  }

  lemma SubSegs(ign: Ign, segs: seq<string>, es: seq<Node>, only: bool, u: Task)
    requires u in Subs(ign, segs, es, only)
    ensures |u.segs| == |segs| + 1 && segs < u.segs
  {
  }

  lemma ApartBelow(p: seq<string>, q: seq<string>)
    requires Apart(p, q)
    ensures forall r | q <= r :: Apart(p, r)
  {
  }

  lemma NextSpread(ign: Ign, stack: seq<Task>)
    requires stack != [] && Spread(stack)
    ensures var t, rest := stack[|stack| - 1], stack[..|stack| - 1];
            Spread(rest + Subs(ign, t.segs, t.entries, t.dirsOnly))
  {
    var t, rest := stack[|stack| - 1], stack[..|stack| - 1];
    var subs := Subs(ign, t.segs, t.entries, t.dirsOnly);
    SubsSpread(ign, t.segs, t.entries, t.dirsOnly);
    forall i, k | 0 <= i < |rest| && 0 <= k < |subs| ensures Apart(rest[i].segs, subs[k].segs) {
      SubSegs(ign, t.segs, t.entries, t.dirsOnly, subs[k]);
      ApartBelow(rest[i].segs, t.segs);
    }
  }

  /** Nothing the rest of the stack or the pushed folders hold is the task's own directory or one of
      its files. */
  lemma HeadIsNew(ign: Ign, stack: seq<Task>, own: Event, e: Event)
    requires stack != [] && Spread(stack)
    requires var t := stack[|stack| - 1]; own == DirAt(t.segs) || own in Files(t.segs, t.entries)
    requires var t, rest := stack[|stack| - 1], stack[..|stack| - 1];
             e in FullWalk(ign, rest + Subs(ign, t.segs, t.entries, t.dirsOnly))
    ensures !Alike(own, e)
  {
    hide Holds, Tidy, IsFile, IsDir;
    var t, rest := stack[|stack| - 1], stack[..|stack| - 1];
    var subs := Subs(ign, t.segs, t.entries, t.dirsOnly);
    WalkReaches(ign, rest + subs, e);
    var u :| u in rest + subs && Holds(u, e);
    FilesShape(t.segs, t.entries);
    assert t.segs <= own.segs;
    HoldsBelow(u, e);
    if u in rest {
      assert Apart(u.segs, t.segs);
      ApartBelow(u.segs, t.segs);
    } else {
      assert u in subs;
      SubSegs(ign, t.segs, t.entries, t.dirsOnly, u);
      FileIsDeeper(u, e, own, t.segs);
    }
  }

  lemma HoldsBelow(u: Task, e: Event)
    requires Holds(u, e)
    ensures u.segs <= e.segs
  {
  }

  lemma FileIsDeeper(u: Task, e: Event, own: Event, segs: seq<string>)
    requires Holds(u, e) && |u.segs| == |segs| + 1 && segs < u.segs
    requires own == DirAt(segs) || (own.FileAt? && |own.segs| == |segs| + 1)
    ensures !Alike(own, e)
  {
  }

  /** The walk comes to every directory and every file once. */
  lemma {:induction false} WalkOnce(ign: Ign, stack: seq<Task>)
    requires Spread(stack)
    ensures Once(FullWalk(ign, stack))
    decreases Weight(stack)
  {
    if stack != [] {
      hide Spread;
      var t, rest := stack[|stack| - 1], stack[..|stack| - 1];
      var subs := Subs(ign, t.segs, t.entries, t.dirsOnly);
      var own, more := [DirAt(t.segs)] + Files(t.segs, t.entries), FullWalk(ign, rest + subs);
      WeightAppend(rest, subs);
      NextSpread(ign, stack);
      WalkOnce(ign, rest + subs);
      OwnOnce(stack);
      forall i, j | 0 <= i < |own| && 0 <= j < |more| ensures !Alike(own[i], more[j]) {
        HeadIsNew(ign, stack, own[i], more[j]);
      }
    }
  }

  lemma OwnOnce(stack: seq<Task>)
    requires stack != [] && Spread(stack)
    ensures var t := stack[|stack| - 1]; Once([DirAt(t.segs)] + Files(t.segs, t.entries))
  {
    var t := stack[|stack| - 1];
    FilesOnce(t.segs, t.entries);
    FilesShape(t.segs, t.entries);
  }

  lemma {:induction false} FilterOnce(ign: Ign, root: seq<string>, evs: seq<Event>)
    requires Once(evs)
    ensures Once(Filter(ign, root, evs))
    ensures forall e :: e in Filter(ign, root, evs) <==> e in evs && Kept(ign, root, e)
  {
    hide Kept;
    if evs != [] {
      assert forall i, j | 0 <= i < j < |evs[1..]| :: !Alike(evs[1..][i], evs[1..][j]);
      FilterOnce(ign, root, evs[1..]);
      var more := Filter(ign, root, evs[1..]);
      forall j | 0 <= j < |more| ensures !Alike(evs[0], more[j]) {
        assert more[j] in evs[1..];
      }
      assert forall e :: e in evs <==> e == evs[0] || e in evs[1..];
    }
  }

  /** The walk theorem for one shared folder: every file of the tree that is not ignored is offered,
      every directory below the root that is ignored is named, nothing else is emitted, and nothing
      twice. */
  lemma WalkIsExact(ign: Ign, name: string, es: seq<Node>)
    requires Closed(ign) && Tidy(es)
    ensures var out := PrunedWalk(ign, [Task([name], es, false)]);
            Once(out)
            && forall e :: e in out <==> Holds(Task([name], es, false), e) && Kept(ign, [name], e)
  {
    var stack := [Task([name], es, false)];
    PrunedIsFiltered(ign, [name], stack);
    WalkOnce(ign, stack);
    FilterOnce(ign, [name], FullWalk(ign, stack));
    forall e ensures e in FullWalk(ign, stack) <==> Holds(stack[0], e) {
      WalkReaches(ign, stack, e);
      AnyHoldsOne(stack[0], e);
    }
  }
}
