/** From the shared folders to the destination: the walk's units are units the wire can carry, no two of
    its files share a target, and a clean run makes the destination the mirror of the folders. */
module Source {
  import opened Text
  import opened Frames
  import opened Paths
  import opened Mtime
  import opened Receiver
  import opened Transcript
  import M = Mirror
  import opened Convergence
  import opened Tree
  import opened Bundling
  import Ignore
  import P = Producer

  // ------------------------------------------------------------------ shareable folders

  /** A name that can be sent: it names something, and a control line carries it. */
  predicate Sendable(name: string) { PlainSegment(name) && Avoids(name, {'\n'}) && name[|name| - 1] != '\r' }

  predicate MetaOk(m: Meta) { m.size <= U64_MAX && I64_MIN <= m.mtime <= I64_MAX }

  /** Every name below can be sent and every number fits its machine type. */
  predicate Shareable(es: seq<Node>) {
    es != [] ==>
      Sendable(es[0].name) && Shareable(es[1..])
      && (es[0].Folder? ==> Shareable(es[0].entries)) && (es[0].Plain? ==> MetaOk(es[0].meta))
  }

  /** The shared folders themselves: distinct names, tidy contents. */
  predicate Shares(roots: seq<Node>) {
    Shareable(roots) && Tidy(roots) && forall i | 0 <= i < |roots| :: roots[i].Folder?
  }

  /** Do the shared folders hold this file? */
  ghost predicate SourceFile(roots: seq<Node>, segs: seq<string>, m: Meta) { |segs| >= 2 && IsFile(roots, segs, m) }

  /** Do they hold this directory, below one of them? */
  ghost predicate SourceDir(roots: seq<Node>, segs: seq<string>) { |segs| >= 2 && IsDir(roots, segs) }

  /** What a pass ought to offer: the files that are not ignored and the directories that are. */
  ghost predicate Due(ign: Ign, roots: seq<Node>, e: Event) {
    match e
    case FileAt(segs, m) => SourceFile(roots, segs, m) && !ign(segs, false)
    case DirAt(segs) => SourceDir(roots, segs) && ign(segs, true)
  }

  // ------------------------------------------------------------------ what an event is about

  predicate EventOk(e: Event) {
    e.segs != [] && (forall i | 0 <= i < |e.segs| :: Sendable(e.segs[i])) && (e.FileAt? ==> MetaOk(e.meta))
  }

  lemma {:induction false} ShareableAt(es: seq<Node>, n: Node)
    requires Shareable(es) && n in es
    ensures Sendable(n.name) && (n.Folder? ==> Shareable(n.entries)) && (n.Plain? ==> MetaOk(n.meta))
  {
    if n != es[0] { ShareableAt(es[1..], n); }
  }

  lemma {:induction false} FileIsShareable(es: seq<Node>, path: seq<string>, m: Meta)
    requires Shareable(es) && IsFile(es, path, m)
    ensures MetaOk(m) && forall i | 0 <= i < |path| :: Sendable(path[i])
    decreases |path|
  {
    var n :| n in es && n.name == path[0]
             && if |path| == 1 then n == Plain(path[0], m) else n.Folder? && IsFile(n.entries, path[1..], m);
    ShareableAt(es, n);
    if |path| > 1 {
      FileIsShareable(n.entries, path[1..], m);
      assert forall i | 1 <= i < |path| :: path[i] == path[1..][i - 1];
    }
  }

  lemma {:induction false} DirIsShareable(es: seq<Node>, path: seq<string>)
    requires Shareable(es) && IsDir(es, path)
    ensures forall i | 0 <= i < |path| :: Sendable(path[i])
    decreases |path|
  {
    if path != [] {
      var n :| n in es && n.Folder? && n.name == path[0] && IsDir(n.entries, path[1..]);
      ShareableAt(es, n);
      DirIsShareable(n.entries, path[1..]);
      assert forall i | 1 <= i < |path| :: path[i] == path[1..][i - 1];
    }
  }

  /** What a shared folder holds has sendable names. */
  lemma HeldIsOk(root: Node, e: Event)
    requires root.Folder? && Sendable(root.name) && Shareable(root.entries)
    requires Holds(Task([root.name], root.entries, false), e)
    ensures EventOk(e) && e.segs[0] == root.name
  {
    var rest := e.segs[1..];
    assert e.segs == [root.name] + rest;
    match e {
      case DirAt(segs) => DirIsShareable(root.entries, rest);
      case FileAt(segs, m) => FileIsShareable(root.entries, rest, m);
    }
  }

  /** The name an event is sent under. */
  function RelFor(e: Event): string { Join(e.segs, '/') }

  lemma {:induction false} JoinTail(segs: seq<string>)
    requires segs != [] && forall i | 0 <= i < |segs| :: Sendable(segs[i])
    ensures var s := Join(segs, '/'); RelOk(s)
  {
    if |segs| > 1 { JoinTail(segs[1..]); }
  }

  /** An event's name travels, and lands at the event's own place below the destination. */
  lemma EventLands(to: Path, e: Event)
    requires EventOk(e)
    ensures RelOk(RelFor(e)) && SafeJoin(to, RelFor(e)) == Some(to + e.segs)
    ensures RootOf(to, RelFor(e)) == Some(to + [e.segs[0]])
    ensures e.FileAt? ==> EntryOk(EntryOf(DocOf(e)))
  {
    JoinTail(e.segs);
    SafeJoinPlain(to, e.segs);
    var top := [e.segs[0]];
    assert Join(top, '/') == e.segs[0];
    SafeJoinPlain(to, top);
  }

  // ------------------------------------------------------------------ the events of all folders

  ghost predicate EventsOk(evs: seq<Event>) { forall i | 0 <= i < |evs| :: EventOk(evs[i]) }

  /** All folders in one walk: every file that is not ignored and every directory below a folder that is
      ignored, once, and nothing else; each event lies in a shared folder. */
  lemma {:induction false} EventsAreExact(ign: Ign, roots: seq<Node>)
    requires Closed(ign) && Shares(roots)
    ensures EventsOk(P.EventsOf(ign, roots)) && Once(P.EventsOf(ign, roots))
    ensures forall e | e in P.EventsOf(ign, roots) :: exists n | n in roots :: n.name == e.segs[0]
    ensures forall e :: e in P.EventsOf(ign, roots) <==> Due(ign, roots, e)
    decreases |roots|
  {
    hide Once, PrunedWalk, Kept, Sendable, Shareable, Tidy, Due;
    if roots != [] {
      var root, t := roots[0], Task([roots[0].name], roots[0].entries, false);
      var head, more := PrunedWalk(ign, [t]), P.EventsOf(ign, roots[1..]);
      SharesTail(roots);
      EventsAreExact(ign, roots[1..]);
      WalkIsExact(ign, root.name, root.entries);
      forall e | e in head ensures EventOk(e) && e.segs[0] == root.name { HeldIsOk(root, e); }
      forall e | e in more ensures e.segs[0] != root.name {
        var n :| n in roots[1..] && n.name == e.segs[0];
        OtherName(roots, n);
      }
      OnceTogether(head, more, root.name);
      forall e ensures e in head + more <==> Due(ign, roots, e) {
        EventInRoot(ign, roots, e);
      }
      assert forall e :: e in head + more <==> e in head || e in more;
    } else {
      NothingOnce();
      NothingDue(ign);
    }
  }

  lemma NothingDue(ign: Ign)
    ensures forall e :: !Due(ign, [], e)
  {
  }

  lemma NothingOnce()
    ensures Once([])
  {
  }

  lemma SharesTail(roots: seq<Node>)
    requires Shares(roots) && roots != []
    ensures Shares(roots[1..]) && Sendable(roots[0].name) && Shareable(roots[0].entries) && Tidy(roots[0].entries)
  {
  }

  lemma OtherName(roots: seq<Node>, n: Node)
    requires Tidy(roots) && roots != [] && n in roots[1..]
    ensures n.name != roots[0].name
  {
  }

  lemma OnceTogether(xs: seq<Event>, ys: seq<Event>, name: string)
    requires Once(xs) && Once(ys)
    requires forall e | e in xs :: e.segs != [] && e.segs[0] == name
    requires forall e | e in ys :: e.segs != [] && e.segs[0] != name
    ensures Once(xs + ys)
  {
  }

  lemma EventInRoot(ign: Ign, roots: seq<Node>, e: Event)
    requires Closed(ign) && Shares(roots) && roots != []
    requires e in P.EventsOf(ign, roots[1..]) <==> Due(ign, roots[1..], e)
    ensures e in P.EventsOf(ign, roots) <==> Due(ign, roots, e)
  {
    hide PrunedWalk, Once, Shareable, Due, Holds, Kept;
    var root := roots[0];
    var t := Task([root.name], root.entries, false);
    SharesTail(roots);
    WalkIsExact(ign, root.name, root.entries);
    assert e in P.EventsOf(ign, roots) <==> e in PrunedWalk(ign, [t]) || e in P.EventsOf(ign, roots[1..]);
    DueInRoot(ign, roots, e);
  }

  /** What is due of all folders is due of the first, or of the others. */
  lemma DueInRoot(ign: Ign, roots: seq<Node>, e: Event)
    requires Tidy(roots) && roots != [] && roots[0].Folder?
    ensures var t := Task([roots[0].name], roots[0].entries, false);
            Due(ign, roots, e) <==> (Holds(t, e) && Kept(ign, t.segs, e)) || Due(ign, roots[1..], e)
  {
    var segs, root := e.segs, roots[0];
    assert [root.name] <= segs <==> segs != [] && segs[0] == root.name;
    assert segs != [] ==> (segs == [root.name] <==> |segs| == 1 && segs[0] == root.name);
    assert forall n :: n in roots <==> n == root || n in roots[1..];
    forall n | n in roots[1..] ensures n.name != root.name { OtherName(roots, n); }
  }

  // ------------------------------------------------------------------ no target twice

  lemma {:induction false} InDocs(evs: seq<Event>, d: Doc)
    ensures d in DocsOf(evs) <==> exists e | e in evs :: e.FileAt? && DocOf(e) == d
    decreases |evs|
  {
    hide DocOf;
    if evs != [] {
      InDocs(evs[1..], d);
      assert forall e :: e in evs <==> e == evs[0] || e in evs[1..];
    }
  }

  /** Files of different events land at different places. */
  lemma {:induction false} DocsDistinct(site: Site, evs: seq<Event>)
    requires EventsOk(evs) && Once(evs)
    ensures M.Distinct(site, DocsOf(evs))
    decreases |evs|
  {
    if evs != [] {
      hide DocOf, SafeJoin, EventOk;
      assert EventsOk(evs[1..]);
      assert forall i, j | 0 <= i < j < |evs[1..]| :: !Alike(evs[1..][i], evs[1..][j]);
      DocsDistinct(site, evs[1..]);
      if evs[0].FileAt? {
        var d := DocOf(evs[0]);
        EventTarget(site, evs[0]);
        forall p | p in M.Targets(site, DocsOf(evs[1..])) ensures p != M.Target(site, d).value {
          var k := M.TargetsWitness(site, DocsOf(evs[1..]), p);
          InDocs(evs[1..], DocsOf(evs[1..])[k]);
          var e :| e in evs[1..] && e.FileAt? && DocOf(e) == DocsOf(evs[1..])[k];
          var j :| 0 <= j < |evs[1..]| && evs[1..][j] == e;
          assert !Alike(evs[0], evs[j + 1]);
          EventTarget(site, e);
          SameTail(site.to, evs[0].segs, e.segs);
        }
        assert DocsOf(evs) == [d] + DocsOf(evs[1..]);
        assert ([d] + DocsOf(evs[1..]))[1..] == DocsOf(evs[1..]);
      } else {
        assert DocsOf(evs) == DocsOf(evs[1..]);
      }
    }
  }

  lemma EventTarget(site: Site, e: Event)
    requires EventOk(e) && e.FileAt?
    ensures M.Target(site, DocOf(e)) == Some(site.to + e.segs)
  {
    EventLands(site.to, e);
  }

  lemma SameTail(to: Path, a: seq<string>, b: seq<string>)
    ensures to + a == to + b <==> a == b
  {
    assert (to + a)[|to|..] == a && (to + b)[|to|..] == b;
  }

  // ------------------------------------------------------------------ units for the wire

  predicate DocsOk(ds: seq<Doc>) { forall i | 0 <= i < |ds| :: EntryOk(EntryOf(ds[i])) }

  lemma EmitOk(pending: seq<Doc>, e: Event)
    requires EventOk(e) && DocsOk(pending) && Pending(pending)
    ensures var (us, p) := Emit(pending, e); UnitsOk(us) && DocsOk(p)
  {
    hide Join, EntryOk, RelOk, EventOk, SafeJoin;
    EventLands([], e);
    EmitSized(pending, e);
    if e.FileAt? {
      assert EntryOk(EntryOf(DocOf(e)));
      assert DocsOk(pending + [DocOf(e)]);
      assert |pending| < BUNDLE_MAX_COUNT;
    }
  }

  /** Whatever the folders hold, the units of a pass can be put on the wire. */
  lemma {:induction false} UnitsTravel(evs: seq<Event>, pending: seq<Doc>)
    requires EventsOk(evs) && DocsOk(pending) && Pending(pending)
    ensures UnitsOk(UnitsOf(evs, pending))
    ensures forall i | 0 <= i < |UnitsOf(evs, pending)| :: UnitsOf(evs, pending)[i] != Bundle([])
    decreases |evs|
  {
    hide UnitOk, Emit, Pending, EventOk, DocsOk;
    UnitsSized(evs, pending);
    NotEmpty(UnitsOf(evs, pending));
    if evs == [] {
      LastOk(pending);
    } else {
      var (us, p) := Emit(pending, evs[0]);
      EmitOk(pending, evs[0]);
      EmitSized(pending, evs[0]);
      UnitsTravel(evs[1..], p);
    }
  }

  lemma NotEmpty(us: seq<Unit>)
    requires forall i | 0 <= i < |us| :: Sized(us[i])
    ensures forall i | 0 <= i < |us| :: us[i] != Bundle([])
  {
  }

  lemma LastOk(pending: seq<Doc>)
    requires DocsOk(pending) && Pending(pending)
    ensures UnitsOk(Flush(pending))
  {
  }

  // ------------------------------------------------------------------ the recorded roots

  /** The mirror roots of some events. */
  function EventRoots(to: Path, evs: seq<Event>): set<Path> {
    set e | e in evs && e.segs != [] :: to + [e.segs[0]]
  }

  lemma {:induction false} RootsAppend(site: Site, xs: seq<Unit>, ys: seq<Unit>)
    ensures M.Roots(site, xs + ys) == M.Roots(site, xs) + M.Roots(site, ys)
    decreases |xs|
  {
    hide M.UnitRoots;
    if xs == [] {
      assert xs + ys == ys;
    } else {
      assert (xs + ys)[1..] == xs[1..] + ys;
      RootsAppend(site, xs[1..], ys);
    }
  }

  lemma {:induction false} DocRootsAppend(site: Site, xs: seq<Doc>, ys: seq<Doc>)
    ensures M.DocRoots(site, xs + ys) == M.DocRoots(site, xs) + M.DocRoots(site, ys)
    decreases |xs|
  {
    hide M.Target, RecordRoot;
    if xs == [] {
      assert xs + ys == ys;
    } else {
      assert (xs + ys)[1..] == xs[1..] + ys;
      DocRootsAppend(site, xs[1..], ys);
    }
  }

  lemma OneRoot(site: Site, e: Event)
    requires EventOk(e)
    ensures e.FileAt? ==> M.DocRoots(site, [DocOf(e)]) == {site.to + [e.segs[0]]}
    ensures e.DirAt? ==> M.UnitRoots(site, Dir(RelFor(e))) == {site.to + [e.segs[0]]}
  {
    hide SafeJoin, Join, RootOf;
    EventLands(site.to, e);
    if e.FileAt? { assert [DocOf(e)][1..] == []; }
  }

  lemma OneUnitRoots(site: Site, u: Unit)
    ensures M.Roots(site, [u]) == M.UnitRoots(site, u)
  {
  }

  lemma EmitRoots(site: Site, pending: seq<Doc>, e: Event)
    requires EventOk(e)
    ensures var (us, p) := Emit(pending, e);
            M.Roots(site, us) + M.DocRoots(site, p) == M.DocRoots(site, pending) + {site.to + [e.segs[0]]}
  {
    hide EventOk, DocOf, Full, M.DocRoots, M.Roots, M.Target;
    OneRoot(site, e);
    FlushRoots(site, pending);
    NoRoots(site);
    if e.FileAt? {
      var d := DocOf(e);
      OneUnitRoots(site, Large(d));
      OneUnitRoots(site, Bundle(pending + [d]));
      RootsAppend(site, Flush(pending), [Large(d)]);
      DocRootsAppend(site, pending, [d]);
    } else {
      OneUnitRoots(site, Dir(RelFor(e)));
    }
  }

  lemma NoRoots(site: Site)
    ensures M.Roots(site, []) == {} && M.DocRoots(site, []) == {}
  {
  }

  lemma FlushRoots(site: Site, pending: seq<Doc>)
    ensures M.Roots(site, Flush(pending)) == M.DocRoots(site, pending)
  {
  }

  /** The mirror roots of a pass are the top folders of its events. */
  lemma {:induction false} PassRoots(site: Site, evs: seq<Event>, pending: seq<Doc>)
    requires EventsOk(evs)
    ensures M.Roots(site, UnitsOf(evs, pending)) == M.DocRoots(site, pending) + EventRoots(site.to, evs)
    decreases |evs|
  {
    hide Emit, M.DocRoots, M.Roots;
    if evs == [] {
      FlushRoots(site, pending);
    } else {
      hide EventOk;
      var (us, p) := Emit(pending, evs[0]);
      EmitRoots(site, pending, evs[0]);
      PassRoots(site, evs[1..], p);
      RootsAppend(site, us, UnitsOf(evs[1..], p));
      FirstEventRoot(site.to, evs);
    }
  }

  lemma FirstEventRoot(to: Path, evs: seq<Event>)
    requires evs != [] && EventOk(evs[0])
    ensures EventRoots(to, evs) == {to + [evs[0].segs[0]]} + EventRoots(to, evs[1..])
  {
  }

  // ------------------------------------------------------------------ the mirror theorem

  /** The units of a pass over the folders, under an ignore specification. */
  function UnitsFor(fold: char -> char, pats: seq<Ignore.Pattern>, roots: seq<Node>): seq<Unit> {
    UnitsOf(P.EventsOf(P.IgnOf(fold, pats), roots), [])
  }

  /** The client's own test, on the text of a relative path. */
  function ClientTest(fold: char -> char, pats: seq<Ignore.Pattern>): string -> bool {
    rel => Ignore.IsIgnored(fold, pats, rel, false)
  }

  predicate Framed(c: Codec, us: seq<Unit>, fs: seq<Framing>) {
    |fs| == |us| && forall i | 0 <= i < |us| :: FramingOk(c, us[i], fs[i])
  }

  /** Everything the transfer theorems ask of a pass holds of every pass over shareable folders. */
  lemma PassIsSound(site: Site, fold: char -> char, pats: seq<Ignore.Pattern>, roots: seq<Node>, fs: seq<Framing>)
    requires Shares(roots) && Framed(site.codec, UnitsFor(fold, pats, roots), fs)
    ensures PassOk(site.codec, UnitsFor(fold, pats, roots), fs)
    ensures M.Distinct(site, AllDocs(UnitsFor(fold, pats, roots)))
    ensures AllDocs(UnitsFor(fold, pats, roots)) == DocsOf(P.EventsOf(P.IgnOf(fold, pats), roots))
    ensures M.Roots(site, UnitsFor(fold, pats, roots)) == EventRoots(site.to, P.EventsOf(P.IgnOf(fold, pats), roots))
  {
    hide Shares, UnitsOf, P.EventsOf, DocsOf, UnitOk, FramingOk, EventsOk, Once, M.Distinct, M.Roots, EventRoots,
        Pending;
    var evs := P.EventsOf(P.IgnOf(fold, pats), roots);
    P.IgnOfIsClosed(fold, pats);
    EventsAreExact(P.IgnOf(fold, pats), roots);
    NonePending();
    UnitsTravel(evs, []);
    FlattenUnits(evs, []);
    assert [] + DocsOf(evs) == DocsOf(evs);
    DocsDistinct(site, evs);
    PassRoots(site, evs, []);
    NoRoots(site);
    assert {} + EventRoots(site.to, evs) == EventRoots(site.to, evs);
  }

  lemma NonePending()
    ensures Pending([]) && DocsOk([])
  {
  }

  /** Is the folder of this name among the mirror roots of the pass? */
  predicate Recorded(fold: char -> char, pats: seq<Ignore.Pattern>, roots: seq<Node>, name: string) {
    exists e | e in P.EventsOf(P.IgnOf(fold, pats), roots) :: e.segs != [] && e.segs[0] == name
  }

  lemma RecordedIs(to: Path, evs: seq<Event>, segs: seq<string>)
    requires segs != []
    ensures UnderRoot(EventRoots(to, evs), to + segs) <==>
            |segs| >= 2 && exists e | e in evs :: e.segs != [] && e.segs[0] == segs[0]
  {
    var p := to + segs;
    forall x: string ensures to + [x] < p <==> |segs| >= 2 && segs[0] == x {
      if |segs| >= 2 {
        assert p[..|to| + 1] == to + [segs[0]];
        SameTail(to, [x], [segs[0]]);
      }
    }
    if UnderRoot(EventRoots(to, evs), p) {
      var r :| r in EventRoots(to, evs) && r < p;
      var e :| e in evs && e.segs != [] && r == to + [e.segs[0]];
    }
    if e :| e in evs && e.segs != [] && e.segs[0] == segs[0] && |segs| >= 2 {
      assert to + [e.segs[0]] in EventRoots(to, evs);
    }
  }

  lemma RelOfIs(to: Path, segs: seq<string>)
    ensures RelOf(to, to + segs) == Join(segs, '/')
  {
  }

  /** A target of the pass is the place of a source file that is not ignored. */
  lemma TargetIsSource(site: Site, fold: char -> char, pats: seq<Ignore.Pattern>, roots: seq<Node>, segs: seq<string>)
    requires Shares(roots)
    ensures site.to + segs in M.Targets(site, DocsOf(P.EventsOf(P.IgnOf(fold, pats), roots))) <==>
            !Ignore.Ignored(fold, pats, segs, false) && exists m :: SourceFile(roots, segs, m)
  {
    hide Shares, P.EventsOf, EventOk, Once, DocsOf, M.Targets, DocOf, SourceFile, SafeJoin;
    var ign, docs := P.IgnOf(fold, pats), DocsOf(P.EventsOf(P.IgnOf(fold, pats), roots));
    var evs := P.EventsOf(ign, roots);
    P.IgnOfIsClosed(fold, pats);
    EventsAreExact(ign, roots);
    if site.to + segs in M.Targets(site, docs) {
      var k := M.TargetsWitness(site, docs, site.to + segs);
      InDocs(evs, docs[k]);
      var e :| e in evs && e.FileAt? && DocOf(e) == docs[k];
      assert EventOk(e);
      EventTarget(site, e);
      SameTail(site.to, e.segs, segs);
      assert FileAt(segs, e.meta) in evs;
    }
    if m :| SourceFile(roots, segs, m) && !Ignore.Ignored(fold, pats, segs, false) {
      var i := SourceDoc(site, fold, pats, roots, segs, m);
      M.TargetsMember(site, docs, i);
    }
  }

  /** Where a source file is among the offered ones. */
  lemma SourceDoc(site: Site, fold: char -> char, pats: seq<Ignore.Pattern>, roots: seq<Node>, segs: seq<string>,
      m: Meta) returns (i: nat)
    requires Shares(roots) && SourceFile(roots, segs, m) && !Ignore.Ignored(fold, pats, segs, false)
    ensures var docs := DocsOf(P.EventsOf(P.IgnOf(fold, pats), roots));
            i < |docs| && docs[i] == DocOf(FileAt(segs, m)) && M.Target(site, docs[i]) == Some(site.to + segs)
  {
    hide Shares, P.EventsOf, EventOk, Once, DocsOf, DocOf, SourceFile, SafeJoin;
    var ign, e := P.IgnOf(fold, pats), FileAt(segs, m);
    var evs := P.EventsOf(ign, roots);
    P.IgnOfIsClosed(fold, pats);
    EventsAreExact(ign, roots);
    assert e in evs;
    assert EventOk(e);
    EventTarget(site, e);
    InDocs(evs, DocOf(e));
    i :| 0 <= i < |DocsOf(evs)| && DocsOf(evs)[i] == DocOf(e);
  }

  /** From folder to folder: for every shareable source, every ignore specification, every destination
      and every framing the server may choose, the run over the bytes of the pass ends cleanly, and then
      each path of the destination holds the source's file if there is one that is not ignored (the
      fetched bytes and time, or the matching copy that was there); nothing, if its folder is a mirror
      root and it is not ignored; and what it held before, otherwise. */
  lemma SourceIsMirrored(site: Site, st: St, fold: char -> char, pats: seq<Ignore.Pattern>, roots: seq<Node>,
                         fs: seq<Framing>, segs: seq<string>)
    requires Lawful(site.codec) && st.roots == {} && Shares(roots) && Ignore.Segments(segs)
    requires Framed(site.codec, UnitsFor(fold, pats, roots), fs)
    ensures PassOk(site.codec, UnitsFor(fold, pats, roots), fs)
    ensures var run := Sync(site, st, SessionBytes(site, st, UnitsFor(fold, pats, roots), fs));
            var p := site.to + segs;
            var after := M.At(Settled(site, ClientTest(fold, pats), run), p);
            var ignored := Ignore.Ignored(fold, pats, segs, false);
            run.Clean?
            && (forall m | SourceFile(roots, segs, m) && !ignored ::
                  after == M.Landed(site, st.files, DocOf(FileAt(segs, m)), p, false))
            && ((ignored || forall m :: !SourceFile(roots, segs, m)) ==>
                  after == if |segs| >= 2 && Recorded(fold, pats, roots, segs[0]) && !ignored then None
                      else M.At(st.files, p))
  {
    hide Shares, UnitsOf, P.EventsOf, DocsOf, Framed, PassOk, SessionBytes, Sync, Settled, M.Distinct, EventRoots,
        M.Expected,
         M.Landed, UnderRoot, RelOf, DocOf, SourceFile, M.Roots, Ignore.Segments, Ignore.IsIgnored, Ignore.Ignored,
             M.Targets;
    var us, p := UnitsFor(fold, pats, roots), site.to + segs;
    var evs := P.EventsOf(P.IgnOf(fold, pats), roots);
    PassIsSound(site, fold, pats, roots, fs);
    SyncConverges(site, ClientTest(fold, pats), st, us, fs, p);
    RelOfIs(site.to, segs);
    Ignore.IsIgnoredSegments(fold, pats, segs, false);
    SomeSegments(segs);
    RecordedIs(site.to, evs, segs);
    TargetIsSource(site, fold, pats, roots, segs);
    forall m | SourceFile(roots, segs, m) && !Ignore.Ignored(fold, pats, segs, false)
      ensures M.Expected(site, st.files, DocsOf(evs), p, false)
          == M.Landed(site, st.files, DocOf(FileAt(segs, m)), p, false)
    {
      var i := SourceDoc(site, fold, pats, roots, segs, m);
      M.ExpectedAt(site, st.files, DocsOf(evs), i, false);
    }
  }

  /** So every file that can be read, has the length it announces and is dated 1970 or later is there after
      the run, in that length and with that time, and with the source's bytes if it was not there before. */
  lemma EveryFileArrives(site: Site, st: St, fold: char -> char, pats: seq<Ignore.Pattern>, roots: seq<Node>,
                         fs: seq<Framing>, segs: seq<string>, m: Meta)
    requires Lawful(site.codec) && st.roots == {} && Shares(roots) && Ignore.Segments(segs)
    requires Framed(site.codec, UnitsFor(fold, pats, roots), fs)
    requires SourceFile(roots, segs, m) && !Ignore.Ignored(fold, pats, segs, false)
    requires m.body.Some? && |m.body.value| == m.size && 621_355_968_000_000_000 <= m.mtime <= I64_MAX
    ensures PassOk(site.codec, UnitsFor(fold, pats, roots), fs)
    ensures var run := Sync(site, st, SessionBytes(site, st, UnitsFor(fold, pats, roots), fs));
            var after, p := Settled(site, ClientTest(fold, pats), run), site.to + segs;
            run.Clean? && p in after && |after[p].data| == m.size && ToTicks(after[p].modified) == m.mtime
            && (p !in st.files || |st.files[p].data| != m.size || ToTicks(st.files[p].modified) != m.mtime ==>
                  after[p].data == m.body.value)
  {
    hide Shares, Framed, PassOk, SessionBytes, Sync, Settled, Recorded, Ignore.Ignored, SourceFile, UnitsFor,
        ClientTest, Ignore.Segments, ToTicks, FromTicks;
    SourceIsMirrored(site, st, fold, pats, roots, fs, segs);
    var run := Sync(site, st, SessionBytes(site, st, UnitsFor(fold, pats, roots), fs));
    var after, p, d := Settled(site, ClientTest(fold, pats), run), site.to + segs, DocOf(FileAt(segs, m));
    assert M.At(after, p) == M.Landed(site, st.files, d, p, false);
    TicksRoundTripIff(m.mtime);
  }

  lemma SomeSegments(segs: seq<string>)
    requires Ignore.Segments(segs)
    ensures segs != []
  {
  }

  // ------------------------------------------------------------------ which folders are mirrored

  /** Has a folder of this name anything to offer: a file that is not ignored, or below itself an ignored
      directory? */
  ghost predicate Offers(fold: char -> char, pats: seq<Ignore.Pattern>, roots: seq<Node>, name: string) {
    exists e :: Due(P.IgnOf(fold, pats), roots, e) && e.segs[0] == name
  }

  /** The mirror roots are exactly the folders that have something to offer. */
  lemma RecordedIff(fold: char -> char, pats: seq<Ignore.Pattern>, roots: seq<Node>, name: string)
    requires Shares(roots)
    ensures Recorded(fold, pats, roots, name) <==> Offers(fold, pats, roots, name)
  {
    hide Shares, P.EventsOf, P.IgnOf, Once, EventOk;
    P.IgnOfIsClosed(fold, pats);
    EventsAreExact(P.IgnOf(fold, pats), roots);
    assert forall e :: Due(P.IgnOf(fold, pats), roots, e) ==> e.segs != [];
  }

  /** Is every file below this folder that is not ignored one the source has? */
  ghost predicate NoStale(to: Path, fold: char -> char, pats: seq<Ignore.Pattern>, roots: seq<Node>, name: string,
                          files: Files)
  {
    forall segs | Ignore.Segments(segs) && |segs| >= 2 && segs[0] == name ::
      !StaleFile(to, fold, pats, roots, segs, files)
  }

  ghost predicate StaleFile(to: Path, fold: char -> char, pats: seq<Ignore.Pattern>, roots: seq<Node>,
                            segs: seq<string>, files: Files)
  {
    to + segs in files && !Ignore.Ignored(fold, pats, segs, false) && forall m :: !SourceFile(roots, segs, m)
  }

  /** A file that is not ignored makes its folder a mirror root. */
  lemma FileIsOffered(fold: char -> char, pats: seq<Ignore.Pattern>, roots: seq<Node>, segs: seq<string>, m: Meta)
    requires SourceFile(roots, segs, m) && !Ignore.Ignored(fold, pats, segs, false)
    ensures Offers(fold, pats, roots, segs[0])
  {
    assert Due(P.IgnOf(fold, pats), roots, FileAt(segs, m));
  }

  /** One path below a folder after the run. */
  lemma PathBelow(site: Site, st: St, fold: char -> char, pats: seq<Ignore.Pattern>, roots: seq<Node>,
                  fs: seq<Framing>, name: string, segs: seq<string>)
    requires Lawful(site.codec) && st.roots == {} && Shares(roots) && Ignore.Segments(segs) && segs[0] == name
    requires Framed(site.codec, UnitsFor(fold, pats, roots), fs)
    ensures PassOk(site.codec, UnitsFor(fold, pats, roots), fs)
    ensures var after := Settled(site, ClientTest(fold, pats),
                                 Sync(site, st, SessionBytes(site, st, UnitsFor(fold, pats, roots), fs)));
            (!Offers(fold, pats, roots, name) ==> M.At(after, site.to + segs) == M.At(st.files, site.to + segs))
            && (Offers(fold, pats, roots, name) && |segs| >= 2 ==> !StaleFile(site.to, fold, pats, roots, segs, after))
  {
    hide Shares, Framed, PassOk, SessionBytes, Sync, Settled, Recorded, Offers, M.Landed, Ignore.Ignored, SourceFile,
        UnitsFor, ClientTest, Ignore.Segments;
    SourceIsMirrored(site, st, fold, pats, roots, fs, segs);
    RecordedIff(fold, pats, roots, name);
    forall m | SourceFile(roots, segs, m) && !Ignore.Ignored(fold, pats, segs, false)
      ensures Offers(fold, pats, roots, name)
    {
      FileIsOffered(fold, pats, roots, segs, m);
    }
  }

  /** A folder that has nothing to offer any more, among any others, keeps whatever the destination has below
      it, stale or not. */
  lemma EmptiedFolderKeepsItsFiles(site: Site, st: St, fold: char -> char, pats: seq<Ignore.Pattern>, roots: seq<Node>,
                                   fs: seq<Framing>, name: string, segs: seq<string>)
    requires Lawful(site.codec) && st.roots == {} && Shares(roots) && Ignore.Segments(segs) && segs[0] == name
    requires Framed(site.codec, UnitsFor(fold, pats, roots), fs) && !Offers(fold, pats, roots, name)
    ensures PassOk(site.codec, UnitsFor(fold, pats, roots), fs)
    ensures var run := Sync(site, st, SessionBytes(site, st, UnitsFor(fold, pats, roots), fs));
            M.At(Settled(site, ClientTest(fold, pats), run), site.to + segs) == M.At(st.files, site.to + segs)
  {
    hide *;
    PathBelow(site, st, fold, pats, roots, fs, name, segs);
  }

  /** The exact mirror, folder by folder: after the run nothing stale is left below a folder exactly when the
      folder has something to offer or nothing stale was there before. */
  lemma FolderIsMirroredIff(site: Site, st: St, fold: char -> char, pats: seq<Ignore.Pattern>, roots: seq<Node>,
                            fs: seq<Framing>, name: string)
    requires Lawful(site.codec) && st.roots == {} && Shares(roots)
    requires Framed(site.codec, UnitsFor(fold, pats, roots), fs)
    ensures PassOk(site.codec, UnitsFor(fold, pats, roots), fs)
    ensures var after := Settled(site, ClientTest(fold, pats),
                                 Sync(site, st, SessionBytes(site, st, UnitsFor(fold, pats, roots), fs)));
            NoStale(site.to, fold, pats, roots, name, after)
            <==> Offers(fold, pats, roots, name) || NoStale(site.to, fold, pats, roots, name, st.files)
  {
    hide Shares, Framed, PassOk, SessionBytes, Sync, Settled, Offers, Ignore.Ignored, SourceFile, UnitsFor, ClientTest,
        Ignore.Segments;
    PassIsSound(site, fold, pats, roots, fs);
    var after := Settled(site, ClientTest(fold, pats),
                         Sync(site, st, SessionBytes(site, st, UnitsFor(fold, pats, roots), fs)));
    forall segs | Ignore.Segments(segs) && |segs| >= 2 && segs[0] == name
      ensures Offers(fold, pats, roots, name) ==> !StaleFile(site.to, fold, pats, roots, segs, after)
      ensures !Offers(fold, pats, roots, name) ==>
                (StaleFile(site.to, fold, pats, roots, segs, after)
                 <==> StaleFile(site.to, fold, pats, roots, segs, st.files))
    {
      PathBelow(site, st, fold, pats, roots, fs, name, segs);
    }
  }

  // ------------------------------------------------------------------ the second run

  /** Everything the folders offer can be read, has the size it announces and is dated 1970 or later. */
  ghost predicate SteadyFolders(fold: char -> char, pats: seq<Ignore.Pattern>, roots: seq<Node>) {
    forall segs, m | SourceFile(roots, segs, m) && !Ignore.Ignored(fold, pats, segs, false) ::
      m.body.Some? && |m.body.value| == m.size && m.mtime >= EPOCH_TICKS
  }

  lemma SteadyDocs(fold: char -> char, pats: seq<Ignore.Pattern>, roots: seq<Node>)
    requires Shares(roots) && SteadyFolders(fold, pats, roots)
    ensures var ds := DocsOf(P.EventsOf(P.IgnOf(fold, pats), roots));
            Steady(ds) && forall i | 0 <= i < |ds| :: Datable(ds[i])
  {
    hide Shares, P.EventsOf, Once, DocsOf, SourceFile, Ignore.Ignored;
    var evs := P.EventsOf(P.IgnOf(fold, pats), roots);
    var ds := DocsOf(evs);
    P.IgnOfIsClosed(fold, pats);
    EventsAreExact(P.IgnOf(fold, pats), roots);
    forall i | 0 <= i < |ds|
      ensures ds[i].body.Some? && |ds[i].body.value| == ds[i].size && EPOCH_TICKS <= ds[i].mtime <= I64_MAX
    {
      InDocs(evs, ds[i]);
      var e :| e in evs && e.FileAt? && DocOf(e) == ds[i];
      assert Due(P.IgnOf(fold, pats), roots, e) && EventOk(e);
    }
  }

  /** A second run over unchanged folders, nothing locked and nothing older than 1970, fetches nothing and
      deletes nothing. */
  lemma ResyncOfFolders(site: Site, st: St, st2: St, fold: char -> char, pats: seq<Ignore.Pattern>, roots: seq<Node>,
                        fs: seq<Framing>, fs2: seq<Framing>)
    requires Lawful(site.codec) && Shares(roots) && SteadyFolders(fold, pats, roots)
    requires Framed(site.codec, UnitsFor(fold, pats, roots), fs) && Framed(site.codec, UnitsFor(fold, pats, roots), fs2)
    requires st.roots == {} && st2.roots == {}
    requires PassOk(site.codec, UnitsFor(fold, pats, roots), fs)
    requires st2.files == Settled(site, ClientTest(fold, pats),
                                  Sync(site, st, SessionBytes(site, st, UnitsFor(fold, pats, roots), fs)))
    ensures PassOk(site.codec, UnitsFor(fold, pats, roots), fs2)
    ensures var run := Sync(site, st2, SessionBytes(site, st2, UnitsFor(fold, pats, roots), fs2));
            run.Clean? && run.st.got == st2.got && run.st.bytes == st2.bytes
            && run.st.files == st2.files && Settled(site, ClientTest(fold, pats), run) == st2.files
  {
    hide Shares, SteadyFolders, Framed, PassOk, SessionBytes, Sync, Settled, M.Distinct, Steady, DocsOf, P.EventsOf,
        Datable, EventRoots, M.Roots;
    PassIsSound(site, fold, pats, roots, fs);
    PassIsSound(site, fold, pats, roots, fs2);
    SteadyDocs(fold, pats, roots);
    ResyncFetchesNothing(site, ClientTest(fold, pats), st, st2, UnitsFor(fold, pats, roots), fs, fs2);
  }
}
