/** The mirror step and the convergence theorems: after a clean finish the destination is the
    mirror of what was offered; after any other finish nothing was deleted; whatever the server
    sends, nothing outside the destination changes. */
module Convergence {
  import opened Text
  import opened Frames
  import opened Paths
  import opened Mtime
  import opened Receiver
  import opened Transcript
  import opened Mirror

  // ------------------------------------------------------------------ the mirror step

  /** The name of a path relative to the destination, as the mirror step tests it. */
  function RelOf(to: Path, p: Path): string { if |to| <= |p| then Join(p[|to|..], '/') else "" }

  predicate UnderRoot(roots: set<Path>, p: Path) { exists r | r in roots :: r < p }

  /** A file the mirror step removes: under a mirror root, not ignored, not offered. */
  predicate Stale(to: Path, ignored: string -> bool, seen: set<Path>, roots: set<Path>, p: Path) {
    UnderRoot(roots, p) && !ignored(RelOf(to, p)) && p !in seen
  }

  function MirrorDelete(to: Path, ignored: string -> bool, seen: set<Path>, roots: set<Path>, files: Files): Files {
    map p | p in files && !Stale(to, ignored, seen, roots, p) :: files[p]
  }

  /** A run's files after its mirror step, which only a clean run has. */
  function Settled(site: Site, ignored: string -> bool, f: Finish): Files {
    match f
    case Clean(st) => MirrorDelete(site.to, ignored, st.seen, st.roots, st.files)
    case _ => f.st.files
  }

  // ------------------------------------------------------------------ convergence

  /** What a path holds after offering `ds` and the mirror step: an offered target holds what
      landed there, any other non-ignored path under a root is gone, everything else is as before. */
  function Reconciled(site: Site, ignored: string -> bool, before: Files, ds: seq<Doc>, roots: set<Path>,
                      p: Path, stream: bool): Option<File> {
    if p in Targets(site, ds) then Expected(site, before, ds, p, stream)
    else if UnderRoot(roots, p) && !ignored(RelOf(site.to, p)) then None
    else At(before, p)
  }

  lemma DeleteReconciles(site: Site, ignored: string -> bool, st: St, us: seq<Unit>, p: Path, stream: bool)
    requires Distinct(site, AllDocs(us)) && st.seen == {}
    ensures var r := ApplyAll(site, st, us, stream);
            At(MirrorDelete(site.to, ignored, r.seen, r.roots, r.files), p)
            == Reconciled(site, ignored, st.files, AllDocs(us), st.roots + Roots(site, us), p, stream)
  {
    hide Apply, UnderRoot, RelOf, Expected, Targets, Roots;
    ApplyAllIs(site, st, us, stream);
    if p !in Targets(site, AllDocs(us)) {
      ExpectedUntouched(site, st.files, AllDocs(us), p, stream);
    }
  }

  /** SYNC convergence, from bytes to files: for every destination, every source without repeated
      targets and every framing the server may choose, the run over the session's bytes ends
      cleanly and every path of the destination is reconciled. */
  lemma SyncConverges(site: Site, ignored: string -> bool, st: St, us: seq<Unit>, fs: seq<Framing>, p: Path)
    requires Lawful(site.codec) && PassOk(site.codec, us, fs)
    requires Distinct(site, AllDocs(us)) && st.roots == {}
    ensures var run := Sync(site, st, SessionBytes(site, st, us, fs));
            run.Clean?
            && At(Settled(site, ignored, run), p)
               == Reconciled(site, ignored, st.files, AllDocs(us), Roots(site, us), p, false)
  {
    hide Reconciled, MirrorDelete, Apply;
    SessionRoundTrip(site, st, us, fs);
    DeleteReconciles(site, ignored, Say(st, "SYNC").(seen := {}), us, p, false);
    assert {} + Roots(site, us) == Roots(site, us);
  }

  /** The two-pass cutover: only what the LAST pass offered survives under the roots of either pass. */
  lemma CutoverConverges(site: Site, ignored: string -> bool, st: St, us: seq<Unit>, fs: seq<Framing>, pings: nat,
                         us2: seq<Unit>, fs2: seq<Framing>, p: Path)
    requires Lawful(site.codec) && PassOk(site.codec, us, fs) && PassOk(site.codec, us2, fs2)
    requires Distinct(site, AllDocs(us)) && Distinct(site, AllDocs(us2)) && st.roots == {}
    ensures var run := Sync(site, st, CutoverBytes(site, st, us, fs, pings, us2, fs2));
            var middle := ApplyAll(site, Say(st, "SYNC").(seen := {}), us, false).files;
            run.Clean?
            && At(middle, p) == Expected(site, st.files, AllDocs(us), p, false)
            && At(Settled(site, ignored, run), p)
               == Reconciled(site, ignored, middle, AllDocs(us2), Roots(site, us) + Roots(site, us2), p, false)
  {
    hide Reconciled, MirrorDelete, Apply, Expected;
    var st1 := Say(st, "SYNC").(seen := {});
    CutoverRoundTrip(site, st, us, fs, pings, us2, fs2);
    ApplyAllIs(site, st1, us, false);
    var st2 := ApplyAll(site, st1, us, false);
    DeleteReconciles(site, ignored, st2.(seen := {}), us2, p, false);
    assert {} + Roots(site, us) == Roots(site, us);
  }

  // ------------------------------------------------------------------ is it a mirror?

  /** A source whose files can all be read and whose announced sizes are true. */
  predicate Steady(ds: seq<Doc>) {
    forall i | 0 <= i < |ds| :: ds[i].body.Some? && |ds[i].body.value| == ds[i].size
                                && I64_MIN <= ds[i].mtime <= I64_MAX
  }

  /** Does the destination mirror the offered files below the roots? */
  ghost predicate Mirrors(site: Site, ignored: string -> bool, files: Files, ds: seq<Doc>, roots: set<Path>) {
    (forall i | 0 <= i < |ds| && Target(site, ds[i]).Some? :: Current(files, Target(site, ds[i]).value, ds[i]))
    && forall p | p in files && UnderRoot(roots, p) && !ignored(RelOf(site.to, p)) :: p in Targets(site, ds)
  }

  /** A time the file system gives back unchanged. */
  predicate Datable(d: Doc) { d.mtime >= EPOCH_TICKS }

  lemma LandedCurrent(site: Site, before: Files, d: Doc, p: Path, after: Files)
    requires d.body.Some? && |d.body.value| == d.size && I64_MIN <= d.mtime <= I64_MAX
    requires At(after, p) == Landed(site, before, d, p, false)
    ensures Current(after, p, d) <==> Current(before, p, d) || Datable(d)
  {
  }

  /** After reconciling a steady source the destination is its mirror exactly when every file that
      had to be fetched is dated 1970 or later: an older one can never be matched. */
  lemma MirrorIff(site: Site, ignored: string -> bool, before: Files, ds: seq<Doc>, roots: set<Path>, after: Files)
    requires Distinct(site, ds) && Steady(ds)
    requires forall p :: At(after, p) == Reconciled(site, ignored, before, ds, roots, p, false)
    ensures Mirrors(site, ignored, after, ds, roots) <==>
            forall i | 0 <= i < |ds| && Target(site, ds[i]).Some? ::
              Current(before, Target(site, ds[i]).value, ds[i]) || Datable(ds[i])
  {
    hide Current, SafeJoin, RelOf, Expected, Targets, Datable, Landed;
    forall i | 0 <= i < |ds| && Target(site, ds[i]).Some?
      ensures Current(after, Target(site, ds[i]).value, ds[i]) <==>
              Current(before, Target(site, ds[i]).value, ds[i]) || Datable(ds[i])
    {
      var p := Target(site, ds[i]).value;
      TargetsMember(site, ds, i);
      ExpectedAt(site, before, ds, i, false);
      LandedCurrent(site, before, ds[i], p, after);
    }
    forall p | p in after && UnderRoot(roots, p) && !ignored(RelOf(site.to, p)) ensures p in Targets(site, ds) {
      assert At(after, p).Some?;
    }
  }

  // ------------------------------------------------------------------ the second run

  /** Nothing is wanted: every safe offer matches the local file. */
  predicate AllMatch(site: Site, files: Files, ds: seq<Doc>) {
    forall i | 0 <= i < |ds| && Target(site, ds[i]).Some? :: Current(files, Target(site, ds[i]).value, ds[i])
  }

  lemma {:induction false} NothingWanted(site: Site, files: Files, ds: seq<Doc>, p: Path)
    requires AllMatch(site, files, ds)
    ensures Expected(site, files, ds, p, false) == At(files, p)
    decreases |ds|
  {
    if ds != [] {
      NothingWanted(site, files, ds[1..], p);
    }
  }

  /** A re-sync of an unchanged, steady, datable source is a no-op: the second run leaves every path
      as it was. Without the date condition it is not: see `OldFileNeverSettles`. */
  lemma ResyncIsNoOp(site: Site, ignored: string -> bool, before: Files, ds: seq<Doc>, roots: set<Path>,
                     once: Files, twice: Files)
    requires Distinct(site, ds) && Steady(ds) && forall i | 0 <= i < |ds| :: Datable(ds[i])
    requires forall p :: At(once, p) == Reconciled(site, ignored, before, ds, roots, p, false)
    requires forall p :: At(twice, p) == Reconciled(site, ignored, once, ds, roots, p, false)
    ensures twice == once && AllMatch(site, once, ds)
  {
    hide SafeJoin, RelOf, Datable, Expected, Targets, Current;
    MirrorIff(site, ignored, before, ds, roots, once);
    assert AllMatch(site, once, ds);
    forall p ensures At(twice, p) == At(once, p) {
      NothingWanted(site, once, ds, p);
    }
    SameFiles(once, twice);
  }

  /** How many of some offers have a safe name. */
  function SafeCount(site: Site, ds: seq<Doc>): nat
    decreases |ds|
  {
    if ds == [] then 0 else (if Target(site, ds[0]).Some? then 1 else 0) + SafeCount(site, ds[1..])
  }

  /** Only counted: nothing is wanted of a file the client has. */
  lemma HeldIsCounted(site: Site, st: St, d: Doc)
    requires AllMatch(site, st.files, [d])
    ensures var (st1, slot) := PlanOne(site, st, Some(EntryOf(d)), false);
            slot == None && st1.files == st.files && st1.got == st.got && st1.bytes == st.bytes
            && st1.skipped == st.skipped + SafeCount(site, [d])
  {
    hide SafeJoin, RootOf, ToTicks;
    assert [d][0] == d && [d][1..] == [];
  }

  lemma {:induction false} PlanHeld(site: Site, st: St, ds: seq<Doc>)
    requires AllMatch(site, st.files, ds)
    ensures var (st1, slots) := Plan(site, st, Known(Entries(ds)), false);
            (forall i | 0 <= i < |slots| :: slots[i] == None)
            && st1.files == st.files && st1.got == st.got && st1.bytes == st.bytes
            && st1.skipped == st.skipped + SafeCount(site, ds)
    decreases |ds|
  {
    hide SafeJoin, RootOf, NeedFetch, PlanOne, Target, Current;
    if ds != [] {
      var items := Known(Entries(ds));
      assert items[0] == Some(EntryOf(ds[0])) && items[1..] == Known(Entries(ds[1..]));
      assert AllMatch(site, st.files, [ds[0]]) && AllMatch(site, st.files, ds[1..]);
      HeldIsCounted(site, st, ds[0]);
      PlanHeld(site, PlanOne(site, st, items[0], false).0, ds[1..]);
      assert [ds[0]][1..] == [];
    }
  }

  lemma {:induction false} WriteNone(st: St, slots: seq<Option<Slot>>, ds: seq<Doc>)
    requires |slots| == |ds| && forall i | 0 <= i < |slots| :: slots[i] == None
    ensures WriteAll(st, slots, ds) == st
    decreases |ds|
  {
    if ds != [] {
      WriteNone(st, slots[1..], ds[1..]);
    }
  }

  lemma UnitHeld(site: Site, st: St, u: Unit)
    requires AllMatch(site, st.files, UnitDocs(u))
    ensures var r := Apply(site, st, u, false);
            r.files == st.files && r.got == st.got && r.bytes == st.bytes
            && r.skipped == st.skipped + SafeCount(site, UnitDocs(u))
  {
    hide SafeJoin, RootOf, NeedFetch, Plan, PlanOne, WriteAll, Mask, Known, Entries;
    match u {
      case Dir(_) =>
      case Bundle(ds) =>
        if ds != [] {
          PlanHeld(site, st, ds);
          var (st1, slots) := Plan(site, st, Known(Entries(ds)), false);
          WriteNone(Say(st1, Mask(slots)), slots, ds);
        }
      case Large(d) => HeldIsCounted(site, st, d);
    }
  }

  lemma {:induction false} SafeCountAppend(site: Site, xs: seq<Doc>, ys: seq<Doc>)
    ensures SafeCount(site, xs + ys) == SafeCount(site, xs) + SafeCount(site, ys)
    decreases |xs|
  {
    hide Target;
    if xs == [] {
      assert xs + ys == ys;
    } else {
      assert (xs + ys)[1..] == xs[1..] + ys;
      SafeCountAppend(site, xs[1..], ys);
    }
  }

  lemma {:induction false} UnitsHeld(site: Site, st: St, us: seq<Unit>)
    requires AllMatch(site, st.files, AllDocs(us))
    ensures var r := ApplyAll(site, st, us, false);
            r.files == st.files && r.got == st.got && r.bytes == st.bytes
            && r.skipped == st.skipped + SafeCount(site, AllDocs(us))
    decreases |us|
  {
    hide Apply, Target, Current, SafeCount;
    if us == [] {
      NoneSafe(site);
    } else {
      var xs, ys := UnitDocs(us[0]), AllDocs(us[1..]);
      assert AllDocs(us) == xs + ys;
      forall i | 0 <= i < |xs| ensures xs[i] == (xs + ys)[i] {}
      forall i | 0 <= i < |ys| ensures ys[i] == (xs + ys)[|xs| + i] {}
      assert AllMatch(site, st.files, xs) && AllMatch(site, st.files, ys);
      UnitHeld(site, st, us[0]);
      UnitsHeld(site, Apply(site, st, us[0], false), us[1..]);
      SafeCountAppend(site, xs, ys);
    }
  }

  lemma NoneSafe(site: Site)
    ensures SafeCount(site, []) == 0
  {
  }

  /** The second run: over an unchanged, steady, datable source it ends cleanly, fetches nothing, counts every
      safe offer as unchanged, and leaves every file as it was, so its mirror step deletes nothing. */
  lemma ResyncFetchesNothing(site: Site, ignored: string -> bool, st: St, st2: St, us: seq<Unit>,
                             fs: seq<Framing>, fs2: seq<Framing>)
    requires Lawful(site.codec) && PassOk(site.codec, us, fs) && PassOk(site.codec, us, fs2)
    requires Distinct(site, AllDocs(us)) && Steady(AllDocs(us))
    requires forall i | 0 <= i < |AllDocs(us)| :: Datable(AllDocs(us)[i])
    requires st.roots == {} && st2.roots == {}
    requires st2.files == Settled(site, ignored, Sync(site, st, SessionBytes(site, st, us, fs)))
    ensures var run := Sync(site, st2, SessionBytes(site, st2, us, fs2));
            run.Clean?
            && run.st.got == st2.got && run.st.bytes == st2.bytes
            && run.st.skipped == st2.skipped + SafeCount(site, AllDocs(us))
            && run.st.files == st2.files && Settled(site, ignored, run) == st2.files
  {
    hide Apply, Reconciled, Sync, Settled, PassOk, SessionBytes, Steady, Distinct, Roots, AllMatch, SafeCount;
    var run := Sync(site, st2, SessionBytes(site, st2, us, fs2));
    forall p
      ensures At(st2.files, p) == Reconciled(site, ignored, st.files, AllDocs(us), Roots(site, us), p, false)
      ensures At(Settled(site, ignored, run), p)
              == Reconciled(site, ignored, st2.files, AllDocs(us), Roots(site, us), p, false)
    {
      SyncConverges(site, ignored, st, us, fs, p);
      SyncConverges(site, ignored, st2, us, fs2, p);
    }
    ResyncIsNoOp(site, ignored, st.files, AllDocs(us), Roots(site, us), st2.files, Settled(site, ignored, run));
    SessionRoundTrip(site, st2, us, fs2);
    UnitsHeld(site, Say(st2, "SYNC").(seen := {}), us);
  }

  lemma SameFiles(f: Files, g: Files)
    requires forall p :: At(f, p) == At(g, p)
    ensures f == g
  {
    forall p ensures p in f <==> p in g {
      assert At(f, p) == At(g, p);
    }
    forall p | p in f ensures f[p] == g[p] {
      assert At(f, p) == At(g, p);
    }
  }

  /** A fetched file dated before 1970 is fetched again by every later run. */
  lemma OldFileNeverSettles(site: Site, before: Files, d: Doc, p: Path, after: Files)
    requires d.body.Some? && |d.body.value| == d.size && I64_MIN <= d.mtime < EPOCH_TICKS
    requires !Current(before, p, d) && At(after, p) == Landed(site, before, d, p, false)
    ensures !Current(after, p, d)
  {
  }

  // ------------------------------------------------------------------ streaming

  /** On an empty destination streaming asks for the same files as masks do: the two protocols end
      in the same files, `seen` set and roots. */
  lemma StreamRefinesMasks(site: Site, st: St, us: seq<Unit>)
    requires Distinct(site, AllDocs(us)) && st.files == map[]
    ensures var a, b := ApplyAll(site, st, us, true), ApplyAll(site, st, us, false);
            a.files == b.files && a.seen == b.seen && a.roots == b.roots
  {
    hide Apply, Expected;
    ApplyAllIs(site, st, us, true);
    ApplyAllIs(site, st, us, false);
    var a, b := ApplyAll(site, st, us, true), ApplyAll(site, st, us, false);
    forall p ensures At(a.files, p) == At(b.files, p) {
      EmptyWantsAll(site, AllDocs(us), p);
    }
    SameFiles(a.files, b.files);
  }

  lemma {:induction false} EmptyWantsAll(site: Site, ds: seq<Doc>, p: Path)
    ensures Expected(site, map[], ds, p, true) == Expected(site, map[], ds, p, false)
    decreases |ds|
  {
    if ds != [] {
      EmptyWantsAll(site, ds[1..], p);
    }
  }
}
