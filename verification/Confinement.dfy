/** What no server can make the client do, whatever bytes it sends. */
module Confinement {
  import opened Text
  import opened Wire
  import opened Frames
  import opened Paths
  import opened Receiver
  import opened Mirror
  import opened Convergence

  /** From `a` to `b` no file disappeared, nothing outside the destination changed, and everything
      newly recorded lies inside it. */
  ghost predicate Confined(to: Path, a: St, b: St) {
    (forall p | p in a.files :: p in b.files)
    && (forall p | !Under(to, p) :: At(a.files, p) == At(b.files, p))
    && (forall p | p in b.dirs :: p in a.dirs || Under(to, p))
    && (forall p | p in b.seen :: p in a.seen || Under(to, p))
    && (forall p | p in b.roots :: p in a.roots || ChildOf(to, p))
  }

  predicate ChildOf(to: Path, p: Path) { |p| == |to| + 1 && to < p }

  lemma ConfinedTrans(to: Path, a: St, b: St, c: St)
    requires Confined(to, a, b) && Confined(to, b, c)
    ensures Confined(to, a, c)
  {
  }

  lemma RecordRootConfined(to: Path, roots: set<Path>, rel: string)
    ensures forall p | p in RecordRoot(to, roots, rel) :: p in roots || ChildOf(to, p)
  {
    RootIsChild(to, rel);
  }

  lemma NoteConfined(site: Site, st: St, rel: string, p: Path)
    requires SafeJoin(site.to, rel) == Some(p)
    ensures Confined(site.to, st, Note(site, st, rel, p))
  {
    RecordRootConfined(site.to, st.roots, rel);
  }

  lemma {:induction false} PlanConfined(site: Site, st: St, items: seq<Option<Entry>>, stream: bool)
    ensures var (st1, slots) := Plan(site, st, items, stream);
            Confined(site.to, st, st1) && SlotsUnder(site.to, slots)
    decreases |items|
  {
    if items != [] {
      hide NeedFetch, RecordRoot, Note, SafeJoin, Confined;
      var (st1, slot) := PlanOne(site, st, items[0], stream);
      PlanOneConfined(site, st, items[0], stream);
      PlanConfined(site, st1, items[1..], stream);
      var (st2, slots) := Plan(site, st1, items[1..], stream);
      ConfinedTrans(site.to, st, st1, st2);
    } else {
      Same(site.to, st);
    }
  }

  lemma Same(to: Path, st: St)
    ensures Confined(to, st, st)
  {
  }

  predicate SlotsUnder(to: Path, slots: seq<Option<Slot>>) {
    forall i | 0 <= i < |slots| :: slots[i].Some? ==> Under(to, slots[i].value.path)
  }

  lemma PlanOneConfined(site: Site, st: St, it: Option<Entry>, stream: bool)
    ensures var (st1, slot) := PlanOne(site, st, it, stream);
            Confined(site.to, st, st1) && SlotsUnder(site.to, [slot])
  {
    hide NeedFetch, RootOf;
    if it.Some? && SafeJoin(site.to, it.value.rel).Some? {
      NoteConfined(site, st, it.value.rel, SafeJoin(site.to, it.value.rel).value);
    }
  }

  lemma PlacedConfined(site: Site, st: St, slot: Option<Slot>, data: string)
    requires SlotsUnder(site.to, [slot])
    ensures Confined(site.to, st, Placed(st, slot, data)) && Confined(site.to, st, Broken(site, st, slot, data))
  {
    assert [slot][0] == slot;
  }

  lemma {:induction false} BodiesConfined(site: Site, st: St, slots: seq<Option<Slot>>, s: string, stream: bool)
    requires SlotsUnder(site.to, slots)
    ensures Confined(site.to, st, Bodies(site, st, slots, s, stream).st)
    decreases |slots|
  {
    hide Confined, RecvBundleFile, Line, AfterLine, Placed, Broken;
    Same(site.to, st);
    if slots != [] {
      if slots[0].None? && !stream {
        BodiesConfined(site, st, slots[1..], s, stream);
      } else if s != "" {
        if Line(s) == "-1" {
          BodiesConfined(site, st, slots[1..], AfterLine(s), stream);
        } else {
          match RecvBundleFile(site.codec, Line(s), AfterLine(s))
          case Cut(partial) => PlacedConfined(site, st, slots[0], partial);
          case Got(data, rest) =>
            PlacedConfined(site, st, slots[0], data);
            var st1 := Placed(st, slots[0], data);
            BodiesConfined(site, st1, slots[1..], rest, stream);
            ConfinedTrans(site.to, st, st1, Bodies(site, st1, slots[1..], rest, stream).st);
        }
      }
    }
  }

  lemma SayConfined(to: Path, st: St, l: string, n: nat)
    ensures Confined(to, st, Say(st, l)) && Confined(to, st, Say(st, l).(skipped := n))
  {
  }

  lemma BundleConfined(site: Site, st: St, count: nat, s: string, stream: bool)
    ensures Confined(site.to, st, HandleBundle(site, st, count, s, stream).st)
  {
    hide Confined, Bodies, Plan, ReadLines, ParseAll, Mask;
    Same(site.to, st);
    match ReadLines(count, s)
    case None =>
    case Some((ls, t)) =>
      var (st1, slots) := Plan(site, st, ParseAll(ls), stream);
      PlanConfined(site, st, ParseAll(ls), stream);
      SayConfined(site.to, st1, Mask(slots), 0);
      var st2 := if stream then st1 else Say(st1, Mask(slots));
      ConfinedTrans(site.to, st, st1, st2) by { Same(site.to, st1); }
      BodiesConfined(site, st2, slots, t, stream);
      ConfinedTrans(site.to, st, st2, Bodies(site, st2, slots, t, stream).st);
  }

  lemma LargeBodyConfined(site: Site, st: St, slot: Option<Slot>, s: string)
    requires SlotsUnder(site.to, [slot])
    ensures Confined(site.to, st, LargeBody(site, st, slot, s).st)
  {
    hide Confined, RecvBody, Line, AfterLine, Placed, Broken;
    Same(site.to, st);
    if s != "" && Line(s) != "-1" {
      match RecvBody(site.codec, Line(s), AfterLine(s))
      case Cut(partial) => PlacedConfined(site, st, slot, partial);
      case Got(data, rest) => PlacedConfined(site, st, slot, data);
    }
  }

  lemma LargeConfined(site: Site, st: St, e: Entry, s: string, stream: bool)
    ensures Confined(site.to, st, HandleLarge(site, st, e, s, stream).st)
  {
    hide Confined, LargeBody, NeedFetch, Note, Say;
    match SafeJoin(site.to, e.rel)
    case None =>
      SayConfined(site.to, st, "-1", 0);
      LargeBodyConfined(site, st, None, s);
    case Some(p) =>
      var st1, slot := Note(site, st, e.rel, p), Some(Slot(p, e.mtime));
      NoteConfined(site, st, e.rel, p);
      SayConfined(site.to, st1, "-1", st1.skipped + 1);
      SayConfined(site.to, st1, "0", 0);
      LargeBodyConfined(site, st1, slot, s);
      LargeBodyConfined(site, Say(st1, "0"), slot, s);
      ConfinedTrans(site.to, st, st1, LargeBody(site, st1, slot, s).st);
      ConfinedTrans(site.to, st, st1, Say(st1, "0"));
      ConfinedTrans(site.to, st, Say(st1, "0"), LargeBody(site, Say(st1, "0"), slot, s).st);
      SkippedLate(site.to, st, st1);
  }

  lemma SkippedLate(to: Path, st: St, st1: St)
    requires Confined(to, st, st1)
    ensures Confined(to, st, Say(st1, "-1").(skipped := Say(st1, "-1").skipped + 1))
    ensures Confined(to, st, Say(st1, "-1").(skipped := st1.skipped + 1))
  {
  }

  lemma DirConfined(site: Site, st: St, rel: string)
    ensures Confined(site.to, st, HandleDir(site, st, rel))
  {
    RecordRootConfined(site.to, st.roots, rel);
  }

  lemma DispatchConfined(site: Site, st: St, h: string, s: string, stream: bool)
    ensures Confined(site.to, st, Dispatch(site, st, h, s, stream).st)
  {
    hide Confined, HandleDir, HandleBundle, HandleLarge, Trim;
    Same(site.to, st);
    if StartsWith(h, "D ") {
      DirConfined(site, st, h[2..]);
    } else if StartsWith(h, "B ") {
      BundleConfined(site, st, OrElse(ParseU64(Trim(h[2..])), 0), s, stream);
    } else if StartsWith(h, "F ") {
      match ParseThree(h[2..])
      case None =>
      case Some(e) => LargeConfined(site, st, e, s, stream);
    }
  }

  // ------------------------------------------------------------------ whole runs on any stream

  lemma {:induction false} ItemsConfined(site: Site, st: St, s: string)
    ensures Confined(site.to, st, Items(site, st, s).st)
    decreases |s|
  {
    hide Confined, Dispatch, Line, AfterLine;
    Same(site.to, st);
    if s != "" {
      var h, t := Line(s), AfterLine(s);
      if h == "PASS-END" {
        BetweenConfined(site, st, t);
      } else if h == "PING" || StartsWith(h, "T ") {
        ItemsConfined(site, st, t);
      } else {
        DispatchConfined(site, st, h, t, false);
        match Dispatch(site, st, h, t, false)
        case Halt(st1) =>
        case Go(st1, u) =>
          ItemsConfined(site, st1, u);
          ConfinedTrans(site.to, st, st1, Items(site, st1, u).st);
      }
    }
  }

  lemma {:induction false} BetweenConfined(site: Site, st: St, s: string)
    ensures Confined(site.to, st, Between(site, st, s).st)
    decreases |s|
  {
    hide Confined, Line, AfterLine;
    Same(site.to, st);
    if s != "" {
      var h, t := Line(s), AfterLine(s);
      if h == "PING" {
        BetweenConfined(site, st, t);
      } else if h == "GO" {
        var st1 := st.(seen := {});
        ItemsConfined(site, st1, t);
        ClearSeen(site.to, st, Items(site, st1, t).st);
      }
    }
  }

  lemma ClearSeen(to: Path, st: St, b: St)
    requires Confined(to, st.(seen := {}), b)
    ensures Confined(to, st, b)
  {
  }

  /** A parallel stream is confined in the same way. */
  lemma {:induction false} UnitsConfined(site: Site, st: St, s: string, stream: bool, n: nat)
    ensures Confined(site.to, st, Units(site, st, s, stream, n).0)
    decreases |s|
  {
    hide Confined, Dispatch, Line, AfterLine;
    Same(site.to, st);
    if s != "" {
      var h, t := Line(s), AfterLine(s);
      if h == "PING" {
        UnitsConfined(site, st, t, stream, n);
      } else if h != "NOUNIT" {
        DispatchConfined(site, st, h, t, stream);
        match Dispatch(site, st, h, t, stream)
        case Halt(st1) =>
        case Go(st1, u) =>
          UnitsConfined(site, st1, u, stream, n + 1);
          ConfinedTrans(site.to, st, st1, Units(site, st1, u, stream, n + 1).0);
      }
    }
  }

  /** Whatever bytes arrive: a run that does not end with `DONE` deletes nothing, and even a clean
      one neither writes nor deletes anything outside the destination. */
  lemma AnyStreamIsConfined(site: Site, ignored: string -> bool, st: St, s: string)
    requires st.roots == {}
    ensures var run := Sync(site, st, s); var after := Settled(site, ignored, run);
            (!run.Clean? ==> forall p | p in st.files :: p in after)
            && (forall p | !Under(site.to, p) :: At(after, p) == At(st.files, p))
            && forall p | p in st.files && p !in after :: UnderRoot(run.st.roots, p) && !ignored(RelOf(site.to, p))
  {
    hide Confined, Items, UnderRoot, RelOf;
    var st1 := Say(st, "SYNC").(seen := {});
    var run := Sync(site, st, s);
    ItemsConfined(site, st1, s);
    assert Confined(site.to, st1, run.st);
    ConfinedFacts(site.to, st1, run.st);
    if run.Clean? {
      BelowARootIsBelow(site.to, run.st.roots);
    }
  }

  lemma ConfinedFacts(to: Path, a: St, b: St)
    requires Confined(to, a, b)
    ensures forall p | p in a.files :: p in b.files
    ensures forall p | !Under(to, p) :: At(a.files, p) == At(b.files, p)
    ensures forall p | p in b.roots :: p in a.roots || ChildOf(to, p)
  {
  }

  lemma BelowARootIsBelow(to: Path, roots: set<Path>)
    requires forall r | r in roots :: ChildOf(to, r)
    ensures forall p | UnderRoot(roots, p) :: Under(to, p)
  {
  }
}
