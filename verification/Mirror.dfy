/** What a pass leaves on disk, path by path, the mirror step after a clean finish, and the
    convergence theorems that follow. */
module Mirror {
  import opened Text
  import opened Frames
  import opened Paths
  import opened Mtime
  import opened Receiver
  import opened Transcript

  // ------------------------------------------------------------------ the reference, path by path

  function At(files: Files, p: Path): Option<File> { if p in files then Some(files[p]) else None }

  function Target(site: Site, d: Doc): Option<Path> { SafeJoin(site.to, d.rel) }

  /** Does the path hold a copy of the offered file: a file of the offered length and time? */
  predicate Current(files: Files, p: Path, d: Doc) {
    p in files && |files[p].data| == d.size && ToTicks(files[p].modified) == d.mtime
  }

  /** What an offered file's target holds afterwards: the fetched content when there was no current copy
      and the source could be read, else what was there before. */
  function Landed(site: Site, before: Files, d: Doc, p: Path, stream: bool): Option<File> {
    if (stream || !Current(before, p, d)) && d.body.Some?
    then Some(File(d.body.value, FromTicks(d.mtime)))
    else At(before, p)
  }

  /** What any path holds afterwards, looking only at the state before. */
  function Expected(site: Site, before: Files, ds: seq<Doc>, p: Path, stream: bool): Option<File>
    decreases |ds|
  {
    if ds == [] then At(before, p)
    else if Target(site, ds[0]) == Some(p) then Landed(site, before, ds[0], p, stream)
    else Expected(site, before, ds[1..], p, stream)
  }

  function Targets(site: Site, ds: seq<Doc>): set<Path>
    decreases |ds|
  {
    if ds == [] then {}
    else (if Target(site, ds[0]).Some? then {Target(site, ds[0]).value} else {}) + Targets(site, ds[1..])
  }

  /** No two offered files share a target. */
  predicate Distinct(site: Site, ds: seq<Doc>)
    decreases |ds|
  {
    ds != [] ==>
      Distinct(site, ds[1..])
      && (Target(site, ds[0]).Some? ==> Target(site, ds[0]).value !in Targets(site, ds[1..]))
  }

  function DocRoots(site: Site, ds: seq<Doc>): set<Path>
    decreases |ds|
  {
    if ds == [] then {}
    else (if Target(site, ds[0]).Some? then RecordRoot(site.to, {}, ds[0].rel) else {}) + DocRoots(site, ds[1..])
  }

  function UnitRoots(site: Site, u: Unit): set<Path> {
    match u
    case Dir(rel) => if SafeJoin(site.to, rel).Some? then RecordRoot(site.to, {}, rel) else {}
    case _ => DocRoots(site, UnitDocs(u))
  }

  /** The mirror roots the safe names of some units record. */
  function Roots(site: Site, us: seq<Unit>): set<Path>
    decreases |us|
  {
    if us == [] then {} else UnitRoots(site, us[0]) + Roots(site, us[1..])
  }

  // ------------------------------------------------------------------ properties of the reference

  lemma {:induction false} ExpectedUntouched(site: Site, before: Files, ds: seq<Doc>, p: Path, stream: bool)
    requires p !in Targets(site, ds)
    ensures Expected(site, before, ds, p, stream) == At(before, p)
    decreases |ds|
  {
    if ds != [] {
      ExpectedUntouched(site, before, ds[1..], p, stream);
    }
  }

  lemma {:induction false} TargetsMember(site: Site, ds: seq<Doc>, i: nat)
    requires i < |ds| && Target(site, ds[i]).Some?
    ensures Target(site, ds[i]).value in Targets(site, ds)
    decreases |ds|
  {
    if i > 0 {
      TargetsMember(site, ds[1..], i - 1);
    }
  }

  lemma {:induction false} TargetsWitness(site: Site, ds: seq<Doc>, p: Path) returns (i: nat)
    requires p in Targets(site, ds)
    ensures i < |ds| && Target(site, ds[i]) == Some(p)
    decreases |ds|
  {
    if Target(site, ds[0]) == Some(p) {
      i := 0;
    } else {
      i := TargetsWitness(site, ds[1..], p);
      i := i + 1;
    }
  }

  lemma {:induction false} ExpectedAt(site: Site, before: Files, ds: seq<Doc>, i: nat, stream: bool)
    requires i < |ds| && Distinct(site, ds) && Target(site, ds[i]).Some?
    ensures Expected(site, before, ds, Target(site, ds[i]).value, stream)
            == Landed(site, before, ds[i], Target(site, ds[i]).value, stream)
    decreases |ds|
  {
    if i > 0 {
      TargetsMember(site, ds[1..], i - 1);
      ExpectedAt(site, before, ds[1..], i - 1, stream);
    }
  }

  lemma {:induction false} TargetsAppend(site: Site, xs: seq<Doc>, ys: seq<Doc>)
    ensures Targets(site, xs + ys) == Targets(site, xs) + Targets(site, ys)
    decreases |xs|
  {
    hide Target;
    if xs == [] {
      assert xs + ys == ys;
    } else {
      TargetsAppend(site, xs[1..], ys);
      assert (xs + ys)[1..] == xs[1..] + ys;
    }
  }

  lemma {:induction false} DistinctAppend(site: Site, xs: seq<Doc>, ys: seq<Doc>)
    ensures Distinct(site, xs + ys) <==>
            Distinct(site, xs) && Distinct(site, ys) && Targets(site, xs) !! Targets(site, ys)
    decreases |xs|
  {
    hide Target;
    if xs == [] {
      assert xs + ys == ys;
    } else {
      DistinctAppend(site, xs[1..], ys);
      TargetsAppend(site, xs[1..], ys);
      assert (xs + ys)[1..] == xs[1..] + ys;
    }
  }

  /** Two batches in a row: the second sees the first one's result, and since no target repeats,
      looking at the original state gives the same answer. */
  lemma {:induction false} ExpectedAppend(site: Site, before: Files, middle: Files,
                                          xs: seq<Doc>, ys: seq<Doc>, p: Path, stream: bool)
    requires Targets(site, xs) !! Targets(site, ys)
    requires forall q :: At(middle, q) == Expected(site, before, xs, q, stream)
    ensures Expected(site, before, xs + ys, p, stream) == Expected(site, middle, ys, p, stream)
  {
    if p in Targets(site, ys) {
      ExpectedUntouched(site, before, xs, p, stream);
      SkipPrefix(site, before, xs, ys, p, stream);
      SameAt(site, before, middle, ys, p, stream);
    } else {
      ExpectedUntouched(site, middle, ys, p, stream);
      IgnoreSuffix(site, before, xs, ys, p, stream);
    }
  }

  lemma {:induction false} SkipPrefix(site: Site, before: Files, xs: seq<Doc>, ys: seq<Doc>, p: Path, stream: bool)
    requires p !in Targets(site, xs)
    ensures Expected(site, before, xs + ys, p, stream) == Expected(site, before, ys, p, stream)
    decreases |xs|
  {
    hide Target, Landed, At;
    if xs == [] {
      assert xs + ys == ys;
    } else {
      assert (xs + ys)[1..] == xs[1..] + ys;
      SkipPrefix(site, before, xs[1..], ys, p, stream);
    }
  }

  lemma {:induction false} IgnoreSuffix(site: Site, before: Files, xs: seq<Doc>, ys: seq<Doc>, p: Path, stream: bool)
    requires p !in Targets(site, ys)
    ensures Expected(site, before, xs + ys, p, stream) == Expected(site, before, xs, p, stream)
    decreases |xs|
  {
    hide Target, Landed, At;
    if xs == [] {
      assert xs + ys == ys;
      ExpectedUntouched(site, before, ys, p, stream);
    } else {
      assert (xs + ys)[1..] == xs[1..] + ys;
      IgnoreSuffix(site, before, xs[1..], ys, p, stream);
    }
  }

  lemma {:induction false} SameAt(site: Site, f: Files, g: Files, ds: seq<Doc>, p: Path, stream: bool)
    requires At(f, p) == At(g, p)
    ensures Expected(site, f, ds, p, stream) == Expected(site, g, ds, p, stream)
    decreases |ds|
  {
    if ds != [] {
      SameAt(site, f, g, ds[1..], p, stream);
    }
  }

  // ------------------------------------------------------------------ one bundle

  /** The slot a file gets, as decided on the files before the bundle. */
  function SlotOf(site: Site, before: Files, d: Doc, stream: bool): Option<Slot> {
    match Target(site, d)
    case None => None
    case Some(p) => if stream || !Current(before, p, d) then Some(Slot(p, d.mtime)) else None
  }

  lemma PlanOneIs(site: Site, st: St, d: Doc, stream: bool)
    ensures var (st1, slot) := PlanOne(site, st, Some(EntryOf(d)), stream);
            st1.files == st.files && st1.dirs == st.dirs && st1.out == st.out
            && st1.seen == st.seen + Targets(site, [d])
            && st1.roots == st.roots + DocRoots(site, [d])
            && slot == SlotOf(site, st.files, d, stream)
  {
  }

  lemma {:induction false} PlanIs(site: Site, st: St, ds: seq<Doc>, stream: bool)
    ensures var (st1, slots) := Plan(site, st, Known(Entries(ds)), stream);
            st1.files == st.files && st1.dirs == st.dirs && st1.out == st.out
            && st1.seen == st.seen + Targets(site, ds)
            && st1.roots == st.roots + DocRoots(site, ds)
            && |slots| == |ds| && forall i | 0 <= i < |ds| :: slots[i] == SlotOf(site, st.files, ds[i], stream)
    decreases |ds|
  {
    if ds != [] {
      hide SafeJoin, RootOf, NeedFetch, PlanOne, SlotOf, RecordRoot, Target, Targets, DocRoots;
      var items := Known(Entries(ds));
      assert items[0] == Some(EntryOf(ds[0])) && items[1..] == Known(Entries(ds[1..]));
      PlanOneIs(site, st, ds[0], stream);
      var (st1, slot) := PlanOne(site, st, items[0], stream);
      PlanIs(site, st1, ds[1..], stream);
      OneThenMore(site, ds);
    }
  }

  lemma OneThenMore(site: Site, ds: seq<Doc>)
    requires ds != []
    ensures Targets(site, ds) == Targets(site, [ds[0]]) + Targets(site, ds[1..])
    ensures DocRoots(site, ds) == DocRoots(site, [ds[0]]) + DocRoots(site, ds[1..])
  {
    hide Target, RecordRoot;
    assert [ds[0]][1..] == [];
  }

  lemma {:induction false} MaskIs(slots: seq<Option<Slot>>)
    ensures forall i | 0 <= i < |slots| :: Mask(slots)[i] == if slots[i].Some? then '1' else '0'
  {
    if slots != [] { MaskIs(slots[1..]); }
  }

  /** Is the file asked for: does its name stay inside the destination, and is there no file of its length
      and time? */
  predicate Missing(site: Site, files: Files, d: Doc) {
    Target(site, d).Some? && !Current(files, Target(site, d).value, d)
  }

  /** What the client asks for: exactly the safe files it has no copy of that agrees in length and time. */
  lemma AsksIff(site: Site, st: St, ds: seq<Doc>, d: Doc)
    requires ds != []
    ensures var m := Reply(site, st, Bundle(ds));
            m.Some? && |m.value| == |ds|
            && forall i | 0 <= i < |ds| :: m.value[i] == if Missing(site, st.files, ds[i]) then '1' else '0'
    ensures Reply(site, st, Large(d)) == Some(if Missing(site, st.files, d) then "0" else "-1")
  {
    hide SafeJoin, ToTicks, Plan, Mask, Known, Entries;
    PlanIs(site, st, ds, false);
    MaskIs(Plan(site, st, Known(Entries(ds)), false).1);
  }

  lemma {:induction false} WriteAllIs(site: Site, before: Files, st: St, slots: seq<Option<Slot>>, ds: seq<Doc>,
      stream: bool)
    requires |slots| == |ds| && Distinct(site, ds)
    requires forall i | 0 <= i < |ds| :: slots[i] == SlotOf(site, before, ds[i], stream)
    requires forall p | p in Targets(site, ds) :: At(st.files, p) == At(before, p)
    ensures var r := WriteAll(st, slots, ds);
            r.dirs == st.dirs && r.out == st.out && r.seen == st.seen && r.roots == st.roots
            && forall p :: At(r.files, p) == if p in Targets(site, ds) then Expected(site, before, ds, p, stream)
                else At(st.files, p)
    decreases |ds|
  {
    if ds != [] {
      var st1 := if ds[0].body.None? then st else Placed(st, slots[0], ds[0].body.value);
      WriteAllIs(site, before, st1, slots[1..], ds[1..], stream);
    }
  }

  // ------------------------------------------------------------------ units

  /** A unit leaves every path as the reference says, and records exactly its safe names. */
  lemma ApplyIs(site: Site, st: St, u: Unit, stream: bool)
    requires Distinct(site, UnitDocs(u))
    ensures var r := Apply(site, st, u, stream);
            r.seen == st.seen + Targets(site, UnitDocs(u)) && r.roots == st.roots + UnitRoots(site, u)
            && forall p :: At(r.files, p) == Expected(site, st.files, UnitDocs(u), p, stream)
  {
    hide SafeJoin, RootOf, NeedFetch, Mask, Known, Entries;
    match u {
      case Dir(rel) =>
      case Bundle(ds) =>
        if ds != [] {
          PlanIs(site, st, ds, stream);
          var (st1, slots) := Plan(site, st, Known(Entries(ds)), stream);
          var st2 := if stream then st1 else Say(st1, Mask(slots));
          WriteAllIs(site, st.files, st2, slots, ds, stream);
          forall p | p !in Targets(site, ds) ensures Expected(site, st.files, ds, p, stream) == At(st.files, p) {
            ExpectedUntouched(site, st.files, ds, p, stream);
          }
        }
      case Large(d) =>
        LargeIs(site, st, d, stream);
    }
  }

  lemma LargeIs(site: Site, st: St, d: Doc, stream: bool)
    ensures var r := Apply(site, st, Large(d), stream);
            r.seen == st.seen + Targets(site, [d]) && r.roots == st.roots + DocRoots(site, [d])
            && forall p :: At(r.files, p) == Expected(site, st.files, [d], p, stream)
  {
    hide SafeJoin, RootOf, ToTicks;
    assert [d][1..] == [];
  }

  /** The effect theorem: after any units without repeated targets, every path holds what the
      reference says, `seen` is exactly the offered safe targets, and the mirror roots are exactly
      those of the safe names. */
  lemma {:induction false} ApplyAllIs(site: Site, st: St, us: seq<Unit>, stream: bool)
    requires Distinct(site, AllDocs(us))
    ensures var r := ApplyAll(site, st, us, stream);
            r.seen == st.seen + Targets(site, AllDocs(us)) && r.roots == st.roots + Roots(site, us)
            && forall p :: At(r.files, p) == Expected(site, st.files, AllDocs(us), p, stream)
    decreases |us|
  {
    hide Apply;
    if us != [] {
      var xs, ys := UnitDocs(us[0]), AllDocs(us[1..]);
      DistinctAppend(site, xs, ys);
      TargetsAppend(site, xs, ys);
      ApplyIs(site, st, us[0], stream);
      var st1 := Apply(site, st, us[0], stream);
      ApplyAllIs(site, st1, us[1..], stream);
      forall p ensures At(ApplyAll(site, st, us, stream).files, p) == Expected(site, st.files, xs + ys, p, stream) {
        ExpectedAppend(site, st.files, st1.files, xs, ys, p, stream);
      }
    }
  }
}
