/** Batching the walk's files into units of work. */
module Bundling {
  import opened Text
  import opened Transcript
  import opened Tree

  const SMALL_FILE: nat := 1048576
  const BUNDLE_BYTES: nat := 10485760
  const BUNDLE_MAX_COUNT: nat := 4096

  function DocOf(e: Event): Doc
    requires e.FileAt?
  {
    Doc(Join(e.segs, '/'), e.meta.size, e.meta.mtime, e.meta.body)
  }

  function Sum(ds: seq<Doc>): nat { if ds == [] then 0 else Sum(ds[..|ds| - 1]) + ds[|ds| - 1].size }

  /** Must a pending bundle go out now? */
  predicate Full(ds: seq<Doc>) { Sum(ds) >= BUNDLE_BYTES || |ds| >= BUNDLE_MAX_COUNT }

  function Flush(pending: seq<Doc>): seq<Unit> { if pending == [] then [] else [Bundle(pending)] }

  /** What one event emits, some small files already pending, and what is pending then. A directory
      is announced at once, ahead of the pending files. */
  function Emit(pending: seq<Doc>, e: Event): (seq<Unit>, seq<Doc>) {
    match e
    case DirAt(segs) => ([Dir(Join(segs, '/'))], pending)
    case FileAt(_, _) =>
      var d := DocOf(e);
      if d.size > SMALL_FILE then (Flush(pending) + [Large(d)], [])
      else if Full(pending + [d]) then ([Bundle(pending + [d])], [])
      else ([], pending + [d])
  }

  /** The units a sequence of events becomes. */
  function UnitsOf(evs: seq<Event>, pending: seq<Doc>): seq<Unit>
    decreases |evs|
  {
    if evs == [] then Flush(pending)
    else var (us, p) := Emit(pending, evs[0]); us + UnitsOf(evs[1..], p)
  }

  function DocsAt(e: Event): seq<Doc> { if e.FileAt? then [DocOf(e)] else [] }

  function DocsOf(evs: seq<Event>): seq<Doc>
    decreases |evs|
  {
    if evs == [] then [] else DocsAt(evs[0]) + DocsOf(evs[1..])
  }

  // ------------------------------------------------------------------ an order-preserving partition

  lemma {:induction false} AllDocsAppend(xs: seq<Unit>, ys: seq<Unit>)
    ensures AllDocs(xs + ys) == AllDocs(xs) + AllDocs(ys)
    decreases |xs|
  {
    if xs == [] {
      assert xs + ys == ys;
    } else {
      assert (xs + ys)[1..] == xs[1..] + ys;
      AllDocsAppend(xs[1..], ys);
    }
  }

  lemma FlushDocs(pending: seq<Doc>)
    ensures AllDocs(Flush(pending)) == pending
  {
  }

  lemma EmitDocs(pending: seq<Doc>, e: Event)
    ensures var (us, p) := Emit(pending, e); AllDocs(us) + p == pending + DocsAt(e)
  {
    hide DocOf, Full;
    if e.FileAt? {
      var d := DocOf(e);
      assert [Large(d)][1..] == [] && [Bundle(pending + [d])][1..] == [];
      AllDocsAppend(Flush(pending), [Large(d)]);
      FlushDocs(pending);
    } else {
      assert [Dir(Join(e.segs, '/'))][1..] == [];
    }
  }

  /** Flattening the units gives the files back, in the order of the walk: none is lost, repeated
      or moved. */
  lemma {:induction false} FlattenUnits(evs: seq<Event>, pending: seq<Doc>)
    ensures AllDocs(UnitsOf(evs, pending)) == pending + DocsOf(evs)
    decreases |evs|
  {
    hide Emit, AllDocs, DocsAt;
    if evs == [] {
      FlushDocs(pending);
    } else {
      var (us, p) := Emit(pending, evs[0]);
      var more := DocsOf(evs[1..]);
      EmitDocs(pending, evs[0]);
      FlattenUnits(evs[1..], p);
      AllDocsAppend(us, UnitsOf(evs[1..], p));
      assert AllDocs(us) + (p + more) == AllDocs(us) + p + more;
      assert pending + DocsAt(evs[0]) + more == pending + (DocsAt(evs[0]) + more);
    }
  }

  // ------------------------------------------------------------------ a bundle leaves when it has to

  /** Enough for a bundle: 4096 files or 10 MiB. */
  predicate Filled(ds: seq<Doc>) { |ds| >= 4096 || Sum(ds) >= 10485760 }

  /** No part of it from the front was enough. */
  predicate JustFilled(ds: seq<Doc>) { forall k: nat | k < |ds| :: !Filled(ds[..k]) }

  /** A bundle goes out in the last moment: it is full, or the walk is over, or a large file comes. */
  predicate Timely(us: seq<Unit>, i: nat)
    requires i < |us|
  {
    us[i].Bundle? ==>
      JustFilled(us[i].docs) && (Filled(us[i].docs) || i == |us| - 1 || us[i + 1].Large?)
  }

  lemma OneMoreFile(ds: seq<Doc>, d: Doc)
    requires JustFilled(ds) && !Filled(ds)
    ensures JustFilled(ds + [d])
  {
    forall k: nat | k < |ds + [d]| ensures !Filled((ds + [d])[..k]) {
      assert (ds + [d])[..k] == if k < |ds| then ds[..k] else ds;
    }
  }

  lemma EmitTimely(pending: seq<Doc>, e: Event)
    requires JustFilled(pending) && !Filled(pending)
    ensures var (us, p) := Emit(pending, e);
            JustFilled(p) && !Filled(p) && (us == [] || !us[|us| - 1].Bundle? || Filled(us[|us| - 1].docs))
            && forall i | 0 <= i < |us| :: Timely(us, i)
  {
    hide DocOf, Sum;
    SumSnoc(pending, Doc("", 0, 0, None));
    assert Sum([]) == 0;
    if e.FileAt? { OneMoreFile(pending, DocOf(e)); }
  }

  /** Every bundle of a walk goes out in the last moment. */
  lemma {:induction false} UnitsTimely(evs: seq<Event>, pending: seq<Doc>)
    requires JustFilled(pending) && !Filled(pending)
    ensures forall i | 0 <= i < |UnitsOf(evs, pending)| :: Timely(UnitsOf(evs, pending), i)
    decreases |evs|
  {
    if evs != [] {
      hide Emit, Filled, JustFilled;
      var (us, p) := Emit(pending, evs[0]);
      var more := UnitsOf(evs[1..], p);
      EmitTimely(pending, evs[0]);
      UnitsTimely(evs[1..], p);
      forall i | 0 <= i < |us + more| ensures Timely(us + more, i) {
        if i < |us| { assert Timely(us, i); } else { assert Timely(more, i - |us|); }
      }
    }
  }

  // ------------------------------------------------------------------ sizes

  /** What is pending between two files: small files that do not fill a bundle. */
  predicate Pending(ds: seq<Doc>) {
    !Full(ds) && forall i | 0 <= i < |ds| :: ds[i].size <= SMALL_FILE
  }

  /** A bundle on its way: never empty, at most 4096 files of at most 1 MiB, under 11 MiB in all; a
      large file really is one. */
  predicate Sized(u: Unit) {
    match u
    case Dir(_) => true
    case Bundle(ds) =>
      0 < |ds| <= 4096 && Sum(ds) < 10485760 + 1048576
      && forall i | 0 <= i < |ds| :: ds[i].size <= 1048576
    case Large(d) => d.size > 1048576
  }

  lemma {:induction false} UnitsSized(evs: seq<Event>, pending: seq<Doc>)
    requires Pending(pending)
    ensures forall i | 0 <= i < |UnitsOf(evs, pending)| :: Sized(UnitsOf(evs, pending)[i])
    decreases |evs|
  {
    if evs != [] {
      hide Sized, Pending, Emit;
      EmitSized(pending, evs[0]);
      UnitsSized(evs[1..], Emit(pending, evs[0]).1);
    } else {
      FlushSized(pending);
    }
  }

  lemma FlushSized(pending: seq<Doc>)
    requires Pending(pending)
    ensures forall i | 0 <= i < |Flush(pending)| :: Sized(Flush(pending)[i])
  {
  }

  lemma SumSnoc(ds: seq<Doc>, d: Doc)
    ensures Sum(ds + [d]) == Sum(ds) + d.size && Sum([]) == 0
  {
  }

  lemma EmitSized(pending: seq<Doc>, e: Event)
    requires Pending(pending)
    ensures var (us, p) := Emit(pending, e); Pending(p) && forall i | 0 <= i < |us| :: Sized(us[i])
  {
    hide DocOf, Sum;
    FlushSized(pending);
    if e.FileAt? {
      SumSnoc(pending, DocOf(e));
    }
  }

  /** The announced directories, in order. */
  function DirsOf(us: seq<Unit>): seq<string> {
    if us == [] then [] else (if us[0].Dir? then [us[0].rel] else []) + DirsOf(us[1..])
  }

  function MarksOf(evs: seq<Event>): seq<string> {
    if evs == [] then [] else (if evs[0].DirAt? then [Join(evs[0].segs, '/')] else []) + MarksOf(evs[1..])
  }

  lemma {:induction false} DirsAppend(xs: seq<Unit>, ys: seq<Unit>)
    ensures DirsOf(xs + ys) == DirsOf(xs) + DirsOf(ys)
    decreases |xs|
  {
    if xs == [] {
      assert xs + ys == ys;
    } else {
      assert (xs + ys)[1..] == xs[1..] + ys;
      DirsAppend(xs[1..], ys);
    }
  }

  /** The directories come out in the order of the walk as well. */
  lemma {:induction false} FlattenDirs(evs: seq<Event>, pending: seq<Doc>)
    ensures DirsOf(UnitsOf(evs, pending)) == MarksOf(evs)
    decreases |evs|
  {
    if evs != [] {
      var (us, p) := Emit(pending, evs[0]);
      assert |us| >= 1 ==> us[1..] == [] || |us| == 2;
      FlattenDirs(evs[1..], p);
      DirsAppend(us, UnitsOf(evs[1..], p));
    }
  }
}
