/** The walk of the shared folders as the server runs it: an explicit stack, entries classified in a
    loop, files batched in place. Proved against the walk and batching functions of `Tree` and
    `Bundling`. */
module Producer {
  import opened Text
  import opened Transcript
  import opened Tree
  import opened Bundling
  import Ignore

  /** A file's content has a machine-sized length. */
  predicate ReadableDoc(d: Doc) { d.body.Some? ==> |d.body.value| <= U64_MAX }

  predicate ReadableMeta(m: Meta) { m.body.Some? ==> |m.body.value| <= U64_MAX }

  /** Trees as a file system has them: names are not empty and hold no separator, lengths fit. */
  predicate Sound(es: seq<Node>) {
    es != [] ==>
      Ignore.Segment(es[0].name) && Sound(es[1..])
      && (es[0].Folder? ==> Sound(es[0].entries)) && (es[0].Plain? ==> ReadableMeta(es[0].meta))
  }

  predicate FileEvent(e: Event) { e.FileAt? && Ignore.Segments(e.segs) && ReadableMeta(e.meta) }

  predicate TaskSound(t: Task) { Ignore.Segments(t.segs) && Sound(t.entries) }

  predicate StackSound(stack: seq<Task>) { forall i | 0 <= i < |stack| :: TaskSound(stack[i]) }

  /** The ignore test of an ignore set, on segments. */
  function IgnOf(fold: char -> char, pats: seq<Ignore.Pattern>): Ign {
    (segs, isDir) => Ignore.Ignored(fold, pats, segs, isDir)
  }

  lemma IgnOfIsClosed(fold: char -> char, pats: seq<Ignore.Pattern>)
    ensures Closed(IgnOf(fold, pats))
  {
    var ign := IgnOf(fold, pats);
    forall d, e, b | ign(d, true) && e != [] ensures ign(d + e, b) {
      Ignore.BelowIgnored(fold, pats, d, e, b);
    }
  }

  /** The events of all shared folders, in order. */
  function EventsOf(ign: Ign, roots: seq<Node>): seq<Event> {
    if roots == [] then []
    else (if roots[0].Folder? then PrunedWalk(ign, [Task([roots[0].name], roots[0].entries, false)]) else [])
         + EventsOf(ign, roots[1..])
  }

  /** The shared folders one after the other, each walked as the recursion walks it. */
  lemma {:induction false} FoldersInOrder(ign: Ign, roots: seq<Node>, more: seq<Node>)
    ensures EventsOf(ign, roots + more) == EventsOf(ign, roots) + EventsOf(ign, more)
    ensures roots != [] && roots[0].Folder? ==>
              EventsOf(ign, [roots[0]]) == Visit(ign, [roots[0].name], roots[0].entries, false)
    decreases |roots|
  {
    hide Visit, PrunedWalk;
    if roots == [] {
      assert roots + more == more;
    } else {
      var n := roots[0];
      assert (roots + more)[1..] == roots[1..] + more;
      FoldersInOrder(ign, roots[1..], more);
      if n.Folder? {
        var t := Task([n.name], n.entries, false);
        StackIsRecursion(ign, [t]);
        OneVisit(ign, t);
        Regroup3(PrunedWalk(ign, [t]), EventsOf(ign, roots[1..]), EventsOf(ign, more));
        assert [n][1..] == [];
      }
    }
  }

  lemma StepSegments(segs: seq<string>, name: string)
    requires Ignore.Segments(segs) && Ignore.Segment(name)
    ensures Ignore.Segments(segs + [name])
  {
  }

  lemma {:induction false} SoundAt(es: seq<Node>, i: nat)
    requires Sound(es) && i < |es|
    ensures Ignore.Segment(es[i].name) && (es[i].Folder? ==> Sound(es[i].entries))
        && (es[i].Plain? ==> ReadableMeta(es[i].meta))
  {
    if i > 0 { SoundAt(es[1..], i - 1); }
  }

  /** What one entry of a directory adds to the folders pushed ... */
  function SubOf(ign: Ign, t: Task, n: Node): seq<Task> {
    if n.Folder? then [Task(t.segs + [n.name], n.entries, t.dirsOnly || ign(t.segs + [n.name], true))] else []
  }

  /** ... and to the files collected. */
  function FileOf(t: Task, n: Node): seq<Event> {
    if n.Plain? && !t.dirsOnly then [FileAt(t.segs + [n.name], n.meta)] else []
  }

  /** The files of a directory that is not ignored. */
  function Collected(t: Task, es: seq<Node>): seq<Event> { if t.dirsOnly then [] else Files(t.segs, es) }

  lemma EntryAdds(ign: Ign, t: Task, i: nat, subs: seq<Task>, files: seq<Event>)
    requires i < |t.entries|
    ensures subs + Subs(ign, t.segs, t.entries[i..], t.dirsOnly)
            == subs + SubOf(ign, t, t.entries[i]) + Subs(ign, t.segs, t.entries[i + 1..], t.dirsOnly)
    ensures files + Collected(t, t.entries[i..]) == files + FileOf(t, t.entries[i]) + Collected(t, t.entries[i + 1..])
  {
    assert t.entries[i..][1..] == t.entries[i + 1..];
  }

  lemma {:induction false} SubsSound(ign: Ign, segs: seq<string>, es: seq<Node>, only: bool)
    requires Ignore.Segments(segs) && Sound(es)
    ensures StackSound(Subs(ign, segs, es, only))
  {
    hide Ignore.Segments, Ignore.Segment;
    if es != [] {
      SubsSound(ign, segs, es[1..], only);
      StepSegments(segs, es[0].name);
    }
  }

  lemma {:induction false} FilesSound(segs: seq<string>, es: seq<Node>)
    requires Ignore.Segments(segs) && Sound(es)
    ensures forall i | 0 <= i < |Files(segs, es)| :: FileEvent(Files(segs, es)[i])
  {
    hide Ignore.Segments, Ignore.Segment, ReadableMeta;
    if es != [] {
      FilesSound(segs, es[1..]);
      StepSegments(segs, es[0].name);
    }
  }

  /** The flag a folder is pushed with: once inside an ignored folder, always. */
  method Flag(ignore: Ignore.IgnoreSet, p: seq<string>, dirsOnly: bool) returns (flag: bool)
    requires Ignore.Segments(p)
    ensures flag == (dirsOnly || IgnOf(ignore.fold, ignore.patterns)(p, true))
  {
    flag := true;
    if !dirsOnly {
      flag := ignore.Test(Join(p, '/'), true);
      Ignore.IsIgnoredSegments(ignore.fold, ignore.patterns, p, true);
    }
  }

  /** One entry of a directory: a folder is pushed, a plain file collected. */
  method ClassifyEntry(ignore: Ignore.IgnoreSet, t: Task, n: Node) returns (sub: seq<Task>, file: seq<Event>)
    requires Ignore.Segments(t.segs) && Ignore.Segment(n.name)
    ensures sub == SubOf(IgnOf(ignore.fold, ignore.patterns), t, n)
    ensures file == FileOf(t, n)
  {
    hide IgnOf, Ignore.Segments, Ignore.Segment;
    sub, file := [], [];
    match n
    case Folder(name, entries) =>
      StepSegments(t.segs, name);
      var flag := Flag(ignore, t.segs + [name], t.dirsOnly);
      sub := [Task(t.segs + [name], entries, flag)];
    case Plain(name, meta) =>
      if !t.dirsOnly { file := [FileAt(t.segs + [name], meta)]; }
    case Other(_) =>
  }

  /** List one directory: its folders, each with its ignore flag, and its plain files. */
  method Classify(ignore: Ignore.IgnoreSet, t: Task) returns (subs: seq<Task>, files: seq<Event>)
    requires TaskSound(t)
    ensures subs == Subs(IgnOf(ignore.fold, ignore.patterns), t.segs, t.entries, t.dirsOnly)
    ensures files == if t.dirsOnly then [] else Files(t.segs, t.entries)
    ensures StackSound(subs)
    ensures forall i | 0 <= i < |files| :: FileEvent(files[i])
  {
    hide Subs, Files, IgnOf, Ignore.Segments, Ignore.Segment, Sound, FileEvent, SubOf, FileOf, Collected;
    ghost var ign := IgnOf(ignore.fold, ignore.patterns);
    subs, files := [], [];
    NoneListed(ign, t);
    for i := 0 to |t.entries|
      invariant Subs(ign, t.segs, t.entries, t.dirsOnly) == subs + Subs(ign, t.segs, t.entries[i..], t.dirsOnly)
      invariant Collected(t, t.entries) == files + Collected(t, t.entries[i..])
    {
      SoundAt(t.entries, i);
      EntryAdds(ign, t, i, subs, files);
      var sub, file := ClassifyEntry(ignore, t, t.entries[i]);
      subs, files := subs + sub, files + file;
    }
    AllListed(ign, t, subs, files);
    SubsSound(ign, t.segs, t.entries, t.dirsOnly);
    FilesSound(t.segs, t.entries);
  }

  lemma NoneListed(ign: Ign, t: Task)
    ensures [] + Subs(ign, t.segs, t.entries[0..], t.dirsOnly) == Subs(ign, t.segs, t.entries, t.dirsOnly)
    ensures [] + Collected(t, t.entries[0..]) == Collected(t, t.entries)
  {
    assert t.entries[0..] == t.entries;
  }

  lemma AllListed(ign: Ign, t: Task, subs: seq<Task>, files: seq<Event>)
    ensures subs + Subs(ign, t.segs, t.entries[|t.entries|..], t.dirsOnly) == subs
    ensures files + Collected(t, t.entries[|t.entries|..]) == files
    ensures Collected(t, t.entries) == if t.dirsOnly then [] else Files(t.segs, t.entries)
  {
  }

  class Producer {
    const ignore: Ignore.IgnoreSet
    var bundle: seq<Doc>
    var bundleBytes: nat
    /** Everything enqueued so far. */
    var queue: seq<Unit>

    constructor (ignore: Ignore.IgnoreSet)
      ensures this.ignore == ignore && queue == [] && bundle == [] && bundleBytes == Sum(bundle)
    {
      this.ignore := ignore;
      bundle, bundleBytes, queue := [], 0, [];
    }

    function Test(): Ign { IgnOf(ignore.fold, ignore.patterns) }

    /** What will have been enqueued once `evs` are walked as well. */
    ghost function Outlook(evs: seq<Event>): seq<Unit>
      reads this
    {
      queue + UnitsOf(evs, bundle)
    }

    method FlushBundle()
      requires bundleBytes == Sum(bundle)
      modifies this
      ensures queue == old(queue) + Flush(old(bundle)) && bundle == [] && bundleBytes == Sum(bundle)
    {
      if bundle != [] {
        queue := queue + [Bundle(bundle)];
        bundle, bundleBytes := [], 0;
      }
    }

    /** One file that is not ignored: batched if small, alone if large. */
    method AddFile(e: Event)
      requires e.FileAt? && bundleBytes == Sum(bundle)
      modifies this
      ensures bundleBytes == Sum(bundle)
      ensures forall more :: Outlook(more) == old(Outlook([e] + more))
    {
      ghost var queue0, bundle0 := queue, bundle;
      var d := Doc(Join(e.segs, '/'), e.meta.size, e.meta.mtime, e.meta.body);
      if d.size <= SMALL_FILE {
        bundle, bundleBytes := bundle + [d], bundleBytes + d.size;
        assert (bundle0 + [d])[..|bundle0|] == bundle0;
        if bundleBytes >= BUNDLE_BYTES || |bundle| >= BUNDLE_MAX_COUNT {
          queue := queue + [Bundle(bundle)];
          bundle, bundleBytes := [], 0;
        }
      } else {
        FlushBundle();
        queue := queue + [Large(d)];
      }
      forall more ensures Outlook(more) == queue0 + UnitsOf([e] + more, bundle0) {
        OneEvent(e, more, bundle0);
        Regroup3(queue0, Emit(bundle0, e).0, UnitsOf(more, bundle));
        Regroup3(queue0, Flush(bundle0), [Large(d)]);
      }
    }

    /** `producer_walk`: every unit of every shared folder, in order. */
    method Walk(roots: seq<Node>)
      requires queue == [] && bundle == [] && bundleBytes == Sum(bundle)
      requires Sound(roots)
      modifies this
      ensures queue == UnitsOf(EventsOf(Test(), roots), [])
    {
      ghost var goal := UnitsOf(EventsOf(Test(), roots), []);
      assert roots[0..] == roots && [] + goal == goal;
      for k := 0 to |roots|
        invariant bundleBytes == Sum(bundle)
        invariant Outlook(EventsOf(Test(), roots[k..])) == goal
      {
        assert roots[k..][0] == roots[k] && roots[k..][1..] == roots[k + 1..];
        SoundAt(roots, k);
        if roots[k].Folder? {
          WalkRoot(Task([roots[k].name], roots[k].entries, false), EventsOf(Test(), roots[k + 1..]));
        } else {
          assert [] + EventsOf(Test(), roots[k + 1..]) == EventsOf(Test(), roots[k + 1..]);
        }
      }
      FlushBundle();
    }

    /** The walk of one shared folder. */
    method WalkRoot(root: Task, ghost later: seq<Event>)
      requires TaskSound(root) && bundleBytes == Sum(bundle)
      modifies this
      ensures bundleBytes == Sum(bundle)
      ensures Outlook(later) == old(Outlook(PrunedWalk(Test(), [root]) + later))
    {
      hide UnitsOf, Subs, Tree.Files, PrunedWalk, IgnOf, Sound, Ignore.Segments, FullWalk;
      ghost var goal := Outlook(PrunedWalk(Test(), [root]) + later);
      var stack := [root];
      while stack != []
        invariant bundleBytes == Sum(bundle) && StackSound(stack)
        invariant Outlook(PrunedWalk(Test(), stack) + later) == goal
        decreases Weight(stack)
      {
        var t, rest := stack[|stack| - 1], stack[..|stack| - 1];
        assert TaskSound(t) && StackSound(rest);
        var subs, files := Classify(ignore, t);
        ghost var more := PrunedWalk(Test(), rest + subs) + later;
        PopTask(Test(), stack, later);
        OwnIs(Test(), t);
        if t.dirsOnly {
          AddDir(t.segs, more);
        } else {
          AddFiles(files, more);
        }
        WeightAppend(rest, subs);
        stack := rest + subs;
      }
      NoTask(Test(), later);
    }

    /** An ignored directory: named, not entered for files. */
    method AddDir(segs: seq<string>, ghost more: seq<Event>)
      modifies `queue
      ensures Outlook(more) == old(Outlook([DirAt(segs)] + more))
    {
      OneEvent(DirAt(segs), more, bundle);
      Regroup3(queue, [Dir(Join(segs, '/'))], UnitsOf(more, bundle));
      queue := queue + [Dir(Join(segs, '/'))];
    }

    /** The files of one directory. */
    method AddFiles(files: seq<Event>, ghost more: seq<Event>)
      requires bundleBytes == Sum(bundle)
      requires forall i | 0 <= i < |files| :: FileEvent(files[i])
      modifies this
      ensures bundleBytes == Sum(bundle)
      ensures Outlook(more) == old(Outlook(KeepFiles(Test(), files) + more))
    {
      hide UnitsOf, IgnOf, Sum;
      ghost var goal := Outlook(KeepFiles(Test(), files) + more);
      assert files[0..] == files;
      for i := 0 to |files|
        invariant bundleBytes == Sum(bundle)
        invariant Outlook(KeepFiles(Test(), files[i..]) + more) == goal
      {
        var e := files[i];
        assert FileEvent(e);
        KeepFirst(Test(), files, i, more);
        var ignored := ignore.Test(Join(e.segs, '/'), false);
        TestIs(ignore.fold, ignore.patterns, e.segs);
        if ignored { continue; }
        AddFile(e);
      }
      assert files[|files|..] == [] && [] + more == more;
    }
  }

  lemma OneEvent(e: Event, more: seq<Event>, pending: seq<Doc>)
    ensures UnitsOf([e] + more, pending) == Emit(pending, e).0 + UnitsOf(more, Emit(pending, e).1)
  {
  }

  /** What a task emits itself. */
  function Own(ign: Ign, t: Task): seq<Event> {
    if t.dirsOnly then [DirAt(t.segs)] else KeepFiles(ign, Files(t.segs, t.entries))
  }

  lemma OwnIs(ign: Ign, t: Task)
    ensures Own(ign, t) == if t.dirsOnly then [DirAt(t.segs)] else KeepFiles(ign, Files(t.segs, t.entries))
  {
  }

  lemma NoTask(ign: Ign, later: seq<Event>)
    ensures PrunedWalk(ign, []) + later == later
  {
  }

  lemma PopWalk(ign: Ign, stack: seq<Task>)
    requires stack != []
    ensures var t, rest := stack[|stack| - 1], stack[..|stack| - 1];
            PrunedWalk(ign, stack) == Own(ign, t) + PrunedWalk(ign, rest + Subs(ign, t.segs, t.entries, t.dirsOnly))
  {
  }

  lemma PopTask(ign: Ign, stack: seq<Task>, later: seq<Event>)
    requires stack != []
    ensures var t, rest := stack[|stack| - 1], stack[..|stack| - 1];
            PrunedWalk(ign, stack) + later
            == Own(ign, t) + (PrunedWalk(ign, rest + Subs(ign, t.segs, t.entries, t.dirsOnly)) + later)
  {
    hide Own, PrunedWalk, Subs;
    var t, rest := stack[|stack| - 1], stack[..|stack| - 1];
    PopWalk(ign, stack);
    Regroup3(Own(ign, t), PrunedWalk(ign, rest + Subs(ign, t.segs, t.entries, t.dirsOnly)), later);
  }

  lemma KeepFirst(ign: Ign, files: seq<Event>, i: nat, more: seq<Event>)
    requires i < |files| && files[i].FileAt?
    ensures var tail := KeepFiles(ign, files[i + 1..]) + more;
            KeepFiles(ign, files[i..]) + more == if ign(files[i].segs, false) then tail else [files[i]] + tail
  {
  }

  /** The text test is the test on segments. */
  lemma TestIs(fold: char -> char, pats: seq<Ignore.Pattern>, segs: seq<string>)
    requires Ignore.Segments(segs)
    ensures Ignore.IsIgnored(fold, pats, Join(segs, '/'), false) <==> IgnOf(fold, pats)(segs, false)
  {
    Ignore.IsIgnoredSegments(fold, pats, segs, false);
  }
}
