/** The mirror step of the parallel mode: when it runs, what it deletes, and exactly when that is
    what the source no longer has. */
module Deletion {
  import opened Text
  import opened Paths
  import opened Receiver
  import opened Transcript
  import opened Convergence
  import opened Parallel
  import opened Confluence
  import Frames
  import M = Mirror

  /** Every worker has ended: the client has joined its threads. */
  predicate Joined(s: Sys) { s.links != [] && forall h | 0 <= h < |s.links| :: s.links[h].worker.Ended? }

  predicate Clean(s: Sys) {
    s.links != [] && forall h | 0 <= h < |s.links| :: s.links[h].worker.Ended? && s.links[h].worker.ok
  }

  /** The client's files after the run: only a clean one has a mirror step. */
  function Final(env: Env, ignored: string -> bool, s: Sys): Files {
    if Clean(s) then MirrorDelete(env.site.to, ignored, s.seen, s.roots, s.files) else s.files
  }

  // ------------------------------------------------------------------ exactness

  lemma CleanHasNoPart(env: Env, s: Sys)
    requires Clean(s) && LinksOk(env, s)
    ensures NoPart(env, s.links)
  {
  }

  /** Parallel deletion is exact: after any run whatever, a file is gone exactly when the run was clean
      and the file lay under a mirror root of a delivered unit, was not ignored and was not a target
      of a delivered unit. */
  lemma DeletionIsExact(env: Env, ignored: string -> bool, trace: seq<Label>, p: Path)
    requires PlanOk(env) && Run(env, Start(env), trace).Some?
    requires var s := Run(env, Start(env), trace).value; Joined(s) && p in s.files
    ensures var s := Run(env, Start(env), trace).value;
            p !in Final(env, ignored, s) <==>
              Clean(s) && !ignored(RelOf(env.site.to, p)) && !DeliveredTarget(env, s.links, p)
              && exists r :: DeliveredRoot(env, s.links, r) && r < p
  {
    hide Good, PlanOk, Run, Reach, DeliveredTarget, DeliveredRoot, Conserved, SharedOk, FilesOk, NoPart, WorkerOk;
    var s := Run(env, Start(env), trace).value;
    ReachableIsGood(env, trace);
    if Clean(s) {
      GoodParts(env, s);
      CleanHasNoPart(env, s);
      SetsAreDelivered(env, s, p);
      forall r ensures r in s.roots <==> DeliveredRoot(env, s.links, r) { SetsAreDelivered(env, s, r); }
    }
  }

  lemma GoodParts(env: Env, s: Sys)
    requires Good(env, s)
    ensures Conserved(env, s) && LinksOk(env, s) && SharedOk(s) && FilesOk(env, s)
  {
  }

  /** Files the source still offers although no stream delivered their unit. */
  ghost predicate Endangered(env: Env, ignored: string -> bool, s: Sys, p: Path) {
    p in s.files && UnderRoot(s.roots, p) && !ignored(RelOf(env.site.to, p))
    && exists id: nat | id < |env.plan| ::
         !Delivered(s.links, id) && p in M.Targets(env.site, UnitDocs(env.plan[id]))
  }

  /** A clean run deletes exactly what the source no longer offers if and only if no undelivered unit
      offers a file that is present, not ignored and under a recorded root. */
  lemma DeletesTheStaleIff(env: Env, ignored: string -> bool, trace: seq<Label>)
    requires PlanOk(env) && Run(env, Start(env), trace).Some? && Clean(Run(env, Start(env), trace).value)
    ensures var s := Run(env, Start(env), trace).value;
            Final(env, ignored, s) == TrueMirror(env, ignored, s) <==> forall p :: !Endangered(env, ignored, s, p)
  {
    hide Good, PlanOk, Run, TrueMirror, Final, Endangered, Clean;
    var s := Run(env, Start(env), trace).value;
    ReachableIsGood(env, trace);
    forall p ensures M.At(Final(env, ignored, s), p) == M.At(TrueMirror(env, ignored, s), p) <==>
        !Endangered(env, ignored, s, p) {
      OnePath(env, ignored, s, p);
    }
    if forall p :: !Endangered(env, ignored, s, p) {
      SameFiles(Final(env, ignored, s), TrueMirror(env, ignored, s));
    }
  }

  /** The mirror step as it would be with everything the source offers in the offered set. */
  function TrueMirror(env: Env, ignored: string -> bool, s: Sys): Files {
    MirrorDelete(env.site.to, ignored, M.Targets(env.site, AllDocs(env.plan)), s.roots, s.files)
  }

  lemma OnePath(env: Env, ignored: string -> bool, s: Sys, p: Path)
    requires PlanOk(env) && Good(env, s) && Clean(s)
    ensures M.At(Final(env, ignored, s), p) == M.At(TrueMirror(env, ignored, s), p) <==> !Endangered(env, ignored, s, p)
  {
    hide PlanOk, Reach, DeliveredTarget, DeliveredRoot, DeliveredDir, NoPart, UnderRoot, RelOf, Delivered, Clean,
        M.Targets;
    CleanIsDelivered(env, s, p);
    UnionsOverUnits(env.site, env.plan, p);
    OfferedIs(env, s, p);
    if p in s.files && p !in s.seen && p in M.Targets(env.site, AllDocs(env.plan)) {
      var id: nat :| id < |env.plan| && p in M.Targets(env.site, UnitDocs(env.plan[id]));
      assert !Delivered(s.links, id) by { NotDelivered(env, s, id, p); }
    }
    if DeliveredTarget(env, s.links, p) { SeenIsOffered(env, s, p); }
  }

  lemma CleanIsDelivered(env: Env, s: Sys, p: Path)
    requires Good(env, s) && Clean(s)
    ensures p in s.seen <==> DeliveredTarget(env, s.links, p)
  {
    hide Conserved, FilesOk, DeliveredTarget, DeliveredRoot, DeliveredDir, NoPart, Clean, LinksOk, SharedOk;
    CleanHasNoPart(env, s);
    SetsAreDelivered(env, s, p);
  }

  lemma NotDelivered(env: Env, s: Sys, id: nat, p: Path)
    requires id < |env.plan| && p in M.Targets(env.site, UnitDocs(env.plan[id])) && !DeliveredTarget(env, s.links, p)
    ensures !Delivered(s.links, id)
  {
  }

  lemma SeenIsOffered(env: Env, s: Sys, p: Path)
    requires DeliveredTarget(env, s.links, p)
    ensures p in M.Targets(env.site, AllDocs(env.plan))
  {
    hide M.Targets, Delivered;
    UnionsOverUnits(env.site, env.plan, p);
  }

  /** A target is offered by a delivered unit or by no delivered unit, never by both. */
  lemma OfferedIs(env: Env, s: Sys, p: Path)
    requires PlanOk(env)
    ensures DeliveredTarget(env, s.links, p) ==>
              forall id: nat | id < |env.plan| && !Delivered(s.links, id) ::
                p !in M.Targets(env.site, UnitDocs(env.plan[id]))
  {
    hide M.Targets, Delivered, PlanOk, Ops;
    if DeliveredTarget(env, s.links, p) {
      var i: nat :| i < |env.plan| && Delivered(s.links, i) && p in M.Targets(env.site, UnitDocs(env.plan[i]));
      forall id: nat | id < |env.plan| && !Delivered(s.links, id)
          ensures p !in M.Targets(env.site, UnitDocs(env.plan[id])) {
        if p in M.Targets(env.site, UnitDocs(env.plan[id])) {
          UnitShape(env.site, env.plan[i]);
          UnitShape(env.site, env.plan[id]);
          OneUnit(env, i, id, p);
        }
      }
    }
  }

  /** Where an undelivered unit of a clean run is: never taken from the queue, or taken by a stream that
      delivered nothing at all. */
  lemma WhereUndelivered(env: Env, trace: seq<Label>, id: nat)
    requires PlanOk(env) && Run(env, Start(env), trace).Some? && id < |env.plan|
    requires var s := Run(env, Start(env), trace).value; Clean(s) && !Delivered(s.links, id)
    ensures var s := Run(env, Start(env), trace).value;
            id >= Popped(s)
            || exists h | 0 <= h < |s.links| :: s.links[h].delivered == [] && Taken(s.links[h], id) == 1
  {
    hide PlanOk, Run, WorkerOk, SharedOk, FilesOk, Taken;
    var s := Run(env, Start(env), trace).value;
    ReachableIsGood(env, trace);
    GoodParts(env, s);
    if id < Popped(s) {
      assert Total(s.links, id) == 1;
      var h := TotalWitness(s.links, id);
      TotalMember(s.links, h, id);
      assert HandlerOk(s.links[h]);
      if s.links[h].delivered != [] { FinishedStream(s.links[h], id); }
    }
  }

  lemma FinishedStream(l: Link, id: nat)
    requires HandlerOk(l) && l.worker.Ended? && l.worker.ok && l.delivered != [] && Taken(l, id) > 0
    ensures id in l.delivered
  {
    OccMember(l.delivered, id);
    NothingOccurs(id);
  }

  /** The producer is through and nothing is left in the queue. */
  predicate Drained(env: Env, s: Sys) { s.next == |env.plan| && s.queue == [] }

  /** No stream that delivered nothing has lost a unit or still holds one at the server. */
  predicate NothingStranded(s: Sys) {
    forall h | 0 <= h < |s.links| && s.links[h].delivered == [] :: s.links[h].lost == [] && !s.links[h].handler.Holding?
  }

  /** A delivered unit is nowhere else: not in the queue, not to come, not lost and not held. */
  lemma DeliveredIsTaken(env: Env, s: Sys, id: nat)
    requires Conserved(env, s) && Delivered(s.links, id)
    ensures id < Popped(s)
    ensures forall h | 0 <= h < |s.links| :: id !in s.links[h].lost && !(s.links[h].handler == Holding(id))
  {
    hide Taken, Conserved;
    var k :| 0 <= k < |s.links| && id in s.links[k].delivered;
    DeliveredCounts(s.links[k], id);
    assert id < Popped(s) by { BelowPopped(env, s, k, id); }
    forall h | 0 <= h < |s.links| ensures id !in s.links[h].lost && !(s.links[h].handler == Holding(id)) {
      DeliveredCounts(s.links[h], id);
      if Taken(s.links[h], id) > 0 { OneHolder(env, s, h, k, id); }
    }
  }

  lemma DeliveredCounts(l: Link, id: nat)
    ensures Taken(l, id) >= (if id in l.delivered then 1 else 0) + (if id in l.lost then 1 else 0)
                            + (if l.handler == Holding(id) then 1 else 0)
  {
    hide Occ;
    OccMember(l.delivered, id);
    OccMember(l.lost, id);
    NothingOccurs(id);
  }

  lemma BelowPopped(env: Env, s: Sys, h: nat, id: nat)
    requires Conserved(env, s) && h < |s.links| && Taken(s.links[h], id) > 0
    ensures id < Popped(s)
  {
    hide Taken;
    TotalMember(s.links, h, id);
  }

  lemma NothingTaken(l: Link, id: nat)
    requires l.delivered == [] && l.lost == [] && l.wire == [] && l.worker.Ended? && !l.handler.Holding?
    ensures Taken(l, id) == 0
  {
  }

  /** When a clean run has delivered everything: exactly when the queue is drained and no stream that
      delivered nothing has units to its name. Streams that were told `NOUNIT` at once do no harm. */
  lemma AllDeliveredIff(env: Env, trace: seq<Label>)
    requires PlanOk(env) && Run(env, Start(env), trace).Some? && Clean(Run(env, Start(env), trace).value)
    ensures var s := Run(env, Start(env), trace).value;
            (forall id: nat | id < |env.plan| :: Delivered(s.links, id)) <==> Drained(env, s) && NothingStranded(s)
  {
    hide PlanOk, Run, Delivered, Taken, WorkerOk, SharedOk, FilesOk;
    var s := Run(env, Start(env), trace).value;
    ReachableIsGood(env, trace);
    GoodParts(env, s);
    if Drained(env, s) && NothingStranded(s) {
      forall id: nat | id < |env.plan| ensures Delivered(s.links, id) {
        if !Delivered(s.links, id) {
          WhereUndelivered(env, trace, id);
          var h :| 0 <= h < |s.links| && s.links[h].delivered == [] && Taken(s.links[h], id) == 1;
          assert HandlerOk(s.links[h]);
          NothingTaken(s.links[h], id);
        }
      }
    }
    if forall id: nat | id < |env.plan| :: Delivered(s.links, id) {
      EverythingTaken(env, s);
      forall h | 0 <= h < |s.links| ensures s.links[h].lost == [] && !s.links[h].handler.Holding? {
        NothingElsewhere(env, s, h);
      }
    }
  }

  lemma EverythingTaken(env: Env, s: Sys)
    requires Conserved(env, s) && forall id: nat | id < |env.plan| :: Delivered(s.links, id)
    ensures Drained(env, s)
  {
    hide Delivered, Accounted;
    if Popped(s) < |env.plan| {
      DeliveredIsTaken(env, s, Popped(s));
    }
  }

  lemma NothingElsewhere(env: Env, s: Sys, h: nat)
    requires Conserved(env, s) && h < |s.links| && forall id: nat | id < |env.plan| :: Delivered(s.links, id)
    ensures s.links[h].lost == [] && !s.links[h].handler.Holding?
  {
    hide Delivered, Taken, Conserved;
    var l := s.links[h];
    if l.lost != [] {
      var id := l.lost[0];
      DeliveredCounts(l, id);
      BelowPopped(env, s, h, id);
      PoppedInPlan(env, s);
      DeliveredIsTaken(env, s, id);
    }
    if l.handler.Holding? {
      var id := l.handler.id;
      DeliveredCounts(l, id);
      BelowPopped(env, s, h, id);
      PoppedInPlan(env, s);
      DeliveredIsTaken(env, s, id);
    }
  }

  lemma PoppedInPlan(env: Env, s: Sys)
    requires Conserved(env, s)
    ensures Popped(s) <= |env.plan|
  {
  }

  /** So a clean run with a drained queue and nothing stranded deletes exactly what the source no longer
      offers. */
  lemma DrainedRunIsExact(env: Env, ignored: string -> bool, trace: seq<Label>)
    requires PlanOk(env) && Run(env, Start(env), trace).Some?
    requires var s := Run(env, Start(env), trace).value; Clean(s) && Drained(env, s) && NothingStranded(s)
    ensures var s := Run(env, Start(env), trace).value; Final(env, ignored, s) == TrueMirror(env, ignored, s)
  {
    hide PlanOk, Run, Clean, MirrorDelete, TrueMirror, Final, Delivered, Drained, NothingStranded;
    AllDeliveredIff(env, trace);
    DeletesTheStaleIff(env, ignored, trace);
  }

  /** The parallel mode refines the single stream: a clean parallel run that delivered every unit leaves the
      files that the single stream leaves, mirror step included, whatever framing that stream had. */
  lemma ParallelIsSync(env: Env, ignored: string -> bool, trace: seq<Label>, fs: seq<Framing>)
    requires PlanOk(env) && Frames.Lawful(env.site.codec) && PassOk(env.site.codec, env.plan, fs)
    requires Run(env, Start(env), trace).Some? && (env.stream ==> env.before == map[])
    requires var s := Run(env, Start(env), trace).value;
             Clean(s) && forall id: nat | id < |env.plan| :: Delivered(s.links, id)
    ensures var st := St(env.before, {}, {}, {}, 0, 0, 0, "");
            Final(env, ignored, Run(env, Start(env), trace).value)
            == Settled(env.site, ignored, Sync(env.site, st, SessionBytes(env.site, st, env.plan, fs)))
  {
    hide Run, Apply, Delivered, Clean, PassOk, SessionBytes, Sync, M.Expected, M.Targets, M.Roots;
    var st := St(env.before, {}, {}, {}, 0, 0, 0, "");
    var told := Say(st, "SYNC").(seen := {});
    FreshParallelIsSync(env, trace);
    SessionRoundTrip(env.site, st, env.plan, fs);
    PlanIsDistinct(env);
    M.ApplyAllIs(env.site, st, env.plan, false);
    M.ApplyAllIs(env.site, told, env.plan, false);
    SameFiles(ApplyAll(env.site, st, env.plan, false).files, ApplyAll(env.site, told, env.plan, false).files);
  }

  // ------------------------------------------------------------------ unclean for good

  lemma MoveKeepsEnded(env: Env, l: Link, act: Action, done: bool)
    requires l.worker.Ended? && Move(env, l, act, done).Some?
    ensures Move(env, l, act, done).value.worker == l.worker
  {
  }

  lemma OnlyBusyWorks(env: Env, s: Sys, h: nat, partial: string)
    requires h < |s.links| && s.links[h].worker.Ended?
    ensures Work(env, s, h).None? && WriteSome(env, s, h, partial).None?
  {
  }

  lemma WorkIsLocal(env: Env, s: Sys, h: nat, act: Action, t: Sys)
    requires h < |s.links| && Act(env, s, h, act) == Some(t)
    ensures |t.links| == |s.links| && forall k | 0 <= k < |s.links| && k != h :: t.links[k] == s.links[k]
  {
    hide Move, Ops, Wants;
    match act {
      case Advance => hide Taken; WorkOnlyWorks(env, s, h);
      case Chunk(partial) => hide Taken; WriteOnlyWorks(env, s, h, partial);
      case _ =>
    }
  }

  /** A worker that has ended keeps its verdict. */
  lemma EndedStays(env: Env, s: Sys, l: Label, h: nat, t: Sys)
    requires h < |s.links| && s.links[h].worker.Ended? && Next(env, s, l) == Some(t)
    ensures h < |t.links| && t.links[h].worker == s.links[h].worker
  {
    hide Move, Work, WriteSome, AllRetired;
    if l.On? && l.h < |s.links| {
      WorkIsLocal(env, s, l.h, l.act, t);
      if l.h == h {
        match l.act {
          case TryPop =>
          case Advance => OnlyBusyWorks(env, s, h, "");
          case Chunk(partial) => OnlyBusyWorks(env, s, h, partial);
          case _ => MoveKeepsEnded(env, s.links[h], l.act, s.done);
        }
      }
    }
  }

  lemma {:induction false} UncleanForGood(env: Env, s: Sys, trace: seq<Label>, h: nat)
    requires h < |s.links| && s.links[h].worker.Ended? && !s.links[h].worker.ok && Run(env, s, trace).Some?
    ensures !Clean(Run(env, s, trace).value)
    decreases |trace|
  {
    hide Next;
    if trace != [] {
      var t := Next(env, s, trace[0]).value;
      EndedStays(env, s, trace[0], h, t);
      UncleanForGood(env, t, trace[1..], h);
    }
  }

  /** A stream that fails once it has been given a unit makes the run unclean: whatever happens next,
      nothing is deleted. A stream that fails before that does not. */
  lemma FailureAfterAUnit(env: Env, ignored: string -> bool, s: Sys, h: nat, t: Sys, trace: seq<Label>)
    requires Next(env, s, On(h, Fail)) == Some(t) && Run(env, t, trace).Some?
    requires h < |s.links| && (s.links[h].worker.Busy? || s.links[h].delivered != [])
    ensures Final(env, ignored, Run(env, t, trace).value) == Run(env, t, trace).value.files
  {
    hide Run;
    UncleanForGood(env, t, trace, h);
  }

  // ------------------------------------------------------------------ what NOUNIT does not mean

  lemma {:induction false} RunChain(env: Env, ss: seq<Sys>, trace: seq<Label>)
    requires |ss| == |trace| + 1
    requires forall i | 0 <= i < |trace| :: Next(env, ss[i], trace[i]) == Some(ss[i + 1])
    ensures Run(env, ss[0], trace) == Some(ss[|trace|])
    decreases |trace|
  {
    hide Next;
    if trace != [] {
      assert Next(env, ss[0], trace[0]) == Some(ss[1]);
      forall i | 0 <= i < |trace[1..]| ensures Next(env, ss[1..][i], trace[1..][i]) == Some(ss[1..][i + 1]) {
        assert Next(env, ss[i + 1], trace[i + 1]) == Some(ss[i + 2]);
      }
      RunChain(env, ss[1..], trace[1..]);
    }
  }

  /** The order of events that leaves a unit behind: the handler finds the queue empty (11), the
      producer then pushes its last unit and sets the flag, and only now does the handler read it (15). */
  function RaceLabel(i: nat): Label {
    match i
    case 0 => LenTest case 1 => Push case 2 => Connect case 3 => On(0, TryPop) case 4 => On(0, Serve)
    case 5 => On(0, Receive) case 6 => On(0, Advance) case 7 => On(0, Advance) case 8 => On(0, Advance)
    case 9 => On(0, Advance) case 10 => On(0, Complete) case 11 => On(0, TryPop) case 12 => LenTest
    case 13 => Push case 14 => SetDone case 15 => On(0, LoadDone) case _ => On(0, Receive)
  }

  const RACE: seq<Label> := seq(17, i requires 0 <= i => RaceLabel(i))

  /** Two large files of one shared folder; the first cannot be read just now, of the second there is
      an old copy at the destination. */
  function RaceEnv(site: Site, g: Doc, d: Doc, held: File): Env {
    Env(site, [Large(g), Large(d)], map[site.to + ["a", "f"] := held], false)
  }

  lemma RaceOps(site: Site, g: Doc)
    requires g.rel == "a/g"
    ensures Ops(site, Large(g)) ==
            [AddRoot(site.to + ["a"]), See(site.to + ["a", "g"]), Look(g, site.to + ["a", "g"]),
                Fetch(g, site.to + ["a", "g"])]
  {
    hide SafeJoin, TopSegment;
    var segs, top := ["a", "g"], ["a"];
    assert Join(segs, '/') == "a/g" && Join(top, '/') == "a";
    SafeJoinPlain(site.to, segs);
    SafeJoinPlain(site.to, top);
    assert RootOf(site.to, g.rel) == Some(site.to + ["a"]);
    assert [g][1..] == [] && Notes(site, []) == [] && Fetches(site, []) == [];
    var p := site.to + ["a", "g"];
    assert Notes(site, [g]) == [AddRoot(site.to + ["a"]), See(p), Look(g, p)];
    assert Fetches(site, [g]) == [Fetch(g, p)];
  }

  /** `NOUNIT` does not mean that the queue is empty: a run in which every stream ends cleanly, one unit
      stays in the queue, and the mirror step deletes a file the source still offers. */
  lemma NoUnitDoesNotDrain(site: Site, ignored: string -> bool, g: Doc, d: Doc, held: File)
    requires g.rel == "a/g" && d.rel == "a/f" && g.body == None && !ignored("a/f")
    ensures var env, p := RaceEnv(site, g, d, held), site.to + ["a", "f"];
            Run(env, Start(env), RACE).Some?
            && var s := Run(env, Start(env), RACE).value;
               Clean(s) && s.done && s.queue == [1]
               && M.Target(site, d) == Some(p) && p in s.files && p !in Final(env, ignored, s)
  {
    hide Run, Next, SafeJoin, Ops, RelOf;
    var env, p := RaceEnv(site, g, d, held), site.to + ["a", "f"];
    var states := seq(18, i requires 0 <= i => RaceState(site, g, d, held, i));
    forall i | 0 <= i < 17 ensures Next(env, states[i], RACE[i]) == Some(states[i + 1]) {
      RaceStep(site, g, d, held, i);
    }
    RunChain(env, states, RACE);
    var s := RaceState(site, g, d, held, 17);
    RaceTarget(site, d);
    assert site.to + ["a"] in s.roots && site.to + ["a"] < p;
  }

  lemma RaceTarget(site: Site, d: Doc)
    requires d.rel == "a/f"
    ensures M.Target(site, d) == Some(site.to + ["a", "f"])
    ensures RelOf(site.to, site.to + ["a", "f"]) == "a/f"
    ensures site.to + ["a", "f"] != site.to + ["a", "g"]
  {
    var segs := ["a", "f"];
    assert Join(segs, '/') == "a/f";
    SafeJoinPlain(site.to, segs);
    assert (site.to + segs)[|site.to|..] == segs;
    assert (site.to + ["a", "f"])[|site.to| + 1] != (site.to + ["a", "g"])[|site.to| + 1];
  }

  /** The states of that run. */
  function RaceState(site: Site, g: Doc, d: Doc, held: File, i: nat): Sys {
    var env, a, p := RaceEnv(site, g, d, held), site.to + ["a"], site.to + ["a", "g"];
    var wants := if Wants(env, env.before, g, p) then {p} else {};
    var start := Start(env);
    var first := start.(next := 1);
    var known := first.(roots := {a}, seen := {p});
    var half := FRESH.(rooted := {a}, saw := {p});
    var over := half.(delivered := [0]);
    var all := known.(next := 2, queue := [1]);
    match i
    case 0 => start
    case 1 => start.(ready := true)
    case 2 => first.(queue := [0])
    case 3 => first.(queue := [0], links := [FRESH])
    case 4 => first.(links := [FRESH.(handler := Holding(0))])
    case 5 => first.(links := [FRESH.(wire := [0])])
    case 6 => first.(links := [FRESH.(worker := Busy(0, 0, {}, false))])
    case 7 => first.(roots := {a}, links := [FRESH.(worker := Busy(0, 1, {}, false), rooted := {a})])
    case 8 => known.(links := [half.(worker := Busy(0, 2, {}, false))])
    case 9 => known.(links := [half.(worker := Busy(0, 3, wants, false))])
    case 10 => known.(links := [half.(worker := Busy(0, 4, wants, false))])
    case 11 => known.(links := [over])
    case 12 => known.(links := [over.(handler := Missed)])
    case 13 => known.(ready := true, links := [over.(handler := Missed)])
    case 14 => all.(links := [over.(handler := Missed)])
    case 15 => all.(done := true, links := [over.(handler := Missed)])
    case 16 => all.(done := true, links := [over.(handler := Retired, told := true)])
    case _ => all.(done := true, links := [over.(handler := Retired, told := true, worker := Ended(true, None))])
  }

  /** The i-th step of that run is enabled and leads to the next state. */
  predicate Steps(site: Site, g: Doc, d: Doc, held: File, i: nat) {
    Next(RaceEnv(site, g, d, held), RaceState(site, g, d, held, i), RaceLabel(i))
        == Some(RaceState(site, g, d, held, i + 1))
  }

  lemma ShortLists()
    ensures forall k: nat :: [] + [k] == [k] && [k][1..] == []
    ensures forall l: Link :: [] + [l] == [l]
    ensures forall l: Link, m: Link :: [l][0 := m] == [m]
  {
  }

  lemma RaceOffer(site: Site, g: Doc, d: Doc, held: File)
    ensures Steps(site, g, d, held, 0) && Steps(site, g, d, held, 1) && Steps(site, g, d, held, 2)
        && Steps(site, g, d, held, 3)
  {
    hide Ops, Wants;
    ShortLists();
  }

  lemma RaceServe(site: Site, g: Doc, d: Doc, held: File)
    ensures Steps(site, g, d, held, 4) && Steps(site, g, d, held, 5)
  {
    hide Ops, Wants;
    ShortLists();
  }

  lemma RaceRoot(site: Site, g: Doc, d: Doc, held: File)
    requires g.rel == "a/g"
    ensures Steps(site, g, d, held, 6) && Steps(site, g, d, held, 7)
  {
    hide Ops, Wants;
    ShortLists();
    RaceOps(site, g);
    assert {} + {site.to + ["a"]} == {site.to + ["a"]} && {} + {site.to + ["a", "g"]} == {site.to + ["a", "g"]};
  }

  lemma RaceLook(site: Site, g: Doc, d: Doc, held: File)
    requires g.rel == "a/g"
    ensures Steps(site, g, d, held, 8)
  {
    hide Ops, Wants;
    ShortLists();
    RaceOps(site, g);
    assert {} + {site.to + ["a"]} == {site.to + ["a"]} && {} + {site.to + ["a", "g"]} == {site.to + ["a", "g"]};
  }

  lemma RaceFetch(site: Site, g: Doc, d: Doc, held: File)
    requires g.rel == "a/g" && g.body == None
    ensures Steps(site, g, d, held, 9)
  {
    hide Ops, Wants;
    ShortLists();
    RaceOps(site, g);
  }

  lemma RaceComplete(site: Site, g: Doc, d: Doc, held: File)
    requires g.rel == "a/g"
    ensures Steps(site, g, d, held, 10) && Steps(site, g, d, held, 11)
  {
    hide Ops, Wants;
    ShortLists();
    RaceOps(site, g);
  }

  lemma RaceLate(site: Site, g: Doc, d: Doc, held: File)
    ensures Steps(site, g, d, held, 12) && Steps(site, g, d, held, 13) && Steps(site, g, d, held, 14)
  {
    hide Ops, Wants;
    ShortLists();
  }

  lemma RaceTold(site: Site, g: Doc, d: Doc, held: File)
    ensures Steps(site, g, d, held, 15)
  {
    hide Ops, Wants;
    ShortLists();
  }

  lemma RaceEnd(site: Site, g: Doc, d: Doc, held: File)
    ensures Steps(site, g, d, held, 16)
  {
    hide Ops, Wants;
    ShortLists();
  }

  lemma RaceStep(site: Site, g: Doc, d: Doc, held: File, i: nat)
    requires i < 17 && g.rel == "a/g" && g.body == None
    ensures Steps(site, g, d, held, i)
  {
    hide Steps;
    RaceOffer(site, g, d, held);
    RaceServe(site, g, d, held);
    RaceRoot(site, g, d, held);
    RaceLook(site, g, d, held);
    RaceFetch(site, g, d, held);
    RaceComplete(site, g, d, held);
    RaceLate(site, g, d, held);
    RaceTold(site, g, d, held);
    RaceEnd(site, g, d, held);
  }
}
