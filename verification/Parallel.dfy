/** The parallel mode as a step system: one producer, a bounded queue, any number of handler and
    worker pairs over FIFO connections that may fail at any point, and the shared destination. */
module Parallel {
  import opened Text
  import opened Paths
  import opened Mtime
  import opened Receiver
  import opened Transcript
  import opened Mirror

  const QUEUE_CAP: nat := 256

  // ------------------------------------------------------------------ what a worker does with a unit

  /** One atomic action of a worker on the shared destination or the shared sets. */
  datatype Op = MakeDir(path: Path) | AddRoot(path: Path) | See(path: Path)
              | Look(doc: Doc, path: Path) | Fetch(doc: Doc, path: Path)

  function RootOps(site: Site, rel: string): seq<Op> {
    match RootOf(site.to, rel) case None => [] case Some(r) => [AddRoot(r)]
  }

  /** Recording an offered file and deciding whether to ask for it. */
  function NoteOps(site: Site, d: Doc): seq<Op> {
    match Target(site, d) case None => [] case Some(p) => RootOps(site, d.rel) + [See(p), Look(d, p)]
  }

  function FetchOps(site: Site, d: Doc): seq<Op> {
    match Target(site, d) case None => [] case Some(p) => [Fetch(d, p)]
  }

  function Notes(site: Site, ds: seq<Doc>): seq<Op> {
    if ds == [] then [] else NoteOps(site, ds[0]) + Notes(site, ds[1..])
  }

  function Fetches(site: Site, ds: seq<Doc>): seq<Op> {
    if ds == [] then [] else FetchOps(site, ds[0]) + Fetches(site, ds[1..])
  }

  /** The program of a unit: all decisions of a bundle come before its bodies. */
  function Ops(site: Site, u: Unit): seq<Op> {
    match u
    case Dir(rel) =>
      (match SafeJoin(site.to, rel) case None => [] case Some(p) => [MakeDir(p)] + RootOps(site, rel))
    case _ => Notes(site, UnitDocs(u)) + Fetches(site, UnitDocs(u))
  }

  // ------------------------------------------------------------------ the state

  /** A handler between its separate accesses to the queue and the `done` flag. */
  datatype Handler = Polling | Missed | Holding(id: nat) | Retired

  /** A worker: between units, at some action of one (`open` while it writes a file), or ended with
      its verdict and, if it broke off inside a unit, the place. */
  datatype Worker = Reading | Busy(id: nat, pc: nat, wants: set<Path>, open: bool)
                  | Ended(ok: bool, cut: Option<(nat, nat)>)

  /** A handler, its worker and the connection between them. `wire` holds the units on their way,
      `told` says that `NOUNIT` is behind them. `delivered` and `lost` are histories, and so are the
      paths this worker has put into the shared sets. */
  datatype Link = Link(handler: Handler, wire: seq<nat>, told: bool, up: bool, worker: Worker,
                       delivered: seq<nat>, lost: seq<nat>,
                       saw: set<Path>, rooted: set<Path>, made: set<Path>)

  datatype Accept = Listening | SawDone | Closed(clean: bool)

  /** `next` counts the units produced, `ready` says the producer has passed its length test. Units
      are named by their position in the producer's sequence. */
  datatype Sys = Sys(next: nat, ready: bool, done: bool, queue: seq<nat>, links: seq<Link>, accept: Accept,
                     files: Files, dirs: set<Path>, seen: set<Path>, roots: set<Path>)

  /** What does not change: the producer's units, the files at the start, and the mode. */
  datatype Env = Env(site: Site, plan: seq<Unit>, before: Files, stream: bool)

  function Start(env: Env): Sys { Sys(0, false, false, [], [], Listening, env.before, {}, {}, {}) }

  const FRESH: Link := Link(Polling, [], false, true, Reading, [], [], {}, {}, {})

  // ------------------------------------------------------------------ the steps

  datatype Label = LenTest | Push | SetDone | Connect | TestDone | TestEmpty | GiveUp | On(h: nat, act: Action)

  datatype Action = TryPop | LoadDone | Serve | Die | Break(keep: nat, keepEnd: bool)
                  | Receive | Advance | Chunk(partial: string) | Complete | Fail

  /** One step of the system, `None` when it is not enabled. */
  function Next(env: Env, s: Sys, l: Label): Option<Sys> {
    match l
    case LenTest =>
      if s.next < |env.plan| && !s.ready && |s.queue| < QUEUE_CAP then Some(s.(ready := true)) else None
    case Push =>
      if s.ready then Some(s.(ready := false, queue := s.queue + [s.next], next := s.next + 1)) else None
    case SetDone =>
      if s.next == |env.plan| && !s.ready then Some(s.(done := true)) else None
    case Connect =>
      if s.accept == Listening then Some(s.(links := s.links + [FRESH])) else None
    case TestDone =>
      if s.accept == Listening && s.links != [] && s.done && AllRetired(s.links) then Some(s.(accept := SawDone))
          else None
    case TestEmpty =>
      if s.accept == SawDone then Some(s.(accept := if s.queue == [] then Closed(true) else Listening)) else None
    case GiveUp =>
      if s.accept == Listening && AllRetired(s.links) then Some(s.(accept := Closed(false))) else None
    case On(h, act) => if h < |s.links| then Act(env, s, h, act) else None
  }

  predicate AllRetired(links: seq<Link>) { forall i | 0 <= i < |links| :: links[i].handler.Retired? }

  function Act(env: Env, s: Sys, h: nat, act: Action): Option<Sys>
    requires h < |s.links|
  {
    var l := s.links[h];
    match act
    case TryPop =>
      if !l.handler.Polling? then None
      else if s.queue == [] then Some(s.(links := s.links[h := l.(handler := Missed)]))
      else Some(s.(queue := s.queue[1..], links := s.links[h := l.(handler := Holding(s.queue[0]))]))
    case Advance => Work(env, s, h)
    case Chunk(partial) => WriteSome(env, s, h, partial)
    case _ =>
      match Move(env, l, act, s.done)
      case None => None
      case Some(m) => Some(s.(links := s.links[h := m]))
  }

  /** The actions that touch nothing but one connection and its two ends. */
  function Move(env: Env, l: Link, act: Action, done: bool): Option<Link> {
    match act
    case LoadDone =>
      if !l.handler.Missed? then None
      else if done then Some(l.(handler := Retired, told := l.up))
      else Some(l.(handler := Polling))
    case Serve =>
      if !l.handler.Holding? then None
      else if l.up then Some(l.(handler := Polling, wire := l.wire + [l.handler.id]))
      else Some(l.(handler := Polling, lost := l.lost + [l.handler.id]))
    case Die =>
      if l.handler.Retired? then None
      else Some(l.(handler := Retired, up := false, lost := l.lost + HeldIds(l.handler)))
    case Break(keep, keepEnd) =>
      if keep > |l.wire| then None
      else Some(l.(up := false, wire := l.wire[..keep], lost := l.lost + l.wire[keep..],
                   told := l.told && keep == |l.wire| && keepEnd))
    case Receive =>
      if !l.worker.Reading? then None
      else if l.wire != [] then Some(l.(wire := l.wire[1..], worker := Busy(l.wire[0], 0, {}, false)))
      else if l.told then Some(l.(worker := Ended(true, None)))
      else None
    case Complete =>
      if l.worker.Busy? && l.worker.id < |env.plan| && l.worker.pc == |Ops(env.site, env.plan[l.worker.id])|
      then Some(l.(worker := Reading, delivered := l.delivered + [l.worker.id]))
      else None
    case Fail =>
      if l.worker.Ended? then None
      else
        var cut := if l.worker.Busy? then Some((l.worker.id, l.worker.pc)) else None;
        Some(l.(up := false, told := false, wire := [], lost := l.lost + BusyIds(l.worker) + l.wire,
                worker := Ended(l.delivered == [] && cut == None, cut)))
    case _ => None
  }

  function HeldIds(h: Handler): seq<nat> { if h.Holding? then [h.id] else [] }

  function BusyIds(w: Worker): seq<nat> { if w.Busy? then [w.id] else [] }

  /** The action a busy worker is at. */
  function At(env: Env, w: Worker): Option<Op> {
    if w.Busy? && w.id < |env.plan| && w.pc < |Ops(env.site, env.plan[w.id])|
    then Some(Ops(env.site, env.plan[w.id])[w.pc]) else None
  }

  predicate Wants(env: Env, files: Files, d: Doc, p: Path) { env.stream || NeedFetch(files, p, d.size, d.mtime) }

  function Work(env: Env, s: Sys, h: nat): Option<Sys>
    requires h < |s.links|
  {
    var l := s.links[h];
    match At(env, l.worker)
    case None => None
    case Some(op) =>
      var w := l.worker.(pc := l.worker.pc + 1, open := false);
      var m := l.(worker := w);
      match op
      case MakeDir(p) => Some(s.(dirs := s.dirs + {p}, links := s.links[h := m.(made := l.made + {p})]))
      case AddRoot(p) => Some(s.(roots := s.roots + {p}, links := s.links[h := m.(rooted := l.rooted + {p})]))
      case See(p) => Some(s.(seen := s.seen + {p}, links := s.links[h := m.(saw := l.saw + {p})]))
      case Look(d, p) =>
        var wants := if Wants(env, s.files, d, p) then w.wants + {p} else w.wants;
        Some(s.(links := s.links[h := m.(worker := w.(wants := wants))]))
      case Fetch(d, p) =>
        var files := if p in w.wants && d.body.Some? then s.files[p := File(d.body.value, FromTicks(d.mtime))]
            else s.files;
        Some(s.(files := files, links := s.links[h := m]))
  }

  /** A wanted file is created and grows before its body is complete. */
  function WriteSome(env: Env, s: Sys, h: nat, partial: string): Option<Sys>
    requires h < |s.links|
  {
    var l := s.links[h];
    match At(env, l.worker)
    case Some(Fetch(d, p)) =>
      if p in l.worker.wants && d.body.Some?
      then Some(s.(files := s.files[p := File(partial, env.site.now)],
                   links := s.links[h := l.(worker := l.worker.(open := true))]))
      else None
    case _ => None
  }

  /** A whole run: the steps of every party in the order they happened. */
  function Run(env: Env, s: Sys, trace: seq<Label>): Option<Sys>
    decreases |trace|
  {
    if trace == [] then Some(s)
    else match Next(env, s, trace[0])
      case None => None
      case Some(t) => Run(env, t, trace[1..])
  }

  // ------------------------------------------------------------------ conservation

  /** How often a list names a unit. */
  function Occ(ids: seq<nat>, id: nat): nat {
    if ids == [] then 0 else (if ids[0] == id then 1 else 0) + Occ(ids[1..], id)
  }

  /** How often a connection has taken a unit, wherever the unit is now. */
  function Taken(l: Link, id: nat): nat {
    Occ(l.delivered, id) + Occ(BusyIds(l.worker), id) + Occ(l.wire, id) + Occ(HeldIds(l.handler), id) + Occ(l.lost, id)
  }

  function Total(links: seq<Link>, id: nat): nat {
    if links == [] then 0 else Taken(links[0], id) + Total(links[1..], id)
  }

  /** How many units have left the queue. */
  function Popped(s: Sys): int { s.next - |s.queue| }

  /** Every unit that has left the queue was taken once. */
  ghost predicate Accounted(links: seq<Link>, popped: int) {
    forall id: nat :: Total(links, id) == if id < popped then 1 else 0
  }

  /** Every unit produced is in the queue or with exactly one connection; the queue is in order; it is
      never over its cap; the flag is set only after the last unit. */
  ghost predicate Conserved(env: Env, s: Sys) {
    |s.queue| <= s.next <= |env.plan|
    && (forall k | 0 <= k < |s.queue| :: s.queue[k] == Popped(s) + k)
    && Accounted(s.links, Popped(s))
    && |s.queue| + (if s.ready then 1 else 0) <= QUEUE_CAP
    && (s.ready ==> s.next < |env.plan|)
    && (s.done ==> s.next == |env.plan|)
    && (s.accept == SawDone ==> s.done)
    && (s.accept == Closed(true) ==> s.done && s.queue == [])
  }

  lemma {:induction false} OccAppend(a: seq<nat>, b: seq<nat>, id: nat)
    ensures Occ(a + b, id) == Occ(a, id) + Occ(b, id)
  {
    if a == [] {
      assert a + b == b;
    } else {
      assert (a + b)[1..] == a[1..] + b;
      OccAppend(a[1..], b, id);
    }
  }

  lemma {:induction false} OccMember(ids: seq<nat>, id: nat)
    ensures id in ids <==> Occ(ids, id) > 0
  {
    if ids != [] { OccMember(ids[1..], id); }
  }

  lemma {:induction false} TotalUpdate(links: seq<Link>, h: nat, l: Link, id: nat)
    requires h < |links|
    ensures Total(links[h := l], id) == Total(links, id) - Taken(links[h], id) + Taken(l, id)
  {
    hide Taken;
    if h > 0 {
      assert links[h := l][1..] == links[1..][h - 1 := l];
      TotalUpdate(links[1..], h - 1, l, id);
    } else {
      assert links[h := l][1..] == links[1..];
    }
  }

  lemma {:induction false} TotalSnoc(links: seq<Link>, l: Link, id: nat)
    ensures Total(links + [l], id) == Total(links, id) + Taken(l, id)
  {
    hide Taken;
    if links == [] {
      assert [l][1..] == [];
    } else {
      assert (links + [l])[1..] == links[1..] + [l];
      TotalSnoc(links[1..], l, id);
    }
  }

  lemma {:induction false} TotalMember(links: seq<Link>, h: nat, id: nat)
    requires h < |links|
    ensures Total(links, id) >= Taken(links[h], id)
  {
    hide Taken;
    if h > 0 { TotalMember(links[1..], h - 1, id); }
  }

  lemma {:induction false} TotalWitness(links: seq<Link>, id: nat) returns (h: nat)
    requires Total(links, id) > 0
    ensures h < |links| && Taken(links[h], id) > 0
  {
    hide Taken;
    if Taken(links[0], id) > 0 {
      h := 0;
    } else {
      h := TotalWitness(links[1..], id);
      h := h + 1;
    }
  }

  lemma {:induction false} TotalPair(links: seq<Link>, h: nat, k: nat, id: nat)
    requires h < k < |links|
    ensures Total(links, id) >= Taken(links[h], id) + Taken(links[k], id)
  {
    hide Taken;
    if h > 0 {
      TotalPair(links[1..], h - 1, k - 1, id);
    } else {
      TotalMember(links[1..], k - 1, id);
    }
  }

  /** Moving within a connection keeps what it has taken. */
  lemma MoveKeeps(env: Env, l: Link, act: Action, done: bool, id: nat)
    requires Move(env, l, act, done).Some?
    ensures Taken(Move(env, l, act, done).value, id) == Taken(l, id)
  {
    hide Occ, Ops;
    NothingOccurs(id);
    match act {
      case LoadDone =>
      case Serve =>
        OccAppend(l.wire, [l.handler.id], id);
        OccAppend(l.lost, [l.handler.id], id);
      case Die => OccAppend(l.lost, HeldIds(l.handler), id);
      case Break(keep, _) =>
        OccAppend(l.lost, l.wire[keep..], id);
        OccAppend(l.wire[..keep], l.wire[keep..], id);
        assert l.wire == l.wire[..keep] + l.wire[keep..];
      case Receive =>
        if l.wire != [] {
          OccAppend([l.wire[0]], l.wire[1..], id);
          assert l.wire == [l.wire[0]] + l.wire[1..];
        }
      case Complete => OccAppend(l.delivered, [l.worker.id], id);
      case Fail =>
        OccAppend(l.lost, BusyIds(l.worker), id);
        OccAppend(l.lost + BusyIds(l.worker), l.wire, id);
    }
  }

  lemma NothingOccurs(id: nat)
    ensures Occ([], id) == 0
    ensures forall k: nat :: Occ([k], id) == if k == id then 1 else 0
  {
  }

  /** The steps that act on the destination touch only it, the shared sets and one worker. */
  ghost predicate OnlyWorks(s: Sys, t: Sys, h: nat)
    requires h < |s.links|
  {
    |t.links| == |s.links| && t.links == s.links[h := t.links[h]]
    && (forall id: nat :: Taken(t.links[h], id) == Taken(s.links[h], id))
    && t.next == s.next && t.ready == s.ready && t.done == s.done && t.queue == s.queue && t.accept == s.accept
  }

  lemma SameTaken(l: Link, m: Link)
    requires m.handler == l.handler && m.wire == l.wire && m.delivered == l.delivered && m.lost == l.lost
    requires BusyIds(m.worker) == BusyIds(l.worker)
    ensures forall id: nat :: Taken(m, id) == Taken(l, id)
  {
  }

  lemma WorkTakes(env: Env, s: Sys, h: nat)
    requires h < |s.links| && Work(env, s, h).Some?
    ensures var t := Work(env, s, h).value;
            |t.links| == |s.links| && forall id: nat :: Taken(t.links[h], id) == Taken(s.links[h], id)
  {
    hide Ops, Wants, Taken;
    SameTaken(s.links[h], Work(env, s, h).value.links[h]);
  }

  lemma WorkOnlyWorks(env: Env, s: Sys, h: nat)
    requires h < |s.links| && Work(env, s, h).Some?
    ensures OnlyWorks(s, Work(env, s, h).value, h)
  {
    hide At, Wants, Taken;
    WorkTakes(env, s, h);
  }

  lemma WriteOnlyWorks(env: Env, s: Sys, h: nat, partial: string)
    requires h < |s.links| && WriteSome(env, s, h, partial).Some?
    ensures OnlyWorks(s, WriteSome(env, s, h, partial).value, h)
  {
  }

  lemma QuietConserves(env: Env, s: Sys, t: Sys, h: nat)
    requires Conserved(env, s) && h < |s.links| && OnlyWorks(s, t, h)
    ensures Conserved(env, t)
  {
    hide Total, Taken;
    forall id: nat ensures Total(t.links, id) == if id < Popped(t) then 1 else 0 {
      TotalUpdate(s.links, h, t.links[h], id);
    }
  }

  lemma PopConserves(env: Env, s: Sys, h: nat)
    requires Conserved(env, s) && h < |s.links| && Act(env, s, h, TryPop).Some?
    ensures Conserved(env, Act(env, s, h, TryPop).value)
  {
    hide Total, Occ;
    var t := Act(env, s, h, TryPop).value;
    forall id: nat ensures Total(t.links, id) == if id < Popped(t) then 1 else 0 {
      NothingOccurs(id);
      TotalUpdate(s.links, h, t.links[h], id);
    }
  }

  lemma ActConserves(env: Env, s: Sys, h: nat, act: Action)
    requires Conserved(env, s) && h < |s.links| && Act(env, s, h, act).Some?
    ensures Conserved(env, Act(env, s, h, act).value)
  {
    hide Move, Work, WriteSome, Taken, Conserved;
    var t := Act(env, s, h, act).value;
    match act {
      case TryPop => PopConserves(env, s, h);
      case Advance =>
        WorkOnlyWorks(env, s, h);
        QuietConserves(env, s, t, h);
      case Chunk(partial) =>
        WriteOnlyWorks(env, s, h, partial);
        QuietConserves(env, s, t, h);
      case _ =>
        forall id: nat ensures Taken(t.links[h], id) == Taken(s.links[h], id) {
          MoveKeeps(env, s.links[h], act, s.done, id);
        }
        QuietConserves(env, s, t, h);
    }
  }

  lemma ConnectConserves(env: Env, s: Sys)
    requires Conserved(env, s)
    ensures Conserved(env, s.(links := s.links + [FRESH]))
  {
    hide Total;
    var t := s.(links := s.links + [FRESH]);
    forall id: nat ensures Total(t.links, id) == if id < Popped(t) then 1 else 0 {
      TotalSnoc(s.links, FRESH, id);
    }
  }

  lemma NextConserves(env: Env, s: Sys, l: Label)
    requires Conserved(env, s) && Next(env, s, l).Some?
    ensures Conserved(env, Next(env, s, l).value)
  {
    hide Act, Accounted;
    match l {
      case On(h, act) => ActConserves(env, s, h, act);
      case Connect => ConnectConserves(env, s);
      case _ => assert Popped(Next(env, s, l).value) == Popped(s);
    }
  }

  lemma StartConserved(env: Env)
    ensures Conserved(env, Start(env))
  {
  }

  /** Conservation holds in every state any interleaving can reach. */
  lemma {:induction false} AlwaysConserved(env: Env, s: Sys, trace: seq<Label>)
    requires Conserved(env, s) && Run(env, s, trace).Some?
    ensures Conserved(env, Run(env, s, trace).value)
    decreases |trace|
  {
    hide Next, Conserved;
    if trace != [] {
      NextConserves(env, s, trace[0]);
      AlwaysConserved(env, Next(env, s, trace[0]).value, trace[1..]);
    }
  }

  /** Unit conservation, over all runs: a unit that has left the queue is with exactly one connection,
      exactly once; all others are still queued, in order, or not yet produced; the queue never holds
      more than 256 although its length is tested before the push and not with it. */
  lemma UnitsAreConserved(env: Env, trace: seq<Label>, id: nat)
    requires Run(env, Start(env), trace).Some?
    ensures var s := Run(env, Start(env), trace).value;
            |s.queue| <= 256 && |s.queue| <= s.next
            && (forall k | 0 <= k < |s.queue| :: s.queue[k] == Popped(s) + k)
            && Total(s.links, id) == if id < Popped(s) then 1 else 0
  {
    StartConserved(env);
    AlwaysConserved(env, Start(env), trace);
  }

  /** The server's clean finish: every unit has been produced and taken from the queue by a connection. */
  lemma CleanFinishDrains(env: Env, trace: seq<Label>, id: nat)
    requires Run(env, Start(env), trace).Some? && id < |env.plan|
    requires Run(env, Start(env), trace).value.accept == Closed(true)
    ensures var s := Run(env, Start(env), trace).value;
            s.queue == [] && exists h :: 0 <= h < |s.links| && Taken(s.links[h], id) == 1
  {
    hide Taken, Run;
    var s := Run(env, Start(env), trace).value;
    StartConserved(env);
    AlwaysConserved(env, Start(env), trace);
    var h := TotalWitness(s.links, id);
    TotalMember(s.links, h, id);
  }

  /** The server closes last: with every handler back, and cleanly only when there was one. */
  predicate ClosedLast(s: Sys) {
    (s.accept != Listening ==> AllRetired(s.links)) && (s.accept in {SawDone, Closed(true)} ==> s.links != [])
  }

  lemma MoveStaysRetired(env: Env, l: Link, act: Action, done: bool)
    requires Move(env, l, act, done).Some? && l.handler.Retired?
    ensures Move(env, l, act, done).value.handler.Retired?
  {
  }

  lemma ActClosesLast(env: Env, s: Sys, h: nat, act: Action)
    requires ClosedLast(s) && h < |s.links| && Act(env, s, h, act).Some?
    ensures ClosedLast(Act(env, s, h, act).value)
  {
    hide Move, Ops, Wants, At;
    match act {
      case TryPop =>
      case Advance =>
      case Chunk(_) =>
      case _ => if s.links[h].handler.Retired? { MoveStaysRetired(env, s.links[h], act, s.done); }
    }
  }

  lemma {:induction false} AlwaysClosesLast(env: Env, s: Sys, trace: seq<Label>)
    requires ClosedLast(s) && Run(env, s, trace).Some?
    ensures ClosedLast(Run(env, s, trace).value)
    decreases |trace|
  {
    hide Act;
    if trace != [] {
      if trace[0].On? { ActClosesLast(env, s, trace[0].h, trace[0].act); }
      AlwaysClosesLast(env, Next(env, s, trace[0]).value, trace[1..]);
    }
  }

  /** Over all runs: once the server has stopped accepting, no handler is still at work, and it has stopped
      cleanly only after at least one connection and after the last unit was produced and taken. */
  lemma ServerClosesLast(env: Env, trace: seq<Label>)
    requires Run(env, Start(env), trace).Some? && Run(env, Start(env), trace).value.accept.Closed?
    ensures var s := Run(env, Start(env), trace).value;
            (forall h | 0 <= h < |s.links| :: s.links[h].handler == Retired)
            && (s.accept.clean ==> s.links != [] && s.next == |env.plan| && s.queue == [])
  {
    hide Run;
    StartConserved(env);
    AlwaysConserved(env, Start(env), trace);
    StartNotClosed(env);
    AlwaysClosesLast(env, Start(env), trace);
  }

  lemma StartNotClosed(env: Env)
    ensures ClosedLast(Start(env))
  {
  }

  // ------------------------------------------------------------------ verdicts and dates

  /** A worker's verdict: a break inside a unit is never forgiven, one before the first unit always is. */
  predicate Judged(l: Link) {
    l.worker.Ended? ==>
      (l.worker.cut.Some? ==> !l.worker.ok) && (l.delivered == [] && l.worker.cut == None ==> l.worker.ok)
  }

  predicate AllJudged(links: seq<Link>) { forall h | 0 <= h < |links| :: Judged(links[h]) }

  lemma MoveJudged(env: Env, l: Link, act: Action, done: bool)
    requires Move(env, l, act, done).Some? && Judged(l)
    ensures Judged(Move(env, l, act, done).value)
  {
  }

  lemma ActJudged(env: Env, s: Sys, h: nat, act: Action)
    requires AllJudged(s.links) && h < |s.links| && Act(env, s, h, act).Some?
    ensures AllJudged(Act(env, s, h, act).value.links)
  {
    hide Move, Ops, Wants;
    match act {
      case TryPop =>
      case Advance =>
      case Chunk(_) =>
      case _ => MoveJudged(env, s.links[h], act, s.done);
    }
  }

  /** Has this file been fetched: does it hold all of what some unit offers for its path, with the offered time? */
  ghost predicate Fetched(env: Env, p: Path, f: File) {
    exists id: nat, d |
      id < |env.plan| && Fetch(d, p) in Ops(env.site, env.plan[id]) ::
      d.body.Some? && f == File(d.body.value, FromTicks(d.mtime))
  }

  /** A file is as it was, or complete, or has the time of an attempt. */
  ghost predicate Dated(env: Env, files: Files) {
    forall p | p in files ::
      files[p].modified == env.site.now || Fetched(env, p, files[p])
      || (p in env.before && env.before[p] == files[p])
  }

  lemma FetchDated(env: Env, files: Files, w: Worker, d: Doc, p: Path)
    requires Dated(env, files) && At(env, w) == Some(Fetch(d, p)) && d.body.Some?
    ensures Dated(env, files[p := File(d.body.value, FromTicks(d.mtime))])
  {
    hide Ops, FromTicks;
    var f := File(d.body.value, FromTicks(d.mtime));
    assert Fetch(d, p) in Ops(env.site, env.plan[w.id]);
    assert Fetched(env, p, f);
  }

  lemma ActDated(env: Env, s: Sys, h: nat, act: Action)
    requires Dated(env, s.files) && h < |s.links| && Act(env, s, h, act).Some?
    ensures Dated(env, Act(env, s, h, act).value.files)
  {
    hide Move, Ops, Wants, FromTicks, Dated, At;
    var w := s.links[h].worker;
    match act {
      case Advance =>
        match At(env, w) {
          case Some(Fetch(d, p)) => if d.body.Some? { FetchDated(env, s.files, w, d, p); }
          case _ =>
        }
      case Chunk(partial) =>
        match At(env, w) {
          case Some(Fetch(d, p)) => PartDated(env, s.files, p, partial);
          case _ =>
        }
      case _ =>
    }
  }

  lemma PartDated(env: Env, files: Files, p: Path, partial: string)
    requires Dated(env, files)
    ensures Dated(env, files[p := File(partial, env.site.now)])
  {
    hide Fetched;
  }

  lemma {:induction false} RunJudgedDated(env: Env, s: Sys, trace: seq<Label>)
    requires AllJudged(s.links) && Dated(env, s.files) && Run(env, s, trace).Some?
    ensures AllJudged(Run(env, s, trace).value.links) && Dated(env, Run(env, s, trace).value.files)
    decreases |trace|
  {
    hide Act, Dated, Judged;
    if trace != [] {
      if trace[0].On? {
        ActJudged(env, s, trace[0].h, trace[0].act);
        ActDated(env, s, trace[0].h, trace[0].act);
      } else {
        FreshJudged();
      }
      RunJudgedDated(env, Next(env, s, trace[0]).value, trace[1..]);
    }
  }

  lemma FreshJudged()
    ensures Judged(FRESH)
  {
  }

  /** Over all runs, failures included: a stream that ends without having been given a unit ends well, one that
      breaks off inside a unit does not; and no file that is not complete carries the time it is offered with
      (unless that is the time of the attempt), so the next run asks for it again. */
  lemma NoHalfFilePasses(env: Env, trace: seq<Label>)
    requires Run(env, Start(env), trace).Some?
    ensures var s := Run(env, Start(env), trace).value;
            (forall h | 0 <= h < |s.links| && s.links[h].worker.Ended? ::
               (s.links[h].worker.cut.Some? ==> !s.links[h].worker.ok)
               && (s.links[h].delivered == [] && s.links[h].worker.cut == None ==> s.links[h].worker.ok))
            && forall p | p in s.files ::
                 s.files[p].modified == env.site.now || Fetched(env, p, s.files[p])
                 || (p in env.before && env.before[p] == s.files[p])
  {
    hide Run, Fetched;
    RunJudgedDated(env, Start(env), trace);
  }

  /** No two connections take the same unit, and none takes one twice. */
  lemma OneHolder(env: Env, s: Sys, h: nat, k: nat, id: nat)
    requires Conserved(env, s) && h < |s.links| && k < |s.links|
    requires Taken(s.links[h], id) > 0 && Taken(s.links[k], id) > 0
    ensures h == k && Taken(s.links[h], id) == 1 && id < |env.plan|
  {
    hide Taken;
    TotalMember(s.links, h, id);
    if h < k { TotalPair(s.links, h, k, id); }
    if k < h { TotalPair(s.links, k, h, id); }
  }
}
