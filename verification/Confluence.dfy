/** What the parallel mode does to the destination: whatever the interleaving, it ends where the
    single stream ends, and it deletes exactly what it did not deliver. */
module Confluence {
  import opened Text
  import opened Paths
  import opened Receiver
  import opened Transcript
  import M = Mirror
  import opened Convergence
  import opened Parallel

  // ------------------------------------------------------------------ what was done so far

  datatype Kind = Dirs | Roots | Seen | Written

  predicate Is(kind: Kind, op: Op) {
    match kind case Dirs => op.MakeDir? case Roots => op.AddRoot? case Seen => op.See? case Written => op.Fetch?
  }

  /** The paths some actions of a kind are about. */
  function Pick(kind: Kind, ops: seq<Op>): set<Path> { set o | o in ops && Is(kind, o) :: o.path }

  function OpsOf(env: Env, id: nat): seq<Op> { if id < |env.plan| then Ops(env.site, env.plan[id]) else [] }

  function WholeUnits(env: Env, kind: Kind, ids: seq<nat>): set<Path> {
    if ids == [] then {} else WholeUnits(env, kind, ids[..|ids| - 1]) + Pick(kind, OpsOf(env, ids[|ids| - 1]))
  }

  /** The unit a worker is in or was cut off in, and how far it came. */
  function Current(w: Worker): Option<(nat, nat)> {
    match w case Reading => None case Busy(id, pc, _, _) => Some((id, pc)) case Ended(_, cut) => cut
  }

  function PartUnit(env: Env, kind: Kind, w: Worker): set<Path> {
    match Current(w)
    case None => {}
    case Some((id, pc)) => if pc <= |OpsOf(env, id)| then Pick(kind, OpsOf(env, id)[..pc]) else {}
  }

  /** Everything of a kind that a connection has brought about. */
  function Reach(env: Env, kind: Kind, l: Link): set<Path> {
    WholeUnits(env, kind, l.delivered) + PartUnit(env, kind, l.worker)
  }

  lemma PickSnoc(kind: Kind, ops: seq<Op>, i: nat)
    requires i < |ops|
    ensures Pick(kind, ops[..i + 1]) == Pick(kind, ops[..i]) + if Is(kind, ops[i]) then {ops[i].path} else {}
  {
  }

  // ------------------------------------------------------------------ one connection

  /** What a busy worker wants, as decided on the files at the start. */
  function WantedBy(env: Env, ops: seq<Op>): set<Path> {
    set o | o in ops && o.Look? && Wants(env, env.before, o.doc, o.path) :: o.path
  }

  predicate HandlerOk(l: Link) {
    (l.told ==> l.handler.Retired? && l.lost == [])
    && (l.up ==> l.lost == [])
    && (l.worker.Ended? ==>
          l.wire == [] && (l.up ==> l.handler.Retired?)
          && (l.worker.cut.Some? ==> l.worker.cut.value.0 in l.lost)
          && (l.worker.ok ==> l.worker.cut == None && (l.delivered == [] || (l.lost == [] && l.handler.Retired?))))
  }

  predicate WorkerOk(env: Env, l: Link) {
    l.saw == Reach(env, Seen, l) && l.rooted == Reach(env, Roots, l) && l.made == Reach(env, Dirs, l)
    && (Current(l.worker).Some? ==> Current(l.worker).value.1 <= |OpsOf(env, Current(l.worker).value.0)|)
    && (l.worker.Busy? ==>
          l.worker.wants == WantedBy(env, OpsOf(env, l.worker.id)[..l.worker.pc])
          && (l.worker.open ==> Writing(env, l.worker).Some?))
  }

  /** The file a worker is writing. */
  function Writing(env: Env, w: Worker): Option<Path> {
    match At(env, w)
    case Some(Fetch(d, p)) => if w.open && p in w.wants && d.body.Some? then Some(p) else None
    case _ => None
  }

  lemma MoveHandlerOk(env: Env, l: Link, act: Action, done: bool)
    requires HandlerOk(l) && Move(env, l, act, done).Some?
    ensures HandlerOk(Move(env, l, act, done).value)
  {
  }

  lemma MoveReach(env: Env, l: Link, act: Action, done: bool, kind: Kind)
    requires WorkerOk(env, l) && Move(env, l, act, done).Some?
    ensures Reach(env, kind, Move(env, l, act, done).value) == Reach(env, kind, l)
  {
    hide Ops, Pick, WantedBy;
    match act {
      case Receive => if l.wire != [] { NothingPicked(kind, OpsOf(env, l.wire[0])); }
      case Complete =>
        var ops := OpsOf(env, l.worker.id);
        assert ops[..|ops|] == ops;
        assert (l.delivered + [l.worker.id])[..|l.delivered|] == l.delivered;
      case _ =>
    }
  }

  lemma NothingPicked(kind: Kind, ops: seq<Op>)
    ensures Pick(kind, ops[..0]) == {}
  {
  }

  lemma MoveWorkerOk(env: Env, l: Link, act: Action, done: bool)
    requires WorkerOk(env, l) && Move(env, l, act, done).Some?
    ensures WorkerOk(env, Move(env, l, act, done).value)
  {
    hide Ops, Pick, Reach, Wants;
    MoveReach(env, l, act, done, Seen);
    MoveReach(env, l, act, done, Roots);
    MoveReach(env, l, act, done, Dirs);
  }

  /** One action further: its path joins what was brought about. */
  lemma AdvanceReach(env: Env, l: Link, m: Link, kind: Kind)
    requires At(env, l.worker).Some? && m.delivered == l.delivered && m.worker.Busy?
    requires m.worker.id == l.worker.id && m.worker.pc == l.worker.pc + 1
    ensures Reach(env, kind, m) ==
            Reach(env, kind, l) + if Is(kind, At(env, l.worker).value) then {At(env, l.worker).value.path} else {}
  {
    hide Ops, Pick;
    PickSnoc(kind, OpsOf(env, l.worker.id), l.worker.pc);
  }

  lemma WantedSnoc(env: Env, ops: seq<Op>, i: nat)
    requires i < |ops|
    ensures WantedBy(env, ops[..i + 1]) == WantedBy(env, ops[..i])
              + if ops[i].Look? && Wants(env, env.before, ops[i].doc, ops[i].path) then {ops[i].path} else {}
  {
  }

  /** Looking at a path gives the answer it would have given at the start. */
  predicate FaithfulLook(env: Env, files: Files, op: Op) {
    op.Look? ==> (Wants(env, files, op.doc, op.path) <==> Wants(env, env.before, op.doc, op.path))
  }

  lemma WorkWorkerOk(env: Env, s: Sys, h: nat, t: Sys)
    requires h < |s.links| && WorkerOk(env, s.links[h]) && HandlerOk(s.links[h])
    requires Work(env, s, h) == Some(t) && h < |t.links|
    requires FaithfulLook(env, s.files, At(env, s.links[h].worker).value)
    ensures WorkerOk(env, t.links[h]) && HandlerOk(t.links[h])
  {
    hide Ops, Reach, Wants, NeedFetch, WantedBy, SafeJoin;
    var l, m := s.links[h], t.links[h];
    AdvanceReach(env, l, m, Seen);
    AdvanceReach(env, l, m, Roots);
    AdvanceReach(env, l, m, Dirs);
    WantedSnoc(env, OpsOf(env, l.worker.id), l.worker.pc);
  }

  lemma WriteWorkerOk(env: Env, s: Sys, h: nat, partial: string, t: Sys)
    requires h < |s.links| && WorkerOk(env, s.links[h]) && HandlerOk(s.links[h])
    requires WriteSome(env, s, h, partial) == Some(t) && h < |t.links|
    ensures WorkerOk(env, t.links[h]) && HandlerOk(t.links[h])
  {
    hide Ops, Pick, WantedBy;
  }

  // ------------------------------------------------------------------ the shared sets

  function Field(kind: Kind, l: Link): set<Path> {
    match kind case Dirs => l.made case Roots => l.rooted case _ => l.saw
  }

  function Gather(kind: Kind, links: seq<Link>): set<Path> {
    if links == [] then {} else Field(kind, links[0]) + Gather(kind, links[1..])
  }

  lemma {:induction false} GatherUpdate(kind: Kind, links: seq<Link>, h: nat, m: Link, more: set<Path>)
    requires h < |links| && Field(kind, m) == Field(kind, links[h]) + more
    ensures Gather(kind, links[h := m]) == Gather(kind, links) + more
  {
    hide Field;
    if h > 0 {
      assert links[h := m][1..] == links[1..][h - 1 := m];
      GatherUpdate(kind, links[1..], h - 1, m, more);
    } else {
      assert links[h := m][1..] == links[1..];
    }
  }

  lemma {:induction false} GatherSnoc(kind: Kind, links: seq<Link>, l: Link)
    ensures Gather(kind, links + [l]) == Gather(kind, links) + Field(kind, l)
  {
    hide Field;
    if links == [] {
      assert [l][1..] == [];
    } else {
      assert (links + [l])[1..] == links[1..] + [l];
      GatherSnoc(kind, links[1..], l);
    }
  }

  lemma {:induction false} GatherMember(kind: Kind, links: seq<Link>, p: Path)
    ensures p in Gather(kind, links) <==> exists h | 0 <= h < |links| :: p in Field(kind, links[h])
  {
    hide Field;
    if links != [] {
      GatherMember(kind, links[1..], p);
      if p in Gather(kind, links[1..]) {
        var h :| 0 <= h < |links[1..]| && p in Field(kind, links[1..][h]);
        assert p in Field(kind, links[h + 1]);
      }
      if h :| 0 <= h < |links| && p in Field(kind, links[h]) {
        assert h > 0 ==> p in Field(kind, links[1..][h - 1]);
      }
    }
  }

  predicate SharedOk(s: Sys) {
    s.seen == Gather(Seen, s.links) && s.roots == Gather(Roots, s.links) && s.dirs == Gather(Dirs, s.links)
  }

  lemma MoveSharedOk(s: Sys, h: nat, m: Link)
    requires h < |s.links| && SharedOk(s)
    requires m.saw == s.links[h].saw && m.rooted == s.links[h].rooted && m.made == s.links[h].made
    ensures SharedOk(s.(links := s.links[h := m]))
  {
    GatherUpdate(Seen, s.links, h, m, {});
    GatherUpdate(Roots, s.links, h, m, {});
    GatherUpdate(Dirs, s.links, h, m, {});
  }

  lemma WorkSharedOk(env: Env, s: Sys, h: nat)
    requires h < |s.links| && SharedOk(s) && Work(env, s, h).Some?
    ensures SharedOk(Work(env, s, h).value)
  {
    hide Ops, Wants, Gather;
    var m, op := Work(env, s, h).value.links[h], At(env, s.links[h].worker).value;
    GatherUpdate(Seen, s.links, h, m, if op.See? then {op.path} else {});
    GatherUpdate(Roots, s.links, h, m, if op.AddRoot? then {op.path} else {});
    GatherUpdate(Dirs, s.links, h, m, if op.MakeDir? then {op.path} else {});
  }

  // ------------------------------------------------------------------ the shared files

  /** Paths a connection leaves undetermined: those of units it lost, and the one it is writing. */
  predicate Open(env: Env, l: Link, p: Path) {
    p in WholeUnits(env, Written, l.lost) || Writing(env, l.worker) == Some(p)
  }

  predicate AnyOpen(env: Env, links: seq<Link>, p: Path) { exists h | 0 <= h < |links| :: Open(env, links[h], p) }

  predicate AnyReach(env: Env, links: seq<Link>, p: Path) {
    exists h | 0 <= h < |links| :: p in Reach(env, Written, links[h])
  }

  /** What a path ends up with. */
  function Due(env: Env, p: Path): Option<File> {
    M.Expected(env.site, env.before, AllDocs(env.plan), p, env.stream)
  }

  predicate PathOk(env: Env, s: Sys, p: Path) {
    AnyOpen(env, s.links, p) || M.At(s.files, p) == if AnyReach(env, s.links, p) then Due(env, p)
        else M.At(env.before, p)
  }

  ghost predicate FilesOk(env: Env, s: Sys) { forall p :: PathOk(env, s, p) }

  /** A step that writes nothing, keeps what was reached and closes nothing keeps every path. */
  lemma QuietFilesOk(env: Env, s: Sys, t: Sys, h: nat)
    requires h < |s.links| && FilesOk(env, s) && t.files == s.files && |t.links| == |s.links|
    requires t.links == s.links[h := t.links[h]]
    requires Reach(env, Written, t.links[h]) == Reach(env, Written, s.links[h])
    requires forall p | Open(env, s.links[h], p) :: Open(env, t.links[h], p)
    ensures FilesOk(env, t)
  {
    hide Reach, Open, Due;
    forall p ensures PathOk(env, t, p) {
      assert PathOk(env, s, p);
      if k :| 0 <= k < |s.links| && Open(env, s.links[k], p) {
        assert Open(env, t.links[k], p);
      }
      if k :| 0 <= k < |s.links| && p in Reach(env, Written, s.links[k]) {
        assert p in Reach(env, Written, t.links[k]);
      }
      if k :| 0 <= k < |t.links| && p in Reach(env, Written, t.links[k]) {
        assert p in Reach(env, Written, s.links[k]);
      }
    }
  }

  lemma {:induction false} WholeAppend(env: Env, kind: Kind, xs: seq<nat>, ys: seq<nat>)
    ensures WholeUnits(env, kind, xs + ys) == WholeUnits(env, kind, xs) + WholeUnits(env, kind, ys)
    decreases |ys|
  {
    hide Pick, OpsOf;
    if ys == [] {
      assert xs + ys == xs;
    } else {
      assert (xs + ys)[..|xs + ys| - 1] == xs + ys[..|ys| - 1];
      WholeAppend(env, kind, xs, ys[..|ys| - 1]);
    }
  }

  lemma MoveOpens(env: Env, l: Link, act: Action, done: bool, p: Path)
    requires WorkerOk(env, l) && Move(env, l, act, done).Some? && Open(env, l, p)
    ensures Open(env, Move(env, l, act, done).value, p)
  {
    hide Ops, Pick, WantedBy, Reach, WholeUnits;
    match act {
      case Serve => WholeAppend(env, Written, l.lost, [l.handler.id]);
      case Die => WholeAppend(env, Written, l.lost, HeldIds(l.handler));
      case Break(keep, _) => WholeAppend(env, Written, l.lost, l.wire[keep..]);
      case Fail =>
        WholeAppend(env, Written, l.lost, BusyIds(l.worker));
        WholeAppend(env, Written, l.lost + BusyIds(l.worker), l.wire);
        if Writing(env, l.worker) == Some(p) { WritingIsLost(env, l.worker, p); }
      case _ =>
    }
  }

  lemma WritingIsLost(env: Env, w: Worker, p: Path)
    requires Writing(env, w) == Some(p)
    ensures p in WholeUnits(env, Written, BusyIds(w))
  {
  }

  // ------------------------------------------------------------------ the shape of a unit's program

  lemma PickConcat(kind: Kind, a: seq<Op>, b: seq<Op>)
    ensures Pick(kind, a + b) == Pick(kind, a) + Pick(kind, b)
  {
  }

  lemma {:induction false} NotesShape(site: Site, ds: seq<Doc>)
    ensures forall o | o in Notes(site, ds) ::
              !o.Fetch? && !o.MakeDir? && (o.Look? ==> o.doc in ds && M.Target(site, o.doc) == Some(o.path))
    ensures Pick(Seen, Notes(site, ds)) == M.Targets(site, ds)
    ensures Pick(Roots, Notes(site, ds)) == M.DocRoots(site, ds)
  {
    if ds != [] {
      NotesShape(site, ds[1..]);
      PickConcat(Seen, NoteOps(site, ds[0]), Notes(site, ds[1..]));
      PickConcat(Roots, NoteOps(site, ds[0]), Notes(site, ds[1..]));
      NoteShape(site, ds[0]);
    }
  }

  lemma NoteShape(site: Site, d: Doc)
    ensures forall o | o in NoteOps(site, d) ::
              !o.Fetch? && !o.MakeDir? && (o.Look? ==> o.doc == d && M.Target(site, d) == Some(o.path))
    ensures var t := M.Target(site, d);
            Pick(Seen, NoteOps(site, d)) == (if t.Some? then {t.value} else {})
            && Pick(Roots, NoteOps(site, d)) == (if t.Some? then RecordRoot(site.to, {}, d.rel) else {})
            && (t.Some? ==> Look(d, t.value) in NoteOps(site, d))
  {
    hide SafeJoin, RootOf;
    var t := M.Target(site, d);
    if t.Some? {
      var p, tail := t.value, [See(t.value), Look(d, t.value)];
      PickConcat(Seen, RootOps(site, d.rel), tail);
      PickConcat(Roots, RootOps(site, d.rel), tail);
      assert tail[1] == Look(d, p);
      assert See(p) == tail[0];
      RootShape(site, d.rel);
      assert Pick(Seen, tail) == {p} && Pick(Roots, tail) == {};
    }
  }

  lemma RootShape(site: Site, rel: string)
    ensures Pick(Seen, RootOps(site, rel)) == {} && Pick(Written, RootOps(site, rel)) == {}
    ensures Pick(Dirs, RootOps(site, rel)) == {}
    ensures Pick(Roots, RootOps(site, rel)) == RecordRoot(site.to, {}, rel)
  {
  }

  lemma {:induction false} FetchesShape(site: Site, ds: seq<Doc>)
    ensures forall o | o in Fetches(site, ds) ::
              o.Fetch? && o.doc in ds && M.Target(site, o.doc) == Some(o.path) && Look(o.doc, o.path) in Notes(site, ds)
    ensures Pick(Written, Fetches(site, ds)) == M.Targets(site, ds)
  {
    if ds != [] {
      hide Pick, FetchOps, NoteOps, M.Target;
      FetchesShape(site, ds[1..]);
      FetchShape(site, ds[0]);
      PickConcat(Written, FetchOps(site, ds[0]), Fetches(site, ds[1..]));
    }
  }

  lemma FetchShape(site: Site, d: Doc)
    ensures forall o | o in FetchOps(site, d) ::
              o.Fetch? && o.doc == d && M.Target(site, d) == Some(o.path) && Look(d, o.path) in NoteOps(site, d)
    ensures var t := M.Target(site, d); Pick(Written, FetchOps(site, d)) == if t.Some? then {t.value} else {}
  {
    hide SafeJoin, RootOf;
    NoteShape(site, d);
    var t := M.Target(site, d);
    if t.Some? { assert Fetch(d, t.value) in FetchOps(site, d); }
  }

  /** The directory a unit makes. */
  function MadeBy(site: Site, u: Unit): set<Path> {
    if u.Dir? && SafeJoin(site.to, u.rel).Some? then {SafeJoin(site.to, u.rel).value} else {}
  }

  lemma DirShape(site: Site, rel: string, p: Path)
    requires SafeJoin(site.to, rel) == Some(p)
    ensures var ops := [MakeDir(p)] + RootOps(site, rel);
            Pick(Seen, ops) == {} && Pick(Written, ops) == {} && Pick(Dirs, ops) == {p}
            && Pick(Roots, ops) == RecordRoot(site.to, {}, rel)
  {
    hide SafeJoin, RecordRoot, RootOps;
    RootShape(site, rel);
    forall kind ensures Pick(kind, [MakeDir(p)] + RootOps(site, rel))
        == Pick(kind, [MakeDir(p)]) + Pick(kind, RootOps(site, rel)) {
      PickConcat(kind, [MakeDir(p)], RootOps(site, rel));
    }
    assert MakeDir(p) in [MakeDir(p)];
    assert Pick(Dirs, [MakeDir(p)]) == {p};
  }

  lemma NoOps()
    ensures forall kind: Kind :: Pick(kind, []) == {}
  {
  }

  lemma DocsShape(site: Site, ds: seq<Doc>)
    ensures var ops := Notes(site, ds) + Fetches(site, ds);
            Pick(Seen, ops) == M.Targets(site, ds) && Pick(Written, ops) == M.Targets(site, ds)
            && Pick(Roots, ops) == M.DocRoots(site, ds) && Pick(Dirs, ops) == {}
  {
    NotesShape(site, ds);
    FetchesShape(site, ds);
    hide M.Target, M.Targets, M.DocRoots, Notes, Fetches;
    forall kind ensures Pick(kind, Notes(site, ds) + Fetches(site, ds))
        == Pick(kind, Notes(site, ds)) + Pick(kind, Fetches(site, ds)) {
      PickConcat(kind, Notes(site, ds), Fetches(site, ds));
    }
  }

  /** What a finished unit has brought about. */
  lemma UnitShape(site: Site, u: Unit)
    ensures Pick(Seen, Ops(site, u)) == M.Targets(site, UnitDocs(u))
    ensures Pick(Written, Ops(site, u)) == M.Targets(site, UnitDocs(u))
    ensures Pick(Roots, Ops(site, u)) == M.UnitRoots(site, u)
    ensures Pick(Dirs, Ops(site, u)) == MadeBy(site, u)
  {
    hide SafeJoin, RootOf, RecordRoot, Pick;
    if u.Dir? {
      if SafeJoin(site.to, u.rel).Some? {
        DirShape(site, u.rel, SafeJoin(site.to, u.rel).value);
      } else {
        NoOps();
      }
    } else {
      DocsShape(site, UnitDocs(u));
    }
  }

  /** Nothing is written before a look, and every write comes after the look at the same file. */
  lemma LooksComeFirst(site: Site, u: Unit, i: nat)
    requires i < |Ops(site, u)|
    ensures var ops := Ops(site, u); var op := ops[i];
            op.Look? || op.Fetch? ==>
              op.doc in UnitDocs(u) && M.Target(site, op.doc) == Some(op.path)
              && (op.Look? ==> Pick(Written, ops[..i]) == {})
              && (op.Fetch? ==> Look(op.doc, op.path) in ops[..i])
    ensures forall o | o in Ops(site, u) && o.Look? :: o.doc in UnitDocs(u) && M.Target(site, o.doc) == Some(o.path)
  {
    hide SafeJoin, RootOf, Notes, Fetches, Pick, M.Target, M.Targets, M.DocRoots;
    if !u.Dir? {
      var ds := UnitDocs(u);
      NotesShape(site, ds);
      FetchesShape(site, ds);
      if i < |Notes(site, ds)| {
        LookInNotes(site, ds, i);
      } else {
        FetchAfterNotes(site, ds, i);
      }
    }
  }

  lemma LookInNotes(site: Site, ds: seq<Doc>, i: nat)
    requires i < |Notes(site, ds)|
    ensures var ops := Notes(site, ds) + Fetches(site, ds);
            ops[i] in Notes(site, ds) && Pick(Written, ops[..i]) == {}
  {
    hide M.Target, M.Targets, M.DocRoots, Notes, Fetches;
    NotesShape(site, ds);
    var ops := Notes(site, ds) + Fetches(site, ds);
    assert ops[..i] == Notes(site, ds)[..i];
    assert forall o | o in ops[..i] :: o in Notes(site, ds);
  }

  lemma FetchAfterNotes(site: Site, ds: seq<Doc>, i: nat)
    requires |Notes(site, ds)| <= i < |Notes(site, ds)| + |Fetches(site, ds)|
    ensures var ops := Notes(site, ds) + Fetches(site, ds);
            ops[i] in Fetches(site, ds) && forall o | o in Notes(site, ds) :: o in ops[..i]
  {
    hide Notes, Fetches;
    var ops := Notes(site, ds) + Fetches(site, ds);
    assert ops[..i][..|Notes(site, ds)|] == Notes(site, ds);
  }

  // ------------------------------------------------------------------ every path has one unit

  /** The plan offers no target twice. */
  predicate PlanOk(env: Env) { M.Distinct(env.site, AllDocs(env.plan)) }

  lemma {:induction false} DocsWithin(us: seq<Unit>, i: nat, d: Doc)
    requires i < |us| && d in UnitDocs(us[i])
    ensures d in AllDocs(us)
  {
    if i > 0 { DocsWithin(us[1..], i - 1, d); }
  }

  lemma TargetOf(site: Site, ds: seq<Doc>, d: Doc)
    requires d in ds && M.Target(site, d).Some?
    ensures M.Target(site, d).value in M.Targets(site, ds)
  {
  }

  lemma {:induction false} UnitTargetsWithin(site: Site, us: seq<Unit>, j: nat)
    requires j < |us|
    ensures M.Targets(site, UnitDocs(us[j])) <= M.Targets(site, AllDocs(us))
  {
    hide M.Targets;
    M.TargetsAppend(site, UnitDocs(us[0]), AllDocs(us[1..]));
    if j > 0 { UnitTargetsWithin(site, us[1..], j - 1); }
  }

  lemma {:induction false} UnitsApart(site: Site, us: seq<Unit>, i: nat, j: nat)
    requires i < j < |us| && M.Distinct(site, AllDocs(us))
    ensures M.Targets(site, UnitDocs(us[i])) !! M.Targets(site, UnitDocs(us[j]))
  {
    hide M.Targets, M.Distinct;
    M.DistinctAppend(site, UnitDocs(us[0]), AllDocs(us[1..]));
    if i == 0 {
      UnitTargetsWithin(site, us[1..], j - 1);
    } else {
      UnitsApart(site, us[1..], i - 1, j - 1);
    }
  }

  lemma OneUnit(env: Env, i: nat, j: nat, p: Path)
    requires PlanOk(env) && p in Pick(Written, OpsOf(env, i)) && p in Pick(Written, OpsOf(env, j))
    ensures i == j && i < |env.plan|
  {
    hide Ops, M.Distinct;
    UnitShape(env.site, env.plan[i]);
    UnitShape(env.site, env.plan[j]);
    if i < j { UnitsApart(env.site, env.plan, i, j); }
    if j < i { UnitsApart(env.site, env.plan, j, i); }
  }

  /** Two offers of the same target are the same offer. */
  lemma {:induction false} SameDoc(site: Site, ds: seq<Doc>, c: Doc, d: Doc, p: Path)
    requires M.Distinct(site, ds) && c in ds && d in ds && M.Target(site, c) == M.Target(site, d) == Some(p)
    ensures c == d
  {
    hide M.Target;
    if c != d {
      if c == ds[0] {
        TargetOf(site, ds[1..], d);
      } else if d == ds[0] {
        TargetOf(site, ds[1..], c);
      } else {
        SameDoc(site, ds[1..], c, d, p);
      }
    }
  }

  lemma {:induction false} WholeWitness(env: Env, kind: Kind, ids: seq<nat>, p: Path) returns (id: nat)
    requires p in WholeUnits(env, kind, ids)
    ensures id in ids && p in Pick(kind, OpsOf(env, id))
  {
    hide Pick, OpsOf;
    var n := |ids| - 1;
    if p in Pick(kind, OpsOf(env, ids[n])) {
      id := ids[n];
    } else {
      id := WholeWitness(env, kind, ids[..n], p);
    }
  }

  lemma PrefixPick(kind: Kind, ops: seq<Op>, i: nat, p: Path)
    requires i <= |ops| && p in Pick(kind, ops[..i])
    ensures p in Pick(kind, ops)
  {
  }

  // ------------------------------------------------------------------ looking and fetching

  lemma Counted(l: Link, id: nat)
    ensures Taken(l, id) >= (if id in l.delivered then 1 else 0) + (if id in l.lost then 1 else 0)
                            + (if l.worker.Busy? && l.worker.id == id then 1 else 0)
  {
    hide Occ;
    OccMember(l.delivered, id);
    OccMember(l.lost, id);
    NothingOccurs(id);
  }

  /** While a worker is in a unit, no other connection has anything to do with the unit's targets, and
      they are neither delivered nor lost. */
  lemma OwnPath(env: Env, s: Sys, h: nat, k: nat, p: Path)
    requires PlanOk(env) && Conserved(env, s) && h < |s.links| && k < |s.links| && s.links[h].worker.Busy?
    requires HandlerOk(s.links[k]) && p in Pick(Written, OpsOf(env, s.links[h].worker.id))
    ensures p !in WholeUnits(env, Written, s.links[k].lost) && p !in WholeUnits(env, Written, s.links[k].delivered)
    ensures Writing(env, s.links[k].worker) == Some(p) || p in PartUnit(env, Written, s.links[k].worker) ==> h == k
  {
    hide Ops, M.Distinct, Pick, Conserved, Taken;
    var l, id := s.links[k], s.links[h].worker.id;
    Counted(s.links[h], id);
    Counted(l, id);
    if Taken(l, id) > 0 { OneHolder(env, s, h, k, id); }
    if p in WholeUnits(env, Written, l.lost) {
      var j := WholeWitness(env, Written, l.lost, p);
      OneUnit(env, id, j, p);
    }
    if p in WholeUnits(env, Written, l.delivered) {
      var j := WholeWitness(env, Written, l.delivered, p);
      OneUnit(env, id, j, p);
    }
    if Writing(env, l.worker) == Some(p) {
      WritingIsPicked(env, l.worker, p);
      OneUnit(env, id, l.worker.id, p);
    }
    if p in PartUnit(env, Written, l.worker) {
      PrefixPick(Written, OpsOf(env, Current(l.worker).value.0), Current(l.worker).value.1, p);
      OneUnit(env, id, Current(l.worker).value.0, p);
    }
  }

  lemma WritingIsPicked(env: Env, w: Worker, p: Path)
    requires Writing(env, w) == Some(p)
    ensures p in Pick(Written, OpsOf(env, w.id))
  {
  }

  ghost predicate LinksOk(env: Env, s: Sys) {
    forall h | 0 <= h < |s.links| :: HandlerOk(s.links[h]) && WorkerOk(env, s.links[h])
  }

  /** A look sees the file of the start: nobody has touched it yet. */
  lemma LookIsFaithful(env: Env, s: Sys, h: nat)
    requires PlanOk(env) && Conserved(env, s) && LinksOk(env, s) && FilesOk(env, s)
    requires h < |s.links| && At(env, s.links[h].worker).Some?
    ensures FaithfulLook(env, s.files, At(env, s.links[h].worker).value)
  {
    hide Ops, M.Distinct, Pick, Conserved, WorkerOk, HandlerOk, WholeUnits, Due;
    var w, op := s.links[h].worker, At(env, s.links[h].worker).value;
    if op.Look? {
      var p := op.path;
      LooksComeFirst(env.site, env.plan[w.id], w.pc);
      LookedIsPicked(env, w.id, op.doc, p);
      forall k | 0 <= k < |s.links| ensures !Open(env, s.links[k], p) && p !in Reach(env, Written, s.links[k]) {
        OwnPath(env, s, h, k, p);
      }
      assert PathOk(env, s, p);
      assert M.At(s.files, p) == M.At(env.before, p);
    }
  }

  lemma LookedIsPicked(env: Env, id: nat, d: Doc, p: Path)
    requires id < |env.plan| && d in UnitDocs(env.plan[id]) && M.Target(env.site, d) == Some(p)
    ensures p in Pick(Written, OpsOf(env, id))
  {
    hide Ops;
    UnitShape(env.site, env.plan[id]);
    TargetOf(env.site, UnitDocs(env.plan[id]), d);
  }

  /** At a fetch the worker knows whether the file was wanted at the start. */
  lemma FetchIsInformed(env: Env, w: Worker, d: Doc, p: Path)
    requires PlanOk(env) && At(env, w) == Some(Fetch(d, p))
    requires w.wants == WantedBy(env, OpsOf(env, w.id)[..w.pc])
    ensures p in w.wants <==> Wants(env, env.before, d, p)
    ensures Due(env, p) == M.Landed(env.site, env.before, d, p, env.stream)
  {
    hide Ops, M.Distinct, Wants, M.Landed, M.Target;
    var u, ops := env.plan[w.id], OpsOf(env, w.id);
    LooksComeFirst(env.site, u, w.pc);
    DocsWithin(env.plan, w.id, d);
    if p in w.wants {
      var o :| o in ops[..w.pc] && o.Look? && Wants(env, env.before, o.doc, o.path) && o.path == p;
      assert o in ops;
      DocsWithin(env.plan, w.id, o.doc);
      SameDoc(env.site, AllDocs(env.plan), o.doc, d, p);
    }
    if Wants(env, env.before, d, p) {
      var o := Look(d, p);
      assert o in ops[..w.pc] && o.path == p;
    }
    var i :| 0 <= i < |AllDocs(env.plan)| && AllDocs(env.plan)[i] == d;
    M.ExpectedAt(env.site, env.before, AllDocs(env.plan), i, env.stream);
  }

  /** The other connections are as they were. */
  predicate OnlyLink(s: Sys, t: Sys, h: nat) {
    h < |s.links| == |t.links| && t.links == s.links[h := t.links[h]]
  }

  lemma FetchFilesOk(env: Env, s: Sys, h: nat, t: Sys, d: Doc, p: Path)
    requires PlanOk(env) && LinksOk(env, s) && FilesOk(env, s)
    requires h < |s.links| && At(env, s.links[h].worker) == Some(Fetch(d, p))
    requires Work(env, s, h) == Some(t)
    ensures FilesOk(env, t)
  {
    hide Ops, Pick, Conserved, WholeUnits, Due, M.Landed, PlanOk, HandlerOk, Reach;
    var l, m := s.links[h], t.links[h];
    FetchIsInformed(env, l.worker, d, p);
    AdvanceReach(env, l, m, Written);
    forall q ensures PathOk(env, t, q) {
      assert PathOk(env, s, q);
      if q == p {
        assert p in Reach(env, Written, t.links[h]);
        if Wants(env, env.before, d, p) && d.body.Some? {
          FetchLands(env, s, h, t, d, p);
        } else {
          FetchSkips(env, s, h, t, d, p);
          UnwantedStays(env, d, p);
          SkippedPath(env, s, h, t, p);
        }
      } else {
        OtherPath(env, s, h, t, p, q);
      }
    }
  }

  lemma FetchLands(env: Env, s: Sys, h: nat, t: Sys, d: Doc, p: Path)
    requires h < |s.links| && At(env, s.links[h].worker) == Some(Fetch(d, p)) && Work(env, s, h) == Some(t)
    requires p in s.links[h].worker.wants && Wants(env, env.before, d, p) && d.body.Some?
    ensures M.At(t.files, p) == M.Landed(env.site, env.before, d, p, env.stream)
  {
  }

  /** A fetch that writes nothing. */
  lemma FetchSkips(env: Env, s: Sys, h: nat, t: Sys, d: Doc, p: Path)
    requires h < |s.links| && At(env, s.links[h].worker) == Some(Fetch(d, p)) && Work(env, s, h) == Some(t)
    requires !(p in s.links[h].worker.wants && d.body.Some?)
    ensures OnlyLink(s, t, h) && t.files == s.files && t.links[h].lost == s.links[h].lost
    ensures Writing(env, s.links[h].worker) != Some(p)
  {
    hide Ops, NeedFetch;
  }

  lemma UnwantedStays(env: Env, d: Doc, p: Path)
    requires !(Wants(env, env.before, d, p) && d.body.Some?)
    ensures M.Landed(env.site, env.before, d, p, env.stream) == M.At(env.before, p)
  {
  }

  lemma SkippedPath(env: Env, s: Sys, h: nat, t: Sys, p: Path)
    requires OnlyLink(s, t, h) && t.files == s.files && t.links[h].lost == s.links[h].lost
    requires Writing(env, s.links[h].worker) != Some(p) && p in Reach(env, Written, t.links[h])
    requires PathOk(env, s, p) && Due(env, p) == M.At(env.before, p)
    ensures PathOk(env, t, p)
  {
    hide Ops, Pick, WholeUnits, Due, Reach, Writing;
    if k :| 0 <= k < |s.links| && Open(env, s.links[k], p) {
      assert Open(env, t.links[k], p);
    }
  }

  lemma OtherPath(env: Env, s: Sys, h: nat, t: Sys, p: Path, q: Path)
    requires OnlyLink(s, t, h) && q != p && PathOk(env, s, q) && M.At(t.files, q) == M.At(s.files, q)
    requires t.links[h].lost == s.links[h].lost && (Writing(env, s.links[h].worker) == Some(q) ==> q == p)
    requires q in Reach(env, Written, t.links[h]) <==> q in Reach(env, Written, s.links[h])
    ensures PathOk(env, t, q)
  {
    hide Ops, Pick, WholeUnits, Due, Reach, Writing;
    if k :| 0 <= k < |s.links| && Open(env, s.links[k], q) {
      assert Open(env, t.links[k], q);
    }
    if k :| 0 <= k < |s.links| && q in Reach(env, Written, s.links[k]) {
      assert q in Reach(env, Written, t.links[k]);
    }
    if k :| 0 <= k < |t.links| && q in Reach(env, Written, t.links[k]) {
      assert q in Reach(env, Written, s.links[k]);
    }
  }

  lemma WorkFilesOk(env: Env, s: Sys, h: nat, t: Sys)
    requires PlanOk(env) && LinksOk(env, s) && FilesOk(env, s)
    requires h < |s.links| && Work(env, s, h) == Some(t)
    ensures FilesOk(env, t)
  {
    hide Ops, Pick, WholeUnits, FilesOk, HandlerOk, WorkerOk, Wants, PlanOk, Reach;
    var l := s.links[h];
    var op := At(env, l.worker).value;
    if op.Fetch? {
      FetchFilesOk(env, s, h, t, op.doc, op.path);
    } else {
      AdvanceReach(env, l, t.links[h], Written);
      QuietFilesOk(env, s, t, h);
    }
  }

  lemma WriteFilesOk(env: Env, s: Sys, h: nat, partial: string, t: Sys)
    requires LinksOk(env, s) && FilesOk(env, s)
    requires h < |s.links| && WriteSome(env, s, h, partial) == Some(t)
    ensures FilesOk(env, t)
  {
    hide Ops, Pick, WholeUnits, HandlerOk, WorkerOk, Due;
    var l := s.links[h];
    var p := At(env, l.worker).value.path;
    assert Writing(env, t.links[h].worker) == Some(p);
    assert Open(env, t.links[h], p);
    forall q ensures PathOk(env, t, q) {
      assert PathOk(env, s, q);
      if q != p { OtherPath(env, s, h, t, p, q); }
    }
  }

  // ------------------------------------------------------------------ every step, every run

  /** What holds in every reachable state. */
  ghost predicate Good(env: Env, s: Sys) { Conserved(env, s) && LinksOk(env, s) && SharedOk(s) && FilesOk(env, s) }

  lemma ActGood(env: Env, s: Sys, h: nat, act: Action, t: Sys)
    requires PlanOk(env) && Good(env, s) && h < |s.links| && Act(env, s, h, act) == Some(t)
    ensures Good(env, t)
  {
    hide Work, WriteSome, Move, HandlerOk, WorkerOk, Conserved, FilesOk, SharedOk, PlanOk, Reach, Open;
    var l := s.links[h];
    ActConserves(env, s, h, act);
    match act {
      case TryPop =>
        PopGood(env, s, h, t);
      case Advance =>
        WorkOnlyWorks(env, s, h);
        LookFirst(env, s, h, t);
        WorkWorkerOk(env, s, h, t);
        WorkSharedOk(env, s, h);
        WorkFilesOk(env, s, h, t);
      case Chunk(partial) =>
        WriteOnlyWorks(env, s, h, partial);
        WriteWorkerOk(env, s, h, partial, t);
        WriteShared(env, s, h, partial, t);
        WriteFilesOk(env, s, h, partial, t);
      case _ =>
        MoveHandlerOk(env, l, act, s.done);
        MoveWorkerOk(env, l, act, s.done);
        MoveKeepsSets(env, l, act, s.done);
        MoveSharedOk(s, h, t.links[h]);
        MoveReach(env, l, act, s.done, Written);
        forall p | Open(env, l, p) ensures Open(env, t.links[h], p) { MoveOpens(env, l, act, s.done, p); }
        QuietFilesOk(env, s, t, h);
    }
  }

  lemma LookFirst(env: Env, s: Sys, h: nat, t: Sys)
    requires PlanOk(env) && Good(env, s) && h < |s.links| && Work(env, s, h) == Some(t)
    ensures At(env, s.links[h].worker).Some? && FaithfulLook(env, s.files, At(env, s.links[h].worker).value)
  {
    hide FaithfulLook, Conserved, LinksOk, FilesOk, SharedOk, PlanOk;
    LookIsFaithful(env, s, h);
  }

  lemma MoveKeepsSets(env: Env, l: Link, act: Action, done: bool)
    requires Move(env, l, act, done).Some?
    ensures var m := Move(env, l, act, done).value; m.saw == l.saw && m.rooted == l.rooted && m.made == l.made
  {
  }

  lemma WriteShared(env: Env, s: Sys, h: nat, partial: string, t: Sys)
    requires SharedOk(s) && h < |s.links| && WriteSome(env, s, h, partial) == Some(t)
    ensures SharedOk(t)
  {
    hide Ops, Gather;
    MoveSharedOk(s, h, t.links[h]);
  }

  lemma PopGood(env: Env, s: Sys, h: nat, t: Sys)
    requires Good(env, s) && Conserved(env, t) && h < |s.links| && Act(env, s, h, TryPop) == Some(t)
    ensures Good(env, t)
  {
    hide Conserved, FilesOk, Reach, Gather, WholeUnits, Writing;
    MoveSharedOk(s, h, t.links[h]);
    QuietFilesOk(env, s, t, h) by { SameReach(env, s.links[h], t.links[h]); }
    PopLink(env, s.links[h], t.links[h]);
  }

  lemma SameReach(env: Env, l: Link, m: Link)
    requires m.delivered == l.delivered && m.worker == l.worker && m.lost == l.lost
    ensures forall kind :: Reach(env, kind, m) == Reach(env, kind, l)
    ensures forall p :: Open(env, m, p) == Open(env, l, p)
  {
  }

  lemma PopLink(env: Env, l: Link, m: Link)
    requires HandlerOk(l) && WorkerOk(env, l) && l.handler.Polling? && m == l.(handler := m.handler)
    ensures HandlerOk(m) && WorkerOk(env, m)
  {
    hide WantedBy, Writing;
    SameReach(env, l, m);
  }

  lemma ConnectGood(env: Env, s: Sys, t: Sys)
    requires Good(env, s) && Next(env, s, Connect) == Some(t)
    ensures Good(env, t)
  {
    hide Conserved, Reach, Open, Gather, Due;
    ConnectConserves(env, s);
    GatherSnoc(Seen, s.links, FRESH);
    GatherSnoc(Roots, s.links, FRESH);
    GatherSnoc(Dirs, s.links, FRESH);
    FreshLink(env);
    forall p ensures PathOk(env, t, p) {
      assert PathOk(env, s, p);
      if k :| 0 <= k < |s.links| && Open(env, s.links[k], p) {
        assert Open(env, t.links[k], p);
      }
      if k :| 0 <= k < |s.links| && p in Reach(env, Written, s.links[k]) {
        assert p in Reach(env, Written, t.links[k]);
      }
      if k :| 0 <= k < |t.links| && p in Reach(env, Written, t.links[k]) {
        assert k < |s.links| && p in Reach(env, Written, s.links[k]);
      }
    }
  }

  lemma FreshLink(env: Env)
    ensures HandlerOk(FRESH) && WorkerOk(env, FRESH)
    ensures forall kind :: Reach(env, kind, FRESH) == {}
    ensures forall p :: !Open(env, FRESH, p)
  {
  }

  lemma NextGood(env: Env, s: Sys, l: Label, t: Sys)
    requires PlanOk(env) && Good(env, s) && Next(env, s, l) == Some(t)
    ensures Good(env, t)
  {
    hide Act, Conserved, LinksOk, PlanOk, Gather, PathOk;
    NextConserves(env, s, l);
    match l {
      case On(h, act) => ActGood(env, s, h, act, t);
      case Connect => ConnectGood(env, s, t);
      case _ =>
        assert t.links == s.links && t.files == s.files;
        OtherStep(env, s, t);
    }
  }

  lemma OtherStep(env: Env, s: Sys, t: Sys)
    requires t.links == s.links && t.files == s.files && FilesOk(env, s) && LinksOk(env, s)
    ensures FilesOk(env, t) && LinksOk(env, t)
  {
    hide AnyOpen, AnyReach, HandlerOk, WorkerOk, Due;
    forall p ensures PathOk(env, t, p) { assert PathOk(env, s, p); }
  }

  lemma StartGood(env: Env)
    ensures Good(env, Start(env))
  {
  }

  lemma {:induction false} RunGood(env: Env, s: Sys, trace: seq<Label>)
    requires PlanOk(env) && Good(env, s) && Run(env, s, trace).Some?
    ensures Good(env, Run(env, s, trace).value)
    decreases |trace|
  {
    hide Next, Good, PlanOk;
    if trace != [] {
      NextGood(env, s, trace[0], Next(env, s, trace[0]).value);
      RunGood(env, Next(env, s, trace[0]).value, trace[1..]);
    }
  }

  lemma ReachableIsGood(env: Env, trace: seq<Label>)
    requires PlanOk(env) && Run(env, Start(env), trace).Some?
    ensures Good(env, Run(env, Start(env), trace).value)
  {
    hide Good, PlanOk, Run, Start;
    StartGood(env);
    RunGood(env, Start(env), trace);
  }

  // ------------------------------------------------------------------ what was delivered

  predicate Delivered(links: seq<Link>, id: nat) { exists h | 0 <= h < |links| :: id in links[h].delivered }

  /** Is this a target of a delivered unit? */
  ghost predicate DeliveredTarget(env: Env, links: seq<Link>, p: Path) {
    exists id: nat | id < |env.plan| :: Delivered(links, id) && p in M.Targets(env.site, UnitDocs(env.plan[id]))
  }

  ghost predicate DeliveredRoot(env: Env, links: seq<Link>, p: Path) {
    exists id: nat | id < |env.plan| :: Delivered(links, id) && p in M.UnitRoots(env.site, env.plan[id])
  }

  ghost predicate DeliveredDir(env: Env, links: seq<Link>, p: Path) {
    exists id: nat | id < |env.plan| :: Delivered(links, id) && p in MadeBy(env.site, env.plan[id])
  }

  /** The unit in progress, if any, has no actions. */
  predicate NoPartOps(env: Env, w: Worker) {
    Current(w).Some? ==> OpsOf(env, Current(w).value.0) == []
  }

  /** No worker is inside a unit, or was cut off inside one, that does anything. */
  ghost predicate NoPart(env: Env, links: seq<Link>) { forall h | 0 <= h < |links| :: NoPartOps(env, links[h].worker) }

  lemma {:induction false} WholeMember(env: Env, kind: Kind, ids: seq<nat>, id: nat, p: Path)
    requires id in ids && p in Pick(kind, OpsOf(env, id))
    ensures p in WholeUnits(env, kind, ids)
  {
    hide Pick, OpsOf;
    var n := |ids| - 1;
    assert ids == ids[..n] + [ids[n]];
    if id != ids[n] { WholeMember(env, kind, ids[..n], id, p); }
  }

  /** With no unit in progress, what the connections brought about is what the delivered units are
      about. */
  lemma WholeIsDelivered(env: Env, links: seq<Link>, kind: Kind, p: Path)
    requires NoPart(env, links)
    ensures (exists h | 0 <= h < |links| :: p in Reach(env, kind, links[h])) <==>
            exists id: nat | id < |env.plan| :: Delivered(links, id) && p in Pick(kind, OpsOf(env, id))
  {
    hide Pick, Ops;
    NoOps();
    if h :| 0 <= h < |links| && p in Reach(env, kind, links[h]) {
      assert NoPartOps(env, links[h].worker);
      var id := WholeWitness(env, kind, links[h].delivered, p);
      assert Delivered(links, id);
    }
    if id: nat :| id < |env.plan| && Delivered(links, id) && p in Pick(kind, OpsOf(env, id)) {
      var h :| 0 <= h < |links| && id in links[h].delivered;
      WholeMember(env, kind, links[h].delivered, id, p);
      assert p in Reach(env, kind, links[h]);
    }
  }

  lemma FieldIsReach(env: Env, s: Sys, kind: Kind, p: Path)
    requires LinksOk(env, s) && SharedOk(s) && kind != Written
    ensures p in (match kind case Dirs => s.dirs case Roots => s.roots case _ => s.seen) <==>
            exists h | 0 <= h < |s.links| :: p in Reach(env, kind, s.links[h])
  {
    hide Reach, Gather;
    GatherMember(kind, s.links, p);
    if h :| 0 <= h < |s.links| && p in Field(kind, s.links[h]) {
      assert WorkerOk(env, s.links[h]);
      assert p in Reach(env, kind, s.links[h]);
    }
    if h :| 0 <= h < |s.links| && p in Reach(env, kind, s.links[h]) {
      assert WorkerOk(env, s.links[h]);
      assert p in Field(kind, s.links[h]);
    }
  }

  /** The shared sets are those of the delivered units. */
  lemma SetsAreDelivered(env: Env, s: Sys, p: Path)
    requires LinksOk(env, s) && SharedOk(s) && NoPart(env, s.links)
    ensures p in s.seen <==> DeliveredTarget(env, s.links, p)
    ensures p in s.roots <==> DeliveredRoot(env, s.links, p)
    ensures p in s.dirs <==> DeliveredDir(env, s.links, p)
    ensures AnyReach(env, s.links, p) <==> DeliveredTarget(env, s.links, p)
  {
    hide Pick, Ops, Reach, LinksOk, SharedOk, Delivered, MadeBy, M.UnitRoots, M.Targets;
    FieldIsReach(env, s, Seen, p);
    FieldIsReach(env, s, Roots, p);
    FieldIsReach(env, s, Dirs, p);
    WholeIsDelivered(env, s.links, Seen, p);
    WholeIsDelivered(env, s.links, Roots, p);
    WholeIsDelivered(env, s.links, Dirs, p);
    WholeIsDelivered(env, s.links, Written, p);
    forall id: nat | id < |env.plan|
      ensures Pick(Seen, OpsOf(env, id)) == M.Targets(env.site, UnitDocs(env.plan[id]))
      ensures Pick(Written, OpsOf(env, id)) == M.Targets(env.site, UnitDocs(env.plan[id]))
      ensures Pick(Roots, OpsOf(env, id)) == M.UnitRoots(env.site, env.plan[id])
      ensures Pick(Dirs, OpsOf(env, id)) == MadeBy(env.site, env.plan[id])
    {
      UnitShape(env.site, env.plan[id]);
    }
  }

  // ------------------------------------------------------------------ confluence

  function AllMade(site: Site, us: seq<Unit>): set<Path> {
    if us == [] then {} else MadeBy(site, us[0]) + AllMade(site, us[1..])
  }

  lemma {:induction false} UnionsOverUnits(site: Site, us: seq<Unit>, p: Path)
    ensures p in M.Targets(site, AllDocs(us)) <==> exists i: nat | i < |us| :: p in M.Targets(site, UnitDocs(us[i]))
    ensures p in M.Roots(site, us) <==> exists i: nat | i < |us| :: p in M.UnitRoots(site, us[i])
    ensures p in AllMade(site, us) <==> exists i: nat | i < |us| :: p in MadeBy(site, us[i])
  {
    hide M.Target, MadeBy, M.UnitRoots, UnitDocs;
    if us != [] {
      UnionsOverUnits(site, us[1..], p);
      M.TargetsAppend(site, UnitDocs(us[0]), AllDocs(us[1..]));
      assert forall i: nat | i < |us[1..]| :: us[1..][i] == us[i + 1];
      assert forall i: nat | 0 < i < |us| :: us[i] == us[1..][i - 1];
    }
  }

  lemma {:induction false} WriteAllKeepsDirs(st: St, slots: seq<Option<Slot>>, ds: seq<Doc>)
    requires |slots| == |ds|
    ensures WriteAll(st, slots, ds).dirs == st.dirs
    decreases |ds|
  {
    if ds != [] {
      WriteAllKeepsDirs(if ds[0].body.None? then st else Placed(st, slots[0], ds[0].body.value), slots[1..], ds[1..]);
    }
  }

  lemma ApplyDirs(site: Site, st: St, u: Unit, stream: bool)
    ensures Apply(site, st, u, stream).dirs == st.dirs + MadeBy(site, u)
  {
    hide SafeJoin, RootOf, NeedFetch, Plan, WriteAll, Mask;
    if u.Bundle? && u.docs != [] {
      M.PlanIs(site, st, u.docs, stream);
      var (st1, slots) := Plan(site, st, Frames.Known(Entries(u.docs)), stream);
      WriteAllKeepsDirs(if stream then st1 else Say(st1, Mask(slots)), slots, u.docs);
    }
  }

  lemma {:induction false} ApplyAllDirs(site: Site, st: St, us: seq<Unit>, stream: bool)
    ensures ApplyAll(site, st, us, stream).dirs == st.dirs + AllMade(site, us)
    decreases |us|
  {
    hide Apply, MadeBy;
    if us != [] {
      ApplyDirs(site, st, us[0], stream);
      ApplyAllDirs(site, Apply(site, st, us[0], stream), us[1..], stream);
    }
  }

  /** Once every unit is delivered nothing is in progress and nothing is left open. */
  lemma AllDeliveredSettles(env: Env, s: Sys, h: nat)
    requires PlanOk(env) && Good(env, s) && h < |s.links|
    requires forall id: nat | id < |env.plan| :: Delivered(s.links, id)
    ensures NoPartOps(env, s.links[h].worker) && forall p :: !Open(env, s.links[h], p)
  {
    hide Pick, Ops, PlanOk, Conserved, SharedOk, FilesOk, WantedBy, Reach, Delivered;
    var l := s.links[h];
    assert HandlerOk(l) && WorkerOk(env, l);
    forall id: nat | id in l.lost || id in BusyIds(l.worker) ensures OpsOf(env, id) == [] {
      if id < |env.plan| { NotLost(env, s, h, id); }
    }
    NoOps();
    if l.worker.Busy? { assert l.worker.id in BusyIds(l.worker); }
    forall p ensures !Open(env, l, p) {
      if p in WholeUnits(env, Written, l.lost) { var j := WholeWitness(env, Written, l.lost, p); }
      if Writing(env, l.worker) == Some(p) { WritingIsPicked(env, l.worker, p); }
    }
  }

  lemma NotLost(env: Env, s: Sys, h: nat, id: nat)
    requires Conserved(env, s) && h < |s.links| && Delivered(s.links, id)
    ensures id !in s.links[h].lost && id !in BusyIds(s.links[h].worker)
  {
    hide Taken, Conserved;
    var k :| 0 <= k < |s.links| && id in s.links[k].delivered;
    Counted(s.links[h], id);
    Counted(s.links[k], id);
    if Taken(s.links[h], id) > 0 { OneHolder(env, s, h, k, id); }
  }

  /** The confluence theorem: whatever the interleaving of the producer, the handlers and the workers,
      and wherever connections fail, if every unit is delivered then the destination, its directories,
      the offered set and the mirror roots are those of a single stream carrying the same units. */
  lemma AnyInterleavingIsSync(env: Env, trace: seq<Label>)
    requires PlanOk(env) && Run(env, Start(env), trace).Some?
    requires forall id: nat | id < |env.plan| :: Delivered(Run(env, Start(env), trace).value.links, id)
    ensures var s := Run(env, Start(env), trace).value;
            var r := ApplyAll(env.site, St(env.before, {}, {}, {}, 0, 0, 0, ""), env.plan, env.stream);
            s.files == r.files && s.dirs == r.dirs && s.seen == r.seen && s.roots == r.roots
  {
    hide Good, PlanOk, Run, Apply, MadeBy, M.Targets, M.UnitRoots, Delivered, NoPartOps;
    var s := Run(env, Start(env), trace).value;
    var st := St(env.before, {}, {}, {}, 0, 0, 0, "");
    var r := ApplyAll(env.site, st, env.plan, env.stream);
    ReachableIsGood(env, trace);
    forall h | 0 <= h < |s.links| ensures NoPartOps(env, s.links[h].worker) && forall p :: !Open(env, s.links[h], p) {
      AllDeliveredSettles(env, s, h);
    }
    forall p
      ensures M.At(s.files, p) == Due(env, p)
      ensures p in s.seen <==> p in M.Targets(env.site, AllDocs(env.plan))
      ensures p in s.roots <==> p in M.Roots(env.site, env.plan)
      ensures p in s.dirs <==> p in AllMade(env.site, env.plan)
    {
      DeliveredPath(env, s, p);
    }
    assert M.Distinct(env.site, AllDocs(env.plan)) by { PlanIsDistinct(env); }
    M.ApplyAllIs(env.site, st, env.plan, env.stream);
    ApplyAllDirs(env.site, st, env.plan, env.stream);
    SameFiles(s.files, r.files);
  }

  lemma PlanIsDistinct(env: Env)
    requires PlanOk(env)
    ensures M.Distinct(env.site, AllDocs(env.plan))
  {
  }

  lemma DeliveredPath(env: Env, s: Sys, p: Path)
    requires Good(env, s) && NoPart(env, s.links) && forall h | 0 <= h < |s.links| :: !Open(env, s.links[h], p)
    requires forall id: nat | id < |env.plan| :: Delivered(s.links, id)
    ensures M.At(s.files, p) == Due(env, p)
    ensures p in s.seen <==> p in M.Targets(env.site, AllDocs(env.plan))
    ensures p in s.roots <==> p in M.Roots(env.site, env.plan)
    ensures p in s.dirs <==> p in AllMade(env.site, env.plan)
  {
    hide Conserved, LinksOk, SharedOk, NoPart, MadeBy, M.Targets, M.UnitRoots, Delivered, AllMade, M.Roots, M.Expected,
        AnyReach;
    SetsAreDelivered(env, s, p);
    UnionsOverUnits(env.site, env.plan, p);
    assert PathOk(env, s, p);
    if p !in M.Targets(env.site, AllDocs(env.plan)) {
      M.ExpectedUntouched(env.site, env.before, AllDocs(env.plan), p, env.stream);
    }
  }

  /** On an empty destination the streaming form of the parallel mode, which exchanges no masks and no
      offsets, ends where the ordinary single stream ends. */
  lemma FreshParallelIsSync(env: Env, trace: seq<Label>)
    requires PlanOk(env) && Run(env, Start(env), trace).Some? && (env.stream ==> env.before == map[])
    requires forall id: nat | id < |env.plan| :: Delivered(Run(env, Start(env), trace).value.links, id)
    ensures var s := Run(env, Start(env), trace).value;
            var r := ApplyAll(env.site, St(env.before, {}, {}, {}, 0, 0, 0, ""), env.plan, false);
            s.files == r.files && s.seen == r.seen && s.roots == r.roots
  {
    hide Run, Apply, Delivered;
    AnyInterleavingIsSync(env, trace);
    if env.stream {
      StreamRefinesMasks(env.site, St(env.before, {}, {}, {}, 0, 0, 0, ""), env.plan);
    }
  }
}
