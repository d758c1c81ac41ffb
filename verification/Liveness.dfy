/** What the parallel mode does in the end: it never gets stuck while its connections hold, and after the
    server has closed its doors the producer may be left waiting at a full queue. */
module Liveness {
  import opened Text
  import opened Parallel

  // ------------------------------------------------------------------ states without mishaps

  /** A connection breaks, a handler dies or a worker fails. */
  predicate Mishap(l: Label) { l.On? && (l.act.Die? || l.act.Break? || l.act.Fail?) }

  predicate NoMishap(trace: seq<Label>) { forall i | 0 <= i < |trace| :: !Mishap(trace[i]) }

  /** A connection on which nothing has gone wrong. */
  predicate Sane(env: Env, l: Link, done: bool) {
    l.up && l.lost == [] && (l.told <==> l.handler.Retired?) && (l.handler.Retired? ==> done)
    && (l.worker.Ended? ==> l.told && l.wire == [])
    && (l.worker.Busy? ==> l.worker.id < |env.plan| && l.worker.pc <= |Ops(env.site, env.plan[l.worker.id])|)
    && (l.handler.Holding? ==> l.handler.id < |env.plan|)
    && forall i | 0 <= i < |l.wire| :: l.wire[i] < |env.plan|
  }

  predicate AllSane(env: Env, s: Sys) { forall i | 0 <= i < |s.links| :: Sane(env, s.links[i], s.done) }

  predicate Retiring(s: Sys) { s.accept != Listening ==> AllRetired(s.links) }

  ghost predicate Good(env: Env, s: Sys) { Conserved(env, s) && AllSane(env, s) && Retiring(s) }

  lemma MoveSane(env: Env, l: Link, act: Action, done: bool)
    requires Sane(env, l, done) && Move(env, l, act, done).Some? && !act.Die? && !act.Break? && !act.Fail?
    ensures Sane(env, Move(env, l, act, done).value, done)
  {
    hide Ops;
  }

  lemma WorkSane(env: Env, s: Sys, h: nat)
    requires h < |s.links| && Sane(env, s.links[h], s.done) && Work(env, s, h).Some?
    ensures var t := Work(env, s, h).value; |t.links| == |s.links| && Sane(env, t.links[h], s.done)
  {
    hide Ops, Wants;
  }

  lemma WriteSane(env: Env, s: Sys, h: nat, partial: string)
    requires h < |s.links| && Sane(env, s.links[h], s.done) && WriteSome(env, s, h, partial).Some?
    ensures var t := WriteSome(env, s, h, partial).value; |t.links| == |s.links| && Sane(env, t.links[h], s.done)
  {
    hide Ops;
  }

  lemma PopSane(env: Env, s: Sys, h: nat)
    requires h < |s.links| && Conserved(env, s) && Sane(env, s.links[h], s.done) && Act(env, s, h, TryPop).Some?
    ensures var t := Act(env, s, h, TryPop).value; |t.links| == |s.links| && Sane(env, t.links[h], s.done)
  {
    hide Ops, Accounted;
    if s.queue != [] { assert s.queue[0] == Popped(s); }
  }

  /** An action changes its own connection, and neither the flag nor the doors. */
  lemma ActIsLocal(env: Env, s: Sys, h: nat, act: Action)
    requires h < |s.links| && Act(env, s, h, act).Some?
    ensures var t := Act(env, s, h, act).value;
            |t.links| == |s.links| && t.links == s.links[h := t.links[h]] && t.done == s.done && t.accept == s.accept
            && t.next == s.next && t.ready == s.ready
  {
    hide Work, WriteSome, Move;
    match act {
      case Advance => WorkOnlyWorks(env, s, h);
      case Chunk(partial) => WriteOnlyWorks(env, s, h, partial);
      case _ =>
    }
  }

  lemma ActSane(env: Env, s: Sys, h: nat, act: Action)
    requires h < |s.links| && Conserved(env, s) && Sane(env, s.links[h], s.done)
    requires Act(env, s, h, act).Some? && !Mishap(On(h, act))
    ensures var t := Act(env, s, h, act).value; |t.links| == |s.links| && Sane(env, t.links[h], s.done)
  {
    hide Sane, Move, Work, WriteSome;
    match act {
      case TryPop => PopSane(env, s, h);
      case Advance => WorkSane(env, s, h);
      case Chunk(partial) => WriteSane(env, s, h, partial);
      case LoadDone => MoveSane(env, s.links[h], act, s.done);
      case Serve => MoveSane(env, s.links[h], act, s.done);
      case Receive => MoveSane(env, s.links[h], act, s.done);
      case Complete => MoveSane(env, s.links[h], act, s.done);
    }
  }

  /** A retired handler stays retired. */
  lemma ActRetired(env: Env, s: Sys, h: nat, act: Action)
    requires h < |s.links| && s.links[h].handler.Retired? && Act(env, s, h, act).Some?
    ensures var t := Act(env, s, h, act).value;
            |t.links| == |s.links| && t.links[h].handler.Retired? && t.queue == s.queue
  {
    hide Ops, Wants;
  }

  lemma NextRetiring(env: Env, s: Sys, l: Label)
    requires Retiring(s) && Next(env, s, l).Some?
    ensures Retiring(Next(env, s, l).value)
  {
    hide Act;
    if l.On? {
      ActIsLocal(env, s, l.h, l.act);
      if s.accept != Listening { ActRetired(env, s, l.h, l.act); }
    }
  }

  lemma NextGood(env: Env, s: Sys, l: Label)
    requires Good(env, s) && Next(env, s, l).Some? && !Mishap(l)
    ensures Good(env, Next(env, s, l).value)
  {
    hide Act, Conserved, Retiring;
    NextConserves(env, s, l);
    NextRetiring(env, s, l);
    match l {
      case On(h, act) =>
        hide Sane;
        ActIsLocal(env, s, h, act);
        ActSane(env, s, h, act);
      case _ =>
    }
  }

  lemma {:induction false} AlwaysGood(env: Env, s: Sys, trace: seq<Label>)
    requires Good(env, s) && Run(env, s, trace).Some? && NoMishap(trace)
    ensures Good(env, Run(env, s, trace).value)
    decreases |trace|
  {
    hide Next, Good, Mishap;
    if trace != [] {
      NextGood(env, s, trace[0]);
      assert forall i | 0 <= i < |trace| - 1 :: trace[1..][i] == trace[i + 1];
      AlwaysGood(env, Next(env, s, trace[0]).value, trace[1..]);
    }
  }

  // ------------------------------------------------------------------ how far it is to the end

  function Size(env: Env, id: nat): nat { if id < |env.plan| then |Ops(env.site, env.plan[id])| else 0 }

  /** Units on their way, each with what is still to be done for it. */
  function Waiting(env: Env, ids: seq<nat>, extra: nat): nat {
    if ids == [] then 0 else Size(env, ids[0]) + extra + Waiting(env, ids[1..], extra)
  }

  /** Units not yet produced. */
  function Ahead(env: Env, next: nat): nat
    decreases |env.plan| - next
  {
    if next >= |env.plan| then 0 else Size(env, next) + 6 + Ahead(env, next + 1)
  }

  function HandlerLeft(env: Env, h: Handler, done: bool): nat {
    match h
    case Retired => 0
    case Missed => if done then 1 else 3
    case Polling => 2
    case Holding(id) => 2 + Size(env, id) + 3
  }

  function WorkerLeft(env: Env, w: Worker): nat {
    match w
    case Ended(_, _) => 0
    case Reading => 1
    case Busy(id, pc, _, _) => 2 + if pc <= Size(env, id) then Size(env, id) - pc else 0
  }

  function LinkLeft(env: Env, l: Link, done: bool): nat {
    HandlerLeft(env, l.handler, done) + Waiting(env, l.wire, 2) + WorkerLeft(env, l.worker)
  }

  function LinksLeft(env: Env, links: seq<Link>, done: bool): nat {
    if links == [] then 0 else LinkLeft(env, links[0], done) + LinksLeft(env, links[1..], done)
  }

  function DoorsLeft(s: Sys): nat {
    match s.accept
    case Listening => 2
    case SawDone => if s.queue == [] then 1 else 3
    case Closed(_) => 0
  }

  /** An upper bound for the number of useful steps that are left. */
  function Left(env: Env, s: Sys): nat {
    Ahead(env, s.next) + (if s.ready then 0 else 1) + (if s.done then 0 else 1)
    + Waiting(env, s.queue, 4) + LinksLeft(env, s.links, s.done) + DoorsLeft(s)
  }

  /** The end of a session: everything produced, every stream told so, every worker done, the doors closed. */
  predicate Over(s: Sys) {
    s.done && s.accept.Closed?
    && forall i | 0 <= i < |s.links| :: s.links[i].handler.Retired? && s.links[i].worker.Ended?
  }

  lemma {:induction false} WaitingSnoc(env: Env, ids: seq<nat>, id: nat, extra: nat)
    ensures Waiting(env, ids + [id], extra) == Waiting(env, ids, extra) + Size(env, id) + extra
  {
    hide Size;
    if ids == [] {
      assert [id][1..] == [];
    } else {
      assert (ids + [id])[1..] == ids[1..] + [id];
      WaitingSnoc(env, ids[1..], id, extra);
    }
  }

  lemma {:induction false} LinksUpdate(env: Env, links: seq<Link>, h: nat, l: Link, done: bool)
    requires h < |links|
    ensures LinksLeft(env, links[h := l], done)
            == LinksLeft(env, links, done) - LinkLeft(env, links[h], done) + LinkLeft(env, l, done)
  {
    hide LinkLeft;
    if h > 0 {
      assert links[h := l][1..] == links[1..][h - 1 := l];
      LinksUpdate(env, links[1..], h - 1, l, done);
    } else {
      assert links[h := l][1..] == links[1..];
    }
  }

  lemma {:induction false} LinksDone(env: Env, links: seq<Link>)
    ensures LinksLeft(env, links, true) <= LinksLeft(env, links, false)
  {
    if links != [] { LinksDone(env, links[1..]); }
  }

  /** An action that leaves the queue alone counts for its connection only. */
  lemma LocalStep(env: Env, s: Sys, h: nat, act: Action)
    requires h < |s.links| && Act(env, s, h, act).Some? && Act(env, s, h, act).value.queue == s.queue
    ensures var t := Act(env, s, h, act).value;
            |t.links| == |s.links|
            && Left(env, t) == Left(env, s) - LinkLeft(env, s.links[h], s.done) + LinkLeft(env, t.links[h], s.done)
  {
    hide Act, LinkLeft, Waiting, Ahead;
    ActIsLocal(env, s, h, act);
    LinksUpdate(env, s.links, h, Act(env, s, h, act).value.links[h], s.done);
  }

  lemma {:induction false} WaitingPrefix(env: Env, ids: seq<nat>, k: nat, extra: nat)
    requires k <= |ids|
    ensures Waiting(env, ids[..k], extra) <= Waiting(env, ids, extra)
    decreases k
  {
    if k > 0 {
      assert ids[..k][1..] == ids[1..][..k - 1];
      WaitingPrefix(env, ids[1..], k - 1, extra);
    }
  }

  /** The actions that bring a unit or a connection forward. */
  predicate Forward(act: Action) {
    act.LoadDone? || act.Serve? || act.Receive? || act.Advance? || act.Complete?
  }

  lemma MoveLowers(env: Env, l: Link, act: Action, done: bool)
    requires Move(env, l, act, done).Some?
    ensures var m := Move(env, l, act, done).value;
            LinkLeft(env, m, done) + (if Forward(act) then 1 else 0) <= LinkLeft(env, l, done)
  {
    match act {
      case Serve => WaitingSnoc(env, l.wire, l.handler.id, 2);
      case Break(keep, _) => WaitingPrefix(env, l.wire, keep, 2);
      case _ =>
    }
  }

  lemma WorkLowers(env: Env, s: Sys, h: nat)
    requires h < |s.links| && Work(env, s, h).Some?
    ensures var t := Work(env, s, h).value;
            |t.links| == |s.links| && LinkLeft(env, t.links[h], s.done) < LinkLeft(env, s.links[h], s.done)
  {
    hide Ops, Wants, Waiting;
  }

  lemma WriteKeepsLeft(env: Env, s: Sys, h: nat, partial: string)
    requires h < |s.links| && WriteSome(env, s, h, partial).Some?
    ensures var t := WriteSome(env, s, h, partial).value;
            |t.links| == |s.links| && LinkLeft(env, t.links[h], s.done) == LinkLeft(env, s.links[h], s.done)
  {
    hide Ops, Waiting;
  }

  /** An action other than a look at the queue never lengthens what is left, the forward ones shorten it. */
  lemma ActLowers(env: Env, s: Sys, h: nat, act: Action)
    requires h < |s.links| && !act.TryPop? && Act(env, s, h, act).Some?
    ensures Left(env, Act(env, s, h, act).value) + (if Forward(act) then 1 else 0) <= Left(env, s)
  {
    hide LinkLeft, Move, Work, WriteSome, Left;
    if act.Advance? {
      WorkLowers(env, s, h);
      WorkOnlyWorks(env, s, h);
    } else if act.Chunk? {
      WriteKeepsLeft(env, s, h, act.partial);
      WriteOnlyWorks(env, s, h, act.partial);
    } else {
      MoveLowers(env, s.links[h], act, s.done);
    }
    LocalStep(env, s, h, act);
  }

  lemma PopLowers(env: Env, s: Sys, h: nat)
    requires h < |s.links| && Retiring(s) && Act(env, s, h, TryPop).Some? && (s.queue != [] || s.done)
    ensures Left(env, Act(env, s, h, TryPop).value) < Left(env, s)
  {
    hide Size, Ahead, LinksLeft;
    LinksUpdate(env, s.links, h, Act(env, s, h, TryPop).value.links[h], s.done);
  }

  lemma PushLowers(env: Env, s: Sys)
    requires Conserved(env, s) && Next(env, s, Push).Some?
    ensures Left(env, Next(env, s, Push).value) < Left(env, s)
  {
    hide Accounted, LinkLeft, LinksLeft, Waiting, Size;
    WaitingSnoc(env, s.queue, s.next, 4);
  }

  lemma DoneLowers(env: Env, s: Sys)
    requires Next(env, s, SetDone).Some?
    ensures Left(env, Next(env, s, SetDone).value) <= Left(env, s)
    ensures !s.done ==> Left(env, Next(env, s, SetDone).value) < Left(env, s)
  {
    hide LinkLeft, LinksLeft, Waiting, Size;
    LinksDone(env, s.links);
  }

  /** Steps that only look: at an empty queue before the last unit has been produced, or at a session that
      may be over while units are left. */
  predicate Idle(s: Sys, l: Label) {
    (l.On? && l.act.TryPop? && s.queue == [] && !s.done) || (l.TestDone? && s.queue != [])
  }

  /** No step lengthens what is left but a new connection and an idle look, not even a mishap. */
  lemma NothingRaises(env: Env, s: Sys, l: Label)
    requires Conserved(env, s) && Retiring(s) && Next(env, s, l).Some? && !l.Connect? && !Idle(s, l)
    ensures Left(env, Next(env, s, l).value) <= Left(env, s)
  {
    hide Act, Left, Conserved, Retiring;
    match l {
      case Push => PushLowers(env, s);
      case SetDone => DoneLowers(env, s);
      case On(h, act) => if act.TryPop? { PopLowers(env, s, h); } else { ActLowers(env, s, h, act); }
      case _ => DoorsLower(env, s, l);
    }
  }

  lemma DoorsLower(env: Env, s: Sys, l: Label)
    requires Next(env, s, l).Some? && !Idle(s, l) && (l.LenTest? || l.TestDone? || l.TestEmpty? || l.GiveUp?)
    ensures Left(env, Next(env, s, l).value) < Left(env, s)
  {
  }

  // ------------------------------------------------------------------ nobody gets stuck

  predicate Useful(env: Env, s: Sys, l: Label) {
    !Mishap(l) && !l.Connect? && Next(env, s, l).Some? && Left(env, Next(env, s, l).value) < Left(env, s)
  }

  lemma UsefulAct(env: Env, s: Sys, h: nat, act: Action)
    requires h < |s.links| && Forward(act) && Act(env, s, h, act).Some?
    ensures Useful(env, s, On(h, act))
  {
    hide Act, Left;
    ActLowers(env, s, h, act);
  }

  /** A worker that is not at its end and has something to do. */
  lemma WorkerMoves(env: Env, s: Sys, h: nat) returns (act: Action)
    requires h < |s.links| && Sane(env, s.links[h], s.done)
    requires var l := s.links[h]; l.worker.Busy? || (l.worker.Reading? && (l.wire != [] || l.told))
    ensures Forward(act) && Act(env, s, h, act).Some?
  {
    hide Ops, Wants;
    var w := s.links[h].worker;
    act := if w.Reading? then Receive
           else if w.pc < |Ops(env.site, env.plan[w.id])| then Advance else Complete;
  }

  /** A handler that is not retired and is not merely waiting for the producer. */
  lemma HandlerMoves(env: Env, s: Sys, h: nat) returns (act: Action)
    requires h < |s.links| && Sane(env, s.links[h], s.done) && Retiring(s) && !s.links[h].handler.Retired?
    requires s.links[h].handler.Polling? ==> s.queue != [] || s.done
    ensures Useful(env, s, On(h, act))
  {
    hide Left, Ops;
    var l := s.links[h];
    act := match l.handler case Polling => TryPop case Missed => LoadDone case _ => Serve;
    if act.TryPop? { PopLowers(env, s, h); } else { UsefulAct(env, s, h, act); }
  }

  lemma ProducerMoves(env: Env, s: Sys) returns (l: Label)
    requires Conserved(env, s) && Retiring(s) && !s.done
    requires |s.queue| < QUEUE_CAP || s.ready || s.next == |env.plan|
    ensures Useful(env, s, l)
  {
    hide Left, Accounted;
    l := if s.ready then Push else if s.next < |env.plan| then LenTest else SetDone;
    if s.ready {
      PushLowers(env, s);
    } else if s.next < |env.plan| {
      DoorsLower(env, s, l);
    } else {
      DoneLowers(env, s);
    }
  }

  lemma DoorsMove(env: Env, s: Sys) returns (l: Label)
    requires s.done && s.links != [] && AllRetired(s.links) && !s.accept.Closed?
    ensures Useful(env, s, l)
  {
    hide Left;
    l := if s.accept == SawDone then TestEmpty else if s.queue == [] then TestDone else GiveUp;
    DoorsLower(env, s, l);
  }

  /** In a session without mishaps that has a connection, some useful step is enabled until all is over. */
  lemma SomeoneMoves(env: Env, s: Sys) returns (l: Label)
    requires Good(env, s) && s.links != [] && !Over(s)
    ensures Useful(env, s, l)
  {
    hide Left, Conserved, Useful, Act, Sane, Retiring;
    if h: nat :| h < |s.links|
                 && var k := s.links[h]; k.worker.Busy? || (k.worker.Reading? && (k.wire != [] || k.told)) {
      assert Sane(env, s.links[h], s.done);
      var act := WorkerMoves(env, s, h);
      UsefulAct(env, s, h, act);
      l := On(h, act);
    } else if h: nat :| h < |s.links| && !s.links[h].handler.Retired?
                        && (s.links[h].handler.Polling? ==> s.queue != [] || s.done) {
      assert Sane(env, s.links[h], s.done);
      var act := HandlerMoves(env, s, h);
      l := On(h, act);
    } else if !s.done {
      l := StillProducing(env, s);
    } else {
      AllToldAtEnd(env, s);
      l := DoorsMove(env, s);
    }
  }

  lemma StillProducing(env: Env, s: Sys) returns (l: Label)
    requires Good(env, s) && s.links != [] && !s.done
    requires forall h | 0 <= h < |s.links| && !s.links[h].handler.Retired? ::
               s.links[h].handler.Polling? && s.queue == []
    ensures Useful(env, s, l)
  {
    hide Useful, Accounted;
    assert Sane(env, s.links[0], s.done);
    assert s.links[0].handler.Polling?;
    l := ProducerMoves(env, s);
  }

  lemma AllToldAtEnd(env: Env, s: Sys)
    requires Good(env, s) && s.done && s.links != []
    requires forall h | 0 <= h < |s.links| :: s.links[h].handler.Retired?
    requires forall h | 0 <= h < |s.links| ::
               !s.links[h].worker.Busy? && (s.links[h].worker.Reading? ==> s.links[h].wire == [] && !s.links[h].told)
    ensures AllRetired(s.links) && (s.accept.Closed? ==> Over(s))
  {
    forall h | 0 <= h < |s.links| ensures s.links[h].worker.Ended? {
      assert Sane(env, s.links[h], s.done);
    }
  }

  lemma StartGood(env: Env)
    ensures Good(env, Start(env))
  {
    StartConserved(env);
  }

  /** Progress of the parallel mode: in every state that any interleaving reaches without a mishap, once
      there is a connection, the session is over or a step is enabled that brings it nearer to its end:
      not an idle look, not a new connection, not a mishap. */
  lemma ParallelNeverStuck(env: Env, trace: seq<Label>)
    requires Run(env, Start(env), trace).Some? && NoMishap(trace)
    ensures var s := Run(env, Start(env), trace).value;
            s.links != [] ==> Over(s) || exists l :: Useful(env, s, l)
  {
    hide Useful, Good, Over;
    StartGood(env);
    AlwaysGood(env, Start(env), trace);
    var s := Run(env, Start(env), trace).value;
    if s.links != [] && !Over(s) { var l := SomeoneMoves(env, s); }
  }

  /** A run of useful steps. */
  predicate AllUseful(env: Env, s: Sys, trace: seq<Label>)
    decreases |trace|
  {
    trace == [] || (Useful(env, s, trace[0]) && AllUseful(env, Next(env, s, trace[0]).value, trace[1..]))
  }

  lemma {:induction false} UsefulRunsEnd(env: Env, s: Sys, trace: seq<Label>)
    requires AllUseful(env, s, trace)
    ensures Run(env, s, trace).Some? && NoMishap(trace)
    ensures Left(env, Run(env, s, trace).value) + |trace| <= Left(env, s)
    decreases |trace|
  {
    hide Left, Next;
    if trace != [] { UsefulRunsEnd(env, Next(env, s, trace[0]).value, trace[1..]); }
  }

  lemma {:induction false} SameLinks(env: Env, s: Sys, trace: seq<Label>)
    requires AllUseful(env, s, trace) && Run(env, s, trace).Some?
    ensures |Run(env, s, trace).value.links| == |s.links|
    decreases |trace|
  {
    hide Left, Act;
    if trace != [] {
      if trace[0].On? { ActIsLocal(env, s, trace[0].h, trace[0].act); }
      SameLinks(env, Next(env, s, trace[0]).value, trace[1..]);
    }
  }

  /** ... and every run of such steps is finite and, when it cannot go on, has ended the session. */
  lemma ParallelEnds(env: Env, trace: seq<Label>, more: seq<Label>)
    requires Run(env, Start(env), trace).Some? && NoMishap(trace)
    ensures var s := Run(env, Start(env), trace).value;
            s.links != [] && AllUseful(env, s, more) ==>
              Run(env, s, more).Some? && |more| <= Left(env, s)
              && var t := Run(env, s, more).value; Over(t) || exists l :: Useful(env, t, l)
  {
    hide Useful, Good, Over, Left, AllUseful, Run;
    StartGood(env);
    AlwaysGood(env, Start(env), trace);
    var s := Run(env, Start(env), trace).value;
    if s.links != [] && AllUseful(env, s, more) {
      UsefulRunsEnd(env, s, more);
      AlwaysGood(env, s, more);
      SameLinks(env, s, more);
      var t := Run(env, s, more).value;
      if !Over(t) { var l := SomeoneMoves(env, t); }
    }
  }

  // ------------------------------------------------------------------ the producer behind closed doors

  /** When the doors are closed nobody takes units any more: what has left the queue is settled. */
  lemma {:induction false} NothingTaken(env: Env, s: Sys, trace: seq<Label>)
    requires Conserved(env, s) && Retiring(s) && s.accept.Closed? && Run(env, s, trace).Some?
    ensures var t := Run(env, s, trace).value; Conserved(env, t) && Popped(t) == Popped(s)
    decreases |trace|
  {
    hide Act, Conserved, Retiring;
    if trace != [] {
      var l := trace[0];
      NextConserves(env, s, l);
      NextRetiring(env, s, l);
      ClosedStep(env, s, l);
      NothingTaken(env, Next(env, s, l).value, trace[1..]);
    }
  }

  lemma ClosedStep(env: Env, s: Sys, l: Label)
    requires Retiring(s) && s.accept.Closed? && Next(env, s, l).Some?
    ensures var t := Next(env, s, l).value; Popped(t) == Popped(s) && t.accept.Closed?
  {
    hide Act;
    if l.On? {
      ActIsLocal(env, s, l.h, l.act);
      ActRetired(env, s, l.h, l.act);
    }
  }

  /** While there is room the producer gets to its end by itself. */
  lemma {:induction false} ProducesAlone(env: Env, s: Sys) returns (trace: seq<Label>)
    requires |s.queue| + (|env.plan| - s.next) <= QUEUE_CAP && s.next <= |env.plan|
    requires s.ready ==> s.next < |env.plan|
    ensures Run(env, s, trace).Some? && Run(env, s, trace).value.done
    decreases |env.plan| - s.next, if s.ready then 0 else 1
  {
    var l := if s.ready then Push else if s.next < |env.plan| then LenTest else SetDone;
    var t := Next(env, s, l).value;
    if l.SetDone? {
      trace := [l];
      assert Run(env, t, trace[1..]) == Some(t);
    } else {
      trace := ProducesAlone(env, t);
      trace := [l] + trace;
    }
  }

  lemma {:induction false} AlwaysRetiring(env: Env, s: Sys, trace: seq<Label>)
    requires Conserved(env, s) && Retiring(s) && Run(env, s, trace).Some?
    ensures Conserved(env, Run(env, s, trace).value) && Retiring(Run(env, s, trace).value)
    decreases |trace|
  {
    hide Next, Conserved, Retiring;
    if trace != [] {
      NextConserves(env, s, trace[0]);
      NextRetiring(env, s, trace[0]);
      AlwaysRetiring(env, Next(env, s, trace[0]).value, trace[1..]);
    }
  }

  /** The server joins its producer after it has closed its doors. In every state any run reaches with the
      doors closed, the producer can still come to its end exactly when the units that nobody has taken fit
      into the queue; otherwise the server hangs for good. */
  lemma ProducerFinishesIff(env: Env, trace: seq<Label>)
    requires Run(env, Start(env), trace).Some? && Run(env, Start(env), trace).value.accept.Closed?
    ensures var s := Run(env, Start(env), trace).value;
            (exists more :: Run(env, s, more).Some? && Run(env, s, more).value.done)
            <==> |s.queue| + (|env.plan| - s.next) <= 256
  {
    hide Run, Accounted, Retiring;
    StartConserved(env);
    assert Retiring(Start(env)) by { DoorsOpen(env); }
    AlwaysRetiring(env, Start(env), trace);
    var s := Run(env, Start(env), trace).value;
    forall more | Run(env, s, more).Some? && Run(env, s, more).value.done
      ensures |s.queue| + (|env.plan| - s.next) <= QUEUE_CAP
    {
      NothingTaken(env, s, more);
    }
    if |s.queue| + (|env.plan| - s.next) <= QUEUE_CAP {
      var more := ProducesAlone(env, s);
    }
  }

  /** So with no client at all the idle timeout ends the server exactly when all units fit into the queue. */
  lemma IdleTimeoutEndsIff(env: Env)
    ensures Run(env, Start(env), [GiveUp]) == Some(Start(env).(accept := Closed(false)))
    ensures (exists more :: Run(env, Start(env).(accept := Closed(false)), more).Some?
                            && Run(env, Start(env).(accept := Closed(false)), more).value.done)
            <==> |env.plan| <= 256
  {
    assert [GiveUp][1..] == [];
    ProducerFinishesIff(env, [GiveUp]);
  }

  lemma DoorsOpen(env: Env)
    ensures Retiring(Start(env))
  {
  }
}
