/** One pass over the shared folders on one connection: the walk, the batching and the serving of each
    unit as it comes up, and the dialogue this makes with the client. */
module Pass {
  import opened Text
  import opened Wire
  import opened Frames
  import opened Transcript
  import opened Tally
  import opened Control
  import opened Sender
  import opened Tree
  import opened Bundling
  import opened Producer
  import Ignore

  // ------------------------------------------------------------------ a served sequence of units

  function RestAfter(u: Unit, stream: bool, said: string): string { if Waits(u, stream) then AfterLine(said) else said }

  /** The replies a sequence of units is served with, and what the client has said beyond them; `None`
      when it has said too little. */
  function HeardAll(us: seq<Unit>, stream: bool, said: string): Option<(seq<string>, string)>
    decreases |us|
  {
    if us == [] then Some(([], said))
    else match HeardBy(us[0], stream, said)
      case None => None
      case Some(r) =>
        match HeardAll(us[1..], stream, RestAfter(us[0], stream, said))
        case None => None
        case Some((rs, rest)) => Some(([r] + rs, rest))
  }

  /** The choices for each unit are about what its reply asks for. */
  predicate FramedAll(c: Codec, us: seq<Unit>, fs: seq<Framing>, rs: seq<string>) {
    |us| == |fs| == |rs| && forall i | 0 <= i < |us| :: FramedAs(c, us[i], fs[i], rs[i])
  }

  /** ... and are the ones the server makes. */
  ghost predicate PickedAll(s: Setup, us: seq<Unit>, fs: seq<Framing>, rs: seq<string>) {
    |us| == |fs| == |rs| && forall i | 0 <= i < |us| :: PicksAs(s, us[i], fs[i], rs[i])
  }

  /** The states of the controller between the units, from its start on. */
  ghost predicate MovedAll(s: Setup, us: seq<Unit>, fs: seq<Framing>, rs: seq<string>, cs: seq<Ctl>, start: Ctl) {
    |us| == |fs| == |rs| && |cs| == |us| + 1 && cs[0] == start
    && forall i | 0 <= i < |us| :: Moves(s, us[i], fs[i], rs[i], cs[i], cs[i + 1])
  }

  lemma MovedSnoc(s: Setup, us: seq<Unit>, fs: seq<Framing>, rs: seq<string>, cs: seq<Ctl>, start: Ctl,
                  u: Unit, f: Framing, r: string, d: Ctl)
    requires MovedAll(s, us, fs, rs, cs, start) && Moves(s, u, f, r, cs[|us|], d)
    ensures MovedAll(s, us + [u], fs + [f], rs + [r], cs + [d], start) && (cs + [d])[|us + [u]|] == d
  {
    hide Moves;
  }

  function ServedTotals(c: Codec, us: seq<Unit>, fs: seq<Framing>, rs: seq<string>): Totals
    requires FramedAll(c, us, fs, rs)
    decreases |us|
  {
    if us == [] then ZERO
    else
      assert FramedAs(c, us[0], fs[0], rs[0]);
      Add(UnitTotals(c, us[0], fs[0], rs[0]), ServedTotals(c, us[1..], fs[1..], rs[1..]))
  }

  function UnitSent(c: Codec, u: Unit, f: Framing, reply: string): string {
    if u.Bundle? && |f.blocks| != |u.docs| then Offer(u) else UnitBytes(c, u, f, reply)
  }

  function Gap(ps: seq<nat>): nat { if ps == [] then 0 else ps[0] }

  function Later<T>(xs: seq<T>): seq<T> { if xs == [] then [] else xs[1..] }

  /** Everything the server sends of some units once the client has said `said` and no more: the units that
      have their replies and the offer of the next one, and when there is none left, `end`. Keepalives may
      go before each. */
  function Sent(c: Codec, us: seq<Unit>, fs: seq<Framing>, ps: seq<nat>, stream: bool, said: string, end: string)
    : string
    decreases |us|
  {
    Pings(Gap(ps)) +
    if us == [] then end
    else match HeardBy(us[0], stream, said)
      case None => Offer(us[0])
      case Some(r) =>
        (if fs == [] then Offer(us[0]) else UnitSent(c, us[0], fs[0], r))
        + Sent(c, us[1..], Later(fs), Later(ps), stream, RestAfter(us[0], stream, said), end)
  }

  /** What one more unit adds. */
  function OneMore(c: Codec, u: Unit, f: Framing, n: nat, stream: bool, said: string): string {
    Pings(n) + match HeardBy(u, stream, said) case None => Offer(u) case Some(r) => UnitSent(c, u, f, r)
  }

  /** Keepalives are counted for every unit, or there are none. */
  predicate Paced(us: seq<Unit>, ps: seq<nat>, n: nat, ps1: seq<nat>) {
    (ps == [] && n == 0 && ps1 == []) || (|ps| == |us| && ps1 == ps + [n])
  }

  lemma {:induction false} SentSnoc(c: Codec, us: seq<Unit>, fs: seq<Framing>, ps: seq<nat>, u: Unit, f: Framing,
                                    n: nat, ps1: seq<nat>, stream: bool, said: string)
    requires |fs| == |us| && Paced(us, ps, n, ps1) && HeardAll(us, stream, said).Some?
    ensures Sent(c, us + [u], fs + [f], ps1, stream, said, "")
            == Sent(c, us, fs, ps, stream, said, "") + OneMore(c, u, f, n, stream, HeardAll(us, stream, said).value.1)
    decreases |us|
  {
    hide HeardBy, RestAfter, UnitSent, Offer, Pings;
    var us1, fs1 := us + [u], fs + [f];
    if us == [] {
      SentOne(c, us1, fs1, ps1, n, stream, said);
      NoUnits(c, fs, ps, stream, said);
    } else {
      assert us1[1..] == us[1..] + [u] && fs1[1..] == fs[1..] + [f];
      assert Paced(us[1..], Later(ps), n, Later(ps1)) && Gap(ps1) == Gap(ps);
      var r := HeardBy(us[0], stream, said).value;
      var said1 := RestAfter(us[0], stream, said);
      SentSnoc(c, us[1..], fs[1..], Later(ps), u, f, n, Later(ps1), stream, said1);
      var rest := OneMore(c, u, f, n, stream, HeardAll(us, stream, said).value.1);
      var more := Sent(c, us[1..], fs[1..], Later(ps), stream, said1, "");
      Regroup3(UnitSent(c, us[0], fs[0], r), more, rest);
      Regroup3(Pings(Gap(ps)), UnitSent(c, us[0], fs[0], r) + more, rest);
    }
  }

  lemma SentOne(c: Codec, us: seq<Unit>, fs: seq<Framing>, ps: seq<nat>, n: nat, stream: bool, said: string)
    requires |us| == |fs| == 1 && (ps == [n] || (n == 0 && ps == []))
    ensures Sent(c, us, fs, ps, stream, said, "") == OneMore(c, us[0], fs[0], n, stream, said)
  {
    hide HeardBy, RestAfter, UnitSent, Offer;
    assert us[1..] == [];
    NoUnits(c, Later(fs), Later(ps), stream, RestAfter(us[0], stream, said));
    if HeardBy(us[0], stream, said).Some? {
      var b := UnitSent(c, us[0], fs[0], HeardBy(us[0], stream, said).value);
      assert b + "" == b;
    }
  }

  lemma NoUnits(c: Codec, fs: seq<Framing>, ps: seq<nat>, stream: bool, said: string)
    requires ps == []
    ensures Sent(c, [], fs, ps, stream, said, "") == ""
  {
  }

  lemma {:induction false} SentEnds(c: Codec, us: seq<Unit>, fs: seq<Framing>, ps: seq<nat>, n: nat, ps1: seq<nat>,
                                    stream: bool, said: string, end: string)
    requires Paced(us, ps, n, ps1) && HeardAll(us, stream, said).Some?
    ensures Sent(c, us, fs, ps1, stream, said, end) == Sent(c, us, fs, ps, stream, said, "") + (Pings(n) + end)
    decreases |us|
  {
    hide HeardBy, RestAfter, UnitSent, Offer, Pings;
    if us == [] {
      NoUnits(c, fs, ps, stream, said);
    } else {
      assert Paced(us[1..], Later(ps), n, Later(ps1)) && Gap(ps1) == Gap(ps);
      var said1 := RestAfter(us[0], stream, said);
      var head := if fs == [] then Offer(us[0]) else UnitSent(c, us[0], fs[0], HeardBy(us[0], stream, said).value);
      SentEnds(c, us[1..], Later(fs), Later(ps), n, Later(ps1), stream, said1, end);
      var more := Sent(c, us[1..], Later(fs), Later(ps), stream, said1, "");
      Regroup3(head, more, Pings(n) + end);
      Regroup3(Pings(Gap(ps)), head + more, Pings(n) + end);
    }
  }

  /** Nothing goes out behind an offer that waits. */
  lemma {:induction false} SentStops(c: Codec, us: seq<Unit>, vs: seq<Unit>, fs: seq<Framing>, ps: seq<nat>,
                                     stream: bool, said: string, end: string)
    requires HeardAll(us, stream, said).None?
    ensures Sent(c, us + vs, fs, ps, stream, said, end) == Sent(c, us, fs, ps, stream, said, "")
    decreases |us|
  {
    hide HeardBy, RestAfter, UnitSent, Offer, Pings;
    assert (us + vs)[1..] == us[1..] + vs;
    if HeardBy(us[0], stream, said).Some? {
      SentStops(c, us[1..], vs, Later(fs), Later(ps), stream, RestAfter(us[0], stream, said), end);
    }
  }

  /** The last choice does not matter while its unit waits. */
  lemma {:induction false} SentWithoutLast(c: Codec, us: seq<Unit>, fs: seq<Framing>, f: Framing, ps: seq<nat>,
                                           stream: bool, said: string)
    requires us != [] && |fs| == |us| - 1 && HeardAll(us, stream, said).None?
    requires HeardAll(us[..|us| - 1], stream, said).Some?
    ensures Sent(c, us, fs + [f], ps, stream, said, "") == Sent(c, us, fs, ps, stream, said, "")
    decreases |us|
  {
    hide HeardBy, RestAfter, UnitSent, Offer, Pings;
    if fs != [] {
      assert us[..|us| - 1][1..] == us[1..][..|us| - 2] && us[..|us| - 1][0] == us[0];
      assert (fs + [f])[1..] == fs[1..] + [f] && (fs + [f])[0] == fs[0];
      SentWithoutLast(c, us[1..], fs[1..], f, Later(ps), stream, RestAfter(us[0], stream, said));
    } else {
      assert us[..0] == [];
      OneWaits(us, stream, said);
    }
  }

  lemma OneWaits(us: seq<Unit>, stream: bool, said: string)
    requires |us| == 1 && HeardAll(us, stream, said).None?
    ensures HeardBy(us[0], stream, said).None?
  {
    assert us[1..] == [];
  }

  lemma {:induction false} HeardSnoc(us: seq<Unit>, u: Unit, stream: bool, said: string)
    ensures HeardAll(us, stream, said).None? ==> HeardAll(us + [u], stream, said).None?
    ensures HeardAll(us, stream, said).Some? ==>
              var (rs, rest) := HeardAll(us, stream, said).value;
              HeardAll(us + [u], stream, said) ==
              match HeardBy(u, stream, rest)
              case None => None
              case Some(r) => Some((rs + [r], RestAfter(u, stream, rest)))
    decreases |us|
  {
    hide HeardBy, RestAfter;
    if us == [] {
      assert [u][1..] == [];
      assert forall r: string :: [r] + [] == [] + [r];
    } else {
      assert (us + [u])[1..] == us[1..] + [u];
      if HeardBy(us[0], stream, said).Some? {
        var r0 := HeardBy(us[0], stream, said).value;
        HeardSnoc(us[1..], u, stream, RestAfter(us[0], stream, said));
        if HeardAll(us[1..], stream, RestAfter(us[0], stream, said)).Some? {
          var (rs, rest) := HeardAll(us[1..], stream, RestAfter(us[0], stream, said)).value;
          assert forall r: string :: [r0] + (rs + [r]) == [r0] + rs + [r];
        }
      }
    }
  }

  /** Silence in the middle is silence for the whole. */
  lemma {:induction false} HeardNone(us: seq<Unit>, vs: seq<Unit>, stream: bool, said: string)
    requires HeardAll(us, stream, said).None?
    ensures HeardAll(us + vs, stream, said).None?
    decreases |us|
  {
    hide HeardBy, RestAfter;
    assert (us + vs)[1..] == us[1..] + vs;
    if HeardBy(us[0], stream, said).Some? {
      HeardNone(us[1..], vs, stream, RestAfter(us[0], stream, said));
    }
  }

  lemma {:induction false} TotalsSnoc(c: Codec, us: seq<Unit>, fs: seq<Framing>, rs: seq<string>, u: Unit, f: Framing,
                                      r: string)
    requires FramedAll(c, us, fs, rs) && FramedAs(c, u, f, r)
    ensures FramedAll(c, us + [u], fs + [f], rs + [r])
    ensures ServedTotals(c, us + [u], fs + [f], rs + [r]) == Add(ServedTotals(c, us, fs, rs), UnitTotals(c, u, f, r))
    decreases |us|
  {
    hide UnitTotals, FramedAs;
    var us1, fs1, rs1 := us + [u], fs + [f], rs + [r];
    if us == [] {
      assert us1[1..] == [] && rs1[0] == r && fs1[0] == f && us1[0] == u;
    } else {
      assert us1[1..] == us[1..] + [u] && fs1[1..] == fs[1..] + [f] && rs1[1..] == rs[1..] + [r];
      TotalsSnoc(c, us[1..], fs[1..], rs[1..], u, f, r);
    }
  }

  /** The output and the totals after some units. */
  ghost predicate ServedSoFar(s: Setup, us: seq<Unit>, fs: seq<Framing>, rs: seq<string>, ps: seq<nat>, stream: bool,
                              said: string, out: string, now: string, stats: Totals, total: Totals)
  {
    FramedAll(s.codec, us, fs, rs) && PickedAll(s, us, fs, rs)
    && now == out + Sent(s.codec, us, fs, ps, stream, said, "")
    && total == Add(stats, ServedTotals(s.codec, us, fs, rs))
  }

  lemma OneMoreServed(s: Setup, us: seq<Unit>, fs: seq<Framing>, rs: seq<string>, ps: seq<nat>, stream: bool,
                      said: string, rest: string, out: string, now: string, stats: Totals, total: Totals,
                      n: nat, ps1: seq<nat>, u: Unit, f: Framing, r: string, now1: string, total1: Totals)
    requires HeardAll(us, stream, said) == Some((rs, rest)) && HeardBy(u, stream, rest) == Some(r)
    requires ServedSoFar(s, us, fs, rs, ps, stream, said, out, now, stats, total) && Paced(us, ps, n, ps1)
    requires ServedAs(s, u, f, r, now + Pings(n), now1, total, total1)
    ensures ServedSoFar(s, us + [u], fs + [f], rs + [r], ps1, stream, said, out, now1, stats, total1)
  {
    hide PicksAs, Sent, HeardAll, UnitTotals, ServedTotals, HeardBy, Offer, Pings, Paced;
    TotalsSnoc(s.codec, us, fs, rs, u, f, r);
    SentSnoc(s.codec, us, fs, ps, u, f, n, ps1, stream, said);
    Regroup3(now, Pings(n), UnitBytes(s.codec, u, f, r));
    Regroup3(out, Sent(s.codec, us, fs, ps, stream, said, ""), Pings(n) + UnitBytes(s.codec, u, f, r));
  }

  lemma OneMoreWaits(s: Setup, us: seq<Unit>, fs: seq<Framing>, rs: seq<string>, ps: seq<nat>, stream: bool,
                     said: string, rest: string, out: string, now: string, stats: Totals, total: Totals,
                     n: nat, ps1: seq<nat>, u: Unit)
    requires HeardAll(us, stream, said) == Some((rs, rest)) && HeardBy(u, stream, rest).None?
    requires ServedSoFar(s, us, fs, rs, ps, stream, said, out, now, stats, total) && Paced(us, ps, n, ps1)
    ensures Waiting(s, us + [u], fs, rs, ps1, stream, said, out, now + Pings(n) + Offer(u))
  {
    hide PicksAs, Sent, HeardAll, HeardBy, RestAfter, Offer, Pings, Paced;
    var f := Framing([], Whole(""));
    assert (us + [u])[..|us|] == us;
    HeardSnoc(us, u, stream, said);
    SentSnoc(s.codec, us, fs, ps, u, f, n, ps1, stream, said);
    SentWithoutLast(s.codec, us + [u], fs, f, ps1, stream, said);
    Regroup3(now, Pings(n), Offer(u));
    Regroup3(out, Sent(s.codec, us, fs, ps, stream, said, ""), Pings(n) + Offer(u));
    assert rest == "" by { Silence(u, stream, rest); }
  }

  lemma NoGap(out: string)
    ensures out + Pings(0) == out && forall us: seq<Unit> :: Paced(us, [], 0, [])
  {
  }

  lemma Silence(u: Unit, stream: bool, said: string)
    requires HeardBy(u, stream, said).None?
    ensures said == ""
  {
  }

  /** The last unit waits for its reply: the client has said the replies to the units before it and no
      more, and the offer has left behind them. */
  ghost predicate Waiting(s: Setup, us: seq<Unit>, fs: seq<Framing>, rs: seq<string>, ps: seq<nat>, stream: bool,
                          said: string, out: string, now: string) {
    now == out + Sent(s.codec, us, fs, ps, stream, said, "") && WaitsOnLast(s, us, fs, rs, stream, said)
  }

  ghost predicate WaitsOnLast(s: Setup, us: seq<Unit>, fs: seq<Framing>, rs: seq<string>, stream: bool, said: string) {
    us != [] && FramedAll(s.codec, us[..|us| - 1], fs, rs) && PickedAll(s, us[..|us| - 1], fs, rs)
    && HeardAll(us[..|us| - 1], stream, said) == Some((rs, "")) && HeardAll(us, stream, said).None?
  }

  /** If a part of the units waits, so does the whole. */
  lemma WaitsInAll(s: Setup, us: seq<Unit>, all: seq<Unit>, fs: seq<Framing>, rs: seq<string>, ps: seq<nat>,
                   stream: bool, said: string, end: string)
    requires WaitsOnLast(s, us, fs, rs, stream, said) && us <= all
    ensures HeardAll(all, stream, said).None?
    ensures Sent(s.codec, all, fs, ps, stream, said, end) == Sent(s.codec, us, fs, ps, stream, said, "")
  {
    hide HeardAll, Sent, FramedAll, PickedAll;
    var more := all[|us|..];
    assert us + more == all;
    HeardNone(us, more, stream, said);
    SentStops(s.codec, us, more, fs, ps, stream, said, end);
  }

  /** The choices are right for every unit that has its reply, by a controller that was in state `c` before. */
  ghost predicate FramedTo(s: Setup, us: seq<Unit>, fs: seq<Framing>, stream: bool, said: string, c: Ctl)
    decreases |us|
  {
    us == []
    || match HeardBy(us[0], stream, said)
       case None => true
       case Some(r) =>
         fs != [] && FramedAs(s.codec, us[0], fs[0], r) && PicksAs(s, us[0], fs[0], r)
         && exists d ::
              Moves(s, us[0], fs[0], r, c, d)
              && FramedTo(s, us[1..], fs[1..], stream, RestAfter(us[0], stream, said), d)
  }

  lemma {:induction false} AllFramed(s: Setup, us: seq<Unit>, fs: seq<Framing>, rs: seq<string>, cs: seq<Ctl>,
                                     c: Ctl, stream: bool, said: string)
    requires HeardAll(us, stream, said).Some? && HeardAll(us, stream, said).value.0 == rs
    requires FramedAll(s.codec, us, fs, rs) && PickedAll(s, us, fs, rs) && MovedAll(s, us, fs, rs, cs, c)
    ensures FramedTo(s, us, fs, stream, said, c)
    decreases |us|
  {
    hide HeardBy, RestAfter, FramedAs, PicksAs, Moves;
    if us != [] {
      assert Moves(s, us[0], fs[0], rs[0], c, cs[1]);
      AllFramed(s, us[1..], fs[1..], rs[1..], cs[1..], cs[1], stream, RestAfter(us[0], stream, said));
    }
  }

  lemma {:induction false} FramedBefore(s: Setup, us: seq<Unit>, all: seq<Unit>, fs: seq<Framing>, rs: seq<string>,
                                        cs: seq<Ctl>, c: Ctl, stream: bool, said: string)
    requires WaitsOnLast(s, us, fs, rs, stream, said) && us <= all
    requires MovedAll(s, us[..|us| - 1], fs, rs, cs, c)
    ensures FramedTo(s, all, fs, stream, said, c)
    decreases |us|
  {
    hide HeardBy, RestAfter, FramedAs, PicksAs, Moves;
    var n := |us| - 1;
    if n == 0 {
      OneWaits(us, stream, said);
    } else {
      assert us[..n][1..] == us[1..][..n - 1] && us[..n][0] == us[0];
      assert Moves(s, us[0], fs[0], rs[0], c, cs[1]);
      FramedBefore(s, us[1..], all[1..], fs[1..], rs[1..], cs[1..], cs[1], stream, RestAfter(us[0], stream, said));
    }
  }

  // ------------------------------------------------------------------ the pass

  class Pass {
    const server: Server
    const ignore: Ignore.IgnoreSet
    var bundle: seq<Doc>
    var bundleBytes: nat
    /** The units served so far, the last one in vain if the client is gone. */
    ghost var units: seq<Unit>
    ghost var framings: seq<Framing>
    ghost var replies: seq<string>
    /** The states of the controller between the units. */
    ghost var ctls: seq<Ctl>
    ghost const start: Ctl

    constructor (server: Server, ignore: Ignore.IgnoreSet)
      ensures this.server == server && this.ignore == ignore && start == server.state.View()
      ensures bundle == [] && bundleBytes == Sum(bundle) && units == [] && framings == [] && replies == []
      ensures ctls == [start]
    {
      this.server, this.ignore, start := server, ignore, server.state.View();
      bundle, bundleBytes, units, framings, replies, ctls := [], 0, [], [], [], [server.state.View()];
    }

    function Test(): Ign { IgnOf(ignore.fold, ignore.patterns) }

    /** The units of the pass if `evs` are what is still to be walked. */
    ghost function Outlook(evs: seq<Event>): seq<Unit>
      reads this
    {
      units + UnitsOf(evs, bundle)
    }

    /** In step with a client that has said `said`, since the output was `out` and the totals `stats`. */
    ghost predicate InStep(said: string, out: string, stats: Totals, stalls: nat)
      reads this, server, server.conn, server.state
    {
      |framings| == |replies| == |units| && bundleBytes == Sum(bundle)
      && Legal(server.state.View()) && server.conn.stalls == stalls
      && MovedAll(server.Setting(), units, framings, replies, ctls, start) && ctls[|units|] == server.state.View()
      && HeardAll(units, false, said) == Some((replies, server.conn.Unread()))
      && ServedSoFar(server.Setting(), units, framings, replies, [], false, said, out, server.conn.Out(), stats,
                     server.Stats())
    }

    /** Given up, or still waiting: the client has said too little for the last unit, whose offer has left
        in full behind the units before it. */
    ghost predicate Dropped(said: string, out: string, stalls: nat)
      reads this, server, server.conn
    {
      server.conn.stalls == stalls
      && Waiting(server.Setting(), units, framings, replies, [], false, said, out, server.conn.Out())
      && units != [] && MovedAll(server.Setting(), units[..|units| - 1], framings, replies, ctls, start)
      && server.conn.wbuf == ""
    }

    method Serve(u: Unit, ghost said: string, ghost out: string, ghost stats: Totals, ghost stalls: nat)
        returns (ok: bool)
      requires InStep(said, out, stats, stalls) && Readable(u)
      modifies this`units, this`framings, this`replies, this`ctls, server, server.conn, server.state
      ensures units == old(units) + [u]
      ensures if ok then InStep(said, out, stats, stalls) else Dropped(said, out, stalls)
    {
      hide Legal, HeardBy, RestAfter, HeardAll, ServedAs, ServedSoFar, Waiting, Offer, Waits, Moves, MovedAll;
      NoGap(server.conn.Out());
      ghost var us, fs, rs := units, framings, replies;
      ghost var rest, before, total := server.conn.Unread(), server.conn.Out(), server.Stats();
      ghost var f;
      var reply;
      reply, f := server.ServeUnit(u, false);
      HeardSnoc(us, u, false, said);
      units := us + [u];
      if reply == None {
        OneMoreWaits(server.Setting(), us, fs, rs, [], false, said, rest, out, before, stats, total, 0, [], u);
        assert units[..|units| - 1] == us;
        return false;
      }
      framings, replies := fs + [f], rs + [reply.value];
      OneMoreServed(server.Setting(), us, fs, rs, [], false, said, rest, out, before, stats, total, 0, [], u, f,
                    reply.value, server.conn.Out(), server.Stats());
      MovedSnoc(server.Setting(), us, fs, rs, ctls, start, u, f, reply.value, server.state.View());
      ctls := ctls + [server.state.View()];
      RestIs(u, false, rest);
      return true;
    }

    method FlushBundle(ghost said: string, ghost out: string, ghost stats: Totals, ghost stalls: nat) returns (ok: bool)
      requires InStep(said, out, stats, stalls) && Readable(Bundle(bundle))
      modifies this, server, server.conn, server.state
      ensures units == old(units) + Flush(old(bundle))
      ensures if ok then InStep(said, out, stats, stalls) && bundle == [] else Dropped(said, out, stalls)
    {
      ok := true;
      if bundle != [] {
        ok := Serve(Bundle(bundle), said, out, stats, stalls);
        if !ok { return; }
        bundle, bundleBytes := [], 0;
      }
    }

    /** One file that is not ignored. When the client is gone the pass ends inside the units this file
        completes. */
    method AddFile(e: Event, ghost said: string, ghost out: string, ghost stats: Totals, ghost stalls: nat)
        returns (ok: bool)
      requires InStep(said, out, stats, stalls) && FileEvent(e) && ReadableDocs(bundle)
      modifies this, server, server.conn, server.state
      ensures if ok then InStep(said, out, stats, stalls) else Dropped(said, out, stalls)
      ensures ok ==> ReadableDocs(bundle) && forall more :: Outlook(more) == old(Outlook([e] + more))
      ensures !ok ==> forall more :: units <= old(Outlook([e] + more))
    {
      hide InStep, Dropped, UnitsOf;
      ghost var units0, bundle0 := units, bundle;
      var d := Doc(Join(e.segs, '/'), e.meta.size, e.meta.mtime, e.meta.body);
      ok := true;
      if d.size <= SMALL_FILE {
        Grow(d, said, out, stats, stalls);
        if bundleBytes >= BUNDLE_BYTES || |bundle| >= BUNDLE_MAX_COUNT {
          ok := Serve(Bundle(bundle), said, out, stats, stalls);
          if ok { Empty(said, out, stats, stalls); }
        }
      } else {
        ok := FlushBundle(said, out, stats, stalls);
        if ok { ok := Serve(Large(d), said, out, stats, stalls); }
      }
      forall more
        ensures ok ==> Outlook(more) == units0 + UnitsOf([e] + more, bundle0)
        ensures !ok ==> units <= units0 + UnitsOf([e] + more, bundle0)
      {
        OneEvent(e, more, bundle0);
        Regroup3(units0, Emit(bundle0, e).0, UnitsOf(more, Emit(bundle0, e).1));
        Regroup3(units0, Flush(bundle0), [Large(d)]);
      }
    }

    method Grow(d: Doc, ghost said: string, ghost out: string, ghost stats: Totals, ghost stalls: nat)
      requires InStep(said, out, stats, stalls) && ReadableDocs(bundle) && ReadableDoc(d)
      modifies this`bundle, this`bundleBytes
      ensures InStep(said, out, stats, stalls) && bundle == old(bundle) + [d] && bundleBytes == Sum(bundle)
      ensures ReadableDocs(bundle)
    {
      hide Legal, HeardAll, ServedSoFar, Sum, ReadableDoc;
      SumSnoc(bundle, d);
      bundle, bundleBytes := bundle + [d], bundleBytes + d.size;
    }

    method Empty(ghost said: string, ghost out: string, ghost stats: Totals, ghost stalls: nat)
      requires InStep(said, out, stats, stalls)
      modifies this`bundle, this`bundleBytes
      ensures InStep(said, out, stats, stalls) && bundle == []
    {
      hide Legal, HeardAll, ServedSoFar;
      bundle, bundleBytes := [], 0;
    }

    /** The files of one directory. */
    method AddFiles(files: seq<Event>, ghost more: seq<Event>,
                    ghost said: string, ghost out: string, ghost stats: Totals, ghost stalls: nat) returns (ok: bool)
      requires InStep(said, out, stats, stalls) && ReadableDocs(bundle)
      requires forall i | 0 <= i < |files| :: FileEvent(files[i])
      modifies this, server, server.conn, server.state
      ensures if ok then InStep(said, out, stats, stalls) && ReadableDocs(bundle) else Dropped(said, out, stalls)
      ensures ok ==> Outlook(more) == old(Outlook(KeepFiles(Test(), files) + more))
      ensures !ok ==> units <= old(Outlook(KeepFiles(Test(), files) + more))
    {
      hide UnitsOf, InStep, Dropped, DocOf, IgnOf;
      ghost var goal := Outlook(KeepFiles(Test(), files) + more);
      assert files[0..] == files;
      for i := 0 to |files|
        invariant InStep(said, out, stats, stalls) && ReadableDocs(bundle)
        invariant Outlook(KeepFiles(Test(), files[i..]) + more) == goal
      {
        var e := files[i];
        assert FileEvent(e);
        KeepFirst(Test(), files, i, more);
        var ignored := ignore.Test(Join(e.segs, '/'), false);
        TestIs(ignore.fold, ignore.patterns, e.segs);
        if ignored { continue; }
        ok := AddFile(e, said, out, stats, stalls);
        if !ok { return; }
      }
      assert files[|files|..] == [] && [] + more == more;
      return true;
    }

    /** The walk of one shared folder. */
    method WalkRoot(root: Task, ghost later: seq<Event>,
                    ghost said: string, ghost out: string, ghost stats: Totals, ghost stalls: nat) returns (ok: bool)
      requires InStep(said, out, stats, stalls) && ReadableDocs(bundle)
      requires TaskSound(root)
      modifies this, server, server.conn, server.state
      ensures if ok then InStep(said, out, stats, stalls) && ReadableDocs(bundle) else Dropped(said, out, stalls)
      ensures ok ==> Outlook(later) == old(Outlook(PrunedWalk(Test(), [root]) + later))
      ensures !ok ==> units <= old(Outlook(PrunedWalk(Test(), [root]) + later))
    {
      hide UnitsOf, InStep, Dropped, Subs, Tree.Files, PrunedWalk, IgnOf, FullWalk, Ignore.Segments, Sound;
      ghost var goal := Outlook(PrunedWalk(Test(), [root]) + later);
      var stack := [root];
      while stack != []
        invariant InStep(said, out, stats, stalls) && ReadableDocs(bundle)
        invariant StackSound(stack)
        invariant Outlook(PrunedWalk(Test(), stack) + later) == goal
        decreases Weight(stack)
      {
        var t, rest := stack[|stack| - 1], stack[..|stack| - 1];
        assert TaskSound(t) && StackSound(rest);
        var subs, files := Classify(ignore, t);
        ghost var more := PrunedWalk(Test(), rest + subs) + later;
        PopTask(Test(), stack, later);
        OwnIs(Test(), t);
        if t.dirsOnly {
          OneEvent(DirAt(t.segs), more, bundle);
          Regroup3(units, [Dir(Join(t.segs, '/'))], UnitsOf(more, bundle));
          ok := Serve(Dir(Join(t.segs, '/')), said, out, stats, stalls);
        } else {
          ok := AddFiles(files, more, said, out, stats, stalls);
        }
        if !ok { return; }
        WeightAppend(rest, subs);
        stack := rest + subs;
      }
      NoTask(Test(), later);
      return true;
    }

    lemma Begin(said: string, out: string, stats: Totals, stalls: nat)
      requires units == [] && framings == [] && replies == [] && bundle == [] && bundleBytes == 0
      requires ctls == [start] && start == server.state.View()
      requires Legal(server.state.View()) && server.conn.stalls == stalls
      requires server.conn.Unread() == said && server.conn.Out() == out && server.Stats() == stats
      ensures InStep(said, out, stats, stalls) && ReadableDocs(bundle)
    {
    }

    /** What the pass has sent and heard in the end. */
    ghost predicate Passed(ok: bool, goal: seq<Unit>, said: string, before: string, stats: Totals)
      reads this, server, server.conn
    {
      server.conn.Out() == before + (Ln("T 0") + Sent(server.codec, goal, framings, [], false, said, ""))
      && if ok then
           units == goal && HeardAll(goal, false, said) == Some((replies, server.conn.Unread()))
           && FramedAll(server.codec, goal, framings, replies)
           && PickedAll(server.Setting(), goal, framings, replies)
           && MovedAll(server.Setting(), goal, framings, replies, ctls, start)
           && server.Stats() == Add(stats, ServedTotals(server.codec, goal, framings, replies))
         else
           units <= goal && WaitsOnLast(server.Setting(), units, framings, replies, false, said)
           && MovedAll(server.Setting(), units[..|units| - 1], framings, replies, ctls, start)
           && HeardAll(goal, false, said).None? && server.conn.wbuf == ""
    }

    lemma GivenUp(goal: seq<Unit>, said: string, before: string, out: string, stats: Totals, stalls: nat)
      requires Dropped(said, out, stalls) && units <= goal && out == before + Ln("T 0")
      ensures Passed(false, goal, said, before, stats)
    {
      hide HeardAll, Sent, WaitsOnLast, MovedAll;
      WaitsInAll(server.Setting(), units, goal, framings, replies, [], false, said, "");
      Regroup3(before, Ln("T 0"), Sent(server.codec, goal, framings, [], false, said, ""));
    }

    lemma Finished(before: string, said: string, out: string, stats: Totals, stalls: nat)
      requires InStep(said, out, stats, stalls) && out == before + Ln("T 0")
      ensures Passed(true, units, said, before, stats)
    {
      hide HeardAll, Legal, Sent, ServedTotals, FramedAll, MovedAll;
      Regroup3(before, Ln("T 0"), Sent(server.codec, units, framings, [], false, said, ""));
    }

    /** `send_pass`: walk, batch and serve. It succeeds exactly when the client says enough, reads
        exactly the replies, and sends the units of `UnitsOf` in order. In every case what it has sent is
        `Sent` of what the client has said: when the client says too little, everything through the offer
        it then waits on, and none of it is still queued. */
    method SendPass(roots: seq<Node>) returns (ok: bool)
      requires units == [] && framings == [] && replies == [] && bundle == [] && bundleBytes == 0
      requires ctls == [start] && start == server.state.View()
      requires Sound(roots) && Legal(server.state.View())
      modifies this, server, server.conn, server.state
      ensures Passed(ok, UnitsOf(EventsOf(Test(), roots), []), old(server.conn.Unread()), old(server.conn.Out()),
                     old(server.Stats()))
      ensures server.conn.stalls == old(server.conn.stalls)
    {
      hide UnitsOf, IgnOf, Sound, PrunedWalk, FullWalk;
      ghost var goal := UnitsOf(EventsOf(Test(), roots), []);
      ghost var said, stats, stalls := server.conn.Unread(), server.Stats(), server.conn.stalls;
      ghost var before := server.conn.Out();
      server.conn.SendLine("T 0");
      ghost var out := server.conn.Out();
      Begin(said, out, stats, stalls);
      assert roots[0..] == roots && [] + goal == goal;
      for k := 0 to |roots|
        invariant InStep(said, out, stats, stalls) && ReadableDocs(bundle)
        invariant Outlook(EventsOf(Test(), roots[k..])) == goal
      {
        hide InStep, Dropped;
        SoundAt(roots, k);
        FirstRoot(Test(), roots, k);
        if roots[k].Folder? {
          RootSound(roots[k]);
          ok := WalkRoot(Task([roots[k].name], roots[k].entries, false), EventsOf(Test(), roots[k + 1..]), said, out,
              stats, stalls);
          if !ok {
            GivenUp(goal, said, before, out, stats, stalls);
            return;
          }
        }
      }
      assert roots[|roots|..] == [] && UnitsOf([], bundle) == Flush(bundle) by { NoEvents(bundle); }
      ok := FlushBundle(said, out, stats, stalls);
      assert units == goal;
      if !ok {
        GivenUp(goal, said, before, out, stats, stalls);
        return;
      }
      Finished(before, said, out, stats, stalls);
    }
  }

  lemma NoEvents(pending: seq<Doc>)
    ensures UnitsOf([], pending) == Flush(pending)
  {
  }

  lemma FirstRoot(ign: Ign, roots: seq<Node>, k: nat)
    requires k < |roots|
    ensures EventsOf(ign, roots[k..]) ==
            (if roots[k].Folder? then PrunedWalk(ign, [Task([roots[k].name], roots[k].entries, false)]) else [])
            + EventsOf(ign, roots[k + 1..])
    ensures !roots[k].Folder? ==> EventsOf(ign, roots[k..]) == EventsOf(ign, roots[k + 1..])
  {
  }

  lemma RootSound(n: Node)
    requires n.Folder? && Ignore.Segment(n.name) && Sound(n.entries)
    ensures TaskSound(Task([n.name], n.entries, false))
  {
  }

  predicate ReadableDocs(ds: seq<Doc>) { forall i | 0 <= i < |ds| :: ReadableDoc(ds[i]) }

  lemma RestIs(u: Unit, stream: bool, said: string)
    ensures RestAfter(u, stream, said) == if Waits(u, stream) then AfterLine(said) else said
  {
  }
}
