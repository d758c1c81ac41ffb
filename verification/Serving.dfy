/** The server's connections: greeting and configuration, the command loop of the single-stream mode with
    its cutover pause, and the handler of one parallel stream. */
module Serving {
  import opened Text
  import opened Wire
  import opened Frames
  import opened Receiver
  import opened Transcript
  import opened Tally
  import opened Control
  import opened Sender
  import Pa = Pass
  import opened Dialogue
  import Ignore

  // ------------------------------------------------------------------ greeting and configuration

  const I32_MAX: int := 0x7FFF_FFFF
  const I32_MIN: int := -0x8000_0000

  /** Does the first line carry the token? An empty token lets everyone in. */
  predicate Authed(token: string, said: string) {
    said != "" && StartsWith(Line(said), "AUTH ") && (token == "" || Line(said)[5..] == token)
  }

  /** Who gets in, by the text of the first line: only `AUTH` and a token, and only with the right one unless
      none is set. */
  lemma Admits(token: string, said: string, line: string, more: string)
    requires LineSafe(line) && said == Ln(line) + more
    ensures Authed(token, said) <==> "AUTH " <= line && (token == "" || line == "AUTH " + token)
    ensures !Authed(token, "")
  {
    LineOf(line, more);
    if "AUTH " <= line { assert line == "AUTH " + line[5..]; }
    if line == "AUTH " + token { assert line[5..] == token; }
  }

  function CfgLine(streams: nat, spec: string): string { "CFG " + Dec(streams) + " " + spec }

  function ParseI32(s: string): Option<int> {
    match ParseI64(s) case None => None case Some(v) => if I32_MIN <= v <= I32_MAX then Some(v) else None
  }

  /** `parse_cfg`: stream count and ignore specification, which may contain spaces. */
  function ParseCfg(line: string): (int, string) {
    match Find(line, ' ')
    case None => (1, "")
    case Some(i) =>
      if line[..i] != "CFG" then (1, "")
      else
        var rest := line[i + 1..];
        match Find(rest, ' ')
        case None => (OrElse(ParseI32(rest), 1), "")
        case Some(j) => (OrElse(ParseI32(rest[..j]), 1), rest[j + 1..])
  }

  lemma CfgParses(streams: string, spec: string)
    requires Avoids(streams, {' '})
    ensures ParseCfg("CFG " + streams + " " + spec) == (OrElse(ParseI32(streams), 1), spec)
  {
    hide ParseI32;
    var rest := streams + [' '] + spec;
    var line := "CFG" + [' '] + rest;
    assert "CFG " + streams + " " + spec == line;
    FindAt("CFG", ' ', rest);
    FindAt(streams, ' ', spec);
    assert line[..3] == "CFG" && line[4..] == rest;
    assert rest[..|streams|] == streams && rest[|streams| + 1..] == spec;
  }

  /** What stands for a configuration that was not sent: one stream and nothing ignored. */
  lemma CfgDefaults(line: string, streams: string, spec: string)
    requires Avoids(streams, {' '})
    ensures !("CFG " <= line) ==> ParseCfg(line) == (1, "")
    ensures ParseI32(streams) == None ==> ParseCfg("CFG " + streams + " " + spec) == (1, spec)
    ensures ParseCfg("CFG " + streams) == (OrElse(ParseI32(streams), 1), "")
  {
    hide ParseI32, Find;
    CfgParses(streams, spec);
    FindAt("CFG", ' ', streams);
    assert "CFG " + streams == "CFG" + [' '] + streams;
    assert ("CFG " + streams)[4..] == streams && ("CFG " + streams)[..3] == "CFG";
    FindNone(streams, ' ');
    var i := Find(line, ' ');
    if i.Some? && line[..i.value] == "CFG" { assert line[..4] == line[..3] + [line[3]]; }
  }

  lemma {:induction false} FindNone(s: string, c: char)
    requires Avoids(s, {c})
    ensures Find(s, c) == None
  {
    if s != "" { FindNone(s[1..], c); }
  }

  lemma StreamsParse(streams: nat)
    requires streams <= I32_MAX
    ensures OrElse(ParseI32(Dec(streams)), 1) == streams
  {
    ParseDecInt(streams);
  }

  lemma CfgIsALine(streams: string, spec: string)
    requires Avoids(streams, {'\n', '\r'}) && Avoids(spec, {'\n'}) && (spec != "" ==> spec[|spec| - 1] != '\r')
    ensures LineSafe("CFG " + streams + " " + spec)
  {
  }

  /** The pushed configuration arrives unchanged, so both ends compile the same ignore patterns. */
  lemma CfgRoundTrip(streams: nat, spec: string, more: string)
    requires streams <= I32_MAX && Avoids(spec, {'\n'}) && (spec != "" ==> spec[|spec| - 1] != '\r')
    ensures var s := Ln(CfgLine(streams, spec)) + more;
            ParseCfg(Line(s)) == (streams, spec) && AfterLine(s) == more
            && Ignore.Parse(ParseCfg(Line(s)).1) == Ignore.Parse(spec)
  {
    hide Ignore.Parse, ParseCfg, Dec, LineSafe;
    DecIsPlain(streams);
    CfgIsALine(Dec(streams), spec);
    CfgParses(Dec(streams), spec);
    StreamsParse(streams);
    LineOf(CfgLine(streams, spec), more);
  }

  method Greet(conn: Conn, token: string, streams: nat, spec: string) returns (ok: bool)
    requires conn.wbuf == ""
    modifies conn
    ensures ok <==> Authed(token, old(conn.Unread()))
    ensures conn.Out() == old(conn.Out()) + if ok then Ln("OK") + Ln(CfgLine(streams, spec)) else Ln("ERR auth")
    ensures conn.Unread() == AfterLine(old(conn.Unread())) && conn.wbuf == "" && conn.stalls == old(conn.stalls)
  {
    hide Line, Dec;
    ghost var out := conn.Out();
    NothingLeft();
    var line := conn.ReadLine();
    var authed := false;
    if line.Some? && StartsWith(line.value, "AUTH ") {
      authed := token == "" || line.value[5..] == token;
    }
    if !authed {
      conn.SendLine("ERR auth");
      return false;
    }
    conn.SendLine("OK");
    conn.SendLine(CfgLine(streams, spec));
    Regroup3(out, Ln("OK"), Ln(CfgLine(streams, spec)));
    return true;
  }

  // ------------------------------------------------------------------ one parallel stream

  lemma {:induction false} PingsInUnits(site: Site, st: St, n: nat, rest: string, stream: bool, k: nat)
    ensures Units(site, st, Pings(n) + rest, stream, k) == Units(site, st, rest, stream, k)
  {
    hide Dispatch;
    if n == 0 {
      assert "" + rest == rest;
    } else {
      Regroup3(Ln("PING"), Pings(n - 1), rest);
      LineOf("PING", Pings(n - 1) + rest);
      PingsInUnits(site, st, n - 1, rest, stream, k);
    }
  }

  lemma UnitInStream(site: Site, st: St, u: Unit, f: Framing, pings: nat, more: string, stream: bool, k: nat)
    requires Lawful(site.codec) && UnitOk(u) && FramingOk(site.codec, u, f) && u != Bundle([])
    ensures Units(site, st, Pings(pings) + (UnitBytes(site.codec, u, f, Heard(site, st, u, stream)) + more), stream, k)
            == Units(site, Apply(site, st, u, stream), more, stream, k + 1)
  {
    hide Dispatch, Apply, UnitBytes, Heard, UnitOk, Units, BlockOk, BodyOk, BodyData;
    var s := UnitBytes(site.codec, u, f, Heard(site, st, u, stream)) + more;
    PingsInUnits(site, st, pings, s, stream, k);
    UnitRoundTrip(site, st, u, f, more, stream);
    UnitsCarry(site, st, u, s, more, stream, k);
  }

  lemma StreamEnds(site: Site, st: St, pings: nat, rest: string, stream: bool, k: nat)
    ensures Units(site, st, Pings(pings) + Ln("NOUNIT") + rest, stream, k) == (st, true, k)
  {
    hide Dispatch, Pings;
    Regroup3(Pings(pings), Ln("NOUNIT"), rest);
    PingsInUnits(site, st, pings, Ln("NOUNIT") + rest, stream, k);
    LineOf("NOUNIT", rest);
  }

  /** A stream takes its client to the meant effect of its units and to a clean end, wherever keepalives
      fall, in both modes, when the server hears the client's own replies. */
  lemma {:induction false} StreamDelivers(site: Site, st: St, us: seq<Unit>, fs: seq<Framing>, ps: seq<nat>,
                                          more: string, rest: string, stream: bool, k: nat)
    requires Lawful(site.codec) && PassOk(site.codec, us, fs)
    ensures Units(site, st, Pa.Sent(site.codec, us, fs, ps, stream, Replies(site, st, us, stream) + more, Ln("NOUNIT"))
                            + rest, stream, k)
            == (ApplyAll(site, st, us, stream), true, k + |us|)
    decreases |us|
  {
    hide Dispatch, Apply, UnitBytes, Pa.UnitSent, Heard, HeardBy, Pa.RestAfter, BlockOk, BodyOk, BodyData, UnitOk,
        Units, Pings, Said;
    if us == [] {
      StreamEnds(site, st, Pa.Gap(ps), rest, stream, k);
    } else {
      var st1 := Apply(site, st, us[0], stream);
      var head := UnitBytes(site.codec, us[0], fs[0], Heard(site, st, us[0], stream));
      var said1 := Replies(site, st1, us[1..], stream) + more;
      var tail := Pa.Sent(site.codec, us[1..], fs[1..], Pa.Later(ps), stream, said1, Ln("NOUNIT"));
      Regroup3(Said(site, st, us[0], stream), Replies(site, st1, us[1..], stream), more);
      HearsOne(site, st, us[0], said1, stream);
      ServesTheUnit(site, st, us[0], fs[0], stream);
      StreamDelivers(site, st1, us[1..], fs[1..], Pa.Later(ps), more, rest, stream, k + 1);
      Regroup3(Pings(Pa.Gap(ps)), head + tail, rest);
      Regroup3(head, tail, rest);
      UnitInStream(site, st, us[0], fs[0], Pa.Gap(ps), tail + rest, stream, k);
    }
  }

  /** Keepalives while there is nothing to do. */
  method Idle(conn: Conn) returns (ghost n: nat)
    modifies conn`wbuf, conn`sent
    ensures conn.Out() == old(conn.Out()) + Pings(n)
    ensures old(conn.wbuf) == "" ==> conn.wbuf == ""
  {
    n := 0;
    ghost var out := conn.Out();
    assert out + "" == out;
    var ticks :| 0 <= ticks;
    for t := 0 to ticks
      invariant conn.Out() == out + Pings(n)
      invariant old(conn.wbuf) == "" ==> conn.wbuf == ""
    {
      conn.SendLine("PING");
      PingsSnoc(n);
      Regroup3(out, Pings(n), Ln("PING"));
      n := n + 1;
    }
  }

  lemma {:induction false} PingsSnoc(n: nat)
    ensures Pings(n) + Ln("PING") == Pings(n + 1)
  {
    if n == 0 {
      assert "" + Ln("PING") == Ln("PING") + "";
    } else {
      PingsSnoc(n - 1);
      Regroup3(Ln("PING"), Pings(n - 1), Ln("PING"));
    }
  }

  predicate Asks(said: string) { said != "" && Line(said) in {"QSYNC", "QSYNC STREAM"} }

  /** Everything a handler sends behind the greeting, once the client has said `said` and no more. */
  function HandlerSent(c: Codec, us: seq<Unit>, fs: seq<Framing>, ps: seq<nat>, said: string): string {
    if !Asks(said) then Ln("ERR cmd")
    else Pa.Sent(c, us, fs, ps, Line(said) == "QSYNC STREAM", AfterLine(said), Ln("NOUNIT"))
  }

  /** A handler: the units it has served on its connection. */
  class Handler {
    const server: Server
    ghost var units: seq<Unit>
    ghost var framings: seq<Framing>
    ghost var replies: seq<string>
    ghost var pings: seq<nat>

    constructor (server: Server)
      ensures this.server == server && units == [] && framings == [] && replies == [] && pings == []
    {
      this.server := server;
      units, framings, replies, pings := [], [], [], [];
    }

    /** In step with a client that has said `said`, since the output was `out` and the totals `stats`. */
    ghost predicate InStep(stream: bool, said: string, out: string, stats: Totals, stalls: nat)
      reads this, server, server.conn, server.state
    {
      |pings| == |units| && Legal(server.state.View()) && server.conn.stalls == stalls
      && Pa.HeardAll(units, stream, said) == Some((replies, server.conn.Unread()))
      && Pa.ServedSoFar(server.Setting(), units, framings, replies, pings, stream, said, out, server.conn.Out(), stats,
                        server.Stats())
    }

    /** One unit taken from the queue, after any number of keepalives. */
    method Serve(u: Unit, stream: bool, ghost said: string, ghost out: string, ghost stats: Totals, ghost stalls: nat)
        returns (ok: bool)
      requires InStep(stream, said, out, stats, stalls) && Readable(u)
      modifies this, server, server.conn, server.state
      ensures units == old(units) + [u]
      ensures ok ==> InStep(stream, said, out, stats, stalls)
      ensures !ok ==> server.conn.stalls == stalls && server.conn.wbuf == ""
                      && Pa.Waiting(server.Setting(), units, framings, replies, pings, stream, said, out,
                                    server.conn.Out())
    {
      hide Legal, HeardBy, Pa.RestAfter, Pa.HeardAll, Pa.ServedSoFar, Pa.Waiting, ServedAs, Offer, Waits, Pings;
      ghost var us, fs, rs, ps := units, framings, replies, pings;
      ghost var rest, before, total := server.conn.Unread(), server.conn.Out(), server.Stats();
      ghost var n := Idle(server.conn);
      ghost var f;
      var reply;
      reply, f := server.ServeUnit(u, stream);
      Pa.HeardSnoc(us, u, stream, said);
      units, pings := us + [u], ps + [n];
      if reply == None {
        Pa.OneMoreWaits(server.Setting(), us, fs, rs, ps, stream, said, rest, out, before, stats, total, n, ps + [n],
                        u);
        return false;
      }
      framings, replies := fs + [f], rs + [reply.value];
      Pa.OneMoreServed(server.Setting(), us, fs, rs, ps, stream, said, rest, out, before, stats, total, n, ps + [n], u,
                       f, reply.value, server.conn.Out(), server.Stats());
      Pa.RestIs(u, stream, rest);
      return true;
    }

    /** What the handler has sent and heard in the end, on a client that asked and then said `said`. */
    ghost predicate Streamed(ok: bool, taken: seq<Unit>, stream: bool, said: string, stats: Totals)
      reads this, server, server.conn
    {
      if ok then
        units == taken && |pings| == |taken| + 1
        && Pa.HeardAll(taken, stream, said) == Some((replies, server.conn.Unread()))
        && Pa.FramedAll(server.codec, taken, framings, replies)
        && Pa.PickedAll(server.Setting(), taken, framings, replies)
        && server.Stats() == Add(stats, Pa.ServedTotals(server.codec, taken, framings, replies))
      else
        units <= taken && Pa.WaitsOnLast(server.Setting(), units, framings, replies, stream, said)
        && Pa.HeardAll(taken, stream, said).None? && server.conn.wbuf == ""
    }

    /** `parallel_handler` behind the greeting: `QSYNC` or `QSYNC STREAM`, then the units it takes from the
        queue one by one (`taken`, as it turns out), then `NOUNIT`. In every case what it has sent is
        `HandlerSent` of what the client has said: when the client says too little, everything through the
        offer it then waits on, and none of it is still queued. */
    method Run(taken: seq<Unit>) returns (ok: bool, ghost stream: bool)
      requires units == [] && framings == [] && replies == [] && pings == []
      requires server.conn.wbuf == "" && Legal(server.state.View())
      requires forall i | 0 <= i < |taken| :: Readable(taken[i])
      modifies this, server, server.conn, server.state
      ensures server.conn.stalls == old(server.conn.stalls)
      ensures server.conn.Out() == old(server.conn.Out())
                                   + HandlerSent(server.codec, taken, framings, pings, old(server.conn.Unread()))
      ensures stream == (Line(old(server.conn.Unread())) == "QSYNC STREAM")
      ensures if Asks(old(server.conn.Unread()))
              then Streamed(ok, taken, stream, AfterLine(old(server.conn.Unread())), old(server.Stats())) else !ok
    {
      hide Line, AfterLine, Legal, Readable, InStep, Pa.Sent, Pa.HeardAll, Pa.WaitsOnLast;
      stream := Line(server.conn.Unread()) == "QSYNC STREAM";
      ghost var out, stats, stalls := server.conn.Out(), server.Stats(), server.conn.stalls;
      var cmd := server.conn.ReadLine();
      if cmd == None || cmd.value !in {"QSYNC", "QSYNC STREAM"} {
        server.conn.SendLine("ERR cmd");
        return false, stream;
      }
      var mode := cmd.value == "QSYNC STREAM";
      ghost var said := server.conn.Unread();
      Begin(stream, said, out, stats, stalls);
      for k := 0 to |taken|
        invariant units == taken[..k] && InStep(stream, said, out, stats, stalls)
      {
        assert taken[..k + 1] == taken[..k] + [taken[k]];
        ok := Serve(taken[k], mode, said, out, stats, stalls);
        if !ok {
          Pa.WaitsInAll(server.Setting(), units, taken, framings, replies, pings, stream, said, Ln("NOUNIT"));
          return false, stream;
        }
      }
      assert taken[..|taken|] == taken;
      Finish(mode, said, out, stats, stalls);
      return true, stream;
    }

    lemma Begin(stream: bool, said: string, out: string, stats: Totals, stalls: nat)
      requires units == [] && framings == [] && replies == [] && pings == []
      requires Legal(server.state.View()) && server.conn.stalls == stalls
      requires server.conn.Unread() == said && server.conn.Out() == out && server.Stats() == stats
      ensures InStep(stream, said, out, stats, stalls)
    {
    }

    /** The queue is drained: the last keepalives and `NOUNIT`. */
    method Finish(ghost stream: bool, ghost said: string, ghost out: string, ghost stats: Totals, ghost stalls: nat)
      requires InStep(stream, said, out, stats, stalls)
      modifies `pings, server.conn`wbuf, server.conn`sent
      ensures Streamed(true, units, stream, said, stats) && server.conn.stalls == stalls
      ensures server.conn.Out() == out + Pa.Sent(server.codec, units, framings, pings, stream, said, Ln("NOUNIT"))
    {
      hide Legal, Pa.HeardAll, Pa.Sent, Pings, Pa.FramedAll, Pa.PickedAll, Pa.ServedTotals;
      ghost var before, ps := server.conn.Out(), pings;
      ghost var n := Idle(server.conn);
      server.conn.SendLine("NOUNIT");
      Pa.SentEnds(server.codec, units, framings, ps, n, ps + [n], stream, said, Ln("NOUNIT"));
      Regroup3(before, Pings(n), Ln("NOUNIT"));
      Regroup3(out, Pa.Sent(server.codec, units, framings, ps, stream, said, ""), Pings(n) + Ln("NOUNIT"));
      pings := ps + [n];
    }
  }
}
