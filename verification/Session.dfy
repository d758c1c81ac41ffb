/** The single-stream server connection: the `SYNC` command with its optional cutover, and the command
    loop around it. */
module Session {
  import opened Text
  import opened Wire
  import opened Frames
  import opened Receiver
  import opened Transcript
  import opened Control
  import opened Adaptive
  import opened Sender
  import opened Tree
  import opened Bundling
  import opened Producer
  import opened Dialogue
  import opened Serving
  import Pa = Pass
  import Ignore

  /** The configuration of a server, and the shared folders as the first and the second pass of a `SYNC`
      find them. */
  datatype Config = Config(codec: Codec, useCompress: bool, skips: string -> bool, margin: Option<real>,
                           fold: char -> char, spec: string, cutover: bool, first: seq<Node>, second: seq<Node>)

  function SetupOf(cfg: Config): Setup { Setup(cfg.codec, cfg.useCompress, cfg.skips) }

  predicate ConfigOk(cfg: Config) { Sound(cfg.first) && Sound(cfg.second) }

  function FirstUnits(cfg: Config): seq<Unit> {
    UnitsOf(EventsOf(IgnOf(cfg.fold, Ignore.Parse(cfg.spec)), cfg.first), [])
  }

  function SecondUnits(cfg: Config): seq<Unit> {
    UnitsOf(EventsOf(IgnOf(cfg.fold, Ignore.Parse(cfg.spec)), cfg.second), [])
  }

  /** What the client has said beyond a `SYNC`, `None` when it said too little for it. */
  function BeyondSync(cfg: Config, said: string): Option<string> {
    match Pa.HeardAll(FirstUnits(cfg), false, said)
    case None => None
    case Some((_, rest)) =>
      if !cfg.cutover then Some(rest)
      else match Pa.HeardAll(SecondUnits(cfg), false, rest) case None => None case Some((_, rest2)) => Some(rest2)
  }

  /** How the command loop ends: did the client say goodbye? */
  predicate SaysGoodbye(cfg: Config, said: string)
    decreases |said|
  {
    said != "" &&
    if Line(said) == "SYNC" then
      (match BeyondSync(cfg, AfterLine(said))
       case None => false
       case Some(rest) => |rest| < |said| && SaysGoodbye(cfg, rest))
    else if Line(said) == "BYE" then true
    else SaysGoodbye(cfg, AfterLine(said))
  }

  lemma {:induction false} HeardShrinks(us: seq<Unit>, stream: bool, said: string)
    ensures Pa.HeardAll(us, stream, said).Some? ==> |Pa.HeardAll(us, stream, said).value.1| <= |said|
    decreases |us|
  {
    hide HeardBy;
    if us != [] && HeardBy(us[0], stream, said).Some? {
      HeardShrinks(us[1..], stream, Pa.RestAfter(us[0], stream, said));
    }
  }

  /** One pass with its own counters and its own controller. */
  method OnePass(conn: Conn, cfg: Config, ignore: Ignore.IgnoreSet, roots: seq<Node>)
    returns (ok: bool, ghost fs: seq<Framing>)
    requires Sound(roots) && ignore.fold == cfg.fold && ignore.patterns == Ignore.Parse(cfg.spec)
    modifies conn
    ensures var us, said := UnitsOf(EventsOf(IgnOf(cfg.fold, Ignore.Parse(cfg.spec)), roots), []), old(conn.Unread());
            conn.Out() == old(conn.Out()) + (Ln("T 0") + Pa.Sent(cfg.codec, us, fs, [], false, said, ""))
            && Pa.FramedTo(SetupOf(cfg), us, fs, false, said, New(cfg.margin, 1))
            && (if ok then Pa.HeardAll(us, false, said).Some? && Pa.HeardAll(us, false, said).value.1 == conn.Unread()
                else Pa.HeardAll(us, false, said).None? && conn.wbuf == "")
    ensures conn.stalls == old(conn.stalls)
  {
    hide UnitsOf, EventsOf, Pa.HeardAll, Pa.Sent, Legal, Sound, Ignore.Parse, IgnOf, Pa.FramedAll, Pa.PickedAll,
        Pa.FramedTo, Pa.WaitsOnLast;
    ghost var us := UnitsOf(EventsOf(IgnOf(cfg.fold, Ignore.Parse(cfg.spec)), roots), []);
    ghost var said := conn.Unread();
    var state := new AdaptiveState(cfg.margin, 1);
    var server := new Server(conn, cfg.codec, cfg.useCompress, cfg.skips, state);
    var pass := new Pa.Pass(server, ignore);
    ok := pass.SendPass(roots);
    fs := pass.framings;
    if ok {
      Pa.AllFramed(SetupOf(cfg), us, fs, pass.replies, pass.ctls, pass.start, false, said);
    } else {
      Pa.FramedBefore(SetupOf(cfg), pass.units, us, fs, pass.replies, pass.ctls, pass.start, false, said);
    }
  }

  /** The free choices of a `SYNC`: the framings of both passes and the keepalives of the pause. */
  datatype Talk = Talk(fs: seq<Framing>, pings: nat, fs2: seq<Framing>)

  const SILENT: Talk := Talk([], 0, [])

  /** Everything a server sends to a `SYNC`, once the client has said `said` behind it and no more. */
  function SyncSent(cfg: Config, t: Talk, said: string): string {
    Ln("T 0") + (Pa.Sent(cfg.codec, FirstUnits(cfg), t.fs, [], false, said, "")
                 + match Pa.HeardAll(FirstUnits(cfg), false, said)
                   case None => ""
                   case Some(heard) => Ln("PASS-END") + BehindFirst(cfg, t, heard.1))
  }

  /** ... behind the first pass ... */
  function BehindFirst(cfg: Config, t: Talk, said: string): string {
    if !cfg.cutover then Ln("DONE") else Pings(t.pings) + (Ln("GO") + SecondSent(cfg, t, said))
  }

  /** ... and from the second one on. */
  function SecondSent(cfg: Config, t: Talk, said: string): string {
    Ln("T 0") + (Pa.Sent(cfg.codec, SecondUnits(cfg), t.fs2, [], false, said, "")
                 + if Pa.HeardAll(SecondUnits(cfg), false, said).None? then "" else Ln("PASS-END") + Ln("DONE"))
  }

  /** The framings are about the bytes the client has asked for, and each pass makes its choices with a controller
      of its own, new from the configured margin. */
  ghost predicate SyncFramed(cfg: Config, t: Talk, said: string) {
    Pa.FramedTo(SetupOf(cfg), FirstUnits(cfg), t.fs, false, said, New(cfg.margin, 1))
    && (cfg.cutover && Pa.HeardAll(FirstUnits(cfg), false, said).Some? ==>
          Pa.FramedTo(SetupOf(cfg), SecondUnits(cfg), t.fs2, false, Pa.HeardAll(FirstUnits(cfg), false, said).value.1,
                      New(cfg.margin, 1)))
  }

  /** The `SYNC` command. Whatever the client says, the server has sent `SyncSent` of it, none of it is still
      queued, and the command is through exactly when the client has said enough. */
  method ServeSync(conn: Conn, cfg: Config, ignore: Ignore.IgnoreSet) returns (ok: bool, ghost t: Talk)
    requires ConfigOk(cfg) && ignore.fold == cfg.fold && ignore.patterns == Ignore.Parse(cfg.spec)
    modifies conn
    ensures conn.stalls == old(conn.stalls) && conn.wbuf == ""
    ensures conn.Out() == old(conn.Out()) + SyncSent(cfg, t, old(conn.Unread()))
    ensures SyncFramed(cfg, t, old(conn.Unread()))
    ensures ok <==> BeyondSync(cfg, old(conn.Unread())).Some?
    ensures ok ==> BeyondSync(cfg, old(conn.Unread())) == Some(conn.Unread())
  {
    hide FirstUnits, SecondUnits, Pa.HeardAll, Pa.Sent, Pa.FramedTo, Sound, Ignore.Parse, SyncSent;
    ghost var out, said := conn.Out(), conn.Unread();
    t := SILENT;
    ghost var fs;
    UnitsAre(cfg);
    ok, fs := OnePass(conn, cfg, ignore, cfg.first);
    t := t.(fs := fs);
    if !ok {
      FirstWaits(cfg, t, said, out);
      return;
    }
    ghost var middle, rest := conn.Out(), conn.Unread();
    conn.SendLine("PASS-END");
    if cfg.cutover {
      ghost var n := Idle(conn);
      conn.SendLine("GO");
      ok, fs := OnePass(conn, cfg, ignore, cfg.second);
      t := t.(pings := n, fs2 := fs);
      if ok {
        conn.SendLine("PASS-END");
        conn.SendLine("DONE");
      }
      SecondIs(cfg, t, rest, ok, middle, conn.Out());
    } else {
      conn.SendLine("DONE");
      Regroup3(middle, Ln("PASS-END"), Ln("DONE"));
    }
    FirstDone(cfg, t, said, out, middle, conn.Out());
  }

  lemma UnitsAre(cfg: Config)
    ensures FirstUnits(cfg) == UnitsOf(EventsOf(IgnOf(cfg.fold, Ignore.Parse(cfg.spec)), cfg.first), [])
    ensures SecondUnits(cfg) == UnitsOf(EventsOf(IgnOf(cfg.fold, Ignore.Parse(cfg.spec)), cfg.second), [])
  {
  }

  lemma FirstWaits(cfg: Config, t: Talk, said: string, out: string)
    requires Pa.HeardAll(FirstUnits(cfg), false, said).None?
    ensures out + (Ln("T 0") + Pa.Sent(cfg.codec, FirstUnits(cfg), t.fs, [], false, said, ""))
            == out + SyncSent(cfg, t, said)
  {
    hide FirstUnits, Pa.HeardAll, Pa.Sent;
    var a := Pa.Sent(cfg.codec, FirstUnits(cfg), t.fs, [], false, said, "");
    assert a + "" == a;
  }

  lemma FirstDone(cfg: Config, t: Talk, said: string, out: string, middle: string, end: string)
    requires Pa.HeardAll(FirstUnits(cfg), false, said).Some?
    requires middle == out + (Ln("T 0") + Pa.Sent(cfg.codec, FirstUnits(cfg), t.fs, [], false, said, ""))
    requires end == middle + (Ln("PASS-END") + BehindFirst(cfg, t, Pa.HeardAll(FirstUnits(cfg), false, said).value.1))
    ensures end == out + SyncSent(cfg, t, said)
  {
    hide FirstUnits, Pa.HeardAll, Pa.Sent, BehindFirst, Ln;
    var a := Pa.Sent(cfg.codec, FirstUnits(cfg), t.fs, [], false, said, "");
    var b := Ln("PASS-END") + BehindFirst(cfg, t, Pa.HeardAll(FirstUnits(cfg), false, said).value.1);
    Regroup3(out, Ln("T 0") + a, b);
    Regroup3(Ln("T 0"), a, b);
  }

  lemma SecondIs(cfg: Config, t: Talk, said: string, ok: bool, middle: string, end: string)
    requires cfg.cutover && (ok <==> Pa.HeardAll(SecondUnits(cfg), false, said).Some?)
    requires var before := middle + Ln("PASS-END") + Pings(t.pings) + Ln("GO")
                           + (Ln("T 0") + Pa.Sent(cfg.codec, SecondUnits(cfg), t.fs2, [], false, said, ""));
             end == if ok then before + Ln("PASS-END") + Ln("DONE") else before
    ensures end == middle + (Ln("PASS-END") + BehindFirst(cfg, t, said))
  {
    hide SecondUnits, Pa.HeardAll, Pa.Sent, Ln, Pings;
    var a := Pa.Sent(cfg.codec, SecondUnits(cfg), t.fs2, [], false, said, "");
    var b := if ok then Ln("PASS-END") + Ln("DONE") else "";
    var start := middle + Ln("PASS-END") + Pings(t.pings) + Ln("GO");
    assert a + "" == a;
    Regroup3(start + (Ln("T 0") + a), Ln("PASS-END"), Ln("DONE"));
    Regroup3(start, Ln("T 0") + a, b);
    Regroup3(Ln("T 0"), a, b);
    Regroup3(middle + Ln("PASS-END") + Pings(t.pings), Ln("GO"), SecondSent(cfg, t, said));
    Regroup3(middle + Ln("PASS-END"), Pings(t.pings), Ln("GO") + SecondSent(cfg, t, said));
    Regroup3(middle, Ln("PASS-END"), BehindFirst(cfg, t, said));
  }

  // ------------------------------------------------------------------ the command loop

  function NextTalk(ts: seq<Talk>): Talk { if ts == [] then SILENT else ts[0] }

  /** Everything a server sends behind the greeting, once the client has said `said` and no more: for each
      `SYNC` it makes its choices anew. */
  function CommandsSent(cfg: Config, ts: seq<Talk>, said: string): string
    decreases |said|
  {
    if said == "" || Line(said) == "BYE" then ""
    else if Line(said) == "SYNC" then
      SyncSent(cfg, NextTalk(ts), AfterLine(said))
      + match BeyondSync(cfg, AfterLine(said))
        case None => ""
        case Some(rest) => if |rest| < |said| then CommandsSent(cfg, Pa.Later(ts), rest) else ""
    else Ln("ERR cmd") + CommandsSent(cfg, ts, AfterLine(said))
  }

  /** Any other line than the two commands is answered by an error and nothing else. */
  lemma UnknownCommand(cfg: Config, ts: seq<Talk>, line: string, more: string)
    requires LineSafe(line) && line !in {"SYNC", "BYE"}
    ensures CommandsSent(cfg, ts, Ln(line) + more) == Ln("ERR cmd") + CommandsSent(cfg, ts, more)
    ensures SaysGoodbye(cfg, Ln(line) + more) == SaysGoodbye(cfg, more)
    ensures CommandsSent(cfg, ts, Ln("BYE") + more) == "" && SaysGoodbye(cfg, Ln("BYE") + more)
  {
    hide Line, AfterLine, SyncSent, BeyondSync;
    LineOf(line, more);
    LineOf("BYE", more);
  }

  ghost predicate CommandsFramed(cfg: Config, ts: seq<Talk>, said: string)
    decreases |said|
  {
    if said == "" || Line(said) == "BYE" then ts == []
    else if Line(said) == "SYNC" then
      ts != [] && SyncFramed(cfg, ts[0], AfterLine(said))
      && match BeyondSync(cfg, AfterLine(said))
         case None => ts == [ts[0]]
         case Some(rest) => |rest| < |said| && CommandsFramed(cfg, ts[1..], rest)
    else CommandsFramed(cfg, ts, AfterLine(said))
  }

  /** The choices made by now, and what the server still owes a client that has `said` left to be heard. */
  ghost predicate Owes(cfg: Config, ts: seq<Talk>, said0: string, out0: string, said: string, out: string) {
    forall more: seq<Talk> ::
      out + CommandsSent(cfg, more, said) == out0 + CommandsSent(cfg, ts + more, said0)
      && (CommandsFramed(cfg, more, said) ==> CommandsFramed(cfg, ts + more, said0))
  }

  lemma OwesAll(cfg: Config, said: string, out: string)
    ensures Owes(cfg, [], said, out, said, out)
  {
    hide CommandsSent, CommandsFramed;
    assert forall more: seq<Talk> :: [] + more == more;
  }

  lemma OtherHeard(cfg: Config, ts: seq<Talk>, said0: string, out0: string, said: string, out: string)
    requires Owes(cfg, ts, said0, out0, said, out) && said != "" && Line(said) !in {"SYNC", "BYE"}
    ensures Owes(cfg, ts, said0, out0, AfterLine(said), out + Ln("ERR cmd"))
  {
    hide Line, AfterLine, SyncSent, SyncFramed, BeyondSync, Ln;
    forall more: seq<Talk>
      ensures out + Ln("ERR cmd") + CommandsSent(cfg, more, AfterLine(said))
              == out0 + CommandsSent(cfg, ts + more, said0)
      ensures CommandsFramed(cfg, more, AfterLine(said)) ==> CommandsFramed(cfg, ts + more, said0)
    {
      Regroup3(out, Ln("ERR cmd"), CommandsSent(cfg, more, AfterLine(said)));
    }
  }

  lemma SyncHeard(cfg: Config, ts: seq<Talk>, t: Talk, said0: string, out0: string, said: string, out: string,
                  rest: string)
    requires Owes(cfg, ts, said0, out0, said, out) && said != "" && Line(said) == "SYNC"
    requires SyncFramed(cfg, t, AfterLine(said))
    requires BeyondSync(cfg, AfterLine(said)) == Some(rest) && |rest| < |said|
    ensures Owes(cfg, ts + [t], said0, out0, rest, out + SyncSent(cfg, t, AfterLine(said)))
  {
    hide Line, AfterLine, SyncSent, SyncFramed, BeyondSync;
    var sent := SyncSent(cfg, t, AfterLine(said));
    forall more: seq<Talk>
      ensures out + sent + CommandsSent(cfg, more, rest) == out0 + CommandsSent(cfg, ts + [t] + more, said0)
      ensures CommandsFramed(cfg, more, rest) ==> CommandsFramed(cfg, ts + [t] + more, said0)
    {
      Regroup3(ts, [t], more);
      Regroup3(out, sent, CommandsSent(cfg, more, rest));
      assert ([t] + more)[1..] == more && CommandsSent(cfg, [t] + more, said) == sent + CommandsSent(cfg, more, rest);
      assert CommandsFramed(cfg, [t] + more, said) <== CommandsFramed(cfg, more, rest);
    }
  }

  /** The command loop ends inside a `SYNC`. */
  lemma SyncWaits(cfg: Config, ts: seq<Talk>, t: Talk, said0: string, out0: string, said: string, out: string)
    requires Owes(cfg, ts, said0, out0, said, out) && said != "" && Line(said) == "SYNC"
    requires SyncFramed(cfg, t, AfterLine(said)) && BeyondSync(cfg, AfterLine(said)).None?
    ensures out + SyncSent(cfg, t, AfterLine(said)) == out0 + CommandsSent(cfg, ts + [t], said0)
    ensures CommandsFramed(cfg, ts + [t], said0)
  {
    hide Line, AfterLine, SyncSent, SyncFramed, BeyondSync;
    var sent := SyncSent(cfg, t, AfterLine(said));
    assert sent + "" == sent;
    assert CommandsSent(cfg, [t], said) == sent && CommandsFramed(cfg, [t], said);
  }

  lemma CommandsEnd(cfg: Config, ts: seq<Talk>, said0: string, out0: string, said: string, out: string)
    requires Owes(cfg, ts, said0, out0, said, out) && (said == "" || Line(said) == "BYE")
    ensures out == out0 + CommandsSent(cfg, ts, said0) && CommandsFramed(cfg, ts, said0)
  {
    hide Line;
    assert ts + [] == ts && out + "" == out;
    assert CommandsSent(cfg, [], said) == "" && CommandsFramed(cfg, [], said);
  }

  /** Everything a server sends on a single-stream connection. */
  function SessionSent(cfg: Config, token: string, ts: seq<Talk>, said: string): string {
    if !Authed(token, said) then Ln("ERR auth")
    else Ln("OK") + Ln(CfgLine(1, cfg.spec)) + CommandsSent(cfg, ts, AfterLine(said))
  }

  /** The connection behind the handshake. Whatever the client says, the server has sent `SessionSent` of it,
      with framings that fit; the session is completed exactly when the client gets through its commands to
      `BYE`; the server never waits for the client with output still queued. */
  method HandleSession(conn: Conn, cfg: Config, token: string) returns (completed: bool, ghost ts: seq<Talk>)
    requires ConfigOk(cfg) && conn.wbuf == ""
    modifies conn
    ensures conn.stalls == old(conn.stalls) && conn.wbuf == ""
    ensures completed <==> Authed(token, old(conn.Unread())) && SaysGoodbye(cfg, AfterLine(old(conn.Unread())))
    ensures conn.Out() == old(conn.Out()) + SessionSent(cfg, token, ts, old(conn.Unread()))
    ensures Authed(token, old(conn.Unread())) ==> CommandsFramed(cfg, ts, AfterLine(old(conn.Unread())))
  {
    hide Line, AfterLine, BeyondSync, Sound, Ignore.Parse, CommandsSent, CommandsFramed, Owes, SyncSent, SyncFramed, Ln,
        CfgLine;
    ts := [];
    ghost var start := conn.Out();
    var ok := Greet(conn, token, 1, cfg.spec);
    if !ok { return false, ts; }
    var patterns := Ignore.ParseSpec(cfg.spec);
    var ignore := new Ignore.IgnoreSet(cfg.fold, patterns);
    ghost var said0, out0 := conn.Unread(), conn.Out();
    ghost var goal := SaysGoodbye(cfg, said0);
    OwesAll(cfg, said0, out0);
    completed := false;
    while true
      invariant conn.wbuf == "" && conn.stalls == old(conn.stalls) && !completed
      invariant goal == SaysGoodbye(cfg, conn.Unread())
      invariant Owes(cfg, ts, said0, out0, conn.Unread(), conn.Out())
      decreases |conn.Unread()|
    {
      ghost var said, out := conn.Unread(), conn.Out();
      var cmd := conn.ReadLine();
      if cmd == None {
        CommandsEnd(cfg, ts, said0, out0, said, out);
        break;
      }
      if cmd.value == "SYNC" {
        BeyondShrinks(cfg, conn.Unread());
        ghost var t;
        ok, t := ServeSync(conn, cfg, ignore);
        if !ok {
          SyncWaits(cfg, ts, t, said0, out0, said, out);
          ts := ts + [t];
          break;
        }
        SyncHeard(cfg, ts, t, said0, out0, said, out, conn.Unread());
        ts := ts + [t];
      } else if cmd.value == "BYE" {
        CommandsEnd(cfg, ts, said0, out0, said, out);
        completed := true;
        break;
      } else {
        conn.SendLine("ERR cmd");
        OtherHeard(cfg, ts, said0, out0, said, out);
      }
    }
    Regroup3(start, Ln("OK") + Ln(CfgLine(1, cfg.spec)), CommandsSent(cfg, ts, said0));
  }

  lemma BeyondShrinks(cfg: Config, said: string)
    ensures BeyondSync(cfg, said).Some? ==> |BeyondSync(cfg, said).value| <= |said|
  {
    hide Pa.HeardAll, FirstUnits, SecondUnits;
    HeardShrinks(FirstUnits(cfg), false, said);
    if Pa.HeardAll(FirstUnits(cfg), false, said).Some? {
      HeardShrinks(SecondUnits(cfg), false, Pa.HeardAll(FirstUnits(cfg), false, said).value.1);
    }
  }

  // ------------------------------------------------------------------ both ends

  /** The client's state when the first and when the second pass begins. */
  function AtFirst(st: St): St { Say(st, "SYNC").(seen := {}) }

  function AtSecond(cfg: Config, site: Site, st: St): St {
    ApplyAll(site, AtFirst(st), FirstUnits(cfg), false).(seen := {})
  }

  /** What the client says behind `SYNC`. */
  function ClientText(cfg: Config, site: Site, st: St): string {
    Replies(site, AtFirst(st), FirstUnits(cfg), false)
    + ((if cfg.cutover then Replies(site, AtSecond(cfg, site, st), SecondUnits(cfg), false) else "") + Ln("BYE"))
  }

  /** The conversation closes, plain or cutover: a server that hears `SYNC`, the client's replies and `BYE`
      completes the session and sends exactly the session bytes, and the client that receives them ends
      cleanly and has said just that. */
  lemma ConversationCloses(cfg: Config, site: Site, st: St, t: Talk)
    requires Lawful(site.codec) && cfg.codec == site.codec
    requires PassOk(site.codec, FirstUnits(cfg), t.fs)
    requires cfg.cutover ==> PassOk(site.codec, SecondUnits(cfg), t.fs2)
    ensures var said := Ln("SYNC") + ClientText(cfg, site, st);
            var bytes := CommandsSent(cfg, [t], said);
            SaysGoodbye(cfg, said)
            && bytes == (if cfg.cutover
                         then CutoverBytes(site, st, FirstUnits(cfg), t.fs, t.pings, SecondUnits(cfg), t.fs2)
                         else SessionBytes(site, st, FirstUnits(cfg), t.fs))
            && Sync(site, st, bytes).Clean? && Sync(site, st, bytes).st.out + Ln("BYE") == st.out + said
  {
    hide FirstUnits, SecondUnits, ApplyAll, Pa.Sent, PassBytes, Sync, Pa.HeardAll, PassOk, Pings, CommandsSent;
    var st1, st2 := AtFirst(st), AtSecond(cfg, site, st);
    var us, us2 := FirstUnits(cfg), SecondUnits(cfg);
    var behind := (if cfg.cutover then Replies(site, st2, us2, false) else "") + Ln("BYE");
    HearsTheReplies(site, st1, us, behind, false);
    HearsTheReplies(site, st2, us2, Ln("BYE"), false);
    ServesThePass(site, st1, us, t.fs, false, behind, "");
    assert "" + Ln("BYE") == Ln("BYE");
    assert BeyondSync(cfg, ClientText(cfg, site, st)) == Some(Ln("BYE"));
    Goodbye(cfg, t, ClientText(cfg, site, st));
    NothingMore(PassBytes(site, st1, us, t.fs, false), "");
    if cfg.cutover {
      ServesThePass(site, st2, us2, t.fs2, false, Ln("BYE"), "");
      NothingMore(PassBytes(site, st2, us2, t.fs2, false), "");
      CutoverRoundTrip(site, st, us, t.fs, t.pings, us2, t.fs2);
    } else {
      SessionRoundTrip(site, st, us, t.fs);
    }
    ClientSays(cfg, site, st);
  }

  lemma NothingMore(a: string, b: string)
    ensures a + "" == a && b + "" == b
  {
  }

  /** What the client has said when the last pass is over. */
  lemma ClientSays(cfg: Config, site: Site, st: St)
    ensures var end := if cfg.cutover then ApplyAll(site, AtSecond(cfg, site, st), SecondUnits(cfg), false)
                       else ApplyAll(site, AtFirst(st), FirstUnits(cfg), false);
            end.out + Ln("BYE") == st.out + (Ln("SYNC") + ClientText(cfg, site, st))
  {
    hide FirstUnits, SecondUnits, ApplyAll, Replies, Ln;
    var one := Replies(site, AtFirst(st), FirstUnits(cfg), false);
    var two := if cfg.cutover then Replies(site, AtSecond(cfg, site, st), SecondUnits(cfg), false) else "";
    SaysItsReplies(site, AtFirst(st), FirstUnits(cfg), false);
    SaysItsReplies(site, AtSecond(cfg, site, st), SecondUnits(cfg), false);
    assert st.out + Ln("SYNC") + one + "" == st.out + Ln("SYNC") + one;
    Regroup3(st.out + Ln("SYNC") + one, two, Ln("BYE"));
    Regroup3(st.out + Ln("SYNC"), one, two + Ln("BYE"));
    Regroup3(st.out, Ln("SYNC"), one + (two + Ln("BYE")));
  }

  lemma Goodbye(cfg: Config, t: Talk, said: string)
    requires BeyondSync(cfg, said) == Some(Ln("BYE"))
    ensures SaysGoodbye(cfg, Ln("SYNC") + said) && CommandsSent(cfg, [t], Ln("SYNC") + said) == SyncSent(cfg, t, said)
  {
    hide BeyondSync, Line, AfterLine, SyncSent;
    BeyondShrinks(cfg, said);
    LineOf("SYNC", said);
    LineOf("BYE", "");
    assert Ln("BYE") + "" == Ln("BYE");
    assert SaysGoodbye(cfg, Ln("BYE")) && CommandsSent(cfg, [], Ln("BYE")) == "";
    assert |Ln("SYNC") + said| > |Ln("BYE")|;
    assert SyncSent(cfg, t, said) + "" == SyncSent(cfg, t, said);
  }
}
