/** The client and the server of each mode as two ends of a pair of channels, from the greeting to the
    goodbye: neither ever waits for the other in vain. */
module Ends {
  import opened Text
  import opened Wire
  import opened Frames
  import opened Receiver
  import opened Transcript
  import opened Sender
  import opened Pass
  import opened Dialogue
  import opened Serving
  import opened Session
  import opened Net
  import opened Growth
  import opened Progress
  import Client

  // ------------------------------------------------------------------ the ends behind the greeting

  /** What a client says to a single-stream server that has sent it these lines: `SYNC`, its replies, and
      `BYE` after `DONE`. */
  function SyncSpoken(site: Site, st: St, s: string): string {
    var run := Sync(site, st, s);
    run.st.out + if run.Clean? then Ln("BYE") else ""
  }

  function SyncClient(site: Site, st: St): End { got => SyncSpoken(site, st, Lines(got)) }

  function SyncServer(cfg: Config, t: Talk): End { heard => CommandsSent(cfg, [t], Lines(heard)) }

  /** What a worker says on its stream: `QSYNC` or `QSYNC STREAM`, its replies, and `BYE` after `NOUNIT`. */
  function StreamSpoken(site: Site, st: St, s: string, stream: bool): string {
    var (end, finished, _) := Units(site, Say(st, Client.Greeting(stream)), s, stream, 0);
    end.out + if finished then Ln("BYE") else ""
  }

  function StreamClient(site: Site, st: St, stream: bool): End { got => StreamSpoken(site, st, Lines(got), stream) }

  function StreamAnswer(c: Codec, us: seq<Unit>, fs: seq<Framing>, ps: seq<nat>, said: string): string {
    if said == "" then "" else HandlerSent(c, us, fs, ps, said)
  }

  function StreamServer(c: Codec, us: seq<Unit>, fs: seq<Framing>, ps: seq<nat>): End {
    heard => StreamAnswer(c, us, fs, ps, Lines(heard))
  }

  lemma Behind(a: string, b: string)
    requires a <= b
    ensures b == a + b[|a|..]
  {
  }

  lemma SpokenGrows(a: string, b: string, done: bool, doneToo: bool)
    requires a <= b && (done ==> a == b && doneToo)
    ensures a + (if done then Ln("BYE") else "") <= b + if doneToo then Ln("BYE") else ""
  {
  }

  lemma SyncSpokenGrows(site: Site, st: St, a: string, more: string)
    requires Complete(a)
    ensures SyncSpoken(site, st, a) <= SyncSpoken(site, st, a + more)
  {
    hide Items, Ln, Say;
    ItemsStay(site, Say(st, "SYNC").(seen := {}), a, more);
    var x, y := Sync(site, st, a), Sync(site, st, a + more);
    SpokenGrows(x.st.out, y.st.out, x.Clean?, y.Clean?);
  }

  lemma SyncClientGrows(site: Site, st: St)
    ensures Grows(SyncClient(site, st))
  {
    hide SyncSpoken, Lines;
    forall a: string, b: string | Complete(a) && Complete(b) && a <= b
      ensures SyncClient(site, st)(a) <= SyncClient(site, st)(b)
    {
      Behind(a, b);
      SyncSpokenGrows(site, st, a, b[|a|..]);
    }
  }

  lemma SyncServerGrows(cfg: Config, t: Talk)
    ensures Grows(SyncServer(cfg, t))
  {
    hide CommandsSent, Lines;
    forall a: string, b: string | Complete(a) && Complete(b) && a <= b
      ensures SyncServer(cfg, t)(a) <= SyncServer(cfg, t)(b)
    {
      Behind(a, b);
      CommandsGrow(cfg, [t], a, b[|a|..]);
    }
  }

  lemma StreamSpokenGrows(site: Site, st: St, a: string, stream: bool, more: string)
    requires Complete(a)
    ensures StreamSpoken(site, st, a, stream) <= StreamSpoken(site, st, a + more, stream)
  {
    hide Units, Ln, Say, Client.Greeting;
    var st1 := Say(st, Client.Greeting(stream));
    UnitsStay(site, st1, a, stream, 0, more);
    var x, y := Units(site, st1, a, stream, 0), Units(site, st1, a + more, stream, 0);
    SpokenGrows(x.0.out, y.0.out, x.1, y.1);
  }

  lemma StreamClientGrows(site: Site, st: St, stream: bool)
    ensures Grows(StreamClient(site, st, stream))
  {
    hide StreamSpoken, Lines;
    forall a: string, b: string | Complete(a) && Complete(b) && a <= b
      ensures StreamClient(site, st, stream)(a) <= StreamClient(site, st, stream)(b)
    {
      Behind(a, b);
      StreamSpokenGrows(site, st, a, stream, b[|a|..]);
    }
  }

  lemma StreamAnswerGrows(c: Codec, us: seq<Unit>, fs: seq<Framing>, ps: seq<nat>, a: string, more: string)
    requires Complete(a)
    ensures StreamAnswer(c, us, fs, ps, a) <= StreamAnswer(c, us, fs, ps, a + more)
  {
    hide Sent, Line, AfterLine;
    if a != "" {
      LineStays(a, more);
      SentGrows(c, us, fs, ps, Line(a) == "QSYNC STREAM", AfterLine(a), more, Ln("NOUNIT"));
    }
  }

  lemma StreamServerGrows(c: Codec, us: seq<Unit>, fs: seq<Framing>, ps: seq<nat>)
    ensures Grows(StreamServer(c, us, fs, ps))
  {
    hide StreamAnswer, Lines;
    forall a: string, b: string | Complete(a) && Complete(b) && a <= b
      ensures StreamServer(c, us, fs, ps)(a) <= StreamServer(c, us, fs, ps)(b)
    {
      Behind(a, b);
      StreamAnswerGrows(c, us, fs, ps, a, b[|a|..]);
    }
  }

  // ------------------------------------------------------------------ one parallel stream

  lemma AskIs(stream: bool, more: string)
    ensures var s := Ln(Client.Greeting(stream)) + more;
            s != "" && Asks(s) && (Line(s) == "QSYNC STREAM" <==> stream) && AfterLine(s) == more
    ensures Complete(Ln(Client.Greeting(stream)))
  {
    LineOf(Client.Greeting(stream), more);
  }

  function StreamSaid(site: Site, st: St, us: seq<Unit>, stream: bool): string {
    Ln(Client.Greeting(stream)) + Replies(site, Say(st, Client.Greeting(stream)), us, stream)
  }

  /** All the handler sends on a stream. */
  function StreamText(site: Site, st: St, us: seq<Unit>, fs: seq<Framing>, ps: seq<nat>, stream: bool): string {
    Sent(site.codec, us, fs, ps, stream, Replies(site, Say(st, Client.Greeting(stream)), us, stream), Ln("NOUNIT"))
  }

  lemma StreamSaidComplete(site: Site, st: St, us: seq<Unit>, stream: bool)
    ensures Complete(StreamSaid(site, st, us, stream))
  {
    hide Replies, Complete, Client.Greeting;
    AskIs(stream, "");
    RepliesComplete(site, Say(st, Client.Greeting(stream)), us, stream);
    CompleteEnd(Ln(Client.Greeting(stream)), Replies(site, Say(st, Client.Greeting(stream)), us, stream));
  }

  lemma SaysFirst(st: St, l: string)
    requires st.out == ""
    ensures Say(st, l).out == Ln(l)
  {
    assert "" + Ln(l) == Ln(l);
  }

  /** One exchange on a stream. */
  lemma StreamExchange(site: Site, st: St, us: seq<Unit>, fs: seq<Framing>, ps: seq<nat>, stream: bool, k: nat)
    requires Lawful(site.codec) && PassOk(site.codec, us, fs) && st.out == "" && k < |us| && Waits(us[k], stream)
    ensures var sent := StreamAnswer(site.codec, us, fs, ps, StreamSaid(site, st, us[..k], stream));
            Complete(sent) && StreamSaid(site, st, us[..k + 1], stream) <= StreamSpoken(site, st, sent, stream)
  {
    hide Units, Sent, Replies, HeardAll, Complete, Waits, PassOk, Client.Greeting, Line, AfterLine, Ln, Say, Lawful;
    var st1 := Say(st, Client.Greeting(stream));
    var said := Replies(site, st1, us[..k], stream);
    SaysFirst(st, Client.Greeting(stream));
    AskIs(stream, said);
    WaitsThere(site, st1, us, k, stream);
    SentComplete(site.codec, us, fs, ps, stream, said, Ln("NOUNIT"));
    StreamAnswers(site, st1, us, fs, ps, k, stream, 0, Ln("NOUNIT"));
  }

  lemma StreamStep(site: Site, st: St, us: seq<Unit>, fs: seq<Framing>, ps: seq<nat>, stream: bool, a: string,
                   b: string, k: nat)
    requires Lawful(site.codec) && PassOk(site.codec, us, fs) && st.out == "" && k < |us|
    requires AtRest(StreamClient(site, st, stream), StreamServer(site.codec, us, fs, ps), a, b)
    requires StreamSaid(site, st, us[..k], stream) <= a
    ensures StreamSaid(site, st, us[..k + 1], stream) <= a
  {
    hide StreamSaid, StreamSpoken, StreamAnswer, AtRest, Waits, PassOk, Grows, Complete, Lawful;
    if Waits(us[k], stream) {
      StreamClientGrows(site, st, stream);
      StreamServerGrows(site.codec, us, fs, ps);
      StreamExchange(site, st, us, fs, ps, stream, k);
      StreamSaidComplete(site, st, us[..k], stream);
      Exchange(StreamClient(site, st, stream), StreamServer(site.codec, us, fs, ps), a, b,
               StreamSaid(site, st, us[..k], stream), StreamSaid(site, st, us[..k + 1], stream));
    } else {
      StreamPauses(site, st, us, k, stream);
    }
  }

  lemma {:induction false} StreamClimbs(site: Site, st: St, us: seq<Unit>, fs: seq<Framing>, ps: seq<nat>,
                                        stream: bool, a: string, b: string, k: nat)
    requires Lawful(site.codec) && PassOk(site.codec, us, fs) && st.out == "" && k <= |us|
    requires AtRest(StreamClient(site, st, stream), StreamServer(site.codec, us, fs, ps), a, b)
    ensures StreamSaid(site, st, us[..k], stream) <= a
    decreases k
  {
    hide *;
    if k == 0 {
      StreamOpens(site, st, us, fs, ps, stream, a, b);
    } else {
      StreamClimbs(site, st, us, fs, ps, stream, a, b, k - 1);
      StreamStep(site, st, us, fs, ps, stream, a, b, k - 1);
    }
  }

  lemma NothingComplete()
    ensures Complete("")
  {
  }

  lemma StreamPauses(site: Site, st: St, us: seq<Unit>, k: nat, stream: bool)
    requires k < |us| && !Waits(us[k], stream)
    ensures StreamSaid(site, st, us[..k + 1], stream) == StreamSaid(site, st, us[..k], stream)
  {
    hide Replies, Waits;
    NoReply(site, Say(st, Client.Greeting(stream)), us, k, stream);
  }

  lemma StreamOpens(site: Site, st: St, us: seq<Unit>, fs: seq<Framing>, ps: seq<nat>, stream: bool, a: string,
                    b: string)
    requires AtRest(StreamClient(site, st, stream), StreamServer(site.codec, us, fs, ps), a, b) && st.out == ""
    ensures StreamSaid(site, st, us[..0], stream) <= a
  {
    hide Units, Client.Greeting, Say, Lines;
    var st1 := Say(st, Client.Greeting(stream));
    UnitsGrow(site, st1, Lines(b), stream, 0);
    SaysFirst(st, Client.Greeting(stream));
    assert us[..0] == [] && Ln(Client.Greeting(stream)) + "" == Ln(Client.Greeting(stream));
  }

  /** The last exchange: all replies, then `NOUNIT` and the goodbye. */
  lemma StreamCloses(site: Site, st: St, us: seq<Unit>, fs: seq<Framing>, ps: seq<nat>, stream: bool, more: string)
    requires Lawful(site.codec) && PassOk(site.codec, us, fs) && st.out == "" && Complete(more)
    ensures var text := StreamText(site, st, us, fs, ps, stream);
            StreamAnswer(site.codec, us, fs, ps, StreamSaid(site, st, us, stream) + more) == text && Complete(text)
            && StreamSpoken(site, st, text, stream) == StreamSaid(site, st, us, stream) + Ln("BYE")
  {
    hide Units, Sent, Replies, HeardAll, Complete, PassOk, Client.Greeting, Line, AfterLine, ApplyAll, Pings, Ln, Say;
    var st1 := Say(st, Client.Greeting(stream));
    var said := Replies(site, st1, us, stream);
    SaysFirst(st, Client.Greeting(stream));
    AskIs(stream, said + more);
    Regroup3(Ln(Client.Greeting(stream)), said, more);
    HearsTheReplies(site, st1, us, "", stream);
    assert said + "" == said;
    RepliesComplete(site, st1, us, stream);
    SentGrows(site.codec, us, fs, ps, stream, said, more, Ln("NOUNIT"));
    var text := StreamText(site, st, us, fs, ps, stream);
    TextComplete(site.codec, us, fs, ps, stream, said);
    StreamDelivers(site, st1, us, fs, ps, "", "", stream, 0);
    assert text + "" == text;
    SaysItsReplies(site, st1, us, stream);
  }

  lemma {:induction false} TextComplete(c: Codec, us: seq<Unit>, fs: seq<Framing>, ps: seq<nat>, stream: bool,
                                        said: string)
    requires HeardAll(us, stream, said).Some?
    ensures var text := Sent(c, us, fs, ps, stream, said, Ln("NOUNIT")); Complete(text) && text != ""
    decreases |us|
  {
    hide HeardBy, RestAfter, UnitSent, Offer, Pings, Complete;
    if us == [] {
      LnComplete("NOUNIT");
      CompleteEnd(Pings(Gap(ps)), Ln("NOUNIT"));
    } else {
      var said1 := RestAfter(us[0], stream, said);
      var head := if fs == [] then Offer(us[0]) else UnitSent(c, us[0], fs[0], HeardBy(us[0], stream, said).value);
      var tail := Sent(c, us[1..], Later(fs), Later(ps), stream, said1, Ln("NOUNIT"));
      TextComplete(c, us[1..], Later(fs), Later(ps), stream, said1);
      CompleteEnd(head, tail);
      CompleteEnd(Pings(Gap(ps)), head + tail);
    }
  }

  /** A worker and its handler suit each other, whatever units the handler takes and wherever keepalives
      fall, in both modes. */
  lemma StreamSuits(site: Site, st: St, us: seq<Unit>, fs: seq<Framing>, ps: seq<nat>, stream: bool)
    requires Lawful(site.codec) && PassOk(site.codec, us, fs) && st.out == ""
    ensures Suits(StreamClient(site, st, stream), StreamServer(site.codec, us, fs, ps),
                  StreamSaid(site, st, us, stream) + Ln("BYE"), StreamText(site, st, us, fs, ps, stream))
  {
    hide StreamSaid, StreamSpoken, StreamAnswer, StreamText, AtRest, PassOk, Grows, Complete, Ln, Lawful;
    var cli, srv := StreamClient(site, st, stream), StreamServer(site.codec, us, fs, ps);
    var said := StreamSaid(site, st, us, stream);
    StreamClientGrows(site, st, stream);
    StreamServerGrows(site.codec, us, fs, ps);
    LnComplete("BYE");
    NothingComplete();
    StreamCloses(site, st, us, fs, ps, stream, Ln("BYE"));
    StreamCloses(site, st, us, fs, ps, stream, "");
    assert said + "" == said;
    StreamSaidComplete(site, st, us, stream);
    CompleteEnd(said, Ln("BYE"));
    forall a: string, b: string | AtRest(cli, srv, a, b) ensures said + Ln("BYE") <= a {
      StreamClimbs(site, st, us, fs, ps, stream, a, b, |us|);
      assert us[..|us|] == us;
      Exchange(cli, srv, a, b, said, said + Ln("BYE"));
    }
  }

  // ------------------------------------------------------------------ a single-stream session

  /** What the client has said when it has answered k units of the first pass ... */
  function FirstSaid(cfg: Config, site: Site, st: St, k: nat): string
    requires k <= |FirstUnits(cfg)|
  {
    Ln("SYNC") + Replies(site, AtFirst(st), FirstUnits(cfg)[..k], false)
  }

  /** ... and k units of the second. */
  function SecondSaid(cfg: Config, site: Site, st: St, k: nat): string
    requires k <= |SecondUnits(cfg)|
  {
    Ln("SYNC") + (Replies(site, AtFirst(st), FirstUnits(cfg), false)
                  + Replies(site, AtSecond(cfg, site, st), SecondUnits(cfg)[..k], false))
  }

  ghost predicate SyncOk(cfg: Config, site: Site, st: St, t: Talk) {
    Lawful(site.codec) && cfg.codec == site.codec && st.out == ""
    && PassOk(site.codec, FirstUnits(cfg), t.fs) && (cfg.cutover ==> PassOk(site.codec, SecondUnits(cfg), t.fs2))
  }

  lemma SyncIsAsked(cfg: Config, t: Talk, said: string)
    ensures var s := Ln("SYNC") + said;
            CommandsSent(cfg, [t], s) == SyncSent(cfg, t, said)
              + match BeyondSync(cfg, said) case None => "" case Some(rest) => CommandsSent(cfg, [], rest)
    ensures Complete(Ln("SYNC"))
  {
    hide SyncSent, BeyondSync, Line, AfterLine;
    BeyondShrinks(cfg, said);
    LineOf("SYNC", said);
    assert Later([t]) == [] && NextTalk([t]) == t;
  }

  lemma FirstSaidComplete(cfg: Config, site: Site, st: St, k: nat)
    requires k <= |FirstUnits(cfg)|
    ensures Complete(FirstSaid(cfg, site, st, k))
  {
    hide FirstUnits, Replies, Complete, AtFirst;
    LnComplete("SYNC");
    RepliesComplete(site, AtFirst(st), FirstUnits(cfg)[..k], false);
    CompleteEnd(Ln("SYNC"), Replies(site, AtFirst(st), FirstUnits(cfg)[..k], false));
  }

  lemma SecondSaidComplete(cfg: Config, site: Site, st: St, k: nat)
    requires k <= |SecondUnits(cfg)|
    ensures Complete(SecondSaid(cfg, site, st, k))
  {
    hide FirstUnits, SecondUnits, Replies, Complete, AtFirst, AtSecond;
    var a := Replies(site, AtFirst(st), FirstUnits(cfg), false);
    var b := Replies(site, AtSecond(cfg, site, st), SecondUnits(cfg)[..k], false);
    LnComplete("SYNC");
    RepliesComplete(site, AtFirst(st), FirstUnits(cfg), false);
    RepliesComplete(site, AtSecond(cfg, site, st), SecondUnits(cfg)[..k], false);
    CompleteEnd(a, b);
    CompleteEnd(Ln("SYNC"), a + b);
  }

  /** One exchange in the first pass. */
  lemma FirstExchange(cfg: Config, site: Site, st: St, t: Talk, k: nat)
    requires SyncOk(cfg, site, st, t) && k < |FirstUnits(cfg)| && Waits(FirstUnits(cfg)[k], false)
    ensures var sent := CommandsSent(cfg, [t], FirstSaid(cfg, site, st, k));
            Complete(sent) && FirstSaid(cfg, site, st, k + 1) <= SyncSpoken(site, st, sent)
  {
    hide FirstUnits, SecondUnits, Items, Sent, Replies, HeardAll, Complete, Waits, PassOk, Lawful, CommandsSent, Say;
    var us, st1 := FirstUnits(cfg), AtFirst(st);
    var said := Replies(site, st1, us[..k], false);
    var sent := Sent(cfg.codec, us, t.fs, [], false, said, "");
    WaitsThere(site, st1, us, k, false);
    SyncIsAsked(cfg, t, said);
    SentComplete(cfg.codec, us, t.fs, [], false, said, "");
    CompleteEnd(Ln("T 0"), sent);
    NothingMore(sent, Ln("T 0") + sent);
    assert CommandsSent(cfg, [t], FirstSaid(cfg, site, st, k)) == Ln("T 0") + sent;
    PassAnswers(site, st1, us, t.fs, k);
    ItemsLine(site, st1, "T 0", sent);
    SaysFirst(st, "SYNC");
  }

  /** The client behind the first pass of a cutover. */
  lemma IntoSecond(cfg: Config, site: Site, st: St, t: Talk, rest: string)
    requires SyncOk(cfg, site, st, t)
    ensures Items(site, AtFirst(st),
                  Ln("T 0") + (PassBytes(site, AtFirst(st), FirstUnits(cfg), t.fs, false)
                               + (Ln("PASS-END") + (Pings(t.pings) + (Ln("GO") + (Ln("T 0") + rest))))))
            == Items(site, AtSecond(cfg, site, st), rest)
  {
    hide FirstUnits, SecondUnits, Items, Between, PassBytes, ApplyAll, PassOk, Pings, Ln, AtFirst;
    var st2 := ApplyAll(site, AtFirst(st), FirstUnits(cfg), false);
    PassEnds(site, AtFirst(st), FirstUnits(cfg), t.fs, Pings(t.pings) + (Ln("GO") + (Ln("T 0") + rest)));
    PingsSkipped(site, st2, t.pings, Ln("GO") + (Ln("T 0") + rest));
    BetweenLine(site, st2, "GO", Ln("T 0") + rest);
    ItemsLine(site, AtSecond(cfg, site, st), "T 0", rest);
  }

  /** What the server has sent while it waits in the second pass. */
  lemma SecondText(cfg: Config, site: Site, st: St, t: Talk, k: nat)
    requires SyncOk(cfg, site, st, t) && cfg.cutover && k < |SecondUnits(cfg)| && Waits(SecondUnits(cfg)[k], false)
    ensures var said := Replies(site, AtSecond(cfg, site, st), SecondUnits(cfg)[..k], false);
            var sent := Sent(cfg.codec, SecondUnits(cfg), t.fs2, [], false, said, "");
            CommandsSent(cfg, [t], SecondSaid(cfg, site, st, k))
            == Ln("T 0") + (PassBytes(site, AtFirst(st), FirstUnits(cfg), t.fs, false)
                            + (Ln("PASS-END") + (Pings(t.pings) + (Ln("GO") + (Ln("T 0") + sent)))))
            && Complete(sent) && sent != ""
  {
    hide FirstUnits, SecondUnits, Sent, Replies, HeardAll, Complete, Waits, PassOk, Lawful, CommandsSent, PassBytes,
        Pings, Ln, AtFirst, AtSecond;
    var us, us2, st1, st2 := FirstUnits(cfg), SecondUnits(cfg), AtFirst(st), AtSecond(cfg, site, st);
    var said := Replies(site, st2, us2[..k], false);
    var sent := Sent(cfg.codec, us2, t.fs2, [], false, said, "");
    HearsTheReplies(site, st1, us, said, false);
    WaitsThere(site, st2, us2, k, false);
    SyncIsAsked(cfg, t, Replies(site, st1, us, false) + said);
    ServesThePass(site, st1, us, t.fs, false, said, "");
    SentComplete(cfg.codec, us2, t.fs2, [], false, said, "");
    NothingMore(sent, PassBytes(site, st1, us, t.fs, false));
    NothingMore(SyncSent(cfg, t, Replies(site, st1, us, false) + said), sent);
  }

  /** One exchange in the second pass. */
  lemma SecondExchange(cfg: Config, site: Site, st: St, t: Talk, k: nat)
    requires SyncOk(cfg, site, st, t) && cfg.cutover && k < |SecondUnits(cfg)| && Waits(SecondUnits(cfg)[k], false)
    ensures var sent := CommandsSent(cfg, [t], SecondSaid(cfg, site, st, k));
            Complete(sent) && SecondSaid(cfg, site, st, k + 1) <= SyncSpoken(site, st, sent)
  {
    hide FirstUnits, SecondUnits, Items, Sent, Replies, Complete, Waits, PassOk, Lawful, CommandsSent, Say, ApplyAll,
        PassBytes, Pings;
    var us, us2, st1, st2 := FirstUnits(cfg), SecondUnits(cfg), AtFirst(st), AtSecond(cfg, site, st);
    var said := Replies(site, st2, us2[..k], false);
    var sent := Sent(cfg.codec, us2, t.fs2, [], false, said, "");
    SecondText(cfg, site, st, t, k);
    EndsComplete(Ln("T 0"), PassBytes(site, st1, us, t.fs, false), Ln("PASS-END"), Pings(t.pings), Ln("GO"), sent);
    IntoSecond(cfg, site, st, t, sent);
    PassAnswers(site, st2, us2, t.fs2, k);
    SaysItsReplies(site, st1, us, false);
    SaysFirst(st, "SYNC");
    Regroup3(Ln("SYNC"), Replies(site, st1, us, false), Replies(site, st2, us2[..k + 1], false));
  }

  lemma EndsComplete(a: string, b: string, c: string, d: string, e: string, end: string)
    requires Complete(end) && end != ""
    ensures Complete(a + (b + (c + (d + (e + (a + end))))))
  {
    hide Complete;
    CompleteEnd(a, end);
    CompleteEnd(e, a + end);
    CompleteEnd(d, e + (a + end));
    CompleteEnd(c, d + (e + (a + end)));
    CompleteEnd(b, c + (d + (e + (a + end))));
    CompleteEnd(a, b + (c + (d + (e + (a + end)))));
  }

  lemma FirstStep(cfg: Config, site: Site, st: St, t: Talk, a: string, b: string, k: nat)
    requires SyncOk(cfg, site, st, t) && k < |FirstUnits(cfg)|
    requires AtRest(SyncClient(site, st), SyncServer(cfg, t), a, b) && FirstSaid(cfg, site, st, k) <= a
    ensures FirstSaid(cfg, site, st, k + 1) <= a
  {
    hide FirstSaid, SyncSpoken, CommandsSent, AtRest, Waits, SyncOk, Grows, Complete, FirstUnits;
    if Waits(FirstUnits(cfg)[k], false) {
      SyncClientGrows(site, st);
      SyncServerGrows(cfg, t);
      FirstExchange(cfg, site, st, t, k);
      FirstSaidComplete(cfg, site, st, k);
      Exchange(SyncClient(site, st), SyncServer(cfg, t), a, b, FirstSaid(cfg, site, st, k),
               FirstSaid(cfg, site, st, k + 1));
    } else {
      FirstPauses(cfg, site, st, k);
    }
  }

  lemma {:induction false} FirstClimbs(cfg: Config, site: Site, st: St, t: Talk, a: string, b: string, k: nat)
    requires SyncOk(cfg, site, st, t) && k <= |FirstUnits(cfg)|
    requires AtRest(SyncClient(site, st), SyncServer(cfg, t), a, b)
    ensures FirstSaid(cfg, site, st, k) <= a
    decreases k
  {
    hide *;
    if k == 0 {
      SyncOpens(cfg, site, st, t, a, b);
    } else {
      FirstClimbs(cfg, site, st, t, a, b, k - 1);
      FirstStep(cfg, site, st, t, a, b, k - 1);
    }
  }

  lemma FirstPauses(cfg: Config, site: Site, st: St, k: nat)
    requires k < |FirstUnits(cfg)| && !Waits(FirstUnits(cfg)[k], false)
    ensures FirstSaid(cfg, site, st, k + 1) == FirstSaid(cfg, site, st, k)
  {
    hide Replies, Waits, FirstUnits, AtFirst;
    NoReply(site, AtFirst(st), FirstUnits(cfg), k, false);
  }

  lemma SecondPauses(cfg: Config, site: Site, st: St, k: nat)
    requires k < |SecondUnits(cfg)| && !Waits(SecondUnits(cfg)[k], false)
    ensures SecondSaid(cfg, site, st, k + 1) == SecondSaid(cfg, site, st, k)
  {
    hide Replies, Waits, FirstUnits, SecondUnits, AtFirst, AtSecond;
    NoReply(site, AtSecond(cfg, site, st), SecondUnits(cfg), k, false);
  }

  lemma SyncOpens(cfg: Config, site: Site, st: St, t: Talk, a: string, b: string)
    requires SyncOk(cfg, site, st, t) && AtRest(SyncClient(site, st), SyncServer(cfg, t), a, b)
    ensures FirstSaid(cfg, site, st, 0) <= a
  {
    hide Items, Say, FirstUnits, SecondUnits, PassOk, Lawful, Lines, CommandsSent;
    ItemsGrow(site, AtFirst(st), Lines(b));
    SaysFirst(st, "SYNC");
    assert FirstUnits(cfg)[..0] == [] && Ln("SYNC") + "" == Ln("SYNC");
  }

  lemma SecondStep(cfg: Config, site: Site, st: St, t: Talk, a: string, b: string, k: nat)
    requires SyncOk(cfg, site, st, t) && cfg.cutover && k < |SecondUnits(cfg)|
    requires AtRest(SyncClient(site, st), SyncServer(cfg, t), a, b) && SecondSaid(cfg, site, st, k) <= a
    ensures SecondSaid(cfg, site, st, k + 1) <= a
  {
    hide SecondSaid, SyncSpoken, CommandsSent, AtRest, Waits, SyncOk, Grows, Complete, SecondUnits;
    if Waits(SecondUnits(cfg)[k], false) {
      SyncClientGrows(site, st);
      SyncServerGrows(cfg, t);
      SecondExchange(cfg, site, st, t, k);
      SecondSaidComplete(cfg, site, st, k);
      Exchange(SyncClient(site, st), SyncServer(cfg, t), a, b, SecondSaid(cfg, site, st, k),
               SecondSaid(cfg, site, st, k + 1));
    } else {
      SecondPauses(cfg, site, st, k);
    }
  }

  lemma {:induction false} SecondClimbs(cfg: Config, site: Site, st: St, t: Talk, a: string, b: string, k: nat)
    requires SyncOk(cfg, site, st, t) && cfg.cutover && k <= |SecondUnits(cfg)|
    requires AtRest(SyncClient(site, st), SyncServer(cfg, t), a, b)
    ensures SecondSaid(cfg, site, st, k) <= a
    decreases k
  {
    hide *;
    if k == 0 {
      FirstClimbs(cfg, site, st, t, a, b, |FirstUnits(cfg)|);
      SecondOpens(cfg, site, st);
    } else {
      SecondClimbs(cfg, site, st, t, a, b, k - 1);
      SecondStep(cfg, site, st, t, a, b, k - 1);
    }
  }

  lemma SecondOpens(cfg: Config, site: Site, st: St)
    ensures SecondSaid(cfg, site, st, 0) == FirstSaid(cfg, site, st, |FirstUnits(cfg)|)
  {
    hide FirstUnits, SecondUnits, AtFirst, AtSecond;
    var us := FirstUnits(cfg);
    assert us[..|us|] == us && SecondUnits(cfg)[..0] == [];
    NothingMore(Replies(site, AtFirst(st), us, false), "");
  }

  /** All the client says before its goodbye, and all the server sends. */
  function SyncSaid(cfg: Config, site: Site, st: St): string {
    Ln("SYNC") + (Replies(site, AtFirst(st), FirstUnits(cfg), false)
                  + if cfg.cutover then Replies(site, AtSecond(cfg, site, st), SecondUnits(cfg), false) else "")
  }

  function SyncText(cfg: Config, site: Site, st: St, t: Talk): string {
    CommandsSent(cfg, [t], SyncSaid(cfg, site, st) + Ln("BYE"))
  }

  lemma SyncClimbs(cfg: Config, site: Site, st: St, t: Talk, a: string, b: string)
    requires SyncOk(cfg, site, st, t) && AtRest(SyncClient(site, st), SyncServer(cfg, t), a, b)
    ensures SyncSaid(cfg, site, st) <= a
  {
    hide SyncSpoken, CommandsSent, AtRest, SyncOk, FirstUnits, SecondUnits, AtFirst, AtSecond, Replies;
    var us, us2 := FirstUnits(cfg), SecondUnits(cfg);
    assert us[..|us|] == us && us2[..|us2|] == us2;
    if cfg.cutover {
      SecondClimbs(cfg, site, st, t, a, b, |us2|);
    } else {
      FirstClimbs(cfg, site, st, t, a, b, |us|);
      NothingMore(Replies(site, AtFirst(st), us, false), "");
    }
  }

  lemma SyncSaidComplete(cfg: Config, site: Site, st: St)
    ensures Complete(SyncSaid(cfg, site, st))
    ensures Ln("SYNC") + ClientText(cfg, site, st) == SyncSaid(cfg, site, st) + Ln("BYE")
  {
    hide FirstUnits, SecondUnits, AtFirst, AtSecond, Replies, Ln, Complete;
    var us, us2 := FirstUnits(cfg), SecondUnits(cfg);
    var one := Replies(site, AtFirst(st), us, false);
    var two := if cfg.cutover then Replies(site, AtSecond(cfg, site, st), us2, false) else "";
    assert us[..|us|] == us && us2[..|us2|] == us2;
    if cfg.cutover {
      SecondSaidComplete(cfg, site, st, |us2|);
    } else {
      FirstSaidComplete(cfg, site, st, |us|);
      NothingMore(one, "");
    }
    Regroup3(one, two, Ln("BYE"));
    Regroup3(Ln("SYNC"), one + two, Ln("BYE"));
  }

  /** The server has sent everything when it has heard the last reply, before the goodbye. */
  lemma SyncAnswered(cfg: Config, site: Site, st: St, t: Talk)
    requires SyncOk(cfg, site, st, t)
    ensures CommandsSent(cfg, [t], SyncSaid(cfg, site, st)) == SyncText(cfg, site, st, t)
  {
    hide FirstUnits, SecondUnits, AtFirst, AtSecond, Replies, Ln, Complete, HeardAll, SyncSent, Line, AfterLine, PassOk,
        Lawful;
    var us, us2, st1, st2 := FirstUnits(cfg), SecondUnits(cfg), AtFirst(st), AtSecond(cfg, site, st);
    var one, two := Replies(site, st1, us, false), if cfg.cutover then Replies(site, st2, us2, false) else "";
    var said := one + two;
    HearsTheReplies(site, st1, us, two, false);
    HearsTheReplies(site, st2, us2, "", false);
    NothingMore(Replies(site, st2, us2, false), "");
    assert BeyondSync(cfg, said) == Some("");
    RepliesComplete(site, st1, us, false);
    RepliesComplete(site, st2, us2, false);
    NothingMore(one, two);
    CompleteEnd(one, two) by { NothingComplete(); }
    SyncGrows(cfg, t, said, Ln("BYE"));
    BeyondStays(cfg, said, Ln("BYE"));
    assert "" + Ln("BYE") == Ln("BYE");
    SyncIsAsked(cfg, t, said);
    SyncIsAsked(cfg, t, said + Ln("BYE"));
    Regroup3(Ln("SYNC"), said, Ln("BYE"));
    ByeIsSilent(cfg);
  }

  lemma ByeIsSilent(cfg: Config)
    ensures CommandsSent(cfg, [], Ln("BYE")) == "" && CommandsSent(cfg, [], "") == ""
  {
    LineOf("BYE", "");
    assert Ln("BYE") + "" == Ln("BYE");
  }

  lemma SyncTextComplete(cfg: Config, site: Site, st: St, t: Talk)
    requires SyncOk(cfg, site, st, t)
    ensures var text := SyncText(cfg, site, st, t);
            Complete(text) && SyncSpoken(site, st, text) == SyncSaid(cfg, site, st) + Ln("BYE")
  {
    hide FirstUnits, SecondUnits, AtFirst, AtSecond, CommandsSent, SyncSaid, PassBytes, Pings, Sync, Complete,
        ClientText, PassOk, Lawful;
    SyncSaidComplete(cfg, site, st);
    ConversationCloses(cfg, site, st, t);
    assert "" + (Ln("SYNC") + ClientText(cfg, site, st)) == Ln("SYNC") + ClientText(cfg, site, st);
    LnComplete("DONE");
    var us, us2, st1 := FirstUnits(cfg), SecondUnits(cfg), AtFirst(st);
    if cfg.cutover {
      CutoverComplete(cfg, site, st, t);
    } else {
      PlainComplete(site, st, us, t.fs);
    }
  }

  lemma PlainComplete(site: Site, st: St, us: seq<Unit>, fs: seq<Framing>)
    requires PassOk(site.codec, us, fs)
    ensures Complete(SessionBytes(site, st, us, fs))
  {
    hide PassBytes, Complete, Ln, PassOk;
    var bytes := PassBytes(site, Say(st, "SYNC").(seen := {}), us, fs, false);
    LnComplete("DONE");
    CompleteEnd(Ln("PASS-END"), Ln("DONE"));
    CompleteEnd(bytes, Ln("PASS-END") + Ln("DONE"));
    CompleteEnd(Ln("T 0"), bytes + (Ln("PASS-END") + Ln("DONE")));
  }

  lemma CutoverComplete(cfg: Config, site: Site, st: St, t: Talk)
    requires PassOk(site.codec, FirstUnits(cfg), t.fs) && PassOk(site.codec, SecondUnits(cfg), t.fs2)
    ensures Complete(CutoverBytes(site, st, FirstUnits(cfg), t.fs, t.pings, SecondUnits(cfg), t.fs2))
  {
    hide PassBytes, Complete, Ln, PassOk, FirstUnits, SecondUnits, Pings, ApplyAll;
    var st1 := Say(st, "SYNC").(seen := {});
    var st2 := ApplyAll(site, st1, FirstUnits(cfg), false).(seen := {});
    var two := PassBytes(site, st2, SecondUnits(cfg), t.fs2, false);
    LnComplete("DONE");
    CompleteEnd(Ln("PASS-END"), Ln("DONE"));
    CompleteEnd(two, Ln("PASS-END") + Ln("DONE"));
    EndsComplete(Ln("T 0"), PassBytes(site, st1, FirstUnits(cfg), t.fs, false), Ln("PASS-END"), Pings(t.pings),
                 Ln("GO"), two + (Ln("PASS-END") + Ln("DONE")));
  }

  /** A client and a single-stream server suit each other, plain or cutover. */
  lemma SyncSuits(cfg: Config, site: Site, st: St, t: Talk)
    requires SyncOk(cfg, site, st, t)
    ensures Suits(SyncClient(site, st), SyncServer(cfg, t), SyncSaid(cfg, site, st) + Ln("BYE"),
                  SyncText(cfg, site, st, t))
  {
    hide SyncSaid, SyncSpoken, SyncText, CommandsSent, AtRest, SyncOk, Grows, Complete, Ln;
    var cli, srv := SyncClient(site, st), SyncServer(cfg, t);
    var said := SyncSaid(cfg, site, st);
    SyncClientGrows(site, st);
    SyncServerGrows(cfg, t);
    LnComplete("BYE");
    SyncSaidComplete(cfg, site, st);
    CompleteEnd(said, Ln("BYE"));
    SyncAnswered(cfg, site, st, t);
    SyncTextComplete(cfg, site, st, t);
    TextIs(cfg, site, st, t);
    forall a: string, b: string | AtRest(cli, srv, a, b) ensures said + Ln("BYE") <= a {
      SyncClimbs(cfg, site, st, t, a, b);
      Exchange(cli, srv, a, b, said, said + Ln("BYE"));
    }
  }

  lemma TextIs(cfg: Config, site: Site, st: St, t: Talk)
    ensures SyncText(cfg, site, st, t) == CommandsSent(cfg, [t], SyncSaid(cfg, site, st) + Ln("BYE"))
  {
  }

  // ------------------------------------------------------------------ the greeting

  /** `connect_auth`: the token, then the `OK` and the configuration line, then the rest. */
  function GreetedClient(token: string, rest: End): End {
    got =>
      var q := Lines(got);
      Ln("AUTH " + token)
      + if q != "" && Line(q) == "OK" && AfterLine(q) != "" then rest(AfterLine(AfterLine(q))) else ""
  }

  /** The server's side of it. */
  function GreetingServer(token: string, streams: nat, spec: string, rest: End): End {
    heard =>
      var q := Lines(heard);
      if q == "" then ""
      else if !Authed(token, q) then Ln("ERR auth")
      else Ln("OK") + Ln(CfgLine(streams, spec)) + rest(AfterLine(q))
  }

  /** Texts a control line can carry, and a token the server lets in. */
  predicate GreetOk(token: string, asked: string, streams: nat, spec: string) {
    LineSafe("AUTH " + token) && LineSafe(CfgLine(streams, spec)) && (asked == "" || asked == token)
  }

  lemma GreetedClientGrows(token: string, rest: End)
    requires Grows(rest)
    ensures Monotone(GreetedClient(token, rest))
  {
    hide Lines, Line, AfterLine, Ln;
    forall a: string, b: string | a <= b ensures GreetedClient(token, rest)(a) <= GreetedClient(token, rest)(b) {
      var p, q := Lines(a), Lines(b);
      LinesGrow(p, b);
      Behind(p, q);
      if p != "" && Line(p) == "OK" && AfterLine(p) != "" {
        var more := q[|p|..];
        LineStays(p, more);
        LineStays(AfterLine(p), more);
        assert Complete(AfterLine(AfterLine(q))) by { LineStays(q, ""); LineStays(AfterLine(q), ""); }
        GrowBehind(Ln("AUTH " + token), rest(AfterLine(AfterLine(p))), rest(AfterLine(AfterLine(q))));
      }
    }
  }

  lemma GreetingServerGrows(token: string, streams: nat, spec: string, rest: End)
    requires Grows(rest)
    ensures Monotone(GreetingServer(token, streams, spec, rest))
  {
    hide Lines, Line, AfterLine, Ln, CfgLine;
    forall a: string, b: string | a <= b
      ensures GreetingServer(token, streams, spec, rest)(a) <= GreetingServer(token, streams, spec, rest)(b)
    {
      var p, q := Lines(a), Lines(b);
      LinesGrow(p, b);
      Behind(p, q);
      if p != "" {
        LineStays(p, q[|p|..]);
        assert Complete(AfterLine(q)) by { LineStays(q, ""); }
        GrowBehind(Ln("OK") + Ln(CfgLine(streams, spec)), rest(AfterLine(p)), rest(AfterLine(q)));
      }
    }
  }

  lemma ServerGreets(token: string, asked: string, streams: nat, spec: string, rest: End, x: string)
    requires GreetOk(token, asked, streams, spec)
    ensures GreetingServer(asked, streams, spec, rest)(Ln("AUTH " + token) + x)
            == Ln("OK") + Ln(CfgLine(streams, spec)) + rest(Lines(x))
  {
    hide Lines, Line, AfterLine, Ln, CfgLine, LineSafe;
    var l := "AUTH " + token;
    LnComplete(l);
    LinesBehind(Ln(l), x);
    LineOf(l, Lines(x));
    assert l[5..] == token;
  }

  lemma ClientGreets(token: string, asked: string, streams: nat, spec: string, rest: End, y: string)
    requires GreetOk(token, asked, streams, spec)
    ensures GreetedClient(token, rest)(Ln("OK") + Ln(CfgLine(streams, spec)) + y)
            == Ln("AUTH " + token) + rest(Lines(y))
  {
    hide Lines, Line, AfterLine, Ln, CfgLine, LineSafe;
    var cfg := CfgLine(streams, spec);
    LnComplete("OK");
    LnComplete(cfg);
    CompleteEnd(Ln("OK"), Ln(cfg));
    LinesBehind(Ln("OK") + Ln(cfg), y);
    Regroup3(Ln("OK"), Ln(cfg), Lines(y));
    assert LineSafe("OK") by { PlainIsSafe("OK"); }
    LineOf("OK", Ln(cfg) + Lines(y));
    LineOf(cfg, Lines(y));
  }

  lemma PlainIsSafe(l: string)
    requires Avoids(l, {'\n', '\r'})
    ensures LineSafe(l)
  {
  }

  /** Ends that suit each other fit behind the greeting. */
  lemma GreetedFit(token: string, asked: string, streams: nat, spec: string, cli: End, srv: End, fullC: string,
                   fullS: string)
    requires GreetOk(token, asked, streams, spec) && Suits(cli, srv, fullC, fullS)
    ensures Fits(GreetedClient(token, cli), GreetingServer(asked, streams, spec, srv), Ln("AUTH " + token) + fullC,
                 Ln("OK") + Ln(CfgLine(streams, spec)) + fullS)
  {
    hide GreetedClient, GreetingServer, Monotone, Grows, Ln, GreetOk, CfgLine, Lines;
    var cli1, srv1 := GreetedClient(token, cli), GreetingServer(asked, streams, spec, srv);
    GreetedClientGrows(token, cli);
    GreetingServerGrows(asked, streams, spec, srv);
    ServerGreets(token, asked, streams, spec, srv, fullC);
    ClientGreets(token, asked, streams, spec, cli, fullS);
    forall a: string, b: string | a == cli1(b) && b == srv1(a) ensures Ln("AUTH " + token) + fullC <= a {
      RestsBehind(token, asked, streams, spec, cli, srv, fullC, a, b);
    }
  }

  /** Ends at rest have greeted each other, and rest behind that. */
  lemma RestsBehind(token: string, asked: string, streams: nat, spec: string, cli: End, srv: End, fullC: string,
                    a: string, b: string)
    requires GreetOk(token, asked, streams, spec)
    requires forall x: string, y: string :: AtRest(cli, srv, x, y) ==> fullC <= x
    requires a == GreetedClient(token, cli)(b) && b == GreetingServer(asked, streams, spec, srv)(a)
    ensures Ln("AUTH " + token) + fullC <= a
  {
    hide GreetingServer, Ln, GreetOk, CfgLine, Lines, Line, AfterLine;
    var l := Ln("AUTH " + token);
    var x := a[|l|..];
    assert a == l + x;
    ServerGreets(token, asked, streams, spec, srv, x);
    var y := srv(Lines(x));
    ClientGreets(token, asked, streams, spec, cli, y);
    assert l + x == l + cli(Lines(y));
    SameBehind(l, x, cli(Lines(y)));
    assert AtRest(cli, srv, x, y);
    GrowBehind(l, fullC, x);
  }

  lemma SameBehind(a: string, x: string, y: string)
    requires a + x == a + y
    ensures x == y
  {
    assert (a + x)[|a|..] == x && (a + y)[|a|..] == y;
  }

  // ------------------------------------------------------------------ session progress

  /** The whole text of each end. */
  function ClientTalk(token: string, said: string): string { Ln("AUTH " + token) + (said + Ln("BYE")) }

  function ServerTalk(streams: nat, spec: string, text: string): string {
    Ln("OK") + Ln(CfgLine(streams, spec)) + text
  }

  /** Session progress, `SYNC`, plain or cutover: in every state that the client, the server and the channels
      between them can reach, a step is enabled, or the session is over: everything said has been heard, the
      client's run is clean and the server has read its goodbye. No run takes more steps than twice the
      characters of the conversation. */
  lemma SyncNeverStuck(cfg: Config, site: Site, st: St, t: Talk, token: string, asked: string, trace: seq<Move>)
    requires SyncOk(cfg, site, st, t) && GreetOk(token, asked, 1, cfg.spec)
    requires Run(GreetedClient(token, SyncClient(site, st)), GreetingServer(asked, 1, cfg.spec, SyncServer(cfg, t)),
                     QUIET, trace).Some?
    ensures var cli, srv := GreetedClient(token, SyncClient(site, st)),
                            GreetingServer(asked, 1, cfg.spec, SyncServer(cfg, t));
            var c := ClientTalk(token, SyncSaid(cfg, site, st));
            var b := ServerTalk(1, cfg.spec, SyncText(cfg, site, st, t));
            var s := Run(cli, srv, QUIET, trace).value;
            |trace| <= 2 * (|c| + |b|)
            && (s == Channels(c, c, b, b) || exists move :: Next(cli, srv, s, move).Some?)
    ensures SaysGoodbye(cfg, SyncSaid(cfg, site, st) + Ln("BYE")) && Sync(site, st, SyncText(cfg, site, st, t)).Clean?
  {
    hide GreetedClient, GreetingServer, SyncClient, SyncServer, Fits, Run, Next, SyncSaid, GreetOk, Sync, ClientText,
        CommandsSent, SaysGoodbye;
    var cli, srv := SyncClient(site, st), SyncServer(cfg, t);
    SyncSuits(cfg, site, st, t);
    GreetedFit(token, asked, 1, cfg.spec, cli, srv, SyncSaid(cfg, site, st) + Ln("BYE"), SyncText(cfg, site, st, t));
    NeverStuck(GreetedClient(token, cli), GreetingServer(asked, 1, cfg.spec, srv),
               ClientTalk(token, SyncSaid(cfg, site, st)), ServerTalk(1, cfg.spec, SyncText(cfg, site, st, t)), trace);
    SyncSaidComplete(cfg, site, st);
    ConversationCloses(cfg, site, st, t);
  }

  /** Session progress, one parallel stream in either mode: `QSYNC` and `QSYNC STREAM`. */
  lemma StreamNeverStuck(site: Site, st: St, us: seq<Unit>, fs: seq<Framing>, ps: seq<nat>, stream: bool,
                         token: string, asked: string, streams: nat, spec: string, trace: seq<Move>)
    requires Lawful(site.codec) && PassOk(site.codec, us, fs) && st.out == "" && GreetOk(token, asked, streams, spec)
    requires Run(GreetedClient(token, StreamClient(site, st, stream)),
                     GreetingServer(asked, streams, spec, StreamServer(site.codec, us, fs, ps)), QUIET, trace).Some?
    ensures var cli, srv := GreetedClient(token, StreamClient(site, st, stream)),
                            GreetingServer(asked, streams, spec, StreamServer(site.codec, us, fs, ps));
            var c := ClientTalk(token, StreamSaid(site, st, us, stream));
            var b := ServerTalk(streams, spec, StreamText(site, st, us, fs, ps, stream));
            var s := Run(cli, srv, QUIET, trace).value;
            |trace| <= 2 * (|c| + |b|)
            && (s == Channels(c, c, b, b) || exists move :: Next(cli, srv, s, move).Some?)
    ensures Units(site, Say(st, Client.Greeting(stream)), StreamText(site, st, us, fs, ps, stream), stream, 0).1
  {
    hide GreetedClient, GreetingServer, StreamClient, StreamServer, Fits, Run, Next, StreamSaid, GreetOk, Units, Sent,
        PassOk, Client.Greeting;
    var cli, srv := StreamClient(site, st, stream), StreamServer(site.codec, us, fs, ps);
    StreamSuits(site, st, us, fs, ps, stream);
    GreetedFit(token, asked, streams, spec, cli, srv, StreamSaid(site, st, us, stream) + Ln("BYE"),
               StreamText(site, st, us, fs, ps, stream));
    NeverStuck(GreetedClient(token, cli), GreetingServer(asked, streams, spec, srv),
               ClientTalk(token, StreamSaid(site, st, us, stream)),
               ServerTalk(streams, spec, StreamText(site, st, us, fs, ps, stream)), trace);
    var st1 := Say(st, Client.Greeting(stream));
    NothingMore(Replies(site, st1, us, stream), StreamText(site, st, us, fs, ps, stream));
    StreamDelivers(site, st1, us, fs, ps, "", "", stream, 0);
  }

  /** The server's end is the server's method: on whole lines it has sent what `HandleSession` sends to a
      client that has said just that. */
  lemma ServerEndIs(cfg: Config, t: Talk, asked: string, heard: string)
    requires Complete(heard) && heard != ""
    ensures GreetingServer(asked, 1, cfg.spec, SyncServer(cfg, t))(heard) == SessionSent(cfg, asked, [t], heard)
  {
    hide CommandsSent, Line, AfterLine, CfgLine, Ln;
    LineStays(heard, "");
  }
}
