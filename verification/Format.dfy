/** The wire format, written out: what the encoders of `Transcript` put on the stream, character by character. */
module Format {
  import opened Text
  import opened Wire
  import opened Frames
  import opened Receiver
  import opened Transcript
  import opened Serving
  import opened Session
  import opened Client
  import Pa = Pass

  lemma ManifestText(a: Doc, b: Doc)
    ensures LinesBytes(EntryLines(Entries([a, b]))) == Ln(EntryLine(EntryOf(a))) + Ln(EntryLine(EntryOf(b)))
  {
    hide EntryLine, Ln;
    var la, lb := EntryLine(EntryOf(a)), EntryLine(EntryOf(b));
    assert [a, b][1..] == [b] && [b][1..] == [];
    assert Entries([b]) == [EntryOf(b)] && [EntryOf(b)][1..] == [];
    assert Entries([a, b]) == [EntryOf(a), EntryOf(b)] && [EntryOf(a), EntryOf(b)][1..] == [EntryOf(b)];
    assert EntryLines([EntryOf(b)]) == [lb] && [lb][1..] == [];
    assert EntryLines([EntryOf(a), EntryOf(b)]) == [la, lb] && [la, lb][1..] == [lb];
    assert LinesBytes([lb]) == Ln(lb) + "" == Ln(lb);
  }

  /** What an offer looks like: size, time and name of a file on one line. */
  lemma OfferFormat(rel: string, a: Doc, b: Doc)
    ensures Offer(Dir(rel)) == "D " + rel + "\n"
    ensures Offer(Large(a)) == "F " + (Dec(a.size) + " " + DecInt(a.mtime) + " " + a.rel) + "\n"
    ensures Offer(Bundle([a, b])) == "B 2\n" + ((Dec(a.size) + " " + DecInt(a.mtime) + " " + a.rel + "\n")
                                              + (Dec(b.size) + " " + DecInt(b.mtime) + " " + b.rel + "\n"))
  {
    hide DecInt, Entries, EntryLines, LinesBytes;
    ManifestText(a, b);
    assert Dec(2) == "2";
  }

  lemma TwoEntries(c: Codec, b: Doc, gone: Doc, k: Block)
    requires gone.body == None && b.body.Some?
    ensures DocsBytes(c, [b, gone], [k, Raw("")], "11") == BlockBytes(c, k) + "-1\n"
    ensures DocsBytes(c, [b, gone], [k, Raw("")], "10") == BlockBytes(c, k)
  {
    hide BlockBytes;
    assert [b, gone][1..] == [gone] && [k, Raw("")][1..] == [Raw("")];
    assert [gone][1..] == [] && [Raw("")][1..] == [] && DocsBytes(c, [], [], "") == "";
    assert "11"[1..] == "1" && "10"[1..] == "0" && "1"[1..] == "" && "0"[1..] == "";
    assert DocsBytes(c, [gone], [Raw("")], "1") == "-1\n" && DocsBytes(c, [gone], [Raw("")], "0") == "";
    assert BlockBytes(c, k) + "" == BlockBytes(c, k);
  }

  lemma TwoBlocks(c: Codec, j: Block, k: Block)
    ensures BodyBytes(c, Pieces([j, k])) == "Z\n" + ((BlockBytes(c, j) + BlockBytes(c, k)) + "E\n")
  {
    hide BlockBytes;
    assert [j, k][1..] == [k] && [k][1..] == [];
    assert BlocksBytes(c, [k]) == BlockBytes(c, k) + "" == BlockBytes(c, k);
  }

  /** What bodies look like: a file of a bundle raw or compressed, one that cannot be read, one that is not
      wanted; a large file in one piece, in blocks, or declined. */
  lemma BodyFormat(c: Codec, d: Doc, gone: Doc, x: string, level: int)
    requires d.body.Some? && gone.body.None?
    ensures var z := c.compress(x, level);
            var raw, zip := "R " + Dec(|x|) + "\n" + x, "Z " + Dec(|z|) + " " + Dec(|x|) + "\n" + z;
            var one := Framing([], Whole(x));
            Answer(c, Bundle([d, gone]), Framing([Raw(x), Raw("")], Whole("")), "11") == raw + "-1\n"
            && Answer(c, Bundle([d, gone]), Framing([Zip(x, level), Raw("")], Whole("")), "10") == zip
            && Answer(c, Large(d), one, "0") == raw && Answer(c, Large(d), one, "-1") == ""
            && Answer(c, Large(d), Framing([], Pieces([Raw(x), Zip(x, level)])), "0") == "Z\n" + ((raw + zip) + "E\n")
  {
    hide Dec, DocsBytes, BlocksBytes;
    TwoEntries(c, d, gone, Raw(x));
    TwoEntries(c, d, gone, Zip(x, level));
    TwoBlocks(c, Raw(x), Zip(x, level));
    OffsetReplies();
  }

  // ------------------------------------------------------------------ the lines around the units

  /** A single stream on which nothing is offered, plain and cutover. */
  lemma EmptySession(site: Site, st: St)
    ensures SessionBytes(site, st, [], []) == "T 0\n" + ("PASS-END\n" + "DONE\n")
    ensures CutoverBytes(site, st, [], [], 1, [], [])
            == "T 0\n" + ("PASS-END\n" + ("PING\n" + ("GO\n" + ("T 0\n" + ("PASS-END\n" + "DONE\n")))))
  {
    hide PassBytes, ApplyAll, Apply, Pings, Ln;
    var st1 := Say(st, "SYNC").(seen := {});
    var end := Ln("PASS-END") + Ln("DONE");
    NothingOffered(site, st1);
    NothingOffered(site, ApplyAll(site, st1, [], false).(seen := {}));
    OnePing();
    NothingInFront(end);
    NothingInFront(Ln("PASS-END") + (Pings(1) + (Ln("GO") + (Ln("T 0") + end))));
    ControlLines();
  }

  lemma ControlLines()
    ensures Ln("T 0") == "T 0\n" && Ln("PASS-END") == "PASS-END\n" && Ln("GO") == "GO\n" && Ln("DONE") == "DONE\n"
  {
  }

  lemma NothingInFront(s: string)
    ensures "" + s == s
  {
  }

  lemma NothingOffered(site: Site, st: St)
    ensures PassBytes(site, st, [], [], false) == ""
  {
  }

  lemma OnePing()
    ensures Pings(1) == "PING\n" && Pings(2) == "PING\nPING\n"
  {
    assert Pings(0) == "" && Pings(1) == "PING\n" + "" && Pings(2) == "PING\n" + Pings(1);
  }

  /** A parallel stream on which nothing is offered, asked for in either mode, and a wrong first line. */
  lemma EmptyStream(c: Codec, stream: bool)
    ensures HandlerSent(c, [], [], [2], "QSYNC\n") == "PING\nPING\nNOUNIT\n"
    ensures HandlerSent(c, [], [], [], "QSYNC STREAM\n") == "NOUNIT\n"
    ensures HandlerSent(c, [], [], [], "SYNC\n") == "ERR cmd\n"
    ensures Greeting(stream) == "QSYNC" + if stream then " STREAM" else ""
  {
    hide Line, AfterLine, Pa.Sent;
    assert Ln("NOUNIT") == "NOUNIT\n";
    LinesRead();
    OnePing();
    NoUnits(c, AfterLine("QSYNC\n"));
    NoUnits(c, AfterLine("QSYNC STREAM\n"));
  }

  lemma LinesRead()
    ensures Line("QSYNC\n") == "QSYNC" && Line("QSYNC STREAM\n") == "QSYNC STREAM" && Line("SYNC\n") == "SYNC"
  {
    LineOf("QSYNC", "");
    LineOf("QSYNC STREAM", "");
    LineOf("SYNC", "");
    assert Ln("QSYNC") + "" == "QSYNC\n" && Ln("QSYNC STREAM") + "" == "QSYNC STREAM\n" && Ln("SYNC") + "" == "SYNC\n";
  }

  lemma NoUnits(c: Codec, said: string)
    ensures Pa.Sent(c, [], [], [], false, said, "NOUNIT\n") == "NOUNIT\n"
    ensures Pa.Sent(c, [], [], [], true, said, "NOUNIT\n") == "NOUNIT\n"
    ensures Pa.Sent(c, [], [], [2], false, said, "NOUNIT\n") == Pings(2) + "NOUNIT\n"
  {
    assert Pings(0) == "" && "" + "NOUNIT\n" == "NOUNIT\n";
  }

  /** The greeting of the single stream, and what an unknown token gets. */
  lemma GreetingFormat(cfg: Config, ts: seq<Talk>)
    ensures SessionSent(cfg, "t", ts, "AUTH t\nBYE\n") == "OK\nCFG 1 " + cfg.spec + "\n"
    ensures SessionSent(cfg, "t", ts, "AUTH u\nBYE\n") == "ERR auth\n"
  {
    hide Line, AfterLine, CommandsSent, Authed;
    LineOf("AUTH t", "BYE\n");
    assert Ln("AUTH t") + "BYE\n" == "AUTH t\nBYE\n" && Ln("AUTH u") + "BYE\n" == "AUTH u\nBYE\n";
    Admits("t", "AUTH t\nBYE\n", "AUTH t", "BYE\n");
    Admits("t", "AUTH u\nBYE\n", "AUTH u", "BYE\n");
    UnknownCommand(cfg, ts, "", "");
    assert Ln("BYE") + "" == "BYE\n" && Dec(1) == "1";
  }
}
