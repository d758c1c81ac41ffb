/** Session progress: over channels that lose nothing, the two ends of a session never get stuck before they
    are through, in `SYNC` with and without cutover, in `QSYNC` and in `QSYNC STREAM`. */
module Progress {
  import opened Text
  import opened Wire
  import opened Frames
  import opened Paths
  import opened Receiver
  import opened Transcript
  import opened Sender
  import opened Pass
  import opened Dialogue
  import opened Serving
  import opened Net
  import opened Growth
  import Client

  // ------------------------------------------------------------------ an offer is enough

  /** The head of `s` is an item line, and dealing with it says exactly the reply to `u`. */
  predicate Answered(site: Site, st: St, u: Unit, s: string, stream: bool) {
    s != "" && Line(s) !in {"PASS-END", "PING", "NOUNIT"} && !StartsWith(Line(s), "T ")
    && Dispatch(site, st, Line(s), AfterLine(s), stream).st.out == st.out + Said(site, st, u, stream)
  }

  lemma BundleAnswered(site: Site, st: St, ds: seq<Doc>, t: string, stream: bool)
    requires ds != [] && UnitOk(Bundle(ds))
    ensures Answered(site, st, Bundle(ds), Offer(Bundle(ds)) + t, stream)
  {
    hide HandleBundle, HandleDir, HandleLarge, Trim, ReadLines, Frames.ParseAll, Plan, Mask, LinesBytes, EntryLines,
        EntryOk, Known, Entries;
    var h, m := "B " + Dec(|ds|), LinesBytes(EntryLines(Entries(ds)));
    assert st.out + "" == st.out;
    EntriesOk(ds);
    CountLine(|ds|);
    Regroup3(Ln(h), m, t);
    LineOf(h, m + t);
    ItemLine("B ", Dec(|ds|));
    ManifestRoundTrip(Entries(ds), t);
    BundleSays(site, st, |ds|, m + t, stream);
    assert BundleReply(site, st, |ds|, m + t, stream) == Said(site, st, Bundle(ds), stream);
  }

  lemma LargeAnswered(site: Site, st: St, d: Doc, t: string, stream: bool)
    requires UnitOk(Large(d))
    ensures Answered(site, st, Large(d), Offer(Large(d)) + t, stream)
  {
    hide HandleBundle, HandleDir, HandleLarge, ParseThree, EntryLine, NeedFetch, SafeJoin, EntryOk;
    assert st.out + "" == st.out;
    LargeLine(EntryOf(d), t);
    ItemLine("F ", EntryLine(EntryOf(d)));
    LargeSays(site, st, EntryOf(d), t, stream);
  }

  lemma OfferSuffices(site: Site, st: St, u: Unit, t: string, stream: bool)
    requires UnitOk(u) && u != Bundle([])
    ensures Answered(site, st, u, Offer(u) + t, stream)
  {
    match u {
      case Dir(rel) =>
        hide HandleBundle, HandleLarge, SafeJoin, RecordRoot;
        assert st.out + "" == st.out;
        DirAnswered(site, st, rel, t, stream);
      case Bundle(ds) => BundleAnswered(site, st, ds, t, stream);
      case Large(d) => LargeAnswered(site, st, d, t, stream);
    }
  }

  lemma DirAnswered(site: Site, st: St, rel: string, t: string, stream: bool)
    requires RelOk(rel)
    ensures Answered(site, st, Dir(rel), Offer(Dir(rel)) + t, stream)
  {
    hide HandleBundle, HandleLarge, SafeJoin, RecordRoot, Line, AfterLine;
    var h := "D " + rel;
    assert st.out + "" == st.out;
    assert LineSafe(h) && h[2..] == rel;
    LineOf(h, t);
    ItemLine("D ", rel);
  }

  lemma AnswerIsSaid(site: Site, st: St, u: Unit, s: string)
    requires Answered(site, st, u, s, false)
    ensures st.out + Said(site, st, u, false) <= Items(site, st, s).st.out
  {
    hide Dispatch, Said, Line, AfterLine;
    match Dispatch(site, st, Line(s), AfterLine(s), false)
    case Halt(st1) =>
    case Go(st1, rest) => ItemsGrow(site, st1, rest);
  }

  lemma AnswerIsSaidInUnits(site: Site, st: St, u: Unit, s: string, stream: bool, n: nat)
    requires Answered(site, st, u, s, stream)
    ensures st.out + Said(site, st, u, stream) <= Units(site, st, s, stream, n).0.out
  {
    hide Dispatch, Said, Line, AfterLine;
    match Dispatch(site, st, Line(s), AfterLine(s), stream)
    case Halt(st1) =>
    case Go(st1, rest) => UnitsGrow(site, st1, rest, stream, n + 1);
  }

  lemma {:induction false} RepliesSnoc(site: Site, st: St, us: seq<Unit>, k: nat, stream: bool)
    requires k < |us|
    ensures Replies(site, st, us[..k + 1], stream)
            == Replies(site, st, us[..k], stream) + Said(site, ApplyAll(site, st, us[..k], stream), us[k], stream)
    decreases k
  {
    hide Said, Apply;
    if k == 0 {
      assert us[..1][1..] == [] && us[..1][0] == us[0] && us[..0] == [];
      assert Said(site, st, us[0], stream) + "" == "" + Said(site, st, us[0], stream);
    } else {
      var st1 := Apply(site, st, us[0], stream);
      assert us[..k + 1][1..] == us[1..][..k] && us[..k][1..] == us[1..][..k - 1];
      RepliesSnoc(site, st1, us[1..], k - 1, stream);
      Regroup3(Said(site, st, us[0], stream), Replies(site, st1, us[1..][..k - 1], stream),
               Said(site, ApplyAll(site, st, us[..k], stream), us[k], stream));
    }
  }

  lemma FirstOffer(c: Codec, us: seq<Unit>, fs: seq<Framing>, ps: seq<nat>, stream: bool, said: string, end: string)
    returns (more: string)
    requires us != []
    ensures Sent(c, us, fs, ps, stream, said, end) == Pings(Gap(ps)) + (Offer(us[0]) + more)
  {
    hide Sent, Offer, Pings;
    OfferFirst(c, us, fs, ps, stream, said, end);
    var head := Pings(Gap(ps)) + Offer(us[0]);
    more := Sent(c, us, fs, ps, stream, said, end)[|head|..];
    Regroup3(Pings(Gap(ps)), Offer(us[0]), more);
  }

  lemma FirstReply(site: Site, st: St, us: seq<Unit>, stream: bool)
    requires us != []
    ensures us[..0] == [] && Replies(site, st, us[..1], stream) == Said(site, st, us[0], stream)
  {
    hide Said;
    assert us[..1][1..] == [] && us[..1][0] == us[0];
    assert Said(site, st, us[0], stream) + "" == Said(site, st, us[0], stream);
  }

  /** The first k replies, taken apart at the first one. */
  lemma RepliesCons(site: Site, st: St, us: seq<Unit>, k: nat, stream: bool)
    requires 0 < k <= |us|
    ensures Replies(site, st, us[..k], stream)
            == Said(site, st, us[0], stream) + Replies(site, Apply(site, st, us[0], stream), us[1..][..k - 1], stream)
  {
    hide Said, Apply;
    assert us[..k][0] == us[0] && us[..k][1..] == us[1..][..k - 1];
  }

  lemma FirstAnswer(site: Site, st: St, us: seq<Unit>, fs: seq<Framing>)
    requires us != [] && UnitOk(us[0]) && us[0] != Bundle([])
    ensures us[..0] == []
    ensures st.out + Replies(site, st, us[..1], false)
            <= Items(site, st, Sent(site.codec, us, fs, [], false, Replies(site, st, us[..0], false), "")).st.out
  {
    hide Items, Dispatch, Said, Offer, UnitOk, Replies, Pings, Sent;
    var more := FirstOffer(site.codec, us, fs, [], false, Replies(site, st, us[..0], false), "");
    FirstReply(site, st, us, false);
    NoPings();
    OfferSuffices(site, st, us[0], more, false);
    AnswerIsSaid(site, st, us[0], Offer(us[0]) + more);
  }

  /** What a server sends on hearing the first k replies makes the client say the next one. */
  lemma {:induction false} PassAnswers(site: Site, st: St, us: seq<Unit>, fs: seq<Framing>, k: nat)
    requires Lawful(site.codec) && PassOk(site.codec, us, fs) && k < |us|
    ensures st.out + Replies(site, st, us[..k + 1], false)
            <= Items(site, st, Sent(site.codec, us, fs, [], false, Replies(site, st, us[..k], false), "")).st.out
    decreases k
  {
    hide Items, Dispatch, Apply, Said, Offer, UnitBytes, UnitSent, Heard, HeardBy, RestAfter, UnitOk, BlockOk, BodyOk,
        BodyData, Replies, Pings;
    var c := site.codec;
    if k == 0 {
      FirstAnswer(site, st, us, fs);
    } else {
      var st1 := Apply(site, st, us[0], false);
      var said1 := Replies(site, st1, us[1..][..k - 1], false);
      RepliesCons(site, st, us, k, false);
      RepliesCons(site, st, us, k + 1, false);
      HearsOne(site, st, us[0], said1, false);
      ServesTheUnit(site, st, us[0], fs[0], false);
      var rest := Sent(c, us[1..], fs[1..], [], false, said1, "");
      var bytes := UnitBytes(c, us[0], fs[0], Heard(site, st, us[0], false));
      NoPings();
      UnitRoundTrip(site, st, us[0], fs[0], rest, false);
      ItemsCarry(site, st, us[0], bytes + rest, rest);
      PassAnswers(site, st1, us[1..], fs[1..], k - 1);
      SayOnce(site, st, us[0], false);
      Regroup3(st.out, Said(site, st, us[0], false), Replies(site, st1, us[1..][..k], false));
    }
  }

  /** The same on a parallel stream, with keepalives and in both modes. */
  lemma {:induction false} StreamAnswers(site: Site, st: St, us: seq<Unit>, fs: seq<Framing>, ps: seq<nat>, k: nat,
                                         stream: bool, n: nat, end: string)
    requires Lawful(site.codec) && PassOk(site.codec, us, fs) && k < |us|
    ensures st.out + Replies(site, st, us[..k + 1], stream)
            <= Units(site, st, Sent(site.codec, us, fs, ps, stream, Replies(site, st, us[..k], stream), end), stream, n)
               .0.out
    decreases k
  {
    hide Units, Dispatch, Apply, Said, Offer, UnitBytes, UnitSent, Heard, HeardBy, RestAfter, UnitOk, BlockOk, BodyOk,
        BodyData, Replies, Pings;
    var c, said := site.codec, Replies(site, st, us[..k], stream);
    if k == 0 {
      var more := FirstOffer(c, us, fs, ps, stream, said, end);
      FirstReply(site, st, us, stream);
      PingsInUnits(site, st, Gap(ps), Offer(us[0]) + more, stream, n);
      OfferSuffices(site, st, us[0], more, stream);
      AnswerIsSaidInUnits(site, st, us[0], Offer(us[0]) + more, stream, n);
    } else {
      var st1 := Apply(site, st, us[0], stream);
      var said1 := Replies(site, st1, us[1..][..k - 1], stream);
      RepliesCons(site, st, us, k, stream);
      RepliesCons(site, st, us, k + 1, stream);
      HearsOne(site, st, us[0], said1, stream);
      ServesTheUnit(site, st, us[0], fs[0], stream);
      var rest := Sent(c, us[1..], fs[1..], Later(ps), stream, said1, end);
      UnitInStream(site, st, us[0], fs[0], Gap(ps), rest, stream, n);
      StreamAnswers(site, st1, us[1..], fs[1..], Later(ps), k - 1, stream, n + 1, end);
      SayOnce(site, st, us[0], stream);
      Regroup3(st.out, Said(site, st, us[0], stream), Replies(site, st1, us[1..][..k], stream));
    }
  }

  /** A server that has heard the replies to the first k units and no more waits on unit k, if it waits for
      anything there. */
  lemma WaitsThere(site: Site, st: St, us: seq<Unit>, k: nat, stream: bool)
    requires k < |us| && Waits(us[k], stream)
    ensures HeardAll(us, stream, Replies(site, st, us[..k], stream)).None?
  {
    hide HeardAll, Replies;
    var said := Replies(site, st, us[..k], stream);
    HearsTheReplies(site, st, us[..k], "", stream);
    assert said + "" == said;
    HeardSnoc(us[..k], us[k], stream, said);
    assert us[..k + 1] == us[..k] + [us[k]] && us[..k + 1] + us[k + 1..] == us;
    HeardNone(us[..k + 1], us[k + 1..], stream, said);
  }

  lemma {:induction false} RepliesComplete(site: Site, st: St, us: seq<Unit>, stream: bool)
    ensures Complete(Replies(site, st, us, stream))
    decreases |us|
  {
    hide Apply, Said;
    if us != [] {
      SaidComplete(site, st, us[0], stream);
      RepliesComplete(site, Apply(site, st, us[0], stream), us[1..], stream);
      CompleteEnd(Said(site, st, us[0], stream), Replies(site, Apply(site, st, us[0], stream), us[1..], stream));
    }
  }

  lemma SaidComplete(site: Site, st: St, u: Unit, stream: bool)
    ensures Complete(Said(site, st, u, stream))
    ensures !Waits(u, stream) ==> Said(site, st, u, stream) == ""
  {
    hide Reply;
    ReplyIsALine(site, st, u, stream);
  }

  /** A unit on which the server does not wait adds no reply. */
  lemma NoReply(site: Site, st: St, us: seq<Unit>, k: nat, stream: bool)
    requires k < |us| && !Waits(us[k], stream)
    ensures Replies(site, st, us[..k + 1], stream) == Replies(site, st, us[..k], stream)
  {
    hide Replies, Said;
    RepliesSnoc(site, st, us, k, stream);
    SaidComplete(site, ApplyAll(site, st, us[..k], stream), us[k], stream);
    assert Replies(site, st, us[..k], stream) + "" == Replies(site, st, us[..k], stream);
  }

}
