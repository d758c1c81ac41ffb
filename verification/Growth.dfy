/** Both ends act on what has reached them and take nothing back: on a longer stream each of them says what
    it says on the shorter one, and maybe more. */
module Growth {
  import opened Text
  import opened Wire
  import opened Frames
  import opened Paths
  import opened Receiver
  import opened Transcript
  import opened Sender
  import opened Pass
  import opened Dialogue
  import opened Session
  import opened Net
  import opened Convergence

  /** What `b` has said continues what `a` has said. */
  predicate Grown(a: St, b: St) { a.out <= b.out }

  lemma GrownTrans(a: St, b: St, c: St)
    requires Grown(a, b) && Grown(b, c)
    ensures Grown(a, c)
  {
  }

  // ------------------------------------------------------------------ the client: payload

  /** Is a part that leaves `rest` of the input `s` known to be over? Only a last line without a line break can
      still change. */
  predicate Over(s: string, rest: string) { Complete(s) || rest != "" }

  /** A part that has been received stays received when more comes in behind it. */
  predicate RecvStays(s: string, a: Recv, b: Recv, more: string) {
    a.Got? && Over(s, a.rest) ==> b == Got(a.data, a.rest + more) && (Complete(s) ==> Complete(a.rest))
  }

  lemma RawStays(n: nat, s: string, more: string, chunk: nat)
    requires chunk > 0
    ensures RecvStays(s, RecvRaw(n, s, chunk), RecvRaw(n, s + more, chunk), more)
  {
    if n <= |s| { assert (s + more)[..n] == s[..n] && (s + more)[n..] == s[n..] + more; }
  }

  lemma ZipStays(c: Codec, clen: nat, rlen: nat, s: string, more: string)
    ensures RecvStays(s, RecvZip(c, clen, rlen, s), RecvZip(c, clen, rlen, s + more), more)
  {
    if clen <= |s| { assert (s + more)[..clen] == s[..clen] && (s + more)[clen..] == s[clen..] + more; }
  }

  lemma PieceStays(c: Codec, hdr: string, s: string, more: string)
    ensures RecvStays(s, RecvPiece(c, hdr, s), RecvPiece(c, hdr, s + more), more)
    ensures RecvStays(s, RecvBundleFile(c, hdr, s), RecvBundleFile(c, hdr, s + more), more)
    ensures RecvPiece(c, hdr, s).Got? ==> |RecvPiece(c, hdr, s).rest| <= |s|
    ensures RecvBundleFile(c, hdr, s).Got? ==> |RecvBundleFile(c, hdr, s).rest| <= |s|
  {
    hide Num, Field, Salvaged;
    RawStays(Num(hdr, 1), s, more, COPY_CHUNK);
    ZipStays(c, Num(hdr, 1), Num(hdr, 2), s, more);
  }

  lemma {:induction false} PiecesStay(c: Codec, s: string, more: string)
    ensures RecvStays(s, RecvPieces(c, s), RecvPieces(c, s + more), more)
    decreases |s|
  {
    hide RecvPiece, Line, AfterLine;
    if s != "" {
      PieceStays(c, Line(s), AfterLine(s), more);
      if !Over(s, AfterLine(s)) { return; }
      LineStays(s, more);
      match RecvPiece(c, Line(s), AfterLine(s))
      case Cut(_) =>
      case Got(d, t) => if Line(s) != "E" { PiecesStay(c, t, more); }
    }
  }

  lemma BodyStays(c: Codec, hdr: string, s: string, more: string)
    ensures RecvStays(s, RecvBody(c, hdr, s), RecvBody(c, hdr, s + more), more)
  {
    hide RecvRaw, RecvPieces, Num;
    PiecesStay(c, s, more);
    RawStays(Num(hdr, 1), s, more, BLOCK_SIZE);
  }

  lemma {:induction false} ReadLinesStay(count: nat, s: string, more: string)
    requires ReadLines(count, s).Some? && Over(s, ReadLines(count, s).value.1)
    ensures ReadLines(count, s + more) == Some((ReadLines(count, s).value.0, ReadLines(count, s).value.1 + more))
    ensures Complete(s) ==> Complete(ReadLines(count, s).value.1)
    decreases count
  {
    hide Line, AfterLine;
    if count > 0 {
      LineStays(s, more);
      ReadLinesStay(count - 1, AfterLine(s), more);
    }
  }

  // ------------------------------------------------------------------ the client: items

  /** An item that is through stays through, with the same effect. */
  predicate StepStays(s: string, a: Step, b: Step, more: string) {
    a.Go? && Over(s, a.rest) ==> b == Go(a.st, a.rest + more) && (Complete(s) ==> Complete(a.rest))
  }

  lemma {:induction false} BodiesStay(site: Site, st: St, slots: seq<Option<Slot>>, s: string, stream: bool,
                                      more: string)
    ensures StepStays(s, Bodies(site, st, slots, s, stream), Bodies(site, st, slots, s + more, stream), more)
    decreases |slots|
  {
    hide RecvBundleFile, Line, AfterLine, Placed, Broken;
    if slots != [] {
      if slots[0].None? && !stream {
        BodiesStay(site, st, slots[1..], s, stream, more);
      } else if s != "" {
        PieceStays(site.codec, Line(s), AfterLine(s), more);
        if !Over(s, AfterLine(s)) { return; }
        LineStays(s, more);
        if Line(s) == "-1" {
          BodiesStay(site, st, slots[1..], AfterLine(s), stream, more);
        } else {
          match RecvBundleFile(site.codec, Line(s), AfterLine(s))
          case Cut(_) =>
          case Got(data, rest) => BodiesStay(site, Placed(st, slots[0], data), slots[1..], rest, stream, more);
        }
      }
    }
  }

  lemma BundleStays(site: Site, st: St, count: nat, s: string, stream: bool, more: string)
    ensures StepStays(s, HandleBundle(site, st, count, s, stream), HandleBundle(site, st, count, s + more, stream),
                      more)
  {
    hide Bodies, Plan, ReadLines, Frames.ParseAll, Mask;
    if ReadLines(count, s).Some? && Over(s, ReadLines(count, s).value.1) {
      var (ls, t) := ReadLines(count, s).value;
      var (st1, slots) := Plan(site, st, Frames.ParseAll(ls), stream);
      ReadLinesStay(count, s, more);
      BodiesStay(site, if stream then st1 else Say(st1, Mask(slots)), slots, t, stream, more);
    }
  }

  lemma LargeBodyStays(site: Site, st: St, slot: Option<Slot>, s: string, more: string)
    ensures StepStays(s, LargeBody(site, st, slot, s), LargeBody(site, st, slot, s + more), more)
  {
    hide RecvBody, Line, AfterLine, Placed, Broken;
    if s != "" && Over(s, AfterLine(s)) {
      LineStays(s, more);
      BodyStays(site.codec, Line(s), AfterLine(s), more);
    }
  }

  lemma DispatchStays(site: Site, st: St, h: string, s: string, stream: bool, more: string)
    ensures StepStays(s, Dispatch(site, st, h, s, stream), Dispatch(site, st, h, s + more, stream), more)
  {
    hide HandleBundle, HandleLarge, HandleDir, Trim, ParseThree;
    if StartsWith(h, "B ") {
      BundleStays(site, st, OrElse(ParseU64(Trim(h[2..])), 0), s, stream, more);
    } else if StartsWith(h, "F ") {
      match ParseThree(h[2..])
      case None =>
      case Some(e) => LargeStays(site, st, e, s, stream, more);
    }
  }

  lemma LargeStays(site: Site, st: St, e: Entry, s: string, stream: bool, more: string)
    ensures StepStays(s, HandleLarge(site, st, e, s, stream), HandleLarge(site, st, e, s + more, stream), more)
  {
    hide LargeBody, NeedFetch, SafeJoin, Note;
    match SafeJoin(site.to, e.rel) {
      case None => LargeBodyStays(site, st, None, s, more);
      case Some(p) =>
        var st1 := Note(site, st, e.rel, p);
        LargeBodyStays(site, if stream then st1 else Say(st1, "0"), Some(Slot(p, e.mtime)), s, more);
    }
  }

  // ------------------------------------------------------------------ the client: what it says

  lemma {:induction false} BodiesSilent(site: Site, st: St, slots: seq<Option<Slot>>, s: string, stream: bool)
    ensures Bodies(site, st, slots, s, stream).st.out == st.out
    decreases |slots|
  {
    hide RecvBundleFile, Line, AfterLine;
    if slots != [] {
      if slots[0].None? && !stream {
        BodiesSilent(site, st, slots[1..], s, stream);
      } else if s != "" {
        if Line(s) == "-1" {
          BodiesSilent(site, st, slots[1..], AfterLine(s), stream);
        } else {
          match RecvBundleFile(site.codec, Line(s), AfterLine(s))
          case Cut(partial) =>
          case Got(data, rest) => BodiesSilent(site, Placed(st, slots[0], data), slots[1..], rest, stream);
        }
      }
    }
  }

  /** The answer to a bundle, a function of its manifest alone. */
  function BundleReply(site: Site, st: St, count: nat, s: string, stream: bool): string {
    var r := ReadLines(count, s);
    if r.None? || stream then "" else Ln(Mask(Plan(site, st, Frames.ParseAll(r.value.0), stream).1))
  }

  /** A bundle is answered as soon as its manifest is in, whatever follows. */
  lemma BundleSays(site: Site, st: St, count: nat, s: string, stream: bool)
    ensures HandleBundle(site, st, count, s, stream).st.out == st.out + BundleReply(site, st, count, s, stream)
  {
    hide Bodies, Plan, ReadLines, Frames.ParseAll, Mask, Ln;
    assert st.out + "" == st.out;
    if ReadLines(count, s).Some? {
      var (ls, t) := ReadLines(count, s).value;
      var (st1, slots) := Plan(site, st, Frames.ParseAll(ls), stream);
      PlanSilent(site, st, Frames.ParseAll(ls), stream);
      BodiesSilent(site, if stream then st1 else Say(st1, Mask(slots)), slots, t, stream);
    }
  }

  /** A large file is answered at once. */
  lemma LargeSays(site: Site, st: St, e: Entry, s: string, stream: bool)
    ensures HandleLarge(site, st, e, s, stream).st.out ==
            if stream then st.out
            else st.out + Ln(var p := SafeJoin(site.to, e.rel);
                             if p.Some? && NeedFetch(st.files, p.value, e.size, e.mtime) then "0" else "-1")
  {
  }

  lemma DispatchGrows(site: Site, st: St, h: string, s: string, stream: bool)
    ensures Grown(st, Dispatch(site, st, h, s, stream).st)
  {
    hide HandleBundle, HandleLarge, Trim, ParseThree, Mask, SafeJoin, NeedFetch, RecordRoot;
    if StartsWith(h, "B ") {
      BundleSays(site, st, OrElse(ParseU64(Trim(h[2..])), 0), s, stream);
    } else if StartsWith(h, "F ") {
      match ParseThree(h[2..])
      case None =>
      case Some(e) => LargeSays(site, st, e, s, stream);
    }
  }

  lemma DispatchSaysMore(site: Site, st: St, h: string, s: string, stream: bool, more: string)
    requires Complete(s)
    ensures Grown(Dispatch(site, st, h, s, stream).st, Dispatch(site, st, h, s + more, stream).st)
  {
    hide HandleBundle, HandleLarge, Trim, ParseThree, SafeJoin, NeedFetch, RecordRoot, BundleReply;
    if StartsWith(h, "B ") {
      var n := OrElse(ParseU64(Trim(h[2..])), 0);
      BundleSays(site, st, n, s, stream);
      BundleSays(site, st, n, s + more, stream);
      ReplyGrows(site, st, n, s, stream, more);
      GrowBehind(st.out, BundleReply(site, st, n, s, stream), BundleReply(site, st, n, s + more, stream));
    } else if StartsWith(h, "F ") {
      match ParseThree(h[2..])
      case None =>
      case Some(e) =>
        LargeSays(site, st, e, s, stream);
        LargeSays(site, st, e, s + more, stream);
    }
  }

  lemma ReplyGrows(site: Site, st: St, count: nat, s: string, stream: bool, more: string)
    requires Complete(s)
    ensures BundleReply(site, st, count, s, stream) <= BundleReply(site, st, count, s + more, stream)
  {
    hide ReadLines, Plan, Frames.ParseAll, Mask, Ln;
    if ReadLines(count, s).Some? { ReadLinesStay(count, s, more); }
  }

  /** Nothing said is ever taken back, on any stream. */
  lemma {:induction false} ItemsGrow(site: Site, st: St, s: string)
    ensures Grown(st, Items(site, st, s).st)
    decreases |s|
  {
    hide Dispatch, Line, AfterLine;
    if s != "" {
      var h, t := Line(s), AfterLine(s);
      if h == "PASS-END" {
        BetweenGrow(site, st, t);
      } else if h == "PING" || StartsWith(h, "T ") {
        ItemsGrow(site, st, t);
      } else {
        DispatchGrows(site, st, h, t, false);
        match Dispatch(site, st, h, t, false)
        case Halt(st1) =>
        case Go(st1, u) =>
          ItemsGrow(site, st1, u);
          GrownTrans(st, st1, Items(site, st1, u).st);
      }
    }
  }

  lemma {:induction false} BetweenGrow(site: Site, st: St, s: string)
    ensures Grown(st, Between(site, st, s).st)
    decreases |s|
  {
    hide Line, AfterLine;
    if s != "" {
      var h, t := Line(s), AfterLine(s);
      if h == "PING" {
        BetweenGrow(site, st, t);
      } else if h == "GO" {
        ItemsGrow(site, st.(seen := {}), t);
      }
    }
  }

  lemma {:induction false} UnitsGrow(site: Site, st: St, s: string, stream: bool, n: nat)
    ensures Grown(st, Units(site, st, s, stream, n).0)
    decreases |s|
  {
    hide Dispatch, Line, AfterLine;
    if s != "" {
      var h, t := Line(s), AfterLine(s);
      if h == "PING" {
        UnitsGrow(site, st, t, stream, n);
      } else if h != "NOUNIT" {
        DispatchGrows(site, st, h, t, stream);
        match Dispatch(site, st, h, t, stream)
        case Halt(st1) =>
        case Go(st1, u) =>
          UnitsGrow(site, st1, u, stream, n + 1);
          GrownTrans(st, st1, Units(site, st1, u, stream, n + 1).0);
      }
    }
  }

  /** A run on more input has said at least as much, and a clean end stays what it is. */
  predicate FinishStays(a: Finish, b: Finish) { Grown(a.st, b.st) && (a.Clean? ==> b == a) }

  lemma {:induction false} ItemsStay(site: Site, st: St, s: string, more: string)
    requires Complete(s)
    ensures FinishStays(Items(site, st, s), Items(site, st, s + more))
    decreases |s|
  {
    hide Dispatch, Line, AfterLine;
    if s == "" {
      ItemsGrow(site, st, s + more);
    } else {
      LineStays(s, more);
      var h, t := Line(s), AfterLine(s);
      if h == "PASS-END" {
        BetweenStay(site, st, t, more);
      } else if h == "PING" || StartsWith(h, "T ") {
        ItemsStay(site, st, t, more);
      } else {
        DispatchSaysMore(site, st, h, t, false, more);
        DispatchStays(site, st, h, t, false, more);
        match Dispatch(site, st, h, t, false)
        case Go(st1, u) => ItemsStay(site, st1, u, more);
        case Halt(st1) =>
          match Dispatch(site, st, h, t + more, false)
          case Halt(_) =>
          case Go(st2, u) =>
            ItemsGrow(site, st2, u);
            GrownTrans(st1, st2, Items(site, st2, u).st);
      }
    }
  }

  lemma {:induction false} BetweenStay(site: Site, st: St, s: string, more: string)
    requires Complete(s)
    ensures FinishStays(Between(site, st, s), Between(site, st, s + more))
    decreases |s|
  {
    hide Line, AfterLine;
    if s == "" {
      BetweenGrow(site, st, s + more);
    } else {
      LineStays(s, more);
      var h, t := Line(s), AfterLine(s);
      if h == "PING" {
        BetweenStay(site, st, t, more);
      } else if h == "GO" {
        ItemsStay(site, st.(seen := {}), t, more);
      }
    }
  }

  // ------------------------------------------------------------------ the client: a stream cut short

  lemma {:induction false} TailKept(s: string, x: string)
    ensures StripTail(s) <= StripTail(s + x)
    decreases |x|
  {
    if x == "" {
      assert s + x == s;
      StripTailShape(s);
    } else {
      assert (s + x)[..|s + x| - 1] == s + x[..|x| - 1];
      TailKept(s, x[..|x| - 1]);
      StripTailShape(s);
    }
  }

  lemma {:induction false} LineEndGrows(s: string, more: string)
    requires LineEnd(s) == |s| && (s != "" ==> s[|s| - 1] != '\n')
    ensures LineEnd(s + more) >= |s|
  {
    if s != "" {
      assert (s + more)[1..] == s[1..] + more;
      LineEndGrows(s[1..], more);
    }
  }

  /** What a last line without a line break can still become. */
  lemma DoneStays(s: string, more: string)
    requires Line(s) == "DONE" && AfterLine(s) == "" && !Complete(s)
    ensures s + more != "" && "DONE" <= Line(s + more)
  {
    hide LineEnd, StripTail;
    LineEndGrows(s, more);
    var n := LineEnd(s + more);
    var x := more[..n - |s|];
    assert (s + more)[..n] == s + x && s[..LineEnd(s)] == s;
    TailKept(s, x);
    var a, b := StripTail(s), StripTail(s + x);
    assert b[..|a|] == a;
    if a[0] == '\r' { assert b[1..][..4] == a[1..]; } else { assert b[..4] == a; }
  }

  lemma {:induction false} ItemsCut(site: Site, st: St, s: string, more: string)
    requires Items(site, st, s).Clean? && Items(site, st, s + more).Clean?
    ensures Items(site, st, s + more) == Items(site, st, s)
    decreases |s|
  {
    hide Dispatch, Line, AfterLine;
    var h, t := Line(s), AfterLine(s);
    assert Over(s, t);
    LineStays(s, more);
    if h == "PASS-END" {
      BetweenCut(site, st, t, more);
    } else if h == "PING" || StartsWith(h, "T ") {
      ItemsCut(site, st, t, more);
    } else {
      DispatchStays(site, st, h, t, false, more);
      var step := Dispatch(site, st, h, t, false);
      assert step.Go? && step.rest != "";
      ItemsCut(site, step.st, step.rest, more);
    }
  }

  lemma {:induction false} BetweenCut(site: Site, st: St, s: string, more: string)
    requires Between(site, st, s).Clean? && Between(site, st, s + more).Clean?
    ensures Between(site, st, s + more) == Between(site, st, s)
    decreases |s|
  {
    hide Line, AfterLine;
    var h, t := Line(s), AfterLine(s);
    if h == "DONE" && t == "" && !Complete(s) {
      DoneStays(s, more);
    } else {
      assert Over(s, t);
      LineStays(s, more);
      if h == "PING" {
        BetweenCut(site, st, t, more);
      } else if h == "GO" {
        ItemsCut(site, st.(seen := {}), t, more);
      }
    }
  }

  /** A stream that is cut short, wherever that is, even inside a line, never passes for another complete run:
      either the run over what arrived does not end cleanly, and then nothing is deleted, or it ends exactly as
      the whole run does. */
  lemma CutIsHarmless(site: Site, ignored: string -> bool, st: St, s: string, k: nat)
    requires k <= |s| && Sync(site, st, s).Clean?
    ensures var cut := Sync(site, st, s[..k]);
            if cut.Clean? then cut == Sync(site, st, s) else Settled(site, ignored, cut) == cut.st.files
  {
    hide Items;
    var start := Say(st, "SYNC").(seen := {});
    assert s[..k] + s[k..] == s;
    if Items(site, start, s[..k]).Clean? { ItemsCut(site, start, s[..k], s[k..]); }
  }

  predicate UnitsResult(a: (St, bool, nat), b: (St, bool, nat)) { Grown(a.0, b.0) && (a.1 ==> b == a) }

  lemma {:induction false} UnitsStay(site: Site, st: St, s: string, stream: bool, n: nat, more: string)
    requires Complete(s)
    ensures UnitsResult(Units(site, st, s, stream, n), Units(site, st, s + more, stream, n))
    decreases |s|
  {
    hide Dispatch, Line, AfterLine;
    if s == "" {
      UnitsGrow(site, st, s + more, stream, n);
    } else {
      LineStays(s, more);
      var h, t := Line(s), AfterLine(s);
      if h == "PING" {
        UnitsStay(site, st, t, stream, n, more);
      } else if h != "NOUNIT" {
        DispatchSaysMore(site, st, h, t, stream, more);
        DispatchStays(site, st, h, t, stream, more);
        match Dispatch(site, st, h, t, stream)
        case Go(st1, u) => UnitsStay(site, st1, u, stream, n + 1, more);
        case Halt(st1) =>
          match Dispatch(site, st, h, t + more, stream)
          case Halt(_) =>
          case Go(st2, u) =>
            UnitsGrow(site, st2, u, stream, n + 1);
            GrownTrans(st1, st2, Units(site, st2, u, stream, n + 1).0);
      }
    }
  }

  // ------------------------------------------------------------------ the server

  lemma HeardStays(u: Unit, stream: bool, said: string, more: string)
    requires Complete(said) && HeardBy(u, stream, said).Some?
    ensures HeardBy(u, stream, said + more) == HeardBy(u, stream, said)
    ensures RestAfter(u, stream, said + more) == RestAfter(u, stream, said) + more
    ensures Complete(RestAfter(u, stream, said))
  {
    hide Line, AfterLine;
    if Waits(u, stream) { LineStays(said, more); }
  }

  lemma {:induction false} HeardAllStays(us: seq<Unit>, stream: bool, said: string, more: string)
    requires Complete(said) && HeardAll(us, stream, said).Some?
    ensures HeardAll(us, stream, said + more)
            == Some((HeardAll(us, stream, said).value.0, HeardAll(us, stream, said).value.1 + more))
    ensures Complete(HeardAll(us, stream, said).value.1)
    decreases |us|
  {
    hide HeardBy, RestAfter;
    if us != [] {
      HeardStays(us[0], stream, said, more);
      HeardAllStays(us[1..], stream, RestAfter(us[0], stream, said), more);
    }
  }

  /** A server that has its replies sends the same, one that still waits sends more. */
  lemma {:induction false} SentGrows(c: Codec, us: seq<Unit>, fs: seq<Framing>, ps: seq<nat>, stream: bool,
                                     said: string, more: string, end: string)
    requires Complete(said)
    ensures Sent(c, us, fs, ps, stream, said, end) <= Sent(c, us, fs, ps, stream, said + more, end)
    ensures HeardAll(us, stream, said).Some? ==>
              Sent(c, us, fs, ps, stream, said + more, end) == Sent(c, us, fs, ps, stream, said, end)
    decreases |us|
  {
    hide HeardBy, RestAfter, UnitBytes, Pings, Offer;
    if us != [] {
      if HeardBy(us[0], stream, said).Some? {
        HeardStays(us[0], stream, said, more);
        var said1 := RestAfter(us[0], stream, said);
        SentGrows(c, us[1..], Later(fs), Later(ps), stream, said1, more, end);
        var head := if fs == [] then Offer(us[0]) else UnitSent(c, us[0], fs[0], HeardBy(us[0], stream, said).value);
        var a := Sent(c, us[1..], Later(fs), Later(ps), stream, said1, end);
        var b := Sent(c, us[1..], Later(fs), Later(ps), stream, said1 + more, end);
        GrowBehind(head, a, b);
        GrowBehind(Pings(Gap(ps)), head + a, head + b);
      } else {
        OfferFirst(c, us, fs, ps, stream, said + more, end);
      }
    }
  }

  lemma OfferFirst(c: Codec, us: seq<Unit>, fs: seq<Framing>, ps: seq<nat>, stream: bool, said: string, end: string)
    requires us != []
    ensures Pings(Gap(ps)) + Offer(us[0]) <= Sent(c, us, fs, ps, stream, said, end)
  {
    hide Offer, HeardBy, RestAfter, Pings, Answer;
    match HeardBy(us[0], stream, said)
    case None =>
    case Some(r) =>
      var head := if fs == [] then Offer(us[0]) else UnitSent(c, us[0], fs[0], r);
      GrowBehind(Pings(Gap(ps)), Offer(us[0]),
                 head + Sent(c, us[1..], Later(fs), Later(ps), stream, RestAfter(us[0], stream, said), end));
  }

  /** The text of a server that waits ends with an offer, so with a whole line. */
  lemma {:induction false} SentComplete(c: Codec, us: seq<Unit>, fs: seq<Framing>, ps: seq<nat>, stream: bool,
                                        said: string, end: string)
    requires HeardAll(us, stream, said).None?
    ensures Sent(c, us, fs, ps, stream, said, end) != "" && Complete(Sent(c, us, fs, ps, stream, said, end))
    decreases |us|
  {
    hide HeardBy, RestAfter, UnitSent, Pings, Offer, Complete;
    var p := Pings(Gap(ps));
    match HeardBy(us[0], stream, said)
    case None =>
      OfferComplete(us[0], stream, said);
      CompleteEnd(p, Offer(us[0]));
    case Some(r) =>
      var head := if fs == [] then Offer(us[0]) else UnitSent(c, us[0], fs[0], r);
      var said1 := RestAfter(us[0], stream, said);
      SentComplete(c, us[1..], Later(fs), Later(ps), stream, said1, end);
      var tail := Sent(c, us[1..], Later(fs), Later(ps), stream, said1, end);
      CompleteEnd(head, tail);
      CompleteEnd(p, head + tail);
  }

  lemma {:induction false} LinesComplete(ls: seq<string>)
    ensures Complete(LinesBytes(ls))
  {
    if ls != [] {
      LnComplete(ls[0]);
      LinesComplete(ls[1..]);
    }
  }

  lemma OfferComplete(u: Unit, stream: bool, said: string)
    requires HeardBy(u, stream, said).None?
    ensures Offer(u) != "" && Complete(Offer(u))
  {
    hide LinesBytes, EntryLines, EntryLine, Dec, Complete;
    match u {
      case Bundle(ds) =>
        LnComplete("B " + Dec(|ds|));
        LinesComplete(EntryLines(Entries(ds)));
        CompleteEnd(Ln("B " + Dec(|ds|)), LinesBytes(EntryLines(Entries(ds))));
      case Large(d) => LnComplete("F " + EntryLine(EntryOf(d)));
      case Dir(_) =>
    }
  }

  // ------------------------------------------------------------------ the server: commands

  lemma BeyondStays(cfg: Config, said: string, more: string)
    requires Complete(said) && BeyondSync(cfg, said).Some?
    ensures BeyondSync(cfg, said + more) == Some(BeyondSync(cfg, said).value + more)
    ensures Complete(BeyondSync(cfg, said).value)
  {
    hide HeardAll, FirstUnits, SecondUnits;
    HeardAllStays(FirstUnits(cfg), false, said, more);
    var rest := HeardAll(FirstUnits(cfg), false, said).value.1;
    if cfg.cutover { HeardAllStays(SecondUnits(cfg), false, rest, more); }
  }

  lemma SecondGrows(cfg: Config, t: Talk, said: string, more: string)
    requires Complete(said)
    ensures SecondSent(cfg, t, said) <= SecondSent(cfg, t, said + more)
    ensures HeardAll(SecondUnits(cfg), false, said).Some? ==>
              SecondSent(cfg, t, said + more) == SecondSent(cfg, t, said)
  {
    hide HeardAll, Sent, SecondUnits, Ln;
    var us := SecondUnits(cfg);
    SentGrows(cfg.codec, us, t.fs2, [], false, said, more, "");
    var a, b := Sent(cfg.codec, us, t.fs2, [], false, said, ""), Sent(cfg.codec, us, t.fs2, [], false, said + more, "");
    if HeardAll(us, false, said).Some? {
      HeardAllStays(us, false, said, more);
    } else {
      assert a + "" == a;
      var tail := if HeardAll(us, false, said + more).None? then "" else Ln("PASS-END") + Ln("DONE");
      assert a <= b + tail;
      GrowBehind(Ln("T 0"), a, b + tail);
    }
  }

  lemma SyncGrows(cfg: Config, t: Talk, said: string, more: string)
    requires Complete(said)
    ensures SyncSent(cfg, t, said) <= SyncSent(cfg, t, said + more)
    ensures BeyondSync(cfg, said).Some? ==> SyncSent(cfg, t, said + more) == SyncSent(cfg, t, said)
  {
    hide HeardAll, Sent, FirstUnits, SecondUnits, Ln, SecondSent, Pings;
    var us := FirstUnits(cfg);
    SentGrows(cfg.codec, us, t.fs, [], false, said, more, "");
    var a, b := Sent(cfg.codec, us, t.fs, [], false, said, ""), Sent(cfg.codec, us, t.fs, [], false, said + more, "");
    if HeardAll(us, false, said).Some? {
      HeardAllStays(us, false, said, more);
      var rest := HeardAll(us, false, said).value.1;
      BehindGrows(cfg, t, rest, more);
      GrowBehind(Ln("PASS-END"), BehindFirst(cfg, t, rest), BehindFirst(cfg, t, rest + more));
      GrowBehind(a, Ln("PASS-END") + BehindFirst(cfg, t, rest), Ln("PASS-END") + BehindFirst(cfg, t, rest + more));
      GrowBehind(Ln("T 0"), a + (Ln("PASS-END") + BehindFirst(cfg, t, rest)),
                 a + (Ln("PASS-END") + BehindFirst(cfg, t, rest + more)));
    } else {
      assert a + "" == a;
      var tail := match HeardAll(us, false, said + more)
                  case None => "" case Some(heard) => Ln("PASS-END") + BehindFirst(cfg, t, heard.1);
      assert a <= b + tail;
      GrowBehind(Ln("T 0"), a, b + tail);
    }
  }

  lemma BehindGrows(cfg: Config, t: Talk, said: string, more: string)
    requires Complete(said)
    ensures BehindFirst(cfg, t, said) <= BehindFirst(cfg, t, said + more)
    ensures !cfg.cutover || HeardAll(SecondUnits(cfg), false, said).Some? ==>
              BehindFirst(cfg, t, said + more) == BehindFirst(cfg, t, said)
  {
    hide HeardAll, SecondSent, SecondUnits, Ln, Pings;
    SecondGrows(cfg, t, said, more);
    GrowBehind(Ln("GO"), SecondSent(cfg, t, said), SecondSent(cfg, t, said + more));
    GrowBehind(Pings(t.pings), Ln("GO") + SecondSent(cfg, t, said), Ln("GO") + SecondSent(cfg, t, said + more));
  }

  /** The whole command loop. */
  lemma {:induction false} CommandsGrow(cfg: Config, ts: seq<Talk>, said: string, more: string)
    requires Complete(said)
    ensures CommandsSent(cfg, ts, said) <= CommandsSent(cfg, ts, said + more)
    decreases |said|
  {
    hide Line, AfterLine, SyncSent, BeyondSync, Ln;
    if said != "" && Line(said) != "BYE" {
      LineStays(said, more);
      var h, rest := Line(said), AfterLine(said);
      if h == "SYNC" {
        SyncGrows(cfg, NextTalk(ts), rest, more);
        OneSync(cfg, ts, said, more);
      } else {
        CommandsGrow(cfg, ts, rest, more);
        GrowBehind(Ln("ERR cmd"), CommandsSent(cfg, ts, rest), CommandsSent(cfg, ts, rest + more));
      }
    } else if said != "" {
      LineStays(said, more);
    }
  }

  lemma OneSync(cfg: Config, ts: seq<Talk>, said: string, more: string)
    requires Complete(said) && said != "" && Line(said) == "SYNC"
    ensures CommandsSent(cfg, ts, said) <= CommandsSent(cfg, ts, said + more)
    decreases |said|, 0
  {
    hide Line, AfterLine, SyncSent, BeyondSync;
    LineStays(said, more);
    var rest := AfterLine(said);
    var a, b := SyncSent(cfg, NextTalk(ts), rest), SyncSent(cfg, NextTalk(ts), rest + more);
    SyncGrows(cfg, NextTalk(ts), rest, more);
    if BeyondSync(cfg, rest).Some? {
      BeyondStays(cfg, rest, more);
      BeyondShrinks(cfg, rest);
      BeyondShrinks(cfg, rest + more);
      var rest1 := BeyondSync(cfg, rest).value;
      CommandsGrow(cfg, Later(ts), rest1, more);
      GrowBehind(a, CommandsSent(cfg, Later(ts), rest1), CommandsSent(cfg, Later(ts), rest1 + more));
    } else {
      assert a + "" == a;
    }
  }
}
