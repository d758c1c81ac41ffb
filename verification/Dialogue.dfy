/** The two ends together: the server, fed with the client's own replies, sends exactly the bytes on
    which the client gives those replies. */
module Dialogue {
  import opened Text
  import opened Wire
  import opened Frames
  import opened Paths
  import opened Receiver
  import opened Transcript
  import opened Tally
  import opened Sender
  import opened Pass

  /** The line the client says to a unit, if any. */
  function Said(site: Site, st: St, u: Unit, stream: bool): string {
    if stream then "" else match Reply(site, st, u) case None => "" case Some(r) => Ln(r)
  }

  /** Everything the client says to a sequence of units. */
  function Replies(site: Site, st: St, us: seq<Unit>, stream: bool): string
    decreases |us|
  {
    if us == [] then ""
    else Said(site, st, us[0], stream) + Replies(site, Apply(site, st, us[0], stream), us[1..], stream)
  }

  /** The replies the server works with, unit by unit. */
  function HeardList(site: Site, st: St, us: seq<Unit>, stream: bool): (rs: seq<string>)
    ensures |rs| == |us|
    decreases |us|
  {
    if us == [] then []
    else [Heard(site, st, us[0], stream)] + HeardList(site, Apply(site, st, us[0], stream), us[1..], stream)
  }

  lemma SayOnce(site: Site, st: St, u: Unit, stream: bool)
    ensures Apply(site, st, u, stream).out == st.out + Said(site, st, u, stream)
  {
    hide SafeJoin, RootOf, NeedFetch, Mask, Ln;
    assert st.out + "" == st.out;
    match u {
      case Dir(rel) =>
      case Bundle(ds) =>
        if ds != [] {
          PlanSilent(site, st, Known(Entries(ds)), stream);
          var (st1, slots) := Plan(site, st, Known(Entries(ds)), stream);
          WriteAllSilent(if stream then st1 else Say(st1, Mask(slots)), slots, ds);
        }
      case Large(d) => LargeSaysOnce(site, st, d, stream);
    }
  }

  lemma LargeSaysOnce(site: Site, st: St, d: Doc, stream: bool)
    ensures Apply(site, st, Large(d), stream).out
            == if stream then st.out else st.out + Ln(if Wanted(site, st.files, d) then "0" else "-1")
  {
  }

  lemma {:induction false} PlanSilent(site: Site, st: St, items: seq<Option<Entry>>, stream: bool)
    ensures Plan(site, st, items, stream).0.out == st.out
    decreases |items|
  {
    hide SafeJoin, RootOf, NeedFetch;
    if items != [] {
      PlanSilent(site, PlanOne(site, st, items[0], stream).0, items[1..], stream);
    }
  }

  lemma {:induction false} WriteAllSilent(st: St, slots: seq<Option<Slot>>, ds: seq<Doc>)
    requires |slots| == |ds|
    ensures WriteAll(st, slots, ds).out == st.out
    decreases |ds|
  {
    if ds != [] {
      WriteAllSilent(if ds[0].body.None? then st else Placed(st, slots[0], ds[0].body.value), slots[1..], ds[1..]);
    }
  }

  /** What the client says is its replies, nothing else; streaming it says nothing. */
  lemma {:induction false} SaysItsReplies(site: Site, st: St, us: seq<Unit>, stream: bool)
    ensures ApplyAll(site, st, us, stream).out == st.out + Replies(site, st, us, stream)
    decreases |us|
  {
    hide Apply, Said;
    if us == [] {
      assert st.out + "" == st.out;
    } else {
      var st1 := Apply(site, st, us[0], stream);
      SayOnce(site, st, us[0], stream);
      SaysItsReplies(site, st1, us[1..], stream);
      Regroup3(st.out, Said(site, st, us[0], stream), Replies(site, st1, us[1..], stream));
    }
  }

  // ------------------------------------------------------------------ the server hears them

  lemma {:induction false} MaskPlain(slots: seq<Option<Slot>>)
    ensures Avoids(Mask(slots), {'\n', '\r'})
  {
    if slots != [] { MaskPlain(slots[1..]); }
  }

  /** A unit waits for a reply exactly when the client gives one, and the reply is a line. */
  lemma ReplyIsALine(site: Site, st: St, u: Unit, stream: bool)
    ensures Waits(u, stream) <==> !stream && Reply(site, st, u).Some?
    ensures Reply(site, st, u).Some? ==> LineSafe(Reply(site, st, u).value)
    ensures u.Large? ==> Offset(Heard(site, st, u, stream)) <= 0
  {
    hide Plan, Known, Wanted, Mask;
    OffsetReplies();
    if u.Bundle? && u.docs != [] {
      MaskPlain(Plan(site, st, Known(Entries(u.docs)), false).1);
      Safe(Mask(Plan(site, st, Known(Entries(u.docs)), false).1));
    }
    Safe("0");
    Safe("-1");
  }

  lemma Safe(l: string)
    requires Avoids(l, {'\n', '\r'})
    ensures LineSafe(l)
  {
  }

  lemma HearsOne(site: Site, st: St, u: Unit, more: string, stream: bool)
    ensures var said := Said(site, st, u, stream) + more;
            HeardBy(u, stream, said) == Some(Heard(site, st, u, stream)) && RestAfter(u, stream, said) == more
  {
    hide Plan, Known, Wanted, Mask, Offset;
    ReplyIsALine(site, st, u, stream);
    var r := Reply(site, st, u);
    if !stream && r.Some? {
      LineOf(r.value, more);
    } else {
      assert "" + more == more;
      assert Ones(0) == "";
    }
  }

  /** Fed with the client's replies the server hears them, one for each unit that waits, and leaves what
      the client says afterwards untouched. */
  lemma {:induction false} HearsTheReplies(site: Site, st: St, us: seq<Unit>, more: string, stream: bool)
    ensures HeardAll(us, stream, Replies(site, st, us, stream) + more) == Some((HeardList(site, st, us, stream), more))
    decreases |us|
  {
    hide Apply, Said, Heard, HeardBy, RestAfter;
    if us == [] {
      assert "" + more == more;
    } else {
      var st1 := Apply(site, st, us[0], stream);
      var r := Said(site, st, us[0], stream);
      Regroup3(r, Replies(site, st1, us[1..], stream), more);
      HearsOne(site, st, us[0], Replies(site, st1, us[1..], stream) + more, stream);
      HearsTheReplies(site, st1, us[1..], more, stream);
    }
  }

  lemma ServesTheUnit(site: Site, st: St, u: Unit, f: Framing, stream: bool)
    requires FramingOk(site.codec, u, f)
    ensures var r := Heard(site, st, u, stream);
            FramedAs(site.codec, u, f, r) && UnitSent(site.codec, u, f, r) == UnitBytes(site.codec, u, f, r)
  {
    hide Offset, Reply, UnitBytes, BlockOk, BodyOk, BodyData;
    ReplyIsALine(site, st, u, stream);
    FramedFromTheStart(site.codec, u, f, Heard(site, st, u, stream));
  }

  /** ... and sends the pass the client expects, with the totals the client will confirm. */
  lemma {:induction false} ServesThePass(site: Site, st: St, us: seq<Unit>, fs: seq<Framing>, stream: bool,
                                         more: string, end: string)
    requires PassOk(site.codec, us, fs)
    ensures Sent(site.codec, us, fs, [], stream, Replies(site, st, us, stream) + more, end)
            == PassBytes(site, st, us, fs, stream) + end
    decreases |us|
  {
    hide Apply, Heard, UnitBytes, UnitSent, UnitOk, BlockOk, BodyOk, BodyData, HeardBy, RestAfter, Said, Pings;
    if us == [] {
      assert Pings(0) == "" by { NoPings(); }
    } else {
      var st1 := Apply(site, st, us[0], stream);
      var bytes := UnitBytes(site.codec, us[0], fs[0], Heard(site, st, us[0], stream));
      var said, rest := Said(site, st, us[0], stream), PassBytes(site, st1, us[1..], fs[1..], stream);
      ServesTheUnit(site, st, us[0], fs[0], stream);
      HearsOne(site, st, us[0], Replies(site, st1, us[1..], stream) + more, stream);
      Regroup3(said, Replies(site, st1, us[1..], stream), more);
      ServesThePass(site, st1, us[1..], fs[1..], stream, more, end);
      NoPings();
      assert "" + (bytes + (rest + end)) == bytes + (rest + end);
      Regroup3(bytes, rest, end);
    }
  }

  lemma NoPings()
    ensures Pings(0) == "" && Gap([]) == 0 && Later<nat>([]) == []
    ensures forall end: string :: "" + end == end
  {
  }

  lemma {:induction false} CountsThePass(site: Site, st: St, us: seq<Unit>, fs: seq<Framing>, stream: bool)
    requires PassOk(site.codec, us, fs)
    ensures FramedAll(site.codec, us, fs, HeardList(site, st, us, stream))
    ensures ServedTotals(site.codec, us, fs, HeardList(site, st, us, stream)) == PassTotals(site, st, us, fs, stream)
    decreases |us|
  {
    hide Apply, Heard, UnitTotals, UnitOk, FramedAs, FramingOk;
    if us != [] {
      var st1 := Apply(site, st, us[0], stream);
      ServesTheUnit(site, st, us[0], fs[0], stream);
      CountsThePass(site, st1, us[1..], fs[1..], stream);
      assert HeardList(site, st, us, stream)[1..] == HeardList(site, st1, us[1..], stream);
    }
  }
}
