/** What the server sends for its units of work, given the client's replies; the effect a unit is
    meant to have at the client; and the proof that the receiver turns the one into the other. */
module Transcript {
  import opened Text
  import opened Wire
  import opened Frames
  import opened Paths
  import opened Receiver

  /** A file the server offers: its name, the size and time it announces, and what reading it
      yields, `None` when it cannot be opened. */
  datatype Doc = Doc(rel: string, size: nat, mtime: int, body: Option<string>)

  datatype Unit = Dir(rel: string) | Bundle(docs: seq<Doc>) | Large(doc: Doc)

  function EntryOf(d: Doc): Entry { Entry(d.size, d.mtime, d.rel) }

  function Entries(docs: seq<Doc>): (es: seq<Entry>)
    ensures |es| == |docs|
  {
    if docs == [] then [] else [EntryOf(docs[0])] + Entries(docs[1..])
  }

  function UnitDocs(u: Unit): seq<Doc> {
    match u case Dir(_) => [] case Bundle(ds) => ds case Large(d) => [d]
  }

  function AllDocs(us: seq<Unit>): seq<Doc> {
    if us == [] then [] else UnitDocs(us[0]) + AllDocs(us[1..])
  }

  /** Units a server can put on the wire. */
  predicate UnitOk(u: Unit) {
    match u
    case Dir(rel) => RelOk(rel)
    case Bundle(ds) => |ds| <= U64_MAX && forall i | 0 <= i < |ds| :: EntryOk(EntryOf(ds[i]))
    case Large(d) => EntryOk(EntryOf(d))
  }

  predicate UnitsOk(us: seq<Unit>) { forall i | 0 <= i < |us| :: UnitOk(us[i]) }

  // ------------------------------------------------------------------ the server's bytes

  /** The server's free choices for one unit: how it frames each body. */
  datatype Framing = Framing(blocks: seq<Block>, body: Body)

  /** One block for each readable file, holding its bytes. */
  predicate BlocksFor(c: Codec, ds: seq<Doc>, bs: seq<Block>) {
    |bs| == |ds| && forall i | 0 <= i < |ds| :: ds[i].body.Some? ==> BlockOk(c, bs[i]) && bs[i].data == ds[i].body.value
  }

  /** The choices are about the right bytes. */
  predicate FramingOk(c: Codec, u: Unit, f: Framing) {
    match u
    case Dir(_) => true
    case Bundle(ds) => BlocksFor(c, ds, f.blocks)
    case Large(d) => d.body.Some? ==> BodyOk(c, f.body) && BodyData(f.body) == d.body.value
  }

  /** One entry of a bundle: nothing if unwanted, `-1` if it cannot be read. */
  function DocBytes(c: Codec, d: Doc, b: Block, wanted: bool): string {
    if !wanted then "" else if d.body.None? then Ln("-1") else BlockBytes(c, b)
  }

  function DocsBytes(c: Codec, ds: seq<Doc>, bs: seq<Block>, mask: string): string
    requires |bs| == |ds|
    decreases |ds|
  {
    if ds == [] then ""
    else DocBytes(c, ds[0], bs[0], mask != "" && mask[0] == '1')
         + DocsBytes(c, ds[1..], bs[1..], if mask == "" then "" else mask[1..])
  }

  function Offer(u: Unit): string {
    match u
    case Dir(rel) => Ln("D " + rel)
    case Bundle(ds) => if ds == [] then "" else Ln("B " + Dec(|ds|)) + LinesBytes(EntryLines(Entries(ds)))
    case Large(d) => Ln("F " + EntryLine(EntryOf(d)))
  }

  /** `resp.trim().parse().unwrap_or(-1)`. */
  function Offset(reply: string): int { OrElse(ParseI64(Trim(reply)), -1) }

  /** What follows the offer once the reply is known. */
  function Answer(c: Codec, u: Unit, f: Framing, reply: string): string
    requires u.Bundle? ==> |f.blocks| == |u.docs|
  {
    match u
    case Dir(_) => ""
    case Bundle(ds) => DocsBytes(c, ds, f.blocks, reply)
    case Large(d) => if Offset(reply) < 0 then "" else if d.body.None? then Ln("-1") else BodyBytes(c, f.body)
  }

  // ------------------------------------------------------------------ the meant effect

  function Ones(n: nat): string { seq(n, _ => '1') }

  /** The reply the client gives to an offer, `None` where the server does not wait for one. */
  function Reply(site: Site, st: St, u: Unit): Option<string> {
    match u
    case Dir(_) => None
    case Bundle(ds) => if ds == [] then None else Some(Mask(Plan(site, st, Known(Entries(ds)), false).1))
    case Large(d) => Some(if Wanted(site, st.files, d) then "0" else "-1")
  }

  predicate Wanted(site: Site, files: Files, d: Doc) {
    var p := SafeJoin(site.to, d.rel);
    p.Some? && NeedFetch(files, p.value, d.size, d.mtime)
  }

  /** The reply the server works with: its own all-ones when it streams. */
  function Heard(site: Site, st: St, u: Unit, stream: bool): string {
    match u
    case Dir(_) => ""
    case Bundle(ds) => if stream then Ones(|ds|) else OrElse(Reply(site, st, u), "")
    case Large(d) => if stream then "0" else OrElse(Reply(site, st, u), "")
  }

  /** The wanted, readable files of a planned bundle, written in order. */
  function WriteAll(st: St, slots: seq<Option<Slot>>, ds: seq<Doc>): St
    requires |slots| == |ds|
    decreases |ds|
  {
    if ds == [] then st
    else WriteAll(if ds[0].body.None? then st else Placed(st, slots[0], ds[0].body.value), slots[1..], ds[1..])
  }

  /** The effect of a unit: every safe name is recorded, every wanted and readable file is written. */
  function Apply(site: Site, st: St, u: Unit, stream: bool): St {
    match u
    case Dir(rel) => HandleDir(site, st, rel)
    case Bundle(ds) =>
      if ds == [] then st
      else
        var (st1, slots) := Plan(site, st, Known(Entries(ds)), stream);
        WriteAll(if stream then st1 else Say(st1, Mask(slots)), slots, ds)
    case Large(d) =>
      var (st1, slot) := PlanOne(site, st, Some(EntryOf(d)), stream);
      var st2 := if stream then st1 else Say(st1, if slot.Some? then "0" else "-1");
      if d.body.None? then st2 else Placed(st2, slot, d.body.value)
  }

  function ApplyAll(site: Site, st: St, us: seq<Unit>, stream: bool): St
    decreases |us|
  {
    if us == [] then st else ApplyAll(site, Apply(site, st, us[0], stream), us[1..], stream)
  }

  // ------------------------------------------------------------------ bundles

  lemma {:induction false} EntriesOk(ds: seq<Doc>)
    requires forall i | 0 <= i < |ds| :: EntryOk(EntryOf(ds[i]))
    ensures forall i | 0 <= i < |ds| :: EntryOk(Entries(ds)[i]) && Entries(ds)[i] == EntryOf(ds[i])
  {
    if ds != [] {
      EntriesOk(ds[1..]);
    }
  }

  /** Does the server's mask agree with the client's slots? Without masks it wants everything. */
  predicate Agrees(mask: string, slots: seq<Option<Slot>>, stream: bool) {
    |mask| == |slots| && forall i | 0 <= i < |slots| :: mask[i] == '1' <==> stream || slots[i].Some?
  }

  lemma {:induction false} MaskAgrees(slots: seq<Option<Slot>>)
    ensures Agrees(Mask(slots), slots, false)
  {
    if slots != [] {
      MaskAgrees(slots[1..]);
    }
  }

  lemma LockedEntry(site: Site, st: St, slots: seq<Option<Slot>>, more: string, stream: bool)
    requires slots != [] && (stream || slots[0].Some?)
    ensures Bodies(site, st, slots, Ln("-1") + more, stream) == Bodies(site, st, slots[1..], more, stream)
  {
    LineOf("-1", more);
  }

  lemma SentEntry(site: Site, st: St, slots: seq<Option<Slot>>, b: Block, more: string, stream: bool)
    requires Lawful(site.codec) && BlockOk(site.codec, b)
    requires slots != [] && (stream || slots[0].Some?)
    ensures Bodies(site, st, slots, BlockBytes(site.codec, b) + more, stream)
            == Bodies(site, Placed(st, slots[0], b.data), slots[1..], more, stream)
  {
    var h, p := BlockHeader(site.codec, b), BlockPayload(site.codec, b);
    BlockRoundTrip(site.codec, b, more);
    Regroup3(Ln(h), p, more);
    LineOf(h, p + more);
  }

  /** Any mix of wanted, declined, locked and unsafe entries: the receiver stays in step and
      writes exactly the wanted, readable files. */
  lemma {:induction false} BodiesRoundTrip(site: Site, st: St, slots: seq<Option<Slot>>,
                                           ds: seq<Doc>, bs: seq<Block>, mask: string, rest: string, stream: bool)
    requires Lawful(site.codec) && |ds| == |slots| && BlocksFor(site.codec, ds, bs)
    requires Agrees(mask, slots, stream)
    ensures Bodies(site, st, slots, DocsBytes(site.codec, ds, bs, mask) + rest, stream)
            == Go(WriteAll(st, slots, ds), rest)
    decreases |ds|
  {
    var c := site.codec;
    if ds == [] {
      assert DocsBytes(c, ds, bs, mask) + rest == rest;
    } else {
      var more := DocsBytes(c, ds[1..], bs[1..], mask[1..]) + rest;
      Regroup3(DocBytes(c, ds[0], bs[0], mask[0] == '1'), DocsBytes(c, ds[1..], bs[1..], mask[1..]), rest);
      var st1 := if ds[0].body.None? then st else Placed(st, slots[0], ds[0].body.value);
      assert Agrees(mask[1..], slots[1..], stream);
      assert BlocksFor(c, ds[1..], bs[1..]);
      BodiesRoundTrip(site, st1, slots[1..], ds[1..], bs[1..], mask[1..], rest, stream);
      if mask[0] != '1' {
        assert "" + more == more;
      } else if ds[0].body.None? {
        LockedEntry(site, st, slots, more, stream);
      } else {
        SentEntry(site, st, slots, bs[0], more, stream);
      }
    }
  }

  lemma CountLine(n: nat)
    requires n <= U64_MAX
    ensures var h := "B " + Dec(n); LineSafe(h) && OrElse(ParseU64(Trim(h[2..])), 0) == n
  {
    DecIsPlain(n);
    PlainConcat("B ", Dec(n));
    ParseDec(n);
    assert ("B " + Dec(n))[2..] == Dec(n);
    TrimDigits(Dec(n));
  }

  lemma TrimDigits(s: string)
    requires s != "" && AllDigits(s)
    ensures Trim(s) == s
  {
  }

  /** What `handle_bundle` does once the manifest is in. */
  lemma BundleUnfolds(site: Site, st: St, count: nat, s: string, ls: seq<string>, t: string, stream: bool)
    requires ReadLines(count, s) == Some((ls, t))
    ensures HandleBundle(site, st, count, s, stream) ==
            var (st1, slots) := Plan(site, st, ParseAll(ls), stream);
            Bodies(site, if stream then st1 else Say(st1, Mask(slots)), slots, t, stream)
  {
  }

  lemma HeardAgrees(site: Site, st: St, ds: seq<Doc>, stream: bool)
    requires ds != []
    ensures Agrees(Heard(site, st, Bundle(ds), stream), Plan(site, st, Known(Entries(ds)), stream).1, stream)
  {
    hide Plan, Known;
    MaskAgrees(Plan(site, st, Known(Entries(ds)), stream).1);
  }

  lemma BundleRoundTrip(site: Site, st: St, ds: seq<Doc>, f: Framing, rest: string, stream: bool)
    requires Lawful(site.codec) && ds != [] && |f.blocks| == |ds|
    requires UnitOk(Bundle(ds)) && FramingOk(site.codec, Bundle(ds), f)
    ensures HandleBundle(site, st, |ds|,
                         LinesBytes(EntryLines(Entries(ds)))
                         + (DocsBytes(site.codec, ds, f.blocks, Heard(site, st, Bundle(ds), stream)) + rest), stream)
            == Go(Apply(site, st, Bundle(ds), stream), rest)
  {
    hide Bodies, ReadLines, ParseAll, WriteAll, Plan, EntryLines, LinesBytes, DocsBytes, HandleBundle, EntryOk,
         BlocksFor, Lawful, Heard, Known, Entries, Mask, Agrees;
    EntriesOk(ds);
    var mask := Heard(site, st, Bundle(ds), stream);
    var lines, tail := EntryLines(Entries(ds)), DocsBytes(site.codec, ds, f.blocks, mask) + rest;
    ManifestRoundTrip(Entries(ds), tail);
    BundleUnfolds(site, st, |ds|, LinesBytes(lines) + tail, lines, tail, stream);
    var (st1, slots) := Plan(site, st, Known(Entries(ds)), stream);
    HeardAgrees(site, st, ds, stream);
    BodiesRoundTrip(site, if stream then st1 else Say(st1, Mask(slots)), slots, ds, f.blocks, mask, rest, stream);
  }

  // ------------------------------------------------------------------ large files

  lemma LargeBodyRoundTrip(site: Site, st: St, slot: Option<Slot>, d: Doc, b: Body, rest: string)
    requires Lawful(site.codec)
    requires d.body.Some? ==> BodyOk(site.codec, b) && BodyData(b) == d.body.value
    ensures LargeBody(site, st, slot, (if d.body.None? then Ln("-1") else BodyBytes(site.codec, b)) + rest)
            == Go(if d.body.None? then st else Placed(st, slot, d.body.value), rest)
  {
    if d.body.None? {
      LineOf("-1", rest);
    } else {
      BodyRoundTrip(site.codec, b, rest);
      Regroup3(Ln(BodyHeader(b)), BodyRest(site.codec, b), rest);
      LineOf(BodyHeader(b), BodyRest(site.codec, b) + rest);
    }
  }

  lemma OffsetReplies()
    ensures Offset("0") == 0 && Offset("-1") == -1
  {
  }

  lemma LargeRoundTrip(site: Site, st: St, d: Doc, f: Framing, rest: string, stream: bool)
    requires Lawful(site.codec) && FramingOk(site.codec, Large(d), f)
    ensures HandleLarge(site, st, EntryOf(d),
                        Answer(site.codec, Large(d), f, Heard(site, st, Large(d), stream)) + rest, stream)
            == Go(Apply(site, st, Large(d), stream), rest)
  {
    hide LargeBody, BodyBytes, NeedFetch, Offset, ParseThree;
    OffsetReplies();
    var p := SafeJoin(site.to, d.rel);
    var (st1, slot) := PlanOne(site, st, Some(EntryOf(d)), stream);
    var st2 := if stream then st1 else Say(st1, if slot.Some? then "0" else "-1");
    if stream || slot.Some? {
      LargeBodyRoundTrip(site, st2, slot, d, f.body, rest);
    } else {
      assert "" + rest == rest;
    }
  }

  // ------------------------------------------------------------------ one unit

  /** The client takes the head of `s` to the meant effect of `u` and stops at `rest`; the head line
      is not one the item loops keep for themselves. */
  predicate Carries(site: Site, st: St, u: Unit, s: string, rest: string, stream: bool) {
    s != ""
    && Line(s) !in {"PASS-END", "PING", "NOUNIT"} && !StartsWith(Line(s), "T ")
    && Dispatch(site, st, Line(s), AfterLine(s), stream) == Go(Apply(site, st, u, stream), rest)
  }

  function UnitBytes(c: Codec, u: Unit, f: Framing, reply: string): string
    requires u.Bundle? ==> |f.blocks| == |u.docs|
  {
    Offer(u) + Answer(c, u, f, reply)
  }

  lemma DirUnit(site: Site, st: St, rel: string, rest: string, stream: bool)
    requires RelOk(rel)
    ensures Carries(site, st, Dir(rel), Ln("D " + rel) + rest, rest, stream)
  {
    var h := "D " + rel;
    assert LineSafe(h) && h[2..] == rel;
    LineOf(h, rest);
    ItemLine("D ", rel);
  }

  lemma BundleUnit(site: Site, st: St, ds: seq<Doc>, f: Framing, rest: string, stream: bool)
    requires Lawful(site.codec) && ds != []
    requires UnitOk(Bundle(ds)) && FramingOk(site.codec, Bundle(ds), f)
    ensures Carries(site, st, Bundle(ds),
                    Offer(Bundle(ds))
                    + (DocsBytes(site.codec, ds, f.blocks, Heard(site, st, Bundle(ds), stream)) + rest),
                    rest, stream)
  {
    hide HandleBundle, HandleDir, HandleLarge, Apply, DocsBytes, Trim;
    var tail := DocsBytes(site.codec, ds, f.blocks, Heard(site, st, Bundle(ds), stream)) + rest;
    var h, m := "B " + Dec(|ds|), LinesBytes(EntryLines(Entries(ds)));
    CountLine(|ds|);
    Regroup3(Ln(h), m, tail);
    LineOf(h, m + tail);
    ItemLine("B ", Dec(|ds|));
    BundleRoundTrip(site, st, ds, f, rest, stream);
  }

  lemma LargeLine(e: Entry, rest: string)
    requires EntryOk(e)
    ensures var s, h := Ln("F " + EntryLine(e)) + rest, "F " + EntryLine(e);
            s != "" && Line(s) == h && AfterLine(s) == rest && ParseThree(h[2..]) == Some(e)
  {
    EntryRoundTrip(e);
    var h := "F " + EntryLine(e);
    assert LineSafe(h) && h[2..] == EntryLine(e);
    LineOf(h, rest);
  }

  lemma LargeUnit(site: Site, st: St, d: Doc, f: Framing, rest: string, stream: bool)
    requires Lawful(site.codec)
    requires UnitOk(Large(d)) && FramingOk(site.codec, Large(d), f)
    ensures Carries(site, st, Large(d),
                    Offer(Large(d)) + (Answer(site.codec, Large(d), f, Heard(site, st, Large(d), stream)) + rest),
                    rest, stream)
  {
    hide HandleBundle, HandleDir, HandleLarge, Apply, Answer, ParseThree;
    var tail := Answer(site.codec, Large(d), f, Heard(site, st, Large(d), stream)) + rest;
    LargeLine(EntryOf(d), tail);
    ItemLine("F ", EntryLine(EntryOf(d)));
    LargeRoundTrip(site, st, d, f, rest, stream);
  }

  /** The codec theorem: whatever framing the server chooses and whatever the client's state, the
      client takes the bytes of a unit to the unit's meant effect and stops exactly behind them,
      with its own replies and without replies alike. */
  lemma UnitRoundTrip(site: Site, st: St, u: Unit, f: Framing, rest: string, stream: bool)
    requires Lawful(site.codec) && UnitOk(u) && FramingOk(site.codec, u, f) && u != Bundle([])
    ensures Carries(site, st, u, UnitBytes(site.codec, u, f, Heard(site, st, u, stream)) + rest, rest, stream)
  {
    Regroup3(Offer(u), Answer(site.codec, u, f, Heard(site, st, u, stream)), rest);
    match u {
      case Dir(rel) =>
        assert "" + rest == rest;
        DirUnit(site, st, rel, rest, stream);
      case Bundle(ds) => BundleUnit(site, st, ds, f, rest, stream);
      case Large(d) => LargeUnit(site, st, d, f, rest, stream);
    }
  }

  // ------------------------------------------------------------------ whole passes

  /** Units and framings a server can send. */
  predicate PassOk(c: Codec, us: seq<Unit>, fs: seq<Framing>) {
    |fs| == |us| && forall i | 0 <= i < |us| :: UnitOk(us[i]) && us[i] != Bundle([]) && FramingOk(c, us[i], fs[i])
  }

  /** The bytes of a pass: each unit is answered with the reply the client gives in the state it
      then is in. */
  function PassBytes(site: Site, st: St, us: seq<Unit>, fs: seq<Framing>, stream: bool): string
    requires PassOk(site.codec, us, fs)
    decreases |us|
  {
    if us == [] then ""
    else UnitBytes(site.codec, us[0], fs[0], Heard(site, st, us[0], stream))
         + PassBytes(site, Apply(site, st, us[0], stream), us[1..], fs[1..], stream)
  }

  lemma ItemsCarry(site: Site, st: St, u: Unit, s: string, rest: string)
    requires Carries(site, st, u, s, rest, false)
    ensures Items(site, st, s) == Items(site, Apply(site, st, u, false), rest)
  {
  }

  lemma UnitsCarry(site: Site, st: St, u: Unit, s: string, rest: string, stream: bool, n: nat)
    requires Carries(site, st, u, s, rest, stream)
    ensures Units(site, st, s, stream, n) == Units(site, Apply(site, st, u, stream), rest, stream, n + 1)
  {
  }

  /** The item loop of `SYNC` carries a pass to the meant effect of its units. */
  lemma {:induction false} PassRoundTrip(site: Site, st: St, us: seq<Unit>, fs: seq<Framing>, rest: string)
    requires Lawful(site.codec) && PassOk(site.codec, us, fs)
    ensures Items(site, st, PassBytes(site, st, us, fs, false) + rest)
            == Items(site, ApplyAll(site, st, us, false), rest)
    decreases |us|
  {
    hide Items, Dispatch, Apply, UnitBytes, Heard;
    if us == [] {
      assert PassBytes(site, st, us, fs, false) + rest == rest;
    } else {
      var st1 := Apply(site, st, us[0], false);
      var head := UnitBytes(site.codec, us[0], fs[0], Heard(site, st, us[0], false));
      var more := PassBytes(site, st1, us[1..], fs[1..], false);
      Regroup3(head, more, rest);
      UnitRoundTrip(site, st, us[0], fs[0], more + rest, false);
      ItemsCarry(site, st, us[0], head + (more + rest), more + rest);
      PassRoundTrip(site, st1, us[1..], fs[1..], rest);
    }
  }

  /** The item loop of a parallel stream does the same, with replies or streaming, and counts the
      units. */
  lemma {:induction false} StreamRoundTrip(site: Site, st: St, us: seq<Unit>, fs: seq<Framing>,
                                           rest: string, stream: bool, n: nat)
    requires Lawful(site.codec) && PassOk(site.codec, us, fs)
    ensures Units(site, st, PassBytes(site, st, us, fs, stream) + rest, stream, n)
            == Units(site, ApplyAll(site, st, us, stream), rest, stream, n + |us|)
    decreases |us|
  {
    hide Units, Dispatch, Apply, UnitBytes, Heard;
    if us == [] {
      assert PassBytes(site, st, us, fs, stream) + rest == rest;
    } else {
      var st1 := Apply(site, st, us[0], stream);
      var head := UnitBytes(site.codec, us[0], fs[0], Heard(site, st, us[0], stream));
      var more := PassBytes(site, st1, us[1..], fs[1..], stream);
      Regroup3(head, more, rest);
      UnitRoundTrip(site, st, us[0], fs[0], more + rest, stream);
      UnitsCarry(site, st, us[0], head + (more + rest), more + rest, stream, n);
      StreamRoundTrip(site, st1, us[1..], fs[1..], rest, stream, n + 1);
    }
  }

  function Pings(n: nat): string { if n == 0 then "" else Ln("PING") + Pings(n - 1) }

  /** A plain session: one pass, then `DONE`. */
  function SessionBytes(site: Site, st: St, us: seq<Unit>, fs: seq<Framing>): string
    requires PassOk(site.codec, us, fs)
  {
    Ln("T 0") + (PassBytes(site, Say(st, "SYNC").(seen := {}), us, fs, false) + (Ln("PASS-END") + Ln("DONE")))
  }

  /** A cutover session: a pass, any number of keepalives, `GO`, a second pass, `DONE`. */
  function CutoverBytes(site: Site, st: St, us: seq<Unit>, fs: seq<Framing>, pings: nat,
                        us2: seq<Unit>, fs2: seq<Framing>): string
    requires PassOk(site.codec, us, fs) && PassOk(site.codec, us2, fs2)
  {
    var st1 := Say(st, "SYNC").(seen := {});
    var st2 := ApplyAll(site, st1, us, false).(seen := {});
    Ln("T 0") + (PassBytes(site, st1, us, fs, false) + (Ln("PASS-END") + (Pings(pings) + (Ln("GO") +
      (Ln("T 0") + (PassBytes(site, st2, us2, fs2, false) + (Ln("PASS-END") + Ln("DONE"))))))))
  }

  /** The control lines the item loop and the pause keep for themselves. */
  lemma ItemsLine(site: Site, st: St, h: string, rest: string)
    requires h in {"PASS-END", "PING", "T 0"}
    ensures Items(site, st, Ln(h) + rest) ==
            if h == "PASS-END" then Between(site, st, rest) else Items(site, st, rest)
  {
    LineOf(h, rest);
  }

  lemma BetweenLine(site: Site, st: St, h: string, rest: string)
    requires h in {"PING", "GO", "DONE"}
    ensures Between(site, st, Ln(h) + rest) ==
            if h == "PING" then Between(site, st, rest)
            else if h == "GO" then Items(site, st.(seen := {}), rest) else Clean(st)
  {
    LineOf(h, rest);
  }

  lemma PassEnds(site: Site, st: St, us: seq<Unit>, fs: seq<Framing>, rest: string)
    requires Lawful(site.codec) && PassOk(site.codec, us, fs)
    ensures Items(site, st, Ln("T 0") + (PassBytes(site, st, us, fs, false) + (Ln("PASS-END") + rest)))
            == Between(site, ApplyAll(site, st, us, false), rest)
  {
    ItemsLine(site, st, "T 0", PassBytes(site, st, us, fs, false) + (Ln("PASS-END") + rest));
    PassRoundTrip(site, st, us, fs, Ln("PASS-END") + rest);
    ItemsLine(site, ApplyAll(site, st, us, false), "PASS-END", rest);
  }

  lemma DoneEnds(site: Site, st: St)
    ensures Between(site, st, Ln("DONE")) == Clean(st)
  {
    assert Ln("DONE") + "" == Ln("DONE");
    BetweenLine(site, st, "DONE", "");
  }

  /** A plain session ends cleanly in the meant effect of its units. */
  lemma SessionRoundTrip(site: Site, st: St, us: seq<Unit>, fs: seq<Framing>)
    requires Lawful(site.codec) && PassOk(site.codec, us, fs)
    ensures Sync(site, st, SessionBytes(site, st, us, fs))
            == Clean(ApplyAll(site, Say(st, "SYNC").(seen := {}), us, false))
  {
    var st1 := Say(st, "SYNC").(seen := {});
    PassEnds(site, st1, us, fs, Ln("DONE"));
    DoneEnds(site, ApplyAll(site, st1, us, false));
  }

  lemma {:induction false} PingsSkipped(site: Site, st: St, n: nat, rest: string)
    ensures Between(site, st, Pings(n) + rest) == Between(site, st, rest)
  {
    hide Between;
    if n == 0 {
      assert "" + rest == rest;
    } else {
      Regroup3(Ln("PING"), Pings(n - 1), rest);
      BetweenLine(site, st, "PING", Pings(n - 1) + rest);
      PingsSkipped(site, st, n - 1, rest);
    }
  }

  /** A cutover session ends cleanly; only the second pass fills the final `seen` set, the mirror
      roots of both passes stay. */
  lemma CutoverRoundTrip(site: Site, st: St, us: seq<Unit>, fs: seq<Framing>, pings: nat,
                         us2: seq<Unit>, fs2: seq<Framing>)
    requires Lawful(site.codec) && PassOk(site.codec, us, fs) && PassOk(site.codec, us2, fs2)
    ensures Sync(site, st, CutoverBytes(site, st, us, fs, pings, us2, fs2))
            == Clean(ApplyAll(site, ApplyAll(site, Say(st, "SYNC").(seen := {}), us, false).(seen := {}), us2, false))
  {
    var st1 := Say(st, "SYNC").(seen := {});
    var st2 := ApplyAll(site, st1, us, false);
    var st3 := st2.(seen := {});
    var second := Ln("T 0") + (PassBytes(site, st3, us2, fs2, false) + (Ln("PASS-END") + Ln("DONE")));
    PassEnds(site, st1, us, fs, Pings(pings) + (Ln("GO") + second));
    PingsSkipped(site, st2, pings, Ln("GO") + second);
    BetweenLine(site, st2, "GO", second);
    PassEnds(site, st3, us2, fs2, Ln("DONE"));
    DoneEnds(site, ApplyAll(site, st3, us2, false));
  }

  lemma ItemLine(tag: string, l: string)
    requires tag in {"D ", "B ", "F "}
    ensures StartsWith(tag + l, tag)
    ensures tag + l !in {"PASS-END", "PING", "NOUNIT"} && !StartsWith(tag + l, "T ")
    ensures forall t | t in {"D ", "B ", "F "} && t != tag :: !StartsWith(tag + l, t)
  {
    var s := tag + l;
    assert s[0] == tag[0];
  }
}
