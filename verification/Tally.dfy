/** The server's counters for what it sends, and how they agree with the client's. */
module Tally {
  import opened Text
  import opened Frames
  import opened Paths
  import opened Receiver
  import opened Transcript

  datatype Totals = Totals(offered: nat, sent: nat, skipped: nat, bytes: nat, wire: nat)

  const ZERO: Totals := Totals(0, 0, 0, 0, 0)

  function Add(a: Totals, b: Totals): Totals {
    Totals(a.offered + b.offered, a.sent + b.sent, a.skipped + b.skipped, a.bytes + b.bytes, a.wire + b.wire)
  }

  /** One bundle entry: declined and unreadable files count as skipped. */
  function DocTotals(c: Codec, d: Doc, b: Block, wanted: bool): Totals {
    if !wanted || d.body.None? then Totals(1, 0, 1, 0, 0)
    else Totals(1, 1, 0, |d.body.value|, |BlockPayload(c, b)|)
  }

  function DocsTotals(c: Codec, ds: seq<Doc>, bs: seq<Block>, mask: string): Totals
    requires |bs| == |ds|
    decreases |ds|
  {
    if ds == [] then ZERO
    else Add(DocTotals(c, ds[0], bs[0], mask != "" && mask[0] == '1'),
             DocsTotals(c, ds[1..], bs[1..], if mask == "" then "" else mask[1..]))
  }

  /** The payload bytes of a large body. */
  function BodyWire(c: Codec, b: Body): nat {
    match b case Whole(d) => |d| case Pieces(bs) => PiecesWire(c, bs)
  }

  function PiecesWire(c: Codec, bs: seq<Block>): nat {
    if bs == [] then 0 else |BlockPayload(c, bs[0])| + PiecesWire(c, bs[1..])
  }

  function UnitTotals(c: Codec, u: Unit, f: Framing, reply: string): Totals
    requires u.Bundle? ==> |f.blocks| == |u.docs|
  {
    match u
    case Dir(_) => ZERO
    case Bundle(ds) => DocsTotals(c, ds, f.blocks, reply)
    case Large(d) =>
      if Offset(reply) < 0 || d.body.None? then Totals(1, 0, 1, 0, 0)
      else Totals(1, 1, 0, |BodyData(f.body)|, BodyWire(c, f.body))
  }

  // ------------------------------------------------------------------ growing at the end

  predicate Wants(mask: string, i: nat) { i < |mask| && mask[i] == '1' }

  lemma {:induction false} DocsBytesSnoc(c: Codec, ds: seq<Doc>, bs: seq<Block>, d: Doc, b: Block, mask: string)
    requires |bs| == |ds|
    ensures DocsBytes(c, ds + [d], bs + [b], mask) == DocsBytes(c, ds, bs, mask) + DocBytes(c, d, b, Wants(mask, |ds|))
    decreases |ds|
  {
    hide DocBytes;
    var xs, ys := ds + [d], bs + [b];
    if ds == [] {
      assert xs[1..] == [] && ys[1..] == [];
    } else {
      var tail := if mask == "" then "" else mask[1..];
      assert xs[1..] == ds[1..] + [d] && ys[1..] == bs[1..] + [b];
      DocsBytesSnoc(c, ds[1..], bs[1..], d, b, tail);
      assert Wants(tail, |ds| - 1) == Wants(mask, |ds|);
      Regroup3(DocBytes(c, ds[0], bs[0], Wants(mask, 0)), DocsBytes(c, ds[1..], bs[1..], tail),
          DocBytes(c, d, b, Wants(mask, |ds|)));
    }
  }

  lemma {:induction false} DocsTotalsSnoc(c: Codec, ds: seq<Doc>, bs: seq<Block>, d: Doc, b: Block, mask: string)
    requires |bs| == |ds|
    ensures DocsTotals(c, ds + [d], bs + [b], mask)
            == Add(DocsTotals(c, ds, bs, mask), DocTotals(c, d, b, Wants(mask, |ds|)))
    decreases |ds|
  {
    hide DocTotals;
    var xs, ys := ds + [d], bs + [b];
    if ds == [] {
      assert xs[1..] == [] && ys[1..] == [];
    } else {
      var tail := if mask == "" then "" else mask[1..];
      assert xs[1..] == ds[1..] + [d] && ys[1..] == bs[1..] + [b];
      DocsTotalsSnoc(c, ds[1..], bs[1..], d, b, tail);
      assert Wants(tail, |ds| - 1) == Wants(mask, |ds|);
    }
  }

  lemma {:induction false} BlocksSnoc(c: Codec, bs: seq<Block>, b: Block)
    ensures BlocksBytes(c, bs + [b]) == BlocksBytes(c, bs) + BlockBytes(c, b)
    ensures BlocksData(bs + [b]) == BlocksData(bs) + b.data
    ensures PiecesWire(c, bs + [b]) == PiecesWire(c, bs) + |BlockPayload(c, b)|
  {
    hide BlockBytes, BlockPayload;
    var xs := bs + [b];
    if bs == [] {
      assert xs[1..] == [];
      assert BlockBytes(c, b) + "" == BlockBytes(c, b) && b.data + "" == b.data;
    } else {
      assert xs[1..] == bs[1..] + [b];
      BlocksSnoc(c, bs[1..], b);
      Regroup3(BlockBytes(c, bs[0]), BlocksBytes(c, bs[1..]), BlockBytes(c, b));
      Regroup3(bs[0].data, BlocksData(bs[1..]), b.data);
    }
  }

  // ------------------------------------------------------------------ both ends agree

  predicate AllSafe(site: Site, us: seq<Unit>) {
    forall i | 0 <= i < |us| :: forall d | d in UnitDocs(us[i]) :: SafeJoin(site.to, d.rel).Some?
  }

  /** The totals are consistent: every offer is either sent or skipped, and the payload on the wire
      never exceeds the content. */
  predicate Consistent(t: Totals) { t.offered == t.sent + t.skipped && t.wire <= t.bytes }

  lemma PayloadShrinks(c: Codec, b: Block)
    requires BlockOk(c, b)
    ensures |BlockPayload(c, b)| <= |b.data|
  {
  }

  lemma {:induction false} PiecesShrink(c: Codec, bs: seq<Block>)
    requires BlocksOk(c, bs)
    ensures PiecesWire(c, bs) <= |BlocksData(bs)|
  {
    hide BlockOk, BlockPayload;
    if bs != [] {
      PayloadShrinks(c, bs[0]);
      PiecesShrink(c, bs[1..]);
    }
  }

  lemma DocAccount(st: St, slot: Option<Slot>, c: Codec, d: Doc, b: Block, wanted: bool)
    requires d.body.Some? ==> BlockOk(c, b) && b.data == d.body.value
    requires wanted <==> slot.Some?
    ensures var r, t := if d.body.None? then st else Placed(st, slot, d.body.value), DocTotals(c, d, b, wanted);
            r.got == st.got + t.sent && r.bytes == st.bytes + t.bytes && t.offered == 1 && Consistent(t)
  {
  }

  lemma {:induction false} DocsAccount(st: St, slots: seq<Option<Slot>>, c: Codec, ds: seq<Doc>, bs: seq<Block>,
                                       mask: string)
    requires |slots| == |ds| && BlocksFor(c, ds, bs) && Agrees(mask, slots, false)
    ensures var r, t := WriteAll(st, slots, ds), DocsTotals(c, ds, bs, mask);
            r.got == st.got + t.sent && r.bytes == st.bytes + t.bytes && t.offered == |ds| && Consistent(t)
    decreases |ds|
  {
    hide BlockOk, BlockPayload, DocTotals, Placed;
    if ds != [] {
      DocAccount(st, slots[0], c, ds[0], bs[0], mask[0] == '1');
      assert Agrees(mask[1..], slots[1..], false) && BlocksFor(c, ds[1..], bs[1..]);
      var st1 := if ds[0].body.None? then st else Placed(st, slots[0], ds[0].body.value);
      DocsAccount(st1, slots[1..], c, ds[1..], bs[1..], mask[1..]);
    }
  }

  lemma {:induction false} PlanKeepsCounts(site: Site, st: St, ds: seq<Doc>, stream: bool)
    ensures var (st1, slots) := Plan(site, st, Known(Entries(ds)), stream);
            st1.got == st.got && st1.bytes == st.bytes
            && (stream && (forall d | d in ds :: SafeJoin(site.to, d.rel).Some?) ==>
                  forall i | 0 <= i < |slots| :: slots[i].Some?)
    decreases |ds|
  {
    hide SafeJoin, RootOf, NeedFetch;
    if ds != [] {
      var items := Known(Entries(ds));
      assert items[0] == Some(EntryOf(ds[0])) && items[1..] == Known(Entries(ds[1..]));
      var (st1, slot) := PlanOne(site, st, items[0], stream);
      PlanKeepsCounts(site, st1, ds[1..], stream);
    }
  }

  /** One unit: what the client counts as fetched is what the server counts as sent. When it
      streams this needs every name to be safe, since unsafe files are sent and discarded. */
  lemma UnitAccounts(site: Site, st: St, u: Unit, f: Framing, stream: bool)
    requires FramingOk(site.codec, u, f) && (stream ==> AllSafe(site, [u]))
    ensures var r, t := Apply(site, st, u, stream), UnitTotals(site.codec, u, f, Heard(site, st, u, stream));
            r.got == st.got + t.sent && r.bytes == st.bytes + t.bytes && Consistent(t)
  {
    hide SafeJoin, NeedFetch, RootOf, DocsTotals, BlocksFor, Mask, WriteAll, Plan, PiecesWire, BlocksOk;
    assert stream ==> forall d | d in UnitDocs(u) :: SafeJoin(site.to, d.rel).Some? by { assert [u][0] == u; }
    match u {
      case Dir(rel) =>
      case Bundle(ds) =>
        if ds != [] {
          BundleAccounts(site, st, ds, f, stream);
        } else {
          EmptyBundle(site, st, f, stream);
        }
      case Large(d) =>
        OffsetReplies();
        if d.body.Some? && f.body.Pieces? { PiecesShrink(site.codec, f.body.blocks); }
        assert d in UnitDocs(u);
    }
  }

  lemma EmptyBundle(site: Site, st: St, f: Framing, stream: bool)
    requires FramingOk(site.codec, Bundle([]), f)
    ensures UnitTotals(site.codec, Bundle([]), f, Heard(site, st, Bundle([]), stream)) == ZERO
  {
  }

  /** When every slot is wanted, the streaming server's all-ones mask is the client's own. */
  lemma AllWanted(mask: string, slots: seq<Option<Slot>>, stream: bool)
    requires Agrees(mask, slots, stream) && (stream ==> forall i | 0 <= i < |slots| :: slots[i].Some?)
    ensures Agrees(mask, slots, false)
  {
  }

  lemma BundleAccounts(site: Site, st: St, ds: seq<Doc>, f: Framing, stream: bool)
    requires ds != [] && FramingOk(site.codec, Bundle(ds), f)
    requires stream ==> forall d | d in ds :: SafeJoin(site.to, d.rel).Some?
    ensures var r := Apply(site, st, Bundle(ds), stream);
            var t := UnitTotals(site.codec, Bundle(ds), f, Heard(site, st, Bundle(ds), stream));
            r.got == st.got + t.sent && r.bytes == st.bytes + t.bytes && Consistent(t)
  {
    hide Plan, WriteAll, DocsTotals, BlockOk, Agrees, Mask, SafeJoin, Known;
    var (st1, slots) := Plan(site, st, Known(Entries(ds)), stream);
    PlanKeepsCounts(site, st, ds, stream);
    HeardAgrees(site, st, ds, stream);
    var mask := Heard(site, st, Bundle(ds), stream);
    assert Agrees(mask, slots, false) by { AllWanted(mask, slots, stream); }
    DocsAccount(if stream then st1 else Say(st1, Mask(slots)), slots, site.codec, ds, f.blocks, mask);
  }

  /** The server's totals of a pass, each unit served with the client's reply of the moment. */
  function PassTotals(site: Site, st: St, us: seq<Unit>, fs: seq<Framing>, stream: bool): Totals
    requires PassOk(site.codec, us, fs)
    decreases |us|
  {
    if us == [] then ZERO
    else Add(UnitTotals(site.codec, us[0], fs[0], Heard(site, st, us[0], stream)),
             PassTotals(site, Apply(site, st, us[0], stream), us[1..], fs[1..], stream))
  }

  /** Over a whole pass, with replies or streaming: files and bytes fetched equal files and bytes
      sent, every offer is accounted for, and compression never costs payload. */
  lemma {:induction false} PassAccounts(site: Site, st: St, us: seq<Unit>, fs: seq<Framing>, stream: bool)
    requires PassOk(site.codec, us, fs) && (stream ==> AllSafe(site, us))
    ensures var r, t := ApplyAll(site, st, us, stream), PassTotals(site, st, us, fs, stream);
            r.got == st.got + t.sent && r.bytes == st.bytes + t.bytes && Consistent(t)
    decreases |us|
  {
    hide Apply, UnitTotals, SafeJoin, Heard;
    if us != [] {
      UnitAccounts(site, st, us[0], fs[0], stream);
      PassAccounts(site, Apply(site, st, us[0], stream), us[1..], fs[1..], stream);
    }
  }
}
