/** The serving half: methods that queue, flush and count in place, proved against the bytes and
    totals of `Transcript` and `Totals`, whatever the clock and the compression library do. */
module Sender {
  import opened Text
  import opened Wire
  import opened Frames
  import opened Transcript
  import opened Tally
  import opened Control
  import opened Adaptive

  /** Coalescing threshold for bundled bodies. */
  const BUNDLE_FLUSH: nat := 524288

  /** An open file: a read may return any non-empty piece of what is left. */
  class Reader {
    var rest: string

    constructor (content: string)
      ensures rest == content
    {
      rest := content;
    }

    method Read(max: nat) returns (piece: string)
      requires max > 0
      modifies this
      ensures |piece| <= max && piece + rest == old(rest)
      ensures old(rest) != "" ==> piece != ""
    {
      if rest == "" { return ""; }
      var n :| 0 < n <= max && n <= |rest|;
      piece, rest := rest[..n], rest[n..];
    }

    /** `read_block`: short reads are repeated until the buffer is full or the file ends. */
    method ReadBlock(want: nat) returns (data: string)
      modifies this
      ensures data + rest == old(rest) && |data| <= want
      ensures |data| < want ==> rest == ""
      ensures want > 0 && old(rest) != "" ==> data != ""
    {
      data := "";
      while |data| < want
        invariant data + rest == old(rest) && |data| <= want
        decreases want - |data|
      {
        ghost var before, whole := data, rest;
        var piece := Read(want - |data|);
        if piece == "" { break; }
        data := data + piece;
        assert before + (piece + rest) == data + rest;
      }
    }
  }

  /** The choices for a unit are about the bytes its reply asks for: a large file from the offset on. */
  predicate FramedAs(c: Codec, u: Unit, f: Framing, reply: string) {
    match u
    case Dir(_) => true
    case Bundle(ds) => BlocksFor(c, ds, f.blocks)
    case Large(d) =>
      d.body.Some? ==>
        BodyOk(c, f.body)
        && BodyData(f.body) == Suffix(d.body.value, if Offset(reply) < 0 then 0 else Offset(reply))
  }

  /** Who does not ask to resume inside a file gets all of it. */
  lemma FramedFromTheStart(c: Codec, u: Unit, f: Framing, reply: string)
    requires u.Large? ==> Offset(reply) <= 0
    ensures FramedAs(c, u, f, reply) <==> FramingOk(c, u, f)
  {
    hide Offset, BodyOk, BodyData, BlocksFor;
    ZeroOffset();
  }

  // ------------------------------------------------------------------ what is compressed

  /** What decides about compression: the library, the switch, and the names on the list of incompressible
      extensions. */
  datatype Setup = Setup(codec: Codec, useCompress: bool, skips: string -> bool)

  /** Is a piece worth compressing: at least 256 bytes that shrink below 95 percent? */
  predicate Pays(c: Codec, data: string, level: int) { |data| >= 256 && 100 * |c.compress(data, level)| < 95 * |data| }

  /** A file of a bundle is compressed exactly when compression is on, its name is not listed and it pays. */
  predicate PicksEntry(s: Setup, d: Doc, b: Block, level: int) {
    d.body.Some? ==>
      (b.Zip? <==> s.useCompress && !s.skips(d.rel) && Pays(s.codec, d.body.value, level))
      && (b.Zip? ==> b.level == level)
  }

  predicate PicksBundle(s: Setup, ds: seq<Doc>, bs: seq<Block>, mask: string, level: int) {
    |bs| == |ds| && forall i | 0 <= i < |ds| && Wants(mask, i) :: PicksEntry(s, ds[i], bs[i], level)
  }

  /** One block of a large file as the controller has it: compressed at its level exactly when it does not want
      raw and the block pays; the outcome is fed back. */
  ghost predicate Adapts(codec: Codec, c: Ctl, b: Block, d: Ctl) {
    (b.Zip? <==> !c.preferRaw && Pays(codec, b.data, c.level)) && (b.Zip? ==> b.level == c.level)
    && if |b.data| < 256 then d == c
       else if c.preferRaw then d == Control.WantRaw(c).0
       else if b.Raw? then d == Control.NoteIncompressible(c)
       else exists tc, now ::
              tc >= 0.0 && d == Control.NoteCompressed(c, tc, |b.data|, |codec.compress(b.data, c.level)|, now)
  }

  /** The states of the controller between the blocks. */
  ghost predicate AdaptsAll(codec: Codec, cs: seq<Ctl>, bs: seq<Block>) {
    |cs| == |bs| + 1 && (forall i | 0 <= i < |cs| :: Legal(cs[i]))
    && forall i | 0 <= i < |bs| :: Adapts(codec, cs[i], bs[i], cs[i + 1])
  }

  /** The blocks of a file move the controller from one state to another. */
  ghost predicate Guided(codec: Codec, c: Ctl, bs: seq<Block>, d: Ctl) {
    exists cs :: AdaptsAll(codec, cs, bs) && cs[0] == c && cs[|bs|] == d
  }

  /** Blocks of 1 MiB, the last one what is left. */
  predicate FullBlocks(bs: seq<Block>) {
    forall i | 0 <= i < |bs| ::
      0 < |bs[i].data| <= 1048576 && (i < |bs| - 1 ==> |bs[i].data| == 1048576)
  }

  /** A large file is sent in blocks exactly when compression is on, its name is not listed and at least 256
      bytes remain. */
  ghost predicate PicksBody(s: Setup, name: string, remain: nat, body: Body) {
    (body.Pieces? <==> s.useCompress && !s.skips(name) && remain >= 256)
    && (body.Pieces? ==> FullBlocks(body.blocks) && exists cs :: AdaptsAll(s.codec, cs, body.blocks))
  }

  /** The server's choices for a unit: all files of a bundle at one level. */
  ghost predicate PicksAs(s: Setup, u: Unit, f: Framing, reply: string) {
    match u
    case Dir(_) => true
    case Bundle(ds) => exists level | -5 <= level <= 19 && level != 0 :: PicksBundle(s, ds, f.blocks, reply, level)
    case Large(d) =>
      d.body.Some? && Offset(reply) >= 0 ==>
        PicksBody(s, d.rel, |Suffix(d.body.value, Offset(reply))|, f.body)
  }

  /** What serving a unit does with the controller: the bundle is compressed at its level and leaves it alone, the
      blocks of a large file are compressed as it says and move it on. */
  ghost predicate Moves(s: Setup, u: Unit, f: Framing, reply: string, c: Ctl, d: Ctl) {
    match u
    case Dir(_) => d == c
    case Bundle(ds) => PicksBundle(s, ds, f.blocks, reply, c.level) && d == c
    case Large(_) => if f.body.Pieces? then Guided(s.codec, c, f.body.blocks, d) else d == c
  }

  /** A unit has been served: its bytes follow what was sent before, and its totals are counted. */
  ghost predicate ServedAs(s: Setup, u: Unit, f: Framing, reply: string, out: string, now: string,
                           stats: Totals, total: Totals)
  {
    FramedAs(s.codec, u, f, reply) && PicksAs(s, u, f, reply)
    && now == out + UnitBytes(s.codec, u, f, reply) && total == Add(stats, UnitTotals(s.codec, u, f, reply))
  }

  lemma NothingSent(s: Setup, out: string, stats: Totals)
    ensures var f := Framing([], Whole(""));
            ServedAs(s, Bundle([]), f, "", out, out, stats, stats)
            && forall level: int :: PicksBundle(s, [], f.blocks, "", level)
  {
    assert PicksBundle(s, [], [], "", 1);
  }

  /** The clock: any non-negative duration, any time. */
  method Elapsed() returns (t: real)
    ensures t >= 0.0
  {
    t := *;
    if t < 0.0 { t := 0.0; }
  }

  class Server {
    const conn: Conn
    const codec: Codec
    const useCompress: bool
    /** Is this file name on the list of incompressible extensions? */
    const skips: string -> bool
    const state: AdaptiveState
    var offered: nat
    var sent: nat
    var skipped: nat
    var bytes: nat
    var wire: nat

    constructor (conn: Conn, codec: Codec, useCompress: bool, skips: string -> bool, state: AdaptiveState)
      ensures this.conn == conn && this.codec == codec && this.state == state
      ensures this.useCompress == useCompress && this.skips == skips
      ensures Stats() == Totals(0, 0, 0, 0, 0)
    {
      this.conn, this.codec, this.useCompress, this.skips, this.state := conn, codec, useCompress, skips, state;
      offered, sent, skipped, bytes, wire := 0, 0, 0, 0, 0;
    }

    function Setting(): Setup { Setup(codec, useCompress, skips) }

    function Stats(): Totals
      reads this
    {
      Totals(offered, sent, skipped, bytes, wire)
    }

    // ---------------------------------------------------------------- one block

    /** `put_chunk_bundled`: keep the compressed form only if it shrank enough; never flush. */
    method PutChunkBundled(data: string, level: Option<int>) returns (ghost b: Block)
      requires |data| <= U64_MAX
      modifies conn`wbuf, `wire
      ensures conn.Out() == old(conn.Out()) + BlockBytes(codec, b)
      ensures BlockOk(codec, b) && b.data == data && (b.Zip? ==> level == Some(b.level))
      ensures b.Zip? <==> level.Some? && Pays(codec, data, level.value)
      ensures wire == old(wire) + |BlockPayload(codec, b)|
    {
      var n := |data|;
      ghost var out := conn.Out();
      if level.Some? && n >= MIN_COMPRESS {
        var cbuf := codec.compress(data, level.value);
        if Shrinks(|cbuf|, n) {
          b := Zip(data, level.value);
          conn.PutLine("Z " + Dec(|cbuf|) + " " + Dec(n));
          conn.PutBytes(cbuf);
          Regroup3(out, Ln(BlockHeader(codec, b)), cbuf);
          wire := wire + |cbuf|;
          return;
        }
      }
      b := Raw(data);
      conn.PutLine("R " + Dec(n));
      conn.PutBytes(data);
      Regroup3(out, Ln(BlockHeader(codec, b)), data);
      wire := wire + n;
    }

    method SendRawChunk(data: string)
      modifies conn`wbuf, conn`sent, `wire
      ensures conn.Out() == old(conn.Out()) + BlockBytes(codec, Raw(data)) && conn.wbuf == ""
      ensures wire == old(wire) + |data|
    {
      conn.PutLine("R " + Dec(|data|));
      conn.PutBytes(data);
      conn.Flush();
      Regroup3(old(conn.Out()), Ln(BlockHeader(codec, Raw(data))), data);
      wire := wire + |data|;
    }

    /** `send_chunk_adaptive`: the controller decides, the outcome feeds it back. */
    method SendChunkAdaptive(data: string) returns (ghost b: Block)
      requires |data| <= U64_MAX && Legal(state.View())
      modifies conn`wbuf, conn`sent, `wire, state
      ensures conn.Out() == old(conn.Out()) + BlockBytes(codec, b) && conn.wbuf == ""
      ensures BlockOk(codec, b) && b.data == data && Legal(state.View())
      ensures wire == old(wire) + |BlockPayload(codec, b)|
      ensures Adapts(codec, old(state.View()), b, state.View())
      // a block sent raw moves the controller as `Control.Block` says
      ensures |data| >= 256 && b.Raw? ==> state.View() == Control.Block(old(state.View())).0
    {
      hide Legal, Dec, Control.Block;
      BlockByCalls(state.View());
      var n := |data|;
      ghost var c := state.View();
      b := Raw(data);
      if n < MIN_COMPRESS {
        SendRawChunk(data);
        return;
      }
      var raw := state.WantRaw();
      if raw {
        SendRawChunk(data);
        return;
      }
      NeverZero(c);
      var level := NonzeroLevel(state.level);
      var cbuf := codec.compress(data, level);
      var tc := Elapsed();
      if !Shrinks(|cbuf|, n) {
        SendRawChunk(data);
        state.NoteIncompressible();
        return;
      }
      b := Zip(data, level);
      conn.PutLine("Z " + Dec(|cbuf|) + " " + Dec(n));
      conn.PutBytes(cbuf);
      conn.Flush();
      Regroup3(old(conn.Out()), Ln(BlockHeader(codec, b)), cbuf);
      wire := wire + |cbuf|;
      var now := Elapsed();
      state.NoteCompressed(tc, n, |cbuf|, now);
    }

    // ---------------------------------------------------------------- bundles

    /** The body of one bundle entry, or nothing. */
    method PutEntry(d: Doc, wanted: bool, level: Option<int>) returns (ghost b: Block)
      requires d.body.Some? ==> |d.body.value| <= U64_MAX
      requires level.Some? <==> useCompress
      modifies conn`wbuf, conn`sent, `offered, `sent, `skipped, `bytes, `wire
      ensures conn.Out() == old(conn.Out()) + DocBytes(codec, d, b, wanted)
      ensures d.body.Some? ==> BlockOk(codec, b) && b.data == d.body.value
      ensures wanted ==> PicksEntry(Setting(), d, b, OrElse(level, 1))
      ensures Stats() == Add(old(Stats()), DocTotals(codec, d, b, wanted))
      // what waits to be sent behind a body stays below 512 KiB
      ensures wanted && d.body.Some? ==> |conn.wbuf| < 524288
    {
      b := Raw(OrElse(d.body, ""));
      offered := offered + 1;
      if !wanted {
        skipped := skipped + 1;
        return;
      }
      match d.body
      case None =>
        conn.PutLine("-1");
        skipped := skipped + 1;
      case Some(data) =>
        var lvl := if useCompress && |data| >= MIN_COMPRESS && !skips(d.rel) then level else None;
        b := PutChunkBundled(data, lvl);
        if |conn.wbuf| >= BUNDLE_FLUSH {
          conn.Flush();
        }
        sent, bytes := sent + 1, bytes + |data|;
    }

    /** The mask: the client's own, or all ones when streaming; `None` when it is gone. */
    method GetMask(count: nat, stream: bool) returns (mask: Option<string>)
      requires conn.wbuf == ""
      modifies conn`rbuf, conn`rest, conn`stalls
      ensures conn.stalls == old(conn.stalls)
      ensures stream ==> mask == Some(Ones(count)) && conn.Unread() == old(conn.Unread())
      ensures !stream && old(conn.Unread()) == "" ==> mask == None && conn.Unread() == ""
      ensures !stream && old(conn.Unread()) != "" ==>
                mask == Some(Line(old(conn.Unread()))) && conn.Unread() == AfterLine(old(conn.Unread()))
    {
      if stream {
        return Some(Ones(count));
      }
      mask := conn.ReadLine();
    }

    /** The bodies of a bundle, coalesced: flushes fall where the buffer is full, not per file. */
    method PutBodies(docs: seq<Doc>, mask: string, level: Option<int>) returns (ghost bs: seq<Block>)
      requires forall i | 0 <= i < |docs| && docs[i].body.Some? :: |docs[i].body.value| <= U64_MAX
      requires level.Some? <==> useCompress
      modifies conn`wbuf, conn`sent, `offered, `sent, `skipped, `bytes, `wire
      ensures |bs| == |docs| && BlocksFor(codec, docs, bs) && PicksBundle(Setting(), docs, bs, mask, OrElse(level, 1))
      ensures conn.Out() == old(conn.Out()) + DocsBytes(codec, docs, bs, mask)
      ensures Stats() == Add(old(Stats()), DocsTotals(codec, docs, bs, mask))
    {
      hide DocBytes, DocTotals, DocsBytes, DocsTotals, BlockOk, BlocksFor, PicksEntry, PicksBundle;
      bs := [];
      ghost var out, stats := conn.Out(), Stats();
      NoBodies(Setting(), docs, mask, level, out, stats);
      for i := 0 to |docs|
        invariant |bs| == i && BlocksFor(codec, docs[..i], bs)
        invariant PicksBundle(Setting(), docs[..i], bs, mask, OrElse(level, 1))
        invariant conn.Out() == out + DocsBytes(codec, docs[..i], bs, mask)
        invariant Stats() == Add(stats, DocsTotals(codec, docs[..i], bs, mask))
      {
        ghost var b := PutEntry(docs[i], i < |mask| && mask[i] == '1', level);
        DocsBytesSnoc(codec, docs[..i], bs, docs[i], b, mask);
        DocsTotalsSnoc(codec, docs[..i], bs, docs[i], b, mask);
        PickedSnoc(Setting(), docs, bs, b, mask, OrElse(level, 1));
        assert docs[..i + 1] == docs[..i] + [docs[i]];
        Regroup3(out, DocsBytes(codec, docs[..i], bs, mask), DocBytes(codec, docs[i], b, Wants(mask, i)));
        bs := bs + [b];
      }
      assert docs[..|docs|] == docs;
    }

    /** `send_bundle`: manifest, mask, bodies. The result is the mask the bundle was served with,
        `None` when the client dropped. */
    method SendBundle(docs: seq<Doc>, stream: bool) returns (mask: Option<string>, ghost f: Framing)
      requires Readable(Bundle(docs)) && Legal(state.View())
      modifies conn, `offered, `sent, `skipped, `bytes, `wire
      ensures conn.stalls == old(conn.stalls)
      ensures mask == HeardBy(Bundle(docs), stream, old(conn.Unread()))
      ensures conn.Unread() == if Waits(Bundle(docs), stream) then AfterLine(old(conn.Unread())) else old(conn.Unread())
      ensures mask == None ==>
                conn.Out() == old(conn.Out()) + Offer(Bundle(docs)) && conn.wbuf == "" && Stats() == old(Stats())
      ensures mask.Some? ==>
                ServedAs(Setting(), Bundle(docs), f, mask.value, old(conn.Out()), conn.Out(), old(Stats()), Stats())
      // at the level the controller is at
      ensures mask.Some? ==> PicksBundle(Setting(), docs, f.blocks, mask.value, state.View().level)
    {
      hide DocsBytes, DocsTotals, BlocksFor, Line, Dec, LinesBytes, PicksBundle, NonzeroLevel, ServedAs, Offer;
      f := Framing([], Whole(""));
      ghost var out0 := conn.Out();
      if docs == [] {
        NothingSent(Setting(), out0, Stats());
        return Some(""), f;
      }
      conn.PutBytes(Offer(Bundle(docs)));
      conn.Flush();
      mask := GetMask(|docs|, stream);
      if mask == None {
        NothingLeft();
        return;
      }
      NeverZero(state.View());
      var level := if useCompress then Some(NonzeroLevel(state.level)) else None;
      ghost var bs := PutBodies(docs, mask.value, level);
      conn.Flush();
      f := Framing(bs, Whole(""));
      BundleServed(Setting(), docs, bs, mask.value, level, state.level, out0, conn.Out(), old(Stats()), Stats());
    }

    // ---------------------------------------------------------------- large files

    /** The raw form of a large file: the length is announced, then at most that much is sent. A file
        that has become empty leaves its header queued until the next line is sent. */
    method SendWhole(file: Reader, remain: nat)
      modifies conn`wbuf, conn`sent, `bytes, `wire, file
      ensures var k := if remain < |old(file.rest)| then remain else |old(file.rest)|;
              conn.Out() == old(conn.Out()) + (Ln("R " + Dec(remain)) + old(file.rest)[..k])
              && bytes == old(bytes) + k && wire == old(wire) + k
    {
      hide Dec;
      ghost var out0, data := conn.Out(), file.rest;
      conn.PutLine("R " + Dec(remain));
      ghost var out1 := conn.Out();
      var left := remain;
      ghost var done := 0;
      assert data[..0] == "" && out1 + "" == out1;
      while left > 0
        invariant 0 <= left <= remain && done == remain - left <= |data|
        invariant file.rest == data[done..]
        invariant conn.Out() == out1 + data[..done]
        invariant bytes == old(bytes) + done && wire == old(wire) + done
        decreases left
      {
        var want := if left < BLOCK_SIZE then left else BLOCK_SIZE;
        var piece := file.ReadBlock(want);
        if piece == "" { break; }
        conn.PutBytes(piece);
        conn.Flush();
        assert data[done..][..|piece|] == piece && data[done..][|piece|..] == file.rest;
        assert data[..done] + piece == data[..done + |piece|];
        Regroup3(out1, data[..done], piece);
        left, done := left - |piece|, done + |piece|;
        bytes, wire := bytes + |piece|, wire + |piece|;
      }
      Regroup3(out0, Ln("R " + Dec(remain)), data[..done]);
    }

    /** The block loop of a large file. */
    method SendPieces(file: Reader) returns (ghost bs: seq<Block>, ghost cs: seq<Ctl>)
      requires Legal(state.View())
      modifies conn`wbuf, conn`sent, `bytes, `wire, file, state
      ensures BlocksOk(codec, bs) && BlocksData(bs) == old(file.rest) && conn.wbuf == ""
      ensures conn.Out() == old(conn.Out()) + BodyBytes(codec, Pieces(bs))
      ensures bytes == old(bytes) + |BlocksData(bs)| && wire == old(wire) + PiecesWire(codec, bs)
      ensures Legal(state.View()) && FullBlocks(bs)
      ensures |cs| == |bs| + 1 && cs[0] == old(state.View()) && cs[|bs|] == state.View()
      ensures AdaptsAll(codec, cs, bs)
    {
      hide Legal, BlockOk, BlocksOk, BlockBytes, BlocksBytes, BlockPayload, Adapts, AdaptsAll, Blocked, Control.Block;
      ghost var out0, data := conn.Out(), file.rest;
      conn.SendLine("Z");
      bs, cs := [], [state.View()];
      ghost var out1 := conn.Out();
      NoPieces(codec, state.View(), data, out1);
      while true
        invariant Legal(state.View()) && BlocksOk(codec, bs) && conn.wbuf == "" && Blocked(bs, file.rest)
        invariant |cs| == |bs| + 1 && cs[0] == old(state.View()) && cs[|bs|] == state.View()
        invariant AdaptsAll(codec, cs, bs)
        invariant BlocksData(bs) + file.rest == data
        invariant conn.Out() == out1 + BlocksBytes(codec, bs)
        invariant bytes == old(bytes) + |BlocksData(bs)| && wire == old(wire) + PiecesWire(codec, bs)
        decreases |file.rest|
      {
        ghost var before := file.rest;
        var block := file.ReadBlock(BLOCK_SIZE);
        if block == "" { break; }
        ghost var b := SendChunkAdaptive(block);
        BlocksSnoc(codec, bs, b);
        OnePiece(codec, cs, bs, b, state.View(), before, file.rest);
        Regroup3(out1, BlocksBytes(codec, bs), BlockBytes(codec, b));
        Regroup3(BlocksData(bs), block, file.rest);
        bs, cs := bs + [b], cs + [state.View()];
        bytes := bytes + |block|;
      }
      conn.SendLine("E");
      PiecesEnd(codec, bs, file.rest, out0);
    }

    /** `send_large_file`: `announced` is the length the file system reports, `content` what reading
        yields. The block form never announces a length, so it is framed whatever is read; the raw
        form is framed when the two lengths agree. */
    method SendLargeFile(name: string, announced: nat, content: string, offset: nat) returns (ghost body: Body)
      requires Legal(state.View()) && announced <= U64_MAX
      modifies conn`wbuf, conn`sent, `sent, `bytes, `wire, state
      ensures Legal(state.View()) && sent == old(sent) + 1
      ensures PicksBody(Setting(), name, if offset <= announced then announced - offset else 0, body)
      ensures if body.Pieces? then Guided(codec, old(state.View()), body.blocks, state.View())
              else state.View() == old(state.View())
      ensures body.Pieces? || announced == |content| ==>
                BodyOk(codec, body) && BodyData(body) == Suffix(content, offset)
                && conn.Out() == old(conn.Out()) + BodyBytes(codec, body)
                && bytes == old(bytes) + |BodyData(body)| && wire == old(wire) + BodyWire(codec, body)
      ensures body.Whole? ==>
                var remain := if offset <= announced then announced - offset else 0;
                var d := Suffix(content, offset);
                var k := if remain < |d| then remain else |d|;
                conn.Out() == old(conn.Out()) + (Ln("R " + Dec(remain)) + d[..k])
                && bytes == old(bytes) + k && wire == old(wire) + k
    {
      hide Legal, BlocksOk, Dec, AdaptsAll, FullBlocks;
      var remain := if offset <= announced then announced - offset else 0;
      var file := new Reader(Suffix(content, offset));
      var zip := useCompress && remain >= MIN_COMPRESS && !skips(name);
      if zip {
        ghost var bs, cs := SendPieces(file);
        body := Pieces(bs);
      } else {
        SendWhole(file, remain);
        body := Whole(Suffix(content, offset));
        assert Suffix(content, offset)[..|Suffix(content, offset)|] == Suffix(content, offset);
      }
      sent := sent + 1;
    }

    /** A large file offered on its own: the reply is an offset, negative to decline. `None` when the
        client is gone. */
    method ServeLarge(d: Doc, stream: bool) returns (reply: Option<string>, ghost f: Framing)
      requires Legal(state.View())
      requires d.body.Some? ==> |d.body.value| <= U64_MAX
      modifies conn, `offered, `sent, `skipped, `bytes, `wire, state
      ensures conn.stalls == old(conn.stalls) && Legal(state.View())
      ensures reply == HeardBy(Large(d), stream, old(conn.Unread()))
      ensures conn.Unread() == if Waits(Large(d), stream) then AfterLine(old(conn.Unread())) else old(conn.Unread())
      ensures reply == None ==> conn.Out() == old(conn.Out()) + Offer(Large(d)) && conn.wbuf == ""
      ensures reply.Some? ==>
                ServedAs(Setting(), Large(d), f, reply.value, old(conn.Out()), conn.Out(), old(Stats()), Stats())
      ensures if f.body.Pieces? then Guided(Setting().codec, old(state.View()), f.body.blocks, state.View())
              else state.View() == old(state.View())
    {
      hide Legal, Line, AfterLine, Offset, EntryLine, BodyBytes, BodyWire, BodyOk, BodyData, PicksBody, ServedAs,
          Suffix, Guided;
      ZeroOffset();
      ghost var out0 := conn.Out();
      f := Framing([], Whole(OrElse(d.body, "")));
      conn.SendLine("F " + EntryLine(EntryOf(d)));
      offered := offered + 1;
      reply := Some("0");
      if !stream {
        reply := conn.ReadLine();
        if reply == None {
          NothingLeft();
          return;
        }
      }
      var offset := Offset(reply.value);
      if offset < 0 {
        skipped := skipped + 1;
        LargeDeclined(Setting(), d, f, reply.value, out0, old(Stats()));
        return;
      }
      match d.body
      case None =>
        conn.SendLine("-1");
        skipped := skipped + 1;
        LargeDeclined(Setting(), d, f, reply.value, out0, old(Stats()));
      case Some(content) =>
        ghost var body := SendLargeFile(d.rel, |content|, content, offset);
        f := Framing([], body);
        LargeServed(Setting(), d, body, reply.value, out0, conn.Out(), old(Stats()), Stats());
    }

    /** One unit of work: what `send_pass` and the parallel handler do with a directory, a bundle or
        a large file. `None` when the client dropped. */
    method ServeUnit(u: Unit, stream: bool) returns (reply: Option<string>, ghost f: Framing)
      requires Legal(state.View()) && Readable(u)
      modifies conn, `offered, `sent, `skipped, `bytes, `wire, state
      ensures conn.stalls == old(conn.stalls) && Legal(state.View())
      ensures reply == HeardBy(u, stream, old(conn.Unread()))
      ensures conn.Unread() == if Waits(u, stream) then AfterLine(old(conn.Unread())) else old(conn.Unread())
      // while it waits for the reply, the whole offer has left
      ensures reply == None ==> conn.Out() == old(conn.Out()) + Offer(u) && conn.wbuf == ""
      ensures reply.Some? ==>
                ServedAs(Setting(), u, f, reply.value, old(conn.Out()), conn.Out(), old(Stats()), Stats())
      ensures reply.Some? ==> Moves(Setting(), u, f, reply.value, old(state.View()), state.View())
    {
      hide *;
      DirIsSilent(u, stream, conn.Unread());
      match u {
        case Dir(rel) =>
          f := ServeDir(rel);
          reply := Some("");
          DirMoves(Setting(), rel, f, state.View());
        case Bundle(docs) =>
          BundleReadable(u);
          reply, f := SendBundle(docs, stream);
          if reply.Some? { BundleMoves(Setting(), docs, f, reply.value, state.View()); }
        case Large(d) =>
          BundleReadable(u);
          ghost var c := state.View();
          reply, f := ServeLarge(d, stream);
          if reply.Some? { LargeMoves(Setting(), d, f, reply.value, c, state.View()); }
      }
    }

    /** A directory to recreate: one line, no reply. */
    method ServeDir(rel: string) returns (ghost f: Framing)
      modifies conn`wbuf, conn`sent
      ensures conn.wbuf == "" && conn.Unread() == old(conn.Unread())
      ensures ServedAs(Setting(), Dir(rel), f, "", old(conn.Out()), conn.Out(), old(Stats()), Stats())
    {
      hide ServedAs;
      f := Framing([], Whole(""));
      DirSent(Setting(), rel, conn.Out(), Stats());
      conn.SendLine("D " + rel);
    }
  }

  /** A large file that is declined or cannot be read. */
  lemma LargeDeclined(s: Setup, d: Doc, f: Framing, reply: string, out: string, stats: Totals)
    requires Offset(reply) < 0 || d.body.None?
    requires f == Framing([], Whole(OrElse(d.body, "")))
    requires d.body.Some? ==> |d.body.value| <= U64_MAX
    ensures var answer := if Offset(reply) < 0 then "" else Ln("-1");
            ServedAs(s, Large(d), f, reply, out, out + Offer(Large(d)) + answer, stats,
                     Add(stats, Totals(1, 0, 1, 0, 0)))
            && out + Offer(Large(d)) + "" == out + Offer(Large(d))
  {
    hide Offset, EntryLine, PicksBody;
    ZeroOffset();
    Regroup3(out, Offer(Large(d)), if Offset(reply) < 0 then "" else Ln("-1"));
  }

  /** A large file that is sent from the offset on. */
  lemma LargeServed(s: Setup, d: Doc, body: Body, reply: string, out: string, now: string, stats: Totals, total: Totals)
    requires d.body.Some? && Offset(reply) >= 0
    requires var content, offset := d.body.value, Offset(reply);
             PicksBody(s, d.rel, if offset <= |content| then |content| - offset else 0, body)
             && BodyOk(s.codec, body) && BodyData(body) == Suffix(content, offset)
    requires now == out + Offer(Large(d)) + BodyBytes(s.codec, body)
    requires total == Add(stats, Totals(1, 1, 0, |BodyData(body)|, BodyWire(s.codec, body)))
    ensures ServedAs(s, Large(d), Framing([], body), reply, out, now, stats, total)
  {
    hide Offset, EntryLine, BodyBytes, BodyWire, BodyOk, BodyData, PicksBody;
    Regroup3(out, Offer(Large(d)), BodyBytes(s.codec, body));
  }

  /** Offer and bodies make the unit; without compression the level does not matter. */
  lemma BundleServed(s: Setup, docs: seq<Doc>, bs: seq<Block>, mask: string, level: Option<int>, at: int,
                     out: string, now: string, stats: Totals, total: Totals)
    requires level == if s.useCompress then Some(at) else None
    requires -5 <= at <= 19 && at != 0
    requires BlocksFor(s.codec, docs, bs) && PicksBundle(s, docs, bs, mask, OrElse(level, 1))
    requires now == out + Offer(Bundle(docs)) + DocsBytes(s.codec, docs, bs, mask)
    requires total == Add(stats, DocsTotals(s.codec, docs, bs, mask))
    ensures ServedAs(s, Bundle(docs), Framing(bs, Whole("")), mask, out, now, stats, total)
    ensures PicksBundle(s, docs, bs, mask, at)
  {
    hide DocsBytes, DocsTotals, BlocksFor, Offer;
    Regroup3(out, Offer(Bundle(docs)), DocsBytes(s.codec, docs, bs, mask));
    var f := Framing(bs, Whole(""));
    assert PicksBundle(s, docs, f.blocks, mask, at);
  }

  lemma NoBodies(s: Setup, docs: seq<Doc>, mask: string, level: Option<int>, out: string, stats: Totals)
    ensures docs[..0] == [] && BlocksFor(s.codec, docs[..0], [])
    ensures PicksBundle(s, docs[..0], [], mask, OrElse(level, 1))
    ensures out + DocsBytes(s.codec, docs[..0], [], mask) == out
    ensures Add(stats, DocsTotals(s.codec, docs[..0], [], mask)) == stats
  {
    assert out + "" == out;
  }

  /** One more entry of a bundle. */
  lemma PickedSnoc(s: Setup, docs: seq<Doc>, bs: seq<Block>, b: Block, mask: string, level: int)
    requires |bs| < |docs| && BlocksFor(s.codec, docs[..|bs|], bs) && PicksBundle(s, docs[..|bs|], bs, mask, level)
    requires docs[|bs|].body.Some? ==> BlockOk(s.codec, b) && b.data == docs[|bs|].body.value
    requires Wants(mask, |bs|) ==> PicksEntry(s, docs[|bs|], b, level)
    ensures BlocksFor(s.codec, docs[..|bs| + 1], bs + [b]) && PicksBundle(s, docs[..|bs| + 1], bs + [b], mask, level)
  {
    hide BlockOk, PicksEntry;
  }

  /** Full blocks so far, and the last one not short while anything is left. */
  predicate Blocked(bs: seq<Block>, left: string) {
    FullBlocks(bs) && (left != "" && bs != [] ==> |bs[|bs| - 1].data| == 1048576)
  }

  lemma NoPieces(codec: Codec, c: Ctl, data: string, out: string)
    requires Legal(c)
    ensures BlocksOk(codec, []) && Blocked([], data) && AdaptsAll(codec, [c], [])
    ensures BlocksData([]) + data == data && out + BlocksBytes(codec, []) == out
  {
    assert "" + data == data && out + "" == out;
  }

  lemma OnePiece(codec: Codec, cs: seq<Ctl>, bs: seq<Block>, b: Block, d: Ctl, before: string, left: string)
    requires BlocksOk(codec, bs) && BlockOk(codec, b) && Blocked(bs, before) && AdaptsAll(codec, cs, bs)
    requires Adapts(codec, cs[|bs|], b, d) && Legal(d)
    requires before != "" && 0 < |b.data| <= 1048576 && (|b.data| < 1048576 ==> left == "")
    ensures BlocksOk(codec, bs + [b]) && Blocked(bs + [b], left) && AdaptsAll(codec, cs + [d], bs + [b])
  {
    hide BlockOk, Adapts, Legal;
  }

  lemma PiecesEnd(codec: Codec, bs: seq<Block>, left: string, out: string)
    requires Blocked(bs, left)
    ensures FullBlocks(bs) && (left == "" ==> BlocksData(bs) + left == BlocksData(bs))
    ensures out + Ln("Z") + BlocksBytes(codec, bs) + Ln("E") == out + BodyBytes(codec, Pieces(bs))
  {
    hide BlocksBytes, FullBlocks;
    assert BlocksData(bs) + "" == BlocksData(bs);
    Regroup3(out, Ln("Z"), BlocksBytes(codec, bs));
    Regroup3(out, Ln("Z") + BlocksBytes(codec, bs), Ln("E"));
    Regroup3(Ln("Z"), BlocksBytes(codec, bs), Ln("E"));
  }

  lemma NeverZero(c: Ctl)
    requires Legal(c)
    ensures NonzeroLevel(c.level) == c.level && -5 <= c.level <= 19 && c.level != 0
  {
  }

  lemma DirMoves(s: Setup, rel: string, f: Framing, c: Ctl)
    ensures Moves(s, Dir(rel), f, "", c, c)
  {
  }

  lemma BundleMoves(s: Setup, docs: seq<Doc>, f: Framing, reply: string, c: Ctl)
    ensures PicksBundle(s, docs, f.blocks, reply, c.level) ==> Moves(s, Bundle(docs), f, reply, c, c)
  {
  }

  lemma LargeMoves(s: Setup, d: Doc, f: Framing, reply: string, c: Ctl, e: Ctl)
    ensures (if f.body.Pieces? then Guided(s.codec, c, f.body.blocks, e) else e == c) ==>
              Moves(s, Large(d), f, reply, c, e)
  {
  }

  lemma DirIsSilent(u: Unit, stream: bool, said: string)
    ensures u.Dir? ==> !Waits(u, stream) && HeardBy(u, stream, said) == Some("")
  {
  }

  lemma BundleReadable(u: Unit)
    requires Readable(u)
    ensures u.Large? && u.doc.body.Some? ==> |u.doc.body.value| <= U64_MAX
  {
  }

  /** The part of a file from an offset on. */
  function Suffix(content: string, offset: nat): string {
    if offset <= |content| then content[offset..] else ""
  }

  lemma ZeroOffset()
    ensures Offset("0") == 0
    ensures forall s: string :: Suffix(s, 0) == s
  {
  }

  predicate Readable(u: Unit) {
    match u
    case Dir(_) => true
    case Bundle(ds) => forall i | 0 <= i < |ds| && ds[i].body.Some? :: |ds[i].body.value| <= U64_MAX
    case Large(d) => d.body.Some? ==> |d.body.value| <= U64_MAX
  }

  /** Does serving this unit wait for a reply? */
  predicate Waits(u: Unit, stream: bool) { !stream && (u.Large? || (u.Bundle? && u.docs != [])) }

  /** The reply a unit is served with, given what the client has said. */
  function HeardBy(u: Unit, stream: bool, said: string): Option<string> {
    if Waits(u, stream) then (if said == "" then None else Some(Line(said)))
    else match u
      case Dir(_) => Some("")
      case Bundle(ds) => Some(if ds == [] then "" else Ones(|ds|))
      case Large(_) => Some("0")
  }

  lemma NothingLeft()
    ensures AfterLine("") == ""
  {
  }

  lemma DirSent(s: Setup, rel: string, out: string, stats: Totals)
    ensures var f := Framing([], Whole(""));
            ServedAs(s, Dir(rel), f, "", out, out + Ln("D " + rel), stats, stats)
  {
  }
}
