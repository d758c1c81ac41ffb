/** How file bodies and manifests are framed, and how the receiver parses them back. The
    encoders describe the bytes the server queues; the parsers are total functions of the
    stream, malformed streams included. */
module Frames {
  import opened Text
  import opened Wire

  const BLOCK_SIZE: nat := 1048576
  const MIN_COMPRESS: nat := 256

  /** The compression library: any pair of functions. */
  datatype Codec = Codec(compress: (string, int) -> string, decompress: (string, nat) -> Option<string>)

  /** All that is asked of it: decompressing gives the data back. */
  ghost predicate Lawful(c: Codec) {
    forall x: string, l: int :: c.decompress(c.compress(x, l), |x|) == Some(x)
  }

  // ------------------------------------------------------------------ what the server writes

  /** One framed piece of a body: raw, or compressed at some level. */
  datatype Block = Raw(data: string) | Zip(data: string, level: int)

  /** `clen < 0.95 * n`, the test that keeps a compressed block. */
  predicate Shrinks(clen: nat, n: nat) { 100 * clen < 95 * n }

  /** A block the server may write: a compressed one must have passed the shrink test. */
  predicate BlockOk(c: Codec, b: Block) {
    |b.data| <= U64_MAX && (b.Zip? ==> Shrinks(|c.compress(b.data, b.level)|, |b.data|))
  }

  function BlockHeader(c: Codec, b: Block): string {
    match b
    case Raw(d) => "R " + Dec(|d|)
    case Zip(d, l) => "Z " + Dec(|c.compress(d, l)|) + " " + Dec(|d|)
  }

  function BlockPayload(c: Codec, b: Block): string {
    match b case Raw(d) => d case Zip(d, l) => c.compress(d, l)
  }

  function BlockBytes(c: Codec, b: Block): string { Ln(BlockHeader(c, b)) + BlockPayload(c, b) }

  function BlocksBytes(c: Codec, bs: seq<Block>): string {
    if bs == [] then "" else BlockBytes(c, bs[0]) + BlocksBytes(c, bs[1..])
  }

  function BlocksData(bs: seq<Block>): string {
    if bs == [] then "" else bs[0].data + BlocksData(bs[1..])
  }

  predicate BlocksOk(c: Codec, bs: seq<Block>) {
    forall i | 0 <= i < |bs| :: BlockOk(c, bs[i])
  }

  /** A large body: announced in one piece, or a sequence of blocks. */
  datatype Body = Whole(data: string) | Pieces(blocks: seq<Block>)

  function BodyData(b: Body): string {
    match b case Whole(d) => d case Pieces(bs) => BlocksData(bs)
  }

  predicate BodyOk(c: Codec, b: Body) {
    match b case Whole(d) => |d| <= U64_MAX case Pieces(bs) => BlocksOk(c, bs)
  }

  function BodyHeader(b: Body): string {
    match b case Whole(d) => "R " + Dec(|d|) case Pieces(_) => "Z"
  }

  /** The bytes behind the header line. */
  function BodyRest(c: Codec, b: Body): string {
    match b case Whole(d) => d case Pieces(bs) => BlocksBytes(c, bs) + Ln("E")
  }

  function BodyBytes(c: Codec, b: Body): string { Ln(BodyHeader(b)) + BodyRest(c, b) }

  // ------------------------------------------------------------------ what the receiver parses

  /** A body received in full with the stream behind it, or cut short by an error with what had
      been written by then. */
  datatype Recv = Got(data: string, rest: string) | Cut(partial: string)

  function Num(hdr: string, k: nat): nat { OrElse(ParseU64(Field(hdr, k)), 0) }

  function RecvRaw(n: nat, s: string, chunk: nat): Recv
    requires chunk > 0
  {
    if n <= |s| then Got(s[..n], s[n..]) else Cut(s[..Salvaged(|s|, n, chunk)])
  }

  function RecvZip(c: Codec, clen: nat, rlen: nat, s: string): Recv {
    if clen > |s| then Cut("")
    else match c.decompress(s[..clen], rlen)
      case None => Cut("")
      case Some(d) => Got(d, s[clen..])
  }

  /** `recv_bundle_file`, behind its header line: anything but `Z` is raw. */
  function RecvBundleFile(c: Codec, hdr: string, s: string): Recv {
    if Field(hdr, 0) == "Z" then RecvZip(c, Num(hdr, 1), Num(hdr, 2), s)
    else RecvRaw(Num(hdr, 1), s, COPY_CHUNK)
  }

  /** One block of a large body: anything but `R` is compressed. */
  function RecvPiece(c: Codec, hdr: string, s: string): Recv {
    if Field(hdr, 0) == "R" then RecvRaw(Num(hdr, 1), s, COPY_CHUNK)
    else RecvZip(c, Num(hdr, 1), Num(hdr, 2), s)
  }

  function RecvPieces(c: Codec, s: string): (r: Recv)
    ensures r.Got? ==> |r.rest| <= |s|
    decreases |s|
  {
    if s == "" then Cut("")
    else if Line(s) == "E" then Got("", AfterLine(s))
    else
      match RecvPiece(c, Line(s), AfterLine(s))
      case Cut(p) => Cut(p)
      case Got(d, t) =>
        match RecvPieces(c, t)
        case Cut(p) => Cut(d + p)
        case Got(more, u) => Got(d + more, u)
  }

  /** `recv_large_body`, behind its header line. */
  function RecvBody(c: Codec, hdr: string, s: string): (r: Recv)
    ensures r.Got? ==> |r.rest| <= |s|
  {
    if hdr == "Z" then RecvPieces(c, s) else RecvRaw(Num(hdr, 1), s, BLOCK_SIZE)
  }

  /** What a header means that no server writes: behind a tag other than `R` and `Z` a bundle entry is raw and
      a block is compressed; a missing or malformed number is 0. */
  lemma OtherTags(c: Codec, tag: string, n: string, s: string)
    requires Avoids(tag, {' '}) && Avoids(n, {' '}) && tag !in {"R", "Z"}
    ensures var h := tag + " " + n;
            var k := OrElse(ParseU64(n), 0);
            (k <= |s| ==> RecvBundleFile(c, h, s) == Got(s[..k], s[k..]))
            && RecvPiece(c, h, s) == (if k > |s| then Cut("")
                                      else match c.decompress(s[..k], 0)
                                           case None => Cut("")
                                           case Some(d) => Got(d, s[k..]))
  {
    hide ParseU64;
    SplitTwo(tag, n);
    assert ParseU64("0") == Some(0) by { ZeroParses(); }
  }

  lemma ZeroParses()
    ensures ParseU64("0") == Some(0)
  {
    assert DigitsValue("0"[..0]) == 0;
  }

  // ------------------------------------------------------------------ round trips

  lemma SplitTwo(a: string, b: string)
    requires Avoids(a, {' '}) && Avoids(b, {' '})
    ensures Split(a + " " + b, {' '}) == [a, b]
  {
    SplitAt(a, ' ', b, {' '});
    SplitAvoiding(b, {' '});
  }

  lemma SplitThree(a: string, b: string, c: string)
    requires Avoids(a, {' '}) && Avoids(b, {' '}) && Avoids(c, {' '})
    ensures Split(a + " " + b + " " + c, {' '}) == [a, b, c]
  {
    hide Split;
    SplitTwo(b, c);
    SplitAt(a, ' ', b + " " + c, {' '});
    assert a + " " + b + " " + c == a + [' '] + (b + " " + c);
  }

  /** Texts without line breaks and carriage returns stay so when joined. */
  lemma PlainConcat(a: string, b: string)
    requires Avoids(a, {'\n', '\r'}) && Avoids(b, {'\n', '\r'})
    ensures Avoids(a + b, {'\n', '\r'}) && LineSafe(a + b)
  {
  }

  lemma HeaderShape(tag: string, x: string, y: string)
    requires tag in {"R", "Z"}
    requires Avoids(x, {' ', '\n', '\r'}) && Avoids(y, {' ', '\n', '\r'})
    ensures Split(tag + " " + x, {' '}) == [tag, x] && LineSafe(tag + " " + x)
    ensures Split(tag + " " + x + " " + y, {' '}) == [tag, x, y] && LineSafe(tag + " " + x + " " + y)
  {
    SplitTwo(tag, x);
    SplitThree(tag, x, y);
    PlainConcat(tag + " ", x);
    PlainConcat(tag + " " + x, " ");
    PlainConcat(tag + " " + x + " ", y);
  }

  lemma RawFields(n: nat)
    requires n <= U64_MAX
    ensures var h := "R " + Dec(n);
            Field(h, 0) == "R" && Num(h, 1) == n && LineSafe(h) && h !in {"Z", "E", "-1"}
  {
    DecIsPlain(n);
    ParseDec(n);
    HeaderShape("R", Dec(n), "");
    assert "R" + " " == "R ";
  }

  lemma ZipFields(m: nat, n: nat)
    requires m <= U64_MAX && n <= U64_MAX
    ensures var h := "Z " + Dec(m) + " " + Dec(n);
            Field(h, 0) == "Z" && Num(h, 1) == m && Num(h, 2) == n && LineSafe(h) && h !in {"Z", "E", "-1"}
  {
    DecIsPlain(m);
    DecIsPlain(n);
    ParseDec(m);
    ParseDec(n);
    ZipShape(Dec(m), Dec(n));
  }

  lemma ZipShape(x: string, y: string)
    requires x != "" && Avoids(x, {' ', '\n', '\r'}) && Avoids(y, {' ', '\n', '\r'})
    ensures var h := "Z " + x + " " + y;
            Split(h, {' '}) == ["Z", x, y] && LineSafe(h) && h !in {"Z", "E", "-1"}
  {
    HeaderShape("Z", x, y);
    assert "Z" + " " == "Z ";
    assert ("Z " + x + " " + y)[0] == 'Z' && |"Z " + x + " " + y| > 2;
  }

  /** A written block is parsed back by both of the receiver's block readers, which leave the
      stream exactly behind it. */
  lemma BlockRoundTrip(c: Codec, b: Block, rest: string)
    requires Lawful(c) && BlockOk(c, b)
    ensures var h := BlockHeader(c, b);
            LineSafe(h) && h !in {"Z", "E", "-1"}
            && RecvBundleFile(c, h, BlockPayload(c, b) + rest) == Got(b.data, rest)
            && RecvPiece(c, h, BlockPayload(c, b) + rest) == Got(b.data, rest)
  {
    var s := BlockPayload(c, b) + rest;
    assert s[..|BlockPayload(c, b)|] == BlockPayload(c, b) && s[|BlockPayload(c, b)|..] == rest;
    match b {
      case Raw(d) => RawFields(|d|);
      case Zip(d, l) =>
        ZipFields(|c.compress(d, l)|, |d|);
        assert c.decompress(c.compress(d, l), |d|) == Some(d);
    }
  }

  lemma PieceRoundTrip(c: Codec, b: Block, more: string)
    requires Lawful(c) && BlockOk(c, b)
    ensures RecvPieces(c, BlockBytes(c, b) + more) ==
            match RecvPieces(c, more)
            case Cut(p) => Cut(b.data + p)
            case Got(d, rest) => Got(b.data + d, rest)
  {
    hide BlockHeader, BlockPayload, RecvPiece, Line, AfterLine, Lawful, BlockOk;
    var h, p := BlockHeader(c, b), BlockPayload(c, b);
    BlockRoundTrip(c, b, more);
    Regroup3(Ln(h), p, more);
    LineOf(h, p + more);
  }

  /** Any sequence of raw and compressed blocks is parsed back. */
  lemma {:induction false} PiecesRoundTrip(c: Codec, bs: seq<Block>, rest: string)
    requires Lawful(c) && BlocksOk(c, bs)
    ensures RecvPieces(c, BlocksBytes(c, bs) + Ln("E") + rest) == Got(BlocksData(bs), rest)
  {
    hide BlockBytes, BlockOk, Lawful;
    if bs == [] {
      assert "" + Ln("E") == Ln("E");
      LineOf("E", rest);
    } else {
      hide RecvPieces, Ln;
      var b, tail := BlockBytes(c, bs[0]), BlocksBytes(c, bs[1..]);
      PiecesRoundTrip(c, bs[1..], rest);
      PieceRoundTrip(c, bs[0], tail + Ln("E") + rest);
      Regroup3(b, tail, Ln("E"));
      Regroup3(b, tail + Ln("E"), rest);
    }
  }

  /** The large-body round trip: whatever mix of blocks the sender chose, the receiver recovers
      the content and stops exactly at the next control line. */
  lemma BodyRoundTrip(c: Codec, b: Body, rest: string)
    requires Lawful(c) && BodyOk(c, b)
    ensures LineSafe(BodyHeader(b)) && BodyHeader(b) != "-1"
    ensures RecvBody(c, BodyHeader(b), BodyRest(c, b) + rest) == Got(BodyData(b), rest)
  {
    match b {
      case Whole(d) =>
        RawFields(|d|);
        assert (d + rest)[..|d|] == d && (d + rest)[|d|..] == rest;
      case Pieces(bs) => PiecesRoundTrip(c, bs, rest);
    }
  }

  /** The raw form announces `remain` bytes and then sends what the file yields, at most that many: the
      receiver stays in step exactly when the file has not become shorter. A file that has grown does
      no harm. */
  lemma RawStaysFramedIff(c: Codec, content: string, remain: nat, rest: string)
    requires remain <= U64_MAX
    ensures var sent := content[..if remain < |content| then remain else |content|];
            RecvBody(c, "R " + Dec(remain), sent + rest) == Got(sent, rest) <==> |content| >= remain
  {
    RawFields(remain);
    var sent := content[..if remain < |content| then remain else |content|];
    assert (sent + rest)[..|sent|] == sent && (sent + rest)[|sent|..] == rest;
  }

  // ------------------------------------------------------------------ manifests

  datatype Entry = Entry(size: nat, mtime: int, rel: string)

  function EntryLine(e: Entry): string { Dec(e.size) + " " + DecInt(e.mtime) + " " + e.rel }

  /** Entries a server can offer: machine-sized numbers and a name a control line can carry. */
  predicate EntryOk(e: Entry) {
    e.size <= U64_MAX && I64_MIN <= e.mtime <= I64_MAX && RelOk(e.rel)
  }

  predicate RelOk(rel: string) {
    rel != "" && Avoids(rel, {'\n'}) && rel[|rel| - 1] != '\r'
  }

  /** The first position of `c`. */
  function Find(s: string, c: char): (k: Option<nat>)
    ensures k.Some? ==> k.value < |s| && s[k.value] == c
  {
    if s == "" then None
    else if s[0] == c then Some(0)
    else match Find(s[1..], c) case None => None case Some(k) => Some(k + 1)
  }

  /** `parse_three`: `<size> <mtime> <rel>`, the name may contain spaces. */
  function ParseThree(s: string): Option<Entry> {
    match Find(s, ' ')
    case None => None
    case Some(i) =>
      var rest := s[i + 1..];
      match (ParseU64(s[..i]), Find(rest, ' ')) {
        case (Some(size), Some(j)) =>
          (match ParseI64(rest[..j])
           case None => None
           case Some(mt) => if rest[j + 1..] == "" then None else Some(Entry(size, mt, rest[j + 1..])))
        case _ => None
      }
  }

  lemma {:induction false} FindAt(head: string, c: char, tail: string)
    requires Avoids(head, {c})
    ensures Find(head + [c] + tail, c) == Some(|head|)
  {
    var s := head + [c] + tail;
    if head != "" {
      assert s[1..] == head[1..] + [c] + tail;
      FindAt(head[1..], c, tail);
    }
  }

  lemma ParseThreeOf(a: string, b: string, rel: string)
    requires Avoids(a, {' '}) && Avoids(b, {' '})
    ensures ParseThree(a + " " + b + " " + rel) ==
            match (ParseU64(a), ParseI64(b))
            case (Some(size), Some(mt)) => if rel == "" then None else Some(Entry(size, mt, rel))
            case _ => None
  {
    var s, rest := a + " " + b + " " + rel, b + [' '] + rel;
    assert s == a + [' '] + rest;
    FindAt(a, ' ', rest);
    FindAt(b, ' ', rel);
    assert s[..|a|] == a && s[|a| + 1..] == rest;
    assert rest[..|b|] == b && rest[|b| + 1..] == rel;
  }

  /** Every entry a server can offer is parsed back from its manifest line, spaces and all. */
  lemma EntryRoundTrip(e: Entry)
    requires EntryOk(e)
    ensures LineSafe(EntryLine(e)) && ParseThree(EntryLine(e)) == Some(e)
  {
    DecIsPlain(e.size);
    DecIsPlain(e.mtime);
    ParseDec(e.size);
    ParseDecInt(e.mtime);
    ParseThreeOf(Dec(e.size), DecInt(e.mtime), e.rel);
    EntryLineSafe(Dec(e.size), DecInt(e.mtime), e.rel);
  }

  lemma EntryLineSafe(a: string, b: string, rel: string)
    requires a != "" && Avoids(a, {'\n', '\r'}) && Avoids(b, {'\n', '\r'}) && RelOk(rel)
    ensures LineSafe(a + " " + b + " " + rel)
  {
  }

  function EntryLines(es: seq<Entry>): (ls: seq<string>)
    ensures |ls| == |es|
  {
    if es == [] then [] else [EntryLine(es[0])] + EntryLines(es[1..])
  }

  function LinesBytes(ls: seq<string>): string {
    if ls == [] then "" else Ln(ls[0]) + LinesBytes(ls[1..])
  }

  /** `count` lines off the stream, or `None` when it ends first. */
  function ReadLines(count: nat, s: string): (r: Option<(seq<string>, string)>)
    ensures r.Some? ==> |r.value.0| == count && |r.value.1| <= |s|
  {
    if count == 0 then Some(([], s))
    else if s == "" then None
    else match ReadLines(count - 1, AfterLine(s))
      case None => None
      case Some((ls, rest)) => Some(([Line(s)] + ls, rest))
  }

  /** The manifest the receiver understands: a line that does not parse is a null entry. */
  function ParseAll(ls: seq<string>): (r: seq<Option<Entry>>)
    ensures |r| == |ls|
  {
    if ls == [] then [] else [ParseThree(ls[0])] + ParseAll(ls[1..])
  }

  /** A manifest whose every line parsed. */
  function Known(es: seq<Entry>): (r: seq<Option<Entry>>)
    ensures |r| == |es|
  {
    if es == [] then [] else [Some(es[0])] + Known(es[1..])
  }

  lemma ReadLinesCons(count: nat, l: string, more: string, s: string)
    requires LineSafe(l) && s == Ln(l) + more
    requires ReadLines(count, more).Some?
    ensures ReadLines(count + 1, s) ==
            Some(([l] + ReadLines(count, more).value.0, ReadLines(count, more).value.1))
  {
    LineOf(l, more);
  }

  lemma {:induction false} LinesRoundTrip(ls: seq<string>, rest: string)
    requires forall i | 0 <= i < |ls| :: LineSafe(ls[i])
    ensures ReadLines(|ls|, LinesBytes(ls) + rest) == Some((ls, rest))
  {
    if ls == [] {
      assert LinesBytes(ls) + rest == rest;
    } else {
      var more := LinesBytes(ls[1..]) + rest;
      LinesRoundTrip(ls[1..], rest);
      Regroup3(Ln(ls[0]), LinesBytes(ls[1..]), rest);
      ReadLinesCons(|ls| - 1, ls[0], more, LinesBytes(ls) + rest);
      assert [ls[0]] + ls[1..] == ls;
    }
  }

  lemma {:induction false} EntryLinesRoundTrip(es: seq<Entry>)
    requires forall i | 0 <= i < |es| :: EntryOk(es[i])
    ensures ParseAll(EntryLines(es)) == Known(es)
    ensures forall i | 0 <= i < |es| :: LineSafe(EntryLines(es)[i])
  {
    hide EntryLine, ParseThree, LineSafe, EntryOk;
    if es != [] {
      EntryRoundTrip(es[0]);
      EntryLinesRoundTrip(es[1..]);
      assert EntryLines(es)[1..] == EntryLines(es[1..]);
    }
  }

  /** A whole manifest survives the wire, and the stream behind it is untouched. */
  lemma ManifestRoundTrip(es: seq<Entry>, rest: string)
    requires forall i | 0 <= i < |es| :: EntryOk(es[i])
    ensures ReadLines(|es|, LinesBytes(EntryLines(es)) + rest) == Some((EntryLines(es), rest))
    ensures ParseAll(EntryLines(es)) == Known(es)
  {
    EntryLinesRoundTrip(es);
    LinesRoundTrip(EntryLines(es), rest);
  }
}
