/** The download client's own form: methods that update files, sets and counters in place while
    reading a connection, proved against the functions of `Receiver` on every byte stream. */
module Client {
  import opened Text
  import opened Wire
  import opened Frames
  import opened Paths
  import opened Mtime
  import opened Receiver
  import opened Convergence

  class Client {
    const site: Site
    const conn: Conn
    var files: Files
    var dirs: set<Path>
    var seen: set<Path>
    var roots: set<Path>
    var got: nat
    var skipped: nat
    var bytes: nat
    var deleted: nat

    constructor (site: Site, conn: Conn, files: Files)
      ensures this.site == site && this.conn == conn && deleted == 0
      ensures View() == St(files, {}, {}, {}, 0, 0, 0, conn.Out())
    {
      this.site, this.conn, this.files := site, conn, files;
      dirs, seen, roots := {}, {}, {};
      got, skipped, bytes, deleted := 0, 0, 0, 0;
    }

    /** The abstract state. */
    function View(): St
      reads this, conn
    {
      St(files, dirs, seen, roots, got, skipped, bytes, conn.Out())
    }

    /** Is the run where a step of the specification leaves it? */
    ghost predicate At(step: Step, ok: bool)
      reads this, conn
    {
      match step
      case Go(st, rest) => ok && View() == st && conn.Unread() == rest
      case Halt(st) => !ok && View() == st
    }

    /** Is a body received as the specification says? */
    ghost predicate Received(r: Recv, data: string, ok: bool)
      reads conn
    {
      match r
      case Got(d, rest) => ok && data == d && conn.Unread() == rest
      case Cut(partial) => !ok && data == partial
    }

    /** What a received body leaves at its path: complete, it has the offered time and is counted; cut short,
        it has the time of the attempt, so that the next run asks for it again, and is not counted. */
    ghost predicate Written(a: St, b: St, slot: Slot, r: Recv) {
      match r
      case Got(data, _) =>
        b.files == a.files[slot.path := File(data, FromTicks(slot.mtime))]
        && b.got == a.got + 1 && b.bytes == a.bytes + |data|
      case Cut(partial) =>
        b.files == a.files[slot.path := File(partial, site.now)] && b.got == a.got && b.bytes == a.bytes
    }

    // ---------------------------------------------------------------- bodies

    method RecvZip(clen: nat, rlen: nat) returns (data: string, ok: bool)
      modifies conn`rbuf, conn`rest
      ensures Received(Frames.RecvZip(site.codec, clen, rlen, old(conn.Unread())), data, ok)
    {
      var cbuf := conn.ReadExact(clen);
      if cbuf == None { return "", false; }
      match site.codec.decompress(cbuf.value, rlen)
      case None => return "", false;
      case Some(d) => return d, true;
    }

    /** `recv_bundle_file`: what the writer got, and whether the body is complete. */
    method RecvBundleFile(hdr: string) returns (data: string, ok: bool)
      modifies conn`rbuf, conn`rest
      ensures Received(Frames.RecvBundleFile(site.codec, hdr, old(conn.Unread())), data, ok)
    {
      if Field(hdr, 0) == "Z" {
        data, ok := RecvZip(Num(hdr, 1), Num(hdr, 2));
      } else {
        data, ok := conn.CopyExact(Num(hdr, 1), COPY_CHUNK);
      }
    }

    /** One block of a large body. */
    method RecvPiece(hdr: string) returns (data: string, ok: bool)
      modifies conn`rbuf, conn`rest
      ensures Received(Frames.RecvPiece(site.codec, hdr, old(conn.Unread())), data, ok)
      ensures ok ==> |conn.Unread()| <= |old(conn.Unread())|
    {
      if Field(hdr, 0) == "R" {
        data, ok := conn.CopyExact(Num(hdr, 1), COPY_CHUNK);
      } else {
        data, ok := RecvZip(Num(hdr, 1), Num(hdr, 2));
      }
    }

    /** The block loop of a large body, up to `E`. */
    method RecvPieces() returns (data: string, ok: bool)
      requires conn.wbuf == ""
      modifies conn`rbuf, conn`rest, conn`stalls
      ensures conn.stalls == old(conn.stalls)
      ensures Received(Frames.RecvPieces(site.codec, old(conn.Unread())), data, ok)
    {
      hide Frames.RecvPiece, Line, AfterLine;
      ghost var goal := Frames.RecvPieces(site.codec, conn.Unread());
      data := "";
      PrependNothing(goal);
      while true
        invariant conn.stalls == old(conn.stalls)
        invariant goal == Prepend(data, Frames.RecvPieces(site.codec, conn.Unread()))
        decreases |conn.Unread()|
      {
        ghost var here, before := conn.Unread(), data;
        var ch := conn.ReadLine();
        if ch == None {
          assert before + "" == before;
          return data, false;
        }
        if ch.value == "E" {
          assert before + "" == before;
          return data, true;
        }
        var piece;
        piece, ok := RecvPiece(ch.value);
        data := data + piece;
        if !ok { return data, false; }
        PrependStep(site.codec, here, before, piece, conn.Unread());
      }
    }

    /** `recv_large_body`: a block loop, or one announced run of bytes. */
    method RecvLargeBody(hdr: string) returns (data: string, ok: bool)
      requires conn.wbuf == ""
      modifies conn`rbuf, conn`rest, conn`stalls
      ensures conn.stalls == old(conn.stalls)
      ensures Received(RecvBody(site.codec, hdr, old(conn.Unread())), data, ok)
    {
      if hdr == "Z" {
        data, ok := RecvPieces();
      } else {
        data, ok := conn.CopyExact(Num(hdr, 1), BLOCK_SIZE);
      }
    }

    // ---------------------------------------------------------------- bookkeeping

    /** `record_root`. */
    method RecordRoot(rel: string)
      modifies `roots
      ensures roots == Receiver.RecordRoot(site.to, old(roots), rel)
    {
      var top := TopSegment(rel);
      if top.Some? {
        var r := SafeJoin(site.to, top.value);
        if r.Some? { roots := roots + {r.value}; }
      }
    }

    /** Create the file, receive its body, then set its time: an error leaves what had arrived. */
    method WriteBundleFile(hdr: string, slot: Slot) returns (ok: bool)
      modifies conn`rbuf, conn`rest, `files, `got, `bytes
      ensures var r := Frames.RecvBundleFile(site.codec, hdr, old(conn.Unread()));
              match r
              case Got(data, rest) =>
                ok && View() == Write(old(View()), slot.path, slot.mtime, data) && conn.Unread() == rest
              case Cut(partial) => !ok && View() == Spoil(site, old(View()), slot.path, partial)
      ensures Written(old(View()), View(), slot, Frames.RecvBundleFile(site.codec, hdr, old(conn.Unread())))
    {
      hide Frames.RecvBundleFile, FromTicks;
      files := files[slot.path := File("", site.now)];
      var data: string;
      data, ok := RecvBundleFile(hdr);
      files := files[slot.path := File(data, site.now)];
      if !ok { return false; }
      files := files[slot.path := File(data, FromTicks(slot.mtime))];
      got, bytes := got + 1, bytes + |data|;
      return true;
    }

    // ---------------------------------------------------------------- items

    /** `handle_dir`. */
    method HandleDir(rel: string)
      modifies `dirs, `roots
      ensures View() == Receiver.HandleDir(site, old(View()), rel)
    {
      var p := SafeJoin(site.to, rel);
      if p.Some? {
        dirs := dirs + {p.value};
        RecordRoot(rel);
      }
    }

    method ReadManifest(count: nat) returns (items: seq<Option<Entry>>, ok: bool)
      requires conn.wbuf == ""
      modifies conn`rbuf, conn`rest, conn`stalls
      ensures conn.stalls == old(conn.stalls)
      ensures match ReadLines(count, old(conn.Unread()))
              case None => !ok
              case Some((ls, rest)) => ok && items == ParseAll(ls) && conn.Unread() == rest
    {
      ghost var s := conn.Unread();
      ghost var ls := [];
      items := [];
      PrependNoLines(ReadLines(count, s));
      for k := 0 to count
        invariant |ls| == k && items == ParseAll(ls) && conn.stalls == old(conn.stalls)
        invariant ReadLines(count, s) == PrependLines(ls, ReadLines(count - k, conn.Unread()))
      {
        var ml := conn.ReadLine();
        if ml == None { return items, false; }
        ParseAllSnoc(ls, ml.value);
        PrependLinesSnoc(ls, ml.value, ReadLines(count - k - 1, conn.Unread()));
        ls := ls + [ml.value];
        items := items + [ParseThree(ml.value)];
      }
      assert ls + [] == ls;
      return items, true;
    }

    /** One manifest entry: record it if it is safe, and decide whether to ask for it. */
    method PlanEntry(it: Option<Entry>, stream: bool) returns (slot: Option<Slot>)
      modifies `seen, `roots, `skipped
      ensures (View(), slot) == PlanOne(site, old(View()), it, stream)
    {
      if it == None { return None; }
      var e := it.value;
      var bt := SafeJoin(site.to, e.rel);
      if bt == None { return None; }
      RecordRoot(e.rel);
      seen := seen + {bt.value};
      if stream || NeedFetch(files, bt.value, e.size, e.mtime) {
        return Some(Slot(bt.value, e.mtime));
      }
      skipped := skipped + 1;
      return None;
    }

    /** The decision loop over a manifest: targets and mask grow together. */
    method PlanBundle(items: seq<Option<Entry>>, stream: bool) returns (mask: string, targets: seq<Option<Slot>>)
      modifies `seen, `roots, `skipped
      ensures (View(), targets) == Plan(site, old(View()), items, stream)
      ensures mask == Mask(targets)
    {
      hide PlanOne, Mask;
      ghost var goal := Plan(site, View(), items, stream);
      mask, targets := "", [];
      assert mask == Mask(targets) by { EmptyMask(); }
      assert items[0..] == items && [] + goal.1 == goal.1;
      for i := 0 to |items|
        invariant |targets| == i && mask == Mask(targets)
        invariant var r := Plan(site, View(), items[i..], stream); goal == (r.0, targets + r.1)
      {
        ghost var before := targets;
        assert items[i..][0] == items[i] && items[i..][1..] == items[i + 1..];
        var slot := PlanEntry(items[i], stream);
        MaskSnoc(targets, slot);
        mask := mask + if slot.Some? then "1" else "0";
        targets := targets + [slot];
        ghost var r := Plan(site, View(), items[i + 1..], stream);
        assert before + ([slot] + r.1) == targets + r.1;
      }
      assert targets + [] == targets;
    }

    /** `handle_bundle`. */
    method HandleBundle(count: nat, stream: bool) returns (ok: bool)
      requires conn.wbuf == ""
      modifies this, conn
      ensures conn.wbuf == "" && conn.stalls == old(conn.stalls) && deleted == old(deleted)
      ensures At(Receiver.HandleBundle(site, old(View()), count, old(conn.Unread()), stream), ok)
    {
      var items;
      items, ok := ReadManifest(count);
      if !ok { return false; }
      var mask, targets := PlanBundle(items, stream);
      if !stream {
        conn.SendLine(mask);
      }
      ghost var goal := Bodies(site, View(), targets, conn.Unread(), stream);
      assert targets[0..] == targets;
      for k := 0 to |targets|
        invariant conn.wbuf == "" && conn.stalls == old(conn.stalls) && deleted == old(deleted)
        invariant goal == Bodies(site, View(), targets[k..], conn.Unread(), stream)
      {
        assert targets[k..][0] == targets[k] && targets[k..][1..] == targets[k + 1..];
        if targets[k].None? && !stream { continue; }
        var hdr := conn.ReadLine();
        if hdr == None { return false; }
        if hdr.value == "-1" { continue; }
        match targets[k] {
          case Some(slot) => ok := WriteBundleFile(hdr.value, slot);
          case None =>
            var discarded;
            discarded, ok := RecvBundleFile(hdr.value);
        }
        if !ok { return false; }
      }
      return true;
    }

    /** Create the target, receive the body of a large file into it, then set its time. */
    method WriteLarge(hdr: string, slot: Slot) returns (ok: bool)
      requires conn.wbuf == ""
      modifies conn`rbuf, conn`rest, conn`stalls, `files, `got, `bytes
      ensures conn.stalls == old(conn.stalls)
      ensures match RecvBody(site.codec, hdr, old(conn.Unread()))
              case Got(data, rest) => ok && View() == Write(old(View()), slot.path, slot.mtime, data)
                  && conn.Unread() == rest
              case Cut(partial) => !ok && View() == Spoil(site, old(View()), slot.path, partial)
      ensures Written(old(View()), View(), slot, RecvBody(site.codec, hdr, old(conn.Unread())))
    {
      hide RecvBody, FromTicks;
      files := files[slot.path := File("", site.now)];
      var data: string;
      data, ok := RecvLargeBody(hdr);
      files := files[slot.path := File(data, site.now)];
      if !ok { return false; }
      files := files[slot.path := File(data, FromTicks(slot.mtime))];
      got, bytes := got + 1, bytes + |data|;
      return true;
    }

    /** The body of a large file, into its target or discarded. */
    method ReceiveLarge(slot: Option<Slot>) returns (ok: bool)
      requires conn.wbuf == ""
      modifies conn`rbuf, conn`rest, conn`stalls, `files, `got, `bytes
      ensures conn.stalls == old(conn.stalls)
      ensures At(LargeBody(site, old(View()), slot, old(conn.Unread())), ok)
    {
      hide RecvBody, Line, AfterLine, Write, Spoil;
      var hdr := conn.ReadLine();
      if hdr == None { return false; }
      if hdr.value == "-1" { return true; }
      match slot
      case Some(t) => ok := WriteLarge(hdr.value, t);
      case None =>
        var discarded;
        discarded, ok := RecvLargeBody(hdr.value);
    }

    /** `handle_large`. */
    method HandleLarge(e: Entry, stream: bool) returns (ok: bool)
      requires conn.wbuf == ""
      modifies this, conn
      ensures conn.wbuf == "" && conn.stalls == old(conn.stalls) && deleted == old(deleted)
      ensures At(Receiver.HandleLarge(site, old(View()), e, old(conn.Unread()), stream), ok)
    {
      hide LargeBody, RootOf;
      var target := SafeJoin(site.to, e.rel);
      if target.Some? {
        RecordRoot(e.rel);
        seen := seen + {target.value};
      }
      if stream {
        ok := ReceiveLarge(if target.Some? then Some(Slot(target.value, e.mtime)) else None);
        return;
      }
      if target == None {
        conn.SendLine("-1");
        return true;
      }
      if !NeedFetch(files, target.value, e.size, e.mtime) {
        conn.SendLine("-1");
        skipped := skipped + 1;
        return true;
      }
      conn.SendLine("0");
      ok := ReceiveLarge(Some(Slot(target.value, e.mtime)));
    }

    /** `dispatch_item`. */
    method DispatchItem(h: string, stream: bool) returns (ok: bool)
      requires conn.wbuf == ""
      modifies this, conn
      ensures conn.wbuf == "" && conn.stalls == old(conn.stalls) && deleted == old(deleted)
      ensures At(Dispatch(site, old(View()), h, old(conn.Unread()), stream), ok)
    {
      hide Receiver.HandleDir, Receiver.HandleBundle, Receiver.HandleLarge, Trim, ParseThree;
      ok := true;
      if StartsWith(h, "D ") {
        HandleDir(h[2..]);
      } else if StartsWith(h, "B ") {
        ok := HandleBundle(OrElse(ParseU64(Trim(h[2..])), 0), stream);
      } else if StartsWith(h, "F ") {
        var e := ParseThree(h[2..]);
        if e.Some? {
          ok := HandleLarge(e.value, stream);
        }
      }
    }

    // ---------------------------------------------------------------- runs

    /** The item loop of one pass; `more` is false when the connection closed. */
    method ReadPass() returns (more: bool, ok: bool)
      requires conn.wbuf == ""
      modifies this, conn
      ensures conn.wbuf == "" && conn.stalls == old(conn.stalls) && deleted == old(deleted)
      ensures Items(site, old(View()), old(conn.Unread())) ==
              if !ok then Lost(View()) else if !more then Unclean(View()) else Between(site, View(), conn.Unread())
      ensures ok && more ==> |conn.Unread()| < |old(conn.Unread())|
    {
      hide Dispatch, Line;
      ghost var goal := Items(site, View(), conn.Unread());
      while true
        invariant conn.wbuf == "" && conn.stalls == old(conn.stalls) && deleted == old(deleted)
        invariant |conn.Unread()| <= |old(conn.Unread())|
        invariant goal == Items(site, View(), conn.Unread())
        decreases |conn.Unread()|
      {
        var h := conn.ReadLine();
        if h == None { return false, true; }
        if h.value == "PASS-END" { return true, true; }
        if h.value == "PING" || StartsWith(h.value, "T ") { continue; }
        ok := DispatchItem(h.value, false);
        if !ok { return true, false; }
      }
    }

    /** The line after a pass, keepalives skipped; `None` when the connection closed. */
    method NextControl() returns (next: Option<string>)
      requires conn.wbuf == ""
      modifies conn`rbuf, conn`rest, conn`stalls
      ensures conn.stalls == old(conn.stalls) && |conn.Unread()| <= |old(conn.Unread())|
      ensures forall st ::
                Between(site, st, old(conn.Unread())) ==
                match next
                case None => Unclean(st)
                case Some(h) =>
                  if h == "GO" then Items(site, st.(seen := {}), conn.Unread())
                  else if h == "DONE" then Clean(st) else Unclean(st)
    {
      hide Items, Line;
      ghost var s := conn.Unread();
      while true
        invariant conn.stalls == old(conn.stalls) && |conn.Unread()| <= |s|
        invariant forall st :: Between(site, st, s) == Between(site, st, conn.Unread())
        decreases |conn.Unread()|
      {
        var d := conn.ReadLine();
        if d != Some("PING") { return d; }
      }
    }

    /** `run_passes`: pass after pass until `DONE`, a close or an error, then the mirror step if the
        finish was clean. */
    method RunPasses(ignored: string -> bool) returns (syncOk: bool, lost: bool)
      requires conn.wbuf == ""
      modifies this, conn
      ensures conn.wbuf == "" && conn.stalls == old(conn.stalls)
      ensures var run := Sync(site, old(View()), old(conn.Unread()));
              files == Settled(site, ignored, run)
              && syncOk == run.Clean? && lost == run.Lost?
              && seen == run.st.seen && roots == run.st.roots && dirs == run.st.dirs
              && got == run.st.got && skipped == run.st.skipped && bytes == run.st.bytes
              && conn.Out() == run.st.out + (if lost then "" else Ln("BYE"))
              && deleted == old(deleted) + |run.st.files| - |files|
    {
      hide Items, Between;
      ghost var goal := Sync(site, View(), conn.Unread());
      conn.SendLine("SYNC");
      var more := true;
      syncOk := false;
      while more
        invariant conn.wbuf == "" && conn.stalls == old(conn.stalls) && deleted == old(deleted) && !syncOk
        invariant goal == if more then Items(site, View().(seen := {}), conn.Unread()) else Unclean(View())
        decreases more, |conn.Unread()|
      {
        seen := {};
        var ok;
        more, ok := ReadPass();
        if !ok { return false, true; }
        if !more { break; }
        var next := NextControl();
        if next == Some("GO") { continue; }
        if next == Some("DONE") { syncOk := true; }
        break;
      }
      if syncOk {
        MirrorDelete(ignored);
      }
      conn.SendLine("BYE");
      return syncOk, false;
    }

    /** `serve_units`: one parallel stream up to `NOUNIT`. An error is forgiven only if no unit came. */
    method ServeUnits(stream: bool) returns (ok: bool)
      requires conn.wbuf == ""
      modifies this, conn
      ensures conn.wbuf == "" && conn.stalls == old(conn.stalls) && deleted == old(deleted)
      ensures var (st, finished, n) := Units(site, Say(old(View()), Greeting(stream)), old(conn.Unread()), stream, 0);
              ok == (finished || n == 0) && View() == if finished then Say(st, "BYE") else st
    {
      hide Dispatch, Line, AfterLine;
      ghost var goal := Units(site, Say(View(), Greeting(stream)), conn.Unread(), stream, 0);
      var units := 0;
      conn.SendLine(Greeting(stream));
      while true
        invariant conn.wbuf == "" && conn.stalls == old(conn.stalls) && deleted == old(deleted)
        invariant goal == Units(site, View(), conn.Unread(), stream, units)
        decreases |conn.Unread()|
      {
        var h := conn.ReadLine();
        if h == None { return units == 0; }
        if h.value == "NOUNIT" { break; }
        if h.value == "PING" { continue; }
        units := units + 1;
        ok := DispatchItem(h.value, stream);
        if !ok { return false; }
      }
      conn.SendLine("BYE");
      return true;
    }

    // ---------------------------------------------------------------- the mirror step

    /** `delete_unseen`: walk one directory, recurse into subdirectories, remove stale files. `depth`
        bounds how deep the files lie. */
    method DeleteUnseen(dir: Path, ignored: string -> bool, ghost depth: nat)
      requires forall p | p in files :: |p| <= depth
      modifies `files, `deleted
      ensures files == Without(site.to, ignored, seen, q => dir < q, old(files))
      ensures deleted == old(deleted) + |old(files)| - |files|
      decreases depth - |dir|, 1
    {
      hide Without;
      var names := set p | p in files && dir < p :: p[|dir|];
      var todo := names;
      ghost var done: set<string> := {};
      WithoutNames(site.to, ignored, seen, dir, files);
      while todo != {}
        invariant todo + done == names
        invariant forall p | p in files :: |p| <= depth
        invariant files == Without(site.to, ignored, seen, q => Through(dir, done, q), old(files))
        invariant deleted == old(deleted) + |old(files)| - |files|
        decreases todo
      {
        var name :| name in todo;
        assert |dir| < depth;
        ghost var before := files;
        DeleteEntry(dir + [name], ignored, depth);
        WithoutEntry(site.to, ignored, seen, dir, done, name, old(files), before);
        WithoutKeys(site.to, ignored, seen, q => Within(dir + [name], q), before);
        todo, done := todo - {name}, done + {name};
      }
      assert done == names;
      WithoutDir(site.to, ignored, seen, dir, names, old(files));
    }

    /** One directory entry of that walk. */
    method DeleteEntry(path: Path, ignored: string -> bool, ghost depth: nat)
      requires forall p | p in files :: |p| <= depth
      requires 0 < |path| <= depth
      modifies `files, `deleted
      ensures files == Without(site.to, ignored, seen, q => Within(path, q), old(files))
      ensures deleted == old(deleted) + |old(files)| - |files|
      decreases depth - |path|, 2
    {
      hide RelOf;
      ghost var before := files;
      if exists p | p in files :: path < p {
        DeleteUnseen(path, ignored, depth);
      } else {
        NoneBelow(site.to, ignored, seen, path, files);
      }
      WithoutLast(site.to, ignored, seen, path, before, files);
      if path in files && !ignored(RelOf(site.to, path)) && path !in seen {
        RemoveSize(files, path);
        files := files - {path};
        deleted := deleted + 1;
      }
    }

    /** `mirror_delete`: every recorded root in turn. */
    method MirrorDelete(ignored: string -> bool)
      modifies `files, `deleted
      ensures files == Convergence.MirrorDelete(site.to, ignored, seen, roots, old(files))
      ensures deleted == old(deleted) + |old(files)| - |files|
    {
      ghost var depth := Depth(files.Keys);
      var todo := roots;
      ghost var done: set<Path> := {};
      WithoutNothing(site.to, ignored, seen, files);
      while todo != {}
        invariant todo + done == roots
        invariant forall p | p in files :: |p| <= depth
        invariant files == Without(site.to, ignored, seen, q => UnderRoot(done, q), old(files))
        invariant deleted == old(deleted) + |old(files)| - |files|
        decreases todo
      {
        hide Without;
        var r :| r in todo;
        ghost var before := files;
        DeleteUnseen(r, ignored, depth);
        WithoutMore(site.to, ignored, seen, done, r, old(files), before);
        WithoutKeys(site.to, ignored, seen, q => r < q, before);
        todo, done := todo - {r}, done + {r};
      }
      assert done == roots;
      WithoutAll(site.to, ignored, seen, roots, old(files));
    }
  }

  /** How a stream asks for units. */
  function Greeting(stream: bool): string { if stream then "QSYNC STREAM" else "QSYNC" }

  predicate Within(path: Path, q: Path) { path <= q }

  /** The files without the stale ones among `here`. */
  function Without(to: Path, ignored: string -> bool, seen: set<Path>, here: Path -> bool, files: Files): Files {
    map p | p in files && !(here(p) && !ignored(RelOf(to, p)) && p !in seen) :: files[p]
  }

  /** Is `q` below `dir`, through one of these entries? */
  predicate Through(dir: Path, names: set<string>, q: Path) { dir < q && q[|dir|] in names }

  lemma WithoutEntry(to: Path, ignored: string -> bool, seen: set<Path>, dir: Path, done: set<string>, name: string,
      f: Files, g: Files)
    requires g == Without(to, ignored, seen, q => Through(dir, done, q), f)
    ensures Without(to, ignored, seen, q => Within(dir + [name], q), g)
            == Without(to, ignored, seen, q => Through(dir, done + {name}, q), f)
  {
  }

  lemma WithoutNames(to: Path, ignored: string -> bool, seen: set<Path>, dir: Path, f: Files)
    ensures Without(to, ignored, seen, q => Through(dir, {}, q), f) == f
  {
  }

  lemma WithoutDir(to: Path, ignored: string -> bool, seen: set<Path>, dir: Path, names: set<string>, f: Files)
    requires names == set p | p in f && dir < p :: p[|dir|]
    ensures Without(to, ignored, seen, q => Through(dir, names, q), f) == Without(to, ignored, seen, q => dir < q, f)
  {
  }

  lemma NoneBelow(to: Path, ignored: string -> bool, seen: set<Path>, path: Path, f: Files)
    requires !exists p | p in f :: path < p
    ensures Without(to, ignored, seen, q => path < q, f) == f
  {
  }

  /** Below a path and the path itself: all of its entry. */
  lemma WithoutLast(to: Path, ignored: string -> bool, seen: set<Path>, path: Path, f: Files, g: Files)
    requires g == Without(to, ignored, seen, q => path < q, f)
    ensures Without(to, ignored, seen, q => Within(path, q), f)
            == if path in g && !ignored(RelOf(to, path)) && path !in seen then g - {path} else g
  {
    forall q ensures Within(path, q) <==> q == path || path < q {}
  }

  lemma WithoutMore(to: Path, ignored: string -> bool, seen: set<Path>, done: set<Path>, r: Path, f: Files, g: Files)
    requires g == Without(to, ignored, seen, q => UnderRoot(done, q), f)
    ensures Without(to, ignored, seen, q => r < q, g) == Without(to, ignored, seen, q => UnderRoot(done + {r}, q), f)
  {
  }

  lemma WithoutKeys(to: Path, ignored: string -> bool, seen: set<Path>, here: Path -> bool, f: Files)
    ensures forall p | p in Without(to, ignored, seen, here, f) :: p in f
  {
  }

  lemma WithoutNothing(to: Path, ignored: string -> bool, seen: set<Path>, f: Files)
    ensures Without(to, ignored, seen, q => UnderRoot({}, q), f) == f
  {
  }

  lemma WithoutAll(to: Path, ignored: string -> bool, seen: set<Path>, roots: set<Path>, f: Files)
    ensures Without(to, ignored, seen, q => UnderRoot(roots, q), f)
        == Convergence.MirrorDelete(to, ignored, seen, roots, f)
  {
  }

  lemma RemoveSize(files: Files, p: Path)
    requires p in files
    ensures |files - {p}| == |files| - 1
  {
  }

  ghost function Depth(s: set<Path>): (d: nat)
    ensures forall p | p in s :: |p| <= d
  {
    if s == {} then 0
    else
      var p :| p in s;
      var d := Depth(s - {p});
      if |p| > d then |p| else d
  }

  /** A body whose first part has already been written. */
  function Prepend(data: string, r: Recv): Recv {
    match r case Got(d, rest) => Got(data + d, rest) case Cut(p) => Cut(data + p)
  }

  lemma PrependNothing(r: Recv)
    ensures Prepend("", r) == r
  {
  }

  lemma PiecesUnfold(c: Codec, here: string, piece: string, rest: string)
    requires here != "" && Line(here) != "E" && RecvPiece(c, Line(here), AfterLine(here)) == Got(piece, rest)
    requires |rest| < |here|
    ensures RecvPieces(c, here) == Prepend(piece, RecvPieces(c, rest))
  {
  }

  lemma PrependTwice(a: string, b: string, r: Recv)
    ensures Prepend(a, Prepend(b, r)) == Prepend(a + b, r)
  {
  }

  lemma PrependStep(c: Codec, here: string, before: string, piece: string, rest: string)
    requires here != "" && Line(here) != "E" && RecvPiece(c, Line(here), AfterLine(here)) == Got(piece, rest)
    requires |rest| < |here|
    ensures Prepend(before, RecvPieces(c, here)) == Prepend(before + piece, RecvPieces(c, rest))
  {
    hide *;
    PiecesUnfold(c, here, piece, rest);
    PrependTwice(before, piece, RecvPieces(c, rest));
  }

  /** Lines already read, ahead of those still to come. */
  function PrependLines(ls: seq<string>, r: Option<(seq<string>, string)>): Option<(seq<string>, string)> {
    match r case None => None case Some((more, rest)) => Some((ls + more, rest))
  }

  lemma PrependNoLines(r: Option<(seq<string>, string)>)
    ensures PrependLines([], r) == r
  {
    if r.Some? {
      assert [] + r.value.0 == r.value.0;
    }
  }

  lemma PrependLinesSnoc(ls: seq<string>, l: string, r: Option<(seq<string>, string)>)
    ensures PrependLines(ls + [l], r) == PrependLines(ls, PrependLines([l], r))
  {
    if r.Some? {
      assert ls + [l] + r.value.0 == ls + ([l] + r.value.0);
    }
  }

  lemma {:induction false} ParseAllSnoc(ls: seq<string>, l: string)
    ensures ParseAll(ls + [l]) == ParseAll(ls) + [ParseThree(l)]
  {
    hide ParseThree;
    if ls != [] {
      ParseAllSnoc(ls[1..], l);
      assert (ls + [l])[1..] == ls[1..] + [l];
    }
  }

  lemma EmptyMask()
    ensures Mask([]) == ""
  {
  }

  lemma {:induction false} MaskSnoc(slots: seq<Option<Slot>>, slot: Option<Slot>)
    ensures Mask(slots + [slot]) == Mask(slots) + if slot.Some? then "1" else "0"
  {
    if slots != [] {
      MaskSnoc(slots[1..], slot);
      assert (slots + [slot])[1..] == slots[1..] + [slot];
    }
  }
}
