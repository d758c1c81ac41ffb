/** What the download client does with any byte stream, as functions of its state and the
    stream: the reference its imperative half is proved against. */
module Receiver {
  import opened Text
  import opened Wire
  import opened Frames
  import opened Paths
  import opened Mtime

  /** A file under the destination. */
  datatype File = File(data: string, modified: int)

  type Files = map<Path, File>

  /** The constants of one run: the destination, the compression library, and the modification
      time the system gives a file while it is being written. */
  datatype Site = Site(to: Path, codec: Codec, now: int)

  /** The state of a run. `dirs` holds the directories the server asked for by name; those
      implied by files are left implicit. `out` is everything said to the server. */
  datatype St = St(files: Files, dirs: set<Path>, seen: set<Path>, roots: set<Path>,
                   got: nat, skipped: nat, bytes: nat, out: string)

  /** Where handling an item leaves the run: in step, with the stream behind the item, or broken
      off by an error. */
  datatype Step = Go(st: St, rest: string) | Halt(st: St)

  // ------------------------------------------------------------------ deciding

  /** `need_fetch`: is the local file missing, of another size or of another time? */
  predicate NeedFetch(files: Files, p: Path, size: nat, mtime: int) {
    p !in files || |files[p].data| != size || ToTicks(files[p].modified) != mtime
  }

  function RecordRoot(to: Path, roots: set<Path>, rel: string): set<Path> {
    match RootOf(to, rel) case None => roots case Some(r) => roots + {r}
  }

  /** An offered, safe name: its mirror root and its path are recorded. */
  function Note(site: Site, st: St, rel: string, p: Path): St {
    st.(roots := RecordRoot(site.to, st.roots, rel), seen := st.seen + {p})
  }

  /** A wanted bundle entry: where it goes and the time it gets. */
  datatype Slot = Slot(path: Path, mtime: int)

  function PlanOne(site: Site, st: St, it: Option<Entry>, stream: bool): (St, Option<Slot>) {
    match it
    case None => (st, None)
    case Some(e) =>
      match SafeJoin(site.to, e.rel)
      case None => (st, None)
      case Some(p) =>
        var st1 := Note(site, st, e.rel, p);
        if stream || NeedFetch(st.files, p, e.size, e.mtime) then (st1, Some(Slot(p, e.mtime)))
        else (st1.(skipped := st1.skipped + 1), None)
  }

  function Plan(site: Site, st: St, items: seq<Option<Entry>>, stream: bool): (r: (St, seq<Option<Slot>>))
    ensures |r.1| == |items|
    decreases |items|
  {
    if items == [] then (st, [])
    else
      var (st1, slot) := PlanOne(site, st, items[0], stream);
      var (st2, slots) := Plan(site, st1, items[1..], stream);
      (st2, [slot] + slots)
  }

  function Mask(slots: seq<Option<Slot>>): (m: string)
    ensures |m| == |slots|
  {
    if slots == [] then ""
    else (if slots[0].Some? then "1" else "0") + Mask(slots[1..])
  }

  // ------------------------------------------------------------------ writing

  function Write(st: St, p: Path, mtime: int, data: string): St {
    st.(files := st.files[p := File(data, FromTicks(mtime))], got := st.got + 1, bytes := st.bytes + |data|)
  }

  /** A write broken off: the file was created, holds what had arrived, and keeps the time of the
      attempt because the offered time is only set at the end. */
  function Spoil(site: Site, st: St, p: Path, partial: string): St {
    st.(files := st.files[p := File(partial, site.now)])
  }

  function Say(st: St, l: string): St { st.(out := st.out + Ln(l)) }

  /** The bodies of a bundle. Without masks every entry has a body and the unwanted ones are
      discarded; with masks only the wanted ones have. */
  function Bodies(site: Site, st: St, slots: seq<Option<Slot>>, s: string, stream: bool): (r: Step)
    ensures r.Go? ==> |r.rest| <= |s|
    decreases |slots|
  {
    if slots == [] then Go(st, s)
    else if slots[0].None? && !stream then Bodies(site, st, slots[1..], s, stream)
    else if s == "" then Halt(st)
    else if Line(s) == "-1" then Bodies(site, st, slots[1..], AfterLine(s), stream)
    else
      match RecvBundleFile(site.codec, Line(s), AfterLine(s))
      case Cut(partial) => Halt(Broken(site, st, slots[0], partial))
      case Got(data, rest) => Bodies(site, Placed(st, slots[0], data), slots[1..], rest, stream)
  }

  function Placed(st: St, slot: Option<Slot>, data: string): St {
    match slot case None => st case Some(t) => Write(st, t.path, t.mtime, data)
  }

  function Broken(site: Site, st: St, slot: Option<Slot>, partial: string): St {
    match slot case None => st case Some(t) => Spoil(site, st, t.path, partial)
  }

  // ------------------------------------------------------------------ items

  function HandleDir(site: Site, st: St, rel: string): St {
    match SafeJoin(site.to, rel)
    case None => st
    case Some(p) => st.(dirs := st.dirs + {p}, roots := RecordRoot(site.to, st.roots, rel))
  }

  function HandleBundle(site: Site, st: St, count: nat, s: string, stream: bool): (r: Step)
    ensures r.Go? ==> |r.rest| <= |s|
  {
    match ReadLines(count, s)
    case None => Halt(st)
    case Some((ls, t)) =>
      var (st1, slots) := Plan(site, st, ParseAll(ls), stream);
      Bodies(site, if stream then st1 else Say(st1, Mask(slots)), slots, t, stream)
  }

  /** The body of a large file, for a target or to be discarded. */
  function LargeBody(site: Site, st: St, slot: Option<Slot>, s: string): (r: Step)
    ensures r.Go? ==> |r.rest| <= |s|
  {
    if s == "" then Halt(st)
    else if Line(s) == "-1" then Go(st, AfterLine(s))
    else
      match RecvBody(site.codec, Line(s), AfterLine(s))
      case Cut(partial) => Halt(Broken(site, st, slot, partial))
      case Got(data, rest) => Go(Placed(st, slot, data), rest)
  }

  function HandleLarge(site: Site, st: St, e: Entry, s: string, stream: bool): (r: Step)
    ensures r.Go? ==> |r.rest| <= |s|
  {
    match SafeJoin(site.to, e.rel)
    case None => if stream then LargeBody(site, st, None, s) else Go(Say(st, "-1"), s)
    case Some(p) =>
      var st1 := Note(site, st, e.rel, p);
      if stream then LargeBody(site, st1, Some(Slot(p, e.mtime)), s)
      else if !NeedFetch(st.files, p, e.size, e.mtime) then
        Go(Say(st1, "-1").(skipped := st1.skipped + 1), s)
      else LargeBody(site, Say(st1, "0"), Some(Slot(p, e.mtime)), s)
  }

  /** One line of the item stream; unknown lines are ignored. */
  function Dispatch(site: Site, st: St, h: string, s: string, stream: bool): (r: Step)
    ensures r.Go? ==> |r.rest| <= |s|
  {
    if StartsWith(h, "D ") then Go(HandleDir(site, st, h[2..]), s)
    else if StartsWith(h, "B ") then HandleBundle(site, st, OrElse(ParseU64(Trim(h[2..])), 0), s, stream)
    else if StartsWith(h, "F ") then
      match ParseThree(h[2..])
      case None => Go(st, s)
      case Some(e) => HandleLarge(site, st, e, s, stream)
    else Go(st, s)
  }

  // ------------------------------------------------------------------ runs

  /** How a single-stream run ends: `DONE` received, a close or an unknown line between items, or
      an error inside an item. */
  datatype Finish = Clean(st: St) | Unclean(st: St) | Lost(st: St)

  /** The item loop of a pass, from any point of it, and all that follows. */
  function Items(site: Site, st: St, s: string): Finish
    decreases |s|
  {
    if s == "" then Unclean(st)
    else
      var h, t := Line(s), AfterLine(s);
      if h == "PASS-END" then Between(site, st, t)
      else if h == "PING" || StartsWith(h, "T ") then Items(site, st, t)
      else
        match Dispatch(site, st, h, t, false)
        case Halt(st1) => Lost(st1)
        case Go(st1, u) => Items(site, st1, u)
  }

  /** Between two passes. The `seen` set starts empty with each pass, the mirror roots do not. */
  function Between(site: Site, st: St, s: string): Finish
    decreases |s|
  {
    if s == "" then Unclean(st)
    else
      var h, t := Line(s), AfterLine(s);
      if h == "PING" then Between(site, st, t)
      else if h == "GO" then Items(site, st.(seen := {}), t)
      else if h == "DONE" then Clean(st)
      else Unclean(st)
  }

  /** A whole single-stream run up to the mirror step. */
  function Sync(site: Site, st: St, s: string): Finish {
    Items(site, Say(st, "SYNC").(seen := {}), s)
  }

  /** A line that says nothing to the client. */
  predicate Unheard(l: string) {
    LineSafe(l) && l !in {"PASS-END", "PING", "NOUNIT"}
    && !("D " <= l) && !("B " <= l) && !("F " <= l && ParseThree(l[2..]).Some?)
  }

  /** What an unknown or malformed line does: among the items nothing (a parallel stream counts it as a unit),
      between two passes it ends the run, and not cleanly. */
  lemma UnheardLine(site: Site, st: St, l: string, more: string, stream: bool, n: nat)
    requires Unheard(l)
    ensures Items(site, st, Ln(l) + more) == Items(site, st, more)
    ensures Units(site, st, Ln(l) + more, stream, n) == Units(site, st, more, stream, n + 1)
    ensures l !in {"GO", "DONE"} ==> Between(site, st, Ln(l) + more) == Unclean(st)
  {
    LineOf(l, more);
  }

  /** The item loop of one parallel stream: the state, whether it ended with `NOUNIT`, and how many
      units it saw. */
  function Units(site: Site, st: St, s: string, stream: bool, n: nat): (r: (St, bool, nat))
    ensures r.2 >= n
    decreases |s|
  {
    if s == "" then (st, false, n)
    else
      var h, t := Line(s), AfterLine(s);
      if h == "NOUNIT" then (st, true, n)
      else if h == "PING" then Units(site, st, t, stream, n)
      else
        match Dispatch(site, st, h, t, stream)
        case Halt(st1) => (st1, false, n + 1)
        case Go(st1, u) => Units(site, st1, u, stream, n + 1)
  }
}
