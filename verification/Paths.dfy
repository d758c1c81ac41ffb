/** Joining a server-supplied name onto the destination, and the containment check. */
module Paths {
  import opened Text

  /** An absolute path as its components; the file-system root is `[]`. */
  type Path = seq<string>

  /** Both separators of the wire. */
  const SEPS: set<char> := {'/', '\\'}

  /** A component a path can hold. */
  predicate Component(s: string) { s != "" && '/' !in s }

  predicate WellFormed(p: Path) { forall i | 0 <= i < |p| :: Component(p[i]) }

  /** The text of a path, `to_string_lossy`. */
  function Render(p: Path): string { "/" + Join(p, '/') }

  /** `root_prefix`: the text of the destination ending in one separator. */
  function RootPrefix(to: Path): string {
    var s := Render(to);
    if s[|s| - 1] == '/' then s else s + "/"
  }

  /** Is `dir` a proper ancestor of `p`? */
  predicate Under(dir: Path, p: Path) { dir < p }

  // ------------------------------------------------------------------ lexical normalisation

  /** One step of the walk over the segments of a name. */
  function Enter(p: Path, seg: string): Path {
    if seg == "" || seg == "." then p
    else if seg == ".." then (if p == [] then [] else p[..|p| - 1])
    else p + [seg]
  }

  function Resolve(p: Path, segs: seq<string>): Path
    decreases |segs|
  {
    if segs == [] then p else Resolve(Enter(p, segs[0]), segs[1..])
  }

  /** The containment check as the receiver's specification uses it, on components. */
  function SafeJoin(to: Path, rel: string): Option<Path> {
    var p := Resolve(to, Split(rel, SEPS));
    if Under(to, p) then Some(p) else None
  }

  /** `<rel>`'s first non-empty segment. */
  function TopSegment(rel: string): Option<string> { FirstNonEmpty(Split(rel, SEPS)) }

  function FirstNonEmpty(parts: seq<string>): (r: Option<string>)
    ensures r.Some? ==> r.value != "" && r.value in parts
  {
    if parts == [] then None
    else if parts[0] != "" then Some(parts[0])
    else FirstNonEmpty(parts[1..])
  }

  /** The name with forward separators only. */
  function Forward(rel: string): string {
    if rel == "" then "" else [if rel[0] == '\\' then '/' else rel[0]] + Forward(rel[1..])
  }

  lemma {:induction false} SplitForward(rel: string)
    ensures Split(Forward(rel), {'/'}) == Split(rel, SEPS)
  {
    if rel != "" {
      SplitForward(rel[1..]);
      var f := Forward(rel);
      assert f[1..] == Forward(rel[1..]);
    }
  }

  /** Both separators mean the same: a name is its segments between them, walked from the destination. */
  lemma EitherSeparator(to: Path, rel: string)
    ensures SafeJoin(to, rel) == SafeJoin(to, Forward(rel)) && TopSegment(rel) == TopSegment(Forward(rel))
    ensures SafeJoin(to, rel) == var p := Resolve(to, Split(Forward(rel), {'/'})); if to < p then Some(p) else None
  {
    SplitForward(rel);
    SplitForward(Forward(rel));
    ForwardTwice(rel);
  }

  lemma {:induction false} ForwardTwice(rel: string)
    ensures Forward(Forward(rel)) == Forward(rel)
  {
    if rel != "" {
      ForwardTwice(rel[1..]);
      assert Forward(rel)[1..] == Forward(rel[1..]);
    }
  }

  // ------------------------------------------------------------------ the imperative check

  /** The original check: walk the segments over a mutable path, then compare texts. It agrees
      with the comparison of components for every destination but the file-system root. */
  method SafeJoinByText(to: Path, prefix: string, rel: string) returns (target: Option<Path>)
    requires WellFormed(to) && prefix == RootPrefix(to)
    ensures to != [] ==> target == SafeJoin(to, rel)
    ensures to == [] ==> target == Some(Resolve(to, Split(rel, SEPS)))
  {
    var out := to;
    var segs := Split(rel, SEPS);
    for i := 0 to |segs|
      invariant Resolve(out, segs[i..]) == Resolve(to, segs)
      invariant WellFormed(out)
    {
      var seg := segs[i];
      if seg == "" || seg == "." {
      } else if seg == ".." {
        if out != [] { out := out[..|out| - 1]; }
      } else {
        assert Avoids(seg, SEPS);
        out := out + [seg];
      }
      assert segs[i..][0] == segs[i] && segs[i..][1..] == segs[i + 1..];
    }
    PrefixByText(to, out);
    if StartsWith(Render(out), prefix) {
      return Some(out);
    }
    return None;
  }

  /** The text test is the component test: a sibling that merely shares a textual prefix is
      rejected, and so is the destination itself. */
  lemma PrefixByText(to: Path, out: Path)
    requires WellFormed(to) && WellFormed(out)
    ensures StartsWith(Render(out), RootPrefix(to)) <==> to == [] || Under(to, out)
  {
    if to != [] {
      RenderTail(to);
      JoinPrefix(to, out);
      assert RootPrefix(to) == "/" + (Join(to, '/') + "/");
      Cancel("/", Join(to, '/') + "/", Join(out, '/'));
    }
  }

  lemma Cancel(h: string, x: string, y: string)
    ensures h + x <= h + y <==> x <= y
  {
    if h + x <= h + y {
      assert x == (h + x)[|h|..] && y == (h + y)[|h|..];
    }
  }

  /** A rendered path below the root does not end in a separator. */
  lemma {:induction false} RenderTail(p: Path)
    requires WellFormed(p) && p != []
    ensures var s := Join(p, '/'); s != "" && s[|s| - 1] != '/' && s[0] != '/'
  {
    if |p| > 1 {
      RenderTail(p[1..]);
    }
    assert p[0][|p[0]| - 1] in p[0] && p[0][0] in p[0];
  }

  /** A joined path is its first component and what follows. */
  function Tail(p: Path): string
    requires p != []
  {
    if |p| == 1 then "" else "/" + Join(p[1..], '/')
  }

  lemma {:induction false} JoinPrefix(to: Path, out: Path)
    requires WellFormed(to) && WellFormed(out) && to != []
    ensures Join(to, '/') + "/" <= Join(out, '/') <==> to < out
    decreases |to|, 1
  {
    var a, b := Join(to, '/') + "/", Join(out, '/');
    if out != [] {
      var h, k := to[0], out[0];
      assert a == h + (Tail(to) + "/") && b == k + Tail(out);
      if a <= b {
        HeadsEqual(h, Tail(to) + "/", k, Tail(out));
      }
      if h == k {
        Cancel(h, Tail(to) + "/", Tail(out));
        TailPrefix(to, out);
      }
    }
  }

  lemma {:induction false} TailPrefix(to: Path, out: Path)
    requires WellFormed(to) && WellFormed(out) && to != [] && out != [] && to[0] == out[0]
    ensures Tail(to) + "/" <= Tail(out) <==> to < out
    decreases |to|, 0
  {
    assert to < out <==> to[1..] < out[1..] by { SameHead(to, out); }
    if |to| > 1 && |out| > 1 {
      JoinPrefix(to[1..], out[1..]);
      assert Tail(to) + "/" == "/" + (Join(to[1..], '/') + "/");
      Cancel("/", Join(to[1..], '/') + "/", Join(out[1..], '/'));
    }
  }

  lemma SameHead(p: Path, q: Path)
    requires p != [] && q != [] && p[0] == q[0]
    ensures p < q <==> p[1..] < q[1..]
  {
  }

  lemma HeadsEqual(h: string, at: string, k: string, bt: string)
    requires '/' !in h && '/' !in k
    requires at != "" && at[0] == '/' && (bt == "" || bt[0] == '/')
    requires h + at <= k + bt
    ensures h == k
  {
    var a, b := h + at, k + bt;
    assert forall i | 0 <= i < |h| :: a[i] == h[i] && h[i] in h;
    assert forall i | 0 <= i < |k| :: b[i] == k[i] && k[i] in k;
    assert a[|h|] == '/' && b[|h|] == '/';
    assert |h| >= |k|;
    assert |k| < |b| && b[|k|] == '/';
    assert a[|k|] == b[|k|];
    assert |h| == |k|;
    assert h == a[..|h|] == b[..|h|] == k;
  }

  // ------------------------------------------------------------------ consequences

  /** Segments that name something, as a server's own directory walk produces them. */
  predicate PlainSegment(s: string) {
    s != "" && s != "." && s != ".." && Avoids(s, SEPS)
  }

  predicate PlainSegments(segs: seq<string>) {
    segs != [] && forall i | 0 <= i < |segs| :: PlainSegment(segs[i])
  }

  lemma {:induction false} ResolvePlain(p: Path, segs: seq<string>)
    requires forall i | 0 <= i < |segs| :: PlainSegment(segs[i])
    ensures Resolve(p, segs) == p + segs
    decreases |segs|
  {
    if segs != [] {
      ResolvePlain(p + [segs[0]], segs[1..]);
      assert p + [segs[0]] + segs[1..] == p + segs;
    } else {
      assert p + segs == p;
    }
  }

  /** A name made of plain segments lands at those segments below the destination. */
  lemma SafeJoinPlain(to: Path, segs: seq<string>)
    requires PlainSegments(segs)
    ensures SafeJoin(to, Join(segs, '/')) == Some(to + segs)
    ensures TopSegment(Join(segs, '/')) == Some(segs[0])
  {
    SplitJoin(segs, '/', SEPS);
    ResolvePlain(to, segs);
  }

  /** The mirror root `record_root` derives from a name. */
  function RootOf(to: Path, rel: string): Option<Path> {
    match TopSegment(rel)
    case None => None
    case Some(top) => SafeJoin(to, top)
  }

  /** Whatever the server sends, a recorded mirror root is a direct child of the destination. */
  lemma RootIsChild(to: Path, rel: string)
    ensures RootOf(to, rel).Some? ==>
              exists top :: top != "" && RootOf(to, rel).value == to + [top]
  {
    var top := TopSegment(rel);
    if top.Some? {
      assert Avoids(top.value, SEPS);
      SplitAvoiding(top.value, SEPS);
      assert Resolve(to, [top.value]) == Resolve(Enter(to, top.value), []) == Enter(to, top.value);
      if RootOf(to, rel).Some? {
        assert RootOf(to, rel).value == to + [top.value];
      }
    }
  }

  // ------------------------------------------------------------------ does the root cover the name?

  predicate Dots(seg: string) { seg in {"", ".", ".."} }

  /** The components from depth n on were entered by name. */
  predicate PushedFrom(n: nat, p: Path) { forall i | n <= i < |p| :: !Dots(p[i]) }

  lemma {:induction false} ResolvePushed(n: nat, p: Path, segs: seq<string>)
    requires PushedFrom(n, p)
    ensures PushedFrom(n, Resolve(p, segs))
    decreases |segs|
  {
    if segs != [] {
      ResolvePushed(n, Enter(p, segs[0]), segs[1..]);
    }
  }

  /** The mirror root of a name, read off its first non-empty segment. */
  lemma RootOfIs(to: Path, rel: string)
    ensures RootOf(to, rel) ==
            match TopSegment(rel)
            case None => None
            case Some(top) => if Dots(top) then None else Some(to + [top])
  {
    var top := TopSegment(rel);
    if top.Some? {
      assert Avoids(top.value, SEPS);
      SplitAvoiding(top.value, SEPS);
      assert Resolve(to, [top.value]) == Enter(to, top.value);
    }
  }

  /** The last segment that takes a walk from depth n to depth n + 1. */
  function Entered(n: nat, depth: nat, segs: seq<string>, last: string): string
    decreases |segs|
  {
    if segs == [] then last
    else
      var seg := segs[0];
      if seg == "" || seg == "." then Entered(n, depth, segs[1..], last)
      else if seg == ".." then Entered(n, if depth == 0 then 0 else depth - 1, segs[1..], last)
      else Entered(n, depth + 1, segs[1..], if depth == n then seg else last)
  }

  lemma {:induction false} EnteredIs(n: nat, p: Path, segs: seq<string>, last: string)
    requires |p| > n ==> p[n] == last
    ensures var q := Resolve(p, segs); |q| > n ==> q[n] == Entered(n, |p|, segs, last)
    decreases |segs|
  {
    if segs != [] {
      var seg := segs[0];
      EnteredIs(n, Enter(p, seg), segs[1..], if Dots(seg) || |p| != n then last else seg);
    }
  }

  /** When an accepted name lies under the mirror root it records: exactly when the segment by which its
      walk last enters the destination is the name's first non-empty one. Any name made of plain segments
      does; a name with `.` or `..` in front of its own folder need not. */
  lemma RootCoversIff(to: Path, rel: string)
    requires SafeJoin(to, rel).Some?
    ensures var p := SafeJoin(to, rel).value;
            p[|to|] == Entered(|to|, |to|, Split(rel, SEPS), "")
            && (RootOf(to, rel).Some? && RootOf(to, rel).value <= p <==>
                  TopSegment(rel) == Some(Entered(|to|, |to|, Split(rel, SEPS), "")))
  {
    var p, segs := SafeJoin(to, rel).value, Split(rel, SEPS);
    ResolvePushed(|to|, to, segs);
    EnteredIs(|to|, to, segs, "");
    RootOfIs(to, rel);
    assert p[..|to| + 1] == to + [p[|to|]];
  }

  /** Two names that miss their root without ever leaving the destination: the one records another folder,
      the other records none. */
  lemma NamesThatMissTheirRoot(to: Path, a: string, b: string)
    requires PlainSegment(a) && PlainSegment(b) && a != b
    ensures var rel := Join([a, "..", b], '/');
            SafeJoin(to, rel) == Some(to + [b]) && RootOf(to, rel) == Some(to + [a])
    ensures var rel := Join([".", b], '/'); SafeJoin(to, rel) == Some(to + [b]) && RootOf(to, rel) == None
  {
    var one, two := [a, "..", b], [".", b];
    SplitJoin(one, '/', SEPS);
    SplitJoin(two, '/', SEPS);
    assert one[1..] == ["..", b] && one[1..][1..] == [b] && [b][1..] == [] && two[1..] == [b];
    assert (to + [a])[..|to|] == to;
    assert Resolve(to, [b]) == to + [b];
    assert Resolve(to + [a], one[1..]) == Resolve(to, [b]);
    RootOfIs(to, Join(one, '/'));
    RootOfIs(to, Join(two, '/'));
  }
}
