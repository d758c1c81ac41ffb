/** Ignore patterns. The regular expressions the patterns compile to are a small syntax with the
    usual meaning of matching; case folding is any function on characters. */
module Ignore {
  import opened Text

  /** A literal, `.`, `[^/]`, `.*` and `[^/]*`. */
  datatype Tok = Lit(c: char) | One | SegOne | Any | SegAny

  /** Does the anchored expression match the whole text? `.` does not match a line break. */
  predicate Match(fold: char -> char, ts: seq<Tok>, s: string)
    decreases |ts|, |s|
  {
    if ts == [] then s == ""
    else match ts[0]
      case Lit(c) => s != "" && fold(s[0]) == fold(c) && Match(fold, ts[1..], s[1..])
      case One => s != "" && s[0] != '\n' && Match(fold, ts[1..], s[1..])
      case SegOne => s != "" && s[0] != '/' && Match(fold, ts[1..], s[1..])
      case Any => Match(fold, ts[1..], s) || (s != "" && s[0] != '\n' && Match(fold, ts, s[1..]))
      case SegAny => Match(fold, ts[1..], s) || (s != "" && s[0] != '/' && Match(fold, ts, s[1..]))
  }

  // ------------------------------------------------------------------ compiling patterns

  function GlobToks(g: string): seq<Tok> {
    if g == "" then []
    else if g[0] == '*' then
      if |g| > 1 && g[1] == '*' then [Any] + GlobToks(g[2..]) else [SegAny] + GlobToks(g[1..])
    else if g[0] == '?' then [SegOne] + GlobToks(g[1..])
    else [Lit(g[0])] + GlobToks(g[1..])
  }

  function NameToks(b: string): seq<Tok> {
    if b == "" then []
    else [if b[0] == '*' then Any else if b[0] == '?' then One else Lit(b[0])] + NameToks(b[1..])
  }

  /** `glob_to_regex`. */
  method GlobToRegex(glob: string) returns (pat: seq<Tok>)
    ensures pat == GlobToks(glob)
  {
    pat := [];
    var i := 0;
    assert glob[0..] == glob && [] + GlobToks(glob) == GlobToks(glob);
    while i < |glob|
      invariant 0 <= i <= |glob|
      invariant GlobToks(glob) == pat + GlobToks(glob[i..])
    {
      GlobAt(glob, i, pat);
      var c := glob[i];
      if c == '*' {
        if i + 1 < |glob| && glob[i + 1] == '*' {
          pat, i := pat + [Any], i + 2;
        } else {
          pat, i := pat + [SegAny], i + 1;
        }
      } else if c == '?' {
        pat, i := pat + [SegOne], i + 1;
      } else {
        pat, i := pat + [Lit(c)], i + 1;
      }
    }
    assert pat + [] == pat;
  }

  /** One step of the compilation. */
  lemma GlobAt(glob: string, i: nat, pat: seq<Tok>)
    requires i < |glob|
    ensures var c := glob[i]; var double := c == '*' && i + 1 < |glob| && glob[i + 1] == '*';
            pat + GlobToks(glob[i..]) ==
            pat + [if double then Any else if c == '*' then SegAny else if c == '?' then SegOne else Lit(c)]
            + GlobToks(glob[if double then i + 2 else i + 1..])
  {
  }

  /** `name_to_regex`. */
  method NameToRegex(body: string) returns (pat: seq<Tok>)
    ensures pat == NameToks(body)
  {
    hide NameToks;
    pat := [];
    assert body[0..] == body && [] + NameToks(body) == NameToks(body);
    for i := 0 to |body|
      invariant pat + NameToks(body[i..]) == NameToks(body)
    {
      NameAt(body, i, pat);
      var t := if body[i] == '*' then Any else if body[i] == '?' then One else Lit(body[i]);
      pat := pat + [t];
    }
    assert body[|body|..] == "";
    NameEnds(pat);
  }

  lemma NameAt(body: string, i: nat, pat: seq<Tok>)
    requires i < |body|
    ensures var t := if body[i] == '*' then Any else if body[i] == '?' then One else Lit(body[i]);
            pat + NameToks(body[i..]) == pat + [t] + NameToks(body[i + 1..])
  {
    var t := if body[i] == '*' then Any else if body[i] == '?' then One else Lit(body[i]);
    assert body[i..][1..] == body[i + 1..];
    Regroup3(pat, [t], NameToks(body[i + 1..]));
  }

  lemma NameEnds(pat: seq<Tok>)
    ensures pat + NameToks("") == pat
  {
  }

  datatype Kind = Name(toks: seq<Tok>) | PathLike(toks: seq<Tok>)

  datatype Pattern = Pattern(dirOnly: bool, kind: Kind)

  function Slashes(s: string): string {
    if s == "" then "" else [if s[0] == '\\' then '/' else s[0]] + Slashes(s[1..])
  }

  function TrimSlashLeft(s: string): string {
    if s != "" && s[0] == '/' then TrimSlashLeft(s[1..]) else s
  }

  function TrimSlashRight(s: string): string {
    if s != "" && s[|s| - 1] == '/' then TrimSlashRight(s[..|s| - 1]) else s
  }

  /** `replace('\\', "/")` and `trim_matches('/')`. */
  function Normal(rel: string): string { TrimSlashRight(TrimSlashLeft(Slashes(rel))) }

  /** One entry of a specification; empty ones are dropped. */
  function ParseOne(raw: string): seq<Pattern> {
    var p := Trim(raw);
    if p == "" then []
    else
      var slashed := Slashes(p);
      var body := Normal(p);
      if body == "" then []
      else [Pattern(slashed[|slashed| - 1] == '/', if '/' in body then PathLike(GlobToks(body))
          else Name(NameToks(body)))]
  }

  function ParseAll(raws: seq<string>): seq<Pattern> {
    if raws == [] then [] else ParseOne(raws[0]) + ParseAll(raws[1..])
  }

  function Parse(spec: string): seq<Pattern> { ParseAll(Split(spec, {';', ','})) }

  /** `IgnoreSet::parse`. */
  method ParseSpec(spec: string) returns (patterns: seq<Pattern>)
    ensures patterns == Parse(spec)
  {
    patterns := [];
    var raws := Split(spec, {';', ','});
    for i := 0 to |raws|
      invariant patterns + ParseAll(raws[i..]) == ParseAll(raws)
    {
      assert raws[i..][0] == raws[i] && raws[i..][1..] == raws[i + 1..];
      ghost var before, tail := patterns, ParseAll(raws[i + 1..]);
      assert before + (ParseOne(raws[i]) + tail) == before + ParseOne(raws[i]) + tail;
      SlashesLength(Trim(raws[i]));
      var p := Trim(raws[i]);
      if p != "" {
        var body := Normal(p);
        var dirOnly := Slashes(p)[|Slashes(p)| - 1] == '/';
        if body != "" {
          var toks;
          if '/' in body {
            toks := GlobToRegex(body);
            patterns := patterns + [Pattern(dirOnly, PathLike(toks))];
          } else {
            toks := NameToRegex(body);
            patterns := patterns + [Pattern(dirOnly, Name(toks))];
          }
        }
      }
      assert patterns == before + ParseOne(raws[i]);
    }
    assert patterns + [] == patterns;
  }

  lemma {:induction false} SlashesLength(s: string)
    ensures |Slashes(s)| == |s|
  {
    if s != "" {
      SlashesLength(s[1..]);
    }
  }

  // ------------------------------------------------------------------ ignoring

  /** Does the pattern match at the i-th segment: the segment itself for a NAME pattern, the path
      up to it for a PATH pattern? */
  predicate MatchesAt(fold: char -> char, pat: Pattern, segs: seq<string>, i: nat)
    requires 0 < i <= |segs|
  {
    match pat.kind
    case Name(ts) => Match(fold, ts, segs[i - 1])
    case PathLike(ts) => Match(fold, ts, Join(segs[..i], '/'))
  }

  /** A directory-only pattern needs the item at that depth to be a directory. */
  predicate Hit(fold: char -> char, pat: Pattern, segs: seq<string>, i: nat, isDir: bool)
    requires 0 < i <= |segs|
  {
    (pat.dirOnly ==> i < |segs| || isDir) && MatchesAt(fold, pat, segs, i)
  }

  predicate IgnoredBy(fold: char -> char, pat: Pattern, segs: seq<string>, isDir: bool) {
    exists i: nat | 0 < i <= |segs| :: Hit(fold, pat, segs, i, isDir)
  }

  /** An item is ignored if it, or any ancestor directory, is matched. */
  predicate Ignored(fold: char -> char, pats: seq<Pattern>, segs: seq<string>, isDir: bool) {
    exists pat | pat in pats :: IgnoredBy(fold, pat, segs, isDir)
  }

  /** `is_ignored` on the text of a relative path. */
  predicate IsIgnored(fold: char -> char, pats: seq<Pattern>, rel: string, isDir: bool) {
    Normal(rel) != "" && Ignored(fold, pats, Split(Normal(rel), {'/'}), isDir)
  }

  class IgnoreSet {
    const fold: char -> char
    const patterns: seq<Pattern>

    constructor (fold: char -> char, patterns: seq<Pattern>)
      ensures this.fold == fold && this.patterns == patterns
    {
      this.fold, this.patterns := fold, patterns;
    }

    /** The original search: for each pattern every prefix or every segment, first hit wins. */
    method Test(rel: string, isDir: bool) returns (ignored: bool)
      ensures ignored <==> IsIgnored(fold, patterns, rel, isDir)
    {
      if |patterns| == 0 { return false; }
      var r := Normal(rel);
      if r == "" { return false; }
      var segs := Split(r, {'/'});
      for k := 0 to |patterns|
        invariant forall pat | pat in patterns[..k] :: !IgnoredBy(fold, pat, segs, isDir)
      {
        var pat := patterns[k];
        for i := 1 to |segs| + 1
          invariant forall j: nat | 0 < j < i :: !Hit(fold, pat, segs, j, isDir)
        {
          var isSegDir := i < |segs| || isDir;
          if pat.dirOnly && !isSegDir { continue; }
          var found := match pat.kind
            case PathLike(rx) => Match(fold, rx, Join(segs[..i], '/'))
            case Name(rx) => Match(fold, rx, segs[i - 1]);
          if found {
            assert Hit(fold, pat, segs, i, isDir);
            assert IgnoredBy(fold, pat, segs, isDir);
            return true;
          }
        }
        assert patterns[..k + 1] == patterns[..k] + [pat];
      }
      assert patterns[..|patterns|] == patterns;
      return false;
    }
  }

  // ------------------------------------------------------------------ ancestor closure

  lemma HitBelow(fold: char -> char, pat: Pattern, d: seq<string>, e: seq<string>, i: nat, isDir: bool)
    requires 0 < i <= |d| && e != []
    ensures Hit(fold, pat, d + e, i, isDir) <==> Hit(fold, pat, d, i, true)
  {
    assert (d + e)[..i] == d[..i];
  }

  /** Everything below an ignored directory is ignored, at any depth. */
  lemma BelowIgnored(fold: char -> char, pats: seq<Pattern>, d: seq<string>, e: seq<string>, isDir: bool)
    requires e != [] && Ignored(fold, pats, d, true)
    ensures Ignored(fold, pats, d + e, isDir)
  {
    var pat :| pat in pats && IgnoredBy(fold, pat, d, true);
    var i: nat :| 0 < i <= |d| && Hit(fold, pat, d, i, true);
    HitBelow(fold, pat, d, e, i, isDir);
    assert Hit(fold, pat, d + e, i, isDir);
    assert IgnoredBy(fold, pat, d + e, isDir);
  }

  /** The ancestor-closure theorem: an entry of a directory is ignored exactly when the directory is
      ignored as such or some pattern matches the entry's own full path. */
  lemma AncestorClosure(fold: char -> char, pats: seq<Pattern>, d: seq<string>, x: string, isDir: bool)
    ensures Ignored(fold, pats, d + [x], isDir) <==>
            Ignored(fold, pats, d, true) || exists pat | pat in pats :: Hit(fold, pat, d + [x], |d| + 1, isDir)
  {
    if Ignored(fold, pats, d, true) {
      BelowIgnored(fold, pats, d, [x], isDir);
    }
    if Ignored(fold, pats, d + [x], isDir) {
      var pat :| pat in pats && IgnoredBy(fold, pat, d + [x], isDir);
      var i: nat :| 0 < i <= |d + [x]| && Hit(fold, pat, d + [x], i, isDir);
      if i <= |d| {
        HitBelow(fold, pat, d, [x], i, isDir);
        assert IgnoredBy(fold, pat, d, true);
      }
    }
    if pat :| pat in pats && Hit(fold, pat, d + [x], |d| + 1, isDir) {
      assert IgnoredBy(fold, pat, d + [x], isDir);
    }
  }

  // ------------------------------------------------------------------ paths as texts

  predicate Segment(s: string) { s != "" && Avoids(s, {'/', '\\'}) }

  predicate Segments(segs: seq<string>) { segs != [] && forall i | 0 <= i < |segs| :: Segment(segs[i]) }

  lemma {:induction false} SlashesPlain(s: string)
    requires Avoids(s, {'\\'})
    ensures Slashes(s) == s
  {
    if s != "" {
      SlashesPlain(s[1..]);
    }
  }

  lemma {:induction false} JoinEnds(segs: seq<string>)
    requires Segments(segs)
    ensures var s := Join(segs, '/'); s != "" && s[0] != '/' && s[|s| - 1] != '/'
  {
    if |segs| > 1 {
      JoinEnds(segs[1..]);
    }
  }

  /** A path made of segments is tested on exactly those segments. */
  lemma IsIgnoredSegments(fold: char -> char, pats: seq<Pattern>, segs: seq<string>, isDir: bool)
    requires Segments(segs)
    ensures IsIgnored(fold, pats, Join(segs, '/'), isDir) <==> Ignored(fold, pats, segs, isDir)
  {
    JoinAvoids(segs, '/', {'\\'});
    SlashesPlain(Join(segs, '/'));
    JoinEnds(segs);
    SplitJoin(segs, '/', {'/'});
  }

  // ------------------------------------------------------------------ the glob segment theorem

  /** Case folding keeps the separator apart from every other character. */
  ghost predicate SlashFold(fold: char -> char) { forall c :: fold(c) == fold('/') <==> c == '/' }

  /** A pattern part without a separator and without `**`. */
  predicate Part(p: string) {
    Avoids(p, {'/'}) && forall i | 0 <= i < |p| - 1 :: !(p[i] == '*' && p[i + 1] == '*')
  }

  predicate SegToks(ts: seq<Tok>) {
    forall i | 0 <= i < |ts| :: ts[i].SegOne? || ts[i].SegAny? || (ts[i].Lit? && ts[i].c != '/')
  }

  lemma PartTail(p: string)
    requires Part(p) && p != ""
    ensures Part(p[1..])
  {
  }

  lemma {:induction false} PartToks(p: string)
    requires Part(p)
    ensures SegToks(GlobToks(p))
  {
    if p != "" {
      PartTail(p);
      PartToks(p[1..]);
    }
  }

  lemma {:induction false} GlobConcat(p: string, rest: string)
    requires Part(p) && (rest == "" || rest[0] == '/')
    ensures GlobToks(p + rest) == GlobToks(p) + GlobToks(rest)
  {
    var g := p + rest;
    if p == "" {
      assert g == rest;
    } else {
      assert g[1..] == p[1..] + rest;
      PartTail(p);
      GlobConcat(p[1..], rest);
    }
  }

  lemma SlashToks(rest: string)
    ensures GlobToks("/" + rest) == [Lit('/')] + GlobToks(rest)
  {
  }

  /** Segment tokens never match across a separator. */
  lemma {:induction false} SegNoSlash(fold: char -> char, ts: seq<Tok>, s: string)
    requires SlashFold(fold) && SegToks(ts) && Match(fold, ts, s)
    ensures Avoids(s, {'/'})
    decreases |ts|, |s|
  {
    if ts != [] {
      if ts[0].SegAny? && Match(fold, ts[1..], s) {
        SegNoSlash(fold, ts[1..], s);
      } else if ts[0].SegAny? {
        SegNoSlash(fold, ts, s[1..]);
      } else {
        SegNoSlash(fold, ts[1..], s[1..]);
      }
    }
  }

  /** Segment tokens and then a separator match a text exactly up to its first separator. */
  lemma {:induction false} MatchFirst(fold: char -> char, ts: seq<Tok>, us: seq<Tok>, h: string, r: string)
    requires SlashFold(fold) && SegToks(ts) && Avoids(h, {'/'})
    ensures Match(fold, ts + ([Lit('/')] + us), h + ("/" + r)) <==> Match(fold, ts, h) && Match(fold, us, r)
    decreases |ts|, |h|
  {
    var all, s := ts + ([Lit('/')] + us), h + ("/" + r);
    if ts == [] {
      assert all == [Lit('/')] + us && all[1..] == us;
      if h == "" {
        assert s == "/" + r && s[1..] == r;
      } else {
        assert s[0] == h[0];
      }
    } else {
      assert all[1..] == ts[1..] + ([Lit('/')] + us) && all[0] == ts[0];
      if h == "" {
        assert s[0] == '/';
        if ts[0].SegAny? { MatchFirst(fold, ts[1..], us, h, r); }
      } else {
        assert s[1..] == h[1..] + ("/" + r) && s[0] == h[0];
        MatchFirst(fold, ts[1..], us, h[1..], r);
        if ts[0].SegAny? {
          MatchFirst(fold, ts[1..], us, h, r);
          MatchFirst(fold, ts, us, h[1..], r);
        }
      }
    }
  }

  /** Without a separator in the text nothing matches past one in the pattern. */
  lemma {:induction false} MatchNeedsSlash(fold: char -> char, ts: seq<Tok>, us: seq<Tok>, s: string)
    requires SlashFold(fold) && SegToks(ts) && Avoids(s, {'/'})
    ensures !Match(fold, ts + ([Lit('/')] + us), s)
    decreases |ts|, |s|
  {
    var all := ts + ([Lit('/')] + us);
    if ts == [] {
      assert all == [Lit('/')] + us;
    } else {
      assert all[1..] == ts[1..] + ([Lit('/')] + us) && all[0] == ts[0];
      if s != "" {
        MatchNeedsSlash(fold, ts[1..], us, s[1..]);
      }
      if ts[0].SegAny? {
        MatchNeedsSlash(fold, ts[1..], us, s);
        if s != "" { MatchNeedsSlash(fold, ts, us, s[1..]); }
      }
    }
  }

  /** The glob segment theorem: a PATH pattern without `**` matches a path exactly when both have
      the same number of segments and each part matches its own segment. */
  lemma {:induction false} GlobSegments(fold: char -> char, parts: seq<string>, segs: seq<string>)
    requires SlashFold(fold) && parts != [] && segs != []
    requires forall i | 0 <= i < |parts| :: Part(parts[i])
    requires forall i | 0 <= i < |segs| :: Avoids(segs[i], {'/'})
    ensures Match(fold, GlobToks(Join(parts, '/')), Join(segs, '/')) <==>
            |parts| == |segs| && forall i | 0 <= i < |parts| :: Match(fold, GlobToks(parts[i]), segs[i])
    decreases |parts|
  {
    hide Match, GlobToks;
    var p, s := parts[0], segs[0];
    PartToks(p);
    if |parts| == 1 {
      if |segs| > 1 {
        assert Join(segs, '/')[|s|] == '/';
        if Match(fold, GlobToks(p), Join(segs, '/')) { SegNoSlash(fold, GlobToks(p), Join(segs, '/')); }
      }
    } else {
      var more := Join(parts[1..], '/');
      assert Join(parts, '/') == p + ("/" + more);
      GlobConcat(p, "/" + more);
      SlashToks(more);
      if |segs| == 1 {
        MatchNeedsSlash(fold, GlobToks(p), GlobToks(more), s);
      } else {
        var rest := Join(segs[1..], '/');
        assert Join(segs, '/') == s + ("/" + rest);
        MatchFirst(fold, GlobToks(p), GlobToks(more), s, rest);
        GlobSegments(fold, parts[1..], segs[1..]);
      }
    }
  }

  /** Hence at most one prefix in the original's loop over prefixes can match. */
  lemma OnePrefix(fold: char -> char, parts: seq<string>, segs: seq<string>, i: nat)
    requires SlashFold(fold) && parts != [] && forall k | 0 <= k < |parts| :: Part(parts[k])
    requires forall k | 0 <= k < |segs| :: Avoids(segs[k], {'/'})
    requires 0 < i <= |segs| && MatchesAt(fold, Pattern(false, PathLike(GlobToks(Join(parts, '/')))), segs, i)
    ensures i == |parts|
  {
    GlobSegments(fold, parts, segs[..i]);
  }

  // ------------------------------------------------------------------ the double star

  /** A stretch of k characters from the front without `stop`. */
  predicate TakesRun(s: string, k: nat, stop: char) { k <= |s| && Avoids(s[..k], {stop}) }

  /** `.*` and `[^/]*` take any run without their stop character. */
  lemma {:induction false} MatchRun(fold: char -> char, t: Tok, stop: char, us: seq<Tok>, s: string)
    requires (t == Any && stop == '\n') || (t == SegAny && stop == '/')
    ensures Match(fold, [t] + us, s) <==> exists k: nat :: k <= |s| && TakesRun(s, k, stop) && Match(fold, us, s[k..])
    decreases |s|
  {
    hide TakesRun;
    var all := [t] + us;
    assert all[1..] == us && s[0..] == s && TakesRun(s, 0, stop) by { NoRun(s, stop); }
    assert Match(fold, all, s) <==>
             Match(fold, us, s) || (s != "" && s[0] != stop && Match(fold, all, s[1..]));
    if s == "" {
      forall k: nat | TakesRun(s, k, stop) ensures k == 0 { RunOf(s, k, stop); }
    } else {
      MatchRun(fold, t, stop, us, s[1..]);
      forall k: nat | k > 0 && TakesRun(s, k, stop)
        ensures k <= |s| && s[0] != stop && TakesRun(s[1..], k - 1, stop) && s[1..][k - 1..] == s[k..]
      {
        RunOf(s, k, stop);
      }
      forall k: nat | s[0] != stop && TakesRun(s[1..], k, stop)
        ensures k < |s| && TakesRun(s, k + 1, stop) && s[k + 1..] == s[1..][k..]
      {
        LongerRun(s, k, stop);
      }
    }
  }

  lemma NoRun(s: string, stop: char)
    ensures TakesRun(s, 0, stop)
  {
  }

  lemma RunOf(s: string, k: nat, stop: char)
    requires TakesRun(s, k, stop)
    ensures k <= |s| && (k > 0 ==> s[0] != stop && TakesRun(s[1..], k - 1, stop) && s[1..][k - 1..] == s[k..])
  {
    if k > 0 {
      assert s[..k][0] == s[0] && s[..k][1..] == s[1..][..k - 1];
    }
  }

  lemma LongerRun(s: string, k: nat, stop: char)
    requires s != "" && s[0] != stop && TakesRun(s[1..], k, stop)
    ensures k < |s| && TakesRun(s, k + 1, stop) && s[k + 1..] == s[1..][k..]
  {
    assert s[..k + 1] == [s[0]] + s[1..][..k];
  }

  lemma {:induction false} JoinAt(segs: seq<string>, k: nat)
    requires 0 < k < |segs|
    ensures Join(segs, '/') == Join(segs[..k], '/') + ("/" + Join(segs[k..], '/'))
    decreases k
  {
    assert segs[..k][0] == segs[0];
    if k > 1 {
      JoinAt(segs[1..], k - 1);
      assert segs[1..][..k - 1] == segs[..k][1..] && segs[1..][k - 1..] == segs[k..];
    }
  }

  /** A separator in a joined path stands between two of its segments. */
  lemma {:induction false} CutAt(segs: seq<string>, i: nat) returns (k: nat)
    requires segs != [] && forall j | 0 <= j < |segs| :: Avoids(segs[j], {'/'})
    requires i < |Join(segs, '/')| && Join(segs, '/')[i] == '/'
    ensures 0 < k < |segs| && i == |Join(segs[..k], '/')|
  {
    var h := |segs[0]|;
    if i <= h {
      k := 1;
      assert segs[..1][0] == segs[0];
    } else {
      k := CutAt(segs[1..], i - h - 1);
      k := k + 1;
      assert segs[..k][1..] == segs[1..][..k - 1];
    }
  }

  lemma {:induction false} JoinedAvoid(segs: seq<string>, seps: set<char>)
    requires Avoids(Join(segs, '/'), seps)
    ensures forall j | 0 <= j < |segs| :: Avoids(segs[j], seps)
  {
    if |segs| > 1 {
      var h, t := segs[0], Join(segs[1..], '/');
      var s := Join(segs, '/');
      assert s == h + "/" + t;
      forall j | 0 <= j < |h| ensures h[j] !in seps { assert s[j] == h[j]; }
      forall j | 0 <= j < |t| ensures t[j] !in seps { assert s[|h| + 1 + j] == t[j]; }
      JoinedAvoid(segs[1..], seps);
    }
  }

  /** The last segments match the parts, and no segment in front of them holds a line break. */
  predicate EndsWith(fold: char -> char, qs: seq<string>, segs: seq<string>) {
    |segs| > |qs|
    && (forall j | 0 <= j < |qs| :: Match(fold, GlobToks(qs[j]), segs[|segs| - |qs| + j]))
    && forall j | 0 <= j < |segs| - |qs| :: Avoids(segs[j], {'\n'})
  }

  lemma SlashFirst(fold: char -> char, us: seq<Tok>, s: string)
    requires SlashFold(fold)
    ensures Match(fold, [Lit('/')] + us, s) <==> s != "" && s[0] == '/' && Match(fold, us, s[1..])
  {
    assert ([Lit('/')] + us)[1..] == us;
  }

  /** A run that ends at a separator ends between two segments. */
  lemma CutRun(segs: seq<string>, i: nat) returns (k: nat)
    requires segs != [] && forall j | 0 <= j < |segs| :: Avoids(segs[j], {'/'})
    requires var s := Join(segs, '/'); TakesRun(s, i, '\n') && i < |s| && s[i] == '/'
    ensures 0 < k < |segs| && Join(segs, '/')[i..][1..] == Join(segs[k..], '/')
    ensures forall j | 0 <= j < k :: Avoids(segs[j], {'\n'})
  {
    var s := Join(segs, '/');
    k := CutAt(segs, i);
    JoinAt(segs, k);
    assert s[..i] == Join(segs[..k], '/') && s[i..][1..] == Join(segs[k..], '/');
    JoinedAvoid(segs[..k], {'\n'});
  }

  /** Where `.*` may stop before a separator and the rest of the pattern. */
  lemma AnyStops(fold: char -> char, qs: seq<string>, segs: seq<string>, i: nat)
    requires SlashFold(fold) && qs != [] && segs != []
    requires forall k | 0 <= k < |qs| :: Part(qs[k])
    requires forall k | 0 <= k < |segs| :: Avoids(segs[k], {'/'})
    requires TakesRun(Join(segs, '/'), i, '\n')
    requires Match(fold, [Lit('/')] + GlobToks(Join(qs, '/')), Join(segs, '/')[i..])
    ensures EndsWith(fold, qs, segs)
  {
    hide Match, GlobToks, Part, TakesRun, Join;
    var us, s := GlobToks(Join(qs, '/')), Join(segs, '/');
    RunOf(s, i, '\n');
    SlashFirst(fold, us, s[i..]);
    var k := CutRun(segs, i);
    GlobSegments(fold, qs, segs[k..]);
  }

  lemma AnyReaches(fold: char -> char, qs: seq<string>, segs: seq<string>) returns (i: nat)
    requires SlashFold(fold) && qs != [] && EndsWith(fold, qs, segs)
    requires forall k | 0 <= k < |qs| :: Part(qs[k])
    requires forall k | 0 <= k < |segs| :: Avoids(segs[k], {'/'})
    ensures TakesRun(Join(segs, '/'), i, '\n')
    ensures Match(fold, [Lit('/')] + GlobToks(Join(qs, '/')), Join(segs, '/')[i..])
  {
    hide Match, GlobToks, Part;
    var us, s, k := GlobToks(Join(qs, '/')), Join(segs, '/'), |segs| - |qs|;
    i := |Join(segs[..k], '/')|;
    JoinAt(segs, k);
    assert s[..i] == Join(segs[..k], '/') && s[i..] == "/" + Join(segs[k..], '/');
    assert s[i..][1..] == Join(segs[k..], '/');
    GlobSegments(fold, qs, segs[k..]);
    JoinAvoids(segs[..k], '/', {'\n'});
    SlashFirst(fold, us, s[i..]);
  }

  lemma AnyTail(fold: char -> char, qs: seq<string>, segs: seq<string>)
    requires SlashFold(fold) && qs != [] && segs != []
    requires forall i | 0 <= i < |qs| :: Part(qs[i])
    requires forall i | 0 <= i < |segs| :: Avoids(segs[i], {'/'})
    ensures Match(fold, [Any] + ([Lit('/')] + GlobToks(Join(qs, '/'))), Join(segs, '/')) <==> EndsWith(fold, qs, segs)
  {
    hide Match, GlobToks, Part, TakesRun, EndsWith;
    var us, s := [Lit('/')] + GlobToks(Join(qs, '/')), Join(segs, '/');
    MatchRun(fold, Any, '\n', us, s);
    if i: nat :| i <= |s| && TakesRun(s, i, '\n') && Match(fold, us, s[i..]) {
      AnyStops(fold, qs, segs, i);
    } else if EndsWith(fold, qs, segs) {
      var i := AnyReaches(fold, qs, segs);
      RunOf(s, i, '\n');
    }
  }

  lemma StarToks(q: string)
    ensures GlobToks("**/" + q) == [Any] + ([Lit('/')] + GlobToks(q))
  {
    assert ("**/" + q)[2..] == "/" + q;
    SlashToks(q);
  }

  /** The double-star theorem: `p/**/q` matches a path exactly when its first segments match the parts of `p`,
      its last ones those of `q`, and at least one segment stands between them. */
  lemma {:induction false} DoubleStarCrosses(fold: char -> char, ps: seq<string>, qs: seq<string>, segs: seq<string>)
    requires SlashFold(fold) && ps != [] && qs != [] && segs != []
    requires forall i | 0 <= i < |ps| :: Part(ps[i])
    requires forall i | 0 <= i < |qs| :: Part(qs[i])
    requires forall i | 0 <= i < |segs| :: Avoids(segs[i], {'/'})
    ensures Match(fold, GlobToks(Join(ps, '/') + ("/**/" + Join(qs, '/'))), Join(segs, '/')) <==>
              |segs| > |ps| + |qs|
              && (forall i | 0 <= i < |ps| :: Match(fold, GlobToks(ps[i]), segs[i]))
              && EndsWith(fold, qs, segs[|ps|..])
    decreases |ps|
  {
    hide Match, GlobToks, Part;
    var p, q := ps[0], Join(qs, '/');
    var more := if |ps| == 1 then "**/" + q else Join(ps[1..], '/') + ("/**/" + q);
    assert Join(ps, '/') + ("/**/" + q) == p + ("/" + more);
    PartToks(p);
    GlobConcat(p, "/" + more);
    SlashToks(more);
    if |segs| == 1 {
      MatchNeedsSlash(fold, GlobToks(p), GlobToks(more), segs[0]);
    } else {
      var rest := Join(segs[1..], '/');
      assert Join(segs, '/') == segs[0] + ("/" + rest);
      MatchFirst(fold, GlobToks(p), GlobToks(more), segs[0], rest);
      if |ps| == 1 {
        StarToks(q);
        AnyTail(fold, qs, segs[1..]);
      } else {
        DoubleStarCrosses(fold, ps[1..], qs, segs[1..]);
        if |segs| > |ps| + |qs| {
          assert segs[1..][|ps| - 1..] == segs[|ps|..];
          assert forall i | 1 <= i < |ps| :: ps[1..][i - 1] == ps[i] && segs[1..][i - 1] == segs[i];
        }
      }
    }
  }

  /** The tokens a NAME pattern would have if its wildcards stopped at separators. */
  function Bounded(ts: seq<Tok>): seq<Tok> {
    if ts == [] then []
    else [match ts[0] case Any => SegAny case One => SegOne case t => t] + Bounded(ts[1..])
  }

  /** On a single segment the two kinds of wildcards agree. */
  lemma {:induction false} NameWildcards(fold: char -> char, ts: seq<Tok>, s: string)
    requires Avoids(s, {'/', '\n'})
    ensures Match(fold, ts, s) <==> Match(fold, Bounded(ts), s)
    decreases |ts|, |s|
  {
    if ts != [] {
      var us := Bounded(ts);
      assert us[1..] == Bounded(ts[1..]);
      NameWildcards(fold, ts[1..], s);
      if s != "" {
        NameWildcards(fold, ts[1..], s[1..]);
        NameWildcards(fold, ts, s[1..]);
      }
    }
  }

  // ------------------------------------------------------------------ wildcards on text

  /** Does a text with wildcards match: `*` any stretch and `?` any one character, neither of them `stop`, every
      other character itself up to case? */
  ghost predicate Wild(fold: char -> char, stop: char, p: string, s: string)
    decreases |p|
  {
    if p == "" then s == ""
    else if p[0] == '*' then exists k: nat :: TakesRun(s, k, stop) && Wild(fold, stop, p[1..], s[k..])
    else s != "" && (if p[0] == '?' then s[0] != stop else fold(s[0]) == fold(p[0])) && Wild(fold, stop, p[1..], s[1..])
  }

  /** A NAME pattern matches a segment as its text does; its wildcards stop at line breaks. */
  lemma {:induction false} NameIsWild(fold: char -> char, p: string, s: string)
    ensures Match(fold, NameToks(p), s) <==> Wild(fold, '\n', p, s)
    decreases |p|
  {
    if p != "" {
      var us := NameToks(p[1..]);
      if p[0] == '*' {
        hide Match, TakesRun;
        MatchRun(fold, Any, '\n', us, s);
        forall k: nat | TakesRun(s, k, '\n')
          ensures k <= |s| && (Match(fold, us, s[k..]) <==> Wild(fold, '\n', p[1..], s[k..]))
        {
          RunOf(s, k, '\n');
          NameIsWild(fold, p[1..], s[k..]);
        }
      } else if s != "" {
        assert NameToks(p)[1..] == us;
        NameIsWild(fold, p[1..], s[1..]);
      }
    }
  }

  /** ... and so does a part of a PATH pattern; its wildcards stop at separators. */
  lemma {:induction false} PartIsWild(fold: char -> char, p: string, s: string)
    requires Part(p)
    ensures Match(fold, GlobToks(p), s) <==> Wild(fold, '/', p, s)
    decreases |p|
  {
    if p != "" {
      var us := GlobToks(p[1..]);
      PartTail(p);
      if p[0] == '*' {
        assert !(|p| > 1 && p[1] == '*');
        hide Match, TakesRun;
        MatchRun(fold, SegAny, '/', us, s);
        forall k: nat | TakesRun(s, k, '/')
          ensures k <= |s| && (Match(fold, us, s[k..]) <==> Wild(fold, '/', p[1..], s[k..]))
        {
          RunOf(s, k, '/');
          PartIsWild(fold, p[1..], s[k..]);
        }
      } else if s != "" {
        assert GlobToks(p)[1..] == us;
        PartIsWild(fold, p[1..], s[1..]);
      }
    }
  }

  /** A text without wildcards matches exactly what is equal to it up to case. */
  lemma {:induction false} PlainIsEqual(fold: char -> char, stop: char, p: string, s: string)
    requires Avoids(p, {'*', '?'})
    ensures Wild(fold, stop, p, s) <==> |s| == |p| && forall i | 0 <= i < |p| :: fold(s[i]) == fold(p[i])
    decreases |p|
  {
    if p != "" && s != "" {
      PlainIsEqual(fold, stop, p[1..], s[1..]);
      if |s| == |p| && forall i | 0 <= i < |p| - 1 :: fold(s[1..][i]) == fold(p[1..][i]) {
        assert forall i | 1 <= i < |p| :: s[i] == s[1..][i - 1] && p[i] == p[1..][i - 1];
      }
    }
  }

  // ------------------------------------------------------------------ what a specification means

  predicate AllIn(s: string, cs: set<char>) { forall i | 0 <= i < |s| :: s[i] in cs }

  /** A text that neither starts nor ends with any of these. */
  predicate Bare(s: string, cs: set<char>) { s != "" && s[0] !in cs && s[|s| - 1] !in cs }

  lemma {:induction false} TrimLeftIs(pre: string, s: string)
    requires AllIn(pre, WHITE) && (s != "" ==> s[0] !in WHITE)
    ensures TrimLeft(pre + s) == s
  {
    if pre == "" {
      assert pre + s == s;
    } else {
      assert (pre + s)[1..] == pre[1..] + s;
      TrimLeftIs(pre[1..], s);
    }
  }

  lemma {:induction false} TrimRightIs(s: string, post: string)
    requires AllIn(post, WHITE) && (s != "" ==> s[|s| - 1] !in WHITE)
    ensures TrimRight(s + post) == s
    decreases |post|
  {
    if post == "" {
      assert s + post == s;
    } else {
      assert (s + post)[..|s + post| - 1] == s + post[..|post| - 1];
      TrimRightIs(s, post[..|post| - 1]);
    }
  }

  /** Blanks around an entry do not matter. */
  lemma TrimIs(pre: string, e: string, post: string)
    requires AllIn(pre, WHITE) && AllIn(post, WHITE) && (e == "" || Bare(e, WHITE))
    ensures Trim(pre + e + post) == e
  {
    if e == "" {
      assert pre + e + post == pre + post && AllIn(pre + post, WHITE);
      assert pre + post + "" == pre + post;
      TrimLeftIs(pre + post, "");
    } else {
      Regroup3(pre, e, post);
      TrimLeftIs(pre, e + post);
      TrimRightIs(e, post);
    }
  }

  lemma {:induction false} SlashLeftIs(lead: string, s: string)
    requires AllIn(lead, {'/'}) && (s != "" ==> s[0] != '/')
    ensures TrimSlashLeft(lead + s) == s
  {
    if lead == "" {
      assert lead + s == s;
    } else {
      assert (lead + s)[1..] == lead[1..] + s;
      SlashLeftIs(lead[1..], s);
    }
  }

  lemma {:induction false} SlashRightIs(s: string, tail: string)
    requires AllIn(tail, {'/'}) && (s != "" ==> s[|s| - 1] != '/')
    ensures TrimSlashRight(s + tail) == s
    decreases |tail|
  {
    if tail == "" {
      assert s + tail == s;
    } else {
      assert (s + tail)[..|s + tail| - 1] == s + tail[..|tail| - 1];
      SlashRightIs(s, tail[..|tail| - 1]);
    }
  }

  /** Separators of either kind around a text do not matter. */
  lemma NormalIs(t: string, lead: string, body: string, tail: string)
    requires Slashes(t) == lead + body + tail && AllIn(lead, {'/'}) && AllIn(tail, {'/'}) && Bare(body, {'/'})
    ensures Normal(t) == body
  {
    Regroup3(lead, body, tail);
    SlashLeftIs(lead, body + tail);
    SlashRightIs(body, tail);
  }

  /** The parts of an entry: no separator in any, and the first and the last not empty. */
  predicate PartsOk(parts: seq<string>) {
    parts != [] && parts[0] != "" && parts[|parts| - 1] != "" && forall i | 0 <= i < |parts| :: Avoids(parts[i], {'/'})
  }

  lemma {:induction false} JoinedParts(parts: seq<string>)
    requires parts != [] && parts[|parts| - 1] != "" && forall i | 0 <= i < |parts| :: Avoids(parts[i], {'/'})
    ensures var b := Join(parts, '/');
            b != "" && b[|b| - 1] != '/' && (parts[0] != "" ==> b[0] != '/') && ('/' in b <==> |parts| > 1)
  {
    if |parts| == 1 {
      assert '/' !in parts[0];
    } else {
      JoinedParts(parts[1..]);
      assert Join(parts, '/')[|parts[0]|] == '/';
    }
  }

  /** An entry of a specification: parts between separators of either kind, any number of separators in front and
      behind, and blanks around it all. */
  predicate EntryText(e: string, lead: string, parts: seq<string>, tail: string) {
    Bare(e, WHITE) && Avoids(e, {';', ','}) && PartsOk(parts)
    && Slashes(e) == lead + Join(parts, '/') + tail && AllIn(lead, {'/'}) && AllIn(tail, {'/'})
  }

  /** What it is compiled to. */
  function Compiled(parts: seq<string>, dirOnly: bool): Pattern {
    Pattern(dirOnly, if |parts| > 1 then PathLike(GlobToks(Join(parts, '/'))) else Name(NameToks(Join(parts, '/'))))
  }

  lemma OneEntry(raw: string)
    requires Avoids(raw, {';', ','})
    ensures Parse(raw) == ParseOne(raw)
  {
    hide ParseOne, Split;
    SplitAvoiding(raw, {';', ','});
    assert [raw][1..] == [] && [raw][0] == raw;
    assert ParseOne(raw) + [] == ParseOne(raw) && ParseAll([raw]) == ParseOne(raw) + ParseAll([]);
  }

  lemma ParsesEntry(pre: string, e: string, post: string, lead: string, parts: seq<string>, tail: string)
    requires AllIn(pre, WHITE) && AllIn(post, WHITE) && EntryText(e, lead, parts, tail)
    ensures Parse(pre + e + post) == [Compiled(parts, tail != "")]
  {
    hide Join, Slashes, Trim, Normal, GlobToks, NameToks, ParseOne, Compiled;
    TrimIs(pre, e, post);
    OneEntry(pre + e + post);
    ParsesOne(pre + e + post, e, lead, parts, tail);
  }

  lemma ParsesOne(raw: string, e: string, lead: string, parts: seq<string>, tail: string)
    requires Trim(raw) == e && EntryText(e, lead, parts, tail)
    ensures ParseOne(raw) == [Compiled(parts, tail != "")]
  {
    hide Join, Slashes, Trim, Normal, GlobToks, NameToks;
    var body := Join(parts, '/');
    JoinedParts(parts);
    NormalIs(e, lead, body, tail);
    SlashesLength(e);
    EndsWithSlash(lead, body, tail);
  }

  lemma EndsWithSlash(lead: string, body: string, tail: string)
    requires AllIn(tail, {'/'}) && body != "" && body[|body| - 1] != '/'
    ensures var t := lead + body + tail; t[|t| - 1] == '/' <==> tail != ""
  {
  }

  /** Does an entry hold for the item at the i-th segment: a single part for that segment's name, several parts for
      the path up to there, part by part; with a separator behind it for directories only? */
  ghost predicate HoldsAt(fold: char -> char, parts: seq<string>, dirOnly: bool, segs: seq<string>, i: nat, isDir: bool)
    requires 0 < i <= |segs| && parts != []
  {
    (dirOnly ==> i < |segs| || isDir)
    && if |parts| == 1 then Wild(fold, '\n', parts[0], segs[i - 1])
       else |parts| == i && forall k | 0 <= k < i :: Wild(fold, '/', parts[k], segs[k])
  }

  ghost predicate HoldsFor(fold: char -> char, parts: seq<string>, dirOnly: bool, segs: seq<string>, isDir: bool)
    requires parts != []
  {
    exists i: nat | 0 < i <= |segs| :: HoldsAt(fold, parts, dirOnly, segs, i, isDir)
  }

  lemma CompiledHits(fold: char -> char, parts: seq<string>, dirOnly: bool, segs: seq<string>, i: nat, isDir: bool)
    requires SlashFold(fold) && parts != [] && 0 < i <= |segs|
    requires |parts| > 1 ==> forall k | 0 <= k < |parts| :: Part(parts[k])
    requires forall k | 0 <= k < |segs| :: Avoids(segs[k], {'/'})
    ensures Hit(fold, Compiled(parts, dirOnly), segs, i, isDir) <==> HoldsAt(fold, parts, dirOnly, segs, i, isDir)
  {
    hide Match, Wild, GlobToks, NameToks, Part;
    if |parts| == 1 {
      NameIsWild(fold, parts[0], segs[i - 1]);
    } else {
      GlobSegments(fold, parts, segs[..i]);
      forall k | 0 <= k < |parts| && k < i
        ensures Match(fold, GlobToks(parts[k]), segs[..i][k]) <==> Wild(fold, '/', parts[k], segs[k])
      {
        PartIsWild(fold, parts[k], segs[k]);
      }
    }
  }

  /** What an entry ignores: an item at which it holds, and everything below one. */
  lemma EntryIgnores(fold: char -> char, pre: string, e: string, post: string, lead: string, parts: seq<string>,
                     tail: string, segs: seq<string>, isDir: bool)
    requires SlashFold(fold) && Segments(segs)
    requires AllIn(pre, WHITE) && AllIn(post, WHITE) && EntryText(e, lead, parts, tail)
    requires |parts| > 1 ==> forall k | 0 <= k < |parts| :: Part(parts[k])
    ensures IsIgnored(fold, Parse(pre + e + post), Join(segs, '/'), isDir) <==>
            HoldsFor(fold, parts, tail != "", segs, isDir)
  {
    hide *;
    ParsesEntry(pre, e, post, lead, parts, tail);
    IsIgnoredSegments(fold, [Compiled(parts, tail != "")], segs, isDir);
    SegmentsAvoid(segs);
    EntryParts(e, lead, parts, tail);
    CompiledIgnores(fold, parts, tail != "", segs, isDir);
  }

  lemma CompiledIgnores(fold: char -> char, parts: seq<string>, dirOnly: bool, segs: seq<string>, isDir: bool)
    requires SlashFold(fold) && parts != []
    requires |parts| > 1 ==> forall k | 0 <= k < |parts| :: Part(parts[k])
    requires forall k | 0 <= k < |segs| :: Avoids(segs[k], {'/'})
    ensures Ignored(fold, [Compiled(parts, dirOnly)], segs, isDir) <==> HoldsFor(fold, parts, dirOnly, segs, isDir)
  {
    hide Compiled, Hit, HoldsAt, Part;
    OnePattern(fold, Compiled(parts, dirOnly), segs, isDir);
    forall i: nat | 0 < i <= |segs|
      ensures Hit(fold, Compiled(parts, dirOnly), segs, i, isDir) <==> HoldsAt(fold, parts, dirOnly, segs, i, isDir)
    {
      CompiledHits(fold, parts, dirOnly, segs, i, isDir);
    }
  }

  lemma EntryParts(e: string, lead: string, parts: seq<string>, tail: string)
    requires EntryText(e, lead, parts, tail)
    ensures parts != []
  {
  }

  lemma SegmentsAvoid(segs: seq<string>)
    requires Segments(segs)
    ensures forall k | 0 <= k < |segs| :: Avoids(segs[k], {'/'})
  {
  }

  lemma OnePattern(fold: char -> char, pat: Pattern, segs: seq<string>, isDir: bool)
    ensures Ignored(fold, [pat], segs, isDir) <==> exists i: nat | 0 < i <= |segs| :: Hit(fold, pat, segs, i, isDir)
  {
    hide Hit;
    assert [pat][0] == pat;
    assert Ignored(fold, [pat], segs, isDir) <==> IgnoredBy(fold, pat, segs, isDir);
  }

  predicate SameText(fold: char -> char, s: string, t: string) {
    |s| == |t| && forall i | 0 <= i < |s| :: fold(s[i]) == fold(t[i])
  }

  /** The simplest entry, a name without wildcards: it ignores exactly the paths on which that name stands, up to
      case. */
  lemma NameIgnores(fold: char -> char, b: string, segs: seq<string>, isDir: bool)
    requires SlashFold(fold) && Segments(segs)
    requires Bare(b, WHITE) && Avoids(b, {';', ',', '/', '\\', '*', '?'})
    ensures IsIgnored(fold, Parse(b), Join(segs, '/'), isDir) <==> exists s | s in segs :: SameText(fold, s, b)
  {
    hide Parse, Wild, IsIgnored, HoldsFor, SameText, Segments;
    BareEntry(b);
    assert "" + b + "" == b;
    EntryIgnores(fold, "", b, "", "", [b], "", segs, isDir);
    NameHolds(fold, b, segs, isDir);
    forall s ensures Wild(fold, '\n', b, s) <==> SameText(fold, s, b) { PlainWild(fold, b, s); }
  }

  lemma BareEntry(b: string)
    requires Bare(b, WHITE) && Avoids(b, {';', ',', '/', '\\', '*', '?'})
    ensures EntryText(b, "", [b], "") && AllIn("", WHITE) && [b] != []
  {
    SlashesPlain(b);
    assert "" + b + "" == b && [b][0] == b;
  }

  lemma PlainWild(fold: char -> char, b: string, s: string)
    requires Avoids(b, {';', ',', '/', '\\', '*', '?'})
    ensures Wild(fold, '\n', b, s) <==> SameText(fold, s, b)
  {
    PlainIsEqual(fold, '\n', b, s);
  }

  /** An entry of one part holds for an item when it fits a segment. */
  lemma NameHolds(fold: char -> char, b: string, segs: seq<string>, isDir: bool)
    ensures HoldsFor(fold, [b], false, segs, isDir) <==> exists s | s in segs :: Wild(fold, '\n', b, s)
  {
    hide Wild;
    if s :| s in segs && Wild(fold, '\n', b, s) {
      var k :| 0 <= k < |segs| && segs[k] == s;
      assert HoldsAt(fold, [b], false, segs, k + 1, isDir);
    }
  }

  /** Does `p/**/q` hold at the i-th segment: `p` in front, `q` behind, and something between them? */
  ghost predicate CrossesAt(fold: char -> char, ps: seq<string>, qs: seq<string>, dirOnly: bool, segs: seq<string>,
                            i: nat, isDir: bool)
    requires 0 < i <= |segs|
  {
    (dirOnly ==> i < |segs| || isDir) && i > |ps| + |qs|
    && (forall k | 0 <= k < |ps| :: Wild(fold, '/', ps[k], segs[k]))
    && (forall k | 0 <= k < |qs| :: Wild(fold, '/', qs[k], segs[i - |qs| + k]))
    && forall k | |ps| <= k < i - |qs| :: Avoids(segs[k], {'\n'})
  }

  lemma JoinsAcross(ps: seq<string>, qs: seq<string>)
    requires ps != [] && qs != []
    ensures Join(ps + ["**"] + qs, '/') == Join(ps, '/') + ("/**/" + Join(qs, '/'))
  {
    var all := ps + ["**"] + qs;
    var rest := ["**"] + qs;
    assert all[..|ps|] == ps && all[|ps|..] == rest && rest[1..] == qs;
    JoinAt(all, |ps|);
    assert "/" + ("**" + "/" + Join(qs, '/')) == "/**/" + Join(qs, '/');
  }

  lemma CrossesHits(fold: char -> char, ps: seq<string>, qs: seq<string>, dirOnly: bool, segs: seq<string>, i: nat,
                    isDir: bool)
    requires SlashFold(fold) && ps != [] && qs != [] && 0 < i <= |segs|
    requires forall k | 0 <= k < |ps| :: Part(ps[k])
    requires forall k | 0 <= k < |qs| :: Part(qs[k])
    requires forall k | 0 <= k < |segs| :: Avoids(segs[k], {'/'})
    ensures Hit(fold, Compiled(ps + ["**"] + qs, dirOnly), segs, i, isDir)
            <==> CrossesAt(fold, ps, qs, dirOnly, segs, i, isDir)
  {
    hide Match, Wild, GlobToks, NameToks, Part, Join, Avoids;
    JoinsAcross(ps, qs);
    DoubleStarCrosses(fold, ps, qs, segs[..i]);
    forall k | 0 <= k < |ps| && k < i
      ensures Match(fold, GlobToks(ps[k]), segs[k]) <==> Wild(fold, '/', ps[k], segs[k])
    {
      PartIsWild(fold, ps[k], segs[k]);
    }
    if i > |ps| + |qs| {
      forall k | 0 <= k < |qs|
        ensures Match(fold, GlobToks(qs[k]), segs[i - |qs| + k]) <==> Wild(fold, '/', qs[k], segs[i - |qs| + k])
      {
        PartIsWild(fold, qs[k], segs[i - |qs| + k]);
      }
      BehindIs(fold, ps, qs, segs, i);
    }
  }

  lemma BehindIs(fold: char -> char, ps: seq<string>, qs: seq<string>, segs: seq<string>, i: nat)
    requires |ps| + |qs| < i <= |segs|
    ensures EndsWith(fold, qs, segs[..i][|ps|..]) <==>
            (forall k | 0 <= k < |qs| :: Match(fold, GlobToks(qs[k]), segs[i - |qs| + k]))
            && forall k | |ps| <= k < i - |qs| :: Avoids(segs[k], {'\n'})
  {
    hide Match, GlobToks, Avoids;
    var tail := segs[..i][|ps|..];
    assert forall k | 0 <= k < |tail| :: tail[k] == segs[|ps| + k];
    assert forall k | |ps| <= k < i :: segs[k] == tail[k - |ps|];
  }

  ghost predicate CrossesFor(fold: char -> char, ps: seq<string>, qs: seq<string>, dirOnly: bool, segs: seq<string>,
                             isDir: bool)
  {
    exists i: nat | 0 < i <= |segs| :: CrossesAt(fold, ps, qs, dirOnly, segs, i, isDir)
  }

  /** What an entry with a double star ignores. */
  lemma DoubleStarIgnores(fold: char -> char, pre: string, e: string, post: string, lead: string, ps: seq<string>,
                          qs: seq<string>, tail: string, segs: seq<string>, isDir: bool)
    requires SlashFold(fold) && Segments(segs) && ps != [] && qs != []
    requires AllIn(pre, WHITE) && AllIn(post, WHITE) && EntryText(e, lead, ps + ["**"] + qs, tail)
    requires forall k | 0 <= k < |ps| :: Part(ps[k])
    requires forall k | 0 <= k < |qs| :: Part(qs[k])
    ensures IsIgnored(fold, Parse(pre + e + post), Join(segs, '/'), isDir)
            <==> CrossesFor(fold, ps, qs, tail != "", segs, isDir)
  {
    hide *;
    var parts := ps + ["**"] + qs;
    ParsesEntry(pre, e, post, lead, parts, tail);
    IsIgnoredSegments(fold, [Compiled(parts, tail != "")], segs, isDir);
    SegmentsAvoid(segs);
    CompiledCrosses(fold, ps, qs, tail != "", segs, isDir);
  }

  lemma CompiledCrosses(fold: char -> char, ps: seq<string>, qs: seq<string>, dirOnly: bool, segs: seq<string>,
                        isDir: bool)
    requires SlashFold(fold) && ps != [] && qs != []
    requires forall k | 0 <= k < |ps| :: Part(ps[k])
    requires forall k | 0 <= k < |qs| :: Part(qs[k])
    requires forall k | 0 <= k < |segs| :: Avoids(segs[k], {'/'})
    ensures Ignored(fold, [Compiled(ps + ["**"] + qs, dirOnly)], segs, isDir)
            <==> CrossesFor(fold, ps, qs, dirOnly, segs, isDir)
  {
    hide Compiled, Hit, CrossesAt, Part;
    var pat := Compiled(ps + ["**"] + qs, dirOnly);
    OnePattern(fold, pat, segs, isDir);
    forall i: nat | 0 < i <= |segs|
      ensures Hit(fold, pat, segs, i, isDir) <==> CrossesAt(fold, ps, qs, dirOnly, segs, i, isDir)
    {
      CrossesHits(fold, ps, qs, dirOnly, segs, i, isDir);
    }
  }

  /** Nothing but blanks and separators: an entry that is dropped. */
  lemma EmptyEntry(pre: string, e: string, post: string)
    requires AllIn(pre, WHITE) && AllIn(post, WHITE) && AllIn(e, {'/', '\\'})
    ensures Parse(pre + e + post) == []
  {
    hide Trim, Slashes, TrimSlashLeft, TrimSlashRight;
    TrimIs(pre, e, post);
    OneEntry(pre + e + post);
    OnlySlashes(e);
    assert Slashes(e) + "" == Slashes(e) && "" + "" == "";
    SlashLeftIs(Slashes(e), "");
    SlashRightIs("", "");
    SlashesLength(e);
  }

  lemma {:induction false} OnlySlashes(e: string)
    requires AllIn(e, {'/', '\\'})
    ensures AllIn(Slashes(e), {'/'})
  {
    if e != "" { OnlySlashes(e[1..]); }
  }

  lemma {:induction false} SplitConcat(a: string, c: char, b: string, seps: set<char>)
    requires c in seps
    ensures Split(a + [c] + b, seps) == Split(a, seps) + Split(b, seps)
    decreases |a|
  {
    var s := a + [c] + b;
    if a == "" {
      assert s[1..] == b && s[0] == c;
    } else {
      assert s[1..] == a[1..] + [c] + b && s[0] == a[0];
      SplitConcat(a[1..], c, b, seps);
      OneInFront(s[0], Split(a[1..], seps), Split(b, seps));
    }
  }

  lemma OneInFront(c: char, xs: seq<string>, ys: seq<string>)
    requires xs != []
    ensures [""] + (xs + ys) == [""] + xs + ys
    ensures [[c] + (xs + ys)[0]] + (xs + ys)[1..] == [[c] + xs[0]] + xs[1..] + ys
  {
  }

  lemma {:induction false} ParseAllConcat(xs: seq<string>, ys: seq<string>)
    ensures ParseAll(xs + ys) == ParseAll(xs) + ParseAll(ys)
    decreases |xs|
  {
    hide ParseOne;
    if xs == [] {
      assert xs + ys == ys;
    } else {
      assert (xs + ys)[1..] == xs[1..] + ys;
      ParseAllConcat(xs[1..], ys);
      Regroup3(ParseOne(xs[0]), ParseAll(xs[1..]), ParseAll(ys));
    }
  }

  /** Entries separated by `;` or `,` ignore what either side ignores. */
  lemma EitherIgnores(fold: char -> char, a: string, c: char, b: string, rel: string, isDir: bool)
    requires c in {';', ','}
    ensures IsIgnored(fold, Parse(a + [c] + b), rel, isDir) <==>
            IsIgnored(fold, Parse(a), rel, isDir) || IsIgnored(fold, Parse(b), rel, isDir)
  {
    hide Split, ParseAll, IgnoredBy, Normal;
    SplitConcat(a, c, b, {';', ','});
    ParseAllConcat(Split(a, {';', ','}), Split(b, {';', ','}));
  }

  /** The path of an item may be written with separators of either kind, and with some around it. */
  lemma PathText(fold: char -> char, pats: seq<Pattern>, rel: string, lead: string, segs: seq<string>, tail: string,
                 isDir: bool)
    requires Segments(segs) && Slashes(rel) == lead + Join(segs, '/') + tail
    requires AllIn(lead, {'/'}) && AllIn(tail, {'/'})
    ensures IsIgnored(fold, pats, rel, isDir) <==> Ignored(fold, pats, segs, isDir)
  {
    JoinEnds(segs);
    NormalIs(rel, lead, Join(segs, '/'), tail);
    SplitJoin(segs, '/', {'/'});
  }
}
