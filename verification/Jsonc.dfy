/** Comment stripping for the configuration files. */
module Jsonc {
  import opened Text

  /** How a text falls apart: string literals, comments of both kinds, and single other characters. */
  datatype Piece = Str(text: string) | LineComment(text: string) | BlockComment(text: string) | Other(c: char)

  function TextOf(p: Piece): string { if p.Other? then [p.c] else p.text }

  predicate Kept(p: Piece) { p.Str? || p.Other? }

  /** Where a string literal ends that has already been opened: behind its first quote that is not
      escaped, or with the text. */
  function StringEnd(s: string, esc: bool): (n: nat)
    ensures n <= |s|
  {
    if s == "" then 0
    else if esc then 1 + StringEnd(s[1..], false)
    else if s[0] == '"' then 1
    else 1 + StringEnd(s[1..], s[0] == '\\')
  }

  /** A line comment ends before the line break. */
  function LineEnd(s: string): (n: nat)
    ensures n <= |s|
  {
    if s == "" || s[0] == '\n' then 0 else 1 + LineEnd(s[1..])
  }

  /** An opened block comment ends behind the first terminator, or with the text. */
  function BlockEnd(s: string): (n: nat)
    ensures n <= |s|
  {
    if |s| < 2 then |s| else if s[0] == '*' && s[1] == '/' then 2 else 1 + BlockEnd(s[1..])
  }

  /** The piece a text starts with. */
  function Head(s: string): (p: Piece)
    requires s != ""
    ensures TextOf(p) != "" && TextOf(p) <= s
  {
    if s[0] == '"' then
      var n := 1 + StringEnd(s[1..], false); Str(s[..n])
    else if |s| > 1 && s[0] == '/' && s[1] == '/' then LineComment(s[..LineEnd(s)])
    else if |s| > 1 && s[0] == '/' && s[1] == '*' then
      var n := 2 + BlockEnd(s[2..]); BlockComment(s[..n])
    else Other(s[0])
  }

  function Pieces(s: string): (ps: seq<Piece>)
    decreases |s|
  {
    if s == "" then [] else [Head(s)] + Pieces(s[|TextOf(Head(s))|..])
  }

  function Concat(ps: seq<Piece>): string { if ps == [] then "" else TextOf(ps[0]) + Concat(ps[1..]) }

  function Keep(ps: seq<Piece>): seq<Piece> {
    if ps == [] then [] else (if Kept(ps[0]) then [ps[0]] else []) + Keep(ps[1..])
  }

  /** The text without its comments. */
  function Strip(s: string): string { Concat(Keep(Pieces(s))) }

  // ------------------------------------------------------------------ the scanner

  /** What is still to come while the scanner is inside a string literal. */
  function InString(s: string, esc: bool): string { s[..StringEnd(s, esc)] + Strip(s[StringEnd(s, esc)..]) }

  lemma StripStep(s: string)
    requires s != ""
    ensures var h := Head(s); Strip(s) == (if Kept(h) then TextOf(h) else "") + Strip(s[|TextOf(h)|..])
  {
    var ps := Pieces(s);
    assert ps[1..] == Pieces(s[|TextOf(Head(s))|..]);
    if Kept(ps[0]) {
      assert Keep(ps)[1..] == Keep(ps[1..]);
    } else {
      assert Keep(ps) == Keep(ps[1..]);
      assert "" + Strip(s[|TextOf(ps[0])|..]) == Strip(s[|TextOf(ps[0])|..]);
    }
  }

  lemma HeadString(s: string)
    requires s != "" && s[0] == '"'
    ensures Head(s) == Str(s[..1 + StringEnd(s[1..], false)])
  {
  }

  lemma OpenString(s: string)
    requires s != "" && s[0] == '"'
    ensures Strip(s) == "\"" + InString(s[1..], false)
  {
    hide Strip, Head, StringEnd;
    StripStep(s);
    HeadString(s);
    var n := StringEnd(s[1..], false);
    assert s[..1 + n] == "\"" + s[1..][..n] && s[1 + n..] == s[1..][n..];
    Regroup3("\"", s[1..][..n], Strip(s[1 + n..]));
  }

  lemma StringStep(s: string, esc: bool)
    requires s != ""
    ensures InString(s, esc) == [s[0]] + if !esc && s[0] == '"' then Strip(s[1..])
        else InString(s[1..], !esc && s[0] == '\\')
  {
    hide Strip;
    var next := !esc && s[0] == '\\';
    if !esc && s[0] == '"' {
      assert s[..1] == [s[0]];
    } else {
      var n := StringEnd(s[1..], next);
      assert s[..1 + n] == [s[0]] + s[1..][..n] && s[1 + n..] == s[1..][n..];
      Regroup3([s[0]], s[1..][..n], Strip(s[1 + n..]));
    }
  }

  function From(s: string, i: nat): string { if i <= |s| then s[i..] else "" }

  /** Where the scanner is: what it has not yet emitted of the stripped text. */
  function ToCome(s: string, i: nat, inStr: bool, esc: bool): string {
    if inStr then InString(From(s, i), esc) else Strip(From(s, i))
  }

  lemma CharInString(s: string, i: nat, esc: bool, out: string)
    requires i < |s|
    ensures out + ToCome(s, i, true, esc)
            == out + [s[i]] + ToCome(s, i + 1, esc || s[i] != '"', !esc && s[i] == '\\')
  {
    hide Strip, InString;
    StringStep(s[i..], esc);
    assert s[i..][1..] == s[i + 1..];
    Regroup3(out, [s[i]], ToCome(s, i + 1, esc || s[i] != '"', !esc && s[i] == '\\'));
  }

  lemma QuoteOpens(s: string, i: nat, out: string)
    requires i < |s| && s[i] == '"'
    ensures out + ToCome(s, i, false, false) == out + [s[i]] + ToCome(s, i + 1, true, false)
  {
    hide Strip, InString;
    OpenString(s[i..]);
    assert s[i..][1..] == s[i + 1..];
    Regroup3(out, [s[i]], ToCome(s, i + 1, true, false));
  }

  lemma OtherChar(s: string, i: nat, out: string)
    requires i < |s| && Head(s[i..]) == Other(s[i])
    ensures out + ToCome(s, i, false, false) == out + [s[i]] + ToCome(s, i + 1, false, false)
  {
  }

  lemma CommentSkipped(s: string, i: nat, j: nat)
    requires i < |s| && !Kept(Head(s[i..])) && From(s, j) == s[i..][|TextOf(Head(s[i..]))|..]
    ensures ToCome(s, i, false, false) == ToCome(s, j, false, false)
  {
    hide Strip, InString, Head;
    StripStep(s[i..]);
    assert "" + Strip(From(s, j)) == Strip(From(s, j));
  }

  lemma HeadKind(s: string)
    requires s != "" && s[0] != '"'
    ensures var two := |s| > 1 && s[0] == '/';
            Head(s) == if two && s[1] == '/' then LineComment(s[..LineEnd(s)])
                       else if two && s[1] == '*' then BlockComment(s[..2 + BlockEnd(s[2..])])
                       else Other(s[0])
  {
  }

  /** `strip_jsonc`. */
  method StripJsonc(s: string) returns (out: string)
    ensures out == Strip(s)
  {
    hide Strip, ToCome, Head, LineEnd, BlockEnd;
    out := "";
    var i, inStr, esc := 0, false, false;
    Begin(s);
    while i < |s|
      invariant (inStr ==> i <= |s|) && (!inStr ==> !esc)
      invariant Strip(s) == out + ToCome(s, i, inStr, esc)
      decreases |s| - i
    {
      var c := s[i];
      if inStr {
        CharInString(s, i, esc, out);
        out := out + [c];
        if esc { esc := false; } else if c == '\\' { esc := true; } else if c == '"' { inStr := false; }
        i := i + 1;
        continue;
      }
      if c == '"' {
        QuoteOpens(s, i, out);
        inStr := true;
        out := out + [c];
        i := i + 1;
        continue;
      }
      HeadKind(s[i..]);
      if c == '/' && i + 1 < |s| && s[i + 1] == '/' {
        var j := SkipLine(s, i);
        CommentSkipped(s, i, j);
        i := j;
        continue;
      }
      if c == '/' && i + 1 < |s| && s[i + 1] == '*' {
        var j := SkipBlock(s, i);
        CommentSkipped(s, i, j);
        i := j;
        continue;
      }
      OtherChar(s, i, out);
      out := out + [c];
      i := i + 1;
    }
    Finish(s, i, inStr, esc, out);
  }

  lemma Begin(s: string)
    ensures Strip(s) == "" + ToCome(s, 0, false, false)
  {
  }

  lemma Finish(s: string, i: nat, inStr: bool, esc: bool, out: string)
    requires i >= |s|
    ensures out + ToCome(s, i, inStr, esc) == out
  {
  }

  /** The loop over a line comment. */
  method SkipLine(s: string, start: nat) returns (i: nat)
    requires start < |s|
    ensures start <= i <= |s| && i == start + LineEnd(s[start..])
    ensures s[start] != '\n' ==> i > start
    ensures From(s, i) == s[start..][LineEnd(s[start..])..]
  {
    i := start;
    while i < |s| && s[i] != '\n'
      invariant start <= i <= |s| && i + LineEnd(s[i..]) == start + LineEnd(s[start..])
    {
      assert s[i..][1..] == s[i + 1..];
      i := i + 1;
    }
  }

  /** The loop over a block comment; without a terminator it runs past the end of the text. */
  method SkipBlock(s: string, start: nat) returns (i: nat)
    requires start + 1 < |s|
    ensures i > start
    ensures From(s, i) == s[start..][2 + BlockEnd(s[start..][2..])..]
  {
    i := start + 2;
    assert s[start..][2..] == s[i..];
    while i + 1 < |s| && !(s[i] == '*' && s[i + 1] == '/')
      invariant start + 2 <= i <= |s|
      invariant i + BlockEnd(s[i..]) == start + 2 + BlockEnd(s[start + 2..])
    {
      assert s[i..][1..] == s[i + 1..];
      i := i + 1;
    }
    i := i + 2;
    assert s[start..][2 + BlockEnd(s[start + 2..])..] == s[start + 2 + BlockEnd(s[start + 2..])..];
  }

  // ------------------------------------------------------------------ what a piece is

  /** In a string literal: a character is escaped by a backslash in front of it that is not itself escaped. */
  predicate Escaped(t: string, k: nat)
    requires k <= |t|
  {
    k > 0 && t[k - 1] == '\\' && !Escaped(t, k - 1)
  }

  /** Does a literal end with this character? The quote at the front opens it. */
  predicate Closes(t: string, k: nat) { 0 < k < |t| && t[k] == '"' && !Escaped(t, k) }

  /** Does a block comment end with this character? The terminator does not overlap the opening. */
  predicate Terminates(t: string, k: nat) { 3 <= k < |t| && t[k - 1] == '*' && t[k] == '/' }

  predicate Comments(s: string, c: char) { |s| > 1 && s[0] == '/' && s[1] == c }

  predicate Last(t: string, k: nat, literal: bool) { if literal then Closes(t, k) else Terminates(t, k) }

  /** A piece is over with the first character that ends it, or with the text. */
  predicate EndsAt(s: string, n: nat, literal: bool) {
    0 < n <= |s| && (forall k: nat | k < n - 1 :: !Last(s, k, literal)) && (n < |s| ==> Last(s, n - 1, literal))
  }

  /** The piece at the front of a text, by the characters alone: a string literal runs through its first quote
      that is not escaped, a line comment up to the line break, a block comment through the first terminator,
      and each of them to the end of the text when that does not come; anything else is a single character. */
  predicate Begins(s: string, p: Piece) {
    match p
    case Other(c) => s != "" && s[0] == c && c != '"' && !Comments(s, '/') && !Comments(s, '*')
    case Str(t) => s != "" && s[0] == '"' && t <= s && EndsAt(s, |t|, true)
    case LineComment(t) => Comments(s, '/') && t <= s && '\n' !in t && (|t| < |s| ==> s[|t|] == '\n')
    case BlockComment(t) => Comments(s, '*') && t <= s && EndsAt(s, |t|, false)
  }

  lemma {:induction false} StringEndIs(s: string, i: nat)
    requires 0 < i <= |s|
    ensures var n := i + StringEnd(s[i..], Escaped(s, i));
            (forall k: nat | i <= k < n - 1 :: !Closes(s, k)) && (i < n < |s| ==> Closes(s, n - 1))
            && (i < |s| ==> i < n)
    decreases |s| - i
  {
    if i < |s| {
      assert s[i..][1..] == s[i + 1..];
      StringEndIs(s, i + 1);
    }
  }

  lemma {:induction false} BlockEndIs(s: string, i: nat)
    requires 2 <= i <= |s|
    ensures var n := i + BlockEnd(s[i..]);
            (forall k: nat | i < k < n - 1 :: !Terminates(s, k)) && (n < |s| ==> n > i + 1 && Terminates(s, n - 1))
    decreases |s| - i
  {
    if i + 1 < |s| {
      assert s[i..][1..] == s[i + 1..];
      BlockEndIs(s, i + 1);
    }
  }

  lemma {:induction false} LineEndIs(s: string)
    ensures var n := LineEnd(s); '\n' !in s[..n] && (n < |s| ==> s[n] == '\n')
  {
    if s != "" && s[0] != '\n' {
      LineEndIs(s[1..]);
      assert s[..LineEnd(s)] == [s[0]] + s[1..][..LineEnd(s[1..])];
    }
  }

  lemma HeadBegins(s: string)
    requires s != ""
    ensures Begins(s, Head(s))
  {
    hide StringEnd, BlockEnd, LineEnd, Closes, Terminates;
    if s[0] == '"' {
      StringEndIs(s, 1);
      NoneEarly(s);
    } else {
      HeadKind(s);
      if Comments(s, '*') { BlockEndIs(s, 2); }
      LineEndIs(s);
      NoneEarly(s);
    }
  }

  lemma NoneEarly(s: string)
    ensures forall k: nat | k < |s| :: (k == 0 ==> !Closes(s, k)) && (k <= 2 ==> !Terminates(s, k))
    ensures |s| > 0 && s[0] == '"' ==> !Escaped(s, 1)
  {
  }

  /** Where a piece ends is one place. */
  lemma SameEnd(s: string, m: nat, n: nat, literal: bool)
    requires EndsAt(s, m, literal) && EndsAt(s, n, literal)
    ensures m == n
  {
    hide Last;
  }

  lemma SameLine(s: string, t: string, u: string)
    requires t <= s && u <= s && '\n' !in t && '\n' !in u
    requires (|t| < |s| ==> s[|t|] == '\n') && (|u| < |s| ==> s[|u|] == '\n')
    ensures t == u
  {
    assert forall k | 0 <= k < |t| :: t[k] == s[k] && t[k] in t;
    assert forall k | 0 <= k < |u| :: u[k] == s[k] && u[k] in u;
  }

  lemma OnePiece(s: string, p: Piece, q: Piece)
    requires Begins(s, p) && Begins(s, q)
    ensures p == q
  {
    hide Closes, Terminates;
    match p {
      case Other(_) =>
      case Str(t) => SameEnd(s, |t|, |q.text|, true);
      case LineComment(t) => SameLine(s, t, q.text);
      case BlockComment(t) => SameEnd(s, |t|, |q.text|, false);
    }
  }

  /** The scanner's reading of the front of a text is that piece. */
  lemma HeadIff(s: string, p: Piece)
    requires s != ""
    ensures Begins(s, p) <==> p == Head(s)
  {
    hide Begins, Head;
    HeadBegins(s);
    if Begins(s, p) { OnePiece(s, p, Head(s)); }
  }

  // ------------------------------------------------------------------ the pieces are the text

  lemma PiecesStep(s: string)
    requires s != ""
    ensures var n := |TextOf(Head(s))|;
            Pieces(s) != [] && Pieces(s)[0] == Head(s) && Pieces(s)[1..] == Pieces(s[n..])
                && TextOf(Head(s)) + s[n..] == s
  {
  }

  lemma {:induction false} PiecesAreTheText(s: string)
    ensures Concat(Pieces(s)) == s
    decreases |s|
  {
    if s != "" {
      hide Head, Pieces;
      PiecesStep(s);
      PiecesAreTheText(s[|TextOf(Head(s))|..]);
    }
  }

  /** The declarative reading: each piece is what the text from there on begins with. */
  predicate Segmentation(ps: seq<Piece>) {
    ps != [] ==> Begins(Concat(ps), ps[0]) && Segmentation(ps[1..])
  }

  /** There is exactly one segmentation of a text. */
  lemma {:induction false} OneSegmentation(s: string, ps: seq<Piece>)
    ensures Segmentation(ps) && Concat(ps) == s <==> ps == Pieces(s)
    decreases |s|, |ps|
  {
    hide Head, Pieces, Begins;
    PiecesAreTheText(s);
    if ps == [] {
      if s != "" { PiecesStep(s); }
      EmptyText();
    } else {
      var rest := Concat(ps[1..]);
      PieceHasText(Concat(ps), ps[0]);
      assert Concat(ps)[|TextOf(ps[0])|..] == rest;
      if TextOf(ps[0]) != "" && Concat(ps) == s {
        PiecesStep(s);
        OneSegmentation(rest, ps[1..]);
        SamePieces(ps, Pieces(s));
      } else if ps == Pieces(s) {
        if s == "" { EmptyText(); } else { PiecesStep(s); }
      }
    }
  }

  lemma PieceHasText(s: string, p: Piece)
    ensures Begins(s, p) ==> TextOf(p) != "" && s != "" && p == Head(s)
    ensures s != "" ==> Begins(s, Head(s))
  {
    hide Head, EndsAt;
    if s != "" { HeadIff(s, p); HeadBegins(s); }
  }

  lemma EmptyText()
    ensures Pieces("") == []
  {
  }

  lemma SamePieces(ps: seq<Piece>, qs: seq<Piece>)
    requires ps != [] && qs != []
    ensures ps == qs <==> ps[0] == qs[0] && ps[1..] == qs[1..]
  {
  }

  // ------------------------------------------------------------------ idempotence

  lemma {:induction false} StringEndLocal(s: string, t: string, esc: bool)
    requires StringEnd(s, esc) == |s| ==> t == ""
    ensures var n := StringEnd(s, esc); StringEnd(s[..n] + t, esc) == n
  {
    var n := StringEnd(s, esc);
    var u := s[..n] + t;
    if s != "" {
      if !esc && s[0] == '"' {
        assert u[0] == '"';
      } else {
        StringEndLocal(s[1..], t, !esc && s[0] == '\\');
        assert u[0] == s[0] && u[1..] == s[1..][..n - 1] + t;
      }
    }
  }

  /** A kept piece is read as itself again when the comments behind it are gone. */
  lemma HeadSurvives(s: string, t: string)
    requires s != "" && Kept(Head(s))
    requires Head(s) == Other('/') && t != "" ==> |s| > 1 && t[0] == s[1]
    requires |TextOf(Head(s))| == |s| ==> t == ""
    ensures Head(TextOf(Head(s)) + t) == Head(s)
  {
    hide StringEnd, LineEnd, BlockEnd;
    var u := TextOf(Head(s)) + t;
    if s[0] == '"' {
      var n := StringEnd(s[1..], false);
      HeadString(s);
      StringEndLocal(s[1..], t, false);
      assert u[1..] == s[1..][..n] + t && u[0] == '"';
      HeadString(u);
      assert u[..1 + n] == s[..1 + n];
    } else {
      HeadKind(s);
      assert u[0] == s[0] && |u| == 1 + |t| && (t != "" ==> u[1] == t[0]);
      HeadKind(u);
    }
  }

  /** Behind a lone `/` there is never a comment. */
  lemma SlashIsAlone(s: string)
    requires s != "" && Head(s) == Other('/') && |s| > 1
    ensures var t := Strip(s[1..]); t != "" && t[0] == s[1]
  {
  }

  /** The theorem: what is left after stripping falls apart into exactly the kept pieces of the original.
      String literals survive verbatim and in order, nothing else is changed, no comment is left. */
  lemma {:induction false} StrippedPieces(s: string)
    ensures Pieces(Strip(s)) == Keep(Pieces(s))
    decreases |s|
  {
    if s != "" {
      hide Head, Pieces, Strip;
      var h := Head(s);
      var rest := s[|TextOf(h)|..];
      PiecesStep(s);
      StripStep(s);
      StrippedPieces(rest);
      if Kept(h) {
        var t := Strip(rest);
        if h == Other('/') && |s| > 1 { SlashIsAlone(s); }
        if rest == "" { StripNothing(); }
        HeadSurvives(s, t);
        PiecesStep(TextOf(h) + t);
        assert (TextOf(h) + t)[|TextOf(h)|..] == t;
        SamePieces(Pieces(TextOf(h) + t), [h] + Pieces(t));
      } else {
        assert "" + Strip(rest) == Strip(rest);
      }
    }
  }

  lemma StripNothing()
    ensures Strip("") == ""
  {
  }

  function Those(ps: seq<Piece>, f: Piece -> bool): seq<Piece> {
    if ps == [] then [] else (if f(ps[0]) then [ps[0]] else []) + Those(ps[1..], f)
  }

  lemma {:induction false} KeepLeaves(ps: seq<Piece>, f: Piece -> bool)
    requires forall p :: f(p) ==> p.Str? || p.Other?
    ensures Those(Keep(ps), f) == Those(ps, f)
    ensures forall i | 0 <= i < |Keep(ps)| :: Keep(ps)[i].Str? || Keep(ps)[i].Other?
  {
    if ps != [] {
      KeepLeaves(ps[1..], f);
      if Kept(ps[0]) { assert Keep(ps)[1..] == Keep(ps[1..]); } else { assert Keep(ps) == Keep(ps[1..]); }
    }
  }

  /** What stripping means, kind by kind: no comment of either kind is left, and whatever one picks from the
      other pieces (the string literals, say, or the literals with a certain text) is picked in the same order
      from the stripped text. */
  lemma CommentsGo(s: string, f: Piece -> bool)
    requires forall p :: f(p) ==> p.Str? || p.Other?
    ensures Those(Pieces(Strip(s)), f) == Those(Pieces(s), f)
    ensures forall i | 0 <= i < |Pieces(Strip(s))| :: Pieces(Strip(s))[i].Str? || Pieces(Strip(s))[i].Other?
  {
    hide Pieces, Strip;
    StrippedPieces(s);
    KeepLeaves(Pieces(s), f);
  }

  lemma {:induction false} KeepTwice(ps: seq<Piece>)
    ensures Keep(Keep(ps)) == Keep(ps)
  {
    if ps != [] {
      KeepTwice(ps[1..]);
      if Kept(ps[0]) { assert Keep(ps)[1..] == Keep(ps[1..]); } else { assert Keep(ps) == Keep(ps[1..]); }
    }
  }

  /** Stripping twice is stripping once. */
  lemma StripIsIdempotent(s: string)
    ensures Strip(Strip(s)) == Strip(s)
  {
    hide Pieces;
    StrippedPieces(s);
    KeepTwice(Pieces(s));
  }
}
