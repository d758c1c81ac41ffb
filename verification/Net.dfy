/** Two ends that talk over a pair of FIFO channels which lose nothing, as a step system: what has been
    said and what has been heard move forward by any number of characters at a time. */
module Net {
  import opened Text
  import opened Wire

  // ------------------------------------------------------------------ whole lines

  /** Nothing, or a text that ends with a line break. */
  predicate Complete(s: string) { s != "" ==> s[|s| - 1] == '\n' }

  /** A text without its unfinished last line. Both ends act on whole lines only, and between two lines they
      only take in payload. */
  function Lines(s: string): (q: string)
    ensures Complete(q) && q <= s
    ensures Complete(s) ==> q == s
  {
    if Complete(s) then s else Lines(s[..|s| - 1])
  }

  lemma {:induction false} LinesGrow(a: string, b: string)
    requires Complete(a) && a <= b
    ensures a <= Lines(b)
    decreases |b|
  {
    if !Complete(b) { LinesGrow(a, b[..|b| - 1]); }
  }

  lemma {:induction false} LinesBehind(a: string, x: string)
    requires Complete(a) && a != ""
    ensures Lines(a + x) == a + Lines(x)
    decreases |x|
  {
    if x == "" {
      assert a + x == a;
    } else if !Complete(x) {
      assert (a + x)[..|a + x| - 1] == a + x[..|x| - 1];
      LinesBehind(a, x[..|x| - 1]);
    }
  }

  lemma GrowBehind(a: string, x: string, y: string)
    requires x <= y
    ensures a + x <= a + y
  {
  }

  lemma CompleteEnd(a: string, b: string)
    requires Complete(b) && (b != "" || Complete(a))
    ensures Complete(a + b)
  {
  }

  lemma LnComplete(l: string)
    ensures Complete(Ln(l)) && Ln(l) != ""
  {
  }

  lemma {:induction false} BreakInside(s: string, t: string)
    requires s != "" && (Complete(s) || AfterLine(s) != "")
    ensures LineEnd(s + t) == LineEnd(s) && s[LineEnd(s) - 1] == '\n'
  {
    assert (s + t)[1..] == s[1..] + t;
    if s[0] != '\n' { BreakInside(s[1..], t); }
  }

  /** What comes later does not change a line that is in. */
  lemma LineStays(s: string, t: string)
    requires s != "" && (Complete(s) || AfterLine(s) != "")
    ensures s + t != "" && Line(s + t) == Line(s) && AfterLine(s + t) == AfterLine(s) + t
    ensures Complete(s) ==> Complete(AfterLine(s))
  {
    hide LineEnd, Strip;
    BreakInside(s, t);
    assert (s + t)[..LineEnd(s)] == s[..LineEnd(s)] && (s + t)[LineEnd(s)..] == s[LineEnd(s)..] + t;
  }

  // ------------------------------------------------------------------ the step system

  /** What an end says, as a function of all that has reached it. */
  type End = string -> string

  /** How far both directions are: what has left the client and what of it has reached the server, what has
      left the server and what of it has reached the client. */
  datatype Channels = Channels(said: string, heard: string, sent: string, got: string)

  const QUIET: Channels := Channels("", "", "", "")

  /** The next n characters leave an end or reach one. */
  datatype Move = ClientSays(n: nat) | ServerHears(n: nat) | ServerSends(n: nat) | ClientGets(n: nat)

  /** n more characters of `whole` behind `part`. */
  function More(part: string, whole: string, n: nat): Option<string> {
    if n > 0 && |part| + n <= |whole| then Some(part + whole[|part|..|part| + n]) else None
  }

  function Next(cli: End, srv: End, s: Channels, move: Move): Option<Channels> {
    match move
    case ClientSays(n) => (match More(s.said, cli(s.got), n) case None => None case Some(x) => Some(s.(said := x)))
    case ServerHears(n) => (match More(s.heard, s.said, n) case None => None case Some(x) => Some(s.(heard := x)))
    case ServerSends(n) => (match More(s.sent, srv(s.heard), n) case None => None case Some(x) => Some(s.(sent := x)))
    case ClientGets(n) => (match More(s.got, s.sent, n) case None => None case Some(x) => Some(s.(got := x)))
  }

  function Run(cli: End, srv: End, s: Channels, trace: seq<Move>): Option<Channels>
    decreases |trace|
  {
    if trace == [] then Some(s)
    else match Next(cli, srv, s, trace[0]) case None => None case Some(t) => Run(cli, srv, t, trace[1..])
  }

  /** Who has heard more says more and takes nothing back. */
  ghost predicate Monotone(f: End) { forall a: string, b: string :: a <= b ==> f(a) <= f(b) }

  /** The whole conversation: each end says its part on hearing the other's, and the two cannot come to rest
      before that. */
  ghost predicate Fits(cli: End, srv: End, fullC: string, fullS: string) {
    Monotone(cli) && Monotone(srv) && srv(fullC) == fullS && cli(fullS) == fullC
    && forall a: string, b: string :: a == cli(b) && b == srv(a) ==> fullC <= a
  }

  /** Nobody has said more than it could by then, nobody has heard more than was said, and nothing is out of
      the conversation. */
  ghost predicate InTalk(cli: End, srv: End, fullC: string, fullS: string, s: Channels) {
    s.heard <= s.said <= cli(s.got) && s.got <= s.sent <= srv(s.heard) && s.said <= fullC && s.sent <= fullS
  }

  lemma MoreIs(part: string, whole: string, n: nat)
    requires part <= whole && More(part, whole, n).Some?
    ensures part <= More(part, whole, n).value <= whole && |More(part, whole, n).value| > |part|
  {
  }

  lemma NextInTalk(cli: End, srv: End, fullC: string, fullS: string, s: Channels, move: Move)
    requires Fits(cli, srv, fullC, fullS) && InTalk(cli, srv, fullC, fullS, s) && Next(cli, srv, s, move).Some?
    ensures InTalk(cli, srv, fullC, fullS, Next(cli, srv, s, move).value)
    ensures Size(Next(cli, srv, s, move).value) > Size(s)
  {
    hide More;
    var t := Next(cli, srv, s, move).value;
    match move {
      case ClientSays(n) =>
        MoreIs(s.said, cli(s.got), n);
        assert s.got <= fullS;
        assert cli(s.got) <= cli(fullS);
      case ServerHears(n) =>
        MoreIs(s.heard, s.said, n);
        assert srv(s.heard) <= srv(t.heard);
      case ServerSends(n) =>
        MoreIs(s.sent, srv(s.heard), n);
        assert s.heard <= fullC;
        assert srv(s.heard) <= srv(fullC);
      case ClientGets(n) =>
        MoreIs(s.got, s.sent, n);
        assert cli(s.got) <= cli(t.got);
    }
  }

  /** How much has moved. */
  function Size(s: Channels): nat { |s.said| + |s.heard| + |s.sent| + |s.got| }

  lemma {:induction false} AlwaysInTalk(cli: End, srv: End, fullC: string, fullS: string, s: Channels, trace: seq<Move>)
    requires Fits(cli, srv, fullC, fullS) && InTalk(cli, srv, fullC, fullS, s) && Run(cli, srv, s, trace).Some?
    ensures InTalk(cli, srv, fullC, fullS, Run(cli, srv, s, trace).value)
    ensures Size(Run(cli, srv, s, trace).value) >= Size(s) + |trace|
    decreases |trace|
  {
    hide Fits, InTalk, Next, Size;
    if trace != [] {
      NextInTalk(cli, srv, fullC, fullS, s, trace[0]);
      AlwaysInTalk(cli, srv, fullC, fullS, Next(cli, srv, s, trace[0]).value, trace[1..]);
    }
  }

  /** Everything said has been heard, and neither end has more to say. */
  predicate Rests(cli: End, srv: End, s: Channels) {
    s.heard == s.said == cli(s.got) && s.got == s.sent == srv(s.heard)
  }

  lemma SomethingMoves(cli: End, srv: End, fullC: string, fullS: string, s: Channels) returns (move: Move)
    requires InTalk(cli, srv, fullC, fullS, s) && !Rests(cli, srv, s)
    ensures Next(cli, srv, s, move).Some?
  {
    move := if s.said != cli(s.got) then ClientSays(1) else if s.heard != s.said then ServerHears(1)
            else if s.sent != srv(s.heard) then ServerSends(1) else ClientGets(1);
  }

  /** Two ends that fit never get stuck: in every state that any run reaches, a step is enabled until the
      whole conversation has been said and heard, and no run takes more steps than there are characters. */
  lemma NeverStuck(cli: End, srv: End, fullC: string, fullS: string, trace: seq<Move>)
    requires Fits(cli, srv, fullC, fullS) && Run(cli, srv, QUIET, trace).Some?
    ensures |trace| <= 2 * (|fullC| + |fullS|)
    ensures var s := Run(cli, srv, QUIET, trace).value;
            s == Channels(fullC, fullC, fullS, fullS) || exists move :: Next(cli, srv, s, move).Some?
  {
    hide Next, Run;
    AlwaysInTalk(cli, srv, fullC, fullS, QUIET, trace);
    var s := Run(cli, srv, QUIET, trace).value;
    assert |s.said| <= |fullC| && |s.heard| <= |fullC| && |s.sent| <= |fullS| && |s.got| <= |fullS|;
    if Rests(cli, srv, s) {
      assert fullC <= s.said <= fullC;
    } else {
      var move := SomethingMoves(cli, srv, fullC, fullS, s);
    }
  }

  // ------------------------------------------------------------------ climbing to the end

  /** Growth on whole lines. */
  ghost predicate Grows(f: End) {
    forall a: string, b: string :: Complete(a) && Complete(b) && a <= b ==> f(a) <= f(b)
  }

  /** At rest each end has said what it says on the whole lines of the other. */
  ghost predicate AtRest(cli: End, srv: End, a: string, b: string) { a == cli(Lines(b)) && b == srv(Lines(a)) }

  /** One exchange: what the client has said makes the server send enough for the client to say more. */
  lemma Exchange(cli: End, srv: End, a: string, b: string, up: string, next: string)
    requires Grows(cli) && Grows(srv) && AtRest(cli, srv, a, b)
    requires up <= a && Complete(up) && Complete(srv(up)) && next <= cli(srv(up))
    ensures next <= a
  {
    hide Lines;
    LinesGrow(up, a);
    assert srv(up) <= srv(Lines(a));
    LinesGrow(srv(up), b);
    assert cli(srv(up)) <= cli(Lines(b));
  }

  /** Ends that fit behind a greeting. */
  ghost predicate Suits(cli: End, srv: End, fullC: string, fullS: string) {
    Grows(cli) && Grows(srv) && Complete(fullC) && Complete(fullS) && srv(fullC) == fullS && cli(fullS) == fullC
    && forall a: string, b: string :: AtRest(cli, srv, a, b) ==> fullC <= a
  }
}
