/** The framed connection: control lines and binary payloads interleaved on one stream. */
module Wire {
  import opened Text

  /** Chunk of `copy_exact_to_writer`. */
  const COPY_CHUNK: nat := 65536

  // ------------------------------------------------------------------ lines, as functions of the stream

  /** How many characters `read_until('\n')` consumes: through the first line break, or all. */
  function LineEnd(s: string): (n: nat)
    ensures n <= |s|
    ensures s != "" ==> n > 0
    ensures forall i | 0 <= i < n - 1 :: s[i] != '\n'
    ensures n < |s| ==> s[n - 1] == '\n'
  {
    if s == "" then 0
    else if s[0] == '\n' then 1
    else 1 + LineEnd(s[1..])
  }

  /** Drop every trailing line break and carriage return. */
  function StripTail(raw: string): (s: string)
    ensures |s| <= |raw|
  {
    if raw != "" && raw[|raw| - 1] in {'\n', '\r'} then StripTail(raw[..|raw| - 1]) else raw
  }

  /** ... and one leading carriage return. */
  function Strip(raw: string): (s: string)
    ensures |s| <= |raw|
  {
    var s := StripTail(raw);
    if s != "" && s[0] == '\r' then s[1..] else s
  }

  /** The control line at the head of a stream ... */
  function Line(s: string): string { Strip(s[..LineEnd(s)]) }

  /** ... and the stream behind it. */
  function AfterLine(s: string): (t: string)
    ensures |t| <= |s|
    ensures s != "" ==> |t| < |s|
  {
    s[LineEnd(s)..]
  }

  /** A line as `put_line` writes it. */
  function Ln(l: string): string { l + "\n" }

  /** The texts a control line carries unchanged. */
  predicate LineSafe(l: string) {
    Avoids(l, {'\n'}) && (l != "" ==> l[0] != '\r' && l[|l| - 1] != '\r')
  }

  lemma {:induction false} LineEndOf(l: string, rest: string)
    requires Avoids(l, {'\n'})
    ensures LineEnd(Ln(l) + rest) == |l| + 1
  {
    var s := Ln(l) + rest;
    if l != "" {
      assert s[1..] == Ln(l[1..]) + rest;
      LineEndOf(l[1..], rest);
    }
  }

  /** A safe line is read back exactly and the stream behind it is untouched. */
  lemma LineOf(l: string, rest: string)
    requires LineSafe(l)
    ensures Ln(l) + rest != ""
    ensures Line(Ln(l) + rest) == l
    ensures AfterLine(Ln(l) + rest) == rest
  {
    LineEndOf(l, rest);
    var s := Ln(l) + rest;
    assert s[..|l| + 1] == Ln(l);
    assert s[|l| + 1..] == rest;
    assert Ln(l)[..|l|] == l;
    assert StripTail(Ln(l)) == StripTail(l) == l;
  }

  /** Exactly the safe lines survive: any other text is read back as something else. */
  lemma LineSurvivesIff(l: string, rest: string)
    ensures Line(Ln(l) + rest) == l <==> LineSafe(l)
  {
    if LineSafe(l) {
      LineOf(l, rest);
    } else {
      var s := Ln(l) + rest;
      var n := LineEnd(s);
      StripTailShape(s[..n]);
      if Avoids(l, {'\n'}) {
        LineEndOf(l, rest);
        assert s[..n] == Ln(l);
        if l[|l| - 1] == '\r' {
          assert Ln(l)[..|l|] == l;
          assert StripTail(Ln(l)) == StripTail(l);
          StripTailShape(l[..|l| - 1]);
        }
      } else {
        var k :| 0 <= k < |l| && l[k] == '\n';
        assert s[k] == '\n';
        assert n <= |l|;
        assert s[n - 1] == '\n';
        assert |StripTail(s[..n])| < n;
      }
    }
  }

  lemma {:induction false} StripTailShape(raw: string)
    ensures |StripTail(raw)| <= |raw|
    ensures StripTail(raw) == raw[..|StripTail(raw)|]
  {
    if raw != "" && raw[|raw| - 1] in {'\n', '\r'} {
      StripTailShape(raw[..|raw| - 1]);
    }
  }

  /** What a chunked copy of `n` bytes has written when only `avail` arrive: whole chunks. */
  function Salvaged(avail: nat, n: nat, chunk: nat): (k: nat)
    requires chunk > 0
    ensures k <= avail && k <= n
    ensures n <= avail ==> k == n
  {
    if n <= avail then n
    else if avail < chunk then 0
    else chunk + Salvaged(avail - chunk, n - chunk, chunk)
  }

  lemma NextChunk(avail: nat, n: nat, chunk: nat)
    requires chunk > 0
    ensures Salvaged(avail, n, chunk) == if n <= avail then n else if avail < chunk then 0
                                         else chunk + Salvaged(avail - chunk, n - chunk, chunk)
  {
  }

  lemma OneChunkLess(a: nat, chunk: nat)
    requires 0 < chunk <= a
    ensures (a - chunk) % chunk == a % chunk
  {
    var q := a / chunk;
    assert a - chunk == (q - 1) * chunk + a % chunk;
    ModIs(a - chunk, q - 1, a % chunk, chunk);
  }

  lemma ModIs(a: int, q: int, r: int, d: int)
    requires 0 <= r < d && a == q * d + r
    ensures a % d == r
  {
    var k := q - a / d;
    assert a % d == k * d + r;
    assert k > 0 ==> k * d >= d;
    assert k < 0 ==> k * d <= -d;
  }

  /** Of a stream that ends early, everything but the broken chunk has been written. */
  lemma {:induction false} SalvagedIs(avail: nat, n: nat, chunk: nat)
    requires chunk > 0 && avail < n
    ensures Salvaged(avail, n, chunk) == avail - avail % chunk
  {
    if avail >= chunk {
      SalvagedIs(avail - chunk, n - chunk, chunk);
      OneChunkLess(avail, chunk);
    }
  }

  // ------------------------------------------------------------------ the connection

  /** A connection: `rbuf` is the reader's buffer, `rest` what the peer will still deliver
      before it closes, `wbuf` the queued output and `sent` what went to the transport. */
  class Conn {
    var rbuf: string
    var rest: string
    var wbuf: string
    var sent: string
    /** How often a read could have waited for the peer while output was still queued. */
    ghost var stalls: nat

    constructor (incoming: string)
      ensures Unread() == incoming && Out() == "" && wbuf == "" && stalls == 0
    {
      rbuf, rest, wbuf, sent, stalls := "", incoming, "", "", 0;
    }

    function Unread(): string
      reads this
    {
      rbuf + rest
    }

    /** Everything ever queued for the peer, flushed or not. */
    function Out(): string
      reads this
    {
      sent + wbuf
    }

    /** One read of the transport: any non-empty piece of what is left may arrive. */
    method Fill()
      modifies `rbuf, `rest
      ensures Unread() == old(Unread())
      ensures old(rest) != "" ==> |rest| < |old(rest)|
      ensures old(rest) == "" ==> rbuf == old(rbuf) && rest == ""
    {
      if rest != "" {
        var n :| 0 < n <= |rest|;
        rbuf, rest := rbuf + rest[..n], rest[n..];
        assert old(rbuf) + old(rest)[..n] + old(rest)[n..] == old(rbuf) + old(rest);
      }
    }

    /** `read_until('\n')`: bytes through the first line break, or all of them. */
    method ReadUntil() returns (raw: string)
      modifies `rbuf, `rest
      ensures raw == old(Unread())[..LineEnd(old(Unread()))]
      ensures Unread() == AfterLine(old(Unread()))
    {
      hide LineEnd, Unbroken;
      ghost var s := Unread();
      raw := "";
      NothingRead(s);
      while raw == "" || raw[|raw| - 1] != '\n'
        invariant raw + Unread() == s && Unbroken(raw)
        decreases |Unread()|, |rest|
      {
        if rbuf != "" {
          OneRead(raw, rbuf, rest);
          raw, rbuf := raw + [rbuf[0]], rbuf[1..];
        } else if rest != "" {
          Fill();
        } else {
          break;
        }
      }
      ReadThrough(raw, Unread());
    }

    /** `read_line`: `None` on a clean close. */
    method ReadLine() returns (line: Option<string>)
      modifies `rbuf, `rest, `stalls
      ensures old(Unread()) == "" ==> line == None && Unread() == ""
      ensures old(Unread()) != "" ==> line == Some(Line(old(Unread()))) && Unread() == AfterLine(old(Unread()))
      ensures stalls == old(stalls) + if wbuf == "" then 0 else 1
    {
      if wbuf != "" { stalls := stalls + 1; }
      var raw := ReadUntil();
      if raw == "" {
        return None;
      }
      var l := raw;
      while l != "" && l[|l| - 1] in {'\n', '\r'}
        invariant StripTail(l) == StripTail(raw)
        decreases |l|
      {
        l := l[..|l| - 1];
      }
      if l != "" && l[0] == '\r' {
        l := l[1..];
      }
      return Some(l);
    }

    /** `read_exact`: all `n` bytes or an error, whatever pieces the transport delivers. */
    method ReadExact(n: nat) returns (data: Option<string>)
      modifies `rbuf, `rest
      ensures n <= |old(Unread())| ==> data == Some(old(Unread())[..n]) && Unread() == old(Unread())[n..]
      ensures n > |old(Unread())| ==> data == None && Unread() == ""
    {
      ghost var s := Unread();
      var got := "";
      while |got| < n
        invariant |got| <= n
        invariant got + Unread() == s
        decreases n - |got|, |rest|
      {
        if rbuf == "" {
          if rest == "" {
            return None;
          }
          Fill();
        } else {
          var k := if n - |got| < |rbuf| then n - |got| else |rbuf|;
          ghost var before := got;
          ghost var whole := rbuf;
          got, rbuf := got + rbuf[..k], rbuf[k..];
          assert before + (whole[..k] + whole[k..]) == before + whole;
          assert got + (rbuf + rest) == before + (whole + rest);
        }
      }
      assert s[..n] == got && s[n..] == Unread();
      return Some(got);
    }

    /** Move exactly `n` bytes to a writer, `chunk` at a time; `copied` is what the writer got. */
    method CopyExact(n: nat, chunk: nat) returns (copied: string, ok: bool)
      requires chunk > 0
      modifies `rbuf, `rest
      ensures ok <==> n <= |old(Unread())|
      ensures copied == old(Unread())[..Salvaged(|old(Unread())|, n, chunk)]
      ensures ok ==> Unread() == old(Unread())[n..]
      ensures !ok ==> |copied| == |old(Unread())| - |old(Unread())| % chunk
    {
      hide Salvaged;
      ghost var s := Unread();
      if |s| < n { SalvagedIs(|s|, n, chunk); }
      copied := "";
      var left := n;
      while left > 0
        invariant 0 <= left <= n && |copied| == n - left <= |s|
        invariant copied == s[..|copied|] && Unread() == s[|copied|..]
        invariant n > |s| ==> Salvaged(|s|, n, chunk) == |copied| + Salvaged(|s| - |copied|, left, chunk)
      {
        NextChunk(|s| - |copied|, left, chunk);
        var want := if left < chunk then left else chunk;
        var piece := ReadExact(want);
        if piece == None {
          return copied, false;
        }
        copied := copied + piece.value;
        left := left - want;
      }
      NextChunk(|s|, n, chunk);
      return copied, true;
    }

    method PutLine(l: string)
      modifies `wbuf
      ensures Out() == old(Out()) + Ln(l) && wbuf == old(wbuf) + Ln(l)
    {
      wbuf := wbuf + l + "\n";
      assert wbuf == old(wbuf) + Ln(l);
      assert sent + (old(wbuf) + Ln(l)) == sent + old(wbuf) + Ln(l);
    }

    method PutBytes(b: string)
      modifies `wbuf
      ensures Out() == old(Out()) + b && wbuf == old(wbuf) + b
    {
      wbuf := wbuf + b;
      assert sent + (old(wbuf) + b) == sent + old(wbuf) + b;
    }

    /** Flushing never changes the byte stream, only when it leaves. */
    method Flush()
      modifies `wbuf, `sent
      ensures Out() == old(Out()) && wbuf == ""
    {
      sent, wbuf := sent + wbuf, "";
    }

    method SendLine(l: string)
      modifies `wbuf, `sent
      ensures Out() == old(Out()) + Ln(l) && wbuf == ""
    {
      PutLine(l);
      Flush();
    }
  }

  /** No line break before the last character. */
  predicate Unbroken(raw: string) { forall i | 0 <= i < |raw| - 1 :: raw[i] != '\n' }

  lemma NothingRead(s: string)
    ensures "" + s == s && Unbroken("")
  {
  }

  lemma OneRead(raw: string, rbuf: string, rest: string)
    requires rbuf != "" && Unbroken(raw) && (raw == "" || raw[|raw| - 1] != '\n')
    ensures raw + [rbuf[0]] + (rbuf[1..] + rest) == raw + (rbuf + rest)
    ensures Unbroken(raw + [rbuf[0]])
  {
    assert rbuf == [rbuf[0]] + rbuf[1..];
  }

  lemma ReadThrough(raw: string, unread: string)
    requires Unbroken(raw) && ((raw != "" && raw[|raw| - 1] == '\n') || unread == "")
    ensures var s := raw + unread; raw == s[..LineEnd(s)] && unread == AfterLine(s)
  {
    LineEndIs(raw + unread, |raw|);
  }

  lemma {:induction false} LineEndIs(s: string, n: nat)
    requires n <= |s|
    requires forall i | 0 <= i < n - 1 :: s[i] != '\n'
    requires (n > 0 && s[n - 1] == '\n') || n == |s|
    ensures LineEnd(s) == n
  {
    if s != "" && s[0] != '\n' {
      LineEndIs(s[1..], n - 1);
    }
  }
}
