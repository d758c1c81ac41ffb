/** Text helpers shared by every layer: splitting and joining, decimal numbers, and the
    number parsers of the control lines.

    One alphabet serves text and binary payloads: a stream is a `string`, one character a
    byte, so a control line can be written as a string literal. */
module Text {

  datatype Option<+T> = None | Some(value: T)

  /** The largest `u64` and the bounds of `i64`. */
  const U64_MAX: nat := 0xFFFF_FFFF_FFFF_FFFF
  const I64_MAX: int := 0x7FFF_FFFF_FFFF_FFFF
  const I64_MIN: int := -0x8000_0000_0000_0000

  predicate StartsWith(s: string, prefix: string) { prefix <= s }

  /** Concatenation is associative. */
  lemma Regroup3<T>(a: seq<T>, b: seq<T>, c: seq<T>)
    ensures (a + b) + c == a + (b + c)
  {
  }

  // ------------------------------------------------------------------ split and join

  /** Does `s` avoid every character of `seps`? */
  predicate Avoids(s: string, seps: set<char>) {
    forall i | 0 <= i < |s| :: s[i] !in seps
  }

  /** Rust's `str::split`: n separators give n + 1 parts, empty ones included. */
  function Split(s: string, seps: set<char>): (parts: seq<string>)
    ensures |parts| >= 1
    ensures forall i | 0 <= i < |parts| :: Avoids(parts[i], seps) && |parts[i]| <= |s|
  {
    if s == "" then [""]
    else
      var parts := Split(s[1..], seps);
      if s[0] in seps then [""] + parts else [[s[0]] + parts[0]] + parts[1..]
  }

  function Join(parts: seq<string>, sep: char): string {
    if |parts| == 0 then ""
    else if |parts| == 1 then parts[0]
    else parts[0] + [sep] + Join(parts[1..], sep)
  }

  lemma {:induction false} SplitAvoiding(s: string, seps: set<char>)
    requires Avoids(s, seps)
    ensures Split(s, seps) == [s]
  {
    if s != "" {
      SplitAvoiding(s[1..], seps);
      assert [s[0]] + s[1..] == s;
    }
  }

  /** Splitting at the first separator. */
  lemma {:induction false} SplitAt(head: string, c: char, tail: string, seps: set<char>)
    requires Avoids(head, seps) && c in seps
    ensures Split(head + [c] + tail, seps) == [head] + Split(tail, seps)
  {
    var s := head + [c] + tail;
    if head == "" {
      assert s[1..] == tail;
    } else {
      SplitAt(head[1..], c, tail, seps);
      assert s[1..] == head[1..] + [c] + tail;
      assert [head[0]] + head[1..] == head;
    }
  }

  /** Splitting undoes joining. */
  lemma {:induction false} SplitJoin(parts: seq<string>, sep: char, seps: set<char>)
    requires |parts| >= 1 && sep in seps
    requires forall i | 0 <= i < |parts| :: Avoids(parts[i], seps)
    ensures Split(Join(parts, sep), seps) == parts
  {
    if |parts| == 1 {
      SplitAvoiding(parts[0], seps);
    } else {
      SplitAt(parts[0], sep, Join(parts[1..], sep), seps);
      SplitJoin(parts[1..], sep, seps);
      assert [parts[0]] + parts[1..] == parts;
    }
  }

  /** Every character of a joined text is a separator or comes from a part. */
  lemma {:induction false} JoinAvoids(parts: seq<string>, sep: char, seps: set<char>)
    requires sep !in seps
    requires forall i | 0 <= i < |parts| :: Avoids(parts[i], seps)
    ensures Avoids(Join(parts, sep), seps)
  {
    if |parts| > 1 {
      JoinAvoids(parts[1..], sep, seps);
    }
  }

  /** The k-th space-separated field of a header, `"0"` when it is missing. */
  function Field(hdr: string, k: nat): string {
    var parts := Split(hdr, {' '});
    if k < |parts| then parts[k] else "0"
  }

  // ------------------------------------------------------------------ trimming

  const WHITE: set<char> := {' ', '\t', '\n', '\r', '\U{0B}', '\U{0C}'}

  function TrimLeft(s: string): string {
    if s != "" && s[0] in WHITE then TrimLeft(s[1..]) else s
  }

  function TrimRight(s: string): string {
    if s != "" && s[|s| - 1] in WHITE then TrimRight(s[..|s| - 1]) else s
  }

  function Trim(s: string): string { TrimRight(TrimLeft(s)) }

  // ------------------------------------------------------------------ numbers

  predicate IsDigit(c: char) { '0' <= c <= '9' }

  function Digit(d: nat): (c: char)
    requires d < 10
    ensures IsDigit(c)
  {
    '0' + d as char
  }

  predicate AllDigits(s: string) {
    forall i | 0 <= i < |s| :: IsDigit(s[i])
  }

  function DigitsValue(s: string): nat
    requires AllDigits(s)
  {
    if s == "" then 0
    else 10 * DigitsValue(s[..|s| - 1]) + (s[|s| - 1] as int - '0' as int)
  }

  /** Decimal text of a natural number. */
  function Dec(n: nat): (s: string)
    ensures |s| > 0 && AllDigits(s)
  {
    if n < 10 then [Digit(n)] else Dec(n / 10) + [Digit(n % 10)]
  }

  /** Decimal text of an integer. */
  function DecInt(n: int): string {
    if n < 0 then "-" + Dec(-n) else Dec(n)
  }

  /** Rust's `u64::from_str`: an optional `+`, then digits, no overflow. */
  function ParseU64(s: string): Option<nat> {
    var t := if s != "" && s[0] == '+' then s[1..] else s;
    if t == "" || !AllDigits(t) || DigitsValue(t) > U64_MAX then None else Some(DigitsValue(t))
  }

  /** Rust's `i64::from_str`: an optional sign, then digits, no overflow. */
  function ParseI64(s: string): Option<int> {
    var t := if s != "" && s[0] in {'+', '-'} then s[1..] else s;
    if t == "" || !AllDigits(t) then None
    else
      var v: int := if s[0] == '-' then -(DigitsValue(t) as int) else DigitsValue(t);
      if I64_MIN <= v <= I64_MAX then Some(v) else None
  }

  function OrElse<T>(o: Option<T>, default: T): T {
    match o case None => default case Some(v) => v
  }

  lemma {:induction false} DecValue(n: nat)
    ensures DigitsValue(Dec(n)) == n
  {
    if n < 10 {
      assert DigitsValue(Dec(n)[..0]) == 0;
    } else {
      DecValue(n / 10);
      assert Dec(n)[..|Dec(n)| - 1] == Dec(n / 10);
    }
  }

  /** Every `u64` survives the wire. */
  lemma ParseDec(n: nat)
    ensures ParseU64(Dec(n)) == if n <= U64_MAX then Some(n) else None
  {
    DecValue(n);
  }

  /** Every `i64` survives the wire, negative ones included. */
  lemma ParseDecInt(n: int)
    ensures ParseI64(DecInt(n)) == if I64_MIN <= n <= I64_MAX then Some(n) else None
  {
    hide Dec, DigitsValue;
    if n < 0 {
      ParseSigned(Dec(-n));
      DecValue(-n);
    } else {
      assert IsDigit(Dec(n)[0]);
      DecValue(n);
    }
  }

  /** A plus sign is read over; nothing but digits is read behind it, and no number is empty. */
  lemma PlusIsRead(t: string)
    ensures ParseU64("+" + t) == (if t != "" && t[0] == '+' then None else ParseU64(t))
    ensures ParseU64("") == None && ParseI64("") == None && ParseI64("-") == None
    ensures t != "" && t[0] !in {'+', '-'} ==> ParseI64("+" + t) == ParseI64(t)
    ensures (exists i | 0 < i < |t| :: !IsDigit(t[i])) ==> ParseU64(t) == None && ParseI64(t) == None
  {
    hide DigitsValue;
    assert ("+" + t)[1..] == t;
    if i :| 0 < i < |t| && !IsDigit(t[i]) { assert t[1..][i - 1] == t[i]; }
    assert "-"[1..] == "";
  }

  lemma ParseSigned(t: string)
    requires t != "" && AllDigits(t)
    ensures ParseI64("-" + t) == if I64_MIN <= -(DigitsValue(t) as int) then Some(-(DigitsValue(t) as int)) else None
  {
    assert ("-" + t)[1..] == t;
  }

  /** Decimal text has no space and no line break. */
  lemma DecIsPlain(n: int)
    ensures Avoids(DecInt(n), {' ', '\n', '\r'})
    ensures DecInt(n) != ""
  {
  }
}
