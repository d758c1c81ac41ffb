/** The compression-level controller shared by all streams of a transfer. Seconds are reals, the
    clock is a parameter. */
module Control {
  import opened Text

  const LEVEL_START: int := 3
  const LEVEL_MIN: int := -5
  const LEVEL_MAX: int := 19
  const SPEED_MARGIN: real := 1.6
  const RAW_REPROBE: int := 64
  const INCOMPRESSIBLE_STREAK: int := 4
  const WINDOW_BYTES: int := 4194304
  const TINY: real := 0.000000001

  function NonzeroLevel(l: int): int { if l == 0 then -1 else l }

  function Min(a: int, b: int): int { if a < b then a else b }

  function Max(a: int, b: int): int { if a > b then a else b }

  /** How many times faster compression ran than the link. */
  datatype Spare = Ratio(value: real) | Infinite

  predicate AtLeast(s: Spare, x: real) { s.Infinite? || s.value >= x }

  /** The controller's state as a value. */
  datatype Ctl = Ctl(level: int, preferRaw: bool, rawSince: int, run: int, margin: real, raise: real, streams: int,
                     winTc: real, winOrig: int, winWire: int, winStart: Option<real>)

  /** What holds between any two calls. */
  predicate Legal(c: Ctl) {
    -5 <= c.level <= 19 && c.level != 0
    && 0 <= c.rawSince < 64 && (!c.preferRaw ==> c.rawSince == 0)
    && 0 <= c.run < 4
    && 0 <= c.winWire < 4194304 && c.winTc >= 0.0 && (c.winWire > 0 ==> c.winStart.Some?)
    && 1.0 <= c.margin <= 16.0 && c.raise == c.margin + 0.4 && c.streams >= 1
  }

  // ------------------------------------------------------------------ the calls, as functions

  function New(margin: Option<real>, streams: int): Ctl {
    var m := if margin == None then SPEED_MARGIN
             else if margin.value < 1.0 then 1.0 else if margin.value > 16.0 then 16.0 else margin.value;
    Ctl(LEVEL_START, false, 0, 0, m, m + 0.4, Max(streams, 1), 0.0, 0, 0, None)
  }

  function ResetWindow(c: Ctl): Ctl { c.(winTc := 0.0, winOrig := 0, winWire := 0, winStart := None) }

  function WantRaw(c: Ctl): (Ctl, bool) {
    if !c.preferRaw then (c, false)
    else if c.rawSince + 1 >= RAW_REPROBE then (ResetWindow(c.(preferRaw := false, rawSince := 0)), true)
    else (c.(rawSince := c.rawSince + 1), true)
  }

  function NoteIncompressible(c: Ctl): Ctl {
    if c.run + 1 >= INCOMPRESSIBLE_STREAK then ResetWindow(c.(preferRaw := true, rawSince := 0, run := 0))
    else c.(run := c.run + 1)
  }

  function NextLevel(c: Ctl, spare: Spare): int {
    if AtLeast(spare, c.raise) && c.level < LEVEL_MAX then
      var step := if AtLeast(spare, 12.0) then 4 else if AtLeast(spare, 6.0) then 3 else 2;
      NonzeroLevel(Min(c.level + step, LEVEL_MAX))
    else if !AtLeast(spare, c.margin) && c.level > LEVEL_MIN then
      var step := if !AtLeast(spare, 0.5) then 3 else if !AtLeast(spare, 1.0) then 2 else 1;
      NonzeroLevel(Max(c.level - step, LEVEL_MIN))
    else c.level
  }

  function ApplySpare(c: Ctl, spare: Spare): Ctl {
    var l := NextLevel(c, spare);
    if l <= LEVEL_MIN && !AtLeast(spare, 1.0) then c.(level := l, preferRaw := true, rawSince := 0)
    else c.(level := l)
  }

  function SpareOf(c: Ctl, tc: real, now: real): Spare {
    var elapsed := if c.winStart == None then tc else now - c.winStart.value;
    var e := if elapsed < TINY then TINY else elapsed;
    if c.winTc > TINY then Ratio(c.streams as real * e / c.winTc) else Infinite
  }

  /** The window with one more compressed block in it. */
  function Widened(c: Ctl, tc: real, orig: nat, wire: nat, now: real): Ctl {
    c.(run := 0, winStart := if c.winWire == 0 then Some(now) else c.winStart,
       winTc := c.winTc + tc, winOrig := c.winOrig + orig, winWire := c.winWire + wire)
  }

  function NoteCompressed(c: Ctl, tc: real, orig: nat, wire: nat, now: real): Ctl {
    var c1 := Widened(c, tc, orig, wire, now);
    if c1.winWire < WINDOW_BYTES then c1 else ResetWindow(ApplySpare(c1, SpareOf(c1, tc, now)))
  }

  // ------------------------------------------------------------------ safety over all runs

  lemma CompressedIsLegal(c: Ctl, tc: real, orig: nat, wire: nat, now: real)
    requires Legal(c) && tc >= 0.0
    ensures Legal(NoteCompressed(c, tc, orig, wire, now))
  {
  }

  /** One call by any stream; the lock makes any interleaving a sequence of calls. */
  datatype Call = Want | Compressed(tc: real, orig: nat, wire: nat, now: real) | Incompressible

  predicate CallOk(k: Call) { k.Compressed? ==> k.tc >= 0.0 }

  function Do(c: Ctl, k: Call): Ctl {
    match k
    case Want => WantRaw(c).0
    case Compressed(tc, orig, wire, now) => NoteCompressed(c, tc, orig, wire, now)
    case Incompressible => NoteIncompressible(c)
  }

  function RunCalls(c: Ctl, ks: seq<Call>): Ctl
    decreases |ks|
  {
    if ks == [] then c else RunCalls(Do(c, ks[0]), ks[1..])
  }

  /** Under any interleaving of calls the level stays in [-5, 19] and off 0, and every counter and
      the window stay within bounds. */
  lemma {:induction false} AnyInterleavingIsLegal(margin: Option<real>, streams: int, ks: seq<Call>)
    requires forall i | 0 <= i < |ks| :: CallOk(ks[i])
    ensures Legal(RunCalls(New(margin, streams), ks))
  {
    RunIsLegal(New(margin, streams), ks);
  }

  function Distance(a: real, b: real): real { if a < b then b - a else a - b }

  /** A controller starts at level 3, not raw, with the margin in range that is nearest to the one asked for. */
  lemma StartsNear(margin: Option<real>, streams: int, x: real)
    ensures var c := New(margin, streams);
            c.level == 3 && !c.preferRaw && c.streams == (if streams < 1 then 1 else streams)
            && c.winWire == 0 && c.winTc == 0.0
            && match margin
               case None => c.margin == 1.6
               case Some(m) =>
                 1.0 <= c.margin <= 16.0
                 && (1.0 <= x <= 16.0 ==> Distance(m, c.margin) <= Distance(m, x))
  {
  }

  lemma CallIsLegal(c: Ctl, k: Call)
    requires Legal(c) && CallOk(k)
    ensures Legal(Do(c, k))
  {
  }

  lemma {:induction false} RunIsLegal(c: Ctl, ks: seq<Call>)
    requires Legal(c) && forall i | 0 <= i < |ks| :: CallOk(ks[i])
    ensures Legal(RunCalls(c, ks))
    decreases |ks|
  {
    hide Legal, Do;
    if ks != [] {
      CallIsLegal(c, ks[0]);
      RunIsLegal(Do(c, ks[0]), ks[1..]);
    }
  }

  // ------------------------------------------------------------------ wasted attempts

  /** One block of a single stream that does not shrink: sent raw, or tried first. */
  function Block(c: Ctl): (Ctl, bool) {
    var (c1, raw) := WantRaw(c);
    if raw then (c1, false) else (NoteIncompressible(c1), true)
  }

  lemma BlockByCalls(c: Ctl)
    ensures Block(c) == var (c1, raw) := WantRaw(c); if raw then (c1, false) else (NoteIncompressible(c1), true)
  {
  }

  /** Compression attempts over `k` such blocks. */
  function Attempts(c: Ctl, k: nat): nat
    decreases k
  {
    if k == 0 then 0
    else var (c1, tried) := Block(c); (if tried then 1 else 0) + Attempts(c1, k - 1)
  }

  /** Four attempts in every cycle of 68 blocks. */
  function Quota(k: nat): nat { 4 * (k / 68) + Min(4, k % 68) }

  /** Where a controller is in its cycle. */
  function Phase(c: Ctl): nat
    requires Legal(c)
  {
    if c.preferRaw then 4 + c.rawSince else c.run
  }

  lemma QuotaStep(k: nat)
    ensures Quota(k + 1) == Quota(k) + if k % 68 < 4 then 1 else 0
  {
  }

  lemma QuotaSubadditive(a: nat, b: nat)
    ensures Quota(a + b) <= Quota(a) + Quota(b)
  {
    var q, r := a / 68 + b / 68, a % 68 + b % 68;
    assert a + b == 68 * q + r;
    if r < 68 {
      assert (a + b) / 68 == q && (a + b) % 68 == r;
    } else {
      assert (a + b) / 68 == q + 1 && (a + b) % 68 == r - 68;
    }
  }

  /** A cycle later the quota has grown by four. */
  lemma QuotaCycle(k: nat)
    ensures Quota(68 + k) == 4 + Quota(k)
  {
    assert (68 + k) / 68 == 1 + k / 68 && (68 + k) % 68 == k % 68;
  }

  /** One block moves the phase on by one; the last raw block of a cycle drops back to the streak
      that was left. */
  lemma BlockPhase(c: Ctl)
    requires Legal(c)
    ensures var (c1, tried) := Block(c);
            Legal(c1) && (tried <==> Phase(c) < 4) && Phase(c) < 68
            && (if Phase(c) == 67 then !c1.preferRaw && Phase(c1) == c.run && c1.run == c.run
                else Phase(c1) == Phase(c) + 1)
            && (c1.preferRaw && c.preferRaw ==> c1.run == c.run) && (c1.preferRaw && !c.preferRaw ==> c1.run == 0)
  {
  }

  lemma {:induction false} AttemptsFromPhase(c: Ctl, k: nat)
    requires Legal(c)
    ensures Attempts(c, k) <= Quota(Phase(c) + k) - Quota(Phase(c))
    decreases k
  {
    hide Block, Quota, Phase, Legal;
    if k > 0 {
      var p := Phase(c);
      var (c1, tried) := Block(c);
      BlockPhase(c);
      AttemptsFromPhase(c1, k - 1);
      QuotaValues();
      QuotaStep(p);
      if p == 67 {
        QuotaSubadditive(Phase(c1), k - 1);
        QuotaCycle(k - 1);
      }
    }
  }

  lemma QuotaValues()
    ensures Quota(67) == 4 && Quota(0) == 0
    ensures forall p: nat | p < 68 :: p % 68 == p
  {
  }

  /** The waste bound: from any legal state, over any k consecutive blocks that do not shrink, the
      controller tries to compress at most 4 * (k / 68) + min(4, k % 68) of them ... */
  lemma WasteBound(c: Ctl, k: nat)
    requires Legal(c)
    ensures Attempts(c, k) <= Quota(k)
  {
    AttemptsFromPhase(c, k);
    QuotaSubadditive(Phase(c), k);
  }

  /** ... and a controller with no streak behind it tries exactly its share of every cycle. */
  lemma {:induction false} WasteIsReached(c: Ctl, k: nat)
    requires Legal(c) && (c.preferRaw ==> c.run == 0)
    ensures Attempts(c, k) == Quota(Phase(c) + k) - Quota(Phase(c))
    decreases k
  {
    hide Block, Quota, Legal;
    if k > 0 {
      var (c1, tried) := Block(c);
      BlockPhase(c);
      WasteIsReached(c1, k - 1);
      QuotaValues();
      QuotaStep(Phase(c));
      if Phase(c) == 67 {
        QuotaCycle(k - 1);
      }
    }
  }

  // ------------------------------------------------------------------ where the level goes

  function Windows(c: Ctl, ss: seq<Spare>): Ctl
    decreases |ss|
  {
    if ss == [] then c else Windows(ApplySpare(c, ss[0]), ss[1..])
  }

  /** Windows left to the ceiling at the smallest step, the hop over 0 included. */
  function Climb(l: int): int { if l > 0 then (20 - l) / 2 else 10 + (-l) / 2 }

  /** Windows left to the floor at the smallest step. */
  function Descent(l: int): int { if l > 0 then l + 4 else l + 5 }

  lemma ClimbStep(c: Ctl, s: Spare)
    requires Legal(c) && AtLeast(s, c.raise)
    ensures var d := ApplySpare(c, s);
            Legal(d) && d.margin == c.margin && d.raise == c.raise
            && (if c.level == LEVEL_MAX then d.level == LEVEL_MAX
                else c.level < d.level && Climb(d.level) <= Climb(c.level) - 1)
  {
  }

  lemma {:induction false} Climbs(c: Ctl, ss: seq<Spare>)
    requires Legal(c) && forall i | 0 <= i < |ss| :: AtLeast(ss[i], c.raise)
    ensures |ss| >= Climb(c.level) ==> Windows(c, ss).level == LEVEL_MAX
    decreases |ss|
  {
    if ss != [] {
      ClimbStep(c, ss[0]);
      Climbs(ApplySpare(c, ss[0]), ss[1..]);
    }
  }

  lemma DescentStep(c: Ctl, s: Spare)
    requires Legal(c) && !AtLeast(s, c.margin)
    ensures var d := ApplySpare(c, s);
            Legal(d) && d.margin == c.margin && d.raise == c.raise
            && (if c.level == LEVEL_MIN then d.level == LEVEL_MIN
                else d.level < c.level && Descent(d.level) <= Descent(c.level) - 1)
  {
  }

  lemma {:induction false} Descends(c: Ctl, ss: seq<Spare>)
    requires Legal(c) && forall i | 0 <= i < |ss| :: !AtLeast(ss[i], c.margin)
    ensures |ss| >= Descent(c.level) ==> Windows(c, ss).level == LEVEL_MIN
    decreases |ss|
  {
    if ss != [] {
      DescentStep(c, ss[0]);
      Descends(ApplySpare(c, ss[0]), ss[1..]);
    }
  }

  lemma {:induction false} Stays(c: Ctl, ss: seq<Spare>)
    requires Legal(c) && forall i | 0 <= i < |ss| :: AtLeast(ss[i], c.margin) && !AtLeast(ss[i], c.raise)
    ensures Windows(c, ss) == c
    decreases |ss|
  {
    if ss != [] {
      assert ApplySpare(c, ss[0]) == c;
      Stays(c, ss[1..]);
    }
  }

  // ------------------------------------------------------------------ what a closed window measures

  /** What a call measures: a block that fills the window closes it with a spare. */
  function Measured(c: Ctl, k: Call): Option<Spare> {
    if k.Compressed? && c.winWire + k.wire >= WINDOW_BYTES
    then Some(SpareOf(Widened(c, k.tc, k.orig, k.wire, k.now), k.tc, k.now)) else None
  }

  predicate SameLevel(c: Ctl, d: Ctl) { c.level == d.level && c.margin == d.margin && c.raise == d.raise }

  /** A closed window: the seconds since its first block, and the seconds of compression in it. */
  datatype Timing = Timing(elapsed: real, busy: real)

  /** The window a call closes, if it does. The clock starts with the first block of the window. */
  function Timed(c: Ctl, k: Call): Option<Timing> {
    match k
    case Compressed(tc, _, wire, now) =>
      if c.winWire + wire < 4194304 then None
      else
        var elapsed := if c.winWire == 0 || c.winStart == None then 0.0 else now - c.winStart.value;
        Some(Timing(if elapsed < 0.000000001 then 0.000000001 else elapsed, c.winTc + tc))
    case _ => None
  }

  /** Did n streams compress at least x times as fast as the link took their output? Immeasurably short
      compression counts as any speed. */
  predicate Faster(t: Timing, n: int, x: real) { t.busy <= 0.000000001 || n as real * t.elapsed >= x * t.busy }

  lemma TimesOrOver(a: real, b: real, x: real)
    requires b > 0.0
    ensures a / b >= x <==> a >= x * b
  {
    if a / b >= x {
      assert (a / b) * b >= x * b;
    } else {
      assert (a / b) * b < x * b;
    }
    assert (a / b) * b == a;
  }

  /** The spare a call measures and the window it closes say the same. */
  lemma MeasuresTiming(c: Ctl, k: Call, x: real)
    requires Legal(c)
    ensures Measured(c, k).Some? <==> Timed(c, k).Some?
    ensures Timed(c, k).Some? ==> (AtLeast(Measured(c, k).value, x) <==> Faster(Timed(c, k).value, c.streams, x))
  {
    if Timed(c, k).Some? {
      var t := Timed(c, k).value;
      if t.busy > 0.000000001 { TimesOrOver(c.streams as real * t.elapsed, t.busy, x); }
    }
  }

  /** The step a window allows: 4 levels up where compression was twelve times as fast as the link, 3 from six
      times on, else 2; 3 levels down where it was not half as fast, 2 where it was slower, else 1. */
  function Up(t: Timing, n: int): int { if Faster(t, n, 12.0) then 4 else if Faster(t, n, 6.0) then 3 else 2 }

  function Down(t: Timing, n: int): int { if !Faster(t, n, 0.5) then 3 else if !Faster(t, n, 1.0) then 2 else 1 }

  /** The nearest level in range that zstd does not take for its default. */
  function Clamp(l: int): int { if l > 19 then 19 else if l < -5 then -5 else if l == 0 then -1 else l }

  /** How a call moves the level, by what was measured: up exactly when the streams compressed at least `raise`
      times as fast as the link, down exactly when not even `margin` times, and else not at all. */
  lemma CallMovesLevel(c: Ctl, k: Call)
    requires Legal(c) && CallOk(k)
    ensures var d := Do(c, k);
            match Timed(c, k)
            case None => d.level == c.level
            case Some(t) =>
              (d.level > c.level <==> Faster(t, c.streams, c.raise) && c.level < 19)
              && (d.level < c.level <==> !Faster(t, c.streams, c.margin) && c.level > -5)
              && (d.level > c.level ==> d.level == Clamp(c.level + Up(t, c.streams)))
              && (d.level < c.level ==> d.level == Clamp(c.level - Down(t, c.streams)))
  {
    hide Faster, SpareOf;
    MeasuresTiming(c, k, c.raise);
    MeasuresTiming(c, k, c.margin);
    MeasuresTiming(c, k, 12.0);
    MeasuresTiming(c, k, 6.0);
    MeasuresTiming(c, k, 1.0);
    MeasuresTiming(c, k, 0.5);
  }

  /** A stretch of compressed blocks. */
  datatype Sample = Sample(tc: real, orig: nat, wire: nat, now: real)

  function Calls(bs: seq<Sample>): seq<Call> {
    if bs == [] then [] else Calls(bs[..|bs| - 1]) + [var b := bs[|bs| - 1]; Compressed(b.tc, b.orig, b.wire, b.now)]
  }

  function SumTc(bs: seq<Sample>): real { if bs == [] then 0.0 else SumTc(bs[..|bs| - 1]) + bs[|bs| - 1].tc }

  function SumWire(bs: seq<Sample>): nat { if bs == [] then 0 else SumWire(bs[..|bs| - 1]) + bs[|bs| - 1].wire }

  lemma {:induction false} RunSnoc(c: Ctl, ks: seq<Call>, k: Call)
    ensures RunCalls(c, ks + [k]) == Do(RunCalls(c, ks), k)
    decreases |ks|
  {
    hide Do;
    if ks == [] {
      assert [k][1..] == [];
    } else {
      assert (ks + [k])[1..] == ks[1..] + [k];
      RunSnoc(Do(c, ks[0]), ks[1..], k);
    }
  }

  /** An open window holds the sums over its blocks and the time of the first one. */
  lemma {:induction false} OpenWindow(c: Ctl, bs: seq<Sample>)
    requires c.winWire == 0 && c.winTc == 0.0 && SumWire(bs) < 4194304
    requires forall i | 0 <= i < |bs| :: bs[i].wire > 0
    ensures var d := RunCalls(c, Calls(bs));
            SameLevel(c, d) && d.streams == c.streams && d.winTc == SumTc(bs) && d.winWire == SumWire(bs)
            && (bs != [] ==> d.winWire > 0 && d.winStart == Some(bs[0].now))
    decreases |bs|
  {
    if bs != [] {
      var n := |bs| - 1;
      var b := bs[n];
      OpenWindow(c, bs[..n]);
      RunSnoc(c, Calls(bs[..n]), Compressed(b.tc, b.orig, b.wire, b.now));
      if n > 0 { assert bs[..n][0] == bs[0]; }
    }
  }

  /** A whole window, on its own numbers: blocks that together fill 4 MiB of wire, the last one closing it. What
      counts is the time between the first and the last block against the sum of the compression times. */
  lemma WholeWindow(c: Ctl, bs: seq<Sample>)
    requires Legal(c) && c.winWire == 0 && c.winTc == 0.0 && bs != []
    requires forall i | 0 <= i < |bs| :: bs[i].wire > 0 && bs[i].tc >= 0.0
    requires SumWire(bs[..|bs| - 1]) < 4194304 <= SumWire(bs)
    ensures var d := RunCalls(c, Calls(bs));
            var span := bs[|bs| - 1].now - bs[0].now;
            var t := Timing(if span < 0.000000001 then 0.000000001 else span, SumTc(bs));
            (d.level > c.level <==> Faster(t, c.streams, c.raise) && c.level < 19)
            && (d.level < c.level <==> !Faster(t, c.streams, c.margin) && c.level > -5)
            && d.winWire == 0 && d.winTc == 0.0
  {
    hide Faster, Legal, Do, CallOk, Timed, RunCalls, Calls;
    var n := |bs| - 1;
    var b := bs[n];
    var k := Compressed(b.tc, b.orig, b.wire, b.now);
    var before := RunCalls(c, Calls(bs[..n]));
    OpenWindow(c, bs[..n]);
    CallsSnoc(bs);
    RunSnoc(c, Calls(bs[..n]), k);
    SamplesOk(bs);
    SamplesOk(bs[..n]);
    RunIsLegal(c, Calls(bs[..n]));
    if n > 0 { assert bs[..n][0] == bs[0]; }
    Closing(before, b);
    CallMovesLevel(before, k);
  }

  lemma CallsSnoc(bs: seq<Sample>)
    requires bs != []
    ensures var b := bs[|bs| - 1];
            Calls(bs) == Calls(bs[..|bs| - 1]) + [Compressed(b.tc, b.orig, b.wire, b.now)]
            && (b.tc >= 0.0 ==> CallOk(Compressed(b.tc, b.orig, b.wire, b.now)))
  {
  }

  /** The block that fills the window. */
  lemma Closing(c: Ctl, b: Sample)
    requires c.winWire + b.wire >= 4194304 && (c.winWire != 0 ==> c.winStart.Some?)
    ensures var k := Compressed(b.tc, b.orig, b.wire, b.now);
            var span := if c.winWire == 0 then 0.0 else b.now - c.winStart.value;
            Timed(c, k) == Some(Timing(if span < 0.000000001 then 0.000000001 else span, c.winTc + b.tc))
            && Do(c, k).winWire == 0 && Do(c, k).winTc == 0.0
  {
  }

  lemma {:induction false} SamplesOk(bs: seq<Sample>)
    requires forall i | 0 <= i < |bs| :: bs[i].tc >= 0.0
    ensures forall i | 0 <= i < |Calls(bs)| :: CallOk(Calls(bs)[i])
  {
    if bs != [] { SamplesOk(bs[..|bs| - 1]); }
  }

  // ------------------------------------------------------------------ ... over runs of calls

  /** The spares of all windows closed in a run. */
  function Spares(c: Ctl, ks: seq<Call>): seq<Spare>
    decreases |ks|
  {
    if ks == [] then []
    else
      var later := Spares(Do(c, ks[0]), ks[1..]);
      match Measured(c, ks[0]) case None => later case Some(s) => [s] + later
  }

  lemma CallMoves(c: Ctl, d: Ctl, k: Call)
    requires SameLevel(c, d)
    ensures SameLevel(Do(c, k), match Measured(c, k) case None => d case Some(s) => ApplySpare(d, s))
  {
  }

  /** Nothing but the closed windows moves the level, however the calls of the streams interleave. */
  lemma {:induction false} OnlyWindowsMove(c: Ctl, d: Ctl, ks: seq<Call>)
    requires SameLevel(c, d)
    ensures SameLevel(RunCalls(c, ks), Windows(d, Spares(c, ks)))
    decreases |ks|
  {
    hide Do, Measured, ApplySpare;
    if ks != [] {
      CallMoves(c, d, ks[0]);
      OnlyWindowsMove(Do(c, ks[0]), match Measured(c, ks[0]) case None => d case Some(s) => ApplySpare(d, s), ks[1..]);
    }
  }

  /** The windows closed in a run. */
  function Timings(c: Ctl, ks: seq<Call>): seq<Timing>
    decreases |ks|
  {
    if ks == [] then []
    else
      var later := Timings(Do(c, ks[0]), ks[1..]);
      match Timed(c, ks[0]) case None => later case Some(t) => [t] + later
  }

  lemma KeepsStreams(c: Ctl, k: Call)
    ensures Do(c, k).streams == c.streams
  {
  }

  lemma {:induction false} SparesAreTimings(c: Ctl, ks: seq<Call>, x: real)
    requires Legal(c) && forall i | 0 <= i < |ks| :: CallOk(ks[i])
    ensures |Spares(c, ks)| == |Timings(c, ks)|
    ensures forall i | 0 <= i < |Spares(c, ks)| ::
              AtLeast(Spares(c, ks)[i], x) <==> Faster(Timings(c, ks)[i], c.streams, x)
    decreases |ks|
  {
    hide Legal, Do, CallOk, Measured, Timed, AtLeast, Faster;
    if ks != [] {
      CallIsLegal(c, ks[0]);
      KeepsStreams(c, ks[0]);
      MeasuresTiming(c, ks[0], x);
      SparesAreTimings(Do(c, ks[0]), ks[1..], x);
    }
  }

  /** A link slow enough in every window closed: twelve windows take the level to 19 from anywhere. */
  lemma ReachesCeiling(c: Ctl, ks: seq<Call>)
    requires Legal(c) && forall i | 0 <= i < |ks| :: CallOk(ks[i])
    requires |Timings(c, ks)| >= 12
    requires forall i | 0 <= i < |Timings(c, ks)| :: Faster(Timings(c, ks)[i], c.streams, c.raise)
    ensures RunCalls(c, ks).level == 19
  {
    SparesAreTimings(c, ks, c.raise);
    OnlyWindowsMove(c, c, ks);
    Climbs(c, Spares(c, ks));
  }

  /** A link too fast in every window closed: 23 windows take the level to -5 from anywhere. */
  lemma ReachesFloor(c: Ctl, ks: seq<Call>)
    requires Legal(c) && forall i | 0 <= i < |ks| :: CallOk(ks[i])
    requires |Timings(c, ks)| >= 23
    requires forall i | 0 <= i < |Timings(c, ks)| :: !Faster(Timings(c, ks)[i], c.streams, c.margin)
    ensures RunCalls(c, ks).level == -5
  {
    SparesAreTimings(c, ks, c.margin);
    OnlyWindowsMove(c, c, ks);
    Descends(c, Spares(c, ks));
  }

  /** Between the two thresholds the level holds, whatever it is, for any number of windows. */
  lemma Holds(c: Ctl, ks: seq<Call>)
    requires Legal(c) && forall i | 0 <= i < |ks| :: CallOk(ks[i])
    requires forall i | 0 <= i < |Timings(c, ks)| ::
               Faster(Timings(c, ks)[i], c.streams, c.margin) && !Faster(Timings(c, ks)[i], c.streams, c.raise)
    ensures RunCalls(c, ks).level == c.level
  {
    SparesAreTimings(c, ks, c.margin);
    SparesAreTimings(c, ks, c.raise);
    OnlyWindowsMove(c, c, ks);
    Stays(c, Spares(c, ks));
  }

  /** When a controller changes to raw or back, it starts a new window, and a streak is one of calls in a row. */
  lemma TurningStartsAfresh(c: Ctl, k: Call)
    requires Legal(c) && CallOk(k)
    ensures var d := Do(c, k);
            (d.preferRaw != c.preferRaw ==> d.winWire == 0 && d.winTc == 0.0 && d.winStart == None && d.rawSince == 0)
            && (d.preferRaw && !c.preferRaw && d.level > -5 ==> k == Incompressible && c.run == 3)
            && (k.Compressed? ==> d.run == 0) && (k.Want? ==> d.run == c.run)
            && (k == Incompressible ==> d.run == if c.run == 3 then 0 else c.run + 1)
  {
  }

  /** At the floor a call turns to raw exactly when it closes a window that loses even there, or fills a
      streak of four blocks that did not shrink. */
  lemma TurnsRaw(c: Ctl, k: Call)
    requires Legal(c) && c.level == -5 && !c.preferRaw
    ensures Do(c, k).preferRaw <==>
              match k
              case Want => false
              case Incompressible => c.run == 3
              case Compressed(_, _, _, _) => Timed(c, k).Some? && !Faster(Timed(c, k).value, c.streams, 1.0)
  {
    MeasuresTiming(c, k, 1.0);
  }
}
