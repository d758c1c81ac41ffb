/** The controller's own form: one object whose methods update it in place under a lock, proved
    against the functions of `Control`. */
module Adaptive {
  import opened Text
  import opened Control

  class AdaptiveState {
    var level: int
    var preferRaw: bool
    var rawSince: int
    var incompressibleRun: int
    var margin: real
    var raise: real
    var streams: int
    var winTc: real
    var winOrig: int
    var winWire: int
    var winStart: Option<real>

    function View(): Ctl
      reads this
    {
      Ctl(level, preferRaw, rawSince, incompressibleRun, margin, raise, streams, winTc, winOrig, winWire, winStart)
    }

    constructor (margin: Option<real>, streams: int)
      ensures View() == New(margin, streams) && Legal(View())
    {
      var m := if margin == None then SPEED_MARGIN
               else if margin.value < 1.0 then 1.0 else if margin.value > 16.0 then 16.0 else margin.value;
      this.level, this.margin, this.raise, this.streams := LEVEL_START, m, m + 0.4, Max(streams, 1);
      preferRaw, rawSince, incompressibleRun := false, 0, 0;
      winTc, winOrig, winWire, winStart := 0.0, 0, 0, None;
    }

    method ResetWindow()
      modifies `winTc, `winOrig, `winWire, `winStart
      ensures View() == Control.ResetWindow(old(View()))
    {
      winTc, winOrig, winWire, winStart := 0.0, 0, 0, None;
    }

    method WantRaw() returns (raw: bool)
      modifies this
      ensures (View(), raw) == Control.WantRaw(old(View()))
      ensures old(Legal(View())) ==> Legal(View())
    {
      if !preferRaw { return false; }
      rawSince := rawSince + 1;
      if rawSince >= RAW_REPROBE {
        preferRaw, rawSince := false, 0;
        ResetWindow();
      }
      return true;
    }

    method ApplySpare(spare: Spare) returns (toRaw: bool)
      modifies `level, `preferRaw, `rawSince
      ensures View() == Control.ApplySpare(old(View()), spare)
      ensures toRaw <==> level <= LEVEL_MIN && !AtLeast(spare, 1.0)
    {
      if AtLeast(spare, raise) && level < LEVEL_MAX {
        var step := if AtLeast(spare, 12.0) then 4 else if AtLeast(spare, 6.0) then 3 else 2;
        level := NonzeroLevel(Min(level + step, LEVEL_MAX));
      } else if !AtLeast(spare, margin) && level > LEVEL_MIN {
        var step := if !AtLeast(spare, 0.5) then 3 else if !AtLeast(spare, 1.0) then 2 else 1;
        level := NonzeroLevel(Max(level - step, LEVEL_MIN));
      }
      if level <= LEVEL_MIN && !AtLeast(spare, 1.0) {
        preferRaw, rawSince := true, 0;
        return true;
      }
      return false;
    }

    method NoteCompressed(tc: real, orig: nat, wire: nat, now: real)
      requires tc >= 0.0
      modifies this
      ensures View() == Control.NoteCompressed(old(View()), tc, orig, wire, now)
      ensures old(Legal(View())) ==> Legal(View())
    {
      hide SpareOf, Control.ApplySpare, Control.ResetWindow, Legal;
      ghost var c := View();
      incompressibleRun := 0;
      if winWire == 0 { winStart := Some(now); }
      winTc, winOrig, winWire := winTc + tc, winOrig + orig, winWire + wire;
      if winWire >= WINDOW_BYTES {
        var spare := SpareOf(View(), tc, now);
        var toRaw := ApplySpare(spare);
        ResetWindow();
      }
      if Legal(c) { CompressedIsLegal(c, tc, orig, wire, now); }
    }

    method NoteIncompressible()
      modifies this
      ensures View() == Control.NoteIncompressible(old(View()))
      ensures old(Legal(View())) ==> Legal(View())
    {
      incompressibleRun := incompressibleRun + 1;
      if incompressibleRun >= INCOMPRESSIBLE_STREAK {
        preferRaw, rawSince, incompressibleRun := true, 0, 0;
        ResetWindow();
      }
    }
  }
}
