/** The 32-bit shift register of unstable loss reports that decides when media leaves
    UDP for TCP (pkg/rtc/transportmanager.go). */
module LossRegister {

  import opened Numbers

  type uint8 = x: int | 0 <= x < 256

  const UDP_LOSS_FRAC_UNSTABLE := 25
  const UDP_LOSS_UNSTABLE_COUNT_THRESHOLD := 20

  predicate Unstable(loss: uint8) {
    loss >= 255 * UDP_LOSS_FRAC_UNSTABLE / 100
  }

  /** A report is unstable from a loss of 63 in 255 on, just under a quarter. */
  lemma UnstableFrom63(loss: uint8)
    ensures Unstable(loss) <==> loss >= 63
  {
  }

  /** Bit i of n. */
  function Bit(n: nat, i: nat): bool {
    if i == 0 then n % 2 == 1 else Bit(n / 2, i - 1)
  }

  function OnesCount32(n: uint32): nat {
    if n == 0 then 0 else n % 2 + OnesCount32(n / 2)
  }

  /** One report: the register after it, and whether it makes media switch to TCP.
      `healthy` says that the signalling round trip is short and recent enough. */
  function Shift(register: uint32, loss: uint8, healthy: bool): (uint32, bool) {
    var shifted := (2 * register) % 0x1_0000_0000 + (if Unstable(loss) then 1 else 0);
    if Unstable(loss) && OnesCount32(shifted) >= UDP_LOSS_UNSTABLE_COUNT_THRESHOLD && healthy then (0, true)
    else (shifted, false)
  }

  class TransportManager {
    const enabled: bool  // a TCP fallback threshold is set, and fallback is allowed
    var failureCount: nat
    var isTransportReconfigured: bool
    var udpLossUnstableCount: uint32

    constructor (enabled: bool)
      ensures this.enabled == enabled && udpLossUnstableCount == 0
    {
      this.enabled := enabled;
      failureCount, isTransportReconfigured, udpLossUnstableCount := 0, false, 0;
    }

    method ResetTransportConfigureLocked(reconfigured: bool)
      modifies this
      ensures failureCount == 0 && isTransportReconfigured == reconfigured && udpLossUnstableCount == 0
    {
      failureCount := 0;
      isTransportReconfigured := reconfigured;
      udpLossUnstableCount := 0;
    }

    method OnMediaLossUpdate(loss: uint8, healthy: bool) returns (switched: bool)
      modifies this`udpLossUnstableCount
      ensures (udpLossUnstableCount, switched)
           == if enabled then Shift(old(udpLossUnstableCount), loss, healthy) else (old(udpLossUnstableCount), false)
    {
      if !enabled {
        return false;
      }
      udpLossUnstableCount := (udpLossUnstableCount * 2) % 0x1_0000_0000;
      if loss >= 63 {
        udpLossUnstableCount := udpLossUnstableCount + 1;
        if OnesCount32(udpLossUnstableCount) >= UDP_LOSS_UNSTABLE_COUNT_THRESHOLD {
          if healthy {
            udpLossUnstableCount := 0;
            return true;
          }
        }
      }
      switched := false;
    }
  }

  // ---- the register is a sliding window ----

  datatype Event = Report(loss: uint8, healthy: bool) | Reset

  function Next(register: uint32, e: Event): (uint32, bool) {
    match e
    case Report(loss, healthy) => Shift(register, loss, healthy)
    case Reset => (0, false)
  }

  /** The register after a run, and whether its last event made media switch. */
  function Run(es: seq<Event>): (uint32, bool)
    decreases |es|
  {
    if es == [] then (0, false) else Next(Run(es[..|es|-1]).0, es[|es|-1])
  }

  function Last32(bs: seq<bool>): (r: seq<bool>)
    ensures |r| <= 32
  {
    if |bs| <= 32 then bs else bs[|bs|-32..]
  }

  function Count(bs: seq<bool>): nat
    decreases |bs|
  {
    if bs == [] then 0 else Count(bs[..|bs|-1]) + if bs[|bs|-1] then 1 else 0
  }

  /** The switch, without the register: the newest report of the window is unstable
      and so are at least 20 of its last 32. */
  predicate Switches(before: seq<bool>, e: Event) {
    && e.Report? && e.healthy && Unstable(e.loss)
    && Count(Last32(before + [true])) >= UDP_LOSS_UNSTABLE_COUNT_THRESHOLD
  }

  /** For each report since the last reset or switch, oldest first, whether it was unstable. */
  function Since(es: seq<Event>): (r: seq<bool>)
    ensures |r| <= |es|
    decreases |es|
  {
    if es == [] then []
    else
      var before, e := Since(es[..|es|-1]), es[|es|-1];
      if e.Reset? || Switches(before, e) then [] else before + [Unstable(e.loss)]
  }

  /** A window read as a binary number, the newest report in the lowest bit. */
  function Value(bs: seq<bool>): nat
    decreases |bs|
  {
    if bs == [] then 0 else 2 * Value(bs[..|bs|-1]) + if bs[|bs|-1] then 1 else 0
  }

  function Pow2(n: nat): nat {
    if n == 0 then 1 else 2 * Pow2(n - 1)
  }

  lemma Pow2At32()
    ensures Pow2(32) == 0x1_0000_0000
  {
    assert Pow2(8) == 256;
    assert Pow2(16) == 256 * Pow2(8);
    assert Pow2(24) == 256 * Pow2(16);
  }

  lemma {:induction false} ValueDropsOldest(bs: seq<bool>)
    requires bs != []
    ensures Value(bs) == Value(bs[1..]) + (if bs[0] then Pow2(|bs| - 1) else 0)
    decreases |bs|
  {
    var n := |bs| - 1;
    if n > 0 {
      ValueDropsOldest(bs[..n]);
      assert bs[1..][..n-1] == bs[..n][1..];
    }
  }

  lemma {:induction false} ValueFits(bs: seq<bool>)
    ensures Value(bs) < Pow2(|bs|)
    decreases |bs|
  {
    if bs != [] {
      ValueFits(bs[..|bs|-1]);
    }
  }

  lemma {:induction false} Pow2Grows(m: nat, n: nat)
    requires m <= n
    ensures Pow2(m) <= Pow2(n)
    decreases n
  {
    if m < n {
      Pow2Grows(m, n - 1);
    }
  }

  lemma FullWindowSlides(bs: seq<bool>, b: bool)
    requires |Last32(bs)| == 32
    ensures 2 * Value(Last32(bs)) - (if Last32(bs)[0] then 0x1_0000_0000 else 0) + (if b then 1 else 0) == Value(Last32(bs + [b]))
    ensures Value(Last32(bs)[1..]) < Pow2(31)
  {
    var w := Last32(bs);
    var kept := w[1..];
    Pow2At32();
    ValueDropsOldest(w);
    ValueFits(kept);
    assert Last32(bs + [b]) == kept + [b];
    assert (kept + [b])[..31] == kept;
    assert Pow2(32) == 2 * Pow2(31);
  }

  /** Shifting a report into the register slides the window. */
  lemma ShiftSlides(bs: seq<bool>, b: bool)
    ensures Value(Last32(bs)) < 0x1_0000_0000
    ensures (2 * Value(Last32(bs))) % 0x1_0000_0000 + (if b then 1 else 0) == Value(Last32(bs + [b]))
  {
    var w := Last32(bs);
    Pow2At32();
    ValueFits(w);
    Pow2Grows(|w|, 32);
    if |w| == 32 {
      ValueDropsOldest(w);
      FullWindowSlides(bs, b);
      assert Pow2(32) == 2 * Pow2(31);
    } else {
      Pow2Grows(|w|, 31);
      assert Pow2(32) == 2 * Pow2(31);
      assert Last32(bs + [b]) == w + [b];
      assert (w + [b])[..|w|] == w;
    }
  }

  lemma {:induction false} ValueBit(bs: seq<bool>, i: nat)
    ensures Bit(Value(bs), i) <==> i < |bs| && bs[|bs| - 1 - i]
    decreases i
  {
    if i > 0 {
      var init := if bs == [] then [] else bs[..|bs|-1];
      ValueBit(init, i - 1);
      assert Value(bs) / 2 == Value(init);
      assert Bit(Value(bs), i) == Bit(Value(init), i - 1);
    }
  }

  lemma {:induction false} ValueOnes(bs: seq<bool>)
    requires Value(bs) < 0x1_0000_0000
    ensures OnesCount32(Value(bs)) == Count(bs)
    decreases |bs|
  {
    if bs != [] {
      ValueOnes(bs[..|bs|-1]);
      assert Value(bs) / 2 == Value(bs[..|bs|-1]);
    }
  }

  /** One report, on a register that is a window. */
  lemma ShiftIsWindow(before: seq<bool>, loss: uint8, healthy: bool)
    requires Value(Last32(before)) < 0x1_0000_0000
    ensures Shift(Value(Last32(before)), loss, healthy)
         == if Switches(before, Report(loss, healthy)) then (0, true) else (Value(Last32(before + [Unstable(loss)])), false)
  {
    var after := before + [Unstable(loss)];
    ShiftSlides(before, Unstable(loss));
    ShiftSlides(after, false);
    ValueOnes(Last32(after));
  }

  lemma NextIsWindow(register: uint32, before: seq<bool>, e: Event)
    requires register == Value(Last32(before))
    ensures Next(register, e).1 <==> Switches(before, e)
    ensures Next(register, e).0
         == Value(Last32(if e.Reset? || Switches(before, e) then [] else before + [Unstable(e.loss)]))
  {
    if e.Report? {
      ShiftIsWindow(before, e.loss, e.healthy);
    }
  }

  /** In every run the register is the window of the last 32 reports, and it makes
      media switch exactly when the window says so. */
  lemma {:induction false} RegisterIsWindow(es: seq<Event>)
    ensures Run(es).0 == Value(Last32(Since(es)))
    ensures Run(es).1 <==> es != [] && Switches(Since(es[..|es|-1]), es[|es|-1])
    decreases |es|
  {
    if es != [] {
      var init, e := es[..|es|-1], es[|es|-1];
      RegisterIsWindow(init);
      NextIsWindow(Run(init).0, Since(init), e);
      assert Run(es) == Next(Run(init).0, e);
      assert Since(es) == if e.Reset? || Switches(Since(init), e) then [] else Since(init) + [Unstable(e.loss)];
    }
  }

  lemma Last32At(bs: seq<bool>, i: nat)
    requires i < 32
    ensures i < |Last32(bs)| <==> i < |bs|
    ensures i < |bs| ==> Last32(bs)[|Last32(bs)| - 1 - i] == bs[|bs| - 1 - i]
  {
  }

  /** Bit i says whether the i-th most recent report was unstable. */
  lemma BitsAreReports(es: seq<Event>, i: nat)
    requires i < 32
    ensures Bit(Run(es).0, i) <==> i < |Since(es)| && Since(es)[|Since(es)| - 1 - i]
  {
    RegisterIsWindow(es);
    Last32At(Since(es), i);
    ValueBit(Last32(Since(es)), i);
  }

  /** The ones of the register are the unstable reports among the last 32. */
  lemma OnesAreUnstable(es: seq<Event>)
    ensures OnesCount32(Run(es).0) == Count(Last32(Since(es)))
  {
    RegisterIsWindow(es);
    ValueOnes(Last32(Since(es)));
  }

  lemma {:induction false} CountBounded(bs: seq<bool>)
    ensures Count(bs) <= |bs|
    decreases |bs|
  {
    if bs != [] {
      CountBounded(bs[..|bs|-1]);
    }
  }

  lemma {:induction false} SinceSwitch(es: seq<Event>, i: nat)
    requires i < |es| && Run(es[..i+1]).1
    ensures |Since(es)| <= |es| - 1 - i
    decreases |es|
  {
    if i == |es| - 1 {
      assert es[..i+1] == es;
      RegisterIsWindow(es);
    } else {
      var init := es[..|es|-1];
      assert init[..i+1] == es[..i+1];
      SinceSwitch(init, i);
    }
  }

  /** A switch needs 20 reports since the previous one. */
  lemma SwitchesAreApart(es: seq<Event>, i: nat)
    requires i < |es| - 1
    ensures Run(es).1 && Run(es[..i+1]).1 ==> |es| - 1 - i >= UDP_LOSS_UNSTABLE_COUNT_THRESHOLD
  {
    if Run(es).1 && Run(es[..i+1]).1 {
      var init := es[..|es|-1];
      assert init[..i+1] == es[..i+1];
      SinceSwitch(init, i);
      RegisterIsWindow(es);
      CountBounded(Last32(Since(init) + [true]));
    }
  }
}
