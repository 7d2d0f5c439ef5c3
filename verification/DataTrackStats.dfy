/** Loss accounting of pkg/rtc/datatrack_stats.go over 16-bit sequence numbers that
    wrap around. */
module DataTrackStats {

  import opened Numbers

  const HALF := 32768

  /** `arrival` is a nanosecond clock reading, as are the start and end times. */
  datatype Packet = Packet(sequence: uint16, final: bool, arrival: int)

  datatype Stats = Stats(startTime: int, endTime: int, highest: uint16,
                         packets: nat, lost: nat, outOfOrder: nat, frames: nat)

  const UNSTARTED := Stats(0, 0, 0, 0, 0, 0, 0)

  /** The forward distance of two sequence numbers, in 16-bit arithmetic. */
  function Distance(to: uint16, start: uint16): uint16 {
    (to - start) % 0x1_0000
  }

  function Observe(d: Stats, p: Packet): Stats {
    var diff := Distance(p.sequence, d.highest);
    var framed := d.(frames := d.frames + if p.final then 1 else 0);
    if d.endTime != 0 then d
    else if d.startTime == 0 then framed.(startTime := p.arrival, highest := p.sequence, packets := 1)
    else if diff == 0 then d
    else if diff > HALF then
      framed.(packets := d.packets + 1, outOfOrder := d.outOfOrder + 1, lost := if d.lost > 0 then d.lost - 1 else 0)
    else
      framed.(packets := d.packets + 1, lost := d.lost + diff - 1, highest := p.sequence)
  }

  class DataTrackStats {
    var startTime: int
    var endTime: int
    var highestSequenceNumber: uint16
    var numPackets: nat
    var numPacketsLost: nat
    var numPacketsOutOfOrder: nat
    var numFrames: nat

    ghost function View(): Stats
      reads this
    {
      Stats(startTime, endTime, highestSequenceNumber, numPackets, numPacketsLost, numPacketsOutOfOrder, numFrames)
    }

    constructor ()
      ensures View() == UNSTARTED
    {
      startTime, endTime, highestSequenceNumber := 0, 0, 0;
      numPackets, numPacketsLost, numPacketsOutOfOrder, numFrames := 0, 0, 0, 0;
    }

    method Update(p: Packet)
      modifies this
      ensures View() == Observe(old(View()), p)
    {
      if endTime != 0 {
        return;
      }
      if startTime == 0 {
        startTime := p.arrival;
        highestSequenceNumber := p.sequence;
        numPackets := 1;
      } else {
        var diff := (p.sequence - highestSequenceNumber) % 0x1_0000;
        if diff == 0 {
          return;
        } else if diff > HALF {
          numPackets := numPackets + 1;
          numPacketsOutOfOrder := numPacketsOutOfOrder + 1;
          if numPacketsLost > 0 {
            numPacketsLost := numPacketsLost - 1;
          }
        } else {
          numPackets := numPackets + 1;
          numPacketsLost := numPacketsLost + (diff - 1);
          highestSequenceNumber := p.sequence;
        }
      }
      if p.final {
        numFrames := numFrames + 1;
      }
    }

    method Close(now: int)
      modifies this
      ensures View() == old(View()).(endTime := now)
    {
      endTime := now;
    }
  }

  // ---- what the counters mean ----

  /** A packet as sent: `number` is its sequence number before wrapping. */
  datatype Sent = Sent(number: int, final: bool, arrival: int)

  function Wire(s: Sent): Packet {
    Packet(s.number % 0x1_0000, s.final, s.arrival)
  }

  function Run(ss: seq<Sent>): Stats
    decreases |ss|
  {
    if ss == [] then UNSTARTED else Observe(Run(ss[..|ss|-1]), Wire(ss[|ss|-1]))
  }

  function Highest(ss: seq<Sent>): int
    requires ss != []
    decreases |ss|
  {
    var n := |ss| - 1;
    if n == 0 then ss[0].number
    else var h := Highest(ss[..n]); if ss[n].number > h then ss[n].number else h
  }

  /** No packet is further than half the number space from the highest before it. */
  ghost predicate WithinReach(ss: seq<Sent>)
    decreases |ss|
  {
    ss != [] ==>
      && ss[|ss|-1].arrival != 0
      && WithinReach(ss[..|ss|-1])
      && (|ss| > 1 ==> -HALF < ss[|ss|-1].number - Highest(ss[..|ss|-1]) <= HALF)
  }

  /** Once closed, the counters stay. */
  lemma ClosedCountsNothing(d: Stats, now: int, p: Packet)
    requires now != 0
    ensures Observe(d.(endTime := now), p) == d.(endTime := now)
  {
  }

  /** Behind the highest packet so far. */
  predicate Late(ss: seq<Sent>, s: Sent) {
    ss != [] && s.number < Highest(ss)
  }

  /** Late, and filling a gap after the first packet. */
  predicate Fills(ss: seq<Sent>, s: Sent) {
    Late(ss, s) && s.number > ss[0].number && s.number !in Arrived(ss)
  }

  function Arrived(ss: seq<Sent>): set<int> {
    set i | 0 <= i < |ss| :: ss[i].number
  }

  /** The numbers from the first to the highest that have not arrived. */
  ghost function Missing(ss: seq<Sent>): set<int>
    requires ss != []
  {
    set n | ss[0].number <= n <= Highest(ss) && n !in Arrived(ss)
  }

  /** Every late packet of the run fills a gap: none repeats, none precedes the first. */
  ghost predicate LateOnesFill(ss: seq<Sent>)
    decreases |ss|
  {
    ss != [] ==>
      && LateOnesFill(ss[..|ss|-1])
      && (Late(ss[..|ss|-1], ss[|ss|-1]) ==> Fills(ss[..|ss|-1], ss[|ss|-1]))
  }

  /** How many late packets came while nothing was counted lost. */
  function Unbalanced(ss: seq<Sent>): nat
    decreases |ss|
  {
    if ss == [] then 0
    else
      var init, s := ss[..|ss|-1], ss[|ss|-1];
      Unbalanced(init) + if Late(init, s) && Run(init).lost == 0 then 1 else 0
  }

  /** The packets that count: all but those that repeat the highest one. */
  function Counted(ss: seq<Sent>): seq<Sent>
    decreases |ss|
  {
    if ss == [] then []
    else
      var init, s := ss[..|ss|-1], ss[|ss|-1];
      Counted(init) + if init != [] && s.number == Highest(init) then [] else [s]
  }

  function Finals(ss: seq<Sent>): nat
    decreases |ss|
  {
    if ss == [] then 0 else Finals(ss[..|ss|-1]) + if ss[|ss|-1].final then 1 else 0
  }

  function Lates(ss: seq<Sent>): nat
    decreases |ss|
  {
    if ss == [] then 0 else Lates(ss[..|ss|-1]) + if Late(ss[..|ss|-1], ss[|ss|-1]) then 1 else 0
  }

  /** One packet after the first, in unwrapped numbers. */
  lemma ObserveUnwrapped(d: Stats, high: int, s: Sent)
    requires d.startTime != 0 && d.endTime == 0 && d.highest == high % 0x1_0000
    requires -HALF < s.number - high <= HALF
    ensures Distance(Wire(s).sequence, d.highest) == (s.number - high) % 0x1_0000
    ensures s.number == high ==> Observe(d, Wire(s)) == d
    ensures s.number > high ==>
      Observe(d, Wire(s)) == d.(highest := s.number % 0x1_0000, packets := d.packets + 1, lost := d.lost + (s.number - high - 1),
                                frames := d.frames + if s.final then 1 else 0)
    ensures s.number < high ==>
      Observe(d, Wire(s)) == d.(packets := d.packets + 1, lost := if d.lost > 0 then d.lost - 1 else 0,
                                outOfOrder := d.outOfOrder + 1, frames := d.frames + if s.final then 1 else 0)
  {
  }

  /** The 16-bit highest is the unwrapped highest modulo 65536, in every run. */
  lemma {:induction false} HighestIsUnwrapped(ss: seq<Sent>)
    requires WithinReach(ss) && ss != []
    ensures var d := Run(ss); d.startTime != 0 && d.endTime == 0 && d.highest == Highest(ss) % 0x1_0000
    decreases |ss|
  {
    var n := |ss| - 1;
    if n > 0 {
      HighestIsUnwrapped(ss[..n]);
      ObserveUnwrapped(Run(ss[..n]), Highest(ss[..n]), ss[n]);
    }
  }

  lemma RunStep(ss: seq<Sent>)
    requires WithinReach(ss) && |ss| > 1
    ensures var init, s := ss[..|ss|-1], ss[|ss|-1]; var d, high := Run(init), Highest(init);
      && WithinReach(init) && init[0] == ss[0]
      && d.startTime != 0 && d.endTime == 0 && d.highest == high % 0x1_0000
      && -HALF < s.number - high <= HALF
      && Run(ss) == Observe(d, Wire(s))
  {
    HighestIsUnwrapped(ss[..|ss|-1]);
  }

  /** Packets, late packets and frames are counted once each, repeats of the
      highest packet apart. */
  lemma {:induction false} CountsArrivals(ss: seq<Sent>)
    requires WithinReach(ss)
    ensures var d := Run(ss); d.packets == |Counted(ss)| && d.frames == Finals(Counted(ss)) && d.outOfOrder == Lates(ss)
    decreases |ss|
  {
    if |ss| > 0 {
      var init, s := ss[..|ss|-1], ss[|ss|-1];
      CountsArrivals(init);
      assert (Counted(init) + [s])[..|Counted(init)|] == Counted(init);
      assert Counted(init) + [] == Counted(init);
      if |ss| > 1 {
        RunStep(ss);
        ObserveUnwrapped(Run(init), Highest(init), s);
      } else {
        assert init == [];
      }
    }
  }

  /** Received and lost packets add up to the numbers from the first to the highest,
      plus the late packets that came while nothing was counted lost. */
  lemma {:induction false} ReceivedPlusLost(ss: seq<Sent>)
    requires WithinReach(ss) && ss != []
    ensures Run(ss).packets + Run(ss).lost == Highest(ss) - ss[0].number + 1 + Unbalanced(ss)
    decreases |ss|
  {
    if |ss| > 1 {
      var init, s := ss[..|ss|-1], ss[|ss|-1];
      RunStep(ss);
      ReceivedPlusLost(init);
      ObserveUnwrapped(Run(init), Highest(init), s);
    } else {
      assert ss[..0] == [];
    }
  }

  /** So they add up exactly if and only if no late packet came while nothing was counted lost. */
  lemma AddsUpExactly(ss: seq<Sent>)
    requires WithinReach(ss) && ss != []
    ensures Run(ss).packets + Run(ss).lost == Highest(ss) - ss[0].number + 1 <==> Unbalanced(ss) == 0
  {
    ReceivedPlusLost(ss);
  }

  lemma FirstPacket(s: Sent)
    requires s.arrival != 0
    ensures WithinReach([s]) && Highest([s]) == s.number && Run([s]).lost == 0 && Unbalanced([s]) == 0
  {
    assert [s][..0] == [];
    assert Run([s]) == Observe(UNSTARTED, Wire(s));
  }

  /** A packet from before the first one is counted and takes no number off. */
  lemma PrecedingPacketUnbalances(first: Sent, early: Sent)
    requires first.arrival != 0 && early.arrival != 0 && -HALF < early.number - first.number < 0
    ensures var ss := [first, early];
      WithinReach(ss) && Unbalanced(ss) == 1 && Run(ss).packets + Run(ss).lost == Highest(ss) - ss[0].number + 2
  {
    var ss := [first, early];
    assert ss[..1] == [first];
    FirstPacket(first);
    ReceivedPlusLost(ss);
  }

  lemma NumbersStep(ss: seq<Sent>)
    requires ss != []
    ensures Arrived(ss) == Arrived(ss[..|ss|-1]) + {ss[|ss|-1].number}
  {
    var init := ss[..|ss|-1];
    forall n | n in Arrived(ss) ensures n in Arrived(init) + {ss[|ss|-1].number} {
      var i :| 0 <= i < |ss| && ss[i].number == n;
      assert i < |init| ==> init[i].number == n;
    }
    forall n | n in Arrived(init) ensures n in Arrived(ss) {
      var i :| 0 <= i < |init| && init[i].number == n;
      assert ss[i].number == n;
    }
  }

  lemma {:induction false} HighestBounds(ss: seq<Sent>)
    requires ss != []
    ensures forall n :: n in Arrived(ss) ==> n <= Highest(ss)
    ensures Highest(ss) in Arrived(ss)
    decreases |ss|
  {
    NumbersStep(ss);
    if |ss| > 1 {
      HighestBounds(ss[..|ss|-1]);
    } else {
      assert Arrived(ss[..0]) == {};
    }
  }

  /** The numbers strictly between a and b. */
  function Between(a: int, b: int): (r: set<int>)
    requires a < b
    ensures forall n :: n in r <==> a < n < b
    ensures |r| == b - a - 1
    decreases b - a
  {
    if a + 1 == b then {} else Between(a, b - 1) + {b - 1}
  }

  lemma MissingAhead(ss: seq<Sent>)
    requires |ss| > 1 && ss[|ss|-1].number > Highest(ss[..|ss|-1])
    ensures var init, s := ss[..|ss|-1], ss[|ss|-1]; |Missing(ss)| == |Missing(init)| + (s.number - Highest(init) - 1)
  {
    var init, s := ss[..|ss|-1], ss[|ss|-1];
    NumbersStep(ss);
    HighestBounds(init);
    assert init[0].number in Arrived(init);
    var gap := Between(Highest(init), s.number);
    assert Missing(init) !! gap;
    assert Missing(ss) == Missing(init) + gap;
  }

  lemma MissingBehind(ss: seq<Sent>)
    requires |ss| > 1 && ss[|ss|-1].number <= Highest(ss[..|ss|-1])
    ensures var init, s := ss[..|ss|-1], ss[|ss|-1];
      |Missing(ss)| == if Fills(init, s) then |Missing(init)| - 1 else |Missing(init)|
  {
    var init, s := ss[..|ss|-1], ss[|ss|-1];
    NumbersStep(ss);
    HighestBounds(init);
    if Fills(init, s) {
      assert s.number in Missing(init);
    }
    assert Missing(ss) == Missing(init) - {s.number};
  }

  /** How one more packet changes what is missing. */
  lemma MissingStep(ss: seq<Sent>)
    requires |ss| > 1
    ensures var init, s := ss[..|ss|-1], ss[|ss|-1];
      |Missing(ss)| == if s.number > Highest(init) then |Missing(init)| + (s.number - Highest(init) - 1)
                       else if Fills(init, s) then |Missing(init)| - 1
                       else |Missing(init)|
  {
    if ss[|ss|-1].number > Highest(ss[..|ss|-1]) {
      MissingAhead(ss);
    } else {
      MissingBehind(ss);
    }
  }

  lemma MissingOfOne(s: Sent)
    ensures Missing([s]) == {}
  {
    assert [s][0].number in Arrived([s]);
  }

  /** How much a late packet puts the loss counter off: one too low when it takes a
      loss off without filling a gap, one back when it fills a gap and takes none off. */
  function Skew(ss: seq<Sent>): int
    decreases |ss|
  {
    if ss == [] then 0
    else
      var init, s := ss[..|ss|-1], ss[|ss|-1];
      Skew(init) + if !Late(init, s) then 0
                   else if Run(init).lost > 0 then (if Fills(init, s) then 0 else 1)
                   else if Fills(init, s) then -1 else 0
  }

  /** The loss counter never exceeds the number of packets missing, and it falls
      short of it by the skew: it is exact if and only if the skew is 0. */
  lemma {:induction false} LostFallsShortBySkew(ss: seq<Sent>)
    requires WithinReach(ss) && ss != []
    ensures |Missing(ss)| - Run(ss).lost == Skew(ss) >= 0
    decreases |ss|
  {
    if |ss| > 1 {
      var init, s := ss[..|ss|-1], ss[|ss|-1];
      RunStep(ss);
      LostFallsShortBySkew(init);
      ObserveUnwrapped(Run(init), Highest(init), s);
      MissingStep(ss);
    } else {
      assert ss == [ss[0]] && ss[..0] == [];
      MissingOfOne(ss[0]);
    }
  }

  /** When no late packet repeats or precedes the first one, the loss counter is
      the number of missing packets and everything adds up. */
  lemma {:induction false} LostIsExact(ss: seq<Sent>)
    requires WithinReach(ss) && LateOnesFill(ss) && ss != []
    ensures Run(ss).lost == |Missing(ss)| && Unbalanced(ss) == 0
    decreases |ss|
  {
    if |ss| > 1 {
      var init, s := ss[..|ss|-1], ss[|ss|-1];
      RunStep(ss);
      LostIsExact(init);
      ObserveUnwrapped(Run(init), Highest(init), s);
      MissingStep(ss);
    } else {
      assert ss == [ss[0]] && ss[..0] == [];
      MissingOfOne(ss[0]);
    }
  }
}
