/** Local ICE candidates on their way to the client: the cache that holds them
    until the local description has been sent (pkg/rtc/transport.go) and the
    one-slot delay line that lets the last one be marked final
    (pkg/rtc/participant_signal.go, sendICECandidate). */
module IceCandidates {

  /** A gathered candidate, or the nil that ends gathering. */
  datatype Local = Gathered(id: nat, tcp: bool) | EndOfCandidates

  /** `forwarded` is every candidate handed to OnICECandidate so far. */
  datatype Relay = Relay(caching: bool, cached: seq<Local>, forwarded: seq<Local>)

  predicate Filtered(c: Local, preferTCP: bool) {
    c.Gathered? && preferTCP && !c.tcp
  }

  function Clear(r: Relay): Relay {
    r.(caching := true, cached := [])
  }

  /** localDescriptionSent: OnICECandidate takes `accepts` candidates before it fails. */
  function DescriptionSent(r: Relay, accepts: nat): (Relay, bool) {
    if !r.caching then (r, true)
    else if accepts < |r.cached| then (Relay(false, [], r.forwarded + r.cached[..accepts]), false)
    else (Relay(false, [], r.forwarded + r.cached), true)
  }

  /** `accepts`: OnICECandidate takes the candidate, if it comes to that. */
  function Arrive(r: Relay, c: Local, preferTCP: bool, accepts: bool): (Relay, bool) {
    if Filtered(c, preferTCP) then (r, true)
    else if r.caching then (r.(cached := r.cached + [c]), true)
    else if accepts then (r.(forwarded := r.forwarded + [c]), true)
    else (r, false)
  }

  class CandidateRelay {
    var cacheLocalCandidates: bool
    var cachedLocalCandidates: seq<Local>
    var forwarded: seq<Local>

    ghost function View(): Relay
      reads this
    {
      Relay(cacheLocalCandidates, cachedLocalCandidates, forwarded)
    }

    constructor ()
      ensures View() == Relay(false, [], [])
    {
      cacheLocalCandidates, cachedLocalCandidates, forwarded := false, [], [];
    }

    method ClearLocalDescriptionSent()
      modifies this
      ensures View() == Clear(old(View()))
    {
      cacheLocalCandidates := true;
      cachedLocalCandidates := [];
    }

    method LocalDescriptionSent(accepts: nat) returns (ok: bool)
      modifies this
      ensures (View(), ok) == DescriptionSent(old(View()), accepts)
    {
      if !cacheLocalCandidates {
        return true;
      }
      cacheLocalCandidates := false;
      var pending := cachedLocalCandidates;
      cachedLocalCandidates := [];
      var i := 0;
      while i < |pending|
        invariant 0 <= i <= |pending| && i <= accepts
        invariant View() == Relay(false, [], old(forwarded) + pending[..i])
      {
        if i == accepts {
          return false;
        }
        forwarded := forwarded + [pending[i]];
        i := i + 1;
      }
      assert pending[..i] == pending;
      ok := true;
    }

    method HandleLocalICECandidate(c: Local, preferTCP: bool, accepts: bool) returns (ok: bool)
      modifies this
      ensures (View(), ok) == Arrive(old(View()), c, preferTCP, accepts)
    {
      if c.Gathered? && preferTCP && !c.tcp {
        return true;
      }
      if cacheLocalCandidates {
        cachedLocalCandidates := cachedLocalCandidates + [c];
        return true;
      }
      if !accepts {
        return false;
      }
      forwarded := forwarded + [c];
      ok := true;
    }
  }

  // ---- the delay slot ----

  datatype Slot = Empty | Holds(id: nat)

  /** A candidate as signalled to the client. */
  datatype Trickle = Trickle(id: nat, final: bool)

  function Swap(slot: Slot, c: Local): (Slot, seq<Trickle>) {
    (if c.Gathered? then Holds(c.id) else Empty,
     if slot.Holds? then [Trickle(slot.id, c == EndOfCandidates)] else [])
  }

  function SwapAll(slot: Slot, cs: seq<Local>): (Slot, seq<Trickle>)
    decreases |cs|
  {
    if cs == [] then (slot, [])
    else
      var (next, sent) := Swap(slot, cs[0]);
      var (last, more) := SwapAll(next, cs[1..]);
      (last, sent + more)
  }

  class CandidateSlot {
    var held: Slot

    constructor ()
      ensures held == Empty
    {
      held := Empty;
    }

    method SendICECandidate(c: Local) returns (sent: seq<Trickle>)
      modifies this
      ensures (held, sent) == Swap(old(held), c)
    {
      var prev := held;
      held := if c.Gathered? then Holds(c.id) else Empty;
      if prev == Empty {
        return [];
      }
      sent := [Trickle(prev.id, c == EndOfCandidates)];
    }
  }

  // ---- what they do to a stream of candidates ----

  /** Sent(accepts): the local description is sent, and OnICECandidate takes so many of the
      cached candidates before it fails. */
  datatype Step = Sent(accepts: nat) | Arrives(c: Local, preferTCP: bool, accepted: bool)

  function Next(r: Relay, e: Step): Relay {
    match e
    case Sent(accepts) => DescriptionSent(r, accepts).0
    case Arrives(c, preferTCP, accepted) => Arrive(r, c, preferTCP, accepted).0
  }

  function Run(r: Relay, es: seq<Step>): Relay
    decreases |es|
  {
    if es == [] then r else Next(Run(r, es[..|es|-1]), es[|es|-1])
  }

  /** The description has been sent. */
  predicate WasSent(es: seq<Step>)
    decreases |es|
  {
    es != [] && (es[|es|-1].Sent? || WasSent(es[..|es|-1]))
  }

  function Wanted(e: Step): seq<Local> {
    if e.Arrives? && !Filtered(e.c, e.preferTCP) then [e.c] else []
  }

  /** The TCP preference lets TCP candidates through, and the end of candidates. */
  lemma WantedExactly(e: Step)
    ensures Wanted(e) == if e.Arrives? && (!e.preferTCP || e.c == EndOfCandidates || e.c.tcp) then [e.c] else []
  {
  }

  /** The candidates of a run that the TCP preference lets through, in order. */
  function Unfiltered(es: seq<Step>): seq<Local>
    decreases |es|
  {
    if es == [] then [] else Unfiltered(es[..|es|-1]) + Wanted(es[|es|-1])
  }

  /** While TCP is preferred only TCP candidates, and the end, reach the client. */
  lemma {:induction false} OnlyTCPPasses(es: seq<Step>)
    requires forall i :: 0 <= i < |es| && es[i].Arrives? ==> es[i].preferTCP
    ensures forall c :: c in Unfiltered(es) ==> c == EndOfCandidates || c.tcp
    ensures forall i :: 0 <= i < |es| && es[i].Arrives? && (es[i].c == EndOfCandidates || es[i].c.tcp) ==> es[i].c in Unfiltered(es)
    decreases |es|
  {
    if es != [] {
      OnlyTCPPasses(es[..|es|-1]);
      WantedExactly(es[|es|-1]);
      assert forall i :: 0 <= i < |es| - 1 ==> es[..|es|-1][i] == es[i];
    }
  }

  function Take(cs: seq<Local>, n: nat): seq<Local> {
    if n < |cs| then cs[..n] else cs
  }

  /** What reaches OnICECandidate and is taken: the cache, as far as its flush goes, and
      what is accepted after it. */
  function Passed(es: seq<Step>): seq<Local>
    decreases |es|
  {
    if es == [] then []
    else
      var init, e := es[..|es|-1], es[|es|-1];
      if WasSent(init) then Passed(init) + if e.Arrives? && e.accepted then Wanted(e) else []
      else if e.Sent? then Take(Unfiltered(init), e.accepts)
      else []
  }

  /** From one clear to the next: nothing is forwarded until the description is sent, then
      the cache up to the first failure, and what is accepted afterwards, in arrival order. */
  lemma {:induction false} ForwardsSinceClear(r: Relay, es: seq<Step>)
    ensures Run(Clear(r), es)
         == if WasSent(es) then Relay(false, [], r.forwarded + Passed(es)) else Relay(true, Unfiltered(es), r.forwarded)
    decreases |es|
  {
    if es != [] {
      var init, e := es[..|es|-1], es[|es|-1];
      ForwardsSinceClear(r, init);
      assert Unfiltered(init) + [] == Unfiltered(init) && Passed(init) + [] == Passed(init);
      assert (r.forwarded + Passed(init)) + Wanted(e) == r.forwarded + (Passed(init) + Wanted(e));
    }
  }

  /** The first flush takes the whole cache, and everything that comes later is accepted. */
  predicate AllTaken(es: seq<Step>)
    decreases |es|
  {
    if es == [] then true
    else
      var init, e := es[..|es|-1], es[|es|-1];
      if WasSent(init) then AllTaken(init) && (Wanted(e) != [] ==> e.accepted)
      else e.Sent? ==> |Unfiltered(init)| <= e.accepts
  }

  lemma {:induction false} PassedIsAll(es: seq<Step>)
    requires WasSent(es)
    ensures |Passed(es)| <= |Unfiltered(es)|
    ensures if AllTaken(es) then Passed(es) == Unfiltered(es) else |Passed(es)| < |Unfiltered(es)|
    decreases |es|
  {
    var init, e := es[..|es|-1], es[|es|-1];
    assert Unfiltered(init) + [] == Unfiltered(init);
    if WasSent(init) {
      PassedIsAll(init);
      assert Passed(init) + [] == Passed(init);
    }
  }

  /** Once the description is sent, everything unfiltered since the clear has been forwarded,
      once and in arrival order, if and only if the flush took the whole cache and everything
      after it was accepted. */
  lemma AllForwardedExactly(r: Relay, es: seq<Step>)
    requires WasSent(es)
    ensures Run(Clear(r), es).forwarded == r.forwarded + Unfiltered(es) <==> AllTaken(es)
  {
    ForwardsSinceClear(r, es);
    PassedIsAll(es);
    assert |r.forwarded + Passed(es)| == |r.forwarded| + |Passed(es)|;
  }

  /** Every candidate of cs, the last one final if `ended`. */
  function Trickled(cs: seq<Local>, ended: bool): seq<Trickle>
    requires forall i :: 0 <= i < |cs| ==> cs[i].Gathered?
  {
    seq(|cs|, i requires 0 <= i < |cs| => Trickle(cs[i].id, ended && i == |cs| - 1))
  }

  lemma SwapOne(slot: Slot, c: Local)
    ensures SwapAll(slot, [c]) == Swap(slot, c)
  {
    var (next, sent) := Swap(slot, c);
    assert SwapAll(next, [c][1..]) == (next, []);
    assert sent + [] == sent;
  }

  /** The slot sends each candidate of a stream ended by nil exactly once and marks
      only the last one final; before the end it is one candidate behind. */
  lemma {:induction false} SlotMarksLastFinal(first: Local, cs: seq<Local>)
    requires first.Gathered? && forall i :: 0 <= i < |cs| ==> cs[i].Gathered?
    ensures SwapAll(Holds(first.id), cs + [EndOfCandidates]) == (Empty, Trickled([first] + cs, true))
    ensures SwapAll(Holds(first.id), cs).1 == Trickled(([first] + cs)[..|cs|], false)
    decreases |cs|
  {
    if cs == [] {
      SwapOne(Holds(first.id), EndOfCandidates);
      assert cs + [EndOfCandidates] == [EndOfCandidates];
      assert Trickled([first] + cs, true) == [Trickle(first.id, true)];
      assert Trickled(([first] + cs)[..0], false) == [];
    } else {
      assert (cs + [EndOfCandidates])[1..] == cs[1..] + [EndOfCandidates];
      assert [cs[0]] + cs[1..] == cs;
      SlotMarksLastFinal(cs[0], cs[1..]);
      assert Trickled([first] + cs, true) == [Trickle(first.id, false)] + Trickled(cs, true);
      assert ([first] + cs)[..|cs|] == [first] + cs[..|cs|-1];
      assert Trickled([first] + cs[..|cs|-1], false) == [Trickle(first.id, false)] + Trickled(cs[..|cs|-1], false);
    }
  }

  lemma SlotFromEmpty(cs: seq<Local>)
    requires forall i :: 0 <= i < |cs| ==> cs[i].Gathered?
    ensures SwapAll(Empty, cs + [EndOfCandidates]) == (Empty, Trickled(cs, true))
  {
    var stream := cs + [EndOfCandidates];
    if cs == [] {
      assert stream == [EndOfCandidates];
      SwapOne(Empty, EndOfCandidates);
      assert Trickled(cs, true) == [];
    } else {
      SlotMarksLastFinal(cs[0], cs[1..]);
      assert stream[1..] == cs[1..] + [EndOfCandidates];
      assert [cs[0]] + cs[1..] == cs;
      assert [] + Trickled(cs, true) == Trickled(cs, true);
    }
  }

  /** End to end: whatever was forwarded since a clear, once ended, is signalled
      exactly once each, with only the last marked final. */
  lemma SignalledSinceClear(r: Relay, es: seq<Step>, cs: seq<Local>)
    requires WasSent(es) && Passed(es) == cs + [EndOfCandidates]
    requires forall i :: 0 <= i < |cs| ==> cs[i].Gathered?
    ensures var forwarded := Run(Clear(r), es).forwarded;
            && r.forwarded <= forwarded
            && SwapAll(Empty, forwarded[|r.forwarded|..]) == (Empty, Trickled(cs, true))
  {
    ForwardsSinceClear(r, es);
    var stream := cs + [EndOfCandidates];
    assert (r.forwarded + stream)[|r.forwarded|..] == stream;
    SlotFromEmpty(cs);
  }
}
