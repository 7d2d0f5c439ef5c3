/** The publisher's side of reliable data (pkg/rtc/participant.go, the sequence
    part of onReceivedDataMessage and handleReceivedDataMessage) and the cache that
    holds packets back after a migration (pkg/rtc/migrationdatacache.go). */
module ReliablePublisher {
  import opened Numbers

  /** A received data packet; `body` stands for the payload. */
  datatype Packet = Packet(reliable: bool, sequence: uint32, body: nat)

  /** Only reliable packets that carry a sequence number are filtered. */
  predicate Numbered(p: Packet) {
    p.reliable && p.sequence > 0
  }

  // ---- the migration cache ----

  datatype CacheState = Waiting | Timeout | Done

  datatype Cache = Cache(lastSeq: uint32, pkts: seq<Packet>, state: CacheState)

  function EmptyCache(lastSeq: uint32): Cache {
    Cache(lastSeq, [], Waiting)
  }

  function CacheAdd(c: Cache, p: Packet, expired: bool): Cache {
    if c.state != Waiting || p.sequence <= c.lastSeq then c
    else if p.sequence == Inc32(c.lastSeq) then c.(state := Done)
    else c.(pkts := c.pkts + [p], state := if expired then Timeout else Waiting)
  }

  class MigrationDataCache {
    const lastSeq: uint32
    var pkts: seq<Packet>
    var state: CacheState

    ghost function View(): Cache
      reads this
    {
      Cache(lastSeq, pkts, state)
    }

    constructor (lastSeq: uint32)
      ensures View() == EmptyCache(lastSeq)
    {
      this.lastSeq := lastSeq;
      pkts, state := [], Waiting;
    }

    /** `expired`: the clock has passed the cache's deadline. */
    method Add(p: Packet, expired: bool) returns (r: CacheState)
      modifies this
      ensures View() == CacheAdd(old(View()), p, expired) && r == state
    {
      if state == Done || state == Timeout {
        return state;
      }
      if p.sequence <= lastSeq {
        return state;
      }
      if p.sequence == Inc32(lastSeq) {
        state := Done;
        return state;
      }
      pkts := pkts + [p];
      if expired {
        state := Timeout;
      }
      r := state;
    }
  }

  // ---- the publisher ----

  datatype CacheOption = NoCache | Armed(cache: Cache)

  datatype Pub = Pub(lastSeq: uint32, stopped: bool, held: CacheOption)

  /** handleReceivedDataMessage: the packets it lets through, none or one. */
  function Handle(lastSeq: uint32, p: Packet): (uint32, seq<Packet>) {
    if !Numbered(p) then (lastSeq, [p])
    else if lastSeq >= p.sequence then (lastSeq, [])
    else (p.sequence, [p])
  }

  function HandleAll(lastSeq: uint32, ps: seq<Packet>): (uint32, seq<Packet>)
    decreases |ps|
  {
    if ps == [] then (lastSeq, [])
    else
      var (mid, out) := HandleAll(lastSeq, ps[..|ps|-1]);
      var (last, more) := Handle(mid, ps[|ps|-1]);
      (last, out + more)
  }

  /** onReceivedDataMessage once the packet is parsed: the new state, and what
      passes the filters in order. */
  function Receive(s: Pub, p: Packet, expired: bool): (Pub, seq<Packet>) {
    if Numbered(p) && s.stopped then (s, [])
    else if Numbered(p) && s.held.Armed? then
      var cache := CacheAdd(s.held.cache, p, expired);
      match cache.state
      case Waiting => (s.(held := Armed(cache)), [])
      case Timeout =>
        var (last, out) := HandleAll(s.lastSeq, cache.pkts);
        (s.(lastSeq := last, held := NoCache), out)
      case Done =>
        var (last, out) := Handle(s.lastSeq, p);
        (s.(lastSeq := last, held := NoCache), out)
    else
      var (last, out) := Handle(s.lastSeq, p);
      (s.(lastSeq := last), out)
  }

  datatype MigrateState = MigrateStateInit | MigrateStateSync | MigrateStateComplete

  class ReliablePublisher {
    const firstReliableSeq: uint32  // the last number of the old node, 0 without one
    var migrateState: MigrateState
    var lastPubReliableSeq: uint32
    var stopReliableByMigrateOut: bool
    var migrateInPubDataCache: MigrationDataCache?

    ghost function View(): Pub
      reads this, migrateInPubDataCache
    {
      Pub(lastPubReliableSeq, stopReliableByMigrateOut,
          if migrateInPubDataCache == null then NoCache else Armed(migrateInPubDataCache.View()))
    }

    constructor (lastPubReliableSeq: uint32)
      ensures View() == Pub(lastPubReliableSeq, false, NoCache)
      ensures firstReliableSeq == lastPubReliableSeq && migrateState == MigrateStateInit
    {
      this.firstReliableSeq, this.lastPubReliableSeq := lastPubReliableSeq, lastPubReliableSeq;
      migrateState := MigrateStateInit;
      stopReliableByMigrateOut := false;
      migrateInPubDataCache := null;
    }

    /** The data part of SetMigrateState: the cache is armed when a migration that was
        syncing completes, and the last number of the old node is known. */
    method SetMigrateState(s: MigrateState)
      modifies this`migrateState, this`migrateInPubDataCache
      ensures migrateState == if old(migrateState) == MigrateStateComplete then MigrateStateComplete else s
      ensures View() == if old(migrateState) == MigrateStateSync && s == MigrateStateComplete && firstReliableSeq > 0
                        then old(View()).(held := Armed(EmptyCache(firstReliableSeq))) else old(View())
      ensures migrateInPubDataCache == old(migrateInPubDataCache) || fresh(migrateInPubDataCache)
    {
      var preState := migrateState;
      if preState == MigrateStateComplete || preState == s {
        return;
      }
      migrateState := s;
      if s == MigrateStateComplete && preState == MigrateStateSync {
        if firstReliableSeq > 0 {
          migrateInPubDataCache := new MigrationDataCache(firstReliableSeq);
        }
      }
    }

    method GetLastReliableSequence(migrateOut: bool) returns (r: uint32)
      modifies this`stopReliableByMigrateOut
      ensures r == lastPubReliableSeq
      ensures View() == old(View()).(stopped := migrateOut || old(stopReliableByMigrateOut))
    {
      if migrateOut {
        stopReliableByMigrateOut := true;
      }
      r := lastPubReliableSeq;
    }

    method HandleReceivedDataMessage(p: Packet) returns (out: seq<Packet>)
      modifies this`lastPubReliableSeq
      ensures (lastPubReliableSeq, out) == Handle(old(lastPubReliableSeq), p)
    {
      if p.reliable && p.sequence > 0 {
        if lastPubReliableSeq >= p.sequence {
          return [];
        }
        lastPubReliableSeq := p.sequence;
      }
      out := [p];
    }

    method OnReceivedDataMessage(p: Packet, expired: bool) returns (out: seq<Packet>)
      modifies this, migrateInPubDataCache
      ensures (View(), out) == Receive(old(View()), p, expired)
    {
      if p.reliable && p.sequence > 0 {
        if stopReliableByMigrateOut {
          return [];
        }
        var cache := migrateInPubDataCache;
        if cache != null {
          var state := cache.Add(p, expired);
          match state {
            case Waiting =>
              return [];
            case Timeout =>
              migrateInPubDataCache := null;
              out := [];
              var i, pkts := 0, cache.pkts;
              while i < |pkts|
                invariant 0 <= i <= |pkts|
                invariant (lastPubReliableSeq, out) == HandleAll(old(lastPubReliableSeq), pkts[..i])
                invariant migrateInPubDataCache == null && !stopReliableByMigrateOut
              {
                assert pkts[..i+1][..i] == pkts[..i];
                var passed := HandleReceivedDataMessage(pkts[i]);
                out := out + passed;
                i := i + 1;
              }
              assert pkts[..i] == pkts;
              return;
            case Done =>
              migrateInPubDataCache := null;
          }
        }
      }
      out := HandleReceivedDataMessage(p);
    }
  }

  // ---- running maxima ----

  /** s[i] is above `base` and above everything before it. */
  ghost predicate IsRecord(base: int, s: seq<Packet>, i: nat)
    requires i < |s|
  {
    s[i].sequence > base && forall j :: 0 <= j < i ==> s[j].sequence < s[i].sequence
  }

  /** The running maxima of s above `base`, in order. */
  ghost function Records(base: int, s: seq<Packet>): seq<Packet>
    decreases |s|
  {
    if s == [] then []
    else Records(base, s[..|s|-1]) + (if IsRecord(base, s, |s|-1) then [s[|s|-1]] else [])
  }

  /** Handling numbered packets one by one lets through exactly the running maxima,
      and leaves the largest number seen. */
  lemma {:induction false} HandleAllIsRecords(lastSeq: uint32, ps: seq<Packet>)
    requires forall i :: 0 <= i < |ps| ==> Numbered(ps[i])
    ensures HandleAll(lastSeq, ps).1 == Records(lastSeq, ps)
    ensures lastSeq <= HandleAll(lastSeq, ps).0
    ensures forall i :: 0 <= i < |ps| ==> ps[i].sequence <= HandleAll(lastSeq, ps).0
    ensures HandleAll(lastSeq, ps).0 == lastSeq || exists i :: 0 <= i < |ps| && ps[i].sequence == HandleAll(lastSeq, ps).0
    decreases |ps|
  {
    if ps != [] {
      var n := |ps| - 1;
      var rest := ps[..n];
      HandleAllIsRecords(lastSeq, rest);
      var mid := HandleAll(lastSeq, rest).0;
      assert forall i :: 0 <= i < n ==> rest[i] == ps[i];
      if mid < ps[n].sequence {
        assert forall j :: 0 <= j < n ==> ps[j].sequence == rest[j].sequence;
        assert IsRecord(lastSeq, ps, n);
        assert ps[n].sequence == HandleAll(lastSeq, ps).0;
      } else {
        assert !IsRecord(lastSeq, ps, n);
        if mid != lastSeq {
          var i :| 0 <= i < n && rest[i].sequence == mid;
          assert ps[i].sequence == mid;
        }
      }
    }
  }

  // ---- runs of one publisher, and of a publisher that migrates ----

  datatype Event = Arrives(p: Packet, expired: bool) | Arm(lastSeq: uint32) | MigrateOut

  function Step(s: Pub, e: Event): (Pub, seq<Packet>) {
    match e
    case Arrives(p, expired) => Receive(s, p, expired)
    case Arm(lastSeq) => (s.(held := Armed(EmptyCache(lastSeq))), [])
    case MigrateOut => (s.(stopped := true), [])
  }

  /** The state after a run, and everything that passed the filters. */
  function Run(s: Pub, es: seq<Event>): (Pub, seq<Packet>)
    decreases |es|
  {
    if es == [] then (s, [])
    else
      var (mid, out) := Step(s, es[0]);
      var (last, more) := Run(mid, es[1..]);
      (last, out + more)
  }

  /** The numbered packets of `out` carry strictly increasing numbers above `base`,
      none above `top`. */
  ghost predicate Increasing(base: int, out: seq<Packet>, top: int) {
    && base <= top
    && (forall i :: 0 <= i < |out| && Numbered(out[i]) ==> base < out[i].sequence <= top)
    && (forall i, j :: 0 <= i < j < |out| && Numbered(out[i]) && Numbered(out[j]) ==> out[i].sequence < out[j].sequence)
  }

  lemma IncreasingJoins(base: int, a: seq<Packet>, mid: int, b: seq<Packet>, top: int)
    requires Increasing(base, a, mid) && Increasing(mid, b, top)
    ensures Increasing(base, a + b, top)
  {
    var ab := a + b;
    forall i | 0 <= i < |ab| && Numbered(ab[i])
      ensures base < ab[i].sequence <= top && (i < |a| ==> ab[i] == a[i] && ab[i].sequence <= mid) && (i >= |a| ==> ab[i] == b[i - |a|] && ab[i].sequence > mid)
    {
    }
    forall i, j | 0 <= i < j < |ab| && Numbered(ab[i]) && Numbered(ab[j])
      ensures ab[i].sequence < ab[j].sequence
    {
      assert ab[i] == if i < |a| then a[i] else b[i - |a|];
      assert ab[j] == if j < |a| then a[j] else b[j - |a|];
    }
  }

  lemma {:induction false} HandleAllIncreasing(lastSeq: uint32, ps: seq<Packet>)
    ensures Increasing(lastSeq, HandleAll(lastSeq, ps).1, HandleAll(lastSeq, ps).0)
    decreases |ps|
  {
    if ps != [] {
      var n := |ps| - 1;
      var (mid, out) := HandleAll(lastSeq, ps[..n]);
      HandleAllIncreasing(lastSeq, ps[..n]);
      IncreasingJoins(lastSeq, out, mid, Handle(mid, ps[n]).1, Handle(mid, ps[n]).0);
    }
  }

  /** Over any run, the accepted reliable numbers strictly increase, and the last
      one is remembered. */
  lemma {:induction false} AcceptedIncrease(s: Pub, es: seq<Event>)
    ensures var (last, out) := Run(s, es); Increasing(s.lastSeq, out, last.lastSeq)
    decreases |es|
  {
    if es != [] {
      var (mid, out) := Step(s, es[0]);
      if es[0].Arrives? && s.held.Armed? {
        HandleAllIncreasing(s.lastSeq, CacheAdd(s.held.cache, es[0].p, es[0].expired).pkts);
      }
      AcceptedIncrease(mid, es[1..]);
      var (last, more) := Run(mid, es[1..]);
      IncreasingJoins(s.lastSeq, out, mid.lastSeq, more, last.lastSeq);
    }
  }

  /** Once stopped by a migration, a node accepts no numbered packet and keeps its number. */
  lemma {:induction false} StoppedAcceptsNothing(s: Pub, es: seq<Event>)
    requires s.stopped
    ensures var (last, out) := Run(s, es);
            last.stopped && last.lastSeq == s.lastSeq && forall i :: 0 <= i < |out| ==> !Numbered(out[i])
    decreases |es|
  {
    if es != [] {
      StoppedAcceptsNothing(Step(s, es[0]).0, es[1..]);
    }
  }

  /** Across a migration: the old node runs, hands over its last number and may go
      on running; the new node starts from that number.  Together they still accept
      strictly increasing numbers. */
  lemma AcceptedIncreaseAcrossMigration(s: Pub, before: seq<Event>, late: seq<Event>, after: seq<Event>)
    ensures var (old1, out1) := Run(s, before);
            var (stopped, _) := Step(old1, MigrateOut);
            var (old2, out2) := Run(stopped, late);
            var (new1, out3) := Run(Pub(old2.lastSeq, false, NoCache), after);
            old2.lastSeq == old1.lastSeq && Increasing(s.lastSeq, out1 + out2 + out3, new1.lastSeq)
  {
    var (old1, out1) := Run(s, before);
    var (stopped, _) := Step(old1, MigrateOut);
    var (old2, out2) := Run(stopped, late);
    var (new1, out3) := Run(Pub(old2.lastSeq, false, NoCache), after);
    AcceptedIncrease(s, before);
    StoppedAcceptsNothing(stopped, late);
    AcceptedIncrease(Pub(old2.lastSeq, false, NoCache), after);
    IncreasingJoins(s.lastSeq, out1, old1.lastSeq, out2, old2.lastSeq);
    IncreasingJoins(s.lastSeq, out1 + out2, old2.lastSeq, out3, new1.lastSeq);
  }

  // ---- how an armed cache resolves ----

  datatype Arrival = Arrival(p: Packet, expired: bool)

  /** The packets of `arrived` beyond the gap, which the cache keeps. */
  ghost function Beyond(lastSeq: uint32, arrived: seq<Arrival>): seq<Packet>
    decreases |arrived|
  {
    if arrived == [] then []
    else
      var n := |arrived| - 1;
      Beyond(lastSeq, arrived[..n]) + (if arrived[n].p.sequence > lastSeq then [arrived[n].p] else [])
  }

  /** No packet of `arrived` ends the wait: none continues the sequence, none beyond the
      gap arrives after the deadline. */
  ghost predicate KeepsWaiting(lastSeq: uint32, arrived: seq<Arrival>) {
    forall i :: 0 <= i < |arrived| ==>
                  && Numbered(arrived[i].p)
                  && arrived[i].p.sequence != Inc32(lastSeq)
                  && (arrived[i].p.sequence > lastSeq ==> !arrived[i].expired)
  }

  function AsEvents(arrived: seq<Arrival>): seq<Event> {
    seq(|arrived|, i requires 0 <= i < |arrived| => Arrives(arrived[i].p, arrived[i].expired))
  }

  /** A run one event longer. */
  lemma {:induction false} RunExtends(s: Pub, es: seq<Event>, e: Event)
    ensures var (mid, out) := Run(s, es);
            var (last, more) := Step(mid, e);
            Run(s, es + [e]) == (last, out + more)
    decreases |es|
  {
    if es == [] {
      var (last, more) := Step(s, e);
      assert Run(last, [e][1..]) == (last, []);
      assert ([] + [e])[1..] == [] && more + [] == more == [] + more;
    } else {
      assert (es + [e])[1..] == es[1..] + [e];
      var (one, out) := Step(s, es[0]);
      RunExtends(one, es[1..], e);
      var (mid, outs) := Run(one, es[1..]);
      var more := Step(mid, e).1;
      assert out + (outs + more) == (out + outs) + more;
    }
  }

  /** While the cache waits, nothing is accepted and everything beyond the gap is kept. */
  lemma {:induction false} NothingAcceptedWhileArmed(s: Pub, lastSeq: uint32, arrived: seq<Arrival>)
    requires !s.stopped && s.held == Armed(EmptyCache(lastSeq)) && KeepsWaiting(lastSeq, arrived)
    ensures Run(s, AsEvents(arrived)) == (s.(held := Armed(Cache(lastSeq, Beyond(lastSeq, arrived), Waiting))), [])
    ensures forall i :: 0 <= i < |Beyond(lastSeq, arrived)| ==>
                          Numbered(Beyond(lastSeq, arrived)[i]) && Beyond(lastSeq, arrived)[i].sequence > lastSeq
    decreases |arrived|
  {
    if arrived != [] {
      var n := |arrived| - 1;
      NothingAcceptedWhileArmed(s, lastSeq, arrived[..n]);
      var last := Arrives(arrived[n].p, arrived[n].expired);
      assert AsEvents(arrived) == AsEvents(arrived[..n]) + [last];
      RunExtends(s, AsEvents(arrived[..n]), last);
      var kept, none: seq<Packet> := Beyond(lastSeq, arrived[..n]), [];
      assert none + none == none && kept + none == kept;
      assert arrived[n].p.sequence != Inc32(lastSeq);
      assert Step(s.(held := Armed(Cache(lastSeq, kept, Waiting))), last)
          == (s.(held := Armed(Cache(lastSeq, Beyond(lastSeq, arrived), Waiting))), none);
    } else {
      assert AsEvents(arrived) == [];
    }
  }

  /** If the wait ends with the continuing packet, that packet, numbered lastSeq + 1,
      is the first one accepted. */
  lemma DoneAcceptsNext(s: Pub, lastSeq: uint32, arrived: seq<Arrival>, last: Arrival)
    requires !s.stopped && s.held == Armed(EmptyCache(lastSeq)) && s.lastSeq == lastSeq
    requires KeepsWaiting(lastSeq, arrived) && last.p.reliable && last.p.sequence == lastSeq + 1
    ensures Run(s, AsEvents(arrived) + [Arrives(last.p, last.expired)]) == (Pub(lastSeq + 1, false, NoCache), [last.p])
  {
    NothingAcceptedWhileArmed(s, lastSeq, arrived);
    RunExtends(s, AsEvents(arrived), Arrives(last.p, last.expired));
    assert [] + [last.p] == [last.p];
  }

  /** If it ends by timeout, what is accepted are exactly the running maxima of the
      packets kept. */
  lemma TimeoutAcceptsRecords(s: Pub, lastSeq: uint32, arrived: seq<Arrival>, last: Arrival)
    requires !s.stopped && s.held == Armed(EmptyCache(lastSeq))
    requires KeepsWaiting(lastSeq, arrived) && last.p.reliable && last.p.sequence > lastSeq + 1 && last.expired
    ensures var kept := Beyond(lastSeq, arrived) + [last.p];
            var (end, out) := Run(s, AsEvents(arrived) + [Arrives(last.p, last.expired)]);
            && end.held == NoCache
            && out == Records(s.lastSeq, kept)
            && forall i :: 0 <= i < |out| ==> out[i].sequence > lastSeq
  {
    NothingAcceptedWhileArmed(s, lastSeq, arrived);
    var waiting := s.(held := Armed(Cache(lastSeq, Beyond(lastSeq, arrived), Waiting)));
    var e := Arrives(last.p, last.expired);
    RunExtends(s, AsEvents(arrived), e);
    var kept := Beyond(lastSeq, arrived) + [last.p];
    TimeoutStep(waiting, e);
    RecordsAbove(s.lastSeq, kept, lastSeq);
    assert [] + Records(s.lastSeq, kept) == Records(s.lastSeq, kept);
  }

  lemma TimeoutStep(s: Pub, e: Event)
    requires !s.stopped && s.held.Armed? && s.held.cache.state == Waiting && e.Arrives?
    requires e.p.reliable && e.p.sequence > s.held.cache.lastSeq + 1 && e.expired
    requires forall i :: 0 <= i < |s.held.cache.pkts| ==> Numbered(s.held.cache.pkts[i])
    ensures Step(s, e).0.held == NoCache
    ensures Step(s, e).1 == Records(s.lastSeq, s.held.cache.pkts + [e.p])
  {
    HandleAllIsRecords(s.lastSeq, s.held.cache.pkts + [e.p]);
  }

  lemma {:induction false} RecordsAbove(base: int, s: seq<Packet>, floor: int)
    requires forall i :: 0 <= i < |s| ==> s[i].sequence > floor
    ensures forall i :: 0 <= i < |Records(base, s)| ==> Records(base, s)[i].sequence > floor
    decreases |s|
  {
    if s != [] {
      RecordsAbove(base, s[..|s|-1], floor);
    }
  }
}
