/** Reliable data from a publisher to a subscriber: what ReliablePublisher accepts of one
    sender, also across its migrations, is what the room of ReliableHandover caches and
    broadcasts. */
module ReliableEndToEnd {
  import opened Numbers
  import opened ReliableDelivery
  import opened ReliableHandover
  import P = ReliablePublisher
  import A = PublisherAcceptance

  /** The sender's publisher, the numbers it has accepted, and how many of them the room has
      cached so far. */
  datatype Sender = Sender(pub: P.Pub, accepted: seq<uint32>, cached: nat)

  datatype Pipe = Pipe(room: World, sender: Sender)

  /** Migrates: the sender is taken over by another node, from the last number of the old one. */
  datatype Move =
    | Receives(e: P.Event)
    | Migrates
    | Caches(m: Msg)
    | Rooms(step: Step)

  /** The numbers of the numbered packets of `out`. */
  function NumbersOf(out: seq<P.Packet>): seq<uint32>
    decreases |out|
  {
    if out == [] then []
    else NumbersOf(out[..|out|-1]) + if P.Numbered(out[|out|-1]) then [out[|out|-1].sequence] else []
  }

  /** The next accepted packet of s that the room has not cached; its message may be addressed
      to anyone. */
  predicate IsNext(p: Pipe, m: Msg, s: ParticipantID) {
    && p.sender.cached < |p.sender.accepted|
    && m.sender == s && m.reliable && m.seqNo == p.sender.accepted[p.sender.cached]
  }

  /** Messages of s reach the room's cache only from its publisher, one at a time. */
  predicate Allowed(p: Pipe, move: Move, s: ParticipantID) {
    match move
    case Receives(_) => true
    case Migrates => true
    case Caches(m) => IsNext(p, m, s) && s !in p.room.pending
    case Rooms(step) => Enabled(p.room, step) && (step.Cache? ==> step.m.sender != s)
  }

  function After(p: Pipe, move: Move): Pipe
    requires move.Rooms? ==> Enabled(p.room, move.step)
  {
    match move
    case Receives(e) =>
      var (pub, out) := P.Step(p.sender.pub, e);
      p.(sender := p.sender.(pub := pub, accepted := p.sender.accepted + NumbersOf(out)))
    case Migrates => p.(sender := p.sender.(pub := P.Pub(p.sender.pub.lastSeq, false, P.NoCache)))
    case Caches(m) => Pipe(AfterCache(p.room, m), p.sender.(cached := p.sender.cached + 1))
    case Rooms(step) => p.(room := Next(p.room, step))
  }

  predicate IsPipeRun(p: Pipe, moves: seq<Move>, s: ParticipantID)
    decreases |moves|
  {
    moves == [] || (Allowed(p, moves[0], s) && IsPipeRun(After(p, moves[0]), moves[1..], s))
  }

  function PipeRun(p: Pipe, moves: seq<Move>, s: ParticipantID): Pipe
    requires IsPipeRun(p, moves, s)
    decreases |moves|
  {
    if moves == [] then p else PipeRun(After(p, moves[0]), moves[1..], s)
  }

  /** The numbers of the messages of s in the room's history. */
  function CachedNumbers(history: seq<Msg>, s: ParticipantID): seq<uint32>
    decreases |history|
  {
    if history == [] then []
    else CachedNumbers(history[..|history|-1], s) + if history[|history|-1].sender == s then [history[|history|-1].seqNo] else []
  }

  /** Strictly increasing numbers, from 1 on and none above `top`. */
  ghost predicate Rising(ns: seq<uint32>, top: int) {
    && (forall i :: 0 <= i < |ns| ==> 0 < ns[i] <= top)
    && forall i, j :: 0 <= i < j < |ns| ==> ns[i] < ns[j]
  }

  /** The room has cached the accepted numbers of s in order, up to where it has come. */
  ghost predicate PipeOk(p: Pipe, s: ParticipantID) {
    && Inv(p.room)
    && p.sender.cached <= |p.sender.accepted|
    && Rising(p.sender.accepted, p.sender.pub.lastSeq)
    && CachedNumbers(p.room.history, s) == p.sender.accepted[..p.sender.cached]
  }

  lemma {:induction false} NumbersRise(base: int, out: seq<P.Packet>, top: int)
    requires P.Increasing(base, out, top) && base >= 0
    ensures Rising(NumbersOf(out), top) && forall i :: 0 <= i < |NumbersOf(out)| ==> base < NumbersOf(out)[i]
    decreases |out|
  {
    if out != [] {
      var n := |out| - 1;
      if P.Numbered(out[n]) {
        assert P.Increasing(base, out[..n], out[n].sequence - 1) by {
          assert forall i :: 0 <= i < n ==> out[..n][i] == out[i];
        }
        NumbersRise(base, out[..n], out[n].sequence - 1);
      } else {
        assert P.Increasing(base, out[..n], top) by {
          assert forall i :: 0 <= i < n ==> out[..n][i] == out[i];
        }
        NumbersRise(base, out[..n], top);
      }
    }
  }

  /** One event of the publisher accepts only numbers above its last one. */
  lemma StepRises(pub: P.Pub, e: P.Event)
    ensures var (next, out) := P.Step(pub, e);
      pub.lastSeq <= next.lastSeq && Rising(NumbersOf(out), next.lastSeq)
      && forall i :: 0 <= i < |NumbersOf(out)| ==> pub.lastSeq < NumbersOf(out)[i]
  {
    P.AcceptedIncrease(pub, [e]);
    var (next, out) := P.Step(pub, e);
    assert [e][1..] == [];
    assert P.Run(next, []) == (next, []);
    assert out + [] == out;
    NumbersRise(pub.lastSeq, out, next.lastSeq);
  }

  lemma ReceivesOk(p: Pipe, e: P.Event, s: ParticipantID)
    requires PipeOk(p, s)
    ensures PipeOk(After(p, Receives(e)), s)
  {
    StepRises(p.sender.pub, e);
    var q := After(p, Receives(e));
    assert q.sender.accepted[..p.sender.cached] == p.sender.accepted[..p.sender.cached];
  }

  lemma {:induction false} CachedNumbersAre(history: seq<Msg>, s: ParticipantID, i: nat)
    requires i < |history| && history[i].sender == s
    ensures history[i].seqNo in CachedNumbers(history, s)
    decreases |history|
  {
    if i < |history| - 1 {
      CachedNumbersAre(history[..|history|-1], s, i);
    }
  }

  /** The number the publisher accepted next is larger than all the room has cached of s, so
      the room can cache it. */
  lemma NextCanBeCached(p: Pipe, m: Msg, s: ParticipantID)
    requires PipeOk(p, s) && s != 0 && Allowed(p, Caches(m), s)
    ensures CanCache(p.room, m)
  {
    var h := p.room.history;
    forall i | 0 <= i < |h| && h[i].sender == m.sender ensures h[i].seqNo < m.seqNo {
      CachedNumbersAre(h, s, i);
      var k :| 0 <= k < p.sender.cached && p.sender.accepted[..p.sender.cached][k] == h[i].seqNo;
      assert p.sender.accepted[k] < p.sender.accepted[p.sender.cached];
    }
  }

  lemma CachesOk(p: Pipe, m: Msg, s: ParticipantID)
    requires PipeOk(p, s) && s != 0 && Allowed(p, Caches(m), s)
    ensures PipeOk(After(p, Caches(m)), s)
  {
    NextCanBeCached(p, m, s);
    ReliableHandover.NextKeepsInv(p.room, Cache(m));
    var h := p.room.history + [m];
    assert h[..|h|-1] == p.room.history;
    var n := p.sender.cached;
    assert p.sender.accepted[..n] + [p.sender.accepted[n]] == p.sender.accepted[..n+1];
  }

  lemma RoomsOk(p: Pipe, step: Step, s: ParticipantID)
    requires PipeOk(p, s) && Allowed(p, Rooms(step), s)
    ensures PipeOk(After(p, Rooms(step)), s)
  {
    ReliableHandover.NextKeepsInv(p.room, step);
    if step.Cache? {
      var h := p.room.history + [step.m];
      assert h[..|h|-1] == p.room.history;
      assert CachedNumbers(p.room.history, s) + [] == CachedNumbers(p.room.history, s);
    }
  }

  lemma {:induction false} PipeRunOk(p: Pipe, moves: seq<Move>, s: ParticipantID)
    requires PipeOk(p, s) && s != 0 && IsPipeRun(p, moves, s)
    ensures PipeOk(PipeRun(p, moves, s), s)
    decreases |moves|
  {
    if moves != [] {
      match moves[0]
      case Receives(e) =>
        ReceivesOk(p, e, s);
        PipeRunOk(After(p, moves[0]), moves[1..], s);
      case Migrates => PipeRunOk(After(p, moves[0]), moves[1..], s);
      case Caches(m) =>
        CachesOk(p, m, s);
        PipeRunOk(After(p, moves[0]), moves[1..], s);
      case Rooms(step) =>
        RoomsOk(p, step, s);
        PipeRunOk(After(p, moves[0]), moves[1..], s);
    }
  }

  function Begin(sid: ParticipantID, identity: Identity, pub: P.Pub): Pipe {
    Pipe(ReliableHandover.Init(sid, identity), Sender(pub, [], 0))
  }

  /** What the publisher has accepted of s and the room has come to is the history of s, in
      order; and what comes next can be cached once the broadcast before it is done. */
  lemma RoomFollowsPublisher(sid: ParticipantID, identity: Identity, pub: P.Pub, moves: seq<Move>, s: ParticipantID, m: Msg)
    requires s != 0 && IsPipeRun(Begin(sid, identity, pub), moves, s)
    ensures var p := PipeRun(Begin(sid, identity, pub), moves, s);
      && p.sender.cached <= |p.sender.accepted|
      && CachedNumbers(p.room.history, s) == p.sender.accepted[..p.sender.cached]
      && (IsNext(p, m, s) && s !in p.room.pending ==> CanCache(p.room, m))
  {
    BeginOk(sid, identity, pub, s);
    PipeRunOk(Begin(sid, identity, pub), moves, s);
    var p := PipeRun(Begin(sid, identity, pub), moves, s);
    if IsNext(p, m, s) && s !in p.room.pending {
      NextCanBeCached(p, m, s);
    }
  }

  /** From the publisher to a live subscriber: what it has been sent of s are messages that
      the publisher accepted, in the order it did; and of those that the room has come to it
      has been sent every one that is owed to it and not just being broadcast, once. */
  lemma AcceptedReachesSubscriber(sid: ParticipantID, identity: Identity, pub: P.Pub, moves: seq<Move>, s: ParticipantID)
    requires s != 0 && IsPipeRun(Begin(sid, identity, pub), moves, s)
    requires PipeRun(Begin(sid, identity, pub), moves, s).room.sub.canWrite
    ensures var p := PipeRun(Begin(sid, identity, pub), moves, s); var got := WrittenFrom(p.room, s);
      && (forall i, j :: 0 <= i < j < |got| ==> got[i].seqNo < got[j].seqNo)
      && (forall m :: m in got <==> m in p.room.history && HasArrived(p.room, s, m))
      && (forall m :: m in got ==> m.seqNo in p.sender.accepted)
  {
    BeginOk(sid, identity, pub, s);
    PipeRunOk(Begin(sid, identity, pub), moves, s);
    var p := PipeRun(Begin(sid, identity, pub), moves, s);
    assert Delivered(p.room, s);
    FilterMembers(Arrived(p.room, s), p.room.history);
    FilterIncreases(Arrived(p.room, s), p.room.history);
    forall m | m in WrittenFrom(p.room, s) ensures m.seqNo in p.sender.accepted {
      var i :| 0 <= i < |p.room.history| && p.room.history[i] == m;
      CachedNumbersAre(p.room.history, s, i);
    }
  }

  // ---- what the publisher accepts along the way ----

  /** No migration of the publisher. */
  predicate Settled(moves: seq<Move>)
    decreases |moves|
  {
    moves != [] ==> !moves[0].Migrates? && (moves[0].Receives? ==> moves[0].e.Arrives?) && Settled(moves[1..])
  }

  function Received(moves: seq<Move>): seq<P.Packet>
    decreases |moves|
  {
    if moves == [] then []
    else (if moves[0].Receives? && moves[0].e.Arrives? then [moves[0].e.p] else []) + Received(moves[1..])
  }

  lemma {:induction false} NumbersConcat(a: seq<P.Packet>, b: seq<P.Packet>)
    ensures NumbersOf(a + b) == NumbersOf(a) + NumbersOf(b)
    decreases |b|
  {
    if b == [] {
      assert a + b == a;
      assert NumbersOf(a) + [] == NumbersOf(a);
    } else {
      var n := |b| - 1;
      var last := if P.Numbered(b[n]) then [b[n].sequence] else [];
      assert (a + b)[..|a|+n] == a + b[..n];
      NumbersConcat(a, b[..n]);
      assert (NumbersOf(a) + NumbersOf(b[..n])) + last == NumbersOf(a) + (NumbersOf(b[..n]) + last);
    }
  }

  lemma {:induction false} HandleAllFirst(lastSeq: uint32, p: P.Packet, rest: seq<P.Packet>)
    ensures var (mid, out) := P.Handle(lastSeq, p); var (last, more) := P.HandleAll(mid, rest);
      P.HandleAll(lastSeq, [p] + rest) == (last, out + more)
    decreases |rest|
  {
    var (mid, out) := P.Handle(lastSeq, p);
    if rest == [] {
      assert [p] + rest == [p] && [p][..0] == [];
      assert [] + out == out && out + [] == out;
    } else {
      var n := |rest| - 1;
      HandleAllFirst(lastSeq, p, rest[..n]);
      assert ([p] + rest)[..n+1] == [p] + rest[..n];
      var (before, outs) := P.HandleAll(mid, rest[..n]);
      var more := P.Handle(before, rest[n]).1;
      assert (out + outs) + more == out + (outs + more);
    }
  }

  /** What a move of a settled run does to the sender. */
  lemma SettledMove(p: Pipe, move: Move, s: ParticipantID)
    requires Allowed(p, move, s) && !move.Migrates? && (move.Receives? ==> move.e.Arrives?)
    requires !p.sender.pub.stopped && p.sender.pub.held == P.NoCache
    ensures var q, pub := After(p, move).sender, p.sender.pub;
      if move.Receives? then
        var (mid, out) := P.Handle(pub.lastSeq, move.e.p);
        q.pub == pub.(lastSeq := mid) && q.accepted == p.sender.accepted + NumbersOf(out)
      else q.pub == pub && q.accepted == p.sender.accepted
  {
  }

  lemma Associates(a: seq<uint32>, b: seq<uint32>, c: seq<uint32>)
    ensures (a + b) + c == a + (b + c)
  {
  }

  lemma {:induction false} AcceptsWhatPasses(p: Pipe, moves: seq<Move>, s: ParticipantID)
    requires IsPipeRun(p, moves, s) && Settled(moves) && !p.sender.pub.stopped && p.sender.pub.held == P.NoCache
    ensures PipeRun(p, moves, s).sender.accepted
         == p.sender.accepted + NumbersOf(P.HandleAll(p.sender.pub.lastSeq, Received(moves)).1)
    decreases |moves|
  {
    if moves == [] {
      assert p.sender.accepted + [] == p.sender.accepted;
    } else {
      SettledMove(p, moves[0], s);
      AcceptsWhatPasses(After(p, moves[0]), moves[1..], s);
      if moves[0].Receives? {
        var (mid, out) := P.Handle(p.sender.pub.lastSeq, moves[0].e.p);
        var more := P.HandleAll(mid, Received(moves[1..])).1;
        HandleAllFirst(p.sender.pub.lastSeq, moves[0].e.p, Received(moves[1..]));
        NumbersConcat(out, more);
        Associates(p.sender.accepted, NumbersOf(out), NumbersOf(more));
      } else {
        assert [] + Received(moves[1..]) == Received(moves[1..]);
      }
    }
  }

  /** Without a migration of the publisher the accepted numbers are those of the packets that
      pass: above where it began and above all numbers before them. */
  lemma AcceptedAreThosePassing(sid: ParticipantID, identity: Identity, lastSeq: uint32, moves: seq<Move>, s: ParticipantID)
    requires IsPipeRun(Begin(sid, identity, P.Pub(lastSeq, false, P.NoCache)), moves, s) && Settled(moves)
    ensures PipeRun(Begin(sid, identity, P.Pub(lastSeq, false, P.NoCache)), moves, s).sender.accepted
         == NumbersOf(A.Passing(lastSeq, Received(moves)))
    ensures forall i :: 0 <= i < |Received(moves)| && P.Numbered(Received(moves)[i]) && A.Passes(lastSeq, Received(moves), i) ==>
      Received(moves)[i].sequence in PipeRun(Begin(sid, identity, P.Pub(lastSeq, false, P.NoCache)), moves, s).sender.accepted
  {
    AcceptsWhatPasses(Begin(sid, identity, P.Pub(lastSeq, false, P.NoCache)), moves, s);
    A.HandleAllPasses(lastSeq, Received(moves));
    var none: seq<uint32> := [];
    assert none + NumbersOf(A.Passing(lastSeq, Received(moves))) == NumbersOf(A.Passing(lastSeq, Received(moves)));
    forall i | 0 <= i < |Received(moves)| && P.Numbered(Received(moves)[i]) && A.Passes(lastSeq, Received(moves), i)
      ensures Received(moves)[i].sequence in NumbersOf(A.Passing(lastSeq, Received(moves)))
    {
      PassingNumber(lastSeq, Received(moves), i);
    }
  }

  lemma {:induction false} PassingNumber(base: int, ps: seq<P.Packet>, i: nat)
    requires i < |ps| && P.Numbered(ps[i]) && A.Passes(base, ps, i)
    ensures ps[i].sequence in NumbersOf(A.Passing(base, ps))
    decreases |ps|
  {
    var n := |ps| - 1;
    var before := A.Passing(base, ps[..n]);
    if i < n {
      assert A.Passes(base, ps[..n], i) by {
        assert forall j :: 0 <= j < n ==> ps[..n][j] == ps[j];
      }
      PassingNumber(base, ps[..n], i);
      NumbersConcat(before, if A.Passes(base, ps, n) then [ps[n]] else []);
      assert before + [] == before;
    } else {
      NumbersConcat(before, [ps[n]]);
      assert [ps[n]][..0] == [];
    }
  }

  lemma BeginOk(sid: ParticipantID, identity: Identity, pub: P.Pub, s: ParticipantID)
    ensures PipeOk(Begin(sid, identity, pub), s)
  {
    ReliableHandover.RunKeepsInv(ReliableHandover.Init(sid, identity), []);
  }
}
