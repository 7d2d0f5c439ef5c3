/** The handover of a subscriber that joins with a migration state: when it is sent again
    what it has already reported as received. */
module ReliableMigration {
  import opened Numbers
  import opened ReliableDelivery
  import opened ReliableHandover

  predicate NoMigration(steps: seq<Step>) {
    forall i :: 0 <= i < |steps| ==> !steps[i].Migrate?
  }

  /** The step broadcasts to the subscriber, already live, a message of s numbered below n. */
  predicate LateBroadcast(w: World, step: Step, s: ParticipantID, n: uint32) {
    && step == Broadcast(s) && s in w.pending
    && w.listed && w.sub.canWrite && Routed(w.sub, w.pending[s]) && w.pending[s].seqNo < n
  }

  predicate SomeLateBroadcast(w: World, steps: seq<Step>, s: ParticipantID, n: uint32)
    requires IsRun(w, steps)
    decreases |steps|
  {
    steps != [] && (LateBroadcast(w, steps[0], s, n) || SomeLateBroadcast(Next(w, steps[0]), steps[1..], s, n))
  }

  ghost predicate WroteBelow(w: World, s: ParticipantID, n: uint32) {
    exists m :: m in w.sub.written && m.sender == s && m.seqNo < n
  }

  /** n is where the migration state has s begin, and the replay kept to it. */
  predicate BeginsAt(w: World, s: ParticipantID, n: uint32) {
    && (!w.sub.canWrite ==> s in w.sub.first && w.sub.first[s] == n)
    && (s in w.sub.last ==> w.sub.last[s] >= n)
  }

  lemma ReplayBegins(w: World, s: ParticipantID, n: uint32)
    requires Inv(w) && BeginsAt(w, s, n) && CanReplay(w)
    ensures BeginsAt(AfterReplay(w), s, n) && (WroteBelow(AfterReplay(w), s, n) <==> WroteBelow(w, s, n))
  {
    var cache := w.history[w.pruned..];
    if w.sub.canWrite {
      FilterNone(FromOn(w.sub.first), cache);
      assert AfterReplay(w) == w;
    } else {
      var sent := Replayed(w.sub, cache);
      ReplayedMembers(w.sub, cache);
      LastOfIs(w.sub.last, sent, s);
      if s in AfterReplay(w).sub.last {
        var j :| 0 <= j < |sent| && sent[j].sender == s && sent[j].seqNo == AfterReplay(w).sub.last[s];
        assert sent[j] in sent;
      }
      assert AfterReplay(w).sub.written == sent;
    }
  }

  lemma BroadcastBegins(w: World, t: ParticipantID, s: ParticipantID, n: uint32)
    requires Inv(w) && BeginsAt(w, s, n) && t in w.pending
    ensures BeginsAt(AfterBroadcast(w, t), s, n)
    ensures WroteBelow(AfterBroadcast(w, t), s, n) <==> WroteBelow(w, s, n) || LateBroadcast(w, Broadcast(t), s, n)
  {
    var w', m := AfterBroadcast(w, t), w.pending[t];
    var k := PendingIsNewest(w, t);
    if w.listed && w.sub.canWrite {
      BroadcastWritten(w, t);
      if LateBroadcast(w, Broadcast(t), s, n) {
        if s in w.sub.last {
          NothingAfterPending(w, s);
        }
        assert m in w'.sub.written;
      }
      assert forall x :: x in w'.sub.written <==> x in w.sub.written || (x == m && w'.sub.written != w.sub.written);
    }
  }

  /** Nothing of s that was replayed is numbered above its pending message. */
  lemma NothingAfterPending(w: World, s: ParticipantID)
    requires HistoryOk(w) && LastInHistory(w) && s in w.pending && s in w.sub.last
    ensures w.sub.last[s] <= w.pending[s].seqNo
  {
    assert Newest(w.history, w.pending[s]) && InHistory(w.history, s, w.sub.last[s]);
  }

  lemma NextBegins(w: World, step: Step, s: ParticipantID, n: uint32)
    requires Inv(w) && BeginsAt(w, s, n) && Enabled(w, step) && !step.Migrate?
    ensures BeginsAt(Next(w, step), s, n)
    ensures WroteBelow(Next(w, step), s, n) <==> WroteBelow(w, s, n) || LateBroadcast(w, step, s, n)
  {
    match step
    case Broadcast(t) => BroadcastBegins(w, t, s, n);
    case ReplayCached => ReplayBegins(w, s, n);
    case _ =>
  }

  lemma {:induction false} RunBegins(w: World, steps: seq<Step>, s: ParticipantID, n: uint32)
    requires Inv(w) && BeginsAt(w, s, n) && IsRun(w, steps) && NoMigration(steps)
    ensures WroteBelow(Run(w, steps), s, n) <==> WroteBelow(w, s, n) || SomeLateBroadcast(w, steps, s, n)
    decreases |steps|
  {
    if steps != [] {
      NextKeepsInv(w, steps[0]);
      NextBegins(w, steps[0], s, n);
      assert forall i :: 0 <= i < |steps[1..]| ==> steps[1..][i] == steps[i+1];
      RunBegins(Next(w, steps[0]), steps[1..], s, n);
    }
  }

  lemma {:induction false} RunHandsOver(w: World, steps: seq<Step>, s: ParticipantID, n: uint32)
    requires Inv(w) && BeginsAt(w, s, n) && IsRun(w, steps) && NoMigration(steps)
    requires s in w.start && w.start[s] <= n && (w.start[s] < n ==> w.sub.canWrite)
    ensures var start := Run(w, steps).start;
            s in start && start[s] <= n && (start[s] == n <==> w.start[s] == n && !SomeLateBroadcast(w, steps, s, n))
    decreases |steps|
  {
    if steps != [] {
      NextKeepsInv(w, steps[0]);
      NextBegins(w, steps[0], s, n);
      if steps[0].Broadcast? {
        var k := PendingIsNewest(w, steps[0].sender);
      }
      assert forall i :: 0 <= i < |steps[1..]| ==> steps[1..][i] == steps[i+1];
      RunHandsOver(Next(w, steps[0]), steps[1..], s, n);
    }
  }

  /** The last migration state given for s, if any, says that it has received up to `last`. */
  predicate Reports(states: seq<ReceiveState>, s: ParticipantID, last: uint32)
    decreases |states|
  {
    states != [] &&
    (if states[|states|-1].publisherSid == s then states[|states|-1].lastSeq == last
     else Reports(states[..|states|-1], s, last))
  }

  /** The first number wanted of s is the one after the last received. */
  lemma {:induction false} FirstIsNextAfterReported(first: map<ParticipantID, uint32>, states: seq<ReceiveState>, s: ParticipantID, last: uint32)
    requires Reports(states, s, last) && last < 0xFFFF_FFFF
    ensures s in FirstAfter(first, states) && FirstAfter(first, states)[s] == last + 1
    decreases |states|
  {
    if states[|states|-1].publisherSid != s {
      FirstIsNextAfterReported(first, states[..|states|-1], s, last);
    }
  }

  /** A message that the room sends on to the subscriber. */
  predicate IsFor(m: Msg, sid: ParticipantID, identity: Identity) {
    m.sender != sid && (m.dest == [] || identity in m.dest)
  }

  /** The world after a run that gives the subscriber its migration state. */
  predicate Joins(sid: ParticipantID, identity: Identity, before: seq<Step>, states: seq<ReceiveState>, after: seq<Step>) {
    && IsRun(Init(sid, identity), before)
    && Enabled(Run(Init(sid, identity), before), Migrate(states))
    && IsRun(Next(Run(Init(sid, identity), before), Migrate(states)), after)
    && NoMigration(after)
  }

  function Joined(sid: ParticipantID, identity: Identity, before: seq<Step>, states: seq<ReceiveState>): World
    requires IsRun(Init(sid, identity), before) && Enabled(Run(Init(sid, identity), before), Migrate(states))
  {
    Next(Run(Init(sid, identity), before), Migrate(states))
  }

  lemma JoinedBegins(sid: ParticipantID, identity: Identity, before: seq<Step>, states: seq<ReceiveState>, s: ParticipantID, last: uint32)
    requires IsRun(Init(sid, identity), before) && Enabled(Run(Init(sid, identity), before), Migrate(states))
    requires Reports(states, s, last) && last < 0xFFFF_FFFF
    ensures var w := Joined(sid, identity, before, states);
      && Inv(w) && BeginsAt(w, s, last + 1) && !w.sub.canWrite && w.sub.written == []
      && s in w.start && w.start[s] == last + 1
  {
    RunKeepsInv(Init(sid, identity), before);
    var w := Run(Init(sid, identity), before);
    NextKeepsInv(w, Migrate(states));
    FirstIsNextAfterReported(w.sub.first, states, s, last);
  }

  /** A subscriber that joins having received the messages of s up to `last` is sent one
      numbered at most `last` if and only if such a one is broadcast to it after its replay. */
  lemma RepeatsExactlyAfterLateBroadcast(sid: ParticipantID, identity: Identity, before: seq<Step>, states: seq<ReceiveState>,
                                         after: seq<Step>, s: ParticipantID, last: uint32)
    requires Joins(sid, identity, before, states, after) && Reports(states, s, last) && last < 0xFFFF_FFFF
    ensures var w := Joined(sid, identity, before, states);
            (exists m :: m in Run(w, after).sub.written && m.sender == s && m.seqNo <= last)
            <==> SomeLateBroadcast(w, after, s, last + 1)
  {
    JoinedBegins(sid, identity, before, states, s, last);
    var w := Joined(sid, identity, before, states);
    RunBegins(w, after, s, last + 1);
    assert WroteBelow(Run(w, after), s, last + 1) <==> exists m :: m in Run(w, after).sub.written && m.sender == s && m.seqNo <= last;
  }

  /** Once live it has been sent every later message of s that is for it, but for one just
      being broadcast; and where its exactly-once handover begins is right after `last` if and
      only if there is no such late broadcast. */
  lemma NothingAfterReportedIsMissed(sid: ParticipantID, identity: Identity, before: seq<Step>, states: seq<ReceiveState>,
                                     after: seq<Step>, s: ParticipantID, last: uint32)
    requires Joins(sid, identity, before, states, after) && Reports(states, s, last) && last < 0xFFFF_FFFF
    ensures var w := Run(Joined(sid, identity, before, states), after);
            && s in w.start && (w.start[s] == last + 1 <==> !SomeLateBroadcast(Joined(sid, identity, before, states), after, s, last + 1))
            && (w.sub.canWrite ==>
                  forall m :: m in w.history && m.sender == s && IsFor(m, sid, identity) && m.seqNo > last && !(s in w.pending && w.pending[s] == m)
                    ==> m in w.sub.written)
  {
    JoinedBegins(sid, identity, before, states, s, last);
    var joined := Joined(sid, identity, before, states);
    RunHandsOver(joined, after, s, last + 1);
    RunKeepsInv(joined, after);
    RunKeepsSub(Init(sid, identity), before);
    RunKeepsSub(joined, after);
    var w := Run(joined, after);
    if w.sub.canWrite {
      OwedIsWritten(w, s);
    }
  }

  lemma {:induction false} RunKeepsSub(w: World, steps: seq<Step>)
    requires IsRun(w, steps)
    ensures Run(w, steps).sub.sid == w.sub.sid && Run(w, steps).sub.identity == w.sub.identity
    decreases |steps|
  {
    if steps != [] {
      RunKeepsSub(Next(w, steps[0]), steps[1..]);
    }
  }

  lemma OwedIsWritten(w: World, s: ParticipantID)
    requires Inv(w) && w.sub.canWrite
    ensures forall m :: m in w.history && IsOwed(w, s, m) && !(s in w.pending && w.pending[s] == m) ==> m in w.sub.written
  {
    assert Delivered(w, s);
    FilterMembers(Arrived(w, s), w.history);
    FilterMembers((m: Msg) => m.sender == s, w.sub.written);
  }

  // ---- who is sent what ----

  lemma {:induction false} LiveFrom(w: World, steps: seq<Step>)
    requires IsRun(w, steps)
    ensures Run(w, steps).sub.canWrite <==> w.sub.canWrite || ReplayCached in steps
    decreases |steps|
  {
    if steps != [] {
      assert ReplayCached in steps <==> steps[0] == ReplayCached || ReplayCached in steps[1..];
      LiveFrom(Next(w, steps[0]), steps[1..]);
    }
  }

  /** In every run the subscriber is live exactly once it has replayed. */
  lemma LiveExactlyAfterReplay(sid: ParticipantID, identity: Identity, steps: seq<Step>)
    requires IsRun(Init(sid, identity), steps)
    ensures Run(Init(sid, identity), steps).sub.canWrite <==> ReplayCached in steps
  {
    LiveFrom(Init(sid, identity), steps);
  }

  /** In every run a live subscriber has been sent each cached message that is for it, from
      where it is owed the sender's messages on, but for one just being broadcast; and nothing
      that is not for it. */
  lemma SentExactlyWhatIsForIt(sid: ParticipantID, identity: Identity, steps: seq<Step>, m: Msg)
    requires IsRun(Init(sid, identity), steps) && Run(Init(sid, identity), steps).sub.canWrite
    ensures var w := Run(Init(sid, identity), steps);
            && (m in w.sub.written ==> m in w.history && IsFor(m, sid, identity))
            && (m in w.history && IsFor(m, sid, identity) && m.sender in w.start && m.seqNo >= w.start[m.sender] ==>
                  m in w.sub.written || (m.sender in w.pending && w.pending[m.sender] == m))
  {
    RunKeepsInv(Init(sid, identity), steps);
    RunKeepsSub(Init(sid, identity), steps);
    var w := Run(Init(sid, identity), steps);
    OwedIsWritten(w, m.sender);
    assert Delivered(w, m.sender);
    FilterMembers(Arrived(w, m.sender), w.history);
    FilterMembers((x: Msg) => x.sender == m.sender, w.sub.written);
  }

  /** Such a run: a message the subscriber reported as received is cached before the replay
      and broadcast after it. */
  lemma MigratedSubscriberMayRepeat(sid: ParticipantID, identity: Identity, m: Msg)
    requires Numbered(m) && m.dest == [] && m.sender != sid && m.seqNo < 0xFFFF_FFFF
    ensures var steps := [Migrate([ReceiveState(m.sender, m.seqNo)]), Cache(m), List, ReplayCached, Broadcast(m.sender)];
            IsRun(Init(sid, identity), steps) && Run(Init(sid, identity), steps).sub.written == [m]
  {
    var w0, states := Init(sid, identity), [ReceiveState(m.sender, m.seqNo)];
    assert states[..0] == [];
    assert FirstAfter(map[], states) == map[m.sender := m.seqNo + 1];
    var w1 := Next(w0, Migrate(states));
    var w2 := Next(w1, Cache(m));
    var w3 := Next(w2, List);
    FilterOne(FromOn(w3.sub.first), m);
    assert w3.history[w3.pruned..] == [m];
    var w4 := Next(w3, ReplayCached);
    assert Replayed(w3.sub, [m]) == [];
    var w5 := Next(w4, Broadcast(m.sender));
    RunFive(w0, Migrate(states), Cache(m), List, ReplayCached, Broadcast(m.sender));
  }

  lemma RunFive(w: World, a: Step, b: Step, c: Step, d: Step, e: Step)
    requires Enabled(w, a)
    requires var w1 := Next(w, a); Enabled(w1, b)
    requires var w2 := Next(Next(w, a), b); Enabled(w2, c)
    requires var w3 := Next(Next(Next(w, a), b), c); Enabled(w3, d)
    requires var w4 := Next(Next(Next(Next(w, a), b), c), d); Enabled(w4, e)
    ensures IsRun(w, [a, b, c, d, e])
    ensures Run(w, [a, b, c, d, e]) == Next(Next(Next(Next(Next(w, a), b), c), d), e)
  {
    var w1 := Next(w, a);
    var w2 := Next(w1, b);
    var w3 := Next(w2, c);
    var w4 := Next(w3, d);
    var w5 := Next(w4, e);
    assert [a, b, c, d, e][1..] == [b, c, d, e];
    assert [b, c, d, e][1..] == [c, d, e];
    assert [c, d, e][1..] == [d, e];
    assert [d, e][1..] == [e];
    assert [e][1..] == [];
    assert IsRun(w5, []) && Run(w5, []) == w5;
    assert IsRun(w4, [e]) && Run(w4, [e]) == w5;
    assert IsRun(w3, [d, e]) && Run(w3, [d, e]) == w5;
    assert IsRun(w2, [c, d, e]) && Run(w2, [c, d, e]) == w5;
    assert IsRun(w1, [b, c, d, e]) && Run(w1, [b, c, d, e]) == w5;
  }
}
