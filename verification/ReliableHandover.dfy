/** Every interleaving of the three activities that decide what a joining
    subscriber is sent: publishers adding to the room's cache, publishers
    broadcasting what they added, and the subscriber's replay.

    A publisher adds a message to the cache and later broadcasts it, one message
    at a time (pkg/rtc/room.go, onDataMessage).  Everything else may come between. */
module ReliableHandover {
  import opened Numbers
  import opened ReliableDelivery

  /** `history` is every message ever cached, of which the cache has dropped the
      `pruned` oldest; `pending` are the messages cached but not yet broadcast.
      `start` records from which number on the subscriber is owed a sender's
      messages: the one after its migration state, or the first one routed to it
      if that is smaller or there is no such state. */
  datatype World = World(
    history: seq<Msg>,
    pruned: nat,
    pending: map<ParticipantID, Msg>,
    listed: bool,
    sub: Sub,
    start: map<ParticipantID, uint32>
  )

  datatype Step =
    | Cache(m: Msg)
    | Broadcast(sender: ParticipantID)
    | Migrate(states: seq<ReceiveState>)
    | List
    | ReplayCached
    | Prune(upTo: nat)

  function Init(sid: ParticipantID, identity: Identity): World {
    World([], 0, map[], false, Sub(sid, identity, map[], map[], false, []), map[])
  }

  /** Whether a broadcast picks the subscriber as a destination. */
  predicate Routed(s: Sub, m: Msg) {
    m.sender != s.sid && Addressed(s, m)
  }

  /** A joining subscriber with first numbers `first` may still need h from the cache. */
  predicate Needed(first: map<ParticipantID, uint32>, pending: map<ParticipantID, Msg>, h: Msg) {
    From(first, h) || (h.sender in pending && pending[h.sender] == h)
  }

  /** The cache keeps what a subscriber that is still joining may need. */
  predicate Retained(w: World, first: map<ParticipantID, uint32>, upTo: nat) {
    w.sub.canWrite || forall i :: 0 <= i < upTo && i < |w.history| ==> !Needed(first, w.pending, w.history[i])
  }

  /** A publisher caches one numbered message at a time, with increasing numbers. */
  predicate CanCache(w: World, m: Msg) {
    && Numbered(m) && m.sender !in w.pending
    && forall i :: 0 <= i < |w.history| && w.history[i].sender == m.sender ==> w.history[i].seqNo < m.seqNo
  }

  function AfterCache(w: World, m: Msg): World {
    w.(history := w.history + [m], pending := w.pending[m.sender := m])
  }

  function AfterBroadcast(w: World, sender: ParticipantID): World
    requires sender in w.pending
  {
    var m, rest := w.pending[sender], w.pending - {sender};
    if w.listed && Routed(w.sub, m) && Numbered(m) then
      w.(pending := rest, sub := Send(w.sub, m),
         start := if m.sender in w.start && (w.start[m.sender] <= m.seqNo || !w.sub.canWrite)
                  then w.start else w.start[m.sender := m.seqNo])
    else w.(pending := rest)
  }

  predicate CanReplay(w: World) {
    w.listed && w.pruned <= |w.history|
  }

  function AfterReplay(w: World): World
    requires CanReplay(w)
  {
    w.(sub := Replay(w.sub, w.history[w.pruned..]))
  }

  predicate Enabled(w: World, step: Step) {
    match step
    case Cache(m) => CanCache(w, m)
    case Broadcast(sender) => sender in w.pending
    case Migrate(states) =>
      var first := FirstAfter(w.sub.first, states);
      !w.listed && !w.sub.canWrite && w.sub.sid !in first && Retained(w, first, w.pruned)
    case List => true
    case ReplayCached => CanReplay(w)
    case Prune(upTo) => w.pruned <= upTo <= |w.history| && Retained(w, w.sub.first, upTo)
  }

  function Next(w: World, step: Step): World
    requires Enabled(w, step)
  {
    match step
    case Cache(m) => AfterCache(w, m)
    case Broadcast(sender) => AfterBroadcast(w, sender)
    case Migrate(states) =>
      var first := FirstAfter(w.sub.first, states);
      w.(sub := w.sub.(first := first), start := first)
    case List => w.(listed := true)
    case ReplayCached => AfterReplay(w)
    case Prune(upTo) => w.(pruned := upTo)
  }

  predicate IsRun(w: World, steps: seq<Step>)
    decreases |steps|
  {
    steps == [] || (Enabled(w, steps[0]) && IsRun(Next(w, steps[0]), steps[1..]))
  }

  function Run(w: World, steps: seq<Step>): World
    requires IsRun(w, steps)
    decreases |steps|
  {
    if steps == [] then w else Run(Next(w, steps[0]), steps[1..])
  }

  // ---- filters ----

  lemma {:induction false} FilterJoins(p: Msg -> bool, a: seq<Msg>, b: seq<Msg>)
    ensures Filter(p, a + b) == Filter(p, a) + Filter(p, b)
    decreases |b|
  {
    if b == [] {
      assert a + b == a;
    } else {
      var n := |b| - 1;
      assert (a + b)[..|a| + n] == a + b[..n];
      FilterJoins(p, a, b[..n]);
    }
  }

  lemma {:induction false} FilterSame(p: Msg -> bool, q: Msg -> bool, s: seq<Msg>)
    requires forall i :: 0 <= i < |s| ==> p(s[i]) == q(s[i])
    ensures Filter(p, s) == Filter(q, s)
    decreases |s|
  {
    if s != [] {
      FilterSame(p, q, s[..|s|-1]);
    }
  }

  lemma {:induction false} FilterTwice(p: Msg -> bool, q: Msg -> bool, both: Msg -> bool, s: seq<Msg>)
    requires forall m :: both(m) == (q(m) && p(m))
    ensures Filter(p, Filter(q, s)) == Filter(both, s)
    decreases |s|
  {
    if s != [] {
      var n := |s| - 1;
      FilterTwice(p, q, both, s[..n]);
      assert s[..n+1] == s;
      FilterExtends(q, s, n);
      FilterExtends(both, s, n);
      FilterJoins(p, Filter(q, s[..n]), [s[n]]);
      FilterOne(p, s[n]);
    }
  }

  lemma FilterOne(p: Msg -> bool, m: Msg)
    ensures Filter(p, [m]) == if p(m) then [m] else []
  {
    assert [m][..0] == [];
    assert Filter(p, []) == [];
  }

  lemma {:induction false} FilterNone(p: Msg -> bool, s: seq<Msg>)
    requires forall i :: 0 <= i < |s| ==> !p(s[i])
    ensures Filter(p, s) == []
    decreases |s|
  {
    if s != [] {
      FilterNone(p, s[..|s|-1]);
    }
  }

  lemma {:induction false} FilterMembers(p: Msg -> bool, s: seq<Msg>)
    ensures forall m :: m in Filter(p, s) <==> m in s && p(m)
    decreases |s|
  {
    if s != [] {
      var n := |s| - 1;
      FilterMembers(p, s[..n]);
      assert s == s[..n] + [s[n]];
    }
  }

  /** A filtered part of a history whose members increase, increases. */
  lemma {:induction false} FilterIncreases(p: Msg -> bool, s: seq<Msg>)
    requires forall i, j :: 0 <= i < j < |s| && p(s[i]) && p(s[j]) ==> s[i].seqNo < s[j].seqNo
    ensures forall i, j :: 0 <= i < j < |Filter(p, s)| ==> Filter(p, s)[i].seqNo < Filter(p, s)[j].seqNo
    decreases |s|
  {
    if s != [] {
      var n := |s| - 1;
      FilterIncreases(p, s[..n]);
      FilterMembers(p, s[..n]);
      if p(s[n]) {
        var f := Filter(p, s[..n]);
        forall i | 0 <= i < |f| ensures f[i].seqNo < s[n].seqNo {
          assert f[i] in s[..n];
        }
      }
    }
  }

  lemma {:induction false} LastOfIs(last: map<ParticipantID, uint32>, ms: seq<Msg>, s: ParticipantID)
    ensures s in LastOf(last, ms) <==> s in last || exists i :: 0 <= i < |ms| && ms[i].sender == s
    ensures forall i :: 0 <= i < |ms| && ms[i].sender == s ==> s in LastOf(last, ms) && ms[i].seqNo <= LastOf(last, ms)[s]
    ensures s in LastOf(last, ms) ==>
              || (s in last && last[s] == LastOf(last, ms)[s])
              || exists i :: 0 <= i < |ms| && ms[i].sender == s && ms[i].seqNo == LastOf(last, ms)[s]
    decreases |ms|
  {
    if ms != [] {
      var n := |ms| - 1;
      LastOfIs(last, ms[..n], s);
      assert forall i :: 0 <= i < n ==> ms[..n][i] == ms[i];
    }
  }

  // ---- the invariant ----

  /** m has been cached but has reached the subscriber neither by replay nor by broadcast. */
  predicate Outstanding(w: World, m: Msg) {
    && m.sender in w.pending && w.pending[m.sender] == m
    && !(m.sender in w.sub.last && m.seqNo <= w.sub.last[m.sender])
  }

  /** The subscriber is owed m by s: m is routed to it, and numbered from start[s] on. */
  predicate IsOwed(w: World, s: ParticipantID, m: Msg) {
    m.sender == s && Routed(w.sub, m) && s in w.start && m.seqNo >= w.start[s]
  }

  ghost function Owed(w: World, s: ParticipantID): (p: Msg -> bool)
    ensures forall m :: p(m) <==> IsOwed(w, s, m)
  {
    (m: Msg) => IsOwed(w, s, m)
  }

  predicate HasArrived(w: World, s: ParticipantID, m: Msg) {
    IsOwed(w, s, m) && !Outstanding(w, m)
  }

  ghost function Arrived(w: World, s: ParticipantID): (p: Msg -> bool)
    ensures forall m :: p(m) <==> HasArrived(w, s, m)
  {
    (m: Msg) => HasArrived(w, s, m)
  }

  ghost function WrittenFrom(w: World, s: ParticipantID): seq<Msg> {
    Filter((m: Msg) => m.sender == s, w.sub.written)
  }

  ghost predicate Ordered(history: seq<Msg>) {
    && (forall i :: 0 <= i < |history| ==> Numbered(history[i]))
    && (forall i, j :: 0 <= i < j < |history| && history[i].sender == history[j].sender ==> history[i].seqNo < history[j].seqNo)
  }

  ghost predicate Newest(history: seq<Msg>, m: Msg) {
    m in history && forall i :: 0 <= i < |history| && history[i].sender == m.sender ==> history[i].seqNo <= m.seqNo
  }

  /** What the subscriber has been sent of s is what has arrived, in order. */
  ghost predicate Delivered(w: World, s: ParticipantID) {
    WrittenFrom(w, s) == Filter(Arrived(w, s), w.history)
  }

  ghost predicate HistoryOk(w: World) {
    && w.pruned <= |w.history|
    && Ordered(w.history)
    && (forall s :: s in w.pending ==> w.pending[s].sender == s && Newest(w.history, w.pending[s]))
    && Retained(w, w.sub.first, w.pruned)
  }

  ghost predicate JoiningOk(w: World) {
    !w.sub.canWrite ==> w.sub.written == [] && w.sub.last == map[] && w.sub.first == w.start
  }

  ghost predicate LastInHistory(w: World) {
    forall s :: s in w.sub.last ==>
      && s in w.start && w.start[s] <= w.sub.last[s]
      && InHistory(w.history, s, w.sub.last[s])
  }

  ghost predicate InHistory(history: seq<Msg>, s: ParticipantID, seqNo: uint32) {
    exists i :: 0 <= i < |history| && history[i].sender == s && history[i].seqNo == seqNo
  }

  ghost predicate LiveOk(w: World) {
    && (w.sub.canWrite ==> w.sub.first == map[] && w.listed)
    && w.sub.sid !in w.start
    && LastInHistory(w)
    && (w.sub.canWrite ==> forall s :: Delivered(w, s))
  }

  ghost predicate Inv(w: World) {
    HistoryOk(w) && JoiningOk(w) && LiveOk(w)
  }

  lemma CacheKeepsHistory(w: World, m: Msg)
    requires HistoryOk(w) && CanCache(w, m)
    ensures HistoryOk(AfterCache(w, m))
  {
    var w' := AfterCache(w, m);
    assert w'.history[|w.history|] == m;
    forall s | s in w'.pending ensures w'.pending[s].sender == s && Newest(w'.history, w'.pending[s]) {
      assert s != m.sender ==> Newest(w.history, w.pending[s]);
    }
    forall i | 0 <= i < w.pruned ensures Needed(w.sub.first, w'.pending, w.history[i]) ==> Needed(w.sub.first, w.pending, w.history[i]) {
      assert w.history[i].sender == m.sender ==> w.history[i].seqNo < m.seqNo;
    }
  }

  /** A message just cached has not arrived, and changes nothing about older ones. */
  lemma CachePoint(w: World, m: Msg, s: ParticipantID)
    requires HistoryOk(w) && LastInHistory(w) && CanCache(w, m)
    ensures var w' := AfterCache(w, m);
            && !HasArrived(w', s, m)
            && forall i :: 0 <= i < |w.history| ==> HasArrived(w', s, w.history[i]) == HasArrived(w, s, w.history[i])
  {
    var w' := AfterCache(w, m);
    if m.sender in w.sub.last {
      assert w.sub.last[m.sender] < m.seqNo;
    }
    forall i | 0 <= i < |w.history| ensures HasArrived(w', s, w.history[i]) == HasArrived(w, s, w.history[i]) {
      assert w.history[i].sender == m.sender ==> w.history[i].seqNo < m.seqNo;
    }
  }

  lemma CacheDelivers(w: World, m: Msg, s: ParticipantID)
    requires HistoryOk(w) && LastInHistory(w) && Delivered(w, s) && CanCache(w, m)
    ensures Delivered(AfterCache(w, m), s)
  {
    var w' := AfterCache(w, m);
    CachePoint(w, m, s);
    FilterSame(Arrived(w, s), Arrived(w', s), w.history);
    FilterJoins(Arrived(w', s), w.history, [m]);
    FilterOne(Arrived(w', s), m);
  }

  lemma CacheKeepsInv(w: World, m: Msg)
    requires Inv(w) && CanCache(w, m)
    ensures Inv(AfterCache(w, m))
  {
    CacheKeepsHistory(w, m);
    var w' := AfterCache(w, m);
    forall s | s in w'.sub.last
      ensures InHistory(w'.history, s, w'.sub.last[s])
    {
      assert InHistory(w.history, s, w.sub.last[s]);
      var i :| 0 <= i < |w.history| && w.history[i].sender == s && w.history[i].seqNo == w.sub.last[s];
      assert w'.history[i] == w.history[i];
    }
    if w.sub.canWrite {
      forall s ensures Delivered(w', s) {
        CacheDelivers(w, m, s);
      }
    }
  }

  /** A pending message is the newest cached one of its sender. */
  lemma PendingIsNewest(w: World, s: ParticipantID) returns (k: nat)
    requires HistoryOk(w) && s in w.pending
    ensures k < |w.history| && w.history[k] == w.pending[s] && w.pending[s].sender == s && Numbered(w.pending[s])
    ensures forall i :: 0 <= i < k && w.history[i].sender == s ==> w.history[i].seqNo < w.pending[s].seqNo
    ensures forall i :: k < i < |w.history| ==> w.history[i].sender != s
  {
    assert Newest(w.history, w.pending[s]);
    k :| 0 <= k < |w.history| && w.history[k] == w.pending[s];
  }

  lemma BroadcastKeepsHistory(w: World, s: ParticipantID)
    requires HistoryOk(w) && s in w.pending
    ensures HistoryOk(AfterBroadcast(w, s))
  {
    var w', m := AfterBroadcast(w, s), w.pending[s];
    var k := PendingIsNewest(w, s);
    if !w.sub.canWrite {
      forall i | 0 <= i < w.pruned ensures !Needed(w'.sub.first, w'.pending, w.history[i]) {
        assert !Needed(w.sub.first, w.pending, w.history[i]) && i != k;
      }
    }
  }

  lemma BroadcastKeepsLast(w: World, s: ParticipantID)
    requires LastInHistory(w) && s in w.pending && w.pending[s].sender == s
    ensures LastInHistory(AfterBroadcast(w, s))
  {
    var w' := AfterBroadcast(w, s);
    forall t | t in w'.sub.last
      ensures t in w'.start && w'.start[t] <= w'.sub.last[t] && InHistory(w'.history, t, w'.sub.last[t])
    {
      assert t in w.sub.last && w'.sub.last[t] == w.sub.last[t] && w'.history == w.history;
    }
  }

  lemma BroadcastKeepsDelivered(w: World, s: ParticipantID)
    requires HistoryOk(w) && LastInHistory(w) && s in w.pending && w.sub.canWrite && w.listed
    requires forall t :: Delivered(w, t)
    ensures forall t :: Delivered(AfterBroadcast(w, s), t)
  {
    forall t ensures Delivered(AfterBroadcast(w, s), t) {
      BroadcastDelivers(w, s, t);
    }
  }

  lemma BroadcastKeepsInv(w: World, s: ParticipantID)
    requires Inv(w) && s in w.pending
    ensures Inv(AfterBroadcast(w, s))
  {
    BroadcastKeepsHistory(w, s);
    BroadcastKeepsLast(w, s);
    if w.sub.canWrite {
      BroadcastKeepsDelivered(w, s);
    }
  }

  /** The last step for one message: written by its broadcast, or skipped because
      the replay wrote it. */
  lemma BroadcastWritten(w: World, s: ParticipantID)
    requires w.listed && w.sub.canWrite && s in w.pending
    requires w.pending[s].sender == s && Numbered(w.pending[s])
    ensures AfterBroadcast(w, s).sub.written
         == if Routed(w.sub, w.pending[s]) && Outstanding(w, w.pending[s]) then w.sub.written + [w.pending[s]] else w.sub.written
  {
  }

  lemma BroadcastDelivers(w: World, s: ParticipantID, t: ParticipantID)
    requires HistoryOk(w) && LastInHistory(w) && Delivered(w, t) && s in w.pending && w.sub.canWrite && w.listed
    ensures Delivered(AfterBroadcast(w, s), t)
  {
    var w', m := AfterBroadcast(w, s), w.pending[s];
    var k := PendingIsNewest(w, s);
    BroadcastWritten(w, s);
    var mine := (x: Msg) => x.sender == t;
    FilterJoins(mine, w.sub.written, [m]);
    FilterOne(mine, m);
    if s == t && Routed(w.sub, m) && Outstanding(w, m) {
      BroadcastWrites(w, s, k);
    } else {
      assert WrittenFrom(w', t) == WrittenFrom(w, t);
      assert s in w.sub.last ==> w.sub.last[s] <= m.seqNo;
      BroadcastPoint(w, s, t);
      FilterSame(Arrived(w, t), Arrived(w', t), w.history);
    }
  }

  lemma BroadcastPoint(w: World, s: ParticipantID, t: ParticipantID)
    requires w.listed && w.sub.canWrite && s in w.pending
    requires w.pending[s].sender == s && Numbered(w.pending[s])
    requires s in w.sub.last ==> s in w.start && w.start[s] <= w.sub.last[s] <= w.pending[s].seqNo
    requires s != t || !Routed(w.sub, w.pending[s]) || !Outstanding(w, w.pending[s])
    ensures forall h :: HasArrived(AfterBroadcast(w, s), t, h) == HasArrived(w, t, h)
  {
    var w', m := AfterBroadcast(w, s), w.pending[s];
    forall h ensures HasArrived(w', t, h) == HasArrived(w, t, h) {
      if s == t && Routed(w.sub, m) {
        assert w'.sub == w.sub && w'.start == w.start;
      }
    }
  }

  lemma BroadcastWrites(w: World, s: ParticipantID, k: nat)
    requires s in w.pending && w.sub.canWrite && w.listed && k < |w.history| && Numbered(w.pending[s]) && w.pending[s].sender == s
    requires w.history[k] == w.pending[s] && Routed(w.sub, w.pending[s]) && Outstanding(w, w.pending[s])
    requires forall i :: 0 <= i < k && w.history[i].sender == s ==> w.history[i].seqNo < w.pending[s].seqNo
    requires forall i :: k < i < |w.history| ==> w.history[i].sender != s
    ensures var w' := AfterBroadcast(w, s);
            Filter(Arrived(w', s), w'.history) == Filter(Arrived(w, s), w.history) + [w.pending[s]]
  {
    var w', m := AfterBroadcast(w, s), w.pending[s];
    var before, after := Arrived(w, s), Arrived(w', s);
    forall i | 0 <= i < k ensures before(w.history[i]) == after(w.history[i]) {
      var h := w.history[i];
      assert h.sender == s ==> h.seqNo < m.seqNo;
    }
    assert !before(m) && after(m);
    FilterGains(before, after, w.history, k);
  }

  /** Two filters that differ only on one message, the last they may let through. */
  lemma {:induction false} FilterGains(p: Msg -> bool, q: Msg -> bool, s: seq<Msg>, k: nat)
    requires k < |s| && !p(s[k]) && q(s[k])
    requires forall i :: 0 <= i < k ==> p(s[i]) == q(s[i])
    requires forall i :: k < i < |s| ==> !p(s[i]) && !q(s[i])
    ensures Filter(q, s) == Filter(p, s) + [s[k]]
    decreases |s|
  {
    var n := |s| - 1;
    if k == n {
      FilterSame(p, q, s[..n]);
    } else {
      FilterGains(p, q, s[..n], k);
    }
  }

  /** Nothing is lost by filtering only from k on, if nothing before k passes. */
  lemma {:induction false} FilterFrom(p: Msg -> bool, s: seq<Msg>, k: nat)
    requires k <= |s| && forall i :: 0 <= i < k ==> !p(s[i])
    ensures Filter(p, s[k..]) == Filter(p, s)
    decreases |s|
  {
    if k == |s| {
      FilterNone(p, s);
    } else {
      var n := |s| - 1;
      assert s[k..][..n - k] == s[..n][k..];
      FilterFrom(p, s[..n], k);
    }
  }

  /** What a replay sends of one sender: what it may need that is addressed to it. */
  ghost function ReplayedOf(sub: Sub, s: ParticipantID): (p: Msg -> bool)
    ensures forall m :: p(m) <==> From(sub.first, m) && Addressed(sub, m) && m.sender == s
  {
    (m: Msg) => From(sub.first, m) && Addressed(sub, m) && m.sender == s
  }

  lemma ReplayedFromCache(sub: Sub, cache: seq<Msg>, s: ParticipantID)
    ensures Filter((m: Msg) => m.sender == s, Replayed(sub, cache)) == Filter(ReplayedOf(sub, s), cache)
  {
    var mine := (m: Msg) => m.sender == s;
    var both := (m: Msg) => From(sub.first, m) && Addressed(sub, m);
    FilterTwice(AddressedTo(sub.identity), FromOn(sub.first), both, cache);
    FilterTwice(mine, both, ReplayedOf(sub, s), cache);
  }

  /** The same, read off the whole history. */
  lemma ReplayedFrom(sub: Sub, history: seq<Msg>, pruned: nat, s: ParticipantID)
    requires pruned <= |history| && forall i :: 0 <= i < pruned ==> !From(sub.first, history[i])
    ensures Filter((m: Msg) => m.sender == s, Replayed(sub, history[pruned..])) == Filter(ReplayedOf(sub, s), history)
  {
    ReplayedFromCache(sub, history[pruned..], s);
    FilterFrom(ReplayedOf(sub, s), history, pruned);
  }

  lemma ReplayedMembers(sub: Sub, cache: seq<Msg>)
    ensures forall m :: m in Replayed(sub, cache) <==> m in cache && From(sub.first, m) && Addressed(sub, m)
  {
    FilterMembers(FromOn(sub.first), cache);
    FilterMembers(AddressedTo(sub.identity), Filter(FromOn(sub.first), cache));
  }

  lemma ReplayDelivers(w: World, s: ParticipantID)
    requires Inv(w) && CanReplay(w) && !w.sub.canWrite
    ensures Delivered(AfterReplay(w), s)
  {
    var w' := AfterReplay(w);
    assert w'.sub.written == Replayed(w.sub, w.history[w.pruned..]);
    ReplayedFrom(w.sub, w.history, w.pruned, s);
    ReplayPoint(w, s);
    FilterSame(ReplayedOf(w.sub, s), Arrived(w', s), w.history);
  }

  lemma ReplayPoint(w: World, s: ParticipantID)
    requires Inv(w) && CanReplay(w) && !w.sub.canWrite
    ensures forall i :: 0 <= i < |w.history| ==>
              HasArrived(AfterReplay(w), s, w.history[i])
              == (From(w.sub.first, w.history[i]) && Addressed(w.sub, w.history[i]) && w.history[i].sender == s)
  {
    forall i | 0 <= i < |w.history|
      ensures HasArrived(AfterReplay(w), s, w.history[i])
              == (From(w.sub.first, w.history[i]) && Addressed(w.sub, w.history[i]) && w.history[i].sender == s)
    {
      ReplayReaches(w, w.history[i]);
    }
  }

  /** After the replay, whatever a joining subscriber was owed is not outstanding. */
  lemma ReplayReaches(w: World, h: Msg)
    requires HistoryOk(w) && CanReplay(w) && !w.sub.canWrite && h in w.history
    ensures From(w.sub.first, h) && Addressed(w.sub, h) ==> !Outstanding(AfterReplay(w), h)
  {
    var cache := w.history[w.pruned..];
    if From(w.sub.first, h) && Addressed(w.sub, h) {
      var i :| 0 <= i < |w.history| && w.history[i] == h;
      assert !(i < w.pruned);
      assert cache[i - w.pruned] == h;
      ReplayedMembers(w.sub, cache);
      LastOfIs(w.sub.last, Replayed(w.sub, cache), h.sender);
    }
  }

  lemma ReplayKeepsLast(w: World)
    requires HistoryOk(w) && JoiningOk(w) && CanReplay(w) && !w.sub.canWrite
    ensures LastInHistory(AfterReplay(w))
  {
    var w', cache := AfterReplay(w), w.history[w.pruned..];
    var sent := Replayed(w.sub, cache);
    ReplayedMembers(w.sub, cache);
    forall s | s in w'.sub.last
      ensures s in w'.start && w'.start[s] <= w'.sub.last[s] && InHistory(w'.history, s, w'.sub.last[s])
    {
      LastOfIs(w.sub.last, sent, s);
      var j :| 0 <= j < |sent| && sent[j].sender == s && sent[j].seqNo == w'.sub.last[s];
      assert sent[j] in sent;
      var i :| 0 <= i < |cache| && cache[i] == sent[j];
      assert w.history[w.pruned + i] == sent[j];
    }
  }

  lemma ReplayKeepsInv(w: World)
    requires Inv(w) && CanReplay(w)
    ensures Inv(AfterReplay(w))
  {
    var w' := AfterReplay(w);
    if w.sub.canWrite {
      FilterNone(FromOn(w.sub.first), w.history[w.pruned..]);
      assert w'.sub.written == w.sub.written;
      assert w' == w;
    } else {
      ReplayKeepsLast(w);
      forall s ensures Delivered(w', s) {
        ReplayDelivers(w, s);
      }
    }
  }

  lemma NextKeepsInv(w: World, step: Step)
    requires Inv(w) && Enabled(w, step)
    ensures Inv(Next(w, step))
  {
    match step
    case Cache(m) => CacheKeepsInv(w, m);
    case Broadcast(sender) => BroadcastKeepsInv(w, sender);
    case Migrate(states) =>
    case List => SameArrived(w, Next(w, step));
    case ReplayCached => ReplayKeepsInv(w);
    case Prune(upTo) => SameArrived(w, Next(w, step));
  }

  lemma SameArrived(w: World, w': World)
    requires w'.pending == w.pending && w'.sub == w.sub && w'.start == w.start && w'.history == w.history
    ensures forall s :: Delivered(w', s) == Delivered(w, s)
  {
    forall s ensures Delivered(w', s) == Delivered(w, s) {
      FilterSame(Arrived(w', s), Arrived(w, s), w.history);
    }
  }

  lemma {:induction false} RunKeepsInv(w: World, steps: seq<Step>)
    requires Inv(w) && IsRun(w, steps)
    ensures Inv(Run(w, steps))
    decreases |steps|
  {
    if steps != [] {
      NextKeepsInv(w, steps[0]);
      RunKeepsInv(Next(w, steps[0]), steps[1..]);
    }
  }

  // ---- what every run guarantees ----

  /** A live subscriber has been sent, of every sender, exactly the routed messages
      from start[s] on: each once, in order of their numbers, whatever the
      interleaving.  Only the message being broadcast may still be missing. */
  lemma HandoverIsExactlyOnce(sid: ParticipantID, identity: Identity, steps: seq<Step>, s: ParticipantID)
    requires IsRun(Init(sid, identity), steps)
    requires Run(Init(sid, identity), steps).sub.canWrite
    ensures var w := Run(Init(sid, identity), steps);
            || WrittenFrom(w, s) == Filter(Owed(w, s), w.history)
            || (s in w.pending && WrittenFrom(w, s) == Filter((m: Msg) => IsOwed(w, s, m) && m != w.pending[s], w.history))
    ensures var got := WrittenFrom(Run(Init(sid, identity), steps), s);
            forall i, j :: 0 <= i < j < |got| ==> got[i].seqNo < got[j].seqNo
  {
    RunKeepsInv(Init(sid, identity), steps);
    var w := Run(Init(sid, identity), steps);
    assert Delivered(w, s);
    FilterIncreases(Arrived(w, s), w.history);
    if s in w.pending && Outstanding(w, w.pending[s]) {
      FilterSame(Arrived(w, s), (m: Msg) => IsOwed(w, s, m) && m != w.pending[s], w.history);
    } else {
      FilterSame(Arrived(w, s), Owed(w, s), w.history);
    }
  }

  /** A subscriber that is still joining has been sent no numbered message. */
  lemma NothingWrittenWhileJoining(sid: ParticipantID, identity: Identity, steps: seq<Step>)
    requires IsRun(Init(sid, identity), steps)
    ensures var w := Run(Init(sid, identity), steps); !w.sub.canWrite ==> w.sub.written == []
  {
    RunKeepsInv(Init(sid, identity), steps);
  }

  // ---- where a sender's owed messages start ----

  /** Some message of s routed to the subscriber carries this number. */
  ghost predicate WasRouted(w: World, s: ParticipantID, seqNo: uint32) {
    exists m :: m in w.history && m.sender == s && Routed(w.sub, m) && m.seqNo == seqNo
  }

  ghost predicate StartWasRouted(w: World) {
    forall s :: s in w.start ==> WasRouted(w, s, w.start[s])
  }

  /** Without a migration state, start[s] is the number of the first message of s
      whose broadcast picked the subscriber, and never moves. */
  lemma StartIsFirstRouted(w: World, step: Step, s: ParticipantID)
    requires Inv(w) && StartWasRouted(w) && Enabled(w, step) && !step.Migrate?
    ensures StartWasRouted(Next(w, step))
    ensures s in w.start ==> s in Next(w, step).start && Next(w, step).start[s] == w.start[s]
    ensures s !in w.start && s in Next(w, step).start ==>
              step == Broadcast(s) && w.listed && Routed(w.sub, w.pending[s]) && Next(w, step).start[s] == w.pending[s].seqNo
  {
    match step
    case Broadcast(sender) => BroadcastStart(w, sender);
    case Cache(m) => RoutedStays(w, Next(w, step));
    case ReplayCached => RoutedStays(w, Next(w, step));
    case List => RoutedStays(w, Next(w, step));
    case Prune(_) => RoutedStays(w, Next(w, step));
  }

  /** So over any run without a migration state it stays that number. */
  lemma {:induction false} RunKeepsStart(w: World, steps: seq<Step>)
    requires Inv(w) && StartWasRouted(w) && IsRun(w, steps) && forall i :: 0 <= i < |steps| ==> !steps[i].Migrate?
    ensures StartWasRouted(Run(w, steps))
    ensures forall s :: s in w.start ==> s in Run(w, steps).start && Run(w, steps).start[s] == w.start[s]
    decreases |steps|
  {
    if steps != [] {
      var next := Next(w, steps[0]);
      NextKeepsInv(w, steps[0]);
      forall s: ParticipantID
        ensures StartWasRouted(next)
        ensures s in w.start ==> s in next.start && next.start[s] == w.start[s]
      {
        StartIsFirstRouted(w, steps[0], s);
      }
      assert forall i :: 0 <= i < |steps[1..]| ==> steps[1..][i] == steps[i+1];
      RunKeepsStart(next, steps[1..]);
    }
  }

  lemma RoutedStays(w: World, w': World)
    requires w.history <= w'.history && w'.sub.sid == w.sub.sid && w'.sub.identity == w.sub.identity
    ensures forall s, n :: WasRouted(w, s, n) ==> WasRouted(w', s, n)
  {
    forall s, n | WasRouted(w, s, n) ensures WasRouted(w', s, n) {
      var m :| m in w.history && m.sender == s && Routed(w.sub, m) && m.seqNo == n;
      assert m in w'.history && Routed(w'.sub, m);
    }
  }

  lemma BroadcastStart(w: World, s: ParticipantID)
    requires HistoryOk(w) && StartWasRouted(w) && s in w.pending
    ensures var w' := AfterBroadcast(w, s);
            && w'.start == (if s in w.start || !w.listed || !Routed(w.sub, w.pending[s]) then w.start else w.start[s := w.pending[s].seqNo])
            && StartWasRouted(w')
  {
    var w', m := AfterBroadcast(w, s), w.pending[s];
    var k := PendingIsNewest(w, s);
    assert Newest(w.history, m);
    if s in w.start {
      assert WasRouted(w, s, w.start[s]);
      assert w.start[s] <= m.seqNo;
    }
    RoutedStays(w, w');
    assert Routed(w.sub, m) ==> WasRouted(w', s, m.seqNo) by {
      assert Routed(w'.sub, m) == Routed(w.sub, m);
    }
  }
}
