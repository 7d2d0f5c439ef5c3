/** Coalescing of participant updates in pkg/rtc/room.go: which of two sessions is the
    newer one, and what a push or a batch flush sends. */
module ParticipantUpdates {
  import opened Options

  datatype State = Joining | Joined | Active | Disconnected

  type Identity = nat

  /** A session of a participant; `sid` is numbered by its place in the order of strings. */
  datatype Info = Info(identity: Identity, sid: nat, joinedAt: int, joinedAtMs: int,
                       version: nat, state: State, isPublisher: bool)

  datatype Update = Update(info: Info, synthesized: bool, closeReason: nat)

  /** Negative when `a` is the older session. */
  function CompareParticipant(a: Info, b: Info): int {
    if a.joinedAt != b.joinedAt then (if a.joinedAt < b.joinedAt then -1 else 1)
    else if a.joinedAtMs != 0 && b.joinedAtMs != 0 && a.joinedAtMs != b.joinedAtMs then
      (if a.joinedAtMs < b.joinedAtMs then -1 else 1)
    else if a.sid != b.sid then (if a.sid < b.sid then -1 else 1)
    else 0
  }

  predicate Older(a: Info, b: Info) {
    CompareParticipant(a, b) < 0
  }

  type Cache = map<Identity, Update>

  function Push(cache: Cache, pi: Info, closeReason: nat, immediate: bool, current: Option<Info>): (Cache, seq<Update>) {
    var update := Update(pi, false, closeReason);
    var send := (cache - {pi.identity}, [update]);
    var keep := if immediate || pi.isPublisher then send else (cache[pi.identity := update], []);
    if pi.identity in cache then
      var existing := cache[pi.identity];
      if pi.sid == existing.info.sid then
        if pi.version < existing.info.version then (cache, []) else keep
      else if Older(existing.info, pi) then
        (send.0, [existing.(info := existing.info.(state := Disconnected), synthesized := true), update])
      else (cache, [])
    else if current.Some? && CompareParticipant(current.value, pi) > 0 then (cache, [])
    else keep
  }

  class Room {
    var batchedUpdates: Cache

    constructor ()
      ensures batchedUpdates == map[]
    {
      batchedUpdates := map[];
    }

    method PushAndDequeueUpdates(pi: Info, closeReason: nat, immediate: bool, current: Option<Info>)
      returns (updates: seq<Update>)
      modifies this
      ensures (batchedUpdates, updates) == Push(old(batchedUpdates), pi, closeReason, immediate, current)
    {
      updates := [];
      var shouldSend := immediate || pi.isPublisher;
      if pi.identity in batchedUpdates {
        var existing := batchedUpdates[pi.identity];
        if pi.sid == existing.info.sid {
          if pi.version < existing.info.version {
            return [];
          }
        } else {
          if CompareParticipant(existing.info, pi) < 0 {
            shouldSend := true;
            existing := existing.(info := existing.info.(state := Disconnected), synthesized := true);
            updates := updates + [existing];
            assert updates == [existing];
          } else {
            return [];
          }
        }
      } else if current.Some? {
        if CompareParticipant(current.value, pi) > 0 {
          return [];
        }
      }
      if shouldSend {
        batchedUpdates := batchedUpdates - {pi.identity};
        assert updates + [Update(pi, false, closeReason)]
            == if updates == [] then [Update(pi, false, closeReason)] else [updates[0], Update(pi, false, closeReason)];
        updates := updates + [Update(pi, false, closeReason)];
      } else {
        batchedUpdates := batchedUpdates[pi.identity := Update(pi, false, closeReason)];
      }
    }

    /** The batch tick of changeUpdateWorker; its updates are sent in any order. */
    method Flush() returns (updates: Cache)
      modifies this
      ensures updates == old(batchedUpdates) && batchedUpdates == map[]
    {
      updates := batchedUpdates;
      batchedUpdates := map[];
    }
  }

  // ---- the order of sessions ----

  lemma CompareAntisymmetric(a: Info, b: Info)
    ensures CompareParticipant(a, b) == -CompareParticipant(b, a)
    ensures a.sid != b.sid ==> Older(a, b) || Older(b, a)
  {
  }

  /** The session that joined later is the newer one: by the second, within it by the
      millisecond if both have one, and else by sid. */
  lemma LaterJoinIsNewer(a: Info, b: Info)
    ensures a.joinedAt < b.joinedAt ==> Older(a, b)
    ensures a.joinedAt == b.joinedAt && a.joinedAtMs != 0 && b.joinedAtMs != 0 && a.joinedAtMs < b.joinedAtMs ==> Older(a, b)
    ensures a.joinedAt == b.joinedAt && (a.joinedAtMs == 0 || b.joinedAtMs == 0 || a.joinedAtMs == b.joinedAtMs) && a.sid < b.sid ==> Older(a, b)
  {
  }

  predicate Timed(a: Info) {
    a.joinedAtMs != 0
  }

  /** With every JoinedAtMs set it is a strict total order on sessions. */
  lemma OlderIsStrictOrder(a: Info, b: Info, c: Info)
    requires Timed(a) && Timed(b) && Timed(c)
    ensures Older(a, b) && Older(b, c) ==> Older(a, c)
    ensures !Older(b, a) && !Older(c, b) ==> !Older(c, a)
    ensures Older(a, b) || Older(b, a) || (a.joinedAt, a.joinedAtMs, a.sid) == (b.joinedAt, b.joinedAtMs, b.sid)
  {
  }

  /** x joined before y by the millisecond, z has no millisecond and falls between them by sid. */
  predicate Straddles(x: Info, y: Info, z: Info) {
    && x.joinedAt == y.joinedAt == z.joinedAt
    && Timed(x) && Timed(y) && !Timed(z)
    && x.joinedAtMs < y.joinedAtMs && y.sid < z.sid < x.sid
  }

  /** With some JoinedAtMs missing three sessions form a cycle exactly when the one
      without falls by sid between two joined in the opposite order. */
  lemma CyclesExactlyWhenStraddling(a: Info, b: Info, c: Info)
    ensures Older(a, b) && Older(b, c) && Older(c, a) <==> Straddles(a, b, c) || Straddles(b, c, a) || Straddles(c, a, b)
  {
  }

  lemma CycleExists()
    ensures var x, y, z := Info(1, 3, 7, 10, 0, Active, false), Info(1, 1, 7, 20, 0, Active, false), Info(1, 2, 7, 0, 0, Active, false);
      Older(x, y) && Older(y, z) && Older(z, x)
  {
  }

  // ---- what one identity's subscribers see over a run ----

  datatype Event = Pushes(pi: Info, closeReason: nat, immediate: bool, current: Option<Info>) | Flushes

  function Next(cache: Cache, e: Event): Cache {
    match e
    case Pushes(pi, closeReason, immediate, current) => Push(cache, pi, closeReason, immediate, current).0
    case Flushes => map[]
  }

  /** What an event sends about identity i. */
  function Sends(cache: Cache, e: Event, i: Identity): seq<Update> {
    match e
    case Pushes(pi, closeReason, immediate, current) =>
      if pi.identity == i then Push(cache, pi, closeReason, immediate, current).1 else []
    case Flushes => if i in cache then [cache[i]] else []
  }

  function Run(es: seq<Event>): Cache
    decreases |es|
  {
    if es == [] then map[] else Next(Run(es[..|es|-1]), es[|es|-1])
  }

  function Sent(es: seq<Event>, i: Identity): seq<Update>
    decreases |es|
  {
    if es == [] then []
    else Sent(es[..|es|-1], i) + Sends(Run(es[..|es|-1]), es[|es|-1], i)
  }

  /** An update that comes too late: behind the cached one of its session, or of an older
      session than the cached one or, with none cached, than the participant in the room. */
  predicate Outdated(cache: Cache, pi: Info, current: Option<Info>) {
    if pi.identity in cache then
      var cached := cache[pi.identity].info;
      if cached.sid == pi.sid then pi.version < cached.version else !Older(cached, pi)
    else current.Some? && Older(pi, current.value)
  }

  predicate Takes(cache: Cache, e: Event, i: Identity) {
    e.Pushes? && e.pi.identity == i && !Outdated(cache, e.pi, e.current)
  }

  /** The updates about i that were not outdated, in order. */
  function Accepted(es: seq<Event>, i: Identity): seq<Info>
    decreases |es|
  {
    if es == [] then []
    else Accepted(es[..|es|-1], i) + if Takes(Run(es[..|es|-1]), es[|es|-1], i) then [es[|es|-1].pi] else []
  }

  /** The accepted updates about i since the last one that was sent. */
  function Waiting(es: seq<Event>, i: Identity): seq<Info>
    decreases |es|
  {
    if es == [] then []
    else
      var init, e := es[..|es|-1], es[|es|-1];
      if Sends(Run(init), e, i) != [] then []
      else Waiting(init, i) + if Takes(Run(init), e, i) then [e.pi] else []
  }

  /** Updates of one session, with versions that never decrease. */
  ghost predicate Coalesces(w: seq<Info>) {
    forall a, b :: 0 <= a < b < |w| ==> w[a].sid == w[b].sid && w[a].version <= w[b].version
  }

  ghost predicate Consistent(cache: Cache, w: seq<Info>, i: Identity) {
    && Coalesces(w)
    && (i in cache <==> w != [])
    && (i in cache ==> cache[i].info == w[|w|-1] && !cache[i].synthesized && cache[i].info.identity == i)
  }

  lemma OutdatedChangesNothing(cache: Cache, e: Event, i: Identity)
    requires e.Pushes? && !Takes(cache, e, i)
    ensures Sends(cache, e, i) == []
    ensures i in Next(cache, e) <==> i in cache
    ensures i in cache ==> Next(cache, e)[i] == cache[i]
  {
    CompareAntisymmetric(if e.current.Some? then e.current.value else e.pi, e.pi);
  }

  /** What an accepted update does. */
  lemma TakenIsSentOrCached(cache: Cache, e: Event, i: Identity)
    requires Takes(cache, e, i)
    ensures var update, after, sent := Update(e.pi, false, e.closeReason), Next(cache, e), Sends(cache, e, i);
      if sent == [] then
        && i in after && after[i] == update && (i in cache ==> cache[i].info.sid == e.pi.sid && cache[i].info.version <= e.pi.version)
      else i !in after && sent[|sent|-1] == update
  {
    CompareAntisymmetric(if e.current.Some? then e.current.value else e.pi, e.pi);
  }

  /** The cached update of an identity stands for all those waiting: they are of one
      session, their versions never decrease, and it is the last of them. */
  lemma {:induction false} CachedStandsForWaiting(es: seq<Event>, i: Identity)
    ensures Consistent(Run(es), Waiting(es, i), i)
    decreases |es|
  {
    if es != [] {
      var init, e := es[..|es|-1], es[|es|-1];
      var cache, w := Run(init), Waiting(init, i);
      CachedStandsForWaiting(init, i);
      if Takes(cache, e, i) {
        TakenIsSentOrCached(cache, e, i);
      } else if e.Pushes? {
        OutdatedChangesNothing(cache, e, i);
        assert w + [] == w;
      }
    }
  }

  /** In every run the latest accepted update of an identity is the one cached for it,
      or else the last one sent. */
  lemma {:induction false} LatestIsSentOrCached(es: seq<Event>, i: Identity)
    requires Accepted(es, i) != []
    ensures var latest := Accepted(es, i)[|Accepted(es, i)|-1];
      if i in Run(es) then Run(es)[i].info == latest
      else Sent(es, i) != [] && Sent(es, i)[|Sent(es, i)|-1].info == latest
    decreases |es|
  {
    var init, e := es[..|es|-1], es[|es|-1];
    var cache := Run(init);
    if Takes(cache, e, i) {
      TakenIsSentOrCached(cache, e, i);
    } else {
      LatestIsSentOrCached(init, i);
      if e.Pushes? {
        OutdatedChangesNothing(cache, e, i);
      }
    }
  }

  ghost predicate Tells(sent: seq<Update>, sid: nat) {
    exists m :: 0 <= m < |sent| && sent[m].info.sid == sid
  }

  ghost predicate Holds(cache: Cache, i: Identity, sid: nat) {
    i in cache && cache[i].info.sid == sid
  }

  lemma TellsConcat(a: seq<Update>, b: seq<Update>, sid: nat)
    ensures Tells(a, sid) || Tells(b, sid) ==> Tells(a + b, sid)
  {
    if m :| 0 <= m < |a| && a[m].info.sid == sid {
      assert (a + b)[m].info.sid == sid;
    } else if m :| 0 <= m < |b| && b[m].info.sid == sid {
      assert (a + b)[|a| + m].info.sid == sid;
    }
  }

  lemma CachedSessionStays(cache: Cache, e: Event, i: Identity, sid: nat)
    requires Holds(cache, i, sid)
    ensures Holds(Next(cache, e), i, sid) || Tells(Sends(cache, e, i), sid)
  {
    if Sends(cache, e, i) != [] {
      assert Sends(cache, e, i)[0].info.sid == sid;
    }
  }

  /** No accepted session vanishes: one of its updates is sent, or the cached one is. */
  lemma {:induction false} EverySessionIsTold(es: seq<Event>, i: Identity, k: nat)
    requires k < |Accepted(es, i)|
    ensures var sid := Accepted(es, i)[k].sid; Tells(Sent(es, i), sid) || Holds(Run(es), i, sid)
    decreases |es|
  {
    var init, e := es[..|es|-1], es[|es|-1];
    var cache, sent, sid := Run(init), Sends(Run(init), e, i), Accepted(es, i)[k].sid;
    TellsConcat(Sent(init, i), sent, sid);
    if k < |Accepted(init, i)| {
      EverySessionIsTold(init, i, k);
      if Holds(cache, i, sid) {
        CachedSessionStays(cache, e, i, sid);
      }
    } else {
      TakenIsSentOrCached(cache, e, i);
      if sent != [] {
        assert sent[|sent|-1].info.sid == sid;
      }
    }
  }

  /** A synthesized disconnect, right before the newer session that replaced it. */
  ghost predicate FollowedByNewer(sent: seq<Update>, k: nat)
    requires k < |sent|
  {
    sent[k].synthesized ==>
      && sent[k].info.state == Disconnected
      && k + 1 < |sent| && !sent[k+1].synthesized
      && Older(sent[k].info, sent[k+1].info) && sent[k].info.sid != sent[k+1].info.sid
  }

  /** Exactly what an accepted update sends: itself, if it is to go out at once; over a cached
      session that it replaces that one first, as disconnected and otherwise as it was. */
  lemma TakenSendsExactly(cache: Cache, e: Event, i: Identity)
    requires Takes(cache, e, i)
    ensures var update := Update(e.pi, false, e.closeReason);
      Sends(cache, e, i)
      == if i in cache && cache[i].info.sid != e.pi.sid then
           [Update(cache[i].info.(state := Disconnected), true, cache[i].closeReason), update]
         else if e.immediate || e.pi.isPublisher then [update] else []
  {
    CompareAntisymmetric(if e.current.Some? then e.current.value else e.pi, e.pi);
  }

  /** Over a cached session an update of one that joined later goes out with the news that the
      cached one has disconnected; one that joined earlier is dropped. */
  lemma LaterSessionReplaces(es: seq<Event>, e: Event)
    requires e.Pushes? && e.pi.identity in Run(es) && Run(es)[e.pi.identity].info.sid != e.pi.sid
    ensures var i, cached := e.pi.identity, Run(es)[e.pi.identity];
      && (cached.info.joinedAt < e.pi.joinedAt ==>
            Sends(Run(es), e, i) == [Update(cached.info.(state := Disconnected), true, cached.closeReason), Update(e.pi, false, e.closeReason)])
      && (cached.info.joinedAt > e.pi.joinedAt ==> Sends(Run(es), e, i) == [] && Next(Run(es), e) == Run(es))
  {
    var cached := Run(es)[e.pi.identity];
    LaterJoinIsNewer(cached.info, e.pi);
    LaterJoinIsNewer(e.pi, cached.info);
    CompareAntisymmetric(cached.info, e.pi);
    if cached.info.joinedAt < e.pi.joinedAt {
      TakenSendsExactly(Run(es), e, e.pi.identity);
    }
  }

  lemma SwitchSends(cache: Cache, e: Event, i: Identity)
    requires i in cache ==> !cache[i].synthesized
    ensures var sent := Sends(cache, e, i); forall k :: 0 <= k < |sent| ==> FollowedByNewer(sent, k)
  {
  }

  /** Disconnects are made up only for sessions replaced by a newer one, and are
      followed by it at once. */
  lemma {:induction false} DisconnectsPrecedeNewer(es: seq<Event>, i: Identity, k: nat)
    requires k < |Sent(es, i)|
    ensures FollowedByNewer(Sent(es, i), k)
    decreases |es|
  {
    var init, e := es[..|es|-1], es[|es|-1];
    var before, sent := Sent(init, i), Sends(Run(init), e, i);
    if k < |before| {
      DisconnectsPrecedeNewer(init, i, k);
    } else {
      CachedStandsForWaiting(init, i);
      SwitchSends(Run(init), e, i);
      assert FollowedByNewer(sent, k - |before|);
    }
  }

  // ---- sessions and versions across sends ----

  /** An update has its JoinedAtMs, the same in all updates of a session. */
  predicate Dated(latest: Info, pi: Info) {
    Timed(pi) && (latest.sid == pi.sid ==> latest.joinedAt == pi.joinedAt && latest.joinedAtMs == pi.joinedAtMs)
  }

  /** Every update is dated, and the participant in the room is never of an older session
      than an update accepted before. */
  ghost predicate Vouched(es: seq<Event>, i: Identity)
    decreases |es|
  {
    if es == [] then true
    else
      var init, e := es[..|es|-1], es[|es|-1];
      && Vouched(init, i)
      && (e.Pushes? && e.pi.identity == i ==>
            if Accepted(init, i) == [] then Timed(e.pi)
            else
              var latest := Accepted(init, i)[|Accepted(init, i)|-1];
              Dated(latest, e.pi) && e.current.Some? && Timed(e.current.value) && !Older(e.current.value, latest))
  }

  lemma {:induction false} AcceptedTimed(es: seq<Event>, i: Identity, k: nat)
    requires Vouched(es, i) && k < |Accepted(es, i)|
    ensures Timed(Accepted(es, i)[k])
    decreases |es|
  {
    if k < |Accepted(es[..|es|-1], i)| {
      AcceptedTimed(es[..|es|-1], i, k);
    }
  }

  lemma {:induction false} CachedIsLatest(es: seq<Event>, i: Identity)
    requires i in Run(es)
    ensures Accepted(es, i) != [] && Run(es)[i].info == Accepted(es, i)[|Accepted(es, i)|-1]
    decreases |es|
  {
    var init, e := es[..|es|-1], es[|es|-1];
    if Takes(Run(init), e, i) {
      TakenIsSentOrCached(Run(init), e, i);
    } else if e.Pushes? {
      OutdatedChangesNothing(Run(init), e, i);
      CachedIsLatest(init, i);
    }
  }

  /** Then the sessions accepted for an identity never go back. */
  lemma {:induction false} SessionsNeverGoBack(es: seq<Event>, i: Identity, a: nat, b: nat)
    requires Vouched(es, i) && a <= b < |Accepted(es, i)|
    ensures !Older(Accepted(es, i)[b], Accepted(es, i)[a])
    decreases |es|
  {
    var init, e := es[..|es|-1], es[|es|-1];
    var before := Accepted(init, i);
    if b < |before| {
      SessionsNeverGoBack(init, i, a, b);
    } else if a < |before| {
      SessionsNeverGoBack(init, i, a, |before| - 1);
      AcceptedTimed(es, i, a);
      AcceptedTimed(es, i, b);
      AcceptedTimed(es, i, |before| - 1);
      var last := before[|before|-1];
      if i in Run(init) {
        CachedIsLatest(init, i);
        CompareAntisymmetric(last, e.pi);
      } else {
        OlderIsStrictOrder(last, e.current.value, e.pi);
      }
      OlderIsStrictOrder(before[a], last, e.pi);
    }
  }

  /** Versions can go down across a flush. */
  lemma VersionsMayDropAcrossFlush()
    ensures var v5 := Info(1, 1, 7, 10, 5, Active, false);
      var es := [Pushes(v5, 0, false, Some(v5)), Flushes, Pushes(v5.(version := 3), 0, true, Some(v5))];
      |Sent(es, 1)| == 2 && Sent(es, 1)[0].info.version == 5 && Sent(es, 1)[1].info.version == 3
  {
    var v5 := Info(1, 1, 7, 10, 5, Active, false);
    var p := Pushes(v5, 0, false, Some(v5));
    var es := [p, Flushes, Pushes(v5.(version := 3), 0, true, Some(v5))];
    assert es[..2] == [p, Flushes] && [p, Flushes][..1] == [p] && [p][..0] == [];
    assert Run([p]) == map[1 := Update(v5, false, 0)];
    assert Sent([p], 1) == [];
    assert Run([p, Flushes]) == map[];
    assert Sent([p, Flushes], 1) == [Update(v5, false, 0)];
  }
}
