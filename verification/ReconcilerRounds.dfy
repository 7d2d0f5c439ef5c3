/** What the reconcile worker of SubscriptionManager does about one track, and that repeating
    it over all tracks settles everything. */
module ReconcilerRounds {
  import opened SubscriptionManager
  import opened SubscriptionRuns
  import opened SubscriptionConvergence

  // ---- one call, in any state ----

  /** The subscriber is asked to be dropped exactly for an undesired track that is held, and
      nothing else is done then. */
  lemma RemovesExactlyUndesiredHeld(m: Mgr, t: TrackID, open: bool, deferred: bool, expired: bool, env: Env)
    requires t in m.subs
    ensures var (m', a) := Reconcile(m, t, open, deferred, expired, env);
      && (a == RemoveSubscriber <==> open && !m.subs[t].desired && m.subs[t].held != NotHeld)
      && (a == RemoveSubscriber ==> m' == m)
  {
  }

  /** The desire is dropped exactly when an attempt does not find the track, and has not for
      too long; a subscription goes exactly when it is neither desired nor held. */
  lemma DropsExactlyExpired(m: Mgr, t: TrackID, open: bool, deferred: bool, expired: bool, env: Env)
    requires t in m.subs
    ensures var (m', a) := Reconcile(m, t, open, deferred, expired, env);
      && (t !in m'.subs <==> open && !m.subs[t].desired && m.subs[t].held == NotHeld)
      && (t in m'.subs && m'.subs[t].desired != m.subs[t].desired
          <==> open && !deferred && expired && m.subs[t].desired && m.subs[t].held == NotHeld && Misses(m, t, env))
  {
    AttachFacts(m, t, env);
    AttachMisses(m, t, env);
  }

  /** The participant may subscribe, there is room for a kind already known, and the track is
      not there. */
  predicate Misses(m: Mgr, t: TrackID, env: Env)
    requires t in m.subs
  {
    env.canSubscribe && (m.subs[t].kind.Known? ==> HasCapacity(m, m.subs[t].kind.kind)) && env.track.NotFound?
  }

  lemma AttachMisses(m: Mgr, t: TrackID, env: Env)
    requires t in m.subs
    ensures Attach(m, t, env).1 == TrackNotFound <==> Misses(m, t, env)
  {
  }

  /** A track comes to be held exactly when one is desired and not held, the participant may
      subscribe and has permission for it, there is room, and its publisher's track takes it. */
  lemma HoldsExactlyWhenAllowed(m: Mgr, t: TrackID, open: bool, deferred: bool, expired: bool, env: Env)
    requires t in m.subs && m.subs[t].held == NotHeld
    ensures var m' := Reconcile(m, t, open, deferred, expired, env).0;
      t in m'.subs && m'.subs[t].held != NotHeld
      <==> open && !deferred && m.subs[t].desired && Admits(m, t, env) && env.add == Added
  {
    AttachAdmits(m, t, env);
  }

  predicate Admits(m: Mgr, t: TrackID, env: Env)
    requires t in m.subs
  {
    && env.canSubscribe && env.track.Found? && env.track.hasPermission && HasCapacity(m, env.track.kind)
    && (m.subs[t].kind.Known? ==> HasCapacity(m, m.subs[t].kind.kind))
  }

  lemma AttachAdmits(m: Mgr, t: TrackID, env: Env)
    requires t in m.subs
    ensures var (m', r) := Attach(m, t, env);
      && (r == Subscribed <==> Admits(m, t, env) && (env.add == Added || env.add == AddedNothing || env.add == AlreadySubscribed))
      && t in m'.subs && m'.subs[t].held == if r == Subscribed && env.add == Added then Held(env.track.kind) else m.subs[t].held
  {
  }

  // ---- one call, when nothing is on its way ----

  /** The manager on its own. */
  function Calm(m: Mgr): World {
    World(m, Idle, [])
  }

  ghost predicate Ready(m: Mgr, sources: map<TrackID, Source>) {
    CountersOk(Calm(m)) && Fits(m, sources)
  }

  /** What the worker meets: the tracks as they are, any for one that is not there. */
  function EnvOf(t: TrackID, sources: map<TrackID, Source>): Env {
    if t in sources then GoodEnv(sources[t]) else Env(true, NotFound, Added)
  }

  /** One subscription's rank drops by one and the others stay, or the state does, but for a
      kind that becomes known. */
  lemma SubscribeEffect(m: Mgr, t: TrackID, src: Source)
    requires t in m.subs && NeedsSubscribe(m.subs[t]) && (m.subs[t].kind.Known? ==> m.subs[t].kind.kind == src.kind)
    ensures var m' := Subscribe(m, t, GoodEnv(src)).0; var s := m.subs[t];
      if HasCapacity(m, src.kind) then
        m'.subs == m.subs[t := s.(kind := Known(src.kind), publisher := src.publisher, held := Held(src.kind), bound := false)]
        && m'.video == Count(m, src.kind, 1).video && m'.audio == Count(m, src.kind, 1).audio
        && m'.limitVideo == m.limitVideo && m'.limitAudio == m.limitAudio
      else m' == m.(subs := m'.subs) && (m'.subs == m.subs || m'.subs == m.subs[t := s.(kind := Known(src.kind))])
  {
  }

  /** A call on a quiet, fitting manager: what is neither settled nor waiting for its bind comes
      one step closer, unless it is held and undesired, when its drop is asked for, or
      desired with its limit reached. */
  lemma ReconcileBringsCloser(m: Mgr, t: TrackID, sources: map<TrackID, Source>)
    requires Ready(m, sources) && t in m.subs && !Settled(m.subs[t]) && !NeedsBind(m.subs[t])
    ensures var (m', a) := Reconcile(m, t, true, false, false, EnvOf(t, sources));
      if NeedsUnsubscribe(m.subs[t]) then a == RemoveSubscriber && m' == m && Productive(Calm(m), Releases(t))
      else if NeedsSubscribe(m.subs[t]) && !HasCapacity(m, sources[t].kind) then a == NoAction && Rank(m') == Rank(m)
      else a == NoAction && Rank(m') + 1 == Rank(m)
  {
    if NeedsCleanup(m.subs[t]) {
      ProductiveLowersRank(Calm(m), CleansUp(t));
    } else if NeedsSubscribe(m.subs[t]) {
      var m' := Subscribe(m, t, GoodEnv(sources[t])).0;
      SubscribeEffect(m, t, sources[t]);
      if HasCapacity(m, sources[t].kind) {
        OneCloser(m, m', t, m'.subs[t]);
      } else if m'.subs != m.subs {
        SameRank(m, t, m'.subs[t]);
        assert m' == m.(subs := m.subs[t := m'.subs[t]]);
      }
    }
  }

  // ---- rounds ----

  /** A call for t, followed by the close it asks for, or the bind it waits for. */
  function Tend(m: Mgr, t: TrackID, sources: map<TrackID, Source>): Mgr {
    if t !in m.subs then m
    else
      var (m1, a) := Reconcile(m, t, true, false, false, EnvOf(t, sources));
      if a == RemoveSubscriber then Close(m1, t).0
      else if t in m1.subs && NeedsBind(m1.subs[t]) then m1.(subs := m1.subs[t := m1.subs[t].(bound := true)])
      else m1
  }

  /** What is desired stays, and nothing new comes. */
  ghost predicate SameDesires(m: Mgr, m': Mgr) {
    && m'.subs.Keys <= m.subs.Keys
    && (forall u :: u in m'.subs ==> m'.subs[u].desired == m.subs[u].desired)
    && (forall u :: u in m.subs && m.subs[u].desired ==> u in m'.subs)
  }

  /** Tending a track changes it alone, keeps what is desired, and never raises the rank. */
  ghost predicate Tended(m: Mgr, m': Mgr, t: TrackID, sources: map<TrackID, Source>) {
    && Ready(m', sources) && Rank(m') <= Rank(m)
    && SameDesires(m, m')
    && (forall u :: u in m.subs && u != t ==> u in m'.subs && m'.subs[u] == m.subs[u])
  }

  lemma CleanupTends(m: Mgr, t: TrackID, sources: map<TrackID, Source>)
    requires Ready(m, sources) && t in m.subs && NeedsCleanup(m.subs[t])
    ensures Tended(m, Tend(m, t, sources), t, sources) && Rank(Tend(m, t, sources)) < Rank(m)
  {
    var w := Calm(m);
    NextKeepsCounters(w, CleansUp(t));
    RequestFreeKeepsFits(w, CleansUp(t), sources);
    ProductiveLowersRank(w, CleansUp(t));
  }

  lemma CloseEffect(m: Mgr, t: TrackID)
    requires t in m.subs && m.subs[t].held != NotHeld
    ensures var m', kind := Close(m, t).0, m.subs[t].held.kind;
      && m'.subs == Release(m, t).subs && m'.limitVideo == m.limitVideo && m'.limitAudio == m.limitAudio
      && m'.video == m.video - (if kind == Video then 1 else 0) && m'.audio == m.audio - (if kind == Audio then 1 else 0)
  {
  }

  lemma CloseKeepsCounters(m: Mgr, t: TrackID)
    requires CountersOk(Calm(m)) && t in m.subs && m.subs[t].held != NotHeld
    ensures CountersOk(Calm(Close(m, t).0))
  {
    CloseEffect(m, t);
    var s' := m.subs[t].(held := NotHeld, bound := false);
    HeldOfUpdate(m.subs, t, s', Video);
    HeldOfUpdate(m.subs, t, s', Audio);
    assert t in HeldOf(m.subs, m.subs[t].held.kind);
  }

  lemma CloseTends(m: Mgr, t: TrackID, sources: map<TrackID, Source>)
    requires Ready(m, sources) && t in m.subs && NeedsUnsubscribe(m.subs[t])
    ensures Tended(m, Tend(m, t, sources), t, sources) && Rank(Tend(m, t, sources)) < Rank(m)
  {
    var w := Calm(m);
    CloseKeepsCounters(m, t);
    CloseEffect(m, t);
    RequestFreeKeepsFits(w, Releases(t), sources);
    ProductiveLowersRank(w, Releases(t));
    assert Next(w, Releases(t)).m == Release(m, t);
    RemovesExactlyUndesiredHeld(m, t, true, false, false, EnvOf(t, sources));
    assert Tend(m, t, sources) == Close(m, t).0;
    assert Fits(Close(m, t).0, sources);
  }

  lemma BindTends(m: Mgr, t: TrackID, sources: map<TrackID, Source>)
    requires Ready(m, sources) && t in m.subs && NeedsBind(m.subs[t])
    ensures var m' := m.(subs := m.subs[t := m.subs[t].(bound := true)]);
      Tended(m, m', t, sources) && Rank(m') < Rank(m)
  {
    var w := Calm(m);
    NextKeepsCounters(w, Binds(t));
    RequestFreeKeepsFits(w, Binds(t), sources);
    ProductiveLowersRank(w, Binds(t));
  }

  lemma SubscribeKeepsCounters(m: Mgr, t: TrackID, sources: map<TrackID, Source>)
    requires Ready(m, sources) && t in m.subs && NeedsSubscribe(m.subs[t])
    ensures CountersOk(Calm(Subscribe(m, t, GoodEnv(sources[t])).0))
  {
    var w, env := Calm(m), GoodEnv(sources[t]);
    var w1 := Next(w, Attaches(t, env));
    NextKeepsCounters(w, Attaches(t, env));
    AttachAdmits(m, t, env);
    if HasCapacity(m, sources[t].kind) {
      NextKeepsCounters(w1, Counts);
      NextKeepsCounters(Next(w1, Counts), Marks);
      SubscribeIsItsSections(w, t, env);
    }
  }

  lemma SubscribeTends(m: Mgr, t: TrackID, sources: map<TrackID, Source>)
    requires Ready(m, sources) && t in m.subs && NeedsSubscribe(m.subs[t])
    ensures var m1 := Subscribe(m, t, GoodEnv(sources[t])).0;
      && Tended(m, m1, t, sources) && t in m1.subs
      && (Rank(m1) < Rank(m) <==> HasCapacity(m, sources[t].kind))
      && (NeedsBind(m1.subs[t]) <==> HasCapacity(m, sources[t].kind))
  {
    var m1 := Subscribe(m, t, GoodEnv(sources[t])).0;
    SubscribeKeepsCounters(m, t, sources);
    SubscribeEffect(m, t, sources[t]);
    SubscribeKeepsFits(m, m1, t, sources);
    if HasCapacity(m, sources[t].kind) {
      OneCloser(m, m1, t, m1.subs[t]);
    } else if m1.subs != m.subs {
      SameRank(m, t, m1.subs[t]);
      assert m1 == m.(subs := m.subs[t := m1.subs[t]]);
    }
  }

  lemma SubscribeKeepsFits(m: Mgr, m1: Mgr, t: TrackID, sources: map<TrackID, Source>)
    requires Fits(m, sources) && t in m.subs && m.subs[t].desired && m.subs[t].held == NotHeld
    requires m1.limitVideo == m.limitVideo && m1.limitAudio == m.limitAudio
    requires t in m1.subs && m1.subs == m.subs[t := m1.subs[t]] && m1.subs[t].desired && Matches(t, m1.subs[t], sources)
    ensures Fits(m1, sources)
  {
    SameDesired(m1.subs, m.subs, sources, Video);
    SameDesired(m1.subs, m.subs, sources, Audio);
  }

  /** t is settled by one more turn, unless it waits for room taken by undesired tracks. */
  ghost predicate Ripe(m: Mgr, t: TrackID) {
    && t in m.subs && !Settled(m.subs[t])
    && (NeedsSubscribe(m.subs[t]) ==> forall u :: u in m.subs ==> m.subs[u].desired)
  }

  lemma TendTends(m: Mgr, t: TrackID, sources: map<TrackID, Source>)
    requires Ready(m, sources)
    ensures Tended(m, Tend(m, t, sources), t, sources)
    ensures Ripe(m, t) ==> Rank(Tend(m, t, sources)) < Rank(m)
  {
    if t in m.subs {
      if NeedsCleanup(m.subs[t]) {
        CleanupTends(m, t, sources);
      } else if NeedsUnsubscribe(m.subs[t]) {
        CloseTends(m, t, sources);
      } else if NeedsBind(m.subs[t]) {
        BindTends(m, t, sources);
      } else if NeedsSubscribe(m.subs[t]) {
        var m1 := Subscribe(m, t, GoodEnv(sources[t])).0;
        SubscribeTends(m, t, sources);
        if HasCapacity(m, sources[t].kind) {
          BindTends(m1, t, sources);
        }
        if Ripe(m, t) {
          RoomForDesired(Calm(m), sources, t);
        }
      }
    }
  }

  /** One round over some tracks. */
  function Round(m: Mgr, ts: seq<TrackID>, sources: map<TrackID, Source>): Mgr
    decreases |ts|
  {
    if ts == [] then m else Round(Tend(m, ts[0], sources), ts[1..], sources)
  }

  lemma {:induction false} RoundKeeps(m: Mgr, ts: seq<TrackID>, sources: map<TrackID, Source>)
    requires Ready(m, sources)
    ensures var m' := Round(m, ts, sources);
      && Ready(m', sources) && Rank(m') <= Rank(m) && SameDesires(m, m')
    decreases |ts|
  {
    if ts != [] {
      TendTends(m, ts[0], sources);
      RoundKeeps(Tend(m, ts[0], sources), ts[1..], sources);
    }
  }

  /** A round that comes to a ripe track lowers the rank. */
  lemma {:induction false} RoundLowers(m: Mgr, ts: seq<TrackID>, t: TrackID, sources: map<TrackID, Source>)
    requires Ready(m, sources) && Ripe(m, t) && t in ts
    ensures Rank(Round(m, ts, sources)) < Rank(m)
    decreases |ts|
  {
    var m' := Tend(m, ts[0], sources);
    TendTends(m, ts[0], sources);
    RoundKeeps(m', ts[1..], sources);
    if ts[0] != t {
      assert ts == [ts[0]] + ts[1..];
      RoundLowers(m', ts[1..], t, sources);
    }
  }

  lemma SomeRipe(m: Mgr) returns (t: TrackID)
    requires !AllSettled(m)
    ensures Ripe(m, t)
  {
    if u :| u in m.subs && !m.subs[u].desired {
      t := u;
    } else {
      t :| t in m.subs && !Settled(m.subs[t]);
    }
  }

  function Rounds(m: Mgr, n: nat, ts: seq<TrackID>, sources: map<TrackID, Source>): Mgr
    decreases n
  {
    if n == 0 then m else Rounds(Round(m, ts, sources), n - 1, ts, sources)
  }

  /** Rounds over all tracks settle everything: as many as the rank are enough.  What stays is
      what was desired, every one of it held and bound. */
  lemma {:induction false} RoundsSettle(m: Mgr, n: nat, ts: seq<TrackID>, sources: map<TrackID, Source>)
    requires Ready(m, sources) && n >= Rank(m) && forall t :: t in m.subs ==> t in ts
    ensures var end := Rounds(m, n, ts, sources);
      AllSettled(end) && end.subs.Keys == set t | t in m.subs && m.subs[t].desired
    decreases n
  {
    RankZeroIsSettled(m);
    if n > 0 {
      RoundKeeps(m, ts, sources);
      if !AllSettled(m) {
        var t := SomeRipe(m);
        RoundLowers(m, ts, t, sources);
      }
      RoundsSettle(Round(m, ts, sources), n - 1, ts, sources);
    }
  }
}
