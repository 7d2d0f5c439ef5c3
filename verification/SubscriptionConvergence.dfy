/** Why reconciliation converges: with tracks that resolve, permission granted and
    limits wide enough for what is desired, every productive step lowers a rank, and
    while the rank is positive some productive step is possible. */
module SubscriptionConvergence {
  import opened SubscriptionManager
  import opened SubscriptionRuns

  /** How many productive steps a subscription is away from bound or removed. */
  function RankOf(s: Sub): nat {
    if Settled(s) then 0 else if NeedsBind(s) || NeedsCleanup(s) then 1 else 2
  }

  ghost function AtLeast(subs: map<TrackID, Sub>, n: nat): set<TrackID> {
    set t | t in subs && RankOf(subs[t]) >= n
  }

  ghost function Rank(m: Mgr): nat {
    |AtLeast(m.subs, 1)| + |AtLeast(m.subs, 2)|
  }

  ghost predicate AllSettled(m: Mgr) {
    forall t :: t in m.subs ==> Settled(m.subs[t])
  }

  /** Tracks as the resolver finds them. */
  datatype Source = Source(kind: Kind, publisher: ParticipantID)

  function GoodEnv(src: Source): Env {
    Env(true, Found(src.kind, src.publisher, true), Added)
  }

  /** A step that brings one subscription closer to what is desired. */
  predicate Productive(w: World, s: Step) {
    Enabled(w, s) &&
    match s
    case Attaches(t, env) => Attach(w.m, t, env).1 == Subscribed && env.add == Added
    case Binds(t) => NeedsBind(w.m.subs[t])
    case Releases(t) => NeedsUnsubscribe(w.m.subs[t])
    case CleansUp(_) => true
    case _ => false
  }

  /** A step without a new request: attempts that may fail in any way, at the limit among
      others, as long as a track they find is of its kind; binds, also repeated or late
      ones; closes of undesired tracks only; and everything on its way. */
  predicate RequestFree(w: World, s: Step, sources: map<TrackID, Source>) {
    Enabled(w, s) &&
    match s
    case Wants(_) => false
    case Drops(_) => false
    case Attaches(t, env) => t in sources && (env.track.Found? ==> env.track.kind == sources[t].kind)
    case Releases(t) => !w.m.subs[t].desired
    case _ => true
  }

  lemma AtLeastUpdate(subs: map<TrackID, Sub>, t: TrackID, s: Sub, n: nat)
    requires t in subs
    ensures AtLeast(subs[t := s], n) == if RankOf(s) >= n then AtLeast(subs, n) + {t} else AtLeast(subs, n) - {t}
  {
  }

  /** Replacing one subscription changes the count at level n only if it crosses n. */
  lemma AtLeastCount(subs: map<TrackID, Sub>, t: TrackID, s: Sub, n: nat)
    requires t in subs && RankOf(s) + 1 == RankOf(subs[t])
    ensures |AtLeast(subs[t := s], n)| == |AtLeast(subs, n)| - if RankOf(subs[t]) == n then 1 else 0
  {
    AtLeastUpdate(subs, t, s, n);
    assert t in AtLeast(subs, n) <==> RankOf(subs[t]) >= n;
    if RankOf(subs[t]) > n {
      assert AtLeast(subs[t := s], n) == AtLeast(subs, n);
    } else {
      assert AtLeast(subs[t := s], n) == AtLeast(subs, n) - {t};
    }
  }

  /** One subscription comes one step closer, the others stay: the rank drops by one. */
  lemma OneCloser(m: Mgr, m': Mgr, t: TrackID, s': Sub)
    requires t in m.subs && m'.subs == m.subs[t := s'] && RankOf(s') + 1 == RankOf(m.subs[t])
    ensures Rank(m') + 1 == Rank(m)
  {
    AtLeastCount(m.subs, t, s', 1);
    AtLeastCount(m.subs, t, s', 2);
  }

  lemma ProductiveLowersRank(w: World, s: Step)
    requires Productive(w, s)
    ensures Rank(Next(w, s).m) + 1 == Rank(w.m)
  {
    match s
    case Attaches(t, env) =>
      AttachFacts(w.m, t, env);
      OneCloser(w.m, Next(w, s).m, t, Next(w, s).m.subs[t]);
    case Binds(t) => OneCloser(w.m, Next(w, s).m, t, w.m.subs[t].(bound := true));
    case Releases(t) => OneCloser(w.m, Next(w, s).m, t, w.m.subs[t].(held := NotHeld, bound := false));
    case CleansUp(t) =>
      assert AtLeast(Cleanup(w.m, t).subs, 1) == AtLeast(w.m.subs, 1) - {t};
      assert AtLeast(Cleanup(w.m, t).subs, 2) == AtLeast(w.m.subs, 2);
      assert t in AtLeast(w.m.subs, 1);
  }

  lemma SameRank(m: Mgr, t: TrackID, s': Sub)
    requires t in m.subs && RankOf(s') == RankOf(m.subs[t])
    ensures Rank(m.(subs := m.subs[t := s'])) == Rank(m)
  {
    AtLeastUpdate(m.subs, t, s', 1);
    AtLeastUpdate(m.subs, t, s', 2);
    assert AtLeast(m.subs[t := s'], 1) == AtLeast(m.subs, 1);
    assert AtLeast(m.subs[t := s'], 2) == AtLeast(m.subs, 2);
  }

  /** Whatever else happens changes no rank. */
  lemma UnproductiveKeepsRank(w: World, s: Step, sources: map<TrackID, Source>)
    requires RequestFree(w, s, sources) && !Productive(w, s)
    ensures Rank(Next(w, s).m) == Rank(w.m)
  {
    match s
    case Attaches(t, env) =>
      AttachFacts(w.m, t, env);
      SameRank(w.m, t, Next(w, s).m.subs[t]);
    case Binds(t) => SameRank(w.m, t, w.m.subs[t].(bound := true));
    case _ =>
  }

  lemma RankZeroIsSettled(m: Mgr)
    ensures Rank(m) == 0 <==> AllSettled(m)
  {
    if AllSettled(m) {
      assert AtLeast(m.subs, 1) == {} && AtLeast(m.subs, 2) == {};
    } else {
      var t :| t in m.subs && !Settled(m.subs[t]);
      assert t in AtLeast(m.subs, 1);
    }
  }

  // ---- some productive step is always possible ----

  ghost function DesiredOf(subs: map<TrackID, Sub>, sources: map<TrackID, Source>, kind: Kind): set<TrackID> {
    set t | t in subs && subs[t].desired && t in sources && sources[t].kind == kind
  }

  /** A track resolves, to the kind it is known and held as. */
  predicate Matches(t: TrackID, s: Sub, sources: map<TrackID, Source>) {
    && t in sources
    && (s.kind.Known? ==> s.kind.kind == sources[t].kind)
    && (s.held.Held? ==> s.held.kind == sources[t].kind)
  }

  /** Every desired track matches its source, and the limits are wide enough for what is desired. */
  ghost predicate Fits(m: Mgr, sources: map<TrackID, Source>) {
    && (forall t :: t in m.subs && m.subs[t].desired ==> Matches(t, m.subs[t], sources))
    && (m.limitVideo > 0 ==> |DesiredOf(m.subs, sources, Video)| <= m.limitVideo)
    && (m.limitAudio > 0 ==> |DesiredOf(m.subs, sources, Audio)| <= m.limitAudio)
  }

  lemma SubsetSmaller<T>(a: set<T>, b: set<T>, x: T)
    requires a <= b && x in b && x !in a
    ensures |a| < |b|
  {
    SubsetSize(a, b - {x});
  }

  lemma {:induction false} SubsetSize<T>(a: set<T>, b: set<T>)
    requires a <= b
    ensures |a| <= |b|
    decreases |a|
  {
    if a != {} {
      var x :| x in a;
      SubsetSize(a - {x}, b - {x});
    }
  }

  /** Nothing is on its way. */
  predicate Quiet(w: World) {
    w.work == Idle && w.closing == []
  }

  /** With everything held also desired, an unheld desired track finds room. */
  lemma RoomForDesired(w: World, sources: map<TrackID, Source>, t: TrackID)
    requires CountersOk(w) && Quiet(w) && Fits(w.m, sources) && t in w.m.subs && NeedsSubscribe(w.m.subs[t])
    requires forall u :: u in w.m.subs ==> w.m.subs[u].desired
    ensures HasCapacity(w.m, sources[t].kind)
  {
    var m, kind := w.m, sources[t].kind;
    if kind != Data {
      assert HeldOf(m.subs, kind) <= DesiredOf(m.subs, sources, kind);
      SubsetSmaller(HeldOf(m.subs, kind), DesiredOf(m.subs, sources, kind), t);
    }
  }

  /** Until all is settled, some step without a request is productive. */
  lemma Progress(w: World, sources: map<TrackID, Source>) returns (s: Step)
    requires CountersOk(w) && Quiet(w) && Fits(w.m, sources) && !AllSettled(w.m)
    ensures Productive(w, s) && RequestFree(w, s, sources)
  {
    if t :| t in w.m.subs && !w.m.subs[t].desired {
      s := if w.m.subs[t].held == NotHeld then CleansUp(t) else Releases(t);
    } else {
      var t :| t in w.m.subs && !Settled(w.m.subs[t]);
      if w.m.subs[t].held == NotHeld {
        RoomForDesired(w, sources, t);
        s := Attaches(t, GoodEnv(sources[t]));
        AttachSucceeds(w.m, t, sources[t]);
      } else {
        s := Binds(t);
      }
    }
  }

  lemma AttachSucceeds(m: Mgr, t: TrackID, src: Source)
    requires t in m.subs && HasCapacity(m, src.kind)
    requires m.subs[t].kind.Known? ==> m.subs[t].kind.kind == src.kind
    ensures Attach(m, t, GoodEnv(src)).1 == Subscribed
  {
  }

  lemma SameDesired(a: map<TrackID, Sub>, b: map<TrackID, Sub>, sources: map<TrackID, Source>, kind: Kind)
    requires forall t :: t in a && a[t].desired <==> t in b && b[t].desired
    ensures DesiredOf(a, sources, kind) == DesiredOf(b, sources, kind)
  {
  }

  lemma AttachKnowsKind(m: Mgr, t: TrackID, env: Env)
    requires t in m.subs
    ensures var kind := Attach(m, t, env).0.subs[t].kind;
            kind == m.subs[t].kind || (env.track.Found? && kind == Known(env.track.kind))
  {
  }

  lemma RequestFreeKeepsDesired(w: World, s: Step, sources: map<TrackID, Source>)
    requires RequestFree(w, s, sources)
    ensures var subs := Next(w, s).m.subs;
            && subs.Keys <= w.m.subs.Keys
            && (forall t :: t in subs ==> subs[t].desired == w.m.subs[t].desired)
            && (forall t :: t in w.m.subs && w.m.subs[t].desired ==> t in subs)
  {
    if s.Attaches? {
      AttachFacts(w.m, s.t, s.env);
    }
  }

  lemma AttachKeepsMatch(m: Mgr, t: TrackID, env: Env, sources: map<TrackID, Source>)
    requires t in m.subs && Matches(t, m.subs[t], sources) && (env.track.Found? ==> env.track.kind == sources[t].kind)
    ensures Matches(t, Attach(m, t, env).0.subs[t], sources)
  {
    AttachFacts(m, t, env);
    AttachKnowsKind(m, t, env);
  }

  lemma RequestFreeKeepsFits(w: World, s: Step, sources: map<TrackID, Source>)
    requires Fits(w.m, sources) && RequestFree(w, s, sources)
    ensures Fits(Next(w, s).m, sources)
  {
    var m, m' := w.m, Next(w, s).m;
    RequestFreeKeepsDesired(w, s, sources);
    if s.Attaches? {
      AttachFacts(m, s.t, s.env);
      AttachKeepsMatch(m, s.t, s.env, sources);
    }
    SameDesired(m'.subs, m.subs, sources, Video);
    SameDesired(m'.subs, m.subs, sources, Audio);
  }

  // ---- runs without new requests ----

  predicate Reconciling(w: World, ss: seq<Step>, sources: map<TrackID, Source>)
    decreases |ss|
  {
    ss == [] || (RequestFree(w, ss[0], sources) && Reconciling(Next(w, ss[0]), ss[1..], sources))
  }

  /** How many steps of the run are productive. */
  function Spent(w: World, ss: seq<Step>, sources: map<TrackID, Source>): nat
    requires Reconciling(w, ss, sources)
    decreases |ss|
  {
    if ss == [] then 0
    else (if Productive(w, ss[0]) then 1 else 0) + Spent(Next(w, ss[0]), ss[1..], sources)
  }

  function End(w: World, ss: seq<Step>, sources: map<TrackID, Source>): World
    requires Reconciling(w, ss, sources)
    decreases |ss|
  {
    if ss == [] then w else End(Next(w, ss[0]), ss[1..], sources)
  }

  lemma {:induction false} ReconcilingSpendsRank(w: World, ss: seq<Step>, sources: map<TrackID, Source>)
    requires Reconciling(w, ss, sources)
    requires CountersOk(w) && Fits(w.m, sources)
    ensures var e := End(w, ss, sources);
            Spent(w, ss, sources) + Rank(e.m) == Rank(w.m) && CountersOk(e) && Fits(e.m, sources)
    decreases |ss|
  {
    if ss != [] {
      var s := ss[0];
      NextKeepsCounters(w, s);
      RequestFreeKeepsFits(w, s, sources);
      if Productive(w, s) {
        ProductiveLowersRank(w, s);
      } else {
        UnproductiveKeepsRank(w, s, sources);
      }
      ReconcilingSpendsRank(Next(w, s), ss[1..], sources);
    }
  }

  /** No productive step is left. */
  ghost predicate Exhausted(w: World, sources: map<TrackID, Source>) {
    forall s :: Productive(w, s) ==> !RequestFree(w, s, sources)
  }

  /** Any run without new requests, failed attempts and repeated binds included, takes at
      most rank productive steps, and has settled everything exactly when it took that many.
      Once nothing is on its way and no productive step is left, every desired
      subscription is held and bound, and every undesired one is gone. */
  lemma Converges(w: World, ss: seq<Step>, sources: map<TrackID, Source>)
    requires Reconciling(w, ss, sources) && CountersOk(w) && Fits(w.m, sources)
    ensures var e := End(w, ss, sources);
            && Spent(w, ss, sources) <= Rank(w.m)
            && (AllSettled(e.m) <==> Spent(w, ss, sources) == Rank(w.m))
            && (Quiet(e) && Exhausted(e, sources) ==> AllSettled(e.m))
            && (AllSettled(e.m) ==> e.m.subs.Keys == set t | t in w.m.subs && w.m.subs[t].desired)
  {
    ReconcilingSpendsRank(w, ss, sources);
    var e := End(w, ss, sources);
    RankZeroIsSettled(e.m);
    if Quiet(e) && !AllSettled(e.m) {
      var s := Progress(e, sources);
    }
    DesiredSurvives(w, ss, sources);
  }

  lemma {:induction false} DesiredSurvives(w: World, ss: seq<Step>, sources: map<TrackID, Source>)
    requires Reconciling(w, ss, sources)
    ensures var subs := End(w, ss, sources).m.subs;
            && subs.Keys <= w.m.subs.Keys
            && (forall t :: t in subs ==> subs[t].desired == w.m.subs[t].desired)
            && (forall t :: t in w.m.subs && w.m.subs[t].desired ==> t in subs)
    decreases |ss|
  {
    if ss != [] {
      RequestFreeKeepsDesired(w, ss[0], sources);
      DesiredSurvives(Next(w, ss[0]), ss[1..], sources);
    }
  }
}
