/** Runs of a subscription manager: requests, the one reconcile worker, and the callbacks
    that bind and close subscribed tracks at any time.  The worker sets a track, counts it
    and marks its publisher in lock sections of their own; a close releases the track,
    uncounts it and unmarks its publisher in sections of their own, too. */
module SubscriptionRuns {
  import opened SubscriptionManager

  datatype Work =
    | Idle
    | Counting(publisher: ParticipantID, track: TrackID, kind: Kind)
    | Marking(publisher: ParticipantID, track: TrackID)

  /** The subscription a close belongs to: the one in the map, or one cleaned up since. */
  datatype Owner = Current | Former(publisher: ParticipantID)

  /** A close that has released its track, and whether it has uncounted it. */
  datatype Closing = Closing(track: TrackID, kind: Kind, counted: bool, owner: Owner)

  datatype World = World(m: Mgr, work: Work, closing: seq<Closing>)

  datatype Step =
    | Wants(t: TrackID)
    | Drops(t: TrackID)
    | Attaches(t: TrackID, env: Env)
    | Counts
    | Marks
    | Binds(t: TrackID)
    | Releases(t: TrackID)
    | Uncounts(i: nat)
    | Unmarks(i: nat)
    | CleansUp(t: TrackID)

  function Init(limitVideo: int, limitAudio: int): World {
    World(Mgr(map[], map[], 0, 0, limitVideo, limitAudio, []), Idle, [])
  }

  predicate Enabled(w: World, s: Step) {
    match s
    case Wants(_) => true
    case Drops(_) => true
    case Attaches(t, _) => w.work == Idle && t in w.m.subs && NeedsSubscribe(w.m.subs[t])
    case Counts => w.work.Counting?
    case Marks => w.work.Marking?
    case Binds(t) => t in w.m.subs
    case Releases(t) => t in w.m.subs && w.m.subs[t].held != NotHeld
    case Uncounts(i) => i < |w.closing| && !w.closing[i].counted
    case Unmarks(i) => i < |w.closing| && w.closing[i].counted
    case CleansUp(t) => w.work == Idle && t in w.m.subs && NeedsCleanup(w.m.subs[t])
  }

  predicate Holds(m: Mgr, p: ParticipantID, t: TrackID) {
    t in m.subs && m.subs[t].held != NotHeld && m.subs[t].publisher == p
  }

  /** The publisher a close will unmark: its subscription's, as of then. */
  function PublisherOf(m: Mgr, c: Closing): ParticipantID {
    if c.owner.Former? then c.owner.publisher else if c.track in m.subs then m.subs[c.track].publisher else 0
  }

  /** The closes after the subscription of t has been cleaned up. */
  function Orphaned(closing: seq<Closing>, t: TrackID, p: ParticipantID): (r: seq<Closing>)
    ensures |r| == |closing|
    ensures forall i :: 0 <= i < |r| ==>
      r[i] == if closing[i].track == t && closing[i].owner == Current then closing[i].(owner := Former(p)) else closing[i]
    decreases |closing|
  {
    if closing == [] then []
    else
      var n := |closing| - 1;
      var c := closing[n];
      Orphaned(closing[..n], t, p) + [if c.track == t && c.owner == Current then c.(owner := Former(p)) else c]
  }

  function AfterAttach(w: World, t: TrackID, env: Env): World
    requires t in w.m.subs
  {
    var (m', r) := Attach(w.m, t, env);
    w.(m := m',
       work := if r != Subscribed then Idle
               else if env.add == Added then Counting(env.track.publisher, t, env.track.kind)
               else Marking(env.track.publisher, t))
  }

  function Next(w: World, s: Step): World
    requires Enabled(w, s)
  {
    match s
    case Wants(t) => w.(m := Want(w.m, t))
    case Drops(t) => w.(m := Unwant(w.m, t))
    case Attaches(t, env) => AfterAttach(w, t, env)
    case Counts => w.(m := Count(w.m, w.work.kind, 1), work := Marking(w.work.publisher, w.work.track))
    case Marks => w.(m := Mark(w.m, w.work.publisher, w.work.track), work := Idle)
    case Binds(t) => w.(m := w.m.(subs := w.m.subs[t := w.m.subs[t].(bound := true)]))
    case Releases(t) => w.(m := Release(w.m, t), closing := w.closing + [Closing(t, w.m.subs[t].held.kind, false, Current)])
    case Uncounts(i) => w.(m := Count(w.m, w.closing[i].kind, -1), closing := w.closing[i := w.closing[i].(counted := true)])
    case Unmarks(i) =>
      w.(m := Unmark(w.m, PublisherOf(w.m, w.closing[i]), w.closing[i].track), closing := w.closing[..i] + w.closing[i+1..])
    case CleansUp(t) => w.(m := Cleanup(w.m, t), closing := Orphaned(w.closing, t, w.m.subs[t].publisher))
  }

  predicate IsRun(w: World, ss: seq<Step>)
    decreases |ss|
  {
    ss == [] || (Enabled(w, ss[0]) && IsRun(Next(w, ss[0]), ss[1..]))
  }

  function Run(w: World, ss: seq<Step>): World
    requires IsRun(w, ss)
    decreases |ss|
  {
    if ss == [] then w else Run(Next(w, ss[0]), ss[1..])
  }

  // ---- the counters ----

  ghost function HeldOf(subs: map<TrackID, Sub>, kind: Kind): set<TrackID> {
    set t | t in subs && subs[t].held == Held(kind)
  }

  /** The closes that have released a track of this kind but not uncounted it yet. */
  function Uncounted(closing: seq<Closing>, kind: Kind): nat
    decreases |closing|
  {
    if closing == [] then 0
    else
      var c := closing[|closing|-1];
      Uncounted(closing[..|closing|-1], kind) + if c.kind == kind && !c.counted then 1 else 0
  }

  /** 1 while the worker is about to count a track of this kind. */
  function ToCount(work: Work, kind: Kind): nat {
    if work.Counting? && work.kind == kind then 1 else 0
  }

  ghost predicate CountersOk(w: World) {
    && w.m.video + ToCount(w.work, Video) == |HeldOf(w.m.subs, Video)| + Uncounted(w.closing, Video)
    && w.m.audio + ToCount(w.work, Audio) == |HeldOf(w.m.subs, Audio)| + Uncounted(w.closing, Audio)
    && (w.m.limitVideo > 0 ==> w.m.video + ToCount(w.work, Video) <= w.m.limitVideo)
    && (w.m.limitAudio > 0 ==> w.m.audio + ToCount(w.work, Audio) <= w.m.limitAudio)
  }

  /** One subscription changes what it holds: the sets of held tracks follow. */
  lemma HeldOfUpdate(subs: map<TrackID, Sub>, t: TrackID, s: Sub, kind: Kind)
    ensures HeldOf(subs[t := s], kind)
         == if s.held == Held(kind) then HeldOf(subs, kind) + {t} else HeldOf(subs, kind) - {t}
  {
  }

  lemma HeldOfSame(subs: map<TrackID, Sub>, t: TrackID, s: Sub)
    requires s.held == (if t in subs then subs[t].held else NotHeld)
    ensures forall kind :: HeldOf(subs[t := s], kind) == HeldOf(subs, kind)
  {
  }

  lemma {:induction false} UncountedSplit(a: seq<Closing>, c: Closing, b: seq<Closing>, kind: Kind)
    ensures Uncounted(a + [c] + b, kind) == Uncounted(a + b, kind) + if c.kind == kind && !c.counted then 1 else 0
    decreases |b|
  {
    if b == [] {
      assert a + [c] + b == a + [c] && a + b == a;
      assert (a + [c])[..|a|] == a;
    } else {
      var n := |b| - 1;
      UncountedSplit(a, c, b[..n], kind);
      assert (a + [c] + b)[..|a|+1+n] == a + [c] + b[..n];
      assert (a + b)[..|a|+n] == a + b[..n];
    }
  }

  lemma UncountedUpdate(closing: seq<Closing>, i: nat, kind: Kind)
    requires i < |closing|
    ensures var c, rest := closing[i], closing[..i] + closing[i+1..];
      && Uncounted(closing[i := c.(counted := true)], kind) == Uncounted(rest, kind)
      && Uncounted(closing, kind) == Uncounted(rest, kind) + if c.kind == kind && !c.counted then 1 else 0
  {
    var c := closing[i];
    UncountedSplit(closing[..i], c, closing[i+1..], kind);
    UncountedSplit(closing[..i], c.(counted := true), closing[i+1..], kind);
    assert closing == closing[..i] + [c] + closing[i+1..];
    assert closing[i := c.(counted := true)] == closing[..i] + [c.(counted := true)] + closing[i+1..];
  }

  lemma {:induction false} UncountedOrphaned(closing: seq<Closing>, t: TrackID, p: ParticipantID, kind: Kind)
    ensures Uncounted(Orphaned(closing, t, p), kind) == Uncounted(closing, kind)
    decreases |closing|
  {
    if closing != [] {
      UncountedOrphaned(closing[..|closing|-1], t, p, kind);
      assert Orphaned(closing, t, p)[..|closing|-1] == Orphaned(closing[..|closing|-1], t, p);
    }
  }

  /** An attempt changes its own subscription only; a track is held only where the limit
      leaves room. */
  lemma AttachFacts(m: Mgr, t: TrackID, env: Env)
    requires t in m.subs
    ensures var (m', r) := Attach(m, t, env);
            && t in m'.subs && m' == m.(subs := m.subs[t := m'.subs[t]])
            && m'.subs[t].desired == m.subs[t].desired && (r == Subscribed ==> env.track.Found?)
            && if r == Subscribed && env.add == Added then
                 && HasCapacity(m, env.track.kind)
                 && m'.subs[t].held == Held(env.track.kind) && !m'.subs[t].bound && m'.subs[t].publisher == env.track.publisher
               else
                 m'.subs[t].held == m.subs[t].held && m'.subs[t].bound == m.subs[t].bound
  {
  }

  /** subscribe() without interruption is its sections in a row. */
  lemma SubscribeIsItsSections(w: World, t: TrackID, env: Env)
    requires Enabled(w, Attaches(t, env)) && Attach(w.m, t, env).1 == Subscribed && env.add == Added
    ensures Next(Next(Next(w, Attaches(t, env)), Counts), Marks) == w.(m := Subscribe(w.m, t, env).0)
  {
    AttachFacts(w.m, t, env);
  }

  /** So is handleSubscribedTrackClose. */
  lemma CloseIsItsSections(w: World, t: TrackID)
    requires Enabled(w, Releases(t)) && w.closing == []
    ensures Next(Next(Next(w, Releases(t)), Uncounts(0)), Unmarks(0)) == w.(m := Close(w.m, t).0)
  {
    var c := Closing(t, w.m.subs[t].held.kind, false, Current);
    assert Next(w, Releases(t)).closing == [c];
    assert Next(Next(w, Releases(t)), Uncounts(0)).closing == [c.(counted := true)];
  }

  lemma AttachKeepsCounters(w: World, t: TrackID, env: Env)
    requires CountersOk(w) && Enabled(w, Attaches(t, env))
    ensures CountersOk(Next(w, Attaches(t, env)))
  {
    AttachFacts(w.m, t, env);
    var s' := Attach(w.m, t, env).0.subs[t];
    HeldOfUpdate(w.m.subs, t, s', Video);
    HeldOfUpdate(w.m.subs, t, s', Audio);
    assert t !in HeldOf(w.m.subs, Video) && t !in HeldOf(w.m.subs, Audio);
  }

  lemma ReleaseKeepsCounters(w: World, t: TrackID)
    requires CountersOk(w) && Enabled(w, Releases(t))
    ensures CountersOk(Next(w, Releases(t)))
  {
    var c := Closing(t, w.m.subs[t].held.kind, false, Current);
    var s' := w.m.subs[t].(held := NotHeld, bound := false);
    HeldOfUpdate(w.m.subs, t, s', Video);
    HeldOfUpdate(w.m.subs, t, s', Audio);
    assert t in HeldOf(w.m.subs, Video) <==> c.kind == Video;
    assert t in HeldOf(w.m.subs, Audio) <==> c.kind == Audio;
    assert (w.closing + [c])[..|w.closing|] == w.closing;
  }

  lemma RequestKeepsCounters(w: World, s: Step)
    requires CountersOk(w) && Enabled(w, s) && (s.Wants? || s.Drops? || s.Binds?)
    ensures CountersOk(Next(w, s))
  {
    match s
    case Wants(t) => HeldOfSame(w.m.subs, t, Want(w.m, t).subs[t]);
    case Drops(t) => if t in w.m.subs { HeldOfSame(w.m.subs, t, w.m.subs[t].(desired := false)); }
    case Binds(t) => HeldOfSame(w.m.subs, t, w.m.subs[t].(bound := true));
  }

  lemma CloseKeepsCounters(w: World, s: Step)
    requires CountersOk(w) && Enabled(w, s) && (s.Uncounts? || s.Unmarks?)
    ensures CountersOk(Next(w, s))
  {
    UncountedUpdate(w.closing, s.i, Video);
    UncountedUpdate(w.closing, s.i, Audio);
  }

  lemma CleanupKeepsCounters(w: World, t: TrackID)
    requires CountersOk(w) && Enabled(w, CleansUp(t))
    ensures CountersOk(Next(w, CleansUp(t)))
  {
    UncountedOrphaned(w.closing, t, w.m.subs[t].publisher, Video);
    UncountedOrphaned(w.closing, t, w.m.subs[t].publisher, Audio);
    assert HeldOf(Cleanup(w.m, t).subs, Video) == HeldOf(w.m.subs, Video);
    assert HeldOf(Cleanup(w.m, t).subs, Audio) == HeldOf(w.m.subs, Audio);
  }

  lemma NextKeepsCounters(w: World, s: Step)
    requires CountersOk(w) && Enabled(w, s)
    ensures CountersOk(Next(w, s))
  {
    match s
    case Attaches(t, env) => AttachKeepsCounters(w, t, env);
    case Releases(t) => ReleaseKeepsCounters(w, t);
    case Uncounts(_) => CloseKeepsCounters(w, s);
    case Unmarks(_) => CloseKeepsCounters(w, s);
    case CleansUp(t) => CleanupKeepsCounters(w, t);
    case Counts =>
    case Marks =>
    case _ => RequestKeepsCounters(w, s);
  }

  // ---- the index ----

  predicate Marked(m: Mgr, p: ParticipantID, t: TrackID) {
    p in m.subscribedTo && t in m.subscribedTo[p]
  }

  /** The worker has set t, and will mark it under p. */
  predicate AboutToMark(w: World, p: ParticipantID, t: TrackID) {
    !w.work.Idle? && w.work.publisher == p && w.work.track == t
  }

  predicate Ends(m: Mgr, c: Closing, p: ParticipantID, t: TrackID) {
    c.track == t && PublisherOf(m, c) == p
  }

  /** A close will unmark t under p. */
  ghost predicate AboutToUnmark(w: World, p: ParticipantID, t: TrackID) {
    exists i :: 0 <= i < |w.closing| && Ends(w.m, w.closing[i], p, t)
  }

  /** So will the close of a subscription that was cleaned up. */
  ghost predicate FormerToUnmark(closing: seq<Closing>, p: ParticipantID, t: TrackID) {
    exists i :: 0 <= i < |closing| && closing[i].track == t && closing[i].owner == Former(p)
  }

  /** The index is right for t under p, up to the mark and the unmarks on their way. */
  ghost predicate ExactAt(w: World, p: ParticipantID, t: TrackID) {
    && (Holds(w.m, p, t) ==> Marked(w.m, p, t) || AboutToMark(w, p, t))
    && (Marked(w.m, p, t) ==> Holds(w.m, p, t) || AboutToUnmark(w, p, t))
  }

  ghost predicate Exact(w: World) {
    forall p: ParticipantID, t: TrackID :: ExactAt(w, p, t)
  }

  /** The guard of a step that keeps the index right: a mark finds its track held, or a
      close of it still to unmark it; an unmark does not find its track held again and
      marked; and an attempt does not rename the publisher of a track whose close has yet
      to unmark the old one. */
  ghost predicate Safe(w: World, s: Step)
    requires Enabled(w, s)
  {
    match s
    case Marks => Holds(w.m, w.work.publisher, w.work.track) || AboutToUnmark(w, w.work.publisher, w.work.track)
    case Unmarks(i) =>
      var p, t := PublisherOf(w.m, w.closing[i]), w.closing[i].track;
      Holds(w.m, p, t) ==> AboutToMark(w, p, t)
    case Attaches(t, env) =>
      var p := w.m.subs[t].publisher;
      Attach(w.m, t, env).0.subs[t].publisher == p || !Marked(w.m, p, t) || FormerToUnmark(w.closing, p, t)
    case _ => true
  }

  ghost predicate BucketsOk(w: World) {
    && (forall p :: p in w.m.subscribedTo ==> w.m.subscribedTo[p] != {})
    && (forall i :: 0 <= i < |w.closing| && w.closing[i].owner == Current ==> w.closing[i].track in w.m.subs)
  }

  lemma MarkAdds(m: Mgr, p: ParticipantID, t: TrackID)
    ensures forall q, u :: Marked(Mark(m, p, t), q, u) <==> Marked(m, q, u) || (q == p && u == t)
  {
  }

  lemma UnmarkRemoves(m: Mgr, p: ParticipantID, t: TrackID)
    ensures forall q, u :: Marked(Unmark(m, p, t), q, u) <==> Marked(m, q, u) && !(q == p && u == t)
  {
    if p in m.subscribedTo && m.subscribedTo[p] - {t} == {} {
      forall u | u in m.subscribedTo[p] ensures u == t {
        assert u !in m.subscribedTo[p] - {t};
      }
    }
  }

  lemma NextKeepsBuckets(w: World, s: Step)
    requires BucketsOk(w) && Enabled(w, s)
    ensures BucketsOk(Next(w, s))
  {
    if s.Attaches? {
      AttachFacts(w.m, s.t, s.env);
    }
  }

  /** A step that touches neither what is held nor the index, and no close. */
  lemma SameExact(w: World, w': World)
    requires BucketsOk(w)
    requires w'.m.subscribedTo == w.m.subscribedTo && w'.closing == w.closing
    requires forall p, t :: AboutToMark(w', p, t) == AboutToMark(w, p, t)
    requires forall t :: t in w.m.subs ==>
      t in w'.m.subs && w'.m.subs[t].held == w.m.subs[t].held && w'.m.subs[t].publisher == w.m.subs[t].publisher
    requires forall t :: t in w'.m.subs && t !in w.m.subs ==> w'.m.subs[t].held == NotHeld
    ensures Exact(w') <==> Exact(w)
  {
    forall p: ParticipantID, t: TrackID ensures ExactAt(w', p, t) == ExactAt(w, p, t) {
      assert Holds(w'.m, p, t) == Holds(w.m, p, t) && Marked(w'.m, p, t) == Marked(w.m, p, t);
      SameEnds(w, w', p, t);
    }
  }

  lemma SameEnds(w: World, w': World, p: ParticipantID, t: TrackID)
    requires BucketsOk(w) && w'.closing == w.closing
    requires forall t :: t in w.m.subs ==> t in w'.m.subs && w'.m.subs[t].publisher == w.m.subs[t].publisher
    ensures AboutToUnmark(w', p, t) == AboutToUnmark(w, p, t)
  {
    forall i | 0 <= i < |w.closing| ensures Ends(w'.m, w.closing[i], p, t) == Ends(w.m, w.closing[i], p, t) {
    }
  }

  lemma MarksExactly(w: World)
    requires Exact(w) && Enabled(w, Marks)
    ensures Exact(Next(w, Marks)) <==> Safe(w, Marks)
  {
    var w', p, t := Next(w, Marks), w.work.publisher, w.work.track;
    MarkAdds(w.m, p, t);
    assert ExactAt(w', p, t) <==> Safe(w, Marks);
    forall q: ParticipantID, u: TrackID | q != p || u != t ensures ExactAt(w', q, u) {
      assert ExactAt(w, q, u);
    }
  }

  lemma UnmarksExactly(w: World, i: nat)
    requires Exact(w) && Enabled(w, Unmarks(i))
    ensures Exact(Next(w, Unmarks(i))) <==> Safe(w, Unmarks(i))
  {
    var w', p, t := Next(w, Unmarks(i)), PublisherOf(w.m, w.closing[i]), w.closing[i].track;
    UnmarkRemoves(w.m, p, t);
    assert ExactAt(w', p, t) <==> Safe(w, Unmarks(i));
    forall q: ParticipantID, u: TrackID | q != p || u != t ensures ExactAt(w', q, u) {
      assert ExactAt(w, q, u);
      if Marked(w'.m, q, u) && !Holds(w'.m, q, u) {
        var j :| 0 <= j < |w.closing| && Ends(w.m, w.closing[j], q, u);
        assert j != i;
        assert Ends(w'.m, w'.closing[if j < i then j else j - 1], q, u);
      }
    }
  }

  lemma ReleasesExactly(w: World, t: TrackID)
    requires Exact(w) && Enabled(w, Releases(t))
    ensures Exact(Next(w, Releases(t)))
  {
    var w' := Next(w, Releases(t));
    forall q: ParticipantID, u: TrackID ensures ExactAt(w', q, u) {
      assert ExactAt(w, q, u);
      if Marked(w'.m, q, u) && !Holds(w'.m, q, u) {
        if Holds(w.m, q, u) {
          assert Ends(w'.m, w'.closing[|w.closing|], q, u);
        } else {
          var j :| 0 <= j < |w.closing| && Ends(w.m, w.closing[j], q, u);
          assert Ends(w'.m, w'.closing[j], q, u);
        }
      }
    }
  }

  lemma UncountsExactly(w: World, i: nat)
    requires Exact(w) && Enabled(w, Uncounts(i))
    ensures Exact(Next(w, Uncounts(i)))
  {
    var w' := Next(w, Uncounts(i));
    forall q: ParticipantID, u: TrackID ensures ExactAt(w', q, u) {
      assert ExactAt(w, q, u);
      if Marked(w'.m, q, u) && !Holds(w'.m, q, u) {
        var j :| 0 <= j < |w.closing| && Ends(w.m, w.closing[j], q, u);
        assert Ends(w'.m, w'.closing[j], q, u);
      }
    }
  }

  lemma CleansUpExactly(w: World, t: TrackID)
    requires BucketsOk(w) && Exact(w) && Enabled(w, CleansUp(t))
    ensures Exact(Next(w, CleansUp(t)))
  {
    var w' := Next(w, CleansUp(t));
    forall q: ParticipantID, u: TrackID ensures ExactAt(w', q, u) {
      assert ExactAt(w, q, u);
      if Marked(w'.m, q, u) && !Holds(w'.m, q, u) {
        var j :| 0 <= j < |w.closing| && Ends(w.m, w.closing[j], q, u);
        assert Ends(w'.m, w'.closing[j], q, u);
      }
    }
  }

  lemma AttachesExactly(w: World, t: TrackID, env: Env)
    requires BucketsOk(w) && Exact(w) && Enabled(w, Attaches(t, env))
    ensures Exact(Next(w, Attaches(t, env))) <==> Safe(w, Attaches(t, env))
  {
    AttachFacts(w.m, t, env);
    var w', p := Next(w, Attaches(t, env)), w.m.subs[t].publisher;
    var q := w'.m.subs[t].publisher;
    forall r: ParticipantID, u: TrackID | u != t || r != p || q == p ensures ExactAt(w', r, u) {
      AttachElsewhere(w, t, env, r, u);
    }
    if q != p {
      assert ExactAt(w, p, t) && !Holds(w.m, p, t) && !Holds(w'.m, p, t);
      assert AboutToUnmark(w', p, t) <==> FormerToUnmark(w.closing, p, t) by {
        forall i | 0 <= i < |w.closing| ensures Ends(w'.m, w.closing[i], p, t) <==> w.closing[i].track == t && w.closing[i].owner == Former(p) {
        }
      }
      assert ExactAt(w', p, t) <==> Safe(w, Attaches(t, env));
    }
  }

  /** Where the attempt renames nothing the index stays right. */
  lemma AttachElsewhere(w: World, t: TrackID, env: Env, r: ParticipantID, u: TrackID)
    requires BucketsOk(w) && Exact(w) && Enabled(w, Attaches(t, env))
    requires u != t || r != w.m.subs[t].publisher || Attach(w.m, t, env).0.subs[t].publisher == w.m.subs[t].publisher
    ensures ExactAt(Next(w, Attaches(t, env)), r, u)
  {
    AttachFacts(w.m, t, env);
    var w' := Next(w, Attaches(t, env));
    assert ExactAt(w, r, u);
    if Marked(w'.m, r, u) && !Holds(w'.m, r, u) {
      var j :| 0 <= j < |w.closing| && Ends(w.m, w.closing[j], r, u);
      assert Ends(w'.m, w'.closing[j], r, u);
    }
  }

  /** One step keeps the index right exactly when it is safe. */
  lemma NextExactly(w: World, s: Step)
    requires BucketsOk(w) && Exact(w) && Enabled(w, s)
    ensures Exact(Next(w, s)) <==> Safe(w, s)
  {
    match s
    case Marks => MarksExactly(w);
    case Unmarks(i) => UnmarksExactly(w, i);
    case Attaches(t, env) => AttachesExactly(w, t, env);
    case Releases(t) => ReleasesExactly(w, t);
    case Uncounts(i) => UncountsExactly(w, i);
    case CleansUp(t) => CleansUpExactly(w, t);
    case _ => SameExact(w, Next(w, s));
  }

  // ---- the status callbacks ----

  /** What one publisher's callbacks said, in order. */
  function StatusesOf(ss: seq<Status>, p: ParticipantID): seq<bool>
    decreases |ss|
  {
    if ss == [] then []
    else
      var n := |ss| - 1;
      StatusesOf(ss[..n], p) + (if ss[n].publisher == p then [ss[n].subscribed] else [])
  }

  /** true, false, true, ... and true last exactly while p is in the index. */
  ghost predicate Alternates(m: Mgr, p: ParticipantID) {
    var bs := StatusesOf(m.statuses, p);
    && (forall i :: 0 <= i < |bs| ==> (bs[i] <==> i % 2 == 0))
    && (p in m.subscribedTo <==> |bs| % 2 == 1)
  }

  lemma StatusAdds(ss: seq<Status>, s: Status, p: ParticipantID)
    ensures StatusesOf(ss + [s], p) == if s.publisher == p then StatusesOf(ss, p) + [s.subscribed] else StatusesOf(ss, p)
  {
    assert (ss + [s])[..|ss|] == ss;
  }

  lemma NextKeepsAlternation(w: World, s: Step, p: ParticipantID)
    requires Alternates(w.m, p) && Enabled(w, s)
    ensures Alternates(Next(w, s).m, p)
  {
    match s
    case Marks => MarkAlternates(w.m, w.work.publisher, w.work.track, p);
    case Unmarks(i) => UnmarkAlternates(w.m, PublisherOf(w.m, w.closing[i]), w.closing[i].track, p);
    case Attaches(t, env) => AttachFacts(w.m, t, env);
    case _ =>
  }

  lemma MarkAlternates(m: Mgr, q: ParticipantID, t: TrackID, p: ParticipantID)
    requires Alternates(m, p)
    ensures Alternates(Mark(m, q, t), p)
  {
    StatusAdds(m.statuses, Status(q, true), p);
  }

  lemma UnmarkAlternates(m: Mgr, q: ParticipantID, t: TrackID, p: ParticipantID)
    requires Alternates(m, p)
    ensures Alternates(Unmark(m, q, t), p)
  {
    StatusAdds(m.statuses, Status(q, false), p);
  }

  // ---- what every run guarantees ----

  ghost predicate Inv(w: World) {
    CountersOk(w) && BucketsOk(w) && forall p :: Alternates(w.m, p)
  }

  lemma NextKeepsInv(w: World, s: Step)
    requires Inv(w) && Enabled(w, s)
    ensures Inv(Next(w, s))
  {
    NextKeepsCounters(w, s);
    NextKeepsBuckets(w, s);
    forall p ensures Alternates(Next(w, s).m, p) {
      NextKeepsAlternation(w, s, p);
    }
  }

  lemma {:induction false} RunKeepsInv(w: World, ss: seq<Step>)
    requires Inv(w) && IsRun(w, ss)
    ensures Inv(Run(w, ss))
    decreases |ss|
  {
    if ss != [] {
      NextKeepsInv(w, ss[0]);
      RunKeepsInv(Next(w, ss[0]), ss[1..]);
    }
  }

  lemma InitOk(limitVideo: int, limitAudio: int)
    ensures Inv(Init(limitVideo, limitAudio))
  {
    assert HeldOf(map[], Video) == {} && HeldOf(map[], Audio) == {};
  }

  /** In every state of every run the counters are the numbers of held tracks, give or take
      exactly the counts still to be made; they never pass a positive limit. */
  lemma CountersMatchHeld(limitVideo: int, limitAudio: int, ss: seq<Step>)
    requires IsRun(Init(limitVideo, limitAudio), ss)
    ensures var w := Run(Init(limitVideo, limitAudio), ss);
            && w.m.video == |HeldOf(w.m.subs, Video)| + Uncounted(w.closing, Video) - ToCount(w.work, Video)
            && w.m.audio == |HeldOf(w.m.subs, Audio)| + Uncounted(w.closing, Audio) - ToCount(w.work, Audio)
            && (limitVideo > 0 ==> |HeldOf(w.m.subs, Video)| <= limitVideo && w.m.video <= limitVideo)
            && (limitAudio > 0 ==> |HeldOf(w.m.subs, Audio)| <= limitAudio && w.m.audio <= limitAudio)
  {
    InitOk(limitVideo, limitAudio);
    RunKeepsInv(Init(limitVideo, limitAudio), ss);
    RunKeepsLimits(Init(limitVideo, limitAudio), ss);
  }

  lemma {:induction false} RunKeepsLimits(w: World, ss: seq<Step>)
    requires IsRun(w, ss)
    ensures Run(w, ss).m.limitVideo == w.m.limitVideo && Run(w, ss).m.limitAudio == w.m.limitAudio
    decreases |ss|
  {
    if ss != [] {
      if ss[0].Attaches? {
        AttachFacts(w.m, ss[0].t, ss[0].env);
      }
      RunKeepsLimits(Next(w, ss[0]), ss[1..]);
    }
  }

  /** No publisher is left in the index with an empty bucket. */
  lemma NoBucketIsEmpty(limitVideo: int, limitAudio: int, ss: seq<Step>, p: ParticipantID)
    requires IsRun(Init(limitVideo, limitAudio), ss)
    ensures var index := Run(Init(limitVideo, limitAudio), ss).m.subscribedTo; p in index ==> index[p] != {}
  {
    InitOk(limitVideo, limitAudio);
    RunKeepsInv(Init(limitVideo, limitAudio), ss);
  }

  /** The index is right after every step of the run. */
  ghost predicate AlwaysExact(w: World, ss: seq<Step>)
    requires IsRun(w, ss)
    decreases |ss|
  {
    Exact(w) && (ss != [] ==> AlwaysExact(Next(w, ss[0]), ss[1..]))
  }

  ghost predicate AllSafe(w: World, ss: seq<Step>)
    requires IsRun(w, ss)
    decreases |ss|
  {
    ss != [] ==> Safe(w, ss[0]) && AllSafe(Next(w, ss[0]), ss[1..])
  }

  lemma {:induction false} ExactExactlyWhenSafe(w: World, ss: seq<Step>)
    requires Inv(w) && Exact(w) && IsRun(w, ss)
    ensures AlwaysExact(w, ss) <==> AllSafe(w, ss)
    decreases |ss|
  {
    if ss != [] {
      NextKeepsInv(w, ss[0]);
      NextExactly(w, ss[0]);
      if Safe(w, ss[0]) {
        ExactExactlyWhenSafe(Next(w, ss[0]), ss[1..]);
      }
    }
  }

  /** The index is the held tracks under their publishers after every step of a run, up to
      marks and unmarks on their way, if and only if every step is safe. */
  lemma IndexExactExactlyWhenSafe(limitVideo: int, limitAudio: int, ss: seq<Step>)
    requires IsRun(Init(limitVideo, limitAudio), ss)
    ensures AlwaysExact(Init(limitVideo, limitAudio), ss) <==> AllSafe(Init(limitVideo, limitAudio), ss)
  {
    InitOk(limitVideo, limitAudio);
    ExactExactlyWhenSafe(Init(limitVideo, limitAudio), ss);
  }

  /** Status callbacks of each publisher strictly alternate, beginning with subscribed. */
  lemma StatusesAlternate(limitVideo: int, limitAudio: int, ss: seq<Step>, p: ParticipantID)
    requires IsRun(Init(limitVideo, limitAudio), ss)
    ensures var m := Run(Init(limitVideo, limitAudio), ss).m;
            && (forall i :: 0 <= i < |StatusesOf(m.statuses, p)| ==> (StatusesOf(m.statuses, p)[i] <==> i % 2 == 0))
            && (p in m.subscribedTo <==> StatusesOf(m.statuses, p) != [] && StatusesOf(m.statuses, p)[|StatusesOf(m.statuses, p)|-1])
  {
    InitOk(limitVideo, limitAudio);
    RunKeepsInv(Init(limitVideo, limitAudio), ss);
    assert Alternates(Run(Init(limitVideo, limitAudio), ss).m, p);
  }

  /** A close asks for a full reconciliation exactly when uncounting its track makes room
      below a limit that was not there. */
  lemma RelievesExactlyWhenFull(limitVideo: int, limitAudio: int, ss: seq<Step>, i: nat)
    requires IsRun(Init(limitVideo, limitAudio), ss) && Enabled(Run(Init(limitVideo, limitAudio), ss), Uncounts(i))
    ensures var w := Run(Init(limitVideo, limitAudio), ss); var kind, m' := w.closing[i].kind, Next(w, Uncounts(i)).m;
            Relieves(m', kind) <==> !HasCapacity(w.m, kind) && HasCapacity(m', kind)
  {
    CountersMatchHeld(limitVideo, limitAudio, ss);
    RunKeepsLimits(Init(limitVideo, limitAudio), ss);
  }

  // ---- how the index goes wrong ----

  ghost predicate Leads(w: World, ss: seq<Step>, end: World) {
    IsRun(w, ss) && Run(w, ss) == end
  }

  lemma First(w: World, s: Step, ss: seq<Step>, end: World)
    requires Enabled(w, s) && Leads(Next(w, s), ss, end)
    ensures Leads(w, [s] + ss, end)
  {
    assert ([s] + ss)[1..] == ss;
  }

  function GoodVideo(p: ParticipantID): Env {
    Env(true, Found(Video, p, true), Added)
  }

  /** t is held and counted, and about to be marked. */
  function SetWorld(p: ParticipantID, t: TrackID): World {
    World(Mgr(map[t := Sub(true, p, Known(Video), Held(Video), false)], map[], 1, 0, 0, 0, []), Marking(p, t), [])
  }

  /** It has been marked, and nothing else is going on. */
  function HeldWorld(p: ParticipantID, t: TrackID): World {
    World(Mgr(SetWorld(p, t).m.subs, map[p := {t}], 1, 0, 0, 0, [Status(p, true)]), Idle, [])
  }

  lemma HeldWorldIsReached(p: ParticipantID, t: TrackID)
    ensures Leads(Init(0, 0), [Wants(t)] + ([Attaches(t, GoodVideo(p))] + ([Counts] + [])), SetWorld(p, t))
    ensures Enabled(SetWorld(p, t), Marks) && Next(SetWorld(p, t), Marks) == HeldWorld(p, t)
  {
    var w1 := Next(Init(0, 0), Wants(t));
    var w2 := Next(w1, Attaches(t, GoodVideo(p)));
    assert Next(w2, Counts) == SetWorld(p, t);
    First(w2, Counts, [], SetWorld(p, t));
    First(w1, Attaches(t, GoodVideo(p)), [Counts] + [], SetWorld(p, t));
    First(Init(0, 0), Wants(t), [Attaches(t, GoodVideo(p))] + ([Counts] + []), SetWorld(p, t));
  }

  /** A held track can drop out of the index: its previous close unmarks it only after it
      was attached and marked again. */
  lemma LateUnmarkDropsHeld(p: ParticipantID, t: TrackID, w: World)
    requires w == HeldWorld(p, t)
    ensures var w3 := Next(Next(w, Releases(t)), Uncounts(0));
            && Enabled(w3, Attaches(t, GoodVideo(p)))
            && var w6 := Next(Next(Next(w3, Attaches(t, GoodVideo(p))), Counts), Marks);
            && Enabled(w6, Unmarks(0)) && !Safe(w6, Unmarks(0))
            && var end := Next(w6, Unmarks(0));
            && Holds(end.m, p, t) && end.m.subscribedTo == map[] && end.work == Idle && end.closing == []
  {
    var w2 := Next(w, Releases(t));
    assert w2.closing == [Closing(t, Video, false, Current)];
    var w3 := Next(w2, Uncounts(0));
    assert w3.closing == [Closing(t, Video, true, Current)];
    var w5 := Next(Next(w3, Attaches(t, GoodVideo(p))), Counts);
    assert w5.m.subscribedTo == map[p := {t}] && w5.work == Marking(p, t);
    assert {t} + {t} == {t};
    var w6 := Next(w5, Marks);
    assert w6.m.subscribedTo == map[p := {t}];
    assert Next(w6, Unmarks(0)).m.subscribedTo == map[];
  }

  /** An entry can outlive its track: the track closes between being set and being marked,
      and nothing unmarks it afterwards. */
  lemma ClosedBeforeMarkedStaysIndexed(p: ParticipantID, t: TrackID, w: World)
    requires w == SetWorld(p, t)
    ensures var w3 := Next(Next(Next(w, Releases(t)), Uncounts(0)), Unmarks(0));
            && Enabled(w3, Marks) && !Safe(w3, Marks)
            && var end := Next(Next(Next(w3, Marks), Drops(t)), CleansUp(t));
            && end.m.subs == map[] && end.m.subscribedTo == map[p := {t}] && end.work == Idle && end.closing == []
  {
    var w1 := Next(w, Releases(t));
    assert w1.closing == [Closing(t, Video, false, Current)];
    var w2 := Next(w1, Uncounts(0));
    assert w2.closing == [Closing(t, Video, true, Current)];
    var w3 := Next(w2, Unmarks(0));
    assert w3.closing == [];
    var end := Next(Next(Next(w3, Marks), Drops(t)), CleansUp(t));
    assert end.m.subs == map[] && end.m.subscribedTo == map[p := {t}];
  }
}
