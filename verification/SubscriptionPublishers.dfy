/** Subscription runs in which every track has one publisher: then an attempt never renames
    one, and only marks and unmarks can make the index wrong. */
module SubscriptionPublishers {
  import opened SubscriptionManager
  import opened SubscriptionRuns

  /** The resolver names the one publisher of each track. */
  predicate Resolves(s: Step, owner: map<TrackID, ParticipantID>) {
    s.Attaches? && s.env.track.Found? ==> s.t in owner && owner[s.t] == s.env.track.publisher != 0
  }

  ghost predicate AllResolve(ss: seq<Step>, owner: map<TrackID, ParticipantID>) {
    forall i :: 0 <= i < |ss| ==> Resolves(ss[i], owner)
  }

  predicate Owns(owner: map<TrackID, ParticipantID>, p: ParticipantID, t: TrackID) {
    p != 0 && t in owner && owner[t] == p
  }

  /** Publishers are named as the resolver does, or not yet. */
  ghost predicate NamesOk(w: World, owner: map<TrackID, ParticipantID>) {
    && (forall t :: t in w.m.subs ==> w.m.subs[t].publisher == 0 || Owns(owner, w.m.subs[t].publisher, t))
    && (forall p: ParticipantID, t: TrackID :: Marked(w.m, p, t) ==> Owns(owner, p, t))
    && (!w.work.Idle? ==> Owns(owner, w.work.publisher, w.work.track))
  }

  lemma AttachNames(m: Mgr, t: TrackID, env: Env, owner: map<TrackID, ParticipantID>)
    requires t in m.subs && Resolves(Attaches(t, env), owner)
    ensures var p := Attach(m, t, env).0.subs[t].publisher; p == m.subs[t].publisher || Owns(owner, p, t)
    ensures Attach(m, t, env).1 == Subscribed ==> env.track.Found? && Owns(owner, env.track.publisher, t)
  {
  }

  lemma NextKeepsNames(w: World, s: Step, owner: map<TrackID, ParticipantID>)
    requires NamesOk(w, owner) && Enabled(w, s) && Resolves(s, owner)
    ensures NamesOk(Next(w, s), owner)
  {
    match s
    case Attaches(t, env) =>
      AttachFacts(w.m, t, env);
      AttachNames(w.m, t, env, owner);
      assert forall p, u :: Marked(Next(w, s).m, p, u) == Marked(w.m, p, u);
    case Marks => MarkAdds(w.m, w.work.publisher, w.work.track);
    case Unmarks(i) => UnmarkRemoves(w.m, PublisherOf(w.m, w.closing[i]), w.closing[i].track);
    case _ => assert forall p, u :: Marked(Next(w, s).m, p, u) == Marked(w.m, p, u);
  }

  lemma AttachIsSafe(w: World, s: Step, owner: map<TrackID, ParticipantID>)
    requires NamesOk(w, owner) && Enabled(w, s) && Resolves(s, owner) && s.Attaches?
    ensures Safe(w, s)
  {
    AttachNames(w.m, s.t, s.env, owner);
  }

  /** Every mark and unmark of the run is safe. */
  ghost predicate MarksSafe(w: World, ss: seq<Step>)
    requires IsRun(w, ss)
    decreases |ss|
  {
    ss != [] ==> ((ss[0].Marks? || ss[0].Unmarks?) ==> Safe(w, ss[0])) && MarksSafe(Next(w, ss[0]), ss[1..])
  }

  lemma {:induction false} SafeExactlyWhenMarksAre(w: World, ss: seq<Step>, owner: map<TrackID, ParticipantID>)
    requires NamesOk(w, owner) && IsRun(w, ss) && AllResolve(ss, owner)
    ensures AllSafe(w, ss) <==> MarksSafe(w, ss)
    decreases |ss|
  {
    if ss != [] {
      NextKeepsNames(w, ss[0], owner);
      if ss[0].Attaches? {
        AttachIsSafe(w, ss[0], owner);
      }
      assert forall i :: 0 <= i < |ss[1..]| ==> ss[1..][i] == ss[i+1];
      SafeExactlyWhenMarksAre(Next(w, ss[0]), ss[1..], owner);
    }
  }

  /** When tracks keep their publishers, the index is right after every step of a run if and
      only if every mark finds its track held, or its close still to come, and no unmark finds
      its track held and marked again. */
  lemma IndexExactWhenMarksSafe(limitVideo: int, limitAudio: int, ss: seq<Step>, owner: map<TrackID, ParticipantID>)
    requires IsRun(Init(limitVideo, limitAudio), ss) && AllResolve(ss, owner)
    ensures AlwaysExact(Init(limitVideo, limitAudio), ss) <==> MarksSafe(Init(limitVideo, limitAudio), ss)
  {
    IndexExactExactlyWhenSafe(limitVideo, limitAudio, ss);
    SafeExactlyWhenMarksAre(Init(limitVideo, limitAudio), ss, owner);
  }
}
