/** What subscription runs owe the requests: the last one decides what is desired, and nothing
    is held without permission. */
module SubscriptionRequests {
  import opened SubscriptionManager
  import opened SubscriptionRuns

  predicate Desires(m: Mgr, t: TrackID) {
    t in m.subs && m.subs[t].desired
  }

  /** Whether t is desired after the requests of a run, when it was before or not. */
  predicate Requested(was: bool, ss: seq<Step>, t: TrackID)
    decreases |ss|
  {
    if ss == [] then was
    else Requested(if ss[0] == Wants(t) then true else if ss[0] == Drops(t) then false else was, ss[1..], t)
  }

  lemma {:induction false} DesiredFollows(w: World, ss: seq<Step>, t: TrackID)
    requires IsRun(w, ss)
    ensures Desires(Run(w, ss).m, t) <==> Requested(Desires(w.m, t), ss, t)
    decreases |ss|
  {
    if ss != [] {
      if ss[0].Attaches? {
        AttachFacts(w.m, ss[0].t, ss[0].env);
      }
      DesiredFollows(Next(w, ss[0]), ss[1..], t);
    }
  }

  /** In every run a track is desired if and only if the last request about it wanted it. */
  lemma DesiredIsLastRequest(limitVideo: int, limitAudio: int, ss: seq<Step>, t: TrackID)
    requires IsRun(Init(limitVideo, limitAudio), ss)
    ensures Desires(Run(Init(limitVideo, limitAudio), ss).m, t) <==> Requested(false, ss, t)
  {
    DesiredFollows(Init(limitVideo, limitAudio), ss, t);
  }

  predicate IsHeld(m: Mgr, t: TrackID) {
    t in m.subs && m.subs[t].held != NotHeld
  }

  /** A step that holds a track is an attempt by a participant that may subscribe, on a track
      that was found, with permission for it and room for its kind. */
  lemma HeldOnlyWithPermission(w: World, s: Step, t: TrackID)
    requires Enabled(w, s) && !IsHeld(w.m, t) && IsHeld(Next(w, s).m, t)
    ensures s.Attaches? && s.t == t && Desires(w.m, t)
    ensures s.env.canSubscribe && s.env.track.Found? && s.env.track.hasPermission && s.env.add == Added
    ensures HasCapacity(w.m, s.env.track.kind) && Next(w, s).m.subs[t].held == Held(s.env.track.kind)
  {
    if s.Attaches? {
      AttachFacts(w.m, s.t, s.env);
    }
  }

  /** And only a close releases one, or a cleanup of what is not held anyway. */
  lemma ReleasedOnlyByClose(w: World, s: Step, t: TrackID)
    requires Enabled(w, s) && IsHeld(w.m, t) && !IsHeld(Next(w, s).m, t)
    ensures s == Releases(t)
  {
    if s.Attaches? {
      AttachFacts(w.m, s.t, s.env);
    }
  }
}
