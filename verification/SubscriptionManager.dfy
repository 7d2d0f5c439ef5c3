/** The subscription manager of pkg/rtc/subscriptionmanager.go in its asynchronous
    mode: the subscriptions a participant asked for, what it holds of them, the
    counters that limit it, and the index of the publishers it is subscribed to. */
module SubscriptionManager {

  /** Identifiers only matter up to equality. */
  type TrackID = nat
  type ParticipantID = nat

  datatype Kind = Audio | Video | Data

  datatype Held = NotHeld | Held(kind: Kind)

  datatype KnownKind = Unknown | Known(kind: Kind)

  /** The value of a subscription; `held` is the kind of its subscribed track, if any. */
  datatype Sub = Sub(desired: bool, publisher: ParticipantID, kind: KnownKind, held: Held, bound: bool)

  predicate NeedsSubscribe(s: Sub) { s.desired && s.held == NotHeld }
  predicate NeedsUnsubscribe(s: Sub) { !s.desired && s.held != NotHeld }
  predicate NeedsBind(s: Sub) { s.desired && s.held != NotHeld && !s.bound }
  predicate NeedsCleanup(s: Sub) { !s.desired && s.held == NotHeld }
  predicate Settled(s: Sub) { s.desired && s.held != NotHeld && s.bound }

  const NEW_SUB := Sub(false, 0, Unknown, NotHeld, false)

  /** A status callback: the participant became (un)subscribed to a publisher. */
  datatype Status = Status(publisher: ParticipantID, subscribed: bool)

  datatype Mgr = Mgr(
    subs: map<TrackID, Sub>,
    subscribedTo: map<ParticipantID, set<TrackID>>,
    video: int,
    audio: int,
    limitVideo: int,
    limitAudio: int,
    statuses: seq<Status>
  )

  // ---- requests ----

  function Want(m: Mgr, t: TrackID): Mgr {
    m.(subs := m.subs[t := (if t in m.subs then m.subs[t] else NEW_SUB).(desired := true)])
  }

  function Unwant(m: Mgr, t: TrackID): Mgr {
    if t in m.subs then m.(subs := m.subs[t := m.subs[t].(desired := false)]) else m
  }

  // ---- the index ----

  function Mark(m: Mgr, p: ParticipantID, t: TrackID): Mgr {
    if p in m.subscribedTo then m.(subscribedTo := m.subscribedTo[p := m.subscribedTo[p] + {t}])
    else m.(subscribedTo := m.subscribedTo[p := {t}], statuses := m.statuses + [Status(p, true)])
  }

  function Unmark(m: Mgr, p: ParticipantID, t: TrackID): Mgr {
    if p !in m.subscribedTo then m
    else if m.subscribedTo[p] - {t} == {} then
      m.(subscribedTo := m.subscribedTo - {p}, statuses := m.statuses + [Status(p, false)])
    else m.(subscribedTo := m.subscribedTo[p := m.subscribedTo[p] - {t}])
  }

  // ---- subscribing ----

  predicate HasCapacity(m: Mgr, kind: Kind) {
    match kind
    case Video => !(m.limitVideo > 0 && m.video >= m.limitVideo)
    case Audio => !(m.limitAudio > 0 && m.audio >= m.limitAudio)
    case Data => true
  }

  function Count(m: Mgr, kind: Kind, n: int): Mgr {
    match kind
    case Video => m.(video := m.video + n)
    case Audio => m.(audio := m.audio + n)
    case Data => m
  }

  /** What AddSubscriber answers; `AddedNothing` is success without a track. */
  datatype AddResult = Added | AddedNothing | AlreadySubscribed | ErrNoReceiver | ErrNotOpen | ErrOther

  datatype Resolved = NotFound | Found(kind: Kind, publisher: ParticipantID, hasPermission: bool)

  /** What a subscription attempt meets: the participant's permission, the resolved
      track and its answer. */
  datatype Env = Env(canSubscribe: bool, track: Resolved, add: AddResult)

  datatype Result =
    | Subscribed
    | NoSubscribePermission
    | SubscriptionLimitExceeded
    | TrackNotFound
    | NoTrackPermission
    | AddFailed(cause: AddResult)

  /** subscribe() up to the point where the subscribed track is set. */
  function Attach(m: Mgr, t: TrackID, env: Env): (Mgr, Result)
    requires t in m.subs
  {
    var s := m.subs[t];
    if !env.canSubscribe then (m, NoSubscribePermission)
    else if s.kind.Known? && !HasCapacity(m, s.kind.kind) then (m, SubscriptionLimitExceeded)
    else if env.track.NotFound? then (m, TrackNotFound)
    else AttachFound(m, t, env.track, env.add)
  }

  function AttachFound(m: Mgr, t: TrackID, track: Resolved, add: AddResult): (Mgr, Result)
    requires t in m.subs && track.Found?
  {
    var s := m.subs[t];
    var m1 := m.(subs := m.subs[t := if s.kind.Known? then s else s.(kind := Known(track.kind))]);
    if !HasCapacity(m1, track.kind) then (m1, SubscriptionLimitExceeded)
    else
      var m2 := m1.(subs := m1.subs[t := m1.subs[t].(publisher := track.publisher)]);
      if !track.hasPermission then (m2, NoTrackPermission) else AddTo(m2, t, track.kind, add)
  }

  function AddTo(m: Mgr, t: TrackID, kind: Kind, add: AddResult): (Mgr, Result)
    requires t in m.subs
  {
    match add
    case Added => (m.(subs := m.subs[t := m.subs[t].(held := Held(kind), bound := false)]), Subscribed)
    case AddedNothing => (m, Subscribed)
    case AlreadySubscribed => (m, Subscribed)
    case _ => (m, AddFailed(add))
  }

  /** addSubscriber() counts a track after it has set it. */
  function CountAdded(m: Mgr, kind: Kind, add: AddResult): Mgr {
    if add == Added then Count(m, kind, 1) else m
  }

  /** subscribe() without interruption: the track is set, counted, and its publisher marked. */
  function Subscribe(m: Mgr, t: TrackID, env: Env): (Mgr, Result)
    requires t in m.subs
  {
    var (m1, r) := Attach(m, t, env);
    if r == Subscribed then (Mark(CountAdded(m1, env.track.kind, env.add), env.track.publisher, t), r) else (m1, r)
  }

  // ---- the subscribed track closes ----

  function Release(m: Mgr, t: TrackID): Mgr
    requires t in m.subs
  {
    m.(subs := m.subs[t := m.subs[t].(held := NotHeld, bound := false)])
  }

  /** Whether uncounting a track of this kind has just made room below a limit. */
  predicate Relieves(m: Mgr, kind: Kind) {
    match kind
    case Video => m.limitVideo > 0 && m.video == m.limitVideo - 1
    case Audio => m.limitAudio > 0 && m.audio == m.limitAudio - 1
    case Data => false
  }

  /** handleSubscribedTrackClose without interruption: the state after, and whether every
      subscription is to be reconciled. */
  function Close(m: Mgr, t: TrackID): (Mgr, bool)
    requires t in m.subs
  {
    var s := m.subs[t];
    if s.held == NotHeld then (m, false)
    else
      var m1 := Count(Release(m, t), s.held.kind, -1);
      (Unmark(m1, s.publisher, t), Relieves(m1, s.held.kind))
  }

  function Cleanup(m: Mgr, t: TrackID): Mgr {
    m.(subs := m.subs - {t})
  }

  // ---- reconciling one subscription ----

  /** What the reconciler does next: nothing, or ask the publisher's track to drop the subscriber. */
  datatype Action = NoAction | RemoveSubscriber

  /** `open`: neither the manager nor the participant is closed.  `deferred`: an
      unsubscribe is pending and recent.  `expired`: the track was not found for too long. */
  function Reconcile(m: Mgr, t: TrackID, open: bool, deferred: bool, expired: bool, env: Env): (Mgr, Action)
    requires t in m.subs
  {
    var s := m.subs[t];
    if !open then (m, NoAction)
    else if NeedsSubscribe(s) then
      if deferred then (m, NoAction)
      else
        var (m1, r) := Subscribe(m, t, env);
        (if r == TrackNotFound && expired then Unwant(m1, t) else m1, NoAction)
    else if NeedsUnsubscribe(s) then (m, RemoveSubscriber)
    else if NeedsCleanup(s) then (Cleanup(m, t), NoAction)
    else (m, NoAction)
  }

  function One(b: bool): nat { if b then 1 else 0 }

  /** The four needs and being settled are exhaustive and exclusive. */
  lemma NeedsPartition(s: Sub)
    ensures One(NeedsSubscribe(s)) + One(NeedsUnsubscribe(s)) + One(NeedsBind(s)) + One(NeedsCleanup(s)) + One(Settled(s)) == 1
  {
  }

  class MediaTrackSubscription {
    const trackID: TrackID
    var desired: bool
    var publisherID: ParticipantID
    var kind: KnownKind
    var subscribedTrack: Held
    var bound: bool

    ghost function View(): Sub
      reads this
    {
      Sub(desired, publisherID, kind, subscribedTrack, bound)
    }

    constructor (trackID: TrackID)
      ensures this.trackID == trackID && View() == NEW_SUB
    {
      this.trackID := trackID;
      desired, publisherID, kind, subscribedTrack, bound := false, 0, Unknown, NotHeld, false;
    }

    method SetSubscribedTrack(track: Held)
      modifies this
      ensures View() == old(View()).(held := track, bound := false)
    {
      subscribedTrack := track;
      bound := false;
    }
  }

  class SubscriptionManager {
    const limitVideo: int
    const limitAudio: int
    var subscriptions: map<TrackID, MediaTrackSubscription>
    var subscribedTo: map<ParticipantID, set<TrackID>>
    var videoCount: int
    var audioCount: int
    var statuses: seq<Status>

    /** Each subscription is filed under its own track, so no two keys share one. */
    ghost predicate Valid()
      reads this, subscriptions.Values
    {
      forall t :: t in subscriptions ==> subscriptions[t].trackID == t
    }

    ghost function View(): Mgr
      reads this, subscriptions.Values
    {
      Mgr(map t | t in subscriptions :: subscriptions[t].View(), subscribedTo, videoCount, audioCount,
          limitVideo, limitAudio, statuses)
    }

    constructor (limitVideo: int, limitAudio: int)
      ensures Valid() && View() == Mgr(map[], map[], 0, 0, limitVideo, limitAudio, [])
    {
      this.limitVideo, this.limitAudio := limitVideo, limitAudio;
      subscriptions, subscribedTo := map[], map[];
      videoCount, audioCount, statuses := 0, 0, [];
    }

    /** `open`: the manager is not closed. */
    method SubscribeToTrack(t: TrackID, open: bool)
      requires Valid()
      modifies this, subscriptions.Values
      ensures Valid() && fresh(subscriptions.Values - old(subscriptions.Values))
      ensures View() == if open then Want(old(View()), t) else old(View())
    {
      if !open {
        return;
      }
      if t !in subscriptions {
        var s := new MediaTrackSubscription(t);
        subscriptions := subscriptions[t := s];
      }
      subscriptions[t].desired := true;
    }

    method UnsubscribeFromTrack(t: TrackID)
      requires Valid()
      modifies subscriptions.Values
      ensures Valid() && subscriptions == old(subscriptions)
      ensures View() == Unwant(old(View()), t)
    {
      if t in subscriptions {
        subscriptions[t].desired := false;
      }
    }

    method HasCapacityForSubscription(kind: Kind) returns (r: bool)
      ensures r <==> HasCapacity(View(), kind)
    {
      match kind {
        case Video =>
          if limitVideo > 0 && videoCount >= limitVideo {
            return false;
          }
        case Audio =>
          if limitAudio > 0 && audioCount >= limitAudio {
            return false;
          }
        case Data =>
      }
      r := true;
    }

    method MarkSubscribedTo(p: ParticipantID, t: TrackID)
      modifies this`subscribedTo, this`statuses
      ensures View() == Mark(old(View()), p, t)
    {
      if p !in subscribedTo {
        subscribedTo := subscribedTo[p := {t}];
        statuses := statuses + [Status(p, true)];
      } else {
        subscribedTo := subscribedTo[p := subscribedTo[p] + {t}];
      }
    }

    method UnmarkSubscribedTo(p: ParticipantID, t: TrackID)
      modifies this`subscribedTo, this`statuses
      ensures View() == Unmark(old(View()), p, t)
    {
      if p in subscribedTo {
        var left := subscribedTo[p] - {t};
        if left == {} {
          subscribedTo := subscribedTo - {p};
          statuses := statuses + [Status(p, false)];
        } else {
          subscribedTo := subscribedTo[p := left];
        }
      }
    }

    /** A subscription of this manager. */
    ghost predicate Owns(s: MediaTrackSubscription)
      reads this
    {
      s.trackID in subscriptions && subscriptions[s.trackID] == s
    }

    /** When only s has changed, the view changes only at its track. */
    twostate lemma OneChanged(s: MediaTrackSubscription)
      requires old(Valid()) && old(Owns(s)) && subscriptions == old(subscriptions)
      requires forall t :: t in subscriptions && subscriptions[t] != s ==> unchanged(subscriptions[t])
      ensures View().subs == old(View()).subs[s.trackID := s.View()]
    {
    }

    method AddSubscriber(s: MediaTrackSubscription, kind: Kind, add: AddResult) returns (r: Result)
      requires Valid() && Owns(s)
      modifies this`videoCount, this`audioCount, s
      ensures Valid() && s.publisherID == old(s.publisherID)
      ensures var (m1, r1) := AddTo(old(View()), s.trackID, kind, add); View() == CountAdded(m1, kind, add) && r == r1
    {
      if add == ErrNoReceiver || add == ErrNotOpen || add == ErrOther {
        return AddFailed(add);
      }
      if add == Added {
        s.SetSubscribedTrack(Held(kind));
        match kind {
          case Video => videoCount := videoCount + 1;
          case Audio => audioCount := audioCount + 1;
          case Data =>
        }
        OneChanged(s);
      }
      r := Subscribed;
    }

    /** subscribe() up to and including addSubscriber(). */
    method AttachNow(s: MediaTrackSubscription, env: Env) returns (r: Result)
      requires Valid() && Owns(s)
      modifies this`videoCount, this`audioCount, s
      ensures Valid()
      ensures r == Attach(old(View()), s.trackID, env).1
      ensures r == Subscribed ==> env.track.Found? && s.publisherID == env.track.publisher
      ensures var m1 := Attach(old(View()), s.trackID, env).0;
              View() == if r == Subscribed then CountAdded(m1, env.track.kind, env.add) else m1
    {
      if !env.canSubscribe {
        return NoSubscribePermission;
      }
      if s.kind.Known? {
        var room := HasCapacityForSubscription(s.kind.kind);
        if !room {
          return SubscriptionLimitExceeded;
        }
      }
      if env.track.NotFound? {
        return TrackNotFound;
      }
      r := AttachFoundNow(s, env.track, env.add);
    }

    /** The rest of it, once the track is resolved. */
    method AttachFoundNow(s: MediaTrackSubscription, track: Resolved, add: AddResult) returns (r: Result)
      requires Valid() && Owns(s) && track.Found?
      modifies this`videoCount, this`audioCount, s
      ensures Valid()
      ensures var (m1, r1) := AttachFound(old(View()), s.trackID, track, add);
              r == r1 && View() == if r == Subscribed then CountAdded(m1, track.kind, add) else m1
      ensures r == Subscribed ==> s.publisherID == track.publisher
    {
      if s.kind.Unknown? {
        s.kind := Known(track.kind);
      }
      OneChanged(s);
      var room := HasCapacityForSubscription(track.kind);
      if !room {
        return SubscriptionLimitExceeded;
      }
      label named:
      s.publisherID := track.publisher;
      OneChanged@named(s);
      if !track.hasPermission {
        return NoTrackPermission;
      }
      r := AddSubscriber(s, track.kind, add);
    }

    method SubscribeNow(s: MediaTrackSubscription, env: Env) returns (r: Result)
      requires Valid() && Owns(s)
      modifies this`subscribedTo, this`statuses, this`videoCount, this`audioCount, s
      ensures Valid()
      ensures (View(), r) == Subscribe(old(View()), s.trackID, env)
    {
      r := AttachNow(s, env);
      if r == Subscribed {
        MarkSubscribedTo(s.publisherID, s.trackID);
      }
    }

    method HandleSubscribedTrackClose(s: MediaTrackSubscription) returns (reconcileAll: bool)
      requires Valid() && Owns(s)
      modifies this`subscribedTo, this`statuses, this`videoCount, this`audioCount, s
      ensures Valid()
      ensures (View(), reconcileAll) == Close(old(View()), s.trackID)
    {
      var track := s.subscribedTrack;
      if track == NotHeld {
        return false;
      }
      s.SetSubscribedTrack(NotHeld);
      reconcileAll := false;
      match track.kind {
        case Video =>
          videoCount := videoCount - 1;
          reconcileAll := limitVideo > 0 && videoCount == limitVideo - 1;
        case Audio =>
          audioCount := audioCount - 1;
          reconcileAll := limitAudio > 0 && audioCount == limitAudio - 1;
        case Data =>
      }
      OneChanged(s);
      ghost var m1 := View();
      assert m1 == Count(old(View()).(subs := old(View()).subs[s.trackID := s.View()]), track.kind, -1);
      UnmarkSubscribedTo(s.publisherID, s.trackID);
    }

    method ReconcileSubscription(s: MediaTrackSubscription, open: bool, deferred: bool, expired: bool, env: Env) returns (a: Action)
      requires Valid() && Owns(s)
      modifies this, s
      ensures Valid()
      ensures (View(), a) == Reconcile(old(View()), s.trackID, open, deferred, expired, env)
    {
      a := NoAction;
      if !open {
        return;
      }
      if s.desired && s.subscribedTrack == NotHeld {
        if !deferred {
          var r := SubscribeNow(s, env);
          if r == TrackNotFound && expired {
            label tried:
            s.desired := false;
            OneChanged@tried(s);
          }
        }
        return;
      }
      if !s.desired && s.subscribedTrack != NotHeld {
        return RemoveSubscriber;
      }
      if !s.desired && s.subscribedTrack == NotHeld {
        subscriptions := subscriptions - {s.trackID};
        assert View().subs == old(View()).subs - {s.trackID};
      }
    }
  }
}
