/** Whole runs of a joining participant: SendJoinResponse lock section by lock section,
    with updates from the room, state changes and cache lookups in between. */
module JoinRuns {
  import opened Options
  import opened JoinUpdates

  /** Where SendJoinResponse stands. */
  datatype Phase = NotSent | Caching | Failed | Written | Replaying(queue: seq<Info>) | Sent

  /** `others` are the participants in the join response, `offered` all updates that
      came in before the participant disconnected. */
  datatype World = World(p: Participant, phase: Phase, others: seq<Info>, offered: seq<Info>)

  datatype Event =
    | Caches(others: seq<Info>)
    | WritesJoin(ok: bool)
    | Settles
    | Replays
    | Offers(infos: seq<Info>)
    | Connects
    | Disconnects
    | Looks(sid: nat)

  predicate JoinWritten(w: World) {
    w.phase == Written || w.phase.Replaying? || w.phase == Sent
  }

  /** An event that cannot occur changes nothing: a migrating participant has no join
      response, and the transport of any other one connects only after the response, since
      negotiation starts when the response is out. */
  function Next(w: World, e: Event): World {
    match e
    case Caches(others) =>
      if w.p.migration || w.phase != NotSent then w
      else w.(phase := Caching, others := others, p := w.p.(cache := AddAll(w.p.cache, others)))
    case WritesJoin(ok) =>
      if w.phase != Caching then w
      else if ok then w.(phase := Written, p := w.p.(log := w.p.log + [Join(w.others)]))
      else w.(phase := Failed)
    case Settles => if w.phase != Written then w else w.(phase := Replaying(w.p.queued), p := Settle(w.p))
    case Replays =>
      if !w.phase.Replaying? then w
      else w.(phase := Sent, p := if w.phase.queue != [] then SendUpdate(w.p, w.phase.queue) else w.p)
    case Offers(infos) =>
      w.(p := SendUpdate(w.p, infos), offered := if w.p.state == Disconnected then w.offered else w.offered + infos)
    case Connects => if !w.p.migration && !JoinWritten(w) then w else w.(p := UpdateState(w.p, Active))
    case Disconnects => w.(p := UpdateState(w.p, Disconnected))
    case Looks(sid) => w.(p := w.p.(cache := Touch(w.p.cache, sid)))
  }

  function Start(migration: bool, id: nat): World {
    World(Participant(migration, id, Joining, [], [], []), NotSent, [], [])
  }

  function Run(start: World, es: seq<Event>): World
    decreases |es|
  {
    if es == [] then start else Next(Run(start, es[..|es|-1]), es[|es|-1])
  }

  /** The updates in the log, in the order they were chosen. */
  function Chosen(log: seq<Out>): seq<Info>
    decreases |log|
  {
    if log == [] then []
    else
      var last := log[|log|-1];
      Chosen(log[..|log|-1]) + if last.Updates? then last.infos else []
  }

  /** All the client has been told, the join response first. */
  function Told(w: World): seq<Info> {
    w.others + Chosen(w.p.log)
  }

  /** The last version of a session in a sequence of updates. */
  function Newest(ms: seq<Info>, sid: nat): Option<nat>
    decreases |ms|
  {
    if ms == [] then None
    else if ms[|ms|-1].sid == sid then Some(ms[|ms|-1].version)
    else Newest(ms[..|ms|-1], sid)
  }

  predicate Fresh(told: seq<Info>, pi: Info) {
    Newest(told, pi.sid).Some? ==> Newest(told, pi.sid).value <= pi.version
  }

  /** The updates to send, with no cache: those that are visible and not outdated by
      what was told before them. */
  function Select(told: seq<Info>, pis: seq<Info>, id: nat): seq<Info>
    decreases |pis|
  {
    if pis == [] then []
    else
      var n := |pis| - 1;
      var kept := Select(told, pis[..n], id);
      if Visible(pis[n], id) && Fresh(told + kept, pis[n]) then kept + [pis[n]] else kept
  }

  ghost predicate From(pis: seq<Info>, sids: set<nat>) {
    forall k :: 0 <= k < |pis| ==> pis[k].sid in sids
  }

  /** The cache is the last version told of each session. */
  ghost predicate Remembers(l: Lru, told: seq<Info>, sids: set<nat>) {
    Within(l, sids) && forall t :: Get(l, t) == Newest(told, t)
  }

  ghost predicate NeverDecrease(ms: seq<Info>) {
    forall a, b :: 0 <= a < b < |ms| && ms[a].sid == ms[b].sid ==> ms[a].version <= ms[b].version
  }

  /** A version at least this new has been told. */
  predicate UpToDate(told: seq<Info>, pi: Info) {
    Newest(told, pi.sid).Some? && Newest(told, pi.sid).value >= pi.version
  }

  lemma NewestSnoc(ms: seq<Info>, pi: Info)
    ensures forall t :: Newest(ms + [pi], t) == if t == pi.sid then Some(pi.version) else Newest(ms, t)
  {
    assert (ms + [pi])[..|ms|] == ms;
  }

  lemma ChosenSnoc(log: seq<Out>, o: Out)
    ensures Chosen(log + [o]) == Chosen(log) + if o.Updates? then o.infos else []
  {
    assert (log + [o])[..|log|] == log;
  }

  lemma {:induction false} AddAllRemembers(others: seq<Info>, sids: set<nat>)
    requires From(others, sids) && |sids| <= CACHE_SIZE
    ensures Remembers(AddAll([], others), others, sids)
    decreases |others|
  {
    if others != [] {
      var n := |others| - 1;
      AddAllRemembers(others[..n], sids);
      AddWithin(AddAll([], others[..n]), sids, others[n].sid, others[n].version);
      NewestSnoc(others[..n], others[n]);
      assert others == others[..n] + [others[n]];
    }
  }

  /** Choosing through the cache selects the same updates as choosing without one. */
  lemma {:induction false} ChooseIsSelect(l: Lru, told: seq<Info>, pis: seq<Info>, id: nat, sids: set<nat>)
    requires Remembers(l, told, sids) && From(pis, sids)
    ensures ChooseAll(l, pis, id).1 == Select(told, pis, id)
    ensures Remembers(ChooseAll(l, pis, id).0, told + Select(told, pis, id), sids)
    decreases |pis|
  {
    if pis == [] {
      assert told + [] == told;
    } else {
      var n := |pis| - 1;
      ChooseIsSelect(l, told, pis[..n], id, sids);
      var before, kept := ChooseAll(l, pis[..n], id).0, Select(told, pis[..n], id);
      TouchWithin(before, sids, pis[n].sid);
      AddWithin(Touch(before, pis[n].sid), sids, pis[n].sid, pis[n].version);
      NewestSnoc(told + kept, pis[n]);
      assert told + (kept + [pis[n]]) == (told + kept) + [pis[n]];
    }
  }

  lemma {:induction false} NewestBounds(others: seq<Info>, chosen: seq<Info>, k: nat)
    requires NeverDecrease(chosen) && k < |chosen|
    ensures UpToDate(others + chosen, chosen[k])
    decreases |chosen|
  {
    var n := |chosen| - 1;
    assert others + chosen == (others + chosen[..n]) + [chosen[n]];
    NewestSnoc(others + chosen[..n], chosen[n]);
    if chosen[k].sid != chosen[n].sid {
      NewestBounds(others, chosen[..n], k);
    }
  }

  lemma {:induction false} SelectNeverDecreases(others: seq<Info>, chosen: seq<Info>, pis: seq<Info>, id: nat)
    requires NeverDecrease(chosen)
    ensures NeverDecrease(chosen + Select(others + chosen, pis, id))
    decreases |pis|
  {
    if pis == [] {
      assert chosen + [] == chosen;
    } else {
      var n := |pis| - 1;
      SelectNeverDecreases(others, chosen, pis[..n], id);
      var kept := Select(others + chosen, pis[..n], id);
      var all := chosen + kept;
      assert (others + chosen) + kept == others + all;
      assert chosen + (kept + [pis[n]]) == all + [pis[n]];
      forall k | 0 <= k < |all| ensures UpToDate(others + all, all[k]) {
        NewestBounds(others, all, k);
      }
    }
  }

  lemma {:induction false} SelectIsVisible(told: seq<Info>, pis: seq<Info>, id: nat)
    ensures forall k :: 0 <= k < |Select(told, pis, id)| ==> Visible(Select(told, pis, id)[k], id)
    decreases |pis|
  {
    if pis != [] {
      SelectIsVisible(told, pis[..|pis|-1], id);
    }
  }

  // ---- the invariant ----

  ghost predicate AllVisible(ms: seq<Info>, id: nat) {
    forall k :: 0 <= k < |ms| ==> Visible(ms[k], id)
  }

  ghost predicate Inv(w: World, sids: set<nat>) {
    && Remembers(w.p.cache, Told(w), sids)
    && From(w.p.queued, sids) && (w.phase.Replaying? ==> From(w.phase.queue, sids))
    && (w.phase == NotSent ==> w.others == [])
    && NeverDecrease(Chosen(w.p.log)) && AllVisible(Chosen(w.p.log), w.p.id)
  }

  /** What the run is about: these sessions only. */
  ghost predicate AllFrom(es: seq<Event>, sids: set<nat>) {
    forall k :: 0 <= k < |es| ==> EventFrom(es[k], sids)
  }

  ghost predicate EventFrom(e: Event, sids: set<nat>) {
    (e.Caches? ==> From(e.others, sids)) && (e.Offers? ==> From(e.infos, sids))
  }

  /** The join response comes first: until it is written nothing is, and the participant is
      joining; it is followed by updates only, and once it has settled the participant
      has joined. */
  ghost predicate Orderly(w: World) {
    && (w.p.migration ==> w.phase == NotSent)
    && (!w.p.migration && !JoinWritten(w) ==> w.p.log == [] && (w.p.state == Joining || w.p.state == Disconnected))
    && (JoinWritten(w) ==> JoinsFirst(w.p.log, w.others))
    && (w.phase.Replaying? || w.phase == Sent ==> w.p.state != Joining)
  }

  ghost predicate JoinsFirst(log: seq<Out>, others: seq<Info>) {
    log != [] && log[0] == Join(others) && forall k :: 0 < k < |log| ==> log[k].Updates?
  }

  lemma NextKeepsOrder(w: World, e: Event)
    requires Orderly(w)
    ensures Orderly(Next(w, e)) && Next(w, e).p.migration == w.p.migration
  {
  }

  lemma {:induction false} RunKeepsOrder(migration: bool, id: nat, es: seq<Event>)
    ensures var w := Run(Start(migration, id), es); Orderly(w) && w.p.migration == migration
    decreases |es|
  {
    if es != [] {
      RunKeepsOrder(migration, id, es[..|es|-1]);
      NextKeepsOrder(Run(Start(migration, id), es[..|es|-1]), es[|es|-1]);
    }
  }

  lemma ReadyUpdates(p: Participant, pis: seq<Info>, cache: Lru, kept: seq<Info>)
    requires IsReady(p) && (cache, kept) == ChooseAll(p.cache, pis, p.id)
    ensures SendUpdate(p, pis) == p.(cache := cache, log := p.log + [Updates(kept)])
  {
  }

  /** What a participant that is ready writes for a batch. */
  lemma ReadySends(w: World, pis: seq<Info>, sids: set<nat>)
    requires Remembers(w.p.cache, Told(w), sids) && From(pis, sids) && IsReady(w.p)
    ensures var q, kept := SendUpdate(w.p, pis), Select(Told(w), pis, w.p.id);
      && q == w.p.(cache := q.cache, log := w.p.log + [Updates(kept)])
      && Remembers(q.cache, Told(w) + kept, sids)
      && Chosen(q.log) == Chosen(w.p.log) + kept
      && w.others + Chosen(q.log) == Told(w) + kept
  {
    var kept := Select(Told(w), pis, w.p.id);
    ChooseIsSelect(w.p.cache, Told(w), pis, w.p.id, sids);
    ReadyUpdates(w.p, pis, ChooseAll(w.p.cache, pis, w.p.id).0, kept);
    ChosenSnoc(w.p.log, Updates(kept));
    ConcatAssociates(w.others, Chosen(w.p.log), kept);
  }

  /** A ready participant's batch keeps the invariant. */
  lemma ReadyKeeps(w: World, pis: seq<Info>, sids: set<nat>, v: World)
    requires Inv(w, sids) && From(pis, sids) && IsReady(w.p)
    requires v == w.(p := SendUpdate(w.p, pis))
    ensures Inv(v, sids)
  {
    ReadySends(w, pis, sids);
    SelectNeverDecreases(w.others, Chosen(w.p.log), pis, w.p.id);
    SelectIsVisible(Told(w), pis, w.p.id);
  }

  lemma OffersKeeps(w: World, infos: seq<Info>, sids: set<nat>)
    requires Inv(w, sids) && From(infos, sids)
    ensures Inv(Next(w, Offers(infos)), sids)
  {
    if IsReady(w.p) {
      ReadyKeeps(w, infos, sids, w.(p := SendUpdate(w.p, infos)));
    }
  }

  lemma CachesKeeps(w: World, others: seq<Info>, sids: set<nat>)
    requires Inv(w, sids) && Orderly(w) && From(others, sids)
    ensures Inv(Next(w, Caches(others)), sids)
  {
    if w.phase == NotSent && !w.p.migration {
      var u := Next(w, Caches(others));
      assert Told(w) == [] && Told(u) == others;
      EmptyCache(w.p.cache);
      AddAllRemembers(others, sids);
    }
  }

  lemma EmptyCache(l: Lru)
    requires forall t :: Get(l, t) == None
    ensures l == []
  {
    assert l != [] ==> Get(l, l[0].sid).Some?;
  }

  lemma WritesJoinKeeps(w: World, ok: bool, sids: set<nat>)
    requires Inv(w, sids)
    ensures Inv(Next(w, WritesJoin(ok)), sids)
  {
    ChosenSnoc(w.p.log, Join(w.others));
    assert Chosen(w.p.log) + [] == Chosen(w.p.log);
    assert Told(Next(w, WritesJoin(ok))) == Told(w);
  }

  lemma ReplaysKeeps(w: World, sids: set<nat>)
    requires Inv(w, sids) && Orderly(w)
    ensures Inv(Next(w, Replays), sids)
  {
    if w.phase.Replaying? && w.p.state != Disconnected && w.phase.queue != [] {
      ReadyKeeps(w, w.phase.queue, sids, w.(p := SendUpdate(w.p, w.phase.queue)));
    }
  }

  lemma QuietKeeps(w: World, e: Event, sids: set<nat>)
    requires Inv(w, sids) && (e.Settles? || e.Connects? || e.Disconnects? || e.Looks?)
    ensures Inv(Next(w, e), sids)
  {
    if e.Looks? {
      TouchWithin(w.p.cache, sids, e.sid);
    }
    assert Told(Next(w, e)) == Told(w);
  }

  lemma NextKeepsInv(w: World, e: Event, sids: set<nat>)
    requires Inv(w, sids) && Orderly(w) && EventFrom(e, sids)
    ensures Inv(Next(w, e), sids)
  {
    match e
    case Caches(others) => CachesKeeps(w, others, sids);
    case WritesJoin(ok) => WritesJoinKeeps(w, ok, sids);
    case Replays => ReplaysKeeps(w, sids);
    case Offers(infos) => OffersKeeps(w, infos, sids);
    case _ => QuietKeeps(w, e, sids);
  }

  lemma {:induction false} RunKeepsInv(migration: bool, id: nat, es: seq<Event>, sids: set<nat>)
    requires |sids| <= CACHE_SIZE && AllFrom(es, sids)
    ensures Inv(Run(Start(migration, id), es), sids)
    decreases |es|
  {
    if es != [] {
      var init := es[..|es|-1];
      assert forall k :: 0 <= k < |init| ==> init[k] == es[k];
      RunKeepsInv(migration, id, init, sids);
      RunKeepsOrder(migration, id, init);
      NextKeepsInv(Run(Start(migration, id), init), es[|es|-1], sids);
    }
  }

  // ---- what the client is told ----

  /** With at most 128 sessions, the versions sent for a session never decrease. */
  lemma VersionsNeverDecrease(migration: bool, id: nat, es: seq<Event>, sids: set<nat>, a: nat, b: nat)
    requires |sids| <= CACHE_SIZE && AllFrom(es, sids)
    requires var c := Chosen(Run(Start(migration, id), es).p.log); a < b < |c| && c[a].sid == c[b].sid
    ensures var c := Chosen(Run(Start(migration, id), es).p.log); c[a].version <= c[b].version
  {
    RunKeepsInv(migration, id, es, sids);
  }

  lemma {:induction false} ChooseIsVisible(l: Lru, pis: seq<Info>, id: nat)
    ensures AllVisible(ChooseAll(l, pis, id).1, id)
    decreases |pis|
  {
    if pis != [] {
      ChooseIsVisible(l, pis[..|pis|-1], id);
    }
  }

  lemma SendsVisible(p: Participant, pis: seq<Info>)
    requires AllVisible(Chosen(p.log), p.id)
    ensures AllVisible(Chosen(SendUpdate(p, pis).log), p.id) && SendUpdate(p, pis).id == p.id
  {
    ChooseIsVisible(p.cache, pis, p.id);
    ChosenSnoc(p.log, Updates(ChooseAll(p.cache, pis, p.id).1));
  }

  lemma NextVisible(w: World, e: Event)
    requires AllVisible(Chosen(w.p.log), w.p.id)
    ensures Next(w, e).p.id == w.p.id && AllVisible(Chosen(Next(w, e).p.log), w.p.id)
  {
    match e
    case WritesJoin(_) => ChosenSnoc(w.p.log, Join(w.others));
    case Offers(infos) => SendsVisible(w.p, infos);
    case Replays => if w.phase.Replaying? { SendsVisible(w.p, w.phase.queue); }
    case _ =>
  }

  lemma {:induction false} ChosenAreVisible(migration: bool, id: nat, es: seq<Event>)
    ensures var p := Run(Start(migration, id), es).p; p.id == id && AllVisible(Chosen(p.log), id)
    decreases |es|
  {
    if es != [] {
      ChosenAreVisible(migration, id, es[..|es|-1]);
      NextVisible(Run(Start(migration, id), es[..|es|-1]), es[|es|-1]);
    }
  }

  /** Hidden participants other than the client itself are never sent, whatever the
      cache holds and however many sessions there are. */
  lemma HiddenNeverSent(migration: bool, id: nat, es: seq<Event>, m: Info)
    requires m in Chosen(Run(Start(migration, id), es).p.log)
    ensures m.hidden ==> m.sid == id
  {
    ChosenAreVisible(migration, id, es);
  }

  // ---- before the join response ----

  /** In every run of a participant that does not migrate nothing is written before the join
      response, and nothing but updates after it. */
  lemma NoUpdateBeforeJoinResponse(id: nat, es: seq<Event>)
    ensures var w := Run(Start(false, id), es);
      if JoinWritten(w) then JoinsFirst(w.p.log, w.others) else w.p.log == []
  {
    RunKeepsOrder(false, id, es);
  }

  /** While it is joining, a non-migrating participant writes no update, and keeps
      everything offered, in order. */
  lemma {:induction false} JoiningQueuesEverything(id: nat, es: seq<Event>)
    ensures var w := Run(Start(false, id), es);
      && !w.p.migration
      && (w.phase == NotSent || w.phase == Caching || w.phase == Failed || w.phase == Written || w.p.state != Joining)
      && (w.p.state == Joining ==>
            w.p.queued == w.offered && w.p.log == if w.phase == Written then [Join(w.others)] else [])
    decreases |es|
  {
    if es != [] {
      JoiningQueuesEverything(id, es[..|es|-1]);
    }
  }

  /** When the join response settles, the updates to replay are all those offered, in order. */
  lemma SettlingReplaysAllOffered(id: nat, es: seq<Event>)
    requires var w := Run(Start(false, id), es); w.phase == Written && w.p.state == Joining
    ensures var w := Run(Start(false, id), es);
      && Next(w, Settles).phase == Replaying(w.offered)
      && Next(w, Settles).p.log == [Join(w.others)]
      && IsReady(Next(w, Settles).p)
  {
    JoiningQueuesEverything(id, es);
  }

  lemma ReplaySends(w: World, sids: set<nat>)
    requires Remembers(w.p.cache, Told(w), sids) && Orderly(w)
    requires w.phase.Replaying? && w.phase.queue != [] && From(w.phase.queue, sids) && w.p.state != Disconnected
    ensures Next(w, Replays).p.log == w.p.log + [Updates(Select(Told(w), w.phase.queue, w.p.id))]
  {
    ReadySends(w, w.phase.queue, sids);
  }

  /** The replay sends the queued updates in order, less the hidden ones and those
      outdated by what was told before them. */
  lemma ReplayIsInOrder(migration: bool, id: nat, es: seq<Event>, sids: set<nat>)
    requires |sids| <= CACHE_SIZE && AllFrom(es, sids)
    requires var w := Run(Start(migration, id), es); w.phase.Replaying? && w.phase.queue != [] && w.p.state != Disconnected
    ensures var w := Run(Start(migration, id), es);
      Next(w, Replays).p.log == w.p.log + [Updates(Select(Told(w), w.phase.queue, w.p.id))]
  {
    RunKeepsInv(migration, id, es, sids);
    RunKeepsOrder(migration, id, es);
    ReplaySends(Run(Start(migration, id), es), sids);
  }

  // ---- the class and the machine ----

  /** SendJoinResponse without interruption is its lock sections in a row. */
  lemma SendJoinIsItsSections(w: World, others: seq<Info>, writeOk: bool)
    requires w.phase == NotSent && !w.p.migration
    ensures Next(Next(Next(Next(w, Caches(others)), WritesJoin(writeOk)), Settles), Replays).p == SendJoin(w.p, others, writeOk)
  {
  }
}
