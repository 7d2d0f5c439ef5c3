/** The states of the participant of JoinRuns: when it is ready to be sent updates, that
    nothing waits while it is, and that nothing is sent once it has disconnected. */
module JoinStates {
  import opened Options
  import opened JoinUpdates
  import opened JoinRuns

  /** The join response has settled. */
  predicate Settled(w: World) {
    w.phase.Replaying? || w.phase == Sent
  }

  /** A participant that does not migrate joins with its response, and is active only after it;
      nothing waits once the response has settled. */
  ghost predicate StateOk(w: World) {
    && (w.p.migration ==> w.phase == NotSent && w.p.queued == [] && w.p.state != Joined)
    && (!w.p.migration ==> (w.p.state == Joined ==> Settled(w)) && (w.p.state == Active ==> JoinWritten(w)))
    && (Settled(w) ==> w.p.state != Joining)
    && (Settled(w) && w.p.state != Disconnected ==> w.p.queued == [])
  }

  lemma NextKeepsState(w: World, e: Event)
    requires StateOk(w)
    ensures StateOk(Next(w, e)) && Next(w, e).p.migration == w.p.migration
  {
    match e
    case Offers(infos) => SendKeepsState(w.p, infos);
    case Replays => if w.phase.Replaying? { SendKeepsState(w.p, w.phase.queue); }
    case _ =>
  }

  lemma SendKeepsState(p: Participant, pis: seq<Info>)
    ensures var q := SendUpdate(p, pis);
      && q.migration == p.migration && q.state == p.state && q.id == p.id
      && q.queued == (if p.state != Disconnected && !IsReady(p) then p.queued + pis else p.queued)
      && |q.log| == |p.log| + if IsReady(p) then 1 else 0
  {
  }

  lemma {:induction false} RunKeepsState(migration: bool, id: nat, es: seq<Event>)
    ensures var w := Run(Start(migration, id), es); StateOk(w) && w.p.migration == migration
    decreases |es|
  {
    if es != [] {
      RunKeepsState(migration, id, es[..|es|-1]);
      NextKeepsState(Run(Start(migration, id), es[..|es|-1]), es[|es|-1]);
    }
  }

  /** In every run an update offered to a participant that has not disconnected is written at
      once if it migrates, has its join response settled, or is active; and otherwise waits. */
  lemma OffersAreWrittenOnceReady(migration: bool, id: nat, es: seq<Event>, infos: seq<Info>)
    requires Run(Start(migration, id), es).p.state != Disconnected
    ensures var w := Run(Start(migration, id), es); var p := Next(w, Offers(infos)).p;
      if migration || Settled(w) || w.p.state == Active then |p.log| == |w.p.log| + 1 && p.queued == w.p.queued
      else p.log == w.p.log && p.queued == w.p.queued + infos
  {
    RunKeepsState(migration, id, es);
    SendKeepsState(Run(Start(migration, id), es).p, infos);
  }

  /** Once the join response has been sent and replayed nothing waits; for a migrating
      participant nothing ever does. */
  lemma NothingWaitsOnceSent(migration: bool, id: nat, es: seq<Event>)
    ensures var w := Run(Start(migration, id), es);
      (w.phase == Sent && w.p.state != Disconnected) || migration ==> w.p.queued == []
  {
    RunKeepsState(migration, id, es);
  }

  /** States never go back, and once disconnected a participant is sent no update. */
  lemma {:induction false} StatesOnlyAdvance(w: World, es: seq<Event>)
    ensures Rank(w.p.state) <= Rank(Run(w, es).p.state)
    ensures w.p.state == Disconnected ==> Chosen(Run(w, es).p.log) == Chosen(w.p.log)
    decreases |es|
  {
    if es != [] {
      var init, e := Run(w, es[..|es|-1]), es[|es|-1];
      StatesOnlyAdvance(w, es[..|es|-1]);
      if e.Offers? {
        SendKeepsState(init.p, e.infos);
      } else if e.Replays? && init.phase.Replaying? {
        SendKeepsState(init.p, init.phase.queue);
      } else if e.WritesJoin? {
        ChosenSnoc(init.p.log, Join(init.others));
      }
    }
  }
}
