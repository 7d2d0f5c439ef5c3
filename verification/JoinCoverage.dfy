/** No update offered to the participant of JoinRuns is lost, however many sessions pass
    through its cache of 128 versions. */
module JoinCoverage {
  import opened Options
  import opened JoinUpdates
  import opened JoinRuns

  /** A version at least this new has been told. */
  ghost predicate ToldSince(told: seq<Info>, sid: nat, version: nat) {
    exists k :: 0 <= k < |told| && told[k].sid == sid && told[k].version >= version
  }

  ghost predicate Known(l: Lru, told: seq<Info>) {
    forall e :: e in l ==> ToldSince(told, e.sid, e.version)
  }

  lemma ToldLonger(told: seq<Info>, more: seq<Info>, sid: nat, version: nat)
    requires ToldSince(told, sid, version)
    ensures ToldSince(told + more, sid, version)
  {
    var k :| 0 <= k < |told| && told[k].sid == sid && told[k].version >= version;
    assert (told + more)[k] == told[k];
  }

  lemma {:induction false} WithoutMembers(l: Lru, sid: nat)
    ensures forall e :: e in Without(l, sid) ==> e in l
    ensures Get(l, sid).Some? ==> Entry(sid, Get(l, sid).value) in l
  {
    if l != [] {
      WithoutMembers(l[1..], sid);
    }
  }

  lemma KnownOfNothing(l: Lru)
    requires Known(l, [])
    ensures l == []
  {
    forall t ensures Get(l, t) == None {
      WithoutMembers(l, t);
    }
    EmptyCache(l);
  }

  lemma AddKnown(l: Lru, told: seq<Info>, pi: Info)
    requires Known(l, told)
    ensures Known(Add(l, pi.sid, pi.version), told + [pi])
  {
    WithoutMembers(l, pi.sid);
    forall e | e in Add(l, pi.sid, pi.version) ensures ToldSince(told + [pi], e.sid, e.version) {
      if e in l {
        ToldLonger(told, [pi], e.sid, e.version);
      } else {
        assert (told + [pi])[|told|] == pi;
      }
    }
  }

  lemma TouchKnown(l: Lru, told: seq<Info>, sid: nat)
    requires Known(l, told)
    ensures Known(Touch(l, sid), told)
    ensures Get(l, sid).Some? ==> ToldSince(told, sid, Get(l, sid).value)
  {
    WithoutMembers(l, sid);
  }

  lemma {:induction false} AddAllKnown(others: seq<Info>)
    ensures Known(AddAll([], others), others)
    decreases |others|
  {
    if others != [] {
      var n := |others| - 1;
      AddAllKnown(others[..n]);
      AddKnown(AddAll([], others[..n]), others[..n], others[n]);
      assert others == others[..n] + [others[n]];
    }
  }

  lemma ChooseOneTells(l: Lru, told: seq<Info>, pi: Info, id: nat)
    requires Known(l, told)
    ensures var (after, ok) := ChooseOne(l, pi, id); var all := told + if ok then [pi] else [];
      Known(after, all) && (Visible(pi, id) ==> ToldSince(all, pi.sid, pi.version))
  {
    TouchKnown(l, told, pi.sid);
    if ChooseOne(l, pi, id).1 {
      AddKnown(Touch(l, pi.sid), told, pi);
      assert (told + [pi])[|told|] == pi;
    } else {
      assert told + [] == told;
      if Visible(pi, id) {
        var k :| 0 <= k < |told| && told[k].sid == pi.sid && told[k].version >= Get(l, pi.sid).value;
        assert told[k].version >= pi.version;
      }
    }
  }

  ghost predicate BatchTold(told: seq<Info>, pis: seq<Info>, id: nat) {
    forall k :: 0 <= k < |pis| && Visible(pis[k], id) ==> ToldSince(told, pis[k].sid, pis[k].version)
  }

  lemma BatchTellsOneMore(told: seq<Info>, more: seq<Info>, pis: seq<Info>, pi: Info, id: nat)
    requires BatchTold(told, pis, id) && (Visible(pi, id) ==> ToldSince(told + more, pi.sid, pi.version))
    ensures BatchTold(told + more, pis + [pi], id)
  {
    forall k | 0 <= k < |pis| && Visible(pis[k], id) ensures ToldSince(told + more, pis[k].sid, pis[k].version) {
      ToldLonger(told, more, pis[k].sid, pis[k].version);
    }
  }

  /** After a batch each visible update of it has been told, or a newer version has. */
  lemma {:induction false} ChooseTells(l: Lru, told: seq<Info>, pis: seq<Info>, id: nat)
    requires Known(l, told)
    ensures Known(ChooseAll(l, pis, id).0, told + ChooseAll(l, pis, id).1)
    ensures BatchTold(told + ChooseAll(l, pis, id).1, pis, id)
    decreases |pis|
  {
    if pis == [] {
      assert told + [] == told;
    } else {
      var n := |pis| - 1;
      var (before, valid) := ChooseAll(l, pis[..n], id);
      ChooseTells(l, told, pis[..n], id);
      ChooseOneTells(before, told + valid, pis[n], id);
      var more := if ChooseOne(before, pis[n], id).1 then [pis[n]] else [];
      BatchTellsOneMore(told + valid, more, pis[..n], pis[n], id);
      assert pis[..n] + [pis[n]] == pis;
      assert valid + [] == valid;
      ConcatAssociates(told, valid, more);
    }
  }

  ghost predicate Waits(w: World, m: Info) {
    m in w.p.queued || (w.phase.Replaying? && m in w.phase.queue)
  }

  ghost predicate Covers(w: World, m: Info) {
    Waits(w, m) || ToldSince(Told(w), m.sid, m.version)
  }

  ghost predicate CoverInv(w: World) {
    && Orderly(w) && Known(w.p.cache, Told(w)) && (w.phase == NotSent ==> w.others == [])
    && (w.p.state != Disconnected ==> forall m :: m in w.offered && Visible(m, w.p.id) ==> Covers(w, m))
  }

  /** What a batch of a ready participant tells. */
  lemma ReadyTells(w: World, pis: seq<Info>, v: World)
    requires Known(w.p.cache, Told(w)) && IsReady(w.p) && v == w.(p := SendUpdate(w.p, pis))
    ensures Known(v.p.cache, Told(v))
    ensures forall m :: m in pis && Visible(m, w.p.id) ==> ToldSince(Told(v), m.sid, m.version)
    ensures forall m: Info :: ToldSince(Told(w), m.sid, m.version) ==> ToldSince(Told(v), m.sid, m.version)
  {
    var (cache, kept) := ChooseAll(w.p.cache, pis, w.p.id);
    ChooseTells(w.p.cache, Told(w), pis, w.p.id);
    ReadyUpdates(w.p, pis, cache, kept);
    ChosenSnoc(w.p.log, Updates(kept));
    ConcatAssociates(w.others, Chosen(w.p.log), kept);
    forall m: Info | ToldSince(Told(w), m.sid, m.version) ensures ToldSince(Told(v), m.sid, m.version) {
      ToldLonger(Told(w), kept, m.sid, m.version);
    }
  }

  lemma OffersCover(w: World, infos: seq<Info>)
    requires CoverInv(w)
    ensures CoverInv(Next(w, Offers(infos)))
  {
    NextKeepsOrder(w, Offers(infos));
    var u := Next(w, Offers(infos));
    if IsReady(w.p) {
      var v := w.(p := SendUpdate(w.p, infos));
      ReadyTells(w, infos, v);
      assert Told(u) == Told(v);
    } else if w.p.state != Disconnected {
      assert Told(u) == Told(w);
      assert forall m :: m in w.offered && Visible(m, w.p.id) ==> Covers(w, m);
    }
  }

  lemma ReplaysCover(w: World)
    requires CoverInv(w) && w.phase.Replaying? && w.p.state != Disconnected
    ensures CoverInv(Next(w, Replays))
  {
    NextKeepsOrder(w, Replays);
    var q, u := w.phase.queue, Next(w, Replays);
    if q != [] {
      var v := w.(p := SendUpdate(w.p, q));
      ReadyTells(w, q, v);
      assert Told(u) == Told(v);
    } else {
      assert Told(u) == Told(w);
    }
    assert forall m :: m in w.offered && Visible(m, w.p.id) ==> Covers(w, m);
  }

  lemma JoinCovers(w: World, e: Event)
    requires CoverInv(w) && (e.Caches? || e.WritesJoin?)
    ensures CoverInv(Next(w, e))
  {
    NextKeepsOrder(w, e);
    var u := Next(w, e);
    if e.Caches? && w.phase == NotSent && !w.p.migration {
      assert Told(w) == [] && Told(u) == e.others;
      KnownOfNothing(w.p.cache);
      AddAllKnown(e.others);
      assert forall m :: Covers(w, m) ==> Covers(u, m);
    } else if e.WritesJoin? {
      ChosenSnoc(w.p.log, Join(w.others));
      assert Chosen(w.p.log) + [] == Chosen(w.p.log);
      assert Told(u) == Told(w);
      assert forall m :: Covers(w, m) ==> Covers(u, m);
    }
  }

  lemma NextCovers(w: World, e: Event)
    requires CoverInv(w)
    ensures CoverInv(Next(w, e))
  {
    NextKeepsOrder(w, e);
    match e
    case Caches(_) => JoinCovers(w, e);
    case WritesJoin(_) => JoinCovers(w, e);
    case Offers(infos) => OffersCover(w, infos);
    case Replays => if w.phase.Replaying? && w.p.state != Disconnected { ReplaysCover(w); }
    case Looks(sid) =>
      TouchKnown(w.p.cache, Told(w), sid);
      assert Told(Next(w, e)) == Told(w);
      assert forall m :: Covers(w, m) ==> Covers(Next(w, e), m);
    case _ =>
      assert Told(Next(w, e)) == Told(w);
      assert forall m :: Covers(w, m) ==> Covers(Next(w, e), m);
  }

  lemma {:induction false} RunCovers(migration: bool, id: nat, es: seq<Event>)
    ensures CoverInv(Run(Start(migration, id), es))
    decreases |es|
  {
    if es != [] {
      RunCovers(migration, id, es[..|es|-1]);
      NextCovers(Run(Start(migration, id), es[..|es|-1]), es[|es|-1]);
    }
  }

  /** However many sessions there are, every visible update the room offered is waiting to
      be replayed, or at least as new a version is in the join response or was sent. */
  lemma NoUpdateIsLost(migration: bool, id: nat, es: seq<Event>, m: Info)
    requires Run(Start(migration, id), es).p.state != Disconnected && m in Run(Start(migration, id), es).offered
    requires !m.hidden || m.sid == id
    ensures var w := Run(Start(migration, id), es);
      Waits(w, m) || exists k :: 0 <= k < |Told(w)| && Told(w)[k].sid == m.sid && Told(w)[k].version >= m.version
  {
    RunCovers(migration, id, es);
    ChosenAreVisible(migration, id, es);
  }
}
