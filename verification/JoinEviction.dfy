/** When the participant of JoinRuns sends a version lower than one it has sent before. */
module JoinEviction {
  import opened Options
  import opened JoinUpdates
  import opened JoinRuns
  import opened LruUses

  /** The lookups of a batch, and the entries for what is sent of it. */
  function BatchUses(l: Lru, pis: seq<Info>, id: nat): seq<Use>
    decreases |pis|
  {
    if pis == [] then []
    else
      var n := |pis| - 1;
      BatchUses(l, pis[..n], id)
      + [Look(pis[n].sid)] + if ChooseOne(ChooseAll(l, pis[..n], id).0, pis[n], id).1 then [Tell(pis[n])] else []
  }

  function Lists(others: seq<Info>): seq<Use>
    decreases |others|
  {
    if others == [] then [] else Lists(others[..|others|-1]) + [List(others[|others|-1])]
  }

  function SendUses(p: Participant, pis: seq<Info>): seq<Use> {
    if IsReady(p) then BatchUses(p.cache, pis, p.id) else []
  }

  function EventUses(w: World, e: Event): seq<Use> {
    match e
    case Caches(others) => if w.p.migration || w.phase != NotSent then [] else Lists(others)
    case Replays => if w.phase.Replaying? && w.phase.queue != [] then SendUses(w.p, w.phase.queue) else []
    case Offers(infos) => SendUses(w.p, infos)
    case Looks(sid) => [Look(sid)]
    case _ => []
  }

  function Uses(start: World, es: seq<Event>): seq<Use>
    decreases |es|
  {
    if es == [] then []
    else Uses(start, es[..|es|-1]) + EventUses(Run(start, es[..|es|-1]), es[|es|-1])
  }

  lemma UsesSnoc(l: Lru, us: seq<Use>, u: Use)
    ensures ApplyAll(l, us + [u]) == Apply(ApplyAll(l, us), u)
    ensures Tells(us + [u]) == Tells(us) + if u.Tell? then [u.info] else []
  {
    assert (us + [u])[..|us|] == us;
  }

  lemma {:induction false} BatchUsesAre(l: Lru, pis: seq<Info>, id: nat)
    ensures ApplyAll(l, BatchUses(l, pis, id)) == ChooseAll(l, pis, id).0
    ensures Tells(BatchUses(l, pis, id)) == ChooseAll(l, pis, id).1
    ensures forall k :: 0 <= k < |BatchUses(l, pis, id)| ==> !BatchUses(l, pis, id)[k].List?
    decreases |pis|
  {
    if pis != [] {
      var n := |pis| - 1;
      var us := BatchUses(l, pis[..n], id);
      BatchUsesAre(l, pis[..n], id);
      UsesSnoc(l, us, Look(pis[n].sid));
      assert Tells(us) + [] == Tells(us);
      if ChooseOne(ChooseAll(l, pis[..n], id).0, pis[n], id).1 {
        UsesSnoc(l, us + [Look(pis[n].sid)], Tell(pis[n]));
      } else {
        assert us + [Look(pis[n].sid)] + [] == us + [Look(pis[n].sid)];
      }
    }
  }

  lemma {:induction false} ListsAre(l: Lru, others: seq<Info>)
    ensures ApplyAll(l, Lists(others)) == AddAll(l, others) && Tells(Lists(others)) == []
    ensures forall k :: 0 <= k < |Lists(others)| ==> Lists(others)[k].List?
    decreases |others|
  {
    if others != [] {
      ListsAre(l, others[..|others|-1]);
      UsesSnoc(l, Lists(others[..|others|-1]), List(others[|others|-1]));
    }
  }

  /** From l on, every update sent is checked against the cache. */
  ghost predicate CheckedFrom(l: Lru, us: seq<Use>) {
    forall k :: 0 <= k < |us| && us[k].Tell? ==> Accepts(ApplyAll(l, us[..k]), us[k].info)
  }

  lemma CheckedSnoc(l: Lru, us: seq<Use>, u: Use)
    requires CheckedFrom(l, us) && (u.Tell? ==> Accepts(ApplyAll(l, us), u.info))
    ensures CheckedFrom(l, us + [u])
  {
    forall k | 0 <= k < |us| + 1 && (us + [u])[k].Tell? ensures Accepts(ApplyAll(l, (us + [u])[..k]), (us + [u])[k].info) {
      assert (us + [u])[..k] == us[..k];
      assert k == |us| ==> us[..k] == us;
    }
  }

  lemma CheckedConcat(l: Lru, a: seq<Use>, b: seq<Use>)
    requires CheckedFrom(l, a) && CheckedFrom(ApplyAll(l, a), b)
    ensures CheckedFrom(l, a + b)
  {
    forall k | 0 <= k < |a + b| && (a + b)[k].Tell? ensures Accepts(ApplyAll(l, (a + b)[..k]), (a + b)[k].info) {
      ApplyPrefix(l, a, b, k);
    }
  }

  lemma ApplyPrefix(l: Lru, a: seq<Use>, b: seq<Use>, k: nat)
    requires k < |a + b|
    ensures ApplyAll(l, (a + b)[..k]) == if k < |a| then ApplyAll(l, a[..k]) else ApplyAll(ApplyAll(l, a), b[..k-|a|])
    ensures (a + b)[k] == if k < |a| then a[k] else b[k-|a|]
  {
    if k < |a| {
      assert (a + b)[..k] == a[..k];
    } else {
      assert (a + b)[..k] == a + b[..k-|a|];
      UsesConcat(l, a, b[..k-|a|]);
    }
  }

  lemma {:induction false} BatchChecked(l: Lru, pis: seq<Info>, id: nat)
    requires Sound(l)
    ensures CheckedFrom(l, BatchUses(l, pis, id)) && Sound(ChooseAll(l, pis, id).0)
    decreases |pis|
  {
    if pis != [] {
      var n := |pis| - 1;
      var us, before, look := BatchUses(l, pis[..n], id), ChooseAll(l, pis[..n], id).0, Look(pis[n].sid);
      BatchChecked(l, pis[..n], id);
      BatchUsesAre(l, pis[..n], id);
      ApplySound(before, look);
      CheckedSnoc(l, us, look);
      UsesSnoc(l, us, look);
      if ChooseOne(before, pis[n], id).1 {
        LookKeepsGet(before, pis[n].sid);
        CheckedSnoc(l, us + [look], Tell(pis[n]));
        ApplySound(Touch(before, pis[n].sid), Tell(pis[n]));
      } else {
        assert us + [look] + [] == us + [look];
      }
    }
  }

  lemma LookKeepsGet(l: Lru, sid: nat)
    requires Sound(l)
    ensures Get(Touch(l, sid), sid) == Get(l, sid)
  {
    ApplySound(l, Look(sid));
  }

  /** The uses of a run, told and checked as the participant does. */
  ghost predicate UsesFit(w: World, us: seq<Use>) {
    && w.p.cache == ApplyAll([], us) && Chosen(w.p.log) == Tells(us) && Checked(us)
  }

  lemma {:induction false} NoTells(us: seq<Use>)
    requires Tells(us) == []
    ensures forall k :: 0 <= k < |us| ==> !us[k].Tell?
    decreases |us|
  {
    if us != [] {
      NoTells(us[..|us|-1]);
    }
  }

  lemma SendFits(w: World, us: seq<Use>, pis: seq<Info>)
    requires UsesFit(w, us)
    ensures var p := SendUpdate(w.p, pis);
      p.cache == ApplyAll([], us + SendUses(w.p, pis)) && Chosen(p.log) == Tells(us + SendUses(w.p, pis))
      && Checked(us + SendUses(w.p, pis))
  {
    var more := SendUses(w.p, pis);
    if IsReady(w.p) {
      var (cache, kept) := ChooseAll(w.p.cache, pis, w.p.id);
      AllSound(us);
      BatchUsesAre(w.p.cache, pis, w.p.id);
      BatchChecked(w.p.cache, pis, w.p.id);
      UsesConcat([], us, more);
      CheckedConcat([], us, more);
      ReadyUpdates(w.p, pis, cache, kept);
      ChosenSnoc(w.p.log, Updates(kept));
    } else {
      assert us + [] == us;
    }
  }

  lemma ListsFit(w: World, us: seq<Use>, others: seq<Info>)
    requires UsesFit(w, us) && Chosen(w.p.log) == []
    ensures AddAll(w.p.cache, others) == ApplyAll([], us + Lists(others)) && Tells(us + Lists(others)) == [] && Checked(us + Lists(others))
  {
    NoTells(us);
    ListsAre(w.p.cache, others);
    UsesConcat([], us, Lists(others));
    assert forall k :: 0 <= k < |us + Lists(others)| ==> !(us + Lists(others))[k].Tell?;
  }

  lemma NextFits(w: World, e: Event, us: seq<Use>)
    requires Orderly(w) && UsesFit(w, us)
    ensures UsesFit(Next(w, e), us + EventUses(w, e))
  {
    match e
    case Caches(others) => CachesFit(w, us, others);
    case Replays => ReplaysFit(w, us);
    case Offers(infos) => SendFits(w, us, infos);
    case Looks(sid) => LookFits(w, us, sid);
    case _ => QuietFits(w, us, e);
  }

  lemma CachesFit(w: World, us: seq<Use>, others: seq<Info>)
    requires Orderly(w) && UsesFit(w, us)
    ensures UsesFit(Next(w, Caches(others)), us + EventUses(w, Caches(others)))
  {
    if !w.p.migration && w.phase == NotSent {
      ListsFit(w, us, others);
    } else {
      assert us + [] == us;
    }
  }

  lemma ReplaysFit(w: World, us: seq<Use>)
    requires UsesFit(w, us)
    ensures UsesFit(Next(w, Replays), us + EventUses(w, Replays))
  {
    if w.phase.Replaying? && w.phase.queue != [] {
      SendFits(w, us, w.phase.queue);
    } else {
      assert us + [] == us;
    }
  }

  lemma QuietFits(w: World, us: seq<Use>, e: Event)
    requires UsesFit(w, us) && !e.Caches? && !e.Replays? && !e.Offers? && !e.Looks?
    ensures UsesFit(Next(w, e), us + EventUses(w, e))
  {
    assert us + [] == us;
    ChosenSnoc(w.p.log, Join(w.others));
    assert Chosen(w.p.log) + [] == Chosen(w.p.log);
  }

  lemma LookFits(w: World, us: seq<Use>, sid: nat)
    requires UsesFit(w, us)
    ensures UsesFit(w.(p := w.p.(cache := Touch(w.p.cache, sid))), us + [Look(sid)])
  {
    UsesSnoc([], us, Look(sid));
    CheckedSnoc([], us, Look(sid));
    assert Tells(us) + [] == Tells(us);
  }

  lemma {:induction false} RunFits(migration: bool, id: nat, es: seq<Event>)
    ensures UsesFit(Run(Start(migration, id), es), Uses(Start(migration, id), es))
    decreases |es|
  {
    if es != [] {
      var init := es[..|es|-1];
      RunFits(migration, id, init);
      RunKeepsOrder(migration, id, init);
      NextFits(Run(Start(migration, id), init), es[|es|-1], Uses(Start(migration, id), init));
    }
  }

  /** In every run, with any number of sessions: what is sent are the told uses of the cache,
      and a version lower than one sent before for its session is sent only after at least
      128 other sessions have been moved in between. */
  lemma VersionDropsOnlyAfterEviction(migration: bool, id: nat, es: seq<Event>, i: nat, j: nat)
    ensures var us := Uses(Start(migration, id), es);
      && Chosen(Run(Start(migration, id), es).p.log) == Tells(us)
      && (i < j < |us| && us[i].Tell? && us[j].Tell? && us[i].info.sid == us[j].info.sid && us[j].info.version < us[i].info.version
          ==> |MovedBetween(us, i, j)| >= CACHE_SIZE)
  {
    RunFits(migration, id, es);
    var us := Uses(Start(migration, id), es);
    if i < j < |us| && us[i].Tell? && us[j].Tell? && us[i].info.sid == us[j].info.sid && us[j].info.version < us[i].info.version {
      VersionDropNeedsEviction(us, i, j);
    }
  }

  // ---- such a run ----

  const NEWER := Info(0, 5, false)
  const OLDER := Info(0, 3, false)

  /** Updates of other sessions, and the entries they leave. */
  function Others(n: nat): seq<Info> {
    seq(n, i requires 0 <= i < n => Info(i + 1, 0, false))
  }

  function Entries(n: nat): Lru {
    seq(n, i requires 0 <= i < n => Entry(i + 1, 0))
  }

  lemma {:induction false} WithoutNew(l: Lru, sid: nat)
    requires sid !in Sids(l)
    ensures Without(l, sid) == l && Get(l, sid) == None
  {
    GetSome(l, sid);
    if l != [] {
      SidsHead(l);
      WithoutNew(l[1..], sid);
    }
  }

  lemma ChooseNew(l: Lru, pi: Info, id: nat)
    requires pi.sid !in Sids(l) && Visible(pi, id)
    ensures ChooseOne(l, pi, id)
         == (if |l| + 1 > CACHE_SIZE then (l + [Entry(pi.sid, pi.version)])[1..] else l + [Entry(pi.sid, pi.version)], true)
  {
    WithoutNew(l, pi.sid);
  }

  /** The cache after the n-th of the others. */
  function Filled(n: nat): Lru {
    if n < CACHE_SIZE then [Entry(0, 5)] + Entries(n) else Entries(n)
  }

  lemma FilledStep(n: nat, id: nat)
    requires 0 < n <= CACHE_SIZE
    ensures ChooseOne(Filled(n - 1), Info(n, 0, false), id) == (Filled(n), true)
  {
    var before := [Entry(0, 5)] + Entries(n - 1);
    assert before == Filled(n - 1);
    assert forall k :: 0 <= k < n ==> before[k].sid == k;
    ChooseNew(before, Info(n, 0, false), id);
    EntriesSnoc(n);
  }

  lemma EntriesSnoc(n: nat)
    requires n > 0
    ensures [Entry(0, 5)] + Entries(n - 1) + [Entry(n, 0)] == [Entry(0, 5)] + Entries(n)
    ensures ([Entry(0, 5)] + Entries(n))[1..] == Entries(n)
  {
    assert Entries(n - 1) + [Entry(n, 0)] == Entries(n);
  }

  lemma ChooseSnoc(l: Lru, pis: seq<Info>, pi: Info, id: nat)
    requires ChooseAll(l, pis, id).1 == pis && ChooseOne(ChooseAll(l, pis, id).0, pi, id).1
    ensures ChooseAll(l, pis + [pi], id) == (ChooseOne(ChooseAll(l, pis, id).0, pi, id).0, pis + [pi])
  {
    assert (pis + [pi])[..|pis|] == pis;
  }

  lemma OthersSnoc(n: nat)
    requires n > 0
    ensures Others(n) == Others(n - 1) + [Info(n, 0, false)]
  {
  }

  /** All the others are sent, and the 128th evicts the first entry. */
  lemma {:induction false} OthersEvict(first: Lru, n: nat, id: nat)
    requires n <= CACHE_SIZE && first == Filled(0)
    ensures ChooseAll(first, Others(n), id) == (Filled(n), Others(n))
    decreases n
  {
    if n > 0 {
      OthersEvict(first, n - 1, id);
      FilledStep(n, id);
      OthersSnoc(n);
      ChooseSnoc(first, Others(n - 1), Info(n, 0, false), id);
    }
  }

  lemma ChooseOneNew(l: Lru, pi: Info, id: nat)
    requires pi.sid !in Sids(l) && Visible(pi, id)
    ensures ChooseAll(l, [pi], id).1 == [pi] && ChooseAll(l, [pi], id).0 == ChooseOne(l, pi, id).0
  {
    assert [pi][..0] == [];
    ChooseNew(l, pi, id);
  }

  /** A participant that has joined a room. */
  predicate HasJoined(w: World) {
    w.p.state == Joined && !w.p.migration && w.p.cache == [] && w.p.log == [Join([])] && w.phase == Sent
  }

  lemma JoinIsReached(id: nat)
    ensures HasJoined(Run(Start(false, id), [Caches([]), WritesJoin(true), Settles, Replays]))
  {
    var w0 := Start(false, id);
    var es := [Caches([]), WritesJoin(true), Settles, Replays];
    var w2 := Next(Next(w0, Caches([])), WritesJoin(true));
    assert es[..3][..2] == es[..2] && es[..2][..1] == es[..1] && es[..1][..0] == [];
    assert Run(w0, es[..1]) == Next(w0, Caches([]));
    assert Run(w0, es[..2]) == w2;
    assert w2.p.log == [] + [Join([])];
    assert Run(w0, es[..3]) == Next(w2, Settles);
  }

  /** One session is sent, then 128 others, and then an older version of the first. */
  lemma OlderVersionIsSent(w: World)
    requires HasJoined(w)
    ensures var end := Next(Next(Next(w, Offers([NEWER])), Offers(Others(CACHE_SIZE))), Offers([OLDER]));
      end.p.log == [Join([]), Updates([NEWER]), Updates(Others(CACHE_SIZE)), Updates([OLDER])]
  {
    var id := w.p.id;
    ChooseOneNew([], NEWER, id);
    ChooseNew([], NEWER, id);
    var w1 := Next(w, Offers([NEWER]));
    assert w1.p.cache == [Entry(0, 5)] && w1.p.log == [Join([]), Updates([NEWER])];
    assert [Entry(0, 5)] + Entries(0) == [Entry(0, 5)];
    OthersEvict(w1.p.cache, CACHE_SIZE, id);
    var w2 := Next(w1, Offers(Others(CACHE_SIZE)));
    assert w2.p.cache == Entries(CACHE_SIZE);
    assert forall k :: 0 <= k < CACHE_SIZE ==> Entries(CACHE_SIZE)[k].sid == k + 1;
    ChooseOneNew(w2.p.cache, OLDER, id);
  }
}
