/** The join response and the participant updates around it, in
    pkg/rtc/participant_signal.go: updates are queued until the join response is out,
    and an LRU cache of versions keeps outdated ones back. */
module JoinUpdates {
  import opened Options

  const CACHE_SIZE := 128

  datatype State = Joining | Joined | Active | Disconnected

  /** An update about the session `sid` of another participant. */
  datatype Info = Info(sid: nat, version: nat, hidden: bool)

  lemma ConcatAssociates(a: seq<Info>, b: seq<Info>, c: seq<Info>)
    ensures (a + b) + c == a + (b + c)
  {
  }

  // ---- the LRU cache of versions, the least recently used first ----

  datatype Entry = Entry(sid: nat, version: nat)

  type Lru = seq<Entry>

  function Get(l: Lru, sid: nat): Option<nat> {
    if l == [] then None else if l[0].sid == sid then Some(l[0].version) else Get(l[1..], sid)
  }

  function Without(l: Lru, sid: nat): Lru {
    if l == [] then [] else if l[0].sid == sid then Without(l[1..], sid) else [l[0]] + Without(l[1..], sid)
  }

  /** A lookup makes its entry the most recently used one. */
  function Touch(l: Lru, sid: nat): Lru {
    match Get(l, sid)
    case None => l
    case Some(v) => Without(l, sid) + [Entry(sid, v)]
  }

  function Add(l: Lru, sid: nat, version: nat): Lru {
    var r := Without(l, sid) + [Entry(sid, version)];
    if |r| > CACHE_SIZE then r[1..] else r
  }

  // ---- a participant ----

  datatype Out = Join(others: seq<Info>) | Updates(infos: seq<Info>)

  /** `log` holds what is written, updates from when they are chosen under the lock. */
  datatype Participant = Participant(migration: bool, id: nat, state: State, queued: seq<Info>, cache: Lru, log: seq<Out>)

  function Rank(s: State): nat {
    match s
    case Joining => 0
    case Joined => 1
    case Active => 2
    case Disconnected => 3
  }

  function UpdateState(p: Participant, s: State): Participant {
    if Rank(s) <= Rank(p.state) then p else p.(state := s)
  }

  predicate IsReady(p: Participant) {
    if p.migration then p.state != Disconnected else p.state == Joined || p.state == Active
  }

  predicate Visible(pi: Info, id: nat) {
    !pi.hidden || pi.sid == id
  }

  function ChooseOne(l: Lru, pi: Info, id: nat): (Lru, bool) {
    var last := Get(l, pi.sid);
    if (last.Some? && pi.version < last.value) || !Visible(pi, id) then (Touch(l, pi.sid), false)
    else (Add(Touch(l, pi.sid), pi.sid, pi.version), true)
  }

  function ChooseAll(l: Lru, pis: seq<Info>, id: nat): (Lru, seq<Info>)
    decreases |pis|
  {
    if pis == [] then (l, [])
    else
      var n := |pis| - 1;
      var (before, valid) := ChooseAll(l, pis[..n], id);
      var (after, ok) := ChooseOne(before, pis[n], id);
      (after, if ok then valid + [pis[n]] else valid)
  }

  function SendUpdate(p: Participant, pis: seq<Info>): Participant {
    if p.state == Disconnected then p
    else if !IsReady(p) then p.(queued := p.queued + pis)
    else
      var (cache, valid) := ChooseAll(p.cache, pis, p.id);
      p.(cache := cache, log := p.log + [Updates(valid)])
  }

  function AddAll(l: Lru, others: seq<Info>): Lru
    decreases |others|
  {
    if others == [] then l
    else var n := |others| - 1; Add(AddAll(l, others[..n]), others[n].sid, others[n].version)
  }

  function Settle(p: Participant): Participant {
    p.(state := if p.state == Joining then Joined else p.state, queued := [])
  }

  /** SendJoinResponse without interruption. */
  function SendJoin(p: Participant, others: seq<Info>, writeOk: bool): Participant {
    var cached := p.(cache := AddAll(p.cache, others));
    if !writeOk then cached
    else
      var settled := Settle(cached.(log := p.log + [Join(others)]));
      if p.queued != [] then SendUpdate(settled, p.queued) else settled
  }

  class ParticipantImpl {
    const migration: bool
    const id: nat
    var state: State
    var queuedUpdates: seq<Info>
    var updateCache: Lru
    var written: seq<Out>

    ghost function View(): Participant
      reads this
    {
      Participant(migration, id, state, queuedUpdates, updateCache, written)
    }

    constructor (migration: bool, id: nat)
      ensures View() == Participant(migration, id, Joining, [], [], [])
    {
      this.migration, this.id := migration, id;
      state, queuedUpdates, updateCache, written := Joining, [], [], [];
    }

    method SendParticipantUpdate(pis: seq<Info>)
      modifies this
      ensures View() == SendUpdate(old(View()), pis)
    {
      if state == Disconnected {
        return;
      }
      if !(if migration then state != Disconnected else state == Joined || state == Active) {
        queuedUpdates := queuedUpdates + pis;
        return;
      }
      var valid: seq<Info> := [];
      var i := 0;
      while i < |pis|
        invariant 0 <= i <= |pis|
        invariant (updateCache, valid) == ChooseAll(old(updateCache), pis[..i], id)
        invariant View() == old(View()).(cache := updateCache)
      {
        var pi := pis[i];
        assert pis[..i+1][..i] == pis[..i];
        var isValid := true;
        var last := Get(updateCache, pi.sid);
        updateCache := Touch(updateCache, pi.sid);
        if last.Some? && pi.version < last.value {
          isValid := false;
        }
        if pi.hidden && pi.sid != id {
          isValid := false;
        }
        if isValid {
          updateCache := Add(updateCache, pi.sid, pi.version);
          valid := valid + [pi];
        }
        i := i + 1;
      }
      assert pis[..i] == pis;
      written := written + [Updates(valid)];
    }

    /** `writeOk` is whether the join response could be written. */
    method SendJoinResponse(others: seq<Info>, writeOk: bool) returns (ok: bool)
      modifies this
      ensures View() == SendJoin(old(View()), others, writeOk)
      ensures ok == writeOk
    {
      var i := 0;
      while i < |others|
        invariant 0 <= i <= |others|
        invariant View() == old(View()).(cache := AddAll(old(updateCache), others[..i]))
      {
        assert others[..i+1][..i] == others[..i];
        updateCache := Add(updateCache, others[i].sid, others[i].version);
        i := i + 1;
      }
      assert others[..i] == others;
      if !writeOk {
        return false;
      }
      written := written + [Join(others)];
      if state == Joining {
        state := Joined;
      }
      var queued := queuedUpdates;
      queuedUpdates := [];
      if |queued| > 0 {
        SendParticipantUpdate(queued);
      }
      ok := true;
    }
  }

  // ---- the cache holds the last version of each of at most 128 sessions ----

  function Sids(l: Lru): set<nat> {
    set i | 0 <= i < |l| :: l[i].sid
  }

  ghost predicate Distinct(l: Lru) {
    forall i, j :: 0 <= i < j < |l| ==> l[i].sid != l[j].sid
  }

  ghost predicate Within(l: Lru, sids: set<nat>) {
    Distinct(l) && Sids(l) <= sids && |sids| <= CACHE_SIZE
  }

  lemma {:induction false} WithoutIs(l: Lru, sid: nat)
    ensures var r := Without(l, sid); Sids(r) == Sids(l) - {sid}
    ensures Distinct(l) ==> Distinct(Without(l, sid))
    ensures forall t :: Get(Without(l, sid), t) == if t == sid then None else Get(l, t)
  {
    if l != [] {
      WithoutIs(l[1..], sid);
      var rest := Without(l[1..], sid);
      assert Sids(l) == {l[0].sid} + Sids(l[1..]) by { SidsHead(l); }
      if l[0].sid != sid {
        var r := [l[0]] + rest;
        assert r[1..] == rest;
        SidsHead(r);
        if Distinct(l) {
          assert forall j :: 0 <= j < |rest| ==> rest[j].sid in Sids(rest);
          assert l[0].sid !in Sids(l[1..]) by { HeadIsNew(l); }
        }
      }
    }
  }

  lemma SidsHead(l: Lru)
    requires l != []
    ensures Sids(l) == {l[0].sid} + Sids(l[1..])
  {
    forall s | s in Sids(l) ensures s in {l[0].sid} + Sids(l[1..]) {
      var i :| 0 <= i < |l| && l[i].sid == s;
      assert i > 0 ==> l[1..][i-1].sid == s;
    }
    forall s | s in Sids(l[1..]) ensures s in Sids(l) {
      var i :| 0 <= i < |l| - 1 && l[1..][i].sid == s;
      assert l[i+1].sid == s;
    }
  }

  lemma HeadIsNew(l: Lru)
    requires l != [] && Distinct(l)
    ensures l[0].sid !in Sids(l[1..])
  {
  }

  lemma {:induction false} GetAppended(l: Lru, e: Entry, t: nat)
    requires e.sid !in Sids(l)
    ensures Get(l + [e], t) == if t == e.sid then Some(e.version) else Get(l, t)
  {
    if l == [] {
      assert l + [e] == [e];
    } else {
      SidsHead(l);
      assert (l + [e])[1..] == l[1..] + [e];
      GetAppended(l[1..], e, t);
    }
  }

  lemma {:induction false} DistinctSize(l: Lru)
    requires Distinct(l)
    ensures |l| == |Sids(l)|
  {
    if l != [] {
      SidsHead(l);
      HeadIsNew(l);
      DistinctSize(l[1..]);
    }
  }

  lemma SubsetSize(a: set<nat>, b: set<nat>)
    requires a <= b
    ensures |a| <= |b|
  {
    assert b == a + (b - a);
  }

  lemma PutLast(l: Lru, e: Entry)
    requires Distinct(l)
    ensures var r := Without(l, e.sid) + [e];
      Distinct(r) && Sids(r) == Sids(l) + {e.sid} && forall t :: Get(r, t) == if t == e.sid then Some(e.version) else Get(l, t)
  {
    WithoutIs(l, e.sid);
    var rest := Without(l, e.sid);
    var r := rest + [e];
    assert forall j :: 0 <= j < |rest| ==> rest[j].sid in Sids(rest);
    assert r[|rest|] == e;
    forall s | s in Sids(rest) ensures s in Sids(r) {
      var i :| 0 <= i < |rest| && rest[i].sid == s;
      assert r[i].sid == s;
    }
    assert Sids(r) == Sids(rest) + {e.sid};
    forall t ensures Get(r, t) == if t == e.sid then Some(e.version) else Get(l, t) {
      GetAppended(rest, e, t);
    }
  }

  /** With at most 128 sessions in all, adding never evicts. */
  lemma AddWithin(l: Lru, sids: set<nat>, sid: nat, version: nat)
    requires Within(l, sids) && sid in sids
    ensures Within(Add(l, sid, version), sids)
    ensures forall t :: Get(Add(l, sid, version), t) == if t == sid then Some(version) else Get(l, t)
  {
    PutLast(l, Entry(sid, version));
    var r := Without(l, sid) + [Entry(sid, version)];
    DistinctSize(r);
    SubsetSize(Sids(r), sids);
  }

  lemma {:induction false} GetSome(l: Lru, sid: nat)
    ensures Get(l, sid).Some? <==> sid in Sids(l)
  {
    if l != [] {
      SidsHead(l);
      GetSome(l[1..], sid);
    }
  }

  lemma TouchWithin(l: Lru, sids: set<nat>, sid: nat)
    requires Within(l, sids)
    ensures Within(Touch(l, sid), sids)
    ensures forall t :: Get(Touch(l, sid), t) == Get(l, t)
  {
    GetSome(l, sid);
    if Get(l, sid).Some? {
      PutLast(l, Entry(sid, Get(l, sid).value));
    }
  }
}
