/** The cache of versions of JoinUpdates under any sequence of uses: it keeps the 128 sessions
    moved last. */
module LruUses {
  import opened Options
  import opened JoinUpdates

  /** A use of the cache: a lookup, an entry made for the join response, or one made for
      an update that is sent. */
  datatype Use = Look(sid: nat) | List(info: Info) | Tell(info: Info)

  function SidOf(u: Use): nat {
    if u.Look? then u.sid else u.info.sid
  }

  function Apply(l: Lru, u: Use): Lru {
    if u.Look? then Touch(l, u.sid) else Add(l, u.info.sid, u.info.version)
  }

  function ApplyAll(l: Lru, us: seq<Use>): Lru
    decreases |us|
  {
    if us == [] then l else Apply(ApplyAll(l, us[..|us|-1]), us[|us|-1])
  }

  /** The updates sent, in order. */
  function Tells(us: seq<Use>): seq<Info>
    decreases |us|
  {
    if us == [] then [] else Tells(us[..|us|-1]) + if us[|us|-1].Tell? then [us[|us|-1].info] else []
  }

  lemma {:induction false} UsesConcat(l: Lru, a: seq<Use>, b: seq<Use>)
    ensures ApplyAll(l, a + b) == ApplyAll(ApplyAll(l, a), b)
    ensures Tells(a + b) == Tells(a) + Tells(b)
    decreases |b|
  {
    if b == [] {
      assert a + b == a;
      assert Tells(a) + [] == Tells(a);
    } else {
      var n := |b| - 1;
      var last := if b[n].Tell? then [b[n].info] else [];
      assert (a + b)[..|a|+n] == a + b[..n] && (a + b)[|a|+n] == b[n];
      UsesConcat(l, a, b[..n]);
      ConcatAssociates(Tells(a), Tells(b[..n]), last);
    }
  }

  // ---- one entry among the others ----

  ghost predicate Sound(l: Lru) {
    Distinct(l) && |l| <= CACHE_SIZE
  }

  /** `l` holds `e`, and after it only entries of `others`. */
  ghost predicate Held(l: Lru, e: Entry, others: set<nat>) {
    exists a: Lru, b: Lru :: IsSplit(l, a, e, b) && Sids(b) <= others
  }

  ghost predicate IsSplit(l: Lru, a: Lru, e: Entry, b: Lru) {
    l == a + [e] + b
  }

  lemma {:induction false} WithoutSplit(a: Lru, b: Lru, sid: nat)
    ensures Without(a + b, sid) == Without(a, sid) + Without(b, sid)
  {
    if a == [] {
      assert a + b == b;
    } else {
      assert (a + b)[1..] == a[1..] + b;
      WithoutSplit(a[1..], b, sid);
    }
  }

  lemma {:induction false} WithoutShorter(l: Lru, sid: nat)
    ensures |Without(l, sid)| <= |l|
  {
    if l != [] {
      WithoutShorter(l[1..], sid);
    }
  }

  lemma ApplySound(l: Lru, u: Use)
    requires Sound(l)
    ensures Sound(Apply(l, u))
    ensures Get(l, SidOf(u)).Some? && u.Look? ==> Get(Apply(l, u), SidOf(u)) == Get(l, SidOf(u))
  {
    if u.Look? {
      if Get(l, u.sid).Some? {
        PutLast(l, Entry(u.sid, Get(l, u.sid).value));
        WithoutDrops(l, u.sid);
      }
    } else {
      AddSound(l, u.info.sid, u.info.version);
    }
  }

  lemma AddSound(l: Lru, sid: nat, version: nat)
    requires Sound(l)
    ensures Sound(Add(l, sid, version))
  {
    WithoutShorter(l, sid);
    PutLast(l, Entry(sid, version));
  }

  lemma {:induction false} WithoutDrops(l: Lru, sid: nat)
    requires Get(l, sid).Some?
    ensures |Without(l, sid)| < |l|
  {
    if l[0].sid == sid {
      WithoutShorter(l[1..], sid);
    } else {
      WithoutDrops(l[1..], sid);
    }
  }

  lemma {:induction false} AllSound(us: seq<Use>)
    ensures Sound(ApplyAll([], us))
    decreases |us|
  {
    if us != [] {
      AllSound(us[..|us|-1]);
      ApplySound(ApplyAll([], us[..|us|-1]), us[|us|-1]);
    }
  }

  lemma {:induction false} GetSplit(l: Lru, a: Lru, e: Entry, b: Lru)
    requires IsSplit(l, a, e, b) && Distinct(l)
    ensures Get(l, e.sid) == Some(e.version) && e.sid !in Sids(b) && e.sid !in Sids(a)
    ensures Distinct(a) && Distinct(b)
    decreases |a|
  {
    assert l[|a|] == e;
    assert forall j :: 0 <= j < |b| ==> b[j] == l[|a|+1+j];
    assert forall j :: 0 <= j < |a| ==> a[j] == l[j];
    if a != [] {
      assert l[1..] == a[1..] + [e] + b;
      GetSplit(l[1..], a[1..], e, b);
    }
  }

  /** Moving another session to the end leaves e where it is among the rest. */
  lemma PutSplit(l: Lru, a: Lru, e: Entry, b: Lru, x: Entry)
    requires IsSplit(l, a, e, b) && Distinct(l) && x.sid != e.sid
    ensures IsSplit(Without(l, x.sid) + [x], Without(a, x.sid), e, Without(b, x.sid) + [x])
    ensures Sids(Without(b, x.sid) + [x]) == Sids(b) + {x.sid} && Distinct(Without(b, x.sid) + [x])
  {
    GetSplit(l, a, e, b);
    WithoutSplit(a + [e], b, x.sid);
    WithoutSplit(a, [e], x.sid);
    assert Without([e], x.sid) == [e] by {
      assert [e][1..] == [];
    }
    PutLast(b, x);
  }

  /** What a use of another session puts at the end of the cache, if anything. */
  function Moved(l: Lru, u: Use): Option<Entry> {
    if !u.Look? then Some(Entry(u.info.sid, u.info.version))
    else if Get(l, u.sid).Some? then Some(Entry(u.sid, Get(l, u.sid).value))
    else None
  }

  lemma ApplyMoves(l: Lru, u: Use)
    requires Sound(l)
    ensures var x := Moved(l, u);
      if x.None? then Apply(l, u) == l
      else
        var r := Without(l, SidOf(u)) + [x.value];
        x.value.sid == SidOf(u) && Apply(l, u) == if |r| > CACHE_SIZE then r[1..] else r
  {
    if u.Look? && Get(l, u.sid).Some? {
      WithoutDrops(l, u.sid);
    }
  }

  /** Evicting the first of 129 entries does not evict e. */
  lemma TrimSplit(r: Lru, a: Lru, e: Entry, b: Lru)
    requires IsSplit(r, a, e, b) && |b| < CACHE_SIZE && |r| > CACHE_SIZE
    ensures a != [] && IsSplit(r[1..], a[1..], e, b)
  {
  }

  lemma HeldBy(l: Lru, a: Lru, e: Entry, b: Lru, others: set<nat>)
    requires IsSplit(l, a, e, b) && Sids(b) <= others
    ensures Held(l, e, others)
  {
  }

  /** Uses of fewer than 128 other sessions do not evict e. */
  lemma HeldStep(l: Lru, u: Use, e: Entry, others: set<nat>)
    requires Sound(l) && Held(l, e, others) && |others| < CACHE_SIZE && SidOf(u) in others && e.sid !in others
    ensures Held(Apply(l, u), e, others)
  {
    var a: Lru, b: Lru :| IsSplit(l, a, e, b) && Sids(b) <= others;
    ApplyMoves(l, u);
    if Moved(l, u).Some? {
      var x := Moved(l, u).value;
      PutSplit(l, a, e, b, x);
      var r, a', b' := Without(l, x.sid) + [x], Without(a, x.sid), Without(b, x.sid) + [x];
      DistinctSize(b');
      SubsetSize(Sids(b'), others);
      if |r| > CACHE_SIZE {
        TrimSplit(r, a', e, b');
        HeldBy(r[1..], a'[1..], e, b', others);
      } else {
        HeldBy(r, a', e, b', others);
      }
    }
  }

  /** A use of its own session puts an entry last. */
  lemma UsedIsLast(l: Lru, u: Use, others: set<nat>)
    requires Sound(l) && Moved(l, u).Some?
    ensures Held(Apply(l, u), Moved(l, u).value, others)
  {
    var x := Moved(l, u).value;
    ApplyMoves(l, u);
    var rest := Without(l, x.sid);
    if |rest + [x]| > CACHE_SIZE {
      assert IsSplit((rest + [x])[1..], rest[1..], x, []);
    } else {
      assert IsSplit(rest + [x], rest, x, []);
    }
  }

  lemma HeldGet(l: Lru, e: Entry, others: set<nat>)
    requires Sound(l) && Held(l, e, others)
    ensures Get(l, e.sid) == Some(e.version)
  {
    var a: Lru, b: Lru :| IsSplit(l, a, e, b) && Sids(b) <= others;
    GetSplit(l, a, e, b);
  }

  // ---- a whole run of uses ----

  predicate Accepts(l: Lru, pi: Info) {
    Get(l, pi.sid).Some? ==> Get(l, pi.sid).value <= pi.version
  }

  /** Every update sent was checked against the cache, and the join response is first. */
  ghost predicate Checked(us: seq<Use>) {
    && (forall k :: 0 <= k < |us| && us[k].Tell? ==> Accepts(ApplyAll([], us[..k]), us[k].info))
    && (forall i, k :: 0 <= i < k < |us| && us[i].Tell? ==> !us[k].List?)
  }

  /** The sessions that uses move to the end of the cache, from l on: a lookup that finds
      nothing moves none. */
  function Moves(l: Lru, us: seq<Use>): set<nat>
    decreases |us|
  {
    if us == [] then {}
    else
      var n := |us| - 1;
      Moves(l, us[..n]) + if Moved(ApplyAll(l, us[..n]), us[n]).Some? then {SidOf(us[n])} else {}
  }

  /** The sessions other than that of use i that are moved between uses i and j. */
  function MovedBetween(us: seq<Use>, i: nat, j: nat): set<nat>
    requires i < j <= |us|
  {
    Moves(ApplyAll([], us[..i+1]), us[i+1..j]) - {SidOf(us[i])}
  }

  lemma MovesSnoc(l: Lru, us: seq<Use>, u: Use)
    ensures ApplyAll(l, us + [u]) == Apply(ApplyAll(l, us), u)
    ensures Moves(l, us + [u]) == Moves(l, us) + if Moved(ApplyAll(l, us), u).Some? then {SidOf(u)} else {}
  {
    assert (us + [u])[..|us|] == us;
  }

  lemma MovedOneMore(us: seq<Use>, i: nat, n: nat)
    requires i < n < |us|
    ensures ApplyAll([], us[..n+1]) == Apply(ApplyAll([], us[..n]), us[n])
    ensures MovedBetween(us, i, n + 1)
         == MovedBetween(us, i, n) + if Moved(ApplyAll([], us[..n]), us[n]).Some? then {SidOf(us[n])} - {SidOf(us[i])} else {}
  {
    var l, between := ApplyAll([], us[..i+1]), us[i+1..n];
    assert us[..n] == us[..i+1] + between && us[..n+1] == us[..n] + [us[n]] && us[i+1..n+1] == between + [us[n]];
    UsesConcat([], us[..i+1], between);
    MovesSnoc([], us[..n], us[n]);
    MovesSnoc(l, between, us[n]);
  }

  /** A checked use keeps d, or puts a version of its session at least as new in its place. */
  lemma HeldNext(l: Lru, u: Use, d: Entry, others: set<nat>) returns (e: Entry)
    requires Sound(l) && Held(l, d, others) && |others| < CACHE_SIZE && d.sid !in others
    requires !u.List? && (u.Tell? ==> Accepts(l, u.info))
    requires Moved(l, u).Some? ==> SidOf(u) == d.sid || SidOf(u) in others
    ensures e.sid == d.sid && e.version >= d.version && Held(Apply(l, u), e, others)
  {
    HeldGet(l, d, others);
    if SidOf(u) == d.sid {
      e := Moved(l, u).value;
      UsedIsLast(l, u, others);
    } else {
      e := d;
      if Moved(l, u).Some? {
        HeldStep(l, u, d, others);
      } else {
        ApplyMoves(l, u);
      }
    }
  }

  /** After an update is sent, and while fewer than 128 other sessions are moved, the cache
      holds a version of its session that is at least as new. */
  lemma {:induction false} StillHeld(us: seq<Use>, i: nat, j: nat, others: set<nat>) returns (e: Entry)
    requires Checked(us) && i < j <= |us| && us[i].Tell?
    requires |others| < CACHE_SIZE && us[i].info.sid !in others && MovedBetween(us, i, j) <= others
    ensures e.sid == us[i].info.sid && e.version >= us[i].info.version && Held(ApplyAll([], us[..j]), e, others)
    decreases j
  {
    var n := j - 1;
    var l, u := ApplyAll([], us[..n]), us[n];
    AllSound(us[..n]);
    if n == i {
      assert us[..j][..n] == us[..n];
      e := Moved(l, u).value;
      UsedIsLast(l, u, others);
    } else {
      MovedOneMore(us, i, n);
      var d := StillHeld(us, i, n, others);
      e := HeldNext(l, u, d, others);
    }
  }

  lemma VersionDropNeedsEviction(us: seq<Use>, i: nat, j: nat)
    requires Checked(us) && i < j < |us| && us[i].Tell? && us[j].Tell?
    requires us[i].info.sid == us[j].info.sid && us[j].info.version < us[i].info.version
    ensures |MovedBetween(us, i, j)| >= CACHE_SIZE
  {
    var others := MovedBetween(us, i, j);
    if |others| < CACHE_SIZE {
      var e := StillHeld(us, i, j, others);
      AllSound(us[..j]);
      HeldGet(ApplyAll([], us[..j]), e, others);
    }
  }

  // ---- how long an entry is remembered ----

  /** e is followed by the entries of exactly these sessions, or by so many that it is evicted. */
  ghost predicate Aged(l: Lru, e: Entry, after: set<nat>) {
    if |after| < CACHE_SIZE then exists a: Lru, b: Lru :: IsSplit(l, a, e, b) && Sids(b) == after
    else e.sid !in Sids(l)
  }

  lemma AgedStep(l: Lru, u: Use, e: Entry, after: set<nat>)
    requires Sound(l) && Aged(l, e, after) && SidOf(u) != e.sid
    ensures Aged(Apply(l, u), e, after + if Moved(l, u).Some? then {SidOf(u)} else {})
  {
    ApplyMoves(l, u);
    if Moved(l, u).Some? {
      var x := Moved(l, u).value;
      var r := Without(l, x.sid) + [x];
      PutLast(l, x);
      WithoutShorter(l, x.sid);
      if |after| < CACHE_SIZE {
        var a: Lru, b: Lru :| IsSplit(l, a, e, b) && Sids(b) == after;
        PutSplit(l, a, e, b, x);
        AgedTrim(r, Without(a, x.sid), e, Without(b, x.sid) + [x], after + {x.sid});
      } else {
        SubsetSize(after, after + {x.sid});
        assert |r| > CACHE_SIZE ==> Sids(r) == {r[0].sid} + Sids(r[1..]) by {
          SidsHead(r);
        }
      }
    } else {
      assert after + {} == after;
    }
  }

  /** Evicting the first of 129 entries evicts e exactly when all the others follow it. */
  lemma AgedTrim(r: Lru, a: Lru, e: Entry, b: Lru, after: set<nat>)
    requires IsSplit(r, a, e, b) && Distinct(r) && |r| <= CACHE_SIZE + 1 && Sids(b) == after
    ensures Aged(if |r| > CACHE_SIZE then r[1..] else r, e, after)
  {
    GetSplit(r, a, e, b);
    DistinctSize(b);
    if |r| > CACHE_SIZE {
      if a == [] {
        assert r[1..] == b;
      } else {
        assert IsSplit(r[1..], a[1..], e, b);
      }
    }
  }

  lemma {:induction false} AllAged(l: Lru, a: Lru, e: Entry, b: Lru, us: seq<Use>)
    requires Sound(l) && IsSplit(l, a, e, b) && forall k :: 0 <= k < |us| ==> SidOf(us[k]) != e.sid
    ensures Sound(ApplyAll(l, us)) && Aged(ApplyAll(l, us), e, Sids(b) + Moves(l, us))
    decreases |us|
  {
    if us == [] {
      GetSplit(l, a, e, b);
      DistinctSize(b);
      assert Sids(b) + {} == Sids(b);
    } else {
      var n := |us| - 1;
      AllAged(l, a, e, b, us[..n]);
      ApplySound(ApplyAll(l, us[..n]), us[n]);
      AgedStep(ApplyAll(l, us[..n]), us[n], e, Sids(b) + Moves(l, us[..n]));
      var more := if Moved(ApplyAll(l, us[..n]), us[n]).Some? then {SidOf(us[n])} else {};
      assert (Sids(b) + Moves(l, us[..n])) + more == Sids(b) + Moves(l, us);
    }
  }

  /** While its own session is not used, an entry is remembered as long as fewer than 128
      others follow it or have been moved since, and forgotten from then on. */
  lemma RememberedExactly(l: Lru, a: Lru, e: Entry, b: Lru, us: seq<Use>)
    requires Sound(l) && IsSplit(l, a, e, b) && forall k :: 0 <= k < |us| ==> SidOf(us[k]) != e.sid
    ensures Get(ApplyAll(l, us), e.sid) == if |Sids(b) + Moves(l, us)| < CACHE_SIZE then Some(e.version) else None
  {
    AllAged(l, a, e, b, us);
    var end := ApplyAll(l, us);
    if |Sids(b) + Moves(l, us)| < CACHE_SIZE {
      var a': Lru, b': Lru :| IsSplit(end, a', e, b') && Sids(b') == Sids(b) + Moves(l, us);
      GetSplit(end, a', e, b');
    } else {
      GetSome(end, e.sid);
    }
  }
}
