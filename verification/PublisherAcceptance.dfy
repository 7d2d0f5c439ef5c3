/** What ReliablePublisher lets through of the packets it receives when no migration is
    going on, and that unnumbered packets always pass. */
module PublisherAcceptance {
  import opened Numbers
  import opened ReliablePublisher

  /** The packets of ps that are numbered, or those that are not, in order. */
  function Only(ps: seq<Packet>, numbered: bool): seq<Packet>
    decreases |ps|
  {
    if ps == [] then []
    else Only(ps[..|ps|-1], numbered) + if Numbered(ps[|ps|-1]) == numbered then [ps[|ps|-1]] else []
  }

  /** ps[i] carries no number, or one above `base` and above all numbers before it. */
  ghost predicate Passes(base: int, ps: seq<Packet>, i: nat)
    requires i < |ps|
  {
    Numbered(ps[i]) ==> ps[i].sequence > base && forall j :: 0 <= j < i && Numbered(ps[j]) ==> ps[j].sequence < ps[i].sequence
  }

  /** The packets that pass, in order. */
  ghost function Passing(base: int, ps: seq<Packet>): seq<Packet>
    decreases |ps|
  {
    if ps == [] then []
    else Passing(base, ps[..|ps|-1]) + if Passes(base, ps, |ps| - 1) then [ps[|ps|-1]] else []
  }

  /** `top` is the largest of `base` and the numbers of ps. */
  ghost predicate IsTop(base: int, ps: seq<Packet>, top: int) {
    && base <= top
    && (forall i :: 0 <= i < |ps| && Numbered(ps[i]) ==> ps[i].sequence <= top)
    && (top == base || exists i :: 0 <= i < |ps| && Numbered(ps[i]) && ps[i].sequence == top)
  }

  lemma TopPasses(base: int, ps: seq<Packet>, top: int)
    requires ps != [] && IsTop(base, ps[..|ps|-1], top) && Numbered(ps[|ps|-1])
    ensures Passes(base, ps, |ps| - 1) <==> ps[|ps|-1].sequence > top
    ensures IsTop(base, ps, if ps[|ps|-1].sequence > top then ps[|ps|-1].sequence else top)
  {
    var init := ps[..|ps|-1];
    assert forall i :: 0 <= i < |init| ==> init[i] == ps[i];
    if top != base {
      var i :| 0 <= i < |init| && Numbered(init[i]) && init[i].sequence == top;
      assert Numbered(ps[i]) && ps[i].sequence == top;
    }
  }

  /** Handling packets one by one lets through exactly those that pass. */
  lemma {:induction false} HandleAllPasses(lastSeq: uint32, ps: seq<Packet>)
    ensures HandleAll(lastSeq, ps).1 == Passing(lastSeq, ps) && IsTop(lastSeq, ps, HandleAll(lastSeq, ps).0)
    decreases |ps|
  {
    if ps != [] {
      var n := |ps| - 1;
      HandleAllPasses(lastSeq, ps[..n]);
      if Numbered(ps[n]) {
        TopPasses(lastSeq, ps, HandleAll(lastSeq, ps[..n]).0);
      } else {
        SameTop(lastSeq, ps, HandleAll(lastSeq, ps[..n]).0);
      }
    }
  }

  lemma SameTop(base: int, ps: seq<Packet>, top: int)
    requires ps != [] && IsTop(base, ps[..|ps|-1], top) && !Numbered(ps[|ps|-1])
    ensures IsTop(base, ps, top)
  {
    var init := ps[..|ps|-1];
    assert forall i :: 0 <= i < |init| ==> init[i] == ps[i];
    if top != base {
      var i :| 0 <= i < |init| && Numbered(init[i]) && init[i].sequence == top;
      assert Numbered(ps[i]) && ps[i].sequence == top;
    }
  }

  /** Of those the numbered ones are the running maxima of the numbered packets, and the
      others are all. */
  lemma {:induction false} PassingSplits(base: int, ps: seq<Packet>)
    ensures Only(Passing(base, ps), true) == Records(base, Only(ps, true))
    ensures Only(Passing(base, ps), false) == Only(ps, false)
    decreases |ps|
  {
    if ps != [] {
      var n := |ps| - 1;
      var before := Passing(base, ps[..n]);
      PassingSplits(base, ps[..n]);
      assert before + [] == before;
      assert (before + [ps[n]])[..|before|] == before;
      if Numbered(ps[n]) {
        var numbered := Only(ps[..n], true);
        assert (numbered + [ps[n]])[..|numbered|] == numbered;
        OnlyMembers(ps[..n]);
        assert IsRecord(base, numbered + [ps[n]], |numbered|) <==> Passes(base, ps, n) by {
          RecordIsPass(base, ps, numbered);
        }
        assert Records(base, numbered) + [] == Records(base, numbered);
        assert Only(ps[..n], false) + [] == Only(ps[..n], false);
      } else {
        assert Only(before, true) + [] == Only(before, true);
        assert Only(ps[..n], true) + [] == Only(ps[..n], true);
      }
    }
  }

  lemma {:induction false} OnlyMembers(ps: seq<Packet>)
    ensures forall p :: p in Only(ps, true) <==> p in ps && Numbered(p)
    decreases |ps|
  {
    if ps != [] {
      OnlyMembers(ps[..|ps|-1]);
      assert ps == ps[..|ps|-1] + [ps[|ps|-1]];
    }
  }

  lemma RecordIsPass(base: int, ps: seq<Packet>, numbered: seq<Packet>)
    requires ps != [] && Numbered(ps[|ps|-1])
    requires forall p :: p in numbered <==> p in ps[..|ps|-1] && Numbered(p)
    ensures IsRecord(base, numbered + [ps[|ps|-1]], |numbered|) <==> Passes(base, ps, |ps| - 1)
  {
    var n, init := |ps| - 1, ps[..|ps|-1];
    if Passes(base, ps, n) {
      forall j | 0 <= j < |numbered| ensures numbered[j].sequence < ps[n].sequence {
        assert numbered[j] in numbered;
        var i :| 0 <= i < |init| && init[i] == numbered[j];
        assert ps[i] == numbered[j];
      }
    }
    if IsRecord(base, numbered + [ps[n]], |numbered|) {
      forall j | 0 <= j < n && Numbered(ps[j]) ensures ps[j].sequence < ps[n].sequence {
        assert init[j] in init;
        var i :| 0 <= i < |numbered| && numbered[i] == ps[j];
        assert (numbered + [ps[n]])[i] == ps[j];
      }
    }
  }

  function PacketsOf(arrived: seq<Arrival>): seq<Packet> {
    seq(|arrived|, i requires 0 <= i < |arrived| => arrived[i].p)
  }

  lemma {:induction false} NoCacheHandlesAll(s: Pub, arrived: seq<Arrival>)
    requires !s.stopped && s.held == NoCache
    ensures var (last, out) := HandleAll(s.lastSeq, PacketsOf(arrived)); Run(s, AsEvents(arrived)) == (s.(lastSeq := last), out)
    decreases |arrived|
  {
    if arrived == [] {
      assert PacketsOf(arrived) == [] && AsEvents(arrived) == [];
    } else {
      var n := |arrived| - 1;
      var ps := PacketsOf(arrived);
      NoCacheHandlesAll(s, arrived[..n]);
      assert ps[..n] == PacketsOf(arrived[..n]);
      assert AsEvents(arrived) == AsEvents(arrived[..n]) + [Arrives(arrived[n].p, arrived[n].expired)];
      RunExtends(s, AsEvents(arrived[..n]), Arrives(arrived[n].p, arrived[n].expired));
    }
  }

  /** With no cache armed and no migration out, what passes of any run of packets is every
      unnumbered one, and the numbered ones above all numbers before them and above where the
      publisher began; all in arrival order. */
  lemma PassesExactly(lastSeq: uint32, arrived: seq<Arrival>)
    ensures var out := Run(Pub(lastSeq, false, NoCache), AsEvents(arrived)).1; var ps := PacketsOf(arrived);
      && out == Passing(lastSeq, ps)
      && Only(out, true) == Records(lastSeq, Only(ps, true))
      && Only(out, false) == Only(ps, false)
  {
    NoCacheHandlesAll(Pub(lastSeq, false, NoCache), arrived);
    HandleAllPasses(lastSeq, PacketsOf(arrived));
    PassingSplits(lastSeq, PacketsOf(arrived));
  }

  // ---- unnumbered packets pass always ----

  function UnnumberedOf(es: seq<Event>): seq<Packet> {
    if es == [] then []
    else (if es[0].Arrives? && !Numbered(es[0].p) then [es[0].p] else []) + UnnumberedOf(es[1..])
  }

  /** The cache holds numbered packets only. */
  ghost predicate HoldsNumbered(s: Pub) {
    s.held.Armed? ==> forall i :: 0 <= i < |s.held.cache.pkts| ==> Numbered(s.held.cache.pkts[i])
  }

  lemma {:induction false} NumberedOnly(ps: seq<Packet>)
    requires forall i :: 0 <= i < |ps| ==> Numbered(ps[i])
    ensures Only(ps, false) == []
    decreases |ps|
  {
    if ps != [] {
      NumberedOnly(ps[..|ps|-1]);
    }
  }

  lemma {:induction false} OnlyConcat(a: seq<Packet>, b: seq<Packet>, numbered: bool)
    ensures Only(a + b, numbered) == Only(a, numbered) + Only(b, numbered)
    decreases |b|
  {
    if b == [] {
      assert a + b == a;
      assert Only(a, numbered) + [] == Only(a, numbered);
    } else {
      var n := |b| - 1;
      assert (a + b)[..|a|+n] == a + b[..n];
      OnlyConcat(a, b[..n], numbered);
      assert (Only(a, numbered) + Only(b[..n], numbered)) + [] == Only(a, numbered) + Only(b[..n], numbered);
    }
  }

  lemma {:induction false} HandleAllNumbered(lastSeq: uint32, ps: seq<Packet>)
    requires forall i :: 0 <= i < |ps| ==> Numbered(ps[i])
    ensures forall i :: 0 <= i < |HandleAll(lastSeq, ps).1| ==> Numbered(HandleAll(lastSeq, ps).1[i])
    decreases |ps|
  {
    if ps != [] {
      HandleAllNumbered(lastSeq, ps[..|ps|-1]);
    }
  }

  lemma StepPassesUnnumbered(s: Pub, e: Event)
    requires HoldsNumbered(s)
    ensures HoldsNumbered(Step(s, e).0)
    ensures Only(Step(s, e).1, false) == if e.Arrives? && !Numbered(e.p) then [e.p] else []
  {
    if e.Arrives? && !Numbered(e.p) {
      assert [e.p][..0] == [];
    } else {
      var out := Step(s, e).1;
      if e.Arrives? && s.held.Armed? && !s.stopped {
        var cache := CacheAdd(s.held.cache, e.p, e.expired);
        assert forall i :: 0 <= i < |cache.pkts| ==> Numbered(cache.pkts[i]);
        HandleAllNumbered(s.lastSeq, cache.pkts);
      }
      NumberedOnly(out);
    }
  }

  /** In every run, migrating or not, every unnumbered packet passes, in arrival order. */
  lemma {:induction false} UnnumberedAlwaysPass(s: Pub, es: seq<Event>)
    requires HoldsNumbered(s)
    ensures Only(Run(s, es).1, false) == UnnumberedOf(es)
    decreases |es|
  {
    if es != [] {
      var (mid, out) := Step(s, es[0]);
      StepPassesUnnumbered(s, es[0]);
      UnnumberedAlwaysPass(mid, es[1..]);
      OnlyConcat(out, Run(mid, es[1..]).1, false);
    }
  }
}
