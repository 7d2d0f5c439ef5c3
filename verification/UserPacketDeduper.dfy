/** The nonce deduper of pkg/rtc/user_packet_deduper.go: a linked list of the last
    accepted ids hidden in a map from each id to the next one. */
module UserPacketDeduper {

  const MAX_SIZE := 100

  /** A parsed id; 0 is the zero id the list starts from. */
  type Uuid = nat

  datatype Nonce = Malformed | Id(id: Uuid)

  function Last<T>(s: seq<T>, n: nat): (r: seq<T>)
    ensures |r| == if |s| <= n then |s| else n
  {
    if |s| <= n then s else s[|s|-n..]
  }

  /** The window after an id that is not in it. */
  function Push(window: seq<Uuid>, id: Uuid): seq<Uuid> {
    Last(window + [id], MAX_SIZE)
  }

  ghost predicate Distinct(s: seq<Uuid>) {
    forall i, j :: 0 <= i < j < |s| ==> s[i] != s[j]
  }

  /** `seen` links `chain` from its first id to its last. */
  ghost predicate Links(seen: map<Uuid, Uuid>, chain: seq<Uuid>) {
    && chain != [] && Distinct(chain)
    && (forall i :: 0 <= i < |chain| - 1 ==> chain[i] in seen && seen[chain[i]] == chain[i+1])
    && (forall x :: x in seen ==> x in chain[..|chain|-1])
  }

  lemma LinksPush(seen: map<Uuid, Uuid>, chain: seq<Uuid>, id: Uuid)
    requires Links(seen, chain) && id !in chain
    ensures Links(seen[chain[|chain|-1] := id], chain + [id])
  {
    assert (chain + [id])[..|chain|] == chain;
    assert chain == chain[..|chain|-1] + [chain[|chain|-1]];
  }

  lemma LinksDrop(seen: map<Uuid, Uuid>, chain: seq<Uuid>)
    requires Links(seen, chain) && |chain| > 1
    ensures chain[0] in seen && seen[chain[0]] == chain[1]
    ensures Links(seen - {chain[0]}, chain[1..])
  {
    var rest := chain[1..];
    forall x | x in seen - {chain[0]} ensures x in rest[..|rest|-1] {
      var i :| 0 <= i < |chain| - 1 && chain[i] == x;
      assert rest[i-1] == x;
    }
  }

  lemma {:induction false} LinksSize(seen: map<Uuid, Uuid>, chain: seq<Uuid>)
    requires Links(seen, chain)
    ensures |seen| == |chain| - 1
    decreases |chain|
  {
    if |chain| > 1 {
      LinksDrop(seen, chain);
      LinksSize(seen - {chain[0]}, chain[1..]);
      assert seen.Keys == (seen - {chain[0]}).Keys + {chain[0]};
    } else {
      assert forall x :: x !in seen;
      assert seen == map[];
    }
  }

  lemma LinksMember(seen: map<Uuid, Uuid>, chain: seq<Uuid>, id: Uuid)
    requires Links(seen, chain)
    ensures id in chain <==> id in seen || id == chain[|chain|-1]
  {
  }

  class UserPacketDeduper {
    var seen: map<Uuid, Uuid>
    var head: Uuid
    var tail: Uuid
    ghost var chain: seq<Uuid>

    ghost predicate Valid()
      reads this
    {
      && Links(seen, chain) && |chain| <= MAX_SIZE
      && tail == chain[0] && head == chain[|chain|-1]
    }

    constructor ()
      ensures Valid() && chain == [0]
    {
      seen, head, tail := map[], 0, 0;
      chain := [0];
    }

    method IsDuplicate(nonce: Nonce) returns (dup: bool)
      requires Valid()
      modifies this
      ensures Valid()
      ensures dup <==> nonce.Id? && nonce.id in old(chain)
      ensures chain == if nonce.Malformed? || dup then old(chain) else Push(old(chain), nonce.id)
    {
      if nonce.Malformed? {
        return false;
      }
      var id := nonce.id;
      LinksMember(seen, chain, id);
      if head == id {
        return true;
      }
      if id in seen {
        return true;
      }
      Remember(id);
      dup := false;
    }

    /** Links a new id at the head, and unlinks the oldest of more than 100. */
    method Remember(id: Uuid)
      requires Valid() && id !in chain
      modifies this
      ensures Valid() && chain == Push(old(chain), id)
    {
      LinksPush(seen, chain, id);
      seen := seen[head := id];
      head := id;
      chain := chain + [id];
      LinksSize(seen, chain);
      if |seen| == MAX_SIZE {
        LinksDrop(seen, chain);
        var oldest := tail;
        tail := seen[oldest];
        seen := seen - {oldest};
        chain := chain[1..];
      }
    }
  }

  // ---- what the answers mean over a run ----

  /** The accepted ids of a run, in order. */
  function Accepted(window: seq<Uuid>, ids: seq<Nonce>): (seq<Uuid>, seq<Uuid>)
    decreases |ids|
  {
    if ids == [] then (window, [])
    else
      var n := |ids| - 1;
      var (w, acc) := Accepted(window, ids[..n]);
      if ids[n].Malformed? || ids[n].id in w then (w, acc)
      else (Push(w, ids[n].id), acc + [ids[n].id])
  }

  /** After any run the window is the last 100 accepted ids, the zero id being the first. */
  lemma {:induction false} WindowIsLastAccepted(ids: seq<Nonce>)
    ensures var (w, acc) := Accepted([0], ids); w == Last([0] + acc, MAX_SIZE)
    decreases |ids|
  {
    if ids != [] {
      var n := |ids| - 1;
      WindowIsLastAccepted(ids[..n]);
      var (w, acc) := Accepted([0], ids[..n]);
      if ids[n].Id? && ids[n].id !in w {
        assert [0] + (acc + [ids[n].id]) == ([0] + acc) + [ids[n].id];
      }
    }
  }

  lemma InLast(s: seq<Uuid>, n: nat, i: nat)
    ensures i < |s| && |s| - n <= i ==> s[i] in Last(s, n)
  {
    if |s| > n && i < |s| && |s| - n <= i {
      assert Last(s, n)[i - (|s| - n)] == s[i];
    }
  }

  /** So an id is accepted twice only with at least 99 others accepted in between. */
  lemma {:induction false} AcceptedAgainOnlyAfterWindow(ids: seq<Nonce>, i: nat, j: nat)
    requires var all := [0] + Accepted([0], ids).1; i < j < |all| && all[i] == all[j]
    ensures j - i >= MAX_SIZE
    decreases |ids|
  {
    if ids != [] {
      var n := |ids| - 1;
      var (w, acc) := Accepted([0], ids[..n]);
      var all := [0] + Accepted([0], ids).1;
      if j < |[0] + acc| {
        assert ([0] + acc)[i] == all[i] && ([0] + acc)[j] == all[j];
        AcceptedAgainOnlyAfterWindow(ids[..n], i, j);
      } else {
        WindowIsLastAccepted(ids[..n]);
        assert all[i] == ([0] + acc)[i];
        InLast([0] + acc, MAX_SIZE, i);
      }
    }
  }
}
