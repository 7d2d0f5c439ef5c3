/** ChunkProtoBatch of pkg/rtc/utils.go: cutting a batch of messages into chunks of
    a target size, greedily. */
module ChunkBatch {

  /** A message and the size of its encoding. */
  datatype Message = Message(size: nat, body: nat)

  function Sum(ms: seq<Message>): nat
    decreases |ms|
  {
    if ms == [] then 0 else Sum(ms[..|ms|-1]) + ms[|ms|-1].size
  }

  function Concat(chunks: seq<seq<Message>>): seq<Message>
    decreases |chunks|
  {
    if chunks == [] then [] else Concat(chunks[..|chunks|-1]) + chunks[|chunks|-1]
  }

  /** Within the target, unless it is a single message. */
  predicate Fits(chunk: seq<Message>, target: int) {
    |chunk| == 1 || Sum(chunk) <= target
  }

  ghost predicate AllFit(chunks: seq<seq<Message>>, target: int) {
    forall k :: 0 <= k < |chunks| ==> Fits(chunks[k], target)
  }

  /** A chunk without room for the first message of the next one. */
  ghost predicate NoRoom(chunk: seq<Message>, next: seq<Message>, target: int) {
    next != [] && Sum(chunk) + next[0].size > target
  }

  ghost predicate Full(chunks: seq<seq<Message>>, target: int) {
    forall j, k :: 0 <= j < |chunks| && k == j + 1 && k < |chunks| ==> NoRoom(chunks[j], chunks[k], target)
  }

  ghost predicate NoneEmpty(chunks: seq<seq<Message>>) {
    forall k :: 0 <= k < |chunks| ==> chunks[k] != []
  }

  /** A partition of a prefix of the batch, as the loop builds it. */
  ghost predicate Cut(chunks: seq<seq<Message>>, prefix: seq<Message>, target: int) {
    Concat(chunks) == prefix && NoneEmpty(chunks) && AllFit(chunks, target) && Full(chunks, target)
  }

  lemma CutExtends(chunks: seq<seq<Message>>, prefix: seq<Message>, chunk: seq<Message>, target: int)
    requires Cut(chunks, prefix, target) && chunk != [] && Fits(chunk, target)
    requires chunks != [] ==> NoRoom(chunks[|chunks|-1], chunk, target)
    ensures Cut(chunks + [chunk], prefix + chunk, target)
  {
    assert (chunks + [chunk])[..|chunks|] == chunks;
  }

  lemma SumExtends(batch: seq<Message>, start: nat, i: nat)
    requires start <= i < |batch|
    ensures Sum(batch[start..i+1]) == Sum(batch[start..i]) + batch[i].size
  {
    assert batch[start..i+1][..i-start] == batch[start..i];
  }

  /** The loop cuts off the chunk from start to i. */
  lemma CutAt(chunks: seq<seq<Message>>, batch: seq<Message>, start: nat, i: nat, target: int)
    requires start < i <= |batch| && Cut(chunks, batch[..start], target) && Fits(batch[start..i], target)
    requires chunks != [] ==> Sum(chunks[|chunks|-1]) + batch[start].size > target
    ensures Cut(chunks + [batch[start..i]], batch[..i], target)
  {
    CutExtends(chunks, batch[..start], batch[start..i], target);
    assert batch[..i] == batch[..start] + batch[start..i];
  }

  ghost predicate Fewest(chunks: seq<seq<Message>>, batch: seq<Message>, target: int) {
    forall other :: Concat(other) == batch && AllFit(other, target) ==> |chunks| <= |other|
  }

  lemma CutIsFewest(chunks: seq<seq<Message>>, batch: seq<Message>, target: int)
    requires Cut(chunks, batch, target)
    ensures Fewest(chunks, batch, target)
  {
    forall other | Concat(other) == batch && AllFit(other, target) ensures |chunks| <= |other| {
      FullIsFewest(chunks, other, target);
    }
  }

  /** The loop has cut the batch up to start; the open chunk, of this size, runs to i. */
  ghost predicate Building(chunks: seq<seq<Message>>, batch: seq<Message>, start: nat, i: nat, size: nat, target: int) {
    && start <= i <= |batch| && (start == i ==> i == 0)
    && Cut(chunks, batch[..start], target)
    && size == Sum(batch[start..i]) && (start < i ==> Fits(batch[start..i], target))
    && (chunks != [] ==> start < i && Sum(chunks[|chunks|-1]) + batch[start].size > target)
  }

  lemma Extends(chunks: seq<seq<Message>>, batch: seq<Message>, start: nat, i: nat, size: nat, target: int)
    requires Building(chunks, batch, start, i, size, target) && i < |batch| && size + batch[i].size <= target
    ensures Building(chunks, batch, start, i + 1, size + batch[i].size, target)
  {
    SumExtends(batch, start, i);
  }

  lemma SumOfOne(batch: seq<Message>, i: nat)
    requires i < |batch|
    ensures Sum(batch[i..i+1]) == batch[i].size && |batch[i..i+1]| == 1
  {
    SumExtends(batch, i, i);
    assert batch[i..i] == [];
  }

  lemma StartsOver(chunks: seq<seq<Message>>, batch: seq<Message>, start: nat, i: nat, size: nat, target: int)
    requires Building(chunks, batch, start, i, size, target) && i < |batch| && size + batch[i].size > target
    ensures Building(if start < i then chunks + [batch[start..i]] else chunks, batch, i, i + 1, batch[i].size, target)
  {
    SumOfOne(batch, i);
    if start < i {
      CutAt(chunks, batch, start, i, target);
      assert (chunks + [batch[start..i]])[|chunks|] == batch[start..i];
    } else {
      assert chunks == [];
    }
  }

  method ChunkProtoBatch(batch: seq<Message>, target: int) returns (chunks: seq<seq<Message>>)
    ensures Concat(chunks) == batch
    ensures NoneEmpty(chunks) && AllFit(chunks, target)
    ensures Fewest(chunks, batch, target)
  {
    chunks := [];
    var start: nat, size: nat, i: nat := 0, 0, 0;
    while i < |batch|
      invariant Building(chunks, batch, start, i, size, target)
    {
      var s := batch[i].size;
      if size + s > target {
        StartsOver(chunks, batch, start, i, size, target);
        if start < i {
          chunks := chunks + [batch[start..i]];
        }
        start := i;
        size := 0;
      } else {
        Extends(chunks, batch, start, i, size, target);
      }
      size := size + s;
      i := i + 1;
    }
    assert batch[..|batch|] == batch;
    if start < |batch| {
      assert batch[start..i] == batch[start..];
      CutAt(chunks, batch, start, i, target);
      chunks := chunks + [batch[start..]];
    }
    CutIsFewest(chunks, batch, target);
  }

  // ---- full chunks are as few as possible ----

  lemma {:induction false} SumSlice(ms: seq<Message>, a: nat, b: nat)
    requires a <= b <= |ms|
    ensures Sum(ms[..a]) + Sum(ms[a..b]) == Sum(ms[..b])
    decreases b
  {
    if a < b {
      SumSlice(ms, a, b - 1);
      assert ms[a..b][..b-1-a] == ms[a..b-1];
      assert ms[..b][..b-1] == ms[..b-1];
    } else {
      assert ms[a..b] == [];
    }
  }

  lemma {:induction false} SumGrows(ms: seq<Message>, a: nat, b: nat)
    requires a <= b <= |ms|
    ensures Sum(ms[..a]) <= Sum(ms[..b])
    decreases b
  {
    SumSlice(ms, a, b);
  }

  /** Where the first k chunks end. */
  function Reach(chunks: seq<seq<Message>>, k: nat): nat
    requires k <= |chunks|
  {
    |Concat(chunks[..k])|
  }

  lemma ReachNext(chunks: seq<seq<Message>>, k: nat)
    requires k < |chunks|
    ensures Reach(chunks, k + 1) == Reach(chunks, k) + |chunks[k]|
    ensures Concat(chunks[..k+1]) == Concat(chunks[..k]) + chunks[k]
  {
    assert chunks[..k+1][..k] == chunks[..k];
  }

  lemma {:induction false} ConcatPrefix(chunks: seq<seq<Message>>, k: nat)
    requires k <= |chunks|
    ensures Concat(chunks[..k]) <= Concat(chunks)
    decreases |chunks|
  {
    if k < |chunks| {
      var n := |chunks| - 1;
      assert chunks[..n][..k] == chunks[..k];
      ConcatPrefix(chunks[..n], k);
    } else {
      assert chunks[..k] == chunks;
    }
  }

  /** A chunk is the slice of the batch between two reaches. */
  lemma ChunkIsSlice(chunks: seq<seq<Message>>, k: nat)
    requires k < |chunks|
    ensures Reach(chunks, k) <= Reach(chunks, k + 1) <= |Concat(chunks)|
    ensures chunks[k] == Concat(chunks)[Reach(chunks, k)..Reach(chunks, k + 1)]
  {
    ReachNext(chunks, k);
    ConcatPrefix(chunks, k + 1);
  }

  /** Full chunks stay ahead: their first k always reach at least as far as the first
      k chunks of any other partition that fits. */
  lemma {:induction false} FullStaysAhead(chunks: seq<seq<Message>>, other: seq<seq<Message>>, target: int, k: nat)
    requires Concat(chunks) == Concat(other) && NoneEmpty(chunks) && Full(chunks, target) && AllFit(other, target)
    requires k <= |chunks| && k <= |other|
    ensures Reach(chunks, k) >= Reach(other, k)
    decreases k
  {
    if k > 0 {
      var j, ms := k - 1, Concat(chunks);
      FullStaysAhead(chunks, other, target, j);
      ChunkIsSlice(chunks, j);
      ChunkIsSlice(other, j);
      var a, b, c, d := Reach(chunks, j), Reach(chunks, k), Reach(other, j), Reach(other, k);
      ReachNext(chunks, j);
      if k == |chunks| {
        assert chunks[..k] == chunks;
      } else if d > b {
        ChunkIsSlice(chunks, k);
        ReachNext(chunks, k);
        assert NoRoom(chunks[j], chunks[k], target);
        SumWider(ms, c, a, b, d);
      }
    }
  }

  /** A slice that contains ms[a..b] and the message after it weighs at least as much. */
  lemma SumWider(ms: seq<Message>, c: nat, a: nat, b: nat, d: nat)
    requires c <= a <= b < d <= |ms|
    ensures Sum(ms[c..d]) >= Sum(ms[a..b]) + ms[b].size
  {
    SumSlice(ms, a, b);
    SumSlice(ms, c, d);
    SumGrows(ms, c, a);
    SumGrows(ms, b + 1, d);
    assert ms[..b+1][..b] == ms[..b];
  }

  /** No partition into chunks that fit has fewer chunks than one whose chunks are full. */
  lemma FullIsFewest(chunks: seq<seq<Message>>, other: seq<seq<Message>>, target: int)
    requires Concat(chunks) == Concat(other) && NoneEmpty(chunks) && Full(chunks, target) && AllFit(other, target)
    ensures |chunks| <= |other|
  {
    if |other| < |chunks| {
      var k := |other|;
      FullStaysAhead(chunks, other, target, k);
      assert other[..k] == other;
      ChunkIsSlice(chunks, k);
      ReachNext(chunks, k);
    }
  }
}
