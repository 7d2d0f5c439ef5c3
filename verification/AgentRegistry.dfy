/** The agent-worker registry of pkg/service/agentservice.go: worker lists by key, with
    counters and sorted name lists that mirror the keys in use. */
module AgentRegistry {

  datatype JobType = Room | Publisher | Participant | Other

  /** Names are numbered by their place in the order of strings. */
  type Name = nat

  datatype Key = Key(agentName: Name, namespace: Name, jobType: JobType)

  datatype Worker = Worker(id: nat, key: Key)

  datatype Registry = Registry(workers: map<nat, Worker>, byKey: map<Key, seq<Worker>>,
                               roomKeys: int, publisherKeys: int, participantKeys: int,
                               namespaces: seq<Name>, agentNames: seq<Name>)

  const EMPTY_REGISTRY := Registry(map[], map[], 0, 0, 0, [], [])

  // ---- the library's slices and sort ----

  function Index<T(==)>(s: seq<T>, x: T): (i: int)
    ensures if x in s then 0 <= i < |s| && s[i] == x && x !in s[..i] else i == -1
  {
    if s == [] then -1
    else if s[0] == x then 0
    else
      var i := Index(s[1..], x);
      assert i >= 0 ==> s[..i+1] == [s[0]] + s[1..][..i];
      if i == -1 then -1 else i + 1
  }

  function Delete<T>(s: seq<T>, i: int): seq<T>
    requires 0 <= i < |s|
  {
    s[..i] + s[i+1..]
  }

  predicate Sorted(s: seq<Name>) {
    forall i, j :: 0 <= i < j < |s| ==> s[i] <= s[j]
  }

  predicate StrictlySorted(s: seq<Name>) {
    forall i, j :: 0 <= i < j < |s| ==> s[i] < s[j]
  }

  function Count(s: seq<Name>, x: Name): nat {
    if s == [] then 0 else (if s[0] == x then 1 else 0) + Count(s[1..], x)
  }

  ghost predicate SameNames(a: seq<Name>, b: seq<Name>) {
    forall x :: Count(a, x) == Count(b, x)
  }

  function Insert(x: Name, s: seq<Name>): (r: seq<Name>)
    requires Sorted(s)
    ensures Sorted(r) && SameNames(r, [x] + s)
    ensures forall y :: y in r <==> y == x || y in s
  {
    if s == [] || x <= s[0] then [x] + s
    else
      var rest := Insert(x, s[1..]);
      InsertCounts(x, s, rest);
      [s[0]] + rest
  }

  lemma InsertCounts(x: Name, s: seq<Name>, rest: seq<Name>)
    requires s != [] && Sorted(s) && s[0] < x
    requires Sorted(rest) && SameNames(rest, [x] + s[1..]) && forall y :: y in rest <==> y == x || y in s[1..]
    ensures Sorted([s[0]] + rest) && SameNames([s[0]] + rest, [x] + s)
  {
    forall j | 0 <= j < |rest| ensures s[0] <= rest[j] {
      assert rest[j] in rest;
    }
    assert ([s[0]] + rest)[1..] == rest && ([x] + s)[1..] == s && ([x] + s[1..])[1..] == s[1..];
  }

  function Sort(s: seq<Name>): (r: seq<Name>)
    ensures Sorted(r) && SameNames(r, s)
  {
    if s == [] then []
    else
      var rest := Sort(s[1..]);
      assert ([s[0]] + rest)[1..] == rest;
      Insert(s[0], rest)
  }

  lemma {:induction false} CountConcat(a: seq<Name>, b: seq<Name>, x: Name)
    ensures Count(a + b, x) == Count(a, x) + Count(b, x)
  {
    if a == [] {
      assert a + b == b;
    } else {
      CountConcat(a[1..], b, x);
      assert (a + b)[1..] == a[1..] + b;
    }
  }

  lemma {:induction false} CountMember(s: seq<Name>, x: Name)
    ensures x in s <==> Count(s, x) > 0
  {
    if s != [] {
      CountMember(s[1..], x);
    }
  }

  /** Drops each element equal to the one before it. */
  function Compact(s: seq<Name>): (r: seq<Name>)
    ensures forall x :: x in r <==> x in s
    ensures Sorted(s) ==> StrictlySorted(r)
    ensures s != [] ==> r != [] && r[|r|-1] == s[|s|-1]
    decreases |s|
  {
    if |s| <= 1 then s
    else
      var n := |s| - 1;
      var r := Compact(s[..n]);
      assert s == s[..n] + [s[n]];
      if s[n] == s[n-1] then r else r + [s[n]]
  }

  // ---- register and deregister ----

  function Listed(r: Registry, k: Key): seq<Worker> {
    if k in r.byKey then r.byKey[k] else []
  }

  function CountKey(r: Registry, t: JobType, d: int): (s: Registry)
    ensures s.byKey == r.byKey && s.namespaces == r.namespaces && s.agentNames == r.agentNames && s.workers == r.workers
  {
    match t
    case Room => r.(roomKeys := r.roomKeys + d)
    case Publisher => r.(publisherKeys := r.publisherKeys + d)
    case Participant => r.(participantKeys := r.participantKeys + d)
    case Other => r
  }

  /** The first worker of a key. */
  function AddKey(r: Registry, k: Key): Registry {
    CountKey(r, k.jobType, 1).(namespaces := Sort(r.namespaces + [k.namespace]), agentNames := Sort(r.agentNames + [k.agentName]))
  }

  function DeleteFirst<T(==)>(s: seq<T>, x: T): seq<T> {
    if Index(s, x) != -1 then Delete(s, Index(s, x)) else s
  }

  /** The last worker of a key. */
  function RemoveKey(r: Registry, k: Key): Registry {
    CountKey(r.(namespaces := DeleteFirst(r.namespaces, k.namespace),
                agentNames := DeleteFirst(r.agentNames, k.agentName),
                byKey := r.byKey - {k}), k.jobType, -1)
  }

  /** `topicOk` is whether the job request topic of a first worker could be registered. */
  function Register(r: Registry, w: Worker, topicOk: bool): Registry {
    var known := r.(workers := r.workers[w.id := w]);
    var list := Listed(r, w.key);
    if list == [] && !topicOk then known
    else (if list == [] then AddKey(known, w.key) else known).(byKey := r.byKey[w.key := list + [w]])
  }

  function Deregister(r: Registry, w: Worker): Registry {
    var unknown := r.(workers := r.workers - {w.id});
    var list := Listed(r, w.key);
    if w !in list then unknown
    else if |list| > 1 then unknown.(byKey := r.byKey[w.key := DeleteFirst(list, w)])
    else RemoveKey(unknown, w.key)
  }

  datatype Enabled = Enabled(namespaces: seq<Name>, agentNames: seq<Name>, room: bool, publisher: bool, participant: bool)

  class AgentHandler {
    var workers: map<nat, Worker>
    var namespaceWorkers: map<Key, seq<Worker>>
    var roomKeyCount: int
    var publisherKeyCount: int
    var participantKeyCount: int
    var namespaces: seq<Name>
    var agentNames: seq<Name>

    ghost function View(): Registry
      reads this
    {
      Registry(workers, namespaceWorkers, roomKeyCount, publisherKeyCount, participantKeyCount, namespaces, agentNames)
    }

    constructor ()
      ensures View() == EMPTY_REGISTRY
    {
      workers, namespaceWorkers := map[], map[];
      roomKeyCount, publisherKeyCount, participantKeyCount := 0, 0, 0;
      namespaces, agentNames := [], [];
    }

    method RegisterWorker(w: Worker, topicOk: bool)
      modifies this
      ensures View() == Register(old(View()), w, topicOk)
    {
      workers := workers[w.id := w];
      var list := if w.key in namespaceWorkers then namespaceWorkers[w.key] else [];
      if |list| == 0 {
        if !topicOk {
          return;
        }
        AdjustKeyCount(w.key.jobType, 1);
        namespaces := Sort(namespaces + [w.key.namespace]);
        agentNames := Sort(agentNames + [w.key.agentName]);
      }
      namespaceWorkers := namespaceWorkers[w.key := list + [w]];
    }

    /** The switches on the job type in both of them. */
    method AdjustKeyCount(t: JobType, d: int)
      modifies this`roomKeyCount, this`publisherKeyCount, this`participantKeyCount
      ensures View() == CountKey(old(View()), t, d)
    {
      match t {
        case Room => roomKeyCount := roomKeyCount + d;
        case Publisher => publisherKeyCount := publisherKeyCount + d;
        case Participant => participantKeyCount := participantKeyCount + d;
        case Other =>
      }
    }

    method DeregisterWorker(w: Worker)
      modifies this
      ensures View() == Deregister(old(View()), w)
    {
      workers := workers - {w.id};
      if w.key !in namespaceWorkers {
        return;
      }
      var list := namespaceWorkers[w.key];
      var index := Index(list, w);
      if index == -1 {
        return;
      }
      if |list| > 1 {
        namespaceWorkers := namespaceWorkers[w.key := Delete(list, index)];
      } else {
        RemoveLastWorker(w.key);
      }
    }

    /** The branch for the last worker of a key. */
    method RemoveLastWorker(key: Key)
      modifies this
      ensures View() == RemoveKey(old(View()), key)
    {
      namespaceWorkers := namespaceWorkers - {key};
      namespaces := DeleteFirst(namespaces, key.namespace);
      agentNames := DeleteFirst(agentNames, key.agentName);
      AdjustKeyCount(key.jobType, -1);
    }

    /** The distinct names of the keys in use, in order, and which job types have a key. */
    method CheckEnabled() returns (e: Enabled)
      requires Mirrors(View())
      ensures StrictlySorted(e.namespaces) && StrictlySorted(e.agentNames)
      ensures forall n :: n in e.namespaces <==> exists k :: k in namespaceWorkers && k.namespace == n
      ensures forall n :: n in e.agentNames <==> exists k :: k in namespaceWorkers && k.agentName == n
      ensures e.room <==> exists k :: k in namespaceWorkers && k.jobType == Room
      ensures e.publisher <==> exists k :: k in namespaceWorkers && k.jobType == Publisher
      ensures e.participant <==> exists k :: k in namespaceWorkers && k.jobType == Participant
    {
      MirrorsNames(View());
      MirrorsTypes(View());
      e := Enabled(Compact(namespaces), Compact(agentNames), roomKeyCount != 0, publisherKeyCount != 0, participantKeyCount != 0);
    }
  }

  // ---- the counters and name lists mirror the keys ----

  datatype Query = ByNamespace(n: Name) | ByName(n: Name) | ByType(t: JobType)

  predicate Matches(k: Key, q: Query) {
    match q
    case ByNamespace(n) => k.namespace == n
    case ByName(n) => k.agentName == n
    case ByType(t) => k.jobType == t
  }

  ghost function Matching(keys: set<Key>, q: Query): set<Key> {
    set k | k in keys && Matches(k, q)
  }

  /** What the registry's counters and lists answer to a query. */
  ghost function Tally(r: Registry, q: Query): int {
    match q
    case ByNamespace(n) => Count(r.namespaces, n)
    case ByName(n) => Count(r.agentNames, n)
    case ByType(Room) => r.roomKeys
    case ByType(Publisher) => r.publisherKeys
    case ByType(Participant) => r.participantKeys
    case ByType(Other) => |Matching(r.byKey.Keys, q)|
  }

  ghost predicate Mirrors(r: Registry) {
    && (forall k :: k in r.byKey ==> r.byKey[k] != [])
    && Sorted(r.namespaces) && Sorted(r.agentNames)
    && forall q :: Tally(r, q) == |Matching(r.byKey.Keys, q)|
  }

  lemma MatchingAdd(keys: set<Key>, k: Key, q: Query)
    requires k !in keys
    ensures |Matching(keys + {k}, q)| == |Matching(keys, q)| + if Matches(k, q) then 1 else 0
  {
    if Matches(k, q) {
      assert Matching(keys + {k}, q) == Matching(keys, q) + {k};
    } else {
      assert Matching(keys + {k}, q) == Matching(keys, q);
    }
  }

  lemma MatchingNone(keys: set<Key>, q: Query)
    ensures |Matching(keys, q)| != 0 <==> exists k :: k in keys && Matches(k, q)
  {
    if k :| k in keys && Matches(k, q) {
      assert k in Matching(keys, q);
    } else {
      assert Matching(keys, q) == {};
    }
  }

  lemma MirrorsNames(r: Registry)
    requires Mirrors(r)
    ensures forall n :: n in r.namespaces <==> exists k :: k in r.byKey && k.namespace == n
    ensures forall n :: n in r.agentNames <==> exists k :: k in r.byKey && k.agentName == n
  {
    forall n: Name
      ensures n in r.namespaces <==> exists k :: k in r.byKey && k.namespace == n
      ensures n in r.agentNames <==> exists k :: k in r.byKey && k.agentName == n
    {
      assert Tally(r, ByNamespace(n)) == Count(r.namespaces, n);
      assert Tally(r, ByName(n)) == Count(r.agentNames, n);
      CountMember(r.namespaces, n);
      CountMember(r.agentNames, n);
      MatchingNone(r.byKey.Keys, ByNamespace(n));
      MatchingNone(r.byKey.Keys, ByName(n));
    }
  }

  lemma MirrorsTypes(r: Registry)
    requires Mirrors(r)
    ensures r.roomKeys != 0 <==> exists k :: k in r.byKey && k.jobType == Room
    ensures r.publisherKeys != 0 <==> exists k :: k in r.byKey && k.jobType == Publisher
    ensures r.participantKeys != 0 <==> exists k :: k in r.byKey && k.jobType == Participant
  {
    assert Tally(r, ByType(Room)) == r.roomKeys;
    assert Tally(r, ByType(Publisher)) == r.publisherKeys;
    assert Tally(r, ByType(Participant)) == r.participantKeys;
    MatchingNone(r.byKey.Keys, ByType(Room));
    MatchingNone(r.byKey.Keys, ByType(Publisher));
    MatchingNone(r.byKey.Keys, ByType(Participant));
  }

  lemma AddNameCount(s: seq<Name>, x: Name, y: Name)
    ensures Count(Sort(s + [x]), y) == Count(s, y) + if y == x then 1 else 0
  {
    CountConcat(s, [x], y);
    assert SameNames(Sort(s + [x]), s + [x]);
  }

  lemma DeleteSorted(s: seq<Name>, x: Name)
    requires Sorted(s)
    ensures Sorted(DeleteFirst(s, x))
  {
  }

  lemma DeleteNameCount(s: seq<Name>, x: Name, y: Name)
    requires x in s
    ensures Count(DeleteFirst(s, x), y) == Count(s, y) - if y == x then 1 else 0
  {
    var i := Index(s, x);
    var a, b := s[..i], s[i+1..];
    assert s == (a + [x]) + b;
    CountConcat(a + [x], b, y);
    CountConcat(a, [x], y);
    CountConcat(a, b, y);
  }

  lemma AddKeyTally(r: Registry, k: Key, q: Query)
    requires q != ByType(Other)
    ensures Tally(AddKey(r, k), q) == Tally(r, q) + if Matches(k, q) then 1 else 0
  {
    match q
    case ByNamespace(n) => AddNameCount(r.namespaces, k.namespace, n);
    case ByName(n) => AddNameCount(r.agentNames, k.agentName, n);
    case ByType(_) =>
  }

  lemma RemoveKeyTally(r: Registry, k: Key, q: Query)
    requires q != ByType(Other) && k.namespace in r.namespaces && k.agentName in r.agentNames
    ensures Tally(RemoveKey(r, k), q) == Tally(r, q) - if Matches(k, q) then 1 else 0
  {
    match q
    case ByNamespace(n) => DeleteNameCount(r.namespaces, k.namespace, n);
    case ByName(n) => DeleteNameCount(r.agentNames, k.agentName, n);
    case ByType(_) =>
  }

  lemma RegisterMirrors(r: Registry, w: Worker, topicOk: bool)
    requires Mirrors(r)
    ensures Mirrors(Register(r, w, topicOk))
  {
    var s := Register(r, w, topicOk);
    if w.key !in r.byKey && topicOk {
      assert s.byKey.Keys == r.byKey.Keys + {w.key};
      forall q ensures Tally(s, q) == |Matching(s.byKey.Keys, q)| {
        MatchingAdd(r.byKey.Keys, w.key, q);
        if q != ByType(Other) {
          AddKeyTally(r, w.key, q);
          assert Tally(s, q) == Tally(AddKey(r, w.key), q);
        }
      }
    } else {
      assert s.byKey.Keys == r.byKey.Keys;
      SameTallies(r, s);
    }
  }

  lemma SameTallies(r: Registry, s: Registry)
    requires s == r.(workers := s.workers, byKey := s.byKey) && s.byKey.Keys == r.byKey.Keys
    ensures forall q :: Tally(s, q) == Tally(r, q)
  {
  }

  lemma RemoveKeyMirrors(r: Registry, k: Key)
    requires Mirrors(r) && k in r.byKey
    ensures Mirrors(RemoveKey(r, k))
  {
    var s := RemoveKey(r, k);
    assert r.byKey.Keys == s.byKey.Keys + {k};
    MirrorsNames(r);
    DeleteSorted(r.namespaces, k.namespace);
    DeleteSorted(r.agentNames, k.agentName);
    forall q ensures Tally(s, q) == |Matching(s.byKey.Keys, q)| {
      MatchingAdd(s.byKey.Keys, k, q);
      assert Tally(r, q) == |Matching(r.byKey.Keys, q)|;
      if q != ByType(Other) {
        RemoveKeyTally(r, k, q);
      }
    }
  }

  lemma DeregisterMirrors(r: Registry, w: Worker)
    requires Mirrors(r)
    ensures Mirrors(Deregister(r, w))
  {
    var s := Deregister(r, w);
    var list := Listed(r, w.key);
    if w in list && |list| == 1 {
      RemoveKeyMirrors(r.(workers := r.workers - {w.id}), w.key) by {
        SameTallies(r, r.(workers := r.workers - {w.id}));
      }
    } else {
      assert s.byKey.Keys == r.byKey.Keys;
      SameTallies(r, s);
    }
  }

  // ---- whole runs ----

  datatype Event = Registers(w: Worker, topicOk: bool) | Deregisters(w: Worker)

  function Next(r: Registry, e: Event): Registry {
    match e
    case Registers(w, topicOk) => Register(r, w, topicOk)
    case Deregisters(w) => Deregister(r, w)
  }

  function Run(es: seq<Event>): Registry
    decreases |es|
  {
    if es == [] then EMPTY_REGISTRY else Next(Run(es[..|es|-1]), es[|es|-1])
  }

  function OfKey(ws: seq<Worker>, k: Key): (r: seq<Worker>)
    ensures forall w :: w in r <==> w in ws && w.key == k
    decreases |ws|
  {
    if ws == [] then []
    else
      var n := |ws| - 1;
      assert ws == ws[..n] + [ws[n]];
      OfKey(ws[..n], k) + if ws[n].key == k then [ws[n]] else []
  }

  /** The workers of a run that are registered, oldest first. */
  function Live(es: seq<Event>): seq<Worker>
    decreases |es|
  {
    if es == [] then []
    else
      var live, e := Live(es[..|es|-1]), es[|es|-1];
      match e
      case Registers(w, topicOk) => if topicOk || OfKey(live, w.key) != [] then live + [w] else live
      case Deregisters(w) => DeleteFirst(live, w)
  }

  lemma {:induction false} OfKeyConcat(a: seq<Worker>, b: seq<Worker>, k: Key)
    ensures OfKey(a + b, k) == OfKey(a, k) + OfKey(b, k)
    decreases |b|
  {
    if b == [] {
      assert a + b == a;
      assert OfKey(a, k) + [] == OfKey(a, k);
    } else {
      var n := |b| - 1;
      assert (a + b)[..|a|+n] == a + b[..n];
      OfKeyConcat(a, b[..n], k);
    }
  }

  lemma IndexOfFirst<T>(a: seq<T>, x: T, b: seq<T>)
    requires x !in a
    ensures DeleteFirst(a + [x] + b, x) == a + b
  {
    var s := a + [x] + b;
    assert s[|a|] == x;
    var i := Index(s, x);
    assert s[..|a|] == a;
    assert forall j :: 0 <= j < |a| ==> s[j] == a[j];
    assert Delete(s, |a|) == a + b;
  }

  lemma OfKeyDelete(ws: seq<Worker>, w: Worker, k: Key)
    ensures OfKey(DeleteFirst(ws, w), k) == if k == w.key then DeleteFirst(OfKey(ws, k), w) else OfKey(ws, k)
  {
    var i := Index(ws, w);
    if i == -1 {
      assert w !in OfKey(ws, k);
    } else {
      var a, b := ws[..i], ws[i+1..];
      assert ws == a + [w] + b;
      OfKeyConcat(a, b, k);
      OfKeyConcat(a, [w], k);
      OfKeyConcat(a + [w], b, k);
      assert OfKey([w], k) == if k == w.key then [w] else [] by {
        assert [w][..0] == [];
      }
      IndexOfFirst(OfKey(a, k), w, OfKey(b, k));
      assert OfKey(a, k) + [] == OfKey(a, k);
    }
  }

  lemma {:induction false} RunMirrors(es: seq<Event>)
    ensures Mirrors(Run(es))
    decreases |es|
  {
    if es != [] {
      var init := es[..|es|-1];
      RunMirrors(init);
      match es[|es|-1]
      case Registers(w, topicOk) => RegisterMirrors(Run(init), w, topicOk);
      case Deregisters(w) => DeregisterMirrors(Run(init), w);
    }
  }

  lemma RegisterLists(r: Registry, live: seq<Worker>, w: Worker, topicOk: bool, k: Key)
    requires Listed(r, k) == OfKey(live, k) && Listed(r, w.key) == OfKey(live, w.key)
    ensures Listed(Register(r, w, topicOk), k)
         == OfKey(if topicOk || OfKey(live, w.key) != [] then live + [w] else live, k)
  {
    assert (live + [w])[..|live|] == live;
    assert OfKey(live, k) + [] == OfKey(live, k);
  }

  lemma DeregisterLists(r: Registry, live: seq<Worker>, w: Worker, k: Key)
    requires Listed(r, k) == OfKey(live, k) && Listed(r, w.key) == OfKey(live, w.key)
    ensures Listed(Deregister(r, w), k) == OfKey(DeleteFirst(live, w), k)
  {
    OfKeyDelete(live, w, k);
    var list := Listed(r, w.key);
    if |list| == 1 && w in list {
      assert DeleteFirst(list, w) == [];
    }
  }

  /** The lists are the live workers of each key, in the order they registered. */
  lemma {:induction false} ListsAreLiveWorkers(es: seq<Event>, k: Key)
    ensures Listed(Run(es), k) == OfKey(Live(es), k)
    decreases |es|
  {
    if es != [] {
      var init, e := es[..|es|-1], es[|es|-1];
      ListsAreLiveWorkers(init, k);
      ListsAreLiveWorkers(init, e.w.key);
      match e
      case Registers(w, topicOk) => RegisterLists(Run(init), Live(init), w, topicOk, k);
      case Deregisters(w) => DeregisterLists(Run(init), Live(init), w, k);
    }
  }

  /** The last event about an id registered this worker, whatever became of its topic. */
  predicate IsKnown(es: seq<Event>, w: Worker)
    decreases |es|
  {
    es != [] &&
    (if es[|es|-1].w.id == w.id then es[|es|-1].Registers? && es[|es|-1].w == w else IsKnown(es[..|es|-1], w))
  }

  lemma NextKnows(r: Registry, e: Event)
    ensures Next(r, e).workers == if e.Registers? then r.workers[e.w.id := e.w] else r.workers - {e.w.id}
  {
    match e
    case Registers(w, topicOk) => RegisterKnows(r, w, topicOk);
    case Deregisters(w) => DeregisterKnows(r, w);
  }

  lemma RegisterKnows(r: Registry, w: Worker, topicOk: bool)
    ensures Register(r, w, topicOk).workers == r.workers[w.id := w]
  {
  }

  lemma DeregisterKnows(r: Registry, w: Worker)
    ensures Deregister(r, w).workers == r.workers - {w.id}
  {
  }

  /** Over any run the handler knows a worker by its id exactly from its registration on until
      its id is registered again or deregistered. */
  lemma {:induction false} KnowsRegistered(es: seq<Event>, w: Worker)
    ensures w.id in Run(es).workers && Run(es).workers[w.id] == w <==> IsKnown(es, w)
    decreases |es|
  {
    if es != [] {
      KnowsRegistered(es[..|es|-1], w);
      NextKnows(Run(es[..|es|-1]), es[|es|-1]);
    }
  }

  /** After any run the keys in use are those with a live worker, so CheckEnabled
      answers for the live workers. */
  lemma KeysAreLive(es: seq<Event>)
    ensures Mirrors(Run(es))
    ensures forall k :: k in Run(es).byKey <==> exists w :: w in Live(es) && w.key == k
  {
    RunMirrors(es);
    forall k ensures k in Run(es).byKey <==> exists w :: w in Live(es) && w.key == k {
      ListsAreLiveWorkers(es, k);
      var list := Listed(Run(es), k);
      if w :| w in Live(es) && w.key == k {
        assert w in list;
      } else if k in Run(es).byKey {
        assert list[0] in OfKey(Live(es), k);
      }
    }
  }
}
