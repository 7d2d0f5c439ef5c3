/** Assigning a job to an agent worker in pkg/service/agentservice.go: a draw weighted by
    free capacity, repeated over the workers not yet attempted. */
module AgentJobs {
  import opened Options

  type Worker = nat

  /** What a worker reports at some moment. */
  datatype Report = Report(available: bool, load: real)

  type Reports = Worker -> Report

  /** The free capacity that counts for the draw. */
  function Capacity(r: Report): (c: real)
    ensures c >= 0.0
  {
    if r.load < 1.0 then 1.0 - r.load else 0.0
  }

  /** A worker weighs more in the draw the less loaded it is, and not at all when full. */
  lemma LessLoadedWeighsMore(a: Report, b: Report)
    ensures a.load < b.load && a.load < 1.0 ==> Capacity(a) > Capacity(b)
    ensures Capacity(a) == 0.0 <==> a.load >= 1.0
    ensures 0.0 <= a.load <= 1.0 ==> Capacity(a) + a.load == 1.0
  {
  }

  function Total(ws: seq<Worker>, reports: Reports): (t: real)
    ensures t >= 0.0
    decreases |ws|
  {
    if ws == [] then 0.0 else Total(ws[..|ws|-1], reports) + Capacity(reports(ws[|ws|-1]))
  }

  ghost predicate Distinct(ws: seq<Worker>) {
    forall i, j :: 0 <= i < j < |ws| ==> ws[i] != ws[j]
  }

  predicate Eligible(w: Worker, ignore: set<Worker>, reports: Reports) {
    w !in ignore && reports(w).available
  }

  /** Nobody to draw from: every worker was attempted, is not available, or has no capacity left. */
  ghost predicate Exhausted(ws: seq<Worker>, ignore: set<Worker>, reports: Reports) {
    forall k :: 0 <= k < |ws| ==> ws[k] in ignore || !reports(ws[k]).available || reports(ws[k]).load >= 1.0
  }

  /** `w` is where a walk over the candidates passes the point drawn: the capacities before
      it fall short of the point, and its own reaches it. */
  ghost predicate Drawn(w: Worker, before: seq<Worker>, point: real, reports: Reports) {
    && (before != [] ==> Total(before, reports) < point)
    && point <= Total(before, reports) + Capacity(reports(w))
  }

  lemma TotalSnoc(ws: seq<Worker>, w: Worker, reports: Reports)
    ensures Total(ws + [w], reports) == Total(ws, reports) + Capacity(reports(w))
  {
    assert (ws + [w])[..|ws|] == ws;
  }

  lemma {:induction false} TotalWithout(ws: seq<Worker>, i: nat, reports: Reports)
    requires i < |ws|
    ensures Total(ws, reports) == Total(ws[..i] + ws[i+1..], reports) + Capacity(reports(ws[i]))
    decreases |ws|
  {
    var n := |ws| - 1;
    if i < n {
      TotalWithout(ws[..n], i, reports);
      assert ws[..n][..i] + ws[..n][i+1..] + [ws[n]] == ws[..i] + ws[i+1..];
      TotalSnoc(ws[..n][..i] + ws[..n][i+1..], ws[n], reports);
    } else {
      assert ws[..i] + ws[i+1..] == ws[..n];
    }
  }

  lemma {:induction false} TotalZero(ws: seq<Worker>, reports: Reports)
    ensures Total(ws, reports) == 0.0 <==> forall k :: 0 <= k < |ws| ==> Capacity(reports(ws[k])) == 0.0
    decreases |ws|
  {
    if ws != [] {
      TotalZero(ws[..|ws|-1], reports);
    }
  }

  /** The eligible workers, in list order. */
  function Candidates(ws: seq<Worker>, ignore: set<Worker>, reports: Reports): (r: seq<Worker>)
    ensures forall w :: w in r <==> w in ws && Eligible(w, ignore, reports)
    decreases |ws|
  {
    if ws == [] then []
    else
      var n := |ws| - 1;
      assert ws == ws[..n] + [ws[n]];
      Candidates(ws[..n], ignore, reports) + if Eligible(ws[n], ignore, reports) then [ws[n]] else []
  }

  lemma CandidatesStep(ws: seq<Worker>, i: nat, ignore: set<Worker>, reports: Reports)
    requires i < |ws|
    ensures var before, after := Candidates(ws[..i], ignore, reports), Candidates(ws[..i+1], ignore, reports);
      if Eligible(ws[i], ignore, reports) then
        && Total(after, reports) == Total(before, reports) + Capacity(reports(ws[i]))
        && forall w :: w in after <==> w in before || w == ws[i]
      else after == before
  {
    assert ws[..i+1][..i] == ws[..i];
    var before := Candidates(ws[..i], ignore, reports);
    if Eligible(ws[i], ignore, reports) {
      assert Candidates(ws[..i+1], ignore, reports) == before + [ws[i]];
      TotalSnoc(before, ws[i], reports);
    } else {
      assert before + [] == before;
    }
  }

  lemma {:induction false} CandidatesDistinct(ws: seq<Worker>, ignore: set<Worker>, reports: Reports)
    requires Distinct(ws)
    ensures Distinct(Candidates(ws, ignore, reports))
    decreases |ws|
  {
    if ws != [] {
      CandidatesDistinct(ws[..|ws|-1], ignore, reports);
    }
  }

  /** `draw` is a random number from 0 to 1; the map of loads is walked in any order. */
  method SelectWorkerWeightedByLoad(listed: Option<seq<Worker>>, ignore: set<Worker>, reports: Reports, draw: real)
    returns (selected: Option<Worker>, ghost before: seq<Worker>)
    requires listed.Some? ==> Distinct(listed.value)
    requires 0.0 <= draw < 1.0
    ensures selected.None? <==> listed.None? || Exhausted(listed.value, ignore, reports)
    ensures selected.Some? ==>
      && selected.value in listed.value && Eligible(selected.value, ignore, reports)
      && (forall w :: w in before ==> w in listed.value && Eligible(w, ignore, reports))
      && selected.value !in before && Distinct(before)
      && Drawn(selected.value, before, Scale(draw, Total(Candidates(listed.value, ignore, reports), reports)), reports)
    ensures selected.Some? && draw > 0.0 ==> Capacity(reports(selected.value)) > 0.0
  {
    before := [];
    if listed.None? {
      return None, before;
    }
    var workers := listed.value;
    var normalizedLoads, availableSum := NormalizeLoads(workers, ignore, reports);
    NothingToDraw(workers, ignore, reports);
    if availableSum == 0.0 {
      return None, before;
    }
    var currentSum := Scale(draw, availableSum);
    CandidatesDistinct(workers, ignore, reports);
    var w;
    w, before := WalkTo(currentSum, normalizedLoads, Candidates(workers, ignore, reports), reports);
    selected := Some(w);
  }

  /** The first loop: the free capacity of each candidate, and their sum. */
  method NormalizeLoads(workers: seq<Worker>, ignore: set<Worker>, reports: Reports)
    returns (normalizedLoads: map<Worker, real>, availableSum: real)
    ensures forall w :: w in normalizedLoads <==> w in Candidates(workers, ignore, reports)
    ensures forall w :: w in normalizedLoads ==> normalizedLoads[w] == Capacity(reports(w))
    ensures availableSum == Total(Candidates(workers, ignore, reports), reports)
  {
    normalizedLoads := map[];
    availableSum := 0.0;
    var i := 0;
    while i < |workers|
      invariant 0 <= i <= |workers|
      invariant forall w :: w in normalizedLoads <==> w in Candidates(workers[..i], ignore, reports)
      invariant forall w :: w in normalizedLoads ==> normalizedLoads[w] == Capacity(reports(w))
      invariant availableSum == Total(Candidates(workers[..i], ignore, reports), reports)
    {
      var w := workers[i];
      CandidatesStep(workers, i, ignore, reports);
      if w !in ignore && reports(w).available {
        normalizedLoads := normalizedLoads[w := Capacity(reports(w))];
        availableSum := availableSum + normalizedLoads[w];
      }
      i := i + 1;
    }
    assert workers[..i] == workers;
  }

  /** How far the walk has come: the candidates passed and those not yet seen. */
  ghost predicate Split(candidates: seq<Worker>, before: seq<Worker>, rest: seq<Worker>, reports: Reports) {
    && Distinct(rest) && Distinct(before)
    && (forall w :: w in rest ==> w in candidates && w !in before)
    && (forall w :: w in before ==> w in candidates)
    && Total(before, reports) + Total(rest, reports) == Total(candidates, reports)
  }

  ghost predicate Holds(unseen: set<Worker>, rest: seq<Worker>) {
    forall w :: w in unseen <==> w in rest
  }

  lemma HoldsNothing(unseen: set<Worker>, rest: seq<Worker>)
    requires Holds(unseen, rest)
    ensures unseen == {} <==> rest == []
  {
    if rest != [] {
      assert rest[0] in unseen;
    }
  }

  lemma SplitStep(candidates: seq<Worker>, before: seq<Worker>, rest: seq<Worker>, reports: Reports, k: nat)
    requires Split(candidates, before, rest, reports) && k < |rest|
    ensures Split(candidates, before + [rest[k]], rest[..k] + rest[k+1..], reports)
    ensures Total(before + [rest[k]], reports) == Total(before, reports) + Capacity(reports(rest[k]))
    ensures forall seen: set<Worker> :: Holds(seen, rest) ==> Holds(seen - {rest[k]}, rest[..k] + rest[k+1..])
  {
    assert rest[k] in rest;
    TotalWithout(rest, k, reports);
    TotalSnoc(before, rest[k], reports);
    WithoutMembers(rest, k);
  }

  /** The second loop: walks the map, in any order, to the point drawn. That point is less
      than the total, so the walk always ends at a candidate. */
  method WalkTo(point: real, normalizedLoads: map<Worker, real>, ghost candidates: seq<Worker>, reports: Reports)
    returns (selected: Worker, ghost before: seq<Worker>)
    requires Distinct(candidates) && 0.0 <= point < Total(candidates, reports)
    requires forall w :: w in normalizedLoads <==> w in candidates
    requires forall w :: w in normalizedLoads ==> normalizedLoads[w] == Capacity(reports(w))
    ensures selected in candidates && selected !in before && Distinct(before)
    ensures forall w :: w in before ==> w in candidates
    ensures Drawn(selected, before, point, reports)
    ensures point > 0.0 ==> Capacity(reports(selected)) > 0.0
  {
    before := [];
    var currentSum := point;
    var unseen := normalizedLoads.Keys;
    ghost var rest := candidates;
    while unseen != {}
      invariant Split(candidates, before, rest, reports)
      invariant Holds(unseen, rest)
      invariant currentSum == point - Total(before, reports)
      invariant before != [] ==> currentSum > 0.0
      decreases |rest|
    {
      var w :| w in unseen;
      assert w in rest;
      ghost var k :| 0 <= k < |rest| && rest[k] == w;
      currentSum := currentSum - normalizedLoads[w];
      if currentSum <= 0.0 {
        return w, before;
      }
      SplitStep(candidates, before, rest, reports, k);
      unseen := unseen - {w};
      rest := rest[..k] + rest[k+1..];
      before := before + [w];
    }
    HoldsNothing(unseen, rest);
    assert false;  // the walk has returned: the first worker of the list is never the answer
  }

  // ---- the retry loop of JobRequest ----

  datatype Answer = Running | Success | Retry | Failure

  /** What the loop sees in one round: the list of the key, what its workers report, the
      draw, and how each worker would answer. */
  datatype Round = Round(listed: Option<seq<Worker>>, reports: Reports, draw: real, answers: Worker -> Answer)

  /** Every list is of distinct workers among a finite number, and the draws are in range. */
  ghost predicate Plausible(rounds: nat -> Round, all: set<Worker>) {
    forall k: nat :: PlausibleRound(rounds(k), all)
  }

  ghost predicate PlausibleRound(r: Round, all: set<Worker>) {
    && 0.0 <= r.draw < 1.0
    && (r.listed.Some? ==> Distinct(r.listed.value) && forall w :: w in r.listed.value ==> w in all)
  }

  datatype Outcome = Assigned(w: Worker) | NoWorker | Rejected(w: Worker)

  /** The workers asked so far: one a round, each eligible in its round and not asked before,
      and all of them answered that the job should go to another. */
  ghost predicate AllRetried(asked: seq<Worker>, rounds: nat -> Round) {
    && Distinct(asked)
    && forall k :: 0 <= k < |asked| ==> Asked(asked[k], rounds(k)) && rounds(k).answers(asked[k]) == Retry
  }

  ghost predicate Asked(w: Worker, r: Round) {
    r.listed.Some? && w in r.listed.value && r.reports(w).available
  }

  ghost function Members(ws: seq<Worker>): set<Worker> {
    set k | 0 <= k < |ws| :: ws[k]
  }

  lemma MembersSnoc(ws: seq<Worker>, w: Worker)
    ensures Members(ws + [w]) == Members(ws) + {w}
  {
    forall v | v in Members(ws) ensures v in Members(ws + [w]) {
      var k :| 0 <= k < |ws| && ws[k] == v;
      assert (ws + [w])[k] == v;
    }
    assert (ws + [w])[|ws|] == w;
  }

  ghost predicate Concludes(outcome: Outcome, asked: set<Worker>, last: Round) {
    match outcome
    case Assigned(w) => w !in asked && Asked(w, last) && (last.answers(w) == Running || last.answers(w) == Success)
    case Rejected(w) => w !in asked && Asked(w, last) && last.answers(w) == Failure
    case NoWorker => last.listed.Some? ==> Exhausted(last.listed.value, asked, last.reports)
  }

  /** The job goes to the first worker that takes it. No worker is asked twice, so the loop
      ends whatever happens to the registry between rounds; and it gives up only when every
      worker then listed was asked, is not available or has no capacity, or on a failure
      that is not to be retried. */
  method JobRequest(rounds: nat -> Round, ghost all: set<Worker>) returns (outcome: Outcome, asked: seq<Worker>)
    requires Plausible(rounds, all)
    ensures AllRetried(asked, rounds)
    ensures Concludes(outcome, Members(asked), rounds(|asked|))
  {
    var attempted: set<Worker> := {};
    asked := [];
    var n: nat := 0;
    while true
      invariant n == |asked| && attempted == Members(asked) && attempted <= all
      invariant AllRetried(asked, rounds)
      decreases all - attempted
    {
      assert PlausibleRound(rounds(n), all);
      var done;
      done, outcome := Attempt(rounds(n), attempted);
      if done {
        return outcome, asked;
      }
      RetriedSnoc(asked, outcome.w, rounds);
      MembersSnoc(asked, outcome.w);
      attempted := attempted + {outcome.w};
      asked := asked + [outcome.w];
      n := n + 1;
    }
  }

  /** One round: a worker is selected and asked. The loop goes on when its answer is to
      be retried. */
  method Attempt(r: Round, attempted: set<Worker>) returns (done: bool, outcome: Outcome)
    requires r.listed.Some? ==> Distinct(r.listed.value)
    requires 0.0 <= r.draw < 1.0
    ensures done ==> Concludes(outcome, attempted, r)
    ensures !done ==> outcome.Rejected? && outcome.w !in attempted && Asked(outcome.w, r) && r.answers(outcome.w) == Retry
  {
    var selected, _ := SelectWorkerWeightedByLoad(r.listed, attempted, r.reports, r.draw);
    if selected.None? {
      return true, NoWorker;
    }
    var w := selected.value;
    var answer := r.answers(w);
    if answer == Running || answer == Success {
      return true, Assigned(w);
    }
    done, outcome := answer == Failure, Rejected(w);
  }

  lemma RetriedSnoc(asked: seq<Worker>, w: Worker, rounds: nat -> Round)
    requires AllRetried(asked, rounds) && w !in Members(asked)
    requires Asked(w, rounds(|asked|)) && rounds(|asked|).answers(w) == Retry
    ensures AllRetried(asked + [w], rounds)
  {
    assert forall k :: 0 <= k < |asked| ==> asked[k] in Members(asked);
  }

  lemma NothingToDraw(ws: seq<Worker>, ignore: set<Worker>, reports: Reports)
    ensures Total(Candidates(ws, ignore, reports), reports) == 0.0 <==> Exhausted(ws, ignore, reports)
  {
    var cs := Candidates(ws, ignore, reports);
    TotalZero(cs, reports);
    if Total(cs, reports) == 0.0 {
      forall k | 0 <= k < |ws| && Eligible(ws[k], ignore, reports) ensures reports(ws[k]).load >= 1.0 {
        assert ws[k] in cs;
        var j :| 0 <= j < |cs| && cs[j] == ws[k];
        LessLoadedWeighsMore(reports(ws[k]), reports(ws[k]));
      }
    } else {
      var j :| 0 <= j < |cs| && Capacity(reports(cs[j])) != 0.0;
      assert cs[j] in cs;
      var k :| 0 <= k < |ws| && ws[k] == cs[j];
      LessLoadedWeighsMore(reports(ws[k]), reports(ws[k]));
    }
  }

  function Scale(draw: real, sum: real): (point: real)
    requires 0.0 <= draw < 1.0
    ensures sum > 0.0 ==> 0.0 <= point < sum && (draw > 0.0 ==> point > 0.0)
  {
    ScaleBounds(draw, sum);
    draw * sum
  }

  lemma ScaleBounds(draw: real, sum: real)
    requires 0.0 <= draw < 1.0
    ensures sum > 0.0 ==> 0.0 <= draw * sum < sum && (draw > 0.0 ==> draw * sum > 0.0)
  {
    if sum > 0.0 {
      assert (1.0 - draw) * sum == sum - draw * sum;
      if draw == 0.0 {
        assert draw * sum == 0.0;
      }
    }
  }

  lemma WithoutMembers(ws: seq<Worker>, i: nat)
    requires i < |ws| && Distinct(ws)
    ensures var r := ws[..i] + ws[i+1..]; Distinct(r) && forall w :: w in r <==> w in ws && w != ws[i]
  {
    var r := ws[..i] + ws[i+1..];
    forall w | w in ws && w != ws[i] ensures w in r {
      var j :| 0 <= j < |ws| && ws[j] == w;
      assert r[if j < i then j else j - 1] == w;
    }
  }
}
