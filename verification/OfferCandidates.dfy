/** What the offers of Negotiation do to the local candidates: an attempt at a restart offer
    clears the cache, and an offer that is taken flushes it. */
module OfferCandidates {
  import opened Numbers
  import opened Negotiation
  import C = IceCandidates

  // ---- attempts at an offer ----

  /** Carrying out a restart now attempts an offer. */
  predicate RestartAttempts(t: Transport, reapplied: bool) {
    !t.pcClosed && t.gathering == GatheringComplete && (t.state == NegotiationNone || (t.hasRemote && reapplied))
  }

  /** The step attempts to make an offer: the transport is open, and no negotiation holds it up. */
  predicate Attempts(t: Transport, s: Step) {
    match s
    case SendOffer(_) => !t.pcClosed && t.state == NegotiationNone
    case Answer(res, _) => !t.pcClosed && t.state == NegotiationRetry && res != AnswerError
    case IceRestart(reapplied, _) => RestartAttempts(t, reapplied)
    case GatheringEnds(reapplied, _) => t.restartAfterGathering && RestartAttempts(t, reapplied)
    case _ => false
  }

  /** The attempt is at an ICE-restart offer. */
  predicate Restarts(t: Transport, s: Step) {
    Attempts(t, s) && (s.IceRestart? || s.GatheringEnds? || t.previousAnswer || t.restartAtNextOffer)
  }

  /** The attempted offer is created, set and taken by OnOffer. */
  predicate Taken(t: Transport, s: Step) {
    Attempts(t, s) && Good(s.env)
  }

  predicate Good(env: OfferEnv) {
    env.create == PcOk && env.setLocal == PcOk && env.sent
  }

  /** What an attempt does to offers and candidates. */
  ghost predicate Attempted(t: Transport, t': Transport, restart: bool, env: OfferEnv) {
    var r := if restart then C.Clear(t.candidates) else t.candidates;
    if Good(env) then
      && |t'.offers| == |t.offers| + 1 && Last(t').isNew && (Last(t').iceRestart <==> restart)
      && t'.candidates == C.DescriptionSent(r, env.accepts).0
    else t'.offers == t.offers && t'.candidates == r
  }

  /** An attempt consumes what asked for a restart. */
  ghost predicate Consumes(t': Transport) {
    !t'.previousAnswer && !t'.restartAtNextOffer
  }

  lemma CreateAttempts(t: Transport, iceRestart: bool, env: OfferEnv)
    ensures var t' := CreateAndSendOffer(t, iceRestart, env).0;
      if !t.pcClosed && t.state == NegotiationNone then
        Attempted(t, t', iceRestart || t.previousAnswer || t.restartAtNextOffer, env) && Consumes(t')
      else t'.offers == t.offers && t'.candidates == t.candidates
  {
  }

  lemma RestartDoes(t: Transport, reapplied: bool, env: OfferEnv)
    ensures var t' := DoICERestart(t, reapplied, env).0;
      if RestartAttempts(t, reapplied) then Attempted(t, t', true, env) && Consumes(t')
      else
        && t'.candidates == t.candidates
        && (t'.offers == t.offers || (|t'.offers| == |t.offers| + 1 && !Last(t').isNew))
  {
    CreateAttempts(t, true, env);
    CreateAttempts(t.(state := NegotiationNone), true, env);
  }

  lemma StepDoes(t: Transport, s: Step)
    ensures var t' := Handle(t, s).0;
      if Attempts(t, s) then Attempted(t, t', Restarts(t, s), s.env) && Consumes(t')
      else
        && t'.candidates == (if s.LocalCandidate? then C.Arrive(t.candidates, s.c, s.preferTCP, true).0 else t.candidates)
        && (t'.offers == t.offers || (|t'.offers| == |t.offers| + 1 && !Last(t').isNew))
  {
    match s
    case SendOffer(env) => CreateAttempts(t, false, env);
    case Answer(res, env) => CreateAttempts(t.(hasRemote := t.hasRemote || res != AnswerClosed, state := NegotiationNone), false, env);
    case IceRestart(reapplied, env) => RestartDoes(t, reapplied, env);
    case GatheringEnds(reapplied, env) => RestartDoes(t.(restartAfterGathering := false), reapplied, env);
    case _ =>
  }

  /** A taken attempt, and no other step, makes a new offer; it restarts ICE as attempted. */
  lemma TakenExactly(t: Transport, s: Step)
    ensures var t' := Handle(t, s).0;
      if Taken(t, s) then
        |t'.offers| == |t.offers| + 1 && Last(t').isNew && (Last(t').iceRestart <==> Restarts(t, s))
      else t'.offers == t.offers || (|t'.offers| == |t.offers| + 1 && !Last(t').isNew)
    ensures Attempts(t, s) ==> Consumes(Handle(t, s).0)
  {
    StepDoes(t, s);
  }

  /** In every run the peer connection has a remote description exactly when some answer has
      been set. */
  lemma {:induction false} RemoteExactlyWhenAnswered(r: Run, ss: seq<Step>)
    requires IsRun(r, ss)
    ensures After(r, ss).t.hasRemote <==> r.t.hasRemote || SomeAnswer(ss)
    decreases |ss|
  {
    if ss != [] {
      RemoteStep(r.t, ss[0]);
      RemoteExactlyWhenAnswered(Next(r, ss[0]), ss[1..]);
    }
  }

  predicate IsAnswer(s: Step) {
    s.Answer? && (s.res == AnswerOk || s.res == UnsupportedCodec)
  }

  predicate SomeAnswer(ss: seq<Step>) {
    ss != [] && (IsAnswer(ss[0]) || SomeAnswer(ss[1..]))
  }

  lemma RemoteStep(t: Transport, s: Step)
    ensures Handle(t, s).0.hasRemote <==> t.hasRemote || IsAnswer(s)
  {
    match s
    case SendOffer(env) => CreateKeepsRemote(t, false, env);
    case Answer(res, env) => CreateKeepsRemote(t.(hasRemote := t.hasRemote || res != AnswerClosed, state := NegotiationNone), false, env);
    case IceRestart(reapplied, env) => RestartKeepsRemote(t, reapplied, env);
    case GatheringEnds(reapplied, env) => RestartKeepsRemote(t.(restartAfterGathering := false), reapplied, env);
    case _ =>
  }

  lemma CreateKeepsRemote(t: Transport, iceRestart: bool, env: OfferEnv)
    ensures CreateAndSendOffer(t, iceRestart, env).0.hasRemote == t.hasRemote
  {
  }

  lemma RestartKeepsRemote(t: Transport, reapplied: bool, env: OfferEnv)
    ensures DoICERestart(t, reapplied, env).0.hasRemote == t.hasRemote
  {
    CreateKeepsRemote(t, true, env);
    CreateKeepsRemote(t.(state := NegotiationNone), true, env);
  }

  // ---- the relay follows ----

  /** The step as the relay of candidates sees it. */
  function Seen(t: Transport, s: Step): seq<C.Step> {
    if s.LocalCandidate? then [C.Arrives(s.c, s.preferTCP, true)]
    else if Taken(t, s) then [C.Sent(s.env.accepts)]
    else []
  }

  lemma RelayStep(t: Transport, s: Step)
    ensures Handle(t, s).0.candidates == C.Run(if Restarts(t, s) then C.Clear(t.candidates) else t.candidates, Seen(t, s))
  {
    var r := if Restarts(t, s) then C.Clear(t.candidates) else t.candidates;
    if Seen(t, s) != [] {
      RunOne(r, Seen(t, s)[0]);
    }
    CandidatesAfter(t, s);
  }

  lemma RunOne(r: C.Relay, e: C.Step)
    ensures C.Run(r, [e]) == C.Next(r, e)
  {
    assert [e][..0] == [];
  }

  /** The same, off the handlers. */
  lemma CandidatesAfter(t: Transport, s: Step)
    ensures var r := if Restarts(t, s) then C.Clear(t.candidates) else t.candidates;
      Handle(t, s).0.candidates
      == if s.LocalCandidate? then C.Arrive(r, s.c, s.preferTCP, true).0
         else if Taken(t, s) then C.DescriptionSent(r, s.env.accepts).0
         else r
  {
    StepDoes(t, s);
  }

  function SeenAll(r: Run, ss: seq<Step>): seq<C.Step>
    requires IsRun(r, ss)
    decreases |ss|
  {
    if ss == [] then [] else Seen(r.t, ss[0]) + SeenAll(Next(r, ss[0]), ss[1..])
  }

  predicate NoneRestarts(r: Run, ss: seq<Step>)
    requires IsRun(r, ss)
    decreases |ss|
  {
    ss != [] ==> !Restarts(r.t, ss[0]) && NoneRestarts(Next(r, ss[0]), ss[1..])
  }

  lemma {:induction false} RunConcat(r: C.Relay, a: seq<C.Step>, b: seq<C.Step>)
    ensures C.Run(r, a + b) == C.Run(C.Run(r, a), b)
    decreases |b|
  {
    if b == [] {
      assert a + b == a;
    } else {
      var n := |b| - 1;
      assert (a + b)[..|a|+n] == a + b[..n];
      RunConcat(r, a, b[..n]);
    }
  }

  lemma {:induction false} RelayFollows(r: Run, ss: seq<Step>)
    requires IsRun(r, ss) && NoneRestarts(r, ss)
    ensures After(r, ss).t.candidates == C.Run(r.t.candidates, SeenAll(r, ss))
    decreases |ss|
  {
    if ss != [] {
      RelayStep(r.t, ss[0]);
      RelayFollows(Next(r, ss[0]), ss[1..]);
      RunConcat(r.t.candidates, Seen(r.t, ss[0]), SeenAll(Next(r, ss[0]), ss[1..]));
    }
  }

  /** In any run, failures included: from an attempt at a restart offer until the next such
      attempt nothing is forwarded before an offer is taken, and what arrives is kept for it;
      then the flush goes as far as OnICECandidate takes it, and what arrives is forwarded. */
  lemma RestartHoldsCandidatesBack(r: Run, s: Step, ss: seq<Step>)
    requires Enabled(r, s) && Restarts(r.t, s) && IsRun(Next(r, s), ss) && NoneRestarts(Next(r, s), ss)
    ensures var seen, already := Seen(r.t, s) + SeenAll(Next(r, s), ss), r.t.candidates.forwarded;
      After(Next(r, s), ss).t.candidates
      == if C.WasSent(seen) then C.Relay(false, [], already + C.Passed(seen)) else C.Relay(true, C.Unfiltered(seen), already)
  {
    RelayStep(r.t, s);
    RelayFollows(Next(r, s), ss);
    RunConcat(C.Clear(r.t.candidates), Seen(r.t, s), SeenAll(Next(r, s), ss));
    C.ForwardsSinceClear(r.t.candidates, Seen(r.t, s) + SeenAll(Next(r, s), ss));
  }

  // ---- runs without failure ----

  /** The candidates of a run that the TCP preference lets through, in order. */
  function Arrived(ss: seq<Step>): seq<C.Local>
    decreases |ss|
  {
    if ss == [] then []
    else (if ss[0].LocalCandidate? && !C.Filtered(ss[0].c, ss[0].preferTCP) then [ss[0].c] else []) + Arrived(ss[1..])
  }

  lemma {:induction false} BrokenOnce(r: Run, ss: seq<Step>)
    requires IsRun(r, ss) && !After(r, ss).broken
    ensures !r.broken
  {
    if r.broken {
      BrokenStays(r, ss);
    }
  }

  lemma WholeStep(r: Run, s: Step)
    requires Enabled(r, s) && !Next(r, s).broken && !r.t.candidates.caching && r.t.candidates.cached == []
    ensures Next(r, s).t.candidates == C.Relay(false, [], r.t.candidates.forwarded + Arrived([s]))
  {
    CandidatesAfter(r.t, s);
    if Attempts(r.t, s) {
      UnbrokenIsTaken(r, s);
    }
    assert [s][1..] == [];
    assert r.t.candidates.forwarded + [] == r.t.candidates.forwarded;
  }

  /** Without a failure every attempt is taken. */
  lemma UnbrokenIsTaken(r: Run, s: Step)
    requires Enabled(r, s) && !Next(r, s).broken && Attempts(r.t, s)
    ensures Taken(r.t, s)
  {
  }

  lemma ArrivedFirst(ss: seq<Step>)
    requires ss != []
    ensures Arrived(ss) == Arrived([ss[0]]) + Arrived(ss[1..])
  {
    assert [ss[0]][1..] == [];
  }

  lemma Associates(a: seq<C.Local>, b: seq<C.Local>, c: seq<C.Local>)
    ensures (a + b) + c == a + (b + c)
  {
  }

  lemma {:induction false} AllForwarded(r: Run, ss: seq<Step>)
    requires IsRun(r, ss) && !After(r, ss).broken && !r.t.candidates.caching && r.t.candidates.cached == []
    ensures After(r, ss).t.candidates == C.Relay(false, [], r.t.candidates.forwarded + Arrived(ss))
    decreases |ss|
  {
    if ss == [] {
      assert r.t.candidates.forwarded + [] == r.t.candidates.forwarded;
    } else {
      var next := Next(r, ss[0]);
      BrokenOnce(next, ss[1..]);
      WholeStep(r, ss[0]);
      AllForwarded(next, ss[1..]);
      ArrivedFirst(ss);
      Associates(r.t.candidates.forwarded, Arrived([ss[0]]), Arrived(ss[1..]));
    }
  }

  /** In every run without failure no candidate is held back between steps, and those forwarded
      are all unfiltered ones, in arrival order. */
  lemma NothingHeldBackWithoutFailure(firstId: uint32, previousAnswer: bool, ss: seq<Step>)
    requires IsRun(Start(firstId, previousAnswer), ss) && !After(Start(firstId, previousAnswer), ss).broken
    ensures After(Start(firstId, previousAnswer), ss).t.candidates == C.Relay(false, [], Arrived(ss))
  {
    AllForwarded(Start(firstId, previousAnswer), ss);
    var none: seq<C.Local> := [];
    assert none + Arrived(ss) == Arrived(ss);
  }

  // ---- and what a failure is ----

  /** Everything the step meets goes well. */
  predicate Smooth(s: Step) {
    match s
    case SendOffer(env) => Good(env)
    case Answer(res, env) => (res == AnswerOk || res == UnsupportedCodec) && Good(env)
    case IceRestart(reapplied, env) => reapplied && Good(env)
    case GatheringEnds(reapplied, env) => reapplied && Good(env)
    case PcCloses => false
    case _ => true
  }

  lemma SmoothStep(r: Run, s: Step)
    requires Inv(r) && !r.broken && Enabled(r, s) && Smooth(s)
    requires !r.t.candidates.caching && r.t.candidates.cached == []
    ensures !Next(r, s).broken
  {
  }

  lemma {:induction false} SmoothFrom(r: Run, ss: seq<Step>)
    requires IsRun(r, ss) && Inv(r) && !r.broken && !r.t.candidates.caching && r.t.candidates.cached == []
    requires forall i :: 0 <= i < |ss| ==> Smooth(ss[i])
    ensures !After(r, ss).broken
    decreases |ss|
  {
    if ss != [] {
      SmoothStep(r, ss[0]);
      NextKeepsInv(r, ss[0]);
      WholeStep(r, ss[0]);
      assert forall i :: 0 <= i < |ss[1..]| ==> ss[1..][i] == ss[i+1];
      SmoothFrom(Next(r, ss[0]), ss[1..]);
    }
  }

  /** A run in which everything goes well is one without failure. */
  lemma SmoothRunsDoNotFail(firstId: uint32, previousAnswer: bool, ss: seq<Step>)
    requires IsRun(Start(firstId, previousAnswer), ss) && forall i :: 0 <= i < |ss| ==> Smooth(ss[i])
    ensures !After(Start(firstId, previousAnswer), ss).broken
  {
    SmoothFrom(Start(firstId, previousAnswer), ss);
  }
}
