/** When a requested ICE restart is lost (pkg/rtc/transport.go): runs of Negotiation with
    failures of any kind. */
module IceRestarts {
  import opened Numbers
  import opened Negotiation

  /** A restart that was requested and not yet offered is recorded. */
  predicate Kept(r: Run) {
    r.wanted ==> r.t.restartAfterGathering || r.t.restartAtNextOffer
  }

  /** An attempt at an offer does not come through: it is not created, not set or not sent. */
  predicate Unmade(env: OfferEnv) {
    env.create != PcOk || env.setLocal != PcOk || !env.sent
  }

  /** Carrying out a restart, with nothing recorded for the end of gathering, leaves neither
      an offer nor a record: its offer does not come through, the last answer is not taken
      again, there is no local description to send again, or the peer connection is closed
      or has not begun to gather. */
  predicate Drops(t: Transport, reapplied: bool, env: OfferEnv) {
    if t.pcClosed || t.gathering == GatheringNew then !t.restartAtNextOffer
    else if t.gathering == GatheringNow then false
    else if t.state == NegotiationNone then Unmade(env)
    else if !t.hasRemote then !t.hasLocal && !t.restartAtNextOffer
    else if !reapplied then !t.restartAtNextOffer
    else Unmade(env)
  }

  /** The step loses the restart.  Read off the state before it and the answers it meets. */
  predicate Loses(r: Run, s: Step) {
    match s
    case SendOffer(env) =>
      r.wanted && !r.t.restartAfterGathering && !r.t.pcClosed && r.t.state == NegotiationNone && Unmade(env)
    case Answer(res, env) =>
      r.wanted && !r.t.restartAfterGathering && !r.t.pcClosed && r.t.state == NegotiationRetry && res != AnswerError && Unmade(env)
    case IceRestart(reapplied, env) =>
      !r.t.pcClosed && r.t.gathering != GatheringNew && !r.t.restartAfterGathering && Drops(r.t, reapplied, env)
    case GatheringEnds(reapplied, env) =>
      r.wanted && r.t.restartAfterGathering && Drops(r.t.(restartAfterGathering := false), reapplied, env)
    case _ => false
  }

  /** One step keeps the restart exactly when it does not lose it. */
  lemma NextKeepsExactly(r: Run, s: Step)
    requires Enabled(r, s) && Kept(r)
    ensures Kept(Next(r, s)) <==> !Loses(r, s)
  {
    match s
    case IceRestart(_, _) => RestartKeepsExactly(r, s);
    case GatheringEnds(_, _) => RestartKeepsExactly(r, s);
    case SendOffer(_) => OfferKeepsExactly(r, s);
    case Answer(_, _) => OfferKeepsExactly(r, s);
    case _ =>
  }

  lemma OfferKeepsExactly(r: Run, s: Step)
    requires Enabled(r, s) && Kept(r) && (s.SendOffer? || s.Answer?)
    ensures Kept(Next(r, s)) <==> !Loses(r, s)
  {
  }

  lemma RestartKeepsExactly(r: Run, s: Step)
    requires Enabled(r, s) && Kept(r) && (s.IceRestart? || s.GatheringEnds?)
    ensures Kept(Next(r, s)) <==> !Loses(r, s)
  {
  }

  predicate AlwaysKept(r: Run, ss: seq<Step>)
    requires IsRun(r, ss)
    decreases |ss|
  {
    Kept(r) && (ss != [] ==> AlwaysKept(Next(r, ss[0]), ss[1..]))
  }

  predicate NoneLoses(r: Run, ss: seq<Step>)
    requires IsRun(r, ss)
    decreases |ss|
  {
    ss != [] ==> !Loses(r, ss[0]) && NoneLoses(Next(r, ss[0]), ss[1..])
  }

  lemma {:induction false} KeptExactly(r: Run, ss: seq<Step>)
    requires IsRun(r, ss) && Kept(r)
    ensures AlwaysKept(r, ss) <==> NoneLoses(r, ss)
    decreases |ss|
  {
    if ss != [] {
      NextKeepsExactly(r, ss[0]);
      if Kept(Next(r, ss[0])) {
        KeptExactly(Next(r, ss[0]), ss[1..]);
      }
    }
  }

  /** In every run, failures and closure included, a requested restart is offered or recorded
      after every step if and only if no step loses it. */
  lemma RestartKeptExactlyUnlessLost(firstId: uint32, previousAnswer: bool, ss: seq<Step>)
    requires IsRun(Start(firstId, previousAnswer), ss)
    ensures AlwaysKept(Start(firstId, previousAnswer), ss) <==> NoneLoses(Start(firstId, previousAnswer), ss)
  {
    KeptExactly(Start(firstId, previousAnswer), ss);
  }

  /** A step that is not failing loses nothing: each loss is an error, or meets a closed
      peer connection. */
  lemma LossIsAFailure(firstId: uint32, previousAnswer: bool, ss: seq<Step>, s: Step)
    requires IsRun(Start(firstId, previousAnswer), ss)
    requires var r := After(Start(firstId, previousAnswer), ss); !r.broken && Enabled(r, s) && Loses(r, s)
    ensures Next(After(Start(firstId, previousAnswer), ss), s).broken
  {
    RunKeepsInv(Start(firstId, previousAnswer), ss);
  }

  // ---- such a run ----

  ghost predicate Leads(r: Run, ss: seq<Step>, end: Run) {
    IsRun(r, ss) && After(r, ss) == end
  }

  lemma First(r: Run, s: Step, ss: seq<Step>, end: Run)
    requires Enabled(r, s) && Leads(Next(r, s), ss, end)
    ensures Leads(r, [s] + ss, end)
  {
    assert ([s] + ss)[1..] == ss;
  }

  lemma {:induction false} KeptAtEnd(r: Run, ss: seq<Step>)
    requires IsRun(r, ss) && AlwaysKept(r, ss)
    ensures Kept(After(r, ss))
    decreases |ss|
  {
    if ss != [] {
      KeptAtEnd(Next(r, ss[0]), ss[1..]);
    }
  }

  const GOOD := OfferEnv(PcOk, PcOk, true, 0)

  /** The transport gathers, and has an answered negotiation behind it and an offer out. */
  predicate Renegotiating(r: Run) {
    && !r.t.pcClosed && r.t.gathering == GatheringNow && r.t.state == NegotiationRemote && r.t.hasRemote
    && !r.t.restartAfterGathering && !r.t.restartAtNextOffer
  }

  lemma RenegotiatingIsReached(firstId: uint32, ss: seq<Step>, r4: Run, end: Run)
    requires r4 == Next(Next(Next(Next(Start(firstId, false), SendOffer(GOOD)), GatheringIs(GatheringNow)), Answer(AnswerOk, GOOD)), SendOffer(GOOD))
    requires Leads(r4, ss, end)
    ensures Leads(Start(firstId, false),
                  [SendOffer(GOOD)] + ([GatheringIs(GatheringNow)] + ([Answer(AnswerOk, GOOD)] + ([SendOffer(GOOD)] + ss))), end)
  {
    var r1 := Next(Start(firstId, false), SendOffer(GOOD));
    var r2 := Next(r1, GatheringIs(GatheringNow));
    var r3 := Next(r2, Answer(AnswerOk, GOOD));
    First(r3, SendOffer(GOOD), ss, end);
    First(r2, Answer(AnswerOk, GOOD), [SendOffer(GOOD)] + ss, end);
    First(r1, GatheringIs(GatheringNow), [Answer(AnswerOk, GOOD)] + ([SendOffer(GOOD)] + ss), end);
    First(Start(firstId, false), SendOffer(GOOD), [GatheringIs(GatheringNow)] + ([Answer(AnswerOk, GOOD)] + ([SendOffer(GOOD)] + ss)), end);
  }

  lemma DeferredThenRefused(r: Run) returns (end: Run)
    requires Renegotiating(r)
    ensures Leads(r, [IceRestart(false, GOOD)] + ([GatheringIs(GatheringComplete)] + ([GatheringEnds(false, GOOD)] + [])), end)
    ensures !Kept(end)
  {
    var r1 := Next(r, IceRestart(false, GOOD));
    var r2 := Next(r1, GatheringIs(GatheringComplete));
    end := Next(r2, GatheringEnds(false, GOOD));
    First(r2, GatheringEnds(false, GOOD), [], end);
    First(r1, GatheringIs(GatheringComplete), [GatheringEnds(false, GOOD)] + [], end);
    First(r, IceRestart(false, GOOD), [GatheringIs(GatheringComplete)] + ([GatheringEnds(false, GOOD)] + []), end);
  }

  /** A restart asked for while a transport gathers is deferred; when gathering ends during the
      next negotiation the last answer is not taken again, and the restart is gone. */
  lemma RefusedAnswerLosesRestart(firstId: uint32)
    ensures var ss := [SendOffer(GOOD), GatheringIs(GatheringNow), Answer(AnswerOk, GOOD), SendOffer(GOOD),
                       IceRestart(false, GOOD), GatheringIs(GatheringComplete), GatheringEnds(false, GOOD)];
            && IsRun(Start(firstId, false), ss)
            && !Kept(After(Start(firstId, false), ss)) && !AlwaysKept(Start(firstId, false), ss)
  {
    var r2 := Next(Next(Start(firstId, false), SendOffer(GOOD)), GatheringIs(GatheringNow));
    var r4 := Next(Next(r2, Answer(AnswerOk, GOOD)), SendOffer(GOOD));
    var end := DeferredThenRefused(r4);
    var late := [IceRestart(false, GOOD)] + ([GatheringIs(GatheringComplete)] + ([GatheringEnds(false, GOOD)] + []));
    RenegotiatingIsReached(firstId, late, r4, end);
    var ss := [SendOffer(GOOD), GatheringIs(GatheringNow), Answer(AnswerOk, GOOD), SendOffer(GOOD),
               IceRestart(false, GOOD), GatheringIs(GatheringComplete), GatheringEnds(false, GOOD)];
    assert [SendOffer(GOOD)] + ([GatheringIs(GatheringNow)] + ([Answer(AnswerOk, GOOD)] + ([SendOffer(GOOD)] + late))) == ss;
    if AlwaysKept(Start(firstId, false), ss) {
      KeptAtEnd(Start(firstId, false), ss);
    }
  }
}
