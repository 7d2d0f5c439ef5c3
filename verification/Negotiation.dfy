/** The offerer's side of negotiation (pkg/rtc/transport.go): the None/Remote/Retry
    machine that keeps one offer in flight, with ICE restarts that may have to wait
    for gathering to end or for the next offer.  It follows the offer/answer rule of
    section 4 of RFC 3264 and the restarts of section 9 of RFC 8445.

    What the peer connection answers to each call is an input. */
module Negotiation {
  import opened Numbers
  import opened IceCandidates

  datatype NegotiationState = NegotiationNone | NegotiationRemote | NegotiationRetry

  datatype Gathering = GatheringNew | GatheringNow | GatheringComplete

  /** An offer handed to the client; `isNew` tells a new one from a re-sent one. */
  datatype Offer = Offer(id: uint32, iceRestart: bool, isNew: bool)

  /** `hasLocal` and `hasRemote`: the peer connection has a local description, and a
      current remote description. */
  datatype Transport = Transport(
    state: NegotiationState,
    restartAfterGathering: bool,
    restartAtNextOffer: bool,
    previousAnswer: bool,
    localOfferId: uint32,
    pcClosed: bool,
    gathering: Gathering,
    hasLocal: bool,
    hasRemote: bool,
    candidates: Relay,
    offers: seq<Offer>
  )

  // ---- answers of the peer connection and of the signal handler ----

  datatype PcResult = PcOk | PcClosed | PcError

  datatype AnswerResult = AnswerOk | AnswerClosed | UnsupportedCodec | AnswerError

  /** What happens while an offer is made: the results of CreateOffer and
      SetLocalDescription, whether OnOffer takes it, and how many cached candidates
      OnICECandidate takes. */
  datatype OfferEnv = OfferEnv(create: PcResult, setLocal: PcResult, sent: bool, accepts: nat)

  datatype Outcome = Done | OnClosed | Failed(error: Error)

  datatype Error = CreateOfferFailed | SetLocalFailed | SendFailed | CandidateFailed | SetRemoteFailed | RestartWithoutLocalSDP

  // ---- the handlers ----

  function SendNewOffer(t: Transport, iceRestart: bool, env: OfferEnv): (Transport, Outcome) {
    var id := Inc32(t.localOfferId);
    var made := t.(hasLocal := true, state := NegotiationRemote, localOfferId := id);
    if !env.sent then (made, Failed(SendFailed))
    else
      var (cand, ok) := DescriptionSent(t.candidates, env.accepts);
      (made.(offers := t.offers + [Offer(id, iceRestart, true)], candidates := cand),
       if ok then Done else Failed(CandidateFailed))
  }

  function CreateAndSendOffer(t: Transport, iceRestart: bool, env: OfferEnv): (Transport, Outcome) {
    if t.pcClosed then (t, OnClosed)
    else if t.state == NegotiationRemote then (t.(state := NegotiationRetry), Done)
    else if t.state == NegotiationRetry then (t, Done)
    else
      var restart := iceRestart || t.previousAnswer || t.restartAtNextOffer;
      var t1 := t.(previousAnswer := false, restartAtNextOffer := false,
                   candidates := if restart then Clear(t.candidates) else t.candidates);
      if env.create != PcOk then (t1, if env.create == PcClosed then OnClosed else Failed(CreateOfferFailed))
      else if env.setLocal != PcOk then (t1, if env.setLocal == PcClosed then OnClosed else Failed(SetLocalFailed))
      else SendNewOffer(t1, restart, env)
  }

  function HandleAnswer(t: Transport, res: AnswerResult, env: OfferEnv): (Transport, Outcome) {
    if res == AnswerError then (t, Failed(SetRemoteFailed))
    else
      var t1 := t.(hasRemote := t.hasRemote || res != AnswerClosed, state := NegotiationNone);
      if t.state == NegotiationRetry then CreateAndSendOffer(t1, false, env)
      else (t1, if res == AnswerClosed then OnClosed else Done)
  }

  /** `reapplied`: the peer connection takes its last answer again. */
  function DoICERestart(t: Transport, reapplied: bool, env: OfferEnv): (Transport, Outcome) {
    if t.pcClosed then (t, OnClosed)
    else if t.gathering == GatheringNew then (t, Done)
    else if t.gathering == GatheringNow then (t.(restartAfterGathering := true), Done)
    else if t.state == NegotiationNone then CreateAndSendOffer(t, true, env)
    else if !t.hasRemote then
      if !t.hasLocal then (t, Failed(RestartWithoutLocalSDP))
      else
        var id := Inc32(t.localOfferId);
        var t1 := t.(state := NegotiationRetry, restartAtNextOffer := true, localOfferId := id);
        if env.sent then (t1.(offers := t.offers + [Offer(id, false, false)]), Done) else (t1, Failed(SendFailed))
    else if !reapplied then (t, Failed(SetRemoteFailed))
    else CreateAndSendOffer(t.(state := NegotiationNone), true, env)
  }

  function HandleGatheringComplete(t: Transport, reapplied: bool, env: OfferEnv): (Transport, Outcome) {
    if !t.restartAfterGathering then (t, Done)
    else DoICERestart(t.(restartAfterGathering := false), reapplied, env)
  }

  class PCTransport {
    var negotiationState: NegotiationState
    var restartAfterGathering: bool
    var restartAtNextOffer: bool
    var previousAnswer: bool
    var localOfferId: uint32
    var pcClosed: bool
    var gathering: Gathering
    var hasLocal: bool
    var hasRemote: bool
    var offers: seq<Offer>
    const candidates: CandidateRelay

    ghost function View(): Transport
      reads this, candidates
    {
      Transport(negotiationState, restartAfterGathering, restartAtNextOffer, previousAnswer, localOfferId,
                pcClosed, gathering, hasLocal, hasRemote, candidates.View(), offers)
    }

    /** `firstId`: the random start of the offer ids. */
    constructor (firstId: uint32, previousAnswer: bool)
      ensures View() == Init(firstId, previousAnswer) && fresh(candidates)
    {
      negotiationState, localOfferId := NegotiationNone, firstId;
      restartAfterGathering, restartAtNextOffer, this.previousAnswer := false, false, previousAnswer;
      pcClosed, gathering, hasLocal, hasRemote, offers := false, GatheringNew, false, false, [];
      candidates := new CandidateRelay();
    }

    method CreateAndSendOfferNow(iceRestart: bool, env: OfferEnv) returns (r: Outcome)
      modifies this, candidates
      ensures (View(), r) == CreateAndSendOffer(old(View()), iceRestart, env)
    {
      if pcClosed {
        return OnClosed;
      }
      match negotiationState {
        case NegotiationRemote =>
          negotiationState := NegotiationRetry;
          return Done;
        case NegotiationRetry =>
          return Done;
        case NegotiationNone =>
      }
      var restart := iceRestart;
      if previousAnswer {
        previousAnswer := false;
        restart := true;
      }
      if restartAtNextOffer {
        restartAtNextOffer := false;
        restart := true;
      }
      if restart {
        candidates.ClearLocalDescriptionSent();
      }
      if env.create != PcOk {
        return if env.create == PcClosed then OnClosed else Failed(CreateOfferFailed);
      }
      if env.setLocal != PcOk {
        return if env.setLocal == PcClosed then OnClosed else Failed(SetLocalFailed);
      }
      hasLocal := true;
      negotiationState := NegotiationRemote;
      localOfferId := Inc32(localOfferId);
      if !env.sent {
        return Failed(SendFailed);
      }
      offers := offers + [Offer(localOfferId, restart, true)];
      var ok := candidates.LocalDescriptionSent(env.accepts);
      r := if ok then Done else Failed(CandidateFailed);
    }

    method HandleRemoteAnswerReceived(res: AnswerResult, env: OfferEnv) returns (r: Outcome)
      modifies this, candidates
      ensures (View(), r) == HandleAnswer(old(View()), res, env)
    {
      if res == AnswerError {
        return Failed(SetRemoteFailed);
      }
      if res != AnswerClosed {
        hasRemote := true;
      }
      if negotiationState == NegotiationRetry {
        negotiationState := NegotiationNone;
        r := CreateAndSendOfferNow(false, env);
        return;
      }
      negotiationState := NegotiationNone;
      r := if res == AnswerClosed then OnClosed else Done;
    }

    method DoICERestartNow(reapplied: bool, env: OfferEnv) returns (r: Outcome)
      modifies this, candidates
      ensures (View(), r) == DoICERestart(old(View()), reapplied, env)
    {
      if pcClosed {
        return OnClosed;
      }
      if gathering == GatheringNew {
        return Done;
      }
      if gathering == GatheringNow {
        restartAfterGathering := true;
        return Done;
      }
      if negotiationState == NegotiationNone {
        r := CreateAndSendOfferNow(true, env);
        return;
      }
      if !hasRemote {
        if !hasLocal {
          return Failed(RestartWithoutLocalSDP);
        }
        negotiationState := NegotiationRetry;
        restartAtNextOffer := true;
        localOfferId := Inc32(localOfferId);
        if !env.sent {
          return Failed(SendFailed);
        }
        offers := offers + [Offer(localOfferId, false, false)];
        return Done;
      }
      if !reapplied {
        return Failed(SetRemoteFailed);
      }
      negotiationState := NegotiationNone;
      r := CreateAndSendOfferNow(true, env);
    }

    method HandleICEGatheringCompleteOfferer(reapplied: bool, env: OfferEnv) returns (r: Outcome)
      modifies this, candidates
      ensures (View(), r) == HandleGatheringComplete(old(View()), reapplied, env)
    {
      if !restartAfterGathering {
        return Done;
      }
      restartAfterGathering := false;
      r := DoICERestartNow(reapplied, env);
    }
  }

  function Init(firstId: uint32, previousAnswer: bool): Transport {
    Transport(NegotiationNone, false, false, previousAnswer, firstId, false, GatheringNew, false, false, Relay(false, [], []), [])
  }

  // ---- runs ----

  /** Events in the order the transport's queue processes them. */
  datatype Step =
    | SendOffer(env: OfferEnv)
    | Answer(res: AnswerResult, env: OfferEnv)
    | IceRestart(reapplied: bool, env: OfferEnv)
    | GatheringEnds(reapplied: bool, env: OfferEnv)
    | GatheringIs(g: Gathering)
    | LocalCandidate(c: Local, preferTCP: bool)
    | PcCloses

  /** A transport with the history of its run.  `requests` counts processed send-offer
      requests, `covered` those an offer made at or after them covers; `unanswered`
      counts offers without an answer and `peak` its largest value; `wanted` holds
      from a restart request until an ICE-restart offer; `overlapped` once a restart
      was carried out during a negotiation; `broken` after a failure or closure. */
  datatype Run = Run(
    t: Transport,
    requests: nat,
    covered: nat,
    unanswered: nat,
    peak: nat,
    wanted: bool,
    overlapped: bool,
    broken: bool
  )

  function Start(firstId: uint32, previousAnswer: bool): Run {
    Run(Init(firstId, previousAnswer), 0, 0, 0, 0, false, false, false)
  }

  /** The client answers each offer at most once; gathering, once begun, is never new again. */
  predicate Enabled(r: Run, s: Step) {
    match s
    case Answer(_, _) => r.unanswered > 0
    case GatheringIs(g) => g != GatheringNew
    case _ => true
  }

  function Handle(t: Transport, s: Step): (Transport, Outcome) {
    match s
    case SendOffer(env) => CreateAndSendOffer(t, false, env)
    case Answer(res, env) => HandleAnswer(t, res, env)
    case IceRestart(reapplied, env) => DoICERestart(t, reapplied, env)
    case GatheringEnds(reapplied, env) => HandleGatheringComplete(t, reapplied, env)
    case GatheringIs(g) => (t.(gathering := g), Done)
    case LocalCandidate(c, preferTCP) => (t.(candidates := Arrive(t.candidates, c, preferTCP, true).0), Done)
    case PcCloses => (t.(pcClosed := true), OnClosed)
  }

  /** The step carries out an ICE restart while an offer is being negotiated. */
  predicate Overlaps(t: Transport, s: Step) {
    && (s.IceRestart? || (s.GatheringEnds? && t.restartAfterGathering))
    && !t.pcClosed && t.gathering == GatheringComplete && t.state != NegotiationNone
  }

  function Next(r: Run, s: Step): Run
    requires Enabled(r, s)
  {
    var (t', out) := Handle(r.t, s);
    var made := |t'.offers| > |r.t.offers|;
    var requests := r.requests + if s.SendOffer? then 1 else 0;
    var unanswered := r.unanswered - (if s.Answer? then 1 else 0) + (if made then 1 else 0);
    var asked := s.IceRestart? && !r.t.pcClosed && r.t.gathering != GatheringNew;
    Run(t', requests,
        if made && t'.offers[|t'.offers|-1].isNew then requests else r.covered,
        unanswered,
        if unanswered > r.peak then unanswered else r.peak,
        (r.wanted || asked) && !(made && t'.offers[|t'.offers|-1].iceRestart),
        r.overlapped || Overlaps(r.t, s),
        r.broken || out != Done)
  }

  predicate IsRun(r: Run, ss: seq<Step>)
    decreases |ss|
  {
    ss == [] || (Enabled(r, ss[0]) && IsRun(Next(r, ss[0]), ss[1..]))
  }

  function After(r: Run, ss: seq<Step>): Run
    requires IsRun(r, ss)
    decreases |ss|
  {
    if ss == [] then r else After(Next(r, ss[0]), ss[1..])
  }

  // ---- the invariant ----

  ghost predicate Inv(r: Run) {
    !r.broken ==>
      && !r.t.pcClosed
      && (r.t.state != NegotiationNone ==> r.t.hasLocal && r.unanswered >= 1)
      && (r.t.restartAtNextOffer ==> r.t.state == NegotiationRetry)
      && (r.wanted ==> r.t.restartAfterGathering || r.t.restartAtNextOffer)
      && (r.covered == r.requests || r.t.state == NegotiationRetry)
      && (r.t.restartAfterGathering ==> r.t.gathering != GatheringNew)
      && r.unanswered <= r.peak
      && (if r.overlapped then r.peak >= 2
          else r.peak <= 1 && r.unanswered == (if r.t.state == NegotiationNone then 0 else 1))
  }

  ghost function Last(t: Transport): Offer
    requires t.offers != []
  {
    t.offers[|t.offers|-1]
  }

  /** An attempt to make an offer that does not fail either puts it off to Retry, or
      makes a new one and consumes every reason to restart. */
  lemma CreateFacts(t: Transport, iceRestart: bool, env: OfferEnv)
    requires CreateAndSendOffer(t, iceRestart, env).1 == Done
    ensures var t' := CreateAndSendOffer(t, iceRestart, env).0;
            && t'.restartAfterGathering == t.restartAfterGathering
            && t'.gathering == t.gathering && t'.pcClosed == t.pcClosed == false && t'.hasRemote == t.hasRemote
            && if t.state == NegotiationNone then
                 && t'.state == NegotiationRemote && t'.hasLocal && !t'.restartAtNextOffer
                 && |t'.offers| == |t.offers| + 1 && Last(t').isNew
                 && Last(t').iceRestart == (iceRestart || t.previousAnswer || t.restartAtNextOffer)
               else
                 t'.state == NegotiationRetry && t'.offers == t.offers && t'.hasLocal == t.hasLocal && t'.restartAtNextOffer == t.restartAtNextOffer
  {
  }

  /** A restart that does not fail is made at once, or recorded. */
  lemma RestartFacts(t: Transport, reapplied: bool, env: OfferEnv)
    requires DoICERestart(t, reapplied, env).1 == Done && t.gathering != GatheringNew
    ensures var t' := DoICERestart(t, reapplied, env).0;
            && t'.gathering == t.gathering && t'.pcClosed == t.pcClosed == false
            && if t.gathering == GatheringNow then t' == t.(restartAfterGathering := true)
               else if t.state == NegotiationNone || t.hasRemote then
                 && t'.restartAfterGathering == t.restartAfterGathering
                 && t'.state == NegotiationRemote && t'.hasLocal && !t'.restartAtNextOffer
                 && |t'.offers| == |t.offers| + 1 && Last(t').isNew && Last(t').iceRestart
               else
                 && t'.restartAfterGathering == t.restartAfterGathering
                 && t'.state == NegotiationRetry && t.hasLocal && t'.hasLocal && t'.restartAtNextOffer
                 && |t'.offers| == |t.offers| + 1 && !Last(t').isNew && !Last(t').iceRestart
  {
    if t.gathering == GatheringComplete && (t.state == NegotiationNone || t.hasRemote) {
      CreateFacts(t.(state := NegotiationNone), true, env);
    }
  }

  lemma NextKeepsInv(r: Run, s: Step)
    requires Inv(r) && Enabled(r, s)
    ensures Inv(Next(r, s))
  {
    if !Next(r, s).broken {
      match s
      case SendOffer(env) => CreateFacts(r.t, false, env);
      case Answer(res, env) => AnswerKeepsInv(r, res, env);
      case IceRestart(reapplied, env) => RestartKeepsInv(r, s);
      case GatheringEnds(reapplied, env) => RestartKeepsInv(r, s);
      case GatheringIs(_) =>
      case LocalCandidate(_, _) =>
      case PcCloses =>
    }
  }

  lemma AnswerKeepsInv(r: Run, res: AnswerResult, env: OfferEnv)
    requires Inv(r) && Enabled(r, Answer(res, env)) && !Next(r, Answer(res, env)).broken
    ensures Inv(Next(r, Answer(res, env)))
  {
    if r.t.state == NegotiationRetry {
      CreateFacts(r.t.(hasRemote := r.t.hasRemote || res != AnswerClosed, state := NegotiationNone), false, env);
    }
  }

  lemma RestartKeepsInv(r: Run, s: Step)
    requires Inv(r) && (s.IceRestart? || s.GatheringEnds?) && !Next(r, s).broken
    ensures Inv(Next(r, s))
  {
    if s.IceRestart? {
      if r.t.gathering != GatheringNew {
        RestartFacts(r.t, s.reapplied, s.env);
      }
    } else if r.t.restartAfterGathering {
      RestartFacts(r.t.(restartAfterGathering := false), s.reapplied, s.env);
    }
  }

  lemma {:induction false} RunKeepsInv(r: Run, ss: seq<Step>)
    requires Inv(r) && IsRun(r, ss)
    ensures Inv(After(r, ss))
    decreases |ss|
  {
    if ss != [] {
      NextKeepsInv(r, ss[0]);
      RunKeepsInv(Next(r, ss[0]), ss[1..]);
    }
  }

  // ---- what every run without failure or closure guarantees ----

  /** No request to negotiate is forgotten: it is covered by an offer made at or
      after it, or an unanswered offer exists whose answer will cover it. */
  lemma RequestsAreCovered(firstId: uint32, previousAnswer: bool, ss: seq<Step>)
    requires IsRun(Start(firstId, previousAnswer), ss)
    ensures var r := After(Start(firstId, previousAnswer), ss);
            !r.broken ==> r.covered == r.requests || (r.t.state == NegotiationRetry && r.unanswered >= 1)
  {
    RunKeepsInv(Start(firstId, previousAnswer), ss);
  }

  /** In Retry, the next answer makes the offer that covers every request so far. */
  lemma NextAnswerCovers(r: Run, res: AnswerResult, env: OfferEnv)
    requires Inv(r) && r.t.state == NegotiationRetry && r.unanswered >= 1
    ensures var r' := Next(r, Answer(res, env));
            !r'.broken ==> r'.covered == r'.requests == r.requests && r'.t.state == NegotiationRemote && |r'.t.offers| == |r.t.offers| + 1
  {
  }

  /** Section 4 of RFC 3264, exactly: at most one offer was ever unanswered if and
      only if no ICE restart was carried out during a negotiation. */
  lemma OneOfferInFlight(firstId: uint32, previousAnswer: bool, ss: seq<Step>)
    requires IsRun(Start(firstId, previousAnswer), ss)
    ensures var r := After(Start(firstId, previousAnswer), ss);
            !r.broken ==> (r.peak <= 1 <==> !r.overlapped)
  {
    RunKeepsInv(Start(firstId, previousAnswer), ss);
  }

  /** The error for a restart without a local description cannot happen. */
  lemma RestartAlwaysHasLocalOffer(firstId: uint32, previousAnswer: bool, ss: seq<Step>, reapplied: bool, env: OfferEnv)
    requires IsRun(Start(firstId, previousAnswer), ss)
    requires !After(Start(firstId, previousAnswer), ss).broken
    ensures DoICERestart(After(Start(firstId, previousAnswer), ss).t, reapplied, env).1 != Failed(RestartWithoutLocalSDP)
  {
    RunKeepsInv(Start(firstId, previousAnswer), ss);
  }

  /** A requested restart is never lost once gathering has begun: until an ICE-restart
      offer is made it stays recorded. */
  lemma RestartIsNeverLost(firstId: uint32, previousAnswer: bool, ss: seq<Step>)
    requires IsRun(Start(firstId, previousAnswer), ss)
    ensures var r := After(Start(firstId, previousAnswer), ss);
            !r.broken && r.wanted ==>
              || (r.t.restartAfterGathering && r.t.gathering != GatheringNew)
              || (r.t.restartAtNextOffer && r.t.state == NegotiationRetry && r.unanswered >= 1)
  {
    RunKeepsInv(Start(firstId, previousAnswer), ss);
  }

  /** And it is carried out: the end of gathering makes the restart offer or leaves it
      to the next offer, and the next answer then makes it. */
  lemma RecordedRestartIsMade(r: Run, reapplied: bool, res: AnswerResult, env: OfferEnv)
    requires Inv(r) && !r.broken && r.wanted
    ensures var r' := Next(r, GatheringEnds(reapplied, env));
            r.t.restartAfterGathering && r.t.gathering == GatheringComplete && !r'.broken ==>
              !r'.wanted || (r'.t.restartAtNextOffer && r'.t.state == NegotiationRetry)
    ensures r.t.restartAtNextOffer && r.unanswered >= 1 ==>
              var r' := Next(r, Answer(res, env)); !r'.broken ==> !r'.wanted
  {
  }

  // ---- settling ----

  function Rank(s: NegotiationState): nat {
    match s case NegotiationNone => 0 case NegotiationRemote => 1 case NegotiationRetry => 2
  }

  /** A step that asks for nothing new. */
  predicate Quiet(s: Step) {
    s.Answer? || s.GatheringIs? || s.LocalCandidate?
  }

  function Answers(ss: seq<Step>): nat {
    if ss == [] then 0 else (if ss[0].Answer? then 1 else 0) + Answers(ss[1..])
  }

  /** With no new requests each answer brings the state one step closer to None, so
      two answers always bring it there. */
  lemma {:induction false} AnswersSettle(r: Run, ss: seq<Step>)
    requires IsRun(r, ss) && forall i :: 0 <= i < |ss| ==> Quiet(ss[i])
    ensures !After(r, ss).broken ==>
              Rank(After(r, ss).t.state) == if Rank(r.t.state) >= Answers(ss) then Rank(r.t.state) - Answers(ss) else 0
    ensures !After(r, ss).broken && Answers(ss) >= 2 ==> After(r, ss).t.state == NegotiationNone
    decreases |ss|
  {
    if ss != [] {
      assert forall i :: 0 <= i < |ss[1..]| ==> Quiet(ss[1..][i]);
      var r1 := Next(r, ss[0]);
      AnswersSettle(r1, ss[1..]);
      if r1.broken {
        BrokenStays(r1, ss[1..]);
      } else if ss[0].Answer? && r.t.state == NegotiationRetry {
        CreateFacts(r.t.(hasRemote := r.t.hasRemote || ss[0].res != AnswerClosed, state := NegotiationNone), false, ss[0].env);
      }
    }
  }

  lemma {:induction false} BrokenStays(r: Run, ss: seq<Step>)
    requires IsRun(r, ss) && r.broken
    ensures After(r, ss).broken
    decreases |ss|
  {
    if ss != [] {
      BrokenStays(Next(r, ss[0]), ss[1..]);
    }
  }
}
