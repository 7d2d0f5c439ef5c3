/** The ids of the offers that Negotiation hands to the client (pkg/rtc/transport.go). */
module OfferIds {
  import opened Numbers
  import opened Negotiation

  /** The id handed to OnOffer in a step, whether it takes the offer or not. */
  function HandedIn(t: Transport, t': Transport): seq<uint32> {
    if t'.localOfferId == t.localOfferId then [] else [t'.localOfferId]
  }

  function HandedIds(r: Run, ss: seq<Step>): seq<uint32>
    requires IsRun(r, ss)
    decreases |ss|
  {
    if ss == [] then [] else HandedIn(r.t, Next(r, ss[0]).t) + HandedIds(Next(r, ss[0]), ss[1..])
  }

  /** At most one id was handed out, the next one, and a new offer carries it. */
  predicate NextId(t: Transport, t': Transport) {
    if t'.localOfferId == t.localOfferId then t'.offers == t.offers
    else t'.localOfferId == Inc32(t.localOfferId) && (t'.offers == t.offers || Appends(t, t'))
  }

  predicate Appends(t: Transport, t': Transport) {
    && |t'.offers| == |t.offers| + 1 && t'.offers[..|t.offers|] == t.offers
    && t'.offers[|t.offers|].id == t'.localOfferId
  }

  /** That holds of every step, failing or not. */
  lemma StepIds(t: Transport, s: Step)
    ensures NextId(t, Handle(t, s).0)
  {
    match s
    case SendOffer(env) => CreateIds(t, false, env);
    case Answer(res, env) => CreateIds(t.(hasRemote := t.hasRemote || res != AnswerClosed, state := NegotiationNone), false, env);
    case IceRestart(reapplied, env) => RestartIds(t, reapplied, env);
    case GatheringEnds(reapplied, env) => RestartIds(t.(restartAfterGathering := false), reapplied, env);
    case _ =>
  }

  lemma CreateIds(t: Transport, iceRestart: bool, env: OfferEnv)
    ensures NextId(t, CreateAndSendOffer(t, iceRestart, env).0)
  {
  }

  lemma RestartIds(t: Transport, reapplied: bool, env: OfferEnv)
    ensures NextId(t, DoICERestart(t, reapplied, env).0)
  {
    CreateIds(t, true, env);
    CreateIds(t.(state := NegotiationNone), true, env);
  }

  /** x + n in 32 bits. */
  function Plus32(x: uint32, n: nat): uint32 {
    (x + n) % 0x1_0000_0000
  }

  lemma PlusInc(x: uint32, n: nat)
    ensures Plus32(Inc32(x), n) == Plus32(x, n + 1)
  {
  }

  /** Ids that count up in 32 bits from x + 1 on. */
  ghost predicate CountUp(x: uint32, ids: seq<uint32>) {
    forall i :: 0 <= i < |ids| ==> ids[i] == Plus32(x, i + 1)
  }

  lemma CountUpFrom(x: uint32, ids: seq<uint32>)
    requires CountUp(Inc32(x), ids)
    ensures CountUp(x, [Inc32(x)] + ids)
  {
    forall i | 0 <= i < |ids| + 1 ensures ([Inc32(x)] + ids)[i] == Plus32(x, i + 1) {
      if i > 0 {
        PlusInc(x, i);
      }
    }
  }

  /** Ids count up from the last one in 32 bits, in every run. */
  lemma {:induction false} HandedIdsCount(r: Run, ss: seq<Step>)
    requires IsRun(r, ss)
    ensures CountUp(r.t.localOfferId, HandedIds(r, ss))
    ensures After(r, ss).t.localOfferId == Plus32(r.t.localOfferId, |HandedIds(r, ss)|)
    decreases |ss|
  {
    if ss != [] {
      var next := Next(r, ss[0]);
      var rest := HandedIds(next, ss[1..]);
      StepIds(r.t, ss[0]);
      HandedIdsCount(next, ss[1..]);
      if next.t.localOfferId == r.t.localOfferId {
        assert [] + rest == rest;
      } else {
        CountUpFrom(r.t.localOfferId, rest);
        PlusInc(r.t.localOfferId, |rest|);
      }
    }
  }

  /** The ids of the offers taken so far increase up to the last id handed out. */
  ghost predicate Ascending(t: Transport) {
    && (forall i, j :: 0 <= i < j < |t.offers| ==> t.offers[i].id < t.offers[j].id)
    && (forall i :: 0 <= i < |t.offers| ==> t.offers[i].id <= t.localOfferId)
  }

  lemma StepAscends(t: Transport, t': Transport)
    requires NextId(t, t') && Ascending(t) && (t'.localOfferId != t.localOfferId ==> t.localOfferId + 1 < 0x1_0000_0000)
    ensures Ascending(t')
  {
    if t'.offers != t.offers {
      forall i | 0 <= i < |t.offers| ensures t'.offers[i] == t.offers[i] {
        assert t'.offers[..|t.offers|][i] == t'.offers[i];
      }
    }
  }

  lemma {:induction false} OffersAscend(r: Run, ss: seq<Step>)
    requires IsRun(r, ss) && Ascending(r.t) && r.t.localOfferId + |HandedIds(r, ss)| < 0x1_0000_0000
    ensures Ascending(After(r, ss).t)
    decreases |ss|
  {
    if ss != [] {
      StepIds(r.t, ss[0]);
      StepAscends(r.t, Next(r, ss[0]).t);
      OffersAscend(Next(r, ss[0]), ss[1..]);
    }
  }

  /** In every run, failures and closure included, the ids handed to OnOffer, for re-sent
      offers too, strictly increase exactly until the 32-bit counter wraps; and until then
      so do those of the offers it took. */
  lemma OfferIdsIncrease(firstId: uint32, previousAnswer: bool, ss: seq<Step>)
    requires 1 <= firstId <= 256 && IsRun(Start(firstId, previousAnswer), ss)
    ensures var ids, offers := HandedIds(Start(firstId, previousAnswer), ss), After(Start(firstId, previousAnswer), ss).t.offers;
            && ((forall i, j :: 0 <= i < j < |ids| ==> ids[i] < ids[j]) <==> firstId + |ids| < 0x1_0000_0000)
            && (firstId + |ids| < 0x1_0000_0000 ==> forall i, j :: 0 <= i < j < |offers| ==> offers[i].id < offers[j].id)
  {
    var start := Start(firstId, previousAnswer);
    HandedIdsCount(start, ss);
    IdsIncreaseUntilWrap(firstId, HandedIds(start, ss));
    if firstId + |HandedIds(start, ss)| < 0x1_0000_0000 {
      OffersAscend(start, ss);
    }
  }

  lemma IdsIncreaseUntilWrap(firstId: uint32, ids: seq<uint32>)
    requires 1 <= firstId <= 256
    requires CountUp(firstId, ids)
    ensures (forall i, j :: 0 <= i < j < |ids| ==> ids[i] < ids[j]) <==> firstId + |ids| < 0x1_0000_0000
  {
    if firstId + |ids| >= 0x1_0000_0000 {
      var wrap := 0xFFFF_FFFF - firstId;
      assert ids[wrap] == 0 && ids[wrap - 1] == 0xFFFF_FFFF;
    } else {
      assert forall i :: 0 <= i < |ids| ==> ids[i] == firstId + 1 + i;
    }
  }
}
