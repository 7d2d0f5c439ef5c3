/** Requests for media sections in pkg/rtc/transport.go: what is asked of the client
    between two answers adds up to what is outstanding. */
module MediaRequirement {
  import opened Options
  import opened Numbers

  const MODULUS := 0x1_0000_0000

  datatype Kind = Audio | Video

  /** A number of sections of each kind. */
  datatype Sections = Sections(audios: uint32, videos: uint32)

  datatype Counters = Counters(outstanding: Sections, requested: Sections)

  function Adjust(c: Counters, kind: Kind): Counters {
    c.(outstanding := if kind.Audio? then c.outstanding.(audios := Inc32(c.outstanding.audios))
                      else c.outstanding.(videos := Inc32(c.outstanding.videos)))
  }

  /** The request, if any, that a send makes. */
  function Request(c: Counters, force: bool): Option<Sections> {
    var a := Sub32(c.outstanding.audios, c.requested.audios);
    var v := Sub32(c.outstanding.videos, c.requested.videos);
    if force || Add32(a, v) != 0 then Some(Sections(a, v)) else None
  }

  class UnmatchedMedia {
    var numOutstandingAudios: uint32
    var numRequestSentAudios: uint32
    var numOutstandingVideos: uint32
    var numRequestSentVideos: uint32

    ghost function View(): Counters
      reads this
    {
      Counters(Sections(numOutstandingAudios, numOutstandingVideos), Sections(numRequestSentAudios, numRequestSentVideos))
    }

    constructor ()
      ensures View() == Counters(Sections(0, 0), Sections(0, 0))
    {
      numOutstandingAudios, numRequestSentAudios, numOutstandingVideos, numRequestSentVideos := 0, 0, 0, 0;
    }

    method AdjustNumOutstandingMedia(kind: Kind, hasMid: bool)
      modifies this
      ensures View() == if hasMid then old(View()) else Adjust(old(View()), kind)
    {
      if hasMid {
        return;
      }
      if kind.Audio? {
        numOutstandingAudios := Inc32(numOutstandingAudios);
      } else {
        numOutstandingVideos := Inc32(numOutstandingVideos);
      }
    }

    method SendUnmatchedMediaRequirement(force: bool) returns (request: Option<Sections>)
      modifies this
      ensures request == Request(old(View()), force)
      ensures View() == old(View()).(requested := old(View()).outstanding)
    {
      var numAudios: uint32 := Sub32(numOutstandingAudios, numRequestSentAudios);
      numRequestSentAudios := Add32(numRequestSentAudios, numAudios);
      var numVideos: uint32 := Sub32(numOutstandingVideos, numRequestSentVideos);
      numRequestSentVideos := Add32(numRequestSentVideos, numVideos);
      if force || Add32(numAudios, numVideos) != 0 {
        return Some(Sections(numAudios, numVideos));
      }
      request := None;
    }

    /** The recount at the start of createAndSendAnswer. */
    method Recount(unmatched: Sections)
      modifies this
      ensures View() == Counters(unmatched, Sections(0, 0))
    {
      numOutstandingAudios, numOutstandingVideos := unmatched.audios, unmatched.videos;
      numRequestSentAudios, numRequestSentVideos := 0, 0;
    }
  }

  // ---- what is asked between two answers ----

  /** `delivered` is whether the handler could pass a request on. */
  datatype Event = Adds(kind: Kind) | Asks(force: bool, delivered: bool) | Answers(unmatched: Sections)

  function Next(c: Counters, e: Event): Counters {
    match e
    case Adds(kind) => Adjust(c, kind)
    case Asks(_, _) => c.(requested := c.outstanding)
    case Answers(unmatched) => Counters(unmatched, Sections(0, 0))
  }

  function Run(es: seq<Event>): Counters
    decreases |es|
  {
    if es == [] then Counters(Sections(0, 0), Sections(0, 0)) else Next(Run(es[..|es|-1]), es[|es|-1])
  }

  /** Two running totals. */
  datatype Totals = Totals(audios: nat, videos: nat)

  function Plus(t: Totals, s: Sections): Totals {
    Totals(t.audios + s.audios, t.videos + s.videos)
  }

  /** The sections that have been needed since the last answer. */
  function Needed(es: seq<Event>): Totals
    decreases |es|
  {
    if es == [] then Totals(0, 0)
    else
      var t := Needed(es[..|es|-1]);
      match es[|es|-1]
      case Adds(Audio) => t.(audios := t.audios + 1)
      case Adds(Video) => t.(videos := t.videos + 1)
      case Asks(_, _) => t
      case Answers(unmatched) => Totals(unmatched.audios, unmatched.videos)
  }

  /** The sections requested since the last answer, in requests that were delivered or
      in ones that were not. */
  function Requested(es: seq<Event>, delivered: bool): Totals
    decreases |es|
  {
    if es == [] then Totals(0, 0)
    else
      var t, e := Requested(es[..|es|-1], delivered), es[|es|-1];
      if e.Answers? then Totals(0, 0)
      else if e.Asks? && e.delivered == delivered && Request(Run(es[..|es|-1]), e.force).Some? then
        Plus(t, Request(Run(es[..|es|-1]), e.force).value)
      else t
  }

  function Both(es: seq<Event>): Totals {
    Totals(Requested(es, true).audios + Requested(es, false).audios, Requested(es, true).videos + Requested(es, false).videos)
  }

  /** The counters did not wrap around since the last answer. */
  predicate Small(es: seq<Event>) {
    Needed(es).audios + Needed(es).videos < MODULUS
  }

  /** A send asks exactly when it is forced or more is needed than was asked for, and then for
      just what is missing. */
  lemma AsksExactly(es: seq<Event>, force: bool)
    requires Small(es)
    ensures var request := Request(Run(es), force);
      && (request.Some? <==> force || Both(es) != Needed(es))
      && (request.Some? ==> Plus(Both(es), request.value) == Needed(es))
  {
    CountersAccount(es);
  }

  ghost predicate Accounts(es: seq<Event>) {
    var c := Run(es);
    && Needed(es) == Totals(c.outstanding.audios, c.outstanding.videos)
    && Both(es) == Totals(c.requested.audios, c.requested.videos)
    && c.requested.audios <= c.outstanding.audios && c.requested.videos <= c.outstanding.videos
  }

  lemma AddsAccount(es: seq<Event>)
    requires es != [] && es[|es|-1].Adds? && Small(es)
    requires Accounts(es[..|es|-1])
    ensures Accounts(es)
  {
    var init := es[..|es|-1];
    assert Requested(es, true) == Requested(init, true) && Requested(es, false) == Requested(init, false);
    assert Run(es) == Adjust(Run(init), es[|es|-1].kind);
    match es[|es|-1].kind
    case Audio => assert Inc32(Run(init).outstanding.audios) == Run(init).outstanding.audios + 1;
    case Video => assert Inc32(Run(init).outstanding.videos) == Run(init).outstanding.videos + 1;
  }

  lemma AsksAccount(es: seq<Event>)
    requires es != [] && es[|es|-1].Asks? && Small(es)
    requires Accounts(es[..|es|-1])
    ensures Accounts(es)
  {
    var init, c, e := es[..|es|-1], Run(es[..|es|-1]), es[|es|-1];
    var a, v := c.outstanding.audios - c.requested.audios, c.outstanding.videos - c.requested.videos;
    if Request(c, e.force).Some? {
      assert Request(c, e.force).value == Sections(a, v);
      assert Requested(es, e.delivered) == Plus(Requested(init, e.delivered), Sections(a, v));
      assert Requested(es, !e.delivered) == Requested(init, !e.delivered);
    } else {
      assert a == v == 0;
      assert Requested(es, true) == Requested(init, true) && Requested(es, false) == Requested(init, false);
    }
  }

  /** The counters count what was needed and requested since the last answer. */
  lemma {:induction false} CountersAccount(es: seq<Event>)
    requires Small(es)
    ensures Accounts(es)
    decreases |es|
  {
    if es != [] {
      match es[|es|-1]
      case Adds(_) =>
        CountersAccount(es[..|es|-1]);
        AddsAccount(es);
      case Asks(_, _) =>
        CountersAccount(es[..|es|-1]);
        AsksAccount(es);
      case Answers(_) =>
    }
  }

  /** Whenever requests have just been sent, those delivered since the last answer add up
      to the sections needed since then, exactly if and only if none of the requests that
      failed asked for any. */
  lemma DeliveredAddsUp(es: seq<Event>)
    requires Small(es) && es != [] && es[|es|-1].Asks?
    ensures Both(es) == Needed(es)
    ensures Requested(es, true) == Needed(es) <==> Requested(es, false) == Totals(0, 0)
  {
    CountersAccount(es);
  }
}
