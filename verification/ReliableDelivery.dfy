/** The subscriber's side of reliable data: the room's message cache
    (pkg/rtc/room.go, onDataMessage and GetCachedReliableDataMessage) and the
    hand-over of a joining subscriber from "joining" through replay to "live"
    (pkg/rtc/participant.go, SendDataMessage and replayJoiningReliableMessages). */
module ReliableDelivery {
  import opened Numbers

  /** Identifiers only matter up to equality; 0 stands for the empty one. */
  type ParticipantID = nat
  type Identity = nat

  /** A data message as the room routes it; an empty `dest` addresses everybody. */
  datatype Msg = Msg(sender: ParticipantID, reliable: bool, seqNo: uint32, dest: seq<Identity>, body: nat)

  function Filter(p: Msg -> bool, s: seq<Msg>): seq<Msg>
    decreases |s|
  {
    if s == [] then []
    else
      var n := |s| - 1;
      Filter(p, s[..n]) + (if p(s[n]) then [s[n]] else [])
  }

  /** The filter of a prefix one message longer. */
  lemma FilterExtends(p: Msg -> bool, s: seq<Msg>, i: nat)
    requires i < |s|
    ensures Filter(p, s[..i+1]) == if p(s[i]) then Filter(p, s[..i]) + [s[i]] else Filter(p, s[..i])
  {
    assert s[..i+1][..i] == s[..i];
  }

  // ---- the room's cache ----

  predicate From(first: map<ParticipantID, uint32>, m: Msg) {
    m.sender in first && m.seqNo >= first[m.sender]
  }

  /** From(first, _) as a filter. */
  function FromOn(first: map<ParticipantID, uint32>): (p: Msg -> bool)
    ensures forall m :: p(m) <==> From(first, m)
  {
    (m: Msg) => From(first, m)
  }

  method GetCachedReliableDataMessage(cache: seq<Msg>, seqs: map<ParticipantID, uint32>) returns (msgs: seq<Msg>)
    ensures msgs == Filter(FromOn(seqs), cache)
  {
    msgs := [];
    var i := 0;
    while i < |cache|
      invariant 0 <= i <= |cache| && msgs == Filter(FromOn(seqs), cache[..i])
    {
      FilterExtends(FromOn(seqs), cache, i);
      if cache[i].sender in seqs && cache[i].seqNo >= seqs[cache[i].sender] {
        msgs := msgs + [cache[i]];
      }
      i := i + 1;
    }
    assert cache[..i] == cache;
  }

  // ---- the subscriber ----

  /** `first` is joiningMessageFirstSeqs, `last` is joiningMessageLastWrittenSeqs;
      `written` is everything handed to the transport. */
  datatype Sub = Sub(
    sid: ParticipantID,
    identity: Identity,
    first: map<ParticipantID, uint32>,
    last: map<ParticipantID, uint32>,
    canWrite: bool,
    written: seq<Msg>
  )

  predicate Numbered(m: Msg) {
    m.sender != 0 && m.reliable && m.seqNo != 0
  }

  predicate Addressed(s: Sub, m: Msg) {
    |m.dest| == 0 || s.identity in m.dest
  }

  /** Addressed(s, _) as a filter, for a subscriber of this identity. */
  function AddressedTo(identity: Identity): (p: Msg -> bool)
    ensures forall m :: p(m) <==> |m.dest| == 0 || identity in m.dest
  {
    (m: Msg) => |m.dest| == 0 || identity in m.dest
  }

  function Send(s: Sub, m: Msg): Sub
    requires Numbered(m)
  {
    if !s.canWrite then
      if m.sender in s.first then s else s.(first := s.first[m.sender := m.seqNo])
    else if m.sender !in s.last then s.(written := s.written + [m])
    else if m.seqNo <= s.last[m.sender] then s
    else s.(last := s.last - {m.sender}, written := s.written + [m])
  }

  /** The largest replayed number of each sender, over what `last` already held. */
  function LastOf(last: map<ParticipantID, uint32>, ms: seq<Msg>): map<ParticipantID, uint32>
    decreases |ms|
  {
    if ms == [] then last
    else
      var n := |ms| - 1;
      var before := LastOf(last, ms[..n]);
      if ms[n].sender !in before || before[ms[n].sender] < ms[n].seqNo
      then before[ms[n].sender := ms[n].seqNo] else before
  }

  function Replayed(s: Sub, cache: seq<Msg>): seq<Msg> {
    Filter(AddressedTo(s.identity), Filter(FromOn(s.first), cache))
  }

  function Replay(s: Sub, cache: seq<Msg>): Sub {
    var sent := Replayed(s, cache);
    s.(first := map[], last := LastOf(s.last, sent), canWrite := true, written := s.written + sent)
  }

  datatype ReceiveState = ReceiveState(publisherSid: ParticipantID, lastSeq: uint32)

  function FirstAfter(first: map<ParticipantID, uint32>, states: seq<ReceiveState>): map<ParticipantID, uint32>
    decreases |states|
  {
    if states == [] then first
    else
      var n := |states| - 1;
      FirstAfter(first, states[..n])[states[n].publisherSid := Inc32(states[n].lastSeq)]
  }

  datatype SendError = NoError | ErrDataChannelUnavailable

  class ReliableSubscriber {
    const sid: ParticipantID
    const identity: Identity
    var joiningMessageFirstSeqs: map<ParticipantID, uint32>
    var joiningMessageLastWrittenSeqs: map<ParticipantID, uint32>
    var canWriteReliable: bool
    var active: bool
    var written: seq<Msg>

    ghost function View(): Sub
      reads this
    {
      Sub(sid, identity, joiningMessageFirstSeqs, joiningMessageLastWrittenSeqs, canWriteReliable, written)
    }

    constructor (sid: ParticipantID, identity: Identity)
      ensures View() == Sub(sid, identity, map[], map[], false, []) && !active
    {
      this.sid, this.identity := sid, identity;
      joiningMessageFirstSeqs, joiningMessageLastWrittenSeqs := map[], map[];
      canWriteReliable, active, written := false, false, [];
    }

    /** The data-channel part of SetMigrateInfo. */
    method SetMigrateInfo(states: seq<ReceiveState>)
      modifies this`joiningMessageFirstSeqs
      ensures View() == old(View()).(first := FirstAfter(old(joiningMessageFirstSeqs), states))
    {
      var i := 0;
      while i < |states|
        invariant 0 <= i <= |states|
        invariant joiningMessageFirstSeqs == FirstAfter(old(joiningMessageFirstSeqs), states[..i])
      {
        assert states[..i+1][..i] == states[..i];
        joiningMessageFirstSeqs := joiningMessageFirstSeqs[states[i].publisherSid := Inc32(states[i].lastSeq)];
        i := i + 1;
      }
      assert states[..i] == states;
    }

    method SendDataMessage(m: Msg) returns (e: SendError)
      modifies this
      ensures active == old(active)
      ensures Numbered(m) ==> View() == Send(old(View()), m) && e == NoError
      ensures !Numbered(m) && active ==> View() == old(View()).(written := old(written) + [m]) && e == NoError
      ensures !Numbered(m) && !active ==> View() == old(View()) && e == ErrDataChannelUnavailable
    {
      e := NoError;
      if m.sender == 0 || !m.reliable || m.seqNo == 0 {
        if !active {
          return ErrDataChannelUnavailable;
        }
        written := written + [m];
        return;
      }
      if !canWriteReliable {
        if m.sender !in joiningMessageFirstSeqs {
          joiningMessageFirstSeqs := joiningMessageFirstSeqs[m.sender := m.seqNo];
        }
        return;
      }
      if m.sender in joiningMessageLastWrittenSeqs {
        if m.seqNo <= joiningMessageLastWrittenSeqs[m.sender] {
          return;
        } else {
          joiningMessageLastWrittenSeqs := joiningMessageLastWrittenSeqs - {m.sender};
        }
      }
      written := written + [m];
    }

    method ReplayJoiningReliableMessages(cache: seq<Msg>)
      modifies this
      ensures View() == Replay(old(View()), cache) && active == old(active)
    {
      var msgs := GetCachedReliableDataMessage(cache, joiningMessageFirstSeqs);
      WriteCached(msgs);
      joiningMessageFirstSeqs := map[];
      canWriteReliable := true;
    }

    /** The loop of replayJoiningReliableMessages. */
    method WriteCached(msgs: seq<Msg>)
      modifies this`joiningMessageLastWrittenSeqs, this`written
      ensures var sent := Filter(AddressedTo(identity), msgs);
              && joiningMessageLastWrittenSeqs == LastOf(old(joiningMessageLastWrittenSeqs), sent)
              && written == old(written) + sent
    {
      ghost var sent: seq<Msg> := [];
      var i := 0;
      while i < |msgs|
        invariant 0 <= i <= |msgs| && sent == Filter(AddressedTo(identity), msgs[..i])
        invariant joiningMessageLastWrittenSeqs == LastOf(old(joiningMessageLastWrittenSeqs), sent)
        invariant written == old(written) + sent
      {
        var m := msgs[i];
        FilterExtends(AddressedTo(identity), msgs, i);
        i := i + 1;
        if |m.dest| != 0 && identity !in m.dest {
          continue;
        }
        assert (sent + [m])[..|sent|] == sent;
        sent := sent + [m];
        if m.sender !in joiningMessageLastWrittenSeqs || joiningMessageLastWrittenSeqs[m.sender] < m.seqNo {
          joiningMessageLastWrittenSeqs := joiningMessageLastWrittenSeqs[m.sender := m.seqNo];
        }
        written := written + [m];
      }
      assert msgs[..i] == msgs;
    }
  }
}
