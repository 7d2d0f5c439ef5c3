/** The sink and the reader of SignalRelay at the two ends of a network that may
    lose, repeat and reorder envelopes, and may report a send as failed after the
    envelope arrived.  A run is any sequence of enabled steps. */
module SignalProtocol {
  import opened SignalRelay

  /** Messages dropped by one send timeout: those numbered lo..hi, after
      `after` envelopes had been handed to the stream. */
  datatype Drop = Drop(lo: nat, hi: nat, after: nat)

  /** `accepted`, `sent`, `drops` and `delivered` are histories. */
  datatype Relay<M> = Relay(
    sink: Sink<M>,
    accepted: seq<M>,
    sent: seq<Envelope<M>>,
    drops: seq<Drop>,
    readAt: nat,
    copyEnd: CopyEnd,
    delivered: seq<M>
  )

  /** Receive(i, room): the i-th envelope ever sent reaches the reader while the
      channel takes `room` more messages. */
  datatype Step<M> =
    | Accept(m: M)
    | CloseSink
    | WriterRuns
    | SendResult(ok: bool, expired: bool)
    | StreamEnds
    | Receive(i: nat, room: nat)

  function Init<M>(closeOnFailure: bool): Relay<M> {
    Relay(EmptySink(closeOnFailure), [], [], [], 0, Copying, [])
  }

  predicate Enabled<M>(r: Relay<M>, step: Step<M>) {
    match step
    case Accept(_) => true
    case CloseSink => true
    case WriterRuns => r.sink.writer.Started?
    case SendResult(_, _) => r.sink.writer.Sending? && |r.sink.writer.env.msgs| <= |r.sink.queue|
    case StreamEnds => true
    case Receive(i, _) => i < |r.sent| && r.copyEnd == Copying
  }

  /** Records the envelope the writer has just handed to Stream.Send, if any. */
  function WithSink<M>(r: Relay<M>, sink: Sink<M>): Relay<M> {
    r.(sink := sink, sent := if sink.writer.Sending? then r.sent + [sink.writer.env] else r.sent)
  }

  function Next<M>(r: Relay<M>, step: Step<M>): Relay<M>
    requires Enabled(r, step)
  {
    match step
    case Accept(m) =>
      var (sink, res) := Write(r.sink, m);
      r.(sink := sink, accepted := if res.Accepted? then r.accepted + [m] else r.accepted)
    case CloseSink => r.(sink := Drain(r.sink))
    case WriterRuns => WithSink(r, LoopHead(r.sink))
    case SendResult(ok, expired) =>
      var after := WithSink(r, AfterSend(r.sink, ok, expired));
      if !ok && expired then
        after.(drops := r.drops + [Drop(r.sink.seqNo, r.sink.seqNo + |r.sink.queue|, |r.sent|)])
      else after
    case StreamEnds => r.(sink := CloseStream(r.sink, StreamClosed))
    case Receive(i, room) =>
      var (at, put, end) := CopyOne(r.readAt, r.sent[i], room);
      r.(readAt := at, delivered := r.delivered + put, copyEnd := end)
  }

  predicate IsRun<M>(r: Relay<M>, steps: seq<Step<M>>)
    decreases |steps|
  {
    steps == [] || (Enabled(r, steps[0]) && IsRun(Next(r, steps[0]), steps[1..]))
  }

  function Run<M>(r: Relay<M>, steps: seq<Step<M>>): Relay<M>
    requires IsRun(r, steps)
    decreases |steps|
  {
    if steps == [] then r else Run(Next(r, steps[0]), steps[1..])
  }

  // ---- the invariant ----

  /** An envelope holds exactly the accepted messages it is numbered for. */
  ghost predicate CutFrom<M>(accepted: seq<M>, env: Envelope<M>) {
    && env.seqNo + |env.msgs| <= |accepted|
    && env.msgs == accepted[env.seqNo..env.seqNo + |env.msgs|]
  }

  /** A closing envelope also holds them to the end. */
  ghost predicate Faithful<M>(r: Relay<M>, env: Envelope<M>) {
    && CutFrom(r.accepted, env)
    && (env.close ==> r.sink.draining && env.seqNo + |env.msgs| == |r.accepted|)
  }

  ghost predicate DropOk<M>(r: Relay<M>, d: Drop) {
    && d.lo <= d.hi <= r.sink.seqNo
    && d.after <= |r.sent|
    && forall i :: d.after <= i < |r.sent| ==> r.sent[i].seqNo >= d.hi
  }

  ghost predicate ReaderOk<M>(r: Relay<M>) {
    && r.readAt <= |r.accepted|
    && r.delivered <= r.accepted
    && (r.copyEnd != EndChannel ==> r.delivered == r.accepted[..r.readAt])
    && (r.copyEnd == EndClosed ==> r.sink.draining && r.delivered == r.accepted)
  }

  ghost predicate Inv<M>(r: Relay<M>) {
    && SinkOk(r.sink)
    && r.sink.seqNo + |r.sink.queue| == |r.accepted|
    && r.sink.queue == r.accepted[r.sink.seqNo..]
    && (forall i :: 0 <= i < |r.sent| ==> Faithful(r, r.sent[i]))
    && (forall i :: 0 <= i < |r.drops| ==> DropOk(r, r.drops[i]))
    && ReaderOk(r)
  }

  /** The reader alone: an envelope taken from the accepted messages extends the
      delivered ones by exactly the next of them. */
  lemma ReadExtends<M>(accepted: seq<M>, at: nat, env: Envelope<M>)
    requires at <= |accepted| && CutFrom(accepted, env)
    ensures var (next, r) := ReadFrom(at, env);
            r.Messages? ==> at <= next <= |accepted| && r.msgs == accepted[at..next]
  {
    if env.seqNo <= at < env.seqNo + |env.msgs| {
      var skip := at - env.seqNo;
      assert env.msgs[skip..] == accepted[at..env.seqNo + |env.msgs|];
    }
  }

  /** The same for one pass of the copy loop, which may stop part way. */
  lemma CopyOneExtends<M>(accepted: seq<M>, at: nat, env: Envelope<M>, room: nat)
    requires at <= |accepted| && CutFrom(accepted, env)
    ensures var (next, put, end) := CopyOne(at, env, room);
            && at + |put| <= next <= |accepted|
            && put == accepted[at..at + |put|]
            && (end != EndChannel ==> next == at + |put|)
  {
    ReadExtends(accepted, at, env);
    var (next, r) := ReadFrom(at, env);
    if r.Messages? {
      assert r.msgs == accepted[at..next];
    }
  }

  /** Handing the sink a new value keeps the invariant if it only moves forward
      and any new envelope is cut from the accepted messages at its position. */
  lemma WithSinkKeepsInv<M>(r: Relay<M>, s: Sink<M>)
    requires Inv(r) && SinkOk(s) && s.draining == r.sink.draining && r.sink.seqNo <= s.seqNo
    requires s.seqNo + |s.queue| == |r.accepted| && s.queue == r.accepted[s.seqNo..]
    ensures Inv(WithSink(r, s))
  {
    var r' := WithSink(r, s);
    forall i | 0 <= i < |r'.sent| ensures Faithful(r', r'.sent[i]) {
      if i < |r.sent| {
        assert Faithful(r, r.sent[i]);
      }
    }
    forall i | 0 <= i < |r'.drops| ensures DropOk(r', r'.drops[i]) {
      assert DropOk(r, r.drops[i]);
    }
  }

  lemma LoopHeadOk<M>(s: Sink<M>)
    requires s.writing
    ensures SinkOk(LoopHead(s))
    ensures LoopHead(s).draining == s.draining && LoopHead(s).seqNo == s.seqNo && LoopHead(s).queue == s.queue
  {
  }

  /** A send result leaves the sink well formed and numbered; it moves past the
      acknowledged batch, or on a timeout past the whole queue. */
  lemma AfterSendOk<M>(s: Sink<M>, ok: bool, expired: bool)
    requires SinkOk(s) && s.writer.Sending?
    ensures var s' := AfterSend(s, ok, expired);
            && SinkOk(s') && s'.draining == s.draining
            && s'.seqNo == s.seqNo + (if ok then |s.writer.env.msgs| else if expired then |s.queue| else 0)
            && s'.queue == s.queue[s'.seqNo - s.seqNo..]
  {
    var n := |s.writer.env.msgs|;
    if ok && !s.writer.env.close {
      LoopHeadOk(s.(err := false, seqNo := s.seqNo + n, queue := s.queue[n..]));
    } else if !ok && !expired {
      LoopHeadOk(s.(err := true));
    }
  }

  lemma SendResultKeepsInv<M>(r: Relay<M>, ok: bool, expired: bool)
    requires Inv(r) && r.sink.writer.Sending?
    ensures Inv(Next(r, SendResult(ok, expired)))
  {
    var s' := AfterSend(r.sink, ok, expired);
    AfterSendOk(r.sink, ok, expired);
    assert s'.queue == r.accepted[s'.seqNo..];
    WithSinkKeepsInv(r, s');
  }

  lemma ReceiveKeepsInv<M>(r: Relay<M>, i: nat, room: nat)
    requires Inv(r) && Enabled(r, Receive(i, room))
    ensures Inv(Next(r, Receive(i, room)))
  {
    assert Faithful(r, r.sent[i]);
    CopyOneExtends(r.accepted, r.readAt, r.sent[i], room);
  }

  lemma NextKeepsInv<M>(r: Relay<M>, step: Step<M>)
    requires Inv(r) && Enabled(r, step)
    ensures Inv(Next(r, step))
  {
    match step
    case Accept(m) =>
      var r' := Next(r, step);
      assert r'.accepted[..r.readAt] == r.accepted[..r.readAt];
      forall i | 0 <= i < |r.sent| ensures Faithful(r', r.sent[i]) {
        assert Faithful(r, r.sent[i]);
        assert r'.accepted[..|r.accepted|] == r.accepted || r'.accepted == r.accepted;
      }
    case CloseSink =>
    case WriterRuns =>
      LoopHeadOk(r.sink);
      WithSinkKeepsInv(r, LoopHead(r.sink));
    case SendResult(ok, expired) => SendResultKeepsInv(r, ok, expired);
    case StreamEnds =>
    case Receive(i, room) => ReceiveKeepsInv(r, i, room);
  }

  lemma {:induction false} RunKeepsInv<M>(r: Relay<M>, steps: seq<Step<M>>)
    requires Inv(r) && IsRun(r, steps)
    ensures Inv(Run(r, steps))
    decreases |steps|
  {
    if steps != [] {
      NextKeepsInv(r, steps[0]);
      RunKeepsInv(Next(r, steps[0]), steps[1..]);
    }
  }

  // ---- what every run guarantees ----

  /** No duplicate, no reordering, no gap: what the reader delivers is always a
      prefix of what WriteMessage accepted. */
  lemma PrefixDelivery<M>(closeOnFailure: bool, steps: seq<Step<M>>)
    requires IsRun(Init<M>(closeOnFailure), steps)
    ensures var r := Run(Init<M>(closeOnFailure), steps); r.delivered <= r.accepted
  {
    RunKeepsInv(Init<M>(closeOnFailure), steps);
  }

  /** The sink neither loses nor invents messages, and at most one writer runs:
      when none does, everything queued has been numbered or the stream is closed. */
  lemma SinkConserves<M>(closeOnFailure: bool, steps: seq<Step<M>>)
    requires IsRun(Init<M>(closeOnFailure), steps)
    ensures var r := Run(Init<M>(closeOnFailure), steps);
            && r.sink.seqNo + |r.sink.queue| == |r.accepted|
            && r.sink.queue == r.accepted[r.sink.seqNo..]
            && (r.sink.writing <==> !r.sink.writer.Idle?)
            && (!r.sink.writing ==> r.sink.queue == [] || r.sink.stream != NotClosed)
  {
    RunKeepsInv(Init<M>(closeOnFailure), steps);
  }

  /** A reader that gets through the closing envelope has delivered everything. */
  lemma CleanCloseIsComplete<M>(closeOnFailure: bool, steps: seq<Step<M>>)
    requires IsRun(Init<M>(closeOnFailure), steps)
    ensures var r := Run(Init<M>(closeOnFailure), steps);
            r.copyEnd == EndClosed ==> r.delivered == r.accepted
  {
    RunKeepsInv(Init<M>(closeOnFailure), steps);
  }

  /** A timeout drop is never silent: reading any envelope sent after it either
      reports the gap, or the dropped messages had all been delivered before. */
  lemma DropsAreNeverSilent<M>(closeOnFailure: bool, steps: seq<Step<M>>, d: nat, i: nat, room: nat)
    requires IsRun(Init<M>(closeOnFailure), steps)
    requires var r := Run(Init<M>(closeOnFailure), steps);
             d < |r.drops| && r.drops[d].after <= i && Enabled(r, Receive(i, room))
    ensures var r := Run(Init<M>(closeOnFailure), steps);
            var r' := Next(r, Receive(i, room));
            if r.readAt >= r.sent[i].seqNo
            then r.drops[d].hi <= |r.delivered| && r.delivered <= r.accepted
            else r'.copyEnd == EndDropped && r'.delivered == r.delivered
  {
    RunKeepsInv(Init<M>(closeOnFailure), steps);
    var r := Run(Init<M>(closeOnFailure), steps);
    assert DropOk(r, r.drops[d]);
  }

  /** Every batch reported as sent, and read without error, is delivered to its end. */
  lemma ReadCatchesUp<M>(closeOnFailure: bool, steps: seq<Step<M>>, i: nat, room: nat)
    requires IsRun(Init<M>(closeOnFailure), steps)
    requires Enabled(Run(Init<M>(closeOnFailure), steps), Receive(i, room))
    ensures var r := Run(Init<M>(closeOnFailure), steps);
            var r' := Next(r, Receive(i, room));
            r'.copyEnd in {Copying, EndClosed} ==>
              r.sent[i].seqNo + |r.sent[i].msgs| <= |r'.delivered| && r'.delivered <= r.accepted
  {
    RunKeepsInv(Init<M>(closeOnFailure), steps);
    var r := Run(Init<M>(closeOnFailure), steps);
    ReceiveKeepsInv(r, i, room);
    assert Faithful(r, r.sent[i]);
  }

  /** What the copy loop puts in its channel, for any stream of envelopes cut from
      the accepted messages, in any order and with any repetition. */
  lemma {:induction false} CopyLoopDeliversPrefix<M>(accepted: seq<M>, at: nat, envs: seq<Envelope<M>>, room: nat)
    requires at <= |accepted|
    requires forall e :: e in envs ==> CutFrom(accepted, e)
    ensures var put := CopyAll(at, envs, room).0;
            at + |put| <= |accepted| && put == accepted[at..at + |put|]
    decreases |envs|
  {
    if envs != [] {
      assert envs[0] in envs;
      var (next, put, end) := CopyOne(at, envs[0], room);
      CopyOneExtends(accepted, at, envs[0], room);
      if end == Copying {
        CopyLoopDeliversPrefix(accepted, next, envs[1..], room - |put|);
      }
    }
  }
}
