/** What the sink of SignalProtocol owes its callers: when it accepts a message, when its
    stream closes, and that nothing is dropped but by a timeout. */
module SignalAcceptance {
  import opened SignalRelay
  import opened SignalProtocol

  /** A send whose retries have run out of time. */
  predicate TimesOut<M>(step: Step<M>) {
    step.SendResult? && !step.ok && step.expired
  }

  /** The messages offered in a run, in order. */
  function Offered<M>(steps: seq<Step<M>>): seq<M>
    decreases |steps|
  {
    if steps == [] then []
    else OfferedBy(steps[0]) + Offered(steps[1..])
  }

  // ---- when a message is accepted ----

  lemma {:induction false} DrainingExactly<M>(r: Relay<M>, steps: seq<Step<M>>)
    requires IsRun(r, steps)
    ensures Run(r, steps).sink.draining <==> r.sink.draining || CloseSink in steps
    decreases |steps|
  {
    if steps != [] {
      assert CloseSink in steps <==> steps[0] == CloseSink || CloseSink in steps[1..];
      DrainingExactly(Next(r, steps[0]), steps[1..]);
    }
  }

  /** In every run a message is accepted, and queued last, if and only if the sink has not been
      closed and its stream is open, whether or not a writer is at work. */
  lemma AcceptsExactlyWhileOpen<M>(closeOnFailure: bool, steps: seq<Step<M>>, m: M)
    requires IsRun(Init(closeOnFailure), steps)
    ensures var r := Run(Init(closeOnFailure), steps); var after := Next(r, Accept(m));
      if CloseSink !in steps && r.sink.stream == NotClosed then
        after.accepted == r.accepted + [m] && after.sink.queue == r.sink.queue + [m] && !after.sink.writer.Idle?
      else after == r
  {
    DrainingExactly(Init(closeOnFailure), steps);
    SinkConserves(closeOnFailure, steps);
    RunKeepsInv(Init(closeOnFailure), steps);
  }

  // ---- when the stream closes ----

  /** The step closes the stream: it ends from outside, the closing envelope is acknowledged,
      or a send times out on a sink that is to close then, or is draining. */
  predicate Closes<M>(r: Relay<M>, step: Step<M>)
    requires Enabled(r, step)
  {
    || step == StreamEnds
    || (step.SendResult? && step.ok && r.sink.writer.env.close)
    || (TimesOut(step) && (r.sink.closeOnFailure || r.sink.draining))
  }

  /** What every state of a run keeps about its writer. */
  ghost predicate WriterOk<M>(r: Relay<M>) {
    && SinkOk(r.sink)
    && (r.sink.writer.Started? ==> !r.sink.err)
    && (r.sink.writer.Sending? ==> r.sink.writer.env.close || r.sink.writer.env.msgs != [])
    && (r.sink.writer.Sending? ==> r.sink.writer.env in r.sent)
    && (r.sink.draining && r.sink.writer.Idle? ==> r.sink.stream != NotClosed)
  }

  /** What a step does to the writer and the stream. */
  ghost predicate StepOk<M>(r: Relay<M>, step: Step<M>)
    requires Enabled(r, step)
  {
    && WriterOk(Next(r, step))
    && Next(r, step).sink.closeOnFailure == r.sink.closeOnFailure
    && (Next(r, step).sink.stream != NotClosed <==> r.sink.stream != NotClosed || Closes(r, step))
  }

  lemma NextKeepsWriter<M>(r: Relay<M>, step: Step<M>)
    requires WriterOk(r) && Enabled(r, step)
    ensures StepOk(r, step)
  {
    match step
    case Accept(m) => AcceptKeepsWriter(r, m);
    case WriterRuns => RunsKeepsWriter(r);
    case SendResult(ok, expired) => ResultKeepsWriter(r, ok, expired);
    case _ =>
  }

  lemma AcceptKeepsWriter<M>(r: Relay<M>, m: M)
    requires WriterOk(r)
    ensures StepOk(r, Accept(m))
  {
  }

  lemma RunsKeepsWriter<M>(r: Relay<M>)
    requires WriterOk(r) && Enabled(r, WriterRuns)
    ensures StepOk(r, WriterRuns)
  {
  }

  lemma ResultKeepsWriter<M>(r: Relay<M>, ok: bool, expired: bool)
    requires WriterOk(r) && Enabled(r, SendResult(ok, expired))
    ensures StepOk(r, SendResult(ok, expired))
  {
    AfterSendOk(r.sink, ok, expired);
  }

  predicate SomeCloses<M>(r: Relay<M>, steps: seq<Step<M>>)
    requires IsRun(r, steps)
    decreases |steps|
  {
    steps != [] && (Closes(r, steps[0]) || SomeCloses(Next(r, steps[0]), steps[1..]))
  }

  lemma {:induction false} ClosedExactly<M>(r: Relay<M>, steps: seq<Step<M>>)
    requires WriterOk(r) && IsRun(r, steps)
    ensures WriterOk(Run(r, steps))
    ensures Run(r, steps).sink.stream != NotClosed <==> r.sink.stream != NotClosed || SomeCloses(r, steps)
    decreases |steps|
  {
    if steps != [] {
      NextKeepsWriter(r, steps[0]);
      ClosedExactly(Next(r, steps[0]), steps[1..]);
    }
  }

  /** In every run the stream is closed if and only if some step closed it; and a sink that
      drains ends with its stream closed. */
  lemma StreamClosesExactly<M>(closeOnFailure: bool, steps: seq<Step<M>>)
    requires IsRun(Init(closeOnFailure), steps)
    ensures var sink := Run(Init(closeOnFailure), steps).sink;
      && (sink.stream != NotClosed <==> SomeCloses(Init(closeOnFailure), steps))
      && (sink.draining && sink.writer.Idle? ==> sink.stream != NotClosed)
  {
    ClosedExactly(Init(closeOnFailure), steps);
  }

  /** The step closes neither the stream nor the sink. */
  predicate Calm<M>(step: Step<M>, closeOnFailure: bool) {
    step != CloseSink && step != StreamEnds && (closeOnFailure ==> !TimesOut(step))
  }

  predicate Undisturbed<M>(steps: seq<Step<M>>, closeOnFailure: bool)
    decreases |steps|
  {
    steps != [] ==> Calm(steps[0], closeOnFailure) && Undisturbed(steps[1..], closeOnFailure)
  }

  ghost predicate Open<M>(r: Relay<M>) {
    WriterOk(r) && !r.sink.draining && r.sink.stream == NotClosed
  }

  function OfferedBy<M>(step: Step<M>): seq<M> {
    if step.Accept? then [step.m] else []
  }

  /** An open sink accepts what it is offered, and stays open. */
  lemma OpenStep<M>(r: Relay<M>, step: Step<M>)
    requires Open(r) && Enabled(r, step) && Calm(step, r.sink.closeOnFailure)
    ensures Open(Next(r, step)) && Next(r, step).sink.closeOnFailure == r.sink.closeOnFailure
    ensures Next(r, step).accepted == r.accepted + OfferedBy(step)
  {
    NextKeepsWriter(r, step);
    assert r.accepted + [] == r.accepted;
    if step.SendResult? {
      AfterSendOk(r.sink, step.ok, step.expired);
    }
  }

  lemma Associates<M>(a: seq<M>, b: seq<M>, c: seq<M>)
    ensures (a + b) + c == a + (b + c)
  {
  }

  lemma {:induction false} AllOfferedFrom<M>(r: Relay<M>, steps: seq<Step<M>>)
    requires Open(r) && IsRun(r, steps) && Undisturbed(steps, r.sink.closeOnFailure)
    ensures Run(r, steps).accepted == r.accepted + Offered(steps)
    decreases |steps|
  {
    if steps == [] {
      assert r.accepted + [] == r.accepted;
    } else {
      OpenStep(r, steps[0]);
      AllOfferedFrom(Next(r, steps[0]), steps[1..]);
      Associates(r.accepted, OfferedBy(steps[0]), Offered(steps[1..]));
    }
  }

  /** So in a run without a close, an end of the stream or a timeout that is to close it,
      everything offered is accepted, in order. */
  lemma EverythingOfferedIsAccepted<M>(closeOnFailure: bool, steps: seq<Step<M>>)
    requires IsRun(Init(closeOnFailure), steps) && Undisturbed(steps, closeOnFailure)
    ensures Run(Init(closeOnFailure), steps).accepted == Offered(steps)
  {
    AllOfferedFrom(Init(closeOnFailure), steps);
    var none: seq<M> := [];
    assert none + Offered(steps) == Offered(steps);
  }

  // ---- what becomes of the accepted messages ----

  /** The messages of acknowledged envelopes, and those dropped by timeouts. */
  function Acknowledged<M>(r: Relay<M>, steps: seq<Step<M>>): nat
    requires IsRun(r, steps)
    decreases |steps|
  {
    if steps == [] then 0
    else
      (if steps[0].SendResult? && steps[0].ok then |r.sink.writer.env.msgs| else 0)
      + Acknowledged(Next(r, steps[0]), steps[1..])
  }

  function DroppedByTimeouts<M>(r: Relay<M>, steps: seq<Step<M>>): nat
    requires IsRun(r, steps)
    decreases |steps|
  {
    if steps == [] then 0
    else (if TimesOut(steps[0]) then |r.sink.queue| else 0) + DroppedByTimeouts(Next(r, steps[0]), steps[1..])
  }

  lemma {:induction false} NumbersAddUp<M>(r: Relay<M>, steps: seq<Step<M>>)
    requires WriterOk(r) && IsRun(r, steps)
    ensures Run(r, steps).sink.seqNo == r.sink.seqNo + Acknowledged(r, steps) + DroppedByTimeouts(r, steps)
    decreases |steps|
  {
    if steps != [] {
      NumberStep(r, steps[0]);
      NextKeepsWriter(r, steps[0]);
      NumbersAddUp(Next(r, steps[0]), steps[1..]);
    }
  }

  lemma NumberStep<M>(r: Relay<M>, step: Step<M>)
    requires SinkOk(r.sink) && Enabled(r, step)
    ensures Next(r, step).sink.seqNo
         == r.sink.seqNo + (if step.SendResult? && step.ok then |r.sink.writer.env.msgs| else if TimesOut(step) then |r.sink.queue| else 0)
  {
    match step
    case SendResult(ok, expired) => AfterSendOk(r.sink, ok, expired);
    case WriterRuns => LoopHeadOk(r.sink);
    case _ =>
  }

  /** In every run each accepted message has been acknowledged, or dropped by a timeout, or is
      still queued. */
  lemma AcceptedAreAccountedFor<M>(closeOnFailure: bool, steps: seq<Step<M>>)
    requires IsRun(Init(closeOnFailure), steps)
    ensures var r := Run(Init(closeOnFailure), steps);
      |r.accepted| == Acknowledged(Init(closeOnFailure), steps) + DroppedByTimeouts(Init(closeOnFailure), steps) + |r.sink.queue|
  {
    NumbersAddUp(Init(closeOnFailure), steps);
    SinkConserves(closeOnFailure, steps);
  }

  /** The envelope in flight holds the whole queue, and closes exactly when the sink drains. */
  ghost predicate WholeInFlight<M>(s: Sink<M>) {
    s.writer.Sending? ==> s.writer.env.seqNo == s.seqNo && s.writer.env.msgs == s.queue && s.writer.env.close == s.draining
  }

  lemma HeadTakesWhole<M>(s: Sink<M>)
    ensures WholeInFlight(LoopHead(s))
  {
  }

  lemma ResultTakesWhole<M>(s: Sink<M>, ok: bool, expired: bool)
    requires SinkOk(s) && s.writer.Sending?
    ensures WholeInFlight(AfterSend(s, ok, expired))
  {
    var n := |s.writer.env.msgs|;
    if ok && !s.writer.env.close {
      HeadTakesWhole(s.(err := false, seqNo := s.seqNo + n, queue := s.queue[n..]));
    } else if !ok && !expired {
      HeadTakesWhole(s.(err := true));
    }
  }

  /** An envelope handed to the stream holds everything accepted and not yet numbered, and
      closes exactly when the sink drains. */
  lemma SnapshotIsWhole<M>(closeOnFailure: bool, steps: seq<Step<M>>, step: Step<M>)
    requires IsRun(Init(closeOnFailure), steps) && Enabled(Run(Init(closeOnFailure), steps), step)
    ensures var r := Run(Init(closeOnFailure), steps); var after := Next(r, step);
      |after.sent| > |r.sent| ==>
        var env := after.sent[|after.sent|-1];
        env.seqNo + |env.msgs| == |after.accepted| && (env.close <==> after.sink.draining)
  {
    RunKeepsInv(Init(closeOnFailure), steps);
    SnapshotStep(Run(Init(closeOnFailure), steps), step);
  }

  lemma SnapshotStep<M>(r: Relay<M>, step: Step<M>)
    requires Inv(r) && Enabled(r, step)
    ensures var after := Next(r, step);
      |after.sent| > |r.sent| ==>
        var env := after.sent[|after.sent|-1];
        env.seqNo + |env.msgs| == |after.accepted| && (env.close <==> after.sink.draining)
  {
    NextKeepsInv(r, step);
    match step
    case WriterRuns => HeadTakesWhole(r.sink);
    case SendResult(ok, expired) => ResultTakesWhole(r.sink, ok, expired);
    case _ =>
  }
}
