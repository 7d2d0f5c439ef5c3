/** The signal relay of pkg/routing/signal.go: a sink that batches, retries and
    numbers messages, a reader that checks the numbers, and the bounded channel
    of pkg/routing/messagechannel.go that the reader's copy loop fills.

    Each operation is a method of a class, proved against a function of the
    object's value.  The functions are the steps of the protocol in
    SignalProtocol. */
module SignalRelay {
  import opened Options

  /** What a stream reports from Err(): nil, or why it is closed. */
  datatype StreamErr = NotClosed | StreamClosed | SignalWriteFailed

  /** One relayed request or response: the index of its first message, the
      close mark, and the batch. */
  datatype Envelope<M> = Envelope(seqNo: nat, close: bool, msgs: seq<M>)

  /** The goroutine that runs write(): absent, started but not yet holding the
      lock, or outside the lock with an envelope handed to Stream.Send. */
  datatype Writer<M> = Idle | Started | Sending(env: Envelope<M>)

  /** The value of a sink.  `err` is the writer's own record of the last send. */
  datatype Sink<M> = Sink(
    seqNo: nat,
    queue: seq<M>,
    writing: bool,
    draining: bool,
    stream: StreamErr,
    writer: Writer<M>,
    err: bool,
    closeOnFailure: bool
  )

  function EmptySink<M>(closeOnFailure: bool): Sink<M> {
    Sink(0, [], false, false, NotClosed, Idle, false, closeOnFailure)
  }

  // ---- steps of the sink, one per section of code that holds the lock ----

  /** The first close of a stream decides its error. */
  function CloseStream<M>(s: Sink<M>, cause: StreamErr): Sink<M> {
    if s.stream == NotClosed then s.(stream := cause) else s
  }

  function StartWriter<M>(s: Sink<M>): Sink<M> {
    if s.writing then s else s.(writing := true, writer := Started, err := false)
  }

  datatype WriteResult = Accepted | Refused(cause: StreamErr)

  function Write<M>(s: Sink<M>, m: M): (Sink<M>, WriteResult) {
    if s.stream != NotClosed then (s, Refused(s.stream))
    else if s.draining then (s, Refused(StreamClosed))
    else (StartWriter(s.(queue := s.queue + [m])), Accepted)
  }

  function Drain<M>(s: Sink<M>): Sink<M> {
    StartWriter(s.(draining := true))
  }

  /** The code after write()'s loop. */
  function Leave<M>(s: Sink<M>): Sink<M> {
    var idle := s.(writing := false, writer := Idle);
    var drained := if s.draining then CloseStream(idle, StreamClosed) else idle;
    if s.err && s.closeOnFailure then CloseStream(drained, SignalWriteFailed) else drained
  }

  /** The head of write()'s loop: leave, or take a snapshot of the queue to send. */
  function LoopHead<M>(s: Sink<M>): Sink<M> {
    if (!s.draining && s.queue == []) || s.stream != NotClosed then Leave(s)
    else s.(writer := Sending(Envelope(s.seqNo, s.draining, s.queue)))
  }

  /** The section of write() after Stream.Send, up to the next release of the lock. */
  function AfterSend<M>(s: Sink<M>, ok: bool, expired: bool): Sink<M>
    requires s.writer.Sending? && |s.writer.env.msgs| <= |s.queue|
  {
    if ok then
      var n := |s.writer.env.msgs|;
      var acked := s.(err := false, seqNo := s.seqNo + n, queue := s.queue[n..]);
      if s.writer.env.close then Leave(acked) else LoopHead(acked)
    else if expired then
      Leave(s.(err := true, seqNo := s.seqNo + |s.queue|, queue := []))
    else
      LoopHead(s.(err := true))
  }

  /** What every lock release of a sink keeps: at most one writer, and an
      envelope in flight is still the front of the queue. */
  ghost predicate SinkOk<M>(s: Sink<M>) {
    && (s.writing <==> !s.writer.Idle?)
    && (s.writer.Sending? ==>
          && s.writer.env.seqNo == s.seqNo
          && s.writer.env.msgs <= s.queue
          && (s.writer.env.close ==> s.draining && s.writer.env.msgs == s.queue))
    && (s.writer.Idle? ==> s.queue == [] || s.stream != NotClosed)
  }

  class SignalMessageSink<M> {
    const closeOnFailure: bool
    var seqNo: nat
    var queue: seq<M>
    var writing: bool
    var draining: bool
    var stream: StreamErr
    var writer: Writer<M>
    var err: bool

    ghost function View(): Sink<M>
      reads this
    {
      Sink(seqNo, queue, writing, draining, stream, writer, err, closeOnFailure)
    }

    constructor (closeOnFailure: bool)
      ensures View() == EmptySink(closeOnFailure)
    {
      this.closeOnFailure := closeOnFailure;
      seqNo, queue, writing, draining := 0, [], false, false;
      stream, writer, err := NotClosed, Idle, false;
    }

    method CloseStreamWith(cause: StreamErr)
      modifies this`stream
      ensures View() == CloseStream(old(View()), cause)
    {
      if stream == NotClosed {
        stream := cause;
      }
    }

    method WriteMessage(m: M) returns (r: WriteResult)
      modifies this
      ensures (View(), r) == Write(old(View()), m)
    {
      if stream != NotClosed {
        return Refused(stream);
      } else if draining {
        return Refused(StreamClosed);
      }
      queue := queue + [m];
      if !writing {
        writing := true;
        writer, err := Started, false;
      }
      r := Accepted;
    }

    method Close()
      modifies this
      ensures View() == Drain(old(View()))
    {
      draining := true;
      if !writing {
        writing := true;
        writer, err := Started, false;
      }
    }

    /** write() from the head of its loop to the release of the lock. */
    method EnterLoop()
      modifies this
      ensures View() == LoopHead(old(View()))
    {
      var close := draining;
      if (!close && |queue| == 0) || stream != NotClosed {
        LeaveLoop();
      } else {
        writer := Sending(Envelope(seqNo, close, queue));
      }
    }

    /** write() from the return of Stream.Send to the next release of the lock. */
    method SendReturned(ok: bool, expired: bool)
      requires writer.Sending? && |writer.env.msgs| <= |queue|
      modifies this
      ensures View() == AfterSend(old(View()), ok, expired)
    {
      var close, n := writer.env.close, |writer.env.msgs|;
      err := !ok;
      if !ok && expired {
        seqNo := seqNo + |queue|;
        queue := [];
        LeaveLoop();
        return;
      }
      if ok {
        seqNo := seqNo + n;
        queue := queue[n..];
        if close {
          LeaveLoop();
          return;
        }
      }
      EnterLoop();
    }

    method LeaveLoop()
      modifies this
      ensures View() == Leave(old(View()))
    {
      writing := false;
      writer := Idle;
      if draining {
        CloseStreamWith(StreamClosed);
      }
      if err && closeOnFailure {
        CloseStreamWith(SignalWriteFailed);
      }
    }
  }

  // ---- the reader ----

  datatype ReadResult<M> = Messages(msgs: seq<M>) | MessageDropped

  /** What Read answers when `at` messages have been read, and its new count. */
  function ReadFrom<M>(at: nat, env: Envelope<M>): (r: (nat, ReadResult<M>))
    ensures r.1.MessageDropped? <==> at < env.seqNo
    ensures r.1.MessageDropped? ==> r.0 == at
    ensures r.1.Messages? ==>
      && r.0 == at + |r.1.msgs|
      && r.0 == if at <= env.seqNo + |env.msgs| then env.seqNo + |env.msgs| else at
  {
    if at < env.seqNo then (at, MessageDropped)
    else
      var skip := if at - env.seqNo > |env.msgs| then |env.msgs| else at - env.seqNo;
      (at + |env.msgs[skip..]|, Messages(env.msgs[skip..]))
  }

  class SignalMessageReader<M> {
    var seqNo: nat

    constructor ()
      ensures seqNo == 0
    {
      seqNo := 0;
    }

    method Read(env: Envelope<M>) returns (r: ReadResult<M>)
      modifies this
      ensures (seqNo, r) == ReadFrom(old(seqNo), env)
    {
      if seqNo < env.seqNo {
        return MessageDropped;
      }
      var res := env.msgs;
      if seqNo > env.seqNo {
        var n := seqNo - env.seqNo;
        if n > |res| {
          n := |res|;
        }
        res := res[n..];
      }
      seqNo := seqNo + |res|;
      r := Messages(res);
    }
  }

  // ---- the bounded channel and the copy loop ----

  datatype ChannelErr = NoErr | ErrChannelClosed | ErrChannelFull

  class MessageChannel<M> {
    const size: nat
    var buffer: seq<M>
    var isClosed: bool

    ghost predicate Valid()
      reads this
    {
      |buffer| <= size
    }

    constructor (size: nat)
      ensures Valid() && this.size == size && buffer == [] && !isClosed
    {
      this.size := size;
      buffer, isClosed := [], false;
    }

    method WriteMessage(m: M) returns (e: ChannelErr)
      requires Valid()
      modifies this
      ensures Valid() && isClosed == old(isClosed)
      ensures e == if isClosed then ErrChannelClosed else if |old(buffer)| == size then ErrChannelFull else NoErr
      ensures buffer == if e == NoErr then old(buffer) + [m] else old(buffer)
    {
      if isClosed {
        return ErrChannelClosed;
      }
      if |buffer| == size {
        return ErrChannelFull;
      }
      buffer := buffer + [m];
      e := NoErr;
    }

    /** A receive from ReadChan(): the oldest message, or nothing when empty. */
    method Receive() returns (m: Option<M>)
      requires Valid()
      modifies this
      ensures Valid() && isClosed == old(isClosed)
      ensures m == if old(buffer) == [] then None else Some(old(buffer)[0])
      ensures buffer == if old(buffer) == [] then [] else old(buffer)[1..]
    {
      if |buffer| == 0 {
        return None;
      }
      m := Some(buffer[0]);
      buffer := buffer[1..];
    }

    /** Returns whether the close callback runs: on the first close only. */
    method Close() returns (notify: bool)
      requires Valid()
      modifies this
      ensures Valid() && isClosed && buffer == old(buffer)
      ensures notify <==> !old(isClosed)
    {
      if isClosed {
        return false;
      }
      isClosed := true;
      notify := true;
    }
  }

  datatype CopyEnd = Copying | EndClosed | EndDropped | EndChannel

  /** One pass of the copy loop when `room` more messages fit in the channel:
      the reader's new count, what was put in the channel, and whether the loop ends. */
  function CopyOne<M>(at: nat, env: Envelope<M>, room: nat): (nat, seq<M>, CopyEnd) {
    var (next, r) := ReadFrom(at, env);
    match r
    case MessageDropped => (next, [], EndDropped)
    case Messages(msgs) =>
      if |msgs| > room then (next, msgs[..room], EndChannel)
      else (next, msgs, if env.close then EndClosed else Copying)
  }

  /** The copy loop over a stream of envelopes into a channel nobody empties meanwhile. */
  function CopyAll<M>(at: nat, envs: seq<Envelope<M>>, room: nat): (r: (seq<M>, CopyEnd))
    ensures |r.0| <= room
    decreases |envs|
  {
    if envs == [] then ([], Copying)
    else
      var (next, put, end) := CopyOne(at, envs[0], room);
      if end != Copying then (put, end)
      else
        var (rest, restEnd) := CopyAll(next, envs[1..], room - |put|);
        (put + rest, restEnd)
  }

  /** How many more messages a channel takes. */
  function Room<M>(ch: MessageChannel<M>): nat
    requires ch.Valid()
    reads ch
  {
    if ch.isClosed then 0 else ch.size - |ch.buffer|
  }

  /** Writes until the channel refuses; returns the first error. */
  method PutAll<M>(msgs: seq<M>, ch: MessageChannel<M>) returns (e: ChannelErr)
    requires ch.Valid()
    modifies ch
    ensures ch.Valid() && ch.isClosed == old(ch.isClosed)
    ensures var room := old(Room(ch));
            && ch.buffer == old(ch.buffer) + (if |msgs| > room then msgs[..room] else msgs)
            && e == if |msgs| <= room then NoErr else if ch.isClosed then ErrChannelClosed else ErrChannelFull
  {
    var j := 0;
    e := NoErr;
    while j < |msgs|
      invariant 0 <= j <= |msgs| && ch.Valid() && ch.isClosed == old(ch.isClosed)
      invariant e == NoErr && j <= old(Room(ch)) && ch.buffer == old(ch.buffer) + msgs[..j]
    {
      e := ch.WriteMessage(msgs[j]);
      if e != NoErr {
        return;
      }
      j := j + 1;
    }
  }

  lemma CopyAllStep<M>(at: nat, envs: seq<Envelope<M>>, i: nat, room: nat)
    requires i < |envs|
    ensures var (next, put, stop) := CopyOne(at, envs[i], room);
      CopyAll(at, envs[i..], room)
      == if stop != Copying then (put, stop)
         else var (rest, restEnd) := CopyAll(next, envs[i+1..], room - |put|); (put + rest, restEnd)
  {
    assert envs[i..][0] == envs[i] && envs[i..][1..] == envs[i+1..];
  }

  /** One pass of the copy loop. */
  method CopyEnvelope<M>(env: Envelope<M>, reader: SignalMessageReader<M>, ch: MessageChannel<M>)
    returns (end: CopyEnd, e: ChannelErr)
    requires ch.Valid()
    modifies reader, ch
    ensures ch.Valid() && ch.isClosed == old(ch.isClosed)
    ensures var (next, put, stop) := CopyOne(old(reader.seqNo), env, old(Room(ch)));
            reader.seqNo == next && ch.buffer == old(ch.buffer) + put && end == stop
    ensures e == if end != EndChannel then NoErr else if ch.isClosed then ErrChannelClosed else ErrChannelFull
  {
    ghost var before := ch.buffer;
    var r := reader.Read(env);
    if r.MessageDropped? {
      assert before + [] == before;
      return EndDropped, NoErr;
    }
    e := PutAll(r.msgs, ch);
    if e != NoErr {
      return EndChannel, e;
    }
    end := if env.close then EndClosed else Copying;
  }

  /** Why the loop ended, and the channel's error if that is why. */
  method CopySignalStreamToMessageChannel<M>(envs: seq<Envelope<M>>, ch: MessageChannel<M>)
    returns (end: CopyEnd, e: ChannelErr)
    requires ch.Valid()
    modifies ch
    ensures ch.Valid() && ch.isClosed == old(ch.isClosed)
    ensures var all := CopyAll(0, envs, old(Room(ch)));
            ch.buffer == old(ch.buffer) + all.0 && end == all.1
    ensures e == if end != EndChannel then NoErr else if ch.isClosed then ErrChannelClosed else ErrChannelFull
  {
    var reader := new SignalMessageReader<M>();
    ghost var before, all := ch.buffer, CopyAll(0, envs, Room(ch));
    assert envs[0..] == envs;
    ghost var left := all;
    var i := 0;
    while i < |envs|
      invariant 0 <= i <= |envs| && ch.Valid() && ch.isClosed == old(ch.isClosed)
      invariant left == CopyAll(reader.seqNo, envs[i..], Room(ch))
      invariant Remains(before, all, ch.buffer, left)
    {
      ghost var start, room := ch.buffer, Room(ch);
      CopyAllStep(reader.seqNo, envs, i, room);
      ghost var (next, put, stop) := CopyOne(reader.seqNo, envs[i], room);
      end, e := CopyEnvelope(envs[i], reader, ch);
      if end != Copying {
        return;
      }
      left := CopyAll(next, envs[i+1..], room - |put|);
      RemainsStep(before, all, start, put, left);
      i := i + 1;
    }
    end, e := Copying, NoErr;
  }

  /** With `buffer` in the channel, `left` is what remains of the copy `all` begun at `before`. */
  ghost predicate Remains<M>(before: seq<M>, all: (seq<M>, CopyEnd), buffer: seq<M>, left: (seq<M>, CopyEnd)) {
    before + all.0 == buffer + left.0 && all.1 == left.1
  }

  lemma RemainsStep<M>(before: seq<M>, all: (seq<M>, CopyEnd), buffer: seq<M>, put: seq<M>, rest: (seq<M>, CopyEnd))
    requires Remains(before, all, buffer, (put + rest.0, rest.1))
    ensures Remains(before, all, buffer + put, rest)
  {
    assert (buffer + put) + rest.0 == buffer + (put + rest.0);
  }
}
