/** A connection reassembles messages from a byte stream that delivers them in arbitrary pieces. */
module Connections {
  import opened Signals
  import opened Codec

  const BUFFER_SIZE: nat := 128

  /** What successive reads of the non-blocking stream find. */
  datatype Arrival = Chunk(bytes: seq<byte>) | WouldBlock | Closed | Broken

  datatype IoError = ConnectionReset | OtherError

  /** One read on the stream. */
  datatype Piece = Bytes(bytes: seq<byte>) | Blocked | Error(error: IoError)

  datatype Received = Got(message: Message) | Nothing | Failed(error: IoError)

  /** The bytes still to come. */
  function Unread(incoming: seq<Arrival>): seq<byte> {
    if incoming == [] then []
    else (if incoming[0].Chunk? then incoming[0].bytes else []) + Unread(incoming[1..])
  }

  /** Chunks bring at least one byte; a read of zero bytes is how a closed stream shows. */
  ghost predicate Flowing(incoming: seq<Arrival>) {
    forall i :: 0 <= i < |incoming| ==> incoming[i].Chunk? ==> incoming[i].bytes != []
  }

  /** The bytes that can be read before the stream would block, is closed or breaks. */
  function Leading(incoming: seq<Arrival>): seq<byte> {
    if incoming == [] || !incoming[0].Chunk? then [] else incoming[0].bytes + Leading(incoming[1..])
  }

  /** What stops the reading: with nothing left, the stream would block. */
  function Stop(incoming: seq<Arrival>): Arrival {
    if incoming == [] then WouldBlock else if incoming[0].Chunk? then Stop(incoming[1..]) else incoming[0]
  }

  /** What there is to read after that. */
  function Behind(incoming: seq<Arrival>): seq<Arrival> {
    if incoming == [] then [] else if incoming[0].Chunk? then Behind(incoming[1..]) else incoming[1..]
  }

  /** The three in terms of positions: the first arrival that is no chunk is at k, if there is one. */
  lemma {:induction false} UpToStop(incoming: seq<Arrival>) returns (k: nat)
    ensures k <= |incoming| && (forall i :: 0 <= i < k ==> incoming[i].Chunk?)
    ensures Leading(incoming) == Unread(incoming[..k])
    ensures if k == |incoming| then Stop(incoming) == WouldBlock && Behind(incoming) == []
            else Stop(incoming) == incoming[k] && !incoming[k].Chunk? && Behind(incoming) == incoming[k + 1..]
  {
    if incoming == [] || !incoming[0].Chunk? {
      k := 0;
    } else {
      var j := UpToStop(incoming[1..]);
      k := j + 1;
      assert incoming[..k][1..] == incoming[1..][..j];
    }
  }

  /** The error with which a read fails where the stream ends. */
  function Ends(e: IoError): Arrival { if e.ConnectionReset? then Closed else Broken }

  /** A read takes the next leading bytes, or finds what stops the reading. */
  ghost predicate Reads(incoming: seq<Arrival>, p: Piece, rest: seq<Arrival>) {
    if p.Bytes? && p.bytes != [] then
      Leading(incoming) == p.bytes + Leading(rest) && Stop(incoming) == Stop(rest) && Behind(incoming) == Behind(rest)
    else
      && Leading(incoming) == [] && rest == Behind(incoming)
      && Stop(incoming) == match p case Bytes(_) => Closed case Blocked => WouldBlock case Error(e) => Ends(e)
  }

  /** At most `space` bytes of the next chunk; what does not fit stays in the stream. With no
      space, or once the stream is closed, zero bytes are read. */
  function StreamRead(incoming: seq<Arrival>, space: nat): (r: (Piece, seq<Arrival>))
    requires Flowing(incoming)
    ensures Flowing(r.1)
    ensures r.0.Bytes? ==> |r.0.bytes| <= space && Unread(incoming) == r.0.bytes + Unread(r.1)
    ensures !r.0.Bytes? ==> Unread(incoming) == Unread(r.1)
    ensures r.0 == Bytes([]) && space > 0 ==> Closed in incoming
    ensures Closed in r.1 ==> Closed in incoming
    ensures r.0.Bytes? && |r.0.bytes| < space ==> |r.1| < |incoming|
    ensures space > 0 ==> Reads(incoming, r.0, r.1)
  {
    if space == 0 then (Bytes([]), incoming)
    else if incoming == [] then (Blocked, [])
    else
      match incoming[0]
      case WouldBlock => (Blocked, incoming[1..])
      case Closed => (Bytes([]), incoming[1..])
      case Broken => (Error(OtherError), incoming[1..])
      case Chunk(bs) =>
        if |bs| <= space then (Bytes(bs), incoming[1..])
        else
          assert ([Chunk(bs[space..])] + incoming[1..])[1..] == incoming[1..];
          (Bytes(bs[..space]), [Chunk(bs[space..])] + incoming[1..])
  }

  /** The window does not hold all of the first pending message. */
  ghost predicate Incomplete(window: seq<byte>, pending: seq<Message>) {
    pending == [] || |window| < |Encode(pending[0])|
  }

  /** What is parsed from the front of the window is the first pending message. */
  lemma ParseStep(window: seq<byte>, unread: seq<byte>, pending: seq<Message>)
    requires AllDecodable(pending) && window + unread == EncodeAll(pending)
    ensures var d := TryDecode(window);
            && !d.Panic? && (d.NeedMore? <==> Incomplete(window, pending))
            && (d.Decoded? ==>
                && pending != [] && d.message == pending[0] && d.consumed <= |window|
                && window == Encode(pending[0]) + window[d.consumed..]
                && window[d.consumed..] + unread == EncodeAll(pending[1..]))
  {
    assert window <= EncodeAll(pending);
    FrontOfStream(pending, window);
    if !Incomplete(window, pending) {
      WithoutFront(window, unread, Encode(pending[0]), EncodeAll(pending[1..]));
    }
  }

  lemma WithoutFront(window: seq<byte>, unread: seq<byte>, front: seq<byte>, rest: seq<byte>)
    requires window + unread == front + rest && |window| >= |front|
    ensures window[|front|..] + unread == rest && window == front + window[|front|..]
  {
    assert window[..|front|] == (window + unread)[..|front|] == (front + rest)[..|front|] == front;
    assert (window + unread)[|front|..] == window[|front|..] + unread;
    assert (front + rest)[|front|..] == rest;
  }

  /** What a connection has and may get without waiting: the window, what its stream will deliver,
      whether stream and buffer are marked as readable, and the messages not returned yet. */
  datatype Front = Front(window: seq<byte>, incoming: seq<Arrival>, readable: bool, buffered: bool, pending: seq<Message>)

  /** The bytes within reach. */
  function Available(f: Front): seq<byte> { f.window + if f.readable then Leading(f.incoming) else [] }

  function Later(f: Front): seq<Arrival> { if f.readable then Behind(f.incoming) else f.incoming }

  function End(f: Front): Arrival { if f.readable then Stop(f.incoming) else WouldBlock }

  /** There is no complete message within reach, and the stream is in order. */
  ghost predicate Waits(f: Front) { Incomplete(Available(f), f.pending) && End(f).WouldBlock? }

  /** The stream was read until it blocked, and the buffer was looked at. */
  function Exhausted(f: Front): Front { Front(Available(f), Later(f), false, false, f.pending) }

  /** Reading on has changed nothing about what is within reach. */
  ghost predicate SameReach(f: Front, g: Front) {
    f.readable && g.readable && Available(g) == Available(f) && Later(g) == Later(f) && End(g) == End(f)
  }

  /** From f to g the message m was taken off the bytes within reach, and nothing was skipped. */
  ghost predicate Takes(f: Front, m: Message, g: Front) {
    && f.pending == [m] + g.pending && Available(f) == Encode(m) + Available(g)
    && Later(g) == Later(f) && End(g) == End(f)
  }

  lemma ReadsOn(f: Front, g: Front, bs: seq<byte>, h: Front)
    requires SameReach(f, g) && bs != [] && Reads(g.incoming, Bytes(bs), h.incoming)
    requires h == Front(g.window + bs, h.incoming, true, true, g.pending)
    ensures SameReach(f, h)
  {
  }

  lemma TakesAtOnce(f: Front, m: Message, g: Front)
    requires f.pending == [m] + g.pending && f.window == Encode(m) + g.window
    requires g.incoming == f.incoming && g.readable == f.readable
    ensures Takes(f, m, g) && !Waits(f)
  {
  }

  lemma TakesLater(f: Front, h: Front, m: Message, g: Front)
    requires f.pending == h.pending && Takes(h, m, g)
    requires SameReach(f, h) || (f.readable && End(f).WouldBlock? && h == Exhausted(f).(buffered := h.buffered))
    ensures Takes(f, m, g) && !Waits(f)
  {
  }

  lemma FailsNotWaits(f: Front, e: IoError, g: Front)
    requires Fails(f, e, g)
    ensures !Waits(f) && !Stop(f.incoming).WouldBlock?
  {
  }

  /** From f to g the stream was read up to the place where it ends with e. */
  ghost predicate Fails(f: Front, e: IoError, g: Front) {
    f.readable && Stop(f.incoming) == Ends(e) && g == Exhausted(f).(readable := true, buffered := g.buffered)
  }

  class Connection {
    /** The stream: what it will deliver, and what was written to it. */
    var incoming: seq<Arrival>
    var outgoing: seq<byte>
    const recvBuffer: array<byte>
    var recvBegin: nat
    var recvEnd: nat
    const sendBuffer: array<byte>
    var streamReadable: bool
    var bufferReadable: bool
    /** The messages the peer sends, those returned by `Read` so far and those not yet. */
    ghost var returned: seq<Message>
    ghost var pending: seq<Message>
    /** The part of their encodings that has not been put into the stream. */
    ghost const unsent: seq<byte>

    function Window(): seq<byte>
      requires recvBegin <= recvEnd <= recvBuffer.Length
      reads this, recvBuffer
    {
      recvBuffer[recvBegin..recvEnd]
    }

    /** The buffered bytes, the unread and the unsent ones are the encodings of the pending messages;
        the window starts in the first half of the buffer; and while the buffer is marked as not
        readable there is no complete message in it. */
    ghost predicate Valid()
      reads this, recvBuffer
    {
      && recvBuffer.Length == BUFFER_SIZE && sendBuffer.Length == BUFFER_SIZE && recvBuffer != sendBuffer
      && recvBegin <= BUFFER_SIZE / 2 && recvBegin <= recvEnd <= BUFFER_SIZE
      && Flowing(incoming) && AllDecodable(pending)
      && Window() + (Unread(incoming) + unsent) == EncodeAll(pending)
      && (!bufferReadable ==> Incomplete(Window(), pending))
    }

    constructor (incoming: seq<Arrival>, ghost messages: seq<Message>, ghost unsent: seq<byte>)
      requires Flowing(incoming) && AllDecodable(messages) && Unread(incoming) + unsent == EncodeAll(messages)
      ensures Valid() && fresh(recvBuffer) && fresh(sendBuffer)
      ensures returned == [] && pending == messages && !IsReadable()
    {
      this.incoming, outgoing := incoming, [];
      recvBuffer := new byte[BUFFER_SIZE](_ => 0);
      sendBuffer := new byte[BUFFER_SIZE](_ => 0);
      recvBegin, recvEnd := 0, 0;
      streamReadable, bufferReadable := false, false;
      returned, pending, this.unsent := [], messages, unsent;
      new;
      assert Window() == [];
    }

    ghost function Now(): Front
      requires recvBegin <= recvEnd <= recvBuffer.Length
      reads this, recvBuffer
    {
      Front(Window(), incoming, streamReadable, bufferReadable, pending)
    }

    predicate IsReadable()
      reads this
    {
      streamReadable || bufferReadable
    }

    /** Not marked as readable, and rightly so as far as the buffer is concerned. */
    ghost predicate Quiet()
      reads this, recvBuffer
    {
      Valid() && !IsReadable() && Incomplete(Window(), pending)
    }

    /** Called when the poll reports that the stream may be readable. */
    method SetStreamReadable()
      requires Valid()
      modifies this`streamReadable
      ensures Valid() && Now() == old(Now()).(readable := true)
    {
      streamReadable := true;
    }

    /** Returns the next message of the peer if it is complete in the buffer, or in what the stream has
        at the moment; nothing is skipped. It returns Nothing exactly if no message is within reach,
        and only after reading until the stream would block. It fails exactly if the stream ends
        before a message is complete and before the buffer is full. */
    method Read() returns (r: Received)
      requires Valid()
      modifies this`incoming, this`recvBegin, this`recvEnd, this`streamReadable, this`bufferReadable,
               this`returned, this`pending, recvBuffer
      ensures Valid()
      ensures r.Got? ==> old(pending) == [r.message] + pending && returned == old(returned) + [r.message]
      ensures !r.Got? ==> pending == old(pending) && returned == old(returned)
      ensures r.Got? ==> Takes(old(Now()), r.message, Now())
      ensures r.Nothing? ==> Now() == Exhausted(old(Now()))
      ensures r.Nothing? <==> Waits(old(Now()))
      ensures r.Failed? ==> Fails(old(Now()), r.error, Now())
      ensures r.Failed? <==> old(streamReadable && Incomplete(Window(), pending) &&
                                 recvEnd + |Leading(incoming)| < BUFFER_SIZE && !Stop(incoming).WouldBlock?)
      ensures r.Nothing? ==> Quiet()
      ensures r.Nothing? && Unread(incoming) == [] && unsent == [] ==> pending == []
      ensures r.Failed? ==> old(streamReadable)
      ensures r == Failed(ConnectionReset) ==> Closed in old(incoming)
    {
      ghost var before := Now();
      if bufferReadable {
        var m := ParseFromBuffer();
        if m.Some? {
          TakesAtOnce(before, m.value, Now());
          return Got(m.value);
        }
      }
      if streamReadable {
        r := ReadOn();
      } else {
        Roomy();
        r := Nothing;
      }
    }

    /** The rest of `Read`, for a readable stream and a buffer without a complete message. */
    method ReadOn() returns (r: Received)
      requires Valid() && !bufferReadable && streamReadable
      modifies this`incoming, this`recvBegin, this`recvEnd, this`streamReadable, this`bufferReadable,
               this`returned, this`pending, recvBuffer
      ensures Valid()
      ensures r.Got? ==> Takes(old(Now()), r.message, Now()) && returned == old(returned) + [r.message]
      ensures !r.Got? ==> pending == old(pending) && returned == old(returned)
      ensures r.Nothing? ==> Now() == Exhausted(old(Now())) && Quiet()
      ensures r.Nothing? <==> Waits(old(Now()))
      ensures r.Nothing? && Unread(incoming) == [] && unsent == [] ==> pending == []
      ensures r.Failed? ==> Fails(old(Now()), r.error, Now())
      ensures r.Failed? <==> old(recvEnd + |Leading(incoming)|) < BUFFER_SIZE && !Stop(old(incoming)).WouldBlock?
      ensures r == Failed(ConnectionReset) ==> Closed in old(incoming)
    {
      ghost var before := Now();
      Roomy();
      var error := ReadFromStream();
      if error.Some? {
        FailsNotWaits(before, error.value, Now());
        return Failed(error.value);
      }
      ghost var middle := Now();
      if bufferReadable {
        var m := ParseFromBuffer();
        if m.Some? {
          TakesAtOnce(middle, m.value, Now());
          TakesLater(before, middle, m.value, Now());
          return Got(m.value);
        }
      }
      Roomy();
      return Nothing;
    }

    /** A buffer without a complete message has room: the window starts in the first half and is
        shorter than one message. */
    lemma Roomy()
      requires Valid() && Incomplete(Window(), pending)
      ensures recvEnd < BUFFER_SIZE / 2 + 26
      ensures Unread(incoming) == [] && unsent == [] ==> pending == []
    {
      if Unread(incoming) == [] && unsent == [] {
        assert Window() == EncodeAll(pending);
      }
    }

    /** Reads until the stream would block or the buffer is full. It is never called with a full
        buffer, so reading zero bytes always means that the peer closed the stream. */
    method ReadFromStream() returns (error: Option<IoError>)
      requires Valid() && !bufferReadable && streamReadable && recvEnd < BUFFER_SIZE
      modifies this`incoming, this`recvEnd, this`streamReadable, this`bufferReadable, recvBuffer
      ensures Valid() && old(recvEnd) <= recvEnd
      ensures error.None? ==> !streamReadable || (recvEnd == BUFFER_SIZE && bufferReadable)
      ensures error == Some(ConnectionReset) ==> Closed in old(incoming)
      ensures recvBegin == old(recvBegin) && pending == old(pending)
      ensures error.None? && streamReadable ==> SameReach(old(Now()), Now())
      ensures error.None? && !streamReadable ==>
                End(old(Now())).WouldBlock? && Now() == Exhausted(old(Now())).(buffered := bufferReadable)
      ensures error.Some? ==> Fails(old(Now()), error.value, Now()) && recvEnd < BUFFER_SIZE
    {
      ghost var before := Now();
      while true
        invariant Valid() && old(recvEnd) <= recvEnd < BUFFER_SIZE && streamReadable
        invariant Closed in incoming ==> Closed in old(incoming)
        invariant SameReach(before, Now()) && recvBegin == old(recvBegin) && pending == old(pending)
        decreases |incoming|
      {
        ghost var now := Now();
        var read := StreamRead(incoming, recvBuffer.Length - recvEnd);
        match read.0 {
          case Bytes(bs) =>
            if bs == [] {
              Skip(read.1);
              return Some(ConnectionReset);
            }
            Append(bs, read.1);
            ReadsOn(before, now, bs, Now());
            if recvEnd == recvBuffer.Length {
              return None;
            }
          case Blocked =>
            Skip(read.1);
            streamReadable := false;
            return None;
          case Error(e) =>
            Skip(read.1);
            return Some(e);
        }
      }
    }

    method Skip(rest: seq<Arrival>)
      requires Valid() && Flowing(rest) && Unread(rest) == Unread(incoming)
      modifies this`incoming
      ensures Valid() && incoming == rest && Window() == old(Window())
    {
      incoming := rest;
    }

    /** Bytes from the stream go behind the window. */
    method Append(bs: seq<byte>, rest: seq<Arrival>)
      requires Valid() && 0 < |bs| <= BUFFER_SIZE - recvEnd && Flowing(rest) && Unread(incoming) == bs + Unread(rest)
      modifies this`incoming, this`recvEnd, this`bufferReadable, recvBuffer
      ensures Valid() && bufferReadable && recvEnd == old(recvEnd) + |bs| && incoming == rest
      ensures Window() == old(Window()) + bs
    {
      Regroup(bs, Unread(rest), unsent);
      Regroup(Window(), bs, Unread(rest) + unsent);
      Store(bs);
      incoming := rest;
      bufferReadable := true;
    }

    method Store(bs: seq<byte>)
      requires recvBuffer.Length == BUFFER_SIZE && recvBegin <= recvEnd && recvEnd + |bs| <= BUFFER_SIZE
      modifies this`recvEnd, recvBuffer
      ensures recvEnd == old(recvEnd) + |bs| && Window() == old(Window()) + bs
    {
      forall i | 0 <= i < |bs| {
        recvBuffer[recvEnd + i] := bs[i];
      }
      recvEnd := recvEnd + |bs|;
      assert recvBuffer[recvBegin..recvEnd] == old(recvBuffer[recvBegin..recvEnd]) + bs;
    }

    /** Takes the first message out of the buffer if it is there completely. */
    method ParseFromBuffer() returns (r: Option<Message>)
      requires Valid() && bufferReadable
      modifies this`recvBegin, this`recvEnd, this`bufferReadable, this`returned, this`pending, recvBuffer
      ensures Valid()
      ensures r.None? ==> Incomplete(Window(), pending) && !bufferReadable && recvEnd == old(recvEnd)
      ensures r.None? ==> Window() == old(Window()) && pending == old(pending) && returned == old(returned)
      ensures r.Some? ==> old(pending) == [r.value] + pending && returned == old(returned) + [r.value]
      ensures r.None? <==> Incomplete(old(Window()), old(pending))
      ensures r.Some? ==> old(Window()) == Encode(r.value) + Window()
    {
      ParseStep(Window(), Unread(incoming) + unsent, pending);
      var decoded := TryDecode(recvBuffer[recvBegin..recvEnd]);
      if decoded.NeedMore? {
        bufferReadable := false;
        return None;
      }
      returned, pending := returned + [pending[0]], pending[1..];
      Advance(decoded.consumed);
      return Some(decoded.message);
    }

    /** The window moves past a message and, once past the middle, back to the front. */
    method Advance(consumed: nat)
      requires recvBuffer.Length == BUFFER_SIZE && recvBegin + consumed <= recvEnd <= BUFFER_SIZE
      modifies this`recvBegin, this`recvEnd, recvBuffer
      ensures recvBegin <= BUFFER_SIZE / 2 && recvBegin <= recvEnd <= BUFFER_SIZE
      ensures Window() == old(Window())[consumed..]
    {
      recvBegin := recvBegin + consumed;
      if recvBegin > BUFFER_SIZE / 2 {
        ShiftBuffer();
      }
    }

    /** The content not yet parsed moves to the beginning of the buffer. */
    method ShiftBuffer()
      requires recvBuffer.Length == BUFFER_SIZE && recvBegin <= recvEnd <= BUFFER_SIZE
      modifies this`recvBegin, this`recvEnd, recvBuffer
      ensures recvBegin == 0 && recvEnd <= BUFFER_SIZE && Window() == old(Window())
    {
      ghost var before := Window();
      var remaining := recvEnd - recvBegin;
      var tmp := new byte[BUFFER_SIZE](_ => 0);
      forall i | 0 <= i < remaining {
        tmp[i] := recvBuffer[recvBegin + i];
      }
      forall i | 0 <= i < remaining {
        recvBuffer[i] := tmp[i];
      }
      recvEnd := remaining;
      recvBegin := 0;
      assert Window() == before;
    }

    /** Writes the message to the stream: the encoding is put together in the send buffer first. */
    method Send(m: Message)
      requires Valid()
      modifies this`outgoing, sendBuffer
      ensures Valid() && outgoing == old(outgoing) + Encode(m)
    {
      var end := EncodeTo(sendBuffer, m);
      outgoing := outgoing + sendBuffer[..end];
    }
  }
}
