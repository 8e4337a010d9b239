/** The tag, length, value encoding of signals on sockets. */
module Codec {
  import opened Signals

  type byte = n: int | 0 <= n < 256

  type u128 = n: int | 0 <= n < TWO_TO_64 * TWO_TO_64

  /** Times are nanoseconds; on the wire they have 16 bytes. */
  datatype Message =
    | Core(signal: Signal<u128>)
    | ActivityHello(id: ActivityId)
    | ChannelHello(channel: ChannelId)

  datatype Decoding =
    | NeedMore
    | Decoded(message: Message, consumed: nat)
    | Panic

  // ----- numbers -----

  /** The k low bytes of n, least significant first. */
  function ToLe(n: nat, k: nat): (r: seq<byte>)
    ensures |r| == k
  {
    if k == 0 then [] else [n % 256] + ToLe(n / 256, k - 1)
  }

  function FromLe(bs: seq<byte>): nat {
    if bs == [] then 0 else bs[0] + 256 * FromLe(bs[1..])
  }

  function Power(k: nat): nat { if k == 0 then 1 else 256 * Power(k - 1) }

  lemma {:induction false} LeRoundTrip(n: nat, k: nat)
    requires n < Power(k)
    ensures FromLe(ToLe(n, k)) == n
    decreases k
  {
    if k > 0 {
      LeRoundTrip(n / 256, k - 1);
      assert ToLe(n, k)[1..] == ToLe(n / 256, k - 1);
    }
  }

  lemma Le64(n: u64)
    ensures FromLe(ToLe(n, 8)) == n
  {
    assert Power(8) == TWO_TO_64 by { PowerOf(8); }
    LeRoundTrip(n, 8);
  }

  lemma Le128(n: u128)
    ensures FromLe(ToLe(n, 16)) == n
  {
    assert Power(16) == TWO_TO_64 * TWO_TO_64 by { PowerOf(16); PowerOf(8); }
    LeRoundTrip(n, 16);
  }

  lemma PowerOf(k: nat)
    ensures k == 8 ==> Power(k) == TWO_TO_64
    ensures k == 16 ==> Power(k) == TWO_TO_64 * TWO_TO_64
  {
    assert Power(4) == 0x1_0000_0000;
    assert Power(8) == 0x1_0000_0000 * Power(4);
    assert Power(12) == 0x1_0000_0000 * Power(8);
    assert Power(16) == 0x1_0000_0000 * Power(12);
  }

  // ----- encoding -----

  /** A message is a tag, the length of its data, and the data. */
  datatype Body =
    | Sync(time: u128)
    | Pair(id: u64, time: u128)
    | Failure(id: u64, error: ActivityError)
    | Id(id: u64)

  function ErrorCode(e: ActivityError): byte {
    match e case StartupError => 0 case StepError => 1 case ShutdownError => 2
  }

  function Data(b: Body): seq<byte> {
    match b
    case Sync(time) => ToLe(time, 16)
    case Pair(id, time) => ToLe(id, 8) + ToLe(time, 16)
    case Failure(id, error) => ToLe(id, 8) + [ErrorCode(error)]
    case Id(id) => ToLe(id, 8)
  }

  function TagOf(m: Message): byte {
    match m
    case Core(StartupSync(_)) => 1
    case Core(Startup(_, _)) => 21
    case Core(Step(_, _)) => 22
    case Core(Shutdown(_, _)) => 23
    case Core(Ready(_, _)) => 24
    case Core(Terminate(_)) => 25
    case Core(TerminateAck(_)) => 26
    case Core(ActivityFailed(_, _)) => 27
    case ActivityHello(_) => 31
    case ChannelHello(ActivityChannel(_)) => 33
    case ChannelHello(WorkerChannel(_)) => 34
    case ChannelHello(AgentChannel(_)) => 35
    case ChannelHello(RelayChannel(_)) => 36
  }

  function BodyOf(m: Message): Body {
    match m
    case Core(StartupSync(info)) => Sync(info)
    case Core(Startup(id, at)) => Pair(id, at)
    case Core(Step(id, at)) => Pair(id, at)
    case Core(Shutdown(id, at)) => Pair(id, at)
    case Core(Ready(id, at)) => Pair(id, at)
    case Core(Terminate(at)) => Sync(at)
    case Core(TerminateAck(agent)) => Id(agent)
    case Core(ActivityFailed(id, error)) => Failure(id, error)
    case ActivityHello(id) => Id(id)
    case ChannelHello(ActivityChannel(id)) => Id(id)
    case ChannelHello(WorkerChannel(id)) => Id(id)
    case ChannelHello(AgentChannel(id)) => Id(id)
    case ChannelHello(RelayChannel(id)) => Id(id)
  }

  function Encode(m: Message): (r: seq<byte>)
    ensures 10 <= |r| <= 26 && r[1] == |r| - 2
  {
    var data := Data(BodyOf(m));
    [TagOf(m), |data|] + data
  }

  /** Tag, length and data fields are written one after the other. */
  method EncodeTo(w: array<byte>, m: Message) returns (end: nat)
    requires w.Length >= 26
    modifies w
    ensures end <= w.Length && w[..end] == Encode(m)
  {
    var b := BodyOf(m);
    end := WriteAll(w, 0, [TagOf(m)]);
    end := WriteAll(w, end, [|Data(b)|]);
    assert w[..end] == [TagOf(m), |Data(b)|];
    match b {
      case Sync(time) =>
        end := WriteAll(w, end, ToLe(time, 16));
      case Pair(id, time) =>
        end := WriteAll(w, end, ToLe(id, 8));
        end := WriteAll(w, end, ToLe(time, 16));
        Regroup([TagOf(m), |Data(b)|], ToLe(id, 8), ToLe(time, 16));
      case Failure(id, error) =>
        end := WriteAll(w, end, ToLe(id, 8));
        end := WriteAll(w, end, [ErrorCode(error)]);
        Regroup([TagOf(m), |Data(b)|], ToLe(id, 8), [ErrorCode(error)]);
      case Id(id) =>
        end := WriteAll(w, end, ToLe(id, 8));
    }
  }

  lemma Regroup(a: seq<byte>, b: seq<byte>, c: seq<byte>)
    ensures a + b + c == a + (b + c)
  {
  }

  method WriteAll(w: array<byte>, position: nat, bs: seq<byte>) returns (end: nat)
    requires position + |bs| <= w.Length
    modifies w
    ensures end == position + |bs| && w[..end] == old(w[..position]) + bs
  {
    forall i | 0 <= i < |bs| {
      w[position + i] := bs[i];
    }
    end := position + |bs|;
    assert w[..position] == old(w[..position]);
    assert w[..end] == w[..position] + w[position..end];
  }

  // ----- decoding -----

  datatype Layout = NoLayout | SyncLayout | PairLayout | FailureLayout | IdLayout

  /** The layout of the data behind a tag. The tag of the relay hello is not known to the decoder. */
  function LayoutOf(tag: byte): Layout {
    if tag == 1 || tag == 25 then SyncLayout
    else if tag in {21, 22, 23, 24} then PairLayout
    else if tag == 27 then FailureLayout
    else if tag in {26, 31, 33, 34, 35} then IdLayout
    else NoLayout
  }

  function Length(l: Layout): nat {
    match l
    case NoLayout => 0
    case SyncLayout => 16
    case PairLayout => 24
    case FailureLayout => 9
    case IdLayout => 8
  }

  function ErrorOf(code: byte): Option<ActivityError> {
    if code == 0 then Some(StartupError) else if code == 1 then Some(StepError)
    else if code == 2 then Some(ShutdownError) else None
  }

  lemma FromLeBound(bs: seq<byte>, k: nat)
    requires |bs| <= k
    ensures FromLe(bs) < Power(k)
  {
    if bs != [] { FromLeBound(bs[1..], k - 1); }
  }

  function Num64(bs: seq<byte>): u64
    requires |bs| == 8
  {
    FromLeBound(bs, 8);
    PowerOf(8);
    FromLe(bs)
  }

  /** Values read from the data, or None where the conversion panics. */
  function BodyFrom(l: Layout, data: seq<byte>): Option<Body>
    requires l != NoLayout && |data| >= Length(l)
  {
    match l
    case SyncLayout =>
      var time := FromLe(data[..16]);
      if time < TWO_TO_64 then Some(Sync(time)) else None
    case PairLayout =>
      var time := FromLe(data[8..24]);
      if time < TWO_TO_64 then Some(Pair(Num64(data[..8]), time)) else None
    case FailureLayout =>
      var e := ErrorOf(data[8]);
      if e.Some? then Some(Failure(Num64(data[..8]), e.value)) else None
    case IdLayout => Some(Id(Num64(data[..8])))
  }

  function MessageOf(tag: byte, b: Body): Option<Message> {
    match b
    case Sync(time) =>
      if tag == 1 then Some(Core(StartupSync(time))) else Some(Core(Terminate(time)))
    case Pair(id, time) =>
      if tag == 21 then Some(Core(Startup(id, time)))
      else if tag == 22 then Some(Core(Step(id, time)))
      else if tag == 23 then Some(Core(Shutdown(id, time)))
      else Some(Core(Ready(id, time)))
    case Failure(id, error) => Some(Core(ActivityFailed(id, error)))
    case Id(id) =>
      if tag == 26 then Some(Core(TerminateAck(id)))
      else if tag == 31 then Some(ActivityHello(id))
      else if tag == 33 then Some(ChannelHello(ActivityChannel(id)))
      else if tag == 34 then Some(ChannelHello(WorkerChannel(id)))
      else Some(ChannelHello(AgentChannel(id)))
  }

  /** Needs the two header bytes and as many more as the header says. An unknown tag, data shorter
      than the tag calls for, and values out of range panic. */
  function TryDecode(src: seq<byte>): Decoding {
    if |src| < 2 then NeedMore
    else
      var length: nat := src[1];
      if |src| < 2 + length then NeedMore
      else
        var data := src[2..2 + length];
        var l := LayoutOf(src[0]);
        if l == NoLayout || |data| < Length(l) then Panic
        else
          var b := BodyFrom(l, data);
          if b.None? then Panic else Decoded(MessageOf(src[0], b.value).value, 2 + Length(l))
  }

  // ----- round trip -----

  function TimesOf(m: Message): set<u128> {
    match BodyOf(m)
    case Sync(time) => {time}
    case Pair(_, time) => {time}
    case _ => {}
  }

  /** Messages the decoder knows: no relay hello, and times that fit in 64 bits. */
  predicate Decodable(m: Message) {
    !(m.ChannelHello? && m.channel.RelayChannel?) && forall t :: t in TimesOf(m) ==> t < TWO_TO_64
  }

  lemma Sliced(a: seq<byte>, b: seq<byte>)
    ensures (a + b)[..|a|] == a && (a + b)[|a|..] == b && (a + b)[|a|..|a| + |b|] == b
  {
  }

  function LayoutFor(b: Body): Layout {
    match b
    case Sync(_) => SyncLayout
    case Pair(_, _) => PairLayout
    case Failure(_, _) => FailureLayout
    case Id(_) => IdLayout
  }

  predicate InTime(b: Body) {
    match b
    case Sync(time) => time < TWO_TO_64
    case Pair(_, time) => time < TWO_TO_64
    case _ => true
  }

  lemma DataRoundTrip(b: Body)
    ensures |Data(b)| == Length(LayoutFor(b))
    ensures BodyFrom(LayoutFor(b), Data(b)) == if InTime(b) then Some(b) else None
  {
    match b
    case Sync(time) => Le128(time); assert ToLe(time, 16)[..16] == ToLe(time, 16);
    case Pair(id, time) =>
      Le64(id);
      Le128(time);
      Sliced(ToLe(id, 8), ToLe(time, 16));
    case Failure(id, error) =>
      Le64(id);
      Sliced(ToLe(id, 8), [ErrorCode(error)]);
    case Id(id) => Le64(id); assert ToLe(id, 8)[..8] == ToLe(id, 8);
  }

  lemma TagRoundTrip(m: Message)
    ensures var l := LayoutOf(TagOf(m));
            if m.ChannelHello? && m.channel.RelayChannel? then l == NoLayout
            else l == LayoutFor(BodyOf(m)) && MessageOf(TagOf(m), BodyOf(m)) == Some(m)
    ensures InTime(BodyOf(m)) <==> forall t :: t in TimesOf(m) ==> t < TWO_TO_64
  {
    if !InTime(BodyOf(m)) { assert BodyOf(m).time in TimesOf(m); }
  }

  lemma DecodeFrame(tag: byte, data: seq<byte>, tail: seq<byte>)
    requires |data| < 256
    ensures TryDecode([tag, |data|] + data + tail) == TryDecode([tag, |data|] + data)
  {
    var src, all := [tag, |data|] + data, [tag, |data|] + data + tail;
    assert src[2..2 + |data|] == data && all[2..2 + |data|] == data;
  }

  /** Decoding an encoded message followed by any bytes gives the message and its exact length if
      and only if the message is decodable; otherwise the decoder panics. */
  lemma RoundTrip(m: Message, tail: seq<byte>)
    ensures Decodable(m) ==> TryDecode(Encode(m) + tail) == Decoded(m, |Encode(m)|)
    ensures !Decodable(m) ==> TryDecode(Encode(m) + tail) == Panic
  {
    var data := Data(BodyOf(m));
    DecodeFrame(TagOf(m), data, tail);
    assert Encode(m)[2..2 + |data|] == data;
    DataRoundTrip(BodyOf(m));
    TagRoundTrip(m);
  }

  /** Every strict prefix of an encoding is recognised as incomplete. */
  lemma StrictPrefix(m: Message, n: nat)
    requires n < |Encode(m)|
    ensures TryDecode(Encode(m)[..n]) == NeedMore
  {
    if n >= 2 { assert Encode(m)[..n][1] == Encode(m)[1]; }
  }

  // ----- streams of messages -----

  function EncodeAll(ms: seq<Message>): seq<byte> {
    if ms == [] then [] else Encode(ms[0]) + EncodeAll(ms[1..])
  }

  ghost predicate AllDecodable(ms: seq<Message>) { forall i :: 0 <= i < |ms| ==> Decodable(ms[i]) }

  /** What the decoder sees at the front of a stream cut off anywhere: the first message once it is
      there completely, and a request for more until then. */
  lemma FrontOfStream(ms: seq<Message>, src: seq<byte>)
    requires AllDecodable(ms) && src <= EncodeAll(ms)
    ensures ms == [] ==> src == [] && TryDecode(src) == NeedMore
    ensures ms != [] && |src| < |Encode(ms[0])| ==> TryDecode(src) == NeedMore
    ensures ms != [] && |src| >= |Encode(ms[0])| ==>
              && TryDecode(src) == Decoded(ms[0], |Encode(ms[0])|)
              && src[|Encode(ms[0])|..] <= EncodeAll(ms[1..])
  {
    if ms != [] {
      var e := Encode(ms[0]);
      if |src| < |e| {
        assert src == e[..|src|];
        StrictPrefix(ms[0], |src|);
      } else {
        assert src == e + src[|e|..] by { assert src[..|e|] == e; }
        RoundTrip(ms[0], src[|e|..]);
        assert EncodeAll(ms)[|e|..] == EncodeAll(ms[1..]);
        assert EncodeAll(ms)[..|src|] == src;
      }
    }
  }

  lemma RestOfStream(ms: seq<Message>)
    requires ms != []
    ensures EncodeAll(ms)[|Encode(ms[0])|..] == EncodeAll(ms[1..])
  {
  }

  lemma SameFront(ms: seq<Message>, ns: seq<Message>)
    requires AllDecodable(ms) && AllDecodable(ns) && EncodeAll(ms) == EncodeAll(ns) && ms != []
    ensures ns != [] && ms[0] == ns[0] && EncodeAll(ms[1..]) == EncodeAll(ns[1..])
  {
    FrontOfStream(ms, EncodeAll(ms));
    FrontOfStream(ns, EncodeAll(ms));
    RestOfStream(ms);
    RestOfStream(ns);
  }

  /** Concatenated encodings can be taken apart in one way only. */
  lemma {:induction false} UniqueDecoding(ms: seq<Message>, ns: seq<Message>)
    requires AllDecodable(ms) && AllDecodable(ns) && EncodeAll(ms) == EncodeAll(ns)
    ensures ms == ns
    decreases |ms|
  {
    if ms != [] {
      SameFront(ms, ns);
      UniqueDecoding(ms[1..], ns[1..]);
      assert ms == [ms[0]] + ms[1..] && ns == [ns[0]] + ns[1..];
    }
  }
}
