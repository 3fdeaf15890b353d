/** The wire format: a 4-byte little-endian length, four bytes of metadata, a 4-byte type, and the
    payload; its encoder, and the loop that cuts a byte stream back into messages. */
module Framing {

  type byte = b: int | 0 <= b < 256

  const WORD32: nat := 0x1_0000_0000
  const HEADER_SIZE: nat := 12
  const RESPONSE_BUFFER_SIZE: nat := 1400 + 12

  datatype Frame = Frame(kind: nat, last: bool, payload: seq<byte>)

  function LowByte(n: nat): byte { n % 256 }

  /** The low 32 bits of n, least significant byte first. */
  function Le32(n: nat): (r: seq<byte>)
    ensures |r| == 4
  {
    var n1 := n / 256;
    var n2 := n1 / 256;
    [LowByte(n), LowByte(n1), LowByte(n2), LowByte(n2 / 256)]
  }

  function FromLe32(b: seq<byte>): nat
    requires |b| == 4
  {
    b[0] as nat + 0x100 * b[1] as nat + 0x1_0000 * b[2] as nat + 0x100_0000 * b[3] as nat
  }

  lemma Le32RoundTrip(n: nat)
    requires n < WORD32
    ensures FromLe32(Le32(n)) == n
  {
    var n1 := n / 256;
    var n2 := n1 / 256;
    var n3 := n2 / 256;
    assert n == 256 * n1 + n % 256 && n1 == 256 * n2 + n1 % 256 && n2 == 256 * n3 + n2 % 256;
    assert n3 < 256;
  }

  /** Everything behind the length field: metadata, type, payload. */
  function Body(f: Frame): seq<byte> {
    [1, 0, if f.last then 0 else 1, 0] + Le32(f.kind) + f.payload
  }

  function Encode(f: Frame): seq<byte> { Le32(|f.payload| + 8) + Body(f) }

  /** Frames whose length and type survive the 32-bit fields. */
  predicate Encodable(f: Frame) { |f.payload| + 8 < WORD32 && f.kind < WORD32 }

  // ---- construct_message ----

  function Header(kind: nat, payloadLength: nat, last: bool): (r: seq<byte>)
    ensures |r| == HEADER_SIZE
  {
    Le32(payloadLength + 8) + [1, 0, if last then 0 else 1, 0] + Le32(kind)
  }

  method WriteHeader(buffer: array<byte>, kind: nat, payloadLength: nat, last: bool)
    requires buffer.Length >= 12
    modifies buffer
    ensures buffer[..12] == Header(kind, payloadLength, last)
    ensures buffer[12..] == old(buffer[12..])
  {
    var length := Le32(payloadLength + 8);
    var kindBytes := Le32(kind);
    buffer[0], buffer[1], buffer[2], buffer[3] := length[0], length[1], length[2], length[3];
    buffer[4], buffer[5], buffer[6], buffer[7] := 1, 0, if last then 0 else 1, 0;
    buffer[8], buffer[9], buffer[10], buffer[11] := kindBytes[0], kindBytes[1], kindBytes[2], kindBytes[3];
  }

  method ConstructMessage(buffer: array<byte>, capacity: nat, kind: nat, payload: seq<byte>, last: bool)
    returns (ok: bool)
    requires capacity <= buffer.Length
    modifies buffer
    ensures ok <==> |payload| + HEADER_SIZE <= capacity
    ensures ok ==> buffer[..] == Encode(Frame(kind, last, payload)) + old(buffer[..])[|payload| + HEADER_SIZE..]
    ensures !ok ==> buffer[..] == old(buffer[..])
  {
    if capacity < |payload| + 12 {
      return false;
    }
    WriteHeader(buffer, kind, |payload|, last);
    forall i | 0 <= i < |payload| {
      buffer[12 + i] := payload[i];
    }
    assert buffer[..] == Header(kind, |payload|, last) + payload + old(buffer[..])[|payload| + HEADER_SIZE..];
    assert Encode(Frame(kind, last, payload)) == Header(kind, |payload|, last) + payload;
    return true;
  }

  // ---- the header parse of handle_message ----

  datatype Parsed = TooShort | BadVersion | Message(control: byte, kind: nat, payload: seq<byte>)

  function Parse(body: seq<byte>): Parsed {
    if |body| < 8 then TooShort
    else if body[0] != 1 || body[1] != 0 then BadVersion
    else Message(body[2], FromLe32(body[4..8]), body[8..])
  }

  /** handle_message succeeds; what the handlers themselves return is discarded. */
  predicate Handled(body: seq<byte>) { Parse(body).Message? }

  /** Parsing inverts encoding: a frame is a length field and a body that handle_message accepts,
      and type, payload and last-message flag come out as they went in. */
  lemma DecodeEncode(f: Frame)
    requires Encodable(f)
    ensures Encode(f) == Packet(Body(f)) && FromLe32(Encode(f)[..4]) == |Body(f)|
    ensures Parse(Body(f)) == Message(if f.last then 0 else 1, f.kind, f.payload)
  {
    Le32RoundTrip(|f.payload| + 8);
    Le32RoundTrip(f.kind);
    assert Encode(f)[..4] == Le32(|f.payload| + 8);
    assert Body(f)[4..8] == Le32(f.kind);
  }

  /** The number that four bytes stand for, the least significant first. */
  predicate Spells(b: seq<byte>, at: nat, n: nat)
    requires at + 4 <= |b|
  {
    b[at] as nat + 0x100 * b[at + 1] as nat + 0x1_0000 * b[at + 2] as nat + 0x100_0000 * b[at + 3] as nat == n
  }

  /** What is where on the wire: length of the rest in bytes 0-3, version 1.0 in 4 and 5, the control flag
      (1: more messages follow) in 6, zero in 7, the type in 8-11, then the payload. */
  lemma WireFormat(f: Frame)
    requires Encodable(f)
    ensures var b := Encode(f);
            && |b| == 12 + |f.payload| && Spells(b, 0, |b| - 4) && Spells(b, 8, f.kind) && b[12..] == f.payload
            && b[4] == 1 && b[5] == 0 && b[6] == (if f.last then 0 else 1) && b[7] == 0
  {
    hide Le32;
    var b := Encode(f);
    Le32RoundTrip(|f.payload| + 8);
    Le32RoundTrip(f.kind);
    assert b[..4] == Le32(|f.payload| + 8);
    assert b[8..12] == Le32(f.kind);
    assert b[0] == b[..4][0] && b[1] == b[..4][1] && b[2] == b[..4][2] && b[3] == b[..4][3];
    assert b[8] == b[8..12][0] && b[9] == b[8..12][1] && b[10] == b[8..12][2] && b[11] == b[8..12][3];
  }

  /** A message is accepted iff it has a header, of version 1.0; its type is what bytes 4-7 spell. */
  lemma HandledIff(body: seq<byte>)
    ensures Handled(body) <==> |body| >= 8 && body[0] == 1 && body[1] == 0
    ensures Handled(body) ==> Spells(body, 4, Parse(body).kind) && Parse(body).control == body[2]
    ensures Handled(body) ==> Parse(body).payload == body[8..]
  {
    if |body| >= 8 {
      var t := body[4..8];
      assert t[0] == body[4] && t[1] == body[5] && t[2] == body[6] && t[3] == body[7];
    }
  }

  // ---- streams ----

  /** A message on the wire: the length of its body, and the body. */
  function Packet(body: seq<byte>): seq<byte> { Le32(|body|) + body }

  function Stream(bodies: seq<seq<byte>>): seq<byte> {
    if bodies == [] then [] else Packet(bodies[0]) + Stream(bodies[1..])
  }

  lemma {:induction false} StreamAppend(done: seq<seq<byte>>, rest: seq<seq<byte>>)
    ensures Stream(done + rest) == Stream(done) + Stream(rest)
  {
    if done == [] {
      assert done + rest == rest;
    } else {
      assert (done + rest)[1..] == done[1..] + rest;
      StreamAppend(done[1..], rest);
    }
  }

  lemma PacketParts(body: seq<byte>, rest: seq<byte>)
    requires |body| < WORD32
    ensures var s := Packet(body) + rest;
            FromLe32(s[..4]) == |body| && s[4..4 + |body|] == body && s[4 + |body|..] == rest
  {
    Le32RoundTrip(|body|);
    assert (Packet(body) + rest)[..4] == Le32(|body|);
  }

  /** Only all messages together make up the whole stream. */
  lemma WholeStreamMeansAll(bodies: seq<seq<byte>>, k: nat)
    requires k <= |bodies| && Stream(bodies[..k]) == Stream(bodies)
    ensures k == |bodies|
  {
    assert bodies == bodies[..k] + bodies[k..];
    StreamAppend(bodies[..k], bodies[k..]);
  }

  /** What one TCP receive yields: some bytes (at least one, if any are left), or a failure. */
  datatype Chunk = Data(n: nat) | Broken

  datatype Status = Closed | TornHeader | Truncated | Refused | ReceiveError

  function Least(a: nat, b: nat): nat { if a <= b then a else b }

  /** How many bytes a receive with room for capacity delivers out of left remaining ones. */
  function Delivered(c: Chunk, capacity: nat, left: nat): nat {
    if c.Broken? then 0 else Least(if c.n == 0 then 1 else c.n, Least(capacity, left))
  }

  /** receive_chunk: copies the next bytes of the stream to buffer[offset..]. */
  method ReceiveChunk(buffer: array<byte>, offset: nat, capacity: nat, stream: seq<byte>, pos: nat, c: Chunk)
    returns (length: nat, pos': nat)
    requires pos <= |stream| && offset + capacity <= buffer.Length
    modifies buffer
    ensures length == Delivered(c, capacity, |stream| - pos) && pos' == pos + length <= |stream|
    ensures buffer[..offset] == old(buffer[..offset])
    ensures buffer[offset..offset + length] == stream[pos..pos']
  {
    length := Delivered(c, capacity, |stream| - pos);
    pos' := pos + length;
    forall i | 0 <= i < length {
      buffer[offset + i] := stream[pos + i];
    }
  }

  // ---- which receive of a script does what, if the whole stream is there ----

  /** The receives from number calls on that it takes to get n bytes; one that fails is the last. */
  function Receives(script: nat -> Chunk, calls: nat, n: nat): nat
    decreases n
  {
    if n == 0 then 0
    else if script(calls).Broken? then 1
    else 1 + Receives(script, calls + 1, n - Delivered(script(calls), n, n))
  }

  /** None of them fails. */
  predicate BodyArrives(script: nat -> Chunk, calls: nat, n: nat)
    decreases n
  {
    n == 0 || (script(calls).Data? && BodyArrives(script, calls + 1, n - Delivered(script(calls), n, n)))
  }

  /** A receive that delivers all four bytes of a length field, if they are there. */
  predicate Whole(c: Chunk) { c.Data? && c.n >= 4 }

  /** The next message arrives: its length field in one piece, its body in any number of pieces. */
  predicate Arrives(script: nat -> Chunk, calls: nat, body: seq<byte>) {
    Whole(script(calls)) && BodyArrives(script, calls + 1, |body|)
  }

  /** The number of the receive that asks for the length field behind that message. */
  function After(script: nat -> Chunk, calls: nat, body: seq<byte>): nat {
    calls + 1 + Receives(script, calls + 1, |body|)
  }

  /** All these messages arrive. Only the receives that ask for a length field have to be whole. */
  predicate AllArrive(script: nat -> Chunk, calls: nat, bodies: seq<seq<byte>>)
    decreases |bodies|
  {
    bodies == []
    || (Arrives(script, calls, bodies[0]) && AllArrive(script, After(script, calls, bodies[0]), bodies[1..]))
  }

  /** The inner loop of receive_messages: the rest of a message of header bytes. */
  method ReceiveBody(buffer: array<byte>, header: nat, stream: seq<byte>, pos: nat, script: nat -> Chunk, calls: nat)
    returns (current: nat, pos': nat, calls': nat, broken: bool)
    requires pos <= |stream| && header <= buffer.Length
    modifies buffer
    ensures current <= header && pos' == pos + current <= |stream|
    ensures buffer[..current] == stream[pos..pos']
    ensures broken ==> calls' > 0 && script(calls' - 1).Broken?
    ensures !broken && current < header ==> pos' == |stream|
    ensures pos + header <= |stream| ==> (broken <==> !BodyArrives(script, calls, header))
    ensures pos + header <= |stream| && !broken ==> calls' == calls + Receives(script, calls, header)
  {
    current, pos', calls', broken := 0, pos, calls, false;
    while current < header
      invariant current <= header && pos' == pos + current <= |stream|
      invariant buffer[..current] == stream[pos..pos']
      invariant !broken && calls <= calls'
      invariant pos + header <= |stream| ==>
                  && (BodyArrives(script, calls, header) <==> BodyArrives(script, calls', header - current))
                  && calls + Receives(script, calls, header) == calls' + Receives(script, calls', header - current)
      decreases header - current
    {
      var c := script(calls');
      var length;
      ghost var start, was := pos', buffer[..current];
      length, pos' := ReceiveChunk(buffer, current, header - current, stream, pos', c);
      calls' := calls' + 1;
      if c.Broken? {
        broken := true;
        return;
      }
      if length == 0 {
        break;
      }
      assert buffer[..current + length] == was + buffer[current..current + length];
      assert stream[pos..pos'] == stream[pos..start] + stream[start..pos'];
      current := current + length;
    }
  }

  /** Where receive_messages stands: done are the messages behind it, rest those still to come. */
  ghost predicate Progress(stream: seq<byte>, bodies: seq<seq<byte>>, done: seq<seq<byte>>, rest: seq<seq<byte>>,
                           pos: nat)
  {
    && bodies == done + rest
    && pos <= |stream|
    && stream[..pos] == Stream(done)
    && stream[pos..] <= Stream(rest)
  }

  ghost predicate Short(bodies: seq<seq<byte>>) { forall b :: b in bodies ==> |b| < WORD32 }

  lemma AtStart(stream: seq<byte>, bodies: seq<seq<byte>>)
    requires stream <= Stream(bodies)
    ensures Progress(stream, bodies, [], bodies, 0)
  {
    assert stream[0..] == stream;
  }

  /** The bytes that follow: the length field of the next message, then its body, then the others. */
  lemma NextMessage(stream: seq<byte>, pos: nat, rest: seq<seq<byte>>)
    requires pos < |stream| && stream[pos..] <= Stream(rest) && Short(rest)
    ensures rest != [] && 4 + |rest[0]| <= |Stream(rest)|
    ensures pos + 4 <= |stream| ==> FromLe32(stream[pos..pos + 4]) == |rest[0]|
    ensures var end := pos + 4 + |rest[0]|;
            end <= |stream| ==>
              stream[pos..end] == Packet(rest[0]) && stream[pos + 4..end] == rest[0]
              && stream[end..] <= Stream(rest[1..])
  {
    var all, n := Stream(rest), 4 + |rest[0]|;
    assert rest[0] in rest;
    PacketParts(rest[0], Stream(rest[1..]));
    if pos + 4 <= |stream| {
      assert stream[pos..pos + 4] == stream[pos..][..4] == all[..4];
    }
    if pos + n <= |stream| {
      assert stream[pos..pos + n] == stream[pos..][..n] == all[..n];
      assert stream[pos + 4..pos + n] == stream[pos..][4..n] == all[4..n];
      assert stream[pos + n..] == stream[pos..][n..] <= all[n..];
    }
  }

  datatype Attempt = Got(body: seq<byte>) | Stop(status: Status)

  /** What one round of receive_messages says about the bytes from pos on. */
  predicate RoundOk(stream: seq<byte>, pos: nat, pos': nat, c: Chunk, r: Attempt) {
    && pos <= pos' <= |stream|
    && match r
       case Got(body) =>
         pos' == pos + 4 + |body| && |body| == FromLe32(stream[pos..pos + 4]) && body == stream[pos + 4..pos']
       case Stop(Closed) => pos == |stream|
       case Stop(TornHeader) => pos < |stream| && c.Data? && (c.n < 4 || |stream| < pos + 4)
       case Stop(Truncated) => pos + 4 <= |stream| < pos + 4 + FromLe32(stream[pos..pos + 4])
       case Stop(ReceiveError) => c.Broken?
       case Stop(Refused) => false
  }

  /** One round of receive_messages up to the dispatch. */
  method ReceiveOne(buffer: array<byte>, stream: seq<byte>, pos: nat, script: nat -> Chunk, calls: nat)
    returns (r: Attempt, pos': nat, calls': nat)
    requires pos <= |stream| && buffer.Length >= 4
    requires pos + 4 <= |stream| ==> FromLe32(stream[pos..pos + 4]) <= buffer.Length
    modifies buffer
    ensures RoundOk(stream, pos, pos', script(calls'), r)
    ensures r.Got? ==> pos < |stream| && Arrives(script, calls, r.body) && calls' == After(script, calls, r.body)
    ensures r == Stop(TornHeader) && pos + 4 <= |stream| ==> !Whole(script(calls))
    ensures r == Stop(ReceiveError) && pos + 4 <= |stream| && pos + 4 + FromLe32(stream[pos..pos + 4]) <= |stream| ==>
              !Whole(script(calls)) || !BodyArrives(script, calls + 1, FromLe32(stream[pos..pos + 4]))
  {
    var length;
    length, pos' := ReceiveChunk(buffer, 0, 4, stream, pos, script(calls));
    calls' := calls;
    if script(calls).Broken? {
      return Stop(ReceiveError), pos', calls';
    }
    if length == 0 {
      return Stop(Closed), pos', calls';
    }
    if length != 4 {
      return Stop(TornHeader), pos', calls';
    }
    assert buffer[..4] == buffer[0..0 + 4];
    var header := FromLe32(buffer[..4]);
    var current, broken;
    current, pos', calls', broken := ReceiveBody(buffer, header, stream, pos', script, calls + 1);
    if broken {
      return Stop(ReceiveError), pos', calls' - 1;
    }
    if current != header {
      return Stop(Truncated), pos', calls';
    }
    r := Got(buffer[..current]);
  }

  /** The message received in a round is the next one. */
  lemma GotNext(stream: seq<byte>, bodies: seq<seq<byte>>, done: seq<seq<byte>>, rest: seq<seq<byte>>, pos: nat,
                pos': nat, c: Chunk, r: Attempt)
    requires Progress(stream, bodies, done, rest, pos) && RoundOk(stream, pos, pos', c, r) && r.Got? && Short(rest)
    ensures rest != [] && r.body == rest[0] && Progress(stream, bodies, done + [rest[0]], rest[1..], pos')
  {
    NextMessage(stream, pos, rest);
    StreamAppend(done, [rest[0]]);
    assert Stream([rest[0]]) == Packet(rest[0]) + Stream([rest[0]][1..]) == Packet(rest[0]);
    assert stream[..pos'] == stream[..pos] + stream[pos..pos'];
  }

  /** What a round that stops says about the whole stream. */
  lemma StopMeans(stream: seq<byte>, bodies: seq<seq<byte>>, done: seq<seq<byte>>, rest: seq<seq<byte>>, pos: nat,
                  pos': nat, c: Chunk, r: Attempt)
    requires Progress(stream, bodies, done, rest, pos) && RoundOk(stream, pos, pos', c, r) && r.Stop? && Short(rest)
    ensures r.status.Closed? ==> stream == Stream(done)
    ensures r.status.Truncated? ==> |stream| < |Stream(bodies)|
    ensures r.status.TornHeader? ==> c.Data? && (c.n < 4 || |stream| < |Stream(bodies)|)
    ensures r.status.ReceiveError? ==> c.Broken?
    ensures !r.status.Refused?
  {
    StreamAppend(done, rest);
    if pos == |stream| {
      assert stream[..|stream|] == stream;
    } else {
      NextMessage(stream, pos, rest);
    }
  }

  lemma NextFits(stream: seq<byte>, bodies: seq<seq<byte>>, done: seq<seq<byte>>, rest: seq<seq<byte>>,
                 pos: nat, room: nat)
    requires Progress(stream, bodies, done, rest, pos) && Short(bodies)
    requires forall b :: b in bodies ==> |b| <= room
    ensures Short(rest)
    ensures pos + 4 <= |stream| ==> FromLe32(stream[pos..pos + 4]) <= room
  {
    forall b | b in rest
      ensures b in bodies
    {
    }
    if pos < |stream| {
      NextMessage(stream, pos, rest);
      assert rest[0] in rest;
    }
  }

  lemma DoneSoFar(stream: seq<byte>, bodies: seq<seq<byte>>, done: seq<seq<byte>>, rest: seq<seq<byte>>, pos: nat)
    requires Progress(stream, bodies, done, rest, pos)
    ensures done <= bodies && bodies[..|done|] == done && pos <= |stream|
    ensures done == bodies <==> rest == []
  {
    hide Stream;
  }

  /** There is a message left, and all of it is still to come. */
  lemma MessageAhead(stream: seq<byte>, bodies: seq<seq<byte>>, done: seq<seq<byte>>, rest: seq<seq<byte>>, pos: nat)
    requires Progress(stream, bodies, done, rest, pos) && Short(rest) && pos < |stream| && stream == Stream(bodies)
    ensures rest != [] && pos + 4 + |rest[0]| <= |stream| && FromLe32(stream[pos..pos + 4]) == |rest[0]|
    ensures done != bodies
  {
    NextMessage(stream, pos, rest);
    StreamAppend(done, rest);
    assert |stream[pos..]| == |Stream(rest)|;
  }

  lemma StopPosition(stream: seq<byte>, pos: nat, pos': nat, c: Chunk, r: Attempt)
    requires pos <= |stream| && RoundOk(stream, pos, pos', c, r) && r.Stop?
    ensures r.status.Closed? ==> pos == |stream|
    ensures r.status.TornHeader? ==> pos < |stream|
  {
  }

  /** One round, and where it leaves the messages: one more of them done, or an end and its reason. */
  method ReceiveRound(buffer: array<byte>, stream: seq<byte>, script: nat -> Chunk, ghost bodies: seq<seq<byte>>,
                      ghost done: seq<seq<byte>>, ghost rest: seq<seq<byte>>, pos: nat, calls: nat)
    returns (r: Attempt, pos': nat, calls': nat)
    requires Progress(stream, bodies, done, rest, pos) && Short(bodies)
    requires buffer.Length >= 4 && forall b :: b in bodies ==> |b| <= buffer.Length
    modifies buffer
    ensures r.Got? ==>
              && rest != [] && r.body == rest[0] && Progress(stream, bodies, done + [r.body], rest[1..], pos')
              && pos < pos' && Arrives(script, calls, r.body) && calls' == After(script, calls, r.body)
    ensures r.Stop? ==> match r.status
              case Closed => pos == |stream| && stream == Stream(done)
              case Truncated => |stream| < |Stream(bodies)|
              case TornHeader =>
                pos < |stream| && script(calls').Data? && (script(calls').n < 4 || |stream| < |Stream(bodies)|)
              case ReceiveError => script(calls').Broken?
              case Refused => false
    ensures r.Stop? && stream == Stream(bodies) ==>
              if pos == |stream| then rest == [] && done == bodies
              else rest != [] && done != bodies && !Arrives(script, calls, rest[0])
  {
    hide RoundOk, Stream, Progress, Whole, BodyArrives, Receives;
    NextFits(stream, bodies, done, rest, pos, buffer.Length);
    DoneSoFar(stream, bodies, done, rest, pos);
    if pos < |stream| && stream == Stream(bodies) {
      MessageAhead(stream, bodies, done, rest, pos);
    }
    r, pos', calls' := ReceiveOne(buffer, stream, pos, script, calls);
    if r.Got? {
      GotNext(stream, bodies, done, rest, pos, pos', script(calls'), r);
      GotMoves(stream, pos, pos', script(calls'), r);
    } else {
      StopMeans(stream, bodies, done, rest, pos, pos', script(calls'), r);
      StopPosition(stream, pos, pos', script(calls'), r);
      if pos == |stream| && stream == Stream(bodies) {
        NothingAhead(stream, bodies, done, rest, pos);
      }
    }
  }

  lemma NothingAhead(stream: seq<byte>, bodies: seq<seq<byte>>, done: seq<seq<byte>>, rest: seq<seq<byte>>, pos: nat)
    requires Progress(stream, bodies, done, rest, pos) && pos == |stream| && stream == Stream(bodies)
    ensures rest == [] && done == bodies
  {
    assert stream[..pos] == stream && bodies[..|done|] == done;
    WholeStreamMeansAll(bodies, |done|);
  }

  lemma GotMoves(stream: seq<byte>, pos: nat, pos': nat, c: Chunk, r: Attempt)
    requires RoundOk(stream, pos, pos', c, r) && r.Got?
    ensures pos < pos'
  {
  }

  /** receive_messages on a stream that is some beginning of a sequence of messages, however the
      transport cuts it up. What is handed to handle_message is a prefix of those messages; when the
      loop ends with Closed, exactly the stream's messages have been handled, and when the stream is
      complete, all of them. It ends otherwise only if the stream stops inside a message, a receive
      fails, the four bytes of a length field arrive in pieces, or handle_message refuses the message
      it was just given. On a complete stream exactly these things matter: all messages are dispatched
      iff all arrive, and none but the last is refused. */
  method ReceiveMessages(buffer: array<byte>, stream: seq<byte>, script: nat -> Chunk, ghost bodies: seq<seq<byte>>)
    returns (dispatched: seq<seq<byte>>, status: Status, calls: nat)
    requires stream <= Stream(bodies) && Short(bodies)
    requires buffer.Length >= 4 && forall b :: b in bodies ==> |b| <= buffer.Length
    modifies buffer
    ensures dispatched <= bodies
    ensures forall i :: 0 <= i < |dispatched| - 1 ==> Handled(dispatched[i])
    ensures dispatched != [] ==> (Handled(dispatched[|dispatched| - 1]) <==> !status.Refused?)
    ensures status.Refused? ==> dispatched != []
    ensures status.Closed? ==> stream == Stream(dispatched)
    ensures status.Closed? && stream == Stream(bodies) ==> dispatched == bodies
    ensures status.Truncated? ==> |stream| < |Stream(bodies)|
    ensures status.TornHeader? ==> script(calls).Data? && (script(calls).n < 4 || |stream| < |Stream(bodies)|)
    ensures status.ReceiveError? ==> script(calls).Broken?
    ensures stream == Stream(bodies) ==>
              (dispatched == bodies <==>
                AllArrive(script, 0, bodies) && forall i :: 0 <= i < |bodies| - 1 ==> Handled(bodies[i]))
  {
    hide Handled, Stream, Parse, Progress, Short, Arrives, After;
    dispatched, status, calls := [], Closed, 0;
    var pos := 0;
    ghost var rest := bodies;
    AtStart(stream, bodies);
    while true
      invariant Progress(stream, bodies, dispatched, rest, pos) && pos <= |stream|
      invariant forall i :: 0 <= i < |dispatched| ==> Handled(dispatched[i])
      invariant AllArrive(script, 0, bodies) <==> AllArrive(script, calls, rest)
      decreases |stream| - pos
    {
      DoneSoFar(stream, bodies, dispatched, rest, pos);
      var r;
      r, pos, calls := ReceiveRound(buffer, stream, script, bodies, dispatched, rest, pos, calls);
      if r.Stop? {
        status := r.status;
        return;
      }
      dispatched, rest := dispatched + [r.body], rest[1..];
      DoneSoFar(stream, bodies, dispatched, rest, pos);
      if !Handled(r.body) {
        status := Refused;
        return;
      }
    }
  }

  /** A length field that arrives in two pieces ends the loop before the message is dispatched, although
      the stream is complete, no receive fails, and the message would be handled. */
  method TornHeaderLoses(buffer: array<byte>) returns (dispatched: seq<seq<byte>>)
    requires buffer.Length >= 8
    modifies buffer
    ensures dispatched == []
  {
    ghost var message: seq<byte> := [1, 0, 0, 0, 1, 0, 0, 0];
    var stream: seq<byte> := [8, 0, 0, 0, 1, 0, 0, 0, 1, 0, 0, 0];
    assert Stream([message]) == Packet(message) + Stream([message][1..]) == stream;
    var status, calls;
    dispatched, status, calls := ReceiveMessages(buffer, stream, i => Data(2), [message]);
  }
}
