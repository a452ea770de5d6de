/** The wire format of protocol/protocol.go: the encoder, the buffer parser and the reader parser. */
module Codec {
  import opened Bytes

  const MAX_SUBJECT_LEN: nat := 4 * 1024
  const MAX_BODY_LEN: nat := 8 * 1024 * 1024

  const CMD_SUB: Byte := 0x01
  const CMD_UNSUB: Byte := 0x02
  const CMD_PUB: Byte := 0x03
  const CMD_MSG: Byte := 0x04
  const CMD_PING: Byte := 0x05
  const CMD_PONG: Byte := 0x06
  const CMD_OK: Byte := 0x07
  const CMD_ERR: Byte := 0x08

  datatype Message = Message(command: Byte, subject: Str, payload: Str)

  function BodyLen(m: Message): (n: nat)
  {
    3 + |m.subject| + |m.payload|
  }

  /** The messages both parsers are willing to return. */
  predicate InLimits(m: Message)
  {
    |m.subject| <= MAX_SUBJECT_LEN && BodyLen(m) <= MAX_BODY_LEN
  }

  /** The frame of a message: length prefix, command, subject length, subject, payload. */
  function Frame(m: Message): (f: Str)
    ensures |f| == 4 + BodyLen(m)
  {
    PutUint32(BodyLen(m)) + [m.command] + PutUint16(|m.subject|) + m.subject + m.payload
  }

  /** The layout of a frame byte by byte: the body length in four bytes, the command, the subject length in
      two bytes, both lengths most significant byte first and reduced as uint32 and uint16, then subject
      and payload. */
  predicate WireForm(d: Str, m: Message)
  {
    var n := |m.subject|;
    && |d| == 7 + n + |m.payload|
    && ((d[0] as int * 256 + d[1]) * 256 + d[2]) * 256 + d[3] == (3 + n + |m.payload|) % 4294967296
    && d[4] == m.command
    && d[5] as int * 256 + d[6] == n % 65536
    && d[7..7 + n] == m.subject && d[7 + n..] == m.payload
  }

  lemma LayoutFields(a: Str, b: Str, m: Message, rest: Str)
    requires |a| == 4 && |b| == 2
    ensures var d := a + [m.command] + b + m.subject + m.payload + rest; var n := |m.subject|;
            && d[..4] == a && d[4] == m.command && d[5..7] == b && d[7..7 + n] == m.subject
            && d[7 + n..4 + BodyLen(m)] == m.payload && d[4 + BodyLen(m)..] == rest
  {
  }

  lemma FrameWireForm(m: Message)
    ensures WireForm(Frame(m), m)
  {
    var a, b := PutUint32(BodyLen(m)), PutUint16(|m.subject|);
    ReadPut32(BodyLen(m));
    ReadPut16(|m.subject|);
    LayoutFields(a, b, m, []);
    assert Frame(m) == a + [m.command] + b + m.subject + m.payload + [];
  }

  /** Message.Encode: one allocation, five writes at increasing offsets. */
  method Encode(m: Message) returns (out: array<Byte>)
    ensures fresh(out)
    ensures out[..] == Frame(m)
    ensures WireForm(out[..], m)
  {
    FrameWireForm(m);
    var subjectLen := |m.subject|;
    out := new Byte[4 + BodyLen(m)](_ => 0);
    CopyInto(out, 0, PutUint32(BodyLen(m)));
    out[4] := m.command;
    assert out[..5] == PutUint32(BodyLen(m)) + [m.command];
    CopyInto(out, 5, PutUint16(subjectLen));
    CopyInto(out, 7, m.subject);
    CopyInto(out, 7 + subjectLen, m.payload);
    assert out[..] == out[..7 + subjectLen + |m.payload|];
  }

  // ---------------------------------------------------------------- buffer parser

  datatype BufferError = TooShort | BadBodyLength | Incomplete | BadSubjectLength

  datatype BufferResult = Parsed(msg: Message, remaining: Str) | Rejected(error: BufferError, remaining: Str)

  /** What ParseWithRemaining returns. The subject length is read from bytes 5 and 6 of the whole
      buffer even when the announced body is shorter than three bytes. */
  function BufferParse(data: Str): (r: BufferResult)
  {
    if |data| < 7 then Rejected(TooShort, data) else
    var bodyLen := Uint32(data[..4]);
    if bodyLen == 0 || bodyLen > MAX_BODY_LEN then Rejected(BadBodyLength, data)
    else if |data| < bodyLen + 4 then Rejected(Incomplete, data) else
    var subjectLen := Uint16(data[5..7]);
    if subjectLen > MAX_SUBJECT_LEN || 3 + subjectLen > bodyLen then Rejected(BadSubjectLength, data)
    else Parsed(Message(data[4], data[7..7 + subjectLen], data[7 + subjectLen..4 + bodyLen]), data[4 + bodyLen..])
  }

  /** ParseWithRemaining: an offset walks over the body; the payload is copied out. */
  method ParseWithRemaining(data: Str) returns (r: BufferResult)
    ensures r == BufferParse(data)
  {
    if |data| < 7 {
      return Rejected(TooShort, data);
    }
    var bodyLen := Uint32(data[..4]);
    if bodyLen <= 0 || bodyLen > MAX_BODY_LEN {
      return Rejected(BadBodyLength, data);
    }
    var totalPacketLen := bodyLen + 4;
    if |data| < totalPacketLen {
      return Rejected(Incomplete, data);
    }
    var msgData := data[4..]; // a slice of length bodyLen whose capacity reaches the end of data
    var offset := 0;
    var cmd := msgData[offset];
    offset := offset + 1;
    var subjectLen := Uint16(msgData[offset..offset + 2]);
    offset := offset + 2;
    assert msgData[1..3] == data[5..7];
    if subjectLen > MAX_SUBJECT_LEN || offset + subjectLen > bodyLen {
      return Rejected(BadSubjectLength, data);
    }
    var subject := msgData[offset..offset + subjectLen];
    offset := offset + subjectLen;
    var payload := new Byte[bodyLen - offset](_ => 0);
    CopyInto(payload, 0, msgData[offset..bodyLen]);
    assert payload[..] == payload[..bodyLen - offset];
    assert msgData == data[4..|data|];
    SliceOfSlice(data, 4, |data|, 3, 3 + subjectLen);
    SliceOfSlice(data, 4, |data|, 3 + subjectLen, bodyLen);
    r := Parsed(Message(cmd, subject, payload[..]), data[totalPacketLen..]);
  }

  // ---------------------------------------------------------------- reader parser

  datatype ReaderError = NoLength | InvalidBodyLength | NoBody | NoSubjectLength | InvalidSubjectLength

  datatype ReaderResult = Read(msg: Message) | Broken(error: ReaderError)

  /** What ParseFromReader returns on a connection that delivers `stream` and then ends,
      and the bytes it leaves unread. A short read consumes everything there is. */
  function ReaderParse(stream: Str): (r: (ReaderResult, Str))
  {
    if |stream| < 4 then (Broken(NoLength), []) else
    var bodyLen := Uint32(stream[..4]);
    if bodyLen == 0 || bodyLen > MAX_BODY_LEN then (Broken(InvalidBodyLength), stream[4..])
    else if |stream| < 4 + bodyLen then (Broken(NoBody), []) else
    var body, rest := stream[4..4 + bodyLen], stream[4 + bodyLen..];
    if bodyLen < 3 then (Broken(NoSubjectLength), rest) else
    var subjectLen := Uint16(body[1..3]);
    if subjectLen > MAX_SUBJECT_LEN || 3 + subjectLen > bodyLen then (Broken(InvalidSubjectLength), rest)
    else (Read(Message(body[0], body[3..3 + subjectLen], body[3 + subjectLen..])), rest)
  }

  /** A connection seen as a reliable byte stream that may end. */
  class Connection {
    var stream: Str

    constructor (bytes: Str)
      ensures stream == bytes
    {
      stream := bytes;
    }

    /** io.ReadFull of n bytes; on a short stream it consumes what is left and fails. */
    method ReadFull(n: nat) returns (ok: bool, buf: Str)
      modifies this
      ensures ok <==> n <= |old(stream)|
      ensures ok ==> buf == old(stream)[..n] && stream == old(stream)[n..]
      ensures !ok ==> buf == old(stream) && stream == []
    {
      ok := n <= |stream|;
      var k := if ok then n else |stream|;
      buf, stream := stream[..k], stream[k..];
    }
  }

  method ParseFromReader(reader: Connection) returns (r: ReaderResult)
    modifies reader
    ensures (r, reader.stream) == ReaderParse(old(reader.stream))
  {
    var ok, lengthBuf := reader.ReadFull(4);
    if !ok {
      return Broken(NoLength);
    }
    var bodyLen := Uint32(lengthBuf);
    if bodyLen <= 0 || bodyLen > MAX_BODY_LEN {
      return Broken(InvalidBodyLength);
    }
    ghost var afterLength := reader.stream;
    var msgData;
    ok, msgData := reader.ReadFull(bodyLen);
    if !ok {
      return Broken(NoBody);
    }
    assert msgData == old(reader.stream)[4..4 + bodyLen];
    assert reader.stream == old(reader.stream)[4 + bodyLen..];
    var offset := 0;
    var cmd := msgData[offset];
    offset := offset + 1;
    if offset + 2 > |msgData| {
      return Broken(NoSubjectLength);
    }
    var subjectLen := Uint16(msgData[offset..offset + 2]);
    offset := offset + 2;
    if subjectLen > MAX_SUBJECT_LEN || offset + subjectLen > |msgData| {
      return Broken(InvalidSubjectLength);
    }
    var subject := msgData[offset..offset + subjectLen];
    offset := offset + subjectLen;
    r := Read(Message(cmd, subject, msgData[offset..]));
  }

  // ---------------------------------------------------------------- what the format means

  /** On every byte string the two parsers both fail, or both return the same message and
      leave the same bytes. */
  lemma ParsersAgree(data: Str)
    ensures BufferParse(data).Parsed? <==> ReaderParse(data).0.Read?
    ensures BufferParse(data).Parsed? ==>
              ReaderParse(data) == (Read(BufferParse(data).msg), BufferParse(data).remaining)
  {
    if |data| >= 7 && |data| >= 4 + Uint32(data[..4]) >= 7 {
      var bodyLen := Uint32(data[..4]);
      var subjectLen := Uint16(data[5..7]);
      SliceOfSlice(data, 4, 4 + bodyLen, 1, 3);
      if 3 + subjectLen <= bodyLen {
        SliceOfSlice(data, 4, 4 + bodyLen, 3, 3 + subjectLen);
        SliceOfSlice(data, 4, 4 + bodyLen, 3 + subjectLen, bodyLen);
      }
    }
  }

  /** The five fields of m lie at their offsets in d, followed by rest. */
  predicate FieldsAt(d: Str, m: Message, rest: Str)
  {
    var n := |m.subject|;
    && |d| >= 4 + BodyLen(m)
    && Uint32(d[..4]) == BodyLen(m) && d[4] == m.command && Uint16(d[5..7]) == n
    && d[7..7 + n] == m.subject && d[7 + n..4 + BodyLen(m)] == m.payload && d[4 + BodyLen(m)..] == rest
  }

  lemma FrameFields(m: Message, rest: Str)
    requires InLimits(m)
    ensures FieldsAt(Frame(m) + rest, m, rest)
  {
    LayoutFields(PutUint32(BodyLen(m)), PutUint16(|m.subject|), m, rest);
    ReadPut32(BodyLen(m));
    ReadPut16(|m.subject|);
  }

  lemma FieldsParse(d: Str, m: Message, rest: Str)
    requires InLimits(m) && FieldsAt(d, m, rest)
    ensures BufferParse(d) == Parsed(m, rest)
  {
  }

  /** Every successful parse re-encodes to exactly the bytes it consumed. */
  lemma ParseIsSound(data: Str)
    requires BufferParse(data).Parsed?
    ensures InLimits(BufferParse(data).msg)
    ensures data == Frame(BufferParse(data).msg) + BufferParse(data).remaining
  {
    var m := BufferParse(data).msg;
    PutRead32(data[..4]);
    PutRead16(data[5..7]);
    assert BodyLen(m) == Uint32(data[..4]);
    assert data == data[..4] + [data[4]] + data[5..7] + m.subject + m.payload + data[4 + BodyLen(m)..];
  }

  /** Parsing a frame gives the message and the rest back for exactly the messages within the limits. */
  lemma RoundTrip(m: Message, rest: Str)
    ensures BufferParse(Frame(m) + rest) == Parsed(m, rest) <==> InLimits(m)
    ensures ReaderParse(Frame(m) + rest) == (Read(m), rest) <==> InLimits(m)
  {
    var d := Frame(m) + rest;
    ParsersAgree(d);
    if InLimits(m) {
      FrameFields(m, rest);
      FieldsParse(d, m, rest);
    } else if BufferParse(d) == Parsed(m, rest) {
      ParseIsSound(d);
    }
  }

  lemma ReadIsSound(data: Str)
    requires ReaderParse(data).0.Read?
    ensures InLimits(ReaderParse(data).0.msg)
    ensures data == Frame(ReaderParse(data).0.msg) + ReaderParse(data).1
  {
    ParsersAgree(data);
    ParseIsSound(data);
  }

  /** The format is prefix-free: a frame followed by anything determines both. */
  lemma FramesAreUnique(m: Message, rest: Str, m': Message, rest': Str)
    requires InLimits(m) && InLimits(m')
    requires Frame(m) + rest == Frame(m') + rest'
    ensures m == m' && rest == rest'
  {
    RoundTrip(m, rest);
    RoundTrip(m', rest');
  }

  /** No strict prefix of an in-limit frame is accepted by either parser. */
  lemma StrictPrefixRejected(m: Message, part: Str)
    requires InLimits(m)
    requires part < Frame(m)
    ensures BufferParse(part).Rejected? && ReaderParse(part).0.Broken?
  {
    ParsersAgree(part);
    if BufferParse(part).Parsed? {
      ParseIsSound(part);
      var p := BufferParse(part);
      var tail := Frame(m)[|part|..];
      assert Frame(m) + [] == Frame(p.msg) + (p.remaining + tail) by {
        assert Frame(m) == part + tail;
      }
      FramesAreUnique(m, [], p.msg, p.remaining + tail);
    }
  }

  lemma SameLastDigit(x: int, a: Byte, y: int, b: Byte)
    requires x * 256 + a == y * 256 + b
    ensures x == y && a == b
  {
  }

  lemma SameFourDigits(d: Str, e: Str)
    requires |d| >= 4 && |e| >= 4
    requires ((d[0] as int * 256 + d[1]) * 256 + d[2]) * 256 + d[3] ==
             ((e[0] as int * 256 + e[1]) * 256 + e[2]) * 256 + e[3]
    ensures d[..4] == e[..4]
  {
    SameLastDigit((d[0] as int * 256 + d[1]) * 256 + d[2], d[3], (e[0] as int * 256 + e[1]) * 256 + e[2], e[3]);
    SameLastDigit(d[0] as int * 256 + d[1], d[2], e[0] as int * 256 + e[1], e[2]);
    SameLastDigit(d[0], d[1], e[0], e[1]);
  }

  /** The layout determines the bytes. */
  lemma WireFormIsFrame(d: Str, m: Message)
    ensures WireForm(d, m) <==> d == Frame(m)
  {
    var f, n := Frame(m), |m.subject|;
    FrameWireForm(m);
    if WireForm(d, m) {
      SameFourDigits(d, f);
      SameLastDigit(d[5], d[6], f[5], f[6]);
      assert d == d[..4] + [d[4], d[5], d[6]] + d[7..7 + n] + d[7 + n..];
      assert f == f[..4] + [f[4], f[5], f[6]] + f[7..7 + n] + f[7 + n..];
    }
  }

  /** `data` starts with the layout of m, and `rest` follows. */
  predicate WireFormThen(data: Str, m: Message, rest: Str)
  {
    && |rest| <= |data|
    && WireForm(data[..|data| - |rest|], m) && data[|data| - |rest|..] == rest
  }

  /** Both parsers, on every byte string: they return m and leave `rest` exactly when the string is the
      layout of m followed by `rest` and m keeps to 4096 bytes of subject and 8 MiB of body. */
  lemma ParsesIffWireForm(data: Str, m: Message, rest: Str)
    ensures BufferParse(data) == Parsed(m, rest) <==>
              WireFormThen(data, m, rest) && |m.subject| <= 4096 && 3 + |m.subject| + |m.payload| <= 8388608
    ensures ReaderParse(data) == (Read(m), rest) <==> BufferParse(data) == Parsed(m, rest)
  {
    ParsersAgree(data);
    if BufferParse(data) == Parsed(m, rest) {
      ParseIsSound(data);
      assert data[..|data| - |rest|] == Frame(m);
      WireFormIsFrame(data[..|data| - |rest|], m);
    }
    if WireFormThen(data, m, rest) && InLimits(m) {
      WireFormIsFrame(data[..|data| - |rest|], m);
      assert data == Frame(m) + rest;
      RoundTrip(m, rest);
    }
  }

  /** The subscribe command for "a" on the wire. */
  lemma SubscribeFrame()
    ensures Frame(Message(CMD_SUB, Ascii("a"), [])) == [0, 0, 0, 4, 1, 0, 1, 97]
  {
  }

  // ---------------------------------------------------------------- streams of frames

  /** What a sender puts on the wire for a list of messages. */
  function Frames(ms: seq<Message>): (d: Str)
  {
    if ms == [] then [] else Frame(ms[0]) + Frames(ms[1..])
  }

  predicate AllInLimits(ms: seq<Message>)
  {
    forall i :: 0 <= i < |ms| ==> InLimits(ms[i])
  }

  /** Repeated ParseFromReader until the first failure: the messages it returned. */
  function DecodeStream(d: Str): (ms: seq<Message>)
    decreases |d|
  {
    var (r, rest) := ReaderParse(d);
    if r.Broken? then [] else
    assert |rest| < |d| by { ReadIsSound(d); }
    [r.msg] + DecodeStream(rest)
  }

  /** A concatenation of frames followed by bytes no parser accepts decodes to exactly its messages. */
  lemma {:induction false} UniqueDecoding(ms: seq<Message>, tail: Str)
    requires AllInLimits(ms)
    requires ReaderParse(tail).0.Broken?
    ensures DecodeStream(Frames(ms) + tail) == ms
    decreases |ms|
  {
    if ms == [] {
      assert Frames(ms) + tail == tail;
    } else {
      var rest := Frames(ms[1..]) + tail;
      assert Frames(ms) + tail == Frame(ms[0]) + rest;
      RoundTrip(ms[0], rest);
      UniqueDecoding(ms[1..], tail);
      assert ms == [ms[0]] + ms[1..];
    }
  }

  /** Conversely, whatever a reader decodes is in limits, and its frames are a prefix of the stream. */
  lemma {:induction false} DecodedFramesArePrefix(d: Str)
    ensures AllInLimits(DecodeStream(d))
    ensures Frames(DecodeStream(d)) <= d
    decreases |d|
  {
    var (r, rest) := ReaderParse(d);
    if !r.Read? {
    } else {
      ReadIsSound(d);
      DecodedFramesArePrefix(rest);
      var ms := DecodeStream(rest);
      assert ([r.msg] + ms)[1..] == ms;
      assert Frames([r.msg] + ms) == Frame(r.msg) + Frames(ms);
    }
  }

  lemma {:induction false} FramesConcat(a: seq<Message>, b: seq<Message>)
    ensures Frames(a + b) == Frames(a) + Frames(b)
  {
    if a == [] {
      assert a + b == b;
    } else {
      assert (a + b)[1..] == a[1..] + b;
      FramesConcat(a[1..], b);
    }
  }
}
