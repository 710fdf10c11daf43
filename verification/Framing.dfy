/**
 * Length-prefixed messages over byte streams that deliver and accept arbitrary pieces: four bytes of
 * big-endian length, then 1 to 65536 bytes of payload.
 */
module Framing {
  import opened Wrappers
  import opened Base32

  const MAX_FRAME_SIZE := 64 * 1024

  datatype FrameError = Truncated | FrameTooLarge | InvalidPayload | WriteFailed | ShortWrite

  // ---------- the format ----------

  function PutUint32(n: nat): (b: seq<Byte>)
    requires n < 0x1_0000_0000
    ensures |b| == 4
  {
    [n / 0x100_0000, (n / 0x1_0000) % 0x100, (n / 0x100) % 0x100, n % 0x100]
  }

  function Uint32(b: seq<Byte>): (n: nat)
    requires |b| == 4
    ensures n < 0x1_0000_0000
  {
    b[0] as int * 0x100_0000 + b[1] as int * 0x1_0000 + b[2] as int * 0x100 + b[3] as int
  }

  lemma Uint32RoundTrip(n: nat)
    requires n < 0x1_0000_0000
    ensures Uint32(PutUint32(n)) == n
  {
    var a, b := n / 0x100, n / 0x1_0000;
    assert b == a / 0x100 && n / 0x100_0000 == b / 0x100;
    assert a == b * 0x100 + a % 0x100 && b == b / 0x100 * 0x100 + b % 0x100;
  }

  lemma PutUint32Inverts(b: seq<Byte>)
    requires |b| == 4
    ensures PutUint32(Uint32(b)) == b
  {
    var n := Uint32(b);
    assert n / 0x100_0000 == b[0] as int;
    assert n / 0x1_0000 == b[0] as int * 0x100 + b[1] as int;
    assert n / 0x100 == b[0] as int * 0x1_0000 + b[1] as int * 0x100 + b[2] as int;
  }

  function Frame(payload: seq<Byte>): seq<Byte>
    requires |payload| <= MAX_FRAME_SIZE
  {
    PutUint32(|payload|) + payload
  }

  predicate Sendable(payload: seq<Byte>) {
    1 <= |payload| <= MAX_FRAME_SIZE
  }

  /** What reading one message from `stream` yields, and what it leaves unread. */
  function ReadFrame(stream: seq<Byte>): (Result<seq<Byte>, FrameError>, seq<Byte>) {
    if |stream| < 4 then (Err(Truncated), [])
    else
      var length := Uint32(stream[..4]);
      if length == 0 || length > MAX_FRAME_SIZE then (Err(FrameTooLarge), stream[4..])
      else if |stream| - 4 < length then (Err(Truncated), [])
      else (Ok(stream[4..4 + length]), stream[4 + length..])
  }

  lemma ReadsFrame(stream: seq<Byte>, payload: seq<Byte>, rest: seq<Byte>)
    ensures ReadFrame(stream) == (Ok(payload), rest)
            <==> Sendable(payload) && stream == Frame(payload) + rest
  {
    if ReadFrame(stream) == (Ok(payload), rest) {
      PutUint32Inverts(stream[..4]);
      assert stream == stream[..4] + stream[4..];
      assert stream[4..] == payload + rest;
    }
    if Sendable(payload) && stream == Frame(payload) + rest {
      Uint32RoundTrip(|payload|);
      assert stream[..4] == PutUint32(|payload|);
      assert stream[4..] == payload + rest;
    }
  }

  lemma FrameBytes(payload: seq<Byte>)
    requires |payload| <= 65536
    ensures |payload| <= MAX_FRAME_SIZE
    ensures Frame(payload) == [0, |payload| / 65536, |payload| / 256 % 256, |payload| % 256] + payload
  {
  }

  /**
   * A message is read exactly when the stream starts with its frame, the length as four bytes from the most
   * significant one and then the payload; the rest stays unread.
   */
  lemma ReadsExactlyFrames(stream: seq<Byte>, payload: seq<Byte>, rest: seq<Byte>)
    ensures ReadFrame(stream) == (Ok(payload), rest)
            <==> Sendable(payload) && stream == Frame(payload) + rest
    ensures ReadFrame(stream) == (Ok(payload), rest)
            <==>
            && 1 <= |payload| <= 65536
            && stream == [0, |payload| / 65536, |payload| / 256 % 256, |payload| % 256] + payload + rest
  {
    hide ReadFrame, Frame;
    ReadsFrame(stream, payload, rest);
    if |payload| <= 65536 {
      FrameBytes(payload);
    }
  }

  /** A frame cut short anywhere is never taken for a message. */
  lemma ProperPrefixIsTruncated(payload: seq<Byte>, k: nat)
    requires Sendable(payload) && k < |Frame(payload)|
    ensures ReadFrame(Frame(payload)[..k]) == (Err(Truncated), [])
  {
    Uint32RoundTrip(|payload|);
    if k >= 4 {
      assert Frame(payload)[..k][..4] == PutUint32(|payload|);
    }
  }

  function Decoded<T>(frame: Result<seq<Byte>, FrameError>, decode: seq<Byte> -> Option<T>): Result<T, FrameError> {
    match frame
    case Err(e) => Err(e)
    case Ok(payload) => match decode(payload) case None => Err(InvalidPayload) case Some(m) => Ok(m)
  }

  // ---------- many messages ----------

  /** Messages whose encodings can be sent and decode to themselves. */
  ghost predicate Faithful<T>(messages: seq<T>, encode: T -> seq<Byte>, decode: seq<Byte> -> Option<T>) {
    forall m :: m in messages ==> Sendable(encode(m)) && decode(encode(m)) == Some(m)
  }

  function FrameStream<T>(messages: seq<T>, encode: T -> seq<Byte>): seq<Byte>
    requires forall m :: m in messages ==> Sendable(encode(m))
  {
    if messages == [] then []
    else
      assert Sendable(encode(messages[0]));
      Frame(encode(messages[0])) + FrameStream(messages[1..], encode)
  }

  /** Reading up to `n` messages one after the other: those read, what stopped it early, and what is left unread. */
  function ReadAll<T>(stream: seq<Byte>, decode: seq<Byte> -> Option<T>, n: nat)
    : (seq<T>, Option<FrameError>, seq<Byte>)
    decreases n
  {
    if n == 0 then ([], None, stream)
    else
      var (frame, rest) := ReadFrame(stream);
      match Decoded(frame, decode)
      case Err(e) => ([], Some(e), rest)
      case Ok(m) =>
        var (others, failure, left) := ReadAll(rest, decode, n - 1);
        ([m] + others, failure, left)
  }

  /** Messages written back to back come out as the same list, and nothing is left over. */
  lemma {:induction false} StreamRoundTrip<T>(messages: seq<T>, encode: T -> seq<Byte>, decode: seq<Byte> -> Option<T>,
                                              rest: seq<Byte>)
    requires Faithful(messages, encode, decode)
    ensures ReadAll(FrameStream(messages, encode) + rest, decode, |messages|) == (messages, None, rest)
    decreases |messages|
  {
    hide ReadFrame;
    if messages == [] {
      assert FrameStream(messages, encode) + rest == rest;
    } else {
      var tail := FrameStream(messages[1..], encode) + rest;
      assert FrameStream(messages, encode) + rest == Frame(encode(messages[0])) + tail;
      ReadsFrame(FrameStream(messages, encode) + rest, encode(messages[0]), tail);
      StreamRoundTrip(messages[1..], encode, decode, rest);
      assert messages == [messages[0]] + messages[1..];
    }
  }

  /** Cut short anywhere, the stream yields the messages whose frames are whole and then says it is truncated. */
  lemma {:induction false} CutStreamYieldsPrefix<T>(messages: seq<T>, encode: T -> seq<Byte>,
                                                    decode: seq<Byte> -> Option<T>, cut: seq<Byte>) returns (j: nat)
    requires Faithful(messages, encode, decode)
    requires cut < FrameStream(messages, encode)
    ensures j < |messages| && ReadAll(cut, decode, |messages|) == (messages[..j], Some(Truncated), [])
    ensures |FrameStream(messages[..j], encode)| <= |cut| < |FrameStream(messages[..j + 1], encode)|
    decreases |messages|
  {
    hide ReadFrame, Frame;
    var first := Frame(encode(messages[0]));
    var tail := FrameStream(messages[1..], encode);
    if |cut| < |first| {
      j := 0;
      assert cut == first[..|cut|];
      ProperPrefixIsTruncated(encode(messages[0]), |cut|);
      assert messages[..1][1..] == [] && FrameStream(messages[..1], encode) == first;
    } else {
      var rest := cut[|first|..];
      assert cut == first + rest && rest < tail;
      ReadsFrame(cut, encode(messages[0]), rest);
      var k := CutStreamYieldsPrefix(messages[1..], encode, decode, rest);
      j := k + 1;
      assert messages[..j][1..] == messages[1..][..k] && messages[..j + 1][1..] == messages[1..][..k + 1];
      assert messages[..j] == [messages[0]] + messages[1..][..k];
    }
  }

  lemma {:induction false} StreamConcat<T>(a: seq<T>, b: seq<T>, encode: T -> seq<Byte>)
    requires forall m :: m in a + b ==> Sendable(encode(m))
    ensures forall m :: m in a || m in b ==> m in a + b
    ensures FrameStream(a + b, encode) == FrameStream(a, encode) + FrameStream(b, encode)
    decreases |a|
  {
    if a == [] {
      assert a + b == b;
    } else {
      assert (a + b)[1..] == a[1..] + b;
      StreamConcat(a[1..], b, encode);
    }
  }

  // ---------- readers ----------

  function Flatten(chunks: seq<seq<Byte>>): seq<Byte> {
    if chunks == [] then [] else chunks[0] + Flatten(chunks[1..])
  }

  function Weight(chunks: seq<seq<Byte>>): nat {
    if chunks == [] then 0 else 1 + |chunks[0]| + Weight(chunks[1..])
  }

  /** A byte source that hands out its stream in pieces of its own choosing, empty ones included. */
  class ChunkReader {
    var chunks: seq<seq<Byte>>

    constructor (chunks: seq<seq<Byte>>)
      ensures this.chunks == chunks
    {
      this.chunks := chunks;
    }

    function Unread(): seq<Byte>
      reads this
    {
      Flatten(chunks)
    }

    /** io.Reader.Read into a buffer of `space` bytes; None is the end of the stream. */
    method Read(space: nat) returns (data: Option<seq<Byte>>)
      requires space > 0
      modifies this
      ensures data.None? ==> old(chunks) == [] && chunks == []
      ensures data.Some? ==> |data.value| <= space && old(Unread()) == data.value + Unread()
      ensures data.Some? ==> Weight(chunks) < Weight(old(chunks))
    {
      if chunks == [] {
        return None;
      }
      var first := chunks[0];
      if |first| <= space {
        chunks := chunks[1..];
        return Some(first);
      }
      chunks := [first[space..]] + chunks[1..];
      assert chunks[1..] == old(chunks)[1..];
      assert first == first[..space] + first[space..];
      return Some(first[..space]);
    }
  }

  /** io.ReadFull: fills the whole buffer, or runs into the end of the stream. */
  method ReadFull(reader: ChunkReader, buffer: array<Byte>) returns (ok: bool)
    modifies reader, buffer
    ensures ok == (buffer.Length <= |old(reader.Unread())|)
    ensures ok ==> buffer[..] == old(reader.Unread())[..buffer.Length]
    ensures ok ==> reader.Unread() == old(reader.Unread())[buffer.Length..]
    ensures !ok ==> reader.Unread() == []
  {
    var filled := 0;
    while filled < buffer.Length
      invariant 0 <= filled <= buffer.Length
      invariant old(reader.Unread()) == buffer[..filled] + reader.Unread()
      decreases Weight(reader.chunks)
    {
      var data := reader.Read(buffer.Length - filled);
      if data.None? {
        return false;
      }
      var piece := data.value;
      ghost var before := buffer[..filled];
      forall i | 0 <= i < |piece| {
        buffer[filled + i] := piece[i];
      }
      assert buffer[..filled + |piece|] == before + piece;
      filled := filled + |piece|;
    }
    assert buffer[..filled] == buffer[..];
    ok := true;
  }

  /** readMessage: header, length check, payload, decoding. */
  method ReadMessage<T>(reader: ChunkReader, decode: seq<Byte> -> Option<T>) returns (r: Result<T, FrameError>)
    modifies reader
    ensures var (frame, rest) := ReadFrame(old(reader.Unread()));
            r == Decoded(frame, decode) && reader.Unread() == rest
  {
    ghost var stream := reader.Unread();
    var header := new Byte[4](_ => 0);
    var ok := ReadFull(reader, header);
    if !ok {
      return Err(Truncated);
    }
    var length := Uint32(header[..]);
    if length == 0 || length > MAX_FRAME_SIZE {
      return Err(FrameTooLarge);
    }
    var payload := new Byte[length](_ => 0);
    ok := ReadFull(reader, payload);
    if !ok {
      return Err(Truncated);
    }
    assert stream[4..][..length] == stream[4..4 + length];
    assert stream[4..][length..] == stream[4 + length..];
    match decode(payload[..]) {
      case None => return Err(InvalidPayload);
      case Some(m) => return Ok(m);
    }
  }

  // ---------- writers ----------

  /**
   * A byte sink that takes as much of each piece as it likes, and may report an error besides. `stalls`
   * counts the calls that failed or took nothing, `cuts` those that failed or did not take everything.
   */
  class ChunkWriter {
    var accepted: seq<Byte>
    ghost var stalls: nat
    ghost var cuts: nat

    constructor ()
      ensures accepted == []
    {
      accepted := [];
      stalls, cuts := 0, 0;
    }

    method Write(data: seq<Byte>) returns (n: nat, failed: bool)
      modifies this
      ensures n <= |data| && accepted == old(accepted) + data[..n]
      ensures stalls == old(stalls) + if failed || n == 0 < |data| then 1 else 0
      ensures cuts == old(cuts) + if failed || n < |data| then 1 else 0
    {
      n :| n <= |data|;
      failed := *;
      accepted := accepted + data[..n];
      stalls := stalls + if failed || n == 0 < |data| then 1 else 0;
      cuts := cuts + if failed || n < |data| then 1 else 0;
    }
  }

  /**
   * The session layer's writeMessage: one frame buffer, written by a loop that goes on after short
   * writes. The loop ends for every writer, and an error never means more than a part was sent.
   */
  method WriteMessage(writer: ChunkWriter, payload: seq<Byte>) returns (r: Result<(), FrameError>)
    modifies writer
    ensures |payload| > MAX_FRAME_SIZE ==> r == Err(FrameTooLarge) && writer.accepted == old(writer.accepted)
    ensures |payload| <= MAX_FRAME_SIZE ==> (r.Ok? <==> writer.stalls == old(writer.stalls))
    ensures r.Ok? ==> |payload| <= MAX_FRAME_SIZE && writer.accepted == old(writer.accepted) + Frame(payload)
    ensures |payload| <= MAX_FRAME_SIZE ==>
              old(writer.accepted) <= writer.accepted <= old(writer.accepted) + Frame(payload)
  {
    if |payload| > MAX_FRAME_SIZE {
      return Err(FrameTooLarge);
    }
    ghost var before := writer.accepted;
    var frame := PutUint32(|payload|) + payload;
    ghost var sent := 0;
    while |frame| > 0
      invariant 0 <= sent <= |Frame(payload)|
      invariant frame == Frame(payload)[sent..]
      invariant writer.accepted == before + Frame(payload)[..sent] && writer.stalls == old(writer.stalls)
      decreases |frame|
    {
      var n, failed := writer.Write(frame);
      assert Frame(payload)[..sent] + Frame(payload)[sent..][..n] == Frame(payload)[..sent + n];
      sent := sent + n;
      if failed {
        return Err(WriteFailed);
      }
      if n == 0 {
        return Err(ShortWrite);
      }
      frame := frame[n..];
    }
    assert Frame(payload)[..sent] == Frame(payload);
    r := Ok(());
  }

  /**
   * The pairing layer's writeMessage: header and payload in one call each. A writer that keeps to the
   * io.Writer contract reports an error with every short write.
   */
  method WriteMessageInTwo(writer: ChunkWriter, payload: seq<Byte>) returns (r: Result<(), FrameError>)
    modifies writer
    ensures writer.cuts >= old(writer.cuts)
    ensures |payload| > MAX_FRAME_SIZE ==> r == Err(FrameTooLarge) && writer.accepted == old(writer.accepted)
    ensures |payload| <= MAX_FRAME_SIZE ==> (r.Ok? <==> writer.cuts == old(writer.cuts))
    ensures r.Ok? ==> |payload| <= MAX_FRAME_SIZE && writer.accepted == old(writer.accepted) + Frame(payload)
    ensures |payload| <= MAX_FRAME_SIZE ==>
              old(writer.accepted) <= writer.accepted <= old(writer.accepted) + Frame(payload)
  {
    if |payload| > MAX_FRAME_SIZE {
      return Err(FrameTooLarge);
    }
    var header := PutUint32(|payload|);
    var n, failed := writer.Write(header);
    assert header[..n] <= Frame(payload);
    if failed || n < |header| {
      return Err(WriteFailed);
    }
    assert header[..n] == header;
    n, failed := writer.Write(payload);
    assert header + payload[..n] <= Frame(payload);
    if failed || n < |payload| {
      return Err(WriteFailed);
    }
    assert payload[..n] == payload;
    r := Ok(());
  }

  // ---------- from one end to the other ----------

  /** One message after the other; the first error ends it. */
  method SendAll<T>(writer: ChunkWriter, messages: seq<T>, encode: T -> seq<Byte>) returns (r: Result<(), FrameError>)
    requires forall m :: m in messages ==> Sendable(encode(m))
    modifies writer
    ensures r.Ok? <==> writer.stalls == old(writer.stalls)
    ensures r.Ok? ==> writer.accepted == old(writer.accepted) + FrameStream(messages, encode)
    ensures old(writer.accepted) <= writer.accepted <= old(writer.accepted) + FrameStream(messages, encode)
  {
    hide Frame, FrameStream;
    ghost var before := writer.accepted;
    StreamOfNone(encode);
    var i := 0;
    while i < |messages|
      invariant 0 <= i <= |messages|
      invariant writer.accepted == before + FrameStream(messages[..i], encode)
      invariant writer.stalls == old(writer.stalls)
    {
      ghost var soFar := FrameStream(messages[..i], encode);
      StreamSplits(messages, i, encode);
      r := WriteMessage(writer, encode(messages[i]));
      assert before + soFar + Frame(encode(messages[i])) == before + (soFar + Frame(encode(messages[i])));
      if r.Err? {
        return;
      }
      i := i + 1;
    }
    assert messages[..i] == messages;
    r := Ok(());
  }

  lemma StreamOfNone<T>(encode: T -> seq<Byte>)
    ensures FrameStream([], encode) == []
  {
  }

  lemma StreamSplits<T>(messages: seq<T>, i: nat, encode: T -> seq<Byte>)
    requires i < |messages| && forall m :: m in messages ==> Sendable(encode(m))
    ensures FrameStream(messages[..i + 1], encode) == FrameStream(messages[..i], encode) + Frame(encode(messages[i]))
    ensures FrameStream(messages[..i + 1], encode) <= FrameStream(messages, encode)
  {
    hide Frame, Sendable, FrameStream;
    StreamGrows(messages, i, encode);
    StreamStarts(messages, i + 1, encode);
  }

  lemma StreamGrows<T>(messages: seq<T>, i: nat, encode: T -> seq<Byte>)
    requires i < |messages| && forall m :: m in messages ==> Sendable(encode(m))
    ensures FrameStream(messages[..i + 1], encode) == FrameStream(messages[..i], encode) + Frame(encode(messages[i]))
  {
    hide Frame, Sendable, FrameStream;
    assert messages[..i + 1] == messages[..i] + [messages[i]];
    StreamConcat(messages[..i], [messages[i]], encode);
    StreamOfOne(messages[i], encode);
  }

  lemma StreamStarts<T>(messages: seq<T>, i: nat, encode: T -> seq<Byte>)
    requires i <= |messages| && forall m :: m in messages ==> Sendable(encode(m))
    ensures FrameStream(messages[..i], encode) <= FrameStream(messages, encode)
  {
    hide Frame, Sendable, FrameStream;
    assert messages == messages[..i] + messages[i..];
    StreamConcat(messages[..i], messages[i..], encode);
  }

  lemma StreamOfOne<T>(m: T, encode: T -> seq<Byte>)
    requires Sendable(encode(m))
    ensures FrameStream([m], encode) == Frame(encode(m))
  {
    assert [m][1..] == [];
    assert FrameStream([m][1..], encode) == [];
  }

  /** Up to `n` messages, one after the other, from a source that delivers in pieces. */
  method ReceiveAll<T>(reader: ChunkReader, decode: seq<Byte> -> Option<T>, n: nat)
    returns (messages: seq<T>, failure: Option<FrameError>)
    modifies reader
    ensures (messages, failure, reader.Unread()) == ReadAll(old(reader.Unread()), decode, n)
  {
    hide ReadFrame, Decoded;
    messages, failure := [], None;
    ghost var whole := ReadAll(reader.Unread(), decode, n);
    ghost var ahead := whole;
    assert [] + whole.0 == whole.0;
    var i := 0;
    while i < n
      invariant 0 <= i <= n
      invariant ahead == ReadAll(reader.Unread(), decode, n - i)
      invariant whole == (messages + ahead.0, ahead.1, ahead.2)
    {
      var next := ReadMessage(reader, decode);
      if next.Err? {
        failure := Some(next.error);
        assert messages + [] == messages;
        return;
      }
      ghost var after := ReadAll(reader.Unread(), decode, n - i - 1);
      assert ahead.0 == [next.value] + after.0;
      assert messages + ([next.value] + after.0) == (messages + [next.value]) + after.0;
      messages := messages + [next.value];
      ahead := after;
      i := i + 1;
    }
    assert messages + [] == messages;
  }

  /**
   * An in-order pipe that breaks the bytes into any pieces (`cut`) and may give up at any byte. What is
   * received is always the first of the messages sent, unchanged and in order; all of them when sending
   * reported no error, and then nothing is left in the pipe.
   */
  method PipeDelivers<T>(writer: ChunkWriter, messages: seq<T>, encode: T -> seq<Byte>, decode: seq<Byte> -> Option<T>,
                         cut: seq<Byte> -> seq<seq<Byte>>)
    returns (sent: Result<(), FrameError>, received: seq<T>, failure: Option<FrameError>, reader: ChunkReader)
    requires writer.accepted == [] && Faithful(messages, encode, decode)
    requires forall bytes :: Flatten(cut(bytes)) == bytes
    modifies writer
    ensures fresh(reader) && reader.Unread() == []
    ensures received <= messages
    ensures sent.Ok? <==> writer.stalls == old(writer.stalls)
    ensures sent.Ok? ==> received == messages
    ensures failure == if received == messages then None else Some(Truncated)
  {
    sent := SendAll(writer, messages, encode);
    reader := new ChunkReader(cut(writer.accepted));
    received, failure := ReceiveAll(reader, decode, |messages|);
    ghost var whole := FrameStream(messages, encode);
    if writer.accepted == whole {
      StreamRoundTrip(messages, encode, decode, []);
      assert whole + [] == whole;
    } else {
      ghost var j := CutStreamYieldsPrefix(messages, encode, decode, writer.accepted);
    }
  }
}
