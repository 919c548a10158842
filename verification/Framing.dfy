/**
 Frames on the byte stream, and the incremental decoder.

 `ParseAll` is the one-shot meaning of a byte stream. The decoder, which sees the stream in arbitrary
 pieces, is proved to yield the same frames and the same error.
 */
module Framing {
  import opened Common
  import opened Bytes
  import opened LittleEndian

  const MAGIC: seq<byte> := [0x45, 0x43, 0x53, 0x43]
  const VERSION: byte := 1
  const ENVELOPE: nat := 12
  const PREFIX: nat := 4
  const MAXIMUM_FRAME: nat := 8192
  const MAXIMUM_BUFFERED: nat := 2 * (PREFIX + MAXIMUM_FRAME)
  /** The size of the buffer that both ends read the socket with. */
  const READ_BUFFER: nat := PREFIX + MAXIMUM_FRAME

  predicate KnownType(code: byte) { 0x01 <= code <= 0x09 || 0x80 <= code <= 0x86 }

  datatype Frame = Frame(code: byte, requestId: nat, payload: seq<byte>)
  {
    /** What EncodeFrame accepts. */
    predicate Encodable() {
      KnownType(code) && requestId <= MAX_U32 && ENVELOPE + |payload| <= MAXIMUM_FRAME
    }
  }

  function Encode(f: Frame): (r: seq<byte>) {
    if !KnownType(f.code) || ENVELOPE + |f.payload| > MAXIMUM_FRAME then []
    else Le(ENVELOPE + |f.payload|, 4) + MAGIC + [VERSION, f.code] + Le(0, 2) + Le(f.requestId, 4) + f.payload
  }

  datatype Error =
    | NoError | BufferLimit | InvalidLength | InvalidMagic | UnsupportedVersion | ReservedFlags | InvalidMessageType

  datatype Head = Incomplete | Bad(error: Error) | Good(frame: Frame, length: nat)

  /** The first frame of a byte stream. */
  function HeadOf(s: seq<byte>): (h: Head)
    ensures h.Good? ==> PREFIX + ENVELOPE <= h.length <= |s|
    ensures h.Incomplete? ==> |s| < PREFIX + MAXIMUM_FRAME
    ensures h.Bad? ==> h.error != NoError && h.error != BufferLimit
  {
    if |s| < PREFIX then Incomplete
    else
      var length := FromLe(s[..4]);
      var total := PREFIX + length;
      if length < ENVELOPE || length > MAXIMUM_FRAME then Bad(InvalidLength)
      else if |s| < total then Incomplete
      else if s[4..8] != MAGIC then Bad(InvalidMagic)
      else if s[8] != VERSION then Bad(UnsupportedVersion)
      else if FromLe(s[10..12]) != 0 then Bad(ReservedFlags)
      else if !KnownType(s[9]) then Bad(InvalidMessageType)
      else Good(Frame(s[9], FromLe(s[12..16]), s[16..total]), total)
  }

  datatype Parsed = Parsed(frames: seq<Frame>, rest: seq<byte>, error: Error)

  function ParseAll(s: seq<byte>): (p: Parsed)
    decreases |s|
  {
    match HeadOf(s)
    case Incomplete => Parsed([], s, NoError)
    case Bad(e) => Parsed([], s, e)
    case Good(f, n) => var p := ParseAll(s[n..]); p.(frames := [f] + p.frames)
  }

  lemma HeadIsStable(s: seq<byte>, t: seq<byte>)
    requires !HeadOf(s).Incomplete?
    ensures HeadOf(s + t) == HeadOf(s)
  {
    var u := s + t;
    assert u[..4] == s[..4];
    var total := PREFIX + FromLe(s[..4]);
    if total <= |s| && total >= 16 {
      assert u[4..8] == s[4..8] && u[10..12] == s[10..12] && u[12..16] == s[12..16] && u[16..total] == s[16..total];
    }
  }

  /** Parsing a longer stream continues where parsing the shorter one stopped. */
  lemma {:induction false} ParseAppend(s: seq<byte>, t: seq<byte>)
    ensures
      var (p, q) := (ParseAll(s), ParseAll(s + t));
      && (p.error != NoError ==> q.frames == p.frames && q.error == p.error)
      && (p.error == NoError ==>
            var r := ParseAll(p.rest + t);
            q.frames == p.frames + r.frames && q.error == r.error && q.rest == r.rest)
    decreases |s|
  {
    hide HeadOf;
    match HeadOf(s)
    case Incomplete =>
    case Bad(e) => HeadIsStable(s, t);
    case Good(f, n) =>
      HeadIsStable(s, t);
      assert (s + t)[n..] == s[n..] + t;
      ParseAppend(s[n..], t);
  }

  lemma {:induction false} RestIsIncomplete(s: seq<byte>)
    requires ParseAll(s).error == NoError
    ensures HeadOf(ParseAll(s).rest).Incomplete? && |ParseAll(s).rest| < PREFIX + MAXIMUM_FRAME
    decreases |s|
  {
    match HeadOf(s)
    case Good(f, n) => RestIsIncomplete(s[n..]);
    case _ =>
  }

  // ---------------------------------------------------------------- the decoder

  datatype Decoder = Decoder(buffer: seq<byte>, error: Error)

  datatype Fed = Fed(decoder: Decoder, frames: seq<Frame>)

  function Feeding(d: Decoder, bytes: seq<byte>): Fed {
    if d.error != NoError then Fed(d, [])
    else if |d.buffer| + |bytes| > MAXIMUM_BUFFERED then Fed(d.(error := BufferLimit), [])
    else
      var p := ParseAll(d.buffer + bytes);
      Fed(Decoder(if p.error == NoError then p.rest else d.buffer + bytes, p.error), p.frames)
  }

  class FrameDecoder {
    var buffer: seq<byte>
    var error: Error

    function State(): Decoder
      reads this
    {
      Decoder(buffer, error)
    }

    constructor ()
      ensures State() == Decoder([], NoError)
    {
      buffer := [];
      error := NoError;
    }

    method Feed(bytes: seq<byte>) returns (ok: bool, frames: seq<Frame>)
      modifies this
      ensures Fed(State(), frames) == Feeding(old(State()), bytes)
      ensures ok <==> error == NoError
    {
      hide HeadOf;
      frames := [];
      if error != NoError {
        return false, frames;
      }
      if |bytes| > MAXIMUM_BUFFERED || |buffer| > MAXIMUM_BUFFERED - |bytes| {
        error := BufferLimit;
        return false, frames;
      }
      buffer := buffer + bytes;
      var offset, e;
      frames, offset, e := Extract(buffer);
      if e != NoError {
        error := e;
        return false, frames;
      }
      buffer := buffer[offset..];
      ok := true;
    }
  }

  /** Take whole frames off the front of the buffer. */
  method Extract(buffer: seq<byte>) returns (frames: seq<Frame>, offset: nat, error: Error)
    ensures offset <= |buffer| && Parsed(frames, buffer[offset..], error) == ParseAll(buffer)
  {
    hide HeadOf, ParseAll;
    frames, offset := [], 0;
    assert buffer[0..] == buffer;
    while true
      invariant offset <= |buffer|
      invariant
        var p := ParseAll(buffer[offset..]);
        ParseAll(buffer) == p.(frames := frames + p.frames)
      decreases |buffer| - offset
    {
      ParseHead(buffer, offset, frames);
      match HeadOf(buffer[offset..]) {
        case Incomplete => return frames, offset, NoError;
        case Bad(e) => return frames, offset, e;
        case Good(f, n) => frames, offset := frames + [f], offset + n;
      }
    }
  }

  lemma ParseHead(buffer: seq<byte>, offset: nat, frames: seq<Frame>)
    requires offset <= |buffer|
    ensures
      var (s, p) := (buffer[offset..], ParseAll(buffer[offset..]));
      match HeadOf(s)
      case Incomplete => p == Parsed([], s, NoError) && frames + p.frames == frames
      case Bad(e) => p == Parsed([], s, e) && frames + p.frames == frames
      case Good(f, n) =>
        var q := ParseAll(buffer[offset + n..]);
        p == q.(frames := [f] + q.frames) && frames + p.frames == (frames + [f]) + q.frames
  {
    hide HeadOf;
    match HeadOf(buffer[offset..])
    case Good(f, n) => assert buffer[offset..][n..] == buffer[offset + n..];
    case _ =>
  }

  function Joined(pieces: seq<seq<byte>>): seq<byte> {
    if pieces == [] then [] else Joined(pieces[..|pieces| - 1]) + pieces[|pieces| - 1]
  }

  /** A fresh decoder fed piece after piece. */
  function FeedAll(pieces: seq<seq<byte>>): Fed {
    if pieces == [] then Fed(Decoder([], NoError), [])
    else
      var before := FeedAll(pieces[..|pieces| - 1]);
      var now := Feeding(before.decoder, pieces[|pieces| - 1]);
      now.(frames := before.frames + now.frames)
  }

  predicate SocketReads(pieces: seq<seq<byte>>) {
    forall i :: 0 <= i < |pieces| ==> |pieces[i]| <= READ_BUFFER
  }

  /**
   For every byte stream and every split of it into socket reads, the decoder yields the frames and the
   error of the one-shot parser; in particular it never reports BufferLimit.
   */
  lemma {:induction false} DecoderRefinesParser(pieces: seq<seq<byte>>)
    requires SocketReads(pieces)
    ensures
      var (fed, p) := (FeedAll(pieces), ParseAll(Joined(pieces)));
      && fed.frames == p.frames && fed.decoder.error == p.error && p.error != BufferLimit
      && (p.error == NoError ==> fed.decoder.buffer == p.rest)
  {
    if pieces != [] {
      var (rest, last) := (pieces[..|pieces| - 1], pieces[|pieces| - 1]);
      DecoderRefinesParser(rest);
      ParseAppend(Joined(rest), last);
      if ParseAll(Joined(rest)).error == NoError {
        RestIsIncomplete(Joined(rest));
        ErrorIsNotBufferLimit(ParseAll(Joined(rest)).rest + last);
      }
    }
  }

  lemma {:induction false} ErrorIsNotBufferLimit(s: seq<byte>)
    ensures ParseAll(s).error != BufferLimit
    decreases |s|
  {
    match HeadOf(s)
    case Good(f, n) => ErrorIsNotBufferLimit(s[n..]);
    case _ =>
  }

  // ---------------------------------------------------------------- round trip

  lemma HeadOfEncoded(f: Frame, t: seq<byte>)
    requires f.Encodable()
    ensures |Encode(f)| == PREFIX + ENVELOPE + |f.payload|
    ensures HeadOf(Encode(f) + t) == Good(f, |Encode(f)|)
  {
    Widths();
    var e := Encode(f);
    LeRoundTrip(ENVELOPE + |f.payload|, 4);
    LeRoundTrip(0, 2);
    LeRoundTrip(f.requestId, 4);
    assert e[..4] == Le(ENVELOPE + |f.payload|, 4) && e[4..8] == MAGIC && e[8] == VERSION && e[9] == f.code;
    assert e[10..12] == Le(0, 2) && e[12..16] == Le(f.requestId, 4) && e[16..] == f.payload;
    HeadOfParts(f, e);
    HeadIsStable(e, t);
  }

  lemma HeadOfParts(f: Frame, e: seq<byte>)
    requires f.Encodable() && |e| == PREFIX + ENVELOPE + |f.payload|
    requires FromLe(e[..4]) == ENVELOPE + |f.payload| && e[4..8] == MAGIC && e[8] == VERSION && e[9] == f.code
    requires FromLe(e[10..12]) == 0 && FromLe(e[12..16]) == f.requestId && e[16..] == f.payload
    ensures HeadOf(e) == Good(f, |e|)
  {
    assert e[16..|e|] == e[16..];
  }

  function EncodeAll(frames: seq<Frame>): seq<byte> {
    if frames == [] then [] else Encode(frames[0]) + EncodeAll(frames[1..])
  }

  /** Any concatenation of encoded frames decodes to the frames. */
  lemma {:induction false} EncodedFramesDecode(frames: seq<Frame>)
    requires forall i :: 0 <= i < |frames| ==> frames[i].Encodable()
    ensures ParseAll(EncodeAll(frames)) == Parsed(frames, [], NoError)
  {
    assert HeadOf([]) == Incomplete;
    hide Encode, HeadOf, Frame.Encodable;
    if frames != [] {
      var (f, t) := (frames[0], EncodeAll(frames[1..]));
      EncodedFramesDecode(frames[1..]);
      HeadOfEncoded(f, t);
      assert (Encode(f) + t)[|Encode(f)|..] == t;
      assert [f] + frames[1..] == frames;
    }
  }

  /** However the sent bytes are cut and however many have arrived, the decoded frames are a prefix of the sent ones. */
  lemma PrefixDecodes(sent: seq<Frame>, pieces: seq<seq<byte>>)
    requires forall i :: 0 <= i < |sent| ==> sent[i].Encodable()
    requires SocketReads(pieces) && Joined(pieces) <= EncodeAll(sent)
    ensures FeedAll(pieces).decoder.error == NoError && FeedAll(pieces).frames <= sent
  {
    hide FeedAll, ParseAll, Joined, EncodeAll, Frame.Encodable;
    var (s, all) := (Joined(pieces), EncodeAll(sent));
    assert all == s + all[|s|..];
    ParseAppend(s, all[|s|..]);
    EncodedFramesDecode(sent);
    DecoderRefinesParser(pieces);
  }
}
