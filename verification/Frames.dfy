/** The 12-byte frame format of the multiplexer: client id, stream id, length, sequence number. */
module Frames {
  import opened Words
  import opened Sequences

  const HEADER_SIZE: int := 12
  const CONTROL_STREAM_ID: u16 := 0xFFFF
  const CONTROL_RESET_CLIENT: u32 := 1
  const U16_MAX: u16 := 0xFFFF

  function Header(clientId: u32, sid: u16, length: u16, sequence: u32): (s: seq<byte>)
    ensures |s| == HEADER_SIZE
  {
    Be32(clientId) + Be16(sid) + Be16(length) + Be32(sequence)
  }

  /** The length field is a truncating cast; every chunk sent is far shorter than 65536 bytes. */
  function DataFrame(clientId: u32, sid: u16, sequence: u32, payload: seq<byte>): seq<byte> {
    Header(clientId, sid, |payload| % TWO_TO_THE_16, sequence) + payload
  }

  function CloseFrame(clientId: u32, sid: u16): seq<byte> {
    Header(clientId, sid, 0, 0)
  }

  function ControlFrame(clientId: u32, kind: u32): seq<byte> {
    Header(clientId, CONTROL_STREAM_ID, U16_MAX, kind)
  }

  function ResetFrame(clientId: u32): seq<byte> {
    ControlFrame(clientId, CONTROL_RESET_CLIENT)
  }

  /** What `handle_frame` takes a byte string for. */
  datatype Parsed =
    | Ignored
    | Reset(clientId: u32)
    | Close(clientId: u32, sid: u16)
    | Data(clientId: u32, sid: u16, sequence: u32, payload: seq<byte>)

  function Parse(frame: seq<byte>): Parsed {
    if |frame| < HEADER_SIZE then Ignored
    else
      var clientId := FromBe32(frame[0..4]);
      var sid := FromBe16(frame[4..6]);
      var length := FromBe16(frame[6..8]);
      var sequence := FromBe32(frame[8..12]);
      if sid == CONTROL_STREAM_ID && length == U16_MAX then
        if sequence == CONTROL_RESET_CLIENT then Reset(clientId) else Ignored
      else if length == 0 then Close(clientId, sid)
      else if |frame| < HEADER_SIZE + length then Ignored
      else Data(clientId, sid, sequence, frame[HEADER_SIZE..HEADER_SIZE + length])
  }

  lemma HeaderFields(clientId: u32, sid: u16, length: u16, sequence: u32, rest: seq<byte>)
    ensures var f := Header(clientId, sid, length, sequence) + rest;
      && FromBe32(f[0..4]) == clientId && FromBe16(f[4..6]) == sid
      && FromBe16(f[6..8]) == length && FromBe32(f[8..12]) == sequence
      && f[HEADER_SIZE..] == rest
  {
    var f := Header(clientId, sid, length, sequence) + rest;
    assert f[0..4] == Be32(clientId);
    assert f[4..6] == Be16(sid);
    assert f[6..8] == Be16(length);
    assert f[8..12] == Be32(sequence);
    Be32Bijective(clientId, Be32(clientId));
    Be32Bijective(sequence, Be32(sequence));
    Be16Bijective(sid, Be16(sid));
    Be16Bijective(length, Be16(length));
  }

  lemma HeaderOfFields(frame: seq<byte>)
    requires |frame| >= HEADER_SIZE
    ensures frame[..HEADER_SIZE]
         == Header(FromBe32(frame[0..4]), FromBe16(frame[4..6]), FromBe16(frame[6..8]), FromBe32(frame[8..12]))
  {
    Be32Bijective(0, frame[0..4]);
    Be32Bijective(0, frame[8..12]);
    Be16Bijective(0, frame[4..6]);
    Be16Bijective(0, frame[6..8]);
    assert frame[..HEADER_SIZE] == frame[0..4] + frame[4..6] + frame[6..8] + frame[8..12];
  }

  lemma DataFrameParses(frame: seq<byte>, clientId: u32, sid: u16, sequence: u32, payload: seq<byte>)
    requires 0 < |payload| <= U16_MAX && DataFrame(clientId, sid, sequence, payload) <= frame
    requires !(sid == CONTROL_STREAM_ID && |payload| == U16_MAX)
    ensures Parse(frame) == Data(clientId, sid, sequence, payload)
  {
    var h := Header(clientId, sid, |payload|, sequence);
    HeaderFields(clientId, sid, |payload|, sequence, frame[HEADER_SIZE..]);
    assert frame == h + frame[HEADER_SIZE..];
    assert frame[HEADER_SIZE..HEADER_SIZE + |payload|] == payload;
  }

  lemma ParsedData(frame: seq<byte>)
    requires Parse(frame).Data?
    ensures var Data(clientId, sid, sequence, payload) := Parse(frame);
      && 0 < |payload| <= U16_MAX && DataFrame(clientId, sid, sequence, payload) <= frame
      && !(sid == CONTROL_STREAM_ID && |payload| == U16_MAX)
  {
    HeaderOfFields(frame);
    var Data(clientId, sid, sequence, payload) := Parse(frame);
    assert frame[..HEADER_SIZE + |payload|] == Header(clientId, sid, |payload|, sequence) + payload;
  }

  /** A byte string is taken for a data frame exactly when it starts with the encoding of that
      frame; the one encoding that is not is a 65535-byte payload on the control stream id. */
  lemma DataFrameExactly(frame: seq<byte>, clientId: u32, sid: u16, sequence: u32, payload: seq<byte>)
    requires 0 < |payload| <= U16_MAX
    ensures Parse(frame) == Data(clientId, sid, sequence, payload)
       <==> (DataFrame(clientId, sid, sequence, payload) <= frame
             && !(sid == CONTROL_STREAM_ID && |payload| == U16_MAX))
  {
    if Parse(frame) == Data(clientId, sid, sequence, payload) {
      ParsedData(frame);
    }
    if DataFrame(clientId, sid, sequence, payload) <= frame && !(sid == CONTROL_STREAM_ID && |payload| == U16_MAX) {
      DataFrameParses(frame, clientId, sid, sequence, payload);
    }
  }

  /** Every frame the multiplexer builds is taken for what it was built as: data, close and control
      frames never collide, on any stream id including the control one. */
  lemma BuiltFramesParseBack(clientId: u32, sid: u16, sequence: u32, payload: seq<byte>)
    requires 0 < |payload| <= CHUNK_SIZE
    ensures Parse(DataFrame(clientId, sid, sequence, payload)) == Data(clientId, sid, sequence, payload)
    ensures Parse(CloseFrame(clientId, sid)) == Close(clientId, sid)
    ensures Parse(ResetFrame(clientId)) == Reset(clientId)
  {
    DataFrameExactly(DataFrame(clientId, sid, sequence, payload), clientId, sid, sequence, payload);
    HeaderFields(clientId, sid, 0, 0, []);
    assert CloseFrame(clientId, sid) == CloseFrame(clientId, sid) + [];
    HeaderFields(clientId, CONTROL_STREAM_ID, U16_MAX, CONTROL_RESET_CLIENT, []);
    assert ResetFrame(clientId) == ResetFrame(clientId) + [];
  }

  /** Whatever `Parse` finds is really in the byte string: a data payload is the declared number of
      bytes after the header, never empty; nothing is read past the end. */
  lemma ParsedFromFrame(frame: seq<byte>)
    ensures match Parse(frame)
      case Ignored => true
      case Reset(c) => ResetFrame(c) <= frame
      case Close(c, sid) => exists sequence :: Header(c, sid, 0, sequence) <= frame
      case Data(c, sid, sequence, p) => 0 < |p| <= U16_MAX && DataFrame(c, sid, sequence, p) <= frame
  {
    if |frame| >= HEADER_SIZE {
      HeaderOfFields(frame);
      assert frame[..HEADER_SIZE] <= frame;
      if Parse(frame).Data? {
        ParsedData(frame);
      }
    }
  }
}
