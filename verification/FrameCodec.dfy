/** FrameCodec: version byte, type byte, big-endian 32-bit stream id, payload. */
module FrameCodec {
  import opened Frames

  const VERSION: byte := 1
  const HEADER: nat := 6
  const TWO_TO_32: int := 0x1_0000_0000

  datatype Parsed = Parsed(kind: byte, streamId: nat, payload: Chunk)

  datatype Result = Ok(frame: Parsed) | TooShort | UnsupportedVersion(version: byte)

  /** `streamId >>> 0`: the id as an unsigned 32-bit integer. */
  function ToUint32(n: int): (r: nat)
    ensures r < TWO_TO_32
  {
    n % TWO_TO_32
  }

  /** Byte k of a 32-bit number, the most significant first. */
  function Octet(n: nat, k: nat): byte
    requires n < TWO_TO_32 && k < 4
  {
    match k
    case 0 => (n / 0x100_0000) as byte
    case 1 => (n / 0x1_0000 % 256) as byte
    case 2 => (n / 256 % 256) as byte
    case _ => (n % 256) as byte
  }

  function BigEndian(n: nat): seq<byte>
    requires n < TWO_TO_32
  {
    [Octet(n, 0), Octet(n, 1), Octet(n, 2), Octet(n, 3)]
  }

  /** readUInt32BE */
  function FromBigEndian(b: seq<byte>): (n: nat)
    requires |b| == 4
    ensures n < TWO_TO_32
  {
    b[0] as nat * 0x100_0000 + b[1] as nat * 0x1_0000 + b[2] as nat * 256 + b[3] as nat
  }

  lemma DecodeEncode(n: nat)
    requires n < TWO_TO_32
    ensures FromBigEndian(BigEndian(n)) == n
  {
    assert n == n / 256 * 256 + n % 256;
    assert n / 256 == n / 0x1_0000 * 256 + n / 256 % 256 by { assert n / 256 / 256 == n / 0x1_0000; }
    assert n / 0x1_0000 == n / 0x100_0000 * 256 + n / 0x1_0000 % 256 by { assert n / 0x1_0000 / 256 == n / 0x100_0000; }
  }

  lemma EncodeDecode(b: seq<byte>)
    requires |b| == 4
    ensures BigEndian(FromBigEndian(b)) == b
  {
    var n := FromBigEndian(b);
    var b0, b1, b2, b3 := b[0] as nat, b[1] as nat, b[2] as nat, b[3] as nat;
    assert n / 0x100_0000 == b0 && n / 0x1_0000 == b0 * 256 + b1 && n / 256 == b0 * 0x1_0000 + b1 * 256 + b2;
    assert (b0 * 256 + b1) % 256 == b1 && (b0 * 0x1_0000 + b1 * 256 + b2) % 256 == b2 && n % 256 == b3;
  }

  /** The bytes of a frame. */
  function Wire(kind: byte, streamId: int, payload: Chunk): seq<byte> {
    [VERSION, kind] + BigEndian(ToUint32(streamId)) + payload
  }

  function Parse(b: seq<byte>): Result {
    if |b| < HEADER then TooShort
    else if b[0] != VERSION then UnsupportedVersion(b[0])
    else Ok(Parsed(b[1], FromBigEndian(b[2..6]), b[6..]))
  }

  /** Parsing what was built gives the type, the id modulo 2^32 and the payload back. */
  lemma ParseWire(kind: byte, streamId: int, payload: Chunk)
    ensures Parse(Wire(kind, streamId, payload)) == Ok(Parsed(kind, streamId % TWO_TO_32, payload))
  {
    var b := Wire(kind, streamId, payload);
    DecodeEncode(ToUint32(streamId));
    assert b[2..6] == BigEndian(ToUint32(streamId)) && b[6..] == payload;
  }

  /** Rebuilding any accepted buffer reproduces it byte for byte. */
  lemma WireParse(b: seq<byte>)
    requires Parse(b).Ok?
    ensures var f := Parse(b).frame; Wire(f.kind, f.streamId, f.payload) == b
  {
    var f := Parse(b).frame;
    EncodeDecode(b[2..6]);
    assert ToUint32(f.streamId) == f.streamId;
    assert b == b[..2] + b[2..6] + b[6..];
  }

  /** So two frames have the same bytes exactly when they agree on type, payload and id modulo 2^32. */
  lemma WireInjective(k1: byte, id1: int, p1: Chunk, k2: byte, id2: int, p2: Chunk)
    ensures Wire(k1, id1, p1) == Wire(k2, id2, p2) <==> k1 == k2 && id1 % TWO_TO_32 == id2 % TWO_TO_32 && p1 == p2
  {
    ParseWire(k1, id1, p1);
    ParseWire(k2, id2, p2);
  }

  /** buildFrame: the frame is written into a fresh buffer, byte by byte. */
  method BuildFrame(kind: byte, streamId: int, payload: Chunk) returns (frame: array<byte>)
    ensures fresh(frame) && frame[..] == Wire(kind, streamId, payload)
  {
    frame := new byte[HEADER + |payload|];
    frame[0] := VERSION;
    frame[1] := kind;
    var id := ToUint32(streamId);
    frame[5] := (id % 256) as byte;
    frame[4] := (id / 256 % 256) as byte;
    frame[3] := (id / 0x1_0000 % 256) as byte;
    frame[2] := (id / 0x100_0000) as byte;
    forall i | 0 <= i < |payload| {
      frame[HEADER + i] := payload[i];
    }
    assert frame[2..6] == BigEndian(id) && frame[6..6 + |payload|] == payload;
    assert frame[..] == frame[..2] + frame[2..6] + frame[6..6 + |payload|];
  }

  /** parseFrame; each error stands for the exception thrown. */
  method ParseFrame(buf: array<byte>) returns (r: Result)
    ensures r == Parse(buf[..])
  {
    if buf.Length < HEADER {
      return TooShort;
    }
    var version := buf[0];
    if version != VERSION {
      return UnsupportedVersion(version);
    }
    var streamId := FromBigEndian(buf[2..6]);
    assert buf[..][2..6] == buf[2..6] && buf[..][6..] == buf[6..];
    return Ok(Parsed(buf[1], streamId, buf[6..]));
  }
}
