/** Decoded frames of the tunnel protocol (one constructor per frame type) and the payload view of a frame log. */
module Frames {

  newtype byte = b: int | 0 <= b < 256

  /** One payload as handed to a socket write or read from a socket event. */
  type Chunk = seq<byte>

  /** An option for numeric JSON fields: absent, or not a number, is `None`. */
  datatype Option<+T> = None | Some(value: T)

  /** A counter after one of what it counts is gone. */
  function Less(n: nat): nat {
    if n == 0 then 0 else n - 1
  }

  /** The JSON body of TCP_CONNECT. A request id of 0 stands for "no usable request id". */
  datatype ConnectRequest = ConnectRequest(port: Option<int>, requestId: nat, target: string)

  /** The JSON body of a connect-level reply; 0, None and "" stand for an omitted field. */
  datatype ConnectReply = ConnectReply(port: Option<int>, requestId: nat, target: string)

  datatype Frame =
    | ReqMeta
    | ReqData(body: Chunk)
    | ReqEnd
    | ReqAbort
    | ResMeta(wellFormed: bool, status: int)
    | ResData(body: Chunk)
    | ResEnd
    | ResAbort
    | Pause
    | Resume
    | TcpOpen(wellFormed: bool, host: string, port: int)
    | TcpData(chunk: Chunk)
    | TcpClose
    | TcpAbort
    | TcpOpenAck
    | TcpConnect(request: ConnectRequest)
    | TcpConnectAck(reply: ConnectReply)
      // TCP_ABORT on stream 0: the connect-level rejection
    | ConnectRejected(reply: ConnectReply)
    | Unknown

  /** A connect-level reply, and what it says. */
  predicate Replies(f: Frame) {
    f.TcpConnectAck? || f.ConnectRejected?
  }

  function ReplyOf(f: Frame): ConnectReply {
    if Replies(f) then f.reply else ConnectReply(None, 0, "")
  }

  /** The frames that end a TCP stream. */
  predicate Terminal(f: Frame) {
    f.TcpClose? || f.TcpAbort?
  }

  /** What has been read of a log, and what is still under way. */
  function Start(log: seq<Frame>, k: nat): seq<Frame> {
    if k <= |log| then log[..k] else log
  }

  function Rest(log: seq<Frame>, k: nat): seq<Frame> {
    if k <= |log| then log[k..] else []
  }

  /** The frame to be read next. */
  function FrameAt(log: seq<Frame>, k: nat): Frame {
    if k < |log| then log[k] else Unknown
  }

  /** The log ends with a frame that ends the stream. */
  predicate LastEnds(log: seq<Frame>) {
    |log| > 0 && Terminal(log[|log| - 1])
  }

  /** The TCP payload carried by one frame: a list of at most one chunk. */
  function Carried(f: Frame): seq<Chunk> {
    if f.TcpData? then [f.chunk] else []
  }

  /** The chunks carried by a log of frames, in order. */
  function DataOf(log: seq<Frame>): seq<Chunk> {
    if |log| == 0 then [] else DataOf(log[..|log| - 1]) + Carried(log[|log| - 1])
  }

  lemma DataOfAppend(log: seq<Frame>, f: Frame)
    ensures DataOf(log + [f]) == DataOf(log) + Carried(f)
  {
    assert (log + [f])[..|log|] == log;
  }

  lemma {:induction false} DataOfConcat(a: seq<Frame>, b: seq<Frame>)
    ensures DataOf(a + b) == DataOf(a) + DataOf(b)
  {
    if |b| == 0 {
      assert a + b == a;
    } else {
      var n := |b| - 1;
      DataOfConcat(a, b[..n]);
      assert (a + b)[..|a| + n] == a + b[..n];
      assert (a + b)[|a| + n] == b[n];
    }
  }

  /** Reading further into a log only extends the data seen. */
  lemma {:induction false} DataOfPrefix(log: seq<Frame>, k: nat)
    requires k <= |log|
    ensures DataOf(log[..k]) <= DataOf(log)
  {
    if k == |log| {
      assert log[..k] == log;
    } else {
      DataOfPrefix(log[..|log| - 1], k);
      assert log[..|log| - 1][..k] == log[..k];
    }
  }

  /** Total number of payload bytes in a list of chunks. */
  function TotalBytes(chunks: seq<Chunk>): nat {
    if |chunks| == 0 then 0 else TotalBytes(chunks[..|chunks| - 1]) + |chunks[|chunks| - 1]|
  }

  lemma TotalBytesAppend(chunks: seq<Chunk>, c: Chunk)
    ensures TotalBytes(chunks + [c]) == TotalBytes(chunks) + |c|
  {
    assert (chunks + [c])[..|chunks|] == chunks;
  }
}
