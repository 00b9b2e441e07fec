/**
 * The server-query client of CoreRCON (src/CoreRCON/ServerQuery.cs): the
 * datagrams it builds, the challenge tokens it derives, and the order of
 * sends and receives of its three operations, Info, Players and Challenge,
 * for the Source Engine Query protocol and the Minecraft Query protocol.
 *
 * Each operation is a method over the shared UdpClient and is proved equal
 * to a function over the transport state (InfoRun, PlayersRun, ChallengeRun);
 * QueryProperties states what the protocols promise about these functions.
 */
module ServerQuery {
  import opened UdpSocket
  import opened NumberParsing

  /**
   * ServerQuery.ServerType. A C# enum variable may hold any integer; the
   * values other than Source (0) and Minecraft (1) are `Undefined`.
   */
  datatype ServerType = Source | Minecraft | Undefined(code: OtherCode)

  /** The integers that name no ServerType member. */
  type OtherCode = c: int | c != 0 && c != 1 witness 2

  /**
   * The decoded responses. Their FromBytes decoders are not part of this
   * model, so a record is represented by the buffer it is decoded from:
   * SourceQueryInfo(b) is SourceQueryInfo.FromBytes(b), and so on.
   */
  datatype QueryInfo = SourceQueryInfo(buffer: Bytes) | MinecraftQueryInfo(buffer: Bytes)

  datatype PlayerList = ServerQueryPlayers(buffer: Bytes)

  /** Every way a call can end without a result. */
  datatype Error =
    | UnreachableHost(message: string)  // UnreachableHostException from the SendAsync/ReceiveAsync wrappers
    | InvalidArgument(message: string)  // ArgumentException thrown for an unknown ServerType
    | CopyOutOfRange                    // ArgumentOutOfRangeException from Array.Copy: negative length
    | CopyTooLong                       // ArgumentException from Array.Copy: destination too short
    | Parse(error: ParseError)          // FormatException or OverflowException from Int32.Parse
    | Raw(fault: Fault)                 // a socket exception that escapes untranslated
    | NoReply                           // an awaited receive that never completes

  datatype Result<T> = Success(value: T) | Failure(error: Error)

  /** The outcome of an operation together with the transport state it leaves. */
  datatype Run<T> = Run(result: Result<T>, net: Net)

  function Abort<T, U>(r: Run<T>): Run<U>
    requires r.result.Failure?
  {
    Run(Failure(r.result.error), r.net)
  }

  const SendFailedMessage: string := "An error occured while attempting to send data."
  const ReceiveFailedMessage: string := "An error occured while attempting to receive data."
  const InvalidTypeMessage: string := "type argument was invalid"

  // ---------------------------------------------------------------------
  // Datagrams

  /** The Minecraft Query magic bytes. */
  const Magic: Bytes := [0xFE, 0xFD]

  /** The fixed Minecraft Query session id. */
  const SessionId: Bytes := [0x01, 0x02, 0x03, 0x04]

  /** Minecraft packet types (PacketType). */
  const Handshake: byte := 0x09
  const Stat: byte := 0x00

  /** A2S_INFO: the Source "TSource Engine Query" request. */
  const SourceInfoRequest: Bytes :=
    [0xFF, 0xFF, 0xFF, 0xFF, 0x54, 0x53, 0x6F, 0x75, 0x72, 0x63, 0x65, 0x20, 0x45,
     0x6E, 0x67, 0x69, 0x6E, 0x65, 0x20, 0x51, 0x75, 0x65, 0x72, 0x79, 0x00]

  /** A2S_PLAYER with challenge -1: the Source challenge probe. */
  const SourceChallengeRequest: Bytes := [0xFF, 0xFF, 0xFF, 0xFF, 0x55, 0xFF, 0xFF, 0xFF, 0xFF]

  /** The header in front of the challenge token in an A2S_PLAYER request. */
  const PlayersHeader: Bytes := [0xFF, 0xFF, 0xFF, 0xFF, 0x55]

  /** A2S_PLAYER carrying a challenge token. */
  function PlayersRequest(token: Bytes): Bytes {
    PlayersHeader + token
  }

  /** The Minecraft handshake request. */
  const McHandshakeRequest: Bytes := Magic + [Handshake] + SessionId

  /** The four zero bytes after the token in a basic stat request. */
  const Padding: Bytes := [0x00, 0x00, 0x00, 0x00]

  /** The Minecraft basic stat request carrying a challenge token. */
  function McStatRequest(token: Bytes): Bytes {
    Magic + [Stat] + SessionId + token + Padding
  }

  /** The bytes of an ASCII text. */
  function AsciiBytes(s: string): (b: Bytes)
    requires forall i :: 0 <= i < |s| ==> s[i] < 0x80 as char
    ensures |b| == |s| && forall i :: 0 <= i < |s| ==> b[i] == s[i] as int
  {
    seq(|s|, i requires 0 <= i < |s| => s[i] as int)
  }

  // ---------------------------------------------------------------------
  // Challenge tokens

  /** Enumerable.Skip. */
  function Skip(s: Bytes, n: nat): (r: Bytes)
    ensures |r| == if |s| <= n then 0 else |s| - n
    ensures forall i :: 0 <= i < |r| ==> r[i] == s[n + i]
  {
    if |s| <= n then [] else s[n..]
  }

  /** Enumerable.Take. */
  function Take(s: Bytes, n: nat): (r: Bytes)
    ensures |r| == if |s| <= n then |s| else n
    ensures forall i :: 0 <= i < |r| ==> r[i] == s[i]
  {
    if |s| <= n then s else s[..n]
  }

  /**
   * The Source challenge token: Skip(5).Take(4) of the response, bytes
   * copied as they are; a response shorter than 9 bytes gives a shorter token.
   */
  function SourceToken(buffer: Bytes): (token: Bytes)
    ensures |token| == if |buffer| <= 5 then 0 else if |buffer| <= 9 then |buffer| - 5 else 4
    ensures forall i :: 0 <= i < |token| ==> token[i] == buffer[5 + i]
  {
    Take(Skip(buffer, 5), 4)
  }

  /** Encoding.ASCII.GetString of one byte: bytes above 0x7F decode to '?'. */
  function AsciiChar(b: byte): char {
    if b < 0x80 then b as char else '?'
  }

  /** Encoding.ASCII.GetString. */
  function AsciiString(bytes: Bytes): (s: string)
    ensures |s| == |bytes| && forall i :: 0 <= i < |s| ==> s[i] == AsciiChar(bytes[i])
  {
    seq(|bytes|, i requires 0 <= i < |bytes| => AsciiChar(bytes[i]))
  }

  function Zeros(k: nat): (z: Bytes)
    ensures |z| == k && forall i :: 0 <= i < k ==> z[i] == 0
  {
    seq(k, _ => 0)
  }

  /** Size of the buffer the Minecraft challenge text is copied into. */
  const ChallengeBufferSize: nat := 16

  /**
   * BitConverter.GetBytes(int) on a little-endian machine: the four bytes
   * of the two's-complement representation, least significant first.
   */
  function GetBytes(n: int32): (b: Bytes)
    ensures |b| == 4
  {
    var u: int := if n < 0 then n as int + 0x1_0000_0000 else n as int;
    [u % 0x100, u / 0x100 % 0x100, u / 0x1_0000 % 0x100, u / 0x100_0000 % 0x100]
  }

  /** Enumerable.Reverse. */
  function Reverse(s: Bytes): (r: Bytes)
    ensures |r| == |s| && forall i :: 0 <= i < |s| ==> r[i] == s[|s| - 1 - i]
  {
    if s == [] then [] else Reverse(s[1..]) + [s[0]]
  }

  /** The signed 32-bit number four bytes denote, most significant byte first. */
  function BigEndianInt32(b: Bytes): int
    requires |b| == 4
  {
    var u := b[0] as int * 0x100_0000 + b[1] as int * 0x1_0000 + b[2] as int * 0x100 + b[3] as int;
    if u < 0x8000_0000 then u else u - 0x1_0000_0000
  }

  /**
   * The Minecraft challenge token: the response after its 5-byte header is
   * copied into a 16-byte zeroed buffer, read as ASCII, parsed as an int and
   * written back as its bytes in reverse order.
   */
  function McChallengeToken(buffer: Bytes): Result<Bytes> {
    var length := |buffer| - 5;
    if length < 0 then Failure(CopyOutOfRange)
    else if length > ChallengeBufferSize then Failure(CopyTooLong)
    else
      var challengeBytes := buffer[5..] + Zeros(ChallengeBufferSize - length);
      match ParseInt32(AsciiString(challengeBytes))
      case Failed(e) => Failure(Parse(e))
      case Parsed(n) => Success(Reverse(GetBytes(n)))
  }

  /**
   * The Minecraft token fails when the response is shorter than its header,
   * when its text overflows the 16-byte buffer, or when that text is not a
   * 32-bit number; otherwise it is that number, most significant byte first.
   */
  lemma McChallengeTokenSpec(buffer: Bytes)
    ensures |buffer| < 5 ==> McChallengeToken(buffer) == Failure(CopyOutOfRange)
    ensures |buffer| > 5 + ChallengeBufferSize ==> McChallengeToken(buffer) == Failure(CopyTooLong)
    ensures 5 <= |buffer| <= 5 + ChallengeBufferSize ==>
      match ParseInt32(AsciiString(buffer[5..] + Zeros(5 + ChallengeBufferSize - |buffer|)))
      case Failed(e) => McChallengeToken(buffer) == Failure(Parse(e))
      case Parsed(n) =>
        var r := McChallengeToken(buffer);
        r.Success? && |r.value| == 4 && BigEndianInt32(r.value) == n
  {
    if 5 <= |buffer| <= 5 + ChallengeBufferSize {
      match ParseInt32(AsciiString(buffer[5..] + Zeros(5 + ChallengeBufferSize - |buffer|)))
      case Failed(_) =>
      case Parsed(n) => BigEndianOfReversed(n);
    }
  }

  /** Reversing the little-endian bytes of `n` gives its big-endian bytes. */
  lemma BigEndianOfReversed(n: int32)
    ensures BigEndianInt32(Reverse(GetBytes(n))) == n
  {
    var u: int := if n < 0 then n as int + 0x1_0000_0000 else n as int;
    var b := GetBytes(n);
    var q1 := u / 0x100;
    var q2 := q1 / 0x100;
    var q3 := q2 / 0x100;
    assert u == q1 * 0x100 + b[0];
    assert u / 0x1_0000 == q2;
    assert u / 0x100_0000 == q3;
    assert q1 == q2 * 0x100 + b[1];
    assert q2 == q3 * 0x100 + b[2];
    assert q3 == b[3];
    var r := Reverse(b);
    assert r[0] as int * 0x100_0000 + r[1] as int * 0x1_0000 + r[2] as int * 0x100 + r[3] as int == u;
  }

  // ---------------------------------------------------------------------
  // The transport wrappers

  /** How the SendAsync and ReceiveAsync wrappers report a socket call. */
  function Translate<T>(o: Outcome<T>, message: string): Result<T> {
    match o
    case Done(v) => Success(v)
    case Raised(_) => Failure(UnreachableHost(message))
    case Pending => Failure(NoReply)
  }

  /** How a socket call reads to a caller that does not wrap it. */
  function Untranslated<T>(o: Outcome<T>): Result<T> {
    match o
    case Done(v) => Success(v)
    case Raised(f) => Failure(Raw(f))
    case Pending => Failure(NoReply)
  }

  /** ServerQuery.SendAsync: every exception becomes UnreachableHost. */
  function SendRun(net: Net, datagram: Bytes, bytes: int, endPoint: Endpoint): Run<int> {
    var s := SendStep(net, datagram, bytes, endPoint);
    Run(Translate(s.outcome, SendFailedMessage), s.net)
  }

  /** ServerQuery.ReceiveAsync: every exception becomes UnreachableHost. */
  function ReceiveRun(net: Net): Run<UdpReceiveResult> {
    var s := ReceiveStep(net);
    Run(Translate(s.outcome, ReceiveFailedMessage), s.net)
  }

  // ---------------------------------------------------------------------
  // The operations, as functions of the transport state

  /** ServerQuery.Challenge(host, type). */
  function ChallengeRun(net: Net, host: Endpoint, serverType: ServerType): Run<Bytes> {
    match serverType
    case Source =>
      var sent := SendRun(net, SourceChallengeRequest, 9, host);
      if sent.result.Failure? then Abort(sent) else
      var got := ReceiveRun(sent.net);
      if got.result.Failure? then Abort(got) else
      Run(Success(SourceToken(got.result.value.buffer)), got.net)
    case Minecraft =>
      var sent := SendRun(net, McHandshakeRequest, |McHandshakeRequest|, host);
      if sent.result.Failure? then Abort(sent) else
      var got := ReceiveRun(sent.net);
      if got.result.Failure? then Abort(got) else
      Run(McChallengeToken(got.result.value.buffer), got.net)
    case Undefined(_) =>
      Run(Failure(InvalidArgument(InvalidTypeMessage)), net)
  }

  /** ServerQuery.Info(host, type). */
  function InfoRun(net: Net, host: Endpoint, serverType: ServerType): Run<QueryInfo> {
    match serverType
    case Source =>
      var sent := SendRun(net, SourceInfoRequest, 25, host);
      if sent.result.Failure? then Abort(sent) else
      var got := ReceiveStep(sent.net);
      (match Untranslated(got.outcome)
       case Success(d) => Run(Success(SourceQueryInfo(d.buffer)), got.net)
       case Failure(e) => Run(Failure(e), got.net))
    case Minecraft =>
      var challenge := ChallengeRun(net, host, Minecraft);
      if challenge.result.Failure? then Abort(challenge) else
      var datagram := McStatRequest(challenge.result.value);
      var sent := SendRun(challenge.net, datagram, |datagram|, host);
      if sent.result.Failure? then Abort(sent) else
      var got := ReceiveRun(sent.net);
      if got.result.Failure? then Abort(got) else
      Run(Success(MinecraftQueryInfo(got.result.value.buffer)), got.net)
    case Undefined(_) =>
      Run(Failure(InvalidArgument(InvalidTypeMessage)), net)
  }

  /** ServerQuery.Players(host). */
  function PlayersRun(net: Net, host: Endpoint): Run<PlayerList> {
    var challenge := ChallengeRun(net, host, Source);
    if challenge.result.Failure? then Abort(challenge) else
    var sent := SendRun(challenge.net, PlayersRequest(challenge.result.value), 9, host);
    if sent.result.Failure? then Abort(sent) else
    var got := ReceiveRun(sent.net);
    if got.result.Failure? then Abort(got) else
    Run(Success(ServerQueryPlayers(got.result.value.buffer)), got.net)
  }

  // ---------------------------------------------------------------------
  // The operations, over the shared client

  method SendAsync(client: UdpClient, datagram: Bytes, bytes: int, endPoint: Endpoint) returns (r: Result<int>)
    modifies client
    ensures Run(r, client.State()) == SendRun(old(client.State()), datagram, bytes, endPoint)
  {
    var o := client.SendAsync(datagram, bytes, endPoint);
    match o
    case Done(n) => r := Success(n);
    case Raised(_) => r := Failure(UnreachableHost(SendFailedMessage));
    case Pending => r := Failure(NoReply);
  }

  method ReceiveAsync(client: UdpClient) returns (r: Result<UdpReceiveResult>)
    modifies client
    ensures Run(r, client.State()) == ReceiveRun(old(client.State()))
  {
    var o := client.ReceiveAsync();
    match o
    case Done(d) => r := Success(d);
    case Raised(_) => r := Failure(UnreachableHost(ReceiveFailedMessage));
    case Pending => r := Failure(NoReply);
  }

  method Challenge(client: UdpClient, host: Endpoint, serverType: ServerType) returns (r: Result<Bytes>)
    modifies client
    ensures Run(r, client.State()) == ChallengeRun(old(client.State()), host, serverType)
  {
    match serverType
    case Source =>
      var sent := SendAsync(client, SourceChallengeRequest, 9, host);
      if sent.Failure? {
        return Failure(sent.error);
      }
      var got := ReceiveAsync(client);
      if got.Failure? {
        return Failure(got.error);
      }
      r := Success(Take(Skip(got.value.buffer, 5), 4));
    case Minecraft =>
      var datagram := Magic + [Handshake] + SessionId;
      var sent := SendAsync(client, datagram, |datagram|, host);
      if sent.Failure? {
        return Failure(sent.error);
      }
      var got := ReceiveAsync(client);
      if got.Failure? {
        return Failure(got.error);
      }
      var buffer := got.value.buffer;
      var length := |buffer| - 5;
      if length < 0 {
        return Failure(CopyOutOfRange);
      }
      if length > ChallengeBufferSize {
        return Failure(CopyTooLong);
      }
      var challengeBytes := CopyChallengeText(buffer);
      var parsed := ParseInt32(AsciiString(challengeBytes[..]));
      match parsed {
        case Failed(e) =>
          r := Failure(Parse(e));
        case Parsed(n) =>
          r := Success(Reverse(GetBytes(n)));
      }
    case Undefined(_) =>
      r := Failure(InvalidArgument(InvalidTypeMessage));
  }

  /**
   * `new byte[16]` followed by Array.Copy(buffer, 5, challengeBytes, 0,
   * buffer.Length - 5), for a buffer whose copy fits.
   */
  method CopyChallengeText(buffer: Bytes) returns (challengeBytes: array<byte>)
    requires 5 <= |buffer| <= 5 + ChallengeBufferSize
    ensures fresh(challengeBytes)
    ensures challengeBytes[..] == buffer[5..] + Zeros(5 + ChallengeBufferSize - |buffer|)
  {
    var length := |buffer| - 5;
    challengeBytes := new byte[ChallengeBufferSize](_ => 0);
    forall i | 0 <= i < length {
      challengeBytes[i] := buffer[5 + i];
    }
  }

  method Info(client: UdpClient, host: Endpoint, serverType: ServerType) returns (r: Result<QueryInfo>)
    modifies client
    ensures Run(r, client.State()) == InfoRun(old(client.State()), host, serverType)
  {
    match serverType
    case Source =>
      var sent := SendAsync(client, SourceInfoRequest, 25, host);
      if sent.Failure? {
        return Failure(sent.error);
      }
      // This receive goes to the socket directly, past the translating wrapper.
      var got := client.ReceiveAsync();
      match got {
        case Done(d) => r := Success(SourceQueryInfo(d.buffer));
        case Raised(f) => r := Failure(Raw(f));
        case Pending => r := Failure(NoReply);
      }
    case Minecraft =>
      var token := Challenge(client, host, Minecraft);
      if token.Failure? {
        return Failure(token.error);
      }
      var datagram := Magic + [Stat] + SessionId + token.value + Padding;
      var sent := SendAsync(client, datagram, |datagram|, host);
      if sent.Failure? {
        return Failure(sent.error);
      }
      var got := ReceiveAsync(client);
      if got.Failure? {
        return Failure(got.error);
      }
      r := Success(MinecraftQueryInfo(got.value.buffer));
    case Undefined(_) =>
      r := Failure(InvalidArgument(InvalidTypeMessage));
  }

  method Players(client: UdpClient, host: Endpoint) returns (r: Result<PlayerList>)
    modifies client
    ensures Run(r, client.State()) == PlayersRun(old(client.State()), host)
  {
    var token := Challenge(client, host, Source);
    if token.Failure? {
      return Failure(token.error);
    }
    var challenge := PlayersHeader + token.value;
    var sent := SendAsync(client, challenge, 9, host);
    if sent.Failure? {
      return Failure(sent.error);
    }
    var got := ReceiveAsync(client);
    if got.Failure? {
      return Failure(got.error);
    }
    r := Success(ServerQueryPlayers(got.value.buffer));
  }
}
