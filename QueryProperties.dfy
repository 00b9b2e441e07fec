/**
 * What the two query protocols promise about the client's exchanges: the
 * exact datagrams, the number and order of sends and receives, where the
 * challenge token comes from, and which errors each operation can end in.
 */
module QueryProperties {
  import opened UdpSocket
  import opened NumberParsing
  import opened ServerQuery

  // ---------------------------------------------------------------------
  // Datagram layouts

  /** A2S_INFO is FF FF FF FF, the ASCII text "TSource Engine Query", then NUL: 25 bytes. */
  lemma SourceInfoRequestLayout()
    ensures |SourceInfoRequest| == 25
    ensures SourceInfoRequest[..4] == [0xFF, 0xFF, 0xFF, 0xFF] && SourceInfoRequest[24] == 0x00
    ensures forall i :: 0 <= i < 20 ==> SourceInfoRequest[4 + i] == "TSource Engine Query"[i] as int
  {
    var text := "TSource Engine Query";
    forall i | 0 <= i < 20
      ensures SourceInfoRequest[4 + i] == text[i] as int
    {
      assert text == ['T', 'S', 'o', 'u', 'r', 'c', 'e', ' ', 'E', 'n', 'g', 'i', 'n', 'e', ' ', 'Q', 'u', 'e', 'r', 'y'];
    }
  }

  /** The Minecraft handshake is FE FD 09 01 02 03 04. */
  lemma McHandshakeLayout()
    ensures McHandshakeRequest == [0xFE, 0xFD, 0x09, 0x01, 0x02, 0x03, 0x04]
  {
  }

  /**
   * A basic stat request is 15 bytes: magic, type 00, the session id, the
   * 4-byte token and four zero bytes.
   */
  lemma McStatLayout(token: Bytes)
    requires |token| == 4
    ensures |McStatRequest(token)| == 15
    ensures McStatRequest(token)[..7] == [0xFE, 0xFD, 0x00, 0x01, 0x02, 0x03, 0x04]
    ensures McStatRequest(token)[7..11] == token
    ensures McStatRequest(token)[11..] == [0x00, 0x00, 0x00, 0x00]
  {
  }

  // ---------------------------------------------------------------------
  // Challenge tokens

  /** An ASCII text followed by zero bytes reads back as that text followed by NULs. */
  lemma AsciiPadded(text: string, k: nat)
    requires forall i :: 0 <= i < |text| ==> text[i] < 0x80 as char
    ensures AsciiString(AsciiBytes(text) + Zeros(k)) == text + Nuls(k)
  {
    var bytes := AsciiBytes(text) + Zeros(k);
    assert forall i :: 0 <= i < |text| ==> bytes[i] == text[i] as int;
    assert forall i :: |text| <= i < |bytes| ==> bytes[i] == 0;
  }

  /**
   * The text of a handshake response made of a 5-byte header, ASCII text and
   * zero bytes, as the client reads it after copying it into its 16-byte
   * buffer: the text, then NULs.
   */
  lemma McChallengeText(header: Bytes, text: string, z: nat)
    requires |header| == 5 && |text| + z <= ChallengeBufferSize
    requires forall i :: 0 <= i < |text| ==> text[i] < 0x80 as char
    ensures var buffer := header + AsciiBytes(text) + Zeros(z);
      |buffer| <= 5 + ChallengeBufferSize &&
      AsciiString(buffer[5..] + Zeros(5 + ChallengeBufferSize - |buffer|)) == text + Nuls(ChallengeBufferSize - |text|)
  {
    var buffer := header + AsciiBytes(text) + Zeros(z);
    var k := ChallengeBufferSize - |text|;
    assert buffer[5..] + Zeros(k - z) == AsciiBytes(text) + Zeros(k);
    AsciiPadded(text, k);
  }

  /**
   * Round trip: when the server answers the handshake with a 5-byte header
   * and the decimal text of a 32-bit number, followed by as many zero bytes
   * as still fit the 16-byte buffer, the token the client derives is that
   * number in big-endian byte order.
   */
  lemma {:induction false} McTokenRoundTrip(header: Bytes, n: int32, z: nat)
    requires |header| == 5 && |Format(n)| + z <= ChallengeBufferSize
    ensures McChallengeToken(header + AsciiBytes(Format(n)) + Zeros(z)) == Success(Reverse(GetBytes(n)))
    ensures BigEndianInt32(Reverse(GetBytes(n))) == n
  {
    FormatIsAscii(n);
    ParseFormattedInt32(n, ChallengeBufferSize - |Format(n)|);
    McTokenOfText(header, Format(n), z, n);
    BigEndianOfReversed(n);
  }

  /** The decimal text of a number is plain ASCII. */
  lemma FormatIsAscii(v: int)
    ensures forall i :: 0 <= i < |Format(v)| ==> Format(v)[i] < 0x80 as char
  {
  }

  /** A response of a 5-byte header, ASCII text and zero bytes yields the token of that text. */
  lemma McTokenOfText(header: Bytes, text: string, z: nat, n: int32)
    requires |header| == 5 && |text| + z <= ChallengeBufferSize
    requires forall i :: 0 <= i < |text| ==> text[i] < 0x80 as char
    requires ParseInt32(text + Nuls(ChallengeBufferSize - |text|)) == Parsed(n)
    ensures McChallengeToken(header + AsciiBytes(text) + Zeros(z)) == Success(Reverse(GetBytes(n)))
  {
    var buffer := header + AsciiBytes(text) + Zeros(z);
    McChallengeText(header, text, z);
    McTokenFromText(buffer, n);
  }

  /** A handshake response whose copied text parses to `n` yields the reversed bytes of `n`. */
  lemma McTokenFromText(buffer: Bytes, n: int32)
    requires 5 <= |buffer| <= 5 + ChallengeBufferSize
    requires ParseInt32(AsciiString(buffer[5..] + Zeros(5 + ChallengeBufferSize - |buffer|))) == Parsed(n)
    ensures McChallengeToken(buffer) == Success(Reverse(GetBytes(n)))
  {
  }

  /** The handshake response "header, then 123" yields the token 00 00 00 7B. */
  lemma McTokenExample()
    ensures McChallengeToken([0, 0, 0, 0, 0, 0x31, 0x32, 0x33]) == Success([0x00, 0x00, 0x00, 0x7B])
  {
    var header: Bytes := [0, 0, 0, 0, 0];
    assert [0, 0, 0, 0, 0, 0x31, 0x32, 0x33] == header + AsciiBytes(Format(123)) + Zeros(0) by {
      assert Format(123) == "123" by {
        assert Decimal(123) == Decimal(12) + [DigitChar(3)];
        assert Decimal(12) == Decimal(1) + [DigitChar(2)];
      }
    }
    assert Reverse(GetBytes(123)) == [0x00, 0x00, 0x00, 0x7B] by {
      SmallGetBytes(123);
    }
    McTokenRoundTrip(header, 123, 0);
  }

  /** A number below 256 is its own low byte, with three zero bytes above it. */
  lemma SmallGetBytes(n: int32)
    requires 0 <= n < 0x100
    ensures GetBytes(n) == [n as int, 0, 0, 0]
  {
    var u := n as int;
    assert u / 0x100 == 0 && u / 0x1_0000 == 0 && u / 0x100_0000 == 0;
  }

  /** The Minecraft token is refused by length before its text is read. */
  lemma McTokenLengthLimits(buffer: Bytes)
    ensures |buffer| < 5 ==> McChallengeToken(buffer) == Failure(CopyOutOfRange)
    ensures |buffer| > 21 ==> McChallengeToken(buffer) == Failure(CopyTooLong)
    ensures |buffer| == 5 ==> McChallengeToken(buffer) == Failure(Parse(BadFormat))
  {
    if |buffer| == 5 {
      var text := AsciiString(buffer[5..] + Zeros(16));
      assert text[0] == '\0';
      ParseRejectsNulFirst(text);
    }
  }

  // ---------------------------------------------------------------------
  // Exchanges

  /** An unknown ServerType is refused before any I/O, by Info and by Challenge. */
  lemma UndefinedTypeRefused(net: Net, host: Endpoint, code: OtherCode)
    ensures InfoRun(net, host, Undefined(code)) == Run(Failure(InvalidArgument(InvalidTypeMessage)), net)
    ensures ChallengeRun(net, host, Undefined(code)) == Run(Failure(InvalidArgument(InvalidTypeMessage)), net)
  {
  }

  /**
   * Source Info: one send of A2S_INFO with no challenge step, then one
   * receive whose buffer alone is decoded. The receive bypasses the
   * translating wrapper, so a socket fault there escapes as it is.
   */
  lemma SourceInfoExchange(net: Net, host: Endpoint)
    ensures SendFails(net, 0) ==>
      InfoRun(net, host, Source) == Run(Failure(UnreachableHost(SendFailedMessage)), net.(sendFaults := Tail(net.sendFaults)))
    ensures !SendFails(net, 0) && net.inbox == [] ==>
      InfoRun(net, host, Source) ==
        Run(Failure(NoReply), Net(net.log + [Sent(SourceInfoRequest, host)], [], Tail(net.sendFaults)))
    ensures !SendFails(net, 0) && net.inbox != [] && net.inbox[0].Fails? ==>
      InfoRun(net, host, Source) ==
        Run(Failure(Raw(SocketException)), Net(net.log + [Sent(SourceInfoRequest, host)], net.inbox[1..], Tail(net.sendFaults)))
    ensures !SendFails(net, 0) && Delivers(net, 0) ==>
      var d := net.inbox[0].datagram;
      InfoRun(net, host, Source) ==
        Run(Success(SourceQueryInfo(d.buffer)),
            Net(net.log + [Sent(SourceInfoRequest, host), Received(d)], net.inbox[1..], Tail(net.sendFaults)))
  {
    SourceInfoRequestLayout();
    assert SourceInfoRequest[..25] == SourceInfoRequest;
  }

  /**
   * Source Challenge: one send of the 9-byte probe, one receive, and the
   * token is Skip(5).Take(4) of what came back.
   */
  lemma SourceChallengeExchange(net: Net, host: Endpoint)
    ensures var r := ChallengeRun(net, host, Source);
      r.result.Success? <==> !SendFails(net, 0) && Delivers(net, 0)
    ensures !SendFails(net, 0) && Delivers(net, 0) ==>
      var d := net.inbox[0].datagram;
      ChallengeRun(net, host, Source) ==
        Run(Success(SourceToken(d.buffer)),
            Net(net.log + [Sent(SourceChallengeRequest, host), Received(d)], net.inbox[1..], Tail(net.sendFaults)))
  {
    assert SourceChallengeRequest[..9] == SourceChallengeRequest;
  }

  /**
   * Players: a Source challenge round trip, then A2S_PLAYER carrying the 4
   * token bytes found at offsets 5..8 of the challenge response, then one
   * receive whose buffer is decoded.
   */
  lemma PlayersExchange(net: Net, host: Endpoint)
    ensures var r := PlayersRun(net, host);
      r.result.Success? <==>
        !SendFails(net, 0) && Delivers(net, 0) && |net.inbox[0].datagram.buffer| >= 9 &&
        !SendFails(net, 1) && Delivers(net, 1)
    ensures !SendFails(net, 0) && Delivers(net, 0) && |net.inbox[0].datagram.buffer| >= 9 &&
            !SendFails(net, 1) && Delivers(net, 1) ==>
      var d1 := net.inbox[0].datagram;
      var d2 := net.inbox[1].datagram;
      |PlayersRequest(d1.buffer[5..9])| == 9 &&
      PlayersRun(net, host) ==
        Run(Success(ServerQueryPlayers(d2.buffer)),
            Net(net.log + [Sent(SourceChallengeRequest, host), Received(d1),
                           Sent(PlayersHeader + d1.buffer[5..9], host), Received(d2)],
                net.inbox[2..], Tail(Tail(net.sendFaults))))
  {
    SourceChallengeExchange(net, host);
    if !SendFails(net, 0) && Delivers(net, 0) {
      var d1 := net.inbox[0].datagram;
      var mid := ChallengeRun(net, host, Source).net;
      assert mid.inbox == net.inbox[1..];
      assert mid.sendFaults == Tail(net.sendFaults);
      assert !SendFails(net, 1) <==> !SendFails(mid, 0);
      if |d1.buffer| >= 9 {
        assert SourceToken(d1.buffer) == d1.buffer[5..9];
        assert PlayersRequest(d1.buffer[5..9])[..9] == PlayersHeader + d1.buffer[5..9];
      }
    }
  }

  /**
   * Players after a challenge response of at least 9 bytes: a failed
   * A2S_PLAYER send ends the call with the send message and puts nothing
   * more on the wire; a failed receive of its reply ends it with the receive
   * message; no second reply leaves the call waiting.
   */
  lemma PlayersRequestFaults(net: Net, host: Endpoint)
    requires !SendFails(net, 0) && Delivers(net, 0) && |net.inbox[0].datagram.buffer| >= 9
    ensures SendFails(net, 1) ==>
      PlayersRun(net, host).result == Failure(UnreachableHost(SendFailedMessage)) &&
      PlayersRun(net, host).net.log == net.log + [Sent(SourceChallengeRequest, host), Received(net.inbox[0].datagram)]
    ensures !SendFails(net, 1) && 1 < |net.inbox| && net.inbox[1].Fails? ==>
      PlayersRun(net, host).result == Failure(UnreachableHost(ReceiveFailedMessage))
    ensures !SendFails(net, 1) && |net.inbox| == 1 ==>
      PlayersRun(net, host).result == Failure(NoReply)
  {
    SourceChallengeExchange(net, host);
    var d1 := net.inbox[0].datagram;
    var mid := ChallengeRun(net, host, Source).net;
    assert mid.inbox == net.inbox[1..];
    assert mid.sendFaults == Tail(net.sendFaults);
    assert SendFails(net, 1) <==> SendFails(mid, 0);
    assert SourceToken(d1.buffer) == d1.buffer[5..9];
    assert PlayersRequest(d1.buffer[5..9])[..9] == PlayersHeader + d1.buffer[5..9];
  }

  /**
   * Players with a challenge response shorter than 9 bytes: the request is
   * shorter than the 9 bytes it declares, the socket refuses it, and the
   * call ends in UnreachableHost after the challenge round trip alone.
   */
  lemma PlayersShortChallenge(net: Net, host: Endpoint)
    requires !SendFails(net, 0) && Delivers(net, 0) && |net.inbox[0].datagram.buffer| < 9
    ensures PlayersRun(net, host) ==
      Run(Failure(UnreachableHost(SendFailedMessage)),
          Net(net.log + [Sent(SourceChallengeRequest, host), Received(net.inbox[0].datagram)],
              net.inbox[1..], Tail(net.sendFaults)))
  {
    SourceChallengeExchange(net, host);
  }

  /**
   * Minecraft Challenge: one send of the 7-byte handshake, one receive, and
   * the token is derived from what came back.
   */
  lemma McChallengeExchange(net: Net, host: Endpoint)
    ensures SendFails(net, 0) ==>
      ChallengeRun(net, host, Minecraft) ==
        Run(Failure(UnreachableHost(SendFailedMessage)), net.(sendFaults := Tail(net.sendFaults)))
    ensures !SendFails(net, 0) && net.inbox == [] ==>
      ChallengeRun(net, host, Minecraft) ==
        Run(Failure(NoReply), Net(net.log + [Sent(McHandshakeRequest, host)], [], Tail(net.sendFaults)))
    ensures !SendFails(net, 0) && net.inbox != [] && net.inbox[0].Fails? ==>
      ChallengeRun(net, host, Minecraft) ==
        Run(Failure(UnreachableHost(ReceiveFailedMessage)),
            Net(net.log + [Sent(McHandshakeRequest, host)], net.inbox[1..], Tail(net.sendFaults)))
    ensures !SendFails(net, 0) && Delivers(net, 0) ==>
      var d := net.inbox[0].datagram;
      ChallengeRun(net, host, Minecraft) ==
        Run(McChallengeToken(d.buffer),
            Net(net.log + [Sent(McHandshakeRequest, host), Received(d)], net.inbox[1..], Tail(net.sendFaults)))
  {
    assert McHandshakeRequest[..|McHandshakeRequest|] == McHandshakeRequest;
  }

  /** The stat request round trip that follows a successful Minecraft challenge. */
  lemma McStatExchange(net: Net, host: Endpoint, token: Bytes)
    requires ChallengeRun(net, host, Minecraft).result == Success(token)
    ensures var mid := ChallengeRun(net, host, Minecraft).net;
      var datagram := McStatRequest(token);
      var sent := SendRun(mid, datagram, |datagram|, host);
      InfoRun(net, host, Minecraft) ==
        if sent.result.Failure? then Run(Failure(sent.result.error), sent.net)
        else
          var got := ReceiveRun(sent.net);
          if got.result.Failure? then Run(Failure(got.result.error), got.net)
          else Run(Success(MinecraftQueryInfo(got.result.value.buffer)), got.net)
  {
  }

  /** The conditions under which Minecraft Info returns a record. */
  predicate McInfoGoesThrough(net: Net) {
    !SendFails(net, 0) && Delivers(net, 0) && McChallengeToken(net.inbox[0].datagram.buffer).Success? &&
    !SendFails(net, 1) && Delivers(net, 1)
  }

  /**
   * Minecraft Info: the handshake round trip comes first; only with a token
   * derived from its response is the 15-byte stat request sent, followed by
   * one receive whose buffer alone is decoded.
   */
  lemma McInfoSuccess(net: Net, host: Endpoint)
    requires McInfoGoesThrough(net)
    ensures var d1 := net.inbox[0].datagram;
      var d2 := net.inbox[1].datagram;
      var token := McChallengeToken(d1.buffer).value;
      |McStatRequest(token)| == 15 &&
      InfoRun(net, host, Minecraft) ==
        Run(Success(MinecraftQueryInfo(d2.buffer)),
            Net(net.log + [Sent(McHandshakeRequest, host), Received(d1),
                           Sent(McStatRequest(token), host), Received(d2)],
                net.inbox[2..], Tail(Tail(net.sendFaults))))
  {
    var d1 := net.inbox[0].datagram;
    var d2 := net.inbox[1].datagram;
    var token := McChallengeToken(d1.buffer).value;
    var mid := Net(net.log + [Sent(McHandshakeRequest, host), Received(d1)], net.inbox[1..], Tail(net.sendFaults));
    assert ChallengeRun(net, host, Minecraft) == Run(Success(token), mid) by {
      McChallengeExchange(net, host);
    }
    McTokenLength(d1.buffer);
    var datagram := McStatRequest(token);
    var after := Net(mid.log + [Sent(datagram, host)], mid.inbox, Tail(mid.sendFaults));
    assert SendRun(mid, datagram, |datagram|, host) == Run(Success(|datagram|), after) by {
      assert datagram[..|datagram|] == datagram;
      assert !SendFails(mid, 0);
    }
    assert ReceiveRun(after) == Run(Success(d2), Net(after.log + [Received(d2)], net.inbox[2..], after.sendFaults)) by {
      assert after.inbox[0] == net.inbox[1];
      assert after.inbox[1..] == net.inbox[2..];
    }
    assert InfoRun(net, host, Minecraft) ==
      Run(Success(MinecraftQueryInfo(d2.buffer)), Net(after.log + [Received(d2)], net.inbox[2..], after.sendFaults)) by {
      McStatExchange(net, host, token);
    }
    assert |datagram| == 15;
  }

  /**
   * Minecraft Info after a handshake that yields a token: a failed stat send
   * ends the call with the send message and puts nothing more on the wire; a
   * failed stat receive ends it with the receive message; no second reply
   * leaves the call waiting.
   */
  lemma McStatFaults(net: Net, host: Endpoint)
    requires !SendFails(net, 0) && Delivers(net, 0)
    requires McChallengeToken(net.inbox[0].datagram.buffer).Success?
    ensures SendFails(net, 1) ==>
      InfoRun(net, host, Minecraft).result == Failure(UnreachableHost(SendFailedMessage)) &&
      InfoRun(net, host, Minecraft).net.log == net.log + [Sent(McHandshakeRequest, host), Received(net.inbox[0].datagram)]
    ensures !SendFails(net, 1) && 1 < |net.inbox| && net.inbox[1].Fails? ==>
      InfoRun(net, host, Minecraft).result == Failure(UnreachableHost(ReceiveFailedMessage))
    ensures !SendFails(net, 1) && |net.inbox| == 1 ==>
      InfoRun(net, host, Minecraft).result == Failure(NoReply)
  {
    McChallengeExchange(net, host);
    var d1 := net.inbox[0].datagram;
    var ch := ChallengeRun(net, host, Minecraft);
    McTokenLength(d1.buffer);
    McStatExchange(net, host, ch.result.value);
    assert ch.net.inbox == net.inbox[1..];
    assert ch.net.sendFaults == Tail(net.sendFaults);
    assert SendFails(net, 1) <==> SendFails(ch.net, 0);
    var datagram := McStatRequest(ch.result.value);
    assert datagram[..|datagram|] == datagram;
  }

  /** Minecraft Info returns a record exactly when both round trips go through and a token is derived. */
  lemma McInfoExchange(net: Net, host: Endpoint)
    ensures InfoRun(net, host, Minecraft).result.Success? <==> McInfoGoesThrough(net)
  {
    if McInfoGoesThrough(net) {
      McInfoSuccess(net, host);
    } else {
      McChallengeExchange(net, host);
      var ch := ChallengeRun(net, host, Minecraft);
      if ch.result.Success? {
        McStatExchange(net, host, ch.result.value);
        assert ch.net.inbox == net.inbox[1..];
        assert ch.net.sendFaults == Tail(net.sendFaults);
        assert !SendFails(net, 1) <==> !SendFails(ch.net, 0);
      }
    }
  }

  /** A Minecraft token is always 4 bytes long. */
  lemma McTokenLength(buffer: Bytes)
    ensures McChallengeToken(buffer).Success? ==> |McChallengeToken(buffer).value| == 4
  {
  }

  /** The errors the Minecraft token derivation ends in: none is a socket fault. */
  lemma McTokenErrors(buffer: Bytes)
    ensures McChallengeToken(buffer).Failure? ==>
      McChallengeToken(buffer).error in {CopyOutOfRange, CopyTooLong, Parse(BadFormat), Parse(Overflow)}
  {
  }

  /**
   * Minecraft Info whose handshake response yields no token: the call ends
   * with the challenge's error and no stat request is sent.
   */
  lemma McInfoBadChallenge(net: Net, host: Endpoint)
    requires !SendFails(net, 0) && Delivers(net, 0)
    requires McChallengeToken(net.inbox[0].datagram.buffer).Failure?
    ensures InfoRun(net, host, Minecraft) ==
      Run(Failure(McChallengeToken(net.inbox[0].datagram.buffer).error),
          Net(net.log + [Sent(McHandshakeRequest, host), Received(net.inbox[0].datagram)],
              net.inbox[1..], Tail(net.sendFaults)))
  {
    McChallengeExchange(net, host);
  }

  /**
   * Every socket fault in Players is reported as UnreachableHost, with the
   * message of the wrapper it passed through; a failed call returns no record.
   */
  lemma PlayersFaultsTranslated(net: Net, host: Endpoint)
    ensures var r := PlayersRun(net, host);
      r.result.Failure? ==> r.result.error.UnreachableHost? || r.result.error == NoReply
    ensures SendFails(net, 0) ==>
      PlayersRun(net, host).result == Failure(UnreachableHost(SendFailedMessage))
    ensures !SendFails(net, 0) && net.inbox != [] && net.inbox[0].Fails? ==>
      PlayersRun(net, host).result == Failure(UnreachableHost(ReceiveFailedMessage))
  {
  }

  /**
   * No socket fault escapes Minecraft Info untranslated: it fails with
   * UnreachableHost, with no reply, or with the error of the token
   * derivation; a fault of the handshake's send or receive carries the
   * message of the wrapper it passed through.
   */
  lemma McInfoFaultsTranslated(net: Net, host: Endpoint)
    ensures var r := InfoRun(net, host, Minecraft);
      r.result.Failure? ==> !r.result.error.Raw? && !r.result.error.InvalidArgument?
    ensures SendFails(net, 0) ==>
      InfoRun(net, host, Minecraft).result == Failure(UnreachableHost(SendFailedMessage))
    ensures !SendFails(net, 0) && net.inbox != [] && net.inbox[0].Fails? ==>
      InfoRun(net, host, Minecraft).result == Failure(UnreachableHost(ReceiveFailedMessage))
  {
    McChallengeExchange(net, host);
    var ch := ChallengeRun(net, host, Minecraft);
    if ch.result.Success? {
      McStatExchange(net, host, ch.result.value);
    } else if Delivers(net, 0) && !SendFails(net, 0) {
      McTokenErrors(net.inbox[0].datagram.buffer);
    }
  }
}
