# CoreRCON server queries, modelled in Dafny

This project models the server-query client of CoreRCON
(`src/CoreRCON/ServerQuery.cs`). The client asks a game server for its
status over UDP, using one of two protocols:

- **Source Engine Query** (Valve). `Info` sends A2S_INFO. `Players` first
  obtains a challenge with an A2S_PLAYER probe, then sends A2S_PLAYER with
  that challenge.
- **Minecraft Query** (the GameSpy4-style protocol). `Info` sends a
  handshake, derives a challenge token from the text the server returns,
  then sends a basic stat request carrying that token.

The model has four modules:

- `NumberParsing` (NumberParsing.dfy) models the two .NET calls the token
  derivation uses: `Int32.Parse(string)` and `Int32.ToString()`.
  `Int32.Parse` accepts white space, an optional sign, one or more digits,
  white space, then only NULs. A text of any other shape is a
  FormatException; a well-formed text out of range is an OverflowException.
- `UdpSocket` (UdpSocket.dfy) replaces the shared `UdpClient` with a
  scripted transport. A value `Net` holds three things: a log of the
  datagrams that crossed the wire, the replies the next receives will get
  (each a datagram or a SocketException), and which of the next sends fail.
  The class `UdpClient` holds the same state in fields. Its `SendAsync`
  and `ReceiveAsync` are proved equal to the pure steps `SendStep` and
  `ReceiveStep`. A send whose byte count exceeds the datagram is refused
  with ArgumentOutOfRangeException, as `UdpClient` does.
- `ServerQuery` (ServerQuery.dfy) holds the datagrams, the token
  derivation, and the operations. Each of `Info`, `Players`, `Challenge`,
  `SendAsync` and `ReceiveAsync` is a method over the shared client. Each
  method is proved to leave the result and the transport state that a
  function of the old state gives (`InfoRun`, `PlayersRun`,
  `ChallengeRun`, `SendRun`, `ReceiveRun`). `Challenge` fills a 16-byte
  array in place, as the source does.
- `QueryProperties` (QueryProperties.dfy) proves what the protocols promise
  about those functions: the exact bytes sent, the number and order of
  sends and receives, where each token comes from, and which error ends
  each failed call.

Errors are values of the datatype `ServerQuery.Error`:

- `UnreachableHost(message)` comes from the two wrappers.
- `InvalidArgument` is raised for an unknown `ServerType`.
- `CopyOutOfRange` and `CopyTooLong` are raised by `Array.Copy`.
- `Parse(BadFormat)` and `Parse(Overflow)` are raised by `Int32.Parse`.
- `Raw(fault)` is a socket exception that escapes untranslated.
- `NoReply` stands for a receive that never completes: there is no
  timeout, so the call would wait forever.

### Where the code departs from its documentation and the protocols (the model follows the code)

- Source `Info` receives through `_client.ReceiveAsync()` directly, not
  through the translating wrapper (ServerQuery.cs:64). A socket fault there
  therefore escapes as a raw SocketException. The method's documentation
  (ServerQuery.cs:57) names UnreachableHostException as the exception it
  throws. See `SourceInfoExchange`.
- A Minecraft handshake response shorter than 5 bytes makes `Array.Copy`
  throw ArgumentOutOfRangeException, not an unreachable-host error. A
  response longer than 21 bytes makes it throw ArgumentException. See
  `McTokenLengthLimits`.
- The Source token is `Skip(5).Take(4)` (ServerQuery.cs:108), so a response
  shorter than 9 bytes gives a shorter token. Valve's Server Queries page,
  linked from the class documentation (ServerQuery.cs:15), makes the
  A2S_PLAYER challenge a 4-byte number. `Players` then declares 9 bytes for
  a shorter datagram. The socket refuses that send, so the call ends in
  UnreachableHost. See `PlayersShortChallenge`.

## Model

| member | source | states |
|---|---|---|
| `UdpSocket.UdpClient.SendAsync` | src/CoreRCON/ServerQuery.cs:129 | the socket's send: a byte count outside 0..datagram length is refused with ArgumentOutOfRange and sends nothing; otherwise the first `bytes` bytes are logged as one datagram, unless the script makes the send raise |
| `UdpSocket.UdpClient.ReceiveAsync` | src/CoreRCON/ServerQuery.cs:142 | the socket's receive takes the next scripted reply: it logs and returns the datagram, or raises SocketException, or waits forever when nothing is scripted |
| `UdpSocket.SendStepEffect` | src/CoreRCON/ServerQuery.cs:129 | a send completes exactly when its count fits the datagram and the socket does not fail; it then returns the count and logs exactly the first `bytes` bytes; otherwise nothing is logged |
| `ServerQuery.SendAsync` | src/CoreRCON/ServerQuery.cs:125-136 | any exception of the socket's send becomes UnreachableHost("An error occured while attempting to send data.") |
| `ServerQuery.ReceiveAsync` | src/CoreRCON/ServerQuery.cs:138-149 | any exception of the socket's receive becomes UnreachableHost("An error occured while attempting to receive data.") |
| `ServerQuery.Challenge` | src/CoreRCON/ServerQuery.cs:102-123 | result and new transport state are those of `ChallengeRun`: the Source probe or Minecraft handshake round trip, then the token derived from the reply; an unknown type fails with InvalidArgument |
| `ServerQuery.CopyChallengeText` | src/CoreRCON/ServerQuery.cs:116-117 | a fresh 16-byte array holds the response from offset 5 followed by zero bytes |
| `ServerQuery.Info` | src/CoreRCON/ServerQuery.cs:58-76 | result and new transport state are those of `InfoRun` |
| `ServerQuery.Players` | src/CoreRCON/ServerQuery.cs:89-95 | result and new transport state are those of `PlayersRun` |
| `ServerQuery.SourceToken` | src/CoreRCON/ServerQuery.cs:108 | the Source token holds the response bytes from offset 5 on, unchanged, at most 4 of them; it is shorter when the response has fewer than 9 bytes |
| `ServerQuery.AsciiString` | src/CoreRCON/ServerQuery.cs:118 | ASCII decoding keeps the length and maps each byte below 0x80 to its character and every other byte to '?' |
| `ServerQuery.McChallengeTokenSpec` | src/CoreRCON/ServerQuery.cs:114-119 | the Minecraft token fails with CopyOutOfRange under 5 bytes, CopyTooLong over 21 bytes, or the parse error of the copied text; otherwise it is 4 bytes whose big-endian signed value is the parsed number |
| `ServerQuery.BigEndianOfReversed` | src/CoreRCON/ServerQuery.cs:119 | reversing the little-endian `GetBytes` of an int gives its big-endian encoding: reading it most significant byte first gives the int back |
| `NumberParsing.ParseFormatted` | src/CoreRCON/ServerQuery.cs:118 | `Int32.Parse` undoes `Int32.ToString`, also with trailing NUL padding; a formatted value outside the int range is an Overflow |
| `NumberParsing.FormatLength` | src/CoreRCON/ServerQuery.cs:116 | the decimal text of an int has at most 11 characters, so a NUL-terminated token fits the 16-byte buffer |
| `NumberParsing.ParseRejectsNulFirst` | src/CoreRCON/ServerQuery.cs:118 | an empty or NUL-first text is a FormatException |
| `QueryProperties.SourceInfoRequestLayout` | src/CoreRCON/ServerQuery.cs:63 | A2S_INFO is 25 bytes: FF FF FF FF, the ASCII text "TSource Engine Query", then 00 |
| `QueryProperties.McHandshakeLayout` | src/CoreRCON/ServerQuery.cs:111 | the Minecraft handshake is FE FD 09 01 02 03 04 |
| `QueryProperties.McStatLayout` | src/CoreRCON/ServerQuery.cs:67-68 | a basic stat request with a 4-byte token is 15 bytes: FE FD 00 01 02 03 04, the token, then 00 00 00 00 |
| `QueryProperties.AsciiPadded` | src/CoreRCON/ServerQuery.cs:118 | ASCII text followed by zero bytes decodes to that text followed by NULs |
| `QueryProperties.McChallengeText` | src/CoreRCON/ServerQuery.cs:116-118 | a response of a 5-byte header, ASCII text and zero bytes, once copied into the 16-byte buffer, reads as that text followed by NULs |
| `QueryProperties.McTokenRoundTrip` | src/CoreRCON/ServerQuery.cs:114-119 | when the handshake response is a 5-byte header, the decimal text of an int and any number of zero bytes that still fit the 16-byte buffer, the token is that int's bytes reversed, and reading them big-endian gives the int |
| `QueryProperties.McTokenExample` | src/CoreRCON/ServerQuery.cs:114-119 | the response 00 00 00 00 00 '1' '2' '3' yields the token 00 00 00 7B |
| `QueryProperties.SmallGetBytes` | src/CoreRCON/ServerQuery.cs:119 | `GetBytes` of a number below 256 is that number followed by three zero bytes |
| `QueryProperties.McTokenLengthLimits` | src/CoreRCON/ServerQuery.cs:116-118 | a response under 5 bytes fails with CopyOutOfRange, one over 21 bytes with CopyTooLong, and one of exactly 5 bytes (empty text) with a FormatException |
| `QueryProperties.McTokenLength` | src/CoreRCON/ServerQuery.cs:119 | a derived Minecraft token is always 4 bytes |
| `QueryProperties.McTokenErrors` | src/CoreRCON/ServerQuery.cs:116-118 | the token derivation fails only with the Array.Copy or Int32.Parse exceptions |
| `QueryProperties.UndefinedTypeRefused` | src/CoreRCON/ServerQuery.cs:72-73 | `Info` and `Challenge` (lines 120-121) fail with InvalidArgument("type argument was invalid") for any integer other than 0 (Source) and 1 (Minecraft), leaving the transport state untouched: no send, no receive |
| `QueryProperties.SourceInfoExchange` | src/CoreRCON/ServerQuery.cs:62-65 | Source `Info` makes no challenge step. It sends the 25-byte A2S_INFO once. It then receives once and decodes only that buffer. A failed send gives UnreachableHost, and nothing is received. A failed receive lets the raw SocketException through |
| `QueryProperties.SourceChallengeExchange` | src/CoreRCON/ServerQuery.cs:106-108 | the Source challenge sends the 9-byte probe FF FF FF FF 55 FF FF FF FF, receives once, and succeeds exactly then, with `SourceToken` of the reply |
| `QueryProperties.PlayersExchange` | src/CoreRCON/ServerQuery.cs:89-95 | `Players` returns a record exactly when both round trips go through and the challenge reply has at least 9 bytes. It then logs, in order: probe, reply, the 9-byte FF FF FF FF 55 followed by reply bytes 5..8, and the reply it decodes |
| `QueryProperties.PlayersShortChallenge` | src/CoreRCON/ServerQuery.cs:91-92 | with a challenge reply under 9 bytes the player request is shorter than its declared 9 bytes. The socket refuses it, and `Players` fails with UnreachableHost after the challenge round trip alone |
| `QueryProperties.PlayersRequestFaults` | src/CoreRCON/ServerQuery.cs:92-93 | after a challenge reply of at least 9 bytes, a failed A2S_PLAYER send ends `Players` with UnreachableHost and the send message, with only the challenge exchange on the wire; a failed receive of its reply ends it with UnreachableHost and the receive message; no second reply leaves it waiting (NoReply) |
| `QueryProperties.McChallengeExchange` | src/CoreRCON/ServerQuery.cs:109-119 | the Minecraft challenge sends the 7-byte handshake once and receives once. Its result is the token derived from that reply. Wrapped send and receive faults become UnreachableHost |
| `QueryProperties.McStatFaults` | src/CoreRCON/ServerQuery.cs:69-70 | after a handshake that yields a token, a failed stat send ends Minecraft `Info` with UnreachableHost and the send message, with only the handshake and its reply on the wire; a failed stat receive ends it with the receive message; no second reply leaves it waiting (NoReply) |
| `QueryProperties.McInfoSuccess` | src/CoreRCON/ServerQuery.cs:66-71 | a successful Minecraft `Info` logs, in order: the handshake, its reply, the 15-byte stat request with the token from that reply, and the stat reply, which alone is decoded |
| `QueryProperties.McInfoExchange` | src/CoreRCON/ServerQuery.cs:66-71 | Minecraft `Info` returns a record exactly when both sends and receives go through and a token is derived |
| `QueryProperties.McInfoBadChallenge` | src/CoreRCON/ServerQuery.cs:68 | when no token can be derived, Minecraft `Info` fails with the derivation's error and sends no stat request |
| `QueryProperties.PlayersFaultsTranslated` | src/CoreRCON/ServerQuery.cs:125-149 | `Players` fails only with UnreachableHost, or waits forever. A failed first send or receive yields the send or receive message |
| `QueryProperties.McInfoFaultsTranslated` | src/CoreRCON/ServerQuery.cs:125-149 | Minecraft `Info` never lets a raw socket exception through, and never fails with the invalid-type ArgumentException; a failed handshake send ends it with UnreachableHost and the send message, a failed handshake receive with UnreachableHost and the receive message |

## Left out

- The real socket, `async`/`await` and the static shared client
  (ServerQuery.cs:36, 40-43) are replaced by the scripted transport. The
  client is passed explicitly to each operation.
- Concurrent callers on the shared socket are not modelled. The sender of
  a datagram is recorded, but, as in the source, never checked. So a reply
  from another host would be taken as the answer.
- The `IPAddress`/port overloads (ServerQuery.cs:51, 83) only build an
  endpoint and delegate, so they are not modelled.
- `SourceQueryInfo.FromBytes`, `MinecraftQueryInfo.FromBytes` and
  `ServerQueryPlayer.FromBytes` are not part of this model. A decoded
  record is represented by the buffer it is decoded from, so any exception
  these decoders throw is not modelled.
- `Debug.WriteLine` in the wrappers (ServerQuery.cs:133, 146) is left out
  because it has no effect on results.
- `Int32.Parse` is modelled with the invariant culture's signs "+" and "-".
  A culture with other sign strings is not modelled.
- `BitConverter.GetBytes` is modelled for a little-endian machine.
- `NoReply` ends the modelled call where the real call would wait forever
  for a datagram.
- Endpoint validation (a null endpoint, a port out of range) and datagrams
  too large for UDP are not modelled. The source does not check them.
- `AuthenticationException` (src/CoreRCON/Exceptions.cs) is never raised by
  the server-query code. `UnreachableHostException` is the `UnreachableHost`
  error, with its message.
- The demo program src/MCExample/Program.cs and the RCON client are not
  part of this model.
