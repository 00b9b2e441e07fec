/**
 * The UDP socket the server-query client shares between all its calls
 * (System.Net.Sockets.UdpClient), replaced by a scripted transport.
 *
 * The socket's behaviour towards the rest of the world is not modelled;
 * instead a script decides ahead of time what each send and
 * each receive will do:
 *  - `sendFaults[k]` says whether the k-th accepted send from now on raises
 *    a SocketException (once the script runs out, sends succeed);
 *  - `inbox[k]` is what the k-th receive from now on gets: a datagram from
 *    some sender, or a SocketException; with an empty inbox a receive waits
 *    for ever (the client sets no timeout).
 * The log records what went over the wire, in order.
 */
module UdpSocket {

  type byte = x: int | 0 <= x < 0x100

  type Bytes = seq<byte>

  /** An IPEndPoint: an address, given by its bytes, and a port. */
  datatype Endpoint = Endpoint(address: Bytes, port: nat)

  /** UdpReceiveResult: the datagram and the endpoint it came from. */
  datatype UdpReceiveResult = UdpReceiveResult(buffer: Bytes, remoteEndPoint: Endpoint)

  /** The exceptions raised by UdpClient.SendAsync and UdpClient.ReceiveAsync. */
  datatype Fault = ArgumentOutOfRange | SocketException

  /** The scripted outcome of one receive. */
  datatype Reply = Arrives(datagram: UdpReceiveResult) | Fails

  /** One datagram that crossed the wire. */
  datatype IoEvent = Sent(payload: Bytes, to: Endpoint) | Received(datagram: UdpReceiveResult)

  /** The whole state of the scripted transport. */
  datatype Net = Net(log: seq<IoEvent>, inbox: seq<Reply>, sendFaults: seq<bool>)

  /**
   * How a socket call ends: it completes with a value, it raises an
   * exception, or it never completes (a receive with nothing to receive).
   */
  datatype Outcome<T> = Done(value: T) | Raised(fault: Fault) | Pending

  datatype Step<T> = Step(outcome: Outcome<T>, net: Net)

  function Tail<T>(s: seq<T>): seq<T> {
    if s == [] then [] else s[1..]
  }

  /** The k-th send from now on that reaches the socket is scripted to raise. */
  predicate SendFails(net: Net, k: nat) {
    k < |net.sendFaults| && net.sendFaults[k]
  }

  /** The k-th receive from now on gets a datagram. */
  predicate Delivers(net: Net, k: nat) {
    k < |net.inbox| && net.inbox[k].Arrives?
  }

  /**
   * UdpClient.SendAsync(datagram, bytes, endPoint): a count outside
   * 0..datagram.Length is refused before anything is sent; otherwise the
   * first `bytes` bytes go out as one datagram, unless the script says the
   * send fails. The result is the number of bytes sent.
   */
  function SendStep(net: Net, datagram: Bytes, bytes: int, endPoint: Endpoint): Step<int> {
    if !(0 <= bytes <= |datagram|) then
      Step(Raised(ArgumentOutOfRange), net)
    else if SendFails(net, 0) then
      Step(Raised(SocketException), net.(sendFaults := Tail(net.sendFaults)))
    else
      Step(Done(bytes), net.(log := net.log + [Sent(datagram[..bytes], endPoint)],
                             sendFaults := Tail(net.sendFaults)))
  }

  /** UdpClient.ReceiveAsync(): takes the next scripted reply. */
  function ReceiveStep(net: Net): Step<UdpReceiveResult> {
    if net.inbox == [] then
      Step(Pending, net)
    else match net.inbox[0]
      case Arrives(d) => Step(Done(d), net.(log := net.log + [Received(d)], inbox := net.inbox[1..]))
      case Fails => Step(Raised(SocketException), net.(inbox := net.inbox[1..]))
  }

  /** A send accepted by the socket puts exactly its first `bytes` bytes on the wire, or nothing. */
  lemma SendStepEffect(net: Net, datagram: Bytes, bytes: int, endPoint: Endpoint)
    ensures var s := SendStep(net, datagram, bytes, endPoint);
      s.net.inbox == net.inbox &&
      (s.outcome.Done? <==> 0 <= bytes <= |datagram| && !SendFails(net, 0)) &&
      (s.outcome.Done? ==> s.outcome.value == bytes &&
                           s.net.log == net.log + [Sent(datagram[..bytes], endPoint)]) &&
      (!s.outcome.Done? ==> s.net.log == net.log && !s.outcome.Pending?)
  {
  }

  class UdpClient {
    var log: seq<IoEvent>
    var inbox: seq<Reply>
    var sendFaults: seq<bool>

    function State(): Net
      reads this
    {
      Net(log, inbox, sendFaults)
    }

    constructor (inbox: seq<Reply>, sendFaults: seq<bool>)
      ensures State() == Net([], inbox, sendFaults)
    {
      this.log := [];
      this.inbox := inbox;
      this.sendFaults := sendFaults;
    }

    method SendAsync(datagram: Bytes, bytes: int, endPoint: Endpoint) returns (r: Outcome<int>)
      modifies this
      ensures Step(r, State()) == SendStep(old(State()), datagram, bytes, endPoint)
    {
      if !(0 <= bytes <= |datagram|) {
        return Raised(ArgumentOutOfRange);
      }
      var fails := sendFaults != [] && sendFaults[0];
      sendFaults := Tail(sendFaults);
      if fails {
        return Raised(SocketException);
      }
      log := log + [Sent(datagram[..bytes], endPoint)];
      r := Done(bytes);
    }

    method ReceiveAsync() returns (r: Outcome<UdpReceiveResult>)
      modifies this
      ensures Step(r, State()) == ReceiveStep(old(State()))
    {
      if inbox == [] {
        return Pending;
      }
      var reply := inbox[0];
      inbox := inbox[1..];
      match reply
      case Arrives(d) =>
        log := log + [Received(d)];
        r := Done(d);
      case Fails =>
        r := Raised(SocketException);
    }
  }
}
