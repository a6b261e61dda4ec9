/**
 * The MQTT sender of the joynr cluster controller: for each outgoing message it checks the
 * destination and the connection, chooses topic and QoS level, checks the packet size and
 * converts the remaining lifetime into an MQTT 5 message expiry interval (section 3.3.2.3.3
 * of MQTT Version 5.0) before publishing once.  The Mosquitto connection is a class that
 * records each publish call; the failure callback is modelled by the list of exceptions
 * `SendMessage` hands to it.
 */
module MqttSender {
  import opened Int64
  import opened Wrappers

  /** Transport addresses; every kind other than an MQTT broker topic is one case. */
  datatype Address =
    | MqttAddress(brokerUri: string, topic: string)
    | OtherAddress(kind: string)

  /** The joynr message types. */
  datatype MessageType =
    | Request | Reply | OneWay | Multicast | Publication
    | SubscriptionRequest | BroadcastSubscriptionRequest | MulticastSubscriptionRequest
    | SubscriptionReply | SubscriptionStop

  /** A custom header as it appears in the serialized message, with its prefix. */
  datatype Header = Header(key: string, value: string)

  /** The parts of an immutable joynr message the sender reads. */
  datatype ImmutableMessage = ImmutableMessage(
    messageType: MessageType,
    effort: Option<string>,
    serializedMessage: seq<bv8>,
    prefixedCustomHeaders: seq<Header>,
    expiryDateMs: int64)

  /** The exceptions passed to the failure callback. */
  datatype JoynrException =
    | JoynrRuntimeException(message: string)
    | JoynrDelayMessageException(delaySeconds: nat, message: string)
    | JoynrMessageNotSentException(maximumBytes: nat, actualBytes: nat)

  /** The arguments of one MosquittoConnection::publishMessage call. */
  datatype PublishCall = PublishCall(
    topic: string,
    qosLevel: int,
    ttlSec: uint32,
    headers: seq<Header>,
    payloadLength: nat,
    payload: seq<bv8>)

  /** What the connection reports through its getters when a message is sent. */
  datatype ConnectionState = ConnectionState(
    subscribedToChannelTopic: bool,
    mqttPrio: string,
    mqttQos: int,
    mqttMaximumPacketSize: nat)

  /** What sendMessage does: hand one exception to the failure callback, or publish once. */
  datatype SendDecision = Reject(error: JoynrException) | Publish(call: PublishCall)

  const INVALID_ADDRESS_MESSAGE: string := "Invalid destination address type provided"
  const NOT_CONNECTED_MESSAGE: string := "MqttSender is not connected, delaying message"
  /** The delay requested while the channel topic is not subscribed. */
  const NOT_CONNECTED_DELAY_SECONDS: nat := 2
  /** The literal MessagingQosEffort::getLiteral gives for BEST_EFFORT. */
  const BEST_EFFORT_LITERAL: string := "BEST_EFFORT"
  const FIXED_OVERHEAD_PER_MESSAGE: nat := 32
  const FIXED_OVERHEAD_PER_CUSTOM_HEADER: nat := 5

  /** The topic a message is published on. */
  function Topic(addressTopic: string, messageType: MessageType, mqttPrio: string): (r: string)
    ensures |r| >= |addressTopic| && r[..|addressTopic|] == addressTopic
    ensures messageType == Multicast ==> |r| == |addressTopic|
    ensures messageType != Multicast ==>
      |r| == |addressTopic| + 1 + |mqttPrio| && r[|addressTopic|] == '/'
      && r[|addressTopic| + 1..] == mqttPrio
  {
    if messageType == Multicast then addressTopic else addressTopic + "/" + mqttPrio
  }

  /**
   * The QoS level: best-effort messages are sent "at most once" (QoS 0, section 4.3.1 of
   * MQTT Version 5.0); all others use the connection's level.
   */
  function QosLevel(connectionQos: int, effort: Option<string>): (r: int)
    ensures effort == Some(BEST_EFFORT_LITERAL) ==> r == 0
    ensures effort != Some(BEST_EFFORT_LITERAL) ==> r == connectionQos
  {
    if effort.Some? && effort.value == BEST_EFFORT_LITERAL then 0 else connectionQos
  }

  /** The packet bytes the custom headers add: key, value and a fixed overhead for each. */
  function HeadersOverhead(headers: seq<Header>): nat
  {
    if headers == [] then 0
    else |headers[0].key| + |headers[0].value| + FIXED_OVERHEAD_PER_CUSTOM_HEADER
         + HeadersOverhead(headers[1..])
  }

  lemma {:induction false} HeadersOverheadAppend(a: seq<Header>, b: seq<Header>)
    ensures HeadersOverhead(a + b) == HeadersOverhead(a) + HeadersOverhead(b)
    decreases |a|
  {
    if a != [] {
      assert (a + b)[1..] == a[1..] + b;
      HeadersOverheadAppend(a[1..], b);
    } else {
      assert a + b == b;
    }
  }

  /** Each header costs at least its fixed overhead. */
  lemma {:induction false} HeadersOverheadAtLeastFixed(headers: seq<Header>)
    ensures HeadersOverhead(headers) >= FIXED_OVERHEAD_PER_CUSTOM_HEADER * |headers|
    decreases |headers|
  {
    if headers != [] {
      HeadersOverheadAtLeastFixed(headers[1..]);
    }
  }

  /**
   * The header overhead does not depend on the order in which the header map is iterated:
   * any two listings of the same headers cost the same.
   */
  lemma {:induction false} HeadersOverheadOrderIndependent(a: seq<Header>, b: seq<Header>)
    requires multiset(a) == multiset(b)
    ensures HeadersOverhead(a) == HeadersOverhead(b)
    decreases |a|
  {
    if a != [] {
      var h := a[0];
      assert h in multiset(b);
      var j :| 0 <= j < |b| && b[j] == h;
      var rest := b[..j] + b[j + 1..];
      assert b == b[..j] + [h] + b[j + 1..];
      HeadersOverheadAppend(b[..j] + [h], b[j + 1..]);
      HeadersOverheadAppend(b[..j], [h]);
      HeadersOverheadAppend(b[..j], b[j + 1..]);
      assert HeadersOverhead([h]) == |h.key| + |h.value| + FIXED_OVERHEAD_PER_CUSTOM_HEADER;
      assert a == [h] + a[1..];
      assert multiset(a[1..]) == multiset(rest) by {
        calc {
          multiset(a[1..]);
          multiset(a) - multiset{h};
          multiset(b) - multiset{h};
          { assert multiset(b) == multiset(b[..j]) + multiset{h} + multiset(b[j + 1..]); }
          multiset(rest);
        }
      }
      HeadersOverheadOrderIndependent(a[1..], rest);
    }
  }

  /** The size of the MQTT packet for a payload, topic and custom headers. */
  function PacketSize(payloadLength: nat, topic: string, headers: seq<Header>): nat
  {
    payloadLength + FIXED_OVERHEAD_PER_MESSAGE + |topic| + HeadersOverhead(headers)
  }

  /** The running sum of the source's header loop, computed in the same order. */
  method ComputePacketSize(payloadLength: nat, topic: string, headers: seq<Header>)
    returns (size: nat)
    ensures size == PacketSize(payloadLength, topic, headers)
    ensures size >= payloadLength + FIXED_OVERHEAD_PER_MESSAGE + |topic|
                    + FIXED_OVERHEAD_PER_CUSTOM_HEADER * |headers|
  {
    size := payloadLength + FIXED_OVERHEAD_PER_MESSAGE + |topic|;
    var i := 0;
    while i < |headers|
      invariant 0 <= i <= |headers|
      invariant size == payloadLength + FIXED_OVERHEAD_PER_MESSAGE + |topic|
                        + HeadersOverhead(headers[..i])
    {
      HeadersOverheadAppend(headers[..i], [headers[i]]);
      assert headers[..i + 1] == headers[..i] + [headers[i]];
      size := size + |headers[i].key| + |headers[i].value| + FIXED_OVERHEAD_PER_CUSTOM_HEADER;
      i := i + 1;
    }
    assert headers[..i] == headers;
    HeadersOverheadAtLeastFixed(headers);
  }

  /** Whether the packet is refused: a payload beyond int64, or a set maximum (0 = none) exceeded. */
  predicate Oversize(payloadLength: nat, packetSize: nat, maximumPacketSize: nat)
  {
    payloadLength > INT64_MAX || (maximumPacketSize > 0 && packetSize > maximumPacketSize)
  }

  /** ceil(ms / 1000) for a non-negative ms. */
  function CeilSeconds(ms: nat): (s: nat)
    ensures s * 1000 >= ms && (s == 0 || (s - 1) * 1000 < ms)
  {
    (ms + 999) / 1000
  }

  /**
   * The message expiry interval in seconds for a remaining lifetime of `remainingMs`:
   * the remaining seconds rounded up, or the uint32 maximum when the lifetime is negative
   * or its seconds do not fit into 32 bits.
   */
  function TtlSeconds(remainingMs: int): (r: uint32)
    ensures remainingMs < 0 ==> r == UINT32_MAX
    ensures remainingMs > UINT32_MAX * 1000 ==> r == UINT32_MAX
    ensures 0 <= remainingMs <= UINT32_MAX * 1000 ==> r * 1000 >= remainingMs && (r == 0 || (r - 1) * 1000 < remainingMs)
  {
    if remainingMs < 0 || CeilSeconds(remainingMs) > UINT32_MAX then
      UINT32_MAX
    else
      CeilSeconds(remainingMs)
  }

  /** The decision sendMessage takes, in the order of its checks. */
  function Decide(destinationAddress: Address, message: ImmutableMessage,
                  connection: ConnectionState, now: int64): (d: SendDecision)
    ensures !destinationAddress.MqttAddress? ==>
      d == Reject(JoynrRuntimeException(INVALID_ADDRESS_MESSAGE))
    ensures destinationAddress.MqttAddress? && !connection.subscribedToChannelTopic ==>
      d == Reject(JoynrDelayMessageException(NOT_CONNECTED_DELAY_SECONDS, NOT_CONNECTED_MESSAGE))
    ensures d.Publish? <==>
      destinationAddress.MqttAddress? && connection.subscribedToChannelTopic
      && !Oversize(|message.serializedMessage|,
                   PacketSize(|message.serializedMessage|,
                              Topic(destinationAddress.topic, message.messageType, connection.mqttPrio),
                              message.prefixedCustomHeaders),
                   connection.mqttMaximumPacketSize)
    ensures destinationAddress.MqttAddress? && connection.subscribedToChannelTopic && !d.Publish? ==>
      d.Reject? && d.error.JoynrMessageNotSentException?
    ensures d.Reject? && d.error.JoynrMessageNotSentException? ==>
      d.error.maximumBytes == connection.mqttMaximumPacketSize
      && d.error.actualBytes >= FIXED_OVERHEAD_PER_MESSAGE + |message.serializedMessage|
    ensures d.Publish? ==>
      d.call.topic == Topic(destinationAddress.topic, message.messageType, connection.mqttPrio)
      && d.call.qosLevel == QosLevel(connection.mqttQos, message.effort)
      && d.call.ttlSec == TtlSeconds(message.expiryDateMs - now)
      && d.call.headers == message.prefixedCustomHeaders
      && d.call.payloadLength == |message.serializedMessage|
      && d.call.payload == message.serializedMessage
  {
    if !destinationAddress.MqttAddress? then
      Reject(JoynrRuntimeException(INVALID_ADDRESS_MESSAGE))
    else if !connection.subscribedToChannelTopic then
      Reject(JoynrDelayMessageException(NOT_CONNECTED_DELAY_SECONDS, NOT_CONNECTED_MESSAGE))
    else
      var topic := Topic(destinationAddress.topic, message.messageType, connection.mqttPrio);
      var qosLevel := QosLevel(connection.mqttQos, message.effort);
      var payload := message.serializedMessage;
      var size := PacketSize(|payload|, topic, message.prefixedCustomHeaders);
      if Oversize(|payload|, size, connection.mqttMaximumPacketSize) then
        Reject(JoynrMessageNotSentException(connection.mqttMaximumPacketSize, size))
      else
        var ttlSec := TtlSeconds(message.expiryDateMs - now);
        Publish(PublishCall(topic, qosLevel, ttlSec, message.prefixedCustomHeaders, |payload|, payload))
  }

  /** A packet exactly at the maximum size is still published. */
  lemma PacketAtLimitIsPublished(destinationAddress: Address, message: ImmutableMessage,
                                 connection: ConnectionState, now: int64)
    requires destinationAddress.MqttAddress? && connection.subscribedToChannelTopic
    requires |message.serializedMessage| <= INT64_MAX
    requires connection.mqttMaximumPacketSize
             == PacketSize(|message.serializedMessage|,
                           Topic(destinationAddress.topic, message.messageType, connection.mqttPrio),
                           message.prefixedCustomHeaders)
    ensures Decide(destinationAddress, message, connection, now).Publish?
  {
  }

  /** The Mosquitto client connection: its settings, and a record of every publish call. */
  class MosquittoConnection {
    var subscribedToChannelTopic: bool
    var mqttPrio: string
    var mqttQos: int
    var mqttMaximumPacketSize: nat
    /** The publishMessage calls made on this connection, oldest first. */
    var published: seq<PublishCall>

    constructor (subscribed: bool, prio: string, qos: int, maximumPacketSize: nat)
      ensures State() == ConnectionState(subscribed, prio, qos, maximumPacketSize)
      ensures published == []
    {
      subscribedToChannelTopic := subscribed;
      mqttPrio := prio;
      mqttQos := qos;
      mqttMaximumPacketSize := maximumPacketSize;
      published := [];
    }

    /** What the connection's getters report. */
    function State(): ConnectionState
      reads this
    {
      ConnectionState(subscribedToChannelTopic, mqttPrio, mqttQos, mqttMaximumPacketSize)
    }

    /** Hands one message to the broker client; only the call itself is modelled. */
    method PublishMessage(call: PublishCall)
      modifies this`published
      ensures published == old(published) + [call]
    {
      published := published + [call];
    }
  }

  class MqttSender {
    const mosquittoConnection: MosquittoConnection

    constructor (mosquittoConnection: MosquittoConnection)
      ensures this.mosquittoConnection == mosquittoConnection
    {
      this.mosquittoConnection := mosquittoConnection;
    }

    /**
     * Sends `message` to `destinationAddress` at time `now`.  The result lists the
     * exceptions handed to the failure callback by this call (the connection may call it
     * later for a failed publish; that is not part of the model).
     */
    method SendMessage(destinationAddress: Address, message: ImmutableMessage, now: int64)
      returns (onFailureCalls: seq<JoynrException>)
      modifies mosquittoConnection`published
      ensures mosquittoConnection.State() == old(mosquittoConnection.State())
      ensures match Decide(destinationAddress, message, mosquittoConnection.State(), now)
        case Reject(e) =>
          onFailureCalls == [e] && mosquittoConnection.published == old(mosquittoConnection.published)
        case Publish(call) =>
          onFailureCalls == [] && mosquittoConnection.published == old(mosquittoConnection.published) + [call]
    {
      if !destinationAddress.MqttAddress? {
        onFailureCalls := [JoynrRuntimeException(INVALID_ADDRESS_MESSAGE)];
        return;
      }
      if !mosquittoConnection.subscribedToChannelTopic {
        onFailureCalls := [JoynrDelayMessageException(NOT_CONNECTED_DELAY_SECONDS, NOT_CONNECTED_MESSAGE)];
        return;
      }
      var topic: string;
      if message.messageType == Multicast {
        topic := destinationAddress.topic;
      } else {
        topic := destinationAddress.topic + "/" + mosquittoConnection.mqttPrio;
      }

      var qosLevel := mosquittoConnection.mqttQos;
      if message.effort.Some? && message.effort.value == BEST_EFFORT_LITERAL {
        qosLevel := 0;
      }

      var rawMessage := message.serializedMessage;
      var maximumPacketSize := mosquittoConnection.mqttMaximumPacketSize;
      var size := ComputePacketSize(|rawMessage|, topic, message.prefixedCustomHeaders);

      if |rawMessage| > INT64_MAX || (maximumPacketSize > 0 && size > maximumPacketSize) {
        onFailureCalls := [JoynrMessageNotSentException(maximumPacketSize, size)];
        return;
      }

      var remainingMs := message.expiryDateMs - now;
      var ttlSec: uint32;
      if remainingMs < 0 || CeilSeconds(remainingMs) > UINT32_MAX {
        ttlSec := UINT32_MAX;
      } else {
        ttlSec := CeilSeconds(remainingMs);
      }
      mosquittoConnection.PublishMessage(
        PublishCall(topic, qosLevel, ttlSec, message.prefixedCustomHeaders, |rawMessage|, rawMessage));
      onFailureCalls := [];
    }
  }
}
