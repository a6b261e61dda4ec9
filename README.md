# joynr: MQTT send decision, guided proxy building and dispatch utilities in Dafny

This project models five small routines of the joynr middleware. They sit next to its
message router, and each model states and proves what its routine promises.

- **MQTT sender** (`mqtt_sender.dfy`). `MqttSender::sendMessage` works through a fixed chain
  of checks:
  - The destination must be an MQTT address.
  - The connection must be subscribed to its channel topic; otherwise a 2 second delay is
    requested.
  - It chooses the topic. A multicast uses the address topic; any other message uses
    `topic/prio`.
  - It chooses the QoS level. A best-effort message is sent "at most once", QoS 0 in section
    4.3.1 of MQTT Version 5.0.
  - It checks the packet size against the connection's maximum.
  - It converts the remaining lifetime into the Message Expiry Interval, in seconds, of
    section 3.3.2.3.3 of MQTT Version 5.0.

  Only then does it publish, exactly once. The Mosquitto connection is a class that records
  each `publishMessage` call. The failure callback is modelled by the list of exceptions that
  `SendMessage` hands to it. `Decide` is the decision as a function, and `SendMessage` is
  proved to act exactly as `Decide` says.
- **Guided proxy builder** (`guided_proxy_builder.dfy`). `GuidedProxyBuilder` is a class with
  the flags `discoveryInProgress` and `discoveryCompletedOnce`. The setters are refused while
  a discovery runs. `StartDiscovery` covers `discoverAsyncInternal` up to `lookup()`. The two
  arbitration callbacks become `OnArbitrationSuccess` and `OnArbitrationError`. `BuildProxy`
  selects the last discovered entry with the wanted participant id and checks its version.
  `Valid()` is the class invariant, and every method keeps it. One consequence: `buildProxy`'s
  "DiscoveryQos not set" internal error cannot happen.
- **Dispatcher utilities** (`dispatcher_utils.dfy`, with `int64.dfy`). These convert between
  a relative TTL and an absolute expiry date. `QDateTime::addMSecs` is taken to add with
  64-bit wrap-around, and the source then detects the overflow. `ConvertTtlToAbsoluteTime` is proved to be exactly a saturating
  addition. Round trips are proved in both directions, and the TTL string is proved to read
  back as the TTL. The current time `now` is a parameter.
- **Subscription QoS queries** (`subscription_util.dfy`). `isOnChangeSubscription`,
  `getAlertInterval`, `getMinInterval` and `getPeriodicPublicationInterval` work over a closed
  datatype of QoS kinds. An empty shared pointer is `None`. The class hierarchy that the source's dynamic casts consult is
  written out as `Parent`. It is an assumption, because the class declarations are not part
  of this model: keep-alive QoS derives from on-change QoS.
- **Traffic-service broadcast filter** (`traffic_filter.dfy`). This is the radio example's
  filter, a boolean function of the filter parameter and the station's traffic-service flag.

`wrappers.dfy` holds the Option, Result and Outcome types. They stand for null references,
thrown exceptions and failed futures.

The message router, routing table, message queue and address manager of the joynr cluster
controller are not part of this model. Their implementations are not among the source files
modelled here.

## Model

| member | source | states |
|---|---|---|
| MqttSender.Topic | cpp/libjoynrclustercontroller/mqtt/MqttSender.cpp:66-71 | a multicast is published on the address topic unchanged; any other type on the address topic followed by "/" and the connection's priority |
| MqttSender.QosLevel | cpp/libjoynrclustercontroller/mqtt/MqttSender.cpp:73-79 | QoS 0 exactly when the message's effort is the BEST_EFFORT literal; a missing or different effort keeps the connection's QoS |
| MqttSender.ComputePacketSize | cpp/libjoynrclustercontroller/mqtt/MqttSender.cpp:86-95 | the loop's running sum is payload + 32 + topic length + the sum over custom headers of key length + value length + 5, and so at least 5 bytes per header |
| MqttSender.HeadersOverheadAppend | cpp/libjoynrclustercontroller/mqtt/MqttSender.cpp:92-95 | the header overhead of two header lists together is the sum of their overheads |
| MqttSender.HeadersOverheadAtLeastFixed | cpp/libjoynrclustercontroller/mqtt/MqttSender.cpp:87-95 | every custom header adds at least its fixed 5-byte overhead |
| MqttSender.HeadersOverheadOrderIndependent | cpp/libjoynrclustercontroller/mqtt/MqttSender.cpp:91-95 | the computed size does not depend on the order in which the header map is iterated |
| MqttSender.CeilSeconds | cpp/libjoynrclustercontroller/mqtt/MqttSender.cpp:111-115 | the result is the integer ceiling of ms / 1000 |
| MqttSender.TtlSeconds | cpp/libjoynrclustercontroller/mqtt/MqttSender.cpp:109-116 | a negative remaining lifetime, or one whose rounded-up seconds exceed the uint32 maximum, gives 2^32-1; otherwise the result is the remaining seconds rounded up |
| MqttSender.Decide | cpp/libjoynrclustercontroller/mqtt/MqttSender.cpp:46-124 | a non-MQTT address is rejected with a runtime exception before any other check; an unsubscribed connection gives a 2 s delay exception; a set maximum (0 = none) strictly exceeded, or a payload beyond int64, gives a not-sent exception; only otherwise does it publish, with the computed topic, QoS and TTL and the message's headers and payload |
| MqttSender.PacketAtLimitIsPublished | cpp/libjoynrclustercontroller/mqtt/MqttSender.cpp:97-107 | a packet whose size equals the maximum is published |
| MqttSender.MosquittoConnection.PublishMessage | cpp/libjoynrclustercontroller/mqtt/MqttSender.cpp:117-123 | each publish call is recorded once, after the earlier ones |
| MqttSender.MqttSender.constructor | cpp/libjoynrclustercontroller/mqtt/MqttSender.cpp:41-44 | the sender keeps the connection it was given |
| MqttSender.MqttSender.SendMessage | cpp/libjoynrclustercontroller/mqtt/MqttSender.cpp:46-124 | on rejection, exactly one failure-callback call with the decided exception and no publish; otherwise exactly one publish with the decided arguments and no failure-callback call; the connection's settings are unchanged |
| GuidedProxyBuilder.NewDiscoveryQos | java/core/libjoynr/src/main/java/io/joynr/proxy/GuidedProxyBuilder.java:193-196 | a fresh DiscoveryQos has neither timeout nor retry interval set |
| GuidedProxyBuilder.ApplyDefaultValues | java/core/libjoynr/src/main/java/io/joynr/proxy/GuidedProxyBuilder.java:181-189 | only an unset (NO_VALUE) timeout or retry interval is replaced by the configured default; set values and all other settings are kept |
| GuidedProxyBuilder.ApplyDefaultValuesIdempotent | java/core/libjoynr/src/main/java/io/joynr/proxy/GuidedProxyBuilder.java:181-189 | applying the defaults twice is the same as applying them once |
| GuidedProxyBuilder.ClampedTtl | java/core/libjoynr/src/main/java/io/joynr/proxy/GuidedProxyBuilder.java:113-120 | a TTL above the maximum becomes the maximum; any other TTL is unchanged |
| GuidedProxyBuilder.ErrorReason | java/core/libjoynr/src/main/java/io/joynr/proxy/GuidedProxyBuilder.java:215-221 | the failure is always a joynr runtime exception: the throwable itself if it is one, otherwise a new one whose cause is the throwable |
| GuidedProxyBuilder.LastMatchIsLast | java/core/libjoynr/src/main/java/io/joynr/proxy/GuidedProxyBuilder.java:237-243 | an entry is selected exactly when some entry has the participant id; the selected one matches and no later entry does |
| GuidedProxyBuilder.SelectDiscoveryEntry | java/core/libjoynr/src/main/java/io/joynr/proxy/GuidedProxyBuilder.java:237-242 | the loop without a break ends with the last matching entry |
| GuidedProxyBuilder.GuidedProxyBuilder.constructor | java/core/libjoynr/src/main/java/io/joynr/proxy/GuidedProxyBuilder.java:69-85 | a new builder keeps its configuration, has both flags false and no settings, result or arbitrator |
| GuidedProxyBuilder.GuidedProxyBuilder.SetDiscoveryQos | java/core/libjoynr/src/main/java/io/joynr/proxy/GuidedProxyBuilder.java:94-101 | refused with IllegalStateException while discovery is in progress, changing nothing; otherwise stores the defaulted copy |
| GuidedProxyBuilder.GuidedProxyBuilder.SetMessagingQos | java/core/libjoynr/src/main/java/io/joynr/proxy/GuidedProxyBuilder.java:109-124 | refused with IllegalStateException while discovery is in progress, changing nothing; otherwise caps the caller's object's TTL at maxMessagingTtl and stores that same object |
| GuidedProxyBuilder.GuidedProxyBuilder.SetStatelessAsyncCallbackUseCase | java/core/libjoynr/src/main/java/io/joynr/proxy/GuidedProxyBuilder.java:132-138 | refused with IllegalStateException while discovery is in progress, changing nothing; otherwise stores the use case |
| GuidedProxyBuilder.GuidedProxyBuilder.SetGbids | java/core/libjoynr/src/main/java/io/joynr/proxy/GuidedProxyBuilder.java:146-155 | IllegalStateException while discovery is in progress, then IllegalArgumentException for a null or empty array, both changing nothing; otherwise stores a copy equal to the argument |
| GuidedProxyBuilder.GuidedProxyBuilder.StartDiscovery | java/core/libjoynr/src/main/java/io/joynr/proxy/GuidedProxyBuilder.java:191-231 | creates a defaulted DiscoveryQos only if none is set and the arbitrator only once; then clears the saved result, sets in-progress, clears completed-once and calls lookup once |
| GuidedProxyBuilder.GuidedProxyBuilder.OnArbitrationSuccess | java/core/libjoynr/src/main/java/io/joynr/proxy/GuidedProxyBuilder.java:207-212 | saves the result, sets completed-once, clears in-progress and completes the future with the result |
| GuidedProxyBuilder.GuidedProxyBuilder.OnArbitrationError | java/core/libjoynr/src/main/java/io/joynr/proxy/GuidedProxyBuilder.java:214-224 | only clears in-progress, so completed-once stays as it was; fails the future with the wrapped reason |
| GuidedProxyBuilder.GuidedProxyBuilder.BuildProxy | java/core/libjoynr/src/main/java/io/joynr/proxy/GuidedProxyBuilder.java:233-276 | IllegalStateException unless a discovery completed; IllegalArgumentException when no saved entry has the participant id, or when the last such entry's version differs; otherwise builds with that entry alone, the stored DiscoveryQos and use case, the stored MessagingQos or a fresh default one, and the GBIDs only when non-null and non-empty |
| DispatcherUtils.AddMSecs | cpp/common/DispatcherUtils.cpp:44 | adding milliseconds to a date is exact whenever the sum fits into 64 bits |
| DispatcherUtils.MaxAbsoluteTime | cpp/common/DispatcherUtils.cpp:62-65 | the maximum absolute time is the int64 maximum |
| DispatcherUtils.ConvertTtlToAbsoluteTime | cpp/common/DispatcherUtils.cpp:41-60 | the wrap-and-compare code is a saturating addition: now + ttl when it fits, the maximum absolute time on positive overflow, the int64 minimum on negative overflow; never before now for a positive TTL, never after now for a negative one, now for zero |
| DispatcherUtils.ConvertAbsoluteTimeToTtl | cpp/common/DispatcherUtils.cpp:67-71 | the TTL added to now gives the date back |
| DispatcherUtils.TtlRoundTrip | cpp/common/DispatcherUtils.cpp:41-71 | converting a TTL to a date and back at the same now gives the TTL, unless it saturated |
| DispatcherUtils.DateRoundTrip | cpp/common/DispatcherUtils.cpp:41-71 | converting a date to a TTL and back at the same now gives the date |
| DispatcherUtils.SaturatedTtlNotLonger | cpp/common/DispatcherUtils.cpp:46-59 | a saturated date never promises a longer lifetime than the TTL asked for |
| DispatcherUtils.NatToDecimal | cpp/common/DispatcherUtils.cpp:75 | the rendering is a non-empty string of decimal digits without leading zeros |
| DispatcherUtils.NatToDecimalRoundTrip | cpp/common/DispatcherUtils.cpp:75 | the decimal digits read back as the number |
| DispatcherUtils.IntToDecimal | cpp/common/DispatcherUtils.cpp:75 | a rendering starts with a minus sign exactly for negative numbers |
| DispatcherUtils.ConvertAbsoluteTimeToTtlString | cpp/common/DispatcherUtils.cpp:73-76 | the TTL string is negative exactly when the date is before now |
| DispatcherUtils.TtlStringRoundTrip | cpp/common/DispatcherUtils.cpp:73-76 | the TTL string reads back as the TTL |
| SubscriptionUtil.IsOnChangeSubscription | cpp/common/SubscriptionUtil.cpp:33-42 | for a non-empty pointer (typeid dereferences it), true exactly for on-change and keep-alive QoS, false for periodic and base QoS; the same as a successful cast to on-change QoS |
| SubscriptionUtil.GetAlertInterval | cpp/common/SubscriptionUtil.cpp:44-52 | the alert interval for keep-alive and periodic QoS, -1 for all others and for an empty pointer |
| SubscriptionUtil.GetMinInterval | cpp/common/SubscriptionUtil.cpp:54-60 | the minimum interval for on-change QoS and its keep-alive subclass, -1 for all others and for an empty pointer |
| SubscriptionUtil.GetPeriodicPublicationInterval | cpp/common/SubscriptionUtil.cpp:62-71 | the max interval for keep-alive QoS, the period for periodic QoS, -1 for all others and for an empty pointer |
| SubscriptionUtil.PlainOnChangeHasNoIntervals | cpp/common/SubscriptionUtil.cpp:44-71 | a plain on-change QoS has no alert and no publication interval, but has a minimum interval |
| SubscriptionUtil.OnChangeTestAgreesWithCast | cpp/common/SubscriptionUtil.cpp:33-60 | the typeid test agrees with the dynamic cast, and a non-on-change QoS has no minimum interval |
| TrafficServiceBroadcastFilter.Filter | examples/radio-app/src/main/cpp/TrafficServiceBroadcastFilter.cpp:25-38 | an empty parameter passes every station; "true" passes exactly the stations with traffic service; any other value passes exactly those without |
| TrafficServiceBroadcastFilter.FilterDependsOnlyOnTrafficService | examples/radio-app/src/main/cpp/TrafficServiceBroadcastFilter.cpp:30-37 | the decision ignores the geo position and every station field other than trafficService |

## Left out

- The message router, routing table, message queue, address manager and channel URL directory: their implementations are not modelled.
- Logging in every routine is not modelled.
- MqttSender.MqttSender.SendMessage: the failure callback is also handed to `publishMessage`, which may call it later for a failed publish; that happens inside the Mosquitto client and is not modelled.
- `std::ceil` on a double in the TTL conversion is modelled as integer ceiling division. This is exact here. For |ms| < 2^53 the double quotient keeps the fraction wherever the ceiling is at most 2^32. For larger |ms| both forms exceed the uint32 maximum.
- MqttSender.Decide: the remaining lifetime is the expiry date minus `now` as an unbounded integer. The int64 overflow of `relativeFromNow` needs dates about 292 million years apart and is not modelled.
- MqttSender.ComputePacketSize: the `size_t` sum is unbounded here. It could only wrap for payloads near 2^64 bytes.
- MqttSender: the maximum packet size from the connection is taken as a non-negative number. The signedness of `getMqttMaximumPacketSize` is not part of this model.
- MqttSender: the custom headers are a list in the map's iteration order. `HeadersOverheadOrderIndependent` shows that the order does not matter.
- GuidedProxyBuilder: `discover` and `discoverAsync` are left out. They only wrap the arbitration outcome in futures. Each callback method returns how the future completes.
- GuidedProxyBuilder: reflection is left out. That covers the constructor's `INTERFACE_NAME` lookup, whose name is a parameter here, and `registerInterfaceClassTypes`, which `BuildProxy` does not model failing.
- GuidedProxyBuilder: `ArbitratorFactory.create`, `ProxyBuilderFactory.get` and `ProxyBuilder.build` are external. The arbitrator is the record of its creation settings, without the default `Version` argument. `BuildProxy` returns how it configures the proxy builder.
- GuidedProxyBuilder: `lookup()` is a counted call. Its outcome reaches the builder through the caller invoking `OnArbitrationSuccess` or `OnArbitrationError`, which need an arbitrator because the listener only exists once discovery has started.
- GuidedProxyBuilder: DiscoveryQos.java and MessagingQos.java are not part of this model. NO_VALUE is taken as -1. A fresh DiscoveryQos has its remaining settings at fixed values. A fresh MessagingQos has a 60000 ms TTL and normal effort. `setTtl_ms` is taken as a plain assignment.
- GuidedProxyBuilder: null arguments to `setDiscoveryQos` and `setMessagingQos` are not modelled. Those calls fail with a NullPointerException in the source.
- GuidedProxyBuilder: the arbitration result's entries are a sequence in the iteration order of the source's entry collection.
- GuidedProxyBuilder: concurrent callbacks are not modelled, since the source's fields are not synchronised.
- DispatcherUtils: the QDateTime wall-clock reads are replaced by the parameter `now`. `QDateTime::addMSecs` is modelled as 64-bit two's-complement addition, which is what the source's overflow check presumes.
- DispatcherUtils.ConvertAbsoluteTimeToTtl: it requires the difference to fit into int64, because signed overflow is undefined in C++.
- SubscriptionUtil.IsOnChangeSubscription: it requires a non-empty pointer, because `typeid(*qos)` on an empty one is undefined behaviour in C++.
- SubscriptionUtil: the QoS classes are an explicit assumption, `Parent`. Fields other than those the queries return are left out, apart from the expiry date.
