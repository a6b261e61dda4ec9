/**
 * joynr's GuidedProxyBuilder: a two-phase proxy builder.  A client first configures QoS
 * and backend ids, then starts a discovery whose arbitration callbacks record the result,
 * and finally builds a proxy for one of the discovered providers.  Two flags,
 * discoveryInProgress and discoveryCompletedOnce, guard the setters and proxy building.
 *
 * Discovery results arrive through the arbitration callbacks; here they are the methods
 * OnArbitrationSuccess and OnArbitrationError, which a caller invokes after StartDiscovery.
 */
module GuidedProxyBuilder {
  import opened Wrappers

  /** The DiscoveryQos marker for "not set". */
  const NO_VALUE: int := -1
  /** The round-trip TTL of a default-constructed MessagingQos. */
  const DEFAULT_MESSAGING_TTL_MS: int := 60000

  datatype DiscoveryScope = LocalOnly | LocalThenGlobal | LocalAndGlobal | GlobalOnly

  /** Discovery settings; the builder always works on its own copy of them. */
  datatype DiscoveryQos = DiscoveryQos(
    discoveryTimeoutMs: int,
    retryIntervalMs: int,
    cacheMaxAgeMs: int,
    discoveryScope: DiscoveryScope,
    providerMustSupportOnChange: bool)

  /** A default-constructed DiscoveryQos: timeout and retry interval are not set. */
  function NewDiscoveryQos(): (q: DiscoveryQos)
    ensures q.discoveryTimeoutMs == NO_VALUE && q.retryIntervalMs == NO_VALUE
  {
    DiscoveryQos(NO_VALUE, NO_VALUE, 0, LocalThenGlobal, false)
  }

  /**
   * applyDefaultValues: fills an unset timeout and an unset retry interval with the
   * configured defaults and leaves every set value, and every other setting, as it was.
   */
  function ApplyDefaultValues(q: DiscoveryQos, defaultTimeoutMs: int, defaultRetryIntervalMs: int)
    : (r: DiscoveryQos)
    ensures r.discoveryTimeoutMs == (if q.discoveryTimeoutMs == NO_VALUE then defaultTimeoutMs
                                     else q.discoveryTimeoutMs)
    ensures r.retryIntervalMs == (if q.retryIntervalMs == NO_VALUE then defaultRetryIntervalMs
                                  else q.retryIntervalMs)
    ensures r.cacheMaxAgeMs == q.cacheMaxAgeMs && r.discoveryScope == q.discoveryScope
    ensures r.providerMustSupportOnChange == q.providerMustSupportOnChange
  {
    var q1 := if q.discoveryTimeoutMs == NO_VALUE then q.(discoveryTimeoutMs := defaultTimeoutMs) else q;
    if q1.retryIntervalMs == NO_VALUE then q1.(retryIntervalMs := defaultRetryIntervalMs) else q1
  }

  /** Applying the defaults twice is the same as applying them once. */
  lemma ApplyDefaultValuesIdempotent(q: DiscoveryQos, defaultTimeoutMs: int, defaultRetryIntervalMs: int)
    ensures var r := ApplyDefaultValues(q, defaultTimeoutMs, defaultRetryIntervalMs);
      ApplyDefaultValues(r, defaultTimeoutMs, defaultRetryIntervalMs) == r
  {
  }

  /** The round-trip TTL stored by setMessagingQos: capped at the configured maximum. */
  function ClampedTtl(ttlMs: int, maxMessagingTtl: int): (r: int)
    ensures r <= maxMessagingTtl
    ensures ttlMs <= maxMessagingTtl ==> r == ttlMs
    ensures ttlMs > maxMessagingTtl ==> r == maxMessagingTtl
  {
    if ttlMs > maxMessagingTtl then maxMessagingTtl else ttlMs
  }

  datatype MessagingQosEffort = Normal | BestEffort

  /** Messaging settings; setMessagingQos updates the caller's object in place. */
  class MessagingQos {
    var roundTripTtlMs: int
    var effort: MessagingQosEffort

    constructor Default()
      ensures roundTripTtlMs == DEFAULT_MESSAGING_TTL_MS && effort == Normal
    {
      roundTripTtlMs := DEFAULT_MESSAGING_TTL_MS;
      effort := Normal;
    }

    constructor (ttlMs: int, effort: MessagingQosEffort)
      ensures roundTripTtlMs == ttlMs && this.effort == effort
    {
      roundTripTtlMs := ttlMs;
      this.effort := effort;
    }

    method SetTtlMs(ttlMs: int)
      modifies this`roundTripTtlMs
      ensures roundTripTtlMs == ttlMs
    {
      roundTripTtlMs := ttlMs;
    }
  }

  datatype Version = Version(majorVersion: int, minorVersion: int)

  datatype DiscoveryEntryWithMetaInfo = DiscoveryEntryWithMetaInfo(
    participantId: string,
    domain: string,
    providerVersion: Version,
    isLocal: bool)

  /** The providers an arbitration found, in the order the result lists them. */
  datatype ArbitrationResult = ArbitrationResult(discoveryEntries: seq<DiscoveryEntryWithMetaInfo>)

  /** The settings an arbitrator is created with. */
  datatype Arbitrator = Arbitrator(
    domains: set<string>,
    interfaceName: string,
    discoveryQos: DiscoveryQos,
    gbids: Option<seq<string>>)

  /** What an arbitration failure may carry; JoynrRuntimeException stands for its subclasses too. */
  datatype Throwable =
    | JoynrRuntimeException(message: string, cause: Option<Throwable>)
    | OtherThrowable(className: string, message: string)

  /** The reason the discovery future fails with: joynr runtime exceptions as they are, others wrapped. */
  function ErrorReason(t: Throwable): (r: Throwable)
    ensures r.JoynrRuntimeException?
    ensures t.JoynrRuntimeException? ==> r == t
    ensures t.OtherThrowable? ==> r.cause == Some(t)
  {
    match t
    case JoynrRuntimeException(_, _) => t
    case OtherThrowable(className, message) => JoynrRuntimeException(className + ": " + message, Some(t))
  }

  datatype ProxyBuilderError =
    | IllegalStateException(message: string)
    | IllegalArgumentException(message: string)
    | VersionMismatch(providerVersion: Version, interfaceVersion: Version)  // an IllegalArgumentException

  /** How buildProxy configures the proxy builder it obtains, and the arbitration result it builds with. */
  datatype ProxyBuilderCall = ProxyBuilderCall(
    domains: set<string>,
    arbitrationResult: ArbitrationResult,
    discoveryQos: DiscoveryQos,
    statelessAsyncCallbackUseCase: Option<string>,
    messagingQos: MessagingQos,
    gbids: Option<seq<string>>)

  /** The last entry of `entries` with the given participant id. */
  function LastMatch(entries: seq<DiscoveryEntryWithMetaInfo>, participantId: string)
    : Option<DiscoveryEntryWithMetaInfo>
  {
    if entries == [] then None
    else if entries[|entries| - 1].participantId == participantId then Some(entries[|entries| - 1])
    else LastMatch(entries[..|entries| - 1], participantId)
  }

  /** LastMatch finds an entry exactly when one matches, and no later entry matches. */
  lemma {:induction false} LastMatchIsLast(entries: seq<DiscoveryEntryWithMetaInfo>, participantId: string)
    ensures LastMatch(entries, participantId).None? <==>
      forall i :: 0 <= i < |entries| ==> entries[i].participantId != participantId
    ensures LastMatch(entries, participantId).Some? ==>
      exists i :: 0 <= i < |entries| && entries[i] == LastMatch(entries, participantId).value
        && entries[i].participantId == participantId
        && forall j :: i < j < |entries| ==> entries[j].participantId != participantId
    decreases |entries|
  {
    if entries != [] {
      var n := |entries| - 1;
      if entries[n].participantId != participantId {
        var prefix := entries[..n];
        LastMatchIsLast(prefix, participantId);
        assert forall i :: 0 <= i < n ==> entries[i] == prefix[i];
        if LastMatch(prefix, participantId).Some? {
          var i :| 0 <= i < |prefix| && prefix[i] == LastMatch(prefix, participantId).value
            && prefix[i].participantId == participantId
            && forall j :: i < j < |prefix| ==> prefix[j].participantId != participantId;
          assert entries[i] == prefix[i];
        }
      } else {
        assert entries[n] == LastMatch(entries, participantId).value;
      }
    }
  }

  /** The selection loop of buildProxy: it keeps overwriting its choice, so the last match wins. */
  method SelectDiscoveryEntry(entries: seq<DiscoveryEntryWithMetaInfo>, participantId: string)
    returns (discoveryEntryForProxy: Option<DiscoveryEntryWithMetaInfo>)
    ensures discoveryEntryForProxy == LastMatch(entries, participantId)
  {
    discoveryEntryForProxy := None;
    for i := 0 to |entries|
      invariant discoveryEntryForProxy == LastMatch(entries[..i], participantId)
    {
      assert entries[..i + 1][..i] == entries[..i];
      if entries[i].participantId == participantId {
        discoveryEntryForProxy := Some(entries[i]);
      }
    }
    assert entries[..|entries|] == entries;
  }

  const IN_PROGRESS_SET_DISCOVERY_QOS: string := "setDiscoveryQos called while discovery in progress"
  const IN_PROGRESS_SET_MESSAGING_QOS: string := "setMessagingQos called while discovery in progress"
  const IN_PROGRESS_SET_STATELESS: string := "setStatelessAsyncCallbackUseCase called while discovery in progress"
  const IN_PROGRESS_SET_GBIDS: string := "setGbids called while discovery in progress"
  const INVALID_GBIDS: string := "GBIDs array must not be null or empty."
  const DISCOVERY_NOT_COMPLETED: string := "Discovery has to be completed before building a proxy!"

  class GuidedProxyBuilder {
    const domains: set<string>
    const interfaceName: string
    const maxMessagingTtl: int
    const defaultDiscoveryTimeoutMs: int
    const defaultDiscoveryRetryIntervalMs: int

    var discoveryInProgress: bool
    var discoveryCompletedOnce: bool
    var gbids: Option<seq<string>>
    var statelessAsyncCallbackUseCase: Option<string>
    var savedArbitrationResult: Option<ArbitrationResult>
    var discoveryQos: Option<DiscoveryQos>
    var messagingQos: MessagingQos?
    var arbitrator: Option<Arbitrator>
    /** How many times arbitrator.lookup() was called. */
    var lookupCalls: nat

    /** A discovery QoS is defaulted when neither timing value is unset unless its default is unset too. */
    predicate Defaulted(q: DiscoveryQos)
    {
      (q.discoveryTimeoutMs == NO_VALUE ==> defaultDiscoveryTimeoutMs == NO_VALUE)
      && (q.retryIntervalMs == NO_VALUE ==> defaultDiscoveryRetryIntervalMs == NO_VALUE)
    }

    /** The builder's invariant. */
    ghost predicate Valid()
      reads this
    {
      && (discoveryInProgress ==> arbitrator.Some?)
      && (discoveryCompletedOnce ==> arbitrator.Some?)
      && (arbitrator.Some? ==> discoveryQos.Some? && savedArbitrationResult.Some?)
      && (discoveryQos.Some? ==> Defaulted(discoveryQos.value))
      && (gbids.Some? ==> |gbids.value| > 0)
    }

    constructor (domains: set<string>, interfaceName: string, maxMessagingTtl: int,
                 defaultDiscoveryTimeoutMs: int, defaultDiscoveryRetryIntervalMs: int)
      ensures Valid()
      ensures this.domains == domains && this.interfaceName == interfaceName
      ensures this.maxMessagingTtl == maxMessagingTtl
      ensures this.defaultDiscoveryTimeoutMs == defaultDiscoveryTimeoutMs
      ensures this.defaultDiscoveryRetryIntervalMs == defaultDiscoveryRetryIntervalMs
      ensures !discoveryInProgress && !discoveryCompletedOnce
      ensures gbids.None? && statelessAsyncCallbackUseCase.None? && savedArbitrationResult.None?
      ensures discoveryQos.None? && messagingQos == null && arbitrator.None? && lookupCalls == 0
    {
      this.domains := domains;
      this.interfaceName := interfaceName;
      this.maxMessagingTtl := maxMessagingTtl;
      this.defaultDiscoveryTimeoutMs := defaultDiscoveryTimeoutMs;
      this.defaultDiscoveryRetryIntervalMs := defaultDiscoveryRetryIntervalMs;
      discoveryInProgress, discoveryCompletedOnce := false, false;
      gbids, statelessAsyncCallbackUseCase, savedArbitrationResult := None, None, None;
      discoveryQos, messagingQos, arbitrator := None, null, None;
      lookupCalls := 0;
    }

    /** Stores a defaulted copy of `q`; refused while a discovery is in progress. */
    method SetDiscoveryQos(q: DiscoveryQos) returns (r: Outcome<ProxyBuilderError>)
      requires Valid()
      modifies this`discoveryQos
      ensures Valid()
      ensures old(discoveryInProgress) ==>
        r == Fail(IllegalStateException(IN_PROGRESS_SET_DISCOVERY_QOS)) && discoveryQos == old(discoveryQos)
      ensures !old(discoveryInProgress) ==>
        r == Pass
        && discoveryQos == Some(ApplyDefaultValues(q, defaultDiscoveryTimeoutMs, defaultDiscoveryRetryIntervalMs))
    {
      if discoveryInProgress {
        return Fail(IllegalStateException(IN_PROGRESS_SET_DISCOVERY_QOS));
      }
      discoveryQos := Some(ApplyDefaultValues(q, defaultDiscoveryTimeoutMs, defaultDiscoveryRetryIntervalMs));
      r := Pass;
    }

    /** Caps the TTL of the caller's object `q` at maxMessagingTtl and stores `q` itself. */
    method SetMessagingQos(q: MessagingQos) returns (r: Outcome<ProxyBuilderError>)
      requires Valid()
      modifies this`messagingQos, q`roundTripTtlMs
      ensures Valid()
      ensures old(discoveryInProgress) ==>
        r == Fail(IllegalStateException(IN_PROGRESS_SET_MESSAGING_QOS))
        && messagingQos == old(messagingQos) && q.roundTripTtlMs == old(q.roundTripTtlMs)
      ensures !old(discoveryInProgress) ==>
        r == Pass && messagingQos == q
        && q.roundTripTtlMs == ClampedTtl(old(q.roundTripTtlMs), maxMessagingTtl)
    {
      if discoveryInProgress {
        return Fail(IllegalStateException(IN_PROGRESS_SET_MESSAGING_QOS));
      }
      if q.roundTripTtlMs > maxMessagingTtl {
        q.SetTtlMs(maxMessagingTtl);
      }
      messagingQos := q;
      r := Pass;
    }

    /** Stores the use case (None stands for null); refused while a discovery is in progress. */
    method SetStatelessAsyncCallbackUseCase(useCase: Option<string>) returns (r: Outcome<ProxyBuilderError>)
      requires Valid()
      modifies this`statelessAsyncCallbackUseCase
      ensures Valid()
      ensures old(discoveryInProgress) ==>
        r == Fail(IllegalStateException(IN_PROGRESS_SET_STATELESS))
        && statelessAsyncCallbackUseCase == old(statelessAsyncCallbackUseCase)
      ensures !old(discoveryInProgress) ==> r == Pass && statelessAsyncCallbackUseCase == useCase
    {
      if discoveryInProgress {
        return Fail(IllegalStateException(IN_PROGRESS_SET_STATELESS));
      }
      statelessAsyncCallbackUseCase := useCase;
      r := Pass;
    }

    /**
     * Stores a copy of the backend ids (None stands for a null array); refused while a
     * discovery is in progress, and for a null or empty array.  A sequence is a value, so
     * storing it is the array clone of the source: later changes by the caller do not reach it.
     */
    method SetGbids(newGbids: Option<seq<string>>) returns (r: Outcome<ProxyBuilderError>)
      requires Valid()
      modifies this`gbids
      ensures Valid()
      ensures old(discoveryInProgress) ==>
        r == Fail(IllegalStateException(IN_PROGRESS_SET_GBIDS)) && gbids == old(gbids)
      ensures !old(discoveryInProgress) && (newGbids.None? || |newGbids.value| == 0) ==>
        r == Fail(IllegalArgumentException(INVALID_GBIDS)) && gbids == old(gbids)
      ensures !old(discoveryInProgress) && newGbids.Some? && |newGbids.value| > 0 ==>
        r == Pass && gbids == newGbids
    {
      if discoveryInProgress {
        return Fail(IllegalStateException(IN_PROGRESS_SET_GBIDS));
      }
      if newGbids.None? || |newGbids.value| == 0 {
        return Fail(IllegalArgumentException(INVALID_GBIDS));
      }
      gbids := Some(newGbids.value);
      r := Pass;
    }

    /**
     * discoverAsyncInternal up to and including arbitrator.lookup(): creates a defaulted
     * DiscoveryQos if none is set and the arbitrator if there is none yet, then marks the
     * discovery as running and clears the saved result.
     */
    method StartDiscovery()
      requires Valid()
      modifies this`discoveryQos, this`arbitrator, this`savedArbitrationResult,
               this`discoveryInProgress, this`discoveryCompletedOnce, this`lookupCalls
      ensures Valid()
      ensures old(arbitrator).Some? ==> arbitrator == old(arbitrator) && discoveryQos == old(discoveryQos)
      ensures old(arbitrator).None? && old(discoveryQos).Some? ==> discoveryQos == old(discoveryQos)
      ensures old(arbitrator).None? && old(discoveryQos).None? ==>
        discoveryQos == Some(ApplyDefaultValues(NewDiscoveryQos(), defaultDiscoveryTimeoutMs,
                                                defaultDiscoveryRetryIntervalMs))
      ensures old(arbitrator).None? ==>
        discoveryQos.Some? && arbitrator == Some(Arbitrator(domains, interfaceName, discoveryQos.value, gbids))
      ensures savedArbitrationResult == Some(ArbitrationResult([]))
      ensures discoveryInProgress && !discoveryCompletedOnce
      ensures lookupCalls == old(lookupCalls) + 1
    {
      if arbitrator.None? {
        if discoveryQos.None? {
          discoveryQos := Some(ApplyDefaultValues(NewDiscoveryQos(), defaultDiscoveryTimeoutMs,
                                                  defaultDiscoveryRetryIntervalMs));
        }
        arbitrator := Some(Arbitrator(domains, interfaceName, discoveryQos.value, gbids));
      }
      savedArbitrationResult := Some(ArbitrationResult([]));
      discoveryInProgress := true;
      discoveryCompletedOnce := false;
      lookupCalls := lookupCalls + 1;
    }

    /** The arbitration callback's onSuccess; returns the value the discovery future completes with. */
    method OnArbitrationSuccess(arbitrationResult: ArbitrationResult)
      returns (future: Result<ArbitrationResult, Throwable>)
      requires Valid() && arbitrator.Some?
      modifies this`savedArbitrationResult, this`discoveryCompletedOnce, this`discoveryInProgress
      ensures Valid()
      ensures savedArbitrationResult == Some(arbitrationResult)
      ensures discoveryCompletedOnce && !discoveryInProgress
      ensures future == Success(arbitrationResult)
    {
      savedArbitrationResult := Some(arbitrationResult);
      discoveryCompletedOnce := true;
      discoveryInProgress := false;
      future := Success(arbitrationResult);
    }

    /** The arbitration callback's onError; returns the failure the discovery future completes with. */
    method OnArbitrationError(throwable: Throwable)
      returns (future: Result<ArbitrationResult, Throwable>)
      requires Valid() && arbitrator.Some?
      modifies this`discoveryInProgress
      ensures Valid()
      ensures !discoveryInProgress
      ensures future == Failure(ErrorReason(throwable))
    {
      var reason := ErrorReason(throwable);
      discoveryInProgress := false;
      future := Failure(reason);
    }

    /**
     * Builds a proxy for the discovered provider with the given participant id, for an
     * interface of version `interfaceVersion`.  The result describes how the proxy builder
     * is configured.  The source's "DiscoveryQos not set" internal error cannot happen:
     * Valid() ensures a completed discovery has a DiscoveryQos.
     */
    method BuildProxy(interfaceVersion: Version, participantId: string)
      returns (r: Result<ProxyBuilderCall, ProxyBuilderError>)
      requires Valid()
      ensures !discoveryCompletedOnce ==> r == Failure(IllegalStateException(DISCOVERY_NOT_COMPLETED))
      ensures discoveryCompletedOnce ==>
        var entry := LastMatch(savedArbitrationResult.value.discoveryEntries, participantId);
        && (entry.None? ==>
              r == Failure(IllegalArgumentException("No provider with participant ID " + participantId
                                                    + " was discovered!")))
        && (entry.Some? && entry.value.providerVersion != interfaceVersion ==>
              r == Failure(VersionMismatch(entry.value.providerVersion, interfaceVersion)))
        && (entry.Some? && entry.value.providerVersion == interfaceVersion ==>
              && r.Success?
              && r.value.domains == domains
              && r.value.arbitrationResult == ArbitrationResult([entry.value])
              && r.value.discoveryQos == discoveryQos.value
              && r.value.statelessAsyncCallbackUseCase == statelessAsyncCallbackUseCase
              && (messagingQos != null ==> r.value.messagingQos == messagingQos)
              && (messagingQos == null ==>
                    fresh(r.value.messagingQos)
                    && r.value.messagingQos.roundTripTtlMs == DEFAULT_MESSAGING_TTL_MS
                    && r.value.messagingQos.effort == Normal)
              && r.value.gbids == (if gbids.Some? && |gbids.value| > 0 then gbids else None))
    {
      if !discoveryCompletedOnce {
        return Failure(IllegalStateException(DISCOVERY_NOT_COMPLETED));
      }
      var discoveryEntryForProxy := SelectDiscoveryEntry(savedArbitrationResult.value.discoveryEntries, participantId);
      if discoveryEntryForProxy.None? {
        return Failure(IllegalArgumentException("No provider with participant ID " + participantId
                                                + " was discovered!"));
      }
      var providerVersion := discoveryEntryForProxy.value.providerVersion;
      if interfaceVersion != providerVersion {
        return Failure(VersionMismatch(providerVersion, interfaceVersion));
      }
      var arbitrationResultForProxy := ArbitrationResult([discoveryEntryForProxy.value]);
      var proxyMessagingQos: MessagingQos;
      if messagingQos == null {
        proxyMessagingQos := new MessagingQos.Default();
      } else {
        proxyMessagingQos := messagingQos;
      }
      var proxyGbids := if gbids.Some? && |gbids.value| > 0 then gbids else None;
      r := Success(ProxyBuilderCall(domains, arbitrationResultForProxy, discoveryQos.value,
                                    statelessAsyncCallbackUseCase, proxyMessagingQos, proxyGbids));
    }
  }
}
