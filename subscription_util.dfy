/**
 * Interval queries over joynr subscription QoS objects (SubscriptionUtil).  The source
 * dispatches on the dynamic C++ type; here the concrete QoS kinds form a closed datatype
 * and the class hierarchy the dynamic casts consult is written out in `Parent`.  The
 * source takes a shared pointer, which may be empty: it is an Option, None standing for
 * the empty pointer.
 */
module SubscriptionUtil {
  import opened Int64
  import opened Wrappers

  /** The subscription QoS classes the queries distinguish. */
  datatype QosClass =
    | SubscriptionQosClass                   // the base class, or a subclass outside the on-change and periodic branches
    | OnChangeSubscriptionQosClass
    | OnChangeWithKeepAliveSubscriptionQosClass
    | PeriodicSubscriptionQosClass

  /**
   * The direct base class of each QoS class.  ASSUMPTION: the class declarations are not
   * part of this model; keep-alive QoS is taken to derive from on-change QoS, and on-change
   * and periodic QoS from the base class (through classes the queries do not consult).
   */
  function Parent(c: QosClass): (p: QosClass)
    requires c != SubscriptionQosClass
  {
    match c
    case OnChangeSubscriptionQosClass => SubscriptionQosClass
    case OnChangeWithKeepAliveSubscriptionQosClass => OnChangeSubscriptionQosClass
    case PeriodicSubscriptionQosClass => SubscriptionQosClass
  }

  /** Subclass relation (reflexive), the relation dynamic_pointer_cast tests. */
  predicate IsSubclassOf(c: QosClass, d: QosClass)
    decreases if c == SubscriptionQosClass then 0
              else if c == OnChangeWithKeepAliveSubscriptionQosClass then 2 else 1
  {
    c == d || (c != SubscriptionQosClass && IsSubclassOf(Parent(c), d))
  }

  /** A subscription QoS object: its dynamic type together with the fields that type holds. */
  datatype SubscriptionQos =
    | PlainQos(expiryDateMs: int64)
    | OnChangeQos(expiryDateMs: int64, minIntervalMs: int64)
    | OnChangeWithKeepAliveQos(expiryDateMs: int64, minIntervalMs: int64, maxIntervalMs: int64,
                               alertAfterIntervalMs: int64)
    | PeriodicQos(expiryDateMs: int64, periodMs: int64, alertAfterIntervalMs: int64)
  {
    /** The dynamic type, as typeid would report it. */
    function DynamicClass(): QosClass
    {
      match this
      case PlainQos(_) => SubscriptionQosClass
      case OnChangeQos(_, _) => OnChangeSubscriptionQosClass
      case OnChangeWithKeepAliveQos(_, _, _, _) => OnChangeWithKeepAliveSubscriptionQosClass
      case PeriodicQos(_, _, _) => PeriodicSubscriptionQosClass
    }

    /** Whether dynamic_pointer_cast to class `c` succeeds. */
    predicate CastsTo(c: QosClass)
    {
      IsSubclassOf(DynamicClass(), c)
    }
  }

  /**
   * dynamic_pointer_cast on a shared pointer: it fails for an empty pointer (None) and
   * otherwise succeeds exactly when the object's class is a subclass of `c`.
   */
  predicate PointerCastsTo(qos: Option<SubscriptionQos>, c: QosClass)
  {
    qos.Some? && qos.value.CastsTo(c)
  }

  /**
   * True exactly when the dynamic type is on-change QoS or keep-alive QoS (typeid equality).
   * The source dereferences the pointer for typeid, so it must not be empty.
   */
  function IsOnChangeSubscription(qos: Option<SubscriptionQos>): (r: bool)
    requires qos.Some?
    ensures r <==> qos.value.OnChangeQos? || qos.value.OnChangeWithKeepAliveQos?
    ensures r <==> PointerCastsTo(qos, OnChangeSubscriptionQosClass)
  {
    var t := qos.value.DynamicClass();
    t == OnChangeSubscriptionQosClass || t == OnChangeWithKeepAliveSubscriptionQosClass
  }

  /** The alert interval of keep-alive and periodic QoS, -1 for every other kind and for an empty pointer. */
  function GetAlertInterval(qos: Option<SubscriptionQos>): (r: int64)
    ensures qos.None? ==> r == -1
    ensures qos.Some? && (qos.value.OnChangeWithKeepAliveQos? || qos.value.PeriodicQos?) ==>
      r == qos.value.alertAfterIntervalMs
    ensures qos.Some? && (qos.value.PlainQos? || qos.value.OnChangeQos?) ==> r == -1
  {
    if PointerCastsTo(qos, OnChangeWithKeepAliveSubscriptionQosClass) then
      assert qos.value.OnChangeWithKeepAliveQos?;
      qos.value.alertAfterIntervalMs
    else if PointerCastsTo(qos, PeriodicSubscriptionQosClass) then
      assert qos.value.PeriodicQos?;
      qos.value.alertAfterIntervalMs
    else
      -1
  }

  /**
   * The minimum interval of every QoS that is an on-change QoS (subclasses included);
   * -1 for every other kind and for an empty pointer.
   */
  function GetMinInterval(qos: Option<SubscriptionQos>): (r: int64)
    ensures qos.None? ==> r == -1
    ensures qos.Some? && (qos.value.OnChangeQos? || qos.value.OnChangeWithKeepAliveQos?) ==>
      r == qos.value.minIntervalMs
    ensures qos.Some? && (qos.value.PlainQos? || qos.value.PeriodicQos?) ==> r == -1
  {
    if PointerCastsTo(qos, OnChangeSubscriptionQosClass) then
      assert qos.value.OnChangeQos? || qos.value.OnChangeWithKeepAliveQos?;
      qos.value.minIntervalMs
    else
      -1
  }

  /**
   * The publication interval: maxInterval for keep-alive QoS, period for periodic QoS;
   * -1 for every other kind and for an empty pointer.
   */
  function GetPeriodicPublicationInterval(qos: Option<SubscriptionQos>): (r: int64)
    ensures qos.None? ==> r == -1
    ensures qos.Some? && qos.value.OnChangeWithKeepAliveQos? ==> r == qos.value.maxIntervalMs
    ensures qos.Some? && qos.value.PeriodicQos? ==> r == qos.value.periodMs
    ensures qos.Some? && (qos.value.PlainQos? || qos.value.OnChangeQos?) ==> r == -1
  {
    if PointerCastsTo(qos, OnChangeWithKeepAliveSubscriptionQosClass) then
      assert qos.value.OnChangeWithKeepAliveQos?;
      qos.value.maxIntervalMs
    else if PointerCastsTo(qos, PeriodicSubscriptionQosClass) then
      assert qos.value.PeriodicQos?;
      qos.value.periodMs
    else
      -1
  }

  /** A plain on-change subscription has neither an alert interval nor a publication interval. */
  lemma PlainOnChangeHasNoIntervals(qos: Option<SubscriptionQos>)
    requires qos.Some? && qos.value.OnChangeQos?
    ensures GetAlertInterval(qos) == -1 && GetPeriodicPublicationInterval(qos) == -1
    ensures IsOnChangeSubscription(qos) && GetMinInterval(qos) == qos.value.minIntervalMs
  {
  }

  /**
   * The typeid test and the dynamic cast to on-change QoS agree on the modelled classes,
   * and a QoS that is not an on-change subscription has no minimum interval.
   */
  lemma OnChangeTestAgreesWithCast(qos: Option<SubscriptionQos>)
    requires qos.Some?
    ensures IsOnChangeSubscription(qos) <==> PointerCastsTo(qos, OnChangeSubscriptionQosClass)
    ensures !IsOnChangeSubscription(qos) ==> GetMinInterval(qos) == -1
  {
  }
}
