/** A mirror of the host health framework's objects that the builders and the
    facade produce or consume: dates, units, quantities, the predicate objects
    a query is given, devices, samples, statistics and object types. Only their
    shape is modelled; what the framework does with them is not. */
module Host {
  import opened Wrappers

  /** A point in time, in seconds since a fixed reference date. */
  type Date = real

  /** A span of time in seconds. */
  type TimeInterval = real

  /** `later.timeIntervalSince(earlier)`. */
  function TimeIntervalSince(later: Date, earlier: Date): TimeInterval {
    later - earlier
  }

  /** The units the metric types are measured in. */
  datatype Unit =
    | TimesPerMinute
    | Percent
    | MillimeterOfMercury
    | Second
    | Count
    | Meter
    | SmallCalorie
    | Minute

  /** A quantity object: an amount tagged with the unit it was created in. */
  datatype Quantity = Quantity(unit: Unit, amount: real)

  /** The comparison a quantity predicate applies. */
  datatype ComparisonOperator =
    | LessThan
    | LessThanOrEqualTo
    | GreaterThan
    | GreaterThanOrEqualTo
    | EqualTo
    | NotEqualTo

  /** Device properties a predicate can filter on. */
  datatype DeviceProperty = DevicePropertyName

  /** The predicate objects handed to a host query. */
  datatype HostPredicate =
    | NotPredicate(sub: HostPredicate)
    | AndPredicate(subs: seq<HostPredicate>)
    | OrPredicate(subs: seq<HostPredicate>)
    | QuantitySamplesPredicate(op: ComparisonOperator, quantity: Quantity)
    | SamplesPredicate(start: Option<Date>, end: Option<Date>)
    | DevicePropertyPredicate(key: DeviceProperty, allowedValues: seq<string>)

  /** A host device: every descriptive field may be absent. */
  datatype HostDevice = HostDevice(
    name: Option<string>,
    manufacturer: Option<string>,
    model: Option<string>,
    hardwareVersion: Option<string>,
    firmwareVersion: Option<string>,
    softwareVersion: Option<string>,
    localIdentifier: Option<string>,
    udiDeviceIdentifier: Option<string>)

  /** The kinds of host sample a query can return: quantity samples, category
      samples carrying an integer code, and any other kind. */
  datatype HostSample =
    | QuantitySample(quantity: Quantity, startDate: Date, endDate: Date, device: Option<HostDevice>)
    | CategorySample(code: int, startDate: Date, endDate: Date, device: Option<HostDevice>)
    | OtherSample(startDate: Date, endDate: Date, device: Option<HostDevice>)

  /** One heartbeat-series sample found by session discovery. `uuid` stands
      for the host object's identity: two sessions with the same dates are
      still distinct objects, and each is read on its own. */
  datatype HeartbeatSeriesSample = HeartbeatSeriesSample(uuid: nat, startDate: Date, endDate: Date)

  /** A statistics object: one interval and the quantities computed over it. */
  datatype Statistics = Statistics(
    startDate: Date,
    endDate: Date,
    averageQuantity: Option<Quantity>,
    minimumQuantity: Option<Quantity>,
    maximumQuantity: Option<Quantity>,
    sumQuantity: Option<Quantity>,
    mostRecentQuantity: Option<Quantity>)

  /** `quantity.doubleValue(for: unit)`, supplied by the host. */
  type Conversion = (Quantity, Unit) -> real

  /** An error object reported by the host framework. */
  datatype HostError = HostError(domain: string, code: int)

  /** Host quantity-type identifiers used by the metric types. */
  datatype QuantityTypeIdentifier =
    | HeartRateId
    | RespiratoryRateId
    | OxygenSaturationId
    | BloodPressureSystolicId
    | BloodPressureDiastolicId
    | HeartRateVariabilitySdnnId
    | StepCountId
    | DistanceWalkingRunningId
    | BasalEnergyBurnedId
    | ActiveEnergyBurnedId

  /** Host category-type identifiers used by the metric types. */
  datatype CategoryTypeIdentifier = MindfulSessionId

  /** The host object types: quantity, series and category types. All three
      are sample types. */
  datatype ObjectType =
    | QuantityType(quantityId: QuantityTypeIdentifier)
    | HeartbeatSeriesType
    | CategoryType(categoryId: CategoryTypeIdentifier)
}
