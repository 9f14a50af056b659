/** The metric types of the domain model: the unit each is measured in, and
    how each maps onto the host's object types (quantity, heartbeat series,
    category, or none for the composite blood pressure). */
module MetricTypes {
  import opened Wrappers
  import opened Host

  datatype MetricType =
    | HeartRate
    | BreathRate
    | OxygenSaturation
    | BloodPressureSystolic
    | BloodPressureDiastolic
    | BloodPressure
    | Sdnn
    | Rri
    | Steps
    | Distance
    | BasalEnergy
    | ActiveEnergy
    | MindfulMinutes

  /** The unit values of this metric type are read and written in. */
  function Units(t: MetricType): Unit {
    match t
    case HeartRate => TimesPerMinute
    case BreathRate => TimesPerMinute
    case OxygenSaturation => Percent
    case BloodPressureSystolic => MillimeterOfMercury
    case BloodPressureDiastolic => MillimeterOfMercury
    case BloodPressure => MillimeterOfMercury
    case Sdnn => Second
    case Rri => Second
    case Steps => Count
    case Distance => Meter
    case BasalEnergy => SmallCalorie
    case ActiveEnergy => SmallCalorie
    case MindfulMinutes => Minute
  }

  /** The host object type of a metric type, whatever its kind; the
      composite blood pressure has none. */
  function AsHKQuantityType(t: MetricType): Option<ObjectType> {
    match t
    case HeartRate => Some(QuantityType(HeartRateId))
    case BreathRate => Some(QuantityType(RespiratoryRateId))
    case OxygenSaturation => Some(QuantityType(OxygenSaturationId))
    case BloodPressureSystolic => Some(QuantityType(BloodPressureSystolicId))
    case BloodPressureDiastolic => Some(QuantityType(BloodPressureDiastolicId))
    case BloodPressure => None
    case Sdnn => Some(QuantityType(HeartRateVariabilitySdnnId))
    case Rri => Some(HeartbeatSeriesType)
    case Steps => Some(QuantityType(StepCountId))
    case Distance => Some(QuantityType(DistanceWalkingRunningId))
    case BasalEnergy => Some(QuantityType(BasalEnergyBurnedId))
    case ActiveEnergy => Some(QuantityType(ActiveEnergyBurnedId))
    case MindfulMinutes => Some(CategoryType(MindfulSessionId))
  }

  /** The host category type; only mindful minutes is a category. */
  function AsHKCategoryType(t: MetricType): Option<ObjectType> {
    match t
    case MindfulMinutes => Some(CategoryType(MindfulSessionId))
    case _ => None
  }

  /** The object type seen as a sample type. Quantity, series and category
      types are all sample types, so the cast always succeeds. */
  function AsSampleType(t: MetricType): Option<ObjectType> {
    match AsHKQuantityType(t)
    case Some(o) => if o.QuantityType? || o.HeartbeatSeriesType? || o.CategoryType? then Some(o) else None
    case None => None
  }

  /** The object type seen as a quantity type: the cast fails for the series
      and the category type. */
  function AsQuantityType(t: MetricType): Option<ObjectType> {
    match AsHKQuantityType(t)
    case Some(o) => if o.QuantityType? then Some(o) else None
    case None => None
  }

  /** The object type seen as a series type. */
  function AsHKSeriesType(t: MetricType): Option<ObjectType> {
    match AsHKQuantityType(t)
    case Some(o) => if o.HeartbeatSeriesType? then Some(o) else None
    case None => None
  }

  /** Only mindful minutes has a category type, and it is the same object
      the general lookup gives. */
  lemma CategoryTypeOnlyForMindfulMinutes(t: MetricType)
    ensures AsHKCategoryType(t).Some? <==> t == MindfulMinutes
    ensures AsHKCategoryType(t).Some? ==> AsHKCategoryType(t) == AsHKQuantityType(t)
  {
  }

  /** Only the composite blood pressure has no host object; heartbeat
      intervals map to the heartbeat series type and mindful minutes to a
      category type. */
  lemma ObjectTypeClassification(t: MetricType)
    ensures AsHKQuantityType(t).None? <==> t == BloodPressure
    ensures AsHKQuantityType(t) == Some(HeartbeatSeriesType) <==> t == Rri
    ensures (AsHKQuantityType(t).Some? && AsHKQuantityType(t).value.CategoryType?) <==> t == MindfulMinutes
  {
  }

  /** The quantity-type cast fails exactly for blood pressure, heartbeat
      intervals (a series) and mindful minutes (a category); the sample-type
      cast fails only for blood pressure; the series cast succeeds only for
      heartbeat intervals. */
  lemma CastsClassify(t: MetricType)
    ensures AsQuantityType(t).None? <==> t in {BloodPressure, Rri, MindfulMinutes}
    ensures AsSampleType(t).None? <==> t == BloodPressure
    ensures AsSampleType(t) == AsHKQuantityType(t)
    ensures AsHKSeriesType(t).Some? <==> t == Rri
  {
  }

  /** Distinct metric types never share a host object type. */
  lemma ObjectTypeInjective(t1: MetricType, t2: MetricType)
    requires AsHKQuantityType(t1).Some? && AsHKQuantityType(t1) == AsHKQuantityType(t2)
    ensures t1 == t2
  {
  }

  /** The pressures share millimetres of mercury; heart and breath rate share
      times per minute; SDNN and heartbeat intervals share seconds. */
  lemma SharedUnits()
    ensures Units(BloodPressureSystolic) == Units(BloodPressureDiastolic) == Units(BloodPressure) == MillimeterOfMercury
    ensures Units(HeartRate) == Units(BreathRate) == TimesPerMinute
    ensures Units(Sdnn) == Units(Rri) == Second
    ensures forall t :: Units(t) == MillimeterOfMercury <==> t in {BloodPressureSystolic, BloodPressureDiastolic, BloodPressure}
  {
  }
}
