/** Translation between the domain model and the host's objects: predicate
    trees to host predicates, host statistics and samples to domain samples,
    category codes, and devices in both directions. Converting a host
    quantity into a unit is the host's job and is passed in as `conv`. */
module ModelBuilder {
  import opened Wrappers
  import opened Host
  import opened Records
  import opened Predicates
  import opened Samples
  import MT = MetricTypes
  import V = Values

  // ---------------------------------------------------------------- values

  /** The value of a statistic: a nullable scalar, whatever the metric type. */
  function BuildValue(rawValue: Option<real>, t: MT.MetricType): V.Value {
    match t
    case HeartRate | BreathRate | OxygenSaturation => V.NullableDouble(rawValue)
    case Sdnn => V.NullableDouble(rawValue)
    case _ => V.NullableDouble(rawValue)
  }

  /** The metric type plays no part in the value built from a raw scalar,
      and the scalar is recovered unchanged. */
  lemma BuildValueIgnoresType(rawValue: Option<real>, t1: MT.MetricType, t2: MT.MetricType)
    ensures BuildValue(rawValue, t1) == BuildValue(rawValue, t2)
    ensures BuildValue(rawValue, t1).AsDouble() == rawValue
  {
  }

  /** The quantity a statistics object holds for an aggregation. */
  function SelectedQuantity(stats: Statistics, aggregation: AggregationType): Option<Quantity> {
    match aggregation
    case Avg => stats.averageQuantity
    case Min => stats.minimumQuantity
    case Max => stats.maximumQuantity
    case Sum => stats.sumQuantity
    case MostRecent => stats.mostRecentQuantity
  }

  /** A domain sample from one statistics object: the statistic's interval
      as period, no device or source, and as value the quantity the
      aggregation selects, in the metric type's unit, or nil. */
  function BuildStats(stats: Statistics, t: MT.MetricType, aggregation: AggregationType, conv: Conversion)
    : (r: Option<StatsSample>)
    ensures r.Some?
    ensures r.value.period == Period(stats.startDate, stats.endDate)
    ensures r.value.metricType == t && r.value.device == None && r.value.source == None
    ensures r.value.value.NullableDouble?
    ensures r.value.value.AsDouble().Some? <==> SelectedQuantity(stats, aggregation).Some?
    ensures r.value.value.AsDouble().Some? ==>
      r.value.value.AsDouble().value == conv(SelectedQuantity(stats, aggregation).value, MT.Units(t))
  {
    var period := Period(stats.startDate, stats.endDate);
    var raw := match SelectedQuantity(stats, aggregation)
      case Some(q) => Some(conv(q, MT.Units(t)))
      case None => None;
    Some(StatsSample(BuildValue(raw, t), t, period, None, None))
  }

  /** `lround`: the nearest integer, halves rounded away from zero. */
  function RoundHalfAwayFromZero(x: real): (r: int)
    ensures x - 0.5 <= r as real <= x + 0.5
    ensures r as real - x == 0.5 ==> x > 0.0
    ensures x - r as real == 0.5 ==> x < 0.0
  {
    if x >= 0.0 then (x + 0.5).Floor else -((-x + 0.5).Floor)
  }

  /** The category code written for a value: 0 for mindful minutes whatever
      the value, otherwise the value rounded to the nearest integer, halves
      away from zero. */
  function BuildCategoryValue(t: MT.MetricType, value: real): (r: int)
    ensures t == MT.MindfulMinutes ==> r == 0
    ensures t != MT.MindfulMinutes ==> value - 0.5 <= r as real <= value + 0.5
    ensures t != MT.MindfulMinutes && r as real - value == 0.5 ==> value > 0.0
    ensures t != MT.MindfulMinutes && value - r as real == 0.5 ==> value < 0.0
  {
    match t
    case MindfulMinutes => 0
    case _ => RoundHalfAwayFromZero(value)
  }

  // ------------------------------------------------------------ predicates

  /** The host predicate for an optional domain predicate: nil exactly for
      nil. */
  function BuildPredicate(p: Option<Predicate>, units: Unit): (r: Option<HostPredicate>)
    ensures r.None? <==> p.None?
    ensures p.Some? ==> Untranslate(r.value, units) == Some(p.value)
  {
    match p
    case None => None
    case Some(q) =>
      TranslateRoundTrip(q, units);
      Some(Translate(q, units))
  }

  /** The host predicate for a domain predicate, node by node: negation and
      and/or become compound predicates over the translated children, in
      order; quantity leaves compare against a quantity in the given unit;
      date leaves select samples within the range; source leaves allow only
      the given device name. */
  function Translate(p: Predicate, units: Unit): HostPredicate {
    match p
    case Not(sub) => NotPredicate(Translate(sub, units))
    case Composite(op, subs) =>
      var hs := seq(|subs|, i requires 0 <= i < |subs| => Translate(subs[i], units));
      (match op
       case And => AndPredicate(hs)
       case Or => OrPredicate(hs))
    case QuantityComparison(cmp, value) => QuantitySamplesPredicate(cmp, Quantity(units, value))
    case DateRange(range) => SamplesPredicate(range.start, range.end)
    case SourceName(name) => DevicePropertyPredicate(DevicePropertyName, [name])
  }

  /** Reads a host predicate back as a domain predicate, when it has the
      shape a translation with the given unit produces. */
  function Untranslate(h: HostPredicate, units: Unit): Option<Predicate> {
    match h
    case NotPredicate(sub) =>
      (match Untranslate(sub, units)
       case Some(p) => Some(Not(p))
       case None => None)
    case AndPredicate(subs) =>
      if forall i :: 0 <= i < |subs| ==> Untranslate(subs[i], units).Some? then
        Some(Composite(And, seq(|subs|, i requires 0 <= i < |subs| => Untranslate(subs[i], units).value)))
      else None
    case OrPredicate(subs) =>
      if forall i :: 0 <= i < |subs| ==> Untranslate(subs[i], units).Some? then
        Some(Composite(Or, seq(|subs|, i requires 0 <= i < |subs| => Untranslate(subs[i], units).value)))
      else None
    case QuantitySamplesPredicate(cmp, q) =>
      if q.unit == units then Some(QuantityComparison(cmp, q.amount)) else None
    case SamplesPredicate(start, end) => Some(DateRange(OpenDateRange(start, end)))
    case DevicePropertyPredicate(key, allowed) =>
      if |allowed| == 1 then Some(SourceName(allowed[0])) else None
  }

  /** Translation loses nothing: reading the host predicate back gives the
      domain predicate, so the tree's shape, the children's count and order,
      and every leaf's data are carried over. */
  lemma {:induction false} TranslateRoundTrip(p: Predicate, units: Unit)
    ensures Untranslate(Translate(p, units), units) == Some(p)
  {
    match p
    case Not(sub) =>
      TranslateRoundTrip(sub, units);
    case Composite(op, subs) =>
      var hs := seq(|subs|, i requires 0 <= i < |subs| => Translate(subs[i], units));
      forall i | 0 <= i < |subs|
        ensures Untranslate(hs[i], units) == Some(subs[i])
      {
        TranslateRoundTrip(subs[i], units);
      }
      assert seq(|hs|, i requires 0 <= i < |hs| => Untranslate(hs[i], units).value) == subs;
    case QuantityComparison(_, _) =>
    case DateRange(_) =>
    case SourceName(_) =>
  }

  /** Every quantity leaf of a host predicate uses the given unit. */
  predicate QuantitiesIn(h: HostPredicate, units: Unit) {
    match h
    case NotPredicate(sub) => QuantitiesIn(sub, units)
    case AndPredicate(subs) => forall i :: 0 <= i < |subs| ==> QuantitiesIn(subs[i], units)
    case OrPredicate(subs) => forall i :: 0 <= i < |subs| ==> QuantitiesIn(subs[i], units)
    case QuantitySamplesPredicate(_, q) => q.unit == units
    case SamplesPredicate(_, _) => true
    case DevicePropertyPredicate(_, _) => true
  }

  /** The translation compares every quantity in the unit it was given. */
  lemma {:induction false} TranslateUsesUnits(p: Predicate, units: Unit)
    ensures QuantitiesIn(Translate(p, units), units)
  {
    match p
    case Not(sub) =>
      TranslateUsesUnits(sub, units);
    case Composite(op, subs) =>
      forall i | 0 <= i < |subs|
        ensures QuantitiesIn(Translate(subs[i], units), units)
      {
        TranslateUsesUnits(subs[i], units);
      }
    case QuantityComparison(_, _) =>
    case DateRange(_) =>
    case SourceName(_) =>
  }

  /** The shape of one translation step: a negation translates to the
      negation of its translated child; a conjunction or disjunction to a
      compound of the same kind with one translated child per child, in
      order; leaves carry their data. */
  lemma TranslateNodes(p: Predicate, units: Unit)
    ensures p.Not? ==> Translate(p, units) == NotPredicate(Translate(p.sub, units))
    ensures p.Composite? ==>
      var h := Translate(p, units);
      && (if p.op == And then h.AndPredicate? else h.OrPredicate?)
      && |h.subs| == |p.subs|
      && forall i :: 0 <= i < |p.subs| ==> h.subs[i] == Translate(p.subs[i], units)
    ensures p.QuantityComparison? ==> Translate(p, units) == QuantitySamplesPredicate(p.cmp, Quantity(units, p.value))
    ensures p.DateRange? ==> Translate(p, units) == SamplesPredicate(p.range.start, p.range.end)
    ensures p.SourceName? ==> Translate(p, units) == DevicePropertyPredicate(DevicePropertyName, [p.name])
  {
  }

  // --------------------------------------------------------------- samples

  /** The scalar of a host sample: a quantity sample's quantity in the
      metric's unit; for a mindful category sample its length in minutes;
      for any other category sample its integer code; nil for any other
      kind of sample. */
  function BuildSampleValue(model: HostSample, t: MT.MetricType, conv: Conversion): (r: Option<real>)
    ensures r.None? <==> model.OtherSample?
    ensures model.QuantitySample? ==> r == Some(conv(model.quantity, MT.Units(t)))
    ensures model.CategorySample? && t == MT.MindfulMinutes ==>
      r.value * 60.0 == model.endDate - model.startDate
    ensures model.CategorySample? && t != MT.MindfulMinutes ==> r.value == model.code as real
  {
    match model
    case QuantitySample(q, _, _, _) => Some(conv(q, MT.Units(t)))
    case CategorySample(code, start, end, _) =>
      (match t
       case MindfulMinutes => Some(TimeIntervalSince(end, start) / 60.0)
       case _ => Some(code as real))
    case OtherSample(_, _, _) => None
  }

  /** A domain sample from a host sample: its scalar value, its interval as
      period, and its device mapped to a domain device. */
  function BuildSample(model: HostSample, t: MT.MetricType, conv: Conversion): (r: StatsSample)
    ensures r.value.NullableDouble? && r.value.double == BuildSampleValue(model, t, conv)
    ensures r.metricType == t && r.period == Period(model.startDate, model.endDate)
    ensures r.device == DeviceFrom(model.device)
    ensures r.source == None
  {
    StatsSample(
      V.NullableDouble(BuildSampleValue(model, t, conv)),
      t,
      Period(model.startDate, model.endDate),
      DeviceFrom(model.device),
      None)
  }

  // --------------------------------------------------------------- devices

  /** The domain device for a host device: nil exactly for nil, and every
      absent field becomes the empty string. */
  function DeviceFrom(host: Option<HostDevice>): (r: Option<Device>)
    ensures r.None? <==> host.None?
    ensures r.Some? ==>
      && r.value.name == host.value.name.GetOr("")
      && r.value.model == host.value.model.GetOr("")
      && r.value.hardwareVersion == host.value.hardwareVersion.GetOr("")
      && r.value.softwareVersion == host.value.softwareVersion.GetOr("")
      && r.value.manufacturer == host.value.manufacturer.GetOr("")
  {
    match host
    case None => None
    case Some(d) =>
      Some(Device(
        d.name.GetOr(""),
        d.model.GetOr(""),
        d.hardwareVersion.GetOr(""),
        d.softwareVersion.GetOr(""),
        d.manufacturer.GetOr("")))
  }

  /** The host device for a domain device: the five descriptive fields set,
      firmware version, local identifier and UDI left absent. */
  function HostDeviceFrom(d: Device): (h: HostDevice)
    ensures h.firmwareVersion.None? && h.localIdentifier.None? && h.udiDeviceIdentifier.None?
  {
    HostDevice(
      Some(d.name),
      Some(d.manufacturer),
      Some(d.model),
      Some(d.hardwareVersion),
      None,
      Some(d.softwareVersion),
      None,
      None)
  }

  /** Round trip: a domain device sent to the host and read back is the
      same device. */
  lemma DeviceRoundTrip(d: Device)
    ensures DeviceFrom(Some(HostDeviceFrom(d))) == Some(d)
  {
  }

  /** Round trip the other way: a host device with its five descriptive
      fields present and nothing else is rebuilt unchanged; with any other
      field present it is not. */
  lemma HostDeviceRoundTrip(h: HostDevice)
    ensures HostDeviceFrom(DeviceFrom(Some(h)).value) == h
      <==> (&& h.name.Some? && h.model.Some? && h.hardwareVersion.Some?
            && h.softwareVersion.Some? && h.manufacturer.Some?
            && h.firmwareVersion.None? && h.localIdentifier.None? && h.udiDeviceIdentifier.None?)
  {
  }
}
