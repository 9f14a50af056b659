/** The legacy builder: legacy predicate trees to host predicates, host
    quantity samples to legacy samples, and host devices to legacy devices. */
module LegacyModelBuilder {
  import opened Wrappers
  import opened Host
  import opened Records
  import opened Predicates

  /** The legacy device: no model field. */
  datatype LegacyDevice = LegacyDevice(
    name: string,
    hardwareVersion: string,
    softwareVersion: string,
    manufacturer: string)

  /** The legacy sample: a nullable scalar, its period and its device. */
  datatype LegacyStatsSample = LegacyStatsSample(
    val: Option<real>,
    period: Period,
    source: Option<LegacyDevice>)

  /** The host predicate for an optional legacy predicate: nil exactly for
      nil. */
  function LegacyBuildPredicate(p: Option<LegacyPredicate>, units: Unit): (r: Option<HostPredicate>)
    ensures r.None? <==> p.None?
    ensures p.Some? ==> LegacyUntranslate(r.value, units) == Some(p.value)
  {
    match p
    case None => None
    case Some(q) =>
      LegacyTranslateRoundTrip(q, units);
      Some(LegacyTranslate(q, units))
  }

  /** The host predicate for a legacy predicate, node by node. */
  function LegacyTranslate(p: LegacyPredicate, units: Unit): HostPredicate {
    match p
    case LegacyNot(sub) => NotPredicate(LegacyTranslate(sub, units))
    case LegacyComposite(op, subs) =>
      var hs := seq(|subs|, i requires 0 <= i < |subs| => LegacyTranslate(subs[i], units));
      (match op
       case And => AndPredicate(hs)
       case Or => OrPredicate(hs))
    case LegacyQuantityComparison(cmp, value) => QuantitySamplesPredicate(cmp, Quantity(units, value))
    case LegacyDateRange(range) => SamplesPredicate(range.start, range.end)
  }

  /** Reads a host predicate back as a legacy predicate, when it has the
      shape a legacy translation with the given unit produces. */
  function LegacyUntranslate(h: HostPredicate, units: Unit): Option<LegacyPredicate> {
    match h
    case NotPredicate(sub) =>
      (match LegacyUntranslate(sub, units)
       case Some(p) => Some(LegacyNot(p))
       case None => None)
    case AndPredicate(subs) =>
      if forall i :: 0 <= i < |subs| ==> LegacyUntranslate(subs[i], units).Some? then
        Some(LegacyComposite(And, seq(|subs|, i requires 0 <= i < |subs| => LegacyUntranslate(subs[i], units).value)))
      else None
    case OrPredicate(subs) =>
      if forall i :: 0 <= i < |subs| ==> LegacyUntranslate(subs[i], units).Some? then
        Some(LegacyComposite(Or, seq(|subs|, i requires 0 <= i < |subs| => LegacyUntranslate(subs[i], units).value)))
      else None
    case QuantitySamplesPredicate(cmp, q) =>
      if q.unit == units then Some(LegacyQuantityComparison(cmp, q.amount)) else None
    case SamplesPredicate(start, end) => Some(LegacyDateRange(OpenDateRange(start, end)))
    case DevicePropertyPredicate(_, _) => None
  }

  /** Legacy translation loses nothing: the tree's shape, the children's
      count and order, the quantity leaves' values and the date leaves'
      bounds are all read back. */
  lemma {:induction false} LegacyTranslateRoundTrip(p: LegacyPredicate, units: Unit)
    ensures LegacyUntranslate(LegacyTranslate(p, units), units) == Some(p)
  {
    match p
    case LegacyNot(sub) =>
      LegacyTranslateRoundTrip(sub, units);
    case LegacyComposite(op, subs) =>
      var hs := seq(|subs|, i requires 0 <= i < |subs| => LegacyTranslate(subs[i], units));
      forall i | 0 <= i < |subs|
        ensures LegacyUntranslate(hs[i], units) == Some(subs[i])
      {
        LegacyTranslateRoundTrip(subs[i], units);
      }
      assert seq(|hs|, i requires 0 <= i < |hs| => LegacyUntranslate(hs[i], units).value) == subs;
    case LegacyQuantityComparison(_, _) =>
    case LegacyDateRange(_) =>
  }

  /** The shape of one legacy translation step. */
  lemma LegacyTranslateNodes(p: LegacyPredicate, units: Unit)
    ensures p.LegacyNot? ==> LegacyTranslate(p, units) == NotPredicate(LegacyTranslate(p.sub, units))
    ensures p.LegacyComposite? ==>
      var h := LegacyTranslate(p, units);
      && (if p.op == And then h.AndPredicate? else h.OrPredicate?)
      && |h.subs| == |p.subs|
      && forall i :: 0 <= i < |p.subs| ==> h.subs[i] == LegacyTranslate(p.subs[i], units)
    ensures p.LegacyQuantityComparison? ==>
      LegacyTranslate(p, units) == QuantitySamplesPredicate(p.cmp, Quantity(units, p.value))
    ensures p.LegacyDateRange? ==> LegacyTranslate(p, units) == SamplesPredicate(p.range.start, p.range.end)
  {
  }

  /** The legacy device for a host device: nil exactly for nil, and an
      absent name, hardware, software or manufacturer becomes the empty
      string. */
  function LegacyDeviceFrom(host: Option<HostDevice>): (r: Option<LegacyDevice>)
    ensures r.None? <==> host.None?
    ensures r.Some? ==>
      && r.value.name == host.value.name.GetOr("")
      && r.value.hardwareVersion == host.value.hardwareVersion.GetOr("")
      && r.value.softwareVersion == host.value.softwareVersion.GetOr("")
      && r.value.manufacturer == host.value.manufacturer.GetOr("")
  {
    match host
    case None => None
    case Some(d) =>
      Some(LegacyDevice(
        d.name.GetOr(""),
        d.hardwareVersion.GetOr(""),
        d.softwareVersion.GetOr(""),
        d.manufacturer.GetOr("")))
  }

  /** A legacy sample from a host quantity sample: the quantity in the
      given unit, the sample's interval as period, its device mapped. */
  function LegacyBuildSample(model: HostSample, units: Unit, conv: Conversion): (r: LegacyStatsSample)
    requires model.QuantitySample?
    ensures r.val == Some(conv(model.quantity, units))
    ensures r.period == Period(model.startDate, model.endDate)
    ensures r.source == LegacyDeviceFrom(model.device)
  {
    LegacyStatsSample(
      Some(conv(model.quantity, units)),
      Period(model.startDate, model.endDate),
      LegacyDeviceFrom(model.device))
  }
}
