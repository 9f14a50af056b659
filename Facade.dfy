/** The facade's pure decisions: how access, read and save responses from the
    host become typed results, how a read request is dispatched, how systolic
    and diastolic samples are paired into blood-pressure samples, and how
    heartbeat sessions tolerate a failed series read. Every host response is
    an input; the queries themselves are not modelled. */
module Facade {
  import opened Wrappers
  import opened Host
  import opened Records
  import opened Samples
  import opened Predicates
  import MT = MetricTypes
  import V = Values
  import D = Domains
  import MB = ModelBuilder
  import C = Cadence

  // ---------------------------------------------------------------- access

  /** The metric types requested for a list of domains: their lists joined
      in order. */
  function RequestedTypes(domains: seq<D.Domain>): (ts: seq<MT.MetricType>)
    ensures forall t :: t in ts <==> exists i :: 0 <= i < |domains| && domains[i].Contains(t)
  {
    if |domains| == 0 then []
    else
      assert forall i :: 1 <= i < |domains| ==> domains[1..][i - 1] == domains[i];
      domains[0].AssociatedTypes() + RequestedTypes(domains[1..])
  }

  /** A type is requested exactly when the domain the type table assigns it
      to is among the listed domains. */
  lemma RequestedIffDomainListed(domains: seq<D.Domain>, t: MT.MetricType)
    ensures t in RequestedTypes(domains) <==> D.DomainOf(t).Some? && D.DomainOf(t).value in domains
  {
    if t in RequestedTypes(domains) {
      var i :| 0 <= i < |domains| && domains[i].Contains(t);
      D.ContainsIffDomainOf(domains[i], t);
    }
    if D.DomainOf(t).Some? && D.DomainOf(t).value in domains {
      var i :| 0 <= i < |domains| && domains[i] == D.DomainOf(t).value;
      D.ContainsIffDomainOf(domains[i], t);
    }
  }

  /** The two object-type sets of an access request. */
  datatype AccessRequest = AccessRequest(toShare: set<ObjectType>, toRead: set<ObjectType>)

  /** The access request for a list of domains: the requested metric types
      seen as sample types to share, and as object types to read. The two
      sets coincide, and an object type is in them exactly when a metric
      type of a listed domain (by the type table) maps to it. */
  function AuthorizationTypes(domains: seq<D.Domain>): (r: AccessRequest)
    ensures r.toShare == r.toRead
    ensures forall o :: o in r.toRead <==>
      exists t :: D.DomainOf(t).Some? && D.DomainOf(t).value in domains && MT.AsHKQuantityType(t) == Some(o)
  {
    var types := RequestedTypes(domains);
    assert forall t :: MT.AsSampleType(t) == MT.AsHKQuantityType(t) by {
      forall t ensures MT.AsSampleType(t) == MT.AsHKQuantityType(t) { MT.CastsClassify(t); }
    }
    assert forall t :: t in types <==> D.DomainOf(t).Some? && D.DomainOf(t).value in domains by {
      forall t ensures t in types <==> D.DomainOf(t).Some? && D.DomainOf(t).value in domains {
        RequestedIffDomainListed(domains, t);
      }
    }
    AccessRequest(
      set t | t in types && MT.AsSampleType(t).Some? :: MT.AsSampleType(t).value,
      set t | t in types && MT.AsHKQuantityType(t).Some? :: MT.AsHKQuantityType(t).value)
  }

  /** Every requested metric type has a host object type, so none is
      silently dropped from the authorization request. */
  lemma AuthorizationCoversRequestedTypes(domains: seq<D.Domain>, t: MT.MetricType)
    requires t in RequestedTypes(domains)
    ensures MT.AsSampleType(t).Some? && MT.AsSampleType(t).value in AuthorizationTypes(domains).toShare
  {
    var i :| 0 <= i < |domains| && domains[i].Contains(t);
    D.ContainsIffDomainOf(domains[i], t);
    MT.CastsClassify(t);
  }

  /** Distinct metric types never share an object type, so a set of them
      maps onto as many object types as it has members. */
  lemma {:induction false} ObjectTypesOfSize(ts: set<MT.MetricType>)
    requires forall t :: t in ts ==> MT.AsHKQuantityType(t).Some?
    ensures |set t | t in ts :: MT.AsHKQuantityType(t).value| == |ts|
    decreases |ts|
  {
    if ts != {} {
      var x :| x in ts;
      var rest := ts - {x};
      ObjectTypesOfSize(rest);
      var image := set t | t in rest :: MT.AsHKQuantityType(t).value;
      forall o | o in image
        ensures o != MT.AsHKQuantityType(x).value
      {
        var t :| t in rest && MT.AsHKQuantityType(t).value == o;
        if o == MT.AsHKQuantityType(x).value {
          MT.ObjectTypeInjective(t, x);
        }
      }
      assert (set t | t in ts :: MT.AsHKQuantityType(t).value) == image + {MT.AsHKQuantityType(x).value};
    }
  }

  /** The request holds one object type per distinct requested metric type. */
  lemma AuthorizationSize(domains: seq<D.Domain>)
    ensures |AuthorizationTypes(domains).toRead| == |set t | t in RequestedTypes(domains)|
  {
    var ts := set t | t in RequestedTypes(domains);
    forall t | t in ts ensures MT.AsHKQuantityType(t).Some? {
      AuthorizationCoversRequestedTypes(domains, t);
      MT.CastsClassify(t);
    }
    ObjectTypesOfSize(ts);
    assert AuthorizationTypes(domains).toRead == set t | t in ts :: MT.AsHKQuantityType(t).value;
  }

  /** The authorization response: unavailable without a store, a general
      error when the host reports one, otherwise the host's flag. */
  function AuthorizationResult(storeAvailable: bool, flag: bool, error: Option<HostError>): (r: Result<bool, Error>)
    ensures !storeAvailable ==> r == Failure(HkNotAvailable)
    ensures storeAvailable && error.Some? ==> r == Failure(General(error.value))
    ensures r.Success? <==> storeAvailable && error.None?
    ensures r.Success? ==> r.value == flag
  {
    if !storeAvailable then Failure(HkNotAvailable)
    else if error.Some? then Failure(General(error.value))
    else Success(flag)
  }

  /** Access check: an error passes through unchanged, a refusal becomes
      "no access for domain", a grant is success. */
  function CheckAccess(response: Result<bool, Error>): (r: Outcome<Error>)
    ensures response.Failure? ==> r == Fail(response.error)
    ensures response == Success(false) ==> r == Fail(NoAccessForDomain)
    ensures r.Pass? <==> response == Success(true)
  {
    match response
    case Failure(err) => Fail(err)
    case Success(flag) => if flag then Pass else Fail(NoAccessForDomain)
  }

  /** Access is granted exactly when a store exists, the host reports no
      error and it grants the request. */
  lemma CheckAccessGrantsOnlyOnFullGrant(storeAvailable: bool, flag: bool, error: Option<HostError>)
    ensures CheckAccess(AuthorizationResult(storeAvailable, flag, error)).Pass?
      <==> storeAvailable && error.None? && flag
    ensures storeAvailable && error.None? && !flag ==>
      CheckAccess(AuthorizationResult(storeAvailable, flag, error)) == Fail(NoAccessForDomain)
  {
  }

  // ------------------------------------------------------------ read samples

  /** The result of a sample query: unavailable without a store, an
      unsupported type when the metric has no sample type, a general error
      when the host reports one, no samples when it returns none, and
      otherwise one domain sample per host sample, in order. */
  function ReadSamplesResult(
    t: MT.MetricType, storeAvailable: bool, error: Option<HostError>,
    collection: Option<seq<HostSample>>, conv: Conversion): (r: Result<seq<StatsSample>, Error>)
    ensures !storeAvailable ==> r == Failure(HkNotAvailable)
    ensures storeAvailable && t == MT.BloodPressure ==> r == Failure(FailedToReadUnsupportedType)
    ensures storeAvailable && t != MT.BloodPressure && error.Some? ==> r == Failure(General(error.value))
    ensures r.Success? <==> storeAvailable && t != MT.BloodPressure && error.None?
    ensures r.Success? && collection.None? ==> r.value == []
    ensures r.Success? && collection.Some? ==>
      && |r.value| == |collection.value|
      && forall i :: 0 <= i < |r.value| ==>
           r.value[i].metricType == t && r.value[i] == MB.BuildSample(collection.value[i], t, conv)
  {
    MT.CastsClassify(t);
    if !storeAvailable then Failure(HkNotAvailable)
    else if MT.AsSampleType(t).None? then Failure(FailedToReadUnsupportedType)
    else if error.Some? then Failure(General(error.value))
    else if collection.None? then Success([])
    else Success(seq(|collection.value|, i requires 0 <= i < |collection.value| =>
                       MB.BuildSample(collection.value[i], t, conv)))
  }

  // ------------------------------------------------------------ blood pressure

  /** A systolic and a diastolic sample can be combined: same period, and
      both carry a scalar. */
  predicate Matches(s: StatsSample, d: StatsSample) {
    s.period == d.period && s.value.AsDouble().Some? && d.value.AsDouble().Some?
  }

  /** The blood-pressure sample combining a matching pair, or nothing. */
  function PairOne(s: StatsSample, d: StatsSample): (r: seq<StatsSample>)
    ensures |r| <= 1
    ensures |r| == 1 <==> Matches(s, d)
    ensures |r| == 1 ==> IsCombination(r[0], s, d)
  {
    if Matches(s, d) then
      [StatsSample(
        V.BloodPressure(BloodPressure(s.value.AsDouble().value, d.value.AsDouble().value)),
        MT.BloodPressure,
        s.period,
        s.device,
        s.source)]
    else []
  }

  /** `p` is the blood-pressure sample of the pair (s, d): of type blood
      pressure, the systolic reading from s, the diastolic from d, and the
      period and origin of s. */
  ghost predicate IsCombination(p: StatsSample, s: StatsSample, d: StatsSample) {
    && p.metricType == MT.BloodPressure
    && p.value.AsBloodPressure().Some?
    && Some(p.value.AsBloodPressure().value.systolic) == s.value.AsDouble()
    && Some(p.value.AsBloodPressure().value.diastolic) == d.value.AsDouble()
    && p.period == s.period == d.period
    && p.device == s.device && p.source == s.source
  }

  /** Pairs the two lists index by index, keeping only matching pairs. */
  function PairBloodPressure(systolic: seq<StatsSample>, diastolic: seq<StatsSample>): (r: seq<StatsSample>)
    ensures |r| <= |systolic| && |r| <= |diastolic|
  {
    if |systolic| == 0 || |diastolic| == 0 then []
    else PairOne(systolic[0], diastolic[0]) + PairBloodPressure(systolic[1..], diastolic[1..])
  }

  /** Every paired sample combines the systolic and diastolic samples found
      at one and the same index. */
  lemma {:induction false} PairingCombinesSameIndex(systolic: seq<StatsSample>, diastolic: seq<StatsSample>)
    ensures forall j :: 0 <= j < |PairBloodPressure(systolic, diastolic)| ==>
      exists i :: 0 <= i < |systolic| && i < |diastolic|
        && IsCombination(PairBloodPressure(systolic, diastolic)[j], systolic[i], diastolic[i])
  {
    if |systolic| > 0 && |diastolic| > 0 {
      PairingCombinesSameIndex(systolic[1..], diastolic[1..]);
      var rest := PairBloodPressure(systolic[1..], diastolic[1..]);
      var head := PairOne(systolic[0], diastolic[0]);
      var r := PairBloodPressure(systolic, diastolic);
      assert r == head + rest;
      forall j | 0 <= j < |r|
        ensures exists i :: 0 <= i < |systolic| && i < |diastolic| && IsCombination(r[j], systolic[i], diastolic[i])
      {
        if j < |head| {
          assert IsCombination(r[j], systolic[0], diastolic[0]);
        } else {
          assert 0 <= j - |head| < |rest| && r[j] == rest[j - |head|];
          var k :| 0 <= k < |systolic[1..]| && k < |diastolic[1..]|
            && IsCombination(rest[j - |head|], systolic[1..][k], diastolic[1..][k]);
          assert IsCombination(r[j], systolic[k + 1], diastolic[k + 1]);
        }
      }
    } else {
      assert PairBloodPressure(systolic, diastolic) == [];
    }
  }

  /** Pairing distributes over a split of both lists at the same index. */
  lemma {:induction false} PairingSplits(systolic: seq<StatsSample>, diastolic: seq<StatsSample>, i: nat)
    requires i <= |systolic| && i <= |diastolic|
    ensures PairBloodPressure(systolic, diastolic)
      == PairBloodPressure(systolic[..i], diastolic[..i]) + PairBloodPressure(systolic[i..], diastolic[i..])
  {
    var s, d := systolic, diastolic;
    if i == 0 {
      assert s[..0] == [] && s[0..] == s && d[0..] == d;
    } else {
      PairingSplits(s[1..], d[1..], i - 1);
      assert s[1..][..i - 1] == s[..i][1..] && d[1..][..i - 1] == d[..i][1..];
      assert s[1..][i - 1..] == s[i..] && d[1..][i - 1..] == d[i..];
      assert s[..i][0] == s[0] && d[..i][0] == d[0];
    }
  }

  /** Pairing is positional: a pair at index i contributes in place, and a
      pair that does not match is dropped without shifting the others into
      new partners. */
  lemma PairingIsPositional(systolic: seq<StatsSample>, diastolic: seq<StatsSample>, i: nat)
    requires i < |systolic| && i < |diastolic|
    ensures PairBloodPressure(systolic, diastolic)
      == PairBloodPressure(systolic[..i], diastolic[..i])
         + PairOne(systolic[i], diastolic[i])
         + PairBloodPressure(systolic[i + 1..], diastolic[i + 1..])
  {
    PairingSplits(systolic, diastolic, i);
    var s, d := systolic[i..], diastolic[i..];
    assert s[0] == systolic[i] && d[0] == diastolic[i];
    assert s[1..] == systolic[i + 1..] && d[1..] == diastolic[i + 1..];
    var pre, one, post := PairBloodPressure(systolic[..i], diastolic[..i]), PairOne(s[0], d[0]), PairBloodPressure(s[1..], d[1..]);
    assert PairBloodPressure(s, d) == one + post;
    assert pre + (one + post) == pre + one + post;
  }

  /** When every pair matches, nothing is dropped: one blood-pressure sample
      per index of the shorter list, each combining the pair at that index. */
  lemma {:induction false} PairingKeepsAllMatching(systolic: seq<StatsSample>, diastolic: seq<StatsSample>)
    requires forall i :: 0 <= i < |systolic| && i < |diastolic| ==> Matches(systolic[i], diastolic[i])
    ensures var r := PairBloodPressure(systolic, diastolic);
      && |r| == (if |systolic| < |diastolic| then |systolic| else |diastolic|)
      && forall i :: 0 <= i < |r| ==> IsCombination(r[i], systolic[i], diastolic[i])
  {
    if |systolic| > 0 && |diastolic| > 0 {
      assert Matches(systolic[0], diastolic[0]);
      PairingKeepsAllMatching(systolic[1..], diastolic[1..]);
    }
  }

  /** Reading blood pressure: both underlying reads must succeed, otherwise
      the whole read fails with "no stats"; then the results are paired. */
  function ReadBloodPressure(
    systolic: Result<seq<StatsSample>, Error>, diastolic: Result<seq<StatsSample>, Error>)
    : (r: Result<seq<StatsSample>, Error>)
    ensures systolic.Failure? || diastolic.Failure? ==> r == Failure(FailedToReadNoStats)
    ensures r.Success? <==> systolic.Success? && diastolic.Success?
    ensures r.Success? ==> r.value == PairBloodPressure(systolic.value, diastolic.value)
  {
    if systolic.Success? && diastolic.Success? then
      Success(PairBloodPressure(systolic.value, diastolic.value))
    else Failure(FailedToReadNoStats)
  }

  // ------------------------------------------------------------ heartbeat

  /** One session with its series: the timestamps when the series read
      succeeded, none when it failed or did not run. */
  function SessionWithSeries(
    session: HeartbeatSeriesSample,
    series: HeartbeatSeriesSample -> Option<Result<seq<TimeInterval>, Error>>): (r: RriSession)
    ensures r.period == Period(session.startDate, session.endDate)
    ensures series(session).Some? && series(session).value.Success? ==> r.timestamps == series(session).value.value
    ensures !(series(session).Some? && series(session).value.Success?) ==> r.timestamps == []
  {
    var period := Period(session.startDate, session.endDate);
    match series(session)
    case Some(Success(ts)) => RriSession(period, ts)
    case Some(Failure(_)) => RriSession(period, [])
    case None => RriSession(period, [])
  }

  /** Reading heartbeat sessions: a failed discovery fails the read; after
      a successful one, every discovered session yields one session, in
      order, even when its own series read fails. */
  function ReadRri(
    discovery: Result<seq<HeartbeatSeriesSample>, Error>,
    series: HeartbeatSeriesSample -> Option<Result<seq<TimeInterval>, Error>>)
    : (r: Result<seq<RriSession>, Error>)
    ensures discovery.Failure? ==> r == Failure(FailedToRead(discovery.error))
    ensures discovery.Success? ==> r.Success? && |r.value| == |discovery.value|
    ensures discovery.Success? ==> forall i :: 0 <= i < |r.value| ==>
      && r.value[i].period == Period(discovery.value[i].startDate, discovery.value[i].endDate)
      && (series(discovery.value[i]).Some? && series(discovery.value[i]).value.Success? ==>
            r.value[i].timestamps == series(discovery.value[i]).value.value)
      && (!(series(discovery.value[i]).Some? && series(discovery.value[i]).value.Success?) ==>
            r.value[i].timestamps == [])
  {
    match discovery
    case Failure(err) => Failure(FailedToRead(err))
    case Success(sessions) =>
      Success(seq(|sessions|, i requires 0 <= i < |sessions| => SessionWithSeries(sessions[i], series)))
  }

  /** Series are read per session object, not per period: two sessions with
      the same dates can end with different timestamps, here because one
      series read succeeds and the other fails. */
  lemma SessionsReadApart()
    ensures
      var a, b := HeartbeatSeriesSample(1, 0.0, 60.0), HeartbeatSeriesSample(2, 0.0, 60.0);
      var series := (s: HeartbeatSeriesSample) =>
        if s.uuid == 1 then Some(Success([0.5, 1.25])) else Some(Failure(FailedToReadNoStats));
      var r := ReadRri(Success([a, b]), series);
      && r.Success? && r.value[0].period == r.value[1].period
      && r.value[0].timestamps == [0.5, 1.25] && r.value[1].timestamps == []
  {
  }

  /** The samples for heartbeat sessions: one per session, of type
      heartbeat intervals, with the session's period and as value the
      session itself, no device or source. */
  function RriSamples(sessions: seq<RriSession>): (r: seq<StatsSample>)
    ensures |r| == |sessions|
    ensures forall i :: 0 <= i < |r| ==>
      && r[i].value.AsRriSession() == Some(sessions[i])
      && r[i].metricType == MT.Rri
      && r[i].period == sessions[i].period
      && r[i].device.None? && r[i].source.None?
  {
    seq(|sessions|, i requires 0 <= i < |sessions| =>
      StatsSample(V.RriSession(sessions[i]), MT.Rri, sessions[i].period, None, None))
  }

  // ------------------------------------------------------------ dispatch

  /** The kinds of sample read: one metric type, blood pressure, or
      heartbeat series, each with a predicate and a limit for the query. */
  datatype ReadRequest =
    | DiscreteSample(metricType: MT.MetricType, filter: Option<LegacyPredicate>, limit: Option<int>)
    | BloodPressureSample(filter: Option<LegacyPredicate>, limit: Option<int>)
    | HeartbeatSeries(filter: Option<LegacyPredicate>, limit: Option<int>)

  /** A sample read. `samples` gives the sample query's result per metric
      type under the request's predicate and limit; `discovery` and `series`
      give the heartbeat session and series reads. */
  function Read(
    request: ReadRequest,
    samples: MT.MetricType -> Result<seq<StatsSample>, Error>,
    discovery: Result<seq<HeartbeatSeriesSample>, Error>,
    series: HeartbeatSeriesSample -> Option<Result<seq<TimeInterval>, Error>>)
    : (r: Result<seq<StatsSample>, Error>)
    ensures request.DiscreteSample? ==> r == samples(request.metricType)
    ensures request.BloodPressureSample? ==>
      r == ReadBloodPressure(samples(MT.BloodPressureSystolic), samples(MT.BloodPressureDiastolic))
    ensures request.HeartbeatSeries? && discovery.Failure? ==> r == Failure(FailedToRead(discovery.error))
    ensures request.HeartbeatSeries? && discovery.Success? ==>
      r == Success(RriSamples(ReadRri(discovery, series).value)) && |r.value| == |discovery.value|
  {
    match request
    case DiscreteSample(t, _, _) => samples(t)
    case BloodPressureSample(_, _) =>
      ReadBloodPressure(samples(MT.BloodPressureSystolic), samples(MT.BloodPressureDiastolic))
    case HeartbeatSeries(_, _) =>
      match ReadRri(discovery, series)
      case Success(sessions) => Success(RriSamples(sessions))
      case Failure(err) => Failure(err)
  }

  // ------------------------------------------------------------ statistics

  /** What a statistics-collection query is built from: the quantity type,
      the unit the predicate compares in, and the interval between buckets. */
  datatype StatsQuery = StatsQuery(quantityType: ObjectType, units: Unit, interval: C.DateComponents)

  /** The statistics query for a metric type and cadence: refused with
      "failed to get quantity type" unless the metric has a quantity type;
      otherwise the interval is one step of the cadence. */
  function StatsQueryFor(t: MT.MetricType, cadence: C.Cadence): (r: Result<StatsQuery, Error>)
    ensures r.Failure? <==> t in {MT.BloodPressure, MT.Rri, MT.MindfulMinutes}
    ensures r.Failure? ==> r.error == FailedToGetQuantityType
    ensures r.Success? ==>
      && r.value.quantityType.QuantityType?
      && Some(r.value.quantityType) == MT.AsHKQuantityType(t)
      && r.value.units == MT.Units(t)
      && forall comp :: r.value.interval.Get(comp) == if comp == cadence.StepField() then Some(cadence.count) else None
  {
    MT.CastsClassify(t);
    match MT.AsQuantityType(t)
    case None => Failure(FailedToGetQuantityType)
    case Some(qt) => Success(StatsQuery(qt, MT.Units(t), cadence.DateComponent()))
  }

  /** A statistics notification: a missing collection is a "no stats"
      failure, a present one is delivered. */
  function StatsNotification<T>(collection: Option<T>): (r: Result<T, Error>)
    ensures r.Failure? <==> collection.None?
    ensures r.Failure? ==> r.error == FailedToReadNoStats
    ensures r.Success? ==> Some(r.value) == collection
  {
    match collection
    case None => Failure(FailedToReadNoStats)
    case Some(c) => Success(c)
  }

  // ------------------------------------------------------------ write

  /** A sample to be saved, as handed to the host. */
  datatype SampleToSave =
    | QuantitySampleToSave(objectType: ObjectType, quantity: Quantity, start: Date, end: Date, device: HostDevice)
    | CategorySampleToSave(objectType: ObjectType, code: int, start: Date, end: Date, device: HostDevice)

  /** A quantity sample to save: refused unless the metric has a quantity
      type; the value in the metric's unit, the period, and the device sent
      as a host device. */
  function QuantitySampleFor(t: MT.MetricType, value: real, period: Period, device: Device)
    : (r: Result<SampleToSave, Error>)
    ensures r.Failure? <==> t in {MT.BloodPressure, MT.Rri, MT.MindfulMinutes}
    ensures r.Failure? ==> r.error == FailedToSaveCategorySample
    ensures r.Success? ==>
      && r.value.QuantitySampleToSave?
      && r.value.objectType.QuantityType?
      && Some(r.value.objectType) == MT.AsHKQuantityType(t)
      && r.value.quantity == Quantity(MT.Units(t), value)
      && r.value.start == period.start && r.value.end == period.end
      && r.value.device == MB.HostDeviceFrom(device)
      && r.value.device.firmwareVersion.None? && r.value.device.localIdentifier.None?
      && r.value.device.udiDeviceIdentifier.None?
      && MB.DeviceFrom(Some(r.value.device)) == Some(device)
  {
    MT.CastsClassify(t);
    MB.DeviceRoundTrip(device);
    match MT.AsQuantityType(t)
    case None => Failure(FailedToSaveCategorySample)
    case Some(qt) =>
      Success(QuantitySampleToSave(qt, Quantity(MT.Units(t), value), period.start, period.end, MB.HostDeviceFrom(device)))
  }

  /** A category sample to save: refused unless the metric has a category
      type (only mindful minutes); its code is the category value, which for
      mindful minutes is always 0. */
  function CategorySampleFor(t: MT.MetricType, value: real, period: Period, device: Device)
    : (r: Result<SampleToSave, Error>)
    ensures r.Failure? <==> t != MT.MindfulMinutes
    ensures r.Failure? ==> r.error == FailedToSaveCategorySample
    ensures r.Success? ==>
      && r.value.CategorySampleToSave?
      && r.value.objectType == CategoryType(MindfulSessionId)
      && Some(r.value.objectType) == MT.AsHKCategoryType(t)
      && r.value.code == MB.BuildCategoryValue(t, value) == 0
      && r.value.start == period.start && r.value.end == period.end
      && r.value.device == MB.HostDeviceFrom(device)
      && r.value.device.firmwareVersion.None? && r.value.device.localIdentifier.None?
      && r.value.device.udiDeviceIdentifier.None?
      && MB.DeviceFrom(Some(r.value.device)) == Some(device)
  {
    MT.CategoryTypeOnlyForMindfulMinutes(t);
    MB.DeviceRoundTrip(device);
    match MT.AsHKCategoryType(t)
    case None => Failure(FailedToSaveCategorySample)
    case Some(ct) =>
      Success(CategorySampleToSave(ct, MB.BuildCategoryValue(t, value), period.start, period.end, MB.HostDeviceFrom(device)))
  }

  /** The result of a save: unavailable without a store, the host's error
      wrapped as a save failure, a refusal without error as a "safe" save
      failure, and success otherwise. */
  function SaveSample(storeAvailable: bool, flag: bool, error: Option<HostError>): (r: Outcome<Error>)
    ensures !storeAvailable ==> r == Fail(HkNotAvailable)
    ensures storeAvailable && error.Some? ==> r == Fail(FailedToSave(error.value))
    ensures storeAvailable && error.None? && !flag ==> r == Fail(FailedToSaveSafe)
    ensures r.Pass? <==> storeAvailable && error.None? && flag
  {
    if !storeAvailable then Fail(HkNotAvailable)
    else if error.Some? then Fail(FailedToSave(error.value))
    else if !flag then Fail(FailedToSaveSafe)
    else Pass
  }
}
