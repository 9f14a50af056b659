# HKFacade core, modelled in Dafny

HKFacade is a typed facade over a host health-data framework. It translates a
domain model into the host's query objects and translates the host's answers
back. The domain model covers metric types, periods, devices, predicates and
values. This project models the facade's pure translation and ordering rules
and proves properties of them:

- cadences: identifier, ordering weight, query interval and bucket keys (`Cadence`);
- the sample value sum type: projections and type-specific ordering (`Values`);
- metric types: units and host object-type classification (`MetricTypes`);
- the domain membership tables, current and legacy (`Domains`, `LegacyDomains`);
- the builders: predicate trees to host predicates, statistics and samples to
  domain samples, category codes, and devices in both directions
  (`ModelBuilder`, `LegacyModelBuilder`);
- the nullable `sum`/`average` of an array and `groupBy` over dates (`GroupByDate`);
- the facade's result mappings: access check, sample-read dispatch,
  blood-pressure pairing, heartbeat sessions with fallback, statistics-query
  guard, write-sample construction and save results (`Facade`).

The host's objects are mirrored as datatypes (`Host`). These cover units,
quantities, the predicate objects a query is given, devices, samples,
statistics, errors and object types. The host's answers (authorization flags,
query results, series reads, save flags) are parameters of the facade's
functions. `Double`, `Date` and `TimeInterval` are reals. A date difference is
`end - start`.

The sources are in the middle of a rename, so the model follows evident intent:

- The facade names `HKModelBuilder`, `HKStatsSample`, `HKError`, `HKSampleType`
  and `HKDomain`, but it uses members that only the `HKF*` types have. Examples:
  `build(_:type:)`, `buildDevice`, `failedToRead(_)`, `failedToRead_noStats`,
  `asSampleType`. The facade is therefore modelled over the `HKF*` types. Its
  predicates are the legacy predicate trees, which are what it hands to the
  legacy builder.
- `HKFAggregationType` gains `mostRecent`, because the statistics builder
  switches over it.
- `HKFStatsSample` is built with four arguments `(value:type:period:source:)`.
  In the sample builder the fourth argument is a device. It is modelled as the
  sample's `device`, and `source` is then absent. Blood-pressure pairing copies
  the systolic sample's device and source.
- The legacy sample builder passes no metric type, so `LegacyStatsSample` holds
  only `val`, `period` and `source`.
- The read dispatch follows the request shape the facade switches over:
  discrete sample, blood pressure, heartbeat series. That shape differs from the
  one in `Sources/Requests/HKReadSamplesRequest+Types.swift`.
- The sources contain no bucketed statistics reducer. Only what is present is
  modelled.

## Model

| member | source | states |
|---|---|---|
| `Cadence.IdIsTheCase` | Sources/Models/HKFCadence.swift:11-20 | `Cadence.Cadence.Id`: two cadences share an identifier exactly when they are of the same case |
| `Cadence.IdIgnoresCount` | Sources/Models/HKFCadence.swift:11-20 | for each of the six cases the identifier is the case's name whatever the count, e.g. days(1) and days(7) are both "days" |
| `Cadence.WeightIsTierAndCount` | Sources/Models/HKFCadence.swift:21-30 | `Cadence.Cadence.Weight`: the weight is ten times the case's tier plus a tenth of the count |
| `Cadence.LessWithinCase` | Sources/Models/HKFCadence.swift:54-56 | `Cadence.Less` (the `<` of cadences): within one case, it holds exactly when the count is smaller |
| `Cadence.TiersOrdered` | Sources/Models/HKFCadence.swift:21-30 | for counts 0..99, minutes < hours < days < weeks < months < years, whatever the counts |
| `Cadence.TiersOverlapBeyondBound` | Sources/Models/HKFCadence.swift:21-30 | outside 0..99 the tiers overlap: 100 minutes and 0 hours, and 110 minutes and 10 hours, are distinct but neither precedes the other |
| `Cadence.LessIsStrictWeakOrder` | Sources/Models/HKFCadence.swift:54-56 | `<` is irreflexive, asymmetric and transitive, and incomparability is transitive |
| `Cadence.LessIsTotalOnWeight` | Sources/Models/HKFCadence.swift:54-56 | two cadences are ordered one way or the other unless their weights are equal |
| `Cadence.Cadence.DateComponent` | Sources/Models/HKFCadence.swift:32-41 | exactly the one field of the case is set, to the count; weeks use week-of-month |
| `Cadence.CalendarComponentsKeyTheStep` | Sources/Models/HKFCadence.swift:32-52 | every bucket key contains the year and the field the query interval steps |
| `Cadence.CalendarComponentsNest` | Sources/Models/HKFCadence.swift:43-52 | `Cadence.Cadence.CalendarComponents`: years ⊂ months ⊂ days ⊂ hours ⊂ minutes and months ⊂ weeks; weeks have no day and days no week |
| `Values.Value.AsDouble` | Sources/Models/HKFStatsSample+Value.swift:26-31 | non-nil exactly for a non-nil scalar value, and then the scalar itself |
| `Values.Value.AsBloodPressure` | Sources/Models/HKFStatsSample+Value.swift:32-37 | the payload exactly for a blood-pressure value, nil otherwise |
| `Values.Value.AsRriSession` | Sources/Models/HKFStatsSample+Value.swift:39-44 | the payload exactly for a heartbeat-session value, nil otherwise |
| `Values.Value.AsMindfulMinutes` | Sources/Models/HKFStatsSample+Value.swift:46-51 | the payload exactly for a mindful-minutes value, nil otherwise |
| `Values.MaxTimestamp` | Sources/Models/HKFStatsSample+Value.swift:20 | `timestamps.max()`: nil exactly for no timestamps, otherwise a timestamp no other exceeds |
| `Values.LessBySortKey` | Sources/Models/HKFStatsSample+Value.swift:11-22 | `Values.Less` (the `<` of values) compares the sort key of the left operand with the right operand's key when both are of one case, and with 0 otherwise |
| `Values.LessIrreflexive` | Sources/Models/HKFStatsSample+Value.swift:11-22 | no value precedes itself |
| `Values.LessWithinCaseIsStrictWeakOrder` | Sources/Models/HKFStatsSample+Value.swift:11-22 | among values of one case, `<` is asymmetric and transitive, and incomparability is transitive |
| `Values.NilScalarIsZero` | Sources/Models/HKFStatsSample+Value.swift:13-14 | a nil scalar counts as 0 on either side, also against a non-scalar right operand |
| `Values.BloodPressureBySystolic` | Sources/Models/HKFStatsSample+Value.swift:17-18 | blood pressures compare by systolic pressure, and changing the diastolic pressure changes nothing |
| `Values.MindfulMinutesByDuration` | Sources/Models/HKFStatsSample+Value.swift:15-16 | mindful-minutes values compare by end − start |
| `Values.RriSessionsByLargestTimestamp` | Sources/Models/HKFStatsSample+Value.swift:19-20 | sessions compare by largest timestamp, an empty session counting as 0, stated through the timestamps themselves |
| `Values.MixedCasesNotAsymmetric` | Sources/Models/HKFStatsSample+Value.swift:11-22 | across cases `<` is not asymmetric: a scalar −1 and a blood pressure with systolic −1 each precede the other |
| `MetricTypes.CategoryTypeOnlyForMindfulMinutes` | Sources/Models/HKFMetricType.swift:46-74 | `MetricTypes.AsHKCategoryType`: the category type is non-nil exactly for mindful minutes, and it agrees with the general lookup |
| `MetricTypes.ObjectTypeClassification` | Sources/Models/HKFMetricType.swift:76-107 | `MetricTypes.AsHKQuantityType`: no object only for blood pressure; heartbeat intervals are the heartbeat series type; only mindful minutes is a category type |
| `MetricTypes.CastsClassify` | Sources/Models/HKFMetricType.swift:40-44 | the quantity-type cast fails exactly for blood pressure, heartbeat intervals and mindful minutes; the sample-type cast fails only for blood pressure; the series cast succeeds only for heartbeat intervals |
| `MetricTypes.ObjectTypeInjective` | Sources/Models/HKFMetricType.swift:76-107 | distinct metric types never share a host object type |
| `MetricTypes.SharedUnits` | Sources/Models/HKFMetricType.swift:20-38 | `MetricTypes.Units`: the three pressures share mmHg (and nothing else uses it); heart and breath rate share times per minute; SDNN and heartbeat intervals share seconds |
| `Domains.ContainsIffDomainOf` | Sources/Models/HKFDomain.swift:8-35 | `Domains.Domain.Contains`: `contains(t)` holds exactly when `t` is listed, which is exactly when that domain is `t`'s domain in a type-by-type table |
| `Domains.AssociatedTypesDistinct` | Sources/Models/HKFDomain.swift:8-31 | no list repeats a type |
| `Domains.DomainsDisjoint` | Sources/Models/HKFDomain.swift:8-31 | no type is in two domains |
| `Domains.BloodPressureOnlyByParts` | Sources/Models/HKFDomain.swift:17-25 | the composite blood pressure is in no domain; systolic and diastolic are in cardio |
| `Domains.DomainSizes` | Sources/Models/HKFDomain.swift:10-29 | meditation is exactly [mindful minutes]; fitness has four types and cardio seven |
| `LegacyDomains.ContainsIffLegacyDomainOf` | Sources/Models/HKDomain.swift:7-16 | `contains(t)` holds exactly when `t` is listed, which is exactly when that domain is `t`'s domain in a type-by-type table |
| `LegacyDomains.LegacyDomainContents` | Sources/Models/HKDomain.swift:7-12 | cardio is only heart rate; fitness is steps, distance, basal and active energy; every type is in exactly one |
| `GroupByDate.FoldAddIsSum` | Sources/Utils/Sequence+GroupByDate.swift:25-26 | the left fold of + from a start value adds the arithmetic sum to that value |
| `GroupByDate.Sum` | Sources/Utils/Sequence+GroupByDate.swift:21-28 | nil exactly for the empty array, otherwise the sum of the elements |
| `GroupByDate.Average` | Sources/Utils/Sequence+GroupByDate.swift:16-19 | nil exactly for the empty array, otherwise a value that times the count gives the sum |
| `GroupByDate.AverageWithinBounds` | Sources/Utils/Sequence+GroupByDate.swift:16-19 | the average lies between any lower and upper bound of the elements |
| `GroupByDate.GroupBy` | Sources/Utils/Sequence+GroupByDate.swift:8-12 | one group per key that occurs, each group being the elements with that key in input order |
| `GroupByDate.EachElementInItsGroup` | Sources/Utils/Sequence+GroupByDate.swift:8-12 | every element is in the group keyed by its date's components |
| `GroupByDate.GroupsHoldOnlyTheirKey` | Sources/Utils/Sequence+GroupByDate.swift:8-12 | a group holds only input elements with its key |
| `GroupByDate.GroupSizesAddUp` | Sources/Utils/Sequence+GroupByDate.swift:8-12 | the group sizes add up to the input length, so no element is lost or duplicated |
| `ModelBuilder.BuildValueIgnoresType` | Sources/Builders/HKFModelBuilder.swift:63-74 | `ModelBuilder.BuildValue`: the value built from a raw scalar is the same for every metric type and gives the scalar back |
| `ModelBuilder.BuildStats` | Sources/Builders/HKFModelBuilder.swift:6-61 | always a sample: the statistic's interval as period, no device or source, and a scalar that is present exactly when the aggregation's quantity is, equal to that quantity in the metric's unit |
| `ModelBuilder.RoundHalfAwayFromZero` | Sources/Builders/HKFModelBuilder.swift:81 | `lround`: within one half of the input, and halves go away from zero |
| `ModelBuilder.BuildCategoryValue` | Sources/Builders/HKFModelBuilder.swift:76-83 | 0 for mindful minutes whatever the value; otherwise the nearest integer, halves away from zero |
| `ModelBuilder.BuildPredicate` | Sources/Builders/HKFModelBuilder.swift:85-88 | nil exactly for a nil predicate; otherwise a host predicate from which the domain predicate is read back |
| `ModelBuilder.TranslateRoundTrip` | Sources/Builders/HKFModelBuilder.swift:90-119 | `ModelBuilder.Translate`: reading the translation back gives the original predicate, so shape, child count and order, and leaf data are all preserved |
| `ModelBuilder.TranslateNodes` | Sources/Builders/HKFModelBuilder.swift:90-117 | not maps to not of the translated child; and/or map to the same kind with the translated children in order; quantity leaves carry the given unit and value, date leaves the range bounds, source leaves allow exactly the name |
| `ModelBuilder.TranslateUsesUnits` | Sources/Builders/HKFModelBuilder.swift:103-107 | every quantity in a translated predicate is in the given unit |
| `ModelBuilder.BuildSampleValue` | Sources/Builders/HKFModelBuilder.swift:130-146 | quantity sample: the quantity in the metric's unit; mindful category sample: its length in minutes; other category sample: its code; any other kind: nil |
| `ModelBuilder.BuildSample` | Sources/Builders/HKFModelBuilder.swift:121-128 | a scalar sample of the given type, with the host sample's interval as period and its mapped device |
| `ModelBuilder.DeviceFrom` | Sources/Builders/HKFModelBuilder.swift:148-157 | nil exactly for nil; every field copied, an absent one becoming "" |
| `ModelBuilder.HostDeviceFrom` | Sources/Builders/HKFModelBuilder.swift:159-170 | firmware version, local identifier and UDI are left absent |
| `ModelBuilder.DeviceRoundTrip` | Sources/Builders/HKFModelBuilder.swift:148-170 | a device sent to the host and read back is unchanged |
| `ModelBuilder.HostDeviceRoundTrip` | Sources/Builders/HKFModelBuilder.swift:148-170 | a host device survives the round trip exactly when its five descriptive fields are present and the other three absent |
| `LegacyModelBuilder.LegacyBuildPredicate` | Sources/Builders/HKModelBuilder.swift:6-9 | nil exactly for a nil predicate; otherwise a host predicate from which the legacy predicate is read back |
| `LegacyModelBuilder.LegacyTranslateRoundTrip` | Sources/Builders/HKModelBuilder.swift:11-35 | `LegacyModelBuilder.LegacyTranslate`: reading the legacy translation back gives the original, so not/and/or shape, child count and order, and leaf data are preserved |
| `LegacyModelBuilder.LegacyTranslateNodes` | Sources/Builders/HKModelBuilder.swift:11-33 | each node maps to its host counterpart; quantity leaves use the given unit and value, date leaves the range bounds |
| `LegacyModelBuilder.LegacyDeviceFrom` | Sources/Builders/HKModelBuilder.swift:45-53 | nil exactly for nil; absent name, hardware, software and manufacturer become "" |
| `LegacyModelBuilder.LegacyBuildSample` | Sources/Builders/HKModelBuilder.swift:37-43 | the quantity in the given unit, the sample's interval as period, its mapped device as source |
| `Facade.RequestedTypes` | Sources/HKFacade.swift:31 | a type is requested exactly when one of the domains contains it |
| `Facade.RequestedIffDomainListed` | Sources/HKFacade.swift:31 | a metric type is requested exactly when the domain the type table gives it is one of the listed domains |
| `Facade.AuthorizationTypes` | Sources/HKFacade.swift:31-52 | the share set (sample types) and the read set (object types) are equal; an object type is in them exactly when some metric type of a listed domain, by the type table, maps to it |
| `Facade.AuthorizationCoversRequestedTypes` | Sources/HKFacade.swift:31-52 | every requested metric type has a sample type that is in the share set |
| `Facade.ObjectTypesOfSize` | Sources/Models/HKFMetricType.swift:76-107 | a set of metric types with object types maps onto exactly as many object types |
| `Facade.AuthorizationSize` | Sources/HKFacade.swift:31-52 | the request holds one object type per distinct requested metric type: no two collapse into one |
| `Facade.AuthorizationResult` | Sources/HKFacade.swift:44-60 | no store gives "not available"; a host error gives a general error; otherwise the host's flag |
| `Facade.CheckAccess` | Sources/HKFacade.swift:30-41 | an error passes through unchanged, false gives "no access for domain", and only true is success |
| `Facade.CheckAccessGrantsOnlyOnFullGrant` | Sources/HKFacade.swift:30-60 | access succeeds exactly when a store exists, no error is reported and the flag is true |
| `Facade.ReadSamplesResult` | Sources/HKFacade.swift:353-388 | no store, unsupported type (only blood pressure) and host error fail in that order; no collection gives no samples; otherwise one built sample per host sample, in order |
| `Facade.PairOne` | Sources/HKFacade.swift:138-156 | a pair gives one blood-pressure sample exactly when the periods are equal and both carry a scalar |
| `Facade.PairBloodPressure` | Sources/HKFacade.swift:136-157 | never more results than either list has samples |
| `Facade.PairingCombinesSameIndex` | Sources/HKFacade.swift:136-157 | every result combines the pair at one index: type blood pressure, the two scalars, and the systolic sample's period and origin |
| `Facade.PairingSplits` | Sources/HKFacade.swift:137-146 | splitting both lists at one index splits the result at the same point |
| `Facade.PairingIsPositional` | Sources/HKFacade.swift:137-146 | pairing is by index: the result is the prefix's pairs, then the pair at i if it matches, then the suffix's pairs, so a mismatch is dropped, not realigned |
| `Facade.PairingKeepsAllMatching` | Sources/HKFacade.swift:136-157 | when every pair matches, there is one result per index of the shorter list, combining that index's pair |
| `Facade.ReadBloodPressure` | Sources/HKFacade.swift:123-158 | if either read fails the result is "no stats"; otherwise the pairing of the two results |
| `Facade.SessionWithSeries` | Sources/HKFacade.swift:191-203 | the session's start and end as period; the series' timestamps if its read succeeded, none if it failed or did not run |
| `Facade.ReadRri` | Sources/HKFacade.swift:185-210 | a failed discovery gives failed-to-read of its error; otherwise one session per discovered session, in order, each with the outcome of the series read of that session object (sessions carry their identity), a failed read giving empty timestamps |
| `Facade.SessionsReadApart` | Sources/HKFacade.swift:191-203 | two discovered sessions with the same dates are read separately: one can keep its timestamps while the other, whose read failed, gets none |
| `Facade.RriSamples` | Sources/HKFacade.swift:95-99 | one heartbeat-interval sample per session, with the session as value and its period, and no device or source |
| `Facade.Read` | Sources/HKFacade.swift:87-104 | discrete reads return the type's read; blood pressure pairs the systolic and diastolic reads; heartbeat reads give one sample per discovered session or pass the discovery failure on |
| `Facade.StatsQueryFor` | Sources/HKFacade.swift:264-280 | "failed to get quantity type" exactly for blood pressure, heartbeat intervals and mindful minutes; otherwise the metric's own quantity type from the object table, the metric's unit, and the cadence's one-field interval |
| `Facade.StatsNotification` | Sources/HKFacade.swift:282-289 | a missing collection is "no stats", and a present one is delivered |
| `Facade.QuantitySampleFor` | Sources/HKFacade.swift:390-403 | refused exactly for metrics without a quantity type; otherwise saved as the metric's own quantity type from the object table, with the value in the metric's unit, the period, and the host device built from the device: no firmware version, local identifier or UDI, and reading back unchanged |
| `Facade.CategorySampleFor` | Sources/HKFacade.swift:405-420 | refused for every metric but mindful minutes; that one is saved as the mindful-session category type, its code is the built category value, which is always 0, and the host device is built from the device: no firmware version, local identifier or UDI, and reading back unchanged |
| `Facade.SaveSample` | Sources/HKFacade.swift:422-439 | no store gives "not available"; an error gives failed-to-save with it; false without error gives "failed to save safe"; only then success |

## Left out

- Store interaction is not modelled. This covers authorization requests, sample, statistics-collection, heartbeat-session and heartbeat-series queries, save calls, continuations, and the Combine publisher with its cancel-to-stop hook. The host's answers are parameters instead.
- The query filters and limits are not modelled. A read request's predicate and limit only shape the host query, whose answer is a parameter.
- `readHeartbeatSessions` is not modelled: it is a store query. As written, it reports success even when the query returns an error.
- `readHeartbeatSeries` is not modelled. It appends timestamps in a host callback, so it is I/O-bound.
- Concurrency is not modelled. `async let` in `readBloodPressure` and `concurrentMap`/`concurrentForEach` are modelled as sequential maps.
- `readCorrelation` is not modelled: it is a fixed demo query that only prints.
- `writeRri` is not modelled: it drives the host's heartbeat-series builder.
- The `write(request:)` dispatch is not modelled. Its switch omits two cases of its own request type. Only the per-kind sample construction and the save result are modelled.
- `Sources/HealthService.swift` is not modelled. It is a superseded wrapper, and its result mappings repeat the facade's.
- Calendar arithmetic is not modelled. `Calendar.current` in `groupBy` is the `calendar` parameter of `Keying`, and `Sources/Utils/Date+AddComponent.swift` is not part of this model.
- Unit conversion (`doubleValue(for:)`) is not modelled. It is the `conv` parameter.
- Floating point is not modelled: doubles, dates and durations are reals. Cadence weights, averages and durations are exact, and `lround` is exact rounding.
- `ModelBuilder.BuildCategoryValue`: `lround` of a NaN or out-of-range double gives an unspecified integer; the model rounds the exact real and does not capture that case.
- In the mindful-minutes comparison, a non-mindful right operand calls `Date()` twice. That duration is modelled as 0.
- Cadence counts are unbounded integers. Swift's `Int` overflow is not modelled.
- Lookups of host constants are not modelled. These are `Sources/Builders/HKStatisticsCollectionBuilder.swift`, `asStatsOption`, the legacy quantity types' units and object lookups, and the unit extensions. The legacy quantity type appears only as the element of the legacy domains.
- The metadata field of samples (`[String: Any]`) is not modelled.
- Logging is not modelled: the messages printed for a default category value, an unsupported host sample, a failed heartbeat series read and the number of samples or statistics found have no effect on results.
- The cadence cases' default count of 1 is not modelled: a default argument is a call-site convenience, and every cadence in the model carries its count explicitly.
