/** The plain records and enumerations of the domain model: periods, devices,
    sources, the composite measurement payloads, the aggregation kinds and the
    error taxonomy. */
module Records {
  import opened Wrappers
  import opened Host

  /** A closed time interval. Nothing enforces start <= end. */
  datatype Period = Period(start: Date, end: Date)

  /** A time range whose bounds may each be absent. */
  datatype OpenDateRange = OpenDateRange(start: Option<Date>, end: Option<Date>)

  /** A device as the domain model describes it: every field present. */
  datatype Device = Device(
    name: string,
    model: string,
    hardwareVersion: string,
    softwareVersion: string,
    manufacturer: string)

  /** An application that recorded a sample. */
  datatype Source = Source(name: string, bundleId: string)

  datatype BloodPressure = BloodPressure(systolic: real, diastolic: real)

  /** A heartbeat session: its period and the beat timestamps within it. */
  datatype RriSession = RriSession(period: Period, timestamps: seq<TimeInterval>)

  datatype MindfulMinutes = MindfulMinutes(start: Date, end: Date) {
    /** The session length, `end.timeIntervalSince(start)`. */
    function Interval(): TimeInterval {
      TimeIntervalSince(end, start)
    }
  }

  /** The aggregation a statistics read asks for. */
  datatype AggregationType = Avg | Min | Max | Sum | MostRecent

  /** The facade's error taxonomy. */
  datatype Error =
    | HkNotAvailable
    | NoAccessForDomain
    | TypeIsNotInDomain
    | FailedToGetQuantityType
    | FailedToReadStats(msg: string)
    | General(cause: HostError)
    | FailedToSaveQuantitySample
    | FailedToSaveCategorySample
    | FailedToSave(cause: HostError)
    | FailedToSaveSafe
    | FailedToRead(inner: Error)
    | FailedToReadNoStats
    | FailedToReadUnsupportedType
    | FailedToSaveUnsupportedType
    | FailedToSaveInvalidPeriod
}
