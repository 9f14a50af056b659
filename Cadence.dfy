/** The bucketing granularity of statistics reads: its identifier, the weight
    that orders cadences, the date-components step it stands for and the
    calendar fields a bucket is keyed by. */
module Cadence {
  import opened Wrappers

  /** The calendar fields the model refers to. */
  datatype CalendarComponent = Year | Month | WeekOfMonth | Day | Hour | Minute

  /** A date-components value: each field set or absent. */
  datatype DateComponents = DateComponents(
    minute: Option<int>,
    hour: Option<int>,
    day: Option<int>,
    weekOfMonth: Option<int>,
    month: Option<int>,
    year: Option<int>)
  {
    /** The field `comp` of these components. */
    function Get(comp: CalendarComponent): Option<int> {
      match comp
      case Minute => minute
      case Hour => hour
      case Day => day
      case WeekOfMonth => weekOfMonth
      case Month => month
      case Year => year
    }
  }

  /** A cadence: a count of one calendar unit. */
  datatype Cadence =
    | Minutes(count: int)
    | Hours(count: int)
    | Days(count: int)
    | Weeks(count: int)
    | Months(count: int)
    | Years(count: int)
  {
    /** The identifier: the name of the case, whatever the count. */
    function Id(): string {
      match this
      case Minutes(_) => "minutes"
      case Hours(_) => "hours"
      case Days(_) => "days"
      case Weeks(_) => "weeks"
      case Months(_) => "months"
      case Years(_) => "years"
    }

    /** The rank of the case, from 1 for minutes to 6 for years. */
    function Tier(): int {
      match this
      case Minutes(_) => 1
      case Hours(_) => 2
      case Days(_) => 3
      case Weeks(_) => 4
      case Months(_) => 5
      case Years(_) => 6
    }

    /** The ordering weight: ten per tier plus a tenth of the count. */
    function Weight(): real {
      match this
      case Minutes(n) => 10.0 + n as real / 10.0
      case Hours(n) => 20.0 + n as real / 10.0
      case Days(n) => 30.0 + n as real / 10.0
      case Weeks(n) => 40.0 + n as real / 10.0
      case Months(n) => 50.0 + n as real / 10.0
      case Years(n) => 60.0 + n as real / 10.0
    }

    /** The calendar field a step of this cadence advances. */
    function StepField(): CalendarComponent {
      match this
      case Minutes(_) => Minute
      case Hours(_) => Hour
      case Days(_) => Day
      case Weeks(_) => WeekOfMonth
      case Months(_) => Month
      case Years(_) => Year
    }

    /** The interval of a statistics-collection query: the count, in the
        field of this cadence, every other field absent. */
    function DateComponent(): (dc: DateComponents)
      ensures forall comp :: dc.Get(comp) == if comp == StepField() then Some(count) else None
    {
      match this
      case Minutes(n) => DateComponents(Some(n), None, None, None, None, None)
      case Hours(n) => DateComponents(None, Some(n), None, None, None, None)
      case Days(n) => DateComponents(None, None, Some(n), None, None, None)
      case Weeks(n) => DateComponents(None, None, None, Some(n), None, None)
      case Months(n) => DateComponents(None, None, None, None, Some(n), None)
      case Years(n) => DateComponents(None, None, None, None, None, Some(n))
    }

    /** The calendar fields that key a bucket of this cadence. */
    function CalendarComponents(): set<CalendarComponent> {
      match this
      case Years(_) => {Year}
      case Months(_) => {Year, Month}
      case Weeks(_) => {Year, Month, WeekOfMonth}
      case Days(_) => {Year, Month, Day}
      case Hours(_) => {Year, Month, Day, Hour}
      case Minutes(_) => {Year, Month, Day, Hour, Minute}
    }
  }

  /** The cadence ordering: by weight alone. */
  predicate Less(lhs: Cadence, rhs: Cadence) {
    lhs.Weight() < rhs.Weight()
  }

  /** The weight is ten times the tier plus a tenth of the count. */
  lemma WeightIsTierAndCount(c: Cadence)
    ensures c.Weight() == (10 * c.Tier()) as real + c.count as real / 10.0
  {
  }

  /** The identifier names the case: two cadences share it exactly when they
      are of the same case, and the count never affects it. */
  lemma IdIsTheCase(c: Cadence, d: Cadence)
    ensures c.Id() == d.Id() <==> c.Tier() == d.Tier()
  {
    if c.Tier() != d.Tier() {
      // The first two letters already tell the six names apart.
      assert c.Id()[0] != d.Id()[0] || c.Id()[1] != d.Id()[1];
    }
  }

  /** The identifier names the case only: for every case, two counts give
      the same identifier (so `days(1).id == days(7).id == "days"`). */
  lemma IdIgnoresCount(n: int, m: int)
    ensures Minutes(n).Id() == Minutes(m).Id() == "minutes"
    ensures Hours(n).Id() == Hours(m).Id() == "hours"
    ensures Days(n).Id() == Days(m).Id() == "days"
    ensures Weeks(n).Id() == Weeks(m).Id() == "weeks"
    ensures Months(n).Id() == Months(m).Id() == "months"
    ensures Years(n).Id() == Years(m).Id() == "years"
  {
  }

  /** Within one case the ordering follows the count. */
  lemma LessWithinCase(c: Cadence, d: Cadence)
    requires c.Tier() == d.Tier()
    ensures Less(c, d) <==> c.count < d.count
  {
    WeightIsTierAndCount(c);
    WeightIsTierAndCount(d);
  }

  /** For counts in 0..99 every cadence of a lower tier precedes every cadence
      of a higher one: minutes < hours < days < weeks < months < years. */
  lemma TiersOrdered(c: Cadence, d: Cadence)
    requires 0 <= c.count < 100 && 0 <= d.count < 100
    requires c.Tier() < d.Tier()
    ensures Less(c, d) && !Less(d, c)
  {
    WeightIsTierAndCount(c);
    WeightIsTierAndCount(d);
  }

  /** Outside 0..99 the tiers overlap: 100 minutes weigh as much as 0 hours,
      and 110 minutes as much as 10 hours, so neither precedes the other
      although they differ. */
  lemma TiersOverlapBeyondBound()
    ensures !Less(Minutes(100), Hours(0)) && !Less(Hours(0), Minutes(100))
    ensures Minutes(110) != Hours(10) && !Less(Minutes(110), Hours(10)) && !Less(Hours(10), Minutes(110))
  {
  }

  /** The ordering is a strict weak order: irreflexive, transitive, and
      incomparability (equal weight) is transitive too. */
  lemma LessIsStrictWeakOrder(a: Cadence, b: Cadence, c: Cadence)
    ensures !Less(a, a)
    ensures Less(a, b) && Less(b, c) ==> Less(a, c)
    ensures Less(a, b) ==> !Less(b, a)
    ensures !Less(a, b) && !Less(b, a) && !Less(b, c) && !Less(c, b) ==> !Less(a, c) && !Less(c, a)
  {
  }

  /** Two cadences of equal weight are incomparable; of different weight, one
      precedes the other. */
  lemma LessIsTotalOnWeight(a: Cadence, b: Cadence)
    ensures Less(a, b) || Less(b, a) || a.Weight() == b.Weight()
  {
  }

  /** Every bucket key includes the year, and the field a query interval
      steps is one of the fields that key the bucket. */
  lemma CalendarComponentsKeyTheStep(c: Cadence)
    ensures Year in c.CalendarComponents()
    ensures c.StepField() in c.CalendarComponents()
  {
  }

  /** The bucket keys nest: years within months within days within hours
      within minutes, and months within weeks, but weeks are not keyed by day.
      Each step of the chain adds exactly the finer cadence's own field. */
  lemma CalendarComponentsNest(n1: int, n2: int)
    ensures Years(n1).CalendarComponents() < Months(n2).CalendarComponents()
    ensures Months(n1).CalendarComponents() < Days(n2).CalendarComponents()
    ensures Days(n1).CalendarComponents() < Hours(n2).CalendarComponents()
    ensures Hours(n1).CalendarComponents() < Minutes(n2).CalendarComponents()
    ensures Months(n1).CalendarComponents() < Weeks(n2).CalendarComponents()
    ensures Day !in Weeks(n1).CalendarComponents()
    ensures WeekOfMonth !in Days(n1).CalendarComponents()
    ensures Days(n2).CalendarComponents() - Months(n1).CalendarComponents() == {Day}
    ensures Minutes(n2).CalendarComponents() - Hours(n1).CalendarComponents() == {Minute}
  {
  }
}
