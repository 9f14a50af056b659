/** The value a statistics sample carries: a closed sum of a nullable scalar,
    a heartbeat session, a blood-pressure pair and a mindful-minutes interval,
    with one projection per case and a type-specific ordering. */
module Values {
  import opened Wrappers
  import opened Host
  import Records

  datatype Value =
    | NullableDouble(double: Option<real>)
    | RriSession(session: Records.RriSession)
    | BloodPressure(pressure: Records.BloodPressure)
    | MindfulMinutes(minutes: Records.MindfulMinutes)
  {
    /** The scalar, present only for a non-nil scalar value. */
    function AsDouble(): (r: Option<real>)
      ensures r.Some? <==> NullableDouble? && double.Some?
      ensures r.Some? ==> this == NullableDouble(Some(r.value))
    {
      match this
      case NullableDouble(v) => v
      case _ => None
    }

    /** The blood-pressure payload, present only for that case. */
    function AsBloodPressure(): (r: Option<Records.BloodPressure>)
      ensures r.Some? <==> BloodPressure?
      ensures r.Some? ==> this == BloodPressure(r.value)
    {
      match this
      case BloodPressure(v) => Some(v)
      case _ => None
    }

    /** The heartbeat session, present only for that case. */
    function AsRriSession(): (r: Option<Records.RriSession>)
      ensures r.Some? <==> RriSession?
      ensures r.Some? ==> this == RriSession(r.value)
    {
      match this
      case RriSession(v) => Some(v)
      case _ => None
    }

    /** The mindful-minutes interval, present only for that case. */
    function AsMindfulMinutes(): (r: Option<Records.MindfulMinutes>)
      ensures r.Some? <==> MindfulMinutes?
      ensures r.Some? ==> this == MindfulMinutes(r.value)
    {
      match this
      case MindfulMinutes(v) => Some(v)
      case _ => None
    }
  }

  /** The largest timestamp of a session, nil when it has none. */
  function MaxTimestamp(ts: seq<TimeInterval>): (r: Option<TimeInterval>)
    ensures r.None? <==> |ts| == 0
    ensures r.Some? ==> r.value in ts && forall t :: t in ts ==> t <= r.value
  {
    if |ts| == 0 then None
    else
      assert ts == [ts[0]] + ts[1..];
      match MaxTimestamp(ts[1..])
      case None => Some(ts[0])
      case Some(m) => Some(if ts[0] >= m then ts[0] else m)
  }

  /** The ordering of values. The left operand's case chooses the comparison;
      a right operand of another case contributes 0. A non-mindful right
      operand of a mindful comparison stands for the length of an empty
      interval, also 0. */
  predicate Less(lhs: Value, rhs: Value) {
    match lhs
    case NullableDouble(l) =>
      l.GetOr(0.0) < rhs.AsDouble().GetOr(0.0)
    case MindfulMinutes(l) =>
      l.Interval() < (match rhs.AsMindfulMinutes() case Some(r) => r.Interval() case None => 0.0)
    case BloodPressure(l) =>
      l.systolic < (match rhs.AsBloodPressure() case Some(r) => r.systolic case None => 0.0)
    case RriSession(l) =>
      MaxTimestamp(l.timestamps).GetOr(0.0)
        < (match rhs.AsRriSession() case Some(r) => MaxTimestamp(r.timestamps).GetOr(0.0) case None => 0.0)
  }

  /** Both values are of the same case. */
  predicate SameCase(a: Value, b: Value) {
    || (a.NullableDouble? && b.NullableDouble?)
    || (a.RriSession? && b.RriSession?)
    || (a.BloodPressure? && b.BloodPressure?)
    || (a.MindfulMinutes? && b.MindfulMinutes?)
  }

  /** The number a value is compared by, independently of the ordering: the
      scalar (nil as 0), the interval length, the systolic pressure, or the
      largest timestamp (0 for an empty session). */
  ghost function SortKey(v: Value): real {
    match v
    case NullableDouble(d) => if d.Some? then d.value else 0.0
    case MindfulMinutes(m) => m.end - m.start
    case BloodPressure(b) => b.systolic
    case RriSession(s) =>
      if |s.timestamps| == 0 then 0.0
      else
        LargestExists(s.timestamps);
        var m :| m in s.timestamps && forall t :: t in s.timestamps ==> t <= m; m
  }

  /** A non-empty sequence has a largest element. */
  lemma LargestExists(ts: seq<real>)
    requires |ts| > 0
    ensures exists m :: m in ts && forall t :: t in ts ==> t <= m
  {
    var m := MaxTimestamp(ts).value;
    assert m in ts && forall t :: t in ts ==> t <= m;
  }

  /** The largest element of a sequence is unique. */
  lemma MaxIsUnique(ts: seq<real>, m: real, m': real)
    requires m in ts && forall t :: t in ts ==> t <= m
    requires m' in ts && forall t :: t in ts ==> t <= m'
    ensures m == m'
  {
  }

  /** The ordering compares sort keys: within one case key against key, and
      against 0 when the right operand is of another case. */
  lemma LessBySortKey(a: Value, b: Value)
    ensures Less(a, b) <==> SortKey(a) < (if SameCase(a, b) then SortKey(b) else 0.0)
  {
    if a.RriSession? {
      var ma := MaxTimestamp(a.session.timestamps);
      if ma.Some? {
        var k :| k in a.session.timestamps && forall t :: t in a.session.timestamps ==> t <= k;
        MaxIsUnique(a.session.timestamps, k, ma.value);
      }
    }
    if b.RriSession? {
      var mb := MaxTimestamp(b.session.timestamps);
      if mb.Some? {
        var k :| k in b.session.timestamps && forall t :: t in b.session.timestamps ==> t <= k;
        MaxIsUnique(b.session.timestamps, k, mb.value);
      }
    }
  }

  /** No value precedes itself. */
  lemma LessIrreflexive(v: Value)
    ensures !Less(v, v)
  {
    LessBySortKey(v, v);
  }

  /** Among values of one case the ordering is a strict weak order. */
  lemma LessWithinCaseIsStrictWeakOrder(a: Value, b: Value, c: Value)
    requires SameCase(a, b) && SameCase(b, c)
    ensures Less(a, b) ==> !Less(b, a)
    ensures Less(a, b) && Less(b, c) ==> Less(a, c)
    ensures !Less(a, b) && !Less(b, a) && !Less(b, c) && !Less(c, b) ==> !Less(a, c) && !Less(c, a)
  {
    LessBySortKey(a, b);
    LessBySortKey(b, a);
    LessBySortKey(b, c);
    LessBySortKey(c, b);
    LessBySortKey(a, c);
    LessBySortKey(c, a);
  }

  /** A nil scalar counts as 0 on either side, also against a right operand
      that is not a scalar at all. */
  lemma NilScalarIsZero(x: Option<real>, rhs: Value)
    ensures Less(NullableDouble(None), rhs) <==> Less(NullableDouble(Some(0.0)), rhs)
    ensures Less(NullableDouble(x), NullableDouble(None)) <==> Less(NullableDouble(x), NullableDouble(Some(0.0)))
    ensures !rhs.NullableDouble? ==> (Less(NullableDouble(x), rhs) <==> x.GetOr(0.0) < 0.0)
  {
  }

  /** Two blood-pressure values compare by systolic pressure; the diastolic
      pressure plays no part. */
  lemma BloodPressureBySystolic(a: Records.BloodPressure, b: Records.BloodPressure, d1: real, d2: real)
    ensures Less(BloodPressure(a), BloodPressure(b)) <==> a.systolic < b.systolic
    ensures Less(BloodPressure(a), BloodPressure(b))
        <==> Less(BloodPressure(a.(diastolic := d1)), BloodPressure(b.(diastolic := d2)))
  {
  }

  /** Two mindful-minutes values compare by duration, end minus start. */
  lemma MindfulMinutesByDuration(a: Records.MindfulMinutes, b: Records.MindfulMinutes)
    ensures Less(MindfulMinutes(a), MindfulMinutes(b)) <==> a.end - a.start < b.end - b.start
  {
  }

  /** Two heartbeat sessions compare by their largest timestamps, an empty
      session counting as 0: a non-empty session precedes another exactly
      when some timestamp of the other exceeds all of its own. */
  lemma RriSessionsByLargestTimestamp(a: Records.RriSession, b: Records.RriSession)
    ensures |a.timestamps| > 0 && |b.timestamps| > 0 ==>
      (Less(RriSession(a), RriSession(b)) <==>
        exists y :: y in b.timestamps && forall x :: x in a.timestamps ==> x < y)
    ensures |a.timestamps| == 0 ==>
      (Less(RriSession(a), RriSession(b)) <==> exists y :: y in b.timestamps && 0.0 < y)
    ensures |b.timestamps| == 0 ==>
      (Less(RriSession(a), RriSession(b)) <==>
        |a.timestamps| > 0 && forall x :: x in a.timestamps ==> x < 0.0)
  {
    var ma := MaxTimestamp(a.timestamps);
    var mb := MaxTimestamp(b.timestamps);
    if mb.Some? {
      assert mb.value in b.timestamps;
    }
    if ma.Some? {
      assert ma.value in a.timestamps;
    }
  }

  /** Across cases the ordering is not asymmetric: a negative scalar and a
      blood pressure with a negative systolic value each precede the other. */
  lemma MixedCasesNotAsymmetric()
    ensures Less(NullableDouble(Some(-1.0)), BloodPressure(Records.BloodPressure(-1.0, 0.0)))
    ensures Less(BloodPressure(Records.BloodPressure(-1.0, 0.0)), NullableDouble(Some(-1.0)))
  {
  }
}
