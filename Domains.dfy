/** Domains: named groups of metric types requested together for access. */
module Domains {
  import opened Wrappers
  import opened MetricTypes

  datatype Domain = Fitness | Cardio | Meditation {
    /** The metric types of this domain, in the order they are requested. */
    function AssociatedTypes(): seq<MetricType> {
      match this
      case Fitness => [Steps, Distance, BasalEnergy, ActiveEnergy]
      case Cardio => [HeartRate, BreathRate, OxygenSaturation, BloodPressureSystolic, BloodPressureDiastolic, Sdnn, Rri]
      case Meditation => [MindfulMinutes]
    }

    /** Whether the metric type belongs to this domain. */
    predicate Contains(t: MetricType) {
      t in AssociatedTypes()
    }
  }

  /** The domain each metric type belongs to, stated type by type; the
      composite blood pressure belongs to none. */
  function DomainOf(t: MetricType): Option<Domain> {
    match t
    case Steps | Distance | BasalEnergy | ActiveEnergy => Some(Fitness)
    case HeartRate | BreathRate | OxygenSaturation | BloodPressureSystolic | BloodPressureDiastolic | Sdnn | Rri => Some(Cardio)
    case MindfulMinutes => Some(Meditation)
    case BloodPressure => None
  }

  /** No metric type is listed twice in one domain. */
  predicate NoDuplicates(ts: seq<MetricType>) {
    forall i, j :: 0 <= i < j < |ts| ==> ts[i] != ts[j]
  }

  /** A domain contains a metric type exactly when that type belongs to it,
      so the lists are pairwise disjoint and blood pressure is in none. */
  lemma ContainsIffDomainOf(d: Domain, t: MetricType)
    ensures d.Contains(t) <==> DomainOf(t) == Some(d)
  {
  }

  /** Every list is free of duplicates. */
  lemma AssociatedTypesDistinct(d: Domain)
    ensures NoDuplicates(d.AssociatedTypes())
  {
  }

  /** The lists are pairwise disjoint. */
  lemma DomainsDisjoint(d1: Domain, d2: Domain, t: MetricType)
    requires d1.Contains(t) && d2.Contains(t)
    ensures d1 == d2
  {
    ContainsIffDomainOf(d1, t);
    ContainsIffDomainOf(d2, t);
  }

  /** The composite blood pressure is in no domain; its parts are cardio. */
  lemma BloodPressureOnlyByParts(d: Domain)
    ensures !d.Contains(BloodPressure)
    ensures Cardio.Contains(BloodPressureSystolic) && Cardio.Contains(BloodPressureDiastolic)
  {
  }

  /** Meditation is exactly mindful minutes; fitness has four types. */
  lemma DomainSizes()
    ensures Meditation.AssociatedTypes() == [MindfulMinutes]
    ensures |Fitness.AssociatedTypes()| == 4
    ensures |Cardio.AssociatedTypes()| == 7
  {
  }
}
